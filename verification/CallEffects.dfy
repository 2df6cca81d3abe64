// What a dispatched call does, said without its access tree: the outcome, the records it
// changes and everything it leaves as it was; the accesses it makes, in order; and what it
// declares.
module CallEffects {
  import opened Storage
  import opened Program
  import opened Balances
  import opened Staking
  import opened Calls
  import opened Effects
  import opened Ledgers

  function TargetsAt(d: Store, a: AccountId): seq<AccountId> {
    var v := Get(d, Nominations(a));
    if v.TargetsValue? then v.targets else []
  }

  /** Outside `keys` nothing has changed: same entries, same values. */
  ghost predicate OnlyAt(d: Store, e: Store, keys: set<Key>) {
    forall k :: k !in keys ==> (k in e <==> k in d) && Get(e, k) == Get(d, k)
  }

  lemma TargetsStored(d: Store, a: AccountId, targets: seq<AccountId>)
    ensures forall x :: TargetsAt(WithTargets(d, a, targets), x) == if x == a then targets else TargetsAt(d, x)
  {
  }

  lemma LedgerApartTargets(d: Store, a: AccountId, l: StakingLedger)
    ensures forall x :: TargetsAt(WithLedger(d, a, l), x) == TargetsAt(d, x)
  {
  }

  // ---------------------------------------------------------------------------
  // The eight calls.

  lemma TransferDoes(origin: AccountId, dest: AccountId, value: nat, d: Store)
    ensures var r := ExecCall(CallOf(TransferCall(dest, value), origin), d);
            var b, t := BalanceAt(d, origin), BalanceAt(d, dest);
            var credited := if origin == dest then b.free else t.free + value;
            if b.free < value then r == ExecResult(Failure("Does not have enough funds."), d)
            else if credited > MAX_BALANCE then r.outcome == Panicked
            else
              && r.outcome == Success && OnlyAt(d, r.store, {BalanceOf(origin), BalanceOf(dest)})
              && BalanceAt(r.store, dest) == AccountBalance(credited, t.reserved)
              && (origin != dest ==> BalanceAt(r.store, origin) == AccountBalance(b.free - value, b.reserved))
  {
    hide ExecCall, Transfer, BalanceAt, WithBalance, OnlyAt;
    TransferEffect(origin, dest, value, d);
    var b := BalanceAt(d, origin);
    if b.free >= value {
      var b1 := b.(free := b.free - value);
      var d1 := WithBalance(d, origin, b1);
      BalanceSeen(d, origin, b1);
      var had := BalanceAt(d1, dest);
      BalanceSeen(d1, dest, had.(free := had.free + value));
      BalanceOnly(d, origin, b1);
      BalanceOnly(d1, dest, had.(free := had.free + value));
      OnlyBoth(d, d1, WithBalance(d1, dest, had.(free := had.free + value)), {BalanceOf(origin)}, {BalanceOf(dest)});
      assert {BalanceOf(origin)} + {BalanceOf(dest)} == {BalanceOf(origin), BalanceOf(dest)};
    }
  }

  lemma BalanceOnly(d: Store, a: AccountId, b: AccountBalance)
    ensures OnlyAt(d, WithBalance(d, a, b), {BalanceOf(a)})
  {
  }

  lemma LedgerOnly(d: Store, a: AccountId, l: StakingLedger)
    ensures OnlyAt(d, WithLedger(d, a, l), {Ledger(a)})
  {
  }

  lemma StashOnly(d: Store, c: AccountId, stash: AccountId)
    ensures OnlyAt(d, WithStash(d, c, stash), {Bonded(c)})
  {
  }

  lemma TargetsOnly(d: Store, a: AccountId, targets: seq<AccountId>)
    ensures OnlyAt(d, WithTargets(d, a, targets), {Nominations(a)})
  {
  }

  lemma OnlyBoth(d: Store, e: Store, f: Store, first: set<Key>, second: set<Key>)
    requires OnlyAt(d, e, first) && OnlyAt(e, f, second)
    ensures OnlyAt(d, f, first + second)
  {
  }

  lemma BondDoes(stash: AccountId, amount: nat, controller: AccountId, d: Store)
    ensures var r := ExecCall(CallOf(BondCall(amount, controller), stash), d);
            var b, l := BalanceAt(d, stash), LedgerAt(d, stash);
            if l.value != 0 || l.controller != DEFAULT_ACCOUNT || l.role != Chilled then
              r == ExecResult(Failure("Already bonded."), d)
            else if b.free < amount then r == ExecResult(Failure("Not enough funds."), d)
            else if b.reserved + amount > MAX_BALANCE then r.outcome == Panicked
            else
              && r.outcome == Success && OnlyAt(d, r.store, {BalanceOf(stash), Bonded(controller), Ledger(stash)})
              && BalanceAt(r.store, stash) == AccountBalance(b.free - amount, b.reserved + amount)
              && StashAt(r.store, controller) == stash
              && LedgerAt(r.store, stash) == StakingLedger(amount, controller, Chilled)
  {
    hide ExecCall, Bond, BalanceAt, LedgerAt, StashAt, WithBalance, WithLedger, WithStash, OnlyAt;
    BondEffect(stash, amount, controller, d);
    var r := Reserve(BalanceAt(d, stash), amount);
    if r.Balance? {
      var l := StakingLedger(amount, controller, Chilled);
      var d1 := WithBalance(d, stash, r.balance);
      var d2 := WithStash(d1, controller, stash);
      BalanceSeen(d, stash, r.balance);
      StashSeen(d1, controller, stash);
      LedgerSeen(d2, stash, l);
      BalanceOnly(d, stash, r.balance);
      StashOnly(d1, controller, stash);
      LedgerOnly(d2, stash, l);
      OnlyBoth(d, d1, d2, {BalanceOf(stash)}, {Bonded(controller)});
      OnlyBoth(d, d2, WithLedger(d2, stash, l), {BalanceOf(stash)} + {Bonded(controller)}, {Ledger(stash)});
      assert {BalanceOf(stash)} + {Bonded(controller)} + {Ledger(stash)} == {BalanceOf(stash), Bonded(controller), Ledger(stash)};
    }
  }

  lemma BondExtraDoes(stash: AccountId, amount: nat, d: Store)
    ensures var r := ExecCall(CallOf(BondExtraCall(amount), stash), d);
            var b, l := BalanceAt(d, stash), LedgerAt(d, stash);
            if l.value == 0 && l.controller == DEFAULT_ACCOUNT && l.role == Chilled then
              r == ExecResult(Failure("Not bonded."), d)
            else if b.free < amount then r == ExecResult(Failure("Not enough funds."), d)
            else if b.reserved + amount > MAX_BALANCE || l.value + amount > MAX_BALANCE then r.outcome == Panicked
            else
              && r.outcome == Success && OnlyAt(d, r.store, {BalanceOf(stash), Ledger(stash)})
              && BalanceAt(r.store, stash) == AccountBalance(b.free - amount, b.reserved + amount)
              && LedgerAt(r.store, stash) == StakingLedger(l.value + amount, l.controller, l.role)
  {
    hide ExecCall, BondExtra, BalanceAt, LedgerAt, StashAt, WithBalance, WithLedger, OnlyAt;
    BondExtraEffect(stash, amount, d);
    var r := Reserve(BalanceAt(d, stash), amount);
    if r.Balance? {
      var l := LedgerAt(d, stash).(value := LedgerAt(d, stash).value + amount);
      var d1 := WithBalance(d, stash, r.balance);
      BalanceSeen(d, stash, r.balance);
      LedgerSeen(d1, stash, l);
      BalanceOnly(d, stash, r.balance);
      LedgerOnly(d1, stash, l);
      OnlyBoth(d, d1, WithLedger(d1, stash, l), {BalanceOf(stash)}, {Ledger(stash)});
      assert {BalanceOf(stash)} + {Ledger(stash)} == {BalanceOf(stash), Ledger(stash)};
    }
  }

  lemma UnbondDoes(stash: AccountId, amount: nat, d: Store)
    ensures var r := ExecCall(CallOf(UnbondCall(amount), stash), d);
            var b, l := BalanceAt(d, stash), LedgerAt(d, stash);
            if l.value == 0 && l.controller == DEFAULT_ACCOUNT && l.role == Chilled then
              r == ExecResult(Failure("Not bonded."), d)
            else if l.value < amount then r == ExecResult(Failure("Too much unbonding."), d)
            else if b.reserved < amount || b.free + amount > MAX_BALANCE then r.outcome == Panicked
            else
              && r.outcome == Success && OnlyAt(d, r.store, {BalanceOf(stash), Ledger(stash)})
              && BalanceAt(r.store, stash) == AccountBalance(b.free + amount, b.reserved - amount)
              && LedgerAt(r.store, stash) == StakingLedger(l.value - amount, l.controller, l.role)
  {
    hide ExecCall, Unbond, BalanceAt, LedgerAt, StashAt, WithBalance, WithLedger, OnlyAt;
    UnbondEffect(stash, amount, d);
    var r, l := Unreserve(BalanceAt(d, stash), amount), LedgerAt(d, stash);
    if l.value >= amount && r.Balance? {
      var l1 := l.(value := l.value - amount);
      var d1 := WithLedger(d, stash, l1);
      LedgerSeen(d, stash, l1);
      BalanceSeen(d1, stash, r.balance);
      LedgerOnly(d, stash, l1);
      BalanceOnly(d1, stash, r.balance);
      OnlyBoth(d, d1, WithBalance(d1, stash, r.balance), {Ledger(stash)}, {BalanceOf(stash)});
      assert {Ledger(stash)} + {BalanceOf(stash)} == {BalanceOf(stash), Ledger(stash)};
    }
  }

  lemma SetControllerDoes(stash: AccountId, ctrl: AccountId, d: Store)
    ensures var r := ExecCall(CallOf(SetControllerCall(ctrl), stash), d);
            var l := LedgerAt(d, stash);
            if l.value == 0 && l.controller == DEFAULT_ACCOUNT && l.role == Chilled then
              r == ExecResult(Failure("Not bonded."), d)
            else if l.controller == ctrl then r == ExecResult(Success, d)
            else
              && r.outcome == Success && OnlyAt(d, r.store, {Bonded(l.controller), Bonded(ctrl), Ledger(stash)})
              && StashAt(r.store, l.controller) == DEFAULT_ACCOUNT && StashAt(r.store, ctrl) == stash
              && LedgerAt(r.store, stash) == StakingLedger(l.value, ctrl, l.role)
  {
    hide ExecCall, SetController, BalanceAt, LedgerAt, StashAt, WithLedger, WithStash, OnlyAt;
    SetControllerEffect(stash, ctrl, d);
    var l := LedgerAt(d, stash);
    if Exists(l) && l.controller != ctrl {
      var d1 := WithStash(d, l.controller, DEFAULT_ACCOUNT);
      var d2 := WithStash(d1, ctrl, stash);
      StashSeen(d, l.controller, DEFAULT_ACCOUNT);
      StashSeen(d1, ctrl, stash);
      LedgerSeen(d2, stash, l.(controller := ctrl));
      StashOnly(d, l.controller, DEFAULT_ACCOUNT);
      StashOnly(d1, ctrl, stash);
      LedgerOnly(d2, stash, l.(controller := ctrl));
      OnlyBoth(d, d1, d2, {Bonded(l.controller)}, {Bonded(ctrl)});
      OnlyBoth(d, d2, WithLedger(d2, stash, l.(controller := ctrl)), {Bonded(l.controller)} + {Bonded(ctrl)}, {Ledger(stash)});
      assert {Bonded(l.controller)} + {Bonded(ctrl)} + {Ledger(stash)} == {Bonded(l.controller), Bonded(ctrl), Ledger(stash)};
    }
  }

  /** What the three role calls have in common: whose role, and when not. */
  ghost predicate RoleDone(ctrl: AccountId, role: StakingRole, d: Store, r: ExecResult) {
    var stash := StashAt(d, ctrl);
    var l := LedgerAt(d, stash);
    if stash == DEFAULT_ACCOUNT then r == ExecResult(Failure("Not bonded."), d)
    else if l.value == 0 && l.controller == DEFAULT_ACCOUNT && l.role == Chilled then r == ExecResult(Panicked, d)
    else
      && r.outcome == Success && OnlyAt(d, r.store, {Ledger(stash), Nominations(stash)})
      && LedgerAt(r.store, stash) == StakingLedger(l.value, l.controller, role)
  }

  /** The role is written on top of what has become of the nominations. */
  lemma RoleOnly(d: Store, e: Store, stash: AccountId, l: StakingLedger)
    requires OnlyAt(d, e, {Nominations(stash)}) || e == d
    ensures OnlyAt(d, WithLedger(e, stash, l), {Ledger(stash), Nominations(stash)})
    ensures LedgerAt(WithLedger(e, stash, l), stash) == l
    ensures e == d ==> OnlyAt(d, WithLedger(e, stash, l), {Ledger(stash)})
  {
    hide LedgerAt, WithLedger;
    LedgerSeen(e, stash, l);
    LedgerOnly(e, stash, l);
  }

  lemma ValidateDoes(ctrl: AccountId, d: Store)
    ensures var r := ExecCall(CallOf(ValidateCall, ctrl), d);
            RoleDone(ctrl, Validator, d, r) && OnlyAt(d, r.store, {Ledger(StashAt(d, ctrl))})
  {
    hide ExecCall, ChangeRole, LedgerAt, StashAt, WithLedger, WithTargets;
    RoleEffect(ctrl, ToValidator, d);
    var stash := StashAt(d, ctrl);
    RoleOnly(d, d, stash, LedgerAt(d, stash).(role := Validator));
  }

  lemma NominateDoes(ctrl: AccountId, targets: seq<AccountId>, d: Store)
    ensures var r := ExecCall(CallOf(NominateCall(targets), ctrl), d);
            RoleDone(ctrl, Nominator, d, r) && (r.outcome == Success ==> TargetsAt(r.store, StashAt(d, ctrl)) == targets)
  {
    hide ExecCall, ChangeRole, LedgerAt, StashAt, WithLedger, WithTargets, OnlyAt, TargetsAt;
    RoleEffect(ctrl, ToNominator(targets), d);
    var stash := StashAt(d, ctrl);
    var e, l := WithTargets(d, stash, targets), LedgerAt(d, stash).(role := Nominator);
    TargetsOnly(d, stash, targets);
    TargetsStored(d, stash, targets);
    LedgerApartTargets(e, stash, l);
    RoleOnly(d, e, stash, l);
  }

  lemma ChillDoes(ctrl: AccountId, d: Store)
    ensures var r := ExecCall(CallOf(ChillCall, ctrl), d);
            var stash := StashAt(d, ctrl);
            && RoleDone(ctrl, Chilled, d, r)
            && (r.outcome == Success && LedgerAt(d, stash).role == Nominator ==> TargetsAt(r.store, stash) == [])
            && (LedgerAt(d, stash).role != Nominator ==> OnlyAt(d, r.store, {Ledger(stash)}))
  {
    hide ExecCall, ChangeRole, LedgerAt, StashAt, WithLedger, WithTargets, TargetsAt;
    RoleEffect(ctrl, ToChilled, d);
    var stash := StashAt(d, ctrl);
    var e, l := WithTargets(d, stash, []), LedgerAt(d, stash).(role := Chilled);
    TargetsOnly(d, stash, []);
    TargetsStored(d, stash, []);
    LedgerApartTargets(e, stash, l);
    RoleOnly(d, e, stash, l);
    RoleOnly(d, d, stash, l);
  }

  // ---------------------------------------------------------------------------
  // What the calls declare.

  /** The access list of each call, as a set. */
  lemma AccessListsAre(c: OuterCall, origin: AccountId)
    ensures (set k | k in CallOf(c, origin).access) ==
            match c
            case TransferCall(dest, _) => {BalanceOf(origin), BalanceOf(dest)}
            case BondCall(_, controller) => {BalanceOf(origin), Ledger(origin), Bonded(controller)}
            case BondExtraCall(_) => {BalanceOf(origin), Ledger(origin)}
            case UnbondCall(_) => {BalanceOf(origin), Ledger(origin)}
            case SetControllerCall(ctrl) => {Ledger(origin), Bonded(ctrl)}
            case _ => {Bonded(origin)}
  {
  }
}
