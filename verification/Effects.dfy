// What each call does to a store when nothing stands in its way: outcome, resulting store
// and keys accessed.
module Effects {
  import opened Storage
  import opened Program
  import opened Balances
  import opened Staking
  import opened Calls

  function BalanceAt(d: Store, a: AccountId): AccountBalance { BalanceIn(Get(d, BalanceOf(a))) }

  function LedgerAt(d: Store, a: AccountId): StakingLedger { LedgerIn(Get(d, Ledger(a))) }

  function StashAt(d: Store, c: AccountId): AccountId { AccountIn(Get(d, Bonded(c))) }

  function WithBalance(d: Store, a: AccountId, b: AccountBalance): Store { d[BalanceOf(a) := BalanceValue(b)] }

  function WithLedger(d: Store, a: AccountId, l: StakingLedger): Store { d[Ledger(a) := LedgerValue(l)] }

  function WithStash(d: Store, c: AccountId, stash: AccountId): Store { d[Bonded(c) := AccountValue(stash)] }

  function WithTargets(d: Store, a: AccountId, targets: seq<AccountId>): Store { d[Nominations(a) := TargetsValue(targets)] }

  // ---------------------------------------------------------------------------
  // Outcomes.

  /** One access, or the end of the call. */
  lemma Unfold(n: nat, p: Prog, d: Store)
    ensures p.Read? && n > 0 ==>
              Exec(n, p, d) == Exec(n - 1, p.next(Get(d, p.key)), d) &&
              Keys(n, p, d) == {p.key} + Keys(n - 1, p.next(Get(d, p.key)), d)
    ensures p.Write? && n > 0 ==>
              Exec(n, p, d) == Exec(n - 1, p.rest, d[p.key := p.value]) &&
              Keys(n, p, d) == {p.key} + Keys(n - 1, p.rest, d[p.key := p.value])
    ensures p.Done? ==> Exec(n, p, d) == ExecResult(Success, d) && Keys(n, p, d) == {}
    ensures p.LogicError? ==> Exec(n, p, d) == ExecResult(Failure(p.why), d) && Keys(n, p, d) == {}
    ensures p.Panic? ==> Exec(n, p, d) == ExecResult(Panicked, d) && Keys(n, p, d) == {}
  {
  }

  function TransferResult(origin: AccountId, dest: AccountId, value: nat, d: Store): ExecResult {
    var b := BalanceAt(d, origin);
    if b.free < value then ExecResult(Failure("Does not have enough funds."), d)
    else
      var d1 := WithBalance(d, origin, b.(free := b.free - value));
      var had := BalanceAt(d1, dest);
      if had.free + value > MAX_BALANCE then ExecResult(Panicked, d1)
      else ExecResult(Success, WithBalance(d1, dest, had.(free := had.free + value)))
  }

  lemma TransferEffect(origin: AccountId, dest: AccountId, value: nat, d: Store)
    ensures ExecCall(Transfer(origin, dest, value), d) == TransferResult(origin, dest, value, d)
    ensures CallKeys(Transfer(origin, dest, value), d) <= {BalanceOf(origin), BalanceOf(dest)}
  {
    hide Exec, Keys, Reserve, Unreserve, LedgerIn, BalanceIn, Get, Holding;
    var b := BalanceAt(d, origin);
    var p := TransferFrom(origin, dest, value, b);
    Unfold(4, TransferProg(origin, dest, value), d);
    Unfold(3, p, d);
    if b.free >= value {
      var d1 := WithBalance(d, origin, b.(free := b.free - value));
      var q := TransferTo(dest, value, BalanceAt(d1, dest));
      Unfold(2, p.rest, d1);
      Unfold(1, q, d1);
      if q.Write? {
        Unfold(0, Done, d1[q.key := q.value]);
      }
    }
  }

  function BondResult(stash: AccountId, amount: nat, controller: AccountId, d: Store): ExecResult {
    if Exists(LedgerAt(d, stash)) then ExecResult(Failure("Already bonded."), d)
    else
      match Reserve(BalanceAt(d, stash), amount)
      case Short => ExecResult(Failure("Not enough funds."), d)
      case Overflow => ExecResult(Panicked, d)
      case Balance(b) =>
        ExecResult(Success, WithLedger(WithStash(WithBalance(d, stash, b), controller, stash), stash,
                                       StakingLedger(amount, controller, Chilled)))
  }

  lemma BondEffect(stash: AccountId, amount: nat, controller: AccountId, d: Store)
    ensures ExecCall(Bond(stash, amount, controller), d) == BondResult(stash, amount, controller, d)
    ensures CallKeys(Bond(stash, amount, controller), d) <= {BalanceOf(stash), Ledger(stash), Bonded(controller)}
  {
    hide Exec, Keys, Reserve, Unreserve, LedgerIn, BalanceIn, Get, Holding;
    var p := BondUnbonded(stash, amount, controller, LedgerAt(d, stash));
    var r := Reserve(BalanceAt(d, stash), amount);
    var q := BondReserving(stash, amount, controller, r);
    Unfold(5, BondProg(stash, amount, controller), d);
    Unfold(4, p, d);
    Unfold(3, q, d);
    if r.Balance? {
      var d1 := WithBalance(d, stash, r.balance);
      var d2 := WithStash(d1, controller, stash);
      Unfold(2, q.rest, d1);
      Unfold(1, q.rest.rest, d2);
      Unfold(0, Done, WithLedger(d2, stash, StakingLedger(amount, controller, Chilled)));
    }
  }

  function BondExtraResult(stash: AccountId, amount: nat, d: Store): ExecResult {
    var l := LedgerAt(d, stash);
    if !Exists(l) then ExecResult(Failure("Not bonded."), d)
    else
      match Reserve(BalanceAt(d, stash), amount)
      case Short => ExecResult(Failure("Not enough funds."), d)
      case Overflow => ExecResult(Panicked, d)
      case Balance(b) =>
        if l.value + amount > MAX_BALANCE then ExecResult(Panicked, WithBalance(d, stash, b))
        else ExecResult(Success, WithLedger(WithBalance(d, stash, b), stash, l.(value := l.value + amount)))
  }

  lemma BondExtraEffect(stash: AccountId, amount: nat, d: Store)
    ensures ExecCall(BondExtra(stash, amount), d) == BondExtraResult(stash, amount, d)
    ensures CallKeys(BondExtra(stash, amount), d) <= {BalanceOf(stash), Ledger(stash)}
  {
    hide Exec, Keys, Reserve, Unreserve, LedgerIn, BalanceIn, Get, Holding;
    var l := LedgerAt(d, stash);
    var p := BondExtraBonded(stash, amount, l);
    var r := Reserve(BalanceAt(d, stash), amount);
    var q := BondExtraReserving(stash, amount, l, r);
    Unfold(4, BondExtraProg(stash, amount), d);
    Unfold(3, p, d);
    Unfold(2, q, d);
    if r.Balance? {
      var d1 := WithBalance(d, stash, r.balance);
      Unfold(1, BondExtraLedger(stash, amount, l), d1);
      Unfold(0, Done, WithLedger(d1, stash, l.(value := l.value + amount)));
    }
  }

  function UnbondResult(stash: AccountId, amount: nat, d: Store): ExecResult {
    var l := LedgerAt(d, stash);
    if !Exists(l) then ExecResult(Failure("Not bonded."), d)
    else if l.value < amount then ExecResult(Failure("Too much unbonding."), d)
    else
      var d1 := WithLedger(d, stash, l.(value := l.value - amount));
      match Unreserve(BalanceAt(d, stash), amount)
      case Balance(b) => ExecResult(Success, WithBalance(d1, stash, b))
      case _ => ExecResult(Panicked, d1)
  }

  lemma LedgerApart(d: Store, a: AccountId, l: StakingLedger)
    ensures BalanceAt(WithLedger(d, a, l), a) == BalanceAt(d, a)
  {
  }

  lemma UnbondEffect(stash: AccountId, amount: nat, d: Store)
    ensures ExecCall(Unbond(stash, amount), d) == UnbondResult(stash, amount, d)
    ensures CallKeys(Unbond(stash, amount), d) <= {BalanceOf(stash), Ledger(stash)}
  {
    hide Exec, Keys, Reserve, Unreserve, LedgerIn, BalanceIn, Get, Holding;
    var l := LedgerAt(d, stash);
    var p := UnbondBonded(stash, amount, l);
    Unfold(4, UnbondProg(stash, amount), d);
    Unfold(3, p, d);
    if Exists(l) && l.value >= amount {
      var d1 := WithLedger(d, stash, l.(value := l.value - amount));
      var r := Unreserve(BalanceAt(d1, stash), amount);
      LedgerApart(d, stash, l.(value := l.value - amount));
      Unfold(2, p.rest, d1);
      Unfold(1, UnbondReturning(stash, r), d1);
      if r.Balance? {
        Unfold(0, Done, WithBalance(d1, stash, r.balance));
      }
    }
  }

  function SetControllerResult(stash: AccountId, ctrl: AccountId, d: Store): ExecResult {
    var l := LedgerAt(d, stash);
    if !Exists(l) then ExecResult(Failure("Not bonded."), d)
    else if l.controller == ctrl then ExecResult(Success, d)
    else
      ExecResult(Success, WithLedger(WithStash(WithStash(d, l.controller, DEFAULT_ACCOUNT), ctrl, stash), stash,
                                     l.(controller := ctrl)))
  }

  lemma SetControllerEffect(stash: AccountId, ctrl: AccountId, d: Store)
    ensures ExecCall(SetController(stash, ctrl), d) == SetControllerResult(stash, ctrl, d)
  {
    hide Exec, Keys, Reserve, Unreserve, LedgerIn, BalanceIn, Get, Holding;
    var l := LedgerAt(d, stash);
    var p := SetControllerBonded(stash, ctrl, l);
    Unfold(4, SetControllerProg(stash, ctrl), d);
    Unfold(3, p, d);
    if Exists(l) && l.controller != ctrl {
      var d1 := WithStash(d, l.controller, DEFAULT_ACCOUNT);
      var d2 := WithStash(d1, ctrl, stash);
      Unfold(2, p.rest, d1);
      Unfold(1, p.rest.rest, d2);
      Unfold(0, Done, WithLedger(d2, stash, l.(controller := ctrl)));
    }
  }

  function RoleResult(ctrl: AccountId, change: RoleChange, d: Store): ExecResult {
    var stash := StashAt(d, ctrl);
    if stash == DEFAULT_ACCOUNT then ExecResult(Failure("Not bonded."), d)
    else
      var l := LedgerAt(d, stash);
      if !Exists(l) then ExecResult(Panicked, d)
      else
        match change
        case ToValidator => ExecResult(Success, WithLedger(d, stash, l.(role := Validator)))
        case ToNominator(targets) => ExecResult(Success, WithLedger(WithTargets(d, stash, targets), stash, l.(role := Nominator)))
        case ToChilled =>
          ExecResult(Success, WithLedger(if l.role.Nominator? then WithTargets(d, stash, []) else d, stash, l.(role := Chilled)))
  }

  lemma RoleWritten(stash: AccountId, l: StakingLedger, change: RoleChange, d: Store)
    requires Exists(l)
    ensures Exec(2, RoleOfLedger(stash, l, change), d) ==
            (match change
             case ToValidator => ExecResult(Success, WithLedger(d, stash, l.(role := Validator)))
             case ToNominator(targets) => ExecResult(Success, WithLedger(WithTargets(d, stash, targets), stash, l.(role := Nominator)))
             case ToChilled =>
               ExecResult(Success, WithLedger(if l.role.Nominator? then WithTargets(d, stash, []) else d, stash, l.(role := Chilled))))
  {
    hide Exec, Keys, Reserve, Unreserve, LedgerIn, BalanceIn, Get, Holding;
    var p := RoleOfLedger(stash, l, change);
    Unfold(2, p, d);
    var d1 := d[p.key := p.value];
    Unfold(1, p.rest, d1);
    if p.rest.Write? {
      Unfold(0, p.rest.rest, d1[p.rest.key := p.rest.value]);
    }
  }

  lemma RoleEffect(ctrl: AccountId, change: RoleChange, d: Store)
    ensures ExecCall(ChangeRole(ctrl, change), d) == RoleResult(ctrl, change, d)
  {
    hide Exec, Keys, Reserve, Unreserve, LedgerIn, BalanceIn, Get, Holding;
    var stash := StashAt(d, ctrl);
    var l := LedgerAt(d, stash);
    Unfold(4, RoleProg(ctrl, change), d);
    Unfold(3, RoleOfStash(stash, change), d);
    if stash != DEFAULT_ACCOUNT && Exists(l) {
      RoleWritten(stash, l, change, d);
    } else if stash != DEFAULT_ACCOUNT {
      Unfold(2, RoleOfLedger(stash, l, change), d);
    }
  }

  /** A transfer, bond, bond_extra or unbond accesses only what its access list names, whatever the state. */
  lemma DeclaredAccess(c: OuterCall, origin: AccountId)
    requires Declares(c)
    ensures WithinAccess(CallOf(c, origin))
  {
    forall d: Store ensures CallKeys(CallOf(c, origin), d) <= set k | k in CallOf(c, origin).access {
      match c
      case TransferCall(dest, value) => TransferEffect(origin, dest, value, d);
      case BondCall(amount, controller) => BondEffect(origin, amount, controller, d);
      case BondExtraCall(amount) => BondExtraEffect(origin, amount, d);
      case UnbondCall(amount) => UnbondEffect(origin, amount, d);
      case _ =>
    }
  }

  /** Changing a role reaches the ledger of whatever stash the origin controls. */
  lemma RoleReaches(ctrl: AccountId, change: RoleChange)
    ensures !WithinAccess(ChangeRole(ctrl, change))
  {
    var stash := DEFAULT_ACCOUNT + 1;
    var d: Store := map[Bonded(ctrl) := AccountValue(stash)];
    var c := ChangeRole(ctrl, change);
    assert StashAt(d, ctrl) == stash;
    Unfold(4, c.body, d);
    Unfold(3, RoleOfStash(stash, change), d);
    assert Ledger(stash) in CallKeys(c, d) && Ledger(stash) !in c.access;
  }

  /** Setting a controller clears the binding of the one before. */
  lemma SetControllerReaches(stash: AccountId, ctrl: AccountId)
    ensures !WithinAccess(SetController(stash, ctrl))
  {
    var before := ctrl + 1;
    var l := StakingLedger(1, before, Chilled);
    var d: Store := map[Ledger(stash) := LedgerValue(l)];
    var c := SetController(stash, ctrl);
    Unfold(4, c.body, d);
    Unfold(3, SetControllerBonded(stash, ctrl, l), d);
    assert Bonded(before) in CallKeys(c, d) && Bonded(before) !in c.access;
  }

  /** Exactly four of the eight calls stay within their declared access list in every state. */
  lemma AccessListsExact(c: OuterCall, origin: AccountId)
    ensures WithinAccess(CallOf(c, origin)) <==> Declares(c)
  {
    hide WithinAccess, SetController, ChangeRole;
    match c
    case SetControllerCall(ctrl) => SetControllerReaches(origin, ctrl);
    case ValidateCall => RoleReaches(origin, ToValidator);
    case NominateCall(targets) => RoleReaches(origin, ToNominator(targets));
    case ChillCall => RoleReaches(origin, ToChilled);
    case _ => DeclaredAccess(c, origin);
  }
}
