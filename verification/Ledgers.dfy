// Ledger arithmetic and the links between the storage maps, over every sequence of calls.
module Ledgers {
  import opened Storage
  import opened Program
  import opened Balances
  import opened Staking
  import opened Calls
  import opened Effects

  // ---------------------------------------------------------------------------
  // Total issuance.

  function HeldUnder(d: Store, k: Key): nat {
    if k.BalanceOf? then Holding(BalanceIn(Get(d, k))) else 0
  }

  ghost function HeldUnderAll(d: Store, keys: set<Key>): nat {
    if keys == {} then 0 else var k :| k in keys; HeldUnder(d, k) + HeldUnderAll(d, keys - {k})
  }

  /** The sum of free and reserved balance over all accounts. */
  ghost function Issuance(d: Store): nat {
    HeldUnderAll(d, d.Keys)
  }

  /** The order of summing does not matter. */
  lemma {:induction false} TakeOut(d: Store, keys: set<Key>, k: Key)
    requires k in keys
    ensures HeldUnderAll(d, keys) == HeldUnder(d, k) + HeldUnderAll(d, keys - {k})
    decreases |keys|
  {
    hide HeldUnder;
    var j :| j in keys && HeldUnderAll(d, keys) == HeldUnder(d, j) + HeldUnderAll(d, keys - {j});
    if j != k {
      TakeOut(d, keys - {j}, k);
      TakeOut(d, keys - {k}, j);
      assert keys - {j} - {k} == keys - {k} - {j};
    }
  }

  lemma {:induction false} HeldAlike(d: Store, e: Store, keys: set<Key>)
    requires forall k :: k in keys ==> HeldUnder(d, k) == HeldUnder(e, k)
    ensures HeldUnderAll(d, keys) == HeldUnderAll(e, keys)
    decreases |keys|
  {
    hide HeldUnder;
    if keys != {} {
      var k :| k in keys;
      HeldAlike(d, e, keys - {k});
      TakeOut(d, keys, k);
      TakeOut(e, keys, k);
    }
  }

  lemma AbsentHoldsNothing(d: Store, k: Key)
    requires k !in d
    ensures HeldUnder(d, k) == 0
  {
  }

  lemma HeldElsewhere(d: Store, k: Key, v: Value)
    ensures forall j :: j != k ==> HeldUnder(d[k := v], j) == HeldUnder(d, j)
  {
    hide BalanceIn, Holding;
  }

  lemma HeldThere(d: Store, k: Key, v: Value)
    ensures HeldUnder(d[k := v], k) == if k.BalanceOf? then Holding(BalanceIn(v)) else 0
    ensures forall a :: HeldUnder(d, BalanceOf(a)) == Holding(BalanceAt(d, a))
  {
    hide BalanceIn, Holding;
  }

  /** Storing under one key changes the total by what that key now holds. */
  lemma StoredIssuance(d: Store, k: Key, v: Value)
    ensures Issuance(d[k := v]) + HeldUnder(d, k) == Issuance(d) + HeldUnder(d[k := v], k)
  {
    hide HeldUnder, HeldUnderAll;
    var e := d[k := v];
    TakeOut(e, e.Keys, k);
    HeldElsewhere(d, k, v);
    HeldAlike(d, e, e.Keys - {k});
    if k in d {
      assert e.Keys == d.Keys;
      TakeOut(d, d.Keys, k);
    } else {
      assert e.Keys - {k} == d.Keys;
      AbsentHoldsNothing(d, k);
    }
  }

  lemma HeldWithin(d: Store, a: AccountId)
    ensures Holding(BalanceAt(d, a)) <= Issuance(d)
  {
    hide HeldUnderAll, HeldUnder, Holding, BalanceAt;
    HeldThere(d, BalanceOf(a), Empty);
    if BalanceOf(a) in d {
      TakeOut(d, d.Keys, BalanceOf(a));
    } else {
      AbsentHoldsNothing(d, BalanceOf(a));
    }
  }

  lemma BalanceStored(d: Store, a: AccountId, b: AccountBalance)
    ensures Issuance(WithBalance(d, a, b)) + Holding(BalanceAt(d, a)) == Issuance(d) + Holding(b)
  {
    hide Issuance, HeldUnder, Holding;
    StoredIssuance(d, BalanceOf(a), BalanceValue(b));
    HeldThere(d, BalanceOf(a), BalanceValue(b));
  }

  lemma NotBalances(d: Store, a: AccountId)
    ensures HeldUnder(d, Ledger(a)) == HeldUnder(d, Bonded(a)) == HeldUnder(d, Nominations(a)) == 0
  {
  }

  lemma OthersStored(d: Store, a: AccountId, l: StakingLedger, stash: AccountId, targets: seq<AccountId>)
    ensures Issuance(WithLedger(d, a, l)) == Issuance(d)
    ensures Issuance(WithStash(d, a, stash)) == Issuance(d)
    ensures Issuance(WithTargets(d, a, targets)) == Issuance(d)
  {
    hide Issuance, HeldUnder;
    StoredIssuance(d, Ledger(a), LedgerValue(l));
    StoredIssuance(d, Bonded(a), AccountValue(stash));
    StoredIssuance(d, Nominations(a), TargetsValue(targets));
    HeldThere(d, Ledger(a), LedgerValue(l));
    HeldThere(d, Bonded(a), AccountValue(stash));
    HeldThere(d, Nominations(a), TargetsValue(targets));
    NotBalances(d, a);
  }

  // ---------------------------------------------------------------------------
  // What is conserved.

  lemma TransferConserves(origin: AccountId, dest: AccountId, value: nat, d: Store)
    ensures var r := TransferResult(origin, dest, value, d);
            r.outcome != Panicked ==> Issuance(r.store) == Issuance(d)
  {
    hide Issuance, BalanceAt, LedgerAt, StashAt, WithBalance, WithLedger, WithStash, WithTargets;
    var b := BalanceAt(d, origin);
    if b.free >= value {
      var b1 := b.(free := b.free - value);
      BalanceStored(d, origin, b1);
      var d1 := WithBalance(d, origin, b1);
      var had := BalanceAt(d1, dest);
      BalanceStored(d1, dest, had.(free := had.free + value));
    }
  }

  lemma BondConserves(stash: AccountId, amount: nat, controller: AccountId, d: Store)
    ensures var r := BondResult(stash, amount, controller, d);
            r.outcome != Panicked ==> Issuance(r.store) == Issuance(d)
  {
    hide Issuance, Reserve, Holding, BalanceAt, LedgerAt, StashAt, WithBalance, WithLedger, WithStash, WithTargets;
    var r := Reserve(BalanceAt(d, stash), amount);
    if r.Balance? {
      BalanceStored(d, stash, r.balance);
      var d1 := WithBalance(d, stash, r.balance);
      OthersStored(d1, controller, DEFAULT_LEDGER, stash, []);
      OthersStored(WithStash(d1, controller, stash), stash, StakingLedger(amount, controller, Chilled), stash, []);
    }
  }

  lemma BondExtraConserves(stash: AccountId, amount: nat, d: Store)
    ensures var r := BondExtraResult(stash, amount, d);
            r.outcome != Panicked ==> Issuance(r.store) == Issuance(d)
  {
    hide Issuance, Reserve, Holding, BalanceAt, LedgerAt, StashAt, WithBalance, WithLedger, WithStash, WithTargets;
    var r := Reserve(BalanceAt(d, stash), amount);
    if r.Balance? {
      BalanceStored(d, stash, r.balance);
      var l := LedgerAt(d, stash);
      OthersStored(WithBalance(d, stash, r.balance), stash, l.(value := l.value + amount), stash, []);
    }
  }

  lemma UnbondConserves(stash: AccountId, amount: nat, d: Store)
    ensures var r := UnbondResult(stash, amount, d);
            r.outcome != Panicked ==> Issuance(r.store) == Issuance(d)
  {
    hide Issuance, Unreserve, Holding, BalanceAt, LedgerAt, StashAt, WithBalance, WithLedger, WithStash, WithTargets;
    var l := LedgerAt(d, stash);
    if l.value >= amount {
      var l1 := l.(value := l.value - amount);
      OthersStored(d, stash, l1, stash, []);
      LedgerApart(d, stash, l1);
      var r := Unreserve(BalanceAt(d, stash), amount);
      if r.Balance? {
        BalanceStored(WithLedger(d, stash, l1), stash, r.balance);
      }
    }
  }

  lemma SetControllerConserves(stash: AccountId, ctrl: AccountId, d: Store)
    ensures Issuance(SetControllerResult(stash, ctrl, d).store) == Issuance(d)
  {
    hide Issuance;
    var l := LedgerAt(d, stash);
    var d1 := WithStash(d, l.controller, DEFAULT_ACCOUNT);
    OthersStored(d, l.controller, l, DEFAULT_ACCOUNT, []);
    OthersStored(d1, ctrl, l, stash, []);
    OthersStored(WithStash(d1, ctrl, stash), stash, l.(controller := ctrl), stash, []);
  }

  lemma RoleConserves(ctrl: AccountId, change: RoleChange, d: Store)
    ensures Issuance(RoleResult(ctrl, change, d).store) == Issuance(d)
  {
    hide Issuance;
    var stash := StashAt(d, ctrl);
    var targets := if change.ToNominator? then change.targets else [];
    var e := WithTargets(d, stash, targets);
    OthersStored(d, stash, DEFAULT_LEDGER, stash, targets);
    forall l: StakingLedger ensures Issuance(WithLedger(d, stash, l)) == Issuance(d) && Issuance(WithLedger(e, stash, l)) == Issuance(e) {
      OthersStored(d, stash, l, stash, []);
      OthersStored(e, stash, l, stash, []);
    }
  }

  /** No call creates or destroys balance: the sum of free and reserved stays what it was, self-transfers included. */
  lemma Conserved(c: OuterCall, origin: AccountId, d: Store)
    ensures var r := ExecCall(CallOf(c, origin), d);
            r.outcome != Panicked ==> Issuance(r.store) == Issuance(d)
  {
    hide Issuance, ExecCall, Transfer, Bond, BondExtra, Unbond, SetController, ChangeRole, TransferResult, BondResult,
         BondExtraResult, UnbondResult, SetControllerResult, RoleResult;
    match c
    case TransferCall(dest, value) =>
      TransferEffect(origin, dest, value, d);
      TransferConserves(origin, dest, value, d);
    case BondCall(amount, controller) =>
      BondEffect(origin, amount, controller, d);
      BondConserves(origin, amount, controller, d);
    case BondExtraCall(amount) =>
      BondExtraEffect(origin, amount, d);
      BondExtraConserves(origin, amount, d);
    case UnbondCall(amount) =>
      UnbondEffect(origin, amount, d);
      UnbondConserves(origin, amount, d);
    case SetControllerCall(ctrl) =>
      SetControllerEffect(origin, ctrl, d);
      SetControllerConserves(origin, ctrl, d);
    case ValidateCall => RoleCallConserves(origin, ToValidator, d);
    case NominateCall(targets) => RoleCallConserves(origin, ToNominator(targets), d);
    case ChillCall => RoleCallConserves(origin, ToChilled, d);
  }

  lemma RoleCallConserves(ctrl: AccountId, change: RoleChange, d: Store)
    ensures Issuance(ExecCall(ChangeRole(ctrl, change), d).store) == Issuance(d)
  {
    RoleEffect(ctrl, change, d);
    RoleConserves(ctrl, change, d);
  }

  // ---------------------------------------------------------------------------
  // What every call keeps.

  lemma BalanceSeen(d: Store, a: AccountId, b: AccountBalance)
    ensures var e := WithBalance(d, a, b);
            && (forall x :: BalanceAt(e, x) == if x == a then b else BalanceAt(d, x))
            && (forall x :: LedgerAt(e, x) == LedgerAt(d, x))
            && (forall x :: StashAt(e, x) == StashAt(d, x))
  {
  }

  lemma LedgerSeen(d: Store, a: AccountId, l: StakingLedger)
    ensures var e := WithLedger(d, a, l);
            && (forall x :: BalanceAt(e, x) == BalanceAt(d, x))
            && (forall x :: LedgerAt(e, x) == if x == a then l else LedgerAt(d, x))
            && (forall x :: StashAt(e, x) == StashAt(d, x))
  {
  }

  lemma StashSeen(d: Store, c: AccountId, stash: AccountId)
    ensures var e := WithStash(d, c, stash);
            && (forall x :: BalanceAt(e, x) == BalanceAt(d, x))
            && (forall x :: LedgerAt(e, x) == LedgerAt(d, x))
            && (forall x :: StashAt(e, x) == if x == c then stash else StashAt(d, x))
  {
  }

  lemma TargetsSeen(d: Store, a: AccountId, targets: seq<AccountId>)
    ensures var e := WithTargets(d, a, targets);
            && (forall x :: BalanceAt(e, x) == BalanceAt(d, x))
            && (forall x :: LedgerAt(e, x) == LedgerAt(d, x))
            && (forall x :: StashAt(e, x) == StashAt(d, x))
  {
  }

  /** What an account has reserved is exactly what it has bonded. */
  ghost predicate Backed(d: Store) {
    forall a :: BalanceAt(d, a).reserved == LedgerAt(d, a).value
  }

  /**
    Every ledger has a controller, and every controller that is bound is bound to a stash with a
    ledger. A binding to the default account reads as no binding, so its ledger does not matter.
   */
  ghost predicate Linked(d: Store) {
    && (forall a :: a != DEFAULT_ACCOUNT && Exists(LedgerAt(d, a)) ==> LedgerAt(d, a).controller != DEFAULT_ACCOUNT)
    && (forall c :: StashAt(d, c) != DEFAULT_ACCOUNT ==> Exists(LedgerAt(d, StashAt(d, c))))
  }

  /** The arithmetic side: reserved equals bonded everywhere, and all balances together fit. */
  ghost predicate Solvent(d: Store) {
    Backed(d) && Issuance(d) <= MAX_BALANCE
  }

  ghost predicate Sound(d: Store) {
    Solvent(d) && Linked(d)
  }

  /** The account controls a stash that has no ledger. */
  ghost predicate Dangling(d: Store, ctrl: AccountId) {
    StashAt(d, ctrl) != DEFAULT_ACCOUNT && !Exists(LedgerAt(d, StashAt(d, ctrl)))
  }

  predicate ChangesRole(c: OuterCall) {
    c.ValidateCall? || c.NominateCall? || c.ChillCall?
  }

  /** The call would make the default account the controller of another account. */
  predicate NamesDefault(c: OuterCall, origin: AccountId) {
    origin != DEFAULT_ACCOUNT &&
    match c
    case BondCall(_, controller) => controller == DEFAULT_ACCOUNT
    case SetControllerCall(ctrl) => ctrl == DEFAULT_ACCOUNT
    case _ => false
  }

  /** No panic; still backed; and linked if it was and no default controller was named. */
  ghost predicate Holds(d: Store, r: ExecResult, named: bool) {
    r.outcome != Panicked && Backed(r.store) && (Linked(d) && !named ==> Linked(r.store))
  }

  lemma Moves(b: AccountBalance, amount: nat)
    ensures Reserve(b, amount).Balance? ==> Reserve(b, amount).balance.reserved == b.reserved + amount <= MAX_BALANCE
    ensures Unreserve(b, amount).Balance? ==> Unreserve(b, amount).balance.reserved == b.reserved - amount
  {
  }

  lemma TransferKeeps(origin: AccountId, dest: AccountId, value: nat, d: Store)
    requires Solvent(d)
    ensures Holds(d, TransferResult(origin, dest, value, d), false)
  {
    hide Issuance, BalanceAt, LedgerAt, StashAt, WithBalance, WithLedger, WithStash, WithTargets;

    var b := BalanceAt(d, origin);
    if b.free >= value {
      var b1 := b.(free := b.free - value);
      BalanceStored(d, origin, b1);
      var d1 := WithBalance(d, origin, b1);
      HeldWithin(d1, dest);
      var had := BalanceAt(d1, dest);
      BalanceStored(d1, dest, had.(free := had.free + value));
      BalanceSeen(d, origin, b1);
      BalanceSeen(d1, dest, had.(free := had.free + value));
    }
  }

  lemma BondKeeps(stash: AccountId, amount: nat, controller: AccountId, d: Store)
    requires Solvent(d)
    ensures Holds(d, BondResult(stash, amount, controller, d), NamesDefault(BondCall(amount, controller), stash))
  {
    hide Issuance, Holding, Reserve, BalanceAt, LedgerAt, StashAt, WithBalance, WithLedger, WithStash, WithTargets;

    HeldWithin(d, stash);
    Moves(BalanceAt(d, stash), amount);
    var b := Reserve(BalanceAt(d, stash), amount);
    if b.Balance? {
      var d1 := WithBalance(d, stash, b.balance);
      BalanceSeen(d, stash, b.balance);
      StashSeen(d1, controller, stash);
      LedgerSeen(WithStash(d1, controller, stash), stash, StakingLedger(amount, controller, Chilled));
    }
  }

  lemma BondExtraKeeps(stash: AccountId, amount: nat, d: Store)
    requires Solvent(d)
    ensures Holds(d, BondExtraResult(stash, amount, d), false)
  {
    hide Issuance, Holding, Reserve, BalanceAt, LedgerAt, StashAt, WithBalance, WithLedger, WithStash, WithTargets;

    HeldWithin(d, stash);
    Moves(BalanceAt(d, stash), amount);
    var b, l := Reserve(BalanceAt(d, stash), amount), LedgerAt(d, stash);
    if b.Balance? {
      BalanceSeen(d, stash, b.balance);
      LedgerSeen(WithBalance(d, stash, b.balance), stash, l.(value := l.value + amount));
    }
  }

  lemma UnbondKeeps(stash: AccountId, amount: nat, d: Store)
    requires Solvent(d)
    ensures Holds(d, UnbondResult(stash, amount, d), false)
  {
    hide Issuance, Holding, Unreserve, BalanceAt, LedgerAt, StashAt, WithBalance, WithLedger, WithStash, WithTargets;

    HeldWithin(d, stash);
    Moves(BalanceAt(d, stash), amount);
    var b, l := Unreserve(BalanceAt(d, stash), amount), LedgerAt(d, stash);
    if l.value >= amount && b.Balance? {
      var l1 := l.(value := l.value - amount);
      LedgerSeen(d, stash, l1);
      BalanceSeen(WithLedger(d, stash, l1), stash, b.balance);
    }
  }

  lemma SetControllerKeeps(stash: AccountId, ctrl: AccountId, d: Store)
    requires Solvent(d)
    ensures Holds(d, SetControllerResult(stash, ctrl, d), NamesDefault(SetControllerCall(ctrl), stash))
  {
    hide Issuance, BalanceAt, LedgerAt, StashAt, WithBalance, WithLedger, WithStash, WithTargets;

    var l := LedgerAt(d, stash);
    var d1 := WithStash(d, l.controller, DEFAULT_ACCOUNT);
    StashSeen(d, l.controller, DEFAULT_ACCOUNT);
    StashSeen(d1, ctrl, stash);
    LedgerSeen(WithStash(d1, ctrl, stash), stash, l.(controller := ctrl));
  }

  ghost predicate RoleSeen(d: Store, e: Store, stash: AccountId, l: StakingLedger) {
    && (forall x :: LedgerAt(WithLedger(d, stash, l), x) == if x == stash then l else LedgerAt(d, x))
    && (forall x :: LedgerAt(WithLedger(e, stash, l), x) == if x == stash then l else LedgerAt(d, x))
    && (forall x :: BalanceAt(WithLedger(d, stash, l), x) == BalanceAt(WithLedger(e, stash, l), x) == BalanceAt(d, x))
    && (forall x :: StashAt(WithLedger(d, stash, l), x) == StashAt(WithLedger(e, stash, l), x) == StashAt(d, x))
  }

  lemma RoleKeeps(ctrl: AccountId, change: RoleChange, d: Store)
    requires Solvent(d)
    ensures var r := RoleResult(ctrl, change, d);
            && (r.outcome == Panicked <==> Dangling(d, ctrl)) && (r.outcome == Panicked ==> r.store == d)
            && Backed(r.store) && (Linked(d) ==> Linked(r.store))
  {
    hide Issuance, BalanceAt, LedgerAt, StashAt, WithBalance, WithLedger, WithStash, WithTargets;

    var stash := StashAt(d, ctrl);
    var l := LedgerAt(d, stash);
    var targets := if change.ToNominator? then change.targets else [];
    var e := WithTargets(d, stash, targets);
    TargetsSeen(d, stash, targets);
    forall r: StakingRole ensures RoleSeen(d, e, stash, l.(role := r)) {
      LedgerSeen(d, stash, l.(role := r));
      LedgerSeen(e, stash, l.(role := r));
    }
    assert RoleSeen(d, e, stash, l.(role := Validator)) && RoleSeen(d, e, stash, l.(role := Nominator)) &&
           RoleSeen(d, e, stash, l.(role := Chilled));
  }

  /**
    With reserved equal to bonded and all balances fitting, the only panic left is a change of
    role by the controller of a stash without a ledger; reserved stays equal to bonded, and
    ledgers and bindings stay linked unless a default controller is named.
   */
  lemma Keeps(c: OuterCall, origin: AccountId, d: Store)
    requires Solvent(d)
    ensures var r := ExecCall(CallOf(c, origin), d);
            && (r.outcome == Panicked <==> ChangesRole(c) && Dangling(d, origin)) && (r.outcome == Panicked ==> r.store == d)
            && Backed(r.store) && (Linked(d) && !NamesDefault(c, origin) ==> Linked(r.store))
  {
    hide Solvent, Backed, Linked, Dangling, ExecCall, Transfer, Bond, BondExtra, Unbond, SetController, ChangeRole, TransferResult,
         BondResult, BondExtraResult, UnbondResult, SetControllerResult, RoleResult;
    match c
    case TransferCall(dest, value) =>
      TransferEffect(origin, dest, value, d);
      TransferKeeps(origin, dest, value, d);
    case BondCall(amount, controller) =>
      BondEffect(origin, amount, controller, d);
      BondKeeps(origin, amount, controller, d);
    case BondExtraCall(amount) =>
      BondExtraEffect(origin, amount, d);
      BondExtraKeeps(origin, amount, d);
    case UnbondCall(amount) =>
      UnbondEffect(origin, amount, d);
      UnbondKeeps(origin, amount, d);
    case SetControllerCall(ctrl) =>
      SetControllerEffect(origin, ctrl, d);
      SetControllerKeeps(origin, ctrl, d);
    case ValidateCall =>
      RoleEffect(origin, ToValidator, d);
      RoleKeeps(origin, ToValidator, d);
    case NominateCall(targets) =>
      RoleEffect(origin, ToNominator(targets), d);
      RoleKeeps(origin, ToNominator(targets), d);
    case ChillCall =>
      RoleEffect(origin, ToChilled, d);
      RoleKeeps(origin, ToChilled, d);
  }

  // ---------------------------------------------------------------------------
  // Exactly when.

  /** A store with one account that has something to bond. */
  function Endowed(a: AccountId, b: AccountBalance): Store {
    map[BalanceOf(a) := BalanceValue(b)]
  }

  lemma EndowedFrom(d: Store, a: AccountId, b: AccountBalance)
    requires d == map[]
    ensures Endowed(a, b) == WithBalance(d, a, b)
  {
  }

  /** No balances, no ledgers, no bindings. */
  ghost predicate Bare(d: Store) {
    && Issuance(d) == 0
    && (forall a :: BalanceAt(d, a).reserved == 0)
    && (forall a :: !Exists(LedgerAt(d, a)))
    && (forall c :: StashAt(d, c) == DEFAULT_ACCOUNT)
  }

  lemma NothingStored(d: Store)
    requires d == map[]
    ensures Bare(d)
  {
  }

  lemma EndowedOver(d: Store, a: AccountId, b: AccountBalance)
    requires Bare(d) && b.reserved == 0 && b.free <= MAX_BALANCE
    ensures Sound(WithBalance(d, a, b))
    ensures BalanceAt(WithBalance(d, a, b), a) == b && !Exists(LedgerAt(WithBalance(d, a, b), a))
  {
    hide Issuance, WithBalance, BalanceAt, LedgerAt, StashAt;
    BalanceStored(d, a, b);
    BalanceSeen(d, a, b);
  }

  lemma EndowedSound(a: AccountId, free: nat)
    requires free <= MAX_BALANCE
    ensures Sound(Endowed(a, AccountBalance(free, 0)))
    ensures BalanceAt(Endowed(a, AccountBalance(free, 0)), a) == AccountBalance(free, 0)
    ensures !Exists(LedgerAt(Endowed(a, AccountBalance(free, 0)), a))
  {
    hide Issuance, WithBalance, BalanceAt, LedgerAt, StashAt, Endowed;
    var nothing: Store := map[];
    EndowedFrom(nothing, a, AccountBalance(free, 0));
    NothingStored(nothing);
    EndowedOver(nothing, a, AccountBalance(free, 0));
  }

  lemma BondBreaks(stash: AccountId, amount: nat)
    requires amount <= MAX_BALANCE && stash != DEFAULT_ACCOUNT
    ensures !Preserves(Sound, Bond(stash, amount, DEFAULT_ACCOUNT))
  {
    hide Issuance, ExecCall, Bond, Endowed, BalanceAt, LedgerAt, StashAt, WithBalance, WithLedger, WithStash, WithTargets, Backed;
    var d, b := Endowed(stash, AccountBalance(amount, 0)), AccountBalance(0, amount);
    var l := StakingLedger(amount, DEFAULT_ACCOUNT, Chilled);
    EndowedSound(stash, amount);
    BondEffect(stash, amount, DEFAULT_ACCOUNT, d);
    var d2 := WithStash(WithBalance(d, stash, b), DEFAULT_ACCOUNT, stash);
    Unlinked(WithBalance(d, stash, b), stash, l);
    assert ExecCall(Bond(stash, amount, DEFAULT_ACCOUNT), d).store == WithLedger(d2, stash, l);
  }

  lemma Unlinked(d: Store, stash: AccountId, l: StakingLedger)
    requires l.controller == DEFAULT_ACCOUNT && stash != DEFAULT_ACCOUNT
    ensures !Linked(WithLedger(WithStash(d, DEFAULT_ACCOUNT, stash), stash, l))
  {
    hide BalanceAt, LedgerAt, StashAt, WithLedger, WithStash;
    var d2 := WithStash(d, DEFAULT_ACCOUNT, stash);
    var e := WithLedger(d2, stash, l);
    StashSeen(d, DEFAULT_ACCOUNT, stash);
    LedgerSeen(d2, stash, l);
    assert LedgerAt(e, stash) == l && StashAt(e, DEFAULT_ACCOUNT) == stash;
  }

  /** A sound store in which the stash has bonded something. */
  lemma BondedStore(stash: AccountId, controller: AccountId, amount: nat) returns (d: Store)
    requires controller != DEFAULT_ACCOUNT && 0 < amount <= MAX_BALANCE
    ensures Sound(d) && LedgerAt(d, stash) == StakingLedger(amount, controller, Chilled)
  {
    hide Issuance, ExecCall, Bond, Endowed, BalanceAt, LedgerAt, StashAt, WithBalance, WithLedger, WithStash, WithTargets;
    var d0 := Endowed(stash, AccountBalance(amount, 0));
    var l := StakingLedger(amount, controller, Chilled);
    EndowedSound(stash, amount);
    Keeps(BondCall(amount, controller), stash, d0);
    Conserved(BondCall(amount, controller), stash, d0);
    BondEffect(stash, amount, controller, d0);
    d := BondResult(stash, amount, controller, d0).store;
    LedgerSeen(WithStash(WithBalance(d0, stash, AccountBalance(0, amount)), controller, stash), stash, l);
  }

  lemma SetControllerBreaks(stash: AccountId, amount: nat, controller: AccountId)
    requires controller != DEFAULT_ACCOUNT && stash != DEFAULT_ACCOUNT && 0 < amount <= MAX_BALANCE
    ensures !Preserves(Sound, SetController(stash, DEFAULT_ACCOUNT))
  {
    hide Issuance, ExecCall, SetController, BalanceAt, LedgerAt, StashAt, WithBalance, WithLedger, WithStash, WithTargets;
    var d := BondedStore(stash, controller, amount);
    var d1 := WithStash(d, controller, DEFAULT_ACCOUNT);
    SetControllerEffect(stash, DEFAULT_ACCOUNT, d);
    LedgerSeen(WithStash(d1, DEFAULT_ACCOUNT, stash), stash, StakingLedger(amount, DEFAULT_ACCOUNT, Chilled));
    assert !Linked(ExecCall(SetController(stash, DEFAULT_ACCOUNT), d).store);
  }

  lemma LinkedNotDangling(d: Store, ctrl: AccountId)
    requires Linked(d)
    ensures !Dangling(d, ctrl)
  {
  }

  /** One call more. */
  lemma SolventStep(c: OuterCall, origin: AccountId, d: Store)
    requires Solvent(d)
    ensures var r := ExecCall(CallOf(c, origin), d);
            && Solvent(r.store) && Issuance(r.store) == Issuance(d)
            && (r.outcome == Panicked <==> ChangesRole(c) && Dangling(d, origin))
            && (Linked(d) && !NamesDefault(c, origin) ==> Linked(r.store))
  {
    hide Linked, Backed, Issuance, Dangling, ExecCall, CallOf, NamesDefault, ChangesRole;
    Keeps(c, origin, d);
    Conserved(c, origin, d);
  }

  lemma KeepsAlways(c: OuterCall, origin: AccountId)
    requires !NamesDefault(c, origin)
    ensures Preserves(Sound, CallOf(c, origin))
  {
    hide Solvent, Linked, Dangling, Issuance, ExecCall, CallOf, NamesDefault, ChangesRole;
    forall d {:trigger ExecCall(CallOf(c, origin), d)} | Sound(d)
      ensures ExecCall(CallOf(c, origin), d).outcome != Panicked && Sound(ExecCall(CallOf(c, origin), d).store)
    {
      SolventStep(c, origin, d);
      LinkedNotDangling(d, origin);
    }
  }

  /** What the type of the arguments guarantees. */
  predicate InRange(c: OuterCall) {
    c.BondCall? ==> c.amount <= MAX_BALANCE
  }

  /**
    A call keeps the ledgers sound, from every sound store and without ever panicking, if and
    only if it does not name the default account as a controller.
   */
  lemma SoundExactly(c: OuterCall, origin: AccountId)
    requires InRange(c)
    ensures Preserves(Sound, CallOf(c, origin)) <==> !NamesDefault(c, origin)
  {
    hide Sound, Preserves, CallOf;
    if NamesDefault(c, origin) {
      NamingBreaks(c, origin);
    } else {
      KeepsAlways(c, origin);
    }
  }

  lemma NamingBreaks(c: OuterCall, origin: AccountId)
    requires InRange(c) && NamesDefault(c, origin)
    ensures !Preserves(Sound, CallOf(c, origin))
  {
    hide Sound, Preserves, Bond, SetController;
    match c
    case BondCall(amount, _) => BondBreaks(origin, amount);
    case SetControllerCall(_) => SetControllerBreaks(origin, 1, DEFAULT_ACCOUNT + 1);
    case _ =>
  }

  /** The panic that can then be reached: two calls, from a sound store, whoever the stash and whatever its balance. */
  lemma PanicReached(stash: AccountId, free: nat)
    requires stash != DEFAULT_ACCOUNT && free <= MAX_BALANCE
    ensures var d := Endowed(stash, AccountBalance(free, 0));
            var bond := ExecCall(Bond(stash, 0, DEFAULT_ACCOUNT), d);
            Sound(d) && bond.outcome == Success &&
            ExecCall(ChangeRole(DEFAULT_ACCOUNT, ToValidator), bond.store).outcome == Panicked
  {
    hide Issuance, ExecCall, Bond, ChangeRole, Endowed, BalanceAt, LedgerAt, StashAt, WithBalance, WithLedger, WithStash, WithTargets;
    var d, b := Endowed(stash, AccountBalance(free, 0)), AccountBalance(free, 0);
    EndowedSound(stash, free);
    BondEffect(stash, 0, DEFAULT_ACCOUNT, d);
    var d1 := WithBalance(d, stash, b);
    var d2 := WithStash(d1, DEFAULT_ACCOUNT, stash);
    BalanceSeen(d, stash, b);
    StashSeen(d1, DEFAULT_ACCOUNT, stash);
    LedgerSeen(d2, stash, DEFAULT_LEDGER);
    RoleEffect(DEFAULT_ACCOUNT, ToValidator, WithLedger(d2, stash, DEFAULT_LEDGER));
  }

  /**
    One controller may be taken over by another stash. From a sound store any second stash that
    has not bonded can do so with any amount it can afford: the first keeps its ledger, which
    still names the controller, but it gains no binding and this one is gone.
   */
  lemma ControllerTakenOver(d: Store, first: AccountId, second: AccountId, amount: nat, controller: AccountId)
    requires Sound(d) && first != second && second != DEFAULT_ACCOUNT
    requires Exists(LedgerAt(d, first)) && LedgerAt(d, first).controller == controller && StashAt(d, controller) == first
    requires !Exists(LedgerAt(d, second)) && amount <= BalanceAt(d, second).free
    ensures var r := ExecCall(Bond(second, amount, controller), d);
            && r.outcome == Success
            && LedgerAt(r.store, first) == LedgerAt(d, first) && LedgerAt(r.store, second) == StakingLedger(amount, controller, Chilled)
            && StashAt(r.store, controller) == second
            && (forall x :: StashAt(r.store, x) == first ==> x != controller && StashAt(d, x) == first)
  {
    hide Issuance, ExecCall, BalanceAt, LedgerAt, StashAt, WithBalance, WithLedger, WithStash, WithTargets;
    BondEffect(second, amount, controller, d);
    Affordable(d, second, amount);
    var d1 := WithBalance(d, second, Reserve(BalanceAt(d, second), amount).balance);
    BalanceSeen(d, second, Reserve(BalanceAt(d, second), amount).balance);
    StashSeen(d1, controller, second);
    LedgerSeen(WithStash(d1, controller, second), second, StakingLedger(amount, controller, Chilled));
  }

  /** What is free can be reserved. */
  lemma Affordable(d: Store, a: AccountId, amount: nat)
    requires Solvent(d) && amount <= BalanceAt(d, a).free
    ensures Reserve(BalanceAt(d, a), amount).Balance?
  {
    hide Issuance, BalanceAt;
    HeldWithin(d, a);
  }

  // ---------------------------------------------------------------------------
  // Sequences of calls.

  datatype Signed = Signed(call: OuterCall, origin: AccountId)

  /** Transactions that carry the calls. */
  function Carrying(calls: seq<Signed>): seq<Body> {
    seq(|calls|, i requires 0 <= i < |calls| => Body(i, CallOf(calls[i].call, calls[i].origin)))
  }

  function RunCalls(d: Store, calls: seq<Signed>): Store {
    Run(d, Carrying(calls))
  }

  lemma RunCallsNext(d: Store, calls: seq<Signed>)
    ensures RunCalls(d, calls) ==
            if calls == [] then d
            else ExecCall(CallOf(calls[|calls| - 1].call, calls[|calls| - 1].origin), RunCalls(d, calls[..|calls| - 1])).store
  {
    hide ExecCall, CallOf;
    if calls != [] {
      assert Carrying(calls)[..|calls| - 1] == Carrying(calls[..|calls| - 1]);
    }
  }

  /**
    Over every sequence of calls whatever, from a store in which reserved equals bonded and all
    balances together fit in 128 bits: both stay so, total issuance is the same at every point,
    nothing overflows, and unreserving never fails. Where a call does panic it is a change of
    role by the controller of a stash without a ledger.
   */
  lemma {:induction false} RunCallsSolvent(d: Store, calls: seq<Signed>)
    requires Solvent(d)
    ensures Solvent(RunCalls(d, calls)) && Issuance(RunCalls(d, calls)) == Issuance(d)
    ensures forall n {:trigger calls[..n]} :: 0 <= n < |calls| ==>
              (ExecCall(CallOf(calls[n].call, calls[n].origin), RunCalls(d, calls[..n])).outcome == Panicked <==>
               ChangesRole(calls[n].call) && Dangling(RunCalls(d, calls[..n]), calls[n].origin))
  {
    hide Solvent, Issuance, Dangling, ExecCall, CallOf, NamesDefault, ChangesRole, RunCalls;
    RunCallsNext(d, calls);
    if calls != [] {
      var m := |calls| - 1;
      RunCallsSolvent(d, calls[..m]);
      SolventStep(calls[m].call, calls[m].origin, RunCalls(d, calls[..m]));
      forall n {:trigger calls[..n]} | 0 <= n < |calls|
        ensures ExecCall(CallOf(calls[n].call, calls[n].origin), RunCalls(d, calls[..n])).outcome == Panicked <==>
                ChangesRole(calls[n].call) && Dangling(RunCalls(d, calls[..n]), calls[n].origin)
      {
        if n < m {
          assert calls[..m][..n] == calls[..n] && calls[..m][n] == calls[n];
        }
      }
    }
  }

  /**
    From a sound store, no sequence of calls that names no default controller ever panics;
    ledgers and bindings stay linked at every point.
   */
  lemma {:induction false} RunCallsSound(d: Store, calls: seq<Signed>)
    requires Sound(d) && forall x :: x in calls ==> !NamesDefault(x.call, x.origin)
    ensures Sound(RunCalls(d, calls)) && Issuance(RunCalls(d, calls)) == Issuance(d)
    ensures forall n {:trigger calls[..n]} :: 0 <= n < |calls| ==>
              ExecCall(CallOf(calls[n].call, calls[n].origin), RunCalls(d, calls[..n])).outcome != Panicked
  {
    hide Solvent, Linked, Issuance, Dangling, ExecCall, CallOf, NamesDefault, ChangesRole, RunCalls;
    RunCallsNext(d, calls);
    if calls != [] {
      var m := |calls| - 1;
      RunCallsSound(d, calls[..m]);
      assert calls[m] in calls;
      SolventStep(calls[m].call, calls[m].origin, RunCalls(d, calls[..m]));
      LinkedNotDangling(RunCalls(d, calls[..m]), calls[m].origin);
      forall n {:trigger calls[..n]} | 0 <= n < |calls|
        ensures ExecCall(CallOf(calls[n].call, calls[n].origin), RunCalls(d, calls[..n])).outcome != Panicked
      {
        if n < m {
          assert calls[..m][..n] == calls[..n] && calls[..m][n] == calls[n];
        }
      }
    }
  }

  // ---------------------------------------------------------------------------
  // When a call can lead to a panic later.

  ghost predicate NoneNamesDefault(calls: seq<Signed>) {
    forall x :: x in calls ==> !NamesDefault(x.call, x.origin)
  }

  /** Some call of the sequence panics. */
  ghost predicate PanicsIn(d: Store, calls: seq<Signed>) {
    exists n: nat :: n < |calls| && PanicsAt(d, calls, n)
  }

  ghost predicate PanicsAt(d: Store, calls: seq<Signed>, n: nat)
    requires n < |calls|
  {
    ExecCall(CallOf(calls[n].call, calls[n].origin), RunCalls(d, calls[..n])).outcome == Panicked
  }

  /** After a call that made the default account controller of `stash`: emptying the ledger and changing its role. */
  function Undoing(stash: AccountId, amount: nat, change: OuterCall): seq<Signed> {
    [Signed(ChillCall, DEFAULT_ACCOUNT), Signed(UnbondCall(amount), stash), Signed(change, DEFAULT_ACCOUNT)]
  }

  lemma UndoingRuns(d: Store, stash: AccountId, amount: nat, change: OuterCall)
    ensures var calls := Undoing(stash, amount, change);
            var d1 := ExecCall(CallOf(ChillCall, DEFAULT_ACCOUNT), d).store;
            RunCalls(d, calls[..0]) == d && RunCalls(d, calls[..1]) == d1 &&
            RunCalls(d, calls[..2]) == ExecCall(CallOf(UnbondCall(amount), stash), d1).store
  {
    hide ExecCall, CallOf, RunCalls;
    var calls := Undoing(stash, amount, change);
    RunCallsNext(d, calls[..0]);
    RunCallsNext(d, calls[..1]);
    RunCallsNext(d, calls[..2]);
    assert calls[..1][..0] == calls[..0] && calls[..2][..1] == calls[..1];
  }

  /** A ledger that is the default one but for its value and role becomes the default one. */
  lemma Emptied(d: Store, stash: AccountId, amount: nat, change: OuterCall)
    requires Solvent(d) && stash != DEFAULT_ACCOUNT && StashAt(d, DEFAULT_ACCOUNT) == stash && ChangesRole(change)
    requires LedgerAt(d, stash).controller == DEFAULT_ACCOUNT && LedgerAt(d, stash).value == amount
    ensures PanicsIn(d, Undoing(stash, amount, change)) && NoneNamesDefault(Undoing(stash, amount, change))
  {
    hide Solvent, ExecCall, CallOf, BalanceAt, LedgerAt, StashAt, RunCalls, Issuance;
    var calls := Undoing(stash, amount, change);
    UndoingRuns(d, stash, amount, change);
    var d1 := RunCalls(d, calls[..1]);
    var d2 := RunCalls(d, calls[..2]);
    SolventStep(ChillCall, DEFAULT_ACCOUNT, d);
    SolventStep(UnbondCall(amount), stash, d1);
    SolventStep(change, DEFAULT_ACCOUNT, d2);
    if Exists(LedgerAt(d, stash)) {
      ChilledThen(d, stash);
      UnbondedThen(d1, stash, amount);
      assert PanicsAt(d, calls, 2);
    } else {
      assert PanicsAt(d, calls, 0);
    }
  }

  lemma ChilledThen(d: Store, stash: AccountId)
    requires stash != DEFAULT_ACCOUNT && StashAt(d, DEFAULT_ACCOUNT) == stash && Exists(LedgerAt(d, stash))
    ensures var e := ExecCall(CallOf(ChillCall, DEFAULT_ACCOUNT), d).store;
            LedgerAt(e, stash) == LedgerAt(d, stash).(role := Chilled) && StashAt(e, DEFAULT_ACCOUNT) == stash
  {
    hide ExecCall, ChangeRole, BalanceAt, LedgerAt, StashAt, WithLedger, WithTargets;
    RoleEffect(DEFAULT_ACCOUNT, ToChilled, d);
    var l := LedgerAt(d, stash);
    TargetsSeen(d, stash, []);
    LedgerSeen(d, stash, l.(role := Chilled));
    LedgerSeen(WithTargets(d, stash, []), stash, l.(role := Chilled));
  }

  lemma UnbondedThen(d: Store, stash: AccountId, amount: nat)
    requires Solvent(d) && LedgerAt(d, stash) == StakingLedger(amount, DEFAULT_ACCOUNT, Chilled)
    ensures var e := ExecCall(CallOf(UnbondCall(amount), stash), d).store;
            !Exists(LedgerAt(e, stash)) && StashAt(e, DEFAULT_ACCOUNT) == StashAt(d, DEFAULT_ACCOUNT)
  {
    hide Issuance, ExecCall, Unbond, Unreserve, BalanceAt, LedgerAt, StashAt, WithBalance, WithLedger;
    UnbondEffect(stash, amount, d);
    UnbondKeeps(stash, amount, d);
    if Exists(LedgerAt(d, stash)) {
      var l := LedgerAt(d, stash).(value := 0);
      LedgerSeen(d, stash, l);
      var r := Unreserve(BalanceAt(d, stash), amount);
      if r.Balance? {
        BalanceSeen(WithLedger(d, stash, l), stash, r.balance);
      }
    }
  }

  /** What naming the default account leaves behind, if the call goes well. */
  lemma Named(c: OuterCall, origin: AccountId, d: Store)
    requires Sound(d) && NamesDefault(c, origin)
    ensures var r := ExecCall(CallOf(c, origin), d);
            if r.outcome == Success then
              StashAt(r.store, DEFAULT_ACCOUNT) == origin && LedgerAt(r.store, origin).controller == DEFAULT_ACCOUNT
            else r.store == d
  {
    hide Issuance, Backed, ExecCall, Bond, SetController, Reserve, BalanceAt, LedgerAt, StashAt, WithBalance, WithLedger, WithStash;
    if c.BondCall? {
      BondEffect(origin, c.amount, DEFAULT_ACCOUNT, d);
      BondKeeps(origin, c.amount, DEFAULT_ACCOUNT, d);
      var r := Reserve(BalanceAt(d, origin), c.amount);
      if r.Balance? {
        var d1 := WithBalance(d, origin, r.balance);
        StashSeen(d1, DEFAULT_ACCOUNT, origin);
        LedgerSeen(WithStash(d1, DEFAULT_ACCOUNT, origin), origin, StakingLedger(c.amount, DEFAULT_ACCOUNT, Chilled));
      }
    } else {
      SetControllerEffect(origin, DEFAULT_ACCOUNT, d);
      var l := LedgerAt(d, origin);
      var d1 := WithStash(d, l.controller, DEFAULT_ACCOUNT);
      StashSeen(d1, DEFAULT_ACCOUNT, origin);
      LedgerSeen(WithStash(d1, DEFAULT_ACCOUNT, origin), origin, l.(controller := DEFAULT_ACCOUNT));
    }
  }

  /**
    Made from a sound store, a call opens the way to a panic, one that later calls reach
    without naming a default controller themselves, if and only if it succeeds in making the
    default account the controller of another account.
   */
  lemma PanicExactly(c: OuterCall, origin: AccountId, d: Store)
    requires Sound(d)
    ensures var r := ExecCall(CallOf(c, origin), d);
            r.outcome != Panicked &&
            ((exists later :: NoneNamesDefault(later) && PanicsIn(r.store, later)) <==>
             NamesDefault(c, origin) && r.outcome == Success)
  {
    hide Sound, ExecCall, CallOf, NamesDefault, PanicsIn, NoneNamesDefault, LedgerAt, StashAt, ChangesRole;
    SoundStep(c, origin, d);
    var r := ExecCall(CallOf(c, origin), d);
    if NamesDefault(c, origin) {
      Named(c, origin, d);
      NamesAnother(c, origin);
    }
    if NamesDefault(c, origin) && r.outcome == Success {
      AnyRoleChange();
      Emptied(r.store, origin, LedgerAt(r.store, origin).value, ValidateCall);
    } else {
      forall later | NoneNamesDefault(later) ensures !PanicsIn(r.store, later) {
        NeverPanics(r.store, later);
      }
    }
  }

  lemma SoundStep(c: OuterCall, origin: AccountId, d: Store)
    requires Sound(d)
    ensures var r := ExecCall(CallOf(c, origin), d);
            r.outcome != Panicked && Solvent(r.store) && (!NamesDefault(c, origin) ==> Sound(r.store))
  {
    hide Solvent, Linked, Dangling, Issuance, ExecCall, CallOf, NamesDefault, ChangesRole;
    SolventStep(c, origin, d);
    LinkedNotDangling(d, origin);
  }

  lemma NamesAnother(c: OuterCall, origin: AccountId)
    requires NamesDefault(c, origin)
    ensures origin != DEFAULT_ACCOUNT
  {
  }

  lemma AnyRoleChange()
    ensures ChangesRole(ValidateCall)
  {
  }

  lemma NeverPanics(d: Store, calls: seq<Signed>)
    requires Sound(d) && NoneNamesDefault(calls)
    ensures !PanicsIn(d, calls)
  {
    hide Sound, ExecCall, CallOf, NamesDefault, RunCalls;
    RunCallsSound(d, calls);
    forall n: nat | n < |calls| ensures !PanicsAt(d, calls, n) {
      assert calls[..n] == calls[..n];
    }
  }
}
