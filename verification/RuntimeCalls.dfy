// The calls as statements over a runtime, and the dispatch of a call by either runtime.
module RuntimeCalls {
  import opened Storage
  import opened TaintState
  import opened Program
  import opened Dispatch
  import opened SharedState
  import opened Runtimes
  import opened Balances
  import opened Staking
  import opened Calls

  /** One access of a call, or its end. */
  lemma PerformUnfold(n: nat, p: Prog, u: Sight)
    ensures p.Read? && n > 0 ==>
              Perform(n, p, u) == match Reach(u, p.key)
                                  case Reached(v, u1) => Perform(n - 1, p.next(v), u1)
                                  case Taken(owner) => Performed(Onto(p.onTaint, owner), u)
    ensures p.Write? && n > 0 ==>
              Perform(n, p, u) == match Put(u, p.key, p.value)
                                  case Reached(_, u1) => Perform(n - 1, p.rest, u1)
                                  case Taken(owner) => Performed(Onto(p.onTaint, owner), u)
    ensures p.Done? ==> Perform(n, p, u) == Performed(Fine, u)
    ensures p.LogicError? ==> Perform(n, p, u) == Performed(Logic(p.why), u)
    ensures p.Panic? ==> Perform(n, p, u) == Performed(Aborted, u)
  {
  }

  // ---------------------------------------------------------------------------
  // balances

  method TransferBy(rt: Runtime, origin: AccountId, dest: AccountId, value: nat) returns (r: CallResult)
    modifies rt.Frame()
    ensures Performed(r, rt.View()) == Perform(4, TransferProg(origin, dest, value), old(rt.View()))
  {
    hide Perform, Reach, Put, LedgerIn, BalanceIn, AccountIn;
    ghost var p0 := TransferProg(origin, dest, value);
    PerformUnfold(4, p0, rt.View());
    var read := rt.Read(BalanceOf(origin));
    if read.Err? {
      return Clash(read.owner, false);
    }
    var balance := BalanceIn(read.value);
    ghost var p1 := TransferFrom(origin, dest, value, balance);
    PerformUnfold(3, p1, rt.View());
    if balance.free < value {
      return Logic("Does not have enough funds.");
    }
    balance := balance.(free := balance.free - value);
    var written := rt.Write(BalanceOf(origin), BalanceValue(balance));
    if written.Err? {
      return Aborted;
    }
    PerformUnfold(2, p1.rest, rt.View());
    read := rt.Read(BalanceOf(dest));
    if read.Err? {
      return Clash(read.owner, true);
    }
    var had := BalanceIn(read.value);
    ghost var p3 := TransferTo(dest, value, had);
    PerformUnfold(1, p3, rt.View());
    if had.free + value > MAX_BALANCE {
      return Aborted;
    }
    written := rt.Write(BalanceOf(dest), BalanceValue(had.(free := had.free + value)));
    if written.Err? {
      return Clash(written.owner, true);
    }
    PerformUnfold(0, p3.rest, rt.View());
    return Fine;
  }

  // ---------------------------------------------------------------------------
  // staking

  method BondBy(rt: Runtime, stash: AccountId, amount: nat, controller: AccountId) returns (r: CallResult)
    modifies rt.Frame()
    ensures Performed(r, rt.View()) == Perform(5, BondProg(stash, amount, controller), old(rt.View()))
  {
    hide Perform, Reach, Put, LedgerIn, BalanceIn, AccountIn, Reserve;
    PerformUnfold(5, BondProg(stash, amount, controller), rt.View());
    // Only a stash without a ledger can bond.
    var read := rt.Read(Ledger(stash));
    if read.Err? {
      return Clash(read.owner, false);
    }
    ghost var p1 := BondUnbonded(stash, amount, controller, LedgerIn(read.value));
    PerformUnfold(4, p1, rt.View());
    if Exists(LedgerIn(read.value)) {
      return Logic("Already bonded.");
    }
    // The amount is set aside,
    read := rt.Read(BalanceOf(stash));
    if read.Err? {
      return Clash(read.owner, true);
    }
    var reserved := Reserve(BalanceIn(read.value), amount);
    ghost var p2 := BondReserving(stash, amount, controller, reserved);
    PerformUnfold(3, p2, rt.View());
    if reserved.Short? {
      return Logic("Not enough funds.");
    }
    if reserved.Overflow? {
      return Aborted;
    }
    var written := rt.Write(BalanceOf(stash), BalanceValue(reserved.balance));
    if written.Err? {
      return Aborted;
    }
    // the controller bound to the stash,
    PerformUnfold(2, p2.rest, rt.View());
    written := rt.Write(Bonded(controller), AccountValue(stash));
    if written.Err? {
      return Clash(written.owner, true);
    }
    // and the ledger opened.
    PerformUnfold(1, p2.rest.rest, rt.View());
    written := rt.Write(Ledger(stash), LedgerValue(StakingLedger(amount, controller, Chilled)));
    if written.Err? {
      return Aborted;
    }
    PerformUnfold(0, p2.rest.rest.rest, rt.View());
    return Fine;
  }

  method BondExtraBy(rt: Runtime, stash: AccountId, amount: nat) returns (r: CallResult)
    modifies rt.Frame()
    ensures Performed(r, rt.View()) == Perform(4, BondExtraProg(stash, amount), old(rt.View()))
  {
    hide Perform, Reach, Put, LedgerIn, BalanceIn, AccountIn, Reserve;
    PerformUnfold(4, BondExtraProg(stash, amount), rt.View());
    var read := rt.Read(Ledger(stash));
    if read.Err? {
      return Clash(read.owner, false);
    }
    var ledger := LedgerIn(read.value);
    PerformUnfold(3, BondExtraBonded(stash, amount, ledger), rt.View());
    if !Exists(ledger) {
      return Logic("Not bonded.");
    }
    // A taint met here, after the ledger, makes an orphan.
    read := rt.Read(BalanceOf(stash));
    if read.Err? {
      return Clash(read.owner, true);
    }
    var reserved := Reserve(BalanceIn(read.value), amount);
    PerformUnfold(2, BondExtraReserving(stash, amount, ledger, reserved), rt.View());
    if reserved.Short? {
      return Logic("Not enough funds.");
    }
    if reserved.Overflow? {
      return Aborted;
    }
    var written := rt.Write(BalanceOf(stash), BalanceValue(reserved.balance));
    if written.Err? {
      return Aborted;
    }
    ghost var p3 := BondExtraLedger(stash, amount, ledger);
    PerformUnfold(1, p3, rt.View());
    if ledger.value + amount > MAX_BALANCE {
      return Aborted;
    }
    ledger := ledger.(value := ledger.value + amount);
    written := rt.Write(Ledger(stash), LedgerValue(ledger));
    if written.Err? {
      return Aborted;
    }
    PerformUnfold(0, p3.rest, rt.View());
    return Fine;
  }

  method UnbondBy(rt: Runtime, stash: AccountId, amount: nat) returns (r: CallResult)
    modifies rt.Frame()
    ensures Performed(r, rt.View()) == Perform(4, UnbondProg(stash, amount), old(rt.View()))
  {
    hide Perform, Reach, Put, LedgerIn, BalanceIn, AccountIn, Unreserve;
    PerformUnfold(4, UnbondProg(stash, amount), rt.View());
    var read := rt.Read(Ledger(stash));
    if read.Err? {
      return Clash(read.owner, false);
    }
    var ledger := LedgerIn(read.value);
    ghost var p1 := UnbondBonded(stash, amount, ledger);
    PerformUnfold(3, p1, rt.View());
    if !Exists(ledger) {
      return Logic("Not bonded.");
    }
    if ledger.value < amount {
      return Logic("Too much unbonding.");
    }
    ledger := ledger.(value := ledger.value - amount);
    // First out of the ledger,
    var written := rt.Write(Ledger(stash), LedgerValue(ledger));
    if written.Err? {
      return Aborted;
    }
    // then back into what is free.
    PerformUnfold(2, p1.rest, rt.View());
    read := rt.Read(BalanceOf(stash));
    if read.Err? {
      return Clash(read.owner, true);
    }
    var returned := Unreserve(BalanceIn(read.value), amount);
    ghost var p3 := UnbondReturning(stash, returned);
    PerformUnfold(1, p3, rt.View());
    if !returned.Balance? {
      return Aborted;
    }
    written := rt.Write(BalanceOf(stash), BalanceValue(returned.balance));
    if written.Err? {
      return Clash(written.owner, true);
    }
    PerformUnfold(0, p3.rest, rt.View());
    return Fine;
  }

  method SetControllerBy(rt: Runtime, stash: AccountId, ctrl: AccountId) returns (r: CallResult)
    modifies rt.Frame()
    ensures Performed(r, rt.View()) == Perform(4, SetControllerProg(stash, ctrl), old(rt.View()))
  {
    hide Perform, Reach, Put, LedgerIn, BalanceIn, AccountIn;
    PerformUnfold(4, SetControllerProg(stash, ctrl), rt.View());
    var read := rt.Read(Ledger(stash));
    if read.Err? {
      return Clash(read.owner, false);
    }
    var ledger := LedgerIn(read.value);
    ghost var p1 := SetControllerBonded(stash, ctrl, ledger);
    PerformUnfold(3, p1, rt.View());
    if !Exists(ledger) {
      return Logic("Not bonded.");
    }
    var prev := ledger.controller;
    if prev == ctrl {
      return Fine;
    }
    ledger := ledger.(controller := ctrl);
    // The controller so far is let go.
    var written := rt.Write(Bonded(prev), AccountValue(DEFAULT_ACCOUNT));
    if written.Err? {
      return Clash(written.owner, false);
    }
    // The stash gets its new controller,
    PerformUnfold(2, p1.rest, rt.View());
    written := rt.Write(Bonded(ctrl), AccountValue(stash));
    if written.Err? {
      return Clash(written.owner, true);
    }
    // which its ledger now names.
    PerformUnfold(1, p1.rest.rest, rt.View());
    written := rt.Write(Ledger(stash), LedgerValue(ledger));
    if written.Err? {
      return Aborted;
    }
    PerformUnfold(0, p1.rest.rest.rest, rt.View());
    return Fine;
  }

  /** `validate`, `nominate` and `chill`. */
  method ChangeRoleBy(rt: Runtime, ctrl: AccountId, change: RoleChange) returns (r: CallResult)
    modifies rt.Frame()
    ensures Performed(r, rt.View()) == Perform(4, RoleProg(ctrl, change), old(rt.View()))
  {
    hide Perform, Reach, Put, LedgerIn, BalanceIn, AccountIn;
    PerformUnfold(4, RoleProg(ctrl, change), rt.View());
    var read := rt.Read(Bonded(ctrl));
    if read.Err? {
      return Clash(read.owner, false);
    }
    var stash := AccountIn(read.value);
    PerformUnfold(3, RoleOfStash(stash, change), rt.View());
    if stash == DEFAULT_ACCOUNT {
      return Logic("Not bonded.");
    }
    read := rt.Read(Ledger(stash));
    if read.Err? {
      return Clash(read.owner, true);
    }
    var ledger := LedgerIn(read.value);
    ghost var p2 := RoleOfLedger(stash, ledger, change);
    PerformUnfold(2, p2, rt.View());
    if !Exists(ledger) {
      return Aborted;
    }
    var role := if change.ToValidator? then Validator else if change.ToNominator? then Nominator else Chilled;
    ghost var p3, n := p2, 2;
    if change.ToNominator? || (change.ToChilled? && ledger.role.Nominator?) {
      var targets := if change.ToNominator? then change.targets else [];
      var listed := rt.Write(Nominations(stash), TargetsValue(targets));
      if listed.Err? {
        return Clash(listed.owner, true);
      }
      p3, n := p2.rest, 1;
      PerformUnfold(n, p3, rt.View());
    }
    // The ledger takes on the role.
    var written := rt.Write(Ledger(stash), LedgerValue(ledger.(role := role)));
    if written.Err? {
      return Aborted;
    }
    PerformUnfold(n - 1, p3.rest, rt.View());
    return Fine;
  }

  // ---------------------------------------------------------------------------
  // Dispatch.

  method Execute(rt: Runtime, call: OuterCall, origin: AccountId) returns (r: CallResult)
    modifies rt.Frame()
    ensures Performed(r, rt.View()) == Perform(CallOf(call, origin).steps, CallOf(call, origin).body, old(rt.View()))
  {
    hide Perform;
    match call {
      case TransferCall(dest, value) => r := TransferBy(rt, origin, dest, value);
      case BondCall(amount, controller) => r := BondBy(rt, origin, amount, controller);
      case BondExtraCall(amount) => r := BondExtraBy(rt, origin, amount);
      case UnbondCall(amount) => r := UnbondBy(rt, origin, amount);
      case SetControllerCall(ctrl) => r := SetControllerBy(rt, origin, ctrl);
      case ValidateCall => r := ChangeRoleBy(rt, origin, ToValidator);
      case NominateCall(targets) => r := ChangeRoleBy(rt, origin, ToNominator(targets));
      case ChillCall => r := ChangeRoleBy(rt, origin, ToChilled);
    }
  }

  /** What a dispatch amounts to: only a call that ends well has its cache stored. */
  function Dispatched(c: Call, u: Sight): Performed {
    var Performed(r, u1) := Perform(c.steps, c.body, u);
    if !u.limited then Performed(r, u1)
    else Performed(r, u1.(cache := map[], state := if r.Fine? then Committed(u1.state, u1.cache, u1.id) else u1.state))
  }

  /** The cache is empty at the beginning and at the end of every dispatch. */
  method DispatchConcurrent(rt: ConcurrentRuntime, call: OuterCall, origin: AccountId) returns (r: CallResult)
    requires rt.cache == map[]
    modifies rt, rt.state
    ensures Performed(r, rt.View()) == Dispatched(CallOf(call, origin), old(rt.View()))
    ensures rt.cache == map[]
  {
    hide Perform, Own, Committed;
    var whole := Concurrent(rt);
    CacheOwned(CallOf(call, origin).steps, CallOf(call, origin).body, rt.View());
    r := Execute(whole, call, origin);
    if r.Fine? {
      rt.CommitCache();
    }
    rt.cache := map[];
  }

  method DispatchSequential(rt: SequentialRuntime, call: OuterCall, origin: AccountId) returns (r: CallResult)
    modifies rt.state
    ensures Performed(r, rt.View()) == Dispatched(CallOf(call, origin), old(rt.View()))
  {
    hide Perform;
    var whole := Sequential(rt);
    r := Execute(whole, call, origin);
  }

  /** Whatever a runtime has cached it owns. */
  ghost predicate Owning(u: Sight) {
    u.cache.Keys <= Own(u.state, u.id)
  }

  lemma ReachOwned(u: Sight, k: Key)
    requires u.limited && Owning(u) && Reach(u, k).Reached?
    ensures var u1 := Reach(u, k).sight;
            && Owning(u1) && k in Own(u1.state, u1.id) && Own(u1.state, u1.id) == Own(u.state, u.id) + {k}
            && u1.limited && u1.id == u.id && u1.cache == u.cache
            && forall j :: Get(Data(u1.state), j) == Get(Data(u.state), j)
  {
    if k !in u.cache {
      ClaimActs(u.state, k, u.id);
    }
  }

  lemma PutOwned(u: Sight, k: Key, v: Value)
    requires u.limited && Owning(u) && Put(u, k, v).Reached?
    ensures var u1 := Put(u, k, v).sight;
            && Owning(u1) && k in Own(u1.state, u1.id) && Own(u1.state, u1.id) == Own(u.state, u.id) + {k}
            && u1.limited && u1.id == u.id && u1.cache == u.cache[k := v]
            && forall j :: Get(Data(u1.state), j) == Get(Data(u.state), j)
  {
    hide Reach, Own, Get, Data;
    ReachOwned(u, k);
  }

  /** During a call the state's values do not change, and what is cached is owned. */
  lemma {:induction false} CacheOwned(n: nat, p: Prog, u: Sight)
    requires u.limited && Owning(u)
    ensures var u1 := Perform(n, p, u).sight;
            u1.limited && u1.id == u.id && Owning(u1) && forall j :: Get(Data(u1.state), j) == Get(Data(u.state), j)
    decreases n
  {
    hide Reach, Put, Owning, Get, Data;
    if n > 0 {
      match p
      case Read(k, _, next) =>
        if Reach(u, k).Reached? {
          ReachOwned(u, k);
          CacheOwned(n - 1, next(Reach(u, k).value), Reach(u, k).sight);
        }
      case Write(k, v, _, rest) =>
        if Put(u, k, v).Reached? {
          PutOwned(u, k, v);
          CacheOwned(n - 1, rest, Put(u, k, v).sight);
        }
      case _ =>
    }
  }
}
