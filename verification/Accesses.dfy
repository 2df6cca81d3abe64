// The accesses of a call in the order in which it makes them, and what a refused one turns
// the call into: handed on if nothing has been touched yet, an orphan otherwise.
module Accesses {
  import opened Storage
  import opened TaintState
  import opened Program
  import opened Dispatch
  import opened SharedState
  import opened Runtimes
  import opened Balances
  import opened Staking
  import opened Calls
  import opened Effects
  import opened Ledgers
  import opened RuntimeCalls

  datatype Touch = Reading(key: Key) | Writing(key: Key)

  /** The accesses of straight execution from `d`. */
  function Touches(n: nat, p: Prog, d: Store): seq<Touch>
    decreases n
  {
    match p
    case Read(k, _, next) => if n == 0 then [] else [Reading(k)] + Touches(n - 1, next(Get(d, k)), d)
    case Write(k, v, _, rest) => if n == 0 then [] else [Writing(k)] + Touches(n - 1, rest, d[k := v])
    case _ => []
  }

  function CallTouches(c: OuterCall, origin: AccountId, d: Store): seq<Touch> {
    Touches(CallOf(c, origin).steps, CallOf(c, origin).body, d)
  }

  lemma NextTouch(n: nat, p: Prog, d: Store)
    ensures p.Read? && n > 0 ==> Touches(n, p, d) == [Reading(p.key)] + Touches(n - 1, p.next(Get(d, p.key)), d)
    ensures p.Write? && n > 0 ==> Touches(n, p, d) == [Writing(p.key)] + Touches(n - 1, p.rest, d[p.key := p.value])
    ensures p.Done? || p.LogicError? || p.Panic? ==> Touches(n, p, d) == []
  {
  }

  // ---------------------------------------------------------------------------
  // In which order.

  /** The origin's balance is debited before the destination's is looked at. */
  lemma TransferTouches(origin: AccountId, dest: AccountId, value: nat, d: Store)
    ensures var b, t := BalanceAt(d, origin), BalanceAt(d, dest);
            CallTouches(TransferCall(dest, value), origin, d) ==
            [Reading(BalanceOf(origin))] +
            if b.free < value then []
            else
              [Writing(BalanceOf(origin)), Reading(BalanceOf(dest))] +
              if (if origin == dest then b.free else t.free + value) > MAX_BALANCE then [] else [Writing(BalanceOf(dest))]
  {
    hide Touches, BalanceIn, Get, WithBalance;
    var b := BalanceAt(d, origin);
    var p := TransferFrom(origin, dest, value, b);
    NextTouch(4, TransferProg(origin, dest, value), d);
    NextTouch(3, p, d);
    if b.free >= value {
      var b1 := b.(free := b.free - value);
      var d1 := WithBalance(d, origin, b1);
      BalanceSeen(d, origin, b1);
      StoredBalance(d, origin, b1);
      var q := TransferTo(dest, value, BalanceAt(d1, dest));
      NextTouch(2, p.rest, d1);
      NextTouch(1, q, d1);
      if q.Write? {
        NextTouch(0, q.rest, d1[q.key := q.value]);
      }
    }
  }

  lemma StoredBalance(d: Store, a: AccountId, b: AccountBalance)
    ensures WithBalance(d, a, b) == d[BalanceOf(a) := BalanceValue(b)]
  {
  }

  lemma BondTouches(stash: AccountId, amount: nat, controller: AccountId, d: Store)
    ensures var b, l := BalanceAt(d, stash), LedgerAt(d, stash);
            CallTouches(BondCall(amount, controller), stash, d) ==
            [Reading(Ledger(stash))] +
            if l.value != 0 || l.controller != DEFAULT_ACCOUNT || l.role != Chilled then []
            else
              [Reading(BalanceOf(stash))] +
              if b.free < amount || b.reserved + amount > MAX_BALANCE then []
              else [Writing(BalanceOf(stash)), Writing(Bonded(controller)), Writing(Ledger(stash))]
  {
    hide Touches, LedgerIn, BalanceIn, Get;
    var p := BondUnbonded(stash, amount, controller, LedgerAt(d, stash));
    var q := BondReserving(stash, amount, controller, Reserve(BalanceAt(d, stash), amount));
    NextTouch(5, BondProg(stash, amount, controller), d);
    NextTouch(4, p, d);
    NextTouch(3, q, d);
    if q.Write? {
      var d1 := d[q.key := q.value];
      var d2 := d1[q.rest.key := q.rest.value];
      NextTouch(2, q.rest, d1);
      NextTouch(1, q.rest.rest, d2);
      NextTouch(0, Done, d2[q.rest.rest.key := q.rest.rest.value]);
    }
  }

  lemma BondExtraTouches(stash: AccountId, amount: nat, d: Store)
    ensures var b, l := BalanceAt(d, stash), LedgerAt(d, stash);
            CallTouches(BondExtraCall(amount), stash, d) ==
            [Reading(Ledger(stash))] +
            if l.value == 0 && l.controller == DEFAULT_ACCOUNT && l.role == Chilled then []
            else
              [Reading(BalanceOf(stash))] +
              if b.free < amount || b.reserved + amount > MAX_BALANCE then []
              else [Writing(BalanceOf(stash))] + if l.value + amount > MAX_BALANCE then [] else [Writing(Ledger(stash))]
  {
    hide Touches, LedgerIn, BalanceIn, Get;
    var l := LedgerAt(d, stash);
    var p := BondExtraBonded(stash, amount, l);
    var q := BondExtraReserving(stash, amount, l, Reserve(BalanceAt(d, stash), amount));
    NextTouch(4, BondExtraProg(stash, amount), d);
    NextTouch(3, p, d);
    NextTouch(2, q, d);
    if q.Write? {
      var d1 := d[q.key := q.value];
      NextTouch(1, q.rest, d1);
      if q.rest.Write? {
        NextTouch(0, Done, d1[q.rest.key := q.rest.value]);
      }
    }
  }

  lemma UnbondTouches(stash: AccountId, amount: nat, d: Store)
    ensures var b, l := BalanceAt(d, stash), LedgerAt(d, stash);
            CallTouches(UnbondCall(amount), stash, d) ==
            [Reading(Ledger(stash))] +
            if (l.value == 0 && l.controller == DEFAULT_ACCOUNT && l.role == Chilled) || l.value < amount then []
            else
              [Writing(Ledger(stash)), Reading(BalanceOf(stash))] +
              if b.reserved < amount || b.free + amount > MAX_BALANCE then [] else [Writing(BalanceOf(stash))]
  {
    hide Touches, LedgerIn, BalanceIn, Get;
    var l := LedgerAt(d, stash);
    var p := UnbondBonded(stash, amount, l);
    NextTouch(4, UnbondProg(stash, amount), d);
    NextTouch(3, p, d);
    if p.Write? {
      var d1 := d[p.key := p.value];
      LedgerApart(d, stash, l.(value := l.value - amount));
      var q := UnbondReturning(stash, Unreserve(BalanceAt(d1, stash), amount));
      NextTouch(2, p.rest, d1);
      NextTouch(1, q, d1);
      if q.Write? {
        NextTouch(0, Done, d1[q.key := q.value]);
      }
    }
  }

  /** The controller so far is let go before the new one is bound. */
  lemma SetControllerTouches(stash: AccountId, ctrl: AccountId, d: Store)
    ensures var l := LedgerAt(d, stash);
            CallTouches(SetControllerCall(ctrl), stash, d) ==
            [Reading(Ledger(stash))] +
            if (l.value == 0 && l.controller == DEFAULT_ACCOUNT && l.role == Chilled) || l.controller == ctrl then []
            else [Writing(Bonded(l.controller)), Writing(Bonded(ctrl)), Writing(Ledger(stash))]
  {
    hide Touches, LedgerIn, BalanceIn, Get;
    var p := SetControllerBonded(stash, ctrl, LedgerAt(d, stash));
    NextTouch(4, SetControllerProg(stash, ctrl), d);
    NextTouch(3, p, d);
    if p.Write? {
      var d1 := d[p.key := p.value];
      var d2 := d1[p.rest.key := p.rest.value];
      NextTouch(2, p.rest, d1);
      NextTouch(1, p.rest.rest, d2);
      NextTouch(0, Done, d2[p.rest.rest.key := p.rest.rest.value]);
    }
  }

  /** Nominations are written by `nominate`, and by `chill` where there were some; in either case before the ledger. */
  lemma RoleTouches(c: OuterCall, ctrl: AccountId, d: Store)
    requires c.ValidateCall? || c.NominateCall? || c.ChillCall?
    ensures var stash := StashAt(d, ctrl);
            var l := LedgerAt(d, stash);
            CallTouches(c, ctrl, d) ==
            [Reading(Bonded(ctrl))] +
            if stash == DEFAULT_ACCOUNT then []
            else
              [Reading(Ledger(stash))] +
              if l.value == 0 && l.controller == DEFAULT_ACCOUNT && l.role == Chilled then []
              else (if c.NominateCall? || (c.ChillCall? && l.role == Nominator) then [Writing(Nominations(stash))] else [])
                   + [Writing(Ledger(stash))]
  {
    hide Touches, LedgerIn, AccountIn, Get, RoleOfLedger;
    var change := if c.ValidateCall? then ToValidator else if c.ChillCall? then ToChilled else ToNominator(c.targets);
    var stash := StashAt(d, ctrl);
    NextTouch(4, RoleProg(ctrl, change), d);
    NextTouch(3, RoleOfStash(stash, change), d);
    RoleWrites(stash, LedgerAt(d, stash), change, d);
  }

  lemma RoleWrites(stash: AccountId, l: StakingLedger, change: RoleChange, d: Store)
    ensures Touches(2, RoleOfLedger(stash, l, change), d) ==
            if l.value == 0 && l.controller == DEFAULT_ACCOUNT && l.role == Chilled then []
            else (if change.ToNominator? || (change.ToChilled? && l.role == Nominator) then [Writing(Nominations(stash))] else [])
                 + [Writing(Ledger(stash))]
  {
    hide Touches;
    var p := RoleOfLedger(stash, l, change);
    NextTouch(2, p, d);
    if p.Write? {
      var d1 := d[p.key := p.value];
      NextTouch(1, p.rest, d1);
      if p.rest.Write? {
        NextTouch(0, Done, d1[p.rest.key := p.rest.value]);
      }
    }
  }

  // ---------------------------------------------------------------------------
  // What a refusal turns the call into.

  /** How many accesses of the call the runtime has granted when the call ends, or clashes. */
  function Granted(n: nat, p: Prog, u: Sight): nat
    decreases n
  {
    match p
    case Read(k, _, next) =>
      if n == 0 || Reach(u, k).Taken? then 0 else 1 + Granted(n - 1, next(Reach(u, k).value), Reach(u, k).sight)
    case Write(k, v, _, rest) =>
      if n == 0 || Put(u, k, v).Taken? then 0 else 1 + Granted(n - 1, rest, Put(u, k, v).sight)
    case _ => 0
  }

  /** From here on a refusal makes an orphan, or is not expected at all. */
  ghost predicate Late(n: nat, p: Prog)
    decreases n
  {
    match p
    case Read(_, t, next) => t != Forward && (n > 0 ==> forall v :: Late(n - 1, next(v)))
    case Write(_, _, t, rest) => t != Forward && (n > 0 ==> Late(n - 1, rest))
    case _ => true
  }

  lemma {:induction false} LateIsCorrupt(n: nat, p: Prog, u: Sight)
    requires Late(n, p)
    ensures var r := Perform(n, p, u).result; r.Clash? ==> r.corrupt
    decreases n
  {
    if n > 0 {
      match p
      case Read(k, _, next) => if Reach(u, k).Reached? { LateIsCorrupt(n - 1, next(Reach(u, k).value), Reach(u, k).sight); }
      case Write(k, v, _, rest) => if Put(u, k, v).Reached? { LateIsCorrupt(n - 1, rest, Put(u, k, v).sight); }
      case _ =>
    }
  }

  /** A call whose first access forwards and whose later ones do not. */
  lemma FirstForwards(n: nat, p: Prog, u: Sight)
    requires n > 0 && p.Read? && p.onTaint == Forward && forall v :: Late(n - 1, p.next(v))
    ensures var r := Perform(n, p, u).result; r.Clash? ==> (r.corrupt <==> Granted(n, p, u) > 0)
  {
    if Reach(u, p.key).Reached? {
      LateIsCorrupt(n - 1, p.next(Reach(u, p.key).value), Reach(u, p.key).sight);
    }
  }

  lemma SetControllerClash(stash: AccountId, ctrl: AccountId, u: Sight)
    ensures var p := SetControllerProg(stash, ctrl);
            var r := Perform(4, p, u).result;
            r.Clash? ==> (r.corrupt <==> Granted(4, p, u) > 1)
  {
    hide Reach, Put, LedgerIn;
    var first := Reach(u, Ledger(stash));
    if first.Reached? {
      var p := SetControllerBonded(stash, ctrl, LedgerIn(first.value));
      if p.Write? && Put(first.sight, p.key, p.value).Reached? {
        LateIsCorrupt(2, p.rest, Put(first.sight, p.key, p.value).sight);
      }
    }
  }

  lemma LateTransfer(origin: AccountId, dest: AccountId, value: nat)
    ensures forall b :: Late(3, TransferFrom(origin, dest, value, b))
  {
    forall b ensures Late(3, TransferFrom(origin, dest, value, b)) {
      forall had ensures Late(1, TransferTo(dest, value, had)) {
      }
      if b.free >= value {
        assert Late(2, TransferFrom(origin, dest, value, b).rest);
      }
    }
  }

  lemma LateBond(stash: AccountId, amount: nat, controller: AccountId)
    ensures forall l :: Late(4, BondUnbonded(stash, amount, controller, l))
  {
    forall r ensures Late(3, BondReserving(stash, amount, controller, r)) {
    }
  }

  lemma LateBondExtra(stash: AccountId, amount: nat)
    ensures forall l :: Late(3, BondExtraBonded(stash, amount, l))
  {
    forall l, r ensures Late(2, BondExtraReserving(stash, amount, l, r)) {
    }
  }

  lemma LateUnbond(stash: AccountId, amount: nat)
    ensures forall l :: Late(3, UnbondBonded(stash, amount, l))
  {
    forall l ensures Late(3, UnbondBonded(stash, amount, l)) {
      forall r ensures Late(1, UnbondReturning(stash, r)) {
      }
      if Exists(l) && l.value >= amount {
        assert Late(2, UnbondBonded(stash, amount, l).rest);
      }
    }
  }

  lemma LateRole(change: RoleChange)
    ensures forall stash :: Late(3, RoleOfStash(stash, change))
  {
    forall stash, l ensures Late(2, RoleOfLedger(stash, l, change)) {
    }
  }

  /**
    A call that is refused an access reports whether it has touched anything before: it is
    handed on if this was its first access, and made an orphan otherwise. The one exception is
    the second access of `set_controller`, letting the controller so far go, which still
    forwards although the ledger has been read.
   */
  lemma ClashSaysIfTouched(c: OuterCall, origin: AccountId, u: Sight)
    ensures var call := CallOf(c, origin);
            var r := Perform(call.steps, call.body, u).result;
            r.Clash? ==> (r.corrupt <==> Granted(call.steps, call.body, u) > if c.SetControllerCall? then 1 else 0)
  {
    hide Perform, Granted, Late;
    match c
    case TransferCall(dest, value) =>
      LateTransfer(origin, dest, value);
      FirstForwards(4, TransferProg(origin, dest, value), u);
    case BondCall(amount, controller) =>
      LateBond(origin, amount, controller);
      FirstForwards(5, BondProg(origin, amount, controller), u);
    case BondExtraCall(amount) =>
      LateBondExtra(origin, amount);
      FirstForwards(4, BondExtraProg(origin, amount), u);
    case UnbondCall(amount) =>
      LateUnbond(origin, amount);
      FirstForwards(4, UnbondProg(origin, amount), u);
    case SetControllerCall(ctrl) => SetControllerClash(origin, ctrl, u);
    case ValidateCall =>
      LateRole(ToValidator);
      FirstForwards(4, RoleProg(origin, ToValidator), u);
    case NominateCall(targets) =>
      LateRole(ToNominator(targets));
      FirstForwards(4, RoleProg(origin, ToNominator(targets)), u);
    case ChillCall =>
      LateRole(ToChilled);
      FirstForwards(4, RoleProg(origin, ToChilled), u);
  }
}
