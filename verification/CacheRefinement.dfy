// The link between the two runtimes: a dispatch that meets no taint does, through its cache,
// what the sequential runtime does straight on the state.
module CacheRefinement {
  import opened Storage
  import opened TaintState
  import opened Program
  import opened Dispatch
  import opened SharedState
  import opened Runtimes
  import opened Calls
  import opened RuntimeCalls

  /** The concurrent runtime sees through its cache the values the sequential one has in its state. */
  ghost predicate Alike(u: Sight, v: Sight) {
    && u.limited && !v.limited && Owning(u)
    && forall k :: Get(Data(v.state), k) == if k in u.cache then u.cache[k] else Get(Data(u.state), k)
  }

  lemma ReachAlike(u: Sight, v: Sight, k: Key)
    requires Alike(u, v) && Reach(u, k).Reached?
    ensures Reach(v, k) == Reached(Reach(u, k).value, v) && Alike(Reach(u, k).sight, v)
  {
    hide Own;
    ReachOwned(u, k);
  }

  lemma PutAlike(u: Sight, v: Sight, k: Key, x: Value)
    requires Alike(u, v) && Put(u, k, x).Reached?
    ensures Put(v, k, x).Reached? && Alike(Put(u, k, x).sight, Put(v, k, x).sight)
  {
    hide Own, Reach, Owning, Data;
    PutOwned(u, k, x);
    DataStored(v.state, k, x);
  }

  lemma DataStored(s: StateMap, k: Key, x: Value)
    ensures Data(s[k := Entry(x, None)]) == Data(s)[k := x]
  {
  }

  /** A key the runtime owns is never refused to it. */
  lemma OwnedReached(u: Sight, k: Key)
    requires u.limited && k in Own(u.state, u.id)
    ensures Reach(u, k).Reached?
  {
  }

  ghost predicate Follows(concurrent: Performed, direct: Performed) {
    match concurrent.result
    case Fine => direct.result.Fine? && Alike(concurrent.sight, direct.sight)
    case Logic(why) => direct.result == Logic(why) && concurrent.sight.cache == map[] && Alike(concurrent.sight, direct.sight)
    case Clash(_, _) => true
    case Aborted => direct.result.Aborted?
  }

  lemma {:induction false} PerformFollows(n: nat, p: Prog, u: Sight, v: Sight)
    requires Alike(u, v) && Disciplined(n, p, Own(u.state, u.id), u.cache != map[])
    ensures Follows(Perform(n, p, u), Perform(n, p, v))
    decreases n
  {
    hide Reach, Put, Alike, Own;
    match p
    case Read(k, t, next) =>
      if n > 0 {
        AlikeLimits(u, v);
        DirectReached(v, k, Empty);
        if Reach(u, k).Reached? {
          ReachAlike(u, v, k);
          ReachOwned(u, k);
          PerformFollows(n - 1, next(Reach(u, k).value), Reach(u, k).sight, v);
        } else if t.Expect? {
          OwnedReached(u, k);
        }
      }
    case Write(k, x, t, rest) =>
      if n > 0 {
        AlikeLimits(u, v);
        DirectReached(v, k, x);
        if Put(u, k, x).Reached? {
          PutAlike(u, v, k, x);
          PutOwned(u, k, x);
          assert k in Put(u, k, x).sight.cache;
          PerformFollows(n - 1, rest, Put(u, k, x).sight, Put(v, k, x).sight);
        } else if t.Expect? {
          OwnedReached(u, k);
          PutReached(u, k, x);
        }
      }
    case _ =>
  }

  lemma AlikeLimits(u: Sight, v: Sight)
    requires Alike(u, v)
    ensures u.limited && !v.limited && Owning(u)
  {
  }

  lemma DirectReached(v: Sight, k: Key, x: Value)
    requires !v.limited
    ensures Reach(v, k).Reached? && Put(v, k, x).Reached?
  {
  }

  lemma PutReached(u: Sight, k: Key, x: Value)
    requires u.limited
    ensures Put(u, k, x).Reached? <==> Reach(u, k).Reached?
  {
  }

  lemma CommitValues(s: StateMap, cache: Store, id: ThreadId)
    ensures forall k :: Get(Data(Committed(s, cache, id)), k) == if k in cache then cache[k] else Get(Data(s), k)
  {
  }

  /**
    For every call, origin and state: if the concurrent runtime's dispatch meets no taint, its
    outcome and the values it leaves are those of the sequential runtime's dispatch. If it
    meets one, or ends in a logic error, it changes no value. Its cache is empty afterwards.
   */
  lemma CachedRefinesDirect(call: OuterCall, origin: AccountId, s: StateMap, id: ThreadId, other: ThreadId)
    ensures var c := CallOf(call, origin);
            var concurrent := Dispatched(c, Sight(true, id, s, map[]));
            var direct := Dispatched(c, Sight(false, other, s, map[]));
            && (!concurrent.result.Clash? ==>
                  concurrent.result == direct.result &&
                  (!direct.result.Aborted? ==> Same(Data(concurrent.sight.state), Data(direct.sight.state))))
            && (!concurrent.result.Fine? ==> Same(Data(concurrent.sight.state), Data(s)))
            && concurrent.sight.cache == map[]
  {
    hide CallOf, Perform, Disciplined, Committed, Own, Get, Data;
    var c := CallOf(call, origin);
    var u, v := Sight(true, id, s, map[]), Sight(false, other, s, map[]);
    EveryCallDisciplined(call, origin);
    DisciplinedMonotone(c.steps, c.body, {}, Own(s, id), false);
    CacheOwned(c.steps, c.body, u);
    PerformFollows(c.steps, c.body, u, v);
    var u1 := Perform(c.steps, c.body, u).sight;
    CommitValues(u1.state, u1.cache, id);
  }

  /** The sequential runtime's dispatch is straight execution of the call on the values of the state. */
  lemma {:induction false} DirectIsExec(n: nat, p: Prog, v: Sight)
    requires !v.limited
    ensures var r := Perform(n, p, v);
            && !r.result.Clash?
            && Data(r.sight.state) == Exec(n, p, Data(v.state)).store
            && Exec(n, p, Data(v.state)).outcome ==
               (match r.result
                case Logic(why) => Failure(why)
                case Aborted => Panicked
                case _ => Success)
    decreases n
  {
    if n > 0 {
      match p
      case Read(k, _, next) => DirectIsExec(n - 1, next(Get(Data(v.state), k)), v);
      case Write(k, x, _, rest) =>
        assert Data(v.state[k := Entry(x, None)]) == Data(v.state)[k := x];
        DirectIsExec(n - 1, rest, v.(state := v.state[k := Entry(x, None)]));
      case _ =>
    }
  }

  // ---------------------------------------------------------------------------
  // The protocol's dispatch, stage by stage, is the runtime object's when nobody else acts.

  /** The stages of a dispatch up to its commit or its taint, uninterrupted. */
  function Drive(st: Stage, s: StateMap, id: ThreadId): Move
    decreases if st.Running? then st.fuel + 1 else 0
  {
    if !st.Running? then Move(st, s)
    else
      match Advance(st, s, id)
      case Crash => Crash
      case Move(st', s') => Drive(st', s', id)
  }

  /** The stage a result of the runtime object stands for. */
  function StageOf(r: Performed): Move {
    match r.result
    case Fine => Move(Committing(Success, r.sight.cache), r.sight.state)
    case Logic(why) => Move(Committing(Failure(why), map[]), r.sight.state)
    case Clash(owner, corrupt) => Move(Tainted(owner, corrupt), r.sight.state)
    case Aborted => Crash
  }

  lemma StageStep(n: nat, p: Prog, u: Sight)
    requires u.limited && n > 0
    ensures p.Read? ==>
              Advance(Running(n, p, u.cache), u.state, u.id) ==
              match Reach(u, p.key)
              case Reached(v, u1) => Move(Running(n - 1, p.next(v), u1.cache), u1.state)
              case Taken(owner) => Refused(u.state, p.onTaint, owner)
    ensures p.Write? ==>
              Advance(Running(n, p, u.cache), u.state, u.id) ==
              match Put(u, p.key, p.value)
              case Reached(_, u1) => Move(Running(n - 1, p.rest, u1.cache), u1.state)
              case Taken(owner) => Refused(u.state, p.onTaint, owner)
    ensures forall k :: Reach(u, k).Reached? ==> Reach(u, k).sight.limited && Reach(u, k).sight.id == u.id
    ensures forall k, v :: Put(u, k, v).Reached? ==> Put(u, k, v).sight.limited && Put(u, k, v).sight.id == u.id
  {
  }

  lemma {:induction false} StagesAreTheRuntime(n: nat, p: Prog, u: Sight)
    requires u.limited
    ensures Drive(Running(n, p, u.cache), u.state, u.id) == StageOf(Perform(n, p, u))
    decreases n, 1
  {
    hide Drive, StageOf, Perform;
    if n == 0 || p.Done? || p.LogicError? || p.Panic? {
      DriveEnds(n, p, u);
    } else {
      StagesGoOn(n, p, u);
    }
  }

  lemma DriveEnds(n: nat, p: Prog, u: Sight)
    requires u.limited && (n == 0 || p.Done? || p.LogicError? || p.Panic?)
    ensures Drive(Running(n, p, u.cache), u.state, u.id) == StageOf(Perform(n, p, u))
  {
  }

  lemma StagesGoOn(n: nat, p: Prog, u: Sight)
    requires u.limited && n > 0 && (p.Read? || p.Write?)
    ensures Drive(Running(n, p, u.cache), u.state, u.id) == StageOf(Perform(n, p, u))
    decreases n, 0
  {
    hide Advance, Reach, Put;
    StageStep(n, p, u);
    if p.Read? && Reach(u, p.key).Reached? {
      StagesAreTheRuntime(n - 1, p.next(Reach(u, p.key).value), Reach(u, p.key).sight);
    } else if p.Write? && Put(u, p.key, p.value).Reached? {
      StagesAreTheRuntime(n - 1, p.rest, Put(u, p.key, p.value).sight);
    }
  }
}
