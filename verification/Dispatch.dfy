// How a worker's runtime dispatches a call on the shared state: reads go through the
// cache, writes stay in the cache, and the cache reaches the state only when the call
// ends well. One stage is one access, so that other threads may act in between.
module Dispatch {
  import opened Storage
  import opened TaintState
  import opened Program

  datatype Stage =
    | Running(fuel: nat, prog: Prog, cache: Store)
    | Committing(outcome: Outcome, rest: Store)
    | Tainted(owner: ThreadId, corrupt: bool)

  datatype Move = Move(stage: Stage, state: StateMap) | Crash

  function Start(c: Call): Stage {
    Running(c.steps, c.body, map[])
  }

  /** Reading through the cache; reading the state claims the key. */
  function CachedRead(s: StateMap, cache: Store, k: Key, id: ThreadId): Access {
    if k in cache then Granted(cache[k], s) else Claim(s, k, id)
  }

  /** A failed access ends the dispatch, except where the code expects that it cannot fail. */
  function Refused(s: StateMap, onTaint: OnTaint, owner: ThreadId): Move {
    match onTaint
    case Forward => Move(Tainted(owner, false), s)
    case Orphan => Move(Tainted(owner, true), s)
    case Expect => Crash
  }

  /** One access, or the end of the call. */
  function Advance(st: Stage, s: StateMap, id: ThreadId): Move
    requires st.Running?
  {
    var Running(n, p, cache) := st;
    match p
    case Done => Move(Committing(Success, cache), s)
    case LogicError(why) => Move(Committing(Failure(why), map[]), s)
    case Panic(_) => Crash
    case Read(k, onTaint, next) =>
      if n == 0 then Crash
      else (match CachedRead(s, cache, k, id)
            case Granted(v, s') => Move(Running(n - 1, next(v), cache), s')
            case Denied(owner) => Refused(s, onTaint, owner)
            case Broken => Crash)
    case Write(k, v, onTaint, rest) =>
      if n == 0 then Crash
      else (match CachedRead(s, cache, k, id)
            case Granted(_, s') => Move(Running(n - 1, rest, cache[k := v]), s')
            case Denied(owner) => Refused(s, onTaint, owner)
            case Broken => Crash)
  }

  /** Storing one cached value, with the worker's own taint. */
  function Commit(st: Stage, s: StateMap, k: Key, id: ThreadId): Move
    requires st.Committing? && k in st.rest
  {
    Move(Committing(st.outcome, st.rest - {k}), s[k := Entry(st.rest[k], Some(id))])
  }

  // ---------------------------------------------------------------------------
  // What a dispatch in flight means: the rest of it, run on the worker's own view of
  // the state, gives what the whole call gives when run on that view.

  /** The keys thread `id` may still read: its own and those nobody owns. */
  ghost predicate Open(s: StateMap, k: Key, id: ThreadId) {
    Owner(s, k) == None || Owner(s, k) == Some(id)
  }

  /** `view` is the state as far as thread `id` may read it, once `rest` is stored. */
  ghost predicate Views(view: Store, s: StateMap, id: ThreadId, rest: Store) {
    forall k :: Open(s, k, id) ==> Get(view, k) == if k in rest then rest[k] else Get(Data(s), k)
  }

  ghost predicate Coherent(c: Call, view: Store, st: Stage, s: StateMap, id: ThreadId) {
    match st
    case Running(n, p, cache) =>
      && Views(view, s, id, map[])
      && cache.Keys <= Own(s, id)
      && Disciplined(n, p, Own(s, id), cache != map[])
      && ExecCall(c, view) == Exec(n, p, view + cache)
      && CallKeys(c, view) <= Own(s, id) + Keys(n, p, view + cache)
      && Keys(n, p, view + cache) <= CallKeys(c, view)
    case Committing(outcome, rest) =>
      && Views(ExecCall(c, view).store, s, id, rest)
      && rest.Keys <= Own(s, id)
      && CallKeys(c, view) <= Own(s, id)
      && outcome == ExecCall(c, view).outcome
    case Tainted(owner, corrupt) =>
      && Views(view, s, id, map[])
      && owner != id
      && (exists k :: k in CallKeys(c, view) && Owner(s, k) == Some(owner))
  }

  /** What thread `id` may do to the state: claim free keys, and change the values of its own. */
  ghost predicate ActsAlone(s: StateMap, s': StateMap, id: ThreadId) {
    && (forall k :: k in s ==> k in s')
    && (forall k :: Owner(s, k) != None ==> Owner(s', k) == Owner(s, k))
    && (forall k :: Owner(s, k) == None ==> Owner(s', k) == None || Owner(s', k) == Some(id))
    && (forall k :: Owner(s, k) != Some(id) ==> Get(Data(s'), k) == Get(Data(s), k))
  }

  lemma StartCoherent(c: Call, view: Store, s: StateMap, id: ThreadId)
    requires Views(view, s, id, map[]) && DisciplinedCall(c)
    ensures Coherent(c, view, Start(c), s, id)
  {
    assert view + map[] == view;
    DisciplinedMonotone(c.steps, c.body, {}, Own(s, id), false);
  }

  lemma ClaimActs(s: StateMap, k: Key, id: ThreadId)
    requires Claim(s, k, id).Granted?
    ensures var s' := Claim(s, k, id).state;
            ActsAlone(s, s', id) && Own(s', id) == Own(s, id) + {k} &&
            (forall x :: Get(Data(s'), x) == Get(Data(s), x)) &&
            Claim(s, k, id).value == Get(Data(s), k)
  {
  }

  lemma AdvanceCoherent(c: Call, view: Store, st: Stage, s: StateMap, id: ThreadId)
    requires st.Running? && Coherent(c, view, st, s, id) && ExecCall(c, view).outcome != Panicked
    ensures var m := Advance(st, s, id);
            m.Move? && ActsAlone(s, m.state, id) && Coherent(c, view, m.stage, m.state, id)
  {
    var Running(n, p, cache) := st;
    match p
    case Read(k, onTaint, next) => AdvanceReadCoherent(c, view, st, s, id);
    case Write(k, v, onTaint, rest) => AdvanceWriteCoherent(c, view, st, s, id);
    case Done =>
      assert ExecCall(c, view).store == view + cache;
    case LogicError(why) =>
      assert view + cache == view;
    case _ =>
  }

  lemma AdvanceReadCoherent(c: Call, view: Store, st: Stage, s: StateMap, id: ThreadId)
    requires st.Running? && st.prog.Read?
    requires Coherent(c, view, st, s, id) && ExecCall(c, view).outcome != Panicked
    ensures var m := Advance(st, s, id);
            m.Move? && ActsAlone(s, m.state, id) && Coherent(c, view, m.stage, m.state, id)
  {
    var Running(n, Read(k, onTaint, next), cache) := st;
    match CachedRead(s, cache, k, id)
    case Granted(v, s') => AdvanceReadGranted(c, view, st, s, id);
    case Denied(owner) =>
      assert k in CallKeys(c, view);
    case Broken =>
  }

  lemma AdvanceReadGranted(c: Call, view: Store, st: Stage, s: StateMap, id: ThreadId)
    requires st.Running? && st.prog.Read? && CachedRead(s, st.cache, st.prog.key, id).Granted?
    requires Coherent(c, view, st, s, id) && ExecCall(c, view).outcome != Panicked
    ensures var m := Advance(st, s, id);
            m.Move? && ActsAlone(s, m.state, id) && Coherent(c, view, m.stage, m.state, id)
  {
    hide CachedRead, Own, Views, ActsAlone, Get, Data, Owner;
    var Running(n, Read(k, onTaint, next), cache) := st;
    var Granted(v, s') := CachedRead(s, cache, k, id);
    GrantedAccess(view, s, cache, k, id);
    assert n > 0 && Exec(n, st.prog, view + cache) == Exec(n - 1, next(v), view + cache);
    assert Keys(n, st.prog, view + cache) == {k} + Keys(n - 1, next(v), view + cache);
    assert Advance(st, s, id) == Move(Running(n - 1, next(v), cache), s');
    assert Disciplined(n - 1, next(v), Own(s', id), cache != map[]);
  }

  lemma AdvanceWriteCoherent(c: Call, view: Store, st: Stage, s: StateMap, id: ThreadId)
    requires st.Running? && st.prog.Write?
    requires Coherent(c, view, st, s, id) && ExecCall(c, view).outcome != Panicked
    ensures var m := Advance(st, s, id);
            m.Move? && ActsAlone(s, m.state, id) && Coherent(c, view, m.stage, m.state, id)
  {
    var Running(n, Write(k, v, onTaint, rest), cache) := st;
    match CachedRead(s, cache, k, id)
    case Granted(_, s') => AdvanceWriteGranted(c, view, st, s, id);
    case Denied(owner) =>
      assert k in CallKeys(c, view);
    case Broken =>
  }

  lemma AdvanceWriteGranted(c: Call, view: Store, st: Stage, s: StateMap, id: ThreadId)
    requires st.Running? && st.prog.Write? && CachedRead(s, st.cache, st.prog.key, id).Granted?
    requires Coherent(c, view, st, s, id) && ExecCall(c, view).outcome != Panicked
    ensures var m := Advance(st, s, id);
            m.Move? && ActsAlone(s, m.state, id) && Coherent(c, view, m.stage, m.state, id)
  {
    hide CachedRead, Own, Views, ActsAlone, Get, Data, Owner;
    var Running(n, Write(k, v, onTaint, rest), cache) := st;
    var s' := CachedRead(s, cache, k, id).state;
    GrantedAccess(view, s, cache, k, id);
    assert (view + cache)[k := v] == view + cache[k := v];
    assert n > 0 && Exec(n, st.prog, view + cache) == Exec(n - 1, rest, view + cache[k := v]);
    assert Keys(n, st.prog, view + cache) == {k} + Keys(n - 1, rest, view + cache[k := v]);
    assert Advance(st, s, id) == Move(Running(n - 1, rest, cache[k := v]), s');
    assert k in cache[k := v];
    assert cache[k := v].Keys == cache.Keys + {k};
    assert Disciplined(n - 1, rest, Own(s', id), cache[k := v] != map[]);
    assert Coherent(c, view, Running(n - 1, rest, cache[k := v]), s', id);
  }

  lemma GrantedAccess(view: Store, s: StateMap, cache: Store, k: Key, id: ThreadId)
    requires CachedRead(s, cache, k, id).Granted? && Views(view, s, id, map[]) && cache.Keys <= Own(s, id)
    ensures var Granted(v, s') := CachedRead(s, cache, k, id);
            && ActsAlone(s, s', id) && Own(s', id) == Own(s, id) + {k}
            && Views(view, s', id, map[]) && v == Get(view + cache, k)
  {
    if k !in cache {
      ClaimActs(s, k, id);
      assert Open(s, k, id);
    }
  }

  lemma CommitCoherent(c: Call, view: Store, st: Stage, s: StateMap, k: Key, id: ThreadId)
    requires st.Committing? && k in st.rest && Coherent(c, view, st, s, id)
    ensures var m := Commit(st, s, k, id);
            ActsAlone(s, m.state, id) && Coherent(c, view, m.stage, m.state, id)
  {
    var m := Commit(st, s, k, id);
    assert k in Own(s, id);
    assert Own(m.state, id) == Own(s, id);
    forall x | Open(m.state, x, id)
      ensures Get(ExecCall(c, view).store, x) ==
              if x in m.stage.rest then m.stage.rest[x] else Get(Data(m.state), x)
    {
      assert Open(s, x, id);
    }
  }

  /** What another thread does leaves a dispatch in flight as it was. */
  lemma OthersKeepCoherent(c: Call, view: Store, st: Stage, s: StateMap, s': StateMap, id: ThreadId, other: ThreadId)
    requires Coherent(c, view, st, s, id) && ActsAlone(s, s', other) && other != id
    ensures Coherent(c, view, st, s', id) && Own(s', id) == Own(s, id)
  {
    OthersKeepViews(s, s', id, other);
    assert st.Tainted? ==> forall k :: Owner(s, k) == Some(st.owner) ==> Owner(s', k) == Some(st.owner);
  }

  lemma OthersKeepViews(s: StateMap, s': StateMap, id: ThreadId, other: ThreadId)
    requires ActsAlone(s, s', other) && other != id
    ensures Own(s', id) == Own(s, id)
    ensures forall view, rest :: Views(view, s, id, rest) ==> Views(view, s', id, rest)
  {
    forall k ensures k in Own(s', id) <==> k in Own(s, id) {
      assert k in Own(s', id) <==> Owner(s', k) == Some(id);
      assert k in Own(s, id) <==> Owner(s, k) == Some(id);
    }
    forall view, rest | Views(view, s, id, rest) ensures Views(view, s', id, rest) {
      forall k | Open(s', k, id)
        ensures Get(view, k) == if k in rest then rest[k] else Get(Data(s'), k)
      {
        assert Open(s, k, id);
      }
    }
  }
}
