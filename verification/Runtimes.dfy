// The two runtimes a call can be executed by: the concurrent one of the workers, which
// respects taints and caches what it writes, and the sequential one, which does neither.
module Runtimes {
  import opened Storage
  import opened TaintState
  import opened Program
  import opened Dispatch
  import opened SharedState

  /** A runtime at one instant. `limited` says whether taints bind it. */
  datatype Sight = Sight(limited: bool, id: ThreadId, state: StateMap, cache: Store)

  datatype Reached = Reached(value: Value, sight: Sight) | Taken(owner: ThreadId)

  function Reach(u: Sight, k: Key): Reached {
    if u.limited then
      match CachedRead(u.state, u.cache, k, u.id)
      case Granted(v, s) => Reached(v, u.(state := s))
      case Denied(owner) => Taken(owner)
      case Broken => Taken(u.id)
    else Reached(Get(Data(u.state), k), u)
  }

  function Put(u: Sight, k: Key, v: Value): Reached {
    if u.limited then
      match Reach(u, k)
      case Reached(_, u1) => Reached(v, u1.(cache := u1.cache[k := v]))
      case Taken(owner) => Taken(owner)
    else Reached(v, u.(state := u.state[k := Entry(v, None)]))
  }

  class ConcurrentRuntime {
    const state: State
    const id: ThreadId
    var cache: Store

    constructor (state: State, id: ThreadId)
      ensures this.state == state && this.id == id && cache == map[]
    {
      this.state := state;
      this.id := id;
      cache := map[];
    }

    function View(): Sight
      reads this, state
    {
      Sight(true, id, state.backend, cache)
    }

    method Read(key: Key) returns (r: Result<Value>)
      modifies state
      ensures match Reach(old(View()), key)
              case Reached(v, u) => r == Ok(v) && View() == u
              case Taken(owner) => r == Err(owner) && View() == old(View())
      ensures key in cache ==> r == Ok(cache[key]) && state.backend == old(state.backend)
      ensures key !in cache ==>
                && (r.Ok? <==> Owner(old(state.backend), key) == None || Owner(old(state.backend), key) == Some(id))
                && Owner(state.backend, key) == Some(if r.Ok? then id else r.owner)
                && (r.Ok? ==> r.value == Get(Data(old(state.backend)), key))
      ensures forall k :: Get(Data(state.backend), k) == Get(Data(old(state.backend)), k)
    {
      if key in cache {
        r := Ok(cache[key]);
      } else {
        r := state.Read(key, id);
      }
    }

    method Write(key: Key, value: Value) returns (r: Result<()>)
      modifies this, state
      ensures match Put(old(View()), key, value)
              case Reached(_, u) => r == Ok(()) && View() == u
              case Taken(owner) => r == Err(owner) && View() == old(View())
      ensures r.Ok? <==> key in old(cache) || Owner(old(state.backend), key) == None || Owner(old(state.backend), key) == Some(id)
      ensures cache == if r.Ok? then old(cache)[key := value] else old(cache)
      ensures forall k :: Get(Data(state.backend), k) == Get(Data(old(state.backend)), k)
    {
      var seen := Read(key);
      match seen {
        case Ok(_) =>
          cache := cache[key := value];
          r := Ok(());
        case Err(owner) => r := Err(owner);
      }
    }

    /** Stores what is cached, tainted with this runtime's id. Every cached key is already its own. */
    method CommitCache()
      requires cache.Keys <= Own(state.backend, id)
      modifies state
      ensures state.backend == Committed(old(state.backend), cache, id)
      ensures Own(state.backend, id) == Own(old(state.backend), id)
      ensures forall k :: Owner(state.backend, k) == Owner(old(state.backend), k)
    {
      var rest := cache;
      while rest != map[]
        invariant rest.Keys <= cache.Keys && forall k :: k in rest ==> rest[k] == cache[k]
        invariant Committed(state.backend, rest, id) == Committed(old(state.backend), cache, id)
        invariant forall k :: Owner(state.backend, k) == Owner(old(state.backend), k)
        decreases rest.Keys
      {
        assert rest.Keys != {};
        var k :| k in rest.Keys;
        var taint := state.UnsafeReadTaint(k);
        assert k in Own(old(state.backend), id);
        assert taint == Some(id);
        CommitOne(state.backend, rest, k, id);
        state.UnsafeInsert(k, Entry(rest[k], Some(id)));
        rest := rest - {k};
      }
      SameOwners(old(state.backend), state.backend, id);
    }
  }

  lemma SameOwners(s: StateMap, s': StateMap, id: ThreadId)
    requires forall k :: Owner(s', k) == Owner(s, k)
    ensures Own(s', id) == Own(s, id)
  {
    forall k ensures k in Own(s', id) <==> k in Own(s, id) {
      assert k in Own(s', id) <==> Owner(s', k) == Some(id);
      assert k in Own(s, id) <==> Owner(s, k) == Some(id);
    }
  }

  /** The state once all of `rest` has been stored. */
  function Committed(s: StateMap, rest: Store, id: ThreadId): StateMap {
    map k | k in s.Keys + rest.Keys :: if k in rest then Entry(rest[k], Some(id)) else s[k]
  }

  /** The order in which the entries are stored does not matter. */
  lemma CommitOne(s: StateMap, rest: Store, k: Key, id: ThreadId)
    requires k in rest
    ensures Committed(s[k := Entry(rest[k], Some(id))], rest - {k}, id) == Committed(s, rest, id)
    ensures Committed(s, map[], id) == s
  {
  }

  class SequentialRuntime {
    const state: State
    const id: ThreadId

    constructor (state: State, id: ThreadId)
      ensures this.state == state && this.id == id
    {
      this.state := state;
      this.id := id;
    }

    function View(): Sight
      reads state
    {
      Sight(false, id, state.backend, map[])
    }

    method Read(key: Key) returns (r: Result<Value>)
      ensures r == Ok(Reach(View(), key).value) == Ok(Get(Data(state.backend), key))
    {
      var value := state.UnsafeReadValue(key);
      r := Ok(if value.Some? then value.value else Empty);
    }

    method Write(key: Key, value: Value) returns (r: Result<()>)
      modifies state
      ensures r == Ok(()) && View() == Put(old(View()), key, value).sight
      ensures state.backend == old(state.backend)[key := Entry(value, None)]
    {
      state.UnsafeInsertGenesisValue(key, value);
      r := Ok(());
    }
  }

  /** Either runtime: the calls are written once for both. */
  datatype Runtime = Concurrent(concurrent: ConcurrentRuntime) | Sequential(sequential: SequentialRuntime) {
    ghost function Frame(): set<object> {
      match this
      case Concurrent(rt) => {rt, rt.state}
      case Sequential(rt) => {rt.state}
    }

    function View(): Sight
      reads Frame()
    {
      match this
      case Concurrent(rt) => rt.View()
      case Sequential(rt) => rt.View()
    }

    method Read(key: Key) returns (r: Result<Value>)
      modifies Frame()
      ensures match Reach(old(View()), key)
              case Reached(v, u) => r == Ok(v) && View() == u
              case Taken(owner) => r == Err(owner) && View() == old(View())
    {
      match this {
        case Concurrent(rt) => r := rt.Read(key);
        case Sequential(rt) => r := rt.Read(key);
      }
    }

    method Write(key: Key, value: Value) returns (r: Result<()>)
      modifies Frame()
      ensures match Put(old(View()), key, value)
              case Reached(_, u) => r == Ok(()) && View() == u
              case Taken(owner) => r == Err(owner) && View() == old(View())
    {
      match this {
        case Concurrent(rt) => r := rt.Write(key, value);
        case Sequential(rt) => r := rt.Write(key, value);
      }
    }
  }

  // ---------------------------------------------------------------------------
  // A whole call.

  datatype CallResult = Fine | Logic(why: string) | Clash(owner: ThreadId, corrupt: bool) | Aborted

  datatype Performed = Performed(result: CallResult, sight: Sight)

  /** `or_forward`, `or_orphan` and `expect`. */
  function Onto(t: OnTaint, owner: ThreadId): CallResult {
    match t
    case Forward => Clash(owner, false)
    case Orphan => Clash(owner, true)
    case Expect => Aborted
  }

  /** The call on a runtime, access by access. */
  function Perform(n: nat, p: Prog, u: Sight): Performed
    decreases n
  {
    match p
    case Done => Performed(Fine, u)
    case LogicError(why) => Performed(Logic(why), u)
    case Panic(_) => Performed(Aborted, u)
    case Read(k, t, next) =>
      if n == 0 then Performed(Aborted, u)
      else (match Reach(u, k)
            case Reached(v, u1) => Perform(n - 1, next(v), u1)
            case Taken(owner) => Performed(Onto(t, owner), u))
    case Write(k, v, t, rest) =>
      if n == 0 then Performed(Aborted, u)
      else (match Put(u, k, v)
            case Reached(_, u1) => Perform(n - 1, rest, u1)
            case Taken(owner) => Performed(Onto(t, owner), u))
  }
}
