// The shared state: each entry carries a value and, once some thread has touched
// it, the id of that thread. `read` and `write` look at the entry under a read lock,
// drop it when the entry has no owner, and look again under a write lock.
module TaintState {
  import opened Storage

  datatype Entry = Entry(data: Value, taint: Option<ThreadId>)

  type StateMap = map<Key, Entry>

  /** The values of a state, taints forgotten. */
  function Data(s: StateMap): (d: Store)
    ensures forall k :: Get(d, k) == if k in s then s[k].data else Empty
  {
    map k | k in s :: s[k].data
  }

  function Owner(s: StateMap, k: Key): Option<ThreadId> {
    if k in s then s[k].taint else None
  }

  /** The keys thread `id` owns. */
  function Own(s: StateMap, id: ThreadId): set<Key> {
    set k | k in s && s[k].taint == Some(id)
  }

  // ---------------------------------------------------------------------------
  // The atomic accesses: own it, claim it, or learn the owner.

  datatype Access = Granted(value: Value, state: StateMap) | Denied(owner: ThreadId) | Broken

  function Claim(s: StateMap, k: Key, id: ThreadId): Access {
    match Owner(s, k)
    case Some(owner) => if owner == id then Granted(s[k].data, s) else Denied(owner)
    case None => Granted(Get(Data(s), k), s[k := Entry(Get(Data(s), k), Some(id))])
  }

  function ClaimWrite(s: StateMap, k: Key, v: Value, id: ThreadId): Access {
    match Owner(s, k)
    case Some(owner) => if owner == id then Granted(v, s[k := Entry(v, Some(id))]) else Denied(owner)
    case None => Granted(v, s[k := Entry(v, Some(id))])
  }

  /** The access is granted exactly to the owner, or to whoever comes first, who then owns the key; nothing else changes. */
  ghost predicate ClaimedBy(s: StateMap, k: Key, id: ThreadId, stored: Value, answer: Value, a: Access) {
    if Owner(s, k) == None || Owner(s, k) == Some(id) then
      && a.Granted? && a.value == answer && k in a.state && a.state[k] == Entry(stored, Some(id))
      && (forall x :: x != k ==> (x in a.state <==> x in s) && (x in s ==> a.state[x] == s[x]))
    else a.Denied? && Owner(s, k) == Some(a.owner)
  }

  lemma ClaimsExactly(s: StateMap, k: Key, v: Value, id: ThreadId)
    ensures ClaimedBy(s, k, id, Get(Data(s), k), Get(Data(s), k), Claim(s, k, id))
    ensures ClaimedBy(s, k, id, v, v, ClaimWrite(s, k, v, id))
  {
  }

  // ---------------------------------------------------------------------------
  // The accesses as the code makes them, in two looks.

  datatype Op = ReadOp | WriteOp(value: Value)

  function Atomic(s: StateMap, k: Key, op: Op, id: ThreadId): Access {
    match op
    case ReadOp => Claim(s, k, id)
    case WriteOp(v) => ClaimWrite(s, k, v, id)
  }

  /** What the look under the read lock leaves to be done. */
  datatype Look = Answered(access: Access) | Untainted | Absent

  function FirstLook(s: StateMap, k: Key, op: Op, id: ThreadId): Look {
    if k !in s then Absent
    else match s[k].taint
      case None => Untainted
      case Some(owner) =>
        if owner != id then Answered(Denied(owner))
        else match op
          case ReadOp => Answered(Granted(s[k].data, s))
          case WriteOp(v) => Answered(Granted(v, s[k := s[k].(data := v)]))
  }

  /** The look under the write lock, after the read lock has been dropped. `Broken` is a panic. */
  function SecondLook(s: StateMap, k: Key, op: Op, id: ThreadId, seen: Look): Access
    requires !seen.Answered?
  {
    if seen.Untainted? then
      if k !in s then Broken
      else match s[k].taint
        case Some(owner) => if owner == id then Broken else Denied(owner)
        case None => match op
          case ReadOp => Granted(s[k].data, s[k := s[k].(taint := Some(id))])
          case WriteOp(v) => Granted(v, s[k := Entry(v, Some(id))])
    else
      if k in s then match s[k].taint
        case None => Broken
        case Some(owner) => if owner == id then Broken else Denied(owner)
      else match op
        case ReadOp => Granted(Empty, s[k := Entry(Empty, Some(id))])
        case WriteOp(v) => Granted(v, s[k := Entry(v, Some(id))])
  }

  // ---------------------------------------------------------------------------
  // Any number of threads using the state at once.

  /** A thread between two looks, or between two accesses. */
  datatype Thread = Outside | Between(key: Key, op: Op, seen: Look)

  /** One access that has come to its end. */
  datatype Completed = Completed(thread: ThreadId, key: Key, op: Op, access: Access)

  datatype Users = Users(state: StateMap, threads: seq<Thread>, finished: seq<Completed>)

  /** What the scheduler picks next: a first look, a second look, or an owner storing a committed value. */
  datatype Turn =
    | Begin(thread: ThreadId, key: Key, op: Op)
    | Resume(thread: ThreadId)
    | Store(thread: ThreadId, key: Key, value: Value)

  function StateAfter(s: StateMap, a: Access): StateMap {
    if a.Granted? then a.state else s
  }

  /** One turn. A turn that cannot be taken leaves everything as it is. */
  function Take(u: Users, t: Turn): Users {
    if t.thread >= |u.threads| then u
    else match t
      case Begin(i, k, op) =>
        if !u.threads[i].Outside? then u
        else
          var seen := FirstLook(u.state, k, op, i);
          if seen.Answered? then
            u.(state := StateAfter(u.state, seen.access),
               finished := u.finished + [Completed(i, k, op, seen.access)])
          else u.(threads := u.threads[i := Between(k, op, seen)])
      case Resume(i) =>
        if u.threads[i].Outside? || u.threads[i].seen.Answered? then u
        else
          var Between(k, op, seen) := u.threads[i];
          var a := SecondLook(u.state, k, op, i, seen);
          u.(state := StateAfter(u.state, a), threads := u.threads[i := Outside],
             finished := u.finished + [Completed(i, k, op, a)])
      case Store(i, k, v) =>
        if Owner(u.state, k) != Some(i) || !u.threads[i].Outside? then u
        else u.(state := u.state[k := Entry(v, Some(i))])
  }

  function TakeAll(u: Users, turns: seq<Turn>): Users {
    if turns == [] then u else Take(TakeAll(u, turns[..|turns| - 1]), turns[|turns| - 1])
  }

  /** What a thread that dropped its read lock may still rely on. */
  ghost predicate StillTrue(s: StateMap, i: ThreadId, t: Thread) {
    match t
    case Outside => true
    case Between(k, _, Untainted) => k in s && s[k].taint != Some(i)
    case Between(k, _, Absent) => k in s ==> s[k].taint != None && s[k].taint != Some(i)
    case Between(_, _, Answered(_)) => false
  }

  ghost predicate UsersValid(u: Users) {
    forall i :: 0 <= i < |u.threads| ==> StillTrue(u.state, i, u.threads[i])
  }

  /** Once set, an owner never changes, and entries never disappear. */
  ghost predicate OwnersKept(s: StateMap, s': StateMap) {
    forall k :: k in s ==> k in s' && (s[k].taint != None ==> s'[k].taint == s[k].taint)
  }

  /**
    One turn against the atomic state: it either changes nothing, completes nothing and leaves
    what is pending pending, or stores an owner's value, or completes one access exactly as the atomic access
    would at that instant.
   */
  ghost predicate Linearizes(u: Users, t: Turn, v: Users) {
    || (v.state == u.state && v.finished == u.finished && StillPending(u, v))
    || (t.Store? && Owner(u.state, t.key) == Some(t.thread) && v.finished == u.finished &&
        v.state == u.state[t.key := Entry(t.value, Some(t.thread))])
    || (exists k, op :: CompletesAs(u, v, t.thread, k, op))
  }

  /** Whoever was between two looks is so still. */
  ghost predicate StillPending(u: Users, v: Users) {
    |v.threads| == |u.threads| && forall i :: 0 <= i < |u.threads| && u.threads[i].Between? ==> v.threads[i] == u.threads[i]
  }

  ghost predicate CompletesAs(u: Users, v: Users, i: ThreadId, k: Key, op: Op) {
    var a := Atomic(u.state, k, op, i);
    && !a.Broken?
    && v.state == StateAfter(u.state, a)
    && v.finished == u.finished + [Completed(i, k, op, a)]
    && i < |v.threads| && v.threads[i].Outside?
  }

  /** What one turn of thread `t.thread` must do. */
  ghost predicate GoodTurn(u: Users, t: Turn, v: Users) {
    UsersValid(v) && |v.threads| == |u.threads| && OwnersKept(u.state, v.state) && Linearizes(u, t, v)
  }

  lemma BeginStep(u: Users, i: ThreadId, k: Key, op: Op)
    requires UsersValid(u) && i < |u.threads| && u.threads[i].Outside?
    ensures GoodTurn(u, Begin(i, k, op), Take(u, Begin(i, k, op)))
  {
    if FirstLook(u.state, k, op, i).Answered? {
      assert CompletesAs(u, Take(u, Begin(i, k, op)), i, k, op);
    }
  }

  lemma ResumeStep(u: Users, i: ThreadId)
    requires UsersValid(u) && i < |u.threads| && u.threads[i].Between?
    ensures GoodTurn(u, Resume(i), Take(u, Resume(i)))
  {
    var Between(k, op, seen) := u.threads[i];
    assert StillTrue(u.state, i, u.threads[i]);
    assert CompletesAs(u, Take(u, Resume(i)), i, k, op);
  }

  lemma StoreStep(u: Users, i: ThreadId, k: Key, v: Value)
    requires UsersValid(u) && i < |u.threads|
    ensures GoodTurn(u, Turn.Store(i, k, v), Take(u, Turn.Store(i, k, v)))
  {
  }

  lemma TakeStep(u: Users, t: Turn)
    requires UsersValid(u)
    ensures var v := Take(u, t);
            UsersValid(v) && |v.threads| == |u.threads| && OwnersKept(u.state, v.state) && Linearizes(u, t, v)
  {
    hide UsersValid, FirstLook, SecondLook, StillTrue, CompletesAs;
    if t.thread < |u.threads| {
      match t
      case Begin(i, k, op) => if u.threads[i].Outside? { BeginStep(u, i, k, op); }
      case Resume(i) => if u.threads[i].Between? { ResumeStep(u, i); }
      case Store(i, k, v) => StoreStep(u, i, k, v);
    }
  }

  /** Every thread may begin, go on or store whatever the others are in the middle of. */
  lemma TurnsAreFree(u: Users, i: ThreadId, k: Key, op: Op, v: Value)
    requires i < |u.threads|
    ensures u.threads[i].Outside? ==>
              var u1 := Take(u, Begin(i, k, op));
              |u1.finished| == |u.finished| + 1 || u1.threads[i] == Between(k, op, FirstLook(u.state, k, op, i))
    ensures u.threads[i].Between? && !u.threads[i].seen.Answered? ==> |Take(u, Resume(i)).finished| == |u.finished| + 1
    ensures u.threads[i].Outside? && Owner(u.state, k) == Some(i) ==>
              Take(u, Turn.Store(i, k, v)).state == u.state[k := Entry(v, Some(i))]
  {
  }

  /**
    Whatever the turns, the two-look accesses behave as atomic ones: every prefix of the
    schedule linearizes, no access panics, and no key ever changes hands.
   */
  lemma {:induction false} TwoLooksLinearizable(u: Users, turns: seq<Turn>)
    requires forall i :: 0 <= i < |u.threads| ==> u.threads[i].Outside?
    requires forall c :: c in u.finished ==> !c.access.Broken?
    ensures UsersValid(TakeAll(u, turns)) && OwnersKept(u.state, TakeAll(u, turns).state)
    ensures forall c :: c in TakeAll(u, turns).finished ==> !c.access.Broken?
    ensures forall n {:trigger turns[..n]} :: 0 <= n < |turns| ==>
      Linearizes(TakeAll(u, turns[..n]), turns[n], TakeAll(u, turns[..n + 1]))
  {
    if turns != [] {
      var m := |turns| - 1;
      TwoLooksLinearizable(u, turns[..m]);
      TakeStep(TakeAll(u, turns[..m]), turns[m]);
      forall n {:trigger turns[..n]} | 0 <= n < |turns|
        ensures Linearizes(TakeAll(u, turns[..n]), turns[n], TakeAll(u, turns[..n + 1]))
      {
        if n < m {
          assert turns[..m][..n] == turns[..n] && turns[..m][..n + 1] == turns[..n + 1];
        } else {
          assert turns[..n + 1] == turns;
        }
      }
    }
  }
}
