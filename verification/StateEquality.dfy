// How the two final states are compared, and when the comparison succeeds.
module StateEquality {
  import opened Storage
  import opened TaintState
  import opened Program
  import opened Dispatch
  import opened Transactions
  import opened Protocol
  import opened Sequences
  import opened Bookkeeping
  import opened Undisturbed
  import opened Serializability
  import opened Authoring
  import opened AuthoringTheorems
  import opened Validation
  import opened Determinism
  import opened BooksSettle
  import opened Attempts

  /** `state_eq`: every entry of one is in the other with equal data, and both have as many entries. */
  predicate StateEq(s: StateMap, t: StateMap) {
    (forall k :: k in s ==> k in t && s[k].data == t[k].data) && |s| == |t|
  }

  /** The one-sided comparison is exactly equality of the two maps, taints aside. */
  lemma StateEqExact(s: StateMap, t: StateMap)
    ensures StateEq(s, t) <==> Data(s) == Data(t)
  {
    StateEntries(s);
    StateEntries(t);
    assert |s| == |s.Keys| && |t| == |t.Keys|;
    if StateEq(s, t) {
      assert s.Keys <= t.Keys;
      SameSize(s.Keys, t.Keys);
      assert Data(s) == Data(t);
    } else if Data(s) == Data(t) {
      forall k | k in s ensures k in t && s[k].data == t[k].data {
        assert k in Data(s) && Data(s)[k] == s[k].data && Data(t)[k] == t[k].data;
      }
      assert false;
    }
  }

  lemma {:induction false} SameSize(xs: set<Key>, ys: set<Key>)
    requires xs <= ys && |xs| == |ys|
    ensures xs == ys
  {
    if xs != {} {
      var k :| k in xs;
      SameSize(xs - {k}, ys - {k});
    } else {
      assert ys == {};
    }
  }

  lemma StateEqEquivalence(s: StateMap, t: StateMap, u: StateMap)
    ensures StateEq(s, s)
    ensures StateEq(s, t) ==> StateEq(t, s)
    ensures StateEq(s, t) && StateEq(t, u) ==> StateEq(s, u)
  {
    StateEqExact(s, s);
    StateEqExact(s, t);
    StateEqExact(t, s);
    StateEqExact(t, u);
    StateEqExact(s, u);
  }

  lemma SameEqual(d: Store, e: Store)
    requires Same(d, e) && d.Keys == e.Keys
    ensures d == e
  {
    forall k | k in d ensures d[k] == e[k] {
      assert Get(d, k) == Get(e, k);
    }
  }

  /** A run and the validation of its block compare equal exactly when authoring left an entry for no other key than the block does. */
  lemma ComparesEqual(task: Task, schedule: seq<Label>, initial: StateMap, events: seq<Event>, inv: Store -> bool)
    requires TaskValid(task) && TaskSafe(task, inv) && Finished(ApplyAll(Init(task), schedule))
    requires Data(initial) == Data(task.initial)
    requires Validated(HappenAll(BeginCheck(task.workers, BlockOf(ApplyAll(Init(task), schedule)), initial), events))
    ensures var s := ApplyAll(Init(task), schedule);
            var c := HappenAll(BeginCheck(task.workers, BlockOf(s), initial), events);
            StateEq(c.state, s.state) <==> s.state.Keys == Run(Data(initial), Bodies(BlockOf(s))).Keys
  {
    hide TaskValid, TaskSafe, Finished, Validated, ApplyAll, HappenAll, BeginCheck, Run, BlockOf, Bodies, StateEq, Data;
    Deterministic(task, schedule, initial, events, inv);
    var s := ApplyAll(Init(task), schedule);
    var c := HappenAll(BeginCheck(task.workers, BlockOf(s), initial), events);
    StateEqExact(c.state, s.state);
    StateEntries(s.state);
    StateEntries(c.state);
    if s.state.Keys == Run(Data(initial), Bodies(BlockOf(s))).Keys {
      SameEqual(Data(s.state), Data(c.state));
    }
  }

  // ---------------------------------------------------------------------------
  // The keys a run accesses, and the entries it leaves.

  /** The key the next access of a dispatch is to. */
  function NextKey(st: Stage): set<Key> {
    if st.Running? && st.fuel > 0 then
      match st.prog
      case Read(k, _, _) => {k}
      case Write(k, _, _, _) => {k}
      case _ => {}
    else {}
  }

  function AccessedNow(s: Sys, l: Label): set<Key> {
    if l.Access? && Ready(s, l) then NextKey(s.workers[l.worker].job.stage) else {}
  }

  /** The keys the workers access along the schedule, in attempts that succeed and in those that meet a taint. */
  function Accessed(s: Sys, schedule: seq<Label>): set<Key> {
    if schedule == [] then {}
    else
      var before := schedule[..|schedule| - 1];
      Accessed(s, before) + AccessedNow(ApplyAll(s, before), schedule[|schedule| - 1])
  }

  /** What the pool gives, and then the orphans executed so far. */
  function SoFar(task: Task, m: Master): Store
    requires m.played <= |m.orphans|
  {
    Run(Run(Data(task.initial), Bodies(m.pool)), Bodies(m.orphans[..m.played]))
  }

  /** Every accessed key has an entry, denied accesses included; the orphans add those they write. */
  ghost predicate EntriesAre(task: Task, s: Sys, accessed: set<Key>) {
    if s.master.closing then
      s.master.played <= |s.master.orphans| &&
      s.state.Keys == task.initial.Keys + accessed + SoFar(task, s.master).Keys
    else s.state.Keys == task.initial.Keys + accessed
  }

  lemma AdvanceEntries(c: Call, view: Store, st: Stage, s: StateMap, id: ThreadId)
    requires st.Running? && Coherent(c, view, st, s, id)
    ensures Advance(st, s, id).Move? ==> Advance(st, s, id).state.Keys == s.Keys + NextKey(st)
  {
    hide Views, Own, Keys, Exec, Disciplined, CachedRead;
    if st.fuel > 0 && (st.prog.Read? || st.prog.Write?) {
      ReadEntries(s, st.cache, st.prog.key, id);
    }
  }

  /** Granted or denied, a key that has been read has an entry. */
  lemma ReadEntries(s: StateMap, cache: Store, k: Key, id: ThreadId)
    requires cache.Keys <= Own(s, id)
    ensures match CachedRead(s, cache, k, id)
            case Granted(_, s') => s'.Keys == s.Keys + {k}
            case Denied(_) => k in s
            case Broken => true
  {
  }

  lemma AccessEntry(task: Task, s: Sys, w: ThreadId, inv: Store -> bool)
    requires TaskValid(task) && TaskSafe(task, inv) && Inv(task, s) && Ready(s, Access(w))
    ensures !s.master.closing && DoAccess(s, w).master == s.master
    ensures DoAccess(s, w).state.Keys == s.state.Keys + AccessedNow(s, Access(w))
  {
    hide TaskValid, TaskSafe, Books, Advance, Coherent;
    var Busy(tx, stage) := s.workers[w].job;
    var view := Run(Data(task.initial), s.workers[w].port.log);
    BusyNotClosing(task, s, w);
    WorkerOf(task, s, w);
    assert WorkerData(Data(task.initial), s.state, w, s.workers[w].port.log, s.workers[w].job);
    InHand(task, s, w, inv);
    AdvanceCoherent(tx.body.call, view, stage, s.state, w);
    AdvanceEntries(tx.body.call, view, stage, s.state, w);
  }

  lemma OrphanEntry(task: Task, s: Sys, inv: Store -> bool, accessed: set<Key>)
    requires TaskSafe(task, inv) && Inv(task, s) && Ready(s, MasterOrphan) && EntriesAre(task, s, accessed)
    ensures EntriesAre(task, DoOrphan(s), accessed)
  {
    hide TaskSafe, Books, SoFar, OrphanData;
    var s' := DoOrphan(s);
    if !s'.panicked {
      var c := s.master.orphans[s.master.played].body.call;
      OrphanNext(task, s);
      SoFarSame(task, s);
      WrittenSame(c.steps, c.body, Data(s.state), SoFar(task, s.master));
      ExecWritten(c.steps, c.body, Data(s.state));
      ExecWritten(c.steps, c.body, SoFar(task, s.master));
      StateEntries(s.state);
      StateEntries(s'.state);
    }
  }

  lemma SoFarSame(task: Task, s: Sys)
    requires s.master.played <= |s.master.orphans| && OrphanData(task, s)
    ensures Same(Data(s.state), SoFar(task, s.master))
  {
  }

  lemma SoFarSent(task: Task, s: Sys)
    requires Ready(s, MasterSend) && (s.master.closing ==> s.master.played <= |s.master.orphans|)
    ensures var s' := DoSend(s);
            && s'.state == s.state && s'.master.closing == s.master.closing
            && (s.master.closing ==> s'.master.played <= |s'.master.orphans| && SoFar(task, s'.master) == SoFar(task, s.master))
  {
  }

  lemma OrphanNext(task: Task, s: Sys)
    requires Ready(s, MasterOrphan) && !DoOrphan(s).panicked
    ensures var s', c := DoOrphan(s), s.master.orphans[s.master.played].body.call;
            && s'.master == s.master.(played := s.master.played + 1)
            && Data(s'.state) == ExecCall(c, Data(s.state)).store
            && SoFar(task, s'.master) == ExecCall(c, SoFar(task, s.master)).store
  {
    hide Exec;
    var m := s.master;
    var done := m.orphans[..m.played];
    assert m.orphans[..m.played + 1] == done + [m.orphans[m.played]];
    BodiesSnoc(done, m.orphans[m.played]);
    RunSnoc(Run(Data(task.initial), Bodies(m.pool)), Bodies(done), m.orphans[m.played].body);
  }

  /** The pool's transactions write only where their workers have claimed. */
  lemma BreakEntries(task: Task, s: Sys, accessed: set<Key>)
    requires TaskValid(task) && Inv(task, s) && Ready(s, MasterBreak) && EntriesAre(task, s, accessed)
    ensures EntriesAre(task, Apply(s, MasterBreak), accessed)
  {
    hide TaskValid, Inv, EachConfined;
    BreakConfined(task, s);
    NothingPlayed(task, s);
    PoolEntries(s.master.pool, Data(task.initial), s.state);
    StateEntries(task.initial);
    assert s.state.Keys + SoFar(task, Apply(s, MasterBreak).master).Keys == s.state.Keys;
  }

  lemma NothingPlayed(task: Task, s: Sys)
    requires Inv(task, s) && Ready(s, MasterBreak)
    ensures Apply(s, MasterBreak).master.played == 0
    ensures SoFar(task, Apply(s, MasterBreak).master) == Run(Data(task.initial), Bodies(s.master.pool))
  {
    hide WorkerOk, PoolOk, CountersOk, ConcurrentData;
    assert s.master.played == 0;
  }

  lemma PoolEntries(txs: seq<Transaction>, d: Store, s: StateMap)
    requires EachConfined(txs, d, s)
    ensures Run(d, Bodies(txs)).Keys <= d.Keys + s.Keys
  {
    hide EachConfined, Run, Bodies;
    RunByWorker(txs, d, s);
    forall k | k in Run(d, Bodies(txs)) ensures k in d || k in s {
      assert Owner(s, k) == None ==> k in d;
    }
  }

  lemma StepEntries(task: Task, s: Sys, l: Label, inv: Store -> bool, accessed: set<Key>)
    requires TaskValid(task) && TaskSafe(task, inv) && Inv(task, s) && EntriesAre(task, s, accessed)
    ensures EntriesAre(task, Apply(s, l), accessed + AccessedNow(s, l))
  {
    hide TaskValid, TaskSafe, Inv, DoAccess, DoOrphan, DoSettle, DoReceive, DoMasterReceive, SoFar;
    assert l.Access? || accessed + AccessedNow(s, l) == accessed;
    if Ready(s, l) {
      match l
      case Access(w) => AccessEntry(task, s, w, inv);
      case CommitKey(w, k) =>
        CommitOwnKey(task, s, w, k);
        StillCollecting(task, s, w);
      case MasterOrphan =>
        ClosingFirst(s);
        OrphanEntry(task, s, inv, accessed);
      case MasterBreak => BreakEntries(task, s, accessed);
      case MasterReceive(w) => MasterReceiveShape(s, w);
      case Receive(w) => ReceiveEffect(s, w);
      case Settle(w) =>
        SettleState(s, w);
        StillCollecting(task, s, w);
      case MasterSend => SoFarSent(task, s);
      case ReceiveOther(w, i) =>
    }
  }

  lemma ClosingFirst(s: Sys)
    requires Ready(s, MasterOrphan)
    ensures s.master.closing
  {
  }

  lemma CommitOwnKey(task: Task, s: Sys, w: ThreadId, k: Key)
    requires Inv(task, s) && Ready(s, CommitKey(w, k))
    ensures k in s.state
  {
    hide Books;
    CommitOwned(task, s, w, k);
  }

  lemma StillCollecting(task: Task, s: Sys, w: ThreadId)
    requires Inv(task, s) && w < |s.workers| && s.workers[w].job.Busy?
    ensures !s.master.closing
  {
    hide Books;
    BusyNotClosing(task, s, w);
  }

  /** At every point of every run. */
  lemma {:induction false} ReachableEntries(task: Task, schedule: seq<Label>, inv: Store -> bool)
    requires TaskValid(task) && TaskSafe(task, inv)
    ensures EntriesAre(task, ApplyAll(Init(task), schedule), Accessed(Init(task), schedule))
  {
    hide TaskValid, TaskSafe, Inv, Apply, AccessedNow, SoFar;
    if schedule != [] {
      var before := schedule[..|schedule| - 1];
      ReachableEntries(task, before, inv);
      ReachableInv(task, before, inv);
      StepEntries(task, ApplyAll(Init(task), before), schedule[|schedule| - 1], inv, Accessed(Init(task), before));
    }
  }

  /**
    A run and any validation of its block compare equal if and only if the block leaves an
    entry for every key that a worker accessed on the way, in whichever attempt. What the master
    only reads when it executes an orphan leaves an entry on neither side.
   */
  lemma ComparesExactly(task: Task, schedule: seq<Label>, initial: StateMap, events: seq<Event>, inv: Store -> bool)
    requires TaskValid(task) && TaskSafe(task, inv) && Finished(ApplyAll(Init(task), schedule))
    requires Data(initial) == Data(task.initial)
    requires Validated(HappenAll(BeginCheck(task.workers, BlockOf(ApplyAll(Init(task), schedule)), initial), events))
    ensures var s := ApplyAll(Init(task), schedule);
            var c := HappenAll(BeginCheck(task.workers, BlockOf(s), initial), events);
            && (StateEq(c.state, s.state) <==>
                Accessed(Init(task), schedule) <= Run(Data(initial), Bodies(BlockOf(s))).Keys)
            && initial.Keys <= Run(Data(initial), Bodies(BlockOf(s))).Keys
  {
    hide TaskValid, TaskSafe, Validated, ApplyAll, HappenAll, BeginCheck, Run, BlockOf, Bodies, StateEq, Data, Accessed, SoFar;
    ComparesEqual(task, schedule, initial, events, inv);
    ReachableEntries(task, schedule, inv);
    var s := ApplyAll(Init(task), schedule);
    AllPlayed(task, s);
    RunGrows(Data(initial), Bodies(BlockOf(s)));
    StateEntries(initial);
    StateEntries(task.initial);
  }

  lemma AllPlayed(task: Task, s: Sys)
    requires Finished(s)
    ensures SoFar(task, s.master) == Run(Data(task.initial), Bodies(BlockOf(s)))
  {
    hide Run, Bodies;
    assert s.master.orphans[..s.master.played] == s.master.orphans;
    BodiesConcat(s.master.pool, s.master.orphans);
    RunConcat(Data(task.initial), Bodies(s.master.pool), Bodies(s.master.orphans));
  }

  /** They do on every run in which each key a worker accessed was there from the start. */
  lemma PresentComparesEqual(task: Task, schedule: seq<Label>, initial: StateMap, events: seq<Event>, inv: Store -> bool)
    requires TaskValid(task) && TaskSafe(task, inv) && Finished(ApplyAll(Init(task), schedule))
    requires Data(initial) == Data(task.initial)
    requires Validated(HappenAll(BeginCheck(task.workers, BlockOf(ApplyAll(Init(task), schedule)), initial), events))
    requires Accessed(Init(task), schedule) <= initial.Keys
    ensures var s := ApplyAll(Init(task), schedule);
            StateEq(HappenAll(BeginCheck(task.workers, BlockOf(s), initial), events).state, s.state)
  {
    hide TaskValid, TaskSafe, Finished, Validated, ApplyAll, HappenAll, BeginCheck, Run, BlockOf, Bodies, StateEq, Data, Accessed;
    ComparesExactly(task, schedule, initial, events, inv);
  }

  // ---------------------------------------------------------------------------
  // When the task alone says that every key is there.

  /** From a store satisfying `inv`, the call accesses only keys of `keys`. */
  ghost predicate Stays(inv: Store -> bool, c: Call, keys: set<Key>) {
    forall d {:trigger CallKeys(c, d)} :: inv(d) ==> CallKeys(c, d) <= keys
  }

  /** Every key any attempt at any transaction can touch has an entry in the initial state. */
  ghost predicate Prepared(task: Task, inv: Store -> bool) {
    forall t :: t in task.pool ==> Stays(inv, t.body.call, task.initial.Keys)
  }

  lemma PreparedBody(task: Task, inv: Store -> bool, b: Body)
    requires Prepared(task, inv) && b in Bodies(task.pool)
    ensures Stays(inv, b.call, task.initial.Keys)
  {
    var i :| 0 <= i < |task.pool| && Bodies(task.pool)[i] == b;
    assert task.pool[i] in task.pool;
  }

  lemma HandBody(task: Task, s: Sys, w: ThreadId)
    requires TaskValid(task) && Books(task, s) && w < |s.workers| && s.workers[w].job.Busy?
    ensures s.workers[w].job.tx.body in Bodies(task.pool)
  {
    hide TaskValid, Books;
    if BusyFirst(s.workers[w].job) {
      FirstFacts(task, s, w);
    } else {
      AgainFacts(task, s, w);
    }
  }

  /** What a worker accesses next is among what its call accesses on the worker's view. */
  lemma NextWithin(c: Call, view: Store, st: Stage, s: StateMap, id: ThreadId)
    requires st.Running? && Coherent(c, view, st, s, id)
    ensures NextKey(st) <= CallKeys(c, view)
  {
  }

  lemma PreparedAccess(task: Task, s: Sys, w: ThreadId, inv: Store -> bool)
    requires TaskValid(task) && TaskSafe(task, inv) && Prepared(task, inv) && Inv(task, s) && Ready(s, Access(w))
    ensures AccessedNow(s, Access(w)) <= task.initial.Keys
  {
    hide TaskValid, TaskSafe, Prepared, Books, Coherent;
    var Busy(tx, stage) := s.workers[w].job;
    var view := Run(Data(task.initial), s.workers[w].port.log);
    BusyNotClosing(task, s, w);
    assert WorkerData(Data(task.initial), s.state, w, s.workers[w].port.log, s.workers[w].job);
    HandBody(task, s, w);
    PreparedBody(task, inv, tx.body);
    WorkerOf(task, s, w);
    SafeView(task, s, w, inv);
    assert CallKeys(tx.body.call, view) <= task.initial.Keys;
    NextWithin(tx.body.call, view, stage, s.state, w);
  }

  /** Then on every run whatever the workers access is there from the start. */
  lemma {:induction false} PreparedRuns(task: Task, schedule: seq<Label>, inv: Store -> bool)
    requires TaskValid(task) && TaskSafe(task, inv) && Prepared(task, inv)
    ensures Accessed(Init(task), schedule) <= task.initial.Keys
  {
    hide TaskValid, TaskSafe, Prepared, Inv, Apply, NextKey;
    if schedule != [] {
      var before, l := schedule[..|schedule| - 1], schedule[|schedule| - 1];
      PreparedRuns(task, before, inv);
      ReachableInv(task, before, inv);
      if l.Access? && Ready(ApplyAll(Init(task), before), l) {
        PreparedAccess(task, ApplyAll(Init(task), before), l.worker, inv);
      }
    }
  }

  /** So every run and every validation of such a task compare equal. */
  lemma PreparedComparesEqual(task: Task, schedule: seq<Label>, initial: StateMap, events: seq<Event>, inv: Store -> bool)
    requires TaskValid(task) && TaskSafe(task, inv) && Prepared(task, inv) && Finished(ApplyAll(Init(task), schedule))
    requires Data(initial) == Data(task.initial)
    requires Validated(HappenAll(BeginCheck(task.workers, BlockOf(ApplyAll(Init(task), schedule)), initial), events))
    ensures var s := ApplyAll(Init(task), schedule);
            StateEq(HappenAll(BeginCheck(task.workers, BlockOf(s), initial), events).state, s.state)
  {
    hide TaskValid, TaskSafe, Prepared, Finished, Validated, ApplyAll, HappenAll, BeginCheck, Run, BlockOf, Bodies, StateEq, Data, Accessed;
    PreparedRuns(task, schedule, inv);
    StateEntries(initial);
    StateEntries(task.initial);
    PresentComparesEqual(task, schedule, initial, events, inv);
  }

  // ---------------------------------------------------------------------------
  // When it is not.

  /**
    The comparison fails on every run and every validation of it if a worker's transaction
    accesses a key for which the block leaves no entry: authoring claims the key, and the
    claim is an entry; validation reads it without leaving one.
   */
  lemma UnwrittenKeyFails(task: Task, schedule: seq<Label>, initial: StateMap, events: seq<Event>, n: nat, k: Key, inv: Store -> bool)
    requires TaskValid(task) && TaskSafe(task, inv) && Finished(ApplyAll(Init(task), schedule))
    requires Data(initial) == Data(task.initial)
    requires Validated(HappenAll(BeginCheck(task.workers, BlockOf(ApplyAll(Init(task), schedule)), initial), events))
    requires var s := ApplyAll(Init(task), schedule);
             && n < |s.master.pool|
             && k in CallKeys(s.master.pool[n].body.call, Run(Data(initial), Bodies(s.master.pool[..n])))
             && k !in Run(Data(initial), Bodies(BlockOf(s)))
    ensures var s := ApplyAll(Init(task), schedule);
            !StateEq(HappenAll(BeginCheck(task.workers, BlockOf(s), initial), events).state, s.state)
  {
    hide TaskValid, TaskSafe, Validated, ApplyAll, HappenAll, BeginCheck, Run, BlockOf, Bodies, StateEq, Data, CallKeys, EachConfined, Owner;
    ComparesEqual(task, schedule, initial, events, inv);
    var s := ApplyAll(Init(task), schedule);
    var owners := AuthoredConfined(task, schedule, inv);
    PoolKeysOwned(s.master.pool, Data(initial), owners, n);
  }

  /** What the pool's transactions access, executed in pool order, has an owner. */
  lemma PoolKeysOwned(txs: seq<Transaction>, d: Store, s: StateMap, n: nat)
    requires EachConfined(txs, d, s) && n < |txs|
    ensures CallKeys(txs[n].body.call, Run(d, Bodies(txs[..n]))) <= s.Keys
  {
    hide TaggedFor, Confined;
    var init, t := txs[..n], txs[n];
    assert t in txs;
    EachPrefix(txs, d, s, n + 1);
    assert txs[..n + 1] == init + [t];
    EachPrefix(txs, d, s, n);
    RunByWorker(init, d, s);
    var w := t.tag.worker;
    EarlierConfined(init, t, d, s, w);
    var alone := Run(d, Bodies(TaggedFor(init, w)));
    ExecCoincide(t.body.call.steps, t.body.call.body, alone, Run(d, Bodies(init)), Own(s, w));
  }

  lemma EachPrefix(txs: seq<Transaction>, d: Store, s: StateMap, n: nat)
    requires EachConfined(txs, d, s) && n <= |txs|
    ensures EachConfined(txs[..n], d, s)
    decreases |txs|
  {
    hide TaggedFor, Confined;
    if n < |txs| {
      var init, t := txs[..|txs| - 1], txs[|txs| - 1];
      assert txs == init + [t] && init[..n] == txs[..n];
      forall v: ThreadId ensures Confined(Bodies(TaggedFor(init, v)), d, Own(s, v)) {
        EarlierConfined(init, t, d, s, v);
      }
      EachPrefix(init, d, s, n);
    } else {
      assert txs[..n] == txs;
    }
  }
}
