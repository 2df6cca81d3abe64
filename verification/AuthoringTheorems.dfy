// What authoring promises, stated for every schedule.
module AuthoringTheorems {
  import opened Storage
  import opened TaintState
  import opened Program
  import opened Dispatch
  import opened Transactions
  import opened Protocol
  import opened Sequences
  import opened Bookkeeping
  import opened Undisturbed
  import opened BooksKept
  import opened Serializability
  import opened Authoring

  // ---------------------------------------------------------------------------
  // Counting.

  lemma {:induction false} KeepPartition(txs: seq<Transaction>, fates: map<nat, Fate>, p: Fate -> bool, q: Fate -> bool)
    requires Known(txs, fates) && forall f :: q(f) <==> !p(f)
    ensures |Keep(txs, fates, p)| + |Keep(txs, fates, q)| == |txs|
  {
    if txs != [] {
      KeepPartition(txs[..|txs| - 1], fates, p, q);
    }
  }

  lemma AllKnown(task: Task, s: Sys)
    requires PoolOk(task, s)
    ensures Known(task.pool, s.history.fates)
  {
    forall t | t in task.pool ensures t.body.id in s.history.fates {
      var i :| 0 <= i < |task.pool| && task.pool[i] == t;
      assert Contains(task.pool, t.body.id);
    }
  }

  lemma BlockLength(task: Task, s: Sys)
    requires PoolOk(task, s) && CountersOk(task, s)
    ensures |BlockOf(s)| == |task.pool|
  {
    AllKnown(task, s);
    KeepPartition(task.pool, s.history.fates, Resolved, Unresolved);
  }

  lemma BlockUnique(task: Task, s: Sys)
    requires TaskValid(task) && PoolOk(task, s)
    ensures Unique(BlockOf(s))
  {
    var fates := s.history.fates;
    var kept, moved, orphans := Keep(task.pool, fates, Unresolved), s.history.moved, s.master.orphans;
    KeepUnique(task.pool, fates, Unresolved);
    forall i | 0 <= i < |kept| ensures kept[i].body.id in fates && Unresolved(fates[kept[i].body.id]) {
      InKeep(task.pool, fates, Unresolved, kept[i]);
    }
    forall i | 0 <= i < |moved| ensures moved[i].body.id in fates && fates[moved[i].body.id].Moved? {
      assert moved[i] in moved;
    }
    forall i | 0 <= i < |orphans| ensures orphans[i].body.id in fates && fates[orphans[i].body.id].Orphaned? {
      assert orphans[i] in orphans;
    }
    UniqueConcat(kept, moved);
    UniqueConcat(kept + moved, orphans);
  }

  lemma UniqueConcat(xs: seq<Transaction>, ys: seq<Transaction>)
    requires Unique(xs) && Unique(ys)
    requires forall i, j :: 0 <= i < |xs| && 0 <= j < |ys| ==> xs[i].body.id != ys[j].body.id
    ensures Unique(xs + ys)
  {
  }

  lemma {:induction false} DistinctSameLength<T>(xs: seq<T>, ys: seq<T>)
    requires |xs| == |ys| && forall x :: x in xs ==> x in ys
    requires forall i, j :: 0 <= i < j < |xs| ==> xs[i] != xs[j]
    ensures multiset(xs) == multiset(ys)
  {
    if xs != [] {
      var x := xs[|xs| - 1];
      assert x in ys;
      var k :| 0 <= k < |ys| && ys[k] == x;
      var init, rest := xs[..|xs| - 1], ys[..k] + ys[k + 1..];
      forall y | y in init ensures y in rest {
        var i :| 0 <= i < |init| && init[i] == y;
        assert xs[i] in xs;
        var j :| 0 <= j < |ys| && ys[j] == y;
        assert y == rest[if j < k then j else j - 1];
      }
      DistinctSameLength(init, rest);
      assert xs == init + [x];
      assert ys == ys[..k] + [x] + ys[k + 1..];
    }
  }

  /**
    In every state of every run the pool together with the orphans is a permutation of what
    was submitted, with unique ids; no panic site has been reached.
   */
  lemma NothingLost(task: Task, schedule: seq<Label>, inv: Store -> bool)
    requires TaskValid(task) && TaskSafe(task, inv)
    ensures var s := ApplyAll(Init(task), schedule);
            && !s.panicked
            && multiset(Bodies(BlockOf(s))) == multiset(Bodies(task.pool))
            && multiset(Ids(BlockOf(s))) == multiset(Ids(task.pool)) && Unique(BlockOf(s))
  {
    hide ApplyAll;
    var s := ApplyAll(Init(task), schedule);
    ReachableInv(task, schedule, inv);
    assert PoolOk(task, s) && CountersOk(task, s) && !s.panicked;
    SubmittedBlock(task, s);
  }

  lemma SubmittedBlock(task: Task, s: Sys)
    requires TaskValid(task) && PoolOk(task, s) && CountersOk(task, s)
    ensures multiset(Bodies(BlockOf(s))) == multiset(Bodies(task.pool))
    ensures multiset(Ids(BlockOf(s))) == multiset(Ids(task.pool)) && Unique(BlockOf(s))
  {
    hide PoolOk, CountersOk, TaskValid;
    BlockLength(task, s);
    BlockUnique(task, s);
    BlockBodies(task, s);
    var block := BlockOf(s);
    BodiesConcat(s.master.pool, s.master.orphans);
    forall x | x in Ids(block) ensures x in Ids(task.pool) {
      var i :| 0 <= i < |block| && Ids(block)[i] == x;
      assert Bodies(block)[i] in Bodies(task.pool);
      var j :| 0 <= j < |task.pool| && Bodies(task.pool)[j] == block[i].body;
      assert Ids(task.pool)[j] == x;
    }
    DistinctSameLength(Ids(block), Ids(task.pool));
    assert forall i, j :: 0 <= i < j < |block| ==> Bodies(block)[i].id != Bodies(block)[j].id;
    DistinctSameLength(Bodies(block), Bodies(task.pool));
  }

  // ---------------------------------------------------------------------------
  // The end of the collection phase.

  /**
    Termination detection by counting: whenever the master's break condition holds, no
    transaction is in a queue or in a worker's hands, and the three counters add up to
    the number of submitted transactions.
   */
  lemma Quiescence(task: Task, schedule: seq<Label>, inv: Store -> bool)
    requires TaskValid(task) && TaskSafe(task, inv) && Ready(ApplyAll(Init(task), schedule), MasterBreak)
    ensures var s := ApplyAll(Init(task), schedule);
            && Quiet(task, s)
            && (forall w :: 0 <= w < |s.workers| ==> s.workers[w].port.inbox == [])
            && |task.pool| == s.master.executedWorkers + s.master.executedLocal + |s.master.orphans|
            && OutsideLabelsDisabled(Apply(s, MasterBreak))
  {
    hide ApplyAll, Init, TaskValid, TaskSafe, Books, Quiet, PoolOk, CountersOk, OutsideLabelsDisabled;
    var s := ApplyAll(Init(task), schedule);
    ReachableInv(task, schedule, inv);
    BreakQuiet(task, s);
    NothingToReceive(task, s);
    Settled(task, s);
    Adds(task, s);
    AfterBreak(task, s, Apply(s, MasterBreak));
  }

  lemma Settled(task: Task, s: Sys)
    requires Books(task, s)
    ensures PoolOk(task, s) && CountersOk(task, s)
  {
    hide PoolOk, CountersOk, WorkerOk;
  }

  /** What the master had to send has been sent and received. */
  lemma NothingToReceive(task: Task, s: Sys)
    requires Books(task, s) && Quiet(task, s) && Ready(s, MasterBreak)
    ensures forall w :: 0 <= w < |s.workers| ==> s.workers[w].port.inbox == []
  {
    hide OthersOk, OutboxOk, LogOk, PoolOk, CountersOk;
    forall w | 0 <= w < |s.workers| ensures s.workers[w].port.inbox == [] {
      assert WorkerOk(task, s, w);
      assert s.workers[w].port.inbox + Waiting(s.master.plan, w) == [];
    }
  }

  lemma AfterBreak(task: Task, s: Sys, s': Sys)
    requires Quiet(task, s) && s'.master.closing && s'.workers == s.workers
    ensures OutsideLabelsDisabled(s')
  {
  }

  /** Nothing but the master's last messages, their receipt, and the orphans can happen. */
  ghost predicate OutsideLabelsDisabled(s: Sys) {
    forall l: Label :: Ready(s, l) ==> l.MasterSend? || l.MasterOrphan? || l.Receive?
  }

  lemma Adds(task: Task, s: Sys)
    requires PoolOk(task, s) && CountersOk(task, s) && Quiet(task, s)
    ensures |task.pool| == s.master.executedWorkers + s.master.executedLocal + |s.master.orphans|
  {
    AllKnown(task, s);
    KeepPartition(task.pool, s.history.fates, Resolved, Unresolved);
    KeepAlike(task.pool, s.history.fates, Unresolved, IsLocal);
  }

  /** After the break, the workers and the orphans never meet: the state only changes by the master's hand. */
  lemma OrphanPhaseAlone(task: Task, schedule: seq<Label>, l: Label, inv: Store -> bool)
    requires TaskValid(task) && TaskSafe(task, inv) && ApplyAll(Init(task), schedule).master.closing
    ensures var s := ApplyAll(Init(task), schedule);
            && Quiet(task, s)
            && (Apply(s, l).state != s.state ==> l.MasterOrphan?)
  {
    hide ApplyAll;
    var s := ApplyAll(Init(task), schedule);
    ReachableInv(task, schedule, inv);
    assert Quiet(task, s);
    ClosedState(task, s, l);
  }

  lemma ClosedState(task: Task, s: Sys, l: Label)
    requires Quiet(task, s) && s.master.closing
    ensures Apply(s, l).state != s.state ==> l.MasterOrphan?
  {
    if l.Receive? && Ready(s, l) {
      ReceiveEffect(s, l.worker);
    }
  }

  /**
    From the break on, the pool's transactions tagged with a worker are exactly those it
    executed, in the order it executed them.
   */
  lemma OrderIsPreserved(task: Task, schedule: seq<Label>, w: ThreadId, inv: Store -> bool)
    requires TaskValid(task) && TaskSafe(task, inv) && w < task.workers
    requires ApplyAll(Init(task), schedule).master.closing
    ensures var s := ApplyAll(Init(task), schedule);
            w < |s.workers| && Bodies(TaggedFor(s.master.pool, w)) == s.workers[w].port.log
  {
    hide ApplyAll;
    ReachableInv(task, schedule, inv);
    var s := ApplyAll(Init(task), schedule);
    OrderPreserved(task, s, w);
  }

  /**
    Serializability: however the run was interleaved, the state at its end is what executing
    the produced block, one transaction after the other, gives.
   */
  lemma Serializable(task: Task, schedule: seq<Label>, inv: Store -> bool)
    requires TaskValid(task) && TaskSafe(task, inv) && Finished(ApplyAll(Init(task), schedule))
    ensures var s := ApplyAll(Init(task), schedule);
            Same(Data(s.state), Run(Data(task.initial), Bodies(BlockOf(s))))
  {
    hide ApplyAll;
    ReachableInv(task, schedule, inv);
    var s := ApplyAll(Init(task), schedule);
    assert s.master.orphans[..s.master.played] == s.master.orphans;
    BodiesConcat(s.master.pool, s.master.orphans);
    RunConcat(Data(task.initial), Bodies(s.master.pool), Bodies(s.master.orphans));
  }

  // ---------------------------------------------------------------------------
  // Exactly once.

  function Times(xs: seq<Body>, id: nat): nat {
    multiset(BodyIds(xs))[id]
  }

  /** How often the workers have executed the transaction. */
  function WorkerTimes(ws: seq<Worker>, id: nat): nat {
    if ws == [] then 0 else WorkerTimes(ws[..|ws| - 1], id) + Times(ws[|ws| - 1].port.log, id)
  }

  /** How often the transaction has been executed: by workers, and by the master among the orphans. */
  function Executions(s: Sys, id: nat): nat
    requires s.master.played <= |s.master.orphans|
  {
    WorkerTimes(s.workers, id) + Times(Bodies(s.master.orphans[..s.master.played]), id)
  }

  /** How many transactions of the pool with this id are tagged with one of the first `n` workers. */
  function TaggedTimes(pool: seq<Transaction>, n: nat, id: nat): nat {
    if n == 0 then 0 else TaggedTimes(pool, n - 1, id) + Times(Bodies(TaggedFor(pool, n - 1)), id)
  }

  lemma TimesSnoc(xs: seq<Body>, b: Body, id: nat)
    ensures Times(xs + [b], id) == Times(xs, id) + if b.id == id then 1 else 0
  {
    assert BodyIds(xs + [b]) == BodyIds(xs) + [b.id];
  }

  lemma {:induction false} TaggedTimesNone(n: nat, id: nat)
    ensures TaggedTimes([], n, id) == 0
  {
    if n > 0 {
      TaggedTimesNone(n - 1, id);
    }
  }

  lemma {:induction false} TaggedTimesSnoc(init: seq<Transaction>, t: Transaction, n: nat, id: nat)
    requires t.tag.DoneBy?
    ensures TaggedTimes(init + [t], n, id) ==
            TaggedTimes(init, n, id) + if t.body.id == id && t.tag.worker < n then 1 else 0
  {
    hide TaggedFor, Bodies, Times, BodyIds;
    if n > 0 {
      TaggedTimesSnoc(init, t, n - 1, id);
      OneWorkerSnoc(init, t, n - 1, id);
    }
  }

  lemma OneWorkerSnoc(init: seq<Transaction>, t: Transaction, w: ThreadId, id: nat)
    requires t.tag.DoneBy?
    ensures Times(Bodies(TaggedFor(init + [t], w)), id) ==
            Times(Bodies(TaggedFor(init, w)), id) + if t.body.id == id && t.tag.worker == w then 1 else 0
  {
    hide *;
    TaggedSnoc(init, t, w);
    if t.tag == DoneBy(w) {
      BodiesSnoc(TaggedFor(init, w), t);
      TimesSnoc(Bodies(TaggedFor(init, w)), t.body, id);
    }
  }

  /** Every transaction of the pool is counted for exactly one worker. */
  lemma {:induction false} TaggedTimesAll(pool: seq<Transaction>, n: nat, id: nat)
    requires forall t :: t in pool ==> t.tag.DoneBy? && t.tag.worker < n
    ensures TaggedTimes(pool, n, id) == Times(Bodies(pool), id)
  {
    if pool == [] {
      TaggedTimesNone(n, id);
    } else {
      var init, t := pool[..|pool| - 1], pool[|pool| - 1];
      assert t in pool && pool == init + [t];
      TaggedTimesAll(init, n, id);
      TaggedTimesSnoc(init, t, n, id);
      BodiesSnoc(init, t);
      TimesSnoc(Bodies(init), t.body, id);
    }
  }

  lemma {:induction false} LogsAreTagged(pool: seq<Transaction>, ws: seq<Worker>, id: nat)
    requires forall w :: 0 <= w < |ws| ==> ws[w].port.log == Bodies(TaggedFor(pool, w))
    ensures WorkerTimes(ws, id) == TaggedTimes(pool, |ws|, id)
  {
    hide TaggedFor, Bodies, Times, WorkerTimes, TaggedTimes;
    WorkerTimesNext(ws, id);
    TaggedTimesNext(pool, |ws|, id);
    if ws != [] {
      LogsAreTagged(pool, ws[..|ws| - 1], id);
    }
  }

  lemma WorkerTimesNext(ws: seq<Worker>, id: nat)
    ensures WorkerTimes(ws, id) ==
            if ws == [] then 0 else WorkerTimes(ws[..|ws| - 1], id) + Times(ws[|ws| - 1].port.log, id)
  {
    hide Times;
  }

  lemma TaggedTimesNext(pool: seq<Transaction>, n: nat, id: nat)
    ensures TaggedTimes(pool, n, id) ==
            if n == 0 then 0 else TaggedTimes(pool, n - 1, id) + Times(Bodies(TaggedFor(pool, n - 1)), id)
  {
    hide Times, TaggedFor, Bodies;
  }

  /** When the run is over, every submitted transaction has been executed exactly once, by whoever it was. */
  lemma ExactlyOnce(task: Task, schedule: seq<Label>, id: nat, inv: Store -> bool)
    requires TaskValid(task) && TaskSafe(task, inv) && Finished(ApplyAll(Init(task), schedule))
    ensures Executions(ApplyAll(Init(task), schedule), id) == if Contains(task.pool, id) then 1 else 0
  {
    hide ApplyAll, Books, Quiet, WorkerTimes, Bodies, Ids;
    var s := ApplyAll(Init(task), schedule);
    ReachableInv(task, schedule, inv);
    NothingLost(task, schedule, inv);
    Closed(task, s);
    assert s.master.orphans[..s.master.played] == s.master.orphans;
    assert Unique(task.pool);
    WorkerExecutions(task, s, id);
    BlockTimes(s, id);
    UniqueTimes(task.pool, id);
  }

  lemma Closed(task: Task, s: Sys)
    requires Books(task, s) && s.master.closing
    ensures Quiet(task, s) && s.master.played <= |s.master.orphans|
  {
    hide Quiet;
  }

  lemma WorkerExecutions(task: Task, s: Sys, id: nat)
    requires TaskValid(task) && Books(task, s) && Quiet(task, s)
    ensures WorkerTimes(s.workers, id) == Times(Bodies(s.master.pool), id)
  {
    hide Books, Quiet, TaskValid, TaggedFor, Bodies;
    forall w | 0 <= w < |s.workers| ensures s.workers[w].port.log == Bodies(TaggedFor(s.master.pool, w)) {
      OrderPreserved(task, s, w);
    }
    PoolWorkers(task, s);
    LogsAreTagged(s.master.pool, s.workers, id);
    TaggedTimesAll(s.master.pool, |s.workers|, id);
  }

  lemma BlockTimes(s: Sys, id: nat)
    ensures multiset(Ids(BlockOf(s)))[id] == Times(Bodies(s.master.pool), id) + Times(Bodies(s.master.orphans), id)
  {
    assert Ids(BlockOf(s)) == BodyIds(Bodies(s.master.pool)) + BodyIds(Bodies(s.master.orphans));
  }

  lemma PoolWorkers(task: Task, s: Sys)
    requires TaskValid(task) && Books(task, s)
    ensures forall t :: t in s.master.pool ==> t.tag.DoneBy? && t.tag.worker < |s.workers|
  {
    var kept := Keep(task.pool, s.history.fates, Unresolved);
    assert PoolOk(task, s) && |s.workers| == task.workers;
    forall t | t in s.master.pool ensures t.tag.DoneBy? && t.tag.worker < |s.workers| {
      assert t in kept || t in s.history.moved;
    }
  }

  lemma {:induction false} UniqueTimes(txs: seq<Transaction>, id: nat)
    requires Unique(txs)
    ensures multiset(Ids(txs))[id] == if Contains(txs, id) then 1 else 0
  {
    if txs != [] {
      var init, t := txs[..|txs| - 1], txs[|txs| - 1];
      UniquePrefix(txs);
      UniqueTimes(init, id);
      assert Ids(txs) == Ids(init) + [t.body.id];
      assert forall i :: 0 <= i < |init| ==> init[i] == txs[i] && init[i] in init;
      assert Contains(txs, id) <==> Contains(init, id) || t.body.id == id;
    }
  }
}
