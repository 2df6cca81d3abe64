// Every step keeps the books.
module BooksKept {
  import opened Storage
  import opened TaintState
  import opened Program
  import opened Dispatch
  import opened Transactions
  import opened Protocol
  import opened Sequences
  import opened Bookkeeping
  import opened Undisturbed

  lemma {:induction false} KeepAll(txs: seq<Transaction>, fates: map<nat, Fate>, p: Fate -> bool)
    requires forall t :: t in txs ==> t.body.id in fates && p(fates[t.body.id])
    ensures Keep(txs, fates, p) == txs
  {
    if txs != [] {
      assert txs[|txs| - 1] in txs;
      KeepAll(txs[..|txs| - 1], fates, p);
    }
  }

  lemma {:induction false} KeepNone(txs: seq<Transaction>, fates: map<nat, Fate>, p: Fate -> bool)
    requires forall t :: t in txs ==> t.body.id in fates && !p(fates[t.body.id])
    ensures Keep(txs, fates, p) == []
  {
    if txs != [] {
      assert txs[|txs| - 1] in txs;
      KeepNone(txs[..|txs| - 1], fates, p);
    }
  }

  lemma FreshAtFirst(txs: seq<Transaction>)
    ensures forall id :: id in FreshFates(txs) <==> Contains(txs, id)
    ensures forall id :: id in FreshFates(txs) ==> FreshFates(txs)[id] == Fresh
    ensures forall t :: t in txs ==> t.body.id in FreshFates(txs)
  {
    forall id ensures id in FreshFates(txs) <==> Contains(txs, id) {
      if Contains(txs, id) {
        var i :| 0 <= i < |txs| && txs[i].body.id == id;
        assert Ids(txs)[i] == id;
      }
    }
  }

  lemma NewInbox(given: seq<Transaction>, fates: map<nat, Fate>, p: Port)
    requires forall id :: id in fates ==> fates[id] == Fresh
    requires forall i :: 0 <= i < |given| ==> given[i].body.id in fates
    requires p.inbox == [] && p.phase.Depleting? && p.executed == p.forwarded == 0
    ensures InboxOk(given, fates, Script(given, 0) + [DistributionDone], false, p, Idle)
  {
    assert p.inbox + (Script(given, 0) + [DistributionDone]) == Script(given, 0) + [DistributionDone];
  }

  lemma NewOthers(pool: seq<Transaction>, fates: map<nat, Fate>, w: ThreadId, p: Port)
    requires forall id :: id in fates ==> fates[id] == Fresh
    requires p.others == []
    ensures OthersOk(pool, fates, w, p, Idle)
  {
  }

  lemma NewOutbox(fates: map<nat, Fate>, w: ThreadId, p: Port)
    requires forall id :: id in fates ==> fates[id] == Fresh
    requires p.outbox == [] && p.phase.Depleting?
    ensures OutboxOk(fates, {}, w, p)
  {
  }

  lemma NewLog(given: seq<Transaction>, pool: seq<Transaction>, fates: map<nat, Fate>, w: ThreadId, p: Port)
    requires p.log == [] && p.outbox == [] && p.executed == p.forwarded == 0
    ensures LogOk(given, pool, fates, [], w, p)
  {
  }

  lemma InitWorker(task: Task, w: ThreadId)
    requires TaskValid(task) && w < task.workers
    ensures WorkerOk(task, Init(task), w)
  {
    hide InboxOk, OthersOk, OutboxOk, LogOk;
    var given := Assigned(task, w);
    FreshAtFirst(task.pool);
    NewInbox(given, FreshFates(task.pool), NEW_PORT);
    NewOthers(task.pool, FreshFates(task.pool), w, NEW_PORT);
    NewOutbox(FreshFates(task.pool), w, NEW_PORT);
    NewLog(given, task.pool, FreshFates(task.pool), w, NEW_PORT);
    WaitingConcat(Assignments(task.pool), Broadcast(task.workers, DistributionDone), w);
    WaitingAssignments(task.pool, w);
    WaitingBroadcast(task.workers, DistributionDone, w);
  }

  lemma InitPool(task: Task, s: Sys)
    requires TaskValid(task)
    requires s.history.fates == FreshFates(task.pool) && s.history.moved == []
    requires s.master.pool == task.pool && s.master.orphans == []
    ensures PoolOk(task, s)
  {
    var fates := FreshFates(task.pool);
    assert FatesOk(task, fates) by { FreshAtFirst(task.pool); }
    assert MovedOk(task.pool, fates, []) && OrphansOk(task.pool, fates, []);
    FreshAtFirst(task.pool);
    KeepAll(task.pool, fates, Unresolved);
    assert s.master.pool == Keep(task.pool, fates, Unresolved) + s.history.moved;
  }

  lemma InitCounters(task: Task)
    requires TaskValid(task)
    ensures CountersOk(task, Init(task))
  {
    var s := Init(task);
    var fates := s.history.fates;
    FreshAtFirst(task.pool);
    KeepNone(task.pool, fates, Resolved);
    KeepNone(task.pool, fates, Away);
    KeepNone(task.pool, fates, IsLocal);
    TotalZero(s.workers, {}, ForwardedOf);
    TotalZero(s.workers, {}, ExecutedOf);
    TotalZero(s.workers, Everyone(s), ForwardedOf);
    TotalZero(s.workers, Everyone(s), ExecutedOf);
  }

  lemma InitBooks(task: Task)
    requires TaskValid(task)
    ensures Books(task, Init(task))
  {
    hide WorkerOk, PoolOk, CountersOk;
    AssignmentsTo(task.pool, task.workers);
    forall w | 0 <= w < task.workers ensures WorkerOk(task, Init(task), w) {
      InitWorker(task, w);
    }
    InitPool(task, Init(task));
    InitCounters(task);
  }

  // ---------------------------------------------------------------------------
  // Steps that change no fate.

  /** One worker changes, its counters do not. */
  lemma CountersKept(task: Task, s: Sys, s': Sys, w: ThreadId, x: Worker)
    requires CountersOk(task, s) && w < |s.workers|
    requires s'.workers == s.workers[w := x] && s'.history == s.history
    requires x.port.executed == s.workers[w].port.executed && x.port.forwarded == s.workers[w].port.forwarded
    requires s'.master == s.master.(plan := s'.master.plan, closing := s'.master.closing, played := s'.master.played)
    ensures CountersOk(task, s')
  {
    TotalUpdate(s.workers, s.history.heard, ForwardedOf, w, x);
    TotalUpdate(s.workers, s.history.heard, ExecutedOf, w, x);
    TotalUpdate(s.workers, Everyone(s), ForwardedOf, w, x);
    TotalUpdate(s.workers, Everyone(s), ExecutedOf, w, x);
  }

  /** A message leaves the plan and enters the inbox: what is still to come is the same. */
  lemma SentInbox(given: seq<Transaction>, fates: map<nat, Fate>, plan: seq<Send>, closing: bool, v: ThreadId, p: Port, j: Job)
    requires plan != [] && InboxOk(given, fates, Waiting(plan, v), closing, p, j)
    ensures InboxOk(given, fates, Waiting(plan[1..], v), closing,
                    if plan[0].to == v then p.(inbox := p.inbox + [plan[0].message]) else p, j)
  {
    var m := plan[0].message;
    if plan[0].to == v {
      assert (p.inbox + [m]) + Waiting(plan[1..], v) == p.inbox + Waiting(plan, v);
    } else {
      assert [] + Waiting(plan[1..], v) == Waiting(plan[1..], v);
    }
  }

  lemma SendWorker(task: Task, s: Sys, v: ThreadId)
    requires v < |s.workers| && WorkerOk(task, s, v) && Ready(s, MasterSend) && s.master.plan[0].to < |s.workers|
    ensures WorkerOk(task, DoSend(s), v)
  {
    hide InboxOk, OthersOk, OutboxOk, LogOk, TaggedFor;
    var Send(w, m) := s.master.plan[0];
    var p, s' := s.workers[v].port, DoSend(s);
    var q, fates := s'.workers[v].port, s.history.fates;
    SentInbox(Assigned(task, v), fates, s.master.plan, s.master.closing, v, p, s.workers[v].job);
    SameOthers(task.pool, fates, v, p, s.workers[v].job, q, s.workers[v].job);
    SameReports(fates, s.history.heard, v, p, q);
    SameLog(Assigned(task, v), task.pool, fates, s.history.moved, v, p, q);
  }

  lemma SendBooks(task: Task, s: Sys)
    requires Books(task, s) && Ready(s, MasterSend)
    ensures Books(task, DoSend(s))
  {
    hide WorkerOk, PoolOk, CountersOk;
    var s' := DoSend(s);
    CountersKept(task, s, s', s.master.plan[0].to, s'.workers[s.master.plan[0].to]);
    PoolKept(task, s, s');
    forall v | 0 <= v < |s.workers| ensures WorkerOk(task, s', v) {
      SendWorker(task, s, v);
    }
  }

  /** The books see neither the state nor how far a dispatch has got. */
  lemma JobWorker(task: Task, s: Sys, s': Sys, v: ThreadId)
    requires v < |s.workers| && v < |s'.workers| && WorkerOk(task, s, v)
    requires s'.workers[v].port == s.workers[v].port && s'.history == s.history && s'.master == s.master
    requires s'.workers[v].job == s.workers[v].job ||
             (s.workers[v].job.Busy? && s'.workers[v].job.Busy? && s'.workers[v].job.tx == s.workers[v].job.tx)
    ensures WorkerOk(task, s', v)
  {
  }

  lemma PoolKept(task: Task, s: Sys, s': Sys)
    requires PoolOk(task, s)
    requires s'.history == s.history && s'.master.pool == s.master.pool && s'.master.orphans == s.master.orphans
    ensures PoolOk(task, s')
  {
  }

  /** A worker's dispatch moves on, its transaction staying in its hands. */
  lemma JobBooks(task: Task, s: Sys, s': Sys, w: ThreadId)
    requires Books(task, s) && w < |s.workers| == |s'.workers| && s.workers[w].job.Busy? && s'.workers[w].job.Busy?
    requires s' == s.(workers := s.workers[w := s'.workers[w]], state := s'.state)
    requires s'.workers[w].port == s.workers[w].port && s'.workers[w].job.tx == s.workers[w].job.tx
    ensures Books(task, s')
  {
    hide WorkerOk, PoolOk, CountersOk;
    CountersKept(task, s, s', w, s'.workers[w]);
    PoolKept(task, s, s');
    forall v | 0 <= v < |s.workers| ensures WorkerOk(task, s', v) {
      JobWorker(task, s, s', v);
    }
  }

  lemma BreakBooks(task: Task, s: Sys)
    requires TaskValid(task) && Books(task, s) && Ready(s, MasterBreak)
    ensures Books(task, Apply(s, MasterBreak)) && Quiet(task, s)
  {
    hide WorkerOk, PoolOk, CountersOk, BreakCondition;
    var s' := Apply(s, MasterBreak);
    BreakQuiet(task, s);
    PoolKept(task, s, s');
    ClosingCounters(task, s, s');
    forall v | 0 <= v < |s.workers| ensures WorkerOk(task, s', v) {
      ClosingWorker(task, s, s', v);
    }
  }

  lemma ClosingCounters(task: Task, s: Sys, s': Sys)
    requires CountersOk(task, s) && s'.workers == s.workers && s'.history == s.history
    requires s'.master == s.master.(closing := true, plan := s'.master.plan)
    ensures CountersOk(task, s')
  {
  }

  /** The message that ends the task is all that a worker still has to receive. */
  lemma ClosingWorker(task: Task, s: Sys, s': Sys, v: ThreadId)
    requires v < |s.workers| && WorkerOk(task, s, v) && Quiet(task, s) && s.master.plan == [] && !s.master.closing
    requires s'.workers == s.workers && s'.history == s.history
    requires s'.master == s.master.(closing := true, plan := Broadcast(|s.workers|, TaskDone))
    ensures WorkerOk(task, s', v)
  {
    hide OthersOk, OutboxOk, LogOk, Broadcast;
    WaitingBroadcast(|s.workers|, TaskDone, v);
    assert Waiting([], v) == [];
  }

  /** Termination detection: when the counters add up, nothing is under way anywhere. */
  lemma BreakQuiet(task: Task, s: Sys)
    requires TaskValid(task) && Books(task, s) && Ready(s, MasterBreak)
    ensures Quiet(task, s)
  {
    EveryoneHeard(s.history.heard, |s.workers|);
    var fates := s.history.fates;
    assert Known(task.pool, fates) by {
      forall t | t in task.pool ensures t.body.id in fates { assert Contains(task.pool, t.body.id); }
    }
    KeepCount(task.pool, fates, Resolved, Away);
    forall id | id in fates ensures fates[id].Fresh? || fates[id].Local? || Resolved(fates[id]) {
      assert Contains(task.pool, id);
    }
    forall w | 0 <= w < |s.workers|
      ensures s.workers[w].job.Idle? && s.workers[w].port.others == [] && s.workers[w].port.outbox == [] &&
              !s.workers[w].port.phase.Depleting?
    {
      IdleWorker(task, s, w);
    }
    forall id | id in fates ensures !fates[id].Fresh? {
      NotFresh(task, s, id);
    }
  }

  lemma EveryoneHeard(heard: set<nat>, n: nat)
    requires heard <= UpTo(n) && |heard| == n
    ensures heard == UpTo(n)
  {
    assert |UpTo(n) - heard| == |UpTo(n)| - |heard|;
  }

  lemma NonEmpty<T>(xs: seq<T>)
    ensures xs != [] ==> xs[0] in xs
  {
  }

  ghost predicate AllSettled(fates: map<nat, Fate>) {
    forall id :: id in fates ==> fates[id].Fresh? || fates[id].Local? || Resolved(fates[id])
  }

  lemma NothingForwarded(pool: seq<Transaction>, fates: map<nat, Fate>, w: ThreadId, p: Port, j: Job)
    requires OthersOk(pool, fates, w, p, j) && AllSettled(fates)
    ensures p.others == [] && !BusyAgain(j)
  {
    NonEmpty(p.others);
  }

  lemma NothingReported(fates: map<nat, Fate>, heard: set<ThreadId>, w: ThreadId, p: Port)
    requires OutboxOk(fates, heard, w, p) && AllSettled(fates) && w in heard
    ensures p.outbox == [] && !p.phase.Depleting?
  {
    NonEmpty(p.outbox);
  }

  lemma IdleWorker(task: Task, s: Sys, w: ThreadId)
    requires w < |s.workers| && WorkerOk(task, s, w) && w in s.history.heard && AllSettled(s.history.fates)
    ensures s.workers[w].job.Idle? && s.workers[w].port.others == [] && s.workers[w].port.outbox == [] &&
            !s.workers[w].port.phase.Depleting?
  {
    hide OthersOk, OutboxOk, LogOk, AllSettled;
    NothingForwarded(task.pool, s.history.fates, w, s.workers[w].port, s.workers[w].job);
    NothingReported(s.history.fates, s.history.heard, w, s.workers[w].port);
  }

  lemma NotFresh(task: Task, s: Sys, id: nat)
    requires Books(task, s) && id in s.history.fates
    requires forall w :: 0 <= w < |s.workers| ==> !s.workers[w].port.phase.Depleting?
    requires TaskValid(task)
    ensures !s.history.fates[id].Fresh?
  {
    var i :| 0 <= i < |task.pool| && task.pool[i].body.id == id;
    var t := task.pool[i];
    var w := t.tag.worker;
    assert WorkerOk(task, s, w);
    TaggedComplete(task.pool, w, t);
    var k :| 0 <= k < |Assigned(task, w)| && Assigned(task, w)[k] == t;
  }
}
