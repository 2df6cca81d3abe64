// Wait-freedom: every step takes something off a measure of the work left, and until the
// master is done there is always a step to take.
module Progress {
  import opened Storage
  import opened TaintState
  import opened Program
  import opened Dispatch
  import opened Transactions
  import opened Protocol
  import opened Sums
  import opened Sequences
  import opened Bookkeeping
  import opened Undisturbed
  import opened BooksKept
  import opened BooksReceive
  import opened BooksSettle
  import opened Serializability
  import opened Authoring

  // ---------------------------------------------------------------------------
  // The work left.

  function Steps(t: Transaction): nat { t.body.call.steps }

  /** A transaction waiting for its second attempt. */
  function OtherCost(t: Transaction): nat { 2 * Steps(t) + 5 }

  function InboxCost(m: ToWorker): nat {
    match m
    case Assignment(t) => 4 * Steps(t) + 8
    case DistributionDone => 2
    case TaskDone => 1
  }

  /** An orphan still has to be executed by the master. */
  function OutboxCost(m: ToMaster): nat {
    if m.WorkerOrphan? then 2 else 1
  }

  function SendCost(x: Send): nat { InboxCost(x.message) + 1 }

  function StageCost(st: Stage): nat {
    match st
    case Running(n, _, cache) => 2 * n + |cache| + 2
    case Committing(_, rest) => |rest| + 1
    case Tainted(_, _) => 1
  }

  function JobCost(j: Job): nat {
    match j
    case Idle => 0
    case Busy(t, st) => StageCost(st) + if t.status.Initial? then OtherCost(t) else 2
  }

  function WorkerCost(w: Worker): nat {
    Sum(w.port.inbox, InboxCost) + Sum(w.port.others, OtherCost) + Sum(w.port.outbox, OutboxCost) + JobCost(w.job)
  }

  function MasterCost(m: Master, workers: nat): nat {
    Sum(m.plan, SendCost) + (if m.played <= |m.orphans| then |m.orphans| - m.played else 0) +
    if m.closing then 0 else 2 * workers + 1
  }

  function Measure(s: Sys): nat {
    Sum(s.workers, WorkerCost) + MasterCost(s.master, |s.workers|)
  }

  // ---------------------------------------------------------------------------
  // Every step takes something off it.

  /** One worker has less to do, and nobody else more. */
  lemma WorkerStep(s: Sys, s': Sys, w: ThreadId, x: Worker)
    requires w < |s.workers| && s'.workers == s.workers[w := x] && s'.master == s.master
    requires WorkerCost(x) < WorkerCost(s.workers[w])
    ensures Measure(s') < Measure(s)
  {
    hide WorkerCost, Sum, MasterCost;
    SumUpdate(s.workers, w, x, WorkerCost);
  }

  lemma AdvanceCost(st: Stage, s: StateMap, id: ThreadId)
    requires st.Running? && Advance(st, s, id).Move?
    ensures StageCost(Advance(st, s, id).stage) < StageCost(st)
  {
    var Running(n, p, cache) := st;
    match p
    case Write(k, v, _, _) => CacheGrowth(cache, k, v);
    case _ =>
  }

  lemma CacheGrowth(cache: Store, k: Key, v: Value)
    ensures |cache[k := v]| <= |cache| + 1
  {
    assert cache[k := v].Keys == cache.Keys + {k};
    assert |cache[k := v].Keys| == |cache[k := v]| && |cache.Keys| == |cache|;
  }

  lemma AccessCost(s: Sys, w: ThreadId)
    requires Ready(s, Access(w)) && !DoAccess(s, w).panicked
    ensures Measure(DoAccess(s, w)) < Measure(s)
  {
    AdvanceCost(s.workers[w].job.stage, s.state, w);
    WorkerStep(s, DoAccess(s, w), w, DoAccess(s, w).workers[w]);
  }

  lemma CommitCost(s: Sys, w: ThreadId, k: Key)
    requires Ready(s, CommitKey(w, k))
    ensures Measure(DoCommit(s, w, k)) < Measure(s)
  {
    var rest := s.workers[w].job.stage.rest;
    assert (rest - {k}).Keys == rest.Keys - {k};
    assert |(rest - {k}).Keys| == |rest - {k}| && |rest.Keys| == |rest|;
    WorkerStep(s, DoCommit(s, w, k), w, DoCommit(s, w, k).workers[w]);
  }

  lemma ReceiveCost(s: Sys, w: ThreadId)
    requires Ready(s, Receive(w)) && !DoReceive(s, w).panicked
    ensures Measure(DoReceive(s, w)) < Measure(s)
  {
    hide Measure, Sum;
    var p := s.workers[w].port;
    SumFirst(p.inbox, InboxCost);
    SumSnoc(p.outbox, AuthoringReport(p.executed, p.forwarded), OutboxCost);
    WorkerStep(s, DoReceive(s, w), w, DoReceive(s, w).workers[w]);
  }

  lemma ReceiveOtherCost(s: Sys, w: ThreadId, i: nat)
    requires Ready(s, ReceiveOther(w, i))
    ensures Measure(DoReceiveOther(s, w, i)) < Measure(s)
  {
    SumWithout(s.workers[w].port.others, i, OtherCost);
    WorkerStep(s, DoReceiveOther(s, w, i), w, DoReceiveOther(s, w, i).workers[w]);
  }

  /** Settling without handing the transaction to anybody. */
  lemma SettledCost(s: Sys, w: ThreadId, p: Port, g: Fate, more: seq<ToMaster>)
    requires w < |s.workers| && s.workers[w].job.Busy?
    requires p.inbox == s.workers[w].port.inbox && p.others == s.workers[w].port.others
    requires p.outbox == s.workers[w].port.outbox + more
    requires Sum(more, OutboxCost) < JobCost(s.workers[w].job)
    ensures Measure(Settled(s, w, p, g)) < Measure(s)
  {
    hide Sum, JobCost, Measure;
    SumConcat(s.workers[w].port.outbox, more, OutboxCost);
    assert JobCost(Idle) == 0 by { IdleCost(); }
    WorkerStep(s, Settled(s, w, p, g), w, Worker(p, Idle));
  }

  lemma IdleCost()
    ensures JobCost(Idle) == 0
  {
  }

  lemma OneMessage(m: ToMaster)
    ensures Sum([m], OutboxCost) == OutboxCost(m) <= 2 && Sum([], OutboxCost) == 0
  {
    SumSnoc([], m, OutboxCost);
    assert [] + [m] == [m];
  }

  lemma AgainCost(s: Sys, w: ThreadId)
    requires Ready(s, Settle(w)) && w < |s.workers| && BusyAgain(s.workers[w].job) && s.workers[w].port.phase.Serving?
    ensures Measure(DoSettle(s, w)) < Measure(s)
  {
    hide DoSettle, Sum, Measure;
    AgainEffect(s, w);
    var t, g := s.workers[w].job.tx, AgainFate(w, s.workers[w].job.stage);
    var m := if g.ExecutedBy? then WorkerExecuted(t.body.id) else WorkerOrphan(t.body.id);
    OneMessage(m);
    SettledCost(s, w, AgainPort(s.workers[w].port, t, g), g, [m]);
  }

  lemma FirstCost(s: Sys, w: ThreadId)
    requires Ready(s, Settle(w)) && BusyFirst(s.workers[w].job) && s.workers[w].port.phase.Depleting?
    requires s.workers[w].job.stage.Tainted? ==> s.workers[w].job.stage.owner < |s.workers|
    ensures Measure(DoSettle(s, w)) < Measure(s)
  {
    hide DoSettle, Sum, Measure;
    FirstEffect(s, w);
    var t, g := s.workers[w].job.tx, FirstFate(w, s.workers[w].job.stage);
    var p := FirstPort(s.workers[w].port, t, g);
    if g.Travelling? {
      HandedCost(s, w, p, g, t);
    } else if g.OrphanBy? {
      OneMessage(WorkerOrphan(t.body.id));
      SettledCost(s, w, p, g, [WorkerOrphan(t.body.id)]);
    } else {
      OneMessage(WorkerOrphan(t.body.id));
      assert s.workers[w].port.outbox + [] == s.workers[w].port.outbox;
      SettledCost(s, w, p, g, []);
    }
  }

  /** A transaction in hand for the first time counts for its second attempt too. */
  lemma HandedCost(s: Sys, w: ThreadId, p: Port, g: Fate, t: Transaction)
    requires w < |s.workers| && s.workers[w].job.Busy? && s.workers[w].job.tx == t && t.status.Initial?
    requires p.inbox == s.workers[w].port.inbox && p.others == s.workers[w].port.others && p.outbox == s.workers[w].port.outbox
    requires g.Travelling? && g.to < |s.workers|
    ensures Measure(Handed(Settled(s, w, p, g), g.to, t)) < Measure(s)
  {
    hide Sum, OtherCost;
    var s1 := Settled(s, w, p, g);
    var s2 := Handed(s1, g.to, t);
    SumUpdate(s.workers, w, Worker(p, Idle), WorkerCost);
    SumUpdate(s1.workers, g.to, s2.workers[g.to], WorkerCost);
    SumSnoc(s1.workers[g.to].port.others, t, OtherCost);
    assert StageCost(s.workers[w].job.stage) > 0;
  }

  lemma SettleCost(task: Task, s: Sys, w: ThreadId)
    requires TaskValid(task) && Inv(task, s) && Ready(s, Settle(w))
    ensures Measure(DoSettle(s, w)) < Measure(s)
  {
    hide Books, TaskValid, DoSettle, Measure, ConcurrentData;
    BusyNotClosing(task, s, w);
    if s.workers[w].job.stage.Tainted? {
      TaintOwner(task, s, w);
    }
    if BusyFirst(s.workers[w].job) {
      FirstFacts(task, s, w);
      FirstCost(s, w);
    } else {
      AgainFacts(task, s, w);
      AgainCost(s, w);
    }
  }

  lemma SendStepCost(s: Sys)
    requires Ready(s, MasterSend) && s.master.plan[0].to < |s.workers|
    ensures Measure(DoSend(s)) < Measure(s)
  {
    var Send(w, m) := s.master.plan[0];
    SumFirst(s.master.plan, SendCost);
    SumSnoc(s.workers[w].port.inbox, m, InboxCost);
    SumUpdate(s.workers, w, DoSend(s).workers[w], WorkerCost);
  }

  lemma HearCost(s: Sys, w: ThreadId)
    requires Ready(s, MasterReceive(w)) && !DoMasterReceive(s, w).panicked && s.master.played <= |s.master.orphans|
    ensures Measure(DoMasterReceive(s, w)) < Measure(s)
  {
    var s' := DoMasterReceive(s, w);
    HearEffect(s, w);
    SumFirst(s.workers[w].port.outbox, OutboxCost);
    SumUpdate(s.workers, w, s'.workers[w], WorkerCost);
  }

  lemma HearEffect(s: Sys, w: ThreadId)
    requires Ready(s, MasterReceive(w)) && !DoMasterReceive(s, w).panicked
    ensures var s', p := DoMasterReceive(s, w), s.workers[w].port;
            && s'.workers == s.workers[w := s.workers[w].(port := p.(outbox := p.outbox[1..]))]
            && s'.master.plan == s.master.plan && s'.master.closing == s.master.closing && s'.master.played == s.master.played
            && |s'.master.orphans| == |s.master.orphans| + if p.outbox[0].WorkerOrphan? then 1 else 0
  {
  }

  lemma {:induction false} BroadcastCost(n: nat, m: ToWorker)
    ensures Sum(Broadcast(n, m), SendCost) == n * (InboxCost(m) + 1)
  {
    if n > 0 {
      assert Broadcast(n, m) == Broadcast(n - 1, m) + [Send(n - 1, m)];
      SumSnoc(Broadcast(n - 1, m), Send(n - 1, m), SendCost);
      BroadcastCost(n - 1, m);
    }
  }

  lemma BreakCost(s: Sys)
    requires Ready(s, MasterBreak)
    ensures Measure(Apply(s, MasterBreak)) < Measure(s)
  {
    BroadcastCost(|s.workers|, TaskDone);
  }

  lemma OrphanCost(s: Sys)
    requires Ready(s, MasterOrphan) && !DoOrphan(s).panicked
    ensures Measure(DoOrphan(s)) < Measure(s)
  {
  }

  /** Every step that is taken leaves strictly less work. */
  lemma StepDecreases(task: Task, s: Sys, l: Label, inv: Store -> bool)
    requires TaskValid(task) && TaskSafe(task, inv) && Inv(task, s) && Ready(s, l)
    ensures Measure(Apply(s, l)) < Measure(s)
  {
    hide Measure, TaskValid, TaskSafe, Books, ConcurrentData, OrphanData, DoSettle, DoReceive, DoMasterReceive, DoAccess, DoOrphan;
    StepInv(task, s, l, inv);
    BasicsOf(task, s);
    BasicsOf(task, Apply(s, l));
    match l
    case MasterSend => SendStepCost(s);
    case MasterReceive(w) => HearCost(s, w);
    case MasterBreak => BreakCost(s);
    case MasterOrphan => OrphanCost(s);
    case Receive(w) => ReceiveCost(s, w);
    case ReceiveOther(w, i) => ReceiveOtherCost(s, w, i);
    case Access(w) => AccessCost(s, w);
    case CommitKey(w, k) => CommitCost(s, w, k);
    case Settle(w) => SettleCost(task, s, w);
  }

  lemma BasicsOf(task: Task, s: Sys)
    requires Books(task, s)
    ensures !s.panicked && |s.workers| == task.workers && s.master.played <= |s.master.orphans|
    ensures s.master.plan != [] ==> s.master.plan[0].to < |s.workers|
    ensures s.master.closing ==> Quiet(task, s)
  {
    hide WorkerOk, PoolOk, CountersOk, Quiet;
  }

  // ---------------------------------------------------------------------------
  // Nobody waits for anybody.

  /**
    A worker with a transaction in hand can always go on with it, and one without can take
    whatever is in its queues, the forwarded ones in any order, whatever the others are doing;
    and the master can take any worker's next message while it collects.
   */
  lemma WaitFree(s: Sys, w: ThreadId)
    requires !s.panicked && w < |s.workers|
    ensures var Worker(p, j) := s.workers[w];
            && (j.Busy? && j.stage.Running? ==> Ready(s, Access(w)))
            && (j.Busy? && j.stage.Committing? ==> forall k :: k in j.stage.rest ==> Ready(s, CommitKey(w, k)))
            && (j.Busy? && (j.stage.Tainted? || (j.stage.Committing? && j.stage.rest == map[])) ==> Ready(s, Settle(w)))
            && (j.Idle? && p.inbox != [] && !p.phase.Stopped? ==> Ready(s, Receive(w)))
            && (j.Idle? && p.phase.Serving? ==> forall i: nat :: i < |p.others| ==> Ready(s, ReceiveOther(w, i)))
            && (s.master.plan != [] ==> Ready(s, MasterSend))
            && (s.master.plan == [] && !s.master.closing && p.outbox != [] ==> Ready(s, MasterReceive(w)))
  {
  }

  // ---------------------------------------------------------------------------
  // There is always a step to take.

  /** The step a worker with something in hand takes next. */
  ghost function NextOf(w: ThreadId, st: Stage): Label {
    match st
    case Running(_, _, _) => Access(w)
    case Committing(_, rest) => if rest == map[] then Settle(w) else CommitKey(w, Any(rest))
    case Tainted(_, _) => Settle(w)
  }

  ghost function Any(d: Store): (k: Key)
    requires d != map[]
    ensures k in d
  {
    assert d.Keys != {};
    var k :| k in d.Keys;
    k
  }

  lemma IdleWorkerReceives(task: Task, s: Sys, w: ThreadId)
    requires WorkerOkAt(task, s, w) && s.master.plan == [] && s.workers[w].job.Idle? && !s.panicked
    requires s.workers[w].port.inbox != []
    ensures Ready(s, Receive(w))
  {
  }

  ghost predicate WorkerOkAt(task: Task, s: Sys, w: ThreadId) {
    w < |s.workers| && WorkerOk(task, s, w)
  }

  lemma ForwardedServed(task: Task, s: Sys, w: ThreadId)
    requires WorkerOkAt(task, s, w) && s.master.plan == [] && s.workers[w].job.Idle? && !s.panicked
    requires s.workers[w].port.inbox == [] && s.workers[w].port.others != [] && (s.master.closing ==> Quiet(task, s))
    ensures Ready(s, ReceiveOther(w, 0))
  {
  }

  /** A worker with nothing in its queues or hands has told the master everything. */
  lemma NothingHidden(task: Task, s: Sys, w: ThreadId)
    requires WorkerOkAt(task, s, w) && s.master.plan == [] && s.workers[w].job.Idle?
    requires s.workers[w].port.inbox == [] && s.workers[w].port.others == [] && s.workers[w].port.outbox == []
    ensures !s.workers[w].port.phase.Depleting? && w in s.history.heard
    ensures forall id :: id in s.history.fates ==>
              s.history.fates[id] != Travelling(w) && s.history.fates[id] != ExecutedBy(w) && s.history.fates[id] != OrphanBy(w)
    ensures forall t :: t in Assigned(task, w) && t.body.id in s.history.fates ==> !s.history.fates[t.body.id].Fresh?
  {
    hide LogOk, TaggedFor;
    var given := Assigned(task, w);
    forall t | t in given && t.body.id in s.history.fates ensures !s.history.fates[t.body.id].Fresh? {
      var i :| 0 <= i < |given| && given[i] == t;
    }
  }

  ghost predicate NothingMoves(s: Sys) {
    && s.master.plan == []
    && forall w :: 0 <= w < |s.workers| ==>
         var p := s.workers[w].port;
         s.workers[w].job.Idle? && p.inbox == [] && p.others == [] && p.outbox == []
  }

  lemma AllResolved(task: Task, s: Sys)
    requires TaskValid(task) && Books(task, s) && NothingMoves(s)
    ensures s.history.heard == Everyone(s)
    ensures forall t :: t in task.pool ==>
              t.body.id in s.history.fates &&
              (Resolved(s.history.fates[t.body.id]) <==> Away(s.history.fates[t.body.id]))
  {
    forall w | 0 <= w < |s.workers| ensures w in s.history.heard {
      NothingHidden(task, s, w);
    }
    forall t | t in task.pool
      ensures t.body.id in s.history.fates && (Resolved(s.history.fates[t.body.id]) <==> Away(s.history.fates[t.body.id]))
    {
      PlaceOf(task, s, t);
    }
  }

  lemma PlaceOf(task: Task, s: Sys, t: Transaction)
    requires TaskValid(task) && Books(task, s) && NothingMoves(s) && t in task.pool
    ensures t.body.id in s.history.fates && (Resolved(s.history.fates[t.body.id]) <==> Away(s.history.fates[t.body.id]))
  {
    hide WorkerOk, NothingMoves, CountersOk, Quiet;
    assert Contains(task.pool, t.body.id);
    var f := s.history.fates[t.body.id];
    match f
    case Fresh =>
      TaggedComplete(task.pool, t.tag.worker, t);
      Nothing(task, s, t.tag.worker);
    case Travelling(w) => Nothing(task, s, w);
    case ExecutedBy(w) => Nothing(task, s, w);
    case OrphanBy(w) => Nothing(task, s, w);
    case _ =>
  }

  lemma Nothing(task: Task, s: Sys, w: ThreadId)
    requires Books(task, s) && NothingMoves(s) && w < task.workers
    ensures forall id :: id in s.history.fates ==>
              s.history.fates[id] != Travelling(w) && s.history.fates[id] != ExecutedBy(w) && s.history.fates[id] != OrphanBy(w)
    ensures forall t :: t in Assigned(task, w) && t.body.id in s.history.fates ==> !s.history.fates[t.body.id].Fresh?
  {
    hide WorkerOk, PoolOk, CountersOk, Quiet;
    WorkerOf(task, s, w);
    NothingHidden(task, s, w);
  }

  lemma CanBreak(task: Task, s: Sys)
    requires TaskValid(task) && Books(task, s) && NothingMoves(s) && !s.master.closing
    ensures Ready(s, MasterBreak)
  {
    hide WorkerOk, PoolOk, Keep, TotalOf, Quiet;
    AllResolved(task, s);
    KeepAlike(task.pool, s.history.fates, Resolved, Away);
  }

  /** Until the master is done, something can be done. */
  lemma SomethingReady(task: Task, s: Sys) returns (l: Label)
    requires TaskValid(task) && Books(task, s) && !Finished(s)
    ensures Ready(s, l)
  {
    hide Books, TaskValid, WorkerOk;
    BasicsOf(task, s);
    if w :| 0 <= w < |s.workers| && s.workers[w].job.Busy? {
      l := NextOf(w, s.workers[w].job.stage);
    } else if s.master.plan != [] {
      l := MasterSend;
    } else if w :| 0 <= w < |s.workers| && s.workers[w].port.inbox != [] {
      WorkerOf(task, s, w);
      IdleWorkerReceives(task, s, w);
      l := Receive(w);
    } else if w :| 0 <= w < |s.workers| && s.workers[w].port.others != [] {
      WorkerOf(task, s, w);
      ForwardedServed(task, s, w);
      l := ReceiveOther(w, 0);
    } else if s.master.closing {
      l := MasterOrphan;
    } else if w :| 0 <= w < |s.workers| && s.workers[w].port.outbox != [] {
      l := MasterReceive(w);
    } else {
      CanBreak(task, s);
      l := MasterBreak;
    }
  }

  // ---------------------------------------------------------------------------
  // Whole schedules.

  /** Where in the schedule a label could be taken when its turn came. */
  ghost function Taken(s: Sys, schedule: seq<Label>): (r: set<nat>)
    ensures forall n: nat :: n in r <==> n < |schedule| && Ready(ApplyAll(s, schedule[..n]), schedule[n])
  {
    set n: nat | n < |schedule| && Ready(ApplyAll(s, schedule[..n]), schedule[n])
  }

  lemma TakenNext(s: Sys, before: seq<Label>, l: Label)
    ensures |Taken(s, before + [l])| == |Taken(s, before)| + if Ready(ApplyAll(s, before), l) then 1 else 0
  {
    hide ApplyAll, Ready;
    var all := before + [l];
    forall n: nat | n < |before| ensures all[..n] == before[..n] && all[n] == before[n] {
    }
    assert all[..|before|] == before;
    assert Taken(s, all) == Taken(s, before) + if Ready(ApplyAll(s, before), l) then {|before|} else {};
  }

  /** A bound on the steps of a task: linear in the accesses its transactions can make, and in the workers. */
  function TaskCost(task: Task): nat {
    Sum(task.pool, (t: Transaction) => 4 * Steps(t) + 9) + 5 * task.workers + 1
  }

  lemma {:induction false} AssignmentsCost(txs: seq<Transaction>)
    requires forall t :: t in txs ==> t.tag.DoneBy?
    ensures Sum(Assignments(txs), SendCost) == Sum(txs, (t: Transaction) => 4 * Steps(t) + 9)
  {
    if txs != [] {
      var init, t := txs[..|txs| - 1], txs[|txs| - 1];
      assert t in txs && txs == init + [t];
      AssignmentsCost(init);
      SumSnoc(Assignments(init), Send(t.tag.worker, Assignment(t)), SendCost);
      SumSnoc(init, t, (t: Transaction) => 4 * Steps(t) + 9);
    }
  }

  lemma {:induction false} NoWorkYet(ws: seq<Worker>)
    requires forall w :: 0 <= w < |ws| ==> ws[w] == Worker(NEW_PORT, Idle)
    ensures Sum(ws, WorkerCost) == 0
  {
    if ws != [] {
      NoWorkYet(ws[..|ws| - 1]);
    }
  }

  lemma InitCost(task: Task)
    requires TaskValid(task)
    ensures Measure(Init(task)) == TaskCost(task)
  {
    hide Sum, Assignments, Broadcast;
    var s := Init(task);
    NoWorkYet(s.workers);
    AssignmentsCost(task.pool);
    BroadcastCost(task.workers, DistributionDone);
    SumConcat(Assignments(task.pool), Broadcast(task.workers, DistributionDone), SendCost);
  }

  /**
    Wait-free: whatever the schedule, at most `TaskCost` labels have an effect; nothing is
    ever waited for.
   */
  lemma {:induction false} StepsBounded(task: Task, schedule: seq<Label>, inv: Store -> bool)
    requires TaskValid(task) && TaskSafe(task, inv)
    ensures |Taken(Init(task), schedule)| + Measure(ApplyAll(Init(task), schedule)) <= TaskCost(task)
  {
    hide TaskValid, TaskSafe, Inv, Books, Apply, Ready, Measure, TaskCost, Init;
    if schedule == [] {
      InitCost(task);
      assert Taken(Init(task), schedule) == {};
    } else {
      var before, l := schedule[..|schedule| - 1], schedule[|schedule| - 1];
      assert schedule == before + [l];
      TakenNext(Init(task), before, l);
      ApplyAllSnoc(Init(task), before, l);
      NotReadyStays(ApplyAll(Init(task), before), l);
      StepsBounded(task, before, inv);
      ReachableInv(task, before, inv);
      var s := ApplyAll(Init(task), before);
      if Ready(s, l) {
        StepDecreases(task, s, l, inv);
      }
    }
  }

  lemma NotReadyStays(s: Sys, l: Label)
    ensures !Ready(s, l) ==> Apply(s, l) == s
  {
  }

  /** Until the master returns, some label has an effect. */
  lemma NeverStuck(task: Task, schedule: seq<Label>, inv: Store -> bool)
    requires TaskValid(task) && TaskSafe(task, inv)
    ensures !Finished(ApplyAll(Init(task), schedule)) ==> exists l :: Ready(ApplyAll(Init(task), schedule), l)
  {
    hide ApplyAll, Finished, Ready, Books;
    ReachableInv(task, schedule, inv);
    if !Finished(ApplyAll(Init(task), schedule)) {
      var l := SomethingReady(task, ApplyAll(Init(task), schedule));
    }
  }

  lemma ApplyAllSnoc(s: Sys, schedule: seq<Label>, l: Label)
    ensures ApplyAll(s, schedule + [l]) == Apply(ApplyAll(s, schedule), l)
  {
    assert (schedule + [l])[..|schedule|] == schedule;
  }

  /** Every run, however far it has got, can be brought to its end, in no more steps than the work left. */
  lemma {:induction false} CanFinish(task: Task, schedule: seq<Label>, inv: Store -> bool) returns (more: seq<Label>)
    requires TaskValid(task) && TaskSafe(task, inv)
    ensures Finished(ApplyAll(Init(task), schedule + more))
    ensures |more| <= Measure(ApplyAll(Init(task), schedule))
    decreases Measure(ApplyAll(Init(task), schedule))
  {
    hide ApplyAll, Finished, Ready, Books, Measure, Apply, TaskValid, TaskSafe;
    var s := ApplyAll(Init(task), schedule);
    if Finished(s) {
      more := [];
      assert schedule + [] == schedule;
    } else {
      ReachableInv(task, schedule, inv);
      var l := SomethingReady(task, s);
      StepDecreases(task, s, l, inv);
      ApplyAllSnoc(Init(task), schedule, l);
      var rest := CanFinish(task, schedule + [l], inv);
      more := [l] + rest;
      assert schedule + more == schedule + [l] + rest;
    }
  }
}
