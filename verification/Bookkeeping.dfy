// What the queues, pools, counters and fates of a run have to do with each other,
// in every state a schedule can lead to.
module Bookkeeping {
  import opened Storage
  import opened Program
  import opened Transactions
  import opened Protocol
  import opened Sums
  import opened Sequences

  predicate IsLocal(f: Fate) { f.Local? }

  /** Its first worker did not execute it. */
  predicate Away(f: Fate) { !f.Fresh? && !f.Local? }

  /** The master has settled where it goes: the end of the pool, or the orphans. */
  predicate Resolved(f: Fate) { f.Moved? || f.Orphaned? }

  predicate Unresolved(f: Fate) { !Resolved(f) }

  // ---------------------------------------------------------------------------
  // One worker.

  /** The transactions `w` was given, in order. */
  function Assigned(task: Task, w: ThreadId): seq<Transaction> {
    TaggedFor(task.pool, w)
  }

  function Waiting(plan: seq<Send>, w: ThreadId): seq<ToWorker> {
    if plan == [] then []
    else (if plan[0].to == w then [plan[0].message] else []) + Waiting(plan[1..], w)
  }

  function Processed(p: Port): nat {
    p.executed + p.forwarded
  }

  predicate BusyFirst(j: Job) { j.Busy? && j.tx.status.Initial? }

  predicate BusyAgain(j: Job) { j.Busy? && j.tx.status.Forwarded? }

  function Script(txs: seq<Transaction>, n: nat): seq<ToWorker>
    requires n <= |txs|
  {
    seq(|txs| - n, i requires 0 <= i < |txs| - n => Assignment(txs[n + i]))
  }

  /** What the worker has still to receive is exactly what it was given and has not processed. */
  ghost predicate InboxOk(given: seq<Transaction>, fates: map<nat, Fate>, waiting: seq<ToWorker>, closing: bool, p: Port, j: Job) {
    var n := Processed(p);
    && n <= |given|
    && (forall i :: 0 <= i < |given| ==>
          given[i].body.id in fates && (fates[given[i].body.id].Fresh? <==> n <= i))
    && (BusyFirst(j) ==> p.phase.Depleting? && n < |given| && j.tx == given[n])
    && (BusyAgain(j) ==> p.phase.Serving?)
    && match p.phase
       case Depleting =>
         !closing && p.inbox + waiting == Script(given, if BusyFirst(j) then n + 1 else n) + [DistributionDone]
       case Serving => n == |given| && p.inbox + waiting == if closing then [TaskDone] else []
       case Stopped => n == |given| && closing && p.inbox + waiting == [] && j.Idle?
  }

  /** The transactions forwarded to `w` are in its queue, or in its hands, once. */
  ghost predicate OthersOk(pool: seq<Transaction>, fates: map<nat, Fate>, w: ThreadId, p: Port, j: Job) {
    && (forall t :: t in p.others ==> ForwardedTo(pool, fates, w, t))
    && Unique(p.others)
    && (BusyAgain(j) ==> ForwardedTo(pool, fates, w, j.tx.(status := Initial)) && !Contains(p.others, j.tx.body.id))
    && (forall id :: id in fates && fates[id] == Travelling(w) ==>
          Contains(p.others, id) || (BusyAgain(j) && j.tx.body.id == id))
  }

  ghost predicate ForwardedTo(pool: seq<Transaction>, fates: map<nat, Fate>, w: ThreadId, t: Transaction) {
    t in pool && t.tag != DoneBy(w) && t.body.id in fates && fates[t.body.id] == Travelling(w)
  }

  ghost predicate MessageOk(fates: map<nat, Fate>, w: ThreadId, p: Port, m: ToMaster) {
    match m
    case AuthoringReport(e, f) => e == p.executed && f == p.forwarded
    case WorkerExecuted(id) => id in fates && fates[id] == ExecutedBy(w)
    case WorkerOrphan(id) => id in fates && fates[id] == OrphanBy(w)
  }

  ghost predicate Distinct(ms: seq<ToMaster>) {
    forall i, j :: 0 <= i < j < |ms| ==> ms[i] != ms[j]
  }

  /** What `w` has told the master and the master has not heard. */
  ghost predicate OutboxOk(fates: map<nat, Fate>, heard: set<ThreadId>, w: ThreadId, p: Port) {
    && (forall m :: m in p.outbox ==> MessageOk(fates, w, p, m))
    && Distinct(p.outbox)
    && (forall id :: id in fates && fates[id] == ExecutedBy(w) ==> WorkerExecuted(id) in p.outbox)
    && (forall id :: id in fates && fates[id] == OrphanBy(w) ==> WorkerOrphan(id) in p.outbox)
    && (AuthoringReport(p.executed, p.forwarded) in p.outbox <==> !p.phase.Depleting? && w !in heard)
    && (w in heard ==> !p.phase.Depleting?)
  }

  function ExecutedIds(ms: seq<ToMaster>): seq<nat> {
    if ms == [] then []
    else
      var init := ExecutedIds(ms[..|ms| - 1]);
      if ms[|ms| - 1].WorkerExecuted? then init + [ms[|ms| - 1].id] else init
  }

  function BodyIds(bs: seq<Body>): (r: seq<nat>)
    ensures |r| == |bs| && forall i :: 0 <= i < |bs| ==> r[i] == bs[i].id
  {
    seq(|bs|, i requires 0 <= i < |bs| => bs[i].id)
  }

  /** The worker executed its own transactions in their order, then forwarded ones in the order it reports them. */
  ghost predicate LogOk(given: seq<Transaction>, pool: seq<Transaction>, fates: map<nat, Fate>, moved: seq<Transaction>, w: ThreadId, p: Port) {
    && Processed(p) <= |given|
    && p.executed <= |p.log|
    && (p.phase.Depleting? ==> p.executed == |p.log|)
    && p.log[..p.executed] == Bodies(Keep(given[..Processed(p)], fates, IsLocal))
    && BodyIds(p.log[p.executed..]) == Ids(TaggedFor(moved, w)) + ExecutedIds(p.outbox)
    && (forall b :: b in p.log ==> b in Bodies(pool))
  }

  ghost predicate WorkerOk(task: Task, s: Sys, w: ThreadId)
    requires w < |s.workers|
  {
    var p, j := s.workers[w].port, s.workers[w].job;
    && InboxOk(Assigned(task, w), s.history.fates, Waiting(s.master.plan, w), s.master.closing, p, j)
    && OthersOk(task.pool, s.history.fates, w, p, j)
    && OutboxOk(s.history.fates, s.history.heard, w, p)
    && LogOk(Assigned(task, w), task.pool, s.history.fates, s.history.moved, w, p)
  }

  // ---------------------------------------------------------------------------
  // The master.

  /** What a worker contributes to the sum of `f` over the workers in `who`. */
  function Share(ws: seq<Worker>, who: set<ThreadId>, f: Port -> nat, w: ThreadId): nat
    requires w < |ws|
  {
    if w in who then f(ws[w].port) else 0
  }

  function Shares(ws: seq<Worker>, who: set<ThreadId>, f: Port -> nat): (r: seq<nat>)
    ensures |r| == |ws| && forall w :: 0 <= w < |r| ==> r[w] == Share(ws, who, f, w)
  {
    seq(|ws|, w requires 0 <= w < |ws| => Share(ws, who, f, w))
  }

  function TotalOf(ws: seq<Worker>, who: set<ThreadId>, f: Port -> nat): nat {
    Total(Shares(ws, who, f))
  }

  function ForwardedOf(p: Port): nat { p.forwarded }

  function ExecutedOf(p: Port): nat { p.executed }

  function UpTo(n: nat): (r: set<nat>)
    ensures forall i :: i in r <==> 0 <= i < n
    ensures |r| == n
  {
    if n == 0 then {} else UpTo(n - 1) + {n - 1}
  }

  function Everyone(s: Sys): set<ThreadId> {
    UpTo(|s.workers|)
  }

  ghost predicate FateOk(workers: nat, f: Fate) {
    match f
    case Travelling(w) => w < workers
    case ExecutedBy(w) => w < workers
    case OrphanBy(w) => w < workers
    case Moved(w) => w < workers
    case _ => true
  }

  ghost predicate FatesOk(task: Task, fates: map<nat, Fate>) {
    && (forall id :: id in fates <==> Contains(task.pool, id))
    && (forall id :: id in fates ==> FateOk(task.workers, fates[id]))
    && (forall t :: t in task.pool && t.body.id in fates && fates[t.body.id].ExecutedBy? ==>
          t.tag != DoneBy(fates[t.body.id].worker))
  }

  ghost predicate MovedOk(pool: seq<Transaction>, fates: map<nat, Fate>, moved: seq<Transaction>) {
    && (forall t :: t in moved ==>
          t.body in Bodies(pool) && t.tag.DoneBy? && t.body.id in fates && fates[t.body.id] == Moved(t.tag.worker))
    && Unique(moved)
  }

  ghost predicate OrphansOk(pool: seq<Transaction>, fates: map<nat, Fate>, orphans: seq<Transaction>) {
    && (forall t :: t in orphans ==>
          t.body in Bodies(pool) && t.tag.OrphanTag? && t.body.id in fates && fates[t.body.id] == Orphaned)
    && Unique(orphans)
  }

  ghost predicate PoolOk(task: Task, s: Sys) {
    var fates, moved := s.history.fates, s.history.moved;
    && FatesOk(task, fates)
    && s.master.pool == Keep(task.pool, fates, Unresolved) + moved
    && MovedOk(task.pool, fates, moved)
    && OrphansOk(task.pool, fates, s.master.orphans)
  }

  ghost predicate CountersOk(task: Task, s: Sys) {
    var m, h := s.master, s.history;
    && |h.moved| == m.executedLocal
    && |h.moved| + |m.orphans| == |Keep(task.pool, h.fates, Resolved)|
    && h.heard <= Everyone(s) && |h.heard| == m.reported
    && m.forwarded == TotalOf(s.workers, h.heard, ForwardedOf)
    && m.executedWorkers == TotalOf(s.workers, h.heard, ExecutedOf)
    && TotalOf(s.workers, Everyone(s), ForwardedOf) == |Keep(task.pool, h.fates, Away)|
    && TotalOf(s.workers, Everyone(s), ExecutedOf) == |Keep(task.pool, h.fates, IsLocal)|
  }

  /** No transaction is in any queue or in any worker's hands. */
  ghost predicate Quiet(task: Task, s: Sys) {
    && (forall w :: 0 <= w < |s.workers| ==>
          s.workers[w].job.Idle? && s.workers[w].port.others == [] && s.workers[w].port.outbox == [] &&
          !s.workers[w].port.phase.Depleting?)
    && (forall id :: id in s.history.fates ==> s.history.fates[id].Local? || Resolved(s.history.fates[id]))
    && s.history.heard == Everyone(s)
  }

  ghost predicate Basics(task: Task, s: Sys) {
    && !s.panicked
    && |s.workers| == task.workers
    && (forall i :: 0 <= i < |s.master.plan| ==> s.master.plan[i].to < task.workers)
    && (s.master.closing ==> Quiet(task, s))
    && (!s.master.closing ==> s.master.played == 0)
    && s.master.played <= |s.master.orphans|
  }

  ghost predicate Books(task: Task, s: Sys) {
    && Basics(task, s)
    && (forall w :: 0 <= w < |s.workers| ==> WorkerOk(task, s, w))
    && PoolOk(task, s)
    && CountersOk(task, s)
  }
}
