// Receiving keeps the books: assignments from the master, transactions forwarded by
// other workers, and the reports the master hears.
module BooksReceive {
  import opened Storage
  import opened TaintState
  import opened Program
  import opened Dispatch
  import opened Transactions
  import opened Protocol
  import opened Sequences
  import opened Bookkeeping
  import opened Undisturbed
  import opened BooksKept

  /** The head of an inbox that still follows the script. */
  lemma ScriptHead(given: seq<Transaction>, n: nat, inbox: seq<ToWorker>, waiting: seq<ToWorker>)
    requires n <= |given| && inbox != [] && inbox + waiting == Script(given, n) + [DistributionDone]
    ensures n < |given| ==> inbox[0] == Assignment(given[n]) &&
                            inbox[1..] + waiting == Script(given, n + 1) + [DistributionDone]
    ensures n == |given| ==> inbox[0] == DistributionDone && inbox[1..] + waiting == []
  {
    var all := inbox + waiting;
    assert inbox[0] == all[0] && inbox[1..] + waiting == all[1..];
    if n < |given| {
      assert Script(given, n) == [Assignment(given[n])] + Script(given, n + 1);
    }
  }

  // ---------------------------------------------------------------------------
  // From the master.

  lemma TakesAssignment(given: seq<Transaction>, fates: map<nat, Fate>, waiting: seq<ToWorker>, closing: bool, p: Port, stage: Stage)
    requires InboxOk(given, fates, waiting, closing, p, Idle) && p.phase.Depleting?
    requires p.inbox != [] && p.inbox[0].Assignment? && forall t :: t in given ==> t.status.Initial?
    ensures InboxOk(given, fates, waiting, closing, p.(inbox := p.inbox[1..]), Busy(p.inbox[0].tx, stage))
  {
    ScriptHead(given, Processed(p), p.inbox, waiting);
    assert Processed(p) < |given|;
    assert given[Processed(p)] in given;
  }

  lemma TakesDistributionDone(given: seq<Transaction>, fates: map<nat, Fate>, waiting: seq<ToWorker>, closing: bool, p: Port, q: Port)
    requires InboxOk(given, fates, waiting, closing, p, Idle) && p.phase.Depleting?
    requires p.inbox != [] && !p.inbox[0].Assignment?
    requires q.inbox == p.inbox[1..] && q.phase.Serving? && q.executed == p.executed && q.forwarded == p.forwarded
    ensures p.inbox[0].DistributionDone? && InboxOk(given, fates, waiting, closing, q, Idle)
  {
    ScriptHead(given, Processed(p), p.inbox, waiting);
  }

  lemma Reports(fates: map<nat, Fate>, heard: set<ThreadId>, w: ThreadId, p: Port, q: Port)
    requires OutboxOk(fates, heard, w, p) && p.phase.Depleting? && !q.phase.Depleting?
    requires q.outbox == p.outbox + [AuthoringReport(p.executed, p.forwarded)]
    requires q.executed == p.executed && q.forwarded == p.forwarded
    ensures OutboxOk(fates, heard, w, q)
  {
    var m := AuthoringReport(p.executed, p.forwarded);
    assert m in q.outbox;
    forall x | x in q.outbox ensures MessageOk(fates, w, q, x) {
      assert x in p.outbox || x == m;
    }
  }

  lemma TakesTaskDone(given: seq<Transaction>, fates: map<nat, Fate>, waiting: seq<ToWorker>, closing: bool, p: Port)
    requires InboxOk(given, fates, waiting, closing, p, Idle) && p.phase.Serving? && p.inbox != []
    ensures p.inbox[0].TaskDone? && closing
    ensures InboxOk(given, fates, waiting, closing, p.(inbox := p.inbox[1..], phase := Stopped), Idle)
  {
    assert (p.inbox + waiting)[0] == p.inbox[0];
    assert p.inbox[1..] + waiting == (p.inbox + waiting)[1..];
  }

  lemma ReceiveWorker(task: Task, s: Sys, w: ThreadId)
    requires TaskValid(task) && w < |s.workers| && Ready(s, Receive(w)) && WorkerOk(task, s, w)
    ensures var s' := DoReceive(s, w);
            !s'.panicked && |s'.workers| == |s.workers| && WorkerOk(task, s', w)
  {
    hide InboxOk, OthersOk, OutboxOk, LogOk;
    var p := s.workers[w].port;
    var given, fates, heard := Assigned(task, w), s.history.fates, s.history.heard;
    var waiting, closing := Waiting(s.master.plan, w), s.master.closing;
    if p.phase.Depleting? && p.inbox[0].Assignment? {
      var q, j := p.(inbox := p.inbox[1..]), Busy(p.inbox[0].tx, Start(p.inbox[0].tx.body.call));
      TakesAssignment(given, fates, waiting, closing, p, j.stage);
      InitialInHand(given, fates, waiting, closing, p);
      SameReports(fates, heard, w, p, q);
      SameLog(given, task.pool, fates, s.history.moved, w, p, q);
      SameOthers(task.pool, fates, w, p, Idle, q, j);
    } else if p.phase.Depleting? {
      var m := AuthoringReport(p.executed, p.forwarded);
      var q := p.(inbox := p.inbox[1..], phase := Serving, outbox := p.outbox + [m]);
      TakesDistributionDone(given, fates, waiting, closing, p, q);
      Reports(fates, heard, w, p, q);
      ReportedLog(given, task.pool, fates, s.history.moved, w, p, q);
      SameOthers(task.pool, fates, w, p, Idle, q, Idle);
    } else {
      var q := p.(inbox := p.inbox[1..], phase := Stopped);
      TakesTaskDone(given, fates, waiting, closing, p);
      SameReports(fates, heard, w, p, q);
      SameLog(given, task.pool, fates, s.history.moved, w, p, q);
      SameOthers(task.pool, fates, w, p, Idle, q, Idle);
    }
  }

  lemma InitialInHand(given: seq<Transaction>, fates: map<nat, Fate>, waiting: seq<ToWorker>, closing: bool, p: Port)
    requires InboxOk(given, fates, waiting, closing, p, Idle) && p.phase.Depleting?
    requires p.inbox != [] && p.inbox[0].Assignment? && forall t :: t in given ==> t.status.Initial?
    ensures p.inbox[0].tx.status.Initial?
  {
    ScriptHead(given, Processed(p), p.inbox, waiting);
  }

  lemma ReportedLog(given: seq<Transaction>, pool: seq<Transaction>, fates: map<nat, Fate>, moved: seq<Transaction>, w: ThreadId, p: Port, q: Port)
    requires LogOk(given, pool, fates, moved, w, p) && !q.phase.Depleting?
    requires q.outbox == p.outbox + [AuthoringReport(p.executed, p.forwarded)]
    requires q.executed == p.executed && q.forwarded == p.forwarded && q.log == p.log
    ensures LogOk(given, pool, fates, moved, w, q)
  {
    ExecutedIdsEnds(p.outbox, AuthoringReport(p.executed, p.forwarded));
  }

  /** A step of worker `w` that leaves fates, master and the other workers alone. */
  lemma WorkerStepBooks(task: Task, s: Sys, s': Sys, w: ThreadId)
    requires Books(task, s) && w < |s.workers| == |s'.workers| && !s'.panicked
    requires s' == s.(workers := s.workers[w := s'.workers[w]])
    requires s'.workers[w].port.executed == s.workers[w].port.executed
    requires s'.workers[w].port.forwarded == s.workers[w].port.forwarded
    requires WorkerOk(task, s', w) && (s.master.closing ==> Quiet(task, s'))
    ensures Books(task, s')
  {
    hide WorkerOk, PoolOk, CountersOk;
    CountersKept(task, s, s', w, s'.workers[w]);
    PoolKept(task, s, s');
    forall v | 0 <= v < |s.workers| ensures WorkerOk(task, s', v) {
      if v != w {
        JobWorker(task, s, s', v);
      }
    }
  }

  lemma ReceiveBooks(task: Task, s: Sys, w: ThreadId)
    requires TaskValid(task) && Books(task, s) && Ready(s, Receive(w))
    ensures Books(task, DoReceive(s, w))
  {
    hide WorkerOk, PoolOk, CountersOk;
    ReceiveWorker(task, s, w);
    WorkerStepBooks(task, s, DoReceive(s, w), w);
  }

  // ---------------------------------------------------------------------------
  // From another worker.

  lemma WithoutFacts<T>(xs: seq<T>, i: nat)
    requires i < |xs|
    ensures forall x :: x in Without(xs, i) ==> x in xs
    ensures forall k :: 0 <= k < |xs| && k != i ==> xs[k] in Without(xs, i)
  {
    forall k | 0 <= k < |xs| && k != i ensures xs[k] in Without(xs, i) {
      assert xs[k] == Without(xs, i)[if k < i then k else k - 1];
    }
  }

  lemma TakesForwarded(pool: seq<Transaction>, fates: map<nat, Fate>, w: ThreadId, p: Port, i: nat, q: Port, stage: Stage)
    requires OthersOk(pool, fates, w, p, Idle) && i < |p.others| && q.others == Without(p.others, i)
    requires forall t :: t in pool ==> t.status.Initial?
    ensures OthersOk(pool, fates, w, q, Busy(p.others[i].(status := Forwarded), stage))
  {
    var t := p.others[i];
    var j := Busy(t.(status := Forwarded), stage);
    WithoutFacts(p.others, i);
    assert t in p.others;
    assert j.tx.(status := Initial) == t;
    assert !Contains(q.others, t.body.id);
    forall id | id in fates && fates[id] == Travelling(w)
      ensures Contains(q.others, id) || (BusyAgain(j) && j.tx.body.id == id)
    {
      StillContains(p.others, i, id);
    }
  }

  lemma StillContains(txs: seq<Transaction>, i: nat, id: nat)
    requires i < |txs| && Contains(txs, id)
    ensures txs[i].body.id == id || Contains(Without(txs, i), id)
  {
    var k := Position(txs, id);
    if k != i {
      assert Without(txs, i)[if k < i then k else k - 1].body.id == id;
    }
  }

  lemma ReceiveOtherBooks(task: Task, s: Sys, w: ThreadId, i: nat)
    requires TaskValid(task) && Books(task, s) && Ready(s, ReceiveOther(w, i))
    ensures Books(task, DoReceiveOther(s, w, i))
  {
    hide PoolOk, CountersOk, LogOk, OutboxOk, OthersOk;
    var s' := DoReceiveOther(s, w, i);
    var p, q := s.workers[w].port, s'.workers[w].port;
    assert WorkerOk(task, s, w);
    assert !s.master.closing;
    TakesForwarded(task.pool, s.history.fates, w, p, i, q, s'.workers[w].job.stage);
    assert OutboxOk(s.history.fates, s.history.heard, w, q) by { SameReports(s.history.fates, s.history.heard, w, p, q); }
    SameLog(Assigned(task, w), task.pool, s.history.fates, s.history.moved, w, p, q);
    assert WorkerOk(task, s', w);
    WorkerStepBooks(task, s, s', w);
  }
}
