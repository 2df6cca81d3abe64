// The master hearing a message keeps the books, and every panic site it passes is unreachable.
module BooksHear {
  import opened Storage
  import opened Program
  import opened Transactions
  import opened Protocol
  import opened Sequences
  import opened Bookkeeping
  import opened Undisturbed
  import opened BooksKept
  import opened BooksReceive
  import opened BooksSettle

  lemma DistinctTail(ms: seq<ToMaster>)
    requires Distinct(ms) && ms != []
    ensures Distinct(ms[1..]) && ms[0] !in ms[1..] && ms[0] in ms
    ensures forall m :: m in ms[1..] ==> m in ms
    ensures forall m :: m in ms && m != ms[0] ==> m in ms[1..]
  {
    assert ms == [ms[0]] + ms[1..];
  }

  /** The worker whose message the master hears. */
  function Listened(s: Sys, w: ThreadId): Sys
    requires w < |s.workers| && s.workers[w].port.outbox != []
  {
    SetPort(s, w, s.workers[w].port.(outbox := s.workers[w].port.outbox[1..]))
  }

  // ---------------------------------------------------------------------------
  // A report.

  lemma ReportHeardOutbox(fates: map<nat, Fate>, heard: set<ThreadId>, w: ThreadId, p: Port, q: Port)
    requires OutboxOk(fates, heard, w, p) && p.outbox != [] && p.outbox[0].AuthoringReport?
    requires q == p.(outbox := p.outbox[1..])
    ensures w !in heard && p.outbox[0] == AuthoringReport(p.executed, p.forwarded)
    ensures OutboxOk(fates, heard + {w}, w, q)
  {
    DistinctTail(p.outbox);
    assert MessageOk(fates, w, p, p.outbox[0]);
    forall m | m in q.outbox ensures MessageOk(fates, w, q, m) {
      assert MessageOk(fates, w, p, m);
    }
  }

  lemma HeardElsewhere(task: Task, s: Sys, s': Sys, w: ThreadId, v: ThreadId)
    requires v < |s.workers| == |s'.workers| && v != w && s'.workers[v] == s.workers[v] && WorkerOk(task, s, v)
    requires s'.history == s.history.(heard := s.history.heard + {w})
    requires s'.master.plan == s.master.plan && s'.master.closing == s.master.closing
    ensures WorkerOk(task, s', v)
  {
  }

  lemma ReportHeardWorker(task: Task, s: Sys, s': Sys, w: ThreadId)
    requires w < |s.workers| == |s'.workers| && WorkerOk(task, s, w)
    requires s.workers[w].port.outbox != [] && s.workers[w].port.outbox[0].AuthoringReport?
    requires s'.workers[w] == Listened(s, w).workers[w]
    requires s'.history == s.history.(heard := s.history.heard + {w})
    requires s'.master.plan == s.master.plan && s'.master.closing == s.master.closing
    ensures WorkerOk(task, s', w)
  {
    hide InboxOk, OthersOk, OutboxOk, LogOk;
    var p, q := s.workers[w].port, s'.workers[w].port;
    ReportHeardOutbox(s.history.fates, s.history.heard, w, p, q);
    ExecutedIdsEnds(p.outbox, p.outbox[0]);
    OutboxShortened(Assigned(task, w), task.pool, s, w, p, q);
  }

  /** Inbox, queue and log do not depend on the part of the outbox the master has heard. */
  lemma OutboxShortened(given: seq<Transaction>, pool: seq<Transaction>, s: Sys, w: ThreadId, p: Port, q: Port)
    requires w < |s.workers| && q == p.(outbox := q.outbox) && ExecutedIds(q.outbox) == ExecutedIds(p.outbox)
    ensures InboxOk(given, s.history.fates, Waiting(s.master.plan, w), s.master.closing, p, s.workers[w].job) ==>
            InboxOk(given, s.history.fates, Waiting(s.master.plan, w), s.master.closing, q, s.workers[w].job)
    ensures OthersOk(pool, s.history.fates, w, p, s.workers[w].job) ==> OthersOk(pool, s.history.fates, w, q, s.workers[w].job)
    ensures LogOk(given, pool, s.history.fates, s.history.moved, w, p) ==> LogOk(given, pool, s.history.fates, s.history.moved, w, q)
  {
  }

  lemma ReportHeardCounters(task: Task, s: Sys, w: ThreadId, e: nat, f: nat)
    requires CountersOk(task, s) && w < |s.workers| && s.workers[w].port.outbox != [] && w !in s.history.heard
    requires e == s.workers[w].port.executed && f == s.workers[w].port.forwarded
    ensures CountersOk(task, HearReport(Listened(s, w), w, e, f))
  {
    hide TotalOf, Keep;
    var s1 := Listened(s, w);
    CountersKept(task, s, s1, w, s1.workers[w]);
    TotalAdd(s1.workers, s.history.heard, ForwardedOf, w);
    TotalAdd(s1.workers, s.history.heard, ExecutedOf, w);
  }

  lemma HearReportBooks(task: Task, s: Sys, w: ThreadId)
    requires TaskValid(task) && Books(task, s) && w < |s.workers| && !s.master.closing
    requires s.workers[w].port.outbox != [] && s.workers[w].port.outbox[0].AuthoringReport?
    ensures var m := s.workers[w].port.outbox[0];
            Books(task, HearReport(Listened(s, w), w, m.executed, m.forwarded))
  {
    var p := s.workers[w].port;
    assert WorkerOk(task, s, w);
    ReportHeardOutbox(s.history.fates, s.history.heard, w, p, p.(outbox := p.outbox[1..]));
    var m := p.outbox[0];
    var s' := HearReport(Listened(s, w), w, m.executed, m.forwarded);
    ReportShape(task, s, w);
    ReportHeardWorker(task, s, s', w);
    ReportHeardCounters(task, s, w, m.executed, m.forwarded);
    forall v | 0 <= v < |s'.workers| ensures WorkerOk(task, s', v) {
      if v != w {
        HeardElsewhere(task, s, s', w, v);
      }
    }
    Balanced(task, s');
  }

  lemma ReportShape(task: Task, s: Sys, w: ThreadId)
    requires TaskValid(task) && Books(task, s) && w < |s.workers| && !s.master.closing
    requires s.workers[w].port.outbox != [] && s.workers[w].port.outbox[0].AuthoringReport?
    ensures var m := s.workers[w].port.outbox[0];
            var s' := HearReport(Listened(s, w), w, m.executed, m.forwarded);
            && |s'.workers| == |s.workers| && s'.workers[w] == Listened(s, w).workers[w]
            && (forall v :: 0 <= v < |s.workers| && v != w ==> s'.workers[v] == s.workers[v])
            && s'.history == s.history.(heard := s.history.heard + {w})
            && s'.master.plan == s.master.plan && s'.master.closing == s.master.closing
            && Basics(task, s') && PoolOk(task, s') && CountersOk(task, s)
            && (forall v :: 0 <= v < |s.workers| ==> WorkerOk(task, s, v))
  {
    hide WorkerOk, CountersOk, FatesOk, MovedOk, OrphansOk, Quiet;
  }

  // ---------------------------------------------------------------------------
  // A transaction settled: moved to the end of the pool, or put among the orphans.

  /** Where the master finds a transaction a worker tells it about. */
  lemma FoundInPool(txs: seq<Transaction>, fates: map<nat, Fate>, moved: seq<Transaction>, t: Transaction, g: Fate)
    requires Unique(txs) && t in txs && t.body.id in fates && Unresolved(fates[t.body.id]) && Resolved(g)
    ensures var pool := Keep(txs, fates, Unresolved) + moved;
            var i := Position(pool, t.body.id);
            i < |pool| && pool[i] == t &&
            Without(pool, i) == Keep(txs, fates[t.body.id := g], Unresolved) + moved
  {
    var kept := Keep(txs, fates, Unresolved);
    KeepShrinks(txs, fates, Unresolved, t, g);
    PositionPrefix(kept, moved, t.body.id);
    var i := Position(kept, t.body.id);
    assert Without(kept + moved, i) == Without(kept, i) + moved;
  }

  function SettledFate(w: ThreadId, m: ToMaster): Fate {
    if m.WorkerExecuted? then Moved(w) else Orphaned
  }

  predicate Settles(m: ToMaster) { m.WorkerExecuted? || m.WorkerOrphan? }

  lemma SettledOutbox(fates: map<nat, Fate>, heard: set<ThreadId>, w: ThreadId, p: Port, q: Port)
    requires OutboxOk(fates, heard, w, p) && p.outbox != [] && Settles(p.outbox[0])
    requires q == p.(outbox := p.outbox[1..])
    ensures var m := p.outbox[0];
            m.id in fates && fates[m.id] == (if m.WorkerExecuted? then ExecutedBy(w) else OrphanBy(w)) &&
            OutboxOk(fates[m.id := SettledFate(w, m)], heard, w, q)
  {
    var m := p.outbox[0];
    DistinctTail(p.outbox);
    assert MessageOk(fates, w, p, m);
    var fates' := fates[m.id := SettledFate(w, m)];
    forall x | x in q.outbox ensures MessageOk(fates', w, q, x) {
      assert MessageOk(fates, w, p, x);
    }
  }

  /** What the message named moves from what is still to be heard to what has been heard. */
  lemma SettledReports(p: Port, moved: seq<Transaction>, moved': seq<Transaction>, w: ThreadId)
    requires p.outbox != [] && Settles(p.outbox[0])
    requires if p.outbox[0].WorkerExecuted?
             then |moved'| == |moved| + 1 && moved' == moved + [moved'[|moved|]] &&
                  moved'[|moved|].tag == DoneBy(w) && moved'[|moved|].body.id == p.outbox[0].id
             else moved' == moved
    ensures Ids(TaggedFor(moved', w)) + ExecutedIds(p.outbox[1..]) == Ids(TaggedFor(moved, w)) + ExecutedIds(p.outbox)
  {
    hide ExecutedIds, TaggedFor;
    var m := p.outbox[0];
    ExecutedIdsEnds(p.outbox, m);
    if m.WorkerExecuted? {
      TaggedSnoc(moved, moved'[|moved|], w);
      assert Ids(TaggedFor(moved', w)) == Ids(TaggedFor(moved, w)) + [m.id];
    }
  }

  lemma SettledLog(given: seq<Transaction>, pool: seq<Transaction>, fates: map<nat, Fate>, moved: seq<Transaction>,
                   w: ThreadId, p: Port, q: Port, moved': seq<Transaction>)
    requires LogOk(given, pool, fates, moved, w, p) && p.outbox != [] && Settles(p.outbox[0])
    requires q == p.(outbox := p.outbox[1..])
    requires p.outbox[0].id in fates && Away(fates[p.outbox[0].id])
    requires if p.outbox[0].WorkerExecuted?
             then |moved'| == |moved| + 1 && moved' == moved + [moved'[|moved|]] &&
                  moved'[|moved|].tag == DoneBy(w) && moved'[|moved|].body.id == p.outbox[0].id
             else moved' == moved
    ensures LogOk(given, pool, fates[p.outbox[0].id := SettledFate(w, p.outbox[0])], moved', w, q)
  {
    hide ExecutedIds, TaggedFor, Keep;
    var m := p.outbox[0];
    KeepUndisturbed(given[..Processed(p)], fates, m.id, SettledFate(w, m));
    SettledReports(p, moved, moved', w);
  }

  lemma SettledWorker(task: Task, s: Sys, s': Sys, w: ThreadId)
    requires w < |s.workers| == |s'.workers| && WorkerOk(task, s, w)
    requires s.workers[w].port.outbox != [] && Settles(s.workers[w].port.outbox[0])
    requires s'.workers[w] == Listened(s, w).workers[w]
    requires s'.master.plan == s.master.plan && s'.master.closing == s.master.closing
    requires var m := s.workers[w].port.outbox[0];
             var moved, moved' := s.history.moved, s'.history.moved;
             && s'.history.fates == s.history.fates[m.id := SettledFate(w, m)] && s'.history.heard == s.history.heard
             && if m.WorkerExecuted?
                then |moved'| == |moved| + 1 && moved' == moved + [moved'[|moved|]] &&
                     moved'[|moved|].tag == DoneBy(w) && moved'[|moved|].body.id == m.id
                else moved' == moved
    ensures WorkerOk(task, s', w)
  {
    hide InboxOk, OthersOk, OutboxOk, LogOk;
    var p, q, j := s.workers[w].port, s'.workers[w].port, s.workers[w].job;
    var m, fates := p.outbox[0], s.history.fates;
    SettledOutbox(fates, s.history.heard, w, p, q);
    SettledLog(Assigned(task, w), task.pool, fates, s.history.moved, w, p, q, s'.history.moved);
    SettledInbox(Assigned(task, w), fates, Waiting(s.master.plan, w), s.master.closing, p, j, m.id, SettledFate(w, m), q);
    SettledOthers(task.pool, fates, w, p, j, m.id, SettledFate(w, m), q);
  }

  lemma SettledInbox(given: seq<Transaction>, fates: map<nat, Fate>, waiting: seq<ToWorker>, closing: bool,
                     p: Port, j: Job, id: nat, g: Fate, q: Port)
    requires InboxOk(given, fates, waiting, closing, p, j) && id in fates && !fates[id].Fresh? && !g.Fresh?
    requires q == p.(outbox := q.outbox)
    ensures InboxOk(given, fates[id := g], waiting, closing, q, j)
  {
  }

  lemma SettledOthers(pool: seq<Transaction>, fates: map<nat, Fate>, w: ThreadId, p: Port, j: Job, id: nat, g: Fate, q: Port)
    requires OthersOk(pool, fates, w, p, j) && id in fates && fates[id] != Travelling(w) && g != Travelling(w)
    requires q == p.(outbox := q.outbox)
    ensures OthersOk(pool, fates[id := g], w, q, j)
  {
  }

  lemma SettledCounters(task: Task, s: Sys, s': Sys, w: ThreadId, t: Transaction, g: Fate)
    requires CountersOk(task, s) && w < |s.workers| && s.workers[w].port.outbox != []
    requires Unique(task.pool) && t in task.pool && t.body.id in s.history.fates
    requires Away(s.history.fates[t.body.id]) && Unresolved(s.history.fates[t.body.id]) && Resolved(g)
    requires s'.workers == Listened(s, w).workers
    requires s'.history.fates == s.history.fates[t.body.id := g] && s'.history.heard == s.history.heard
    requires s'.master.forwarded == s.master.forwarded && s'.master.executedWorkers == s.master.executedWorkers
    requires s'.master.reported == s.master.reported
    requires |s'.history.moved| == s'.master.executedLocal
    requires |s'.history.moved| + |s'.master.orphans| == |s.history.moved| + |s.master.orphans| + 1
    ensures CountersOk(task, s')
  {
    hide TotalOf, Keep, Unique;
    TotalSame(s.workers, s'.workers, s.history.heard, ForwardedOf);
    TotalSame(s.workers, s'.workers, s.history.heard, ExecutedOf);
    TotalSame(s.workers, s'.workers, Everyone(s), ForwardedOf);
    TotalSame(s.workers, s'.workers, Everyone(s), ExecutedOf);
    var fates := s.history.fates;
    KeepGrows(task.pool, fates, Resolved, t, g);
    KeepSame(task.pool, fates, s'.history.fates, Away);
    KeepSame(task.pool, fates, s'.history.fates, IsLocal);
  }

  lemma SettledFates(task: Task, fates: map<nat, Fate>, id: nat, g: Fate)
    requires FatesOk(task, fates) && id in fates && Resolved(g) && FateOk(task.workers, g)
    ensures FatesOk(task, fates[id := g])
  {
  }

  lemma MovedMore(pool: seq<Transaction>, fates: map<nat, Fate>, moved: seq<Transaction>, w: ThreadId, t: Transaction)
    requires MovedOk(pool, fates, moved) && t in pool && t.body.id in fates && !fates[t.body.id].Moved?
    ensures MovedOk(pool, fates[t.body.id := Moved(w)], moved + [t.(tag := DoneBy(w))])
  {
    InBodies(pool, t);
    forall i | 0 <= i < |moved| ensures moved[i].body.id != t.body.id {
      assert moved[i] in moved;
    }
    forall x | x in moved + [t.(tag := DoneBy(w))] ensures x in moved || x == t.(tag := DoneBy(w)) {
    }
  }

  lemma OrphansMore(pool: seq<Transaction>, fates: map<nat, Fate>, orphans: seq<Transaction>, t: Transaction)
    requires OrphansOk(pool, fates, orphans) && t in pool && t.body.id in fates && !fates[t.body.id].Orphaned?
    ensures OrphansOk(pool, fates[t.body.id := Orphaned], orphans + [t.(tag := OrphanTag)])
  {
    InBodies(pool, t);
    forall i | 0 <= i < |orphans| ensures orphans[i].body.id != t.body.id {
      assert orphans[i] in orphans;
    }
    forall x | x in orphans + [t.(tag := OrphanTag)] ensures x in orphans || x == t.(tag := OrphanTag) {
    }
  }

  /** Neither list holds a transaction the master has not settled. */
  lemma SettledElsewhere(pool: seq<Transaction>, fates: map<nat, Fate>, moved: seq<Transaction>, orphans: seq<Transaction>, id: nat, g: Fate)
    requires MovedOk(pool, fates, moved) && OrphansOk(pool, fates, orphans) && id in fates && Unresolved(fates[id])
    ensures MovedOk(pool, fates[id := g], moved) && OrphansOk(pool, fates[id := g], orphans)
  {
  }

  // ---------------------------------------------------------------------------
  // The steps.

  /** A worker tells the master what became of a forwarded transaction: the facts the master relies on. */
  lemma ToldFacts(task: Task, s: Sys, w: ThreadId) returns (t: Transaction)
    requires TaskValid(task) && Books(task, s) && w < |s.workers|
    requires s.workers[w].port.outbox != [] && Settles(s.workers[w].port.outbox[0])
    ensures var m, fates := s.workers[w].port.outbox[0], s.history.fates;
            && t in task.pool && t.body.id == m.id && m.id in fates
            && fates[m.id] == (if m.WorkerExecuted? then ExecutedBy(w) else OrphanBy(w))
            && (m.WorkerExecuted? ==> t.tag.DoneBy? && t.tag != DoneBy(w))
  {
    hide Keep, Waiting, TaggedFor, MovedOk, OrphansOk, CountersOk, InboxOk, OthersOk, LogOk, Quiet, Unique;
    var p := s.workers[w].port;
    assert WorkerOk(task, s, w);
    SettledOutbox(s.history.fates, s.history.heard, w, p, p.(outbox := p.outbox[1..]));
    var i :| 0 <= i < |task.pool| && task.pool[i].body.id == p.outbox[0].id;
    t := task.pool[i];
  }

  /** The system once the master has settled what worker `w` told it about `t`. */
  ghost predicate SettledBy(s: Sys, s': Sys, w: ThreadId, t: Transaction)
    requires w < |s.workers| && s.workers[w].port.outbox != [] && Settles(s.workers[w].port.outbox[0])
    requires Position(s.master.pool, t.body.id) < |s.master.pool|
  {
    var m, h := s.workers[w].port.outbox[0], s.history;
    var g := SettledFate(w, m);
    var retagged := t.(tag := if m.WorkerExecuted? then DoneBy(w) else OrphanTag);
    var moved := if m.WorkerExecuted? then h.moved + [retagged] else h.moved;
    var orphans := if m.WorkerExecuted? then s.master.orphans else s.master.orphans + [retagged];
    && s'.workers == Listened(s, w).workers && s'.panicked == s.panicked
    && s'.history == h.(fates := h.fates[t.body.id := g], moved := moved)
    && s'.master.pool == Without(s.master.pool, Position(s.master.pool, t.body.id)) +
                         (if m.WorkerExecuted? then [retagged] else [])
    && s'.master == s.master.(pool := s'.master.pool, orphans := orphans,
         executedLocal := if m.WorkerExecuted? then s.master.executedLocal + 1 else s.master.executedLocal)
  }

  lemma SettlesAs(task: Task, s: Sys, w: ThreadId, t: Transaction)
    requires Ready(s, MasterReceive(w)) && TaskValid(task) && PoolOk(task, s) && Settles(s.workers[w].port.outbox[0])
    requires t in task.pool && t.body.id == s.workers[w].port.outbox[0].id && t.body.id in s.history.fates
    requires Unresolved(s.history.fates[t.body.id])
    requires s.workers[w].port.outbox[0].WorkerExecuted? ==> t.tag.DoneBy? && t.tag != DoneBy(w)
    ensures Position(s.master.pool, t.body.id) < |s.master.pool| && SettledBy(s, DoMasterReceive(s, w), w, t)
  {
    FoundInPool(task.pool, s.history.fates, s.history.moved, t, Orphaned);
    var m := s.workers[w].port.outbox[0];
    var pool := s.master.pool;
    assert DoMasterReceive(s, w) == if m.WorkerExecuted? then HearExecuted(Listened(s, w), w, m.id)
                                    else HearOrphan(Listened(s, w), m.id);
    assert Without(pool, Position(pool, t.body.id)) + [] == Without(pool, Position(pool, t.body.id));
  }

  lemma SettledPool(task: Task, s: Sys, s': Sys, w: ThreadId, t: Transaction)
    requires Unique(task.pool) && PoolOk(task, s) && w < |s.workers| == task.workers
    requires s.workers[w].port.outbox != [] && Settles(s.workers[w].port.outbox[0])
    requires t in task.pool && t.body.id in s.history.fates && Unresolved(s.history.fates[t.body.id])
    requires Position(s.master.pool, t.body.id) < |s.master.pool| && SettledBy(s, s', w, t)
    ensures PoolOk(task, s')
  {
    hide *;
    var m := s.workers[w].port.outbox[0];
    SettledFateOk(task.workers, w, m);
    PoolShape(task, s);
    FoundInPool(task.pool, s.history.fates, s.history.moved, t, SettledFate(w, m));
    SettledLists(s, s', w, t);
    SettledParts(task, s, t, w, m);
    var kept' := Keep(task.pool, s'.history.fates, Unresolved);
    if m.WorkerExecuted? {
      assert (kept' + s.history.moved) + [t.(tag := DoneBy(w))] == kept' + s'.history.moved;
    }
    PoolFrom(task, s');
  }

  lemma SettledFateOk(workers: nat, w: ThreadId, m: ToMaster)
    requires w < workers
    ensures Resolved(SettledFate(w, m)) && FateOk(workers, SettledFate(w, m))
  {
  }

  lemma PoolShape(task: Task, s: Sys)
    requires PoolOk(task, s)
    ensures s.master.pool == Keep(task.pool, s.history.fates, Unresolved) + s.history.moved
  {
  }

  /** What the step does to the lists, kept apart from why they stay right. */
  lemma SettledLists(s: Sys, s': Sys, w: ThreadId, t: Transaction)
    requires w < |s.workers| && s.workers[w].port.outbox != [] && Settles(s.workers[w].port.outbox[0])
    requires Position(s.master.pool, t.body.id) < |s.master.pool| && SettledBy(s, s', w, t)
    ensures var m, left := s.workers[w].port.outbox[0], Without(s.master.pool, Position(s.master.pool, t.body.id));
            && s'.history.fates == s.history.fates[t.body.id := SettledFate(w, m)]
            && (m.WorkerExecuted? ==>
                  s'.history.moved == s.history.moved + [t.(tag := DoneBy(w))] &&
                  s'.master.orphans == s.master.orphans && s'.master.pool == left + [t.(tag := DoneBy(w))])
            && (!m.WorkerExecuted? ==>
                  s'.history.moved == s.history.moved && s'.master.pool == left &&
                  s'.master.orphans == s.master.orphans + [t.(tag := OrphanTag)])
  {
    hide Position, Without;
  }

  lemma SettledParts(task: Task, s: Sys, t: Transaction, w: ThreadId, m: ToMaster)
    requires PoolOk(task, s) && t in task.pool && t.body.id in s.history.fates && Settles(m)
    requires Unresolved(s.history.fates[t.body.id]) && FateOk(task.workers, SettledFate(w, m))
    ensures var fates' := s.history.fates[t.body.id := SettledFate(w, m)];
            && FatesOk(task, fates')
            && (m.WorkerExecuted? ==>
                  MovedOk(task.pool, fates', s.history.moved + [t.(tag := DoneBy(w))]) &&
                  OrphansOk(task.pool, fates', s.master.orphans))
            && (!m.WorkerExecuted? ==>
                  MovedOk(task.pool, fates', s.history.moved) &&
                  OrphansOk(task.pool, fates', s.master.orphans + [t.(tag := OrphanTag)]))
  {
    hide Keep, FatesOk, MovedOk, OrphansOk;
    var fates, moved, orphans := s.history.fates, s.history.moved, s.master.orphans;
    SettledFates(task, fates, t.body.id, SettledFate(w, m));
    SettledElsewhere(task.pool, fates, moved, orphans, t.body.id, SettledFate(w, m));
    if m.WorkerExecuted? {
      MovedMore(task.pool, fates, moved, w, t);
    } else {
      OrphansMore(task.pool, fates, orphans, t);
    }
  }

  lemma PoolFrom(task: Task, s: Sys)
    requires FatesOk(task, s.history.fates)
    requires s.master.pool == Keep(task.pool, s.history.fates, Unresolved) + s.history.moved
    requires MovedOk(task.pool, s.history.fates, s.history.moved)
    requires OrphansOk(task.pool, s.history.fates, s.master.orphans)
    ensures PoolOk(task, s)
  {
  }

  lemma SettledShape(task: Task, s: Sys, s': Sys, w: ThreadId, t: Transaction)
    requires TaskValid(task) && Books(task, s) && w < |s.workers| && !s.master.closing
    requires s.workers[w].port.outbox != [] && Settles(s.workers[w].port.outbox[0])
    requires t.body.id == s.workers[w].port.outbox[0].id
    requires Position(s.master.pool, t.body.id) < |s.master.pool| && SettledBy(s, s', w, t)
    ensures |s'.workers| == |s.workers| && Basics(task, s')
    ensures forall v :: 0 <= v < |s.workers| && v != w ==> s'.workers[v] == s.workers[v]
    ensures forall v :: v != w ==> TaggedFor(s'.history.moved, v) == TaggedFor(s.history.moved, v)
    ensures s'.history.fates == s.history.fates[t.body.id := SettledFate(w, s.workers[w].port.outbox[0])]
    ensures s'.history.heard == s.history.heard
    ensures s'.master.plan == s.master.plan && s'.master.closing == s.master.closing
  {
    hide WorkerOk, CountersOk, PoolOk, Quiet, Position, Without;
    var m := s.workers[w].port.outbox[0];
    if m.WorkerExecuted? {
      forall v | v != w ensures TaggedFor(s'.history.moved, v) == TaggedFor(s.history.moved, v) {
        TaggedSnoc(s.history.moved, t.(tag := DoneBy(w)), v);
      }
    }
  }

  lemma SettledHarmless(task: Task, w: ThreadId, v: ThreadId, id: nat, m: ToMaster)
    requires v != w && Settles(m)
    ensures Harmless(task, v, id, if m.WorkerExecuted? then ExecutedBy(w) else OrphanBy(w), SettledFate(w, m))
  {
  }

  lemma SettledCounted(task: Task, s: Sys, s': Sys, w: ThreadId, t: Transaction)
    requires TaskValid(task) && Books(task, s) && w < |s.workers|
    requires s.workers[w].port.outbox != [] && Settles(s.workers[w].port.outbox[0])
    requires t in task.pool && t.body.id in s.history.fates && t.body.id == s.workers[w].port.outbox[0].id
    requires s.history.fates[t.body.id] == (if s.workers[w].port.outbox[0].WorkerExecuted? then ExecutedBy(w) else OrphanBy(w))
    requires Position(s.master.pool, t.body.id) < |s.master.pool| && SettledBy(s, s', w, t)
    ensures CountersOk(task, s')
  {
    hide Keep, WorkerOk, Quiet, PoolOk;
    SettledCounters(task, s, s', w, t, SettledFate(w, s.workers[w].port.outbox[0]));
  }

  lemma SettledTeller(task: Task, s: Sys, s': Sys, w: ThreadId, t: Transaction)
    requires TaskValid(task) && Books(task, s) && w < |s.workers|
    requires s.workers[w].port.outbox != [] && Settles(s.workers[w].port.outbox[0])
    requires t.body.id == s.workers[w].port.outbox[0].id
    requires Position(s.master.pool, t.body.id) < |s.master.pool| && SettledBy(s, s', w, t)
    ensures WorkerOk(task, s', w)
  {
    hide WorkerOk, Position, Without;
    assert WorkerOk(task, s, w);
    SettledWorker(task, s, s', w);
  }

  lemma SettledRest(task: Task, s: Sys, s': Sys, w: ThreadId, t: Transaction, v: ThreadId)
    requires TaskValid(task) && Books(task, s) && w < |s.workers| && !s.master.closing
    requires s.workers[w].port.outbox != [] && Settles(s.workers[w].port.outbox[0])
    requires t.body.id == s.workers[w].port.outbox[0].id && t.body.id in s.history.fates
    requires s.history.fates[t.body.id] == (if s.workers[w].port.outbox[0].WorkerExecuted? then ExecutedBy(w) else OrphanBy(w))
    requires Position(s.master.pool, t.body.id) < |s.master.pool| && SettledBy(s, s', w, t)
    requires v < |s.workers| && v != w
    ensures v < |s'.workers| && WorkerOk(task, s', v)
  {
    SettledShape(task, s, s', w, t);
    assert WorkerOk(task, s, v);
    SettledHarmless(task, w, v, t.body.id, s.workers[w].port.outbox[0]);
    WorkerUndisturbed(task, s, s', v, t.body.id, SettledFate(w, s.workers[w].port.outbox[0]));
  }

  lemma HearSettledBooks(task: Task, s: Sys, w: ThreadId)
    requires TaskValid(task) && Books(task, s) && Ready(s, MasterReceive(w)) && Settles(s.workers[w].port.outbox[0])
    ensures Books(task, DoMasterReceive(s, w))
  {
    var t := ToldFacts(task, s, w);
    assert PoolOk(task, s) && Unique(task.pool);
    assert Unresolved(s.history.fates[t.body.id]);
    assert w < |s.workers| == task.workers && !s.master.closing && s.workers[w].port.outbox != [];
    SettlesAs(task, s, w, t);
    var s' := DoMasterReceive(s, w);
    SettledShape(task, s, s', w, t);
    SettledPool(task, s, s', w, t);
    SettledCounted(task, s, s', w, t);
    forall v | 0 <= v < |s'.workers| ensures WorkerOk(task, s', v) {
      if v == w {
        SettledTeller(task, s, s', w, t);
      } else {
        SettledRest(task, s, s', w, t, v);
      }
    }
    Balanced(task, s');
  }

  lemma MasterReceiveBooks(task: Task, s: Sys, w: ThreadId)
    requires TaskValid(task) && Books(task, s) && Ready(s, MasterReceive(w))
    ensures Books(task, DoMasterReceive(s, w))
  {
    hide Books, TaskValid;
    if Settles(s.workers[w].port.outbox[0]) {
      HearSettledBooks(task, s, w);
    } else {
      HearReportBooks(task, s, w);
    }
  }
}
