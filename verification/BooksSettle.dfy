// Settling a transaction keeps the books: executed, forwarded to another worker, or
// reported to the master as an orphan.
module BooksSettle {
  import opened Storage
  import opened TaintState
  import opened Program
  import opened Dispatch
  import opened Transactions
  import opened Protocol
  import opened Sequences
  import opened Bookkeeping
  import opened Undisturbed
  import opened BooksKept
  import opened BooksReceive

  // ---------------------------------------------------------------------------
  // The first attempt at a transaction, by the worker it was given to.

  /** The next of the worker's own transactions is processed: its fate is no longer Fresh. */
  lemma FirstInbox(given: seq<Transaction>, fates: map<nat, Fate>, waiting: seq<ToWorker>, closing: bool,
                   p: Port, j: Job, g: Fate, q: Port)
    requires InboxOk(given, fates, waiting, closing, p, j) && BusyFirst(j) && Unique(given) && !g.Fresh?
    requires q.inbox == p.inbox && q.phase == p.phase && Processed(q) == Processed(p) + 1
    ensures InboxOk(given, fates[j.tx.body.id := g], waiting, closing, q, Idle)
  {
  }

  lemma DistinctSnoc(ms: seq<ToMaster>, m: ToMaster)
    requires Distinct(ms) && m !in ms
    ensures Distinct(ms + [m]) && m in ms + [m]
  {
    assert (ms + [m])[|ms|] == m;
  }

  lemma FirstOutbox(fates: map<nat, Fate>, heard: set<ThreadId>, w: ThreadId, p: Port, id: nat, g: Fate, q: Port)
    requires OutboxOk(fates, heard, w, p) && p.phase.Depleting? && q.phase.Depleting?
    requires id in fates && Elsewhere(w, fates[id])
    requires (Elsewhere(w, g) && q.outbox == p.outbox) ||
             (g == OrphanBy(w) && q.outbox == p.outbox + [WorkerOrphan(id)])
    ensures OutboxOk(fates[id := g], heard, w, q)
  {
    forall m | m in q.outbox ensures MessageOk(fates[id := g], w, q, m) {
      assert m in p.outbox || m == WorkerOrphan(id);
      assert !m.AuthoringReport? by {
        assert m in p.outbox ==> MessageOk(fates, w, p, m);
      }
    }
    if g == OrphanBy(w) {
      assert WorkerOrphan(id) in p.outbox ==> MessageOk(fates, w, p, WorkerOrphan(id));
      DistinctSnoc(p.outbox, WorkerOrphan(id));
    }
  }

  lemma FirstOthers(pool: seq<Transaction>, fates: map<nat, Fate>, w: ThreadId, p: Port, j: Job, id: nat, g: Fate, q: Port)
    requires OthersOk(pool, fates, w, p, j) && !BusyAgain(j) && q.others == p.others
    requires id in fates && fates[id] != Travelling(w) && g != Travelling(w)
    ensures OthersOk(pool, fates[id := g], w, q, Idle)
  {
  }

  /** The log after the first attempt: one more of the worker's own if it was executed, as before if not. */
  lemma FirstLog(given: seq<Transaction>, pool: seq<Transaction>, fates: map<nat, Fate>, moved: seq<Transaction>, w: ThreadId,
                 p: Port, t: Transaction, g: Fate, q: Port)
    requires LogOk(given, pool, fates, moved, w, p) && p.phase.Depleting? && q.phase.Depleting?
    requires Unique(given) && Processed(p) < |given| && t == given[Processed(p)] && t.body in Bodies(pool)
    requires t.body.id in fates
    requires Processed(q) == Processed(p) + 1
    requires ExecutedIds(q.outbox) == ExecutedIds(p.outbox)
    requires if g.Local? then q.executed == p.executed + 1 && q.log == p.log + [t.body]
             else q.executed == p.executed && q.log == p.log
    ensures LogOk(given, pool, fates[t.body.id := g], moved, w, q)
  {
    hide Keep, ExecutedIds, TaggedFor;
    var n := Processed(p);
    var fates' := fates[t.body.id := g];
    assert given[..n + 1] == given[..n] + [t];
    KeepSame(given[..n], fates, fates', IsLocal);
    KeepSnoc(given[..n], t, fates', IsLocal);
    assert p.log[p.executed..] == [] && q.log[q.executed..] == [];
    assert q.log[..q.executed] == q.log && p.log[..p.executed] == p.log;
    forall b | b in q.log ensures b in Bodies(pool) {
      assert b in p.log || b == t.body;
    }
  }

  // ---------------------------------------------------------------------------
  // The second attempt, by the worker it was forwarded to.

  lemma AgainInbox(given: seq<Transaction>, fates: map<nat, Fate>, waiting: seq<ToWorker>, closing: bool,
                   p: Port, j: Job, id: nat, g: Fate, q: Port)
    requires InboxOk(given, fates, waiting, closing, p, j) && BusyAgain(j)
    requires id in fates && !fates[id].Fresh? && !g.Fresh?
    requires q.inbox == p.inbox && q.phase == p.phase && q.executed == p.executed && q.forwarded == p.forwarded
    ensures InboxOk(given, fates[id := g], waiting, closing, q, Idle)
  {
  }

  lemma AgainOthers(pool: seq<Transaction>, fates: map<nat, Fate>, w: ThreadId, p: Port, j: Job, g: Fate, q: Port)
    requires OthersOk(pool, fates, w, p, j) && BusyAgain(j) && q.others == p.others && g != Travelling(w)
    ensures j.tx.body.id in fates && fates[j.tx.body.id] == Travelling(w)
    ensures OthersOk(pool, fates[j.tx.body.id := g], w, q, Idle)
  {
    forall t | t in q.others ensures ForwardedTo(pool, fates[j.tx.body.id := g], w, t) {
      assert ForwardedTo(pool, fates, w, t);
      var i :| 0 <= i < |p.others| && p.others[i] == t;
    }
  }

  lemma AgainOutbox(fates: map<nat, Fate>, heard: set<ThreadId>, w: ThreadId, p: Port, id: nat, g: Fate, m: ToMaster, q: Port)
    requires OutboxOk(fates, heard, w, p) && p.phase.Serving? && q.phase.Serving?
    requires q.executed == p.executed && q.forwarded == p.forwarded && q.outbox == p.outbox + [m]
    requires id in fates && fates[id] == Travelling(w)
    requires (g == ExecutedBy(w) && m == WorkerExecuted(id)) || (g == OrphanBy(w) && m == WorkerOrphan(id))
    ensures OutboxOk(fates[id := g], heard, w, q)
  {
    assert m in p.outbox ==> MessageOk(fates, w, p, m);
    DistinctSnoc(p.outbox, m);
    forall x | x in q.outbox ensures MessageOk(fates[id := g], w, q, x) {
      assert x in p.outbox ==> MessageOk(fates, w, p, x);
    }
  }

  lemma AgainLog(given: seq<Transaction>, pool: seq<Transaction>, fates: map<nat, Fate>, moved: seq<Transaction>, w: ThreadId,
                 p: Port, b: Body, g: Fate, m: ToMaster, q: Port)
    requires LogOk(given, pool, fates, moved, w, p) && p.phase.Serving? && q.phase.Serving?
    requires q.executed == p.executed && q.forwarded == p.forwarded && q.outbox == p.outbox + [m]
    requires b.id in fates && SameFirstAttempt(fates[b.id], g) && b in Bodies(pool)
    requires (m == WorkerExecuted(b.id) && q.log == p.log + [b]) || (m.WorkerOrphan? && q.log == p.log)
    ensures LogOk(given, pool, fates[b.id := g], moved, w, q)
  {
    hide Keep, TaggedFor;
    KeepUndisturbed(given[..Processed(p)], fates, b.id, g);
    AgainIds(p, b, m, q);
    forall x | x in q.log ensures x in Bodies(pool) {
      assert x in p.log || x == b;
    }
  }

  lemma AgainIds(p: Port, b: Body, m: ToMaster, q: Port)
    requires p.executed <= |p.log| && q.executed == p.executed && q.outbox == p.outbox + [m]
    requires (m == WorkerExecuted(b.id) && q.log == p.log + [b]) || (m.WorkerOrphan? && q.log == p.log)
    ensures q.log[..q.executed] == p.log[..p.executed]
    ensures m.WorkerExecuted? ==> BodyIds(q.log[q.executed..]) == BodyIds(p.log[p.executed..]) + [b.id] &&
                                  ExecutedIds(q.outbox) == ExecutedIds(p.outbox) + [b.id]
    ensures m.WorkerOrphan? ==> q.log == p.log && ExecutedIds(q.outbox) == ExecutedIds(p.outbox)
  {
    ExecutedIdsEnds(p.outbox, m);
    if m.WorkerExecuted? {
      assert q.log[q.executed..] == p.log[p.executed..] + [b];
    }
  }

  // ---------------------------------------------------------------------------
  // The pool and the counters when one fate changes.

  lemma PoolUnresolved(task: Task, s: Sys, s': Sys, id: nat, g: Fate)
    requires PoolOk(task, s) && id in s.history.fates && Unresolved(s.history.fates[id]) && Unresolved(g)
    requires FateOk(task.workers, g)
    requires g.ExecutedBy? ==> forall t :: t in task.pool && t.body.id == id ==> t.tag != DoneBy(g.worker)
    requires s'.history == s.history.(fates := s.history.fates[id := g])
    requires s'.master.pool == s.master.pool && s'.master.orphans == s.master.orphans
    ensures PoolOk(task, s')
  {
    KeepSame(task.pool, s.history.fates, s'.history.fates, Unresolved);
  }

  /** Worker `w` counts its first attempt at a transaction: as executed or as forwarded. */
  lemma CountersFirst(task: Task, s: Sys, s': Sys, w: ThreadId, t: Transaction, g: Fate)
    requires CountersOk(task, s) && w < |s.workers| == |s'.workers| && w !in s.history.heard
    requires Unique(task.pool) && t in task.pool && t.body.id in s.history.fates && s.history.fates[t.body.id].Fresh?
    requires !g.Fresh? && Unresolved(g)
    requires s'.master == s.master && s'.history == s.history.(fates := s.history.fates[t.body.id := g])
    requires forall v :: 0 <= v < |s.workers| && v != w ==>
               s'.workers[v].port.executed == s.workers[v].port.executed &&
               s'.workers[v].port.forwarded == s.workers[v].port.forwarded
    requires s'.workers[w].port.executed == s.workers[w].port.executed + if g.Local? then 1 else 0
    requires s'.workers[w].port.forwarded == s.workers[w].port.forwarded + if g.Local? then 0 else 1
    ensures CountersOk(task, s')
  {
    hide TotalOf, Keep, Unique;
    var ws := s.workers[w := s'.workers[w]];
    TotalUpdate(s.workers, s.history.heard, ForwardedOf, w, s'.workers[w]);
    TotalUpdate(s.workers, s.history.heard, ExecutedOf, w, s'.workers[w]);
    TotalUpdate(s.workers, Everyone(s), ForwardedOf, w, s'.workers[w]);
    TotalUpdate(s.workers, Everyone(s), ExecutedOf, w, s'.workers[w]);
    TotalSame(ws, s'.workers, s.history.heard, ForwardedOf);
    TotalSame(ws, s'.workers, s.history.heard, ExecutedOf);
    TotalSame(ws, s'.workers, Everyone(s), ForwardedOf);
    TotalSame(ws, s'.workers, Everyone(s), ExecutedOf);
    var fates := s.history.fates;
    KeepSame(task.pool, fates, s'.history.fates, Resolved);
    if g.Local? {
      KeepGrows(task.pool, fates, IsLocal, t, g);
      KeepSame(task.pool, fates, s'.history.fates, Away);
    } else {
      KeepGrows(task.pool, fates, Away, t, g);
      KeepSame(task.pool, fates, s'.history.fates, IsLocal);
    }
  }

  lemma TotalSame(ws: seq<Worker>, ws': seq<Worker>, who: set<ThreadId>, f: Port -> nat)
    requires |ws| == |ws'| && forall v :: 0 <= v < |ws| ==> f(ws[v].port) == f(ws'[v].port)
    ensures TotalOf(ws, who, f) == TotalOf(ws', who, f)
  {
    assert Shares(ws, who, f) == Shares(ws', who, f);
  }

  /** Between two fates after the first attempt, and before the master settles it, no counter moves. */
  lemma CountersAgain(task: Task, s: Sys, s': Sys, w: ThreadId, id: nat, g: Fate)
    requires CountersOk(task, s) && w < |s.workers| == |s'.workers| && s'.workers == s.workers[w := s'.workers[w]]
    requires id in s.history.fates && Away(s.history.fates[id]) && Unresolved(s.history.fates[id]) && Away(g) && Unresolved(g)
    requires s'.master == s.master && s'.history == s.history.(fates := s.history.fates[id := g])
    requires s'.workers[w].port.executed == s.workers[w].port.executed
    requires s'.workers[w].port.forwarded == s.workers[w].port.forwarded
    ensures CountersOk(task, s')
  {
    hide TotalOf, Keep;
    var fates := s.history.fates;
    TotalSame(s.workers, s'.workers, s.history.heard, ForwardedOf);
    TotalSame(s.workers, s'.workers, s.history.heard, ExecutedOf);
    TotalSame(s.workers, s'.workers, Everyone(s), ForwardedOf);
    TotalSame(s.workers, s'.workers, Everyone(s), ExecutedOf);
    KeepSame(task.pool, fates, s'.history.fates, Resolved);
    KeepSame(task.pool, fates, s'.history.fates, Away);
    KeepSame(task.pool, fates, s'.history.fates, IsLocal);
  }

  // ---------------------------------------------------------------------------
  // The steps.

  /** What is known of the transaction a worker attempts first. */
  lemma FirstFacts(task: Task, s: Sys, w: ThreadId)
    requires TaskValid(task) && Books(task, s) && w < |s.workers| && BusyFirst(s.workers[w].job)
    ensures var p, t := s.workers[w].port, s.workers[w].job.tx;
            && p.phase.Depleting? && w !in s.history.heard && !s.master.closing
            && Processed(p) < |Assigned(task, w)| && t == Assigned(task, w)[Processed(p)]
            && t in task.pool && t.tag == DoneBy(w) && t.body in Bodies(task.pool)
            && t.body.id in s.history.fates && s.history.fates[t.body.id].Fresh?
    ensures forall v :: 0 <= v < |s.workers| && v != w ==> NotAmong(Assigned(task, v), s.workers[w].job.tx.body.id)
    ensures Unique(Assigned(task, w))
  {
    assert WorkerOk(task, s, w);
    var p, t := s.workers[w].port, s.workers[w].job.tx;
    assert t in Assigned(task, w);
    InBodies(task.pool, t);
    TaggedUnique(task.pool, w);
    forall v | 0 <= v < |s.workers| && v != w ensures NotAmong(Assigned(task, v), t.body.id) {
      forall u | u in Assigned(task, v) ensures u.body.id != t.body.id {
        if u.body.id == t.body.id { SameId(task.pool, t, u); }
      }
    }
  }

  lemma InBodies(txs: seq<Transaction>, t: Transaction)
    requires t in txs
    ensures t.body in Bodies(txs)
  {
    var i :| 0 <= i < |txs| && txs[i] == t;
    assert Bodies(txs)[i] == t.body;
  }

  /** The worker itself, when its first attempt executes the transaction or reports it as an orphan. */
  lemma FirstWorker(task: Task, s: Sys, s': Sys, w: ThreadId, g: Fate)
    requires TaskValid(task) && Books(task, s) && w < |s.workers| == |s'.workers| && BusyFirst(s.workers[w].job)
    requires var p, q, t := s.workers[w].port, s'.workers[w].port, s.workers[w].job.tx;
             && !g.Fresh?
             && s'.history == s.history.(fates := s.history.fates[t.body.id := g]) && s'.master == s.master
             && s'.workers[w].job.Idle?
             && q.inbox == p.inbox && q.others == p.others && q.phase == p.phase
             && (if g.Local? then q.executed == p.executed + 1 && q.forwarded == p.forwarded && q.log == p.log + [t.body]
                 else q.executed == p.executed && q.forwarded == p.forwarded + 1 && q.log == p.log)
             && ((Elsewhere(w, g) && q.outbox == p.outbox) ||
                 (g == OrphanBy(w) && q.outbox == p.outbox + [WorkerOrphan(t.body.id)]))
    ensures WorkerOk(task, s', w)
  {
    hide InboxOk, OthersOk, OutboxOk, LogOk;
    FirstFacts(task, s, w);
    assert WorkerOk(task, s, w);
    var p, q, j := s.workers[w].port, s'.workers[w].port, s.workers[w].job;
    var t, given, fates := j.tx, Assigned(task, w), s.history.fates;
    FirstInbox(given, fates, Waiting(s.master.plan, w), s.master.closing, p, j, g, q);
    FirstOthers(task.pool, fates, w, p, j, t.body.id, g, q);
    FirstOutbox(fates, s.history.heard, w, p, t.body.id, g, q);
    ExecutedIdsEnds(p.outbox, WorkerOrphan(t.body.id));
    FirstLog(given, task.pool, fates, s.history.moved, w, p, t, g, q);
  }

  /** The others, none of which it was given to. */
  lemma FirstHarmless(task: Task, s: Sys, w: ThreadId, g: Fate, v: ThreadId)
    requires TaskValid(task) && Books(task, s) && w < |s.workers| && BusyFirst(s.workers[w].job)
    requires v < |s.workers| && v != w && Elsewhere(v, g)
    ensures var id := s.workers[w].job.tx.body.id;
            id in s.history.fates && Harmless(task, v, id, s.history.fates[id], g)
  {
    hide Books, TaskValid;
    FirstFacts(task, s, w);
  }

  lemma FirstOthersUndisturbed(task: Task, s: Sys, s': Sys, w: ThreadId, g: Fate, v: ThreadId)
    requires TaskValid(task) && Books(task, s) && w < |s.workers| == |s'.workers| && BusyFirst(s.workers[w].job)
    requires v < |s.workers| && v != w && s'.workers[v] == s.workers[v] && Elsewhere(v, g)
    requires s'.history == s.history.(fates := s.history.fates[s.workers[w].job.tx.body.id := g])
    requires s'.master == s.master
    ensures WorkerOk(task, s', v)
  {
    hide Books, TaskValid, WorkerOk, Harmless, TaggedFor, Waiting;
    WorkerOf(task, s, v);
    FirstHarmless(task, s, w, g, v);
    WorkerUndisturbed(task, s, s', v, s.workers[w].job.tx.body.id, g);
  }

  /** What the first attempt can make of a transaction. */
  predicate FirstOutcome(workers: nat, w: ThreadId, g: Fate) {
    g.Local? || g == OrphanBy(w) || (g.Travelling? && g.to < workers)
  }

  lemma FirstCounts(task: Task, s: Sys, s': Sys, w: ThreadId, g: Fate)
    requires TaskValid(task) && Books(task, s) && w < |s.workers| == |s'.workers| && BusyFirst(s.workers[w].job)
    requires s'.history == s.history.(fates := s.history.fates[s.workers[w].job.tx.body.id := g])
    requires s'.master == s.master && FirstOutcome(|s.workers|, w, g)
    requires forall v :: 0 <= v < |s.workers| && v != w ==>
               s'.workers[v].port.executed == s.workers[v].port.executed &&
               s'.workers[v].port.forwarded == s.workers[v].port.forwarded
    requires s'.workers[w].port.executed == s.workers[w].port.executed + if g.Local? then 1 else 0
    requires s'.workers[w].port.forwarded == s.workers[w].port.forwarded + if g.Local? then 0 else 1
    ensures PoolOk(task, s') && CountersOk(task, s') && !s.master.closing
  {
    hide WorkerOk, PoolOk, CountersOk, Quiet;
    FirstFacts(task, s, w);
    var t := s.workers[w].job.tx;
    PoolUnresolved(task, s, s', t.body.id, g);
    CountersFirst(task, s, s', w, t, g);
  }

  /** The worker executes its own transaction, or sends it to the master as an orphan. */
  lemma FirstBooks(task: Task, s: Sys, s': Sys, w: ThreadId, g: Fate)
    requires TaskValid(task) && Books(task, s) && w < |s.workers| == |s'.workers| && BusyFirst(s.workers[w].job)
    requires s'.workers == s.workers[w := s'.workers[w]]
    requires s'.history == s.history.(fates := s.history.fates[s.workers[w].job.tx.body.id := g])
    requires s'.master == s.master && !s'.panicked && (g.Local? || g == OrphanBy(w))
    requires WorkerOk(task, s', w)
    requires s'.workers[w].port.executed == s.workers[w].port.executed + if g.Local? then 1 else 0
    requires s'.workers[w].port.forwarded == s.workers[w].port.forwarded + if g.Local? then 0 else 1
    ensures Books(task, s')
  {
    hide WorkerOk, PoolOk, CountersOk, Quiet;
    FirstCounts(task, s, s', w, g);
    forall v | 0 <= v < |s.workers| ensures WorkerOk(task, s', v) {
      if v != w {
        FirstOthersUndisturbed(task, s, s', w, g, v);
      }
    }
  }

  // What settling does, case by case.

  function FirstPort(p: Port, t: Transaction, g: Fate): Port {
    match g
    case Local => p.(log := p.log + [t.body], executed := p.executed + 1)
    case OrphanBy(_) => p.(forwarded := p.forwarded + 1, outbox := p.outbox + [WorkerOrphan(t.body.id)])
    case _ => p.(forwarded := p.forwarded + 1)
  }

  function AgainPort(p: Port, t: Transaction, g: Fate): Port {
    if g.ExecutedBy? then p.(log := p.log + [t.body], outbox := p.outbox + [WorkerExecuted(t.body.id)])
    else p.(outbox := p.outbox + [WorkerOrphan(t.body.id)])
  }

  function FirstFate(w: ThreadId, st: Stage): Fate {
    match st
    case Tainted(owner, corrupt) => if corrupt then OrphanBy(w) else Travelling(owner)
    case _ => Local
  }

  function AgainFate(w: ThreadId, st: Stage): Fate {
    if st.Tainted? then OrphanBy(w) else ExecutedBy(w)
  }

  /** The state of the system once `w` has settled its transaction, before any other worker learns of it. */
  function Settled(s: Sys, w: ThreadId, p: Port, g: Fate): Sys
    requires w < |s.workers| && s.workers[w].job.Busy?
  {
    s.(workers := s.workers[w := Worker(p, Idle)],
       history := s.history.(fates := s.history.fates[s.workers[w].job.tx.body.id := g]))
  }

  /** Worker `to` finds the transaction in its queue. */
  function Handed(s: Sys, to: ThreadId, t: Transaction): Sys
    requires to < |s.workers|
  {
    var p := s.workers[to].port;
    s.(workers := s.workers[to := s.workers[to].(port := p.(others := p.others + [t]))])
  }

  lemma FirstEffect(s: Sys, w: ThreadId)
    requires Ready(s, Settle(w)) && BusyFirst(s.workers[w].job) && s.workers[w].port.phase.Depleting?
    requires s.workers[w].job.stage.Tainted? ==> s.workers[w].job.stage.owner < |s.workers|
    ensures var g := FirstFate(w, s.workers[w].job.stage);
            var s1 := Settled(s, w, FirstPort(s.workers[w].port, s.workers[w].job.tx, g), g);
            DoSettle(s, w) == if g.Travelling? then Handed(s1, g.to, s.workers[w].job.tx) else s1
  {
  }

  lemma AgainEffect(s: Sys, w: ThreadId)
    requires Ready(s, Settle(w)) && w < |s.workers| && BusyAgain(s.workers[w].job) && s.workers[w].port.phase.Serving?
    ensures var g := AgainFate(w, s.workers[w].job.stage);
            (g == ExecutedBy(w) || g == OrphanBy(w)) &&
            DoSettle(s, w) == Settled(s, w, AgainPort(s.workers[w].port, s.workers[w].job.tx, g), g)
  {
  }

  lemma SettleFirstBooks(task: Task, s: Sys, w: ThreadId)
    requires TaskValid(task) && Books(task, s) && Ready(s, Settle(w)) && BusyFirst(s.workers[w].job)
    requires s.workers[w].job.stage.Tainted? ==> s.workers[w].job.stage.corrupt && s.workers[w].job.stage.owner < |s.workers|
    ensures Books(task, DoSettle(s, w))
  {
    hide Books, WorkerOk, DoSettle;
    FirstFacts(task, s, w);
    FirstEffect(s, w);
    var g := FirstFate(w, s.workers[w].job.stage);
    FirstWorker(task, s, DoSettle(s, w), w, g);
    FirstBooks(task, s, DoSettle(s, w), w, g);
  }

  /** The worker forwards its own transaction to the owner of a key it needs. */
  lemma SettleForwardBooks(task: Task, s: Sys, w: ThreadId)
    requires TaskValid(task) && Books(task, s) && Ready(s, Settle(w)) && BusyFirst(s.workers[w].job)
    requires s.workers[w].job.stage.Tainted? && !s.workers[w].job.stage.corrupt
    requires s.workers[w].job.stage.owner != w && s.workers[w].job.stage.owner < |s.workers|
    ensures Books(task, DoSettle(s, w))
  {
    hide DoSettle, Books;
    FirstFacts(task, s, w);
    FirstEffect(s, w);
    ForwardBooks(task, s, DoSettle(s, w), w, s.workers[w].job.stage.owner);
  }

  lemma ForwardBooks(task: Task, s: Sys, s': Sys, w: ThreadId, to: ThreadId)
    requires TaskValid(task) && Books(task, s) && w < |s.workers| && BusyFirst(s.workers[w].job)
    requires to != w && to < |s.workers|
    requires s' == Handed(Settled(s, w, FirstPort(s.workers[w].port, s.workers[w].job.tx, Travelling(to)), Travelling(to)),
                          to, s.workers[w].job.tx)
    ensures Books(task, s')
  {
    hide *;
    ForwardShape(s, s', w, to);
    FirstBasics(task, s, s', w);
    ForwardingWorker(task, s, s', w, to);
    ForwardedWorker(task, s, s', w, to);
    FirstCounts(task, s, s', w, Travelling(to));
    RestUndisturbed(task, s, s', w, to);
    Balanced(task, s');
  }

  lemma FirstBasics(task: Task, s: Sys, s': Sys, w: ThreadId)
    requires TaskValid(task) && Books(task, s) && w < |s.workers| == |s'.workers| && BusyFirst(s.workers[w].job)
    requires s'.master == s.master && s'.panicked == s.panicked
    ensures Basics(task, s')
  {
    FirstFacts(task, s, w);
  }

  lemma Balanced(task: Task, s: Sys)
    requires Basics(task, s) && PoolOk(task, s) && CountersOk(task, s)
    requires forall w :: 0 <= w < |s.workers| ==> WorkerOk(task, s, w)
    ensures Books(task, s)
  {
    hide Basics, PoolOk, CountersOk, WorkerOk;
  }

  lemma RestUndisturbed(task: Task, s: Sys, s': Sys, w: ThreadId, to: ThreadId)
    requires TaskValid(task) && Books(task, s) && w < |s.workers| == |s'.workers| && BusyFirst(s.workers[w].job)
    requires forall v :: 0 <= v < |s.workers| && v != w && v != to ==> s'.workers[v] == s.workers[v]
    requires s'.history == s.history.(fates := s.history.fates[s.workers[w].job.tx.body.id := Travelling(to)])
    requires s'.master == s.master
    ensures forall v :: 0 <= v < |s.workers| && v != w && v != to ==> WorkerOk(task, s', v)
  {
    hide Books, WorkerOk;
    forall v | 0 <= v < |s.workers| && v != w && v != to ensures WorkerOk(task, s', v) {
      FirstOthersUndisturbed(task, s, s', w, Travelling(to), v);
    }
  }

  lemma ForwardShape(s: Sys, s': Sys, w: ThreadId, to: ThreadId)
    requires w < |s.workers| && to < |s.workers| && to != w && BusyFirst(s.workers[w].job)
    requires s' == Handed(Settled(s, w, FirstPort(s.workers[w].port, s.workers[w].job.tx, Travelling(to)), Travelling(to)),
                          to, s.workers[w].job.tx)
    ensures |s'.workers| == |s.workers| && s'.master == s.master && s'.panicked == s.panicked
    ensures FirstOutcome(|s.workers|, w, Travelling(to))
    ensures s'.history == s.history.(fates := s.history.fates[s.workers[w].job.tx.body.id := Travelling(to)])
    ensures forall v :: 0 <= v < |s.workers| && v != w && v != to ==> s'.workers[v] == s.workers[v]
    ensures s'.workers[to] == s.workers[to].(port := s.workers[to].port.(others := s.workers[to].port.others + [s.workers[w].job.tx]))
    ensures s'.workers[w].port.executed == s.workers[w].port.executed
    ensures s'.workers[w].port.forwarded == s.workers[w].port.forwarded + 1
  {
  }

  lemma ForwardingWorker(task: Task, s: Sys, s': Sys, w: ThreadId, to: ThreadId)
    requires TaskValid(task) && Books(task, s) && w < |s.workers| && BusyFirst(s.workers[w].job)
    requires to != w && to < |s.workers|
    requires s' == Handed(Settled(s, w, FirstPort(s.workers[w].port, s.workers[w].job.tx, Travelling(to)), Travelling(to)),
                          to, s.workers[w].job.tx)
    ensures WorkerOk(task, s', w)
  {
    hide Books, WorkerOk;
    FirstFacts(task, s, w);
    FirstWorker(task, s, s', w, Travelling(to));
  }

  /** The worker it is forwarded to finds it in its queue. */
  lemma ForwardedWorker(task: Task, s: Sys, s': Sys, w: ThreadId, to: ThreadId)
    requires TaskValid(task) && Books(task, s) && w < |s.workers| == |s'.workers| && BusyFirst(s.workers[w].job)
    requires to < |s.workers| && to != w
    requires var p, t := s.workers[to].port, s.workers[w].job.tx;
             s'.workers[to] == s.workers[to].(port := p.(others := p.others + [t])) && s'.master == s.master &&
             s'.history == s.history.(fates := s.history.fates[t.body.id := Travelling(to)])
    ensures WorkerOk(task, s', to)
  {
    hide InboxOk, OthersOk, OutboxOk, LogOk;
    FirstFacts(task, s, w);
    var p, q, j, t := s.workers[to].port, s'.workers[to].port, s.workers[to].job, s.workers[w].job.tx;
    assert WorkerOk(task, s, to);
    var fates := s.history.fates;
    ForwardedInbox(Assigned(task, to), fates, Waiting(s.master.plan, to), s.master.closing, p, j, t.body.id, Travelling(to), q);
    ForwardedOthers(task.pool, fates, to, p, j, t, q);
    ForwardedOutbox(fates, s.history.heard, to, p, t.body.id, q);
    ForwardedLog(Assigned(task, to), task.pool, fates, s.history.moved, to, p, t.body.id, q);
  }

  lemma ForwardedInbox(given: seq<Transaction>, fates: map<nat, Fate>, waiting: seq<ToWorker>, closing: bool,
                       p: Port, j: Job, id: nat, g: Fate, q: Port)
    requires InboxOk(given, fates, waiting, closing, p, j) && NotAmong(given, id)
    requires q == p.(others := q.others)
    ensures InboxOk(given, fates[id := g], waiting, closing, q, j)
  {
  }

  lemma ForwardedOthers(pool: seq<Transaction>, fates: map<nat, Fate>, to: ThreadId, p: Port, j: Job, t: Transaction, q: Port)
    requires OthersOk(pool, fates, to, p, j) && q.others == p.others + [t]
    requires t in pool && t.tag != DoneBy(to) && t.body.id in fates && fates[t.body.id].Fresh?
    ensures OthersOk(pool, fates[t.body.id := Travelling(to)], to, q, j)
  {
    var id := t.body.id;
    forall i | 0 <= i < |p.others| ensures p.others[i].body.id != id {
      assert p.others[i] in p.others;
    }
    assert q.others[|p.others|] == t;
    forall x | x in fates[id := Travelling(to)] && fates[id := Travelling(to)][x] == Travelling(to) && x != id
      ensures Contains(q.others, x) || (BusyAgain(j) && j.tx.body.id == x)
    {
      if Contains(p.others, x) {
        assert q.others[Position(p.others, x)].body.id == x;
      }
    }
  }

  lemma ForwardedOutbox(fates: map<nat, Fate>, heard: set<ThreadId>, to: ThreadId, p: Port, id: nat, q: Port)
    requires OutboxOk(fates, heard, to, p) && q == p.(others := q.others)
    requires id in fates && fates[id].Fresh?
    ensures OutboxOk(fates[id := Travelling(to)], heard, to, q)
  {
    forall m | m in q.outbox ensures MessageOk(fates[id := Travelling(to)], to, q, m) {
      assert MessageOk(fates, to, p, m);
    }
  }

  lemma ForwardedLog(given: seq<Transaction>, pool: seq<Transaction>, fates: map<nat, Fate>, moved: seq<Transaction>,
                     to: ThreadId, p: Port, id: nat, q: Port)
    requires LogOk(given, pool, fates, moved, to, p) && NotAmong(given, id) && id in fates
    requires q == p.(others := q.others)
    ensures LogOk(given, pool, fates[id := Travelling(to)], moved, to, q)
  {
    assert NotAmong(given[..Processed(p)], id);
    KeepUndisturbed(given[..Processed(p)], fates, id, Travelling(to));
  }

  /** Second attempt: the worker executes a forwarded transaction, or sends it to the master as an orphan. */
  lemma AgainFacts(task: Task, s: Sys, w: ThreadId)
    requires TaskValid(task) && Books(task, s) && w < |s.workers| && BusyAgain(s.workers[w].job)
    ensures var p, t := s.workers[w].port, s.workers[w].job.tx;
            && p.phase.Serving? && !s.master.closing
            && t.body.id in s.history.fates && s.history.fates[t.body.id] == Travelling(w)
            && t.body in Bodies(task.pool)
            && (forall u :: u in task.pool && u.body.id == t.body.id ==> u.tag != DoneBy(w))
  {
    assert WorkerOk(task, s, w);
    var t := s.workers[w].job.tx.(status := Initial);
    InBodies(task.pool, t);
    forall u | u in task.pool && u.body.id == t.body.id ensures u.tag != DoneBy(w) {
      SameId(task.pool, t, u);
    }
  }

  lemma AgainWorker(task: Task, s: Sys, s': Sys, w: ThreadId, g: Fate)
    requires TaskValid(task) && Books(task, s) && w < |s.workers| && BusyAgain(s.workers[w].job)
    requires g == ExecutedBy(w) || g == OrphanBy(w)
    requires s' == Settled(s, w, AgainPort(s.workers[w].port, s.workers[w].job.tx, g), g)
    ensures WorkerOk(task, s', w)
  {
    hide InboxOk, OthersOk, OutboxOk, LogOk;
    AgainFacts(task, s, w);
    assert WorkerOk(task, s, w);
    var p, q, j := s.workers[w].port, s'.workers[w].port, s.workers[w].job;
    var b, fates, given := j.tx.body, s.history.fates, Assigned(task, w);
    var m := if g.ExecutedBy? then WorkerExecuted(b.id) else WorkerOrphan(b.id);
    AgainInbox(given, fates, Waiting(s.master.plan, w), s.master.closing, p, j, b.id, g, q);
    AgainOthers(task.pool, fates, w, p, j, g, q);
    AgainOutbox(fates, s.history.heard, w, p, b.id, g, m, q);
    AgainLog(given, task.pool, fates, s.history.moved, w, p, b, g, m, q);
  }

  lemma AgainCounts(task: Task, s: Sys, s': Sys, w: ThreadId, g: Fate)
    requires TaskValid(task) && Books(task, s) && w < |s.workers| && BusyAgain(s.workers[w].job)
    requires g == ExecutedBy(w) || g == OrphanBy(w)
    requires s' == Settled(s, w, AgainPort(s.workers[w].port, s.workers[w].job.tx, g), g)
    ensures PoolOk(task, s') && CountersOk(task, s')
  {
    hide WorkerOk, PoolOk, CountersOk, Quiet;
    AgainFacts(task, s, w);
    PoolUnresolved(task, s, s', s.workers[w].job.tx.body.id, g);
    CountersAgain(task, s, s', w, s.workers[w].job.tx.body.id, g);
  }

  lemma AgainHarmless(task: Task, s: Sys, w: ThreadId, g: Fate, v: ThreadId)
    requires TaskValid(task) && Books(task, s) && w < |s.workers| && BusyAgain(s.workers[w].job)
    requires (g == ExecutedBy(w) || g == OrphanBy(w)) && v != w
    ensures var id := s.workers[w].job.tx.body.id;
            id in s.history.fates && Harmless(task, v, id, s.history.fates[id], g)
  {
    hide Books, TaskValid;
    AgainFacts(task, s, w);
  }

  lemma AgainOthersUndisturbed(task: Task, s: Sys, s': Sys, w: ThreadId, g: Fate, v: ThreadId)
    requires TaskValid(task) && Books(task, s) && w < |s.workers| && BusyAgain(s.workers[w].job)
    requires g == ExecutedBy(w) || g == OrphanBy(w)
    requires s' == Settled(s, w, AgainPort(s.workers[w].port, s.workers[w].job.tx, g), g)
    requires v < |s.workers| && v != w
    ensures WorkerOk(task, s', v)
  {
    hide Books, TaskValid, WorkerOk, Harmless, TaggedFor, Waiting;
    WorkerOf(task, s, v);
    AgainHarmless(task, s, w, g, v);
    WorkerUndisturbed(task, s, s', v, s.workers[w].job.tx.body.id, g);
  }

  lemma SettleAgainBooks(task: Task, s: Sys, w: ThreadId)
    requires TaskValid(task) && Books(task, s) && Ready(s, Settle(w)) && BusyAgain(s.workers[w].job)
    ensures Books(task, DoSettle(s, w))
  {
    AgainFacts(task, s, w);
    AgainEffect(s, w);
    var s', g := DoSettle(s, w), AgainFate(w, s.workers[w].job.stage);
    AgainBasics(task, s, s', w, g);
    AgainWorker(task, s, s', w, g);
    AgainCounts(task, s, s', w, g);
    forall v | 0 <= v < |s'.workers| ensures WorkerOk(task, s', v) {
      if v != w {
        AgainOthersUndisturbed(task, s, s', w, g, v);
      }
    }
    Balanced(task, s');
  }

  lemma AgainBasics(task: Task, s: Sys, s': Sys, w: ThreadId, g: Fate)
    requires TaskValid(task) && Books(task, s) && w < |s.workers| && BusyAgain(s.workers[w].job)
    requires s' == Settled(s, w, AgainPort(s.workers[w].port, s.workers[w].job.tx, g), g)
    ensures Basics(task, s') && |s'.workers| == |s.workers|
  {
    AgainFacts(task, s, w);
  }
}
