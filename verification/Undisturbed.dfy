// Small facts about the bookkeeping, and what an event elsewhere leaves alone.
module Undisturbed {
  import opened Storage
  import opened Program
  import opened Transactions
  import opened Protocol
  import opened Sums
  import opened Sequences
  import opened Bookkeeping

  lemma {:induction false} ExecutedIdsConcat(xs: seq<ToMaster>, ys: seq<ToMaster>)
    ensures ExecutedIds(xs + ys) == ExecutedIds(xs) + ExecutedIds(ys)
  {
    if ys == [] {
      assert xs + ys == xs;
    } else {
      assert (xs + ys)[..|xs + ys| - 1] == xs + ys[..|ys| - 1];
      ExecutedIdsConcat(xs, ys[..|ys| - 1]);
    }
  }

  lemma ExecutedIdsOne(m: ToMaster)
    ensures ExecutedIds([m]) == if m.WorkerExecuted? then [m.id] else []
  {
    assert [m][..0] == [];
  }

  /** Hearing the head of an outbox, or adding a message at its end. */
  lemma ExecutedIdsEnds(ms: seq<ToMaster>, m: ToMaster)
    ensures ExecutedIds(ms + [m]) == if m.WorkerExecuted? then ExecutedIds(ms) + [m.id] else ExecutedIds(ms)
    ensures ms != [] ==> ExecutedIds(ms) == (if ms[0].WorkerExecuted? then [ms[0].id] else []) + ExecutedIds(ms[1..])
  {
    hide ExecutedIds;
    ExecutedIdsConcat(ms, [m]);
    ExecutedIdsOne(m);
    if ms != [] {
      assert ms == [ms[0]] + ms[1..];
      ExecutedIdsConcat([ms[0]], ms[1..]);
      ExecutedIdsOne(ms[0]);
    }
  }

  lemma {:induction false} WaitingConcat(xs: seq<Send>, ys: seq<Send>, w: ThreadId)
    ensures Waiting(xs + ys, w) == Waiting(xs, w) + Waiting(ys, w)
  {
    if xs == [] {
      assert xs + ys == ys;
    } else {
      assert (xs + ys)[1..] == xs[1..] + ys && (xs + ys)[0] == xs[0];
      WaitingConcat(xs[1..], ys, w);
      assert Waiting(xs + ys, w) == (if xs[0].to == w then [xs[0].message] else []) + (Waiting(xs[1..], w) + Waiting(ys, w));
    }
  }

  lemma {:induction false} WaitingBroadcast(workers: nat, m: ToWorker, w: ThreadId)
    ensures Waiting(Broadcast(workers, m), w) == if w < workers then [m] else []
  {
    if workers > 0 {
      var init := Broadcast(workers - 1, m);
      assert Broadcast(workers, m) == init + [Send(workers - 1, m)];
      WaitingBroadcast(workers - 1, m, w);
      WaitingConcat(init, [Send(workers - 1, m)], w);
      WaitingOne(Send(workers - 1, m), w);
    }
  }

  lemma WaitingOne(x: Send, w: ThreadId)
    ensures Waiting([x], w) == if x.to == w then [x.message] else []
  {
    assert [x][1..] == [];
  }

  lemma {:induction false} WaitingAssignments(txs: seq<Transaction>, w: ThreadId)
    ensures Waiting(Assignments(txs), w) == Script(TaggedFor(txs, w), 0)
  {
    if txs != [] {
      var init, t := txs[..|txs| - 1], txs[|txs| - 1];
      WaitingAssignments(init, w);
      match t.tag
      case DoneBy(x) =>
        WaitingConcat(Assignments(init), [Send(x, Assignment(t))], w);
        WaitingOne(Send(x, Assignment(t)), w);
      case _ =>
    }
  }

  lemma {:induction false} AssignmentsTo(txs: seq<Transaction>, workers: nat)
    requires forall t :: t in txs ==> t.tag.DoneBy? && t.tag.worker < workers
    ensures forall i :: 0 <= i < |Assignments(txs)| ==> Assignments(txs)[i].to < workers
  {
    if txs != [] {
      AssignmentsTo(txs[..|txs| - 1], workers);
      assert txs[|txs| - 1] in txs;
    }
  }

  // ---------------------------------------------------------------------------
  // Sums over workers.

  lemma TotalUpdate(ws: seq<Worker>, who: set<ThreadId>, f: Port -> nat, w: ThreadId, x: Worker)
    requires w < |ws|
    ensures TotalOf(ws[w := x], who, f) ==
            if w in who then TotalOf(ws, who, f) - f(ws[w].port) + f(x.port) else TotalOf(ws, who, f)
  {
    hide Sum;
    var share: nat := if w in who then f(x.port) else 0;
    assert Shares(ws[w := x], who, f) == Shares(ws, who, f)[w := share];
    SumUpdate(Shares(ws, who, f), w, share, Itself);
  }

  lemma TotalAdd(ws: seq<Worker>, who: set<ThreadId>, f: Port -> nat, w: ThreadId)
    requires w < |ws| && w !in who
    ensures TotalOf(ws, who + {w}, f) == TotalOf(ws, who, f) + f(ws[w].port)
  {
    hide Sum;
    assert Shares(ws, who + {w}, f) == Shares(ws, who, f)[w := f(ws[w].port)];
    SumUpdate(Shares(ws, who, f), w, f(ws[w].port), Itself);
  }

  lemma TotalCongruent(ws: seq<Worker>, who: set<ThreadId>, who': set<ThreadId>, f: Port -> nat)
    requires forall w :: 0 <= w < |ws| ==> (w in who <==> w in who')
    ensures TotalOf(ws, who, f) == TotalOf(ws, who', f)
  {
    assert Shares(ws, who, f) == Shares(ws, who', f);
  }

  lemma TotalZero(ws: seq<Worker>, who: set<ThreadId>, f: Port -> nat)
    requires forall w :: 0 <= w < |ws| ==> f(ws[w].port) == 0
    ensures TotalOf(ws, who, f) == 0
  {
    SumZero(Shares(ws, who, f));
  }

  // ---------------------------------------------------------------------------
  // What one changed fate leaves alone.

  /** No transaction with this id was given to a worker as its own. */
  ghost predicate NotAmong(given: seq<Transaction>, id: nat) {
    forall t :: t in given ==> t.body.id != id
  }

  /** The change concerns neither `v`'s queue of forwarded transactions nor its reports. */
  predicate Elsewhere(v: ThreadId, f: Fate) {
    f != Travelling(v) && f != ExecutedBy(v) && f != OrphanBy(v)
  }

  predicate SameFirstAttempt(f: Fate, g: Fate) {
    (f.Fresh? <==> g.Fresh?) && (f.Local? <==> g.Local?)
  }

  ghost predicate Harmless(task: Task, v: ThreadId, id: nat, f: Fate, g: Fate) {
    && Elsewhere(v, f) && Elsewhere(v, g)
    && (SameFirstAttempt(f, g) || NotAmong(Assigned(task, v), id))
  }

  lemma KeepUndisturbed(given: seq<Transaction>, fates: map<nat, Fate>, id: nat, g: Fate)
    requires id in fates
    requires SameFirstAttempt(fates[id], g) || NotAmong(given, id)
    ensures Keep(given, fates[id := g], IsLocal) == Keep(given, fates, IsLocal)
  {
    KeepSame(given, fates, fates[id := g], IsLocal);
  }

  lemma WorkerOf(task: Task, s: Sys, v: ThreadId)
    requires Books(task, s) && v < |s.workers|
    ensures WorkerOk(task, s, v)
  {
    hide WorkerOk, PoolOk, CountersOk, Basics;
  }

  lemma WorkerUndisturbed(task: Task, s: Sys, s': Sys, v: ThreadId, id: nat, g: Fate)
    requires v < |s.workers| && v < |s'.workers| && s'.workers[v] == s.workers[v] && WorkerOk(task, s, v)
    requires id in s.history.fates && s'.history.fates == s.history.fates[id := g]
    requires Waiting(s'.master.plan, v) == Waiting(s.master.plan, v) && s'.master.closing == s.master.closing
    requires v in s'.history.heard <==> v in s.history.heard
    requires TaggedFor(s'.history.moved, v) == TaggedFor(s.history.moved, v)
    requires Harmless(task, v, id, s.history.fates[id], g)
    ensures WorkerOk(task, s', v)
  {
    hide InboxOk, OthersOk, OutboxOk, LogOk, Waiting, TaggedFor, Elsewhere, SameFirstAttempt, NotAmong;
    var p, j := s.workers[v].port, s.workers[v].job;
    var given, fates := Assigned(task, v), s.history.fates;
    InboxUndisturbed(given, fates, Waiting(s.master.plan, v), s.master.closing, p, j, id, g);
    OthersUndisturbed(task.pool, fates, v, p, j, id, g);
    OutboxUndisturbed(fates, s.history.heard, s'.history.heard, v, p, id, g);
    LogUndisturbed(given, task.pool, fates, s.history.moved, s'.history.moved, v, p, id, g);
  }

  lemma InboxUndisturbed(given: seq<Transaction>, fates: map<nat, Fate>, waiting: seq<ToWorker>, closing: bool, p: Port, j: Job, id: nat, g: Fate)
    requires InboxOk(given, fates, waiting, closing, p, j) && id in fates
    requires SameFirstAttempt(fates[id], g) || NotAmong(given, id)
    ensures InboxOk(given, fates[id := g], waiting, closing, p, j)
  {
  }

  lemma OthersUndisturbed(pool: seq<Transaction>, fates: map<nat, Fate>, v: ThreadId, p: Port, j: Job, id: nat, g: Fate)
    requires OthersOk(pool, fates, v, p, j) && id in fates && Elsewhere(v, fates[id]) && Elsewhere(v, g)
    ensures OthersOk(pool, fates[id := g], v, p, j)
  {
  }

  lemma OutboxUndisturbed(fates: map<nat, Fate>, heard: set<ThreadId>, heard': set<ThreadId>, v: ThreadId, p: Port, id: nat, g: Fate)
    requires OutboxOk(fates, heard, v, p) && id in fates && (v in heard' <==> v in heard)
    requires Elsewhere(v, fates[id]) && Elsewhere(v, g)
    ensures OutboxOk(fates[id := g], heard', v, p)
  {
  }

  lemma LogUndisturbed(given: seq<Transaction>, pool: seq<Transaction>, fates: map<nat, Fate>, moved: seq<Transaction>,
                       moved': seq<Transaction>, v: ThreadId, p: Port, id: nat, g: Fate)
    requires LogOk(given, pool, fates, moved, v, p) && id in fates && TaggedFor(moved', v) == TaggedFor(moved, v)
    requires SameFirstAttempt(fates[id], g) || NotAmong(given, id)
    ensures LogOk(given, pool, fates[id := g], moved', v, p)
  {
    var prefix := given[..Processed(p)];
    assert NotAmong(given, id) ==> NotAmong(prefix, id);
    KeepUndisturbed(prefix, fates, id, g);
  }

  lemma SameOthers(pool: seq<Transaction>, fates: map<nat, Fate>, w: ThreadId, p: Port, i: Job, q: Port, j: Job)
    requires OthersOk(pool, fates, w, p, i) && q.others == p.others && (j == i || (!BusyAgain(i) && !BusyAgain(j)))
    ensures OthersOk(pool, fates, w, q, j)
  {
  }

  lemma SameReports(fates: map<nat, Fate>, heard: set<ThreadId>, w: ThreadId, p: Port, q: Port)
    requires OutboxOk(fates, heard, w, p) && q.outbox == p.outbox && (q.phase.Depleting? <==> p.phase.Depleting?)
    requires q.executed == p.executed && q.forwarded == p.forwarded
    ensures OutboxOk(fates, heard, w, q)
  {
  }

  lemma SameLog(given: seq<Transaction>, pool: seq<Transaction>, fates: map<nat, Fate>, moved: seq<Transaction>, w: ThreadId, p: Port, q: Port)
    requires LogOk(given, pool, fates, moved, w, p) && q.outbox == p.outbox && (q.phase.Depleting? ==> p.phase.Depleting?)
    requires q.executed == p.executed && q.forwarded == p.forwarded && q.log == p.log
    ensures LogOk(given, pool, fates, moved, w, q)
  {
  }
}
