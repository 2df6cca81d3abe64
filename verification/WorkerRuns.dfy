// The runtimes and the worker's loop in the transition systems: a worker that works off its
// queue with nobody in between is one of the schedules, and orphans and validation are
// executed as the sequential runtime executes.
module WorkerRuns {
  import opened Storage
  import opened TaintState
  import opened Program
  import opened Dispatch
  import opened Transactions
  import opened Protocol
  import opened Runtimes
  import opened RuntimeCalls
  import opened CacheRefinement
  import opened Progress
  import opened Validation
  import opened Threads

  predicate StepOf(l: Label, w: ThreadId) {
    match l
    case Receive(v) => v == w
    case Access(v) => v == w
    case CommitKey(v, _) => v == w
    case Settle(v) => v == w
    case _ => false
  }

  predicate StepsOf(schedule: seq<Label>, w: ThreadId) {
    forall l :: l in schedule ==> StepOf(l, w)
  }

  lemma {:induction false} ApplyAllConcat(s: Sys, first: seq<Label>, second: seq<Label>)
    ensures ApplyAll(s, first + second) == ApplyAll(ApplyAll(s, first), second)
  {
    hide Apply;
    if second == [] {
      assert first + second == first;
    } else {
      var init, l := second[..|second| - 1], second[|second| - 1];
      assert first + second == (first + init) + [l] && second == init + [l];
      ApplyAllConcat(s, first, init);
      ApplyAllSnoc(s, first + init, l);
      ApplyAllSnoc(ApplyAll(s, first), init, l);
    }
  }

  lemma OneLabel(s: Sys, l: Label)
    ensures ApplyAll(s, [l]) == Apply(s, l)
  {
    hide Apply;
    ApplyAllSnoc(s, [], l);
    assert [] + [l] == [l];
  }

  /** The worker has this transaction in hand, at this stage, and the state is as given. */
  function Holding(s: Sys, w: ThreadId, tx: Transaction, st: Stage, state: StateMap): Sys
    requires w < |s.workers|
  {
    SetJob(s.(state := state), w, Busy(tx, st))
  }

  /** The accesses of a dispatch, one after the other. */
  lemma {:induction false} Drives(s: Sys, w: ThreadId, tx: Transaction, st: Stage, state: StateMap) returns (schedule: seq<Label>)
    requires !s.panicked && w < |s.workers| && Drive(st, state, w).Move?
    ensures StepsOf(schedule, w)
    ensures var m := Drive(st, state, w);
            ApplyAll(Holding(s, w, tx, st, state), schedule) == Holding(s, w, tx, m.stage, m.state)
    decreases if st.Running? then st.fuel + 1 else 0
  {
    hide Apply, Advance;
    if st.Running? {
      var Move(st1, state1) := Advance(st, state, w);
      OneAccessHeld(s, w, tx, st, state);
      AdvanceFuel(st, state, w);
      var rest := Drives(s, w, tx, st1, state1);
      schedule := [Access(w)] + rest;
      ApplyAllConcat(Holding(s, w, tx, st, state), [Access(w)], rest);
      OneLabel(Holding(s, w, tx, st, state), Access(w));
    } else {
      schedule := [];
    }
  }

  lemma AdvanceFuel(st: Stage, state: StateMap, w: ThreadId)
    requires st.Running?
    ensures var m := Advance(st, state, w); m.Move? && m.stage.Running? ==> m.stage.fuel < st.fuel
  {
  }

  lemma OneAccessHeld(s: Sys, w: ThreadId, tx: Transaction, st: Stage, state: StateMap)
    requires !s.panicked && w < |s.workers| && st.Running? && Advance(st, state, w).Move?
    ensures var m := Advance(st, state, w);
            Apply(Holding(s, w, tx, st, state), Access(w)) == Holding(s, w, tx, m.stage, m.state)
  {
    hide Advance;
  }

  /** The commit, key by key. */
  lemma {:induction false} Commits(s: Sys, w: ThreadId, tx: Transaction, outcome: Outcome, rest: Store, state: StateMap)
    returns (schedule: seq<Label>)
    requires !s.panicked && w < |s.workers|
    ensures StepsOf(schedule, w)
    ensures ApplyAll(Holding(s, w, tx, Committing(outcome, rest), state), schedule) ==
            Holding(s, w, tx, Committing(outcome, map[]), Committed(state, rest, w))
    decreases rest.Keys
  {
    hide Apply, Committed;
    if k :| k in rest {
      var state1 := state[k := Entry(rest[k], Some(w))];
      CommitOne(state, rest, k, w);
      OneCommitHeld(s, w, tx, outcome, rest, state, k);
      var more := Commits(s, w, tx, outcome, rest - {k}, state1);
      schedule := [CommitKey(w, k)] + more;
      ApplyAllConcat(Holding(s, w, tx, Committing(outcome, rest), state), [CommitKey(w, k)], more);
      OneLabel(Holding(s, w, tx, Committing(outcome, rest), state), CommitKey(w, k));
    } else {
      assert rest == map[];
      NoneToCommit(state, w);
      schedule := [];
    }
  }

  lemma NoneToCommit(state: StateMap, w: ThreadId)
    ensures Committed(state, map[], w) == state
  {
  }

  lemma OneCommitHeld(s: Sys, w: ThreadId, tx: Transaction, outcome: Outcome, rest: Store, state: StateMap, k: Key)
    requires !s.panicked && w < |s.workers| && k in rest
    ensures Apply(Holding(s, w, tx, Committing(outcome, rest), state), CommitKey(w, k)) ==
            Holding(s, w, tx, Committing(outcome, rest - {k}), state[k := Entry(rest[k], Some(w))])
  {
  }

  // ---------------------------------------------------------------------------
  // One transaction.

  /** What the worker sees with an empty cache. */
  function SeenBy(s: Sys, w: ThreadId): Sight {
    Sight(true, w, s.state, map[])
  }

  /** The transactions of `handed` that go to `v`, in order. */
  function HandedTo(handed: seq<(ThreadId, Transaction)>, v: ThreadId): seq<Transaction> {
    if handed == [] then []
    else
      var init, h := HandedTo(handed[..|handed| - 1], v), handed[|handed| - 1];
      if h.0 == v then init + [h.1] else init
  }

  /** A worker that is free and has still to be told that the distribution is over. */
  predicate Depletes(s: Sys, w: ThreadId) {
    !s.panicked && w < |s.workers| && s.workers[w].job.Idle? && s.workers[w].port.phase.Depleting?
  }

  /** From `s` to `s'` the worker has done exactly `k`, and taken `n` messages. */
  ghost predicate Did(s: Sys, s': Sys, w: ThreadId, k: Worked, n: nat)
    requires w < |s.workers| == |s'.workers| && n <= |s.workers[w].port.inbox|
  {
    var p, p' := s.workers[w].port, s'.workers[w].port;
    && k.sight == SeenBy(s', w) && s'.master == s.master && s'.workers[w].job.Idle? && !s'.panicked
    && p'.inbox == p.inbox[n..] && p'.outbox == p.outbox + k.told && p'.phase == p.phase
    && p'.executed == p.executed + k.executed && p'.forwarded == p.forwarded + k.forwarded
    && (forall v :: 0 <= v < |s.workers| && v != w ==>
          s'.workers[v].port.others == s.workers[v].port.others + HandedTo(k.handed, v))
  }

  /** The result can be settled: no panic, and whoever the transaction would be handed to exists. */
  predicate Settles(workers: nat, tx: Transaction, r: CallResult) {
    !r.Aborted? && (r.Clash? && tx.status.Initial? && !r.corrupt ==> r.owner < workers)
  }

  lemma {:induction false} PerformKeeps(n: nat, p: Prog, u: Sight)
    requires u.limited
    ensures var r := Perform(n, p, u);
            r.sight.limited && r.sight.id == u.id && (r.result.Clash? ==> r.result.owner != u.id)
    decreases n
  {
    if n > 0 {
      match p
      case Read(k, _, next) => if Reach(u, k).Reached? { PerformKeeps(n - 1, next(Reach(u, k).value), Reach(u, k).sight); }
      case Write(k, v, _, rest) => if Put(u, k, v).Reached? { PerformKeeps(n - 1, rest, Put(u, k, v).sight); }
      case _ =>
    }
  }

  /** Taking it, its accesses, its commit, and settling it. */
  lemma OneTransaction(s: Sys, w: ThreadId, tx: Transaction) returns (schedule: seq<Label>)
    requires Depletes(s, w) && s.workers[w].port.inbox != [] && s.workers[w].port.inbox[0] == Assignment(tx)
    requires Settles(|s.workers|, tx, Dispatched(tx.body.call, SeenBy(s, w)).result)
    ensures StepsOf(schedule, w)
    ensures var s' := ApplyAll(s, schedule);
            Depletes(s', w) && |s'.workers| == |s.workers| && Did(s, s', w, WorkOff(SeenBy(s, w), [tx]), 1)
  {
    hide Apply, Drive, Perform, Committed, Did, WorkOff;
    var c := tx.body.call;
    var s1 := Taken(s, w, tx);
    PerformKeeps(c.steps, c.body, SeenBy(s, w));
    StagesAreTheRuntime(c.steps, c.body, SeenBy(s, w));
    var done := Perform(c.steps, c.body, SeenBy(s, w));
    var m := StageOf(done);
    var accesses := Drives(s1, w, tx, Start(c), s.state);
    var commits: seq<Label>, stage, state := [], m.stage, m.state;
    if m.stage.Committing? {
      commits := Commits(s1, w, tx, m.stage.outcome, m.stage.rest, m.state);
      stage, state := Committing(m.stage.outcome, map[]), Committed(m.state, m.stage.rest, w);
    }
    NoneToCommit(m.state, w);
    schedule := [Receive(w)] + accesses + commits + [Settle(w)];
    TakesIt(s, w, tx);
    OneLabel(s, Receive(w));
    ApplyAllConcat(s, [Receive(w)], accesses);
    ApplyAllConcat(s, [Receive(w)] + accesses, commits);
    ApplyAllSnoc(s, [Receive(w)] + accesses + commits, Settle(w));
    OneSettled(s, w, tx, stage, state, done.result);
  }

  /** The transaction has been taken from the queue. */
  function Taken(s: Sys, w: ThreadId, tx: Transaction): Sys
    requires w < |s.workers| && s.workers[w].port.inbox != []
  {
    var p := s.workers[w].port;
    Holding(SetPort(s, w, p.(inbox := p.inbox[1..])), w, tx, Start(tx.body.call), s.state)
  }

  lemma TakesIt(s: Sys, w: ThreadId, tx: Transaction)
    requires Depletes(s, w) && s.workers[w].port.inbox != [] && s.workers[w].port.inbox[0] == Assignment(tx)
    ensures Apply(s, Receive(w)) == Taken(s, w, tx) == Holding(Taken(s, w, tx), w, tx, Start(tx.body.call), s.state)
  {
  }

  /** The result a settled stage stands for. */
  predicate EndsAs(stage: Stage, r: CallResult) {
    match r
    case Fine => stage == Committing(Success, map[])
    case Logic(why) => stage == Committing(Failure(why), map[])
    case Clash(owner, corrupt) => stage == Tainted(owner, corrupt)
    case Aborted => false
  }

  lemma OneSettled(s: Sys, w: ThreadId, tx: Transaction, stage: Stage, state: StateMap, r: CallResult)
    requires Depletes(s, w) && s.workers[w].port.inbox != []
    requires Settles(|s.workers|, tx, r) && (r.Clash? ==> r.owner != w) && EndsAs(stage, r)
    requires r == Dispatched(tx.body.call, SeenBy(s, w)).result
    requires SeenBy(s.(state := state), w) == Dispatched(tx.body.call, SeenBy(s, w)).sight
    ensures var s' := Apply(Holding(Taken(s, w, tx), w, tx, stage, state), Settle(w));
            Depletes(s', w) && |s'.workers| == |s.workers| && Did(s, s', w, WorkOff(SeenBy(s, w), [tx]), 1)
  {
    hide Dispatched, WorkOff, HandedTo, Apply, Taken, ToldOf, HandedOf;
    assert [] + [tx] == [tx];
    NothingWorked(SeenBy(s, w));
    WorkNext(SeenBy(s, w), [], tx);
    SettlesHeld(s, w, tx, stage, state, r);
    var k := WorkOff(SeenBy(s, w), [tx]);
    assert [] + ToldOf(tx, r) == ToldOf(tx, r) && [] + HandedOf(tx, r) == HandedOf(tx, r);
    assert k.told == ToldOf(tx, r) && k.handed == HandedOf(tx, r);
  }

  /** The worker is free again, has told the master `told`, and others' queues have grown by what `to` says. */
  ghost predicate Freed(s: Sys, s': Sys, w: ThreadId, state: StateMap, told: seq<ToMaster>, executed: nat, forwarded: nat,
                        to: ThreadId -> seq<Transaction>)
    requires w < |s.workers| && s.workers[w].port.inbox != []
  {
    && Depletes(s', w) && |s'.workers| == |s.workers| && s'.state == state && s'.master == s.master
    && var p, p' := s.workers[w].port, s'.workers[w].port;
    && p'.inbox == p.inbox[1..] && p'.outbox == p.outbox + told && p'.phase == p.phase
    && p'.executed == p.executed + executed && p'.forwarded == p.forwarded + forwarded
    && (forall v :: 0 <= v < |s.workers| && v != w ==> s'.workers[v].port.others == s.workers[v].port.others + to(v))
  }

  lemma SettlesHeld(s: Sys, w: ThreadId, tx: Transaction, stage: Stage, state: StateMap, r: CallResult)
    requires Depletes(s, w) && s.workers[w].port.inbox != []
    requires Settles(|s.workers|, tx, r) && (r.Clash? ==> r.owner != w) && EndsAs(stage, r)
    ensures var s', o := Apply(Holding(Taken(s, w, tx), w, tx, stage, state), Settle(w)), OutcomeOf(tx, r);
            Freed(s, s', w, state, ToldOf(tx, r), if o.Executed? then 1 else 0,
                  if o.ForwardedTo? || o.ForwardedToMaster? then 1 else 0, (v: ThreadId) => HandedTo(HandedOf(tx, r), v))
  {
    hide HandedTo, Apply, Taken, Depletes, Freed;
    HandedOne(tx);
    match OutcomeOf(tx, r)
    case Executed => SettlesExecuted(s, w, tx, stage, state, (v: ThreadId) => HandedTo(HandedOf(tx, r), v));
    case ForwardedTo(owner) =>
      assert HandedOf(tx, r) == [(owner, tx)];
      SettlesForwarded(s, w, tx, stage, state, (v: ThreadId) => HandedTo(HandedOf(tx, r), v));
    case ForwardedToMaster => SettlesOrphan(s, w, tx, stage, state, (v: ThreadId) => HandedTo(HandedOf(tx, r), v));
    case Broke =>
  }

  lemma SettlesExecuted(s: Sys, w: ThreadId, tx: Transaction, stage: Stage, state: StateMap, to: ThreadId -> seq<Transaction>)
    requires Depletes(s, w) && s.workers[w].port.inbox != [] && stage.Committing? && stage.rest == map[] && forall v :: to(v) == []
    ensures Freed(s, Apply(Holding(Taken(s, w, tx), w, tx, stage, state), Settle(w)), w, state,
                  if tx.status.Forwarded? then [WorkerExecuted(tx.body.id)] else [], 1, 0, to)
  {
  }

  lemma SettlesOrphan(s: Sys, w: ThreadId, tx: Transaction, stage: Stage, state: StateMap, to: ThreadId -> seq<Transaction>)
    requires Depletes(s, w) && s.workers[w].port.inbox != [] && stage.Tainted? && (stage.corrupt || tx.status.Forwarded?)
    requires forall v :: to(v) == []
    ensures Freed(s, Apply(Holding(Taken(s, w, tx), w, tx, stage, state), Settle(w)), w, state, [WorkerOrphan(tx.body.id)], 0, 1, to)
  {
  }

  lemma SettlesForwarded(s: Sys, w: ThreadId, tx: Transaction, stage: Stage, state: StateMap, to: ThreadId -> seq<Transaction>)
    requires Depletes(s, w) && s.workers[w].port.inbox != [] && stage.Tainted? && !stage.corrupt && tx.status.Initial?
    requires stage.owner < |s.workers| && stage.owner != w && forall v :: to(v) == if v == stage.owner then [tx] else []
    ensures Freed(s, Apply(Holding(Taken(s, w, tx), w, tx, stage, state), Settle(w)), w, state, [], 0, 1, to)
  {
  }

  /** Nothing handed on, or one transaction. */
  lemma HandedOne(tx: Transaction)
    ensures forall v: ThreadId :: HandedTo([], v) == []
    ensures forall o: ThreadId, v: ThreadId :: HandedTo([(o, tx)], v) == if o == v then [tx] else []
  {
    forall o: ThreadId, v: ThreadId ensures HandedTo([(o, tx)], v) == if o == v then [tx] else [] {
      assert [(o, tx)][..0] == [];
    }
  }

  // ---------------------------------------------------------------------------
  // The whole queue.

  /** Whoever a transaction is handed to exists. */
  ghost predicate HandedWithin(handed: seq<(ThreadId, Transaction)>, workers: nat) {
    forall h :: h in handed ==> h.0 < workers
  }

  lemma HandedConcat(xs: seq<(ThreadId, Transaction)>, ys: seq<(ThreadId, Transaction)>, v: ThreadId)
    requires |ys| <= 1
    ensures HandedTo(xs + ys, v) == HandedTo(xs, v) + HandedTo(ys, v)
  {
    if ys == [] {
      assert xs + ys == xs;
    } else {
      assert (xs + ys)[..|xs|] == xs && ys[..0] == [];
    }
  }

  /** Its first `n` transactions. */
  lemma {:induction false} WorksOff(s: Sys, w: ThreadId, n: nat) returns (schedule: seq<Label>)
    requires Depletes(s, w) && n <= |s.workers[w].port.inbox|
    requires forall i :: 0 <= i < n ==> s.workers[w].port.inbox[i].Assignment?
    requires var k := WorkOff(SeenBy(s, w), SentTxs(s.workers[w].port.inbox, n));
             !k.broke && HandedWithin(k.handed, |s.workers|)
    ensures StepsOf(schedule, w)
    ensures var s' := ApplyAll(s, schedule);
            && Depletes(s', w) && |s'.workers| == |s.workers|
            && Did(s, s', w, WorkOff(SeenBy(s, w), SentTxs(s.workers[w].port.inbox, n)), n)
  {
    hide ApplyAll, Did, WorkOff, Dispatched;
    var inbox := s.workers[w].port.inbox;
    if n == 0 {
      schedule := [];
      NoLabel(s);
      assert SentTxs(inbox, 0) == [];
      NothingWorked(SeenBy(s, w));
      DidNothing(s, w);
    } else {
      var tx := inbox[n - 1].tx;
      assert SentTxs(inbox, n) == SentTxs(inbox, n - 1) + [tx];
      NotBrokeBefore(SeenBy(s, w), SentTxs(inbox, n - 1), tx);
      var before := WorksOff(s, w, n - 1);
      var s1 := ApplyAll(s, before);
      NextInbox(s, s1, w, SentTxs(inbox, n - 1), tx);
      var more := OneTransaction(s1, w, tx);
      schedule := before + more;
      ApplyAllConcat(s, before, more);
      DidOneMore(s, s1, ApplyAll(s1, more), w, SentTxs(inbox, n - 1), tx);
    }
  }

  lemma NoLabel(s: Sys)
    ensures ApplyAll(s, []) == s
  {
  }

  lemma DidNothing(s: Sys, w: ThreadId)
    requires Depletes(s, w)
    ensures Did(s, s, w, Worked(SeenBy(s, w), [], [], 0, 0, false), 0)
  {
  }

  lemma NotBrokeBefore(u: Sight, txs: seq<Transaction>, tx: Transaction)
    requires !WorkOff(u, txs + [tx]).broke
    ensures !WorkOff(u, txs).broke && !Dispatched(tx.body.call, WorkOff(u, txs).sight).result.Aborted?
    ensures WorkOff(u, txs).handed <= WorkOff(u, txs + [tx]).handed
    ensures forall h :: h in HandedOf(tx, Dispatched(tx.body.call, WorkOff(u, txs).sight).result) ==> h in WorkOff(u, txs + [tx]).handed
  {
    hide WorkOff, Dispatched, ToldOf, HandedOf, OutcomeOf;
    LastWorked(u, txs, tx);
  }

  lemma LastWorked(u: Sight, txs: seq<Transaction>, tx: Transaction)
    ensures var k, all := WorkOff(u, txs), WorkOff(u, txs + [tx]);
            var r := Dispatched(tx.body.call, k.sight).result;
            && (k.broke ==> all == k)
            && (!k.broke ==> all.broke == OutcomeOf(tx, r).Broke? && all.handed == k.handed + HandedOf(tx, r))
    ensures forall t, r :: OutcomeOf(t, r).Broke? <==> r.Aborted?
  {
    hide Dispatched, ToldOf, HandedOf;
    assert (txs + [tx])[..|txs|] == txs;
  }

  /** The next transaction is there, and what becomes of it can be settled. */
  lemma NextInbox(s: Sys, s1: Sys, w: ThreadId, txs: seq<Transaction>, tx: Transaction)
    requires w < |s.workers| == |s1.workers| && |txs| < |s.workers[w].port.inbox| && s.workers[w].port.inbox[|txs|] == Assignment(tx)
    requires !WorkOff(SeenBy(s, w), txs + [tx]).broke
    requires HandedWithin(WorkOff(SeenBy(s, w), txs + [tx]).handed, |s.workers|)
    requires Did(s, s1, w, WorkOff(SeenBy(s, w), txs), |txs|)
    ensures s1.workers[w].port.inbox != [] && s1.workers[w].port.inbox[0] == Assignment(tx)
    ensures Settles(|s.workers|, tx, Dispatched(tx.body.call, SeenBy(s1, w)).result)
  {
    hide WorkOff, Dispatched;
    NotBrokeBefore(SeenBy(s, w), txs, tx);
    var r := Dispatched(tx.body.call, SeenBy(s1, w)).result;
    if r.Clash? && tx.status.Initial? && !r.corrupt {
      assert HandedOf(tx, r) == [(r.owner, tx)];
      assert (r.owner, tx) in HandedOf(tx, r);
    }
  }

  lemma DidOneMore(s: Sys, s1: Sys, s2: Sys, w: ThreadId, txs: seq<Transaction>, tx: Transaction)
    requires w < |s.workers| == |s1.workers| == |s2.workers| && |txs| < |s.workers[w].port.inbox|
    requires !WorkOff(SeenBy(s, w), txs).broke && Did(s, s1, w, WorkOff(SeenBy(s, w), txs), |txs|)
    requires s1.workers[w].port.inbox != [] && Did(s1, s2, w, WorkOff(SeenBy(s1, w), [tx]), 1)
    ensures Did(s, s2, w, WorkOff(SeenBy(s, w), txs + [tx]), |txs| + 1)
  {
    hide WorkOff, Dispatched, HandedTo, ToldOf, HandedOf;
    var k, r := WorkOff(SeenBy(s, w), txs), Dispatched(tx.body.call, SeenBy(s1, w)).result;
    WorkNext(SeenBy(s, w), txs, tx);
    assert [] + [tx] == [tx];
    NothingWorked(SeenBy(s1, w));
    WorkNext(SeenBy(s1, w), [], tx);
    assert [] + ToldOf(tx, r) == ToldOf(tx, r) && [] + HandedOf(tx, r) == HandedOf(tx, r);
    AtMostOne(tx, r);
    forall v: ThreadId ensures HandedTo(k.handed + HandedOf(tx, r), v) == HandedTo(k.handed, v) + HandedTo(HandedOf(tx, r), v) {
      HandedConcat(k.handed, HandedOf(tx, r), v);
    }
  }

  lemma AtMostOne(tx: Transaction, r: CallResult)
    ensures |HandedOf(tx, r)| <= 1
  {
  }

  /**
    Working off the queue up to the end of the distribution, as the worker's own loop does, is
    a run of the transition system in which only this worker moves: it leaves the state, tells
    the master, hands to the others and counts what the loop does, and then serves.
   */
  lemma DepletingIsARun(s: Sys, w: ThreadId, n: nat) returns (schedule: seq<Label>)
    requires Depletes(s, w) && DistributedUpTo(s.workers[w].port.inbox, n)
    requires var k := WorkOff(SeenBy(s, w), SentTxs(s.workers[w].port.inbox, n));
             !k.broke && HandedWithin(k.handed, |s.workers|)
    ensures StepsOf(schedule, w)
    ensures var k, s' := WorkOff(SeenBy(s, w), SentTxs(s.workers[w].port.inbox, n)), ApplyAll(s, schedule);
            && !s'.panicked && |s'.workers| == |s.workers| && s'.state == k.sight.state && s'.master == s.master
            && var p, p' := s.workers[w].port, s'.workers[w].port;
            && s'.workers[w].job.Idle? && p'.phase.Serving? && p'.inbox == p.inbox[n + 1..]
            && p'.executed == p.executed + k.executed && p'.forwarded == p.forwarded + k.forwarded
            && p'.outbox == p.outbox + k.told + [AuthoringReport(p'.executed, p'.forwarded)]
            && (forall v :: 0 <= v < |s.workers| && v != w ==>
                  s'.workers[v].port.others == s.workers[v].port.others + HandedTo(k.handed, v))
  {
    hide ApplyAll, WorkOff, HandedTo;
    var work := WorksOff(s, w, n);
    schedule := work + [Receive(w)];
    ApplyAllSnoc(s, work, Receive(w));
    var s1 := ApplyAll(s, work);
    assert s1.workers[w].port.inbox[0] == DistributionDone;
  }

  // ---------------------------------------------------------------------------
  // The sequential runtime in the transition systems.

  /** The master's execution of an orphan is the sequential runtime's, down to the taints it wipes. */
  lemma {:induction false} OrphanIsTheRuntime(n: nat, p: Prog, s: StateMap, id: ThreadId)
    ensures var (outcome, state) := ExecState(n, p, s);
            var r := Perform(n, p, Sight(false, id, s, map[]));
            && state == r.sight.state
            && (match r.result
                case Fine => outcome == Success
                case Logic(why) => outcome == Failure(why)
                case Aborted => outcome == Panicked
                case Clash(_, _) => false)
    decreases n
  {
    if n > 0 {
      match p
      case Read(k, _, next) => OrphanIsTheRuntime(n - 1, next(Get(Data(s), k)), s, id);
      case Write(k, v, _, rest) => OrphanIsTheRuntime(n - 1, rest, s[k := Entry(v, None)], id);
      case _ =>
    }
  }

  /** Validation begins without a panic, and distributes without one, exactly if the master's own loop does. */
  lemma DistributesAsChecked(workers: nat, block: seq<Transaction>, state: StateMap)
    ensures var c := BeginCheck(workers, block, state);
            (!c.panicked && forall x :: x in c.master.plan ==> x.to < workers) <==>
            (forall t :: t in block ==> t.tag.OrphanTag? || (t.tag.DoneBy? && t.tag.worker < workers))
    ensures BeginCheck(workers, block, state).master.orphans == Orphans(block)
  {
    hide Assignments, Orphans, Broadcast;
    var c := BeginCheck(workers, block, state);
    AssignmentsTo(block);
    BroadcastTo(workers, DistributionDone);
    forall x ensures x in c.master.plan <==> x in Assignments(block) || x in Broadcast(workers, DistributionDone) {
    }
    if forall t :: t in block ==> t.tag.OrphanTag? || (t.tag.DoneBy? && t.tag.worker < workers) {
      forall x | x in c.master.plan ensures x.to < workers {
      }
    } else {
      var t :| t in block && !(t.tag.OrphanTag? || (t.tag.DoneBy? && t.tag.worker < workers));
      var i :| 0 <= i < |block| && block[i] == t;
      if t.tag.DoneBy? {
        assert Send(t.tag.worker, Assignment(t)) in c.master.plan;
      }
    }
  }

  lemma {:induction false} AssignmentsTo(txs: seq<Transaction>)
    ensures forall x :: x in Assignments(txs) ==> x.message.Assignment? && x.message.tx in txs && x.message.tx.tag == DoneBy(x.to)
    ensures forall t :: t in txs && t.tag.DoneBy? ==> Send(t.tag.worker, Assignment(t)) in Assignments(txs)
  {
    if txs != [] {
      var init, t := txs[..|txs| - 1], txs[|txs| - 1];
      AssignmentsTo(init);
      assert txs == init + [t];
    }
  }

  lemma BroadcastTo(workers: nat, m: ToWorker)
    ensures forall x :: x in Broadcast(workers, m) ==> x.to < workers
  {
  }

  /** A validating worker's step is the sequential runtime's next access: what it has still to perform stays the same. */
  lemma ReplayIsTheRuntime(c: Check, w: ThreadId)
    requires Possible(c, OneAccess(w))
    ensures var Executing(t, n, p) := c.replayers[w].execution;
            var c', r := DoOneAccess(c, w), Perform(n, p, Sight(false, w, c.state, map[]));
            && (c'.panicked ==> r.result.Aborted?)
            && (!c'.panicked && c'.replayers[w].execution.Executing? ==>
                  c'.replayers[w].execution.tx == t &&
                  r == Perform(c'.replayers[w].execution.steps, c'.replayers[w].execution.prog, Sight(false, w, c'.state, map[])))
            && (!c'.panicked && c'.replayers[w].execution.Resting? ==> r.sight.state == c'.state && (r.result.Fine? || r.result.Logic?))
            && (forall v :: 0 <= v < |c.replayers| && v != w ==> c'.replayers[v] == c.replayers[v])
  {
  }
}
