// Authoring a block, whatever the schedule: what every reachable state satisfies, and
// what the block and the state are at the end.
module Authoring {
  import opened Storage
  import opened TaintState
  import opened Program
  import opened Dispatch
  import opened Transactions
  import opened Protocol
  import opened Sequences
  import opened Bookkeeping
  import opened Undisturbed
  import opened BooksKept
  import opened BooksReceive
  import opened BooksSettle
  import opened BooksHear
  import opened Serializability

  // ---------------------------------------------------------------------------
  // The shared state during the concurrent phase.

  /**
    A worker owns every key its executed transactions touched, and sees on the keys it may
    read what running those transactions alone, from the initial state, gives.
   */
  ghost predicate WorkerData(d: Store, s: StateMap, w: ThreadId, log: seq<Body>, j: Job) {
    && Confined(log, d, Own(s, w))
    && match j
       case Idle => Views(Run(d, log), s, w, map[])
       case Busy(tx, stage) => Coherent(tx.body.call, Run(d, log), stage, s, w)
  }

  ghost predicate OwnersOk(workers: nat, s: StateMap) {
    forall k :: Owner(s, k) != None ==> Owner(s, k).value < workers
  }

  ghost predicate UnownedKept(d: Store, s: StateMap) {
    forall k :: Owner(s, k) == None ==> Get(Data(s), k) == Get(d, k)
  }

  ghost predicate ConcurrentData(task: Task, s: Sys) {
    var d := Data(task.initial);
    && (forall w :: 0 <= w < |s.workers| ==> WorkerData(d, s.state, w, s.workers[w].port.log, s.workers[w].job))
    && OwnersOk(|s.workers|, s.state)
    && UnownedKept(d, s.state)
  }

  /** After the concurrent phase: the pool, in its order, and the orphans executed so far. */
  ghost predicate OrphanData(task: Task, s: Sys)
    requires s.master.played <= |s.master.orphans|
  {
    Same(Data(s.state),
         Run(Run(Data(task.initial), Bodies(s.master.pool)), Bodies(s.master.orphans[..s.master.played])))
  }

  ghost predicate Inv(task: Task, s: Sys) {
    && Books(task, s)
    && (!s.master.closing ==> ConcurrentData(task, s))
    && (s.master.closing ==> OrphanData(task, s))
  }

  // ---------------------------------------------------------------------------
  // Steps of one worker on the state.

  lemma OthersKeepData(d: Store, s: StateMap, s': StateMap, w: ThreadId, v: ThreadId, log: seq<Body>, j: Job)
    requires WorkerData(d, s, v, log, j) && ActsAlone(s, s', w) && v != w
    ensures WorkerData(d, s', v, log, j)
  {
    OthersKeepViews(s, s', v, w);
    match j
    case Idle =>
    case Busy(tx, stage) => OthersKeepCoherent(tx.body.call, Run(d, log), stage, s, s', v, w);
  }

  lemma ActorData(task: Task, s: Sys, s': Sys, w: ThreadId)
    requires ConcurrentData(task, s) && w < |s.workers| == |s'.workers| && ActsAlone(s.state, s'.state, w)
    requires forall v :: 0 <= v < |s.workers| && v != w ==>
               s'.workers[v].port.log == s.workers[v].port.log && s'.workers[v].job == s.workers[v].job
    requires WorkerData(Data(task.initial), s'.state, w, s'.workers[w].port.log, s'.workers[w].job)
    ensures ConcurrentData(task, s')
  {
    hide WorkerData;
    var d := Data(task.initial);
    forall v | 0 <= v < |s'.workers| ensures WorkerData(d, s'.state, v, s'.workers[v].port.log, s'.workers[v].job) {
      if v != w {
        OthersKeepData(d, s.state, s'.state, w, v, s.workers[v].port.log, s.workers[v].job);
      }
    }
    forall k | Owner(s'.state, k) == None ensures Get(Data(s'.state), k) == Get(d, k) {
      assert Owner(s.state, k) == None;
    }
  }

  lemma StandsStill(s: StateMap, w: ThreadId)
    ensures ActsAlone(s, s, w)
  {
  }

  /** Ownership growing leaves what a log is confined to, and what it gives, as it was. */
  lemma GrownData(d: Store, s: StateMap, s': StateMap, w: ThreadId, log: seq<Body>)
    requires Confined(log, d, Own(s, w)) && ActsAlone(s, s', w)
    ensures Confined(log, d, Own(s', w))
  {
    forall k | k in Own(s, w) ensures k in Own(s', w) {
      assert Owner(s, k) == Some(w);
    }
    ConfinedMonotone(log, d, Own(s, w), Own(s', w));
  }

  /** The transaction a worker has in hand is one of the task's, and does not panic where the worker executes it. */
  lemma InHand(task: Task, s: Sys, w: ThreadId, inv: Store -> bool)
    requires TaskValid(task) && TaskSafe(task, inv) && Books(task, s) && w < |s.workers| && s.workers[w].job.Busy?
    ensures var c := s.workers[w].job.tx.body.call;
            DisciplinedCall(c) && ExecCall(c, Run(Data(task.initial), s.workers[w].port.log)).outcome != Panicked
  {
    var tx, log := s.workers[w].job.tx, s.workers[w].port.log;
    if BusyFirst(s.workers[w].job) {
      FirstFacts(task, s, w);
    } else {
      AgainFacts(task, s, w);
    }
    SafeBody(task, inv, tx.body);
    SafeView(task, s, w, inv);
    var view := Run(Data(task.initial), log);
    assert inv(view) && Preserves(inv, tx.body.call);
  }

  lemma SafeBody(task: Task, inv: Store -> bool, b: Body)
    requires TaskSafe(task, inv) && b in Bodies(task.pool)
    ensures DisciplinedCall(b.call) && Preserves(inv, b.call)
  {
    var i :| 0 <= i < |task.pool| && Bodies(task.pool)[i] == b;
    assert task.pool[i] in task.pool;
  }

  lemma SafeView(task: Task, s: Sys, w: ThreadId, inv: Store -> bool)
    requires TaskSafe(task, inv) && w < |s.workers| && WorkerOk(task, s, w)
    ensures inv(Run(Data(task.initial), s.workers[w].port.log))
  {
    var log := s.workers[w].port.log;
    LogOf(task, s, w);
    forall b | b in log ensures Preserves(inv, b.call) {
      SafeBody(task, inv, b);
    }
    RunPreserves(inv, Data(task.initial), log);
  }

  lemma AccessInv(task: Task, s: Sys, w: ThreadId, inv: Store -> bool)
    requires TaskValid(task) && TaskSafe(task, inv) && Inv(task, s) && Ready(s, Access(w))
    ensures Inv(task, DoAccess(s, w))
  {
    hide Books, TaskSafe, TaskValid;
    var s' := DoAccess(s, w);
    var Busy(tx, stage) := s.workers[w].job;
    var log := s.workers[w].port.log;
    var d := Data(task.initial);
    InHand(task, s, w, inv);
    BusyNotClosing(task, s, w);
    assert WorkerData(d, s.state, w, log, s.workers[w].job);
    AdvanceCoherent(tx.body.call, Run(d, log), stage, s.state, w);
    GrownData(d, s.state, s'.state, w, log);
    ActorData(task, s, s', w);
    JobBooks(task, s, s', w);
  }

  lemma CommitInv(task: Task, s: Sys, w: ThreadId, k: Key)
    requires TaskValid(task) && Inv(task, s) && Ready(s, CommitKey(w, k))
    ensures Inv(task, DoCommit(s, w, k))
  {
    hide Books, TaskValid;
    var s' := DoCommit(s, w, k);
    var Busy(tx, stage) := s.workers[w].job;
    var log := s.workers[w].port.log;
    var d := Data(task.initial);
    BusyNotClosing(task, s, w);
    assert WorkerData(d, s.state, w, log, s.workers[w].job);
    CommitCoherent(tx.body.call, Run(d, log), stage, s.state, k, w);
    GrownData(d, s.state, s'.state, w, log);
    ActorData(task, s, s', w);
    JobBooks(task, s, s', w);
  }

  // ---------------------------------------------------------------------------
  // Steps that leave the state alone.

  /** Nobody's log or job changes. */
  lemma DataUntouched(task: Task, s: Sys, s': Sys)
    requires ConcurrentData(task, s) && |s.workers| == |s'.workers| && s'.state == s.state
    requires forall v :: 0 <= v < |s.workers| ==>
               s'.workers[v].port.log == s.workers[v].port.log && s'.workers[v].job == s.workers[v].job
    ensures ConcurrentData(task, s')
  {
    hide WorkerData, OwnersOk, UnownedKept;
  }

  /** A worker starts on a transaction. */
  lemma StartData(task: Task, s: Sys, s': Sys, w: ThreadId)
    requires ConcurrentData(task, s) && w < |s.workers| == |s'.workers| && s'.state == s.state
    requires forall v :: 0 <= v < |s.workers| && v != w ==>
               s'.workers[v].port.log == s.workers[v].port.log && s'.workers[v].job == s.workers[v].job
    requires s.workers[w].job.Idle? && s'.workers[w].port.log == s.workers[w].port.log && s'.workers[w].job.Busy?
    requires var c := s'.workers[w].job.tx.body.call;
             DisciplinedCall(c) && s'.workers[w].job.stage == Start(c)
    ensures ConcurrentData(task, s')
  {
    var d, log := Data(task.initial), s.workers[w].port.log;
    assert WorkerData(d, s.state, w, log, s.workers[w].job);
    StartCoherent(s'.workers[w].job.tx.body.call, Run(d, log), s.state, w);
    StandsStill(s.state, w);
    ActorData(task, s, s', w);
  }

  lemma ReceiveEffect(s: Sys, w: ThreadId)
    requires Ready(s, Receive(w))
    ensures var s' := DoReceive(s, w);
            && |s'.workers| == |s.workers| && s'.state == s.state && s'.master == s.master
            && (forall v :: 0 <= v < |s.workers| ==> s'.workers[v].port.log == s.workers[v].port.log)
            && (forall v :: 0 <= v < |s.workers| && v != w ==> s'.workers[v].job == s.workers[v].job)
            && (s'.workers[w].job.Busy? ==> s'.workers[w].job.stage == Start(s'.workers[w].job.tx.body.call))
  {
  }

  lemma ReceiveInv(task: Task, s: Sys, w: ThreadId, inv: Store -> bool)
    requires TaskValid(task) && TaskSafe(task, inv) && Inv(task, s) && Ready(s, Receive(w))
    ensures Inv(task, DoReceive(s, w))
  {
    hide DoReceive, Books, TaskValid, TaskSafe, ConcurrentData;
    var s' := DoReceive(s, w);
    ReceiveEffect(s, w);
    ReceiveBooks(task, s, w);
    if s'.workers[w].job.Busy? {
      BusyNotClosing(task, s', w);
      InHand(task, s', w, inv);
      StartData(task, s, s', w);
    } else if !s.master.closing {
      DataUntouched(task, s, s');
    }
  }

  lemma BusyNotClosing(task: Task, s: Sys, w: ThreadId)
    requires Books(task, s) && w < |s.workers| && s.workers[w].job.Busy?
    ensures !s.master.closing
  {
  }

  lemma ReceiveOtherInv(task: Task, s: Sys, w: ThreadId, i: nat, inv: Store -> bool)
    requires TaskValid(task) && TaskSafe(task, inv) && Inv(task, s) && Ready(s, ReceiveOther(w, i))
    ensures Inv(task, DoReceiveOther(s, w, i))
  {
    hide Books, TaskValid, TaskSafe, ConcurrentData;
    ReceiveOtherBooks(task, s, w, i);
    BusyNotClosing(task, DoReceiveOther(s, w, i), w);
    InHand(task, DoReceiveOther(s, w, i), w, inv);
    StartData(task, s, DoReceiveOther(s, w, i), w);
  }

  lemma SettleData(task: Task, s: Sys, s': Sys, w: ThreadId)
    requires ConcurrentData(task, s) && w < |s.workers| == |s'.workers| && s'.state == s.state && s.workers[w].job.Busy?
    requires forall v :: 0 <= v < |s.workers| && v != w ==>
               s'.workers[v].port.log == s.workers[v].port.log && s'.workers[v].job == s.workers[v].job
    requires s'.workers[w].job.Idle?
    requires var stage, log := s.workers[w].job.stage, s.workers[w].port.log;
             (stage.Tainted? && s'.workers[w].port.log == log) ||
             (stage.Committing? && stage.rest == map[] && s'.workers[w].port.log == log + [s.workers[w].job.tx.body])
    ensures ConcurrentData(task, s')
  {
    var d, log, b := Data(task.initial), s.workers[w].port.log, s.workers[w].job.tx.body;
    assert WorkerData(d, s.state, w, log, s.workers[w].job);
    if s.workers[w].job.stage.Committing? {
      RunSnoc(d, log, b);
      ConfinedSnoc(log, b, d, Own(s.state, w));
    }
    StandsStill(s.state, w);
    ActorData(task, s, s', w);
  }

  /** Settling ends the job, and logs the transaction if it was executed. */
  lemma SettleShape(task: Task, s: Sys, w: ThreadId)
    requires TaskValid(task) && Books(task, s) && Ready(s, Settle(w))
    requires s.workers[w].job.stage.Tainted? ==> s.workers[w].job.stage.owner < |s.workers| && s.workers[w].job.stage.owner != w
    ensures var s', stage, log := DoSettle(s, w), s.workers[w].job.stage, s.workers[w].port.log;
            && |s'.workers| == |s.workers| && s'.state == s.state && s'.master == s.master
            && (forall v :: 0 <= v < |s.workers| && v != w ==>
                  s'.workers[v].port.log == s.workers[v].port.log && s'.workers[v].job == s.workers[v].job)
            && s'.workers[w].job.Idle?
            && ((stage.Tainted? && s'.workers[w].port.log == log) ||
                (stage.Committing? && stage.rest == map[] && s'.workers[w].port.log == log + [s.workers[w].job.tx.body]))
  {
    hide DoSettle, Books, TaskValid;
    if BusyFirst(s.workers[w].job) {
      FirstFacts(task, s, w);
      FirstEffect(s, w);
    } else {
      AgainFacts(task, s, w);
      AgainEffect(s, w);
    }
  }

  lemma SettleBooks(task: Task, s: Sys, w: ThreadId)
    requires TaskValid(task) && Books(task, s) && Ready(s, Settle(w))
    requires s.workers[w].job.stage.Tainted? ==> s.workers[w].job.stage.owner < |s.workers| && s.workers[w].job.stage.owner != w
    ensures Books(task, DoSettle(s, w))
  {
    hide Books, TaskValid, DoSettle;
    var j := s.workers[w].job;
    if BusyAgain(j) {
      SettleAgainBooks(task, s, w);
    } else if j.stage.Tainted? && !j.stage.corrupt {
      SettleForwardBooks(task, s, w);
    } else {
      SettleFirstBooks(task, s, w);
    }
  }

  lemma SettleInv(task: Task, s: Sys, w: ThreadId)
    requires TaskValid(task) && Inv(task, s) && Ready(s, Settle(w))
    ensures Inv(task, DoSettle(s, w))
  {
    hide Books, TaskValid, DoSettle, ConcurrentData;
    BusyNotClosing(task, s, w);
    if s.workers[w].job.stage.Tainted? {
      TaintOwner(task, s, w);
    }
    SettleShape(task, s, w);
    SettleBooks(task, s, w);
    SettleData(task, s, DoSettle(s, w), w);
  }

  lemma TaintOwner(task: Task, s: Sys, w: ThreadId)
    requires ConcurrentData(task, s) && w < |s.workers| && s.workers[w].job.Busy? && s.workers[w].job.stage.Tainted?
    ensures s.workers[w].job.stage.owner != w && s.workers[w].job.stage.owner < |s.workers|
  {
    assert WorkerData(Data(task.initial), s.state, w, s.workers[w].port.log, s.workers[w].job);
  }

  // ---------------------------------------------------------------------------
  // The master's steps.

  lemma SendInv(task: Task, s: Sys)
    requires TaskValid(task) && Inv(task, s) && Ready(s, MasterSend)
    ensures Inv(task, DoSend(s))
  {
    SendBooks(task, s);
    assert s.master.plan[0].to < |s.workers|;
    if !s.master.closing {
      DataUntouched(task, s, DoSend(s));
    }
  }

  lemma MasterReceiveInv(task: Task, s: Sys, w: ThreadId)
    requires TaskValid(task) && Inv(task, s) && Ready(s, MasterReceive(w))
    ensures Inv(task, DoMasterReceive(s, w))
  {
    hide Books, TaskValid, DoMasterReceive;
    MasterReceiveBooks(task, s, w);
    MasterReceiveShape(s, w);
    DataUntouched(task, s, DoMasterReceive(s, w));
  }

  lemma MasterReceiveShape(s: Sys, w: ThreadId)
    requires Ready(s, MasterReceive(w))
    ensures var s' := DoMasterReceive(s, w);
            && |s'.workers| == |s.workers| && s'.state == s.state && s'.master.closing == s.master.closing
            && (forall v :: 0 <= v < |s.workers| ==>
                  s'.workers[v].port.log == s.workers[v].port.log && s'.workers[v].job == s.workers[v].job)
  {
  }

  /** When the collection ends, the state is what the pool, executed in its order, gives. */
  lemma CollectedData(task: Task, s: Sys)
    requires TaskValid(task) && Books(task, s) && ConcurrentData(task, s) && Quiet(task, s)
    ensures Same(Data(s.state), Run(Data(task.initial), Bodies(s.master.pool)))
  {
    var d, pool := Data(task.initial), s.master.pool;
    forall w: ThreadId ensures Confined(Bodies(TaggedFor(pool, w)), d, Own(s.state, w)) {
      if w < |s.workers| {
        OrderPreserved(task, s, w);
        assert WorkerData(d, s.state, w, s.workers[w].port.log, s.workers[w].job);
      } else {
        NobodyElse(task, s, w);
      }
    }
    PoolTagged(task, s);
    RunByWorker(pool, d, s.state);
    forall k ensures Get(Data(s.state), k) == Get(Run(d, Bodies(pool)), k) {
      match Owner(s.state, k)
      case None =>
      case Some(w) =>
        assert w < |s.workers| && k in Own(s.state, w);
        OrderPreserved(task, s, w);
        assert WorkerData(d, s.state, w, s.workers[w].port.log, s.workers[w].job);
        assert Open(s.state, k, w);
    }
  }

  lemma {:induction false} NobodyTagged(txs: seq<Transaction>, w: ThreadId)
    requires forall t :: t in txs ==> t.tag != DoneBy(w)
    ensures TaggedFor(txs, w) == []
  {
    if txs != [] {
      assert txs[|txs| - 1] in txs;
      NobodyTagged(txs[..|txs| - 1], w);
    }
  }

  lemma NobodyElse(task: Task, s: Sys, w: ThreadId)
    requires TaskValid(task) && PoolOk(task, s) && |s.workers| == task.workers <= w
    ensures TaggedFor(s.master.pool, w) == []
  {
    var kept := Keep(task.pool, s.history.fates, Unresolved);
    forall t | t in s.master.pool ensures t.tag != DoneBy(w) {
      assert t in kept || t in s.history.moved;
    }
    NobodyTagged(s.master.pool, w);
  }

  lemma BreakInv(task: Task, s: Sys)
    requires TaskValid(task) && Inv(task, s) && Ready(s, MasterBreak)
    ensures Inv(task, Apply(s, MasterBreak))
  {
    hide Books;
    BreakQuiet(task, s);
    BreakBooks(task, s);
    CollectedData(task, s);
    BreakShape(task, s);
  }

  lemma BreakShape(task: Task, s: Sys)
    requires Books(task, s) && Ready(s, MasterBreak)
    ensures var s' := Apply(s, MasterBreak);
            s'.master.closing && s'.state == s.state && s'.master.pool == s.master.pool &&
            s'.master.orphans[..s'.master.played] == []
  {
  }

  /** The stores two equal-valued starts lead to are equal-valued. */
  lemma ExecSame(c: Call, d: Store, e: Store)
    requires Same(d, e)
    ensures Same(ExecCall(c, d).store, ExecCall(c, e).store) && ExecCall(c, d).outcome == ExecCall(c, e).outcome
    ensures CallKeys(c, d) == CallKeys(c, e)
  {
    ExecAgree(c.steps, c.body, d, e, CallKeys(c, d));
    forall k ensures Get(ExecCall(c, d).store, k) == Get(ExecCall(c, e).store, k) {
      if k !in CallKeys(c, d) {
        ExecFrame(c.steps, c.body, d, k);
        ExecFrame(c.steps, c.body, e, k);
      }
    }
  }

  lemma {:induction false} RunSame(txs: seq<Body>, d: Store, e: Store)
    requires Same(d, e)
    ensures Same(Run(d, txs), Run(e, txs))
  {
    if txs != [] {
      RunSame(txs[..|txs| - 1], d, e);
      ExecSame(txs[|txs| - 1].call, Run(d, txs[..|txs| - 1]), Run(e, txs[..|txs| - 1]));
    }
  }

  /** Every body in the master's pool or orphans is one of the task's. */
  lemma BlockBodies(task: Task, s: Sys)
    requires PoolOk(task, s)
    ensures forall b :: b in Bodies(s.master.pool) ==> b in Bodies(task.pool)
    ensures forall b :: b in Bodies(s.master.orphans) ==> b in Bodies(task.pool)
  {
    var kept := Keep(task.pool, s.history.fates, Unresolved);
    forall b | b in Bodies(s.master.pool) ensures b in Bodies(task.pool) {
      var i :| 0 <= i < |s.master.pool| && Bodies(s.master.pool)[i] == b;
      var t := s.master.pool[i];
      assert t in kept || t in s.history.moved;
      if t in kept { InBodies(task.pool, t); }
    }
    forall b | b in Bodies(s.master.orphans) ensures b in Bodies(task.pool) {
      var i :| 0 <= i < |s.master.orphans| && Bodies(s.master.orphans)[i] == b;
      assert s.master.orphans[i] in s.master.orphans;
    }
  }

  /** What the orphans are executed on is safe to execute on. */
  lemma OrphanSafe(task: Task, s: Sys, inv: Store -> bool)
    requires TaskSafe(task, inv) && PoolOk(task, s) && s.master.played <= |s.master.orphans|
    ensures inv(Run(Run(Data(task.initial), Bodies(s.master.pool)), Bodies(s.master.orphans[..s.master.played])))
    ensures forall t :: t in s.master.orphans ==> Preserves(inv, t.body.call)
  {
    BlockBodies(task, s);
    var done := s.master.orphans[..s.master.played];
    forall b | b in Bodies(s.master.pool) || b in Bodies(s.master.orphans) ensures Preserves(inv, b.call) {
      SafeBody(task, inv, b);
    }
    forall t | t in s.master.orphans ensures t.body in Bodies(s.master.orphans) {
      InBodies(s.master.orphans, t);
    }
    forall b | b in Bodies(done) ensures b in Bodies(s.master.orphans) {
      var i :| 0 <= i < |done| && Bodies(done)[i] == b;
      assert Bodies(s.master.orphans)[i] == b;
    }
    RunPreserves(inv, Data(task.initial), Bodies(s.master.pool));
    RunPreserves(inv, Run(Data(task.initial), Bodies(s.master.pool)), Bodies(done));
  }

  lemma OrphanEffect(s: Sys)
    requires Ready(s, MasterOrphan)
    ensures var c, s' := s.master.orphans[s.master.played].body.call, DoOrphan(s);
            && (s'.panicked <==> ExecCall(c, Data(s.state)).outcome == Panicked)
            && (!s'.panicked ==> Data(s'.state) == ExecCall(c, Data(s.state)).store &&
                                 s'.master == s.master.(played := s.master.played + 1))
  {
  }

  /** One more orphan executed. */
  lemma OneMore(d: Store, orphans: seq<Transaction>, n: nat)
    requires n < |orphans|
    ensures Run(d, Bodies(orphans[..n + 1])) == ExecCall(orphans[n].body.call, Run(d, Bodies(orphans[..n]))).store
  {
    assert orphans[..n + 1] == orphans[..n] + [orphans[n]];
    BodiesSnoc(orphans[..n], orphans[n]);
    RunSnoc(d, Bodies(orphans[..n]), orphans[n].body);
  }

  lemma OrphanDataKept(task: Task, s: Sys, inv: Store -> bool)
    requires TaskSafe(task, inv) && PoolOk(task, s) && Ready(s, MasterOrphan) && OrphanData(task, s)
    ensures var s' := DoOrphan(s);
            !s'.panicked && s'.master.played <= |s'.master.orphans| && OrphanData(task, s')
  {
    hide DoOrphan, TaskSafe, PoolOk, ExecCall, Run, Bodies, Same;
    var m, after := s.master, Run(Data(task.initial), Bodies(s.master.pool));
    var before := Run(after, Bodies(m.orphans[..m.played]));
    var c := m.orphans[m.played].body.call;
    OrphanEffect(s);
    OrphanSafe(task, s, inv);
    ExecSame(c, Data(s.state), before);
    OneMore(after, m.orphans, m.played);
    assert Preserves(inv, c) && inv(before);
  }

  lemma OrphanInv(task: Task, s: Sys, inv: Store -> bool)
    requires TaskValid(task) && TaskSafe(task, inv) && Inv(task, s) && Ready(s, MasterOrphan)
    ensures Inv(task, DoOrphan(s))
  {
    hide TaskValid, TaskSafe, DoOrphan, PoolOk, OrphanData;
    assert PoolOk(task, s) && OrphanData(task, s);
    OrphanEffect(s);
    OrphanDataKept(task, s, inv);
    OrphanBooks(task, s);
  }

  lemma OrphanBooks(task: Task, s: Sys)
    requires Books(task, s) && Ready(s, MasterOrphan) && !DoOrphan(s).panicked
    ensures Books(task, DoOrphan(s))
  {
    hide WorkerOk, PoolOk, CountersOk;
    var s' := DoOrphan(s);
    PoolKept(task, s, s');
    forall v | 0 <= v < |s.workers| ensures WorkerOk(task, s', v) {
      PlayedWorker(task, s, s', v);
    }
    PlayedCounters(task, s, s');
  }

  lemma PlayedWorker(task: Task, s: Sys, s': Sys, v: ThreadId)
    requires v < |s.workers| && WorkerOk(task, s, v)
    requires s'.workers == s.workers && s'.history == s.history && s'.master == s.master.(played := s'.master.played)
    ensures WorkerOk(task, s', v)
  {
  }

  lemma PlayedCounters(task: Task, s: Sys, s': Sys)
    requires CountersOk(task, s)
    requires s'.workers == s.workers && s'.history == s.history && s'.master == s.master.(played := s'.master.played)
    ensures CountersOk(task, s')
  {
  }

  // ---------------------------------------------------------------------------
  // Every schedule.

  lemma InitInv(task: Task)
    requires TaskValid(task)
    ensures Inv(task, Init(task))
  {
    hide Books;
    InitBooks(task);
    var s := Init(task);
    forall w | 0 <= w < |s.workers| ensures WorkerData(Data(task.initial), s.state, w, s.workers[w].port.log, s.workers[w].job) {
    }
  }

  lemma StepInv(task: Task, s: Sys, l: Label, inv: Store -> bool)
    requires TaskValid(task) && TaskSafe(task, inv) && Inv(task, s)
    ensures Inv(task, Apply(s, l))
  {
    hide Inv, TaskValid, TaskSafe, Ready;
    if Ready(s, l) {
      match l
      case MasterSend => SendInv(task, s);
      case MasterReceive(w) => MasterReceiveInv(task, s, w);
      case MasterBreak => BreakInv(task, s);
      case MasterOrphan => OrphanInv(task, s, inv);
      case Receive(w) => ReceiveInv(task, s, w, inv);
      case ReceiveOther(w, i) => ReceiveOtherInv(task, s, w, i, inv);
      case Access(w) => AccessInv(task, s, w, inv);
      case CommitKey(w, k) => CommitInv(task, s, w, k);
      case Settle(w) => SettleInv(task, s, w);
    }
  }

  lemma {:induction false} ReachableInv(task: Task, schedule: seq<Label>, inv: Store -> bool)
    requires TaskValid(task) && TaskSafe(task, inv)
    ensures Inv(task, ApplyAll(Init(task), schedule))
  {
    if schedule == [] {
      InitInv(task);
    } else {
      ReachableInv(task, schedule[..|schedule| - 1], inv);
      StepInv(task, ApplyAll(Init(task), schedule[..|schedule| - 1]), schedule[|schedule| - 1], inv);
    }
  }
}
