// A distribution that keeps transactions sharing a declared key on one worker: from an
// untainted state nothing is ever forwarded or orphaned, and concurrent execution is
// sequential execution in submission order.
module Refinement {
  import opened Storage
  import opened TaintState
  import opened Program
  import opened Dispatch
  import opened Transactions
  import opened Protocol
  import opened Sequences
  import opened Bookkeeping
  import opened Undisturbed
  import opened BooksKept
  import opened BooksSettle
  import opened Serializability
  import opened Authoring
  import opened AuthoringTheorems
  import opened Attempts
  import opened Validation
  import opened Determinism
  import opened StateEquality
  import opened Calls

  /** Transactions that share a key of their access lists are tagged alike. */
  ghost predicate Separated(pool: seq<Transaction>) {
    forall t, u, k :: t in pool && u in pool && k in t.body.call.access && k in u.body.call.access ==> t.tag == u.tag
  }

  ghost predicate NoTaints(s: StateMap) {
    forall k :: Owner(s, k) == None
  }

  ghost predicate SeparatedTask(task: Task) {
    && TaskValid(task)
    && Separated(task.pool) && NoTaints(task.initial)
    && forall t :: t in task.pool ==> WithinAccess(t.body.call)
  }

  // ---------------------------------------------------------------------------
  // Every reachable state.

  /** `t` is given to `w` and declares `k`. */
  ghost predicate DeclaredFor(pool: seq<Transaction>, w: ThreadId, k: Key, t: Transaction) {
    t in pool && t.tag == DoneBy(w) && k in t.body.call.access
  }

  /** Keys belong to the worker whose transactions declare them; transactions stay where they were put. */
  ghost predicate Apart(task: Task, s: Sys) {
    && (forall k :: Owner(s.state, k) != None ==> exists t :: DeclaredFor(task.pool, Owner(s.state, k).value, k, t))
    && (forall id :: id in s.history.fates ==> s.history.fates[id].Fresh? || s.history.fates[id].Local?)
  }

  /** What a worker has in hand was given to it. */
  lemma InHandFirst(task: Task, s: Sys, w: ThreadId)
    requires TaskValid(task) && Books(task, s) && Apart(task, s) && w < |s.workers| && s.workers[w].job.Busy?
    ensures var t := s.workers[w].job.tx;
            BusyFirst(s.workers[w].job) && t in task.pool && t.tag == DoneBy(w)
  {
    hide TaskValid, Books, DeclaredFor;
    if BusyFirst(s.workers[w].job) {
      FirstFacts(task, s, w);
    } else {
      AgainFacts(task, s, w);
    }
  }

  /** No key a worker's own transaction accesses is anybody else's. */
  lemma NobodyElses(task: Task, s: Sys, w: ThreadId, t: Transaction, k: Key)
    requires SeparatedTask(task) && Apart(task, s) && t in task.pool && t.tag == DoneBy(w) && k in t.body.call.access
    ensures Owner(s.state, k) == None || Owner(s.state, k) == Some(w)
  {
    hide TaskValid, WithinAccess, NoTaints;
    match Owner(s.state, k)
    case Some(v) =>
      var u :| DeclaredFor(task.pool, v, k, u);
    case None =>
  }

  lemma NeverTainted(task: Task, s: Sys, w: ThreadId)
    requires SeparatedTask(task) && Inv(task, s) && Apart(task, s) && w < |s.workers| && s.workers[w].job.Busy?
    ensures !s.workers[w].job.stage.Tainted?
  {
    hide Books, TaskValid, Apart, Separated, NoTaints, ExecCall, CallKeys;
    var Busy(tx, stage) := s.workers[w].job;
    InHandFirst(task, s, w);
    BusyNotClosing(task, s, w);
    assert WorkerData(Data(task.initial), s.state, w, s.workers[w].port.log, s.workers[w].job);
    if stage.Tainted? {
      var view := Run(Data(task.initial), s.workers[w].port.log);
      var k :| k in CallKeys(tx.body.call, view) && Owner(s.state, k) == Some(stage.owner);
      DeclaredAt(tx.body.call, view, k);
      NobodyElses(task, s, w, tx, k);
    }
  }

  lemma DeclaredAt(c: Call, d: Store, k: Key)
    requires WithinAccess(c) && k in CallKeys(c, d)
    ensures k in c.access
  {
  }

  /** Whatever key an access claims is one the transaction declares. */
  ghost predicate ClaimsOnlyDeclared(task: Task, s: Sys, w: ThreadId, k: Key)
    requires Ready(s, Access(w))
  {
    || Owner(DoAccess(s, w).state, k) == Owner(s.state, k)
    || (Owner(s.state, k) == None && Owner(DoAccess(s, w).state, k) == Some(w) &&
        k in CallKeys(s.workers[w].job.tx.body.call, Run(Data(task.initial), s.workers[w].port.log)))
  }

  lemma ClaimsDeclared(task: Task, s: Sys, w: ThreadId, k: Key)
    requires Ready(s, Access(w))
    requires SeparatedTask(task) && Inv(task, s) && Apart(task, s)
    ensures ClaimsOnlyDeclared(task, s, w, k)
  {
    hide Books, TaskValid, Apart, Separated, NoTaints, WithinAccess, Advance, Coherent, Run;
    var Busy(tx, stage) := s.workers[w].job;
    BusyNotClosing(task, s, w);
    assert WorkerData(Data(task.initial), s.state, w, s.workers[w].port.log, s.workers[w].job);
    AdvanceClaims(tx.body.call, Run(Data(task.initial), s.workers[w].port.log), stage, s.state, w, k);
  }

  lemma AdvanceClaims(c: Call, view: Store, st: Stage, s: StateMap, id: ThreadId, k: Key)
    requires st.Running? && Coherent(c, view, st, s, id)
    ensures Advance(st, s, id).Move? ==>
            var s' := Advance(st, s, id).state;
            Owner(s', k) == Owner(s, k) || (Owner(s, k) == None && Owner(s', k) == Some(id) && k in CallKeys(c, view))
  {
    hide Views, Own, Exec, Keys, CallKeys, Disciplined;
    NextWithin(c, view, st, s, id);
  }

  lemma AccessApart(task: Task, s: Sys, w: ThreadId)
    requires SeparatedTask(task) && Inv(task, s) && Apart(task, s) && Ready(s, Access(w))
    ensures Apart(task, DoAccess(s, w))
  {
    hide Inv, TaskValid, Separated, NoTaints, DoAccess, WithinAccess, DeclaredFor;
    var s', tx := DoAccess(s, w), s.workers[w].job.tx;
    AccessShape(s, w);
    BooksOf(task, s);
    InHandFirst(task, s, w);
    forall k | Owner(s'.state, k) != None ensures exists t :: DeclaredFor(task.pool, Owner(s'.state, k).value, k, t) {
      ClaimsDeclared(task, s, w, k);
      if Owner(s.state, k) == None {
        DeclaredAt(tx.body.call, Run(Data(task.initial), s.workers[w].port.log), k);
        DeclaredIs(task.pool, w, k, tx);
      }
    }
  }

  lemma DeclaredIs(pool: seq<Transaction>, w: ThreadId, k: Key, t: Transaction)
    requires t in pool && t.tag == DoneBy(w) && k in t.body.call.access
    ensures DeclaredFor(pool, w, k, t)
  {
  }

  lemma AccessShape(s: Sys, w: ThreadId)
    requires Ready(s, Access(w))
    ensures DoAccess(s, w).history == s.history
  {
  }

  lemma CommitApart(task: Task, s: Sys, w: ThreadId, k: Key)
    requires Inv(task, s) && Apart(task, s) && Ready(s, CommitKey(w, k))
    ensures Apart(task, DoCommit(s, w, k))
  {
    hide Inv, DeclaredFor;
    CommitOwned(task, s, w, k);
    assert forall j :: Owner(DoCommit(s, w, k).state, j) == Owner(s.state, j);
  }

  lemma SettleApart(task: Task, s: Sys, w: ThreadId)
    requires SeparatedTask(task) && Inv(task, s) && Apart(task, s) && Ready(s, Settle(w))
    ensures Apart(task, DoSettle(s, w))
  {
    hide Inv, TaskValid, Separated, NoTaints, WithinAccess, DeclaredFor, DoSettle;
    BooksOf(task, s);
    NeverTainted(task, s, w);
    InHandFirst(task, s, w);
    SettleFate(task, s, w);
    SettleState(s, w);
  }

  lemma HearApart(task: Task, s: Sys, w: ThreadId)
    requires Books(task, s) && Apart(task, s) && Ready(s, MasterReceive(w))
    ensures Apart(task, DoMasterReceive(s, w))
  {
    hide Books, DeclaredFor, DoMasterReceive;
    WorkerOutbox(task, s, w);
    var m := s.workers[w].port.outbox[0];
    assert m in s.workers[w].port.outbox;
    MasterReceiveShape(s, w);
    ReportFates(s, w);
  }

  lemma ReportFates(s: Sys, w: ThreadId)
    requires Ready(s, MasterReceive(w))
    ensures s.workers[w].port.outbox[0].AuthoringReport? ==> DoMasterReceive(s, w).history.fates == s.history.fates
  {
  }

  lemma NothingIn(txs: seq<Transaction>)
    requires forall t :: t !in txs
    ensures txs == []
  {
    NonEmpty(txs);
  }

  /** There are no orphans to execute. */
  lemma NoOrphans(task: Task, s: Sys)
    requires Books(task, s) && Apart(task, s)
    ensures s.master.orphans == [] && s.history.moved == [] && s.master.pool == task.pool
  {
    hide DeclaredFor, WorkerOk, CountersOk, Quiet, Basics;
    assert PoolOk(task, s);
    NothingIn(s.master.orphans);
    NothingIn(s.history.moved);
    AllKnown(task, s);
    KeepAll(task.pool, s.history.fates, Unresolved);
  }

  lemma StepApart(task: Task, s: Sys, l: Label)
    requires SeparatedTask(task) && Inv(task, s) && Apart(task, s)
    ensures Apart(task, Apply(s, l))
  {
    hide Inv, SeparatedTask, DeclaredFor, DoSettle, DoReceive, DoMasterReceive, DoAccess, DoCommit, DoOrphan;
    BooksOf(task, s);
    if Ready(s, l) {
      match l
      case Access(w) => AccessApart(task, s, w);
      case CommitKey(w, k) => CommitApart(task, s, w, k);
      case Settle(w) => SettleApart(task, s, w);
      case MasterReceive(w) => HearApart(task, s, w);
      case MasterOrphan => NoOrphans(task, s);
      case Receive(w) =>
        ReceiveEffect(s, w);
        OtherFates(s, l);
      case _ => OtherFates(s, l);
    }
  }

  lemma InitApart(task: Task)
    requires SeparatedTask(task)
    ensures Apart(task, Init(task))
  {
  }

  lemma {:induction false} ReachableApart(task: Task, schedule: seq<Label>, inv: Store -> bool)
    requires SeparatedTask(task) && TaskSafe(task, inv)
    ensures Apart(task, ApplyAll(Init(task), schedule))
  {
    hide Inv, SeparatedTask, TaskSafe, Apart, Apply;
    if schedule == [] {
      InitApart(task);
    } else {
      ReachableApart(task, schedule[..|schedule| - 1], inv);
      ValidOf(task);
      ReachableInv(task, schedule[..|schedule| - 1], inv);
      StepApart(task, ApplyAll(Init(task), schedule[..|schedule| - 1]), schedule[|schedule| - 1]);
    }
  }

  lemma ValidOf(task: Task)
    requires SeparatedTask(task)
    ensures TaskValid(task)
  {
  }

  // ---------------------------------------------------------------------------
  // Refinement.

  /**
    From an untainted state, with transactions that share a declared key on one worker and
    calls that keep to what they declare, no run forwards or orphans anything: the block is
    the pool as submitted, and the final state is sequential execution in submission order.
   */
  lemma SeparatedIsSequential(task: Task, schedule: seq<Label>, inv: Store -> bool)
    requires SeparatedTask(task) && TaskSafe(task, inv)
    ensures var s := ApplyAll(Init(task), schedule);
            && s.master.pool == task.pool && s.master.orphans == [] && BlockOf(s) == task.pool
            && (forall id :: id in s.history.fates ==> s.history.fates[id].Fresh? || s.history.fates[id].Local?)
            && (Finished(s) ==> Same(Data(s.state), Run(Data(task.initial), Bodies(task.pool))))
  {
    hide Inv, SeparatedTask, TaskSafe, DeclaredFor, ApplyAll, Init, Bodies, Run;
    ReachableApart(task, schedule, inv);
    ValidOf(task);
    ReachableInv(task, schedule, inv);
    var s := ApplyAll(Init(task), schedule);
    BooksOf(task, s);
    NoOrphans(task, s);
    if Finished(s) {
      Serializable(task, schedule, inv);
    }
  }

  // ---------------------------------------------------------------------------
  // Exactly when the states compare equal.

  /** Some transaction of `log`, executed in order from `d`, accesses `k`. */
  ghost predicate AccessedBy(d: Store, log: seq<Body>, k: Key, i: nat) {
    i < |log| && k in CallKeys(log[i].call, Run(d, log[..i]))
  }

  /** What a worker owns its transactions have accessed, or the one in hand may. */
  ghost predicate Accounted(d: Store, log: seq<Body>, j: Job, k: Key) {
    (exists i :: AccessedBy(d, log, k, i)) || (j.Busy? && k in CallKeys(j.tx.body.call, Run(d, log)))
  }

  ghost predicate Entries(task: Task, s: Sys) {
    && task.initial.Keys <= s.state.Keys
    && (forall k :: k in s.state && k !in task.initial ==> Owner(s.state, k) != None)
    && (forall k :: Owner(s.state, k) != None ==>
          Owner(s.state, k).value < |s.workers| &&
          Accounted(Data(task.initial), s.workers[Owner(s.state, k).value].port.log, s.workers[Owner(s.state, k).value].job, k))
  }

  lemma AccountedLonger(d: Store, log: seq<Body>, b: Body, j: Job, k: Key)
    requires Accounted(d, log, j, k) && (j.Busy? ==> j.tx.body == b)
    ensures Accounted(d, log + [b], Idle, k)
  {
    hide CallKeys, Run;
    if i: nat :| AccessedBy(d, log, k, i) {
      assert (log + [b])[..i] == log[..i];
      assert AccessedBy(d, log + [b], k, i);
    } else {
      assert (log + [b])[..|log|] == log;
      assert AccessedBy(d, log + [b], k, |log|);
    }
  }

  /** Logs and jobs go on from where they were, the transaction in hand staying there until it is logged. */
  ghost predicate Continues(s: Sys, s': Sys) {
    && |s'.workers| == |s.workers|
    && forall w :: 0 <= w < |s.workers| ==>
         var x, y := s.workers[w], s'.workers[w];
         || (y.port.log == x.port.log && (x.job.Busy? ==> y.job.Busy? && y.job.tx == x.job.tx))
         || (x.job.Busy? && y.port.log == x.port.log + [x.job.tx.body] && y.job.Idle?)
  }

  lemma AccountedOn(d: Store, s: Sys, s': Sys, w: ThreadId, k: Key)
    requires Continues(s, s') && w < |s.workers| && Accounted(d, s.workers[w].port.log, s.workers[w].job, k)
    ensures Accounted(d, s'.workers[w].port.log, s'.workers[w].job, k)
  {
    hide CallKeys, Run, AccessedBy;
    var x, y := s.workers[w], s'.workers[w];
    if y.port.log != x.port.log {
      AccountedLonger(d, x.port.log, x.job.tx.body, x.job, k);
    }
  }

  lemma EntriesOn(task: Task, s: Sys, s': Sys)
    requires Entries(task, s) && Continues(s, s') && s'.state.Keys == s.state.Keys
    requires forall k :: Owner(s'.state, k) == Owner(s.state, k)
    ensures Entries(task, s')
  {
    hide Accounted;
    forall k | Owner(s'.state, k) != None
      ensures Owner(s'.state, k).value < |s'.workers| &&
              Accounted(Data(task.initial), s'.workers[Owner(s'.state, k).value].port.log, s'.workers[Owner(s'.state, k).value].job, k)
    {
      AccountedOn(Data(task.initial), s, s', Owner(s.state, k).value, k);
    }
  }

  lemma AccessEntries(task: Task, s: Sys, w: ThreadId)
    requires SeparatedTask(task) && Inv(task, s) && Apart(task, s) && Entries(task, s) && Ready(s, Access(w)) && !DoAccess(s, w).panicked
    ensures Entries(task, DoAccess(s, w))
  {
    hide Inv, SeparatedTask, Apart, Accounted, Run, CallKeys, Advance;
    var s' := DoAccess(s, w);
    var d := Data(task.initial);
    OtherEntries(s, Access(w));
    AccessContinues(s, w);
    AdvanceNew(s.workers[w].job.stage, s.state, w);
    forall k | Owner(s'.state, k) != None
      ensures Owner(s'.state, k).value < |s'.workers| &&
              Accounted(d, s'.workers[Owner(s'.state, k).value].port.log, s'.workers[Owner(s'.state, k).value].job, k)
    {
      ClaimsDeclared(task, s, w, k);
      if Owner(s.state, k) == None {
        AccountedNow(d, s.workers[w].port.log, s.workers[w].job, k);
        AccountedOn(d, s, s', w, k);
      } else {
        AccountedOn(d, s, s', Owner(s.state, k).value, k);
      }
    }
  }

  lemma AccountedNow(d: Store, log: seq<Body>, j: Job, k: Key)
    requires j.Busy? && k in CallKeys(j.tx.body.call, Run(d, log))
    ensures Accounted(d, log, j, k)
  {
  }

  lemma AdvanceNew(st: Stage, s: StateMap, id: ThreadId)
    requires st.Running? && Advance(st, s, id).Move?
    ensures forall k :: k in Advance(st, s, id).state && k !in s ==> Owner(Advance(st, s, id).state, k) != None
    ensures forall k :: Owner(s, k) != None ==> Owner(Advance(st, s, id).state, k) != None
  {
  }

  lemma AccessContinues(s: Sys, w: ThreadId)
    requires Ready(s, Access(w))
    ensures Continues(s, DoAccess(s, w))
  {
  }

  lemma QuietContinues(task: Task, s: Sys, l: Label)
    requires Ready(s, l) && !l.Access? && !l.CommitKey? && !l.Settle? && !l.MasterOrphan?
    ensures Continues(s, Apply(s, l)) && Apply(s, l).state == s.state
  {
    hide DoReceive, DoMasterReceive;
    match l
    case Receive(w) => ReceiveEffect(s, w);
    case MasterReceive(w) => MasterReceiveShape(s, w);
    case MasterSend => SendContinues(s);
    case ReceiveOther(w, i) => TakeContinues(s, w, i);
    case MasterBreak =>
  }

  lemma SendContinues(s: Sys)
    requires Ready(s, MasterSend)
    ensures Continues(s, DoSend(s)) && DoSend(s).state == s.state
  {
    var s', w := DoSend(s), s.master.plan[0].to;
    assert s'.workers == if w < |s.workers| then s.workers[w := s'.workers[w]] else s.workers;
  }

  lemma TakeContinues(s: Sys, w: ThreadId, i: nat)
    requires Ready(s, ReceiveOther(w, i))
    ensures Continues(s, DoReceiveOther(s, w, i)) && DoReceiveOther(s, w, i).state == s.state
  {
  }

  lemma SettleContinues(task: Task, s: Sys, w: ThreadId)
    requires Ready(s, Settle(w)) && !s.workers[w].job.stage.Tainted?
    requires TaskValid(task) && Inv(task, s)
    ensures Continues(s, Apply(s, Settle(w))) && Apply(s, Settle(w)).state == s.state
  {
    hide TaskValid, Books, DoSettle, ConcurrentData, OrphanData;
    SettleShape(task, s, w);
    assert s.workers[w].job.stage.rest == map[];
  }

  lemma StepEntriesApart(task: Task, s: Sys, l: Label)
    requires SeparatedTask(task) && Inv(task, s) && Apart(task, s) && Entries(task, s) && !Apply(s, l).panicked
    ensures Entries(task, Apply(s, l))
  {
    hide Inv, SeparatedTask, Apart, Entries, DoSettle, DoReceive, DoMasterReceive, DoAccess, DoCommit, DoOrphan;
    if Ready(s, l) {
      match l
      case Access(w) => AccessEntries(task, s, w);
      case CommitKey(w, k) => CommitEntries(task, s, w, k);
      case Settle(w) =>
        NeverTainted(task, s, w);
        ValidOf(task);
        SettleContinues(task, s, w);
        EntriesOn(task, s, DoSettle(s, w));
      case MasterOrphan =>
        BooksOf(task, s);
        NoOrphans(task, s);
      case _ =>
        QuietContinues(task, s, l);
        EntriesOn(task, s, Apply(s, l));
    }
  }

  lemma CommitEntries(task: Task, s: Sys, w: ThreadId, k: Key)
    requires Inv(task, s) && Entries(task, s) && Ready(s, CommitKey(w, k))
    ensures Entries(task, DoCommit(s, w, k))
  {
    hide Inv, Entries;
    CommitOwned(task, s, w, k);
    var s' := DoCommit(s, w, k);
    assert forall j :: Owner(s'.state, j) == Owner(s.state, j);
    assert k in s.state && s'.state.Keys == s.state.Keys;
    EntriesOn(task, s, s');
  }

  lemma InitEntries(task: Task)
    requires SeparatedTask(task)
    ensures Entries(task, Init(task))
  {
  }

  lemma {:induction false} ReachableAccounted(task: Task, schedule: seq<Label>, inv: Store -> bool)
    requires SeparatedTask(task) && TaskSafe(task, inv)
    ensures Entries(task, ApplyAll(Init(task), schedule))
  {
    hide Inv, SeparatedTask, TaskSafe, Apart, Entries, Apply;
    if schedule == [] {
      InitEntries(task);
    } else {
      var before, l := schedule[..|schedule| - 1], schedule[|schedule| - 1];
      var s := ApplyAll(Init(task), before);
      ReachableAccounted(task, before, inv);
      ReachableApart(task, before, inv);
      ValidOf(task);
      ReachableInv(task, before, inv);
      StepInv(task, s, l, inv);
      BooksOf(task, Apply(s, l));
      WorkersOf(task, Apply(s, l));
      StepEntriesApart(task, s, l);
    }
  }

  /** Every key accessed when the transactions are executed in order is there in the end. */
  ghost predicate AllAccessedStored(d: Store, txs: seq<Body>) {
    forall i, k :: AccessedBy(d, txs, k, i) ==> k in Run(d, txs)
  }

  /** The last transaction adds its own accesses to those of the ones before. */
  lemma AccessedSnoc(d: Store, log: seq<Body>, b: Body, k: Key, i: nat)
    ensures AccessedBy(d, log + [b], k, i) <==> AccessedBy(d, log, k, i) || (i == |log| && k in CallKeys(b.call, Run(d, log)))
  {
    hide CallKeys, Run;
    if i < |log| {
      assert (log + [b])[..i] == log[..i];
    } else if i == |log| {
      assert (log + [b])[..i] == log;
    }
  }

  /** A worker's own transactions, one by one, access what they access in the run of the whole pool. */
  lemma PoolAccesses(txs: seq<Transaction>, d: Store, s: StateMap, w: ThreadId, k: Key, i: nat)
    returns (n: nat)
    requires EachConfined(txs, d, s) && AccessedBy(d, Bodies(TaggedFor(txs, w)), k, i)
    ensures AccessedBy(d, Bodies(txs), k, n)
    decreases |txs|
  {
    hide EachConfined, CallKeys, Run, TaggedFor, Bodies, AccessedBy;
    AccessedNothing(txs, d, w, k, i);
    var init, t := txs[..|txs| - 1], txs[|txs| - 1];
    assert txs == init + [t];
    BodiesSnoc(init, t);
    TaggedSnoc(init, t, w);
    BodiesSnoc(TaggedFor(init, w), t);
    EachPrefix(txs, d, s, |txs| - 1);
    var log := Bodies(TaggedFor(init, w));
    AccessedSnoc(d, log, t.body, k, i);
    if AccessedBy(d, log, k, i) {
      n := PoolAccesses(init, d, s, w, k, i);
    } else {
      n := |Bodies(init)|;
      LastAccess(init, t, d, s, w);
    }
    AccessedSnoc(d, Bodies(init), t.body, k, n);
  }

  lemma AccessedNothing(txs: seq<Transaction>, d: Store, w: ThreadId, k: Key, i: nat)
    requires AccessedBy(d, Bodies(TaggedFor(txs, w)), k, i)
    ensures txs != []
  {
    hide CallKeys, Run;
    NotNothing(txs, w);
  }

  lemma NotNothing(txs: seq<Transaction>, w: ThreadId)
    requires TaggedFor(txs, w) != []
    ensures txs != []
  {
  }

  lemma LastAccess(init: seq<Transaction>, t: Transaction, d: Store, s: StateMap, w: ThreadId)
    requires EachConfined(init + [t], d, s) && EachConfined(init, d, s) && t.tag == DoneBy(w)
    ensures CallKeys(t.body.call, Run(d, Bodies(TaggedFor(init, w)))) == CallKeys(t.body.call, Run(d, Bodies(init)))
  {
    hide Confined, Run, TaggedFor;
    RunByWorker(init, d, s);
    EarlierConfined(init, t, d, s, w);
    ExecCoincide(t.body.call.steps, t.body.call.body, Run(d, Bodies(TaggedFor(init, w))), Run(d, Bodies(init)), Own(s, w));
  }

  /** When the run is over, there is an entry for exactly the initial keys and the keys accessed in submission order. */
  lemma FinalEntries(task: Task, schedule: seq<Label>, k: Key, inv: Store -> bool)
    requires SeparatedTask(task) && TaskSafe(task, inv) && Finished(ApplyAll(Init(task), schedule))
    ensures k in ApplyAll(Init(task), schedule).state <==>
            k in task.initial || exists i :: AccessedBy(Data(task.initial), Bodies(task.pool), k, i)
  {
    hide Inv, SeparatedTask, TaskSafe, Apart, AccessedBy, ApplyAll, EachConfined, Owner, Quiet;
    var s, d := ApplyAll(Init(task), schedule), Data(task.initial);
    ReachableAccounted(task, schedule, inv);
    SeparatedIsSequential(task, schedule, inv);
    ValidOf(task);
    var owners := AuthoredConfined(task, schedule, inv);
    ReachableInv(task, schedule, inv);
    if k in s.state && k !in task.initial {
      var w := Owner(s.state, k).value;
      QuietAt(task, s, w);
      OrderIsPreserved(task, schedule, w, inv);
      var i: nat :| AccessedBy(d, s.workers[w].port.log, k, i);
      var n := PoolAccesses(task.pool, d, owners, w, k, i);
    }
    if i: nat :| AccessedBy(d, Bodies(task.pool), k, i) {
      AccessedOwned(task.pool, d, owners, k, i);
    }
  }

  lemma QuietAt(task: Task, s: Sys, w: ThreadId)
    requires Inv(task, s) && s.master.closing && w < |s.workers|
    ensures s.workers[w].job.Idle? && w < task.workers
  {
    hide WorkerOk, PoolOk, CountersOk, OrphanData, ConcurrentData;
  }

  lemma AccessedOwned(txs: seq<Transaction>, d: Store, s: StateMap, k: Key, i: nat)
    requires EachConfined(txs, d, s) && AccessedBy(d, Bodies(txs), k, i)
    ensures k in s
  {
    hide EachConfined, Run, CallKeys;
    assert Bodies(txs)[..i] == Bodies(txs[..i]);
    PoolKeysOwned(txs, d, s, i);
  }

  /**
    For such tasks, authoring and validation compare equal if and only if every key accessed
    when the submitted transactions are executed one after the other has an entry in the end:
    it was there at the start, or some transaction writes it.
   */
  lemma SeparatedComparesExactly(task: Task, schedule: seq<Label>, initial: StateMap, events: seq<Event>, inv: Store -> bool)
    requires SeparatedTask(task) && TaskSafe(task, inv) && Finished(ApplyAll(Init(task), schedule))
    requires Data(initial) == Data(task.initial)
    requires Validated(HappenAll(BeginCheck(task.workers, task.pool, initial), events))
    ensures StateEq(HappenAll(BeginCheck(task.workers, task.pool, initial), events).state, ApplyAll(Init(task), schedule).state) <==>
            AllAccessedStored(Data(task.initial), Bodies(task.pool))
  {
    hide SeparatedTask, TaskSafe, AccessedBy, ApplyAll, HappenAll, BeginCheck, Finished, Validated, StateEq, Run, Bodies;
    ValidOf(task);
    SeparatedIsSequential(task, schedule, inv);
    ComparesEqual(task, schedule, initial, events, inv);
    var s, d, txs := ApplyAll(Init(task), schedule), Data(task.initial), Bodies(task.pool);
    RunGrows(d, txs);
    StateEntries(task.initial);
    forall k ensures k in s.state <==> k in task.initial || exists i :: AccessedBy(d, txs, k, i) {
      FinalEntries(task, schedule, k, inv);
    }
    if AllAccessedStored(d, txs) {
      forall k | k in Run(d, txs) ensures k in s.state {
        if k !in d {
          var i := NewAccessed(d, txs, k);
        }
      }
    }
  }

  /** A new entry is for a key some transaction accessed. */
  lemma {:induction false} NewAccessed(d: Store, txs: seq<Body>, k: Key) returns (i: nat)
    requires k in Run(d, txs) && k !in d
    ensures AccessedBy(d, txs, k, i)
  {
    hide CallKeys;
    NothingNew(d);
    var init, b := txs[..|txs| - 1], txs[|txs| - 1];
    if k in Run(d, init) {
      i := NewAccessed(d, init, k);
      assert init[..i] == txs[..i];
    } else {
      i := |txs| - 1;
      LastNew(b.call, Run(d, init), k);
    }
  }

  lemma NothingNew(d: Store)
    ensures Run(d, []) == d
  {
  }

  lemma LastNew(c: Call, d: Store, k: Key)
    requires k in ExecCall(c, d).store && k !in d
    ensures k in CallKeys(c, d)
  {
    ExecEntries(c.steps, c.body, d);
  }
}
