// The master's and a worker's own code, as statements over their fields. What other threads
// do in the meantime comes in as parameters: the messages, in the order they arrive.
module Threads {
  import opened Storage
  import opened TaintState
  import opened Program
  import opened Dispatch
  import opened Transactions
  import opened Protocol
  import opened Bookkeeping
  import opened Undisturbed
  import opened Pool
  import opened SharedState
  import opened Runtimes
  import opened RuntimeCalls
  import opened CacheRefinement
  import opened Serializability
  import opened Validation
  import opened Determinism

  /** Any call, access by access, on either runtime. */
  method Interpret(rt: Runtime, c: Call) returns (r: CallResult)
    modifies rt.Frame()
    ensures Performed(r, rt.View()) == Perform(c.steps, c.body, old(rt.View()))
  {
    hide Perform, Reach, Put;
    var n, p := c.steps, c.body;
    while true
      invariant Perform(n, p, rt.View()) == Perform(c.steps, c.body, old(rt.View()))
      decreases n
    {
      PerformUnfold(n, p, rt.View());
      OutOfSteps(p, rt.View());
      match p {
        case Done => return Fine;
        case LogicError(why) => return Logic(why);
        case Panic(_) => return Aborted;
        case Read(k, t, next) =>
          if n == 0 {
            return Aborted;
          }
          var read := rt.Read(k);
          if read.Err? {
            return Onto(t, read.owner);
          }
          n, p := n - 1, next(read.value);
        case Write(k, v, t, rest) =>
          if n == 0 {
            return Aborted;
          }
          var written := rt.Write(k, v);
          if written.Err? {
            return Onto(t, written.owner);
          }
          n, p := n - 1, rest;
      }
    }
  }

  lemma OutOfSteps(p: Prog, u: Sight)
    ensures p.Read? || p.Write? ==> Perform(0, p, u) == Performed(Aborted, u)
  {
  }

  // ---------------------------------------------------------------------------
  // The master.

  /** The master's side of hearing a message; None is a panic. */
  function Heard(m: Master, w: ThreadId, message: ToMaster): Option<Master> {
    match message
    case AuthoringReport(e, f) =>
      Some(m.(executedWorkers := m.executedWorkers + e, forwarded := m.forwarded + f, reported := m.reported + 1))
    case WorkerOrphan(id) =>
      var i := Position(m.pool, id);
      if i == |m.pool| then None
      else Some(m.(pool := Without(m.pool, i), orphans := m.orphans + [m.pool[i].(tag := OrphanTag)]))
    case WorkerExecuted(id) =>
      var i := Position(m.pool, id);
      if i == |m.pool| || !m.pool[i].tag.DoneBy? || m.pool[i].tag.worker == w then None
      else Some(m.(pool := Without(m.pool, i) + [m.pool[i].(tag := DoneBy(w))], executedLocal := m.executedLocal + 1))
  }

  /** It is the master's side of the protocol's step. */
  lemma HeardIsTheStep(s: Sys, w: ThreadId)
    requires Ready(s, MasterReceive(w))
    ensures var h := Heard(s.master, w, s.workers[w].port.outbox[0]);
            var s' := DoMasterReceive(s, w);
            (h.None? <==> s'.panicked) && (h.Some? ==> s'.master == h.value)
  {
  }

  datatype Arrival = Arrival(from: ThreadId, message: ToMaster)

  /** All of these messages heard in order; None if one of them is a panic. */
  function HeardAll(m: Master, arrivals: seq<Arrival>): Option<Master> {
    if arrivals == [] then Some(m)
    else
      match HeardAll(m, arrivals[..|arrivals| - 1])
      case None => None
      case Some(m1) => Heard(m1, arrivals[|arrivals| - 1].from, arrivals[|arrivals| - 1].message)
  }

  /** The counters say that every transaction has been accounted for. */
  predicate MayBreak(m: Master, workers: nat) {
    m.reported == workers && m.forwarded == m.executedLocal + |m.orphans|
  }

  /** It is the protocol's condition for ending the collection. */
  lemma MayBreakIsTheStep(s: Sys)
    ensures MayBreak(s.master, |s.workers|) <==> BreakCondition(s)
    ensures Ready(s, MasterBreak) <==> !s.panicked && !s.master.closing && s.master.plan == [] && MayBreak(s.master, |s.workers|)
  {
  }

  class MasterThread {
    const workers: nat
    const txPool: VecPool
    var orphanPool: seq<Transaction>
    const runtime: SequentialRuntime
    var toWorkers: seq<seq<ToWorker>>

    constructor (workers: nat, runtime: SequentialRuntime)
      ensures this.workers == workers && this.runtime == runtime && fresh(txPool)
      ensures txPool.inner == [] && orphanPool == [] && toWorkers == seq(workers, _ => [])
    {
      this.workers := workers;
      this.runtime := runtime;
      txPool := new VecPool();
      orphanPool := [];
      toWorkers := seq(workers, _ => []);
    }

    /** The fields, as the protocol's master has them. */
    ghost function Image(executedWorkers: nat, executedLocal: nat, forwarded: nat, reported: nat): Master
      reads this, txPool
    {
      Master(false, [], txPool.inner, orphanPool, executedWorkers, executedLocal, forwarded, reported, 0)
    }

    method Broadcast(message: ToWorker)
      requires |toWorkers| == workers
      modifies this`toWorkers
      ensures |toWorkers| == workers && forall w :: 0 <= w < workers ==> toWorkers[w] == old(toWorkers)[w] + [message]
    {
      var w := 0;
      while w < workers
        invariant w <= workers == |toWorkers|
        invariant forall v :: 0 <= v < w ==> toWorkers[v] == old(toWorkers)[v] + [message]
        invariant forall v :: w <= v < workers ==> toWorkers[v] == old(toWorkers)[v]
      {
        toWorkers := toWorkers[w := toWorkers[w] + [message]];
        w := w + 1;
      }
    }

    /**
      Sends every transaction to the worker it is tagged with, in pool order, and then tells
      everyone that that was all: each queue gets exactly what the protocol's plan holds for it.
     */
    method ConcurrentPhase()
      requires |toWorkers| == workers
      requires forall t :: t in txPool.inner ==> t.tag.DoneBy? && t.tag.worker < workers
      modifies this`toWorkers
      ensures |toWorkers| == workers
      ensures forall w :: 0 <= w < workers ==>
                toWorkers[w] == old(toWorkers)[w] + Script(TaggedFor(txPool.inner, w), 0) + [DistributionDone]
    {
      hide TaggedFor, Script;
      var i := 0;
      forall w: nat ensures Script(TaggedFor(txPool.inner[..0], w), 0) == [] {
        NothingTagged(w);
      }
      while i < |txPool.inner|
        invariant i <= |txPool.inner| && |toWorkers| == workers
        invariant forall w :: 0 <= w < workers ==> toWorkers[w] == old(toWorkers)[w] + Script(TaggedFor(txPool.inner[..i], w), 0)
      {
        var tx := txPool.inner[i];
        var w := tx.tag.worker;
        assert tx in txPool.inner;
        assert txPool.inner[..i + 1] == txPool.inner[..i] + [tx];
        toWorkers := toWorkers[w := toWorkers[w] + [Assignment(tx)]];
        forall v: nat ensures Script(TaggedFor(txPool.inner[..i + 1], v), 0) ==
                              Script(TaggedFor(txPool.inner[..i], v), 0) + if v == w then [Assignment(tx)] else [] {
          ScriptSnoc(txPool.inner[..i], tx, v);
        }
        i := i + 1;
      }
      assert txPool.inner[..i] == txPool.inner;
      Broadcast(DistributionDone);
    }

    /** Where the transaction is in the pool; the length if it is not there. */
    method IndexOf(id: nat) returns (at: nat)
      ensures at == Position(txPool.inner, id)
    {
      var found := txPool.Get((t: Transaction) => t.body.id == id);
      if found.None? {
        NoMatchById(txPool.inner, id);
        at := |txPool.inner|;
      } else {
        MatchById(txPool.inner, id, found.value.0);
        at := found.value.0;
      }
    }

    method HearOrphan(id: nat) returns (panicked: bool)
      modifies this`orphanPool, txPool
      ensures var i := Position(old(txPool.inner), id);
              panicked == (i == |old(txPool.inner)|) &&
              (!panicked ==> txPool.inner == Without(old(txPool.inner), i) &&
                             orphanPool == old(orphanPool) + [old(txPool.inner)[i].(tag := OrphanTag)])
    {
      hide Position, Without;
      var at := IndexOf(id);
      panicked := at == |txPool.inner|;
      if !panicked {
        var orphan := txPool.RemoveAt(at);
        orphanPool := orphanPool + [orphan.(tag := OrphanTag)];
      }
    }

    method HearExecuted(worker: ThreadId, id: nat) returns (panicked: bool)
      modifies txPool
      ensures var i := Position(old(txPool.inner), id);
              panicked == (i == |old(txPool.inner)| || !old(txPool.inner)[i].tag.DoneBy? || old(txPool.inner)[i].tag.worker == worker) &&
              (!panicked ==> txPool.inner == Without(old(txPool.inner), i) + [old(txPool.inner)[i].(tag := DoneBy(worker))])
    {
      hide Position, Without;
      var at := IndexOf(id);
      panicked := at == |txPool.inner| || !txPool.inner[at].tag.DoneBy? || txPool.inner[at].tag.worker == worker;
      if !panicked {
        // Remove this transaction and add it to the end.
        var t := txPool.RemoveAt(at);
        txPool.PushBack(t.(tag := DoneBy(worker)));
      }
    }

    /** One message of the collection loop. The counters are the loop's. */
    method Hear(worker: ThreadId, message: ToMaster, ew: nat, el: nat, f: nat, n: nat)
      returns (panicked: bool, executedWorkers: nat, executedLocal: nat, forwarded: nat, reported: nat)
      modifies this`orphanPool, txPool
      ensures panicked <==> Heard(old(Image(ew, el, f, n)), worker, message).None?
      ensures !panicked ==> Heard(old(Image(ew, el, f, n)), worker, message) ==
                            Some(Image(executedWorkers, executedLocal, forwarded, reported))
    {
      hide Heard, Position, Without;
      panicked, executedWorkers, executedLocal, forwarded, reported := false, ew, el, f, n;
      HeardCases(Image(ew, el, f, n), worker, message);
      match message {
        case AuthoringReport(e, g) =>
          executedWorkers, forwarded, reported := executedWorkers + e, forwarded + g, reported + 1;
        case WorkerOrphan(id) =>
          panicked := HearOrphan(id);
        case WorkerExecuted(id) =>
          panicked := HearExecuted(worker, id);
          executedLocal := executedLocal + 1;
      }
    }

    /**
      Hears the messages in the order they arrive until the counters first add up, or until
      there are no more of them, or a message makes it panic.
     */
    method CollectionPhase(arrivals: seq<Arrival>)
      returns (done: bool, panicked: bool, consumed: nat, executedWorkers: nat, executedLocal: nat, forwarded: nat, reported: nat)
      modifies this`orphanPool, txPool
      ensures consumed <= |arrivals| && !(done && panicked)
      ensures panicked ==> consumed < |arrivals| && HeardAll(old(Image(0, 0, 0, 0)), arrivals[..consumed]).Some? &&
                           HeardAll(old(Image(0, 0, 0, 0)), arrivals[..consumed + 1]).None?
      ensures !panicked ==> HeardAll(old(Image(0, 0, 0, 0)), arrivals[..consumed]) ==
                            Some(Image(executedWorkers, executedLocal, forwarded, reported))
      ensures !panicked ==> (done <==> reported == workers && forwarded == executedLocal + |orphanPool|)
      ensures !done && !panicked ==> consumed == |arrivals|
      ensures forall n: nat {:trigger arrivals[..n]} :: n < consumed ==>
                var m := HeardAll(old(Image(0, 0, 0, 0)), arrivals[..n]);
                m.Some? && !(m.value.reported == workers && m.value.forwarded == m.value.executedLocal + |m.value.orphans|)
      ensures panicked ==>
                var m := HeardAll(old(Image(0, 0, 0, 0)), arrivals[..consumed]);
                m.Some? && !(m.value.reported == workers && m.value.forwarded == m.value.executedLocal + |m.value.orphans|)
    {
      hide Heard, HeardAll;
      executedWorkers, executedLocal, forwarded, reported := 0, 0, 0, 0;
      done, panicked, consumed := false, false, 0;
      ghost var start := Image(0, 0, 0, 0);
      HeardNothing(start);
      assert arrivals[..0] == [];
      done := reported == workers && forwarded == executedLocal + |orphanPool|;
      while !done && consumed < |arrivals|
        invariant consumed <= |arrivals|
        invariant HeardAll(start, arrivals[..consumed]) == Some(Image(executedWorkers, executedLocal, forwarded, reported))
        invariant done <==> reported == workers && forwarded == executedLocal + |orphanPool|
        invariant forall n: nat {:trigger arrivals[..n]} :: n < consumed ==>
                    var m := HeardAll(start, arrivals[..n]);
                    m.Some? && !(m.value.reported == workers && m.value.forwarded == m.value.executedLocal + |m.value.orphans|)
        decreases |arrivals| - consumed
      {
        HeardNext(start, arrivals, consumed, Image(executedWorkers, executedLocal, forwarded, reported));
        var Arrival(worker, message) := arrivals[consumed];
        panicked, executedWorkers, executedLocal, forwarded, reported :=
          Hear(worker, message, executedWorkers, executedLocal, forwarded, reported);
        if panicked {
          return;
        }
        consumed := consumed + 1;
        done := reported == workers && forwarded == executedLocal + |orphanPool|;
      }
    }

    method Place(tx: Transaction) returns (panicked: bool)
      requires |toWorkers| == workers
      modifies this`toWorkers, this`orphanPool
      ensures |toWorkers| == workers && (panicked <==> !Placeable(tx, workers))
      ensures !panicked ==>
                && orphanPool == (if tx.tag.OrphanTag? then old(orphanPool) + [tx] else old(orphanPool))
                && forall w :: 0 <= w < workers ==>
                     toWorkers[w] == old(toWorkers)[w] + if tx.tag == DoneBy(w) then [Assignment(tx)] else []
    {
      panicked := false;
      match tx.tag {
        case DoneBy(owner) =>
          if owner < workers {
            toWorkers := toWorkers[owner := toWorkers[owner] + [Assignment(tx)]];
          } else {
            panicked := true;
          }
        case OrphanTag =>
          orphanPool := orphanPool + [tx];
        case NotExecuted =>
          panicked := true;
      }
    }

    /**
      Sends a block's executed transactions to the workers they are tagged with, keeps its
      orphans, and tells everyone that that was all. A transaction that was never executed, or
      by a worker that does not exist, makes it panic.
     */
    method DistributeBlock(block: seq<Transaction>) returns (panicked: bool)
      requires |toWorkers| == workers
      modifies this`toWorkers, this`orphanPool
      ensures |toWorkers| == workers
      ensures panicked <==> exists t :: t in block && !(t.tag.OrphanTag? || (t.tag.DoneBy? && t.tag.worker < workers))
      ensures !panicked ==>
                && orphanPool == old(orphanPool) + Orphans(block)
                && forall w :: 0 <= w < workers ==>
                     toWorkers[w] == old(toWorkers)[w] + Script(TaggedFor(block, w), 0) + [DistributionDone]
    {
      hide TaggedFor, Script, Orphans, Placeable;
      PlaceableMeans(block, workers);
      panicked := false;
      var i := 0;
      assert block[..0] == [];
      forall w: nat ensures Script(TaggedFor(block[..0], w), 0) == [] {
        NothingTagged(w);
      }
      NoBlock();
      while i < |block|
        invariant i <= |block| && |toWorkers| == workers && !panicked
        invariant forall t :: t in block[..i] ==> Placeable(t, workers)
        invariant orphanPool == old(orphanPool) + Orphans(block[..i])
        invariant forall w :: 0 <= w < workers ==> toWorkers[w] == old(toWorkers)[w] + Script(TaggedFor(block[..i], w), 0)
      {
        var tx := block[i];
        assert tx in block;
        assert block[..i + 1] == block[..i] + [tx];
        LocalsSnoc(block[..i], tx);
        forall v: nat ensures Script(TaggedFor(block[..i + 1], v), 0) ==
                              Script(TaggedFor(block[..i], v), 0) + if tx.tag == DoneBy(v) then [Assignment(tx)] else [] {
          BlockScriptSnoc(block[..i], tx, v);
        }
        panicked := Place(tx);
        if panicked {
          return;
        }
        i := i + 1;
      }
      assert block[..i] == block;
      Broadcast(DistributionDone);
    }

    /** Executes the orphans one by one on the state. A panic ends it where it happens. */
    method ExecuteOrphanPool() returns (panicked: bool)
      modifies runtime.state
      ensures !panicked ==> Data(runtime.state.backend) == Run(Data(old(runtime.state.backend)), Bodies(orphanPool))
      ensures panicked ==> exists n :: PanicsAt(Data(old(runtime.state.backend)), orphanPool, n)
    {
      hide Perform, Exec, Run, Bodies;
      ghost var start := Data(runtime.state.backend);
      panicked := false;
      var i := 0;
      NothingToRun(start);
      assert orphanPool[..0] == [];
      while i < |orphanPool|
        invariant i <= |orphanPool| && !panicked
        invariant Data(runtime.state.backend) == Run(start, Bodies(orphanPool[..i]))
      {
        ghost var before := runtime.View();
        var c := orphanPool[i].body.call;
        DirectIsExec(c.steps, c.body, before);
        var outcome := Interpret(Sequential(runtime), c);
        if outcome.Aborted? {
          panicked := true;
          assert PanicsAt(start, orphanPool, i);
          return;
        }
        assert orphanPool[..i + 1] == orphanPool[..i] + [orphanPool[i]];
        BodiesSnoc(orphanPool[..i], orphanPool[i]);
        RunSnoc(start, Bodies(orphanPool[..i]), orphanPool[i].body);
        i := i + 1;
      }
      assert orphanPool[..i] == orphanPool;
    }
  }

  predicate Placeable(t: Transaction, workers: nat) {
    t.tag.OrphanTag? || (t.tag.DoneBy? && t.tag.worker < workers)
  }

  lemma PlaceableMeans(block: seq<Transaction>, workers: nat)
    ensures (exists t :: t in block && !Placeable(t, workers)) <==>
            (exists t :: t in block && !(t.tag.OrphanTag? || (t.tag.DoneBy? && t.tag.worker < workers)))
  {
  }

  lemma BlockScriptSnoc(txs: seq<Transaction>, t: Transaction, w: nat)
    ensures Script(TaggedFor(txs + [t], w), 0) == Script(TaggedFor(txs, w), 0) + if t.tag == DoneBy(w) then [Assignment(t)] else []
  {
    assert (txs + [t])[..|txs|] == txs;
  }

  /** Transaction `n` panics where the ones before it have left the state. */
  ghost predicate PanicsAt(d: Store, txs: seq<Transaction>, n: nat) {
    n < |txs| && ExecCall(txs[n].body.call, Run(d, Bodies(txs[..n]))).outcome == Panicked
  }

  lemma NothingToRun(d: Store)
    ensures Run(d, Bodies([])) == d
  {
  }

  lemma NothingTagged(w: nat)
    ensures Script(TaggedFor([], w), 0) == []
  {
  }

  lemma ScriptSnoc(txs: seq<Transaction>, t: Transaction, w: nat)
    requires t.tag.DoneBy?
    ensures Script(TaggedFor(txs + [t], w), 0) == Script(TaggedFor(txs, w), 0) + if t.tag.worker == w then [Assignment(t)] else []
  {
    assert (txs + [t])[..|txs|] == txs;
  }

  lemma HeardNothing(m: Master)
    ensures HeardAll(m, []) == Some(m)
  {
  }

  lemma HeardNext(start: Master, arrivals: seq<Arrival>, n: nat, m: Master)
    requires n < |arrivals| && HeardAll(start, arrivals[..n]) == Some(m)
    ensures HeardAll(start, arrivals[..n + 1]) == Heard(m, arrivals[n].from, arrivals[n].message)
  {
    assert arrivals[..n + 1][..n] == arrivals[..n];
  }

  lemma HeardCases(m: Master, w: ThreadId, message: ToMaster)
    ensures message.AuthoringReport? ==>
              Heard(m, w, message) == Some(m.(executedWorkers := m.executedWorkers + message.executed,
                                              forwarded := m.forwarded + message.forwarded, reported := m.reported + 1))
    ensures !message.AuthoringReport? && Position(m.pool, message.id) == |m.pool| ==> Heard(m, w, message).None?
    ensures message.WorkerOrphan? && Position(m.pool, message.id) < |m.pool| ==>
              var i := Position(m.pool, message.id);
              Heard(m, w, message) == Some(m.(pool := Without(m.pool, i), orphans := m.orphans + [m.pool[i].(tag := OrphanTag)]))
    ensures message.WorkerExecuted? && Position(m.pool, message.id) < |m.pool| ==>
              var i := Position(m.pool, message.id);
              Heard(m, w, message) ==
              if !m.pool[i].tag.DoneBy? || m.pool[i].tag.worker == w then None
              else Some(m.(pool := Without(m.pool, i) + [m.pool[i].(tag := DoneBy(w))], executedLocal := m.executedLocal + 1))
  {
  }

  // ---------------------------------------------------------------------------
  // A worker.

  datatype ExecutionOutcome = Executed | ForwardedTo(owner: ThreadId) | ForwardedToMaster | Broke

  /** What becomes of a transaction after its dispatch. */
  function OutcomeOf(tx: Transaction, r: CallResult): ExecutionOutcome {
    match r
    case Fine => Executed
    case Logic(_) => Executed
    case Clash(owner, corrupt) => if tx.status.Initial? && !corrupt then ForwardedTo(owner) else ForwardedToMaster
    case Aborted => Broke
  }

  /** What the worker tells the master about it. */
  function ToldOf(tx: Transaction, r: CallResult): seq<ToMaster> {
    match OutcomeOf(tx, r)
    case Executed => if tx.status.Forwarded? then [WorkerExecuted(tx.body.id)] else []
    case ForwardedToMaster => [WorkerOrphan(tx.body.id)]
    case _ => []
  }

  /** What it hands to other workers. */
  function HandedOf(tx: Transaction, r: CallResult): seq<(ThreadId, Transaction)> {
    match OutcomeOf(tx, r)
    case ForwardedTo(owner) => [(owner, tx)]
    case _ => []
  }

  /** The result the protocol's stage at the end of a dispatch stands for. */
  function ResultOf(st: Stage): CallResult {
    match st
    case Running(_, _, _) => Aborted
    case Committing(Success, _) => Fine
    case Committing(Failure(why), _) => Logic(why)
    case Committing(Panicked, _) => Aborted
    case Tainted(owner, corrupt) => Clash(owner, corrupt)
  }

  /** What the protocol's settling step sends is what the worker sends. */
  lemma SettlingSends(s: Sys, w: ThreadId)
    requires Ready(s, Settle(w)) && w < |s.workers|
    requires var st := s.workers[w].job.stage; st.Committing? ==> st.outcome != Panicked
    requires var st := s.workers[w].job.stage; st.Tainted? ==> st.owner < |s.workers| && st.owner != w
    ensures var Busy(tx, st) := s.workers[w].job;
            var s', r := DoSettle(s, w), ResultOf(s.workers[w].job.stage);
            && s'.workers[w].port.outbox == s.workers[w].port.outbox + ToldOf(tx, r)
            && (forall v :: 0 <= v < |s.workers| && v != w ==>
                  s'.workers[v].port.others == s.workers[v].port.others + if HandedOf(tx, r) == [(v, tx)] then [tx] else [])
  {
  }

  class WorkerThread {
    const runtime: ConcurrentRuntime
    const sequentialRuntime: SequentialRuntime
    var toMaster: seq<ToMaster>
    var toOthers: seq<(ThreadId, Transaction)>

    constructor (runtime: ConcurrentRuntime, sequentialRuntime: SequentialRuntime)
      ensures this.runtime == runtime && this.sequentialRuntime == sequentialRuntime && toMaster == [] && toOthers == []
    {
      this.runtime := runtime;
      this.sequentialRuntime := sequentialRuntime;
      toMaster := [];
      toOthers := [];
    }

    /** Dispatches a call: what is cached is stored only if the call ends well. */
    method Dispatch(c: Call) returns (r: CallResult)
      requires runtime.cache == map[]
      modifies runtime, runtime.state
      ensures Performed(r, runtime.View()) == Dispatched(c, old(runtime.View())) && runtime.cache == map[]
    {
      hide Perform, Own, Committed;
      CacheOwned(c.steps, c.body, runtime.View());
      r := Interpret(Concurrent(runtime), c);
      if r.Fine? {
        runtime.CommitCache();
      }
      runtime.cache := map[];
    }

    /**
      Executes the transaction, or hands it to the owner of the key in its way, or, if it has
      been forwarded before or has already touched other keys, to the master.
     */
    method ExecuteOrForward(tx: Transaction) returns (outcome: ExecutionOutcome)
      requires runtime.cache == map[]
      modifies this, runtime, runtime.state
      ensures var d := Dispatched(tx.body.call, old(runtime.View()));
              && runtime.View() == d.sight && outcome == OutcomeOf(tx, d.result)
              && toMaster == old(toMaster) + ToldOf(tx, d.result) && toOthers == old(toOthers) + HandedOf(tx, d.result)
      ensures runtime.cache == map[]
    {
      hide Dispatched;
      var result := Dispatch(tx.body.call);
      match result {
        case Clash(owner, corrupt) =>
          if tx.status.Initial? {
            if corrupt {
              toMaster := toMaster + [WorkerOrphan(tx.body.id)];
              outcome := ForwardedToMaster;
            } else {
              toOthers := toOthers + [(owner, tx)];
              outcome := ForwardedTo(owner);
            }
          } else {
            toMaster := toMaster + [WorkerOrphan(tx.body.id)];
            outcome := ForwardedToMaster;
          }
        case Aborted => outcome := Broke;
        case _ =>
          if tx.status.Forwarded? {
            toMaster := toMaster + [WorkerExecuted(tx.body.id)];
          }
          outcome := Executed;
      }
    }

    /**
      Works off what the master has sent, up to the end of the distribution, and reports. With
      nobody in between, each transaction finds the state as the ones before it left it.
     */
    method DepleteMasterQueue(queue: seq<ToWorker>) returns (executed: nat, forwarded: nat, panicked: bool)
      requires runtime.cache == map[]
      requires exists n: nat :: DistributedUpTo(queue, n)
      modifies this, runtime, runtime.state
      ensures runtime.cache == map[]
      ensures forall n: nat :: DistributedUpTo(queue, n) ==>
                var w := WorkOff(old(runtime.View()), SentTxs(queue, n));
                && panicked == w.broke
                && (!panicked ==>
                      && runtime.View() == w.sight && executed == w.executed && forwarded == w.forwarded && executed + forwarded == n
                      && toMaster == old(toMaster) + w.told + [AuthoringReport(executed, forwarded)]
                      && toOthers == old(toOthers) + w.handed)
    {
      hide Dispatched, WorkOff;
      executed, forwarded, panicked := 0, 0, false;
      var i := 0;
      ghost var n: nat :| DistributedUpTo(queue, n);
      ghost var start := runtime.View();
      assert forall m: nat :: DistributedUpTo(queue, m) ==> m == n;
      NothingWorked(start);
      assert SentTxs(queue, 0) == [];
      while true
        invariant i <= n && runtime.cache == map[]
        invariant var w := WorkOff(start, SentTxs(queue, i));
                  && !w.broke && runtime.View() == w.sight && executed == w.executed && forwarded == w.forwarded
                  && executed + forwarded == i
                  && toMaster == old(toMaster) + w.told && toOthers == old(toOthers) + w.handed
        decreases n - i
      {
        match queue[i] {
          case Assignment(tx) =>
            assert SentTxs(queue, i + 1) == SentTxs(queue, i) + [tx];
            WorkNext(start, SentTxs(queue, i), tx);
            var outcome := ExecuteOrForward(tx);
            match outcome {
              case Executed => executed := executed + 1;
              case Broke =>
                panicked := true;
                BrokeForGood(start, SentTxs(queue, i + 1), SentTxs(queue, n));
                return;
              case _ => forwarded := forwarded + 1;
            }
            i := i + 1;
          case DistributionDone =>
            break;
          case TaskDone => assert false;
        }
      }
      toMaster := toMaster + [AuthoringReport(executed, forwarded)];
    }

    /**
      Validating: everything the master sends, in order, straight on the state. With nobody in
      between it leaves what executing the transactions one by one leaves.
     */
    method RunValidate(queue: seq<ToWorker>) returns (panicked: bool)
      requires exists n: nat :: DistributedUpTo(queue, n)
      modifies sequentialRuntime.state
      ensures forall n: nat :: DistributedUpTo(queue, n) ==>
                if panicked
                then exists i :: PanicsAt(Data(old(sequentialRuntime.state.backend)), SentTxs(queue, n), i)
                else Data(sequentialRuntime.state.backend) == Run(Data(old(sequentialRuntime.state.backend)), Bodies(SentTxs(queue, n)))
    {
      hide Perform, Exec, Run, Bodies;
      panicked := false;
      var i := 0;
      ghost var n: nat :| DistributedUpTo(queue, n);
      ghost var start := Data(sequentialRuntime.state.backend);
      assert forall m: nat :: DistributedUpTo(queue, m) ==> m == n;
      NothingToRun(start);
      assert SentTxs(queue, 0) == [];
      while true
        invariant i <= n && !panicked
        invariant Data(sequentialRuntime.state.backend) == Run(start, Bodies(SentTxs(queue, i)))
        decreases n - i
      {
        match queue[i] {
          case Assignment(tx) =>
            ghost var done := SentTxs(queue, i);
            assert SentTxs(queue, i + 1) == done + [tx];
            assert SentTxs(queue, n)[..i] == done && SentTxs(queue, n)[i] == tx;
            DirectIsExec(tx.body.call.steps, tx.body.call.body, sequentialRuntime.View());
            var outcome := Interpret(Sequential(sequentialRuntime), tx.body.call);
            if outcome.Aborted? {
              panicked := true;
              assert PanicsAt(start, SentTxs(queue, n), i);
              return;
            }
            BodiesSnoc(done, tx);
            RunSnoc(start, Bodies(done), tx.body);
            i := i + 1;
          case DistributionDone =>
            break;
          case TaskDone => assert false;
        }
      }
    }
  }

  datatype Worked = Worked(sight: Sight, told: seq<ToMaster>, handed: seq<(ThreadId, Transaction)>,
                           executed: nat, forwarded: nat, broke: bool)

  /** The transactions one after the other. */
  function WorkOff(u: Sight, txs: seq<Transaction>): Worked {
    if txs == [] then Worked(u, [], [], 0, 0, false)
    else
      var w, tx := WorkOff(u, txs[..|txs| - 1]), txs[|txs| - 1];
      if w.broke then w
      else
        var d := Dispatched(tx.body.call, w.sight);
        var outcome := OutcomeOf(tx, d.result);
        Worked(d.sight, w.told + ToldOf(tx, d.result), w.handed + HandedOf(tx, d.result),
               if outcome.Executed? then w.executed + 1 else w.executed,
               if outcome.ForwardedTo? || outcome.ForwardedToMaster? then w.forwarded + 1 else w.forwarded,
               outcome.Broke?)
  }

  lemma NothingWorked(u: Sight)
    ensures WorkOff(u, []) == Worked(u, [], [], 0, 0, false)
  {
  }

  lemma WorkNext(u: Sight, txs: seq<Transaction>, tx: Transaction)
    requires !WorkOff(u, txs).broke
    ensures var w := WorkOff(u, txs);
            var d := Dispatched(tx.body.call, w.sight);
            var outcome := OutcomeOf(tx, d.result);
            WorkOff(u, txs + [tx]) ==
            Worked(d.sight, w.told + ToldOf(tx, d.result), w.handed + HandedOf(tx, d.result),
                   if outcome.Executed? then w.executed + 1 else w.executed,
                   if outcome.ForwardedTo? || outcome.ForwardedToMaster? then w.forwarded + 1 else w.forwarded,
                   outcome.Broke?)
  {
    hide Dispatched;
    assert (txs + [tx])[..|txs|] == txs;
  }

  lemma {:induction false} BrokeForGood(u: Sight, txs: seq<Transaction>, more: seq<Transaction>)
    requires WorkOff(u, txs).broke && txs <= more
    ensures WorkOff(u, more).broke
    decreases |more|
  {
    hide Dispatched;
    if |txs| < |more| {
      BrokeForGood(u, txs, more[..|more| - 1]);
    } else {
      assert txs == more;
    }
  }

  /** The first `n` messages, all of them transactions. */
  function SentTxs(queue: seq<ToWorker>, n: nat): (r: seq<Transaction>)
    requires n <= |queue| && forall i :: 0 <= i < n ==> queue[i].Assignment?
    ensures |r| == n && forall i :: 0 <= i < n ==> r[i] == queue[i].tx
  {
    seq(n, i requires 0 <= i < n => queue[i].tx)
  }

  /** `n` transactions, and then the end of the distribution. */
  predicate DistributedUpTo(queue: seq<ToWorker>, n: nat) {
    n < |queue| && queue[n].DistributionDone? && forall i :: 0 <= i < n ==> queue[i].Assignment?
  }
}
