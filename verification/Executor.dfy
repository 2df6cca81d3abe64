// The executors: authoring a block, validating it, and comparing the two.
module Executor {
  import opened Storage
  import opened TaintState
  import opened Program
  import opened Transactions
  import opened Protocol
  import opened Serializability
  import opened AuthoringTheorems
  import opened Distribution
  import opened Validation
  import opened Determinism
  import opened StateEquality
  import opened SharedState
  import opened Runtimes
  import opened RuntimeCalls
  import opened CacheRefinement
  import opened Calls
  import opened Ledgers

  /** Whatever tags the transactions: a distributer keeps the pool as it is but for the tags. */
  type Distributer = (seq<Transaction>, nat) -> seq<Transaction>

  /** What a pool must be like when it is submitted, and the state it is executed on. */
  ghost predicate Submittable(pool: seq<Transaction>, workers: nat, start: StateMap, inv: Store -> bool) {
    && Unique(pool) && inv(Data(start))
    && (forall t :: t in pool ==> t.status.Initial? && DisciplinedCall(t.body.call) && Preserves(inv, t.body.call))
    && (forall k :: Owner(start, k) != None ==> Owner(start, k).value < workers)
  }

  /** Tagged by a distributer that only tags, such a pool makes a task with all that authoring needs. */
  lemma SubmittedIsSafe(pool: seq<Transaction>, tagged: seq<Transaction>, workers: nat, start: StateMap, inv: Store -> bool)
    requires Submittable(pool, workers, start, inv) && Retagged(pool, tagged, workers)
    ensures TaskValid(Task(workers, tagged, start)) && TaskSafe(Task(workers, tagged, start), inv)
    ensures Bodies(tagged) == Bodies(pool)
  {
    hide Preserves, DisciplinedCall;
    forall t | t in tagged
      ensures t.tag.DoneBy? && t.tag.worker < workers && t.status.Initial? && DisciplinedCall(t.body.call) && Preserves(inv, t.body.call)
    {
      var i :| 0 <= i < |tagged| && tagged[i] == t;
      assert pool[i] in pool;
    }
  }

  class ConcurrentExecutor {
    const workers: nat
    const state: State
    var txPool: seq<Transaction>
    var orphanPool: seq<Transaction>

    constructor (workers: nat, state: State)
      ensures this.workers == workers && this.state == state && txPool == [] && orphanPool == []
    {
      this.workers := workers;
      this.state := state;
      txPool := [];
      orphanPool := [];
    }

    /** Inserts every entry of the given state. */
    method ApplyState(entries: StateMap)
      modifies state
      ensures state.backend == old(state.backend) + entries
    {
      var rest := entries;
      while rest != map[]
        invariant rest.Keys <= entries.Keys && forall k :: k in rest ==> rest[k] == entries[k]
        invariant state.backend + rest == old(state.backend) + entries
        decreases rest.Keys
      {
        assert rest.Keys != {};
        var k :| k in rest.Keys;
        ghost var before := state.backend;
        state.UnsafeInsert(k, rest[k]);
        assert state.backend + (rest - {k}) == before + rest;
        rest := rest - {k};
      }
      assert state.backend + map[] == state.backend;
    }

    /**
      Adds the transactions to the pool, has it distributed, and runs that task to its end, the
      threads taking turns as `schedule` says. The block is the pool's transactions in some
      order, and the state is what executing it one by one gives.
     */
    method AuthorBlock(txs: seq<Transaction>, distribute: Distributer, schedule: seq<Label>, ghost inv: Store -> bool)
      returns (dump: StateMap, block: seq<Transaction>)
      requires orphanPool == []
      requires Finished(ApplyAll(Init(Task(workers, distribute(txPool + txs, workers), state.backend)), schedule))
      modifies this, state
      ensures var s := ApplyAll(Init(Task(workers, distribute(old(txPool) + txs, workers), old(state.backend))), schedule);
              dump == state.backend == s.state && txPool == s.master.pool && orphanPool == s.master.orphans
      ensures block == txPool + orphanPool
      ensures var task := Task(workers, distribute(old(txPool) + txs, workers), old(state.backend));
              TaskValid(task) && TaskSafe(task, inv) ==>
                && multiset(Bodies(block)) == multiset(Bodies(distribute(old(txPool) + txs, workers)))
                && Same(Data(dump), Run(Data(old(state.backend)), Bodies(block)))
      ensures var pool := old(txPool) + txs;
              Submittable(pool, workers, old(state.backend), inv) && Retagged(pool, distribute(pool, workers), workers) ==>
                && multiset(Bodies(block)) == multiset(Bodies(pool))
                && Same(Data(dump), Run(Data(old(state.backend)), Bodies(block)))
    {
      hide ApplyAll, Init, Finished, TaskValid, TaskSafe, Bodies, Run, Submittable, Retagged;
      txPool := txPool + txs;
      ghost var pool := txPool;
      ghost var task := Task(workers, distribute(pool, workers), state.backend);
      var s := ApplyAll(Init(Task(workers, distribute(txPool, workers), state.backend)), schedule);
      txPool := s.master.pool;
      orphanPool := orphanPool + s.master.orphans;
      state.backend := s.state;
      dump := state.backend;
      block := txPool + orphanPool;
      if Submittable(pool, workers, task.initial, inv) && Retagged(pool, task.pool, workers) {
        SubmittedIsSafe(pool, task.pool, workers, task.initial, inv);
      }
      if TaskValid(task) && TaskSafe(task, inv) {
        Authored(task, schedule, inv);
      }
    }

    /**
      Replays the block, the threads acting in turn as `events` says. If each worker's
      transactions stay on keys of its own, the state ends up with exactly the entries and
      values of executing the workers' part of the block and then the orphans one by one.
     */
    method ValidateBlock(block: seq<Transaction>, events: seq<Event>, ghost owners: StateMap, ghost inv: Store -> bool)
      returns (dump: StateMap)
      requires orphanPool == []
      requires Validated(HappenAll(BeginCheck(workers, block, state.backend), events))
      modifies this, state
      ensures dump == state.backend == HappenAll(BeginCheck(workers, block, old(state.backend)), events).state
      ensures txPool == old(txPool)
      ensures Replayable(workers, block, Data(old(state.backend)), owners, inv) ==>
                Data(dump) == Run(Data(old(state.backend)), Bodies(Locals(block)) + Bodies(Orphans(block)))
      ensures forall task, schedule :: Produces(task, schedule, inv, block) && task.workers == workers &&
                                       Data(task.initial) == Data(old(state.backend)) ==>
                Data(dump) == Run(Data(old(state.backend)), Bodies(block)) &&
                Same(Data(dump), Data(ApplyAll(Init(task), schedule).state))
    {
      hide HappenAll, BeginCheck, Validated, Replayable, Produces, Bodies, Locals, Orphans, Run;
      ghost var start := state.backend;
      var c := HappenAll(BeginCheck(workers, block, state.backend), events);
      orphanPool := orphanPool + c.master.orphans;
      state.backend := c.state;
      dump := state.backend;
      if Replayable(workers, block, Data(start), owners, inv) {
        Replayed(workers, block, start, owners, events, inv);
      }
      forall task, schedule | Produces(task, schedule, inv, block) && task.workers == workers && Data(task.initial) == Data(start)
        ensures Data(dump) == Run(Data(start), Bodies(block)) && Same(Data(dump), Data(ApplyAll(Init(task), schedule).state))
      {
        ReplayedAsAuthored(task, schedule, block, start, events, inv);
      }
    }

    method Clean()
      modifies this, state
      ensures txPool == [] && orphanPool == [] && state.backend == map[]
    {
      txPool := [];
      state.UnsafeClean();
      orphanPool := [];
    }

    /**
      Authors a block and validates it, each from the given state. The given state is put on
      top of whatever is there when authoring begins, and on nothing when validation begins.
     */
    method AuthorAndValidate(txs: seq<Transaction>, given: Option<StateMap>, distribute: Distributer,
                             schedule: seq<Label>, events: seq<Event>, ghost inv: Store -> bool)
      returns (ok: bool)
      requires orphanPool == []
      requires var start := if given.Some? then given.value else map[];
               var s := ApplyAll(Init(Task(workers, distribute(txPool + txs, workers), state.backend + start)), schedule);
               Finished(s) && Validated(HappenAll(BeginCheck(workers, BlockOf(s), start), events))
      modifies this, state
      ensures txPool == [] && orphanPool == [] && state.backend == map[]
      ensures var start := if given.Some? then given.value else map[];
              var s := ApplyAll(Init(Task(workers, distribute(old(txPool) + txs, workers), old(state.backend) + start)), schedule);
              ok <==> Data(HappenAll(BeginCheck(workers, BlockOf(s), start), events).state) == Data(s.state)
      ensures var start := if given.Some? then given.value else map[];
              var task := Task(workers, distribute(old(txPool) + txs, workers), start);
              var s := ApplyAll(Init(task), schedule);
              old(state.backend) == map[] && TaskValid(task) && TaskSafe(task, inv) ==>
                && (ok <==> Accessed(Init(task), schedule) <= Run(Data(start), Bodies(BlockOf(s))).Keys)
                && (Accessed(Init(task), schedule) <= start.Keys ==> ok)
      ensures var start := if given.Some? then given.value else map[];
              var pool := old(txPool) + txs;
              var s := ApplyAll(Init(Task(workers, distribute(pool, workers), start)), schedule);
              old(state.backend) == map[] && Submittable(pool, workers, start, inv) && Retagged(pool, distribute(pool, workers), workers) ==>
                && multiset(Bodies(BlockOf(s))) == multiset(Bodies(pool))
                && (ok <==> Accessed(Init(Task(workers, distribute(pool, workers), start)), schedule) <= Run(Data(start), Bodies(BlockOf(s))).Keys)
    {
      hide ApplyAll, HappenAll, BeginCheck, Init, Finished, Validated, StateEq, TaskValid, TaskSafe, Accessed, Replayable, Produces,
           Data, BlockOf, Run, Bodies, Locals, Orphans, Submittable, Retagged;
      ghost var start := if given.Some? then given.value else map[];
      ghost var pool := txPool + txs;
      ghost var task := Task(workers, distribute(pool, workers), start);
      OnTop(state.backend, start);
      if given.Some? {
        ApplyState(given.value);
      }
      var authored, block := AuthorBlock(txs, distribute, schedule, inv);
      BlockIs(ApplyAll(Init(Task(workers, distribute(pool, workers), old(state.backend) + start)), schedule));
      Clean();
      if given.Some? {
        ApplyState(given.value);
      }
      var validated := ValidateBlock(block, events, map[], inv);
      Clean();
      ok := StateEq(validated, authored);
      StateEqExact(validated, authored);
      if Submittable(pool, workers, start, inv) && Retagged(pool, distribute(pool, workers), workers) {
        SubmittedIsSafe(pool, distribute(pool, workers), workers, start, inv);
      }
      if old(state.backend) == map[] && TaskValid(task) && TaskSafe(task, inv) {
        Authored(task, schedule, inv);
        ComparesExactly(task, schedule, start, events, inv);
      }
    }
  }

  lemma BlockIs(s: Sys)
    ensures BlockOf(s) == s.master.pool + s.master.orphans
  {
  }

  /** The block can be replayed, and its workers keep to the keys that `owners` gives them. */
  ghost predicate Replayable(workers: nat, block: seq<Transaction>, d: Store, owners: StateMap, inv: Store -> bool) {
    && BlockSafe(workers, block, d, inv) && EachConfined(Locals(block), d, owners)
    && forall k :: Owner(owners, k) != None ==> Owner(owners, k).value < workers
  }

  /** A complete run of the task that ends with this block. */
  ghost predicate Produces(task: Task, schedule: seq<Label>, inv: Store -> bool, block: seq<Transaction>) {
    TaskValid(task) && TaskSafe(task, inv) && Finished(ApplyAll(Init(task), schedule)) && block == BlockOf(ApplyAll(Init(task), schedule))
  }

  lemma Authored(task: Task, schedule: seq<Label>, inv: Store -> bool)
    requires TaskValid(task) && TaskSafe(task, inv) && Finished(ApplyAll(Init(task), schedule))
    ensures var s := ApplyAll(Init(task), schedule);
            && multiset(Bodies(BlockOf(s))) == multiset(Bodies(task.pool))
            && Same(Data(s.state), Run(Data(task.initial), Bodies(BlockOf(s))))
  {
    hide TaskValid, TaskSafe, Finished, ApplyAll, Init, Bodies, Run, BlockOf;
    Serializable(task, schedule, inv);
    NothingLost(task, schedule, inv);
  }

  lemma Replayed(workers: nat, block: seq<Transaction>, start: StateMap, owners: StateMap, events: seq<Event>, inv: Store -> bool)
    requires Replayable(workers, block, Data(start), owners, inv) && Validated(HappenAll(BeginCheck(workers, block, start), events))
    ensures Data(HappenAll(BeginCheck(workers, block, start), events).state) ==
            Run(Data(start), Bodies(Locals(block)) + Bodies(Orphans(block)))
  {
    hide BlockSafe, EachConfined, HappenAll, BeginCheck, Validated, Locals, Orphans, Bodies, Run, Data;
    ValidationConfluent(workers, block, start, owners, events, inv);
  }

  lemma ReplayedAsAuthored(task: Task, schedule: seq<Label>, block: seq<Transaction>, start: StateMap, events: seq<Event>, inv: Store -> bool)
    requires Produces(task, schedule, inv, block) && Data(start) == Data(task.initial)
    requires Validated(HappenAll(BeginCheck(task.workers, block, start), events))
    ensures var c := HappenAll(BeginCheck(task.workers, block, start), events);
            Data(c.state) == Run(Data(start), Bodies(block)) && Same(Data(c.state), Data(ApplyAll(Init(task), schedule).state))
  {
    hide TaskValid, TaskSafe, Finished, Validated, ApplyAll, HappenAll, BeginCheck, Init, BlockOf, Bodies, Run, Data;
    Deterministic(task, schedule, start, events, inv);
  }

  lemma OnTop(backend: StateMap, start: StateMap)
    ensures start == map[] ==> backend + start == backend
    ensures backend == map[] ==> backend + start == start
    ensures map[] + start == start
  {
  }

  // ---------------------------------------------------------------------------
  // The sequential executor.

  class SequentialExecutor {
    const runtime: SequentialRuntime

    constructor (runtime: SequentialRuntime)
      ensures this.runtime == runtime
    {
      this.runtime := runtime;
    }

    /** Dispatches the transactions one by one. A panic ends it where it happens. */
    method ApplyTransaction(transactions: seq<Signed>) returns (outcomes: seq<CallResult>, panicked: bool)
      modifies runtime.state
      ensures |outcomes| <= |transactions| && (!panicked <==> |outcomes| == |transactions|)
      ensures !panicked ==> Data(runtime.state.backend) == RunCalls(Data(old(runtime.state.backend)), transactions)
      ensures forall i {:trigger outcomes[i]} :: 0 <= i < |outcomes| ==>
                var o := ExecCall(CallOf(transactions[i].call, transactions[i].origin),
                                  RunCalls(Data(old(runtime.state.backend)), transactions[..i])).outcome;
                (outcomes[i].Fine? && o == Success) || (outcomes[i].Logic? && o == Failure(outcomes[i].why))
      ensures panicked ==>
                ExecCall(CallOf(transactions[|outcomes|].call, transactions[|outcomes|].origin),
                         RunCalls(Data(old(runtime.state.backend)), transactions[..|outcomes|])).outcome == Panicked
      ensures Sound(Data(old(runtime.state.backend))) && (forall x :: x in transactions ==> !NamesDefault(x.call, x.origin)) ==>
                !panicked
    {
      hide Perform, Exec, Sound, NamesDefault, CallOf;
      outcomes, panicked := [], false;
      ghost var start := Data(runtime.state.backend);
      var i := 0;
      while i < |transactions|
        invariant i == |outcomes| <= |transactions|
        invariant Data(runtime.state.backend) == RunCalls(start, transactions[..i])
        invariant forall j {:trigger outcomes[j]} :: 0 <= j < i ==>
                    var o := ExecCall(CallOf(transactions[j].call, transactions[j].origin), RunCalls(start, transactions[..j])).outcome;
                    (outcomes[j].Fine? && o == Success) || (outcomes[j].Logic? && o == Failure(outcomes[j].why))
      {
        var tx := transactions[i];
        ghost var before := runtime.View();
        var r := DispatchSequential(runtime, tx.call, tx.origin);
        DirectIsExec(CallOf(tx.call, tx.origin).steps, CallOf(tx.call, tx.origin).body, before);
        if r.Aborted? {
          panicked := true;
          SoundAtPrefix(start, transactions, i);
          return;
        }
        outcomes := outcomes + [r];
        assert transactions[..i + 1] == transactions[..i] + [tx];
        RunCallsSnoc(start, transactions[..i], tx);
        i := i + 1;
      }
      assert transactions[..i] == transactions;
    }
  }

  lemma RunCallsSnoc(d: Store, calls: seq<Signed>, x: Signed)
    ensures RunCalls(d, calls + [x]) == ExecCall(CallOf(x.call, x.origin), RunCalls(d, calls)).store
  {
    hide CallOf, ExecCall, RunCalls;
    RunCallsNext(d, calls + [x]);
    assert (calls + [x])[..|calls|] == calls;
  }

  lemma SoundAtPrefix(d: Store, calls: seq<Signed>, i: nat)
    requires i < |calls|
    ensures Sound(d) && (forall x :: x in calls ==> !NamesDefault(x.call, x.origin)) ==>
              ExecCall(CallOf(calls[i].call, calls[i].origin), RunCalls(d, calls[..i])).outcome != Panicked
  {
    hide Sound, CallOf, ExecCall, NamesDefault, RunCalls;
    if Sound(d) && forall x :: x in calls ==> !NamesDefault(x.call, x.origin) {
      RunCallsSound(d, calls);
      assert calls[..i] == calls[..i];
    }
  }
}
