// Runs of pools distributed by connected components.
module DistributedRuns {
  import opened Storage
  import opened TaintState
  import opened Program
  import opened Transactions
  import opened Protocol
  import opened Components
  import opened Distribution
  import opened Calls
  import opened Validation
  import opened StateEquality
  import opened Refinement

  /** What the distributer did is all the refinement needs. */
  lemma DistributedIsSeparated(pool: seq<Transaction>, tagged: seq<Transaction>, workers: nat, initial: StateMap)
    requires Unique(pool) && NoTaints(initial) && Retagged(pool, tagged, workers) && Together(pool, tagged)
    requires forall t :: t in pool ==> t.status.Initial? && WithinAccess(t.body.call)
    ensures SeparatedTask(Task(workers, tagged, initial))
    ensures Bodies(tagged) == Bodies(pool)
  {
    hide WithinAccess, Connected;
    forall t | t in tagged ensures t.tag.DoneBy? && t.tag.worker < workers && t.status.Initial? && WithinAccess(t.body.call) {
      var i :| 0 <= i < |tagged| && tagged[i] == t;
      assert pool[i] in pool;
    }
    forall t, u, k | t in tagged && u in tagged && k in t.body.call.access && k in u.body.call.access ensures t.tag == u.tag {
      var i: nat :| i < |tagged| && tagged[i] == t;
      var j: nat :| j < |tagged| && tagged[j] == u;
      SharedIsConnected(pool, i, j, k);
    }
  }

  lemma SharedIsConnected(pool: seq<Transaction>, i: nat, j: nat, k: Key)
    requires i < |pool| && j < |pool| && k in pool[i].body.call.access && k in pool[j].body.call.access
    ensures Connected(pool, i, j)
  {
    hide Connected;
    ConnectedSelf(pool, i);
    assert Shares(pool, i, j);
    ChainOn(pool, i, i, j);
  }

  /**
    A pool distributed by connected components, from an untainted state, with calls that keep
    to their access lists: on every schedule the block is the pool in its submitted order, no
    transaction is forwarded or orphaned, and the run ends with the values that executing the
    pool one by one in submission order gives.
   */
  lemma ComponentsRunSequentially(pool: seq<Transaction>, tagged: seq<Transaction>, workers: nat, initial: StateMap,
                                  schedule: seq<Label>, inv: Store -> bool)
    requires Unique(pool) && NoTaints(initial) && Retagged(pool, tagged, workers) && Together(pool, tagged)
    requires forall t :: t in pool ==> t.status.Initial? && WithinAccess(t.body.call)
    requires TaskSafe(Task(workers, tagged, initial), inv)
    ensures var s := ApplyAll(Init(Task(workers, tagged, initial)), schedule);
            && BlockOf(s) == tagged
            && (forall id :: id in s.history.fates ==> s.history.fates[id].Fresh? || s.history.fates[id].Local?)
            && (Finished(s) ==> Same(Data(s.state), Run(Data(initial), Bodies(pool))))
  {
    hide ApplyAll, Init, TaskSafe, WithinAccess, Finished, Run, Bodies, NoTaints, Unique, Retagged, Together, SeparatedTask;
    DistributedIsSeparated(pool, tagged, workers, initial);
    SeparatedIsSequential(Task(workers, tagged, initial), schedule, inv);
  }

  /**
    The same, seen from author_and_validate: every run and every validation of it compare
    equal if and only if each key accessed when the pool is executed in submission order has
    an entry in the end.
   */
  lemma ComponentsCompareExactly(pool: seq<Transaction>, tagged: seq<Transaction>, workers: nat, initial: StateMap,
                                 schedule: seq<Label>, events: seq<Event>, inv: Store -> bool)
    requires Unique(pool) && NoTaints(initial) && Retagged(pool, tagged, workers) && Together(pool, tagged)
    requires forall t :: t in pool ==> t.status.Initial? && WithinAccess(t.body.call)
    requires TaskSafe(Task(workers, tagged, initial), inv) && Finished(ApplyAll(Init(Task(workers, tagged, initial)), schedule))
    requires Validated(HappenAll(BeginCheck(workers, tagged, initial), events))
    ensures StateEq(HappenAll(BeginCheck(workers, tagged, initial), events).state,
                    ApplyAll(Init(Task(workers, tagged, initial)), schedule).state) <==>
            AllAccessedStored(Data(initial), Bodies(pool))
  {
    hide ApplyAll, HappenAll, BeginCheck, Init, TaskSafe, WithinAccess, Finished, Validated, StateEq, AllAccessedStored, Bodies, NoTaints,
         Unique, Retagged, Together, SeparatedTask;
    DistributedIsSeparated(pool, tagged, workers, initial);
    SeparatedComparesExactly(Task(workers, tagged, initial), schedule, initial, events, inv);
  }
}
