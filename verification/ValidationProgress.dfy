// Validation ends too: every event takes something off the work left, and until the master
// is done some event is possible.
module ValidationProgress {
  import opened Storage
  import opened TaintState
  import opened Program
  import opened Transactions
  import opened Protocol
  import opened Bookkeeping
  import opened Undisturbed
  import opened BooksKept
  import opened Serializability
  import opened Authoring
  import opened Sums
  import opened Progress
  import opened Validation
  import opened Determinism

  function MessageCost(m: ToWorker): nat {
    match m
    case Assignment(t) => Steps(t) + 2
    case _ => 2
  }

  function PlanCost(x: Send): nat { MessageCost(x.message) + 1 }

  function ReplayerCost(v: Replayer): nat {
    Sum(v.inbox, MessageCost) + (if v.execution.Executing? then v.execution.steps + 1 else 0) + if v.told then 1 else 0
  }

  function CheckMeasure(c: Check): nat {
    Sum(c.replayers, ReplayerCost) + Sum(c.master.plan, PlanCost) +
    (if c.master.played <= |c.master.orphans| then |c.master.orphans| - c.master.played else 0) +
    if c.master.closing then 0 else 1
  }

  lemma ReplayerStep(c: Check, c': Check, w: ThreadId, v: Replayer)
    requires w < |c.replayers| && c'.replayers == c.replayers[w := v] && ReplayerCost(v) < ReplayerCost(c.replayers[w])
    requires c'.master.plan == c.master.plan && c'.master.orphans == c.master.orphans
    requires c'.master.played == c.master.played && c'.master.closing == c.master.closing
    ensures CheckMeasure(c') < CheckMeasure(c)
  {
    hide ReplayerCost, Sum;
    SumUpdate(c.replayers, w, v, ReplayerCost);
  }

  lemma EventDecreases(workers: nat, block: seq<Transaction>, d: Store, owners: StateMap, c: Check, e: Event)
    requires CheckInv(workers, block, d, owners, c) && Possible(c, e) && !Happen(c, e).panicked
    ensures CheckMeasure(Happen(c, e)) < CheckMeasure(c)
  {
    hide CheckMeasure, CheckInv, DoHear, DoTake, DoOneAccess, DoDistribute, DoPlayOrphan;
    match e
    case Distribute => DistributeCost(workers, block, d, owners, c);
    case Hear(w) => ReportCost(c, w);
    case Take(w) =>
      ToldOnlyAtTheEnd(workers, block, d, owners, c, w);
      TakeCost(c, w);
    case OneAccess(w) => ReplayCost(c, w);
    case AllHeard => ClosingCost(c);
    case PlayOrphan => PlayedCost(c);
  }

  lemma ReportCost(c: Check, w: ThreadId)
    requires Possible(c, Hear(w))
    ensures CheckMeasure(DoHear(c, w)) < CheckMeasure(c)
  {
    hide CheckMeasure, Sum;
    ReplayerStep(c, DoHear(c, w), w, DoHear(c, w).replayers[w]);
  }

  lemma ReplayCost(c: Check, w: ThreadId)
    requires Possible(c, OneAccess(w)) && !DoOneAccess(c, w).panicked
    ensures CheckMeasure(DoOneAccess(c, w)) < CheckMeasure(c)
  {
    hide CheckMeasure, Sum;
    ReplayerStep(c, DoOneAccess(c, w), w, DoOneAccess(c, w).replayers[w]);
  }

  lemma TakeCost(c: Check, w: ThreadId)
    requires Possible(c, Take(w)) && !c.replayers[w].told && !DoTake(c, w).panicked
    ensures CheckMeasure(DoTake(c, w)) < CheckMeasure(c)
  {
    hide CheckMeasure, Sum;
    SumFirst(c.replayers[w].inbox, MessageCost);
    ReplayerStep(c, DoTake(c, w), w, DoTake(c, w).replayers[w]);
  }

  /** A validating worker can always go on, whatever the others are doing. */
  lemma ReplayWaitFree(c: Check, w: ThreadId)
    requires !c.panicked && w < |c.replayers|
    ensures c.replayers[w].execution.Executing? ==> Possible(c, OneAccess(w))
    ensures c.replayers[w].execution.Resting? && !c.replayers[w].ended && c.replayers[w].inbox != [] ==> Possible(c, Take(w))
    ensures c.master.plan == [] && !c.master.closing && c.replayers[w].told ==> Possible(c, Hear(w))
  {
  }

  lemma ToldOnlyAtTheEnd(workers: nat, block: seq<Transaction>, d: Store, owners: StateMap, c: Check, w: ThreadId)
    requires CheckInv(workers, block, d, owners, c) && w < |c.replayers| && !c.replayers[w].ended
    ensures !c.replayers[w].told
  {
    hide OnCourse, CheckerOk, Waiting, TaggedFor;
    assert ReplayerOk(block, d, owners, c, w);
  }

  lemma ClosingCost(c: Check)
    requires Possible(c, AllHeard)
    ensures CheckMeasure(Happen(c, AllHeard)) < CheckMeasure(c)
  {
  }

  lemma PlayedCost(c: Check)
    requires Possible(c, PlayOrphan) && !DoPlayOrphan(c).panicked
    ensures CheckMeasure(DoPlayOrphan(c)) < CheckMeasure(c)
  {
  }

  lemma DistributeCost(workers: nat, block: seq<Transaction>, d: Store, owners: StateMap, c: Check)
    requires CheckInv(workers, block, d, owners, c) && Possible(c, Distribute)
    ensures CheckMeasure(DoDistribute(c)) < CheckMeasure(c)
  {
    hide ReplayerOk, Run, Same, Locals, Orphans;
    var Send(w, m) := c.master.plan[0];
    assert w < |c.replayers|;
    SumFirst(c.master.plan, PlanCost);
    SumSnoc(c.replayers[w].inbox, m, MessageCost);
    SumUpdate(c.replayers, w, DoDistribute(c).replayers[w], ReplayerCost);
  }

  /** Until validation is over, something is possible. */
  lemma SomethingPossible(workers: nat, block: seq<Transaction>, d: Store, owners: StateMap, c: Check) returns (e: Event)
    requires CheckInv(workers, block, d, owners, c) && !Validated(c)
    ensures Possible(c, e)
  {
    hide ReplayerOk, Run, Same, Locals, Orphans, Owner;
    if w :| 0 <= w < |c.replayers| && c.replayers[w].execution.Executing? {
      e := OneAccess(w);
    } else if c.master.plan != [] {
      e := Distribute;
    } else if w :| 0 <= w < |c.replayers| && !c.replayers[w].ended {
      StillSupplied(block, d, owners, c, w);
      e := Take(w);
    } else if c.master.closing {
      e := PlayOrphan;
    } else if w :| 0 <= w < |c.replayers| && c.replayers[w].told {
      e := Hear(w);
    } else {
      EveryoneReported(workers, block, d, owners, c);
      e := AllHeard;
    }
  }

  lemma StillSupplied(block: seq<Transaction>, d: Store, owners: StateMap, c: Check, w: ThreadId)
    requires w < |c.replayers| && ReplayerOk(block, d, owners, c, w) && c.master.plan == [] && !c.replayers[w].ended
    ensures c.replayers[w].inbox != []
  {
    hide OnCourse;
  }

  lemma EveryoneReported(workers: nat, block: seq<Transaction>, d: Store, owners: StateMap, c: Check)
    requires CheckInv(workers, block, d, owners, c)
    requires forall w :: 0 <= w < |c.replayers| ==> c.replayers[w].ended && !c.replayers[w].told
    ensures c.master.workersDone == |c.replayers|
  {
    hide OnCourse, Supplied, Run, Same, Locals, Orphans, Owner;
    forall w | 0 <= w < workers ensures w in c.master.heard {
      assert ReplayerOk(block, d, owners, c, w);
    }
    assert c.master.heard == UpTo(workers);
  }

  lemma HappenAllSnoc(c: Check, events: seq<Event>, e: Event)
    ensures HappenAll(c, events + [e]) == Happen(HappenAll(c, events), e)
  {
    assert (events + [e])[..|events|] == events;
  }

  /** Every validation, however far it has got, can be brought to its end in no more events than the work left. */
  lemma {:induction false} CanValidate(workers: nat, block: seq<Transaction>, initial: StateMap, owners: StateMap, events: seq<Event>,
                                       inv: Store -> bool)
      returns (more: seq<Event>)
    requires BlockSafe(workers, block, Data(initial), inv) && EachConfined(Locals(block), Data(initial), owners)
    requires forall k :: Owner(owners, k) != None ==> Owner(owners, k).value < workers
    ensures Validated(HappenAll(BeginCheck(workers, block, initial), events + more))
    ensures |more| <= CheckMeasure(HappenAll(BeginCheck(workers, block, initial), events))
    decreases CheckMeasure(HappenAll(BeginCheck(workers, block, initial), events))
  {
    hide BlockSafe, EachConfined, Owner, BeginCheck, HappenAll, Happen, CheckMeasure, CheckInv, Validated, Possible;
    var c := HappenAll(BeginCheck(workers, block, initial), events);
    if Validated(c) {
      more := [];
      assert events + [] == events;
    } else {
      ReachableCheck(workers, block, initial, owners, events, inv);
      var e := SomethingPossible(workers, block, Data(initial), owners, c);
      HappenAllSnoc(BeginCheck(workers, block, initial), events, e);
      ReachableCheck(workers, block, initial, owners, events + [e], inv);
      NotPanicked(workers, block, Data(initial), owners, Happen(c, e));
      EventDecreases(workers, block, Data(initial), owners, c, e);
      var rest := CanValidate(workers, block, initial, owners, events + [e], inv);
      more := [e] + rest;
      assert events + more == events + [e] + rest;
    }
  }

  lemma NotPanicked(workers: nat, block: seq<Transaction>, d: Store, owners: StateMap, c: Check)
    requires CheckInv(workers, block, d, owners, c)
    ensures !c.panicked
  {
    hide ReplayerOk;
  }

  /** So the block of any complete run can be validated to the end. */
  lemma CanValidateAuthored(task: Task, schedule: seq<Label>, initial: StateMap, inv: Store -> bool) returns (events: seq<Event>)
    requires TaskValid(task) && TaskSafe(task, inv) && Finished(ApplyAll(Init(task), schedule))
    requires Data(initial) == Data(task.initial)
    ensures Validated(HappenAll(BeginCheck(task.workers, BlockOf(ApplyAll(Init(task), schedule)), initial), events))
  {
    hide TaskValid, TaskSafe, Finished, Validated, ApplyAll, HappenAll, BeginCheck, Init, BlockSafe, EachConfined, Books, Owner, Locals,
         Orphans, Data, BlockOf;
    var s := ApplyAll(Init(task), schedule);
    ReachableInv(task, schedule, inv);
    FinishedCloses(s);
    BlockParts(task, s, inv);
    var owners := AuthoredConfined(task, schedule, inv);
    var more := CanValidate(task.workers, BlockOf(s), initial, owners, [], inv);
    assert [] + more == more;
    events := more;
  }

  lemma FinishedCloses(s: Sys)
    requires Finished(s)
    ensures s.master.closing
  {
  }
}
