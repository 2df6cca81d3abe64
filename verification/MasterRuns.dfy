// The master's collection loop on the messages of a run: it stops exactly when nothing is
// left to hear.
module MasterRuns {
  import opened Storage
  import opened TaintState
  import opened Program
  import opened Transactions
  import opened Protocol
  import opened Sequences
  import opened Bookkeeping
  import opened BooksKept
  import opened Authoring
  import opened AuthoringTheorems
  import opened Progress
  import opened Threads

  /** What the collection loop works on: the pools and the counters. */
  function Collected(m: Master): Master {
    m.(closing := false, plan := [], played := 0)
  }

  /** The messages the master takes along the schedule, in the order in which it takes them. */
  function ArrivalsOf(s: Sys, schedule: seq<Label>): seq<Arrival> {
    if schedule == [] then []
    else
      var before, l := schedule[..|schedule| - 1], schedule[|schedule| - 1];
      var t := ApplyAll(s, before);
      ArrivalsOf(s, before) +
      if l.MasterReceive? && Ready(t, l) then [Arrival(l.from, t.workers[l.from].port.outbox[0])] else []
  }

  lemma HeardAllSnoc(m: Master, arrivals: seq<Arrival>, a: Arrival)
    requires HeardAll(m, arrivals).Some?
    ensures HeardAll(m, arrivals + [a]) == Heard(HeardAll(m, arrivals).value, a.from, a.message)
  {
    hide Heard;
    assert (arrivals + [a])[..|arrivals|] == arrivals;
  }

  lemma HeardCollected(m: Master, w: ThreadId, message: ToMaster)
    ensures Heard(m, w, message).Some? ==> Heard(Collected(m), w, message) == Some(Collected(Heard(m, w, message).value))
  {
    hide Position, Without;
  }

  /** Other steps leave the pools and the counters alone. */
  lemma NothingHeard(s: Sys, l: Label)
    requires !l.MasterReceive?
    ensures Collected(Apply(s, l).master) == Collected(s.master)
  {
    hide Exec;
    if Ready(s, l) {
      match l
      case Receive(w) => ReceiveEffect(s, w);
      case Settle(w) => SettleMaster(s, w);
      case _ =>
    }
  }

  lemma SettleMaster(s: Sys, w: ThreadId)
    requires Ready(s, Settle(w))
    ensures DoSettle(s, w).master == s.master
  {
  }

  lemma OneHeard(s: Sys, w: ThreadId)
    requires Ready(s, MasterReceive(w)) && !DoMasterReceive(s, w).panicked
    ensures Heard(Collected(s.master), w, s.workers[w].port.outbox[0]) == Some(Collected(DoMasterReceive(s, w).master))
  {
    hide DoMasterReceive, Heard;
    HeardIsTheStep(s, w);
    HeardCollected(s.master, w, s.workers[w].port.outbox[0]);
  }

  /** Hearing the messages of a run one after the other leads where the run has led the master. */
  lemma {:induction false} HeardAlongTheRun(task: Task, schedule: seq<Label>, inv: Store -> bool)
    requires TaskValid(task) && TaskSafe(task, inv)
    ensures HeardAll(Collected(Init(task).master), ArrivalsOf(Init(task), schedule)) ==
            Some(Collected(ApplyAll(Init(task), schedule).master))
  {
    hide TaskValid, TaskSafe, Apply, Heard, HeardAll, Collected;
    if schedule == [] {
      HeardNothing(Collected(Init(task).master));
    } else {
      var before, l := schedule[..|schedule| - 1], schedule[|schedule| - 1];
      var s := ApplyAll(Init(task), before);
      HeardAlongTheRun(task, before, inv);
      if l.MasterReceive? && Ready(s, l) {
        ReachableInv(task, schedule, inv);
        Received(s, l.from);
        OneHeard(s, l.from);
        HeardAllSnoc(Collected(Init(task).master), ArrivalsOf(Init(task), before), Arrival(l.from, s.workers[l.from].port.outbox[0]));
      } else {
        Unready(s, l);
        assert ArrivalsOf(Init(task), before) + [] == ArrivalsOf(Init(task), before);
      }
    }
  }

  lemma Received(s: Sys, w: ThreadId)
    requires Ready(s, MasterReceive(w))
    ensures Apply(s, MasterReceive(w)) == DoMasterReceive(s, w)
  {
    hide DoMasterReceive;
  }

  lemma Unready(s: Sys, l: Label)
    requires !(l.MasterReceive? && Ready(s, l))
    ensures Collected(Apply(s, l).master) == Collected(s.master)
  {
    hide Collected;
    if !l.MasterReceive? {
      NothingHeard(s, l);
    }
  }

  /**
    On the messages of any run of authoring that has got through the distribution, the counters
    of the collection loop add up if and only if nothing is in a queue or in a worker's hands
    any more: every transaction has then been heard of, and before that none of the loop's
    turns ends it.
   */
  lemma CountersAddUpExactly(task: Task, schedule: seq<Label>, inv: Store -> bool)
    requires TaskValid(task) && TaskSafe(task, inv)
    requires var s := ApplyAll(Init(task), schedule); s.master.plan == [] && !s.master.closing
    ensures var s := ApplyAll(Init(task), schedule);
            var h := HeardAll(Collected(Init(task).master), ArrivalsOf(Init(task), schedule));
            && h.Some? && h.value.pool == s.master.pool && h.value.orphans == s.master.orphans
            && (h.value.reported == task.workers && h.value.forwarded == h.value.executedLocal + |h.value.orphans| <==>
                forall w :: 0 <= w < |s.workers| ==>
                  s.workers[w].job.Idle? && s.workers[w].port.inbox == [] && s.workers[w].port.others == [] && s.workers[w].port.outbox == [])
            && (h.value.reported == task.workers && h.value.forwarded == h.value.executedLocal + |h.value.orphans| ==>
                Quiet(task, s) && |task.pool| == h.value.executedWorkers + h.value.executedLocal + |h.value.orphans|)
  {
    hide TaskValid, TaskSafe, ApplyAll, Init, HeardAll, ArrivalsOf, Books, Quiet;
    var s := ApplyAll(Init(task), schedule);
    HeardAlongTheRun(task, schedule, inv);
    ReachableInv(task, schedule, inv);
    BasicsOf(task, s);
    if Ready(s, MasterBreak) {
      Quiescence(task, schedule, inv);
      IdleAll(task, s);
    }
    if NothingMoves(s) {
      CanBreak(task, s);
    }
  }

  lemma IdleAll(task: Task, s: Sys)
    requires Quiet(task, s)
    ensures forall w :: 0 <= w < |s.workers| ==> s.workers[w].job.Idle? && s.workers[w].port.others == [] && s.workers[w].port.outbox == []
  {
  }
}
