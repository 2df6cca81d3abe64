// The authoring task once more, with every access to the shared state in the two looks it
// really takes. Between the looks any other thread may act. The task behaves as the
// transition system whose accesses are atomic.
module TwoLooks {
  import opened Storage
  import opened TaintState
  import opened Program
  import opened Dispatch
  import opened Transactions
  import opened Protocol
  import opened Sequences
  import opened Bookkeeping
  import opened Serializability
  import opened Authoring
  import opened AuthoringTheorems
  import opened Attempts
  import opened Progress

  /** `between` holds the workers that have dropped the read lock, and what they saw under it. */
  datatype Looking = Looking(sys: Sys, between: map<ThreadId, Look>)

  datatype LookLabel = Other(step: Label) | First(worker: ThreadId) | Second(worker: ThreadId)

  /** The dispatch is about to access the state, not only its cache. */
  predicate AtState(st: Stage) {
    st.Running? && st.fuel > 0 && (st.prog.Read? || st.prog.Write?) && st.prog.key !in st.cache
  }

  /** The dispatch once its access has been answered. */
  function Answer(st: Stage, s: StateMap, a: Access): Move
    requires AtState(st)
  {
    match a
    case Granted(v, s') =>
      Move(if st.prog.Read? then Running(st.fuel - 1, st.prog.next(v), st.cache)
           else Running(st.fuel - 1, st.prog.rest, st.cache[st.prog.key := st.prog.value]), s')
    case Denied(owner) => Refused(s, st.prog.onTaint, owner)
    case Broken => Crash
  }

  function Answered(s: Sys, w: ThreadId, a: Access): Sys
    requires Ready(s, Access(w)) && AtState(s.workers[w].job.stage)
  {
    var Busy(tx, stage) := s.workers[w].job;
    match Answer(stage, s.state, a)
    case Crash => Panics(s)
    case Move(stage', state') => SetJob(s.(state := state'), w, Busy(tx, stage'))
  }

  /** One step. A worker's first look settles the access if the key has an owner; otherwise it takes a second one. */
  function Step(x: Looking, l: LookLabel): Looking {
    match l
    case Other(m) => if m.Access? then x else x.(sys := Apply(x.sys, m))
    case First(w) =>
      if !Ready(x.sys, Access(w)) || w in x.between then x
      else
        var stage := x.sys.workers[w].job.stage;
        if !AtState(stage) then x.(sys := Apply(x.sys, Access(w)))
        else
          (match FirstLook(x.sys.state, stage.prog.key, ReadOp, w)
           case Answered(a) => x.(sys := Answered(x.sys, w, a))
           case seen => x.(between := x.between[w := seen]))
    case Second(w) =>
      if !Ready(x.sys, Access(w)) || w !in x.between || x.between[w].Answered? then x
      else
        var stage := x.sys.workers[w].job.stage;
        if !AtState(stage) then x
        else
          var a := SecondLook(x.sys.state, stage.prog.key, ReadOp, w, x.between[w]);
          Looking(Answered(x.sys, w, a), x.between - {w})
  }

  function StepAll(x: Looking, labels: seq<LookLabel>): Looking {
    if labels == [] then x else Step(StepAll(x, labels[..|labels| - 1]), labels[|labels| - 1])
  }

  /** What the step is in the system with atomic accesses: a first look that sees no owner is nothing there. */
  function Atomically(x: Looking, l: LookLabel): seq<Label> {
    match l
    case Other(m) => if m.Access? then [] else [m]
    case First(w) =>
      if !Ready(x.sys, Access(w)) || w in x.between then []
      else
        var stage := x.sys.workers[w].job.stage;
        if AtState(stage) && !FirstLook(x.sys.state, stage.prog.key, ReadOp, w).Answered? then [] else [Access(w)]
    case Second(w) => if w in x.between then [Access(w)] else []
  }

  function AllAtomically(x: Looking, labels: seq<LookLabel>): seq<Label> {
    if labels == [] then []
    else
      var before := labels[..|labels| - 1];
      AllAtomically(x, before) + Atomically(StepAll(x, before), labels[|labels| - 1])
  }

  // ---------------------------------------------------------------------------
  // What a worker between two looks may rely on.

  ghost predicate Awaits(s: Sys, w: ThreadId, seen: Look) {
    && !s.panicked && w < |s.workers| && s.workers[w].job.Busy? && AtState(s.workers[w].job.stage)
    && StillTrue(s.state, w, Between(s.workers[w].job.stage.prog.key, ReadOp, seen))
  }

  ghost predicate AllAwait(x: Looking) {
    forall w :: w in x.between ==> Awaits(x.sys, w, x.between[w])
  }

  /** What others do to the state: new owners and new entries are theirs. */
  ghost predicate OthersClaim(s: StateMap, s': StateMap, w: ThreadId) {
    && (forall k :: k in s ==> k in s' && (Owner(s', k) == Owner(s, k) || (Owner(s, k) == None && Owner(s', k) != Some(w))))
    && (forall k :: k !in s && k in s' ==> Owner(s', k) != None && Owner(s', k) != Some(w))
  }

  lemma StillAwaits(s: Sys, s': Sys, w: ThreadId, seen: Look)
    requires Awaits(s, w, seen) && OthersClaim(s.state, s'.state, w)
    requires !s'.panicked && |s'.workers| == |s.workers| && s'.workers[w].job == s.workers[w].job
    ensures Awaits(s', w, seen)
  {
    hide AtState;
  }

  lemma LookedAtomically(s: Sys, w: ThreadId, a: Access)
    requires Ready(s, Access(w)) && AtState(s.workers[w].job.stage)
    requires a == Claim(s.state, s.workers[w].job.stage.prog.key, w)
    ensures Answered(s, w, a) == Apply(s, Access(w))
  {
    hide Claim;
  }

  lemma SecondIsClaim(s: Sys, w: ThreadId, seen: Look)
    requires Awaits(s, w, seen)
    ensures !seen.Answered?
    ensures var k := s.workers[w].job.stage.prog.key; SecondLook(s.state, k, ReadOp, w, seen) == Claim(s.state, k, w)
  {
    hide AtState;
  }

  lemma FirstIsClaim(s: StateMap, k: Key, w: ThreadId)
    ensures FirstLook(s, k, ReadOp, w).Answered? ==> FirstLook(s, k, ReadOp, w).access == Claim(s, k, w)
    ensures !FirstLook(s, k, ReadOp, w).Answered? ==> StillTrue(s, w, Between(k, ReadOp, FirstLook(s, k, ReadOp, w)))
  {
  }

  // ---------------------------------------------------------------------------
  // Every step.

  /** A step of the atomic system leaves the others' jobs, and what they rely on, as they are. */
  lemma OthersUndisturbed(task: Task, s: Sys, l: Label, w: ThreadId, inv: Store -> bool)
    requires TaskValid(task) && TaskSafe(task, inv) && Inv(task, s) && w < |s.workers| && s.workers[w].job.Busy?
    requires s.workers[w].job.stage.Running? && l != Access(w)
    ensures var s' := Apply(s, l);
            && !s'.panicked && |s'.workers| == |s.workers| && s'.workers[w].job == s.workers[w].job
            && OthersClaim(s.state, s'.state, w)
  {
    hide TaskValid, TaskSafe, Inv, DoAccess, DoOrphan, DoSettle, DoReceive, DoMasterReceive;
    StepInv(task, s, l, inv);
    NotPanicked(task, s);
    NotPanicked(task, Apply(s, l));
    if Ready(s, l) {
      match l
      case Access(v) => OthersAccess(s, v, w);
      case CommitKey(v, k) => OthersCommit(task, s, v, k, w);
      case MasterOrphan => Collecting(task, s, w);
      case MasterReceive(v) => MasterReceiveShape(s, v);
      case Receive(v) => ReceiveEffect(s, v);
      case Settle(v) => OthersSettle(s, v, w);
      case ReceiveOther(v, i) => assert v != w;
      case MasterSend =>
      case MasterBreak =>
    }
  }

  lemma NotPanicked(task: Task, s: Sys)
    requires Inv(task, s)
    ensures !s.panicked && |s.workers| == task.workers
  {
    hide WorkerOk, PoolOk, CountersOk, Quiet;
  }

  lemma Collecting(task: Task, s: Sys, w: ThreadId)
    requires Inv(task, s) && w < |s.workers| && s.workers[w].job.Busy?
    ensures !Ready(s, MasterOrphan)
  {
    hide Books;
    BusyNotClosing(task, s, w);
  }

  lemma OthersAccess(s: Sys, v: ThreadId, w: ThreadId)
    requires Ready(s, Access(v)) && v != w && w < |s.workers|
    ensures var s' := DoAccess(s, v);
            |s'.workers| == |s.workers| && s'.workers[w].job == s.workers[w].job && OthersClaim(s.state, s'.state, w)
  {
    hide Claim;
    var st := s.workers[v].job.stage;
    if st.prog.Read? || st.prog.Write? {
      ClaimIsOwn(s.state, st.prog.key, v, w);
    }
  }

  lemma ClaimIsOwn(s: StateMap, k: Key, v: ThreadId, w: ThreadId)
    requires v != w
    ensures Claim(s, k, v).Granted? ==> OthersClaim(s, Claim(s, k, v).state, w)
  {
  }

  lemma OthersCommit(task: Task, s: Sys, v: ThreadId, k: Key, w: ThreadId)
    requires Inv(task, s) && Ready(s, CommitKey(v, k)) && w < |s.workers| && s.workers[w].job.Busy? && s.workers[w].job.stage.Running?
    ensures var s' := DoCommit(s, v, k);
            |s'.workers| == |s.workers| && s'.workers[w].job == s.workers[w].job && OthersClaim(s.state, s'.state, w)
  {
    hide Inv;
    CommitOwner(task, s, v, k);
  }

  lemma CommitOwner(task: Task, s: Sys, v: ThreadId, k: Key)
    requires Inv(task, s) && Ready(s, CommitKey(v, k))
    ensures k in s.state && Owner(s.state, k) == Some(v)
  {
    hide Books;
    CommitOwned(task, s, v, k);
  }

  lemma OthersSettle(s: Sys, v: ThreadId, w: ThreadId)
    requires Ready(s, Settle(v)) && w < |s.workers| && s.workers[w].job.Busy? && s.workers[w].job.stage.Running?
    ensures var s' := DoSettle(s, v);
            |s'.workers| == |s.workers| && s'.workers[w].job == s.workers[w].job && s'.state == s.state
  {
  }

  /** One step of the two-look system is no step or one step of the atomic one. */
  lemma StepSimulated(task: Task, x: Looking, l: LookLabel, inv: Store -> bool)
    requires TaskValid(task) && TaskSafe(task, inv) && Inv(task, x.sys) && AllAwait(x)
    ensures var ls := Atomically(x, l);
            && |ls| <= 1
            && Step(x, l).sys == (if ls == [] then x.sys else Apply(x.sys, ls[0]))
            && AllAwait(Step(x, l))
  {
    hide TaskValid, TaskSafe, Inv, Apply, Answered, FirstLook, SecondLook, Claim, StillTrue, AtState;
    match l
    case Other(m) =>
      if !m.Access? {
        OthersAwait(task, x, m, x.between, inv);
      }
    case First(w) =>
      if Ready(x.sys, Access(w)) && w !in x.between {
        var stage := x.sys.workers[w].job.stage;
        OthersAwait(task, x, Access(w), x.between, inv);
        if AtState(stage) {
          KeyOf(stage);
          FirstIsClaim(x.sys.state, stage.prog.key, w);
          if FirstLook(x.sys.state, stage.prog.key, ReadOp, w).Answered? {
            LookedAtomically(x.sys, w, FirstLook(x.sys.state, stage.prog.key, ReadOp, w).access);
          } else {
            NotPanicked(task, x.sys);
          }
        }
      }
    case Second(w) =>
      if w in x.between {
        assert Awaits(x.sys, w, x.between[w]);
        SecondIsClaim(x.sys, w, x.between[w]);
        AccessReady(x.sys, w, x.between[w]);
        KeyOf(x.sys.workers[w].job.stage);
        LookedAtomically(x.sys, w, Claim(x.sys.state, x.sys.workers[w].job.stage.prog.key, w));
        OthersAwait(task, x, Access(w), x.between - {w}, inv);
      }
  }

  lemma KeyOf(st: Stage)
    requires AtState(st)
    ensures st.Running? && (st.prog.Read? || st.prog.Write?)
  {
  }

  lemma AccessReady(s: Sys, w: ThreadId, seen: Look)
    requires Awaits(s, w, seen)
    ensures Ready(s, Access(w))
  {
  }

  lemma OthersAwait(task: Task, x: Looking, l: Label, others: map<ThreadId, Look>, inv: Store -> bool)
    requires TaskValid(task) && TaskSafe(task, inv) && Inv(task, x.sys) && AllAwait(x)
    requires others.Keys <= x.between.Keys && forall w :: w in others ==> others[w] == x.between[w] && l != Access(w)
    ensures AllAwait(Looking(Apply(x.sys, l), others))
  {
    hide TaskValid, TaskSafe, Inv, Apply, StillTrue, OthersClaim;
    forall w | w in others ensures Awaits(Apply(x.sys, l), w, others[w]) {
      assert Awaits(x.sys, w, x.between[w]);
      OthersUndisturbed(task, x.sys, l, w, inv);
      StillAwaits(x.sys, Apply(x.sys, l), w, others[w]);
    }
  }

  /**
    Whatever the interleaving of looks, the system is at every point where some schedule of
    the atomic system brings it: so all that is proved for every schedule holds here too.
   */
  lemma {:induction false} TwoLooksSimulated(task: Task, labels: seq<LookLabel>, inv: Store -> bool)
    requires TaskValid(task) && TaskSafe(task, inv)
    ensures var start := Looking(Init(task), map[]);
            StepAll(start, labels).sys == ApplyAll(Init(task), AllAtomically(start, labels)) && AllAwait(StepAll(start, labels))
  {
    hide TaskValid, TaskSafe, Inv, Step, Atomically, Apply, Awaits;
    var start := Looking(Init(task), map[]);
    if labels != [] {
      var before, l := labels[..|labels| - 1], labels[|labels| - 1];
      TwoLooksSimulated(task, before, inv);
      var done := AllAtomically(start, before);
      ReachableInv(task, done, inv);
      var x := StepAll(start, before);
      StepSimulated(task, x, l, inv);
      var ls := Atomically(x, l);
      if ls == [] {
        assert done + ls == done;
      } else {
        assert ls == [ls[0]];
        ApplyAllSnoc(Init(task), done, ls[0]);
      }
    }
  }

  /**
    An access to a key that nobody owns, and that is not cached, really takes two looks: the
    first changes nothing but that the worker now waits for the write lock.
   */
  lemma FirstLookWaits(x: Looking, w: ThreadId)
    requires Ready(x.sys, Access(w)) && w !in x.between
    requires var st := x.sys.workers[w].job.stage;
             && st.fuel > 0 && (st.prog.Read? || st.prog.Write?) && st.prog.key !in st.cache
             && Owner(x.sys.state, st.prog.key) == None
    ensures Step(x, First(w)).sys == x.sys && w in Step(x, First(w)).between
    ensures Step(x, Second(w)) == x
  {
  }

  /** Undisturbed, the two looks are the atomic access. */
  lemma LookTwice(task: Task, x: Looking, w: ThreadId, inv: Store -> bool)
    requires TaskValid(task) && TaskSafe(task, inv) && Inv(task, x.sys) && x.between == map[] && Ready(x.sys, Access(w))
    ensures var y := Step(x, First(w));
            (y == Looking(Apply(x.sys, Access(w)), map[])) || Step(y, Second(w)) == Looking(Apply(x.sys, Access(w)), map[])
  {
    hide TaskValid, TaskSafe, Inv, Apply, Answered, FirstLook, SecondLook, Claim, StillTrue, AtState;
    var stage := x.sys.workers[w].job.stage;
    var y := Step(x, First(w));
    StepSimulated(task, x, First(w), inv);
    if AtState(stage) {
      KeyOf(stage);
      FirstIsClaim(x.sys.state, stage.prog.key, w);
      if FirstLook(x.sys.state, stage.prog.key, ReadOp, w).Answered? {
        LookedAtomically(x.sys, w, FirstLook(x.sys.state, stage.prog.key, ReadOp, w).access);
      } else {
        assert w in y.between && y.sys == x.sys;
        assert Awaits(y.sys, w, y.between[w]);
        SecondIsClaim(y.sys, w, y.between[w]);
        LookedAtomically(y.sys, w, Claim(y.sys.state, stage.prog.key, w));
        assert y.between - {w} == map[];
      }
    }
  }

  /** And every schedule of the atomic system is one with two looks: nothing is lost by looking twice. */
  lemma {:induction false} AtomicRealized(task: Task, schedule: seq<Label>, inv: Store -> bool) returns (labels: seq<LookLabel>)
    requires TaskValid(task) && TaskSafe(task, inv)
    ensures StepAll(Looking(Init(task), map[]), labels) == Looking(ApplyAll(Init(task), schedule), map[])
  {
    hide TaskValid, TaskSafe, Inv, Step, Apply, Ready;
    var start := Looking(Init(task), map[]);
    if schedule == [] {
      labels := [];
    } else {
      var before, l := schedule[..|schedule| - 1], schedule[|schedule| - 1];
      var done := AtomicRealized(task, before, inv);
      var x := StepAll(start, done);
      ReachableInv(task, before, inv);
      StepAllSnoc(start, done, Other(l));
      OtherStep(x, l);
      labels := done + [Other(l)];
      if l.Access? {
        UnreadyAccess(x.sys, l);
        if Ready(x.sys, l) {
          LookTwice(task, x, l.worker, inv);
          StepAllSnoc(start, done, First(l.worker));
          StepAllSnoc(start, done + [First(l.worker)], Second(l.worker));
          labels := if Step(x, First(l.worker)) == Looking(Apply(x.sys, l), map[]) then done + [First(l.worker)]
                    else done + [First(l.worker)] + [Second(l.worker)];
        }
      }
    }
  }

  lemma StepAllSnoc(x: Looking, labels: seq<LookLabel>, l: LookLabel)
    ensures StepAll(x, labels + [l]) == Step(StepAll(x, labels), l)
  {
    hide Step;
    assert (labels + [l])[..|labels|] == labels;
  }

  lemma OtherStep(x: Looking, l: Label)
    ensures Step(x, Other(l)) == if l.Access? then x else x.(sys := Apply(x.sys, l))
  {
    hide Apply;
  }

  lemma UnreadyAccess(s: Sys, l: Label)
    ensures !Ready(s, l) ==> Apply(s, l) == s
  {
  }

  /** For one: a finished run leaves the values of executing the produced block one by one. */
  lemma TwoLooksSerializable(task: Task, labels: seq<LookLabel>, inv: Store -> bool)
    requires TaskValid(task) && TaskSafe(task, inv) && Finished(StepAll(Looking(Init(task), map[]), labels).sys)
    ensures var s := StepAll(Looking(Init(task), map[]), labels).sys;
            Same(Data(s.state), Run(Data(task.initial), Bodies(BlockOf(s))))
  {
    hide TaskValid, TaskSafe, ApplyAll, StepAll, AllAtomically, AllAwait, Init, Bodies, Run, BlockOf, Finished;
    TwoLooksSimulated(task, labels, inv);
    Serializable(task, AllAtomically(Looking(Init(task), map[]), labels), inv);
  }
}
