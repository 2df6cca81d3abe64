// Validation comes to the same values whatever the interleaving, and to those authoring
// came to.
module Determinism {
  import opened Storage
  import opened TaintState
  import opened Program
  import opened Dispatch
  import opened Transactions
  import opened Protocol
  import opened Sequences
  import opened Bookkeeping
  import opened Undisturbed
  import opened BooksKept
  import opened BooksReceive
  import opened Serializability
  import opened Authoring
  import opened AuthoringTheorems
  import opened Validation

  /** What a block needs: executed or orphan, by workers that exist, with nothing panicking. */
  ghost predicate BlockSafe(workers: nat, block: seq<Transaction>, d: Store, inv: Store -> bool) {
    && (forall t :: t in block ==> t.tag.OrphanTag? || (t.tag.DoneBy? && t.tag.worker < workers))
    && inv(d) && (forall t :: t in block ==> Preserves(inv, t.body.call))
  }

  // ---------------------------------------------------------------------------
  // What every reachable state satisfies.

  /** What the worker has still to receive is exactly what it was given and has not executed. */
  ghost predicate Supplied(given: seq<Transaction>, waiting: seq<ToWorker>, v: Replayer) {
    var n := |v.log|;
    && n <= |given| && v.log == Bodies(given[..n])
    && (v.execution.Executing? ==> n < |given| && v.execution.tx == given[n] && !v.ended)
    && v.inbox + waiting ==
       (if v.ended then [] else Script(given, if v.execution.Executing? then n + 1 else n) + [DistributionDone])
    && (v.ended ==> n == |given|)
    && (v.told ==> v.ended)
  }

  /**
    On the keys that are the worker's, the state is what executing its transactions so far
    gives; one in the middle of its execution will get there from the state as it is.
   */
  ghost predicate OnCourse(d: Store, e: Store, keys: set<Key>, v: Replayer) {
    match v.execution
    case Resting => Coincide(e, Run(d, v.log), keys)
    case Executing(t, n, p) =>
      var goal := ExecCall(t.body.call, Run(d, v.log));
      && Keys(n, p, e) <= keys
      && Exec(n, p, e).outcome == goal.outcome != Panicked
      && Coincide(Exec(n, p, e).store, goal.store, keys)
  }

  ghost predicate ReplayerOk(block: seq<Transaction>, d: Store, owners: StateMap, c: Check, w: ThreadId)
    requires w < |c.replayers|
  {
    && Supplied(TaggedFor(block, w), Waiting(c.master.plan, w), c.replayers[w])
    && (!c.master.closing ==> OnCourse(d, Data(c.state), Own(owners, w), c.replayers[w]))
    && (c.replayers[w].told ==> w !in c.master.heard)
    && (w in c.master.heard ==> c.replayers[w].ended)
    && (c.replayers[w].ended && w !in c.master.heard ==> c.replayers[w].told)
  }

  ghost predicate CheckerOk(workers: nat, block: seq<Transaction>, d: Store, owners: StateMap, c: Check) {
    && !c.panicked && |c.replayers| == workers
    && (forall i :: 0 <= i < |c.master.plan| ==> c.master.plan[i].to < workers)
    && c.master.orphans == Orphans(block) && c.master.played <= |c.master.orphans|
    && c.master.heard <= UpTo(workers) && |c.master.heard| == c.master.workersDone
    && (!c.master.closing ==>
          c.master.played == 0 &&
          forall k :: Owner(owners, k) == None ==> Get(Data(c.state), k) == Get(d, k) && (k in c.state <==> k in d))
    && (c.master.closing ==>
          c.master.heard == UpTo(workers) && c.master.plan == [] &&
          Data(c.state) == Run(Run(d, Bodies(Locals(block))), Bodies(c.master.orphans[..c.master.played])))
  }

  ghost predicate CheckInv(workers: nat, block: seq<Transaction>, d: Store, owners: StateMap, c: Check) {
    && CheckerOk(workers, block, d, owners, c)
    && forall w :: 0 <= w < |c.replayers| ==> ReplayerOk(block, d, owners, c, w)
  }

  // ---------------------------------------------------------------------------
  // Lists.

  lemma {:induction false} TaggedLocals(block: seq<Transaction>, w: ThreadId)
    ensures TaggedFor(Locals(block), w) == TaggedFor(block, w)
  {
    if block != [] {
      var init, t := block[..|block| - 1], block[|block| - 1];
      TaggedLocals(init, w);
      if t.tag.DoneBy? {
        TaggedSnoc(Locals(init), t, w);
      }
    }
  }

  lemma {:induction false} AssignmentsWithin(block: seq<Transaction>, workers: nat)
    requires forall t :: t in block ==> t.tag.OrphanTag? || (t.tag.DoneBy? && t.tag.worker < workers)
    ensures forall i :: 0 <= i < |Assignments(block)| ==> Assignments(block)[i].to < workers
  {
    if block != [] {
      AssignmentsWithin(block[..|block| - 1], workers);
      assert block[|block| - 1] in block;
    }
  }

  // ---------------------------------------------------------------------------
  // One worker.

  lemma TakesNext(given: seq<Transaction>, waiting: seq<ToWorker>, v: Replayer)
    requires Supplied(given, waiting, v) && v.execution.Resting? && !v.ended && v.inbox != [] && |v.log| < |given|
    ensures var t := given[|v.log|];
            && v.inbox[0] == Assignment(t)
            && Supplied(given, waiting, v.(inbox := v.inbox[1..], execution := Executing(t, t.body.call.steps, t.body.call.body)))
  {
    hide Bodies, Script;
    ScriptNext(given, |v.log|, v.inbox, waiting);
  }

  lemma ScriptNext(given: seq<Transaction>, n: nat, inbox: seq<ToWorker>, waiting: seq<ToWorker>)
    requires n < |given| && inbox != [] && inbox + waiting == Script(given, n) + [DistributionDone]
    ensures inbox[0] == Assignment(given[n]) && inbox[1..] + waiting == Script(given, n + 1) + [DistributionDone]
  {
    assert inbox[0] == (inbox + waiting)[0];
    assert inbox[1..] + waiting == (inbox + waiting)[1..];
    assert (Script(given, n) + [DistributionDone])[1..] == Script(given, n + 1) + [DistributionDone];
  }

  lemma TakesLast(given: seq<Transaction>, waiting: seq<ToWorker>, v: Replayer)
    requires Supplied(given, waiting, v) && v.execution.Resting? && !v.ended && v.inbox != [] && |v.log| == |given|
    ensures v.inbox[0] == DistributionDone && Supplied(given, waiting, v.(inbox := v.inbox[1..], ended := true, told := true))
  {
    hide Bodies;
    assert v.inbox[0] == (v.inbox + waiting)[0];
    assert v.inbox[1..] + waiting == (v.inbox + waiting)[1..];
    assert Script(given, |v.log|) + [DistributionDone] == [DistributionDone];
  }

  lemma LogWithin(given: seq<Transaction>, waiting: seq<ToWorker>, v: Replayer)
    requires Supplied(given, waiting, v)
    ensures |v.log| <= |given|
  {
  }

  lemma EndsScript(given: seq<Transaction>, waiting: seq<ToWorker>, v: Replayer)
    requires Supplied(given, waiting, v) && v.execution.Executing?
    ensures Supplied(given, waiting, v.(execution := Resting, log := v.log + [v.execution.tx.body]))
  {
    var n := |v.log|;
    assert given[..n + 1] == given[..n] + [given[n]];
    BodiesSnoc(given[..n], given[n]);
  }

  /** What the worker is about to execute stays on its keys. */
  lemma NextConfined(given: seq<Transaction>, n: nat, d: Store, keys: set<Key>)
    requires n < |given| && Confined(Bodies(given), d, keys)
    ensures CallKeys(given[n].body.call, Run(d, Bodies(given[..n]))) <= keys
  {
    PrefixConfined(Bodies(given), n + 1, d, keys);
    assert given[..n + 1] == given[..n] + [given[n]];
    BodiesSnoc(given[..n], given[n]);
    assert Bodies(given)[..n + 1] == Bodies(given[..n]) + [given[n].body];
    ConfinedSnoc(Bodies(given[..n]), given[n].body, d, keys);
  }

  lemma {:induction false} PrefixConfined(txs: seq<Body>, n: nat, d: Store, keys: set<Key>)
    requires n <= |txs| && Confined(txs, d, keys)
    ensures Confined(txs[..n], d, keys)
    decreases |txs|
  {
    if n < |txs| {
      PrefixConfined(txs[..|txs| - 1], n, d, keys);
      assert txs[..|txs| - 1][..n] == txs[..n];
    } else {
      assert txs[..n] == txs;
    }
  }

  lemma StartsOnCourse(d: Store, e: Store, keys: set<Key>, v: Replayer, t: Transaction)
    requires OnCourse(d, e, keys, v) && v.execution.Resting?
    requires CallKeys(t.body.call, Run(d, v.log)) <= keys && ExecCall(t.body.call, Run(d, v.log)).outcome != Panicked
    ensures OnCourse(d, e, keys, v.(inbox := v.inbox[1..], execution := Executing(t, t.body.call.steps, t.body.call.body)))
    requires v.inbox != []
  {
    var c := t.body.call;
    ExecCoincide(c.steps, c.body, Run(d, v.log), e, keys);
  }

  lemma AccessOnCourse(d: Store, c: Check, w: ThreadId, keys: set<Key>)
    requires Possible(c, OneAccess(w)) && OnCourse(d, Data(c.state), keys, c.replayers[w])
    ensures var c' := DoOneAccess(c, w);
            && !c'.panicked && |c'.replayers| == |c.replayers| && OnCourse(d, Data(c'.state), keys, c'.replayers[w])
            && (forall k :: k !in keys ==> Get(Data(c'.state), k) == Get(Data(c.state), k) && (k in c'.state <==> k in c.state))
  {
    var v := c.replayers[w];
    var Executing(t, n, p) := v.execution;
    match p
    case Done => RunSnoc(d, v.log, t.body);
    case LogicError(_) => RunSnoc(d, v.log, t.body);
    case Write(k, x, _, _) => assert Data(c.state[k := Entry(x, None)]) == Data(c.state)[k := x];
    case _ =>
  }

  /** Changes to other keys do not put a worker off its course. */
  lemma OthersOnCourse(d: Store, e: Store, e': Store, keys: set<Key>, v: Replayer)
    requires OnCourse(d, e, keys, v) && Coincide(e, e', keys)
    ensures OnCourse(d, e', keys, v)
  {
    match v.execution
    case Resting =>
    case Executing(t, n, p) => ExecCoincide(n, p, e, e', keys);
  }

  // ---------------------------------------------------------------------------
  // Steps.

  lemma BeginInv(workers: nat, block: seq<Transaction>, initial: StateMap, owners: StateMap, inv: Store -> bool)
    requires BlockSafe(workers, block, Data(initial), inv)
    ensures CheckInv(workers, block, Data(initial), owners, BeginCheck(workers, block, initial))
  {
    hide Assignments, Broadcast, Waiting, Orphans, Locals, Supplied, TaggedFor;
    var c := BeginCheck(workers, block, initial);
    AssignmentsWithin(block, workers);
    forall i | 0 <= i < |c.master.plan| ensures c.master.plan[i].to < workers {
      BroadcastWithin(workers, DistributionDone);
    }
    NobodyBad(workers, block);
    forall w | 0 <= w < workers ensures ReplayerOk(block, Data(initial), owners, c, w) {
      WaitingConcat(Assignments(block), Broadcast(workers, DistributionDone), w);
      WaitingAssignments(block, w);
      WaitingBroadcast(workers, DistributionDone, w);
      NewSupply(TaggedFor(block, w));
    }
  }

  lemma NobodyBad(workers: nat, block: seq<Transaction>)
    requires forall t :: t in block ==> t.tag.OrphanTag? || (t.tag.DoneBy? && t.tag.worker < workers)
    ensures !exists i :: 0 <= i < |block| && block[i].tag.NotExecuted?
  {
    forall i | 0 <= i < |block| ensures !block[i].tag.NotExecuted? {
      assert block[i] in block;
    }
  }

  lemma BroadcastWithin(workers: nat, m: ToWorker)
    ensures |Broadcast(workers, m)| == workers
    ensures forall i :: 0 <= i < workers ==> Broadcast(workers, m)[i].to < workers
  {
  }

  lemma NewSupply(given: seq<Transaction>)
    ensures Supplied(given, Script(given, 0) + [DistributionDone], NEW_REPLAYER)
  {
    assert given[..0] == [];
    assert [] + (Script(given, 0) + [DistributionDone]) == Script(given, 0) + [DistributionDone];
  }

  lemma DistributeInv(workers: nat, block: seq<Transaction>, d: Store, owners: StateMap, c: Check)
    requires CheckInv(workers, block, d, owners, c) && Possible(c, Distribute)
    ensures CheckInv(workers, block, d, owners, DoDistribute(c))
  {
    hide OnCourse, Supplied, Waiting, TaggedFor, Orphans, Locals, Own, Data;
    var Send(w, m) := c.master.plan[0];
    var c' := DoDistribute(c);
    assert !c.master.closing;
    forall v | 0 <= v < |c.replayers| ensures ReplayerOk(block, d, owners, c', v) {
      assert ReplayerOk(block, d, owners, c, v);
      MessageSent(TaggedFor(block, v), c.master.plan, v, c.replayers[v]);
      SameCourse(d, Data(c.state), Own(owners, v), c.replayers[v], c'.replayers[v]);
    }
  }

  lemma SameCourse(d: Store, e: Store, keys: set<Key>, v: Replayer, v': Replayer)
    requires OnCourse(d, e, keys, v) && v'.execution == v.execution && v'.log == v.log
    ensures OnCourse(d, e, keys, v')
  {
  }

  lemma MessageSent(given: seq<Transaction>, plan: seq<Send>, w: ThreadId, v: Replayer)
    requires plan != [] && Supplied(given, Waiting(plan, w), v)
    ensures Supplied(given, Waiting(plan[1..], w), if plan[0].to == w then v.(inbox := v.inbox + [plan[0].message]) else v)
  {
    if plan[0].to == w {
      assert (v.inbox + [plan[0].message]) + Waiting(plan[1..], w) == v.inbox + Waiting(plan, w);
    } else {
      assert [] + Waiting(plan[1..], w) == Waiting(plan[1..], w);
    }
  }

  lemma HearInv(workers: nat, block: seq<Transaction>, d: Store, owners: StateMap, c: Check, w: ThreadId)
    requires CheckInv(workers, block, d, owners, c) && Possible(c, Hear(w))
    ensures CheckInv(workers, block, d, owners, DoHear(c, w))
  {
    hide OnCourse, Supplied, Waiting, TaggedFor, Orphans, Locals, Own, Data;
    var c' := DoHear(c, w);
    assert ReplayerOk(block, d, owners, c, w);
    forall v | 0 <= v < |c.replayers| ensures ReplayerOk(block, d, owners, c', v) {
      assert ReplayerOk(block, d, owners, c, v);
      HeardReplayer(TaggedFor(block, v), Waiting(c.master.plan, v), d, Data(c.state), Own(owners, v), c.replayers[v]);
    }
  }

  lemma HeardReplayer(given: seq<Transaction>, waiting: seq<ToWorker>, d: Store, e: Store, keys: set<Key>, v: Replayer)
    requires Supplied(given, waiting, v) && OnCourse(d, e, keys, v)
    ensures Supplied(given, waiting, v.(told := false)) && OnCourse(d, e, keys, v.(told := false))
    ensures v.told ==> v.ended
  {
  }

  /** One worker moves, and changes the state on its own keys only. */
  lemma MoverInv(workers: nat, block: seq<Transaction>, d: Store, owners: StateMap, c: Check, c': Check, w: ThreadId)
    requires CheckInv(workers, block, d, owners, c) && !c.master.closing && w < |c.replayers|
    requires c'.master == c.master && !c'.panicked && |c'.replayers| == |c.replayers|
    requires c'.replayers == c.replayers[w := c'.replayers[w]]
    requires forall k :: k !in Own(owners, w) ==> Get(Data(c'.state), k) == Get(Data(c.state), k) && (k in c'.state <==> k in c.state)
    requires ReplayerOk(block, d, owners, c', w)
    ensures CheckInv(workers, block, d, owners, c')
  {
    hide OnCourse, Supplied, Waiting, TaggedFor, Orphans, Locals;
    forall v | 0 <= v < |c.replayers| ensures ReplayerOk(block, d, owners, c', v) {
      assert ReplayerOk(block, d, owners, c, v);
      if v != w {
        OwnDisjoint(owners, v, w);
        OthersOnCourse(d, Data(c.state), Data(c'.state), Own(owners, v), c.replayers[v]);
      }
    }
    forall k | Owner(owners, k) == None ensures Get(Data(c'.state), k) == Get(d, k) && (k in c'.state <==> k in d) {
      assert k !in Own(owners, w);
    }
  }

  lemma TakeInv(workers: nat, block: seq<Transaction>, d: Store, owners: StateMap, c: Check, w: ThreadId, inv: Store -> bool)
    requires BlockSafe(workers, block, d, inv) && EachConfined(Locals(block), d, owners)
    requires CheckInv(workers, block, d, owners, c) && Possible(c, Take(w))
    ensures CheckInv(workers, block, d, owners, DoTake(c, w))
  {
    hide BlockSafe, EachConfined, CheckerOk, OnCourse, Supplied, Waiting, TaggedFor, Own;
    var c', v, given := DoTake(c, w), c.replayers[w], TaggedFor(block, w);
    assert ReplayerOk(block, d, owners, c, w);
    NotEnded(workers, block, d, owners, c, w);
    LogWithin(given, Waiting(c.master.plan, w), v);
    if |v.log| < |given| {
      TakesNext(given, Waiting(c.master.plan, w), v);
      GivenSafe(workers, block, d, owners, c, w, inv);
      StartsOnCourse(d, Data(c.state), Own(owners, w), v, given[|v.log|]);
    } else {
      TakesLast(given, Waiting(c.master.plan, w), v);
      SameCourse(d, Data(c.state), Own(owners, w), v, c'.replayers[w]);
    }
    CheckerFacts(workers, block, d, owners, c);
    assert ReplayerOk(block, d, owners, c', w);
    MoverInv(workers, block, d, owners, c, c', w);
  }

  lemma CheckerFacts(workers: nat, block: seq<Transaction>, d: Store, owners: StateMap, c: Check)
    requires CheckerOk(workers, block, d, owners, c)
    ensures !c.panicked && |c.replayers| == workers
  {
  }

  lemma NotEnded(workers: nat, block: seq<Transaction>, d: Store, owners: StateMap, c: Check, w: ThreadId)
    requires CheckInv(workers, block, d, owners, c) && w < |c.replayers| && !c.replayers[w].ended
    ensures !c.master.closing && w !in c.master.heard && !c.replayers[w].told
  {
    hide OnCourse, Waiting, TaggedFor, Locals, Run, Own;
    assert ReplayerOk(block, d, owners, c, w);
    assert CheckerOk(workers, block, d, owners, c);
  }

  /** The next transaction a worker executes stays on its keys and does not panic. */
  lemma GivenSafe(workers: nat, block: seq<Transaction>, d: Store, owners: StateMap, c: Check, w: ThreadId, inv: Store -> bool)
    requires BlockSafe(workers, block, d, inv) && EachConfined(Locals(block), d, owners)
    requires w < |c.replayers| && Supplied(TaggedFor(block, w), Waiting(c.master.plan, w), c.replayers[w])
    requires |c.replayers[w].log| < |TaggedFor(block, w)|
    ensures var call := TaggedFor(block, w)[|c.replayers[w].log|].body.call;
            CallKeys(call, Run(d, c.replayers[w].log)) <= Own(owners, w) &&
            ExecCall(call, Run(d, c.replayers[w].log)).outcome != Panicked
  {
    hide Waiting, TaggedFor, Locals, Script, Own, Run;
    var given, n := TaggedFor(block, w), |c.replayers[w].log|;
    TaggedLocals(block, w);
    NextConfined(given, n, d, Own(owners, w));
    forall b | b in Bodies(given[..n]) ensures Preserves(inv, b.call) {
      var i :| 0 <= i < n && Bodies(given[..n])[i] == b;
      assert given[i] in given;
    }
    assert given[n] in given;
    RunPreserves(inv, d, Bodies(given[..n]));
    assert Preserves(inv, given[n].body.call);
  }

  lemma OneAccessInv(workers: nat, block: seq<Transaction>, d: Store, owners: StateMap, c: Check, w: ThreadId)
    requires CheckInv(workers, block, d, owners, c) && Possible(c, OneAccess(w))
    ensures CheckInv(workers, block, d, owners, DoOneAccess(c, w))
  {
    hide CheckerOk, OnCourse, Supplied, Waiting, TaggedFor, Own, Data;
    var c' := DoOneAccess(c, w);
    assert ReplayerOk(block, d, owners, c, w);
    CheckerFacts(workers, block, d, owners, c);
    StillWorking(TaggedFor(block, w), Waiting(c.master.plan, w), c.replayers[w]);
    NotEnded(workers, block, d, owners, c, w);
    AccessOnCourse(d, c, w, Own(owners, w));
    EndsScript(TaggedFor(block, w), Waiting(c.master.plan, w), c.replayers[w]);
    SameSupply(TaggedFor(block, w), Waiting(c.master.plan, w), c.replayers[w], c'.replayers[w]);
    assert ReplayerOk(block, d, owners, c', w);
    MoverInv(workers, block, d, owners, c, c', w);
  }

  lemma StillWorking(given: seq<Transaction>, waiting: seq<ToWorker>, v: Replayer)
    requires Supplied(given, waiting, v) && v.execution.Executing?
    ensures !v.ended
  {
  }

  lemma SameSupply(given: seq<Transaction>, waiting: seq<ToWorker>, v: Replayer, v': Replayer)
    requires Supplied(given, waiting, v) && v.execution.Executing?
    ensures v'.execution.Executing? && v'.execution.tx == v.execution.tx && v' == v.(execution := v'.execution) ==>
              Supplied(given, waiting, v')
  {
  }

  /** Once everyone has reported, the state is what the workers' transactions in block order give. */
  lemma AllHeardInv(workers: nat, block: seq<Transaction>, d: Store, owners: StateMap, c: Check)
    requires EachConfined(Locals(block), d, owners)
    requires CheckInv(workers, block, d, owners, c) && Possible(c, AllHeard)
    requires forall k :: Owner(owners, k) != None ==> Owner(owners, k).value < workers
    ensures CheckInv(workers, block, d, owners, Happen(c, AllHeard))
  {
    hide EachConfined, OnCourse, Supplied, Waiting, TaggedFor, Own, Run, Data, Locals, Orphans;
    var c' := Happen(c, AllHeard);
    var locals := Locals(block);
    EveryoneHeard(c.master.heard, workers);
    RunByWorker(locals, d, owners);
    forall k ensures Get(Data(c.state), k) == Get(Run(d, Bodies(locals)), k) && (k in c.state <==> k in Run(d, Bodies(locals))) {
      match Owner(owners, k)
      case None =>
      case Some(w) =>
        assert ReplayerOk(block, d, owners, c, w);
        EndedValues(block, d, owners, c, w, k);
    }
    SameEntries(c.state, Run(d, Bodies(locals)));
    assert c.master.orphans[..0] == [];
    NothingRun(Run(d, Bodies(locals)));
    forall w | 0 <= w < |c.replayers| ensures ReplayerOk(block, d, owners, c', w) {
      assert ReplayerOk(block, d, owners, c, w);
    }
  }

  lemma SameEntries(s: StateMap, d: Store)
    requires forall k :: Get(Data(s), k) == Get(d, k) && (k in s <==> k in d)
    ensures Data(s) == d
  {
    forall k | k in s ensures Data(s)[k] == d[k] {
      assert Get(Data(s), k) == Get(d, k);
    }
    assert Data(s).Keys == d.Keys;
  }

  lemma NothingRun(d: Store)
    ensures Run(d, Bodies([])) == d
  {
  }

  lemma EndedValues(block: seq<Transaction>, d: Store, owners: StateMap, c: Check, w: ThreadId, k: Key)
    requires w < |c.replayers| && ReplayerOk(block, d, owners, c, w) && c.replayers[w].ended && !c.master.closing
    requires Owner(owners, k) == Some(w)
    requires Coincide(Run(d, Bodies(TaggedFor(Locals(block), w))), Run(d, Bodies(Locals(block))), Own(owners, w))
    ensures Get(Data(c.state), k) == Get(Run(d, Bodies(Locals(block))), k)
    ensures k in c.state <==> k in Run(d, Bodies(Locals(block)))
  {
    hide Waiting, TaggedFor, Locals, Run;
    TaggedLocals(block, w);
    assert k in Own(owners, w);
    var given := TaggedFor(block, w);
    assert given[..|given|] == given;
  }

  lemma OrphanInBlock(workers: nat, block: seq<Transaction>, d: Store, inv: Store -> bool, n: nat)
    requires BlockSafe(workers, block, d, inv) && n < |Orphans(block)|
    ensures inv(Run(Run(d, Bodies(Locals(block))), Bodies(Orphans(block)[..n])))
    ensures Preserves(inv, Orphans(block)[n].body.call)
  {
    hide Orphans, Locals, Run, Preserves;
    var locals, orphans := Locals(block), Orphans(block)[..n];
    forall b | b in Bodies(locals) ensures Preserves(inv, b.call) {
      var i :| 0 <= i < |locals| && Bodies(locals)[i] == b;
      assert locals[i] in locals;
    }
    forall b | b in Bodies(orphans) ensures Preserves(inv, b.call) {
      var i :| 0 <= i < |orphans| && Bodies(orphans)[i] == b;
      assert Orphans(block)[i] in Orphans(block);
    }
    assert Orphans(block)[n] in Orphans(block);
    RunPreserves(inv, d, Bodies(locals));
    RunPreserves(inv, Run(d, Bodies(locals)), Bodies(orphans));
  }

  lemma PlayOrphanInv(workers: nat, block: seq<Transaction>, d: Store, owners: StateMap, c: Check, inv: Store -> bool)
    requires BlockSafe(workers, block, d, inv) && CheckInv(workers, block, d, owners, c) && Possible(c, PlayOrphan)
    ensures CheckInv(workers, block, d, owners, DoPlayOrphan(c))
  {
    hide BlockSafe, OnCourse, Supplied, Waiting, TaggedFor, Orphans, Locals, Run, Bodies, DoPlayOrphan, Preserves, Data;
    var c', n := DoPlayOrphan(c), c.master.played;
    var call := c.master.orphans[n].body.call;
    var after := Run(d, Bodies(Locals(block)));
    var before := Run(after, Bodies(c.master.orphans[..n]));
    OrphanInBlock(workers, block, d, inv, n);
    PreservesAt(inv, call, before);
    OneMore(after, c.master.orphans, n);
    PlayedEffect(c);
    forall w | 0 <= w < |c.replayers| ensures ReplayerOk(block, d, owners, c', w) {
      assert ReplayerOk(block, d, owners, c, w);
    }
  }

  lemma PreservesAt(inv: Store -> bool, c: Call, d: Store)
    requires Preserves(inv, c) && inv(d)
    ensures ExecCall(c, d).outcome != Panicked
  {
  }

  lemma PlayedEffect(c: Check)
    requires Possible(c, PlayOrphan)
    ensures var call, c' := c.master.orphans[c.master.played].body.call, DoPlayOrphan(c);
            && (c'.panicked <==> ExecCall(call, Data(c.state)).outcome == Panicked)
            && c'.replayers == c.replayers
            && (!c'.panicked ==> Data(c'.state) == ExecCall(call, Data(c.state)).store &&
                                 c'.master == c.master.(played := c.master.played + 1))
  {
  }

  lemma EventInv(workers: nat, block: seq<Transaction>, d: Store, owners: StateMap, c: Check, e: Event, inv: Store -> bool)
    requires BlockSafe(workers, block, d, inv) && EachConfined(Locals(block), d, owners)
    requires forall k :: Owner(owners, k) != None ==> Owner(owners, k).value < workers
    requires CheckInv(workers, block, d, owners, c)
    ensures CheckInv(workers, block, d, owners, Happen(c, e))
  {
    hide BlockSafe, EachConfined, CheckInv, Owner, DoDistribute, DoHear, DoTake, DoOneAccess, DoPlayOrphan;
    if Possible(c, e) {
      match e
      case Distribute => DistributeInv(workers, block, d, owners, c);
      case Hear(w) => HearInv(workers, block, d, owners, c, w);
      case AllHeard => AllHeardInv(workers, block, d, owners, c);
      case PlayOrphan => PlayOrphanInv(workers, block, d, owners, c, inv);
      case Take(w) => TakeInv(workers, block, d, owners, c, w, inv);
      case OneAccess(w) => OneAccessInv(workers, block, d, owners, c, w);
    }
  }

  lemma {:induction false} ReachableCheck(workers: nat, block: seq<Transaction>, initial: StateMap, owners: StateMap,
                                          events: seq<Event>, inv: Store -> bool)
    requires BlockSafe(workers, block, Data(initial), inv) && EachConfined(Locals(block), Data(initial), owners)
    requires forall k :: Owner(owners, k) != None ==> Owner(owners, k).value < workers
    ensures CheckInv(workers, block, Data(initial), owners, HappenAll(BeginCheck(workers, block, initial), events))
  {
    hide BlockSafe, EachConfined, CheckInv, Owner, BeginCheck, Happen;
    if events == [] {
      BeginInv(workers, block, initial, owners, inv);
    } else {
      ReachableCheck(workers, block, initial, owners, events[..|events| - 1], inv);
      EventInv(workers, block, Data(initial), owners, HappenAll(BeginCheck(workers, block, initial), events[..|events| - 1]),
               events[|events| - 1], inv);
    }
  }

  /**
    If each worker's transactions stay on keys of its own, every interleaving of validation
    leaves exactly the entries and values that the workers' transactions in block order, then
    the orphans, executed one by one leave.
   */
  lemma ValidationConfluent(workers: nat, block: seq<Transaction>, initial: StateMap, owners: StateMap,
                            events: seq<Event>, inv: Store -> bool)
    requires BlockSafe(workers, block, Data(initial), inv) && EachConfined(Locals(block), Data(initial), owners)
    requires forall k :: Owner(owners, k) != None ==> Owner(owners, k).value < workers
    ensures var c := HappenAll(BeginCheck(workers, block, initial), events);
            && !c.panicked
            && (Validated(c) ==> Data(c.state) == Run(Data(initial), Bodies(Locals(block)) + Bodies(Orphans(block))))
  {
    hide BlockSafe, EachConfined, Owner, BeginCheck, HappenAll, ReplayerOk;
    ReachableCheck(workers, block, initial, owners, events, inv);
    var c := HappenAll(BeginCheck(workers, block, initial), events);
    if Validated(c) {
      assert c.master.orphans[..c.master.played] == Orphans(block);
      RunConcat(Data(initial), Bodies(Locals(block)), Bodies(Orphans(block)));
    }
  }

  // ---------------------------------------------------------------------------
  // Validating what was authored.

  /** When the collection ends, the taints say which keys each worker's part of the pool is confined to. */
  lemma PoolConfined(task: Task, s: Sys)
    requires TaskValid(task) && Books(task, s) && ConcurrentData(task, s) && Quiet(task, s)
    ensures EachConfined(s.master.pool, Data(task.initial), s.state)
  {
    hide TaskValid, Books, Quiet, Own, Run, TaggedFor, Views, Coherent;
    var d, pool := Data(task.initial), s.master.pool;
    Collected(task, s);
    forall w: ThreadId ensures Confined(Bodies(TaggedFor(pool, w)), d, Own(s.state, w)) {
      if w < |s.workers| {
        OrderPreserved(task, s, w);
        assert WorkerData(d, s.state, w, s.workers[w].port.log, s.workers[w].job);
      } else {
        NobodyElse(task, s, w);
      }
    }
  }

  lemma Collected(task: Task, s: Sys)
    requires TaskValid(task) && Books(task, s)
    ensures PoolOk(task, s) && |s.workers| == task.workers && forall t :: t in s.master.pool ==> t.tag.DoneBy?
  {
    hide PoolOk, WorkerOk, CountersOk, Quiet, TaskValid;
    PoolTagged(task, s);
  }

  /** What the workers did in any authoring run can be done again by each worker apart from the others. */
  lemma {:induction false} AuthoredConfined(task: Task, schedule: seq<Label>, inv: Store -> bool) returns (owners: StateMap)
    requires TaskValid(task) && TaskSafe(task, inv) && ApplyAll(Init(task), schedule).master.closing
    ensures EachConfined(ApplyAll(Init(task), schedule).master.pool, Data(task.initial), owners)
    ensures forall k :: Owner(owners, k) != None ==> Owner(owners, k).value < task.workers
    ensures owners.Keys <= ApplyAll(Init(task), schedule).state.Keys
  {
    hide TaskValid, TaskSafe, EachConfined, Inv, Apply, Owner;
    if schedule == [] {
      owners := task.initial;
      assert false;
    } else {
      var before, l := schedule[..|schedule| - 1], schedule[|schedule| - 1];
      var s := ApplyAll(Init(task), before);
      ReachableInv(task, before, inv);
      PoolClosed(s, l);
      if s.master.closing {
        EntriesGrow(s, l);
        owners := AuthoredConfined(task, before, inv);
      } else {
        owners := s.state;
        BreakConfined(task, s);
      }
    }
  }

  lemma PoolClosed(s: Sys, l: Label)
    ensures Apply(s, l).master.closing ==>
              Apply(s, l).master.pool == s.master.pool &&
              (s.master.closing || (Ready(s, MasterBreak) && Apply(s, l).state == s.state))
  {
  }

  /** Executing an orphan takes no entry away. */
  lemma EntriesGrow(s: Sys, l: Label)
    ensures s.master.closing ==> s.state.Keys <= Apply(s, l).state.Keys
  {
    if l.MasterOrphan? && Ready(s, l) {
      var c := s.master.orphans[s.master.played].body.call;
      ExecEntries(c.steps, c.body, Data(s.state));
      StateEntries(s.state);
      StateEntries(Apply(s, l).state);
    } else if Ready(s, l) {
      OtherEntries(s, l);
    }
  }

  lemma StateEntries(s: StateMap)
    ensures Data(s).Keys == s.Keys
  {
  }

  lemma OtherEntries(s: Sys, l: Label)
    requires Ready(s, l) && !l.MasterOrphan?
    ensures s.state.Keys <= Apply(s, l).state.Keys
  {
    hide Advance;
    if l.Access? {
      AdvanceGrows(s.workers[l.worker].job.stage, s.state, l.worker);
    }
  }

  lemma AdvanceGrows(st: Stage, s: StateMap, id: ThreadId)
    requires st.Running?
    ensures Advance(st, s, id).Move? ==> s.Keys <= Advance(st, s, id).state.Keys
  {
  }

  lemma BreakConfined(task: Task, s: Sys)
    requires TaskValid(task) && Inv(task, s) && Ready(s, MasterBreak)
    ensures EachConfined(s.master.pool, Data(task.initial), s.state)
    ensures forall k :: Owner(s.state, k) != None ==> Owner(s.state, k).value < task.workers
  {
    hide Books, TaskValid, Quiet, EachConfined, WorkerData;
    BreakQuiet(task, s);
    PoolConfined(task, s);
    Collected(task, s);
  }

  lemma LocalsSnoc(block: seq<Transaction>, t: Transaction)
    ensures Locals(block + [t]) == if t.tag.DoneBy? then Locals(block) + [t] else Locals(block)
    ensures Orphans(block + [t]) == if t.tag.OrphanTag? then Orphans(block) + [t] else Orphans(block)
  {
    assert (block + [t])[..|block|] == block;
  }

  lemma {:induction false} SplitLocals(xs: seq<Transaction>, ys: seq<Transaction>)
    requires (forall t :: t in xs ==> t.tag.DoneBy?) && (forall t :: t in ys ==> t.tag.OrphanTag?)
    ensures Locals(xs + ys) == xs && Orphans(xs + ys) == ys
  {
    hide Locals, Orphans;
    if ys != [] {
      var init, t := ys[..|ys| - 1], ys[|ys| - 1];
      assert t in ys && xs + ys == (xs + init) + [t];
      SplitLocals(xs, init);
      LocalsSnoc(xs + init, t);
    } else if xs != [] {
      var init, t := xs[..|xs| - 1], xs[|xs| - 1];
      assert t in xs && xs + ys == (init + []) + [t];
      SplitLocals(init, []);
      LocalsSnoc(init + [], t);
    } else {
      NoBlock();
      assert xs + ys == [];
    }
  }

  lemma NoBlock()
    ensures Locals([]) == [] && Orphans([]) == []
  {
  }

  /** The block authoring produces: the workers' part is the pool, the rest the orphans; and it is safe to validate. */
  lemma BlockParts(task: Task, s: Sys, inv: Store -> bool)
    requires TaskValid(task) && TaskSafe(task, inv) && Books(task, s)
    ensures Locals(BlockOf(s)) == s.master.pool && Orphans(BlockOf(s)) == s.master.orphans
    ensures BlockSafe(task.workers, BlockOf(s), Data(task.initial), inv)
  {
    hide Books, TaskValid, Preserves, Locals, Orphans;
    Collected(task, s);
    PoolWorkers(task, s);
    OrphansTagged(task, s);
    BlockBodies(task, s);
    SplitLocals(s.master.pool, s.master.orphans);
    BodiesConcat(s.master.pool, s.master.orphans);
    forall t | t in BlockOf(s) ensures Preserves(inv, t.body.call) {
      var i :| 0 <= i < |BlockOf(s)| && BlockOf(s)[i] == t;
      assert Bodies(BlockOf(s))[i] in Bodies(task.pool);
      SafeBody(task, inv, t.body);
    }
  }

  lemma OrphansTagged(task: Task, s: Sys)
    requires PoolOk(task, s)
    ensures forall t :: t in s.master.orphans ==> t.tag.OrphanTag?
  {
    hide FatesOk, MovedOk, Keep;
  }

  /**
    Determinism: whatever the interleaving of authoring and whatever the interleaving of
    validating the block it produced, from the same values both end with the same value for
    every key; validation ends with exactly the entries that executing the block one by one
    leaves, and does not panic on the way.
   */
  lemma Deterministic(task: Task, schedule: seq<Label>, initial: StateMap, events: seq<Event>, inv: Store -> bool)
    requires TaskValid(task) && TaskSafe(task, inv) && Finished(ApplyAll(Init(task), schedule))
    requires Data(initial) == Data(task.initial)
    ensures var s := ApplyAll(Init(task), schedule);
            var c := HappenAll(BeginCheck(task.workers, BlockOf(s), initial), events);
            && !c.panicked
            && (Validated(c) ==>
                  Same(Data(s.state), Data(c.state)) &&
                  Data(c.state) == Run(Data(initial), Bodies(BlockOf(s))))
  {
    hide ApplyAll, HappenAll, BeginCheck, TaskValid, TaskSafe, EachConfined, BlockSafe, Books, Run, Bodies, Owner,
         Locals, Orphans, Validated, Data, BlockOf;
    var s := ApplyAll(Init(task), schedule);
    var c := HappenAll(BeginCheck(task.workers, BlockOf(s), initial), events);
    ReachableInv(task, schedule, inv);
    Serializable(task, schedule, inv);
    BlockParts(task, s, inv);
    var owners := AuthoredConfined(task, schedule, inv);
    ValidationConfluent(task.workers, BlockOf(s), initial, owners, events, inv);
    BlockBodiesSplit(s);
  }

  lemma BlockBodiesSplit(s: Sys)
    ensures Bodies(BlockOf(s)) == Bodies(s.master.pool) + Bodies(s.master.orphans)
  {
    BodiesConcat(s.master.pool, s.master.orphans);
  }
}
