// How often a transaction is attempted and handed on, and who owns what, over whole runs.
module Attempts {
  import opened Storage
  import opened TaintState
  import opened Program
  import opened Dispatch
  import opened Transactions
  import opened Protocol
  import opened Sequences
  import opened Bookkeeping
  import opened BooksSettle
  import opened Serializability
  import opened Authoring
  import opened AuthoringTheorems

  // ---------------------------------------------------------------------------
  // Counting what a schedule does to one transaction.

  /** This label ends an attempt of a worker at the transaction. */
  predicate EndsAttempt(s: Sys, l: Label, id: nat) {
    l.Settle? && Ready(s, l) && s.workers[l.worker].job.tx.body.id == id
  }

  /** This label hands the transaction from one worker to another. */
  predicate HandsOn(s: Sys, l: Label, id: nat) {
    EndsAttempt(s, l, id) &&
    var Busy(t, st) := s.workers[l.worker].job;
    st.Tainted? && !st.corrupt && t.status.Initial?
  }

  /** This label has the master execute the transaction. */
  predicate MasterTries(s: Sys, l: Label, id: nat) {
    l.MasterOrphan? && Ready(s, l) && s.master.orphans[s.master.played].body.id == id
  }

  function Attempted(s: Sys, schedule: seq<Label>, id: nat): nat {
    if schedule == [] then 0
    else
      var before, l := schedule[..|schedule| - 1], schedule[|schedule| - 1];
      Attempted(s, before, id) + if EndsAttempt(ApplyAll(s, before), l, id) then 1 else 0
  }

  function HandedOn(s: Sys, schedule: seq<Label>, id: nat): nat {
    if schedule == [] then 0
    else
      var before, l := schedule[..|schedule| - 1], schedule[|schedule| - 1];
      HandedOn(s, before, id) + if HandsOn(ApplyAll(s, before), l, id) then 1 else 0
  }

  function MasterTried(s: Sys, schedule: seq<Label>, id: nat): nat {
    if schedule == [] then 0
    else
      var before, l := schedule[..|schedule| - 1], schedule[|schedule| - 1];
      MasterTried(s, before, id) + if MasterTries(ApplyAll(s, before), l, id) then 1 else 0
  }

  // ---------------------------------------------------------------------------
  // What a fate says about the attempts so far.

  ghost predicate FateCounts(fates: map<nat, Fate>, id: nat, attempts: nat, handed: nat) {
    if id !in fates then attempts == 0 && handed == 0
    else
      match fates[id]
      case Fresh => attempts == 0 && handed == 0
      case Local => attempts == 1 && handed == 0
      case Travelling(_) => attempts == 1 && handed == 1
      case ExecutedBy(_) => attempts == 2 && handed == 1
      case Moved(_) => attempts == 2 && handed == 1
      case OrphanBy(_) => attempts == handed + 1 && handed <= 1
      case Orphaned => attempts == handed + 1 && handed <= 1
  }

  ghost predicate SettlesFate(s: Sys, w: ThreadId)
    requires Ready(s, Settle(w))
  {
    var Busy(t, st) := s.workers[w].job;
    var g := if t.status.Initial? then FirstFate(w, st) else AgainFate(w, st);
    && t.body.id in s.history.fates
    && s.history.fates[t.body.id] == (if t.status.Initial? then Fresh else Travelling(w))
    && DoSettle(s, w).history.fates == s.history.fates[t.body.id := g]
  }

  lemma SettleFate(task: Task, s: Sys, w: ThreadId)
    requires Ready(s, Settle(w))
    requires TaskValid(task) && Inv(task, s)
    ensures SettlesFate(s, w)
  {
    hide Books, TaskValid, DoSettle, ConcurrentData;
    BusyNotClosing(task, s, w);
    if s.workers[w].job.stage.Tainted? {
      TaintOwner(task, s, w);
    }
    if BusyFirst(s.workers[w].job) {
      FirstFacts(task, s, w);
      FirstEffect(s, w);
    } else {
      AgainFacts(task, s, w);
      AgainEffect(s, w);
    }
  }

  /** What the master hears changes the fate of the transaction named, and nothing about attempts. */
  lemma HearFate(task: Task, s: Sys, w: ThreadId, id: nat, attempts: nat, handed: nat)
    requires Books(task, s) && Ready(s, MasterReceive(w)) && FateCounts(s.history.fates, id, attempts, handed)
    ensures FateCounts(DoMasterReceive(s, w).history.fates, id, attempts, handed)
  {
    hide Books;
    WorkerOutbox(task, s, w);
    var m := s.workers[w].port.outbox[0];
    assert m in s.workers[w].port.outbox;
    HeardFates(s, w);
  }

  lemma HeardFates(s: Sys, w: ThreadId)
    requires Ready(s, MasterReceive(w))
    ensures var m := s.workers[w].port.outbox[0];
            var fates := DoMasterReceive(s, w).history.fates;
            || fates == s.history.fates
            || (m.WorkerExecuted? && fates == s.history.fates[m.id := Moved(w)])
            || (m.WorkerOrphan? && fates == s.history.fates[m.id := Orphaned])
  {
  }

  lemma WorkerOutbox(task: Task, s: Sys, w: ThreadId)
    requires Books(task, s) && w < |s.workers|
    ensures OutboxOk(s.history.fates, s.history.heard, w, s.workers[w].port)
  {
    hide OutboxOk, InboxOk, OthersOk, LogOk, PoolOk, CountersOk, Basics;
    assert WorkerOk(task, s, w);
  }

  lemma OtherFates(s: Sys, l: Label)
    requires Ready(s, l) && !l.Settle? && !l.MasterReceive?
    ensures Apply(s, l).history.fates == s.history.fates
  {
  }

  lemma {:induction false} CountsKept(task: Task, schedule: seq<Label>, id: nat, inv: Store -> bool)
    requires TaskValid(task) && TaskSafe(task, inv)
    ensures var s := ApplyAll(Init(task), schedule);
            FateCounts(s.history.fates, id, Attempted(Init(task), schedule, id), HandedOn(Init(task), schedule, id))
  {
    hide Inv, Books, TaskValid, TaskSafe, DoSettle, DoMasterReceive;
    if schedule == [] {
      FreshCounts(task, id);
    } else {
      var before, l := schedule[..|schedule| - 1], schedule[|schedule| - 1];
      var s := ApplyAll(Init(task), before);
      CountsKept(task, before, id, inv);
      ReachableInv(task, before, inv);
      if Ready(s, l) {
        if l.Settle? {
          SettleFate(task, s, l.worker);
        } else if l.MasterReceive? {
          BooksOf(task, s);
          HearFate(task, s, l.from, id, Attempted(Init(task), before, id), HandedOn(Init(task), before, id));
        } else {
          OtherFates(s, l);
        }
      }
    }
  }

  lemma BooksOf(task: Task, s: Sys)
    requires Inv(task, s)
    ensures Books(task, s)
  {
    hide Books;
  }

  lemma FreshCounts(task: Task, id: nat)
    ensures FateCounts(Init(task).history.fates, id, 0, 0)
  {
  }

  /** How often the master has executed a transaction is how often it is among the orphans already executed. */
  lemma {:induction false} MasterCounts(task: Task, schedule: seq<Label>, id: nat, inv: Store -> bool)
    requires TaskValid(task) && TaskSafe(task, inv)
    ensures var s := ApplyAll(Init(task), schedule);
            s.master.played <= |s.master.orphans| &&
            MasterTried(Init(task), schedule, id) == multiset(Ids(s.master.orphans[..s.master.played]))[id]
  {
    hide Inv, Books, TaskValid, TaskSafe, Apply, Ids;
    if schedule == [] {
      assert Ids([]) == [];
    } else {
      var before, l := schedule[..|schedule| - 1], schedule[|schedule| - 1];
      var s := ApplyAll(Init(task), before);
      MasterCounts(task, before, id, inv);
      ReachableInv(task, before, inv);
      StepInv(task, s, l, inv);
      PlayedOf(task, s);
      PlayedOf(task, Apply(s, l));
      PlayedStep(s, l, id);
    }
  }

  lemma PlayedOf(task: Task, s: Sys)
    requires Inv(task, s)
    ensures !s.panicked && (!s.master.closing ==> s.master.played == 0) && s.master.played <= |s.master.orphans|
  {
    hide WorkerOk, PoolOk, CountersOk, Quiet, ConcurrentData, OrphanData;
  }

  lemma PlayedStep(s: Sys, l: Label, id: nat)
    requires (!s.master.closing ==> s.master.played == 0) && s.master.played <= |s.master.orphans|
    requires !Apply(s, l).panicked && Apply(s, l).master.played <= |Apply(s, l).master.orphans|
    ensures var m, m' := s.master, Apply(s, l).master;
            multiset(Ids(m'.orphans[..m'.played]))[id] ==
            multiset(Ids(m.orphans[..m.played]))[id] + if MasterTries(s, l, id) then 1 else 0
  {
    hide Ids, Apply;
    var m, m' := s.master, Apply(s, l).master;
    if l.MasterOrphan? && Ready(s, l) {
      OrphanPlayed(s);
      assert m'.orphans[..m'.played] == m.orphans[..m.played] + [m.orphans[m.played]];
      IdsSnoc(m.orphans[..m.played], m.orphans[m.played]);
    } else {
      PlayedSame(s, l);
    }
  }

  lemma OrphanPlayed(s: Sys)
    requires Ready(s, MasterOrphan) && !Apply(s, MasterOrphan).panicked
    ensures Apply(s, MasterOrphan).master == s.master.(played := s.master.played + 1)
  {
  }

  lemma IdsSnoc(txs: seq<Transaction>, t: Transaction)
    ensures Ids(txs + [t]) == Ids(txs) + [t.body.id]
  {
  }

  lemma PlayedSame(s: Sys, l: Label)
    requires (!s.master.closing ==> s.master.played == 0) && s.master.played <= |s.master.orphans|
    requires !(l.MasterOrphan? && Ready(s, l)) && Apply(s, l).master.played <= |Apply(s, l).master.orphans|
    ensures var m, m' := s.master, Apply(s, l).master;
            m'.played == m.played && m'.orphans[..m'.played] == m.orphans[..m.played]
  {
  }

  /**
    In every run a transaction is handed on at most once, attempted by at most two workers
    and executed by the master at most once.
   */
  lemma AttemptsBounded(task: Task, schedule: seq<Label>, id: nat, inv: Store -> bool)
    requires TaskValid(task) && TaskSafe(task, inv)
    ensures HandedOn(Init(task), schedule, id) <= 1
    ensures Attempted(Init(task), schedule, id) <= HandedOn(Init(task), schedule, id) + 1
    ensures MasterTried(Init(task), schedule, id) <= 1
    ensures ApplyAll(Init(task), schedule).master.closing && Contains(task.pool, id) ==>
              Attempted(Init(task), schedule, id) == HandedOn(Init(task), schedule, id) + 1
  {
    hide ApplyAll, Attempted, HandedOn, MasterTried, Ids, Unique, Books, Contains;
    var s := ApplyAll(Init(task), schedule);
    ReachableInv(task, schedule, inv);
    ClosedFates(task, s);
    CountsKept(task, schedule, id, inv);
    MasterCounts(task, schedule, id, inv);
    NothingLost(task, schedule, inv);
    OrphansOnce(s, id);
  }

  lemma ClosedFates(task: Task, s: Sys)
    requires Books(task, s)
    ensures forall id :: Contains(task.pool, id) <==> id in s.history.fates
    ensures s.master.closing ==>
              forall id :: id in s.history.fates ==> s.history.fates[id].Local? || Resolved(s.history.fates[id])
  {
    hide WorkerOk, CountersOk, Contains, Keep, MovedOk, OrphansOk;
    assert PoolOk(task, s);
  }

  lemma OrphansOnce(s: Sys, id: nat)
    requires Unique(BlockOf(s)) && s.master.played <= |s.master.orphans|
    ensures multiset(Ids(s.master.orphans[..s.master.played]))[id] <= 1
  {
    var played := s.master.orphans[..s.master.played];
    forall i, j | 0 <= i < j < |played| ensures played[i].body.id != played[j].body.id {
      assert BlockOf(s)[|s.master.pool| + i] == played[i] && BlockOf(s)[|s.master.pool| + j] == played[j];
    }
    UniqueTimes(played, id);
  }

  // ---------------------------------------------------------------------------
  // Ownership.

  lemma StepOwners(task: Task, s: Sys, l: Label, inv: Store -> bool)
    requires TaskValid(task) && TaskSafe(task, inv) && Inv(task, s) && !s.master.closing
    ensures OwnersKept(s.state, Apply(s, l).state)
  {
    hide Books, TaskValid, TaskSafe, DoSettle, DoMasterReceive, DoReceive, Advance;
    if Ready(s, l) {
      match l
      case Access(w) => AccessOwners(task, s, w, inv);
      case CommitKey(w, k) => CommitOwned(task, s, w, k);
      case MasterReceive(w) => MasterReceiveShape(s, w);
      case Receive(w) => ReceiveEffect(s, w);
      case Settle(w) => SettleState(s, w);
      case _ =>
    }
  }

  lemma SettleState(s: Sys, w: ThreadId)
    requires Ready(s, Settle(w))
    ensures DoSettle(s, w).state == s.state && DoSettle(s, w).master == s.master
  {
  }

  /** The access in flight does not meet a case the code rules out, and takes no key from anybody. */
  ghost predicate AccessGoesWell(s: Sys, w: ThreadId)
    requires Ready(s, Access(w))
  {
    Advance(s.workers[w].job.stage, s.state, w).Move? && OwnersKept(s.state, DoAccess(s, w).state)
  }

  lemma AccessOwners(task: Task, s: Sys, w: ThreadId, inv: Store -> bool)
    requires Ready(s, Access(w))
    requires TaskValid(task) && TaskSafe(task, inv) && Inv(task, s)
    ensures AccessGoesWell(s, w)
  {
    hide Books, TaskSafe, TaskValid, Advance;
    var Busy(tx, stage) := s.workers[w].job;
    var view := Run(Data(task.initial), s.workers[w].port.log);
    InHand(task, s, w, inv);
    BusyNotClosing(task, s, w);
    assert WorkerData(Data(task.initial), s.state, w, s.workers[w].port.log, s.workers[w].job);
    AdvanceCoherent(tx.body.call, view, stage, s.state, w);
    ActedOwners(s.state, Advance(stage, s.state, w).state, w);
  }

  lemma ActedOwners(s: StateMap, s': StateMap, w: ThreadId)
    requires ActsAlone(s, s', w)
    ensures OwnersKept(s, s')
  {
    forall k | k in s ensures k in s' && (s[k].taint != None ==> s'[k].taint == s[k].taint) {
      assert Owner(s, k) == s[k].taint;
    }
  }

  /** A commit touches only keys the worker owns. */
  lemma CommitOwned(task: Task, s: Sys, w: ThreadId, k: Key)
    requires Inv(task, s) && Ready(s, CommitKey(w, k))
    ensures Owner(s.state, k) == Some(w) && OwnersKept(s.state, DoCommit(s, w, k).state)
  {
    hide Books;
    BusyNotClosing(task, s, w);
    assert WorkerData(Data(task.initial), s.state, w, s.workers[w].port.log, s.workers[w].job);
    assert k in Own(s.state, w);
  }

  /**
    Once set, a key's owner stays the same for as long as the collection phase lasts, however
    the run goes on; every cached key is owned by the worker that caches it, so that commits
    touch a worker's own keys only; and no access the code expects to succeed fails.
   */
  lemma {:induction false} OwnershipKept(task: Task, schedule: seq<Label>, more: seq<Label>, inv: Store -> bool)
    requires TaskValid(task) && TaskSafe(task, inv)
    requires !ApplyAll(Init(task), schedule + more).master.closing
    ensures OwnersKept(ApplyAll(Init(task), schedule).state, ApplyAll(Init(task), schedule + more).state)
  {
    hide Apply, Inv, TaskValid, TaskSafe;
    if more == [] {
      assert schedule + more == schedule;
    } else {
      var before, l := more[..|more| - 1], more[|more| - 1];
      assert (schedule + more)[..|schedule + more| - 1] == schedule + before;
      var s := ApplyAll(Init(task), schedule + before);
      if s.master.closing {
        StaysClosed(s, l);
      }
      OwnershipKept(task, schedule, before, inv);
      ReachableInv(task, schedule + before, inv);
      StepOwners(task, s, l, inv);
    }
  }

  lemma StaysClosed(s: Sys, l: Label)
    requires s.master.closing
    ensures Apply(s, l).master.closing
  {
  }

  /** What a worker holds in its cache, or has still to commit, is on keys it owns. */
  lemma CachedKeysOwned(task: Task, schedule: seq<Label>, w: ThreadId, inv: Store -> bool)
    requires TaskValid(task) && TaskSafe(task, inv) && w < task.workers
    ensures var s := ApplyAll(Init(task), schedule);
            && w < |s.workers|
            && (s.workers[w].job.Busy? ==>
                  match s.workers[w].job.stage
                  case Running(_, _, cache) => cache.Keys <= Own(s.state, w) && Advance(s.workers[w].job.stage, s.state, w).Move?
                  case Committing(_, rest) => rest.Keys <= Own(s.state, w)
                  case Tainted(owner, _) => owner != w && owner < |s.workers|)
  {
    hide ApplyAll, Books, TaskValid, TaskSafe, Advance, Init;
    ReachableInv(task, schedule, inv);
    var s := ApplyAll(Init(task), schedule);
    WorkersOf(task, s);
    if s.workers[w].job.Busy? {
      BusyNotClosing(task, s, w);
      assert WorkerData(Data(task.initial), s.state, w, s.workers[w].port.log, s.workers[w].job);
      match s.workers[w].job.stage
      case Running(_, _, _) => AccessOwners(task, s, w, inv);
      case Tainted(_, _) => TaintOwner(task, s, w);
      case _ =>
    }
  }

  lemma WorkersOf(task: Task, s: Sys)
    requires Books(task, s)
    ensures |s.workers| == task.workers && !s.panicked
  {
    hide WorkerOk, PoolOk, CountersOk, Quiet;
  }
}
