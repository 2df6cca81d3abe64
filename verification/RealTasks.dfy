// Tasks whose transactions carry the balances and staking calls: what the protocol needs of
// its transactions, these have.
module RealTasks {
  import opened Storage
  import opened TaintState
  import opened Program
  import opened Transactions
  import opened Protocol
  import opened Balances
  import opened Staking
  import opened Calls
  import opened Effects
  import opened Ledgers
  import opened Authoring
  import opened AuthoringTheorems
  import opened Progress
  import opened Validation
  import opened Determinism
  import opened ValidationProgress
  import opened StateEquality
  import opened Refinement

  /** The transactions carry these calls, in order. */
  ghost predicate Carries(txs: seq<Body>, calls: seq<Signed>) {
    |txs| == |calls| && forall i :: 0 <= i < |txs| ==> txs[i].call == CallOf(calls[i].call, calls[i].origin)
  }

  /** From sound ledgers, with no call naming the default account as a controller, nothing a task needs is missing. */
  lemma CallsAreSafe(task: Task, calls: seq<Signed>)
    requires Carries(Bodies(task.pool), calls) && Sound(Data(task.initial))
    requires forall x :: x in calls ==> !NamesDefault(x.call, x.origin)
    ensures TaskSafe(task, Sound)
  {
    hide Sound, NamesDefault, CallOf, DisciplinedCall;
    forall t | t in task.pool ensures DisciplinedCall(t.body.call) && Preserves(Sound, t.body.call) {
      var i :| 0 <= i < |task.pool| && task.pool[i] == t;
      assert Bodies(task.pool)[i].call == CallOf(calls[i].call, calls[i].origin) && calls[i] in calls;
      EveryCallDisciplined(calls[i].call, calls[i].origin);
      KeepsAlways(calls[i].call, calls[i].origin);
    }
  }

  /** The four calls that declare all they access, with everything they declare in the initial state. */
  lemma DeclaredArePrepared(task: Task, calls: seq<Signed>)
    requires Carries(Bodies(task.pool), calls)
    requires forall x :: x in calls ==> Declares(x.call)
    requires forall t, k :: t in task.pool && k in t.body.call.access ==> k in task.initial
    ensures Prepared(task, Sound)
  {
    hide Sound, CallOf, Declares, CallKeys;
    forall t | t in task.pool ensures Stays(Sound, t.body.call, task.initial.Keys) {
      var i :| 0 <= i < |task.pool| && task.pool[i] == t;
      assert Bodies(task.pool)[i].call == CallOf(calls[i].call, calls[i].origin) && calls[i] in calls;
      DeclaredAccess(calls[i].call, calls[i].origin);
    }
  }

  lemma {:induction false} RunOfCalls(d: Store, txs: seq<Body>, calls: seq<Signed>)
    requires Carries(txs, calls)
    ensures Run(d, txs) == RunCalls(d, calls)
  {
    hide ExecCall, CallOf, RunCalls;
    RunCallsNext(d, calls);
    if txs != [] {
      RunOfCalls(d, txs[..|txs| - 1], calls[..|calls| - 1]);
    }
  }

  /** Transactions taken from a pool that carries calls carry calls of the pool. */
  lemma {:induction false} TakenCarry(txs: seq<Body>, pool: seq<Body>, calls: seq<Signed>) returns (r: seq<Signed>)
    requires Carries(pool, calls) && forall b :: b in txs ==> b in pool
    ensures Carries(txs, r) && forall x :: x in r ==> x in calls
  {
    hide CallOf;
    if txs == [] {
      r := [];
    } else {
      var b := txs[|txs| - 1];
      assert b in txs;
      var i :| 0 <= i < |pool| && pool[i] == b;
      var init := TakenCarry(txs[..|txs| - 1], pool, calls);
      r := init + [calls[i]];
    }
  }

  // ---------------------------------------------------------------------------
  // Soundness is about values, not entries.

  lemma {:induction false} EmptyHoldNothing(d: Store, keys: set<Key>)
    requires d.Keys <= keys
    ensures HeldUnderAll(d, keys) == Issuance(d)
    decreases |keys|
  {
    hide HeldUnder, HeldUnderAll;
    if k :| k in keys && k !in d {
      TakeOut(d, keys, k);
      AbsentHoldsNothing(d, k);
      EmptyHoldNothing(d, keys - {k});
    } else {
      assert keys == d.Keys;
    }
  }

  lemma SameIssuance(d: Store, e: Store)
    requires Same(d, e)
    ensures Issuance(d) == Issuance(e)
  {
    hide Issuance, HeldUnderAll;
    EmptyHoldNothing(d, d.Keys + e.Keys);
    EmptyHoldNothing(e, d.Keys + e.Keys);
    HeldAlike(d, e, d.Keys + e.Keys);
  }

  lemma SameSound(d: Store, e: Store)
    requires Same(d, e) && Sound(d)
    ensures Sound(e)
  {
    hide Issuance, BalanceIn, LedgerIn, AccountIn;
    SameIssuance(d, e);
    assert forall a :: BalanceAt(e, a) == BalanceAt(d, a) && LedgerAt(e, a) == LedgerAt(d, a) && StashAt(e, a) == StashAt(d, a);
  }

  /**
    Authoring the balances and staking calls, whatever the interleaving: nothing panics, no
    balance is created or destroyed, and the ledgers it ends with are sound.
   */
  lemma AuthoringConserves(task: Task, schedule: seq<Label>, calls: seq<Signed>)
    requires TaskValid(task) && Carries(Bodies(task.pool), calls) && Sound(Data(task.initial))
    requires forall x :: x in calls ==> !NamesDefault(x.call, x.origin)
    requires Finished(ApplyAll(Init(task), schedule))
    ensures var s := ApplyAll(Init(task), schedule);
            Sound(Data(s.state)) && Issuance(Data(s.state)) == Issuance(Data(task.initial))
  {
    hide TaskValid, TaskSafe, Finished, ApplyAll, Sound, Issuance, Run, RunCalls, NamesDefault, Carries, Bodies, BlockOf, Data;
    CallsAreSafe(task, calls);
    NothingLost(task, schedule, Sound);
    Serializable(task, schedule, Sound);
    var s := ApplyAll(Init(task), schedule);
    var txs := Bodies(BlockOf(s));
    forall b | b in txs ensures b in Bodies(task.pool) {
      assert b in multiset(Bodies(task.pool));
    }
    var signed := TakenCarry(txs, Bodies(task.pool), calls);
    RunOfCalls(Data(task.initial), txs, signed);
    RunCallsSound(Data(task.initial), signed);
    SameOther(Data(s.state), Run(Data(task.initial), txs));
    SameSound(Run(Data(task.initial), txs), Data(s.state));
    SameIssuance(Data(s.state), Run(Data(task.initial), txs));
  }

  lemma SameOther(d: Store, e: Store)
    requires Same(d, e)
    ensures Same(e, d)
  {
  }

  // ---------------------------------------------------------------------------
  // An input at which author_and_validate says false.

  /** One worker, one transaction, an empty state. */
  function OneTransfer(origin: AccountId, dest: AccountId, value: nat): Task {
    Task(1, [Transaction(Body(0, Transfer(origin, dest, value)), DoneBy(0), Initial)], map[])
  }

  lemma TransferAbsent(origin: AccountId, dest: AccountId, value: nat, d: Store)
    requires BalanceOf(origin) !in d && value > 0
    ensures ExecCall(Transfer(origin, dest, value), d).store == d
    ensures BalanceOf(origin) in CallKeys(Transfer(origin, dest, value), d)
  {
    hide Exec, Keys;
    Unfold(4, TransferProg(origin, dest, value), d);
    Unfold(3, TransferFrom(origin, dest, value, BalanceAt(d, origin)), d);
  }

  lemma OneAccessed(d: Store, b: Body, k: Key)
    requires k in CallKeys(b.call, d) && k !in ExecCall(b.call, d).store
    ensures !AllAccessedStored(d, [b])
  {
    hide CallKeys, ExecCall;
    assert [b][..0] == [];
    assert AccessedBy(d, [b], k, 0);
  }

  lemma OneIsSeparated(task: Task, t: Transaction)
    requires TaskValid(task) && task.pool == [t] && NoTaints(task.initial) && WithinAccess(t.body.call)
    ensures SeparatedTask(task)
  {
    hide WithinAccess, NoTaints, TaskValid;
  }

  /**
    A single transfer by an account the state has no entry for: on every run and every
    validation the comparison fails. Authoring has claimed the account's balance, which
    validation only reads.
   */
  lemma AbsentTransferDiffers(task: Task, t: Transaction, origin: AccountId, dest: AccountId, value: nat,
                              schedule: seq<Label>, events: seq<Event>)
    requires TaskValid(task) && task.pool == [t] && t.body.call == Transfer(origin, dest, value) && value > 0
    requires NoTaints(task.initial) && Sound(Data(task.initial)) && BalanceOf(origin) !in task.initial
    requires Finished(ApplyAll(Init(task), schedule))
    requires Validated(HappenAll(BeginCheck(task.workers, task.pool, task.initial), events))
    ensures !StateEq(HappenAll(BeginCheck(task.workers, task.pool, task.initial), events).state, ApplyAll(Init(task), schedule).state)
  {
    hide TaskValid, NoTaints, Sound, Finished, Validated, ApplyAll, HappenAll, BeginCheck, Init, StateEq, SeparatedTask, TaskSafe,
         Data, ExecCall, CallKeys, Transfer, WithinAccess, AllAccessedStored;
    var calls := [Signed(TransferCall(dest, value), origin)];
    OneCarries(task, t, calls[0]);
    CallsAreSafe(task, calls);
    DeclaredAccess(TransferCall(dest, value), origin);
    OneIsSeparated(task, t);
    StateEntries(task.initial);
    TransferAbsent(origin, dest, value, Data(task.initial));
    OneAccessed(Data(task.initial), t.body, BalanceOf(origin));
    assert Bodies(task.pool) == [t.body];
    SeparatedComparesExactly(task, schedule, task.initial, events, Sound);
  }

  lemma OneCarries(task: Task, t: Transaction, x: Signed)
    requires task.pool == [t] && t.body.call == CallOf(x.call, x.origin)
    ensures Carries(Bodies(task.pool), [x])
  {
  }

  /** And there are such runs: with one worker and an empty state, whoever transfers however much to whom. */
  lemma AbsentTransferFails(origin: AccountId, dest: AccountId, value: nat) returns (schedule: seq<Label>, events: seq<Event>)
    requires value > 0
    ensures var task := OneTransfer(origin, dest, value);
            var s := ApplyAll(Init(task), schedule);
            var c := HappenAll(BeginCheck(task.workers, BlockOf(s), task.initial), events);
            Finished(s) && Validated(c) && !StateEq(c.state, s.state)
  {
    hide TaskValid, NoTaints, Sound, Finished, Validated, ApplyAll, HappenAll, BeginCheck, Init, StateEq, SeparatedTask, TaskSafe,
         ExecCall, CallKeys, Transfer, WithinAccess, BlockOf;
    var task := OneTransfer(origin, dest, value);
    var t := task.pool[0];
    OneValid(origin, dest, value);
    OneCarries(task, t, Signed(TransferCall(dest, value), origin));
    CallsAreSafe(task, [Signed(TransferCall(dest, value), origin)]);
    schedule := CanFinish(task, [], Sound);
    assert [] + schedule == schedule;
    var s := ApplyAll(Init(task), schedule);
    events := CanValidateAuthored(task, schedule, task.initial, Sound);
    DeclaredAccess(TransferCall(dest, value), origin);
    OneIsSeparated(task, t);
    SeparatedIsSequential(task, schedule, Sound);
    AbsentTransferDiffers(task, t, origin, dest, value, schedule, events);
  }

  lemma OneValid(origin: AccountId, dest: AccountId, value: nat)
    ensures var task := OneTransfer(origin, dest, value);
            TaskValid(task) && NoTaints(task.initial) && Sound(Data(task.initial)) && BalanceOf(origin) !in task.initial
  {
    hide Issuance, BalanceAt, LedgerAt, StashAt;
    assert OneTransfer(origin, dest, value).initial == map[];
    NothingStored(Data(OneTransfer(origin, dest, value).initial));
    BareSound(Data(OneTransfer(origin, dest, value).initial));
  }

  lemma BareSound(d: Store)
    requires Bare(d)
    ensures Sound(d)
  {
    hide Issuance;
  }
}
