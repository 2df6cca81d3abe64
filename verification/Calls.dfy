// The calls a transaction can carry, the discipline they follow, and the access lists they
// declare.
module Calls {
  import opened Storage
  import opened Program
  import opened Balances
  import opened Staking

  datatype OuterCall =
    | TransferCall(dest: AccountId, value: nat)
    | BondCall(amount: nat, controller: AccountId)
    | BondExtraCall(amount: nat)
    | UnbondCall(amount: nat)
    | SetControllerCall(ctrl: AccountId)
    | ValidateCall
    | NominateCall(targets: seq<AccountId>)
    | ChillCall

  function CallOf(c: OuterCall, origin: AccountId): Call {
    match c
    case TransferCall(dest, value) => Transfer(origin, dest, value)
    case BondCall(amount, controller) => Bond(origin, amount, controller)
    case BondExtraCall(amount) => BondExtra(origin, amount)
    case UnbondCall(amount) => Unbond(origin, amount)
    case SetControllerCall(ctrl) => SetController(origin, ctrl)
    case ValidateCall => ChangeRole(origin, ToValidator)
    case NominateCall(targets) => ChangeRole(origin, ToNominator(targets))
    case ChillCall => ChangeRole(origin, ToChilled)
  }

  // ---------------------------------------------------------------------------
  // Discipline.

  lemma TransferDisciplined(origin: AccountId, dest: AccountId, value: nat)
    ensures DisciplinedCall(Transfer(origin, dest, value))
  {
    var o, t := BalanceOf(origin), BalanceOf(dest);
    forall b ensures Disciplined(3, TransferFrom(origin, dest, value, b), {o}, false) {
      forall had ensures Disciplined(1, TransferTo(dest, value, had), {o} + {o} + {t}, true) {
      }
      if b.free >= value {
        var rest := Read(t, Orphan, v => TransferTo(dest, value, BalanceIn(v)));
        assert TransferFrom(origin, dest, value, b).rest == rest;
        assert Disciplined(2, rest, {o} + {o}, true);
      }
    }
    assert {} + {o} == {o};
  }

  lemma BondDisciplined(stash: AccountId, amount: nat, controller: AccountId)
    ensures DisciplinedCall(Bond(stash, amount, controller))
  {
    var l, b := Ledger(stash), BalanceOf(stash);
    forall r ensures Disciplined(3, BondReserving(stash, amount, controller, r), {l} + {b}, false) {
    }
    forall x ensures Disciplined(4, BondUnbonded(stash, amount, controller, x), {l}, false) {
    }
    assert {} + {l} == {l};
  }

  lemma BondExtraDisciplined(stash: AccountId, amount: nat)
    ensures DisciplinedCall(BondExtra(stash, amount))
  {
    var l, b := Ledger(stash), BalanceOf(stash);
    forall x ensures Disciplined(3, BondExtraBonded(stash, amount, x), {l}, false) {
      forall r ensures Disciplined(2, BondExtraReserving(stash, amount, x, r), {l} + {b}, false) {
      }
    }
    assert {} + {l} == {l};
  }

  lemma UnbondDisciplined(stash: AccountId, amount: nat)
    ensures DisciplinedCall(Unbond(stash, amount))
  {
    var l, b := Ledger(stash), BalanceOf(stash);
    forall x ensures Disciplined(3, UnbondBonded(stash, amount, x), {l}, false) {
      forall r ensures Disciplined(1, UnbondReturning(stash, r), {l} + {l} + {b}, true) {
      }
      if Exists(x) && x.value >= amount {
        var rest := Read(b, Orphan, v => UnbondReturning(stash, Unreserve(BalanceIn(v), amount)));
        assert UnbondBonded(stash, amount, x).rest == rest;
        assert Disciplined(2, rest, {l} + {l}, true);
      }
    }
    assert {} + {l} == {l};
  }

  lemma SetControllerDisciplined(stash: AccountId, ctrl: AccountId)
    ensures DisciplinedCall(SetController(stash, ctrl))
  {
    var l := Ledger(stash);
    forall x ensures Disciplined(3, SetControllerBonded(stash, ctrl, x), {l}, false) {
    }
    assert {} + {l} == {l};
  }

  lemma RoleDisciplined(ctrl: AccountId, change: RoleChange)
    ensures DisciplinedCall(ChangeRole(ctrl, change))
  {
    var c := Bonded(ctrl);
    forall stash ensures Disciplined(3, RoleOfStash(stash, change), {c}, false) {
      forall l ensures Disciplined(2, RoleOfLedger(stash, l, change), {c} + {Ledger(stash)}, false) {
      }
    }
    assert {} + {c} == {c};
  }

  /** No call fails with a logic error after its first write, and no access it expects to succeed is to a new key. */
  lemma EveryCallDisciplined(c: OuterCall, origin: AccountId)
    ensures DisciplinedCall(CallOf(c, origin))
  {
    hide Transfer, Bond, BondExtra, Unbond, SetController, ChangeRole, DisciplinedCall;
    match c
    case TransferCall(dest, value) => TransferDisciplined(origin, dest, value);
    case BondCall(amount, controller) => BondDisciplined(origin, amount, controller);
    case BondExtraCall(amount) => BondExtraDisciplined(origin, amount);
    case UnbondCall(amount) => UnbondDisciplined(origin, amount);
    case SetControllerCall(ctrl) => SetControllerDisciplined(origin, ctrl);
    case ValidateCall => RoleDisciplined(origin, ToValidator);
    case NominateCall(targets) => RoleDisciplined(origin, ToNominator(targets));
    case ChillCall => RoleDisciplined(origin, ToChilled);
  }

  // ---------------------------------------------------------------------------
  // Access lists.

  /** The calls whose every access is on their access list, whatever the state. */
  predicate Declares(c: OuterCall) {
    c.TransferCall? || c.BondCall? || c.BondExtraCall? || c.UnbondCall?
  }

  ghost predicate WithinAccess(c: Call) {
    forall d: Store :: CallKeys(c, d) <= set k | k in c.access
  }
}
