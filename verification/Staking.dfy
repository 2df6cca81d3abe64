// The staking module: its seven calls as the accesses they make, branch by branch.
module Staking {
  import opened Storage
  import opened Program
  import opened Balances

  const DEFAULT_LEDGER := StakingLedger(0, DEFAULT_ACCOUNT, Chilled)

  /** `exists`: the ledger is not the default one. */
  predicate Exists(l: StakingLedger) {
    l.value != 0 || l.controller != DEFAULT_ACCOUNT || !l.role.Chilled?
  }

  function LedgerIn(v: Value): StakingLedger {
    if v.LedgerValue? then v.ledger else DEFAULT_LEDGER
  }

  function AccountIn(v: Value): AccountId {
    if v.AccountValue? then v.account else DEFAULT_ACCOUNT
  }

  // ---------------------------------------------------------------------------
  // bond

  function BondProg(stash: AccountId, amount: nat, controller: AccountId): Prog {
    Read(Ledger(stash), Forward, v => BondUnbonded(stash, amount, controller, LedgerIn(v)))
  }

  function BondUnbonded(stash: AccountId, amount: nat, controller: AccountId, l: StakingLedger): Prog {
    if Exists(l) then LogicError("Already bonded.")
    else Read(BalanceOf(stash), Orphan, v => BondReserving(stash, amount, controller, Reserve(BalanceIn(v), amount)))
  }

  function BondReserving(stash: AccountId, amount: nat, controller: AccountId, b: Adjusted): Prog {
    match b
    case Short => LogicError("Not enough funds.")
    case Overflow => Panic("attempt to add with overflow")
    case Balance(balance) =>
      Write(BalanceOf(stash), BalanceValue(balance), Expect,
            Write(Bonded(controller), AccountValue(stash), Orphan,
                  Write(Ledger(stash), LedgerValue(StakingLedger(amount, controller, Chilled)), Expect, Done)))
  }

  function Bond(stash: AccountId, amount: nat, controller: AccountId): Call {
    Call(5, BondProg(stash, amount, controller), [BalanceOf(stash), Ledger(stash), Bonded(controller)])
  }

  // ---------------------------------------------------------------------------
  // bond_extra

  function BondExtraProg(stash: AccountId, amount: nat): Prog {
    Read(Ledger(stash), Forward, v => BondExtraBonded(stash, amount, LedgerIn(v)))
  }

  function BondExtraBonded(stash: AccountId, amount: nat, l: StakingLedger): Prog {
    if !Exists(l) then LogicError("Not bonded.")
    else Read(BalanceOf(stash), Orphan, v => BondExtraReserving(stash, amount, l, Reserve(BalanceIn(v), amount)))
  }

  function BondExtraReserving(stash: AccountId, amount: nat, l: StakingLedger, b: Adjusted): Prog {
    match b
    case Short => LogicError("Not enough funds.")
    case Overflow => Panic("attempt to add with overflow")
    case Balance(balance) =>
      Write(BalanceOf(stash), BalanceValue(balance), Expect, BondExtraLedger(stash, amount, l))
  }

  function BondExtraLedger(stash: AccountId, amount: nat, l: StakingLedger): Prog {
    if l.value + amount > MAX_BALANCE then Panic("attempt to add with overflow")
    else Write(Ledger(stash), LedgerValue(l.(value := l.value + amount)), Expect, Done)
  }

  function BondExtra(stash: AccountId, amount: nat): Call {
    Call(4, BondExtraProg(stash, amount), [BalanceOf(stash), Ledger(stash)])
  }

  // ---------------------------------------------------------------------------
  // unbond

  function UnbondProg(stash: AccountId, amount: nat): Prog {
    Read(Ledger(stash), Forward, v => UnbondBonded(stash, amount, LedgerIn(v)))
  }

  function UnbondBonded(stash: AccountId, amount: nat, l: StakingLedger): Prog {
    if !Exists(l) then LogicError("Not bonded.")
    else if l.value < amount then LogicError("Too much unbonding.")
    else
      Write(Ledger(stash), LedgerValue(l.(value := l.value - amount)), Expect,
            Read(BalanceOf(stash), Orphan, v => UnbondReturning(stash, Unreserve(BalanceIn(v), amount))))
  }

  function UnbondReturning(stash: AccountId, b: Adjusted): Prog {
    match b
    case Short => Panic("Must have enough reserved")
    case Overflow => Panic("attempt to add with overflow")
    case Balance(balance) => Write(BalanceOf(stash), BalanceValue(balance), Orphan, Done)
  }

  function Unbond(stash: AccountId, amount: nat): Call {
    Call(4, UnbondProg(stash, amount), [BalanceOf(stash), Ledger(stash)])
  }

  // ---------------------------------------------------------------------------
  // set_controller

  function SetControllerProg(stash: AccountId, ctrl: AccountId): Prog {
    Read(Ledger(stash), Forward, v => SetControllerBonded(stash, ctrl, LedgerIn(v)))
  }

  function SetControllerBonded(stash: AccountId, ctrl: AccountId, l: StakingLedger): Prog {
    if !Exists(l) then LogicError("Not bonded.")
    else if l.controller == ctrl then Done
    else
      Write(Bonded(l.controller), AccountValue(DEFAULT_ACCOUNT), Forward,
            Write(Bonded(ctrl), AccountValue(stash), Orphan,
                  Write(Ledger(stash), LedgerValue(l.(controller := ctrl)), Expect, Done)))
  }

  function SetController(stash: AccountId, ctrl: AccountId): Call {
    Call(4, SetControllerProg(stash, ctrl), [Ledger(stash), Bonded(ctrl)])
  }

  // ---------------------------------------------------------------------------
  // validate, nominate, chill

  datatype RoleChange = ToValidator | ToNominator(targets: seq<AccountId>) | ToChilled

  function RoleProg(ctrl: AccountId, change: RoleChange): Prog {
    Read(Bonded(ctrl), Forward, v => RoleOfStash(AccountIn(v), change))
  }

  function RoleOfStash(stash: AccountId, change: RoleChange): Prog {
    if stash == DEFAULT_ACCOUNT then LogicError("Not bonded.")
    else Read(Ledger(stash), Orphan, v => RoleOfLedger(stash, LedgerIn(v), change))
  }

  function RoleOfLedger(stash: AccountId, l: StakingLedger, change: RoleChange): Prog {
    if !Exists(l) then Panic("Ledger must exist when Bonded exists.")
    else
      match change
      case ToValidator => WriteRole(stash, l, Validator)
      case ToNominator(targets) => Write(Nominations(stash), TargetsValue(targets), Orphan, WriteRole(stash, l, Nominator))
      case ToChilled =>
        if l.role.Nominator? then Write(Nominations(stash), TargetsValue([]), Orphan, WriteRole(stash, l, Chilled))
        else WriteRole(stash, l, Chilled)
  }

  function WriteRole(stash: AccountId, l: StakingLedger, role: StakingRole): Prog {
    Write(Ledger(stash), LedgerValue(l.(role := role)), Expect, Done)
  }

  function ChangeRole(ctrl: AccountId, change: RoleChange): Call {
    Call(4, RoleProg(ctrl, change), [Bonded(ctrl)])
  }
}
