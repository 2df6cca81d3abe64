// The balances module: account balances, and the transfer call as the accesses it makes.
module Balances {
  import opened Storage
  import opened Program

  /** Balances are unsigned 128-bit; exceeding this is an arithmetic panic. */
  const MAX_BALANCE: nat := 0xFFFF_FFFF_FFFF_FFFF_FFFF_FFFF_FFFF_FFFF

  /** What `BalanceOf::read` decodes: anything that is not a balance reads as the default. */
  function BalanceIn(v: Value): AccountBalance {
    if v.BalanceValue? then v.balance else AccountBalance(0, 0)
  }

  function Holding(b: AccountBalance): nat {
    b.free + b.reserved
  }

  datatype Adjusted = Balance(balance: AccountBalance) | Short | Overflow

  function Reserve(b: AccountBalance, amount: nat): (r: Adjusted)
    ensures r.Balance? ==> Holding(r.balance) == Holding(b)
    ensures r.Short? <==> b.free < amount
    ensures r.Overflow? <==> b.free >= amount && b.reserved + amount >= 0x1_0000_0000_0000_0000_0000_0000_0000_0000
    ensures r.Balance? ==> r.balance.reserved == b.reserved + amount
    ensures Holding(b) <= MAX_BALANCE ==> !r.Overflow?
  {
    if b.free < amount then Short
    else if b.reserved + amount > MAX_BALANCE then Overflow
    else Balance(AccountBalance(b.free - amount, b.reserved + amount))
  }

  function Unreserve(b: AccountBalance, amount: nat): (r: Adjusted)
    ensures r.Balance? ==> Holding(r.balance) == Holding(b)
    ensures r.Short? <==> b.reserved < amount
    ensures r.Overflow? <==> b.reserved >= amount && b.free + amount >= 0x1_0000_0000_0000_0000_0000_0000_0000_0000
    ensures r.Balance? ==> r.balance.free == b.free + amount
    ensures Holding(b) <= MAX_BALANCE ==> !r.Overflow?
  {
    if b.reserved < amount then Short
    else if b.free + amount > MAX_BALANCE then Overflow
    else Balance(AccountBalance(b.free + amount, b.reserved - amount))
  }

  /** What was reserved can be taken back, and nothing is left of either. */
  lemma ReserveUndone(b: AccountBalance, amount: nat)
    requires Holding(b) <= MAX_BALANCE
    ensures amount <= b.free ==> Reserve(b, amount).Balance? && Unreserve(Reserve(b, amount).balance, amount) == Balance(b)
    ensures amount <= b.reserved ==> Unreserve(b, amount).Balance? && Reserve(Unreserve(b, amount).balance, amount) == Balance(b)
  {
  }

  // ---------------------------------------------------------------------------
  // Transfer.

  function TransferProg(origin: AccountId, dest: AccountId, value: nat): Prog {
    Read(BalanceOf(origin), Forward, v => TransferFrom(origin, dest, value, BalanceIn(v)))
  }

  function TransferFrom(origin: AccountId, dest: AccountId, value: nat, b: AccountBalance): Prog {
    if b.free < value then LogicError("Does not have enough funds.")
    else
      Write(BalanceOf(origin), BalanceValue(b.(free := b.free - value)), Expect,
            Read(BalanceOf(dest), Orphan, v => TransferTo(dest, value, BalanceIn(v))))
  }

  function TransferTo(dest: AccountId, value: nat, had: AccountBalance): Prog {
    if had.free + value > MAX_BALANCE then Panic("attempt to add with overflow")
    else Write(BalanceOf(dest), BalanceValue(had.(free := had.free + value)), Orphan, Done)
  }

  function Transfer(origin: AccountId, dest: AccountId, value: nat): Call {
    Call(4, TransferProg(origin, dest, value), [BalanceOf(origin), BalanceOf(dest)])
  }
}
