// Storage keys and values. A key is a storage map together with an account;
// a value is what one of the storage maps holds, or Empty, the value the
// state returns for a key it has no entry for.
module Storage {
  datatype Option<+T> = None | Some(value: T)

  type ThreadId = nat
  type AccountId = nat

  /** The account `AccountId::default()` stands for. */
  const DEFAULT_ACCOUNT: AccountId := 0

  datatype AccountBalance = AccountBalance(free: nat, reserved: nat)

  datatype StakingRole = Validator | Nominator | Chilled

  datatype StakingLedger = StakingLedger(value: nat, controller: AccountId, role: StakingRole)

  datatype Key =
    | BalanceOf(who: AccountId)
    | Ledger(stash: AccountId)
    | Bonded(controller: AccountId)
    | Nominations(nominator: AccountId)

  datatype Value =
    | Empty
    | BalanceValue(balance: AccountBalance)
    | LedgerValue(ledger: StakingLedger)
    | AccountValue(account: AccountId)
    | TargetsValue(targets: seq<AccountId>)

  /** The values of a state, taints forgotten. */
  type Store = map<Key, Value>

  /** Reading a key that has no entry gives the default value. */
  function Get(d: Store, k: Key): Value {
    if k in d then d[k] else Empty
  }

  /** The two stores give the same value for every key (absent = default). */
  ghost predicate Same(d: Store, e: Store) {
    forall k :: Get(d, k) == Get(e, k)
  }

  /** The two stores give the same value for every key of `keys`. */
  ghost predicate Agree(d: Store, e: Store, keys: set<Key>) {
    forall k :: k in keys ==> Get(d, k) == Get(e, k)
  }

  /** The two stores have an entry for the same keys of `keys`, with the same value. */
  ghost predicate Coincide(d: Store, e: Store, keys: set<Key>) {
    forall k :: k in keys ==> (k in d <==> k in e) && Get(d, k) == Get(e, k)
  }
}
