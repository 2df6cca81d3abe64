// A call, seen as the storage accesses it makes: a tree whose next access
// depends only on the values read so far. Sequential execution of such a tree
// on a plain store, and what the keys it touches say about its result.
module Program {
  import opened Storage

  /** What a call does when the key it accesses belongs to another thread. */
  datatype OnTaint = Forward | Orphan | Expect

  datatype Prog =
    | Done
    | LogicError(why: string)
    | Panic(reason: string)
    | Read(key: Key, onTaint: OnTaint, next: Value -> Prog)
    | Write(key: Key, value: Value, onTaint: OnTaint, rest: Prog)

  /** A call with its arguments: a bound on the accesses it makes, what it does, and its access list. */
  datatype Call = Call(steps: nat, body: Prog, access: seq<Key>)

  datatype Outcome = Success | Failure(why: string) | Panicked

  datatype ExecResult = ExecResult(outcome: Outcome, store: Store)

  /** Straight execution on a store, as the sequential runtime does it: every access succeeds, writes are immediate. */
  function Exec(n: nat, p: Prog, d: Store): ExecResult
    decreases n
  {
    match p
    case Done => ExecResult(Success, d)
    case LogicError(why) => ExecResult(Failure(why), d)
    case Panic(_) => ExecResult(Panicked, d)
    case Read(k, _, next) =>
      if n == 0 then ExecResult(Panicked, d) else Exec(n - 1, next(Get(d, k)), d)
    case Write(k, v, _, rest) =>
      if n == 0 then ExecResult(Panicked, d) else Exec(n - 1, rest, d[k := v])
  }

  function ExecCall(c: Call, d: Store): ExecResult {
    Exec(c.steps, c.body, d)
  }

  /** The keys straight execution from `d` accesses. */
  function Keys(n: nat, p: Prog, d: Store): set<Key>
    decreases n
  {
    match p
    case Done => {}
    case LogicError(_) => {}
    case Panic(_) => {}
    case Read(k, _, next) =>
      if n == 0 then {} else {k} + Keys(n - 1, next(Get(d, k)), d)
    case Write(k, v, _, rest) =>
      if n == 0 then {} else {k} + Keys(n - 1, rest, d[k := v])
  }

  function CallKeys(c: Call, d: Store): set<Key> {
    Keys(c.steps, c.body, d)
  }

  /**
    The discipline the calls follow: an access that must not fail is to a key accessed
    before, and no logic error comes after a write.
   */
  ghost predicate Disciplined(n: nat, p: Prog, touched: set<Key>, wrote: bool)
    decreases n
  {
    match p
    case Done => true
    case LogicError(_) => !wrote
    case Panic(_) => true
    case Read(k, t, next) =>
      && (t == Expect ==> k in touched)
      && (n > 0 ==> forall v :: Disciplined(n - 1, next(v), touched + {k}, wrote))
    case Write(k, _, t, rest) =>
      && (t == Expect ==> k in touched)
      && (n > 0 ==> Disciplined(n - 1, rest, touched + {k}, true))
  }

  ghost predicate DisciplinedCall(c: Call) {
    Disciplined(c.steps, c.body, {}, false)
  }

  lemma {:induction false} DisciplinedMonotone(n: nat, p: Prog, touched: set<Key>, more: set<Key>, wrote: bool)
    requires Disciplined(n, p, touched, wrote) && touched <= more
    ensures Disciplined(n, p, more, wrote)
    decreases n
  {
    if n > 0 {
      match p
      case Read(k, _, next) =>
        forall v ensures Disciplined(n - 1, next(v), more + {k}, wrote) {
          DisciplinedMonotone(n - 1, next(v), touched + {k}, more + {k}, wrote);
        }
      case Write(k, _, _, rest) => DisciplinedMonotone(n - 1, rest, touched + {k}, more + {k}, true);
      case _ =>
    }
  }

  /** Execution changes nothing outside the keys it accesses. */
  lemma {:induction false} ExecFrame(n: nat, p: Prog, d: Store, k: Key)
    requires k !in Keys(n, p, d)
    ensures Get(Exec(n, p, d).store, k) == Get(d, k) && (k in Exec(n, p, d).store <==> k in d)
    decreases n
  {
    if n > 0 {
      match p
      case Read(key, _, next) => ExecFrame(n - 1, next(Get(d, key)), d, k);
      case Write(key, v, _, rest) => ExecFrame(n - 1, rest, d[key := v], k);
      case _ =>
    }
  }

  /** Execution depends on nothing outside the keys it accesses. */
  lemma {:induction false} ExecAgree(n: nat, p: Prog, d: Store, e: Store, keys: set<Key>)
    requires Keys(n, p, d) <= keys && Agree(d, e, keys)
    ensures Keys(n, p, e) == Keys(n, p, d)
    ensures Exec(n, p, e).outcome == Exec(n, p, d).outcome
    ensures Agree(Exec(n, p, d).store, Exec(n, p, e).store, keys)
    decreases n
  {
    if n > 0 {
      match p
      case Read(k, _, next) =>
        assert k in keys;
        ExecAgree(n - 1, next(Get(d, k)), d, e, keys);
      case Write(k, v, _, rest) => ExecAgree(n - 1, rest, d[k := v], e[k := v], keys);
      case _ =>
    }
  }

  lemma {:induction false} ExecCoincide(n: nat, p: Prog, d: Store, e: Store, keys: set<Key>)
    requires Keys(n, p, d) <= keys && Coincide(d, e, keys)
    ensures Keys(n, p, e) == Keys(n, p, d)
    ensures Exec(n, p, e).outcome == Exec(n, p, d).outcome
    ensures Coincide(Exec(n, p, d).store, Exec(n, p, e).store, keys)
    decreases n
  {
    if n > 0 {
      match p
      case Read(k, _, next) =>
        assert k in keys;
        ExecCoincide(n - 1, next(Get(d, k)), d, e, keys);
      case Write(k, v, _, rest) => ExecCoincide(n - 1, rest, d[k := v], e[k := v], keys);
      case _ =>
    }
  }

  /** Entries never disappear, and new ones are for keys accessed. */
  lemma {:induction false} ExecEntries(n: nat, p: Prog, d: Store)
    ensures d.Keys <= Exec(n, p, d).store.Keys <= d.Keys + Keys(n, p, d)
    decreases n
  {
    if n > 0 {
      match p
      case Read(k, _, next) => ExecEntries(n - 1, next(Get(d, k)), d);
      case Write(k, v, _, rest) => ExecEntries(n - 1, rest, d[k := v]);
      case _ =>
    }
  }

  /** The keys straight execution from `d` writes. */
  function Written(n: nat, p: Prog, d: Store): set<Key>
    decreases n
  {
    if n == 0 then {}
    else
      match p
      case Read(k, _, next) => Written(n - 1, next(Get(d, k)), d)
      case Write(k, v, _, rest) => {k} + Written(n - 1, rest, d[k := v])
      case _ => {}
  }

  /** New entries are exactly for the keys written. */
  lemma {:induction false} ExecWritten(n: nat, p: Prog, d: Store)
    ensures Exec(n, p, d).store.Keys == d.Keys + Written(n, p, d)
    decreases n
  {
    if n > 0 {
      match p
      case Read(k, _, next) => ExecWritten(n - 1, next(Get(d, k)), d);
      case Write(k, v, _, rest) => ExecWritten(n - 1, rest, d[k := v]);
      case _ =>
    }
  }

  lemma SameStored(d: Store, e: Store, k: Key, v: Value)
    requires Same(d, e)
    ensures Same(d[k := v], e[k := v])
  {
    var d1, e1 := d[k := v], e[k := v];
    forall x ensures Get(d1, x) == Get(e1, x) {
      if x == k {
        assert d1[x] == v && e1[x] == v;
      } else {
        assert Get(d, x) == Get(e, x);
      }
    }
  }

  /** What is written depends on values only, not on which default values have an entry. */
  lemma {:induction false} WrittenSame(n: nat, p: Prog, d: Store, e: Store)
    requires Same(d, e)
    ensures Written(n, p, d) == Written(n, p, e)
    decreases n
  {
    if n > 0 {
      match p
      case Read(k, _, next) => WrittenSame(n - 1, next(Get(d, k)), d, e);
      case Write(k, v, _, rest) =>
        SameStored(d, e, k, v);
        WrittenSame(n - 1, rest, d[k := v], e[k := v]);
      case _ =>
    }
  }

  // ---------------------------------------------------------------------------
  // Runs of several transactions, one after the other.

  /** The signed part of a transaction: it never changes on the way through the system. */
  datatype Body = Body(id: nat, call: Call)

  /** The store after executing the transactions in order. */
  function Run(d: Store, txs: seq<Body>): Store {
    if txs == [] then d else ExecCall(txs[|txs| - 1].call, Run(d, txs[..|txs| - 1])).store
  }

  lemma {:induction false} RunGrows(d: Store, txs: seq<Body>)
    ensures d.Keys <= Run(d, txs).Keys
  {
    if txs != [] {
      var init, b := txs[..|txs| - 1], txs[|txs| - 1];
      RunGrows(d, init);
      ExecEntries(b.call.steps, b.call.body, Run(d, init));
    }
  }

  /** Executed in order from `d`, the transactions access only `keys`. */
  ghost predicate Confined(txs: seq<Body>, d: Store, keys: set<Key>) {
    txs == [] ||
    (Confined(txs[..|txs| - 1], d, keys) &&
     CallKeys(txs[|txs| - 1].call, Run(d, txs[..|txs| - 1])) <= keys)
  }

  lemma RunSnoc(d: Store, txs: seq<Body>, t: Body)
    ensures Run(d, txs + [t]) == ExecCall(t.call, Run(d, txs)).store
  {
    assert (txs + [t])[..|txs|] == txs;
  }

  lemma ConfinedSnoc(txs: seq<Body>, t: Body, d: Store, keys: set<Key>)
    ensures Confined(txs + [t], d, keys) <==>
            Confined(txs, d, keys) && CallKeys(t.call, Run(d, txs)) <= keys
  {
    assert (txs + [t])[..|txs|] == txs;
  }

  lemma {:induction false} RunConcat(d: Store, xs: seq<Body>, ys: seq<Body>)
    ensures Run(d, xs + ys) == Run(Run(d, xs), ys)
  {
    if ys == [] {
      assert xs + ys == xs;
    } else {
      var init := ys[..|ys| - 1];
      assert xs + ys == (xs + init) + [ys[|ys| - 1]];
      assert ys == init + [ys[|ys| - 1]];
      RunSnoc(d, xs + init, ys[|ys| - 1]);
      RunConcat(d, xs, init);
    }
  }

  lemma {:induction false} ConfinedMonotone(txs: seq<Body>, d: Store, keys: set<Key>, more: set<Key>)
    requires Confined(txs, d, keys) && keys <= more
    ensures Confined(txs, d, more)
  {
    if txs != [] {
      ConfinedMonotone(txs[..|txs| - 1], d, keys, more);
    }
  }

  lemma {:induction false} RunFrame(txs: seq<Body>, d: Store, keys: set<Key>, k: Key)
    requires Confined(txs, d, keys) && k !in keys
    ensures Get(Run(d, txs), k) == Get(d, k)
  {
    if txs != [] {
      RunFrame(txs[..|txs| - 1], d, keys, k);
      var c := txs[|txs| - 1].call;
      ExecFrame(c.steps, c.body, Run(d, txs[..|txs| - 1]), k);
    }
  }

  // ---------------------------------------------------------------------------
  // Panics.

  /** From a store satisfying `inv` no transaction of `txs` panics, and each re-establishes `inv`. */
  ghost predicate Preserves(inv: Store -> bool, c: Call) {
    forall d {:trigger ExecCall(c, d)} :: inv(d) ==> ExecCall(c, d).outcome != Panicked && inv(ExecCall(c, d).store)
  }

  lemma {:induction false} RunPreserves(inv: Store -> bool, d: Store, txs: seq<Body>)
    requires inv(d) && forall t :: t in txs ==> Preserves(inv, t.call)
    ensures inv(Run(d, txs))
  {
    if txs != [] {
      RunPreserves(inv, d, txs[..|txs| - 1]);
    }
  }
}
