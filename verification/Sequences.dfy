// Sequences of transactions filtered by what has become of them.
module Sequences {
  import opened Storage
  import opened Transactions
  import opened Protocol

  /** Every transaction of `txs` has a recorded fate. */
  ghost predicate Known(txs: seq<Transaction>, fates: map<nat, Fate>) {
    forall t :: t in txs ==> t.body.id in fates
  }

  /** The transactions whose fate satisfies `p`, in order. */
  function Keep(txs: seq<Transaction>, fates: map<nat, Fate>, p: Fate -> bool): (r: seq<Transaction>)
    ensures forall t :: t in r ==> t in txs
    ensures |r| <= |txs|
  {
    if txs == [] then []
    else
      var t := txs[|txs| - 1];
      var init := Keep(txs[..|txs| - 1], fates, p);
      if t.body.id in fates && p(fates[t.body.id]) then init + [t] else init
  }

  lemma InKeep(txs: seq<Transaction>, fates: map<nat, Fate>, p: Fate -> bool, t: Transaction)
    ensures t in Keep(txs, fates, p) <==> t in txs && t.body.id in fates && p(fates[t.body.id])
  {
    if txs != [] {
      InKeep(txs[..|txs| - 1], fates, p, t);
    }
  }

  /** Two records that answer `p` alike keep the same transactions. */
  lemma {:induction false} KeepSame(txs: seq<Transaction>, f: map<nat, Fate>, g: map<nat, Fate>, p: Fate -> bool)
    requires forall t :: t in txs ==> (t.body.id in f && p(f[t.body.id]) <==> t.body.id in g && p(g[t.body.id]))
    ensures Keep(txs, f, p) == Keep(txs, g, p)
  {
    if txs != [] {
      assert txs[|txs| - 1] in txs;
      KeepSame(txs[..|txs| - 1], f, g, p);
    }
  }

  lemma KeepSnoc(txs: seq<Transaction>, t: Transaction, fates: map<nat, Fate>, p: Fate -> bool)
    ensures Keep(txs + [t], fates, p) ==
            if t.body.id in fates && p(fates[t.body.id]) then Keep(txs, fates, p) + [t] else Keep(txs, fates, p)
  {
    assert (txs + [t])[..|txs|] == txs;
  }

  lemma UniquePrefix(txs: seq<Transaction>)
    requires Unique(txs) && txs != []
    ensures Unique(txs[..|txs| - 1])
    ensures forall t :: t in txs[..|txs| - 1] ==> t.body.id != txs[|txs| - 1].body.id
  {
  }

  /** A transaction that `p` now holds for adds one to those kept. */
  lemma {:induction false} KeepGrows(txs: seq<Transaction>, fates: map<nat, Fate>, p: Fate -> bool, t: Transaction, f: Fate)
    requires Unique(txs) && t in txs && t.body.id in fates && !p(fates[t.body.id]) && p(f)
    ensures |Keep(txs, fates[t.body.id := f], p)| == |Keep(txs, fates, p)| + 1
  {
    UniquePrefix(txs);
    var last := txs[|txs| - 1];
    if last == t {
      KeepSame(txs[..|txs| - 1], fates, fates[t.body.id := f], p);
    } else {
      KeepGrows(txs[..|txs| - 1], fates, p, t, f);
    }
  }

  /** A transaction that `p` no longer holds for is taken out, the others staying in order. */
  lemma {:induction false} KeepShrinks(txs: seq<Transaction>, fates: map<nat, Fate>, p: Fate -> bool, t: Transaction, f: Fate)
    requires Unique(txs) && t in txs && t.body.id in fates && p(fates[t.body.id]) && !p(f)
    ensures var kept := Keep(txs, fates, p);
            var i := Position(kept, t.body.id);
            i < |kept| && kept[i] == t && Keep(txs, fates[t.body.id := f], p) == Without(kept, i)
  {
    hide Unique, Contains, Position;
    UniquePrefix(txs);
    var init, last := txs[..|txs| - 1], txs[|txs| - 1];
    var fates' := fates[t.body.id := f];
    if last == t {
      KeepSame(init, fates, fates', p);
      KeepUnique(txs, fates, p);
      PositionAt(Keep(txs, fates, p), |Keep(init, fates, p)|);
    } else {
      assert t in init;
      KeepShrinks(init, fates, p, t, f);
      var before := Keep(init, fates, p);
      if last.body.id in fates && p(fates[last.body.id]) {
        PositionPrefix(before, [last], t.body.id);
        assert Without(before + [last], Position(before, t.body.id)) == Without(before, Position(before, t.body.id)) + [last];
      }
    }
  }

  lemma PositionAt(txs: seq<Transaction>, i: nat)
    requires Unique(txs) && i < |txs|
    ensures Position(txs, txs[i].body.id) == i
  {
    assert Contains(txs, txs[i].body.id);
  }

  lemma PositionPrefix(xs: seq<Transaction>, ys: seq<Transaction>, id: nat)
    requires Contains(xs, id)
    ensures Position(xs + ys, id) == Position(xs, id)
  {
    var i := Position(xs, id);
    assert (xs + ys)[i].body.id == id;
    assert forall j :: 0 <= j < i ==> (xs + ys)[j].body.id != id;
  }

  lemma {:induction false} KeepUnique(txs: seq<Transaction>, fates: map<nat, Fate>, p: Fate -> bool)
    requires Unique(txs)
    ensures Unique(Keep(txs, fates, p))
  {
    if txs != [] {
      UniquePrefix(txs);
      KeepUnique(txs[..|txs| - 1], fates, p);
      var kept, last := Keep(txs[..|txs| - 1], fates, p), txs[|txs| - 1];
      forall i | 0 <= i < |kept| ensures kept[i].body.id != last.body.id {
        assert kept[i] in txs[..|txs| - 1];
      }
    }
  }

  /** If `p` implies `q` and as many transactions satisfy one as the other, then they are the same. */
  lemma {:induction false} KeepCount(txs: seq<Transaction>, fates: map<nat, Fate>, p: Fate -> bool, q: Fate -> bool)
    requires Known(txs, fates) && forall f :: p(f) ==> q(f)
    ensures |Keep(txs, fates, p)| <= |Keep(txs, fates, q)|
    ensures |Keep(txs, fates, p)| == |Keep(txs, fates, q)| ==>
            forall t :: t in txs && q(fates[t.body.id]) ==> p(fates[t.body.id])
  {
    if txs != [] {
      KeepCount(txs[..|txs| - 1], fates, p, q);
      forall t | t in txs ensures t in txs[..|txs| - 1] || t == txs[|txs| - 1] {}
    }
  }

  lemma {:induction false} TaggedKeep(txs: seq<Transaction>, fates: map<nat, Fate>, p: Fate -> bool, w: ThreadId)
    ensures TaggedFor(Keep(txs, fates, p), w) == Keep(TaggedFor(txs, w), fates, p)
  {
    if txs != [] {
      var init, t := txs[..|txs| - 1], txs[|txs| - 1];
      TaggedKeep(init, fates, p, w);
      if t.body.id in fates && p(fates[t.body.id]) {
        TaggedSnoc(Keep(init, fates, p), t, w);
      }
      if t.tag == DoneBy(w) {
        KeepSnoc(TaggedFor(init, w), t, fates, p);
      }
    }
  }

  lemma TaggedSnoc(txs: seq<Transaction>, t: Transaction, w: ThreadId)
    ensures TaggedFor(txs + [t], w) == if t.tag == DoneBy(w) then TaggedFor(txs, w) + [t] else TaggedFor(txs, w)
  {
    assert (txs + [t])[..|txs|] == txs;
  }

  lemma {:induction false} TaggedConcat(xs: seq<Transaction>, ys: seq<Transaction>, w: ThreadId)
    ensures TaggedFor(xs + ys, w) == TaggedFor(xs, w) + TaggedFor(ys, w)
  {
    if ys == [] {
      assert xs + ys == xs;
    } else {
      assert xs + ys == (xs + ys[..|ys| - 1]) + [ys[|ys| - 1]];
      TaggedSnoc(xs + ys[..|ys| - 1], ys[|ys| - 1], w);
      TaggedConcat(xs, ys[..|ys| - 1], w);
    }
  }

  lemma {:induction false} TaggedComplete(txs: seq<Transaction>, w: ThreadId, t: Transaction)
    requires t in txs && t.tag == DoneBy(w)
    ensures t in TaggedFor(txs, w)
  {
    if txs[|txs| - 1] != t {
      TaggedComplete(txs[..|txs| - 1], w, t);
    }
  }

  lemma {:induction false} TaggedUnique(txs: seq<Transaction>, w: ThreadId)
    requires Unique(txs)
    ensures Unique(TaggedFor(txs, w))
  {
    if txs != [] {
      UniquePrefix(txs);
      TaggedUnique(txs[..|txs| - 1], w);
      var init := TaggedFor(txs[..|txs| - 1], w);
      forall i | 0 <= i < |init| ensures init[i].body.id != txs[|txs| - 1].body.id {
        assert init[i] in txs[..|txs| - 1];
      }
    }
  }

  /** Equal ids mean the same transaction. */
  lemma SameId(txs: seq<Transaction>, t: Transaction, u: Transaction)
    requires Unique(txs) && t in txs && u in txs && t.body.id == u.body.id
    ensures t == u
  {
    var i :| 0 <= i < |txs| && txs[i] == t;
    var j :| 0 <= j < |txs| && txs[j] == u;
  }
}
