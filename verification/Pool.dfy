// The transaction pool: a vector searched from the front.
module Pool {
  import opened Storage
  import opened Transactions

  class VecPool {
    var inner: seq<Transaction>

    constructor ()
      ensures inner == []
    {
      inner := [];
    }

    method PushBack(tx: Transaction)
      modifies this
      ensures inner == old(inner) + [tx]
    {
      inner := inner + [tx];
    }

    method PushBatch(txs: seq<Transaction>)
      modifies this
      ensures inner == old(inner) + txs
    {
      var i := 0;
      while i < |txs|
        invariant i <= |txs| && inner == old(inner) + txs[..i]
      {
        assert txs[..i + 1] == txs[..i] + [txs[i]];
        PushBack(txs[i]);
        i := i + 1;
      }
      assert txs[..i] == txs;
    }

    method Insert(index: nat, tx: Transaction)
      requires index <= |inner|
      modifies this
      ensures inner == old(inner)[..index] + [tx] + old(inner)[index..]
      ensures Without(inner, index) == old(inner)
    {
      inner := inner[..index] + [tx] + inner[index..];
      assert Without(inner, index) == old(inner);
    }

    /** The first transaction that matches, and where it is. */
    method Get(search: Transaction -> bool) returns (r: Option<(nat, Transaction)>)
      ensures r.Some? ==>
                r.value.0 < |inner| && r.value.1 == inner[r.value.0] && search(inner[r.value.0]) &&
                forall j :: 0 <= j < r.value.0 ==> !search(inner[j])
      ensures r.None? ==> forall j :: 0 <= j < |inner| ==> !search(inner[j])
    {
      var i := 0;
      while i < |inner|
        invariant i <= |inner| && forall j :: 0 <= j < i ==> !search(inner[j])
      {
        if search(inner[i]) {
          return Some((i, inner[i]));
        }
        i := i + 1;
      }
      return None;
    }

    method RemoveAt(at: nat) returns (tx: Transaction)
      requires at < |inner|
      modifies this
      ensures tx == old(inner)[at] && inner == Without(old(inner), at)
      ensures multiset(inner) + multiset{tx} == multiset(old(inner))
    {
      tx := inner[at];
      assert inner == inner[..at] + [tx] + inner[at + 1..];
      inner := inner[..at] + inner[at + 1..];
    }

    /** Takes out the first transaction that matches; the others keep their order. */
    method Remove(search: Transaction -> bool) returns (r: Option<Transaction>)
      modifies this
      ensures r.None? ==> inner == old(inner) && forall j :: 0 <= j < |inner| ==> !search(inner[j])
      ensures r.Some? ==>
                exists at :: 0 <= at < |old(inner)| && FirstMatch(old(inner), search, at) &&
                             r.value == old(inner)[at] && inner == Without(old(inner), at)
    {
      var found := Get(search);
      match found {
        case Some((at, _)) =>
          assert FirstMatch(inner, search, at);
          var tx := RemoveAt(at);
          r := Some(tx);
        case None => r := None;
      }
    }

    method Clear()
      modifies this
      ensures inner == []
    {
      inner := [];
    }
  }

  ghost predicate FirstMatch(txs: seq<Transaction>, search: Transaction -> bool, at: nat) {
    at < |txs| && search(txs[at]) && forall j :: 0 <= j < at ==> !search(txs[j])
  }

  /** Searching by id finds the position of the id. */
  lemma MatchById(txs: seq<Transaction>, id: nat, at: nat)
    requires FirstMatch(txs, (t: Transaction) => t.body.id == id, at)
    ensures Position(txs, id) == at
  {
    assert Contains(txs, id) by { assert txs[at].body.id == id; }
    var search := (t: Transaction) => t.body.id == id;
    var p := Position(txs, id);
    assert search(txs[p]) && search(txs[at]);
  }

  lemma NoMatchById(txs: seq<Transaction>, id: nat)
    requires forall j :: 0 <= j < |txs| ==> txs[j].body.id != id
    ensures Position(txs, id) == |txs|
  {
  }
}
