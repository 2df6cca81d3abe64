// Transactions, their tags, and the ordered pool as a sequence.
module Transactions {
  import opened Storage
  import opened Program

  datatype ExecutionTag = DoneBy(worker: ThreadId) | OrphanTag | NotExecuted

  datatype ExecutionStatus = Initial | Forwarded

  datatype Transaction = Transaction(body: Body, tag: ExecutionTag, status: ExecutionStatus)

  function Ids(txs: seq<Transaction>): (r: seq<nat>)
    ensures |r| == |txs| && forall i :: 0 <= i < |txs| ==> r[i] == txs[i].body.id
  {
    seq(|txs|, i requires 0 <= i < |txs| => txs[i].body.id)
  }

  function Bodies(txs: seq<Transaction>): (r: seq<Body>)
    ensures |r| == |txs| && forall i :: 0 <= i < |txs| ==> r[i] == txs[i].body
  {
    seq(|txs|, i requires 0 <= i < |txs| => txs[i].body)
  }

  /** Transaction ids are strictly unique. */
  ghost predicate Unique(txs: seq<Transaction>) {
    forall i, j :: 0 <= i < j < |txs| ==> txs[i].body.id != txs[j].body.id
  }

  predicate Contains(txs: seq<Transaction>, id: nat) {
    exists i :: 0 <= i < |txs| && txs[i].body.id == id
  }

  /** The index of the first transaction with this id; the length if there is none. */
  function Position(txs: seq<Transaction>, id: nat): (i: nat)
    ensures i <= |txs|
    ensures i < |txs| ==> txs[i].body.id == id
    ensures forall j :: 0 <= j < i ==> txs[j].body.id != id
    ensures i < |txs| <==> Contains(txs, id)
  {
    if txs == [] then 0 else if txs[0].body.id == id then 0 else
    assert Contains(txs[1..], id) ==> Contains(txs, id);
    assert forall j :: 1 <= j < |txs| ==> txs[j] == txs[1..][j - 1];
    1 + Position(txs[1..], id)
  }

  function Without<T>(xs: seq<T>, i: nat): seq<T>
    requires i < |xs|
  {
    xs[..i] + xs[i + 1..]
  }

  /** The transactions tagged as done by `w`, in order. */
  function TaggedFor(txs: seq<Transaction>, w: ThreadId): (r: seq<Transaction>)
    ensures forall t :: t in r ==> t in txs && t.tag == DoneBy(w)
  {
    if txs == [] then []
    else
      var init, t := TaggedFor(txs[..|txs| - 1], w), txs[|txs| - 1];
      if t.tag == DoneBy(w) then init + [t] else init
  }
}
