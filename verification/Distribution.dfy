// Distributing a pool over the workers: whole components, largest first, each to the worker
// with the least so far.
module Distribution {
  import opened Storage
  import opened Program
  import opened Transactions
  import opened Components
  import opened Traversal

  // ---------------------------------------------------------------------------
  // The greedy loop.

  /** The last of the largest parts. */
  function Largest(parts: seq<seq<nat>>): (r: nat)
    requires parts != []
    ensures r < |parts|
    ensures forall c :: 0 <= c < |parts| ==> |parts[c]| <= |parts[r]|
    ensures forall c :: r < c < |parts| ==> |parts[c]| < |parts[r]|
  {
    if |parts| == 1 then 0
    else
      var m := Largest(parts[..|parts| - 1]);
      assert forall c :: 0 <= c < |parts| - 1 ==> parts[c] == parts[..|parts| - 1][c];
      if |parts[m]| <= |parts[|parts| - 1]| then |parts| - 1 else m
  }

  function Sizes(parts: seq<seq<nat>>): (r: seq<nat>)
    ensures |r| == |parts| && forall c :: 0 <= c < |r| ==> r[c] == |parts[c]|
  {
    seq(|parts|, c requires 0 <= c < |parts| => |parts[c]|)
  }

  /** The first of the smallest. */
  function Least(loads: seq<nat>): (r: nat)
    requires loads != []
    ensures r < |loads|
    ensures forall w :: 0 <= w < |loads| ==> loads[r] <= loads[w]
    ensures forall w :: 0 <= w < r ==> loads[r] < loads[w]
  {
    if |loads| == 1 then 0
    else
      var m := Least(loads[..|loads| - 1]);
      assert forall w :: 0 <= w < |loads| - 1 ==> loads[w] == loads[..|loads| - 1][w];
      if loads[|loads| - 1] < loads[m] then |loads| - 1 else m
  }

  /** The first of the least loaded workers. */
  function Lightest(buckets: seq<seq<nat>>): (r: nat)
    requires buckets != []
    ensures r < |buckets|
    ensures forall w :: 0 <= w < |buckets| ==> |buckets[r]| <= |buckets[w]|
    ensures forall w :: 0 <= w < r ==> |buckets[r]| < |buckets[w]|
  {
    Least(Sizes(buckets))
  }

  function Greedy(parts: seq<seq<nat>>, buckets: seq<seq<nat>>): seq<seq<nat>>
    requires buckets != []
    decreases |parts|
  {
    if parts == [] then buckets
    else
      var i, w := Largest(parts), Lightest(buckets);
      Greedy(Without(parts, i), buckets[w := buckets[w] + parts[i]])
  }

  method FindLargest(parts: seq<seq<nat>>) returns (r: nat)
    requires parts != []
    ensures r == Largest(parts)
  {
    r := 0;
    var c := 1;
    while c < |parts|
      invariant 1 <= c <= |parts| && r == Largest(parts[..c])
    {
      assert parts[..c + 1][..c] == parts[..c];
      if |parts[r]| <= |parts[c]| {
        r := c;
      }
      c := c + 1;
    }
    assert parts[..c] == parts;
  }

  method FindLightest(buckets: seq<seq<nat>>) returns (r: nat)
    requires buckets != []
    ensures r == Lightest(buckets)
  {
    r := 0;
    var w := 1;
    while w < |buckets|
      invariant 1 <= w <= |buckets| && r == Lightest(buckets[..w])
    {
      assert Sizes(buckets[..w + 1])[..w] == Sizes(buckets[..w]);
      if |buckets[w]| < |buckets[r]| {
        r := w;
      }
      w := w + 1;
    }
    assert buckets[..w] == buckets;
  }

  /** There must be a component to begin with. */
  method AssignComponents(parts: seq<seq<nat>>, workers: nat) returns (buckets: seq<seq<nat>>)
    requires parts != [] && workers > 0
    ensures |buckets| == workers && buckets == Greedy(parts, seq(workers, _ => []))
  {
    hide Greedy;
    buckets := seq(workers, _ => []);
    var components := parts;
    while true
      invariant components != [] && |buckets| == workers
      invariant Greedy(components, buckets) == Greedy(parts, seq(workers, _ => []))
      decreases |components|
    {
      var index := FindLargest(components);
      var w := FindLightest(buckets);
      GreedyStep(components, buckets);
      buckets := buckets[w := buckets[w] + components[index]];
      components := Without(components, index);
      if |components| == 0 {
        break;
      }
    }
    GreedyEnds(buckets);
  }

  lemma GreedyStep(parts: seq<seq<nat>>, buckets: seq<seq<nat>>)
    requires parts != [] && buckets != []
    ensures var i, w := Largest(parts), Lightest(buckets);
            Greedy(parts, buckets) == Greedy(Without(parts, i), buckets[w := buckets[w] + parts[i]])
  {
  }

  lemma GreedyEnds(buckets: seq<seq<nat>>)
    requires buckets != []
    ensures Greedy([], buckets) == buckets
  {
  }

  // ---------------------------------------------------------------------------
  // Where everything goes.

  /** The buckets hold what they held, and every part whole in one of them. */
  ghost predicate Placed(parts: seq<seq<nat>>, before: seq<seq<nat>>, buckets: seq<seq<nat>>) {
    && |buckets| == |before|
    && (forall c :: 0 <= c < |parts| ==> PlacedWhole(parts[c], buckets))
    && (forall w :: 0 <= w < |before| ==> Extends(before[w], buckets[w]))
    && (forall w, i: nat :: 0 <= w < |buckets| && i in buckets[w] ==> i in before[w] || Covered(parts, i))
  }

  ghost predicate Extends(xs: seq<nat>, ys: seq<nat>) {
    forall i: nat :: i in xs ==> i in ys
  }

  ghost predicate PlacedWhole(part: seq<nat>, buckets: seq<seq<nat>>) {
    exists w :: 0 <= w < |buckets| && Extends(part, buckets[w])
  }

  /** No transaction is in two places, or twice in one. */
  ghost predicate OnceEach(parts: seq<seq<nat>>, buckets: seq<seq<nat>>) {
    && (forall c, x, y :: 0 <= c < |parts| && 0 <= x < y < |parts[c]| ==> parts[c][x] != parts[c][y])
    && (forall c, e, i :: 0 <= c < e < |parts| && i in parts[c] ==> i !in parts[e])
    && (forall w, x, y :: 0 <= w < |buckets| && 0 <= x < y < |buckets[w]| ==> buckets[w][x] != buckets[w][y])
    && (forall w, v, i :: 0 <= w < v < |buckets| && i in buckets[w] ==> i !in buckets[v])
    && (forall w, c, i :: 0 <= w < |buckets| && 0 <= c < |parts| && i in buckets[w] ==> i !in parts[c])
  }

  lemma WithoutParts(parts: seq<seq<nat>>, p: nat)
    requires p < |parts|
    ensures forall c :: 0 <= c < |Without(parts, p)| ==> Without(parts, p)[c] == parts[if c < p then c else c + 1]
  {
  }

  lemma OnceStep(parts: seq<seq<nat>>, buckets: seq<seq<nat>>, p: nat, w: nat)
    requires OnceEach(parts, buckets) && p < |parts| && w < |buckets|
    ensures OnceEach(Without(parts, p), buckets[w := buckets[w] + parts[p]])
  {
    WithoutParts(parts, p);
    var parts', buckets' := Without(parts, p), buckets[w := buckets[w] + parts[p]];
    forall x, y | 0 <= x < y < |buckets'[w]| ensures buckets'[w][x] != buckets'[w][y] {
      if x < |buckets[w]| <= y {
        assert buckets'[w][x] in buckets[w] && buckets'[w][y] in parts[p];
      }
    }
    forall v, u, i | 0 <= v < u < |buckets'| && i in buckets'[v] ensures i !in buckets'[u] {
    }
    forall v, c, i | 0 <= v < |buckets'| && 0 <= c < |parts'| && i in buckets'[v] ensures i !in parts'[c] {
      var e := if c < p then c else c + 1;
      if i in parts[p] && e < p && i in parts[e] {
        assert false;
      }
    }
  }

  lemma PlacedStep(parts: seq<seq<nat>>, before: seq<seq<nat>>, p: nat, w: nat, buckets: seq<seq<nat>>)
    requires p < |parts| && w < |before| && Placed(Without(parts, p), before[w := before[w] + parts[p]], buckets)
    ensures Placed(parts, before, buckets)
  {
    hide PlacedWhole;
    WithoutParts(parts, p);
    var mid := before[w := before[w] + parts[p]];
    forall c | 0 <= c < |parts| ensures PlacedWhole(parts[c], buckets) {
      if c == p {
        assert Extends(mid[w], buckets[w]);
        WholeIn(parts[p], buckets, w);
      } else {
        assert Without(parts, p)[if c < p then c else c - 1] == parts[c];
      }
    }
    forall v | 0 <= v < |before| ensures Extends(before[v], buckets[v]) {
      assert Extends(mid[v], buckets[v]);
    }
    forall v, i: nat | 0 <= v < |buckets| && i in buckets[v] ensures i in before[v] || Covered(parts, i) {
      if i !in mid[v] {
        assert Covered(Without(parts, p), i);
        var c :| 0 <= c < |Without(parts, p)| && i in Without(parts, p)[c];
        assert i in parts[if c < p then c else c + 1];
      } else if i !in before[v] {
        assert i in parts[p];
      }
    }
  }

  lemma WholeIn(part: seq<nat>, buckets: seq<seq<nat>>, w: nat)
    requires w < |buckets| && Extends(part, buckets[w])
    ensures PlacedWhole(part, buckets)
  {
  }

  lemma {:induction false} GreedyPlaces(parts: seq<seq<nat>>, buckets: seq<seq<nat>>)
    requires buckets != [] && OnceEach(parts, buckets)
    ensures Placed(parts, buckets, Greedy(parts, buckets)) && OnceEach([], Greedy(parts, buckets))
    decreases |parts|
  {
    hide OnceEach, Placed;
    if parts == [] {
      NothingToPlace(buckets);
      OnceAlready(parts, buckets);
    } else {
      var p, w := Largest(parts), Lightest(buckets);
      OnceStep(parts, buckets, p, w);
      GreedyPlaces(Without(parts, p), buckets[w := buckets[w] + parts[p]]);
      PlacedStep(parts, buckets, p, w, Greedy(parts, buckets));
    }
  }

  lemma NothingToPlace(buckets: seq<seq<nat>>)
    ensures Placed([], buckets, buckets)
  {
  }

  lemma OnceAlready(parts: seq<seq<nat>>, buckets: seq<seq<nat>>)
    requires OnceEach(parts, buckets) && parts == []
    ensures OnceEach([], buckets)
  {
  }

  // ---------------------------------------------------------------------------
  // Tagging.

  ghost predicate GoodBuckets(n: nat, buckets: seq<seq<nat>>) {
    && (forall w :: 0 <= w < |buckets| ==> Within(buckets[w], n))
    && (forall w, v, i :: 0 <= w < v < |buckets| && i in buckets[w] ==> i !in buckets[v])
    && (forall i: nat :: i < n ==> Covered(buckets, i))
  }

  /** Transaction `i` is tagged for a worker in whose bucket it is. */
  ghost predicate TaggedAs(pool: seq<Transaction>, pool': seq<Transaction>, buckets: seq<seq<nat>>, i: nat)
    requires |pool'| == |pool|
  {
    i < |pool| && pool'[i].tag.DoneBy? && pool'[i] == pool[i].(tag := pool'[i].tag) &&
    pool'[i].tag.worker < |buckets| && i in buckets[pool'[i].tag.worker]
  }

  /** Every transaction is tagged for the worker in whose bucket it is. */
  ghost predicate TaggedPer(pool: seq<Transaction>, pool': seq<Transaction>, buckets: seq<seq<nat>>) {
    |pool'| == |pool| && forall i: nat :: i < |pool| ==> TaggedAs(pool, pool', buckets, i)
  }

  /** `get_mut` finds a transaction by its id; ids being unique, it is the one the node stands for. */
  lemma FoundById(pool: seq<Transaction>, pool': seq<Transaction>, i: nat)
    requires Unique(pool) && |pool'| == |pool| && i < |pool|
    requires forall j :: 0 <= j < |pool| ==> pool'[j].body == pool[j].body
    ensures Position(pool', pool[i].body.id) == i
  {
    assert Contains(pool', pool[i].body.id) by { assert pool'[i].body.id == pool[i].body.id; }
    var p := Position(pool', pool[i].body.id);
    assert pool[p].body.id == pool[i].body.id;
  }

  method TagAll(pool: seq<Transaction>, buckets: seq<seq<nat>>) returns (tagged: seq<Transaction>)
    requires Unique(pool) && GoodBuckets(|pool|, buckets)
    ensures TaggedPer(pool, tagged, buckets)
  {
    hide Unique, Covered, Position;
    tagged := pool;
    var w := 0;
    while w < |buckets|
      invariant w <= |buckets| && |tagged| == |pool|
      invariant forall j :: 0 <= j < |pool| ==> tagged[j] == pool[j].(tag := tagged[j].tag)
      invariant forall v, i :: 0 <= v < w && i in buckets[v] ==> tagged[i].tag == DoneBy(v)
    {
      assert Within(buckets[w], |pool|);
      var x := 0;
      while x < |buckets[w]|
        invariant x <= |buckets[w]| && |tagged| == |pool|
        invariant forall j :: 0 <= j < |pool| ==> tagged[j] == pool[j].(tag := tagged[j].tag)
        invariant forall v, i :: 0 <= v < w && i in buckets[v] ==> tagged[i].tag == DoneBy(v)
        invariant forall y :: 0 <= y < x ==> tagged[buckets[w][y]].tag == DoneBy(w)
      {
        var node := buckets[w][x];
        assert node in buckets[w];
        FoundById(pool, tagged, node);
        var at := Position(tagged, pool[node].body.id);
        tagged := tagged[at := tagged[at].(tag := DoneBy(w))];
        x := x + 1;
      }
      forall v, i | 0 <= v < w + 1 && i in buckets[v] ensures tagged[i].tag == DoneBy(v) {
        if v == w {
          var y :| 0 <= y < |buckets[w]| && buckets[w][y] == i;
        }
      }
      w := w + 1;
    }
    forall i: nat | i < |pool| ensures TaggedAs(pool, tagged, buckets, i) {
      CoveredBy(buckets, i);
    }
  }

  lemma CoveredBy(buckets: seq<seq<nat>>, i: nat)
    requires Covered(buckets, i)
    ensures exists w :: 0 <= w < |buckets| && i in buckets[w]
  {
  }

  // ---------------------------------------------------------------------------
  // The distributer.

  /** The same pool in the same order, each transaction tagged for a worker that exists. */
  ghost predicate Retagged(pool: seq<Transaction>, tagged: seq<Transaction>, workers: nat) {
    |tagged| == |pool| &&
    forall i :: 0 <= i < |pool| ==>
      tagged[i].tag.DoneBy? && tagged[i].tag.worker < workers && tagged[i] == pool[i].(tag := tagged[i].tag)
  }

  lemma NoBuckets(pool: seq<Transaction>, parts: seq<seq<nat>>, workers: nat)
    requires Partition(pool, parts)
    ensures OnceEach(parts, seq(workers, _ => []))
  {
  }

  /** Components placed whole cover the pool and keep connected transactions together. */
  lemma PlacedGood(pool: seq<Transaction>, parts: seq<seq<nat>>, before: seq<seq<nat>>, buckets: seq<seq<nat>>)
    requires Partition(pool, parts) && Placed(parts, before, buckets) && OnceEach([], buckets)
    requires forall w :: 0 <= w < |before| ==> before[w] == []
    ensures GoodBuckets(|pool|, buckets)
    ensures forall i: nat, j: nat, w :: Connected(pool, i, j) && 0 <= w < |buckets| && i in buckets[w] ==> j in buckets[w]
  {
    hide Connected;
    forall i: nat | i < |pool| ensures Covered(buckets, i) {
      assert Covered(parts, i);
      var c :| 0 <= c < |parts| && i in parts[c];
      assert PlacedWhole(parts[c], buckets);
    }
    forall w | 0 <= w < |buckets| ensures Within(buckets[w], |pool|) {
      forall x | 0 <= x < |buckets[w]| ensures buckets[w][x] < |pool| {
        PartOf(pool, parts, before, buckets, w, buckets[w][x]);
      }
    }
    forall i: nat, j: nat, w | Connected(pool, i, j) && 0 <= w < |buckets| && i in buckets[w] ensures j in buckets[w] {
      PartOf(pool, parts, before, buckets, w, i);
      var c :| 0 <= c < |parts| && i in parts[c];
      ConnectedSwap(pool, i, j);
      assert IsClass(pool, parts[c]) && j in parts[c];
      assert PlacedWhole(parts[c], buckets);
      var v :| 0 <= v < |buckets| && Extends(parts[c], buckets[v]);
      assert i in buckets[v] && j in buckets[v];
    }
  }

  lemma PartOf(pool: seq<Transaction>, parts: seq<seq<nat>>, before: seq<seq<nat>>, buckets: seq<seq<nat>>, w: nat, i: nat)
    requires Partition(pool, parts) && Placed(parts, before, buckets) && w < |buckets| && i in buckets[w]
    requires forall v :: 0 <= v < |before| ==> before[v] == []
    ensures i < |pool| && Covered(parts, i)
  {
    hide Connected;
    assert Covered(parts, i);
    var c :| 0 <= c < |parts| && i in parts[c];
    assert IsClass(pool, parts[c]);
    var x :| 0 <= x < |parts[c]| && parts[c][x] == i;
  }

  /** Connected transactions have the same tag. */
  ghost predicate Together(pool: seq<Transaction>, tagged: seq<Transaction>)
    requires |tagged| == |pool|
  {
    forall i: nat, j: nat :: i < |pool| && j < |pool| && Connected(pool, i, j) ==> tagged[i].tag == tagged[j].tag
  }

  /** The pool must not be empty, and there must be a worker. */
  method Distribute(pool: seq<Transaction>, workers: nat) returns (tagged: seq<Transaction>, ghost parts: seq<seq<nat>>)
    requires Unique(pool) && pool != [] && workers > 0
    ensures Retagged(pool, tagged, workers) && Together(pool, tagged)
    ensures Partition(pool, parts)
    ensures var buckets := Greedy(parts, seq(workers, _ => []));
            TaggedPer(pool, tagged, buckets) && GoodBuckets(|pool|, buckets) && OnceEach([], buckets)
  {
    hide Partition, Greedy, Connected, OnceEach, Placed, GoodBuckets, Unique;
    var components := FindComponents(pool);
    SomeComponent(pool, components);
    var buckets := AssignComponents(components, workers);
    NoBuckets(pool, components, workers);
    GreedyPlaces(components, seq(workers, _ => []));
    PlacedGood(pool, components, seq(workers, _ => []), buckets);
    tagged := TagAll(pool, buckets);
    parts := components;
    forall i: nat, j: nat | i < |pool| && j < |pool| && Connected(pool, i, j) ensures tagged[i].tag == tagged[j].tag {
      assert TaggedAs(pool, tagged, buckets, i) && TaggedAs(pool, tagged, buckets, j);
      OneBucket(|pool|, buckets, j, tagged[i].tag.worker, tagged[j].tag.worker);
    }
    forall i | 0 <= i < |pool|
      ensures tagged[i].tag.DoneBy? && tagged[i].tag.worker < workers && tagged[i] == pool[i].(tag := tagged[i].tag)
    {
      assert TaggedAs(pool, tagged, buckets, i);
    }
  }

  lemma SomeComponent(pool: seq<Transaction>, parts: seq<seq<nat>>)
    requires Partition(pool, parts) && pool != []
    ensures parts != []
  {
    assert Covered(parts, 0);
  }

  lemma OneBucket(n: nat, buckets: seq<seq<nat>>, j: nat, w: nat, v: nat)
    requires GoodBuckets(n, buckets) && w < |buckets| && v < |buckets| && j in buckets[w] && j in buckets[v]
    ensures w == v
  {
  }

  /** The naive distributer: the workers in turn. */
  method RoundRobin(pool: seq<Transaction>, workers: nat) returns (tagged: seq<Transaction>)
    requires workers > 0
    ensures Retagged(pool, tagged, workers)
    ensures forall i :: 0 <= i < |pool| ==> tagged[i].tag == DoneBy(i % workers)
  {
    tagged := pool;
    var idx := 0;
    while idx < |pool|
      invariant idx <= |pool| == |tagged|
      invariant forall i :: 0 <= i < idx ==> tagged[i] == pool[i].(tag := DoneBy(i % workers))
      invariant forall i :: idx <= i < |pool| ==> tagged[i] == pool[i]
    {
      tagged := tagged[idx := tagged[idx].(tag := DoneBy(idx % workers))];
      idx := idx + 1;
    }
  }
}
