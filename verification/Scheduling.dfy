// How evenly the greedy loop spreads the components: never more than 4/3 - 1/(3m) times the
// best that any assignment of whole components to m workers achieves.
module Scheduling {
  import opened Storage
  import opened Transactions
  import opened Sums
  import opened Traversal
  import opened Components
  import opened Distribution

  /** What each of `m` workers gets when value `i` goes to worker `to[i]`. */
  function Pour(values: seq<nat>, to: seq<nat>, m: nat): (r: seq<nat>)
    requires |values| == |to| && Within(to, m)
    ensures |r| == m
  {
    if values == [] then seq(m, _ => 0)
    else
      var n := |values| - 1;
      var r := Pour(values[..n], to[..n], m);
      r[to[n] := r[to[n]] + values[n]]
  }

  /** Where list scheduling sends each job: to the least loaded worker at that point. */
  function ListTo(sizes: seq<nat>, m: nat): (to: seq<nat>)
    requires m > 0
    ensures |to| == |sizes| && Within(to, m)
  {
    if sizes == [] then []
    else
      var n := |sizes| - 1;
      var to := ListTo(sizes[..n], m);
      to + [Least(Pour(sizes[..n], to, m))]
  }

  function ListLoads(sizes: seq<nat>, m: nat): (r: seq<nat>)
    requires m > 0
    ensures |r| == m
  {
    Pour(sizes, ListTo(sizes, m), m)
  }

  predicate Falling(sizes: seq<nat>) {
    forall i, j :: 0 <= i < j < |sizes| ==> sizes[j] <= sizes[i]
  }

  /** No worker has more than `bound`. */
  predicate AtMost(loads: seq<nat>, bound: nat) {
    forall w :: 0 <= w < |loads| ==> loads[w] <= bound
  }

  // ---------------------------------------------------------------------------
  // Sums.

  /** Nothing is lost in pouring. */
  lemma {:induction false} PourTotal(values: seq<nat>, to: seq<nat>, m: nat)
    requires |values| == |to| && Within(to, m)
    ensures Total(Pour(values, to, m)) == Total(values)
  {
    if values == [] {
      SumZero(seq(m, _ => 0));
    } else {
      var n := |values| - 1;
      PourTotal(values[..n], to[..n], m);
      var r := Pour(values[..n], to[..n], m);
      SumUpdate(r, to[n], r[to[n]] + values[n], Itself);
    }
  }

  lemma {:induction false} TotalAtMost(xs: seq<nat>, bound: nat)
    requires AtMost(xs, bound)
    ensures Total(xs) <= |xs| * bound
  {
    if xs != [] {
      TotalAtMost(xs[..|xs| - 1], bound);
      Distribute1(|xs| - 1, bound);
    }
  }

  lemma {:induction false} TotalAtLeast(xs: seq<nat>, bound: nat)
    requires forall w :: 0 <= w < |xs| ==> xs[w] >= bound
    ensures Total(xs) >= |xs| * bound
  {
    if xs != [] {
      TotalAtLeast(xs[..|xs| - 1], bound);
      Distribute1(|xs| - 1, bound);
    }
  }

  lemma Distribute1(n: nat, b: nat)
    ensures (n + 1) * b == n * b + b
  {
  }

  lemma {:induction false} TotalPrefix(xs: seq<nat>, n: nat)
    requires n <= |xs|
    ensures Total(xs[..n]) <= Total(xs)
    decreases |xs|
  {
    if n < |xs| {
      TotalPrefix(xs[..|xs| - 1], n);
      assert xs[..|xs| - 1][..n] == xs[..n];
    } else {
      assert xs[..n] == xs;
    }
  }

  /** Pouring fewer values leaves every worker with no more. */
  lemma {:induction false} PourPrefix(values: seq<nat>, to: seq<nat>, m: nat, n: nat)
    requires |values| == |to| && Within(to, m) && n <= |values|
    ensures forall w :: 0 <= w < m ==> Pour(values[..n], to[..n], m)[w] <= Pour(values, to, m)[w]
    decreases |values|
  {
    if n < |values| {
      var k := |values| - 1;
      PourPrefix(values[..k], to[..k], m, n);
      assert values[..k][..n] == values[..n] && to[..k][..n] == to[..n];
    } else {
      assert values[..n] == values && to[..n] == to;
    }
  }

  /** A worker has at least each value that went to it. */
  lemma {:induction false} PourHas(values: seq<nat>, to: seq<nat>, m: nat, i: nat)
    requires |values| == |to| && Within(to, m) && i < |values|
    ensures Pour(values, to, m)[to[i]] >= values[i]
  {
    PourPrefix(values, to, m, i + 1);
    assert values[..i + 1][..i] == values[..i] && to[..i + 1][..i] == to[..i];
  }

  // ---------------------------------------------------------------------------
  // What the last job adds.

  /** List scheduling, one job more: it goes to the least loaded. */
  lemma ListStep(init: seq<nat>, p: nat, m: nat)
    requires m > 0
    ensures var loads := ListLoads(init, m);
            ListLoads(init + [p], m) == loads[Least(loads) := loads[Least(loads)] + p]
    ensures ListTo(init + [p], m) == ListTo(init, m) + [Least(ListLoads(init, m))]
  {
    var sizes := init + [p];
    assert sizes[..|init|] == init;
    var to := ListTo(sizes, m);
    assert to[..|init|] == ListTo(init, m);
  }

  /** The least loaded has at most the average. */
  lemma LeastAverage(loads: seq<nat>)
    requires loads != []
    ensures |loads| * loads[Least(loads)] <= Total(loads)
  {
    TotalAtLeast(loads, loads[Least(loads)]);
  }

  /** Where a job of size `p` is put last, the load is at most the best plus (m - 1)/m of `p`. */
  lemma LastLoad(init: seq<nat>, p: nat, m: nat, alt: seq<nat>, best: nat)
    requires m > 0 && |alt| == |init| + 1 && Within(alt, m)
    requires AtMost(Pour(init + [p], alt, m), best)
    ensures var loads := ListLoads(init, m);
            m * (loads[Least(loads)] + p) <= m * best + (m - 1) * p
  {
    hide Pour, Sum, ListTo;
    var loads := ListLoads(init, m);
    LeastAverage(loads);
    PourTotal(init, ListTo(init, m), m);
    PourTotal(init + [p], alt, m);
    TotalAtMost(Pour(init + [p], alt, m), best);
    SumSnoc(init, p, Itself);
    var l := loads[Least(loads)];
    assert m * l + p <= m * best;
    Spread(m, l, p, best);
  }

  lemma Apart(m: nat, l: nat, p: nat)
    requires m > 0
    ensures m * (l + p) == m * l + m * p && (m - 1) * p == m * p - p
  {
  }

  lemma Spread(m: nat, l: nat, p: nat, best: nat)
    requires m > 0 && m * l + p <= m * best
    ensures m * (l + p) <= m * best + (m - 1) * p
  {
    Apart(m, l, p);
  }

  // ---------------------------------------------------------------------------
  // Big jobs: when three of them do not fit the best load, list scheduling achieves it.

  /** A job next to which a job of size `p` does not fit counts double. */
  function Weight(s: nat, p: nat, best: nat): nat {
    if s + p > best then 2 else 1
  }

  function Weights(sizes: seq<nat>, p: nat, best: nat): (r: seq<nat>)
    ensures |r| == |sizes| && forall i :: 0 <= i < |r| ==> r[i] == Weight(sizes[i], p, best)
  {
    seq(|sizes|, i requires 0 <= i < |sizes| => Weight(sizes[i], p, best))
  }

  predicate Big(sizes: seq<nat>, p: nat) {
    forall i :: 0 <= i < |sizes| ==> sizes[i] >= p
  }

  /** Whatever the assignment, a worker too full for another job of size `p` carries weight 2 or has nothing. */
  lemma {:induction false} FullIsHeavy(sizes: seq<nat>, to: seq<nat>, m: nat, p: nat, best: nat, w: nat)
    requires |sizes| == |to| && Within(to, m) && w < m && Big(sizes, p)
    ensures var load, weight := Pour(sizes, to, m)[w], Pour(Weights(sizes, p, best), to, m)[w];
            || (load == 0 && weight == 0)
            || (weight == 1 && load + p <= best)
            || weight >= 2
  {
    if sizes != [] {
      var n := |sizes| - 1;
      FullIsHeavy(sizes[..n], to[..n], m, p, best, w);
      assert Weights(sizes, p, best)[..n] == Weights(sizes[..n], p, best);
    }
  }

  /** Within the best load, no worker carries more than weight 2. */
  lemma {:induction false} FittingIsLight(sizes: seq<nat>, to: seq<nat>, m: nat, p: nat, best: nat, w: nat)
    requires |sizes| == |to| && Within(to, m) && w < m && Big(sizes, p) && 3 * p > best
    requires Pour(sizes, to, m)[w] <= best
    ensures var load, weight := Pour(sizes, to, m)[w], Pour(Weights(sizes, p, best), to, m)[w];
            || (load == 0 && weight == 0)
            || (weight == 1 && load >= p)
            || (weight == 2 && load + p > best)
  {
    if sizes != [] {
      var n := |sizes| - 1;
      PourPrefix(sizes, to, m, n);
      FittingIsLight(sizes[..n], to[..n], m, p, best, w);
      assert Weights(sizes, p, best)[..n] == Weights(sizes[..n], p, best);
    }
  }

  /** If the last job fits on no worker, the others weigh two on every worker. */
  lemma AllFull(init: seq<nat>, p: nat, m: nat, best: nat)
    requires m > 0 && p <= best && Big(init, p) && ListLoads(init, m)[Least(ListLoads(init, m))] + p > best
    ensures Total(Weights(init, p, best)) >= 2 * m
  {
    hide Pour, Weights, Total, Big, ListTo;
    var loads, to := ListLoads(init, m), ListTo(init, m);
    var heavy := Pour(Weights(init, p, best), to, m);
    forall w | 0 <= w < m ensures heavy[w] >= 2 {
      FullIsHeavy(init, to, m, p, best, w);
      assert loads[w] + p > best;
    }
    TotalAtLeast(heavy, 2);
    PourTotal(Weights(init, p, best), to, m);
  }

  /** If some assignment keeps within the best load, all jobs together weigh two a worker at most. */
  lemma AllFitting(sizes: seq<nat>, p: nat, m: nat, alt: seq<nat>, best: nat)
    requires |alt| == |sizes| && Within(alt, m) && Big(sizes, p) && 3 * p > best
    requires AtMost(Pour(sizes, alt, m), best)
    ensures Total(Weights(sizes, p, best)) <= 2 * m
  {
    hide Pour, Weights, Total, Big;
    var light := Pour(Weights(sizes, p, best), alt, m);
    forall w | 0 <= w < m ensures light[w] <= 2 {
      FittingIsLight(sizes, alt, m, p, best, w);
    }
    TotalAtMost(light, 2);
    PourTotal(Weights(sizes, p, best), alt, m);
  }

  lemma OneMoreWeight(init: seq<nat>, p: nat, best: nat)
    ensures Total(Weights(init + [p], p, best)) > Total(Weights(init, p, best))
  {
    assert Weights(init + [p], p, best) == Weights(init, p, best) + [Weight(p, p, best)];
  }

  /** With jobs of which three do not fit, the last goes where it fits within the best load. */
  lemma BigJobsFit(init: seq<nat>, p: nat, m: nat, alt: seq<nat>, best: nat)
    requires m > 0 && |alt| == |init| + 1 && Within(alt, m) && Big(init, p) && 3 * p > best
    requires AtMost(Pour(init + [p], alt, m), best)
    ensures var loads := ListLoads(init, m); loads[Least(loads)] + p <= best
  {
    hide Pour, Weights, Total, ListLoads;
    PourHas(init + [p], alt, m, |init|);
    if ListLoads(init, m)[Least(ListLoads(init, m))] + p > best {
      AllFull(init, p, m, best);
      AllFitting(init + [p], p, m, alt, best);
      OneMoreWeight(init, p, best);
      assert false;
    }
  }

  // ---------------------------------------------------------------------------
  // The bounds.

  lemma Monotone(a: nat, x: nat, y: nat)
    requires x <= y
    ensures a * x <= a * y
  {
  }

  lemma Thrice(a: nat, x: nat)
    ensures a * (3 * x) == 3 * (a * x)
  {
  }

  lemma Split(k: nat, c: nat, m: nat, b: nat)
    requires m > 0 && k == c * m + (m - 1)
    ensures k * b == c * (m * b) + (m - 1) * b && (m - 1) * b >= 0
  {
    assert k * b == (c * m) * b + (m - 1) * b;
    assert (c * m) * b == c * (m * b);
  }

  lemma SmallJob(m: nat, l: nat, p: nat, best: nat)
    requires m > 0 && m * l <= m * best + (m - 1) * p && 3 * p <= best
    ensures 3 * (m * l) <= (4 * m - 1) * best
  {
    Monotone(m - 1, 3 * p, best);
    Thrice(m - 1, p);
    Split(4 * m - 1, 3, m, best);
  }

  lemma FittingJob(m: nat, l: nat, best: nat)
    requires m > 0 && l <= best
    ensures 3 * (m * l) <= (4 * m - 1) * best
  {
    Monotone(m, l, best);
    Split(4 * m - 1, 3, m, best);
  }

  lemma NoJobs(m: nat, w: nat)
    requires m > 0 && w < m
    ensures ListLoads([], m)[w] == 0
  {
  }

  /** Every load of list scheduling with the largest jobs first is within 4/3 - 1/(3m) of any assignment's largest load. */
  lemma {:induction false} LargestFirstBound(sizes: seq<nat>, m: nat, alt: seq<nat>, best: nat, w: nat)
    requires m > 0 && Falling(sizes) && |alt| == |sizes| && Within(alt, m) && w < m
    requires AtMost(Pour(sizes, alt, m), best)
    ensures 3 * (m * ListLoads(sizes, m)[w]) <= (4 * m - 1) * best
  {
    hide ListLoads, ListTo, Pour;
    if sizes == [] {
      NoJobs(m, w);
      FittingJob(m, 0, best);
    } else {
      var n := |sizes| - 1;
      var init, p := sizes[..n], sizes[n];
      assert sizes == init + [p];
      PourPrefix(sizes, alt, m, n);
      LargestFirstBound(init, m, alt[..n], best, w);
      ListStep(init, p, m);
      var loads := ListLoads(init, m);
      if w == Least(loads) {
        LastLoad(init, p, m, alt, best);
        if 3 * p <= best {
          SmallJob(m, loads[w] + p, p, best);
        } else {
          BigJobsFit(init, p, m, alt, best);
          FittingJob(m, loads[w] + p, best);
        }
      }
    }
  }

  /** List scheduling in any order is within 2 - 1/m. */
  lemma {:induction false} AnyOrderBound(sizes: seq<nat>, m: nat, alt: seq<nat>, best: nat, w: nat)
    requires m > 0 && |alt| == |sizes| && Within(alt, m) && w < m
    requires AtMost(Pour(sizes, alt, m), best)
    ensures m * ListLoads(sizes, m)[w] <= (2 * m - 1) * best
  {
    hide ListLoads, ListTo, Pour;
    if sizes == [] {
      NoJobs(m, w);
    } else {
      var n := |sizes| - 1;
      var init, p := sizes[..n], sizes[n];
      assert sizes == init + [p];
      PourPrefix(sizes, alt, m, n);
      AnyOrderBound(init, m, alt[..n], best, w);
      ListStep(init, p, m);
      var loads := ListLoads(init, m);
      if w == Least(loads) {
        LastLoad(init, p, m, alt, best);
        PourHas(sizes, alt, m, n);
        OneJob(m, loads[w] + p, p, best);
      }
    }
  }

  lemma OneJob(m: nat, l: nat, p: nat, best: nat)
    requires m > 0 && m * l <= m * best + (m - 1) * p && p <= best
    ensures m * l <= (2 * m - 1) * best
  {
    Monotone(m - 1, p, best);
    Split(2 * m - 1, 1, m, best);
  }

  /** No two loads differ by more than the largest job. */
  lemma {:induction false} LoadsClose(sizes: seq<nat>, m: nat, largest: nat, u: nat, v: nat)
    requires m > 0 && u < m && v < m && AtMost(sizes, largest)
    ensures ListLoads(sizes, m)[u] <= ListLoads(sizes, m)[v] + largest
  {
    if sizes != [] {
      var n := |sizes| - 1;
      assert sizes == sizes[..n] + [sizes[n]];
      LoadsClose(sizes[..n], m, largest, u, v);
      ListStep(sizes[..n], sizes[n], m);
    }
  }

  // ---------------------------------------------------------------------------
  // The greedy loop is list scheduling, largest first.

  /** The sizes in the order in which the greedy loop takes the parts. */
  function Taken(parts: seq<seq<nat>>): (r: seq<nat>)
    ensures |r| == |parts|
    decreases |parts|
  {
    if parts == [] then []
    else
      var i := Largest(parts);
      [|parts[i]|] + Taken(Without(parts, i))
  }

  lemma {:induction false} TakenFalls(parts: seq<seq<nat>>, bound: nat)
    requires forall c :: 0 <= c < |parts| ==> |parts[c]| <= bound
    ensures Falling(Taken(parts)) && AtMost(Taken(parts), bound)
    decreases |parts|
  {
    if parts != [] {
      var i := Largest(parts);
      WithoutParts(parts, i);
      TakenFalls(Without(parts, i), |parts[i]|);
      var rest := Taken(Without(parts, i));
      assert Taken(parts) == [|parts[i]|] + rest;
      forall x, y | 0 <= x < y < |Taken(parts)| ensures Taken(parts)[y] <= Taken(parts)[x] {
        if x == 0 {
          assert Taken(parts)[y] == rest[y - 1];
        }
      }
    }
  }

  lemma PlacedNext(buckets: seq<seq<nat>>, part: seq<nat>, placed: seq<nat>)
    requires buckets != [] && Sizes(buckets) == ListLoads(placed, |buckets|)
    ensures var w := Lightest(buckets);
            Sizes(buckets[w := buckets[w] + part]) == ListLoads(placed + [|part|], |buckets|)
  {
    hide ListLoads;
    ListStep(placed, |part|, |buckets|);
    var w := Lightest(buckets);
    assert Sizes(buckets[w := buckets[w] + part]) == Sizes(buckets)[w := Sizes(buckets)[w] + |part|];
  }

  lemma NothingTaken()
    ensures Taken([]) == []
  {
  }

  lemma TakenNext(parts: seq<seq<nat>>)
    requires parts != []
    ensures Taken(parts) == [|parts[Largest(parts)]|] + Taken(Without(parts, Largest(parts)))
  {
  }

  /** Starting from jobs already placed, the greedy loop goes on as list scheduling does. */
  lemma {:induction false} GreedyIsList(parts: seq<seq<nat>>, buckets: seq<seq<nat>>, placed: seq<nat>)
    requires buckets != [] && Sizes(buckets) == ListLoads(placed, |buckets|)
    ensures |Greedy(parts, buckets)| == |buckets|
    ensures Sizes(Greedy(parts, buckets)) == ListLoads(placed + Taken(parts), |buckets|)
    decreases |parts|
  {
    hide ListLoads, Greedy, Taken, Sizes, Lightest, Largest;
    if parts == [] {
      GreedyEnds(buckets);
      NothingTaken();
      assert placed + Taken(parts) == placed;
    } else {
      var i, w := Largest(parts), Lightest(buckets);
      var p := |parts[i]|;
      var buckets' := buckets[w := buckets[w] + parts[i]];
      GreedyStep(parts, buckets);
      PlacedNext(buckets, parts[i], placed);
      GreedyIsList(Without(parts, i), buckets', placed + [p]);
      TakenNext(parts);
      assert placed + Taken(parts) == placed + [p] + Taken(Without(parts, i));
    }
  }

  /** An assignment of the parts, in the order in which the greedy loop takes them. */
  function Reordered(parts: seq<seq<nat>>, alt: seq<nat>): (r: seq<nat>)
    requires |alt| == |parts|
    ensures |r| == |alt|
    ensures forall m: nat :: Within(alt, m) ==> Within(r, m)
    decreases |parts|
  {
    if parts == [] then []
    else
      var i := Largest(parts);
      var rest := Reordered(Without(parts, i), Without(alt, i));
      assert forall m: nat :: Within(alt, m) ==> Within(Without(alt, i), m);
      [alt[i]] + rest
  }

  lemma {:induction false} PourFront(x: nat, to: nat, values: seq<nat>, tos: seq<nat>, m: nat)
    requires |values| == |tos| && Within(tos, m) && to < m
    ensures Within([to] + tos, m)
    ensures var r := Pour(values, tos, m);
            Pour([x] + values, [to] + tos, m) == r[to := r[to] + x]
  {
    var vs, ts := [x] + values, [to] + tos;
    var n := |values|;
    if values == [] {
      assert vs[..0] == [] && ts[..0] == [];
    } else {
      assert vs[..n] == [x] + values[..n - 1] && ts[..n] == [to] + tos[..n - 1];
      PourFront(x, to, values[..n - 1], tos[..n - 1], m);
    }
  }

  lemma PourLast(values: seq<nat>, to: seq<nat>, m: nat)
    requires |values| == |to| && Within(to, m) && values != []
    ensures var n := |values| - 1;
            var r := Pour(values[..n], to[..n], m);
            Pour(values, to, m) == r[to[n] := r[to[n]] + values[n]]
  {
  }

  /** Taking one value out takes it off one worker. */
  lemma {:induction false} PourWithout(values: seq<nat>, to: seq<nat>, m: nat, i: nat)
    requires |values| == |to| && Within(to, m) && i < |values|
    ensures Within(Without(to, i), m)
    ensures var r := Pour(Without(values, i), Without(to, i), m);
            Pour(values, to, m) == r[to[i] := r[to[i]] + values[i]]
  {
    hide Pour;
    var n := |values| - 1;
    PourLast(values, to, m);
    if i == n {
      assert Without(values, i) == values[..n] && Without(to, i) == to[..n];
    } else {
      PourWithout(values[..n], to[..n], m, i);
      var vs, ts := Without(values, i), Without(to, i);
      assert vs[..n - 1] == Without(values[..n], i) && ts[..n - 1] == Without(to[..n], i);
      assert vs[n - 1] == values[n] && ts[n - 1] == to[n];
      PourLast(vs, ts, m);
    }
  }

  /** Reordering changes no worker's load. */
  lemma {:induction false} ReorderedLoads(parts: seq<seq<nat>>, alt: seq<nat>, m: nat)
    requires |alt| == |parts| && Within(alt, m)
    ensures Pour(Taken(parts), Reordered(parts, alt), m) == Pour(Sizes(parts), alt, m)
    decreases |parts|
  {
    hide Pour, Taken, Reordered, Without;
    ReorderedNext(parts, alt, m);
    if parts != [] {
      var i := Largest(parts);
      ReorderedLoads(Without(parts, i), Without(alt, i), m);
      PourWithout(Sizes(parts), alt, m, i);
      PourFront(|parts[i]|, alt[i], Taken(Without(parts, i)), Reordered(Without(parts, i), Without(alt, i)), m);
    }
  }

  /** What the greedy loop takes first, and what is left. */
  lemma ReorderedNext(parts: seq<seq<nat>>, alt: seq<nat>, m: nat)
    requires |alt| == |parts| && Within(alt, m)
    ensures parts == [] ==> Sizes(parts) == Taken(parts) == alt == Reordered(parts, alt) == []
    ensures parts != [] ==>
              var i := Largest(parts);
              var parts', alt' := Without(parts, i), Without(alt, i);
              && |parts'| == |alt'| == |parts| - 1 && Within(alt', m) && alt[i] < m
              && Without(Sizes(parts), i) == Sizes(parts')
              && Taken(parts) == [|parts[i]|] + Taken(parts')
              && Reordered(parts, alt) == [alt[i]] + Reordered(parts', alt')
  {
    hide Largest, Pour;
  }

  /**
    The scheduling bound: against every assignment `alt` of whole components to the workers,
    with largest load `best`, no worker's load exceeds (4/3 - 1/(3m)) times `best`, nor (2 - 1/m)
    times; and no two workers' loads differ by more than the largest component.
   */
  lemma GreedyBound(parts: seq<seq<nat>>, m: nat, alt: seq<nat>, best: nat, w: nat)
    requires parts != [] && m > 0 && |alt| == |parts| && Within(alt, m) && w < m
    requires AtMost(Pour(Sizes(parts), alt, m), best)
    ensures var loads := Sizes(Greedy(parts, seq(m, _ => [])));
            && |loads| == m
            && 3 * (m * loads[w]) <= (4 * m - 1) * best
            && m * loads[w] <= (2 * m - 1) * best
            && forall v :: 0 <= v < m ==> loads[w] <= loads[v] + |parts[Largest(parts)]|
  {
    hide ListLoads, Pour, Taken, Reordered, Greedy;
    var empty: seq<seq<nat>> := seq(m, _ => []);
    NothingPlaced(m);
    GreedyIsList(parts, empty, []);
    var sizes := Taken(parts);
    assert [] + sizes == sizes;
    TakenFalls(parts, |parts[Largest(parts)]|);
    ReorderedLoads(parts, alt, m);
    LargestFirstBound(sizes, m, Reordered(parts, alt), best, w);
    AnyOrderBound(sizes, m, Reordered(parts, alt), best, w);
    forall v | 0 <= v < m ensures ListLoads(sizes, m)[w] <= ListLoads(sizes, m)[v] + |parts[Largest(parts)]| {
      LoadsClose(sizes, m, |parts[Largest(parts)]|, w, v);
    }
  }

  lemma NothingPlaced(m: nat)
    requires m > 0
    ensures Sizes(seq(m, _ => [])) == ListLoads([], m)
  {
  }

  // ---------------------------------------------------------------------------
  // In terms of the distributed pool.

  lemma {:induction false} TaggedCount(txs: seq<Transaction>, w: nat)
    ensures |TaggedFor(txs, w)| == |TaggedIndices(txs, w)|
  {
    if txs != [] {
      var n := |txs| - 1;
      TaggedCount(txs[..n], w);
      if txs[n].tag == DoneBy(w) {
        assert TaggedIndices(txs, w) == TaggedIndices(txs[..n], w) + {n};
      } else {
        assert TaggedIndices(txs, w) == TaggedIndices(txs[..n], w);
      }
    }
  }

  function TaggedIndices(txs: seq<Transaction>, w: nat): set<nat> {
    set i: nat | i < |txs| && txs[i].tag == DoneBy(w)
  }

  function Members(xs: seq<nat>): set<nat> {
    set i | i in xs
  }

  lemma {:induction false} DistinctSize(xs: seq<nat>)
    requires forall x, y :: 0 <= x < y < |xs| ==> xs[x] != xs[y]
    ensures |Members(xs)| == |xs|
  {
    if xs != [] {
      var n := |xs| - 1;
      DistinctSize(xs[..n]);
      assert Members(xs) == Members(xs[..n]) + {xs[n]};
      assert xs[n] !in xs[..n];
    }
  }

  /** A worker is given as many transactions as its bucket holds. */
  lemma BucketLoad(pool: seq<Transaction>, tagged: seq<Transaction>, buckets: seq<seq<nat>>, w: nat)
    requires TaggedPer(pool, tagged, buckets) && GoodBuckets(|pool|, buckets) && OnceEach([], buckets) && w < |buckets|
    ensures |TaggedFor(tagged, w)| == |buckets[w]|
  {
    hide Covered, TaggedFor;
    TaggedCount(tagged, w);
    DistinctSize(buckets[w]);
    forall i: nat ensures i in TaggedIndices(tagged, w) <==> i in Members(buckets[w]) {
      if i < |pool| {
        assert TaggedAs(pool, tagged, buckets, i);
      }
    }
    assert TaggedIndices(tagged, w) == Members(buckets[w]);
  }

  /**
    What `Distribute` does to a pool, measured: against any assignment of whole components with
    at most `best` transactions per worker, it gives no worker more than (4/3 - 1/(3m)) times as
    many.
   */
  lemma DistributionBound(pool: seq<Transaction>, tagged: seq<Transaction>, parts: seq<seq<nat>>, m: nat,
                          alt: seq<nat>, best: nat, w: nat)
    requires parts != [] && m > 0 && w < m
    requires var buckets := Greedy(parts, seq(m, _ => []));
             TaggedPer(pool, tagged, buckets) && GoodBuckets(|pool|, buckets) && OnceEach([], buckets)
    requires |alt| == |parts| && Within(alt, m) && AtMost(Pour(Sizes(parts), alt, m), best)
    ensures 3 * (m * |TaggedFor(tagged, w)|) <= (4 * m - 1) * best
  {
    hide Greedy, Pour, TaggedFor, GoodBuckets, OnceEach, TaggedPer;
    GreedyBound(parts, m, alt, best, w);
    BucketLoad(pool, tagged, Greedy(parts, seq(m, _ => [])), w);
  }
}
