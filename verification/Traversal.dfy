// Breadth-first traversal of the graph of transactions and keys, marking on dequeue.
// Nodes are numbered; `links` lists the neighbours of each, with repetitions.
module Traversal {
  import opened Storage

  type Links = seq<seq<nat>>

  type Marks = seq<Option<nat>>

  predicate Within(vs: seq<nat>, n: nat) {
    forall i :: 0 <= i < |vs| ==> vs[i] < n
  }

  ghost predicate WellLinked(links: Links) {
    forall u :: 0 <= u < |links| ==> Within(links[u], |links|)
  }

  /** Step `i` of the walk goes along a link, to a node without a mark. */
  ghost predicate FreeStep(links: Links, marks: Marks, p: seq<nat>, i: nat)
    requires |marks| == |links| && i + 1 < |p|
  {
    p[i] < |links| && p[i + 1] < |links| && p[i + 1] in links[p[i]] && marks[p[i + 1]].None?
  }

  /** A walk whose nodes after the first are all without a mark. */
  ghost predicate FreeWalk(links: Links, marks: Marks, p: seq<nat>)
    requires |marks| == |links|
  {
    && p != [] && p[0] < |links|
    && forall i :: 0 <= i < |p| - 1 ==> FreeStep(links, marks, p, i)
  }

  ghost predicate WalkTo(links: Links, marks: Marks, start: nat, v: nat, p: seq<nat>)
    requires |marks| == |links|
  {
    FreeWalk(links, marks, p) && p[0] == start && p[|p| - 1] == v
  }

  /** `v` has no mark and can be reached from `start` through nodes without a mark. */
  ghost predicate Reached(links: Links, marks: Marks, start: nat, v: nat)
    requires |marks| == |links|
  {
    v < |links| && marks[v].None? && exists p :: WalkTo(links, marks, start, v, p)
  }

  /** A walk without its last step is a walk. */
  lemma WalkPrefix(links: Links, marks: Marks, p: seq<nat>)
    requires |marks| == |links| && FreeWalk(links, marks, p) && |p| > 1
    ensures var q := p[..|p| - 1];
            && FreeWalk(links, marks, q) && q[0] == p[0]
            && q[|q| - 1] < |links| && p[|p| - 1] < |links| && p[|p| - 1] in links[q[|q| - 1]] && marks[p[|p| - 1]].None?
            && (|q| > 1 ==> marks[q[|q| - 1]].None?)
  {
    var q := p[..|p| - 1];
    forall i | 0 <= i < |q| - 1 ensures FreeStep(links, marks, q, i) {
      assert FreeStep(links, marks, p, i);
    }
    assert FreeStep(links, marks, p, |p| - 2);
    if |q| > 1 {
      assert FreeStep(links, marks, p, |p| - 3);
    }
  }

  /** One more step along a link to a node without a mark. */
  lemma WalkOn(links: Links, marks: Marks, p: seq<nat>, v: nat)
    requires |marks| == |links| && FreeWalk(links, marks, p) && v < |links|
    requires p[|p| - 1] < |links| && v in links[p[|p| - 1]] && marks[v].None?
    ensures FreeWalk(links, marks, p + [v])
  {
    var q := p + [v];
    forall i | 0 <= i < |q| - 1 ensures FreeStep(links, marks, q, i) {
      if i < |p| - 1 {
        assert FreeStep(links, marks, p, i);
      }
    }
  }

  lemma ReachedNext(links: Links, marks: Marks, start: nat, u: nat, v: nat)
    requires |marks| == |links| && WellLinked(links) && start < |links| && u < |links| && v in links[u] && marks[v].None?
    requires u == start || Reached(links, marks, start, u)
    ensures Reached(links, marks, start, v)
  {
    if u == start {
      WalkOn(links, marks, [start], v);
      assert WalkTo(links, marks, start, v, [start] + [v]);
    } else {
      var p :| WalkTo(links, marks, start, u, p);
      WalkOn(links, marks, p, v);
      assert WalkTo(links, marks, start, v, p + [v]);
    }
  }

  /** The nodes without a mark. */
  function Free(marks: Marks): set<nat> {
    set i | 0 <= i < |marks| && marks[i].None?
  }

  /** The position of the first node in the queue without a mark; the length if there is none. */
  function FirstFree(queue: seq<nat>, marks: Marks): (r: nat)
    requires Within(queue, |marks|)
    ensures r <= |queue|
    ensures r < |queue| ==> marks[queue[r]].None?
    ensures forall i :: 0 <= i < r ==> marks[queue[i]].Some?
  {
    if queue == [] || marks[queue[0]].None? then 0 else 1 + FirstFree(queue[1..], marks)
  }

  function Unmarked(vs: seq<nat>, marks: Marks): (r: seq<nat>)
    requires Within(vs, |marks|)
    ensures Within(r, |marks|) && forall i :: 0 <= i < |r| ==> marks[r[i]].None?
    ensures forall v: nat :: v in r <==> v in vs && v < |marks| && marks[v].None?
  {
    if vs == [] then []
    else
      var init := Unmarked(vs[..|vs| - 1], marks);
      if marks[vs[|vs| - 1]].None? then init + [vs[|vs| - 1]] else init
  }

  /** Dropping a marked head brings the first unmarked node nearer, whatever unmarked nodes are added at the end. */
  lemma Nearer(queue: seq<nat>, more: seq<nat>, marks: Marks)
    requires queue != [] && Within(queue, |marks|) && marks[queue[0]].Some?
    requires Within(more, |marks|) && forall i :: 0 <= i < |more| ==> marks[more[i]].None?
    ensures Within(queue[1..] + more, |marks|)
    ensures FirstFree(queue[1..] + more, marks) < FirstFree(queue, marks)
  {
    hide FirstFree;
    var tail := queue[1..];
    FirstAfter(queue, marks);
    var r := FirstFree(tail, marks);
    FirstFreeIs(tail + more, marks, r);
  }

  lemma FirstAfter(queue: seq<nat>, marks: Marks)
    requires queue != [] && Within(queue, |marks|) && marks[queue[0]].Some?
    ensures FirstFree(queue, marks) == 1 + FirstFree(queue[1..], marks)
  {
  }

  lemma FirstFreeIs(queue: seq<nat>, marks: Marks, r: nat)
    requires Within(queue, |marks|) && r <= |queue| && forall i :: 0 <= i < r ==> marks[queue[i]].Some?
    requires r < |queue| ==> marks[queue[r]].None?
    ensures FirstFree(queue, marks) == r
  {
  }

  class Graph {
    const links: Links
    const txs: nat
    const component: array<Option<nat>>

    ghost predicate Valid()
      reads this, component
    {
      component.Length == |links| && WellLinked(links) && txs <= |links|
    }

    constructor (links: Links, txs: nat)
      requires WellLinked(links) && txs <= |links|
      ensures Valid() && this.links == links && this.txs == txs && fresh(component)
      ensures forall i :: 0 <= i < |links| ==> component[i] == None
    {
      this.links := links;
      this.txs := txs;
      component := new Option<nat>[|links|](_ => None);
    }

    /** The nodes below `txs` are the transactions. */
    predicate IsTx(u: nat) {
      u < txs
    }

    /** Marks the node unless it has a mark. */
    method Visit(u: nat, id: nat) returns (first: bool)
      requires Valid() && u < |links|
      modifies component
      ensures first == old(component[u]).None?
      ensures component[..] == if first then old(component[..])[u := Some(id)] else old(component[..])
    {
      if component[u].None? {
        component[u] := Some(id);
        first := true;
      } else {
        first := false;
      }
    }

    /** What has been done, in terms of the marks there were at the start. */
    ghost predicate Explored(before: Marks, marks: Marks, start: nat, id: nat, found: seq<nat>)
      requires |before| == |marks| == |links|
    {
      && (forall u :: 0 <= u < |links| ==>
            marks[u] == before[u] || (marks[u] == Some(id) && Reached(links, before, start, u)))
      && (forall u: nat :: u in found <==> u < |links| && marks[u] != before[u] && IsTx(u))
      && (forall i, j :: 0 <= i < j < |found| ==> found[i] != found[j])
    }

    /** Unmarked neighbours of what has been explored are in the queue. */
    ghost predicate Pending(before: Marks, marks: Marks, start: nat, begun: bool, queue: seq<nat>)
      requires |before| == |marks| == |links| && WellLinked(links)
    {
      && (forall u, v :: 0 <= u < |links| && (marks[u] != before[u] || (begun && u == start)) && v in links[u] && marks[v].None? ==>
            v in queue)
      && (if begun then start >= |links| || marks[start].Some? else queue == [start])
    }

    ghost predicate Queued(before: Marks, start: nat, queue: seq<nat>)
      requires |before| == |links|
    {
      forall i :: 0 <= i < |queue| ==> queue[i] < |links| && (queue[i] == start || Reached(links, before, start, queue[i]))
    }

    /**
      Terminates although nodes may be in the queue many times, and although a node that is
      taken from the queue for a second time puts its unmarked neighbours there again. Returns
      the transactions without a mark that can be reached from the start, each once, and marks
      all that can be reached.
     */
    method Traverse(start: nat, id: nat) returns (found: seq<nat>)
      requires Valid() && start < |links|
      modifies component
      ensures forall u :: 0 <= u < |links| ==>
                component[u] == if Reached(links, old(component[..]), start, u) then Some(id) else old(component[u])
      ensures forall u: nat :: u in found <==> u < |links| && IsTx(u) && Reached(links, old(component[..]), start, u)
      ensures forall i, j :: 0 <= i < j < |found| ==> found[i] != found[j]
    {
      hide Explored, Pending, Reached, Unmarked, FirstFree, Free;
      ghost var before := component[..];
      var queue := [start];
      found := [];
      ghost var begun := false;
      Begins(before, start, id);
      while queue != []
        invariant Queued(before, start, queue)
        invariant Explored(before, component[..], start, id, found)
        invariant Pending(before, component[..], start, begun, queue)
        decreases Free(component[..]), FirstFree(queue, component[..])
      {
        var current := queue[0];
        ghost var taken, marks := queue, component[..];
        queue := queue[1..];
        VisitExplores(before, marks, start, id, current, found);
        QueueGrows(before, marks, start, id, begun, taken, found);
        Shrinks(marks, taken, id);
        var first := Visit(current, id);
        if first && IsTx(current) {
          found := found + [current];
        }
        var more := FreeNeighbours(current);
        queue := queue + more;
        begun := true;
      }
      AllReached(before, component[..], start, id, found, begun);
    }

    /** The neighbours of a node that have no mark. */
    method FreeNeighbours(u: nat) returns (r: seq<nat>)
      requires Valid() && u < |links|
      ensures r == Unmarked(links[u], component[..])
    {
      r := [];
      var j := 0;
      while j < |links[u]|
        invariant j <= |links[u]|
        invariant r == Unmarked(links[u][..j], component[..])
      {
        assert links[u][..j + 1][..j] == links[u][..j];
        if component[links[u][j]].None? {
          r := r + [links[u][j]];
        }
        j := j + 1;
      }
      assert links[u][..j] == links[u];
    }

    function Visited(marks: Marks, u: nat, id: nat): Marks
      requires u < |marks|
    {
      if marks[u].None? then marks[u := Some(id)] else marks
    }

    lemma Begins(before: Marks, start: nat, id: nat)
      requires |before| == |links| && WellLinked(links) && start < |links|
      ensures Explored(before, before, start, id, []) && Pending(before, before, start, false, [start])
    {
    }

    lemma VisitExplores(before: Marks, marks: Marks, start: nat, id: nat, u: nat, found: seq<nat>)
      requires |before| == |marks| == |links| && u < |links| && start < |links| && Explored(before, marks, start, id, found)
      requires u == start || Reached(links, before, start, u)
      ensures Explored(before, Visited(marks, u, id), start, id, if marks[u].None? && IsTx(u) then found + [u] else found)
    {
      if marks[u].None? {
        assert before[u].None?;
        if u == start {
          assert WalkTo(links, before, start, u, [start]);
        }
        assert u !in found;
      }
    }

    lemma QueueGrows(before: Marks, marks: Marks, start: nat, id: nat, begun: bool, queue: seq<nat>, found: seq<nat>)
      requires |before| == |marks| == |links| && WellLinked(links) && start < |links|
      requires queue != [] && Queued(before, start, queue) && Pending(before, marks, start, begun, queue)
      requires Explored(before, marks, start, id, found)
      ensures queue[0] < |links| && Within(links[queue[0]], |links|)
      ensures var marks' := Visited(marks, queue[0], id);
              var queue' := queue[1..] + Unmarked(links[queue[0]], marks');
              Queued(before, start, queue') && Pending(before, marks', start, true, queue')
    {
      hide Reached, Unmarked;
      var u := queue[0];
      var marks' := Visited(marks, u, id);
      var more := Unmarked(links[u], marks');
      var queue' := queue[1..] + more;
      forall i | 0 <= i < |queue'| ensures queue'[i] < |links| && (queue'[i] == start || Reached(links, before, start, queue'[i])) {
        if i >= |queue| - 1 {
          assert queue'[i] == more[i - (|queue| - 1)] && more[i - (|queue| - 1)] in more;
          ReachedNext(links, before, start, u, queue'[i]);
        } else {
          assert queue'[i] == queue[i + 1];
        }
      }
      forall x, v | 0 <= x < |links| && (marks'[x] != before[x] || x == start) && v in links[x] && marks'[v].None?
        ensures v in queue'
      {
        if x != u {
          assert v in queue;
          assert v != u;
          assert v in queue[1..];
        }
      }
    }

    lemma Shrinks(marks: Marks, queue: seq<nat>, id: nat)
      requires |marks| == |links| && WellLinked(links) && queue != [] && Within(queue, |marks|)
      ensures var u := queue[0];
              var marks' := Visited(marks, u, id);
              var queue' := queue[1..] + Unmarked(links[u], marks');
              Within(queue', |marks'|) &&
              (Free(marks') < Free(marks) || (Free(marks') == Free(marks) && FirstFree(queue', marks') < FirstFree(queue, marks)))
    {
      var u := queue[0];
      var marks' := Visited(marks, u, id);
      var more := Unmarked(links[u], marks');
      assert Within(queue[1..] + more, |marks'|);
      if marks[u].None? {
        assert u in Free(marks) && u !in Free(marks');
      } else {
        Nearer(queue, more, marks);
      }
    }

    /** With nothing left in the queue, everything that can be reached has been. */
    lemma AllReached(before: Marks, marks: Marks, start: nat, id: nat, found: seq<nat>, begun: bool)
      requires |before| == |marks| == |links| && WellLinked(links) && start < |links|
      requires Explored(before, marks, start, id, found) && Pending(before, marks, start, begun, [])
      ensures forall u :: 0 <= u < |links| ==> marks[u] == if Reached(links, before, start, u) then Some(id) else before[u]
      ensures forall u: nat :: u in found <==> u < |links| && IsTx(u) && Reached(links, before, start, u)
      ensures forall i, j :: 0 <= i < j < |found| ==> found[i] != found[j]
    {
      assert begun;
      forall u | 0 <= u < |links| && Reached(links, before, start, u) ensures marks[u] == Some(id) {
        var p :| WalkTo(links, before, start, u, p);
        WalkMarked(before, marks, start, id, p);
      }
    }

    lemma WalkMarked(before: Marks, marks: Marks, start: nat, id: nat, p: seq<nat>)
      requires |before| == |marks| == |links| && WellLinked(links) && start < |links|
      requires forall u :: 0 <= u < |links| ==> marks[u] == before[u] || marks[u] == Some(id)
      requires Pending(before, marks, start, true, [])
      requires FreeWalk(links, before, p) && p[0] == start
      ensures var v := p[|p| - 1]; v < |links| && (before[v].None? ==> marks[v] == Some(id))
      decreases |p|
    {
      if |p| > 1 {
        var q := p[..|p| - 1];
        WalkPrefix(links, before, p);
        WalkMarked(before, marks, start, id, q);
      }
    }
  }
}
