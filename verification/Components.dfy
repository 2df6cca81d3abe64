// The components of a pool: the graph that links each transaction with the keys it
// declares, and what the traversals find in it.
module Components {
  import opened Storage
  import opened Program
  import opened Transactions
  import opened Traversal

  // ---------------------------------------------------------------------------
  // The graph.

  /** The node stands for some key. */
  ghost predicate HasNode(keys: map<Key, nat>, v: int) {
    exists k :: k in keys && keys[k] == v
  }

  /** The node stands for some key that is in `ks`. */
  ghost predicate NodeAmong(ks: seq<Key>, keys: map<Key, nat>, v: int) {
    exists k :: k in ks && k in keys && keys[k] == v
  }

  /** Key nodes come after the transaction nodes; `keys` says which node stands for which key. */
  ghost predicate KeysOk(first: nat, toTxs: Links, keys: map<Key, nat>) {
    && (forall k :: k in keys ==> first <= keys[k] < first + |toTxs|)
    && (forall k, l :: k in keys && l in keys && keys[k] == keys[l] ==> k == l)
    && (forall v: nat :: first <= v < first + |toTxs| ==> HasNode(keys, v))
  }

  /** Node `own` links to the nodes of exactly the keys in `ks`. */
  ghost predicate LinksTo(own: seq<nat>, ks: seq<Key>, keys: map<Key, nat>) {
    && (forall k :: k in ks ==> k in keys)
    && (forall v: nat :: v in own <==> NodeAmong(ks, keys, v))
  }

  /** The node of a key links to exactly those of the first `n` transactions that declare it. */
  ghost predicate KeyNodeOk(pool: seq<Transaction>, k: Key, own: seq<nat>, n: nat)
    requires n <= |pool|
  {
    forall i: nat :: i in own <==> i < n && k in pool[i].body.call.access
  }

  ghost predicate KeyNodeUpTo(pool: seq<Transaction>, k: Key, own: seq<nat>, n: nat, j: nat)
    requires n < |pool| && j <= |pool[n].body.call.access|
  {
    forall i: nat :: i in own <==> (i < n && k in pool[i].body.call.access) || (i == n && k in pool[n].body.call.access[..j])
  }

  ghost predicate GraphOf(pool: seq<Transaction>, n: nat, toKeys: Links, toTxs: Links, keys: map<Key, nat>) {
    && n <= |pool| && |toKeys| == n
    && KeysOk(|pool|, toTxs, keys)
    && (forall i :: 0 <= i < n ==> LinksTo(toKeys[i], pool[i].body.call.access, keys))
    && (forall k :: k in keys ==> KeyNodeOk(pool, k, toTxs[keys[k] - |pool|], n))
  }

  /** In the middle of transaction `n`: its first `j` keys have been linked. */
  ghost predicate GraphUpTo(pool: seq<Transaction>, n: nat, j: nat, own: seq<nat>, toKeys: Links, toTxs: Links, keys: map<Key, nat>) {
    && n < |pool| && |toKeys| == n && j <= |pool[n].body.call.access|
    && KeysOk(|pool|, toTxs, keys)
    && (forall i :: 0 <= i < n ==> LinksTo(toKeys[i], pool[i].body.call.access, keys))
    && LinksTo(own, pool[n].body.call.access[..j], keys)
    && (forall k :: k in keys ==> KeyNodeUpTo(pool, k, toTxs[keys[k] - |pool|], n, j))
  }

  lemma UpToStarts(pool: seq<Transaction>, n: nat, toKeys: Links, toTxs: Links, keys: map<Key, nat>)
    requires GraphOf(pool, n, toKeys, toTxs, keys) && n < |pool|
    ensures GraphUpTo(pool, n, 0, [], toKeys, toTxs, keys)
  {
    hide KeysOk;
    assert pool[n].body.call.access[..0] == [];
  }

  lemma UpToEnds(pool: seq<Transaction>, n: nat, own: seq<nat>, toKeys: Links, toTxs: Links, keys: map<Key, nat>)
    requires n < |pool| && GraphUpTo(pool, n, |pool[n].body.call.access|, own, toKeys, toTxs, keys)
    ensures GraphOf(pool, n + 1, toKeys + [own], toTxs, keys)
  {
    hide LinksTo;
    assert pool[n].body.call.access[..|pool[n].body.call.access|] == pool[n].body.call.access;
  }

  lemma SameNodes(ks: seq<Key>, keys: map<Key, nat>, key: Key, x: nat, own: seq<nat>)
    requires key !in keys && LinksTo(own, ks, keys)
    ensures LinksTo(own, ks, keys[key := x]) && key !in ks
  {
    forall v: nat ensures NodeAmong(ks, keys[key := x], v) <==> NodeAmong(ks, keys, v) {
      if NodeAmong(ks, keys, v) {
        var k :| k in ks && k in keys && keys[k] == v;
        assert keys[key := x][k] == v;
      }
      if NodeAmong(ks, keys[key := x], v) {
        var k :| k in ks && k in keys[key := x] && keys[key := x][k] == v;
        assert keys[k] == v;
      }
    }
  }

  lemma KeyRange(first: nat, toTxs: Links, keys: map<Key, nat>)
    requires KeysOk(first, toTxs, keys)
    ensures forall k :: k in keys ==> first <= keys[k] < first + |toTxs|
  {
  }

  lemma OneKeyMore(first: nat, toTxs: Links, keys: map<Key, nat>, key: Key)
    requires KeysOk(first, toTxs, keys) && key !in keys
    ensures KeysOk(first, toTxs + [[]], keys[key := first + |toTxs|])
  {
    var keys' := keys[key := first + |toTxs|];
    forall v: nat | first <= v < first + |toTxs| + 1 ensures HasNode(keys', v) {
      if v < first + |toTxs| {
        assert HasNode(keys, v);
        var k :| k in keys && keys[k] == v;
        assert keys'[k] == v;
      } else {
        assert keys'[key] == v;
      }
    }
  }

  /** A key seen for the first time gets a node. */
  lemma NewKey(pool: seq<Transaction>, n: nat, j: nat, own: seq<nat>, toKeys: Links, toTxs: Links, keys: map<Key, nat>, key: Key)
    requires GraphUpTo(pool, n, j, own, toKeys, toTxs, keys) && key !in keys
    ensures GraphUpTo(pool, n, j, own, toKeys, toTxs + [[]], keys[key := |pool| + |toTxs|])
  {
    hide KeysOk, LinksTo;
    var x := |pool| + |toTxs|;
    var toTxs', keys' := toTxs + [[]], keys[key := x];
    OneKeyMore(|pool|, toTxs, keys, key);
    forall i | 0 <= i < n ensures LinksTo(toKeys[i], pool[i].body.call.access, keys') && key !in pool[i].body.call.access {
      SameNodes(pool[i].body.call.access, keys, key, x, toKeys[i]);
    }
    SameNodes(pool[n].body.call.access[..j], keys, key, x, own);
    KeyRange(|pool|, toTxs, keys);
    KeyRange(|pool|, toTxs', keys');
    forall k | k in keys' ensures KeyNodeUpTo(pool, k, toTxs'[keys'[k] - |pool|], n, j) {
      if k == key {
        assert toTxs'[keys'[k] - |pool|] == [];
      } else {
        assert toTxs'[keys'[k] - |pool|] == toTxs[keys[k] - |pool|];
      }
    }
  }

  /** The transaction and the node of its next key learn of each other. */
  lemma LinkKey(pool: seq<Transaction>, n: nat, j: nat, own: seq<nat>, toKeys: Links, toTxs: Links, keys: map<Key, nat>)
    requires GraphUpTo(pool, n, j, own, toKeys, toTxs, keys) && j < |pool[n].body.call.access| && pool[n].body.call.access[j] in keys
    ensures var x := keys[pool[n].body.call.access[j]] - |pool|;
            0 <= x < |toTxs| &&
            GraphUpTo(pool, n, j + 1, own + [|pool| + x], toKeys, toTxs[x := toTxs[x] + [n]], keys)
  {
    var key := pool[n].body.call.access[j];
    var x := keys[key] - |pool|;
    var own', toTxs' := own + [|pool| + x], toTxs[x := toTxs[x] + [n]];
    assert pool[n].body.call.access[..j + 1] == pool[n].body.call.access[..j] + [key];
    assert KeysOk(|pool|, toTxs', keys);
    OneLinkMore(own, pool[n].body.call.access[..j], keys, key);
    forall k | k in keys ensures KeyNodeUpTo(pool, k, toTxs'[keys[k] - |pool|], n, j + 1) {
      assert KeyNodeUpTo(pool, k, toTxs[keys[k] - |pool|], n, j);
      assert keys[k] == keys[key] ==> k == key;
    }
  }

  lemma OneLinkMore(own: seq<nat>, ks: seq<Key>, keys: map<Key, nat>, key: Key)
    requires LinksTo(own, ks, keys) && key in keys
    ensures LinksTo(own + [keys[key]], ks + [key], keys)
  {
    forall v: nat ensures v in own + [keys[key]] <==> NodeAmong(ks + [key], keys, v) {
      if v == keys[key] {
        assert key in ks + [key];
      } else if NodeAmong(ks, keys, v) {
        var k :| k in ks && k in keys && keys[k] == v;
        assert k in ks + [key];
      }
    }
  }

  method BuildGraph(pool: seq<Transaction>) returns (links: Links, ghost keys: map<Key, nat>)
    ensures |links| >= |pool| && GraphOf(pool, |pool|, links[..|pool|], links[|pool|..], keys)
  {
    hide GraphOf, GraphUpTo;
    var keysMap: map<Key, nat> := map[];
    var toKeys: Links, toTxs: Links := [], [];
    EmptyGraph(pool);
    var i := 0;
    while i < |pool|
      invariant i <= |pool| && GraphOf(pool, i, toKeys, toTxs, keysMap)
    {
      var own: seq<nat> := [];
      UpToStarts(pool, i, toKeys, toTxs, keysMap);
      var j := 0;
      while j < |pool[i].body.call.access|
        invariant j <= |pool[i].body.call.access| && GraphUpTo(pool, i, j, own, toKeys, toTxs, keysMap)
      {
        var key := pool[i].body.call.access[j];
        if key !in keysMap {
          NewKey(pool, i, j, own, toKeys, toTxs, keysMap, key);
          keysMap := keysMap[key := |pool| + |toTxs|];
          toTxs := toTxs + [[]];
        }
        LinkKey(pool, i, j, own, toKeys, toTxs, keysMap);
        var x := keysMap[key] - |pool|;
        toTxs := toTxs[x := toTxs[x] + [i]];
        own := own + [|pool| + x];
        j := j + 1;
      }
      UpToEnds(pool, i, own, toKeys, toTxs, keysMap);
      toKeys := toKeys + [own];
      i := i + 1;
    }
    links, keys := toKeys + toTxs, keysMap;
    GraphSize(pool, |pool|, toKeys, toTxs, keysMap);
    assert links[..|pool|] == toKeys && links[|pool|..] == toTxs;
  }

  lemma EmptyGraph(pool: seq<Transaction>)
    ensures GraphOf(pool, 0, [], [], map[])
  {
  }

  lemma GraphSize(pool: seq<Transaction>, n: nat, toKeys: Links, toTxs: Links, keys: map<Key, nat>)
    requires GraphOf(pool, n, toKeys, toTxs, keys)
    ensures |toKeys| == n
  {
  }

  // ---------------------------------------------------------------------------
  // Connected transactions.

  ghost predicate Shares(pool: seq<Transaction>, i: nat, j: nat) {
    i < |pool| && j < |pool| && exists k :: k in pool[i].body.call.access && k in pool[j].body.call.access
  }

  /** Each transaction of the chain shares a declared key with the next. */
  ghost predicate Chain(pool: seq<Transaction>, p: seq<nat>) {
    p != [] && p[0] < |pool| && forall i :: 0 <= i < |p| - 1 ==> Linked(pool, p, i)
  }

  ghost predicate Linked(pool: seq<Transaction>, p: seq<nat>, i: nat)
    requires i + 1 < |p|
  {
    Shares(pool, p[i], p[i + 1])
  }

  ghost predicate Joins(pool: seq<Transaction>, i: nat, j: nat, p: seq<nat>) {
    Chain(pool, p) && p[0] == i && p[|p| - 1] == j
  }

  /** The transitive closure of sharing a declared key. */
  ghost predicate Connected(pool: seq<Transaction>, i: nat, j: nat) {
    exists p :: Joins(pool, i, j, p)
  }

  lemma ChainOn(pool: seq<Transaction>, i: nat, j: nat, l: nat)
    requires Connected(pool, i, j) && Shares(pool, j, l)
    ensures Connected(pool, i, l)
  {
    var p :| Joins(pool, i, j, p);
    var q := p + [l];
    forall x | 0 <= x < |q| - 1 ensures Linked(pool, q, x) {
      if x < |p| - 1 {
        assert Linked(pool, p, x);
      }
    }
    assert Joins(pool, i, l, q);
  }

  lemma ConnectedSelf(pool: seq<Transaction>, i: nat)
    requires i < |pool|
    ensures Connected(pool, i, i)
  {
    assert Joins(pool, i, i, [i]);
  }

  // ---------------------------------------------------------------------------
  // Walks in the graph and chains in the pool.

  ghost predicate PoolGraph(pool: seq<Transaction>, links: Links, keys: map<Key, nat>) {
    |links| >= |pool| && GraphOf(pool, |pool|, links[..|pool|], links[|pool|..], keys)
  }

  lemma PoolGraphLinks(pool: seq<Transaction>, links: Links, keys: map<Key, nat>)
    requires PoolGraph(pool, links, keys)
    ensures WellLinked(links) && |links| >= |pool|
    ensures forall i: nat :: i < |pool| ==> LinksTo(links[i], pool[i].body.call.access, keys)
    ensures forall k :: k in keys ==> |pool| <= keys[k] < |links|
    ensures forall k :: k in keys ==> KeyNodeOk(pool, k, links[keys[k]], |pool|)
    ensures forall x: nat :: |pool| <= x < |links| ==> HasNode(keys, x)
  {
    var n := |pool|;
    assert forall x :: n <= x < |links| ==> links[x] == links[n..][x - n];
    assert forall i :: 0 <= i < n ==> links[i] == links[..n][i];
    forall u | 0 <= u < |links| ensures Within(links[u], |links|) {
      forall i | 0 <= i < |links[u]| ensures links[u][i] < |links| {
        var v := links[u][i];
        assert v in links[u];
        if u < n {
          assert LinksTo(links[u], pool[u].body.call.access, keys);
          assert NodeAmong(pool[u].body.call.access, keys, v);
        } else {
          assert HasNode(keys, u);
          var k :| k in keys && keys[k] == u;
          assert KeyNodeOk(pool, k, links[n..][keys[k] - n], n);
        }
      }
    }
  }

  /** No link leads from a marked node to an unmarked one. */
  ghost predicate Closed(links: Links, marks: Marks) {
    |marks| == |links| && forall u, v :: 0 <= u < |links| && v in links[u] && v < |links| && marks[u].Some? ==> marks[v].Some?
  }

  lemma Symmetric(pool: seq<Transaction>, links: Links, keys: map<Key, nat>, u: nat, v: nat)
    requires PoolGraph(pool, links, keys) && u < |links| && v in links[u]
    ensures v < |links| && u in links[v]
  {
    hide PoolGraph;
    PoolGraphLinks(pool, links, keys);
    if u < |pool| {
      assert LinksTo(links[u], pool[u].body.call.access, keys);
      assert NodeAmong(pool[u].body.call.access, keys, v);
      var k :| k in pool[u].body.call.access && k in keys && keys[k] == v;
    } else {
      assert HasNode(keys, u);
      var k :| k in keys && keys[k] == u;
      assert KeyNodeOk(pool, k, links[u], |pool|);
      assert LinksTo(links[v], pool[v].body.call.access, keys);
      assert NodeAmong(pool[v].body.call.access, keys, u);
    }
  }

  /** The transaction a walk is at, or could go to next. */
  ghost predicate At(pool: seq<Transaction>, keys: map<Key, nat>, i: nat, v: nat) {
    if v < |pool| then Connected(pool, i, v)
    else exists j: nat :: Connected(pool, i, j) && j < |pool| && NodeAmong(pool[j].body.call.access, keys, v)
  }

  lemma WalkConnects(pool: seq<Transaction>, links: Links, keys: map<Key, nat>, marks: Marks, p: seq<nat>)
    requires PoolGraph(pool, links, keys) && |marks| == |links| && FreeWalk(links, marks, p) && p[0] < |pool|
    ensures At(pool, keys, p[0], p[|p| - 1])
    decreases |p|
  {
    hide PoolGraph, Connected;
    PoolGraphLinks(pool, links, keys);
    if |p| == 1 {
      ConnectedSelf(pool, p[0]);
    } else {
      var q := p[..|p| - 1];
      WalkPrefix(links, marks, p);
      WalkConnects(pool, links, keys, marks, q);
      var u, v := q[|q| - 1], p[|p| - 1];
      if u < |pool| {
        assert LinksTo(links[u], pool[u].body.call.access, keys) && NodeAmong(pool[u].body.call.access, keys, v);
        assert At(pool, keys, p[0], v);
      } else {
        var j: nat :| Connected(pool, p[0], j) && j < |pool| && NodeAmong(pool[j].body.call.access, keys, u);
        var k :| k in pool[j].body.call.access && k in keys && keys[k] == u;
        assert KeyNodeOk(pool, k, links[u], |pool|);
        assert Shares(pool, j, v);
        ChainOn(pool, p[0], j, v);
      }
    }
  }

  /** With no links from marked to unmarked nodes, an unmarked transaction's chain is a walk through unmarked nodes. */
  lemma ChainWalks(pool: seq<Transaction>, links: Links, keys: map<Key, nat>, marks: Marks, p: seq<nat>) returns (q: seq<nat>)
    requires PoolGraph(pool, links, keys) && |marks| == |links| && Closed(links, marks) && Chain(pool, p) && marks[p[0]].None?
    ensures WalkTo(links, marks, p[0], p[|p| - 1], q) && p[|p| - 1] < |pool| && marks[p[|p| - 1]].None?
    decreases |p|
  {
    hide PoolGraph;
    PoolGraphLinks(pool, links, keys);
    if |p| == 1 {
      q := [p[0]];
      assert WalkTo(links, marks, p[0], p[0], q);
    } else {
      var r := p[..|p| - 1];
      ChainPrefix(pool, p);
      q := ChainWalks(pool, links, keys, marks, r);
      var j, l := r[|r| - 1], p[|p| - 1];
      var k :| k in pool[j].body.call.access && k in pool[l].body.call.access;
      var v := keys[k];
      assert LinksTo(links[j], pool[j].body.call.access, keys) && NodeAmong(pool[j].body.call.access, keys, v);
      StillUnmarked(pool, links, keys, marks, j, v);
      WalkOn(links, marks, q, v);
      StillUnmarked(pool, links, keys, marks, v, l);
      assert KeyNodeOk(pool, k, links[keys[k]], |pool|);
      WalkOn(links, marks, q + [v], l);
      assert WalkTo(links, marks, p[0], l, q + [v] + [l]);
      q := q + [v] + [l];
    }
  }

  lemma ChainPrefix(pool: seq<Transaction>, p: seq<nat>)
    requires Chain(pool, p) && |p| > 1
    ensures var r := p[..|p| - 1]; Chain(pool, r) && r[0] == p[0] && Shares(pool, r[|r| - 1], p[|p| - 1])
  {
    var r := p[..|p| - 1];
    forall i | 0 <= i < |r| - 1 ensures Linked(pool, r, i) {
      assert Linked(pool, p, i);
    }
    assert Linked(pool, p, |p| - 2);
  }

  lemma StillUnmarked(pool: seq<Transaction>, links: Links, keys: map<Key, nat>, marks: Marks, u: nat, v: nat)
    requires PoolGraph(pool, links, keys) && |marks| == |links| && Closed(links, marks) && u < |links| && v in links[u] && marks[u].None?
    ensures v < |links| && marks[v].None?
  {
    hide PoolGraph;
    Symmetric(pool, links, keys, u, v);
  }

  /** What a traversal from an unmarked transaction finds are the transactions connected with it. */
  lemma ReachedIsConnected(pool: seq<Transaction>, links: Links, keys: map<Key, nat>, marks: Marks, i: nat, j: nat)
    requires PoolGraph(pool, links, keys) && |marks| == |links| && Closed(links, marks) && i < |pool| && j < |pool| && marks[i].None?
    ensures Reached(links, marks, i, j) <==> Connected(pool, i, j)
  {
    hide PoolGraph, Closed, Chain, FreeWalk;
    PoolGraphLinks(pool, links, keys);
    if Reached(links, marks, i, j) {
      var p :| WalkTo(links, marks, i, j, p);
      WalkStart(links, marks, p);
      WalkConnects(pool, links, keys, marks, p);
    }
    if Connected(pool, i, j) {
      var p :| Joins(pool, i, j, p);
      ChainStart(pool, p);
      var q := ChainWalks(pool, links, keys, marks, p);
    }
  }

  lemma WalkStart(links: Links, marks: Marks, p: seq<nat>)
    requires |marks| == |links| && FreeWalk(links, marks, p)
    ensures p != []
  {
  }

  lemma ChainStart(pool: seq<Transaction>, p: seq<nat>)
    requires Chain(pool, p)
    ensures p != []
  {
  }

  /** From a marked node nothing is reached, and after any traversal nothing unmarked is next to anything marked. */
  lemma MarkedReachesNothing(links: Links, marks: Marks, start: nat, v: nat)
    requires WellLinked(links) && |marks| == |links| && Closed(links, marks) && start < |links| && marks[start].Some?
    ensures !Reached(links, marks, start, v)
  {
    hide Closed, FreeWalk;
    if Reached(links, marks, start, v) {
      var p :| WalkTo(links, marks, start, v, p);
      WalkStaysMarked(links, marks, p);
    }
  }

  lemma WalkStaysMarked(links: Links, marks: Marks, p: seq<nat>)
    requires WellLinked(links) && |marks| == |links| && Closed(links, marks) && FreeWalk(links, marks, p) && marks[p[0]].Some?
    ensures |p| == 1
    decreases |p|
  {
    if |p| > 1 {
      WalkPrefix(links, marks, p);
      WalkStaysMarked(links, marks, p[..|p| - 1]);
    }
  }

  lemma ClosedAfter(links: Links, marks: Marks, marks': Marks, start: nat, id: nat)
    requires WellLinked(links) && |marks| == |links| && Closed(links, marks) && start < |links| && |marks'| == |links|
    requires forall u :: 0 <= u < |links| ==> marks'[u] == if Reached(links, marks, start, u) then Some(id) else marks[u]
    ensures Closed(links, marks')
  {
    hide Reached;
    forall u, v | 0 <= u < |links| && v in links[u] && v < |links| && marks'[u].Some? ensures marks'[v].Some? {
      if marks[u].None? && marks[v].None? {
        ReachedNext(links, marks, start, u, v);
      }
    }
  }

  // ---------------------------------------------------------------------------
  // The components.

  /** Each part is a class of connected transactions, listed once each; no transaction is in two parts. */
  ghost predicate Classes(pool: seq<Transaction>, parts: seq<seq<nat>>) {
    && (forall c :: 0 <= c < |parts| ==> IsClass(pool, parts[c]))
    && (forall c, e, i :: 0 <= c < e < |parts| && i in parts[c] ==> i !in parts[e])
  }

  ghost predicate IsClass(pool: seq<Transaction>, part: seq<nat>) {
    && part != [] && Within(part, |pool|)
    && (forall x, y :: 0 <= x < y < |part| ==> part[x] != part[y])
    && (forall i, j: nat :: i in part ==> (j in part <==> j < |pool| && Connected(pool, i, j)))
  }

  ghost predicate Covered(parts: seq<seq<nat>>, i: nat) {
    exists c :: 0 <= c < |parts| && i in parts[c]
  }

  /** The parts are exactly the classes of the transitive closure of sharing a declared key. */
  ghost predicate Partition(pool: seq<Transaction>, parts: seq<seq<nat>>) {
    Classes(pool, parts) && forall i: nat :: i < |pool| ==> Covered(parts, i)
  }

  ghost predicate MarkedAre(pool: seq<Transaction>, marks: Marks, parts: seq<seq<nat>>, n: nat) {
    && |pool| <= |marks|
    && (forall i: nat :: i < |pool| ==> (marks[i].Some? <==> Covered(parts, i)))
    && (forall i: nat :: i < n && i < |pool| ==> marks[i].Some?)
  }

  lemma ConnectedSwap(pool: seq<Transaction>, i: nat, j: nat)
    requires Connected(pool, i, j)
    ensures Connected(pool, j, i) && i < |pool| && j < |pool|
  {
    var p :| Joins(pool, i, j, p);
    var q := ChainBack(pool, p);
    assert Joins(pool, j, i, q);
  }

  lemma ChainBack(pool: seq<Transaction>, p: seq<nat>) returns (q: seq<nat>)
    requires Chain(pool, p)
    ensures Chain(pool, q) && q[0] == p[|p| - 1] && q[|q| - 1] == p[0] && p[|p| - 1] < |pool|
    decreases |p|
  {
    if |p| == 1 {
      q := p;
    } else {
      ChainPrefix(pool, p);
      var r := ChainBack(pool, p[..|p| - 1]);
      q := [p[|p| - 1]] + r;
      forall i | 0 <= i < |q| - 1 ensures Linked(pool, q, i) {
        if i > 0 {
          assert Linked(pool, r, i - 1);
        }
      }
    }
  }

  lemma ConnectedThrough(pool: seq<Transaction>, i: nat, j: nat, l: nat)
    requires Connected(pool, i, j) && Connected(pool, j, l)
    ensures Connected(pool, i, l)
  {
    var p :| Joins(pool, j, l, p);
    ConnectedAlong(pool, i, p);
  }

  lemma ConnectedAlong(pool: seq<Transaction>, i: nat, p: seq<nat>)
    requires Chain(pool, p) && Connected(pool, i, p[0])
    ensures Connected(pool, i, p[|p| - 1])
    decreases |p|
  {
    if |p| > 1 {
      ChainPrefix(pool, p);
      ConnectedAlong(pool, i, p[..|p| - 1]);
      ChainOn(pool, i, p[|p| - 2], p[|p| - 1]);
    }
  }

  /** What a traversal finds, if anything, is a class of its own. */
  lemma FoundClass(pool: seq<Transaction>, links: Links, keys: map<Key, nat>, marks: Marks, i: nat, found: seq<nat>)
    requires PoolGraph(pool, links, keys) && |marks| == |links| && Closed(links, marks) && i < |pool| && marks[i].None?
    requires forall u: nat :: u in found <==> u < |pool| && Reached(links, marks, i, u)
    requires forall x, y :: 0 <= x < y < |found| ==> found[x] != found[y]
    ensures IsClass(pool, found) && i in found
  {
    hide PoolGraph, Closed, Reached, Connected;
    forall j: nat ensures j in found <==> j < |pool| && Connected(pool, i, j) {
      if j < |pool| {
        ReachedIsConnected(pool, links, keys, marks, i, j);
      }
    }
    ConnectedSelf(pool, i);
    forall a: nat, b: nat | a in found ensures b in found <==> b < |pool| && Connected(pool, a, b) {
      ConnectedSwap(pool, i, a);
      if b < |pool| && Connected(pool, a, b) {
        ConnectedThrough(pool, i, a, b);
      }
      if b in found {
        ConnectedThrough(pool, a, i, b);
      }
    }
    forall x | 0 <= x < |found| ensures found[x] < |pool| {
      assert found[x] in found;
    }
  }

  lemma OnePartMore(pool: seq<Transaction>, marks: Marks, marks': Marks, parts: seq<seq<nat>>, i: nat, found: seq<nat>)
    requires Classes(pool, parts) && MarkedAre(pool, marks, parts, i) && i < |pool| <= |marks| == |marks'| && marks[i].None?
    requires IsClass(pool, found) && i in found
    requires forall u: nat :: u in found ==> marks[u].None?
    requires forall u: nat :: u < |pool| ==> (marks'[u].Some? <==> marks[u].Some? || u in found)
    ensures Classes(pool, parts + [found]) && MarkedAre(pool, marks', parts + [found], i + 1)
  {
    hide IsClass;
    var parts' := parts + [found];
    forall c, e, j | 0 <= c < e < |parts'| && j in parts'[c] ensures j !in parts'[e] {
      if e == |parts| && j in found {
        assert Covered(parts, j) by { assert j in parts[c]; }
        FoundWithin(pool, found, j);
      }
    }
    forall j: nat | j < |pool| ensures marks'[j].Some? <==> Covered(parts', j) {
      if Covered(parts, j) {
        var c :| 0 <= c < |parts| && j in parts[c];
        assert j in parts'[c];
      }
      if j in found {
        assert j in parts'[|parts|];
      }
    }
  }

  lemma FoundWithin(pool: seq<Transaction>, found: seq<nat>, j: nat)
    requires IsClass(pool, found) && j in found
    ensures j < |pool|
  {
  }

  method FindComponents(pool: seq<Transaction>) returns (components: seq<seq<nat>>)
    ensures Partition(pool, components)
  {
    hide GraphOf, PoolGraph, Closed, Classes, MarkedAre, Reached, WellLinked;
    var links, keys := BuildGraph(pool);
    PoolGraphIs(pool, links, keys);
    PoolGraphLinks(pool, links, keys);
    var graph := new Graph(links, |pool|);
    components := [];
    NothingMarked(pool, links, graph.component[..]);
    var i := 0;
    while i < |pool|
      invariant i <= |pool| && graph.Valid() && graph.links == links && graph.txs == |pool|
      invariant Closed(links, graph.component[..])
      invariant Classes(pool, components) && MarkedAre(pool, graph.component[..], components, i)
    {
      ghost var marks := graph.component[..];
      var found := graph.Traverse(i, i);
      ClosedAfter(links, marks, graph.component[..], i, i);
      if marks[i].Some? {
        NothingFound(pool, links, marks, graph.component[..], components, i, found);
      } else {
        FoundClass(pool, links, keys, marks, i, found);
        FoundUnmarked(links, marks, i);
        OnePartMore(pool, marks, graph.component[..], components, i, found);
      }
      if found != [] {
        components := components + [found];
      }
      i := i + 1;
    }
    EverythingCovered(pool, graph.component[..], components);
  }

  lemma PoolGraphIs(pool: seq<Transaction>, links: Links, keys: map<Key, nat>)
    requires |links| >= |pool| && GraphOf(pool, |pool|, links[..|pool|], links[|pool|..], keys)
    ensures PoolGraph(pool, links, keys)
  {
  }

  lemma NothingMarked(pool: seq<Transaction>, links: Links, marks: Marks)
    requires |marks| == |links| >= |pool| && forall i :: 0 <= i < |marks| ==> marks[i] == None
    ensures |marks| == |links| && Closed(links, marks) && Classes(pool, []) && MarkedAre(pool, marks, [], 0)
  {
  }

  lemma NothingFound(pool: seq<Transaction>, links: Links, marks: Marks, marks': Marks, parts: seq<seq<nat>>, i: nat, found: seq<nat>)
    requires WellLinked(links) && |marks| == |links| && Closed(links, marks) && i < |pool| <= |links| == |marks'| && marks[i].Some?
    requires MarkedAre(pool, marks, parts, i)
    requires forall u: nat :: u in found <==> u < |pool| && Reached(links, marks, i, u)
    requires forall u :: 0 <= u < |links| ==> marks'[u] == if Reached(links, marks, i, u) then Some(i) else marks[u]
    ensures found == [] && MarkedAre(pool, marks', parts, i + 1)
  {
    hide Reached, Closed, WellLinked, Covered;
    forall u: nat ensures !Reached(links, marks, i, u) {
      MarkedReachesNothing(links, marks, i, u);
    }
    EmptyNow(found);
  }

  lemma EmptyNow(found: seq<nat>)
    requires forall u: nat :: u !in found
    ensures found == []
  {
    HeadIn(found);
  }

  lemma HeadIn(found: seq<nat>)
    ensures found != [] ==> found[0] in found
  {
  }

  lemma FoundUnmarked(links: Links, marks: Marks, i: nat)
    requires |marks| == |links|
    ensures forall u: nat :: Reached(links, marks, i, u) ==> u < |links| && marks[u].None?
  {
  }

  lemma EverythingCovered(pool: seq<Transaction>, marks: Marks, parts: seq<seq<nat>>)
    requires Classes(pool, parts) && MarkedAre(pool, marks, parts, |pool|)
    ensures Partition(pool, parts)
  {
    hide Classes, Covered;
  }

  // ---------------------------------------------------------------------------
  // What the classes are, in terms of the declared keys alone.

  /** No declared key is shared between a transaction in the set and one outside. */
  ghost predicate ClosedUnderSharing(pool: seq<Transaction>, among: set<nat>) {
    forall i: nat, j: nat, k {:trigger k in pool[i].body.call.access, k in pool[j].body.call.access} ::
      i in among && i < |pool| && j < |pool| && k in pool[i].body.call.access && k in pool[j].body.call.access ==> j in among
  }

  lemma ChainStays(pool: seq<Transaction>, p: seq<nat>, among: set<nat>)
    requires Chain(pool, p) && ClosedUnderSharing(pool, among) && p[0] in among
    ensures p[|p| - 1] in among
    decreases |p|
  {
    if |p| > 1 {
      ChainPrefix(pool, p);
      ChainStays(pool, p[..|p| - 1], among);
    }
  }

  /** Two transactions are not connected exactly when some set separates them that shares no declared key with the rest. */
  lemma ApartExactly(pool: seq<Transaction>, i: nat, j: nat)
    requires i < |pool| && j < |pool|
    ensures !Connected(pool, i, j) <==> exists among: set<nat> :: ClosedUnderSharing(pool, among) && i in among && j !in among
  {
    hide Chain;
    if Connected(pool, i, j) {
      var p :| Joins(pool, i, j, p);
      forall among: set<nat> | ClosedUnderSharing(pool, among) && i in among ensures j in among {
        ChainStart(pool, p);
        ChainStays(pool, p, among);
      }
    } else {
      var among := set u: nat | u < |pool| && Connected(pool, i, u);
      ConnectedSelf(pool, i);
      ConnectedIsClosed(pool, i, among);
      assert i in among && j !in among;
    }
  }

  lemma ConnectedIsClosed(pool: seq<Transaction>, i: nat, among: set<nat>)
    requires forall u: nat :: u in among <==> u < |pool| && Connected(pool, i, u)
    ensures ClosedUnderSharing(pool, among)
  {
    hide Connected;
    forall u: nat, v: nat, k {:trigger k in pool[u].body.call.access, k in pool[v].body.call.access}
      | u in among && u < |pool| && v < |pool| && k in pool[u].body.call.access && k in pool[v].body.call.access
      ensures v in among
    {
      assert Shares(pool, u, v);
      ChainOn(pool, i, u, v);
    }
  }

  /** Two transactions are in one component exactly when they are connected. */
  lemma TogetherExactly(pool: seq<Transaction>, parts: seq<seq<nat>>, i: nat, j: nat)
    requires Partition(pool, parts) && i < |pool| && j < |pool|
    ensures Connected(pool, i, j) <==> exists c :: 0 <= c < |parts| && i in parts[c] && j in parts[c]
  {
    hide Connected;
    assert Covered(parts, i);
    var c :| 0 <= c < |parts| && i in parts[c];
    assert IsClass(pool, parts[c]);
    forall e | 0 <= e < |parts| && i in parts[e] ensures e == c {
    }
  }
}
