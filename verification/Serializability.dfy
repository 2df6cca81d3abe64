// Why the order of the pool is good enough: transactions of different workers touch
// different keys, so only the order within each worker matters.
module Serializability {
  import opened Storage
  import opened TaintState
  import opened Program
  import opened Transactions
  import opened Protocol
  import opened Sequences
  import opened Bookkeeping
  import opened Undisturbed

  lemma BodiesSnoc(txs: seq<Transaction>, t: Transaction)
    ensures Bodies(txs + [t]) == Bodies(txs) + [t.body]
  {
  }

  lemma OwnDisjoint(s: StateMap, v: ThreadId, w: ThreadId)
    requires v != w
    ensures Own(s, v) !! Own(s, w)
  {
  }

  /** Executed in order, each worker's transactions touch only what `s` says the worker owns. */
  ghost predicate EachConfined(txs: seq<Transaction>, d: Store, s: StateMap) {
    && (forall t :: t in txs ==> t.tag.DoneBy?)
    && (forall w: ThreadId :: Confined(Bodies(TaggedFor(txs, w)), d, Own(s, w)))
  }

  /**
    Running all the transactions in order gives, on the keys of each worker, what running
    that worker's transactions alone gives, and changes nothing else.
   */
  lemma {:induction false} RunByWorker(txs: seq<Transaction>, d: Store, s: StateMap)
    requires EachConfined(txs, d, s)
    ensures forall w: ThreadId :: Coincide(Run(d, Bodies(TaggedFor(txs, w))), Run(d, Bodies(txs)), Own(s, w))
    ensures forall k :: Owner(s, k) == None ==>
              Get(Run(d, Bodies(txs)), k) == Get(d, k) && (k in Run(d, Bodies(txs)) <==> k in d)
  {
    if txs != [] {
      var init, t := txs[..|txs| - 1], txs[|txs| - 1];
      var w := t.tag.worker;
      assert txs == init + [t];
      BodiesSnoc(init, t);
      forall v: ThreadId ensures Confined(Bodies(TaggedFor(init, v)), d, Own(s, v)) {
        EarlierConfined(init, t, d, s, v);
      }
      RunByWorker(init, d, s);
      LastOne(init, t, d, s);
    }
  }

  lemma EarlierConfined(init: seq<Transaction>, t: Transaction, d: Store, s: StateMap, v: ThreadId)
    requires Confined(Bodies(TaggedFor(init + [t], v)), d, Own(s, v))
    ensures Confined(Bodies(TaggedFor(init, v)), d, Own(s, v))
    ensures t.tag == DoneBy(v) ==> CallKeys(t.body.call, Run(d, Bodies(TaggedFor(init, v)))) <= Own(s, v)
  {
    TaggedSnoc(init, t, v);
    if t.tag == DoneBy(v) {
      BodiesSnoc(TaggedFor(init, v), t);
      ConfinedSnoc(Bodies(TaggedFor(init, v)), t.body, d, Own(s, v));
    }
  }

  lemma LastOne(init: seq<Transaction>, t: Transaction, d: Store, s: StateMap)
    requires t.tag.DoneBy? && EachConfined(init + [t], d, s)
    requires forall w: ThreadId :: Coincide(Run(d, Bodies(TaggedFor(init, w))), Run(d, Bodies(init)), Own(s, w))
    requires forall k :: Owner(s, k) == None ==>
               Get(Run(d, Bodies(init)), k) == Get(d, k) && (k in Run(d, Bodies(init)) <==> k in d)
    ensures forall w: ThreadId :: Coincide(Run(d, Bodies(TaggedFor(init + [t], w))), Run(d, Bodies(init) + [t.body]), Own(s, w))
    ensures forall k :: Owner(s, k) == None ==>
              Get(Run(d, Bodies(init) + [t.body]), k) == Get(d, k) && (k in Run(d, Bodies(init) + [t.body]) <==> k in d)
  {
    var w, c := t.tag.worker, t.body.call;
    var alone, before := Run(d, Bodies(TaggedFor(init, w))), Run(d, Bodies(init));
    EarlierConfined(init, t, d, s, w);
    ExecCoincide(c.steps, c.body, alone, before, Own(s, w));
    RunSnoc(d, Bodies(init), t.body);
    forall v: ThreadId ensures Coincide(Run(d, Bodies(TaggedFor(init + [t], v))), Run(d, Bodies(init) + [t.body]), Own(s, v)) {
      TaggedSnoc(init, t, v);
      if v == w {
        BodiesSnoc(TaggedFor(init, w), t);
        RunSnoc(d, Bodies(TaggedFor(init, w)), t.body);
      } else {
        OwnDisjoint(s, v, w);
        forall k | k in Own(s, v)
          ensures Get(Run(d, Bodies(init) + [t.body]), k) == Get(before, k) && (k in Run(d, Bodies(init) + [t.body]) <==> k in before)
        {
          ExecFrame(c.steps, c.body, before, k);
        }
      }
    }
    forall k | Owner(s, k) == None
      ensures Get(Run(d, Bodies(init) + [t.body]), k) == Get(d, k) && (k in Run(d, Bodies(init) + [t.body]) <==> k in d)
    {
      ExecFrame(c.steps, c.body, before, k);
    }
  }

  // ---------------------------------------------------------------------------
  // The pool's order within each worker is the order in which it executed.

  lemma {:induction false} KeepAlike(txs: seq<Transaction>, fates: map<nat, Fate>, p: Fate -> bool, q: Fate -> bool)
    requires forall t :: t in txs ==> t.body.id in fates && (p(fates[t.body.id]) <==> q(fates[t.body.id]))
    ensures Keep(txs, fates, p) == Keep(txs, fates, q)
  {
    if txs != [] {
      assert txs[|txs| - 1] in txs;
      KeepAlike(txs[..|txs| - 1], fates, p, q);
    }
  }

  /** Two lists of bodies from a pool of unique ids are equal when their ids are. */
  lemma SameBodies(pool: seq<Transaction>, xs: seq<Body>, ys: seq<Body>)
    requires Unique(pool) && BodyIds(xs) == BodyIds(ys)
    requires forall b :: b in xs ==> b in Bodies(pool)
    requires forall b :: b in ys ==> b in Bodies(pool)
    ensures xs == ys
  {
    assert |xs| == |BodyIds(xs)| == |ys|;
    forall i | 0 <= i < |xs| ensures xs[i] == ys[i] {
      assert BodyIds(xs)[i] == BodyIds(ys)[i];
      assert xs[i] in xs && ys[i] in ys;
      var j :| 0 <= j < |pool| && Bodies(pool)[j] == xs[i];
      var k :| 0 <= k < |pool| && Bodies(pool)[k] == ys[i];
      assert pool[j].body.id == pool[k].body.id;
    }
  }

  lemma PoolTagged(task: Task, s: Sys)
    requires TaskValid(task) && PoolOk(task, s)
    ensures forall t :: t in s.master.pool ==> t.tag.DoneBy?
  {
    var kept := Keep(task.pool, s.history.fates, Unresolved);
    forall t | t in s.master.pool ensures t.tag.DoneBy? {
      assert t in kept || t in s.history.moved;
    }
  }

  /** The first part of what the pool tags with `w`: its own transactions that nobody moved, which it executed itself. */
  lemma OwnFirst(task: Task, s: Sys, w: ThreadId)
    requires PoolOk(task, s) && Quiet(task, s)
    ensures TaggedFor(s.master.pool, w) == Keep(Assigned(task, w), s.history.fates, IsLocal) + TaggedFor(s.history.moved, w)
  {
    var fates := s.history.fates;
    var kept := Keep(task.pool, fates, Unresolved);
    TaggedConcat(kept, s.history.moved, w);
    TaggedKeep(task.pool, fates, Unresolved, w);
    forall t | t in Assigned(task, w) ensures t.body.id in fates {
      var i :| 0 <= i < |task.pool| && task.pool[i] == t;
      assert Contains(task.pool, t.body.id);
    }
    KeepAlike(Assigned(task, w), fates, Unresolved, IsLocal);
  }

  lemma MovedInPool(task: Task, s: Sys, w: ThreadId)
    requires PoolOk(task, s)
    ensures forall b :: b in Bodies(TaggedFor(s.history.moved, w)) ==> b in Bodies(task.pool)
  {
    var moved := TaggedFor(s.history.moved, w);
    forall b | b in Bodies(moved) ensures b in Bodies(task.pool) {
      var i :| 0 <= i < |moved| && Bodies(moved)[i] == b;
      assert moved[i] in s.history.moved;
    }
  }

  /** The log of a worker that has nothing left to do or to report. */
  lemma LogSplit(given: seq<Transaction>, pool: seq<Transaction>, fates: map<nat, Fate>, moved: seq<Transaction>, w: ThreadId, p: Port)
    requires LogOk(given, pool, fates, moved, w, p) && p.outbox == [] && Processed(p) == |given|
    ensures p.executed <= |p.log| && p.log[..p.executed] == Bodies(Keep(given, fates, IsLocal))
    ensures BodyIds(p.log[p.executed..]) == BodyIds(Bodies(TaggedFor(moved, w)))
    ensures forall b :: b in p.log[p.executed..] ==> b in Bodies(pool)
  {
    assert given[..|given|] == given;
    assert Ids(TaggedFor(moved, w)) == BodyIds(Bodies(TaggedFor(moved, w)));
    forall b | b in p.log[p.executed..] ensures b in p.log {
    }
  }

  lemma AllProcessed(task: Task, s: Sys, w: ThreadId)
    requires Quiet(task, s) && w < |s.workers| && WorkerOk(task, s, w)
    ensures s.workers[w].port.outbox == [] && Processed(s.workers[w].port) == |Assigned(task, w)|
  {
  }

  /**
    Once the collection phase is over, the transactions the pool tags with a worker are,
    in pool order, exactly those the worker executed, in the order it executed them.
   */
  lemma OrderPreserved(task: Task, s: Sys, w: ThreadId)
    requires TaskValid(task) && Books(task, s) && Quiet(task, s) && w < |s.workers|
    ensures Bodies(TaggedFor(s.master.pool, w)) == s.workers[w].port.log
    ensures forall t :: t in s.master.pool ==> t.tag.DoneBy?
  {
    hide *;
    Parts(task, s, w);
    AllProcessed(task, s, w);
    PoolTagged(task, s);
    var p, moved := s.workers[w].port, TaggedFor(s.history.moved, w);
    OwnFirst(task, s, w);
    MovedInPool(task, s, w);
    LogOf(task, s, w);
    LogSplit(Assigned(task, w), task.pool, s.history.fates, s.history.moved, w, p);
    SameBodies(task.pool, p.log[p.executed..], Bodies(moved));
    BodiesConcat(Keep(Assigned(task, w), s.history.fates, IsLocal), moved);
    assert p.log == p.log[..p.executed] + p.log[p.executed..];
  }

  lemma Parts(task: Task, s: Sys, w: ThreadId)
    requires TaskValid(task) && Books(task, s) && w < |s.workers|
    ensures WorkerOk(task, s, w) && PoolOk(task, s) && Unique(task.pool)
  {
    hide WorkerOk, PoolOk, Unique;
  }

  lemma LogOf(task: Task, s: Sys, w: ThreadId)
    requires w < |s.workers| && WorkerOk(task, s, w)
    ensures LogOk(Assigned(task, w), task.pool, s.history.fates, s.history.moved, w, s.workers[w].port)
  {
  }

  lemma BodiesConcat(xs: seq<Transaction>, ys: seq<Transaction>)
    ensures Bodies(xs + ys) == Bodies(xs) + Bodies(ys)
  {
  }
}
