// The Kahn phase of RegisterMany: the order it emits is grounded, it is the least fixed point, and
// what it leaves over really contains a cycle.
module Kahn {
  import opened Text
  import opened Manifest
  import opened Graph

  /** The keys entry i still waits for. */
  ghost function OpenNeeds(b: Batch, i: nat, known: set<Key>): set<Key>
    requires i < |b.needs|
  {
    set k | k in b.needs[i] && !b.ext(k) && k !in known
  }

  /** Every need of every emitted entry is met from outside or by an entry emitted before. */
  ghost predicate Grounded(b: Batch, order: seq<nat>) {
    forall t, k :: 0 <= t < |order| && order[t] < |b.needs| && k in b.needs[order[t]] ==>
      b.ext(k) || GivenBy(b, Ids(order[..t]), k)
  }

  /** i waits for a key that nobody emitted gives. */
  ghost predicate Stuck(b: Batch, order: seq<nat>, i: nat)
    requires i < |b.needs|
  {
    exists k :: Unprovided(b, Ids(order), i, k)
  }

  ghost predicate KahnOrder(b: Batch, ids: set<nat>, order: seq<nat>) {
    && NoDup(order) && Ids(order) <= ids && Grounded(b, order)
    && forall i :: i in ids && i !in order && i < |b.needs| ==> Stuck(b, order, i)
  }

  // ---- in-degrees ----

  ghost predicate Degrees(b: Batch, ids: set<nat>, known: set<Key>, degree: seq<int>) {
    && |degree| == |b.needs|
    && forall i :: i in ids && i < |b.needs| ==> degree[i] == |OpenNeeds(b, i, known)|
  }

  ghost predicate Waits(b: Batch, ids: set<nat>, i: nat, k: Key) {
    i in ids && i < |b.needs| && k in b.needs[i] && !b.ext(k)
  }

  /** The waiter table over the entries below n, and the keys `seen` of entry n. */
  ghost predicate WaitersWithin(b: Batch, ids: set<nat>, table: map<Key, seq<nat>>, n: nat, seen: set<Key>) {
    && (forall k :: NoDup(Look(table, k)))
    && (forall k, u :: 0 <= u < |Look(table, k)| ==>
          var i := Look(table, k)[u]; Waits(b, ids, i, k) && (i < n || (i == n && k in seen)))
    && (forall k, i: nat :: Waits(b, ids, i, k) && i < n ==> i in Look(table, k))
    && (forall k :: k in seen ==> n in Look(table, k))
  }

  ghost predicate Waiters(b: Batch, ids: set<nat>, table: map<Key, seq<nat>>) {
    && (forall k :: NoDup(Look(table, k)))
    && (forall k, u :: 0 <= u < |Look(table, k)| ==> Waits(b, ids, Look(table, k)[u], k))
    && (forall k, i: nat :: Waits(b, ids, i, k) ==> i in Look(table, k))
  }

  lemma WaitOne(b: Batch, ids: set<nat>, table: map<Key, seq<nat>>, n: nat, seen: set<Key>, key: Key)
    requires WaitersWithin(b, ids, table, n, seen) && Waits(b, ids, n, key) && key !in seen
    ensures WaitersWithin(b, ids, table[key := Look(table, key) + [n]], n, seen + {key})
  {
    hide Waits;
    var ws := Look(table, key);
    var after := table[key := ws + [n]];
    assert Look(after, key) == ws + [n];
    assert forall k :: k != key ==> Look(after, k) == Look(table, k);
    assert forall u :: 0 <= u < |ws| ==> ws[u] < n;
    forall k
      ensures NoDup(Look(after, k))
    {
      assert NoDup(Look(table, k));
    }
    forall k, u | 0 <= u < |Look(after, k)|
      ensures var i := Look(after, k)[u]; Waits(b, ids, i, k) && (i < n || (i == n && k in seen + {key}))
    {
      assert u < |Look(table, k)| ==> Look(after, k)[u] == Look(table, k)[u];
    }
    forall k, i: nat | Waits(b, ids, i, k) && i < n
      ensures i in Look(after, k)
    {
      assert i in Look(table, k);
    }
    forall k | k in seen + {key}
      ensures n in Look(after, k)
    {
      assert k in seen ==> n in Look(table, k);
    }
  }

  lemma NextEntry(b: Batch, ids: set<nat>, table: map<Key, seq<nat>>, n: nat, seen: set<Key>)
    requires WaitersWithin(b, ids, table, n, seen) && n < |b.needs|
    requires n !in ids ==> seen == {}
    requires n in ids ==> seen == OpenNeeds(b, n, {})
    ensures WaitersWithin(b, ids, table, n + 1, {})
  {
    forall k, i: nat | Waits(b, ids, i, k) && i < n + 1
      ensures i in Look(table, k)
    {
      if i == n {
        assert k in OpenNeeds(b, n, {});
      }
    }
  }

  ghost function KeysOf(b: Batch, ks: seq<Key>): set<Key> {
    set k | k in ks && !b.ext(k)
  }

  lemma KeysOfNext(b: Batch, ks: seq<Key>, t: nat)
    requires t < |ks|
    ensures KeysOf(b, ks[..t + 1]) == KeysOf(b, ks[..t]) + (if b.ext(ks[t]) then {} else {ks[t]})
  {
    assert ks[..t + 1] == ks[..t] + [ks[t]];
  }

  /** The needs of one entry: its in-degree and its place among the waiters. */
  method CountEntry(b: Batch, ghost ids: set<nat>, i: nat, waiters: map<Key, seq<nat>>) returns (degree: int, table: map<Key, seq<nat>>)
    requires i in ids && i < |b.needs| && WaitersWithin(b, ids, waiters, i, {})
    ensures degree == |OpenNeeds(b, i, {})|
    ensures WaitersWithin(b, ids, table, i + 1, {})
  {
    hide WaitersWithin;
    degree, table := 0, waiters;
    var seen: set<Key> := {};
    for t := 0 to |b.needs[i]|
      invariant WaitersWithin(b, ids, table, i, seen)
      invariant degree == |seen| && seen == KeysOf(b, b.needs[i][..t])
    {
      var k := b.needs[i][t];
      KeysOfNext(b, b.needs[i], t);
      if b.ext(k) || k in seen {
        continue;
      }
      WaitOne(b, ids, table, i, seen, k);
      seen := seen + {k};
      degree := degree + 1;
      table := table[k := Look(table, k) + [i]];
    }
    assert b.needs[i][..|b.needs[i]|] == b.needs[i];
    assert seen == OpenNeeds(b, i, {});
    NextEntry(b, ids, table, i, seen);
  }

  method CountNeeds(b: Batch, active: array<bool>, indegree: array<int>) returns (waiters: map<Key, seq<nat>>)
    requires active.Length == indegree.Length == |b.needs|
    modifies indegree
    ensures Degrees(b, On(active[..]), {}, indegree[..])
    ensures Waiters(b, On(active[..]), waiters)
  {
    ghost var ids := On(active[..]);
    waiters := map[];
    assert WaitersWithin(b, ids, waiters, 0, {});
    hide WaitersWithin, OpenNeeds;
    for i := 0 to |b.needs|
      invariant WaitersWithin(b, ids, waiters, i, {})
      invariant forall j :: j in ids && j < i ==> indegree[j] == |OpenNeeds(b, j, {})|
    {
      if !active[i] {
        NextEntry(b, ids, waiters, i, {});
        continue;
      }
      var d;
      d, waiters := CountEntry(b, ids, i, waiters);
      indegree[i] := d;
    }
    WaitersAtEnd(b, ids, waiters);
  }

  lemma WaitersAtEnd(b: Batch, ids: set<nat>, table: map<Key, seq<nat>>)
    requires WaitersWithin(b, ids, table, |b.needs|, {})
    ensures Waiters(b, ids, table)
  {
    forall k, i: nat | Waits(b, ids, i, k)
      ensures i in Look(table, k)
    {
    }
  }

  // ---- opening keys ----

  lemma OpenOne(b: Batch, i: nat, known: set<Key>, k: Key)
    requires i < |b.needs| && k !in known
    ensures var less, more := OpenNeeds(b, i, known + {k}), OpenNeeds(b, i, known);
            if k in b.needs[i] && !b.ext(k) then |more| == |less| + 1 && more != {} else more == less
  {
    var less, more := OpenNeeds(b, i, known + {k}), OpenNeeds(b, i, known);
    if k in b.needs[i] && !b.ext(k) {
      assert more == less + {k} && k !in less;
    } else {
      assert more == less;
    }
  }

  /** Emitted and queued entries are the active ones with no open need. */
  ghost predicate Frontier(b: Batch, ids: set<nat>, order: seq<nat>, queue: seq<nat>, known: set<Key>) {
    && NoDup(order + queue)
    && (forall i :: i in order || i in queue ==> i in ids)
    && (forall i :: i in ids && i < |b.needs| ==> (i in order || i in queue <==> OpenNeeds(b, i, known) == {}))
  }

  ghost predicate HalfOpened(b: Batch, ids: set<nat>, known: set<Key>, k: Key, told: seq<nat>, degree: seq<int>) {
    && |degree| == |b.needs|
    && forall i :: i in ids && i < |b.needs| ==>
         degree[i] == |OpenNeeds(b, i, if i in told then known + {k} else known)|
  }

  /** While the waiters of k are told one by one, those that became free are queued. */
  ghost predicate HalfFrontier(b: Batch, ids: set<nat>, order: seq<nat>, queue: seq<nat>, known: set<Key>, k: Key, told: seq<nat>) {
    && NoDup(order + queue)
    && (forall i :: i in order || i in queue ==> i in ids)
    && (forall i :: i in ids && i < |b.needs| ==>
          (i in order || i in queue <==> OpenNeeds(b, i, if i in told then known + {k} else known) == {}))
  }

  lemma TellOne(b: Batch, ids: set<nat>, order: seq<nat>, queue: seq<nat>, known: set<Key>, k: Key, told: seq<nat>, degree: seq<int>, w: nat)
    requires k !in known && w !in told && Waits(b, ids, w, k)
    requires HalfOpened(b, ids, known, k, told, degree) && HalfFrontier(b, ids, order, queue, known, k, told)
    ensures var degree' := degree[w := degree[w] - 1];
            && HalfOpened(b, ids, known, k, told + [w], degree')
            && HalfFrontier(b, ids, order, if degree'[w] == 0 then queue + [w] else queue, known, k, told + [w])
  {
    OpenOne(b, w, known, k);
    var queue' := if degree[w] == 1 then queue + [w] else queue;
    assert w !in order && w !in queue;
    assert |OpenNeeds(b, w, known + {k})| == 0 <==> OpenNeeds(b, w, known + {k}) == {};
    hide OpenNeeds;
    assert forall i :: i in told + [w] <==> i in told || i == w;
    assert order + queue' == if degree[w] == 1 then (order + queue) + [w] else order + queue;
  }

  lemma ToldAll(b: Batch, ids: set<nat>, order: seq<nat>, queue: seq<nat>, known: set<Key>, k: Key, table: map<Key, seq<nat>>, degree: seq<int>)
    requires k !in known && Waiters(b, ids, table)
    requires HalfOpened(b, ids, known, k, Look(table, k), degree) && HalfFrontier(b, ids, order, queue, known, k, Look(table, k))
    ensures Degrees(b, ids, known + {k}, degree) && Frontier(b, ids, order, queue, known + {k})
  {
    forall i | i in ids && i < |b.needs|
      ensures OpenNeeds(b, i, if i in Look(table, k) then known + {k} else known) == OpenNeeds(b, i, known + {k})
    {
      OpenOne(b, i, known, k);
      if i !in Look(table, k) {
        assert !Waits(b, ids, i, k);
      }
    }
  }

  method OpenKey(b: Batch, ghost ids: set<nat>, ghost order: seq<nat>, waiters: map<Key, seq<nat>>, indegree: array<int>,
                 queue: seq<nat>, ghost known: set<Key>, k: Key) returns (queue': seq<nat>)
    requires k !in known && Waiters(b, ids, waiters)
    requires Degrees(b, ids, known, indegree[..]) && Frontier(b, ids, order, queue, known)
    modifies indegree
    ensures Degrees(b, ids, known + {k}, indegree[..]) && Frontier(b, ids, order, queue', known + {k})
  {
    queue' := queue;
    var ws := Look(waiters, k);
    assert HalfOpened(b, ids, known, k, [], indegree[..]) && HalfFrontier(b, ids, order, queue, known, k, []);
    assert NoDup(ws) && forall u :: 0 <= u < |ws| ==> Waits(b, ids, ws[u], k);
    assert ws[..0] == [];
    hide HalfOpened, HalfFrontier, Waiters, Degrees, Frontier;
    for t := 0 to |ws|
      invariant HalfOpened(b, ids, known, k, ws[..t], indegree[..])
      invariant HalfFrontier(b, ids, order, queue', known, k, ws[..t])
    {
      var w := ws[t];
      ghost var was := indegree[..];
      SameLength(b, ids, known, k, ws[..t], was);
      TellOne(b, ids, order, queue', known, k, ws[..t], was, w);
      indegree[w] := indegree[w] - 1;
      assert indegree[..] == was[w := was[w] - 1];
      assert ws[..t + 1] == ws[..t] + [w];
      if indegree[w] == 0 {
        queue' := queue' + [w];
      }
    }
    assert ws[..|ws|] == ws;
    ToldAll(b, ids, order, queue', known, k, waiters, indegree[..]);
  }

  lemma SameLength(b: Batch, ids: set<nat>, known: set<Key>, k: Key, told: seq<nat>, degree: seq<int>)
    requires HalfOpened(b, ids, known, k, told, degree)
    ensures |degree| == |b.needs|
  {
  }

  // ---- the main loop ----

  ghost predicate Opened(b: Batch, order: seq<nat>, known: set<Key>) {
    forall k :: k in known <==> GivenBy(b, Ids(order), k)
  }

  lemma EmitOne(b: Batch, ids: set<nat>, order: seq<nat>, queue: seq<nat>, known: set<Key>)
    requires WellFormed(b) && InRange(b, ids) && queue != []
    requires Frontier(b, ids, order, queue, known) && Opened(b, order, known) && Grounded(b, order)
    ensures Frontier(b, ids, order + [queue[0]], queue[1..], known) && Grounded(b, order + [queue[0]])
    ensures queue[0] in ids && queue[0] !in order
  {
    var i := queue[0];
    var order' := order + [i];
    assert order' + queue[1..] == order + queue;
    assert i in queue && i in ids;
    assert forall j :: j in queue <==> j == i || j in queue[1..];
    assert (order + queue)[|order|] == i;
    assert forall t :: 0 <= t < |order| ==> (order + queue)[t] == order[t];
    forall t, k | 0 <= t < |order'| && order'[t] < |b.needs| && k in b.needs[order'[t]]
      ensures b.ext(k) || GivenBy(b, Ids(order'[..t]), k)
    {
      if t < |order| {
        assert order'[..t] == order[..t];
      } else {
        assert order'[..t] == order;
        assert k !in OpenNeeds(b, i, known);
      }
    }
  }

  lemma OpenedNext(b: Batch, order: seq<nat>, known: set<Key>, i: nat)
    requires WellFormed(b) && i < |b.gives| && Opened(b, order, known)
    ensures Opened(b, order + [i], known + set k | k in b.gives[i])
  {
    forall k
      ensures GivenBy(b, Ids(order + [i]), k) <==> GivenBy(b, Ids(order), k) || k in b.gives[i]
    {
      assert Ids(order + [i]) == Ids(order) + {i};
      if k in b.gives[i] { assert i in Ids(order + [i]); }
      if GivenBy(b, Ids(order), k) { LessGives(b, Ids(order), Ids(order + [i]), k); }
    }
  }

  lemma FrontierAtEnd(b: Batch, ids: set<nat>, order: seq<nat>, known: set<Key>)
    requires InRange(b, ids) && Frontier(b, ids, order, [], known) && Opened(b, order, known) && Grounded(b, order)
    ensures KahnOrder(b, ids, order)
  {
    assert order + [] == order;
    forall i | i in ids && i !in order && i < |b.needs|
      ensures Stuck(b, order, i)
    {
      var k :| k in OpenNeeds(b, i, known);
      assert Unprovided(b, Ids(order), i, k);
    }
  }

  lemma ShorterRest(ids: set<nat>, order: seq<nat>, i: nat)
    requires i in ids && i !in order
    ensures |ids - Ids(order + [i])| < |ids - Ids(order)|
  {
    assert ids - Ids(order) == (ids - Ids(order + [i])) + {i};
  }

  /** Entries with no open need start the queue. */
  method StartQueue(b: Batch, active: array<bool>, indegree: array<int>) returns (queue: seq<nat>)
    requires active.Length == indegree.Length == |b.needs|
    requires Degrees(b, On(active[..]), {}, indegree[..])
    ensures Frontier(b, On(active[..]), [], queue, {})
  {
    ghost var ids := On(active[..]);
    queue := [];
    hide OpenNeeds;
    for i := 0 to |b.needs|
      invariant NoDup(queue)
      invariant forall j :: j in queue <==> 0 <= j < i && j in ids && OpenNeeds(b, j, {}) == {}
    {
      assert active[i] ==> (indegree[i] == 0 <==> OpenNeeds(b, i, {}) == {}) by {
        assert active[i] ==> i in ids;
      }
      if active[i] && indegree[i] == 0 {
        queue := queue + [i];
      }
    }
    assert [] + queue == queue;
  }

  /** The keys entry i gives are known, those already open skipped. */
  method OpenKeys(b: Batch, ghost ids: set<nat>, ghost order: seq<nat>, waiters: map<Key, seq<nat>>, indegree: array<int>,
                  queue: seq<nat>, known: set<Key>, i: nat) returns (queue': seq<nat>, known': set<Key>)
    requires i < |b.gives| && Waiters(b, ids, waiters)
    requires Degrees(b, ids, known, indegree[..]) && Frontier(b, ids, order, queue, known)
    modifies indegree
    ensures known' == known + set k | k in b.gives[i]
    ensures Degrees(b, ids, known', indegree[..]) && Frontier(b, ids, order, queue', known')
  {
    hide Waiters, Degrees, Frontier;
    queue', known' := queue, known;
    for t := 0 to |b.gives[i]|
      invariant known' == known + set k | k in b.gives[i][..t]
      invariant Degrees(b, ids, known', indegree[..]) && Frontier(b, ids, order, queue', known')
    {
      var k := b.gives[i][t];
      assert b.gives[i][..t + 1] == b.gives[i][..t] + [k];
      if k in known' {
        continue;
      }
      queue' := OpenKey(b, ids, order, waiters, indegree, queue', known', k);
      known' := known' + {k};
    }
    assert b.gives[i][..|b.gives[i]|] == b.gives[i];
  }

  method TopoOrder(b: Batch, active: array<bool>) returns (order: seq<nat>)
    requires WellFormed(b) && active.Length == |b.needs|
    ensures KahnOrder(b, On(active[..]), order)
  {
    ghost var ids := On(active[..]);
    var indegree := new int[|b.needs|](i => 0);
    var waiters := CountNeeds(b, active, indegree);
    var queue := StartQueue(b, active, indegree);
    order := [];
    var known: set<Key> := {};
    hide Waiters, Degrees, Frontier, Opened, Grounded, KahnOrder;
    assert Opened(b, [], {}) && Grounded(b, []) by { NothingEmitted(b); }
    while queue != []
      invariant Degrees(b, ids, known, indegree[..]) && Frontier(b, ids, order, queue, known)
      invariant Opened(b, order, known) && Grounded(b, order)
      decreases |ids - Ids(order)|
    {
      var i := queue[0];
      EmitOne(b, ids, order, queue, known);
      OpenedNext(b, order, known, i);
      ShorterRest(ids, order, i);
      queue := queue[1..];
      order := order + [i];
      queue, known := OpenKeys(b, ids, order, waiters, indegree, queue, known, i);
    }
    FrontierAtEnd(b, ids, order, known);
  }

  lemma NothingEmitted(b: Batch)
    ensures Opened(b, [], {}) && Grounded(b, [])
  {
  }

  // ---- what the order is ----

  /** ids-entries whose needs done provides are in done. */
  ghost predicate Complete(b: Batch, ids: set<nat>, done: set<nat>) {
    forall i :: i in ids && i < |b.needs| && Provided(b, done, i) ==> i in done
  }

  ghost predicate LeastComplete(b: Batch, ids: set<nat>, done: set<nat>) {
    Complete(b, ids, done) && forall other :: Complete(b, ids, other) ==> done <= other
  }

  /** The entries emitted are the least fixed point, whatever the order of the queue was. */
  lemma KahnIsLeast(b: Batch, ids: set<nat>, order: seq<nat>)
    requires InRange(b, ids) && KahnOrder(b, ids, order)
    ensures LeastComplete(b, ids, Ids(order))
  {
    forall i | i in ids && i !in order && i < |b.needs|
      ensures !Provided(b, Ids(order), i)
    {
      var k :| Unprovided(b, Ids(order), i, k);
    }
    forall other | Complete(b, ids, other)
      ensures Ids(order) <= other
    {
      EmittedWithin(b, ids, order, other, |order|);
      assert order[..|order|] == order;
    }
  }

  lemma {:induction false} EmittedWithin(b: Batch, ids: set<nat>, order: seq<nat>, other: set<nat>, n: nat)
    requires n <= |order| && InRange(b, ids) && Ids(order) <= ids && Grounded(b, order) && Complete(b, ids, other)
    ensures Ids(order[..n]) <= other
  {
    if n > 0 {
      EmittedWithin(b, ids, order, other, n - 1);
      var i := order[n - 1];
      assert i in Ids(order);
      forall k | k in b.needs[i]
        ensures b.ext(k) || GivenBy(b, other, k)
      {
        if GivenBy(b, Ids(order[..n - 1]), k) {
          LessGives(b, Ids(order[..n - 1]), other, k);
        }
      }
      assert Provided(b, other, i);
      assert order[..n] == order[..n - 1] + [i];
    }
  }

  // ---- what is left over ----

  /** i waits for a key that nothing outside and nobody in done gives, and j gives it. */
  ghost predicate WaitsFor(b: Batch, done: set<nat>, i: nat, j: nat) {
    i < |b.needs| && j < |b.gives| && exists k :: Unprovided(b, done, i, k) && k in b.gives[j]
  }

  /** p walks from i along waiting entries of rest and ends in one that waits for p[s] again. */
  ghost predicate RunsIntoCycle(b: Batch, done: set<nat>, rest: set<nat>, i: nat, p: seq<nat>, s: nat) {
    && s < |p| && p[0] == i && NoDup(p) && Ids(p) <= rest
    && (forall t :: 0 <= t < |p| - 1 ==> WaitsFor(b, done, p[t], p[t + 1]))
    && WaitsFor(b, done, p[|p| - 1], p[s])
  }

  lemma SuccessorIsLeft(b: Batch, ids: set<nat>, order: seq<nat>, i: nat) returns (j: nat)
    requires WellFormed(b) && InRange(b, ids) && SelfSupplied(b, ids) && KahnOrder(b, ids, order)
    requires i in ids && i !in order
    ensures j in ids && j !in order && WaitsFor(b, Ids(order), i, j)
  {
    assert Stuck(b, order, i);
    var k :| Unprovided(b, Ids(order), i, k);
    j :| j in ids && j < |b.gives| && k in b.gives[j];
    assert j in order ==> j in Ids(order);
  }

  /** A walk from i along waiting entries of rest. */
  ghost predicate Walk(b: Batch, done: set<nat>, rest: set<nat>, i: nat, p: seq<nat>) {
    && p != [] && p[0] == i && NoDup(p) && Ids(p) <= rest
    && forall t :: 0 <= t < |p| - 1 ==> WaitsFor(b, done, p[t], p[t + 1])
  }

  lemma WalkOn(b: Batch, done: set<nat>, rest: set<nat>, i: nat, p: seq<nat>, j: nat)
    requires Walk(b, done, rest, i, p) && j in rest && WaitsFor(b, done, p[|p| - 1], j) && j !in p
    ensures Walk(b, done, rest, i, p + [j]) && |rest - Ids(p + [j])| < |rest - Ids(p)|
  {
    hide WaitsFor;
    assert Ids(p + [j]) == Ids(p) + {j};
    assert rest - Ids(p) == (rest - Ids(p + [j])) + {j};
  }

  lemma WalkEnds(b: Batch, done: set<nat>, rest: set<nat>, i: nat, p: seq<nat>, j: nat)
    requires Walk(b, done, rest, i, p) && WaitsFor(b, done, p[|p| - 1], j) && j in p
    ensures exists q, s :: RunsIntoCycle(b, done, rest, i, q, s)
  {
    hide WaitsFor, Ids;
    var s: nat :| s < |p| && p[s] == j;
    assert RunsIntoCycle(b, done, rest, i, p, s);
  }

  lemma {:induction false} ExtendWalk(b: Batch, ids: set<nat>, order: seq<nat>, i: nat, p: seq<nat>)
    requires WellFormed(b) && InRange(b, ids) && SelfSupplied(b, ids) && KahnOrder(b, ids, order)
    requires Walk(b, Ids(order), ids - Ids(order), i, p)
    ensures exists q, s :: RunsIntoCycle(b, Ids(order), ids - Ids(order), i, q, s)
    decreases |(ids - Ids(order)) - Ids(p)|
  {
    assert p[|p| - 1] in Ids(p);
    var j := SuccessorIsLeft(b, ids, order, p[|p| - 1]);
    assert j !in Ids(order);
    hide KahnOrder, SelfSupplied, WaitsFor, InRange, Ids, Walk, RunsIntoCycle;
    if j in p {
      WalkEnds(b, Ids(order), ids - Ids(order), i, p, j);
    } else {
      WalkOn(b, Ids(order), ids - Ids(order), i, p, j);
      ExtendWalk(b, ids, order, i, p + [j]);
    }
  }

  /** An active entry left out of the order waits, along entries also left out, for a cycle of such entries. */
  lemma LeftoverRunsIntoCycle(b: Batch, ids: set<nat>, order: seq<nat>, i: nat)
    requires WellFormed(b) && InRange(b, ids) && SelfSupplied(b, ids) && KahnOrder(b, ids, order)
    requires i in ids && i !in order
    ensures exists p, s :: RunsIntoCycle(b, Ids(order), ids - Ids(order), i, p, s)
  {
    ExtendWalk(b, ids, order, i, [i]);
  }
}
