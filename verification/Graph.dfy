// The dependency graph of one RegisterMany batch: entries that need and give keys. A key may be
// given by several entries and any one of them will do.
module Graph {
  import opened Text
  import opened Manifest

  /** needs and gives per batch entry; ext tells the keys met from outside the batch. */
  datatype Batch = Batch(needs: seq<seq<Key>>, gives: seq<seq<Key>>, ext: Key -> bool)

  ghost predicate WellFormed(b: Batch) {
    |b.needs| == |b.gives|
  }

  /** Some entry of ids gives k. */
  ghost predicate GivenBy(b: Batch, ids: set<nat>, k: Key) {
    exists j :: j in ids && j < |b.gives| && k in b.gives[j]
  }

  ghost function Ids(order: seq<nat>): set<nat> {
    set i | i in order
  }

  ghost function On(active: seq<bool>): set<nat> {
    set i: nat | i < |active| && active[i]
  }

  /** Every need of every entry of ids is met from outside or inside ids. */
  ghost predicate SelfSupplied(b: Batch, ids: set<nat>) {
    forall i, k :: i in ids && i < |b.needs| && k in b.needs[i] ==> b.ext(k) || GivenBy(b, ids, k)
  }

  ghost predicate InRange(b: Batch, ids: set<nat>) {
    forall i :: i in ids ==> i < |b.needs|
  }

  ghost predicate GreatestSupplied(b: Batch, ids: set<nat>) {
    && InRange(b, ids) && SelfSupplied(b, ids)
    && forall other :: InRange(b, other) && SelfSupplied(b, other) ==> other <= ids
  }

  // ---- provider table ----

  /** A missing entry of a Go map of slices reads as the empty slice. */
  function Look(table: map<Key, seq<nat>>, k: Key): seq<nat> {
    if k in table then table[k] else []
  }

  ghost predicate ProvidersUpTo(b: Batch, table: map<Key, seq<nat>>, n: nat) {
    && (forall k, u :: 0 <= u < |Look(table, k)| ==> Look(table, k)[u] < n)
    && (forall k, u :: 0 <= u < |Look(table, k)| && Look(table, k)[u] < |b.gives| ==> k in b.gives[Look(table, k)[u]])
    && (forall k, j: nat :: j < n && j < |b.gives| && k in b.gives[j] ==> j in Look(table, k))
  }

  method ProviderTable(b: Batch) returns (provide: map<Key, seq<nat>>)
    ensures ProvidersUpTo(b, provide, |b.gives|)
  {
    provide := map[];
    for i := 0 to |b.gives|
      invariant ProvidersUpTo(b, provide, i)
    {
      for t := 0 to |b.gives[i]|
        invariant ProvidersWithin(b, provide, i, t)
      {
        var k := b.gives[i][t];
        ProvideOne(b, provide, i, t);
        provide := provide[k := Look(provide, k) + [i]];
      }
    }
  }

  /** ProvidersUpTo with the first t keys of entry n entered as well. */
  ghost predicate ProvidersWithin(b: Batch, table: map<Key, seq<nat>>, n: nat, t: nat)
    requires n < |b.gives| && t <= |b.gives[n]|
  {
    && (forall k, u :: 0 <= u < |Look(table, k)| ==> Look(table, k)[u] <= n && k in b.gives[Look(table, k)[u]])
    && (forall k, j: nat :: j < n && k in b.gives[j] ==> j in Look(table, k))
    && (forall k :: k in b.gives[n][..t] ==> n in Look(table, k))
  }

  lemma ProvideOne(b: Batch, table: map<Key, seq<nat>>, n: nat, t: nat)
    requires n < |b.gives| && t < |b.gives[n]| && ProvidersWithin(b, table, n, t)
    ensures ProvidersWithin(b, table[b.gives[n][t] := Look(table, b.gives[n][t]) + [n]], n, t + 1)
  {
    var key := b.gives[n][t];
    var after := table[key := Look(table, key) + [n]];
    forall k, u | 0 <= u < |Look(after, k)|
      ensures Look(after, k)[u] <= n && k in b.gives[Look(after, k)[u]]
    {
      assert u < |Look(table, k)| ==> Look(after, k)[u] == Look(table, k)[u];
    }
    forall k, j: nat | j < n && k in b.gives[j]
      ensures j in Look(after, k)
    {
      assert j in Look(table, k);
      if k == key {
        assert j in Look(table, key) + [n];
      }
    }
    forall k | k in b.gives[n][..t + 1]
      ensures n in Look(after, k)
    {
      if k != key {
        assert b.gives[n][..t + 1] == b.gives[n][..t] + [key];
        assert n in Look(table, k);
      } else {
        assert n in Look(table, key) + [n];
      }
    }
  }

  method HasActiveProvider(providers: seq<nat>, active: array<bool>) returns (r: bool)
    requires forall u :: 0 <= u < |providers| ==> providers[u] < active.Length
    ensures r <==> exists j: nat :: j in providers && active[j]
  {
    for t := 0 to |providers|
      invariant forall u: nat :: u < t ==> !active[providers[u]]
    {
      if active[providers[t]] {
        return true;
      }
    }
    r := false;
  }

  // ---- pruning ----

  ghost predicate Provided(b: Batch, ids: set<nat>, i: nat)
    requires i < |b.needs|
  {
    forall k :: k in b.needs[i] ==> b.ext(k) || GivenBy(b, ids, k)
  }

  ghost predicate Unprovided(b: Batch, ids: set<nat>, i: nat, k: Key)
    requires i < |b.needs|
  {
    k in b.needs[i] && !b.ext(k) && !GivenBy(b, ids, k)
  }

  /** k is needed by entry i, and every need listed before it is given outside or by some entry of the batch. */
  ghost predicate FoundFirst(b: Batch, i: nat, k: Key)
    requires i < |b.needs|
  {
    exists t :: IsFirst(b, i, k, t)
  }

  ghost predicate IsFirst(b: Batch, i: nat, k: Key, t: nat)
    requires i < |b.needs|
  {
    t < |b.needs[i]| && b.needs[i][t] == k && forall u :: 0 <= u < t ==> b.ext(b.needs[i][u]) || GivenAtAll(b, b.needs[i][u])
  }

  ghost predicate GivenAtAll(b: Batch, k: Key) {
    exists j: nat :: j < |b.gives| && k in b.gives[j]
  }

  /** The first need of entry i that nothing outside and no active entry meets. */
  method FirstUnprovided(b: Batch, provide: map<Key, seq<nat>>, active: array<bool>, i: nat) returns (r: Option<Key>)
    requires WellFormed(b) && active.Length == |b.needs| && i < |b.needs| && ProvidersUpTo(b, provide, |b.gives|)
    ensures r.None? ==> Provided(b, On(active[..]), i)
    ensures r.Some? ==> Unprovided(b, On(active[..]), i, r.value) && FoundFirst(b, i, r.value)
  {
    ghost var ids := On(active[..]);
    for t := 0 to |b.needs[i]|
      invariant forall u :: 0 <= u < t ==> b.ext(b.needs[i][u]) || GivenBy(b, ids, b.needs[i][u])
    {
      var k := b.needs[i][t];
      if b.ext(k) {
        continue;
      }
      var given := HasActiveProvider(Look(provide, k), active);
      assert given <==> GivenBy(b, ids, k);
      if !given {
        assert IsFirst(b, i, k, t);
        return Some(k);
      }
    }
    r := None;
  }

  datatype Missing = Missing(entry: nat, key: Key)

  ghost function MissingIds(missing: seq<Missing>): set<nat> {
    set m | m in missing :: m.entry
  }

  ghost predicate SameEntryOnce(missing: seq<Missing>) {
    forall i, j :: 0 <= i < j < |missing| ==> missing[i].entry != missing[j].entry
  }

  /** m waits for a key nothing in sight can give: not the registry, not the queue, not the batch. */
  ghost predicate ReallyMissing(b: Batch, later: set<Key>, hopeful: set<nat>, m: Missing) {
    m.entry < |b.needs| && Unprovided(b, hopeful, m.entry, m.key) && FoundFirst(b, m.entry, m.key) && m.key !in later
  }

  /** Entry i lacks a key among the active, and a waiting plugin or a deferred entry gives it. */
  ghost predicate ReallyDeferred(b: Batch, later: set<Key>, ids: set<nat>, deferred: set<nat>, i: nat) {
    i < |b.needs| && exists k :: Unprovided(b, ids, i, k) && FoundFirst(b, i, k) && (k in later || GivenBy(b, deferred, k))
  }

  /** Every entry is active, deferred or missing, and rightly so. */
  ghost predicate Classified(b: Batch, later: set<Key>, ids: set<nat>, deferred: set<nat>, missing: seq<Missing>) {
    && ids !! deferred && ids !! MissingIds(missing) && deferred !! MissingIds(missing)
    && (forall i :: i in ids + deferred + MissingIds(missing) <==> 0 <= i < |b.needs|)
    && SameEntryOnce(missing)
    && (forall m :: m in missing ==> ReallyMissing(b, later, ids + deferred, m))
    && (forall i :: i in deferred ==> ReallyDeferred(b, later, ids, deferred, i))
  }

  lemma LessGives(b: Batch, less: set<nat>, more: set<nat>, k: Key)
    requires less <= more && GivenBy(b, less, k)
    ensures GivenBy(b, more, k)
  {
  }

  /** An entry with a need nobody in ids meets is in no self-supplied part of ids. */
  lemma PruneIsForced(b: Batch, ids: set<nat>, i: nat, k: Key, other: set<nat>)
    requires i < |b.needs| && Unprovided(b, ids, i, k) && other <= ids && SelfSupplied(b, other)
    ensures i !in other
  {
    if i in other {
      LessGives(b, other, ids, k);
    }
  }

  lemma DeferOne(b: Batch, later: set<Key>, ids: set<nat>, deferred: set<nat>, missing: seq<Missing>, i: nat, k: Key)
    requires WellFormed(b) && Classified(b, later, ids, deferred, missing) && i in ids && i < |b.needs|
    requires Unprovided(b, ids, i, k) && FoundFirst(b, i, k) && (k in later || GivenBy(b, deferred, k))
    ensures Classified(b, later, ids - {i}, deferred + {i}, missing)
  {
    var ids', deferred' := ids - {i}, deferred + {i};
    assert ids' + deferred' == ids + deferred;
    forall j | j in deferred'
      ensures ReallyDeferred(b, later, ids', deferred', j)
    {
      var key: Key :| (if j == i then key == k else j < |b.needs| && Unprovided(b, ids, j, key) && FoundFirst(b, j, key) && (key in later || GivenBy(b, deferred, key)));
      if GivenBy(b, ids', key) { LessGives(b, ids', ids, key); }
      if GivenBy(b, deferred, key) { LessGives(b, deferred, deferred', key); }
      assert Unprovided(b, ids', j, key);
    }
    hide ReallyMissing, ReallyDeferred;
    assert forall j :: j in ids' + deferred' + MissingIds(missing) <==> j in ids + deferred + MissingIds(missing);
  }

  lemma MissOne(b: Batch, later: set<Key>, ids: set<nat>, deferred: set<nat>, missing: seq<Missing>, i: nat, k: Key)
    requires WellFormed(b) && Classified(b, later, ids, deferred, missing) && i in ids && i < |b.needs|
    requires Unprovided(b, ids, i, k) && FoundFirst(b, i, k) && k !in later && !GivenBy(b, deferred, k)
    ensures Classified(b, later, ids - {i}, deferred, missing + [Missing(i, k)])
  {
    var ids', missing' := ids - {i}, missing + [Missing(i, k)];
    MissingIdsGrow(missing, i, k);
    forall m | m in missing'
      ensures ReallyMissing(b, later, ids' + deferred, m)
    {
      if m in missing {
        if GivenBy(b, ids' + deferred, m.key) {
          LessGives(b, ids' + deferred, ids + deferred, m.key);
        }
      } else {
        assert GivenBy(b, ids' + deferred, k) ==> GivenBy(b, ids, k) || GivenBy(b, deferred, k);
      }
    }
    forall j | j in deferred
      ensures ReallyDeferred(b, later, ids', deferred, j)
    {
      var key :| Unprovided(b, ids, j, key) && FoundFirst(b, j, key) && (key in later || GivenBy(b, deferred, key));
      if GivenBy(b, ids', key) { LessGives(b, ids', ids, key); }
      assert Unprovided(b, ids', j, key);
    }
    hide ReallyMissing, ReallyDeferred;
    assert forall j :: j in ids' + deferred + MissingIds(missing') <==> j in ids + deferred + MissingIds(missing);
    assert forall m :: m in missing ==> m.entry in MissingIds(missing);
    assert SameEntryOnce(missing');
  }

  lemma MissingIdsGrow(missing: seq<Missing>, i: nat, k: Key)
    ensures MissingIds(missing + [Missing(i, k)]) == MissingIds(missing) + {i}
  {
    var more := missing + [Missing(i, k)];
    forall j | j in MissingIds(missing) + {i}
      ensures j in MissingIds(more)
    {
      if j in MissingIds(missing) {
        var m :| m in missing && m.entry == j;
        assert m in more;
      } else {
        assert Missing(i, k) in more;
      }
    }
  }

  ghost predicate Bounds(b: Batch, ids: set<nat>) {
    forall other :: InRange(b, other) && SelfSupplied(b, other) ==> other <= ids
  }

  lemma PruneKeepsBound(b: Batch, ids: set<nat>, i: nat, k: Key)
    requires i < |b.needs| && Unprovided(b, ids, i, k) && Bounds(b, ids)
    ensures Bounds(b, ids - {i})
  {
    forall other | InRange(b, other) && SelfSupplied(b, other)
      ensures other <= ids - {i}
    {
      PruneIsForced(b, ids, i, k, other);
    }
  }

  lemma OnUpdate(active: seq<bool>, i: nat)
    requires i < |active|
    ensures On(active[i := false]) == On(active) - {i}
  {
  }

  /** Everything the keys in `eventually` come from. */
  ghost predicate Eventual(b: Batch, later: set<Key>, deferred: set<nat>, eventually: set<Key>) {
    forall k :: k in eventually <==> k in later || GivenBy(b, deferred, k)
  }

  lemma EventualGrows(b: Batch, later: set<Key>, deferred: set<nat>, eventually: set<Key>, i: nat)
    requires WellFormed(b) && i < |b.gives| && Eventual(b, later, deferred, eventually)
    ensures Eventual(b, later, deferred + {i}, eventually + set k | k in b.gives[i])
  {
    forall k
      ensures GivenBy(b, deferred + {i}, k) <==> GivenBy(b, deferred, k) || k in b.gives[i]
    {
      if k in b.gives[i] { assert i in deferred + {i}; }
      if GivenBy(b, deferred, k) { LessGives(b, deferred, deferred + {i}, k); }
    }
  }

  ghost predicate ProvidedBelow(b: Batch, ids: set<nat>, n: nat) {
    forall i :: i in ids && i < n && i < |b.needs| ==> Provided(b, ids, i)
  }

  ghost predicate PruneInvariant(b: Batch, later: set<Key>, ids: set<nat>, deferred: set<nat>, missing: seq<Missing>, eventually: set<Key>) {
    Bounds(b, ids) && Classified(b, later, ids, deferred, missing) && Eventual(b, later, deferred, eventually)
  }

  lemma PruneStart(b: Batch, later: set<Key>, active: seq<bool>)
    requires |active| == |b.needs| && forall i :: 0 <= i < |active| ==> active[i]
    ensures PruneInvariant(b, later, On(active), {}, [], later)
  {
    var ids := On(active);
    assert MissingIds([]) == {};
    assert forall i :: i in ids + {} + MissingIds([]) <==> 0 <= i < |b.needs|;
    forall other | InRange(b, other) && SelfSupplied(b, other)
      ensures other <= ids
    {
    }
  }

  /** One refused entry leaves the active part and is classified. */
  lemma PruneStep(b: Batch, later: set<Key>, ids: set<nat>, deferred: set<nat>, missing: seq<Missing>, eventually: set<Key>, i: nat, k: Key)
    requires WellFormed(b) && PruneInvariant(b, later, ids, deferred, missing, eventually)
    requires i in ids && i < |b.needs| && Unprovided(b, ids, i, k) && FoundFirst(b, i, k)
    ensures k in eventually ==> PruneInvariant(b, later, ids - {i}, deferred + {i}, missing, eventually + set g | g in b.gives[i])
    ensures k !in eventually ==> PruneInvariant(b, later, ids - {i}, deferred, missing + [Missing(i, k)], eventually)
  {
    PruneKeepsBound(b, ids, i, k);
    if k in eventually {
      DeferOne(b, later, ids, deferred, missing, i, k);
      EventualGrows(b, later, deferred, eventually, i);
    } else {
      MissOne(b, later, ids, deferred, missing, i, k);
    }
  }

  /** The pruning fixed point of RegisterMany, scanning in place. */
  method Prune(b: Batch, later: set<Key>) returns (active: array<bool>, deferred: set<nat>, missing: seq<Missing>)
    requires WellFormed(b)
    ensures fresh(active) && active.Length == |b.needs|
    ensures GreatestSupplied(b, On(active[..]))
    ensures Classified(b, later, On(active[..]), deferred, missing)
  {
    var n := |b.needs|;
    var provide := ProviderTable(b);
    active := new bool[n](i => true);
    deferred, missing := {}, [];
    var eventually := later;
    PruneStart(b, later, active[..]);
    hide PruneInvariant, ProvidedBelow, ProvidersUpTo;
    var removed := true;
    while removed
      invariant PruneInvariant(b, later, On(active[..]), deferred, missing, eventually)
      invariant !removed ==> ProvidedBelow(b, On(active[..]), n)
      decreases |On(active[..])|, removed
    {
      removed := false;
      ghost var before := On(active[..]);
      BelowNothing(b, before);
      for i := 0 to n
        invariant PruneInvariant(b, later, On(active[..]), deferred, missing, eventually)
        invariant if removed then On(active[..]) < before else On(active[..]) == before && ProvidedBelow(b, before, i)
      {
        ghost var now := On(active[..]);
        var dropped;
        dropped, deferred, missing, eventually := PruneEntry(b, later, provide, active, i, deferred, missing, eventually);
        if dropped {
          removed := true;
        } else if !removed {
          BelowOneMore(b, now, i);
        }
      }
      SmallerPart(On(active[..]), before);
    }
    PruneEnd(b, later, On(active[..]), deferred, missing, eventually);
  }

  /** The body of the scan for one entry. */
  method PruneEntry(b: Batch, ghost later: set<Key>, provide: map<Key, seq<nat>>, active: array<bool>, i: nat,
                    deferred: set<nat>, missing: seq<Missing>, eventually: set<Key>)
    returns (dropped: bool, deferred': set<nat>, missing': seq<Missing>, eventually': set<Key>)
    requires WellFormed(b) && active.Length == |b.needs| && i < |b.needs| && ProvidersUpTo(b, provide, |b.gives|)
    requires PruneInvariant(b, later, On(active[..]), deferred, missing, eventually)
    modifies active
    ensures PruneInvariant(b, later, On(active[..]), deferred', missing', eventually')
    ensures dropped ==> i in On(old(active[..])) && On(active[..]) == On(old(active[..])) - {i}
    ensures !dropped ==> On(active[..]) == On(old(active[..])) && (i in On(active[..]) ==> Provided(b, On(active[..]), i))
  {
    hide PruneInvariant, ProvidersUpTo;
    dropped, deferred', missing', eventually' := false, deferred, missing, eventually;
    if active[i] {
      var k := FirstUnprovided(b, provide, active, i);
      if k.Some? {
        ghost var was := active[..];
        PruneStep(b, later, On(was), deferred, missing, eventually, i, k.value);
        OnUpdate(was, i);
        active[i] := false;
        assert active[..] == was[i := false];
        if k.value in eventually {
          deferred' := deferred + {i};
          eventually' := eventually + set g | g in b.gives[i];
        } else {
          missing' := missing + [Missing(i, k.value)];
        }
        dropped := true;
      }
    }
  }

  lemma BelowNothing(b: Batch, ids: set<nat>)
    ensures ProvidedBelow(b, ids, 0)
  {
  }

  lemma BelowOneMore(b: Batch, ids: set<nat>, i: nat)
    requires ProvidedBelow(b, ids, i) && (i in ids && i < |b.needs| ==> Provided(b, ids, i))
    ensures ProvidedBelow(b, ids, i + 1)
  {
  }

  lemma PruneEnd(b: Batch, later: set<Key>, ids: set<nat>, deferred: set<nat>, missing: seq<Missing>, eventually: set<Key>)
    requires PruneInvariant(b, later, ids, deferred, missing, eventually) && ProvidedBelow(b, ids, |b.needs|)
    ensures GreatestSupplied(b, ids) && Classified(b, later, ids, deferred, missing)
  {
    SuppliedAtEnd(b, ids);
    assert InRange(b, ids) by {
      forall i | i in ids
        ensures i < |b.needs|
      {
        assert i in ids + deferred + MissingIds(missing);
      }
    }
  }

  lemma SmallerPart(a: set<nat>, b: set<nat>)
    ensures a < b ==> |a| < |b|
  {
    if a < b {
      assert |b| == |a| + |b - a| by {
        assert b == a + (b - a);
      }
      assert b - a != {};
    }
  }

  lemma SuppliedAtEnd(b: Batch, ids: set<nat>)
    requires ProvidedBelow(b, ids, |b.needs|)
    ensures SelfSupplied(b, ids)
  {
    forall i, k | i in ids && i < |b.needs| && k in b.needs[i]
      ensures b.ext(k) || GivenBy(b, ids, k)
    {
      assert Provided(b, ids, i);
    }
  }
}
