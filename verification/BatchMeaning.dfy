// What a plan of RegisterMany decides, told by manifests alone: which entries may be registered now, in which
// order, and why each of the others is put off or refused.
module BatchMeaning {
  import opened Text
  import opened Manifest
  import opened Registry
  import opened Graph
  import opened Kahn
  import opened Batches

  // ---- dependencies as a batch reads them ----

  predicate Asks(d: Dependency) {
    d.kind == Init && (d.plugin != "" || d.slot != "")
  }

  /** m is what d asks for; the plugin name decides when both are given. */
  predicate Answers(m: Meta, d: Dependency) {
    if d.plugin != "" then m.id == d.plugin else m.slot == d.slot
  }

  /** What d asks for is registered, or a built-in slot. */
  ghost predicate Present(env: Env, book: Book, d: Dependency) {
    if d.plugin != "" then d.plugin in book
    else (d.slot in env.slots && env.slots[d.slot].builtin) || exists id :: id in book && book[id].slot == d.slot
  }

  ghost predicate Among(entries: seq<Plugin>, ids: set<nat>, d: Dependency) {
    exists i :: i in ids && i < |entries| && Answers(entries[i].meta, d)
  }

  ghost predicate InBatch(entries: seq<Plugin>, d: Dependency) {
    exists e :: e in entries && Answers(e.meta, d)
  }

  ghost predicate Awaited(waiting: map<string, Plugin>, d: Dependency) {
    exists id :: id in waiting && Answers(waiting[id].meta, d)
  }

  /** How a failure names what is missing. */
  function Named(d: Dependency): Key {
    if d.plugin != "" then PluginKey(d.plugin) else SlotKey(d.slot)
  }

  // ---- keys say the same ----

  lemma KeyIsNamed(d: Dependency)
    ensures KeyOf(d) == if Asks(d) then Some(Named(d)) else None
  {
  }

  lemma KeyAnswers(m: Meta, d: Dependency)
    requires Asks(d)
    ensures Named(d) in ProvideKeys(m) <==> Answers(m, d)
  {
  }

  lemma KeyPresent(env: Env, book: Book, d: Dependency)
    requires Asks(d)
    ensures External(env, book, Named(d)) <==> Present(env, book, d)
  {
  }

  lemma KeyAwaited(s: State, d: Dependency)
    requires Queue(s) && Asks(d)
    ensures Named(d) in LaterKeys(s.waiting) <==> Awaited(s.waiting, d)
  {
    if d.plugin != "" {
      assert Awaited(s.waiting, d) <==> d.plugin in s.waiting;
    } else {
      assert forall id :: id in s.waiting && s.waiting[id].meta.slot == d.slot ==> SlotKey(d.slot) in LaterKeys(s.waiting);
    }
  }

  lemma KeyAmong(env: Env, book: Book, entries: seq<Plugin>, ids: set<nat>, d: Dependency)
    requires Asks(d)
    ensures GivenBy(BatchOf(env, book, entries), ids, Named(d)) <==> Among(entries, ids, d)
  {
    var b := BatchOf(env, book, entries);
    hide ProvideKeys, Named, Answers;
    forall i | i in ids && i < |entries|
      ensures Named(d) in b.gives[i] <==> Answers(entries[i].meta, d)
    {
      KeyAnswers(entries[i].meta, d);
    }
  }

  lemma KeyInBatch(env: Env, book: Book, entries: seq<Plugin>, d: Dependency)
    requires Asks(d)
    ensures GivenAtAll(BatchOf(env, book, entries), Named(d)) <==> InBatch(entries, d)
  {
    var b := BatchOf(env, book, entries);
    hide ProvideKeys, Named, Answers;
    forall i: nat | i < |entries|
      ensures Named(d) in b.gives[i] <==> Answers(entries[i].meta, d)
    {
      KeyAnswers(entries[i].meta, d);
    }
    assert forall i: nat :: i < |entries| ==> entries[i] in entries;
  }

  lemma NeedIsAsked(env: Env, book: Book, entries: seq<Plugin>, i: nat, k: Key) returns (d: Dependency)
    requires i < |entries| && k in BatchOf(env, book, entries).needs[i]
    ensures d in entries[i].meta.deps && Asks(d) && Named(d) == k
  {
    assert k in NeedKeys(entries[i].meta.deps);
    d :| d in entries[i].meta.deps && KeyOf(d) == Some(k);
    KeyIsNamed(d);
  }

  lemma AskedIsNeed(env: Env, book: Book, entries: seq<Plugin>, i: nat, d: Dependency)
    requires i < |entries| && d in entries[i].meta.deps && Asks(d)
    ensures Named(d) in BatchOf(env, book, entries).needs[i]
  {
    KeyIsNamed(d);
    assert Named(d) in NeedKeys(entries[i].meta.deps);
  }

  /** d is neither registered nor given by an entry of ids. */
  ghost predicate Lacking(env: Env, book: Book, entries: seq<Plugin>, ids: set<nat>, d: Dependency) {
    Asks(d) && !Present(env, book, d) && !Among(entries, ids, d)
  }

  lemma KeyLacking(env: Env, book: Book, entries: seq<Plugin>, ids: set<nat>, i: nat, d: Dependency)
    requires i < |entries| && d in entries[i].meta.deps && Asks(d)
    ensures Unprovided(BatchOf(env, book, entries), ids, i, Named(d)) <==> Lacking(env, book, entries, ids, d)
  {
    hide NeedKeys, ProvideKeys, Asks, Present, Named, External, GivenBy, Among;
    AskedIsNeed(env, book, entries, i, d);
    KeyPresent(env, book, d);
    KeyAmong(env, book, entries, ids, d);
  }

  // ---- the entries registered now ----

  /** Whatever an entry of ids asks for is present or given by an entry of ids. */
  ghost predicate Supplied(env: Env, book: Book, entries: seq<Plugin>, ids: set<nat>) {
    && (forall i :: i in ids ==> i < |entries|)
    && forall i, d :: i in ids && i < |entries| && d in entries[i].meta.deps ==> !Lacking(env, book, entries, ids, d)
  }

  lemma KeysSupplied(env: Env, book: Book, entries: seq<Plugin>, ids: set<nat>)
    ensures InRange(BatchOf(env, book, entries), ids) && SelfSupplied(BatchOf(env, book, entries), ids) <==>
            Supplied(env, book, entries, ids)
  {
    var b := BatchOf(env, book, entries);
    hide BatchOf, Lacking, GivenBy, Asks, Named;
    if InRange(b, ids) && SelfSupplied(b, ids) {
      forall i, d | i in ids && i < |entries| && d in entries[i].meta.deps
        ensures !Lacking(env, book, entries, ids, d)
      {
        LackingAsks(env, book, entries, ids, d);
        if Asks(d) {
          KeyLacking(env, book, entries, ids, i, d);
        }
      }
    }
    if Supplied(env, book, entries, ids) {
      forall i, k | i in ids && i < |b.needs| && k in b.needs[i]
        ensures b.ext(k) || GivenBy(b, ids, k)
      {
        var d := NeedIsAsked(env, book, entries, i, k);
        KeyLacking(env, book, entries, ids, i, d);
      }
    }
  }

  lemma LackingAsks(env: Env, book: Book, entries: seq<Plugin>, ids: set<nat>, d: Dependency)
    ensures Lacking(env, book, entries, ids, d) ==> Asks(d)
  {
  }

  /** The active entries are the greatest part of the batch that has everything it asks for. */
  lemma ActiveIsGreatest(env: Env, s: State, ps: seq<Plugin>, plan: Plan)
    requires PlanFor(env, s, ps, plan)
    ensures Supplied(env, s.meta, plan.entries, plan.active)
    ensures forall other :: Supplied(env, s.meta, plan.entries, other) ==> other <= plan.active
  {
    var b := BatchOf(env, s.meta, plan.entries);
    assert GreatestSupplied(b, plan.active);
    hide BatchOf, PlanFor, Supplied, SelfSupplied, InRange;
    KeysSupplied(env, s.meta, plan.entries, plan.active);
    forall other | Supplied(env, s.meta, plan.entries, other)
      ensures other <= plan.active
    {
      KeysSupplied(env, s.meta, plan.entries, other);
    }
  }

  /** Whatever an emitted entry asks for is present or given by an entry emitted before it. */
  lemma OrderIsGrounded(env: Env, s: State, ps: seq<Plugin>, plan: Plan, t: nat, d: Dependency)
    requires PlanFor(env, s, ps, plan) && t < |plan.order|
    ensures plan.order[t] < |plan.entries|
    ensures d in plan.entries[plan.order[t]].meta.deps ==> !Lacking(env, s.meta, plan.entries, Ids(plan.order[..t]), d)
  {
    var b := BatchOf(env, s.meta, plan.entries);
    assert plan.order[t] in Ids(plan.order);
    assert Grounded(b, plan.order);
    LackingAsks(env, s.meta, plan.entries, Ids(plan.order[..t]), d);
    if d in plan.entries[plan.order[t]].meta.deps && Asks(d) {
      KeyLacking(env, s.meta, plan.entries, Ids(plan.order[..t]), plan.order[t], d);
    }
  }

  /** An active entry that is not emitted asks for something neither registered nor given by an emitted entry. */
  lemma LeftOutIsStuck(env: Env, s: State, ps: seq<Plugin>, plan: Plan, i: nat)
    requires PlanFor(env, s, ps, plan) && i in plan.active && i !in plan.order
    ensures i < |plan.entries|
    ensures exists d :: d in plan.entries[i].meta.deps && Lacking(env, s.meta, plan.entries, Ids(plan.order), d)
  {
    var b := BatchOf(env, s.meta, plan.entries);
    assert Stuck(b, plan.order, i);
    var k :| Unprovided(b, Ids(plan.order), i, k);
    hide BatchOf, PlanFor, Lacking, Ids, Asks;
    var d := NeedIsAsked(env, s.meta, plan.entries, i, k);
    KeyLacking(env, s.meta, plan.entries, Ids(plan.order), i, d);
  }

  // ---- the entries refused and put off ----

  /** A failure "missing dependency" names a dependency of its entry that is not registered, that no active or
      deferred entry gives and that no waiting plugin gives. */
  lemma MissingIsNowhere(env: Env, s: State, ps: seq<Plugin>, plan: Plan, m: Missing) returns (d: Dependency)
    requires Queue(s) && PlanFor(env, s, ps, plan) && m in plan.missing
    ensures m.entry < |plan.entries| && d in plan.entries[m.entry].meta.deps && m.key == Named(d)
    ensures Lacking(env, s.meta, plan.entries, plan.active + plan.deferred, d)
    ensures !Awaited(s.waiting, d)
  {
    var b := BatchOf(env, s.meta, plan.entries);
    assert ReallyMissing(b, LaterKeys(s.waiting), plan.active + plan.deferred, m);
    hide BatchOf, PlanFor, Queue, LaterKeys, Lacking, Awaited, Named, Asks, FoundFirst;
    d := NeedIsAsked(env, s.meta, plan.entries, m.entry, m.key);
    KeyLacking(env, s.meta, plan.entries, plan.active + plan.deferred, m.entry, d);
    KeyAwaited(s, d);
  }

  /** A deferred entry asks for something that only a waiting plugin or a deferred entry gives. */
  lemma DeferredIsAwaited(env: Env, s: State, ps: seq<Plugin>, plan: Plan, i: nat) returns (d: Dependency)
    requires Queue(s) && PlanFor(env, s, ps, plan) && i in plan.deferred
    ensures i < |plan.entries| && d in plan.entries[i].meta.deps
    ensures Lacking(env, s.meta, plan.entries, plan.active, d)
    ensures Awaited(s.waiting, d) || Among(plan.entries, plan.deferred, d)
  {
    var b := BatchOf(env, s.meta, plan.entries);
    assert ReallyDeferred(b, LaterKeys(s.waiting), plan.active, plan.deferred, i);
    var k :| Unprovided(b, plan.active, i, k) && (k in LaterKeys(s.waiting) || GivenBy(b, plan.deferred, k));
    hide BatchOf, PlanFor, Queue, LaterKeys, Lacking, Awaited, Named, Asks, Among, GivenBy, FoundFirst;
    d := NeedIsAsked(env, s.meta, plan.entries, i, k);
    KeyLacking(env, s.meta, plan.entries, plan.active, i, d);
    KeyAwaited(s, d);
    KeyAmong(env, s.meta, plan.entries, plan.deferred, d);
  }

  /** An entry neither active nor deferred is reported as missing a dependency. */
  lemma ThreeWays(env: Env, s: State, ps: seq<Plugin>, plan: Plan, i: nat)
    requires PlanFor(env, s, ps, plan) && i < |plan.entries| && i !in plan.active && i !in plan.deferred
    ensures exists m :: m in plan.missing && m.entry == i
  {
    assert i in plan.active + plan.deferred + MissingIds(plan.missing);
  }

  /** An entry all of whose dependencies are in sight is active or deferred. */
  lemma InSightIsNotMissing(env: Env, s: State, ps: seq<Plugin>, plan: Plan, i: nat)
    requires Queue(s) && PlanFor(env, s, ps, plan) && i < |plan.entries| && i !in plan.active
    requires forall d :: d in plan.entries[i].meta.deps && Lacking(env, s.meta, plan.entries, plan.active + plan.deferred, d) ==>
               Awaited(s.waiting, d)
    ensures i in plan.deferred
  {
    hide PlanFor, Queue, Lacking, Awaited;
    if i !in plan.deferred {
      ThreeWays(env, s, ps, plan, i);
      var m :| m in plan.missing && m.entry == i;
      var d := MissingIsNowhere(env, s, ps, plan, m);
    }
  }

  // ---- the dependency that decides ----

  lemma {:induction false} NeedsOfParts(a: seq<Dependency>, b: seq<Dependency>)
    ensures NeedKeys(a + b) == NeedKeys(a) + NeedKeys(b)
  {
    if a == [] {
      assert a + b == b;
    } else {
      assert (a + b)[1..] == a[1..] + b;
      NeedsOfParts(a[1..], b);
    }
  }

  /** Where the t-th dependency stands among the needs. */
  lemma NeedAt(ds: seq<Dependency>, t: nat)
    requires t < |ds| && Asks(ds[t])
    ensures var q := |NeedKeys(ds[..t])|;
            q < |NeedKeys(ds)| && NeedKeys(ds)[..q] == NeedKeys(ds[..t]) && NeedKeys(ds)[q] == Named(ds[t])
  {
    var rest := [ds[t]] + ds[t + 1..];
    assert ds == ds[..t] + rest;
    NeedsOfParts(ds[..t], rest);
    KeyIsNamed(ds[t]);
    assert rest[1..] == ds[t + 1..];
    assert NeedKeys(rest)[0] == Named(ds[t]);
  }

  /** Dependency t of entry i is the first that is neither registered nor given by an active entry, and nobody in the
      batch gives it. */
  ghost predicate FirstLack(env: Env, book: Book, entries: seq<Plugin>, active: set<nat>, i: nat, t: nat) {
    && i < |entries| && t < |entries[i].meta.deps|
    && var ds := entries[i].meta.deps;
       && Asks(ds[t]) && !Present(env, book, ds[t]) && !InBatch(entries, ds[t])
       && forall u :: 0 <= u < t ==> !Lacking(env, book, entries, active, ds[u])
  }

  lemma EarlierIsProvided(env: Env, book: Book, entries: seq<Plugin>, active: set<nat>, i: nat, t: nat, k: Key)
    requires FirstLack(env, book, entries, active, i, t) && k in NeedKeys(entries[i].meta.deps[..t])
    ensures !Unprovided(BatchOf(env, book, entries), active, i, k)
  {
    var ds := entries[i].meta.deps;
    var d :| d in ds[..t] && KeyOf(d) == Some(k);
    var u :| 0 <= u < t && ds[u] == d;
    KeyIsNamed(d);
    hide BatchOf, Lacking, InBatch, Present, Unprovided;
    KeyLacking(env, book, entries, active, i, d);
  }

  lemma NotPastTheLack(b: Batch, i: nat, k: Key, p: nat, q: nat)
    requires i < |b.needs| && q < |b.needs[i]| && !b.ext(b.needs[i][q]) && !GivenAtAll(b, b.needs[i][q]) && IsFirst(b, i, k, p)
    ensures p <= q
  {
    hide GivenAtAll;
  }

  /** The key the pruning stops at is that of the first lacking dependency. */
  lemma StopsAtFirstLack(env: Env, book: Book, entries: seq<Plugin>, active: set<nat>, i: nat, t: nat, k: Key)
    requires FirstLack(env, book, entries, active, i, t)
    requires FoundFirst(BatchOf(env, book, entries), i, k) && Unprovided(BatchOf(env, book, entries), active, i, k)
    ensures k == Named(entries[i].meta.deps[t])
  {
    var b, ds := BatchOf(env, book, entries), entries[i].meta.deps;
    var p: nat :| IsFirst(b, i, k, p);
    var q := |NeedKeys(ds[..t])|;
    assert b.needs[i] == NeedKeys(ds);
    assert !External(env, book, Named(ds[t])) ==> !b.ext(Named(ds[t]));
    NeedAt(ds, t);
    KeyPresent(env, book, ds[t]);
    KeyInBatch(env, book, entries, ds[t]);
    hide NeedKeys, Named, Unprovided, GivenAtAll, InBatch, Present, Lacking, BatchOf, External;
    NotPastTheLack(b, i, k, p, q);
    if p < q {
      hide IsFirst, FirstLack;
      assert NeedKeys(ds)[..q][p] == NeedKeys(ds)[p];
      EarlierIsProvided(env, book, entries, active, i, t, k);
    }
  }

  /** An entry whose first lacking dependency nobody in the batch gives is deferred if a waiting plugin has that id
      or occupies that slot, and is otherwise reported as missing just that. */
  lemma FirstLackDecides(env: Env, s: State, ps: seq<Plugin>, plan: Plan, i: nat, t: nat)
    requires Queue(s) && PlanFor(env, s, ps, plan) && FirstLack(env, s.meta, plan.entries, plan.active, i, t)
    ensures var d := plan.entries[i].meta.deps[t];
            if Awaited(s.waiting, d) then i in plan.deferred else Missing(i, Named(d)) in plan.missing
  {
    var b, d := BatchOf(env, s.meta, plan.entries), plan.entries[i].meta.deps[t];
    LackIsNotActive(env, s, ps, plan, i, t);
    KeyAwaited(s, d);
    if i in plan.deferred {
      var k := DeferredBecause(env, s, ps, plan, i);
      StopsAtFirstLack(env, s.meta, plan.entries, plan.active, i, t, k);
      NotInBatch(env, s.meta, plan.entries, plan.deferred, d);
    } else {
      ThreeWays(env, s, ps, plan, i);
      var m :| m in plan.missing && m.entry == i;
      MissingBecause(env, s, ps, plan, m);
      StopsAtFirstLack(env, s.meta, plan.entries, plan.active, i, t, m.key);
    }
  }

  lemma NotInBatch(env: Env, book: Book, entries: seq<Plugin>, ids: set<nat>, d: Dependency)
    requires Asks(d) && !InBatch(entries, d)
    ensures !GivenBy(BatchOf(env, book, entries), ids, Named(d))
  {
    KeyAmong(env, book, entries, ids, d);
    assert forall i: nat :: i < |entries| ==> entries[i] in entries;
  }

  lemma LackIsNotActive(env: Env, s: State, ps: seq<Plugin>, plan: Plan, i: nat, t: nat)
    requires PlanFor(env, s, ps, plan) && FirstLack(env, s.meta, plan.entries, plan.active, i, t)
    ensures i !in plan.active
  {
    ActiveIsGreatest(env, s, ps, plan);
    hide PlanFor;
    assert forall j: nat :: j < |plan.entries| ==> plan.entries[j] in plan.entries;
    assert Lacking(env, s.meta, plan.entries, plan.active, plan.entries[i].meta.deps[t]);
  }

  lemma DeferredBecause(env: Env, s: State, ps: seq<Plugin>, plan: Plan, i: nat) returns (k: Key)
    requires PlanFor(env, s, ps, plan) && i in plan.deferred && i < |plan.entries|
    ensures var b := BatchOf(env, s.meta, plan.entries);
            Unprovided(b, plan.active, i, k) && FoundFirst(b, i, k) && (k in LaterKeys(s.waiting) || GivenBy(b, plan.deferred, k))
  {
    var b := BatchOf(env, s.meta, plan.entries);
    assert ReallyDeferred(b, LaterKeys(s.waiting), plan.active, plan.deferred, i);
    k :| Unprovided(b, plan.active, i, k) && FoundFirst(b, i, k) && (k in LaterKeys(s.waiting) || GivenBy(b, plan.deferred, k));
  }

  lemma MissingBecause(env: Env, s: State, ps: seq<Plugin>, plan: Plan, m: Missing)
    requires PlanFor(env, s, ps, plan) && m in plan.missing && m.entry < |plan.entries|
    ensures var b := BatchOf(env, s.meta, plan.entries);
            Unprovided(b, plan.active, m.entry, m.key) && FoundFirst(b, m.entry, m.key) && m.key !in LaterKeys(s.waiting)
  {
    var b := BatchOf(env, s.meta, plan.entries);
    assert ReallyMissing(b, LaterKeys(s.waiting), plan.active + plan.deferred, m);
    if GivenBy(b, plan.active, m.key) {
      LessGives(b, plan.active, plan.active + plan.deferred, m.key);
    }
  }

  // ---- which inputs are entries ----

  /** ps[i] is the first plugin of its non-empty id. */
  ghost predicate ComesFirst(ps: seq<Plugin>, i: nat)
    requires i < |ps|
  {
    ps[i].meta.id != "" && forall j :: 0 <= j < i ==> ps[j].meta.id != ps[i].meta.id
  }

  ghost predicate Rising(at: seq<nat>, n: nat) {
    (forall t :: 0 <= t < |at| ==> at[t] < n) && forall t, u :: 0 <= t < u < |at| ==> at[t] < at[u]
  }

  /** taken and refused list the inputs that come first and the others. */
  ghost predicate Sorted(ps: seq<Plugin>, taken: seq<nat>, refused: seq<nat>) {
    && Rising(taken, |ps|) && Rising(refused, |ps|)
    && forall i: nat :: i < |ps| ==> (i in taken <==> ComesFirst(ps, i)) && (i in refused <==> !ComesFirst(ps, i))
  }

  lemma SortOne(ps: seq<Plugin>, taken: seq<nat>, refused: seq<nat>)
    requires ps != [] && Sorted(ps[..|ps| - 1], taken, refused)
    ensures if ComesFirst(ps, |ps| - 1) then Sorted(ps, taken + [|ps| - 1], refused) else Sorted(ps, taken, refused + [|ps| - 1])
  {
    var n := |ps| - 1;
    var rest := ps[..n];
    forall i: nat | i < n
      ensures ComesFirst(rest, i) <==> ComesFirst(ps, i)
    {
    }
    assert n !in taken && n !in refused;
    hide ComesFirst;
  }

  ghost predicate EntriesAt(ps: seq<Plugin>, entries: seq<Plugin>, at: seq<nat>)
    requires Rising(at, |ps|)
  {
    |entries| == |at| && forall t :: 0 <= t < |at| ==> entries[t] == ps[at[t]]
  }

  /** An empty id is refused as such and a repeated one as a duplicate. */
  ghost predicate RefusalsAt(ps: seq<Plugin>, failed: seq<Failure>, at: seq<nat>)
    requires Rising(at, |ps|)
  {
    |failed| == |at| && forall t :: 0 <= t < |at| ==>
      var id := ps[at[t]].meta.id; failed[t] == Failure(id, if id == "" then EmptyId else DuplicateInBatch)
  }

  lemma AtOneMore(ps: seq<Plugin>, entries: seq<Plugin>, taken: seq<nat>, failed: seq<Failure>, refused: seq<nat>)
    requires ps != [] && Rising(taken, |ps| - 1) && Rising(refused, |ps| - 1)
    requires EntriesAt(ps[..|ps| - 1], entries, taken) && RefusalsAt(ps[..|ps| - 1], failed, refused)
    ensures Rising(taken + [|ps| - 1], |ps|) && Rising(refused + [|ps| - 1], |ps|) && Rising(taken, |ps|) && Rising(refused, |ps|)
    ensures EntriesAt(ps, entries, taken) && RefusalsAt(ps, failed, refused)
    ensures EntriesAt(ps, entries + [ps[|ps| - 1]], taken + [|ps| - 1])
    ensures var id := ps[|ps| - 1].meta.id;
            RefusalsAt(ps, failed + [Failure(id, if id == "" then EmptyId else DuplicateInBatch)], refused + [|ps| - 1])
  {
  }

  /** The entries are the first plugins of their ids and the rest is refused, both in the order given. */
  lemma {:induction false} EntriesComeFirst(ps: seq<Plugin>) returns (taken: seq<nat>, refused: seq<nat>)
    ensures Sorted(ps, taken, refused) && EntriesAt(ps, Firsts(ps), taken) && RefusalsAt(ps, Rejects(ps), refused)
  {
    if ps == [] {
      taken, refused := [], [];
    } else {
      var n := |ps| - 1;
      var rest, p := ps[..n], ps[n];
      taken, refused := EntriesComeFirst(rest);
      assert Rising(taken, n) && Rising(refused, n);
      AtOneMore(ps, Firsts(rest), taken, Rejects(rest), refused);
      TakenSoFar(rest, taken, p.meta.id);
      SortOne(ps, taken, refused);
      LastComesFirst(ps, rest);
      hide Sorted, ComesFirst, IdsOf, EntriesAt, RefusalsAt, Rising;
      if ComesFirst(ps, n) {
        taken := taken + [n];
      } else {
        refused := refused + [n];
      }
    }
  }

  lemma LastComesFirst(ps: seq<Plugin>, rest: seq<Plugin>)
    requires ps != [] && rest == ps[..|ps| - 1]
    ensures var id := ps[|ps| - 1].meta.id;
            ComesFirst(ps, |ps| - 1) <==> id != "" && !exists j :: 0 <= j < |rest| && rest[j].meta.id == id
  {
    assert forall j :: 0 <= j < |rest| ==> rest[j] == ps[j];
  }

  lemma TakenSoFar(ps: seq<Plugin>, taken: seq<nat>, id: string)
    requires Rising(taken, |ps|) && EntriesAt(ps, Firsts(ps), taken)
    requires forall i: nat :: i < |ps| && ComesFirst(ps, i) ==> i in taken
    ensures id != "" ==> (id in IdsOf(Firsts(ps)) <==> exists j :: 0 <= j < |ps| && ps[j].meta.id == id)
  {
    if id != "" {
      forall j: nat | j < |ps| && ps[j].meta.id == id
        ensures id in IdsOf(Firsts(ps))
      {
        var i := FirstOf(ps, id, j);
        var t :| 0 <= t < |taken| && taken[t] == i;
        assert IdsOf(Firsts(ps))[t] == id;
      }
      if id in IdsOf(Firsts(ps)) {
        var t :| 0 <= t < |Firsts(ps)| && IdsOf(Firsts(ps))[t] == id;
        assert ps[taken[t]].meta.id == id;
      }
    }
  }

  lemma {:induction false} FirstOf(ps: seq<Plugin>, id: string, j: nat) returns (i: nat)
    requires id != "" && j < |ps| && ps[j].meta.id == id
    ensures i < |ps| && ps[i].meta.id == id && ComesFirst(ps, i)
    decreases j
  {
    if k :| 0 <= k < j && ps[k].meta.id == id {
      i := FirstOf(ps, id, k);
    } else {
      i := j;
    }
  }
}
