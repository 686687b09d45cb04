// What carrying a plan out keeps, and that a fresh batch is registered exactly in the planned order,
// whatever waiting plugins are loaded in between.
module BatchOrder {
  import opened Text
  import opened Manifest
  import opened Registry
  import opened Loading
  import opened Catalogue
  import opened LazyLoading
  import opened Replacement
  import opened Graph
  import opened Kahn
  import opened Batches
  import Version

  // ---- invariants ----

  /** From a to b the registry stays valid, keeps its plugins and keeps every dependency met. */
  ghost predicate KeptGoing(env: Env, a: State, b: State) {
    Valid(env, b) && Grows(a.meta, b.meta) && (Sound(env, a.meta) ==> Sound(env, b.meta))
  }

  lemma KeptTrans(env: Env, a: State, b: State, c: State)
    requires KeptGoing(env, a, b) && KeptGoing(env, b, c)
    ensures KeptGoing(env, a, c)
  {
    hide Valid, Sound;
  }

  lemma KeptEnroll(env: Env, a: State, b: State, p: Plugin)
    requires KeptGoing(env, a, b)
    ensures Queue(b) && KeptGoing(env, a, Enroll(env, b, p).0)
  {
    EnrollKeeps(env, b, p);
    hide Tables, Queue, Apart, Quiet, Sound, Enroll, Grows, Later;
    LaterGrows(b, Enroll(env, b, p).0);
    KeptTrans(env, a, b, Enroll(env, b, p).0);
  }

  lemma KeptEnrollLazy(env: Env, a: State, b: State, p: Plugin)
    requires KeptGoing(env, a, b)
    ensures Queue(b) && KeptGoing(env, a, EnrollLazy(env, b, p).0)
  {
    EnrollLazyKeeps(env, b, p);
    hide Tables, Queue, Apart, Quiet, Sound, EnrollLazy, Enroll, DepsMet, Grows;
    KeptTrans(env, a, b, EnrollLazy(env, b, p).0);
  }

  lemma {:induction false} RegisterAllKeeps(env: Env, s: State, entries: seq<Plugin>, order: seq<nat>)
    requires Queue(s) && InBounds(entries, order) && KeptGoing(env, s, s)
    ensures KeptGoing(env, s, RegisterAll(env, s, entries, order).state)
  {
    hide KeptGoing, Queue, Enroll;
    if order == [] {
    } else {
      var rest := order[..|order| - 1];
      RegisterAllKeeps(env, s, entries, rest);
      KeptEnroll(env, s, RegisterAll(env, s, entries, rest).state, entries[order[|order| - 1]]);
    }
  }

  lemma {:induction false} DeferAllKeeps(env: Env, a: State, s: State, entries: seq<Plugin>, ids: seq<nat>)
    requires Queue(s) && InBounds(entries, ids) && KeptGoing(env, a, s)
    ensures KeptGoing(env, a, DeferAll(env, s, entries, ids).state)
  {
    hide KeptGoing, Queue, EnrollLazy;
    if ids == [] {
    } else {
      var rest := ids[..|ids| - 1];
      DeferAllKeeps(env, a, s, entries, rest);
      KeptEnrollLazy(env, a, DeferAll(env, s, entries, rest).state, entries[ids[|ids| - 1]]);
    }
  }

  /** RegisterMany keeps the registry valid and every dependency met, whatever the plan. */
  lemma CarryKeeps(env: Env, s: State, ps: seq<Plugin>, plan: Plan)
    requires Valid(env, s) && PlanInRange(plan)
    ensures KeptGoing(env, s, Carry(env, s, ps, plan).0)
  {
    assert KeptGoing(env, s, s);
    hide KeptGoing, Tables, Queue, Apart, Quiet, RegisterAll, DeferAll, LeftOver, LaterOnes;
    RegisterAllKeeps(env, s, plan.entries, plan.order);
    DeferAllKeeps(env, s, RegisterAll(env, s, plan.entries, plan.order).state, plan.entries, LaterOnes(plan));
  }

  // ---- a fresh batch ----

  ghost predicate Fresh(s: State, entries: seq<Plugin>) {
    forall e :: e in entries ==> e.meta.id !in s.meta && e.meta.id !in s.waiting
  }

  /** Whoever d names is recent enough, be it registered or in the batch. */
  ghost predicate RecentEnough(book: Book, entries: seq<Plugin>, d: Dependency) {
    d.kind == Init && d.slot == "" && d.minVersion != "" ==>
      && (d.plugin in book ==> Version.AtLeast(book[d.plugin].version, d.minVersion))
      && (forall e :: e in entries && e.meta.id == d.plugin ==> Version.AtLeast(e.meta.version, d.minVersion))
  }

  /** p passes every check other than the presence of its dependencies. */
  ghost predicate Fit(env: Env, s: State, entries: seq<Plugin>, p: Plugin) {
    && Admissible(env, s.meta, p)
    && (forall d :: d in p.meta.deps ==> Lasting(env, d) && RecentEnough(s.meta, entries, d))
  }

  lemma NeedIsMet(env: Env, s: State, entries: seq<Plugin>, done: seq<nat>, book: Book, d: Dependency, k: Key)
    requires KeyOf(d) == Some(k) && Lasting(env, d) && RecentEnough(s.meta, entries, d)
    requires Grows(s.meta, book)
    requires InBounds(entries, done)
    requires forall t :: 0 <= t < |done| ==> entries[done[t]].meta.id in book && book[entries[done[t]].meta.id] == entries[done[t]].meta
    requires External(env, s.meta, k) || exists j :: j in done && k in ProvideKeys(entries[j].meta)
    ensures DepMet(env, book, d)
  {
    if External(env, s.meta, k) {
      if k.SlotKey? && !Builtin(env, k.slot) {
        var id :| id in s.meta && s.meta[id].slot == k.slot;
        assert id in book && book[id].slot == d.slot;
      }
    } else {
      var j :| j in done && k in ProvideKeys(entries[j].meta);
      var t :| 0 <= t < |done| && done[t] == j;
      assert entries[j] in entries && entries[j].meta.id in book;
      if k.SlotKey? {
        assert book[entries[j].meta.id].slot == d.slot;
      }
    }
  }

  ghost predicate OrderOf(env: Env, s: State, entries: seq<Plugin>, order: seq<nat>) {
    && NoDup(IdsOf(entries)) && NoDup(order)
    && InBounds(entries, order)
    && Grounded(BatchOf(env, s.meta, entries), order)
  }

  ghost predicate Arrived(entries: seq<Plugin>, done: seq<nat>, book: Book)
    requires InBounds(entries, done)
  {
    forall t :: 0 <= t < |done| ==> entries[done[t]].meta.id in book && book[entries[done[t]].meta.id] == entries[done[t]].meta
  }

  ghost predicate OnlyThese(s: State, entries: seq<Plugin>, done: seq<nat>, book: Book)
    requires InBounds(entries, done)
  {
    forall id :: id in book ==> id in s.meta || id in s.waiting || exists t :: 0 <= t < |done| && entries[done[t]].meta.id == id
  }

  /** The state part of SoFar. */
  ghost predicate Standing(env: Env, s: State, r: State) {
    Core(r) && Quiet(env, r) && Exact(r) && QueueNamedOnce(r) && Later(s, r)
  }

  /** Half-way through the order: everybody so far is in, and only waiting plugins came in besides. */
  ghost predicate SoFar(env: Env, s: State, entries: seq<Plugin>, done: seq<nat>, r: Run)
    requires InBounds(entries, done)
  {
    && Standing(env, s, r.state)
    && r.failed == [] && r.done == Along(entries, done)
    && Arrived(entries, done, r.state.meta)
    && OnlyThese(s, entries, done, r.state.meta)
  }

  lemma KeyComesBefore(env: Env, s: State, entries: seq<Plugin>, order: seq<nat>, n: nat, k: Key)
    requires OrderOf(env, s, entries, order) && n < |order| && k in NeedKeys(entries[order[n]].meta.deps)
    ensures External(env, s.meta, k) || exists j :: j in order[..n] && k in ProvideKeys(entries[j].meta)
  {
    hide External, KeyOf, IdsOf, NeedKeys, ProvideKeys;
    var b := BatchOf(env, s.meta, entries);
    assert k in b.needs[order[n]];
    assert b.ext(k) <==> External(env, s.meta, k);
    if GivenBy(b, Ids(order[..n]), k) {
      var j :| j in Ids(order[..n]) && j < |b.gives| && k in b.gives[j];
      assert j in order[..n] && b.gives[j] == ProvideKeys(entries[j].meta);
    }
  }

  lemma NextDepMet(env: Env, s: State, entries: seq<Plugin>, order: seq<nat>, n: nat, r: Run, d: Dependency)
    requires OrderOf(env, s, entries, order) && n < |order| && d in entries[order[n]].meta.deps
    requires Lasting(env, d) && RecentEnough(s.meta, entries, d)
    requires SoFar(env, s, entries, order[..n], r)
    ensures DepMet(env, r.state.meta, d)
  {
    hide SoFar, External, RecentEnough, ProvideKeys, DepMet, Lasting;
    if d.kind == Init {
      LastingHasKey(env, d);
      var k := KeyOf(d).value;
      assert k in NeedKeys(entries[order[n]].meta.deps);
      assert InBounds(entries, order[..n]);
      hide KeyOf, NeedKeys;
      KeyComesBefore(env, s, entries, order, n, k);
      NeedIsMetSoFar(env, s, entries, order[..n], r, d, k);
    } else {
      OnlyInitCounts(env, r.state.meta, d);
    }
  }

  lemma NextDepsMet(env: Env, s: State, entries: seq<Plugin>, order: seq<nat>, n: nat, r: Run)
    requires OrderOf(env, s, entries, order) && n < |order| && Fit(env, s, entries, entries[order[n]])
    requires SoFar(env, s, entries, order[..n], r)
    ensures DepsMet(env, r.state.meta, entries[order[n]].meta)
  {
    hide SoFar, Admissible, RecentEnough, DepMet, Lasting;
    assert forall d :: d in entries[order[n]].meta.deps ==> Lasting(env, d) && RecentEnough(s.meta, entries, d);
    forall d | d in entries[order[n]].meta.deps
      ensures DepMet(env, r.state.meta, d)
    {
      hide OrderOf, Fit;
      NextDepMet(env, s, entries, order, n, r, d);
    }
  }

  lemma LastingHasKey(env: Env, d: Dependency)
    requires d.kind == Init && Lasting(env, d)
    ensures KeyOf(d).Some?
  {
  }

  lemma OnlyInitCounts(env: Env, book: Book, d: Dependency)
    requires d.kind != Init
    ensures DepMet(env, book, d)
  {
  }

  lemma NeedIsMetSoFar(env: Env, s: State, entries: seq<Plugin>, done: seq<nat>, r: Run, d: Dependency, k: Key)
    requires KeyOf(d) == Some(k) && Lasting(env, d) && RecentEnough(s.meta, entries, d)
    requires InBounds(entries, done)
    requires SoFar(env, s, entries, done, r)
    requires External(env, s.meta, k) || exists j :: j in done && k in ProvideKeys(entries[j].meta)
    ensures DepMet(env, r.state.meta, d)
  {
    assert Grows(s.meta, r.state.meta);
    hide External, RecentEnough, Core, Exact, QueueNamedOnce, Quiet, Grows;
    NeedIsMet(env, s, entries, done, r.state.meta, d, k);
  }

  lemma NextIsNew(env: Env, s: State, entries: seq<Plugin>, order: seq<nat>, n: nat, r: Run)
    requires OrderOf(env, s, entries, order) && n < |order| && Fresh(s, entries)
    requires SoFar(env, s, entries, order[..n], r)
    ensures entries[order[n]].meta.id !in r.state.meta
  {
    var id := entries[order[n]].meta.id;
    assert entries[order[n]] in entries;
    forall t | 0 <= t < n
      ensures entries[order[t]].meta.id != id
    {
      assert order[t] != order[n];
      assert IdsOf(entries)[order[t]] != IdsOf(entries)[order[n]];
    }
    hide Core, Exact, QueueNamedOnce, Quiet, Later, Grounded;
  }

  lemma NextSucceeds(env: Env, s: State, p: Plugin)
    requires Core(s) && Exact(s) && p.meta.id !in s.meta && p.meta.id != ""
    requires DepsMet(env, s.meta, p.meta) && Admissible(env, s.meta, p)
    ensures Enroll(env, s, p).1.None?
  {
    assert p.meta.id !in s.plugins;
    AdmitCatalogue(env, s, p);
    EnrollUnfolds(env, s, p);
    hide Tables, Queue, Apart, Exact, Admit, Enroll, Retry, StaticOk, DepsMet, SlotOk, NamedOnce;
  }

  lemma ArrivedNext(entries: seq<Plugin>, done: seq<nat>, i: nat, a: Book, b: Book)
    requires i < |entries| && InBounds(entries, done)
    requires Arrived(entries, done, a) && Grows(a, b) && entries[i].meta.id in b && b[entries[i].meta.id] == entries[i].meta
    ensures Arrived(entries, done + [i], b)
  {
  }

  lemma OnlyTheseNext(s: State, entries: seq<Plugin>, done: seq<nat>, i: nat, a: State, b: Book)
    requires i < |entries| && InBounds(entries, done)
    requires OnlyThese(s, entries, done, a.meta) && b.Keys <= a.meta.Keys + a.waiting.Keys + {entries[i].meta.id}
    requires Later(s, a)
    ensures OnlyThese(s, entries, done + [i], b)
  {
    var more := done + [i];
    forall id | id in b
      ensures id in s.meta || id in s.waiting || exists t :: 0 <= t < |more| && entries[more[t]].meta.id == id
    {
      if id == entries[i].meta.id {
        assert entries[more[|done|]].meta.id == id;
      } else if id in a.meta && id !in s.meta && id !in s.waiting {
        var t :| 0 <= t < |done| && entries[done[t]].meta.id == id;
        assert entries[more[t]].meta.id == id;
      }
    }
  }

  lemma StandingNext(env: Env, s: State, a: State, p: Plugin)
    requires Standing(env, s, a) && Enroll(env, a, p).1.None? && NamedOnce(p)
    ensures var b := Enroll(env, a, p).0;
            && Standing(env, s, b) && Grows(a.meta, b.meta) && p.meta.id in b.meta && b.meta[p.meta.id] == p.meta
            && b.meta.Keys <= a.meta.Keys + a.waiting.Keys + {p.meta.id}
  {
    EnrollKeeps(env, a, p);
    EnrollAdds(env, a, p);
    EnrollCatalogue(env, a, p);
    hide Tables, Queue, Apart, Quiet, Exact, QueueNamedOnce, Enroll, NamedOnce, Sound, Later;
    var b := Enroll(env, a, p).0;
    StillNamedOnce(a, b);
    LaterTrans(s, a, b);
    RegisteredMeta(b, p);
    LaterGrows(a, b);
  }

  lemma NextStep(env: Env, s: State, entries: seq<Plugin>, done: seq<nat>, i: nat, before: Run, after: Run)
    requires i < |entries| && InBounds(entries, done) && SoFar(env, s, entries, done, before)
    requires Queue(before.state) && Enroll(env, before.state, entries[i]).1.None? && NamedOnce(entries[i])
    requires after == Note(before, Enroll(env, before.state, entries[i]).0, entries[i].meta.id, None)
    ensures InBounds(entries, done + [i]) && SoFar(env, s, entries, done + [i], after)
  {
    StandingNext(env, s, before.state, entries[i]);
    assert Later(s, before.state);
    hide Standing, Queue, Enroll, NamedOnce, Arrived, OnlyThese, Grows, Later;
    ArrivedNext(entries, done, i, before.state.meta, after.state.meta);
    OnlyTheseNext(s, entries, done, i, before.state, after.state.meta);
    AlongNext(entries, done, i);
    hide Along, InBounds;
  }

  lemma AlongNext(entries: seq<Plugin>, done: seq<nat>, i: nat)
    requires i < |entries| && InBounds(entries, done)
    ensures InBounds(entries, done + [i]) && Along(entries, done + [i]) == Along(entries, done) + [entries[i].meta.id]
  {
    assert (done + [i])[..|done|] == done;
  }

  lemma NextEnrolls(env: Env, s: State, entries: seq<Plugin>, order: seq<nat>, n: nat, before: Run)
    requires OrderOf(env, s, entries, order) && Fresh(s, entries) && "" !in IdsOf(entries)
    requires n < |order| && Fit(env, s, entries, entries[order[n]]) && SoFar(env, s, entries, order[..n], before)
    ensures Queue(before.state) && Enroll(env, before.state, entries[order[n]]).1.None? && NamedOnce(entries[order[n]])
  {
    hide Fresh, SoFar, Fit, Enroll, Grounded;
    NextDepsMet(env, s, entries, order, n, before);
    NextIsNew(env, s, entries, order, n, before);
    Named(entries, order[n]);
    SoFarFacts(env, s, entries, order[..n], before, entries[order[n]]);
    hide OrderOf, Tables, Apart, Quiet, Queue, Exact, Admissible, DepsMet, NamedOnce;
    NextSucceeds(env, before.state, entries[order[n]]);
  }

  lemma OneMoreInOrder(env: Env, s: State, entries: seq<Plugin>, done: seq<nat>, i: nat)
    requires Queue(s) && i < |entries| && InBounds(entries, done)
    requires var before := RegisterAll(env, s, entries, done);
             SoFar(env, s, entries, done, before) && Enroll(env, before.state, entries[i]).1.None? && NamedOnce(entries[i])
    ensures InBounds(entries, done + [i]) && SoFar(env, s, entries, done + [i], RegisterAll(env, s, entries, done + [i]))
  {
    hide SoFar, Enroll, Queue, RegisterAll, Note, NamedOnce, InBounds;
    RegisterOneMore(env, s, entries, done, i);
    NextStep(env, s, entries, done, i, RegisterAll(env, s, entries, done), RegisterAll(env, s, entries, done + [i]));
  }

  lemma NothingYet(env: Env, s: State, entries: seq<Plugin>)
    requires Valid(env, s) && Exact(s) && QueueNamedOnce(s)
    ensures SoFar(env, s, entries, [], RegisterAll(env, s, entries, []))
  {
    LaterRefl(s);
    hide Tables, Queue, Apart, Quiet, Exact, QueueNamedOnce, Later;
  }

  /** The first n of the order have been registered. */
  ghost predicate InOrder(env: Env, s: State, entries: seq<Plugin>, order: seq<nat>, n: nat)
    requires Queue(s) && n <= |order| && InBounds(entries, order)
  {
    SoFar(env, s, entries, order[..n], RegisterAll(env, s, entries, order[..n]))
  }

  lemma InOrderNext(env: Env, s: State, entries: seq<Plugin>, order: seq<nat>, n: nat)
    requires Queue(s) && OrderOf(env, s, entries, order) && Fresh(s, entries) && "" !in IdsOf(entries)
    requires n < |order| && Fit(env, s, entries, entries[order[n]]) && InOrder(env, s, entries, order, n)
    ensures InOrder(env, s, entries, order, n + 1)
  {
    hide Queue, Fresh, SoFar, Fit, RegisterAll, Enroll, NamedOnce, Grounded;
    NextEnrolls(env, s, entries, order, n, RegisterAll(env, s, entries, order[..n]));
    assert InBounds(entries, order[..n]) && order[n] < |entries|;
    assert order[..n + 1] == order[..n] + [order[n]];
    hide OrderOf, InBounds;
    OneMoreInOrder(env, s, entries, order[..n], order[n]);
  }

  lemma {:induction false} OrderIsRegistered(env: Env, s: State, entries: seq<Plugin>, order: seq<nat>, n: nat)
    requires Valid(env, s) && Exact(s) && QueueNamedOnce(s)
    requires OrderOf(env, s, entries, order) && n <= |order| && Fresh(s, entries) && "" !in IdsOf(entries)
    requires forall i :: i in order ==> Fit(env, s, entries, entries[i])
    ensures InOrder(env, s, entries, order, n)
  {
    if n == 0 {
      NothingYet(env, s, entries);
      assert order[..0] == [];
    } else {
      hide InOrder, Tables, Queue, Apart, Quiet, Exact, QueueNamedOnce, Fresh, Fit;
      OrderIsRegistered(env, s, entries, order, n - 1);
      assert order[n - 1] in order;
      InOrderNext(env, s, entries, order, n - 1);
    }
  }

  lemma Named(entries: seq<Plugin>, i: nat)
    requires i < |entries| && "" !in IdsOf(entries)
    ensures entries[i].meta.id != ""
  {
    assert IdsOf(entries)[i] == entries[i].meta.id;
  }

  lemma SoFarFacts(env: Env, s: State, entries: seq<Plugin>, done: seq<nat>, r: Run, p: Plugin)
    requires InBounds(entries, done)
    requires SoFar(env, s, entries, done, r) && Fit(env, s, entries, p)
    ensures Core(r.state) && Exact(r.state) && Admissible(env, r.state.meta, p) && NamedOnce(p)
  {
    hide Core, Exact, QueueNamedOnce, Quiet, RecentEnough;
    assert Grows(s.meta, r.state.meta);
    StillAdmissible(env, s.meta, r.state.meta, p);
  }

  /** A batch of new ids that pass their other checks is registered in full, in exactly the planned order. */
  lemma FreshBatchRegisteredInOrder(env: Env, s: State, ps: seq<Plugin>, plan: Plan)
    requires Valid(env, s) && Exact(s) && QueueNamedOnce(s)
    requires PlanFor(env, s, ps, plan) && PlanInRange(plan) && Fresh(s, plan.entries)
    requires forall i :: i in plan.order ==> Fit(env, s, plan.entries, plan.entries[i])
    ensures Carry(env, s, ps, plan).1.registered == Along(plan.entries, plan.order)
  {
    FirstsAreDistinct(ps);
    assert OrderOf(env, s, plan.entries, plan.order);
    OrderIsRegistered(env, s, plan.entries, plan.order, |plan.order|);
    assert plan.order[..|plan.order|] == plan.order;
    hide Tables, Queue, Apart, Quiet, Exact, QueueNamedOnce, PlanFor, Fresh, Fit;
  }
}
