// RegisterMany as a plan and its execution: every input is reported once, and a fresh batch that
// passes its other checks is registered exactly in the order planned.
module Batches {
  import opened Text
  import opened Bags
  import opened Manifest
  import opened Registry
  import opened Loading
  import opened Catalogue
  import opened LazyLoading
  import opened Graph
  import opened Kahn
  import Version

  datatype Failure = Failure(id: string, error: Error)

  datatype Report = Report(registered: seq<string>, pending: seq<string>, failed: seq<Failure>)

  // ---- keys ----

  /** The key a dependency contributes: the plugin name decides when both are given. */
  function KeyOf(d: Dependency): Option<Key> {
    if d.kind != Init then None
    else if d.plugin != "" then Some(PluginKey(d.plugin))
    else if d.slot != "" then Some(SlotKey(d.slot))
    else None
  }

  function NeedKeys(ds: seq<Dependency>): (r: seq<Key>)
    ensures forall k :: k in r <==> exists d :: d in ds && KeyOf(d) == Some(k)
  {
    if ds == [] then []
    else
      assert forall d :: d in ds <==> d == ds[0] || d in ds[1..];
      (match KeyOf(ds[0]) case Some(k) => [k] case None => []) + NeedKeys(ds[1..])
  }

  function ProvideKeys(m: Meta): seq<Key> {
    [PluginKey(m.id)] + if m.slot != "" then [SlotKey(m.slot)] else []
  }

  /** keyProvided against the registered plugins. */
  predicate External(env: Env, book: Book, k: Key) {
    match k
    case PluginKey(id) => id in book
    case SlotKey(slot) => (slot != "" && Occupied(book, slot)) || Builtin(env, slot)
  }

  function BatchOf(env: Env, book: Book, entries: seq<Plugin>): (b: Batch)
    ensures WellFormed(b) && |b.needs| == |entries|
  {
    Batch(seq(|entries|, i requires 0 <= i < |entries| => NeedKeys(entries[i].meta.deps)),
          seq(|entries|, i requires 0 <= i < |entries| => ProvideKeys(entries[i].meta)),
          k => External(env, book, k))
  }

  /** The keys the waiting plugins will give. */
  function LaterKeys(waiting: map<string, Plugin>): set<Key> {
    (set id | id in waiting :: PluginKey(id)) +
    set id | id in waiting && waiting[id].meta.slot != "" :: SlotKey(waiting[id].meta.slot)
  }

  // ---- the plan ----

  function IdsOf(ps: seq<Plugin>): (r: seq<string>)
    ensures |r| == |ps| && forall i :: 0 <= i < |ps| ==> r[i] == ps[i].meta.id
  {
    seq(|ps|, i requires 0 <= i < |ps| => ps[i].meta.id)
  }

  function FailedIds(fs: seq<Failure>): (r: seq<string>)
    ensures |r| == |fs| && forall i :: 0 <= i < |fs| ==> r[i] == fs[i].id
  {
    seq(|fs|, i requires 0 <= i < |fs| => fs[i].id)
  }

  /** The first plugin of every non-empty id. */
  function Firsts(ps: seq<Plugin>): seq<Plugin> {
    if ps == [] then []
    else
      var rest, p := ps[..|ps| - 1], ps[|ps| - 1];
      if p.meta.id == "" || p.meta.id in IdsOf(Firsts(rest)) then Firsts(rest) else Firsts(rest) + [p]
  }

  /** The others. */
  function Rejects(ps: seq<Plugin>): seq<Failure> {
    if ps == [] then []
    else
      var rest, p := ps[..|ps| - 1], ps[|ps| - 1];
      if p.meta.id == "" then Rejects(rest) + [Failure("", EmptyId)]
      else if p.meta.id in IdsOf(Firsts(rest)) then Rejects(rest) + [Failure(p.meta.id, DuplicateInBatch)]
      else Rejects(rest)
  }

  datatype Plan = Plan(entries: seq<Plugin>, active: set<nat>, deferred: set<nat>, missing: seq<Missing>, order: seq<nat>)

  /** What steps 2 to 6 of RegisterMany may decide. */
  ghost predicate PlanFor(env: Env, s: State, ps: seq<Plugin>, plan: Plan) {
    var b := BatchOf(env, s.meta, plan.entries);
    && plan.entries == Firsts(ps)
    && GreatestSupplied(b, plan.active)
    && Classified(b, LaterKeys(s.waiting), plan.active, plan.deferred, plan.missing)
    && KahnOrder(b, plan.active, plan.order)
  }

  // ---- its execution ----

  predicate InBounds(entries: seq<Plugin>, ids: seq<nat>) {
    forall t :: 0 <= t < |ids| ==> ids[t] < |entries|
  }

  /** The ids of the entries listed. */
  function Along(entries: seq<Plugin>, ids: seq<nat>): seq<string>
    requires InBounds(entries, ids)
  {
    if ids == [] then [] else Along(entries, ids[..|ids| - 1]) + [entries[ids[|ids| - 1]].meta.id]
  }

  /** The members of ids below n, ascending. */
  function Ascending(ids: set<nat>, n: nat): (r: seq<nat>)
    ensures NoDup(r) && (forall i: nat :: i in r <==> i in ids && i < n) && forall t :: 0 <= t < |r| ==> r[t] < n
    ensures forall t, u :: 0 <= t < u < |r| ==> r[t] < r[u]
  {
    if n == 0 then [] else if n - 1 in ids then Ascending(ids, n - 1) + [n - 1] else Ascending(ids, n - 1)
  }

  datatype Run = Run(state: State, done: seq<string>, failed: seq<Failure>)

  /** One more plugin handled. */
  function Note(before: Run, state: State, id: string, err: Option<Error>): Run {
    if err.Some? then Run(state, before.done, before.failed + [Failure(id, err.value)])
    else Run(state, before.done + [id], before.failed)
  }

  /** Step 7: the entries are registered in the order listed. */
  function RegisterAll(env: Env, s: State, entries: seq<Plugin>, order: seq<nat>): (r: Run)
    requires Queue(s) && InBounds(entries, order)
    ensures Queue(r.state)
  {
    if order == [] then Run(s, [], [])
    else
      var before, p := RegisterAll(env, s, entries, order[..|order| - 1]), entries[order[|order| - 1]];
      var (s1, err) := Enroll(env, before.state, p);
      Note(before, s1, p.meta.id, err)
  }

  /** Step 8: the deferred entries are registered lazily. */
  function DeferAll(env: Env, s: State, entries: seq<Plugin>, ids: seq<nat>): (r: Run)
    requires Queue(s) && InBounds(entries, ids)
    ensures Queue(r.state)
  {
    if ids == [] then Run(s, [], [])
    else
      var before, p := DeferAll(env, s, entries, ids[..|ids| - 1]), entries[ids[|ids| - 1]];
      var (s1, status, err) := EnrollLazy(env, before.state, p);
      Note(before, s1, p.meta.id, err)
  }

  function MissingFailures(entries: seq<Plugin>, missing: seq<Missing>): (r: seq<Failure>)
    requires forall m :: m in missing ==> m.entry < |entries|
    ensures |r| == |missing|
    ensures forall t :: 0 <= t < |missing| ==> r[t] == Failure(entries[missing[t].entry].meta.id, MissingDependency(missing[t].key))
  {
    seq(|missing|, t requires 0 <= t < |missing| => Failure(entries[missing[t].entry].meta.id, MissingDependency(missing[t].key)))
  }

  function CycleFailures(entries: seq<Plugin>, ids: seq<nat>): (r: seq<Failure>)
    requires InBounds(entries, ids)
    ensures |r| == |ids| && forall t :: 0 <= t < |ids| ==> r[t] == Failure(entries[ids[t]].meta.id, DependencyCycle)
  {
    seq(|ids|, t requires 0 <= t < |ids| => Failure(entries[ids[t]].meta.id, DependencyCycle))
  }

  ghost predicate PlanInRange(plan: Plan) {
    && InBounds(plan.entries, plan.order)
    && (forall m :: m in plan.missing ==> m.entry < |plan.entries|)
  }

  /** The active entries the order left out, and the deferred ones, ascending. */
  ghost function LeftOver(plan: Plan): (r: seq<nat>)
    ensures InBounds(plan.entries, r)
  {
    Ascending(plan.active - Ids(plan.order), |plan.entries|)
  }

  ghost function LaterOnes(plan: Plan): (r: seq<nat>)
    ensures InBounds(plan.entries, r)
  {
    Ascending(plan.deferred, |plan.entries|)
  }

  /** Steps 7 and 8 of RegisterMany on a plan, and the report of all steps. */
  ghost function Carry(env: Env, s: State, ps: seq<Plugin>, plan: Plan): (r: (State, Report))
    requires Queue(s) && PlanInRange(plan)
    ensures Queue(r.0)
  {
    var run := RegisterAll(env, s, plan.entries, plan.order);
    var lazy := DeferAll(env, run.state, plan.entries, LaterOnes(plan));
    (lazy.state,
     Report(run.done, lazy.done,
            Rejects(ps) + MissingFailures(plan.entries, plan.missing) + CycleFailures(plan.entries, LeftOver(plan)) +
            run.failed + lazy.failed))
  }

  lemma FirstsNext(ps: seq<Plugin>, i: nat)
    requires i < |ps|
    ensures var p, before := ps[i], Firsts(ps[..i]);
            Firsts(ps[..i + 1]) == if p.meta.id == "" || p.meta.id in IdsOf(before) then before else before + [p]
    ensures var p, before := ps[i], Firsts(ps[..i]);
            Rejects(ps[..i + 1]) ==
            if p.meta.id == "" then Rejects(ps[..i]) + [Failure("", EmptyId)]
            else if p.meta.id in IdsOf(before) then Rejects(ps[..i]) + [Failure(p.meta.id, DuplicateInBatch)]
            else Rejects(ps[..i])
  {
    assert ps[..i + 1][..i] == ps[..i] && ps[..i + 1][i] == ps[i];
  }

  /** Step 2: the first plugin of every id is an entry, the others are refused. */
  method IndexBatch(ps: seq<Plugin>) returns (entries: seq<Plugin>, failed: seq<Failure>)
    ensures entries == Firsts(ps) && failed == Rejects(ps)
  {
    entries, failed := [], [];
    var seen: set<string> := {};
    for i := 0 to |ps|
      invariant entries == Firsts(ps[..i]) && failed == Rejects(ps[..i])
      invariant forall id :: id in seen <==> id in IdsOf(entries)
    {
      FirstsNext(ps, i);
      var p := ps[i];
      if p.meta.id == "" {
        failed := failed + [Failure("", EmptyId)];
      } else if p.meta.id in seen {
        failed := failed + [Failure(p.meta.id, DuplicateInBatch)];
      } else {
        seen := seen + {p.meta.id};
        assert IdsOf(entries + [p]) == IdsOf(entries) + [p.meta.id];
        entries := entries + [p];
      }
    }
    assert ps[..|ps|] == ps;
  }

  lemma RegisterOneMore(env: Env, s: State, entries: seq<Plugin>, done: seq<nat>, i: nat)
    requires Queue(s) && i < |entries| && InBounds(entries, done)
    ensures InBounds(entries, done + [i])
    ensures var before := RegisterAll(env, s, entries, done);
            RegisterAll(env, s, entries, done + [i]) ==
            Note(before, Enroll(env, before.state, entries[i]).0, entries[i].meta.id, Enroll(env, before.state, entries[i]).1)
  {
    hide Queue, Enroll;
    assert (done + [i])[..|done|] == done;
  }

  lemma DeferOneMore(env: Env, s: State, entries: seq<Plugin>, done: seq<nat>, i: nat)
    requires Queue(s) && i < |entries| && InBounds(entries, done)
    ensures InBounds(entries, done + [i])
    ensures var before := DeferAll(env, s, entries, done);
            DeferAll(env, s, entries, done + [i]) ==
            Note(before, EnrollLazy(env, before.state, entries[i]).0, entries[i].meta.id, EnrollLazy(env, before.state, entries[i]).2)
  {
    hide Queue, EnrollLazy;
    assert (done + [i])[..|done|] == done;
  }

  lemma PlanRange(env: Env, s: State, ps: seq<Plugin>, plan: Plan)
    requires PlanFor(env, s, ps, plan)
    ensures PlanInRange(plan)
  {
    var b := BatchOf(env, s.meta, plan.entries);
    forall t | 0 <= t < |plan.order|
      ensures plan.order[t] < |plan.entries|
    {
      assert plan.order[t] in Ids(plan.order);
    }
    assert forall m :: m in plan.missing ==> ReallyMissing(b, LaterKeys(s.waiting), plan.active + plan.deferred, m);
  }

  // ---- every input is reported once ----

  lemma {:induction false} FirstsAreDistinct(ps: seq<Plugin>)
    ensures NoDup(IdsOf(Firsts(ps))) && "" !in IdsOf(Firsts(ps))
  {
    if ps == [] {
    } else {
      var rest, p := ps[..|ps| - 1], ps[|ps| - 1];
      FirstsAreDistinct(rest);
      assert IdsOf(Firsts(rest) + [p]) == IdsOf(Firsts(rest)) + [p.meta.id];
    }
  }

  lemma {:induction false} FirstsAndRejects(ps: seq<Plugin>)
    ensures multiset(IdsOf(ps)) == multiset(IdsOf(Firsts(ps))) + multiset(FailedIds(Rejects(ps)))
  {
    if ps == [] {
    } else {
      var rest, p := ps[..|ps| - 1], ps[|ps| - 1];
      FirstsAndRejects(rest);
      assert IdsOf(ps) == IdsOf(rest) + [p.meta.id];
      assert IdsOf(Firsts(rest) + [p]) == IdsOf(Firsts(rest)) + [p.meta.id];
      if p.meta.id == "" {
        assert FailedIds(Rejects(ps)) == FailedIds(Rejects(rest)) + [p.meta.id];
      } else if p.meta.id in IdsOf(Firsts(rest)) {
        assert FailedIds(Rejects(ps)) == FailedIds(Rejects(rest)) + [p.meta.id];
      }
    }
  }

  lemma NoteReports(before: Run, state: State, id: string, err: Option<Error>)
    ensures var r := Note(before, state, id, err);
            multiset(r.done) + multiset(FailedIds(r.failed)) == multiset(before.done) + multiset(FailedIds(before.failed)) + multiset{id}
  {
    if err.Some? {
      assert FailedIds(before.failed + [Failure(id, err.value)]) == FailedIds(before.failed) + [id];
    }
  }

  lemma {:induction false} RegisterAllReports(env: Env, s: State, entries: seq<Plugin>, order: seq<nat>)
    requires Queue(s) && InBounds(entries, order)
    ensures var r := RegisterAll(env, s, entries, order);
            multiset(Along(entries, order)) == multiset(r.done) + multiset(FailedIds(r.failed))
  {
    hide Enroll, Queue, Note;
    if order == [] {
    } else {
      var rest, p := order[..|order| - 1], entries[order[|order| - 1]];
      RegisterAllReports(env, s, entries, rest);
      var before := RegisterAll(env, s, entries, rest);
      NoteReports(before, Enroll(env, before.state, p).0, p.meta.id, Enroll(env, before.state, p).1);
    }
  }

  lemma {:induction false} DeferAllReports(env: Env, s: State, entries: seq<Plugin>, ids: seq<nat>)
    requires Queue(s) && InBounds(entries, ids)
    ensures var r := DeferAll(env, s, entries, ids);
            multiset(Along(entries, ids)) == multiset(r.done) + multiset(FailedIds(r.failed))
  {
    hide EnrollLazy, Queue, Note;
    if ids == [] {
    } else {
      var rest, p := ids[..|ids| - 1], entries[ids[|ids| - 1]];
      DeferAllReports(env, s, entries, rest);
      var before := DeferAll(env, s, entries, rest);
      NoteReports(before, EnrollLazy(env, before.state, p).0, p.meta.id, EnrollLazy(env, before.state, p).2);
    }
  }

  function MissingEntries(missing: seq<Missing>): (r: seq<nat>)
    ensures |r| == |missing| && forall t :: 0 <= t < |missing| ==> r[t] == missing[t].entry
  {
    seq(|missing|, t requires 0 <= t < |missing| => missing[t].entry)
  }

  /** The four ways an entry can go cover all entries, each once. */
  lemma EntriesPartition(env: Env, s: State, ps: seq<Plugin>, plan: Plan)
    requires PlanFor(env, s, ps, plan)
    ensures var m, l, d := MissingEntries(plan.missing), LeftOver(plan), LaterOnes(plan);
            && NoDup(m) && NoDup(l) && NoDup(plan.order) && NoDup(d)
            && (forall x: nat :: x in m || x in l || x in plan.order || x in d <==> x < |plan.entries|)
            && (forall x: nat :: (x in m ==> x !in l && x !in plan.order && x !in d) && (x in l ==> x !in plan.order && x !in d)
                                 && (x in plan.order ==> x !in d))
  {
    var n := |plan.entries|;
    var b := BatchOf(env, s.meta, plan.entries);
    var o := plan.order;
    MissingMembers(plan.missing);
    assert |b.needs| == n;
    assert forall i: nat :: i in plan.active + plan.deferred + MissingIds(plan.missing) <==> i < n;
    assert forall i: nat :: i in o <==> i in Ids(o);
    assert plan.active !! plan.deferred && plan.active !! MissingIds(plan.missing) && plan.deferred !! MissingIds(plan.missing);
    assert Ids(o) <= plan.active && NoDup(o);
    hide BatchOf, PlanFor, MissingIds, LaterKeys, Classified, KahnOrder, GreatestSupplied, Ids, Ascending;
  }

  lemma MissingMembers(missing: seq<Missing>)
    ensures forall i: nat :: i in MissingEntries(missing) <==> i in MissingIds(missing)
  {
    forall i: nat
      ensures i in MissingEntries(missing) <==> i in MissingIds(missing)
    {
      if i in MissingEntries(missing) {
        var t :| 0 <= t < |missing| && MissingEntries(missing)[t] == i;
        assert missing[t] in missing;
      }
      if i in MissingIds(missing) {
        var m :| m in missing && m.entry == i;
        var t :| 0 <= t < |missing| && missing[t] == m;
        assert MissingEntries(missing)[t] == i;
      }
    }
  }

  lemma {:induction false} AlongIsNames(entries: seq<Plugin>, ids: seq<nat>)
    requires InBounds(entries, ids)
    ensures Along(entries, ids) == NamesAt(IdsOf(entries), ids)
  {
    if ids == [] {
    } else {
      AlongIsNames(entries, ids[..|ids| - 1]);
    }
  }

  /** The names of the entries, by where the plan sends them. */
  lemma EntriesNamed(env: Env, s: State, ps: seq<Plugin>, plan: Plan)
    requires PlanFor(env, s, ps, plan) && PlanInRange(plan)
    ensures var e := plan.entries;
            multiset(IdsOf(e)) ==
              multiset(FailedIds(MissingFailures(e, plan.missing))) + multiset(FailedIds(CycleFailures(e, LeftOver(plan)))) +
              multiset(Along(e, plan.order)) + multiset(Along(e, LaterOnes(plan)))
  {
    EntriesPartition(env, s, ps, plan);
    hide PlanFor, LeftOver, LaterOnes;
    var e := plan.entries;
    var m, l, d := MissingEntries(plan.missing), LeftOver(plan), LaterOnes(plan);
    FourWays(IdsOf(e), m, l, plan.order, d);
    assert FailedIds(MissingFailures(e, plan.missing)) == NamesAt(IdsOf(e), m);
    assert FailedIds(CycleFailures(e, l)) == NamesAt(IdsOf(e), l);
    AlongIsNames(e, plan.order);
    AlongIsNames(e, d);
  }

  lemma FiveParts(a: seq<Failure>, b: seq<Failure>, c: seq<Failure>, d: seq<Failure>, e: seq<Failure>)
    ensures multiset(FailedIds(a + b + c + d + e)) ==
            multiset(FailedIds(a)) + multiset(FailedIds(b)) + multiset(FailedIds(c)) + multiset(FailedIds(d)) + multiset(FailedIds(e))
  {
    assert FailedIds(a + b + c + d + e) == FailedIds(a) + FailedIds(b) + FailedIds(c) + FailedIds(d) + FailedIds(e);
  }

  /** RegisterMany reports every plugin it was given exactly once. */
  lemma EveryInputReportedOnce(env: Env, s: State, ps: seq<Plugin>, plan: Plan)
    requires Queue(s) && PlanFor(env, s, ps, plan) && PlanInRange(plan)
    ensures var rep := Carry(env, s, ps, plan).1;
            multiset(IdsOf(ps)) == multiset(rep.registered) + multiset(rep.pending) + multiset(FailedIds(rep.failed))
  {
    var e := plan.entries;
    FirstsAndRejects(ps);
    EntriesNamed(env, s, ps, plan);
    assert e == Firsts(ps);
    hide PlanFor, Queue, Firsts, Rejects, RegisterAll, DeferAll, LeftOver, LaterOnes;
    var run := RegisterAll(env, s, e, plan.order);
    RegisterAllReports(env, s, e, plan.order);
    DeferAllReports(env, run.state, e, LaterOnes(plan));
    FiveParts(Rejects(ps), MissingFailures(e, plan.missing), CycleFailures(e, LeftOver(plan)), run.failed,
              DeferAll(env, run.state, e, LaterOnes(plan)).failed);
  }

  /** Every entry reported as a dependency cycle waits for one. */
  lemma CycleReportsAreCycles(env: Env, s: State, ps: seq<Plugin>, plan: Plan, i: nat)
    requires PlanFor(env, s, ps, plan) && PlanInRange(plan) && i in LeftOver(plan)
    ensures var b := BatchOf(env, s.meta, plan.entries);
      exists walk, back :: RunsIntoCycle(b, Ids(plan.order), plan.active - Ids(plan.order), i, walk, back)
  {
    assert i !in plan.order;
    LeftoverRunsIntoCycle(BatchOf(env, s.meta, plan.entries), plan.active, plan.order, i);
  }

  // ---- dependencies with two names ----

  /** A batch judges whether a dependency is there as registration does, exactly when it names one thing. */
  lemma BatchAgreesIffOneName(env: Env, d: Dependency)
    requires d.kind == Init && !NamesNothing(d) && d.minVersion == ""
    ensures (forall book: Book :: External(env, book, KeyOf(d).value) <==> DepMet(env, book, d)) <==> WellShaped(d)
  {
    if !WellShaped(d) {
      var other := d.plugin + "x";
      var book: Book := map[other := Meta(other, "1", d.slot, [], [], 0)];
      assert book[other].slot == d.slot;
      assert !External(env, book, KeyOf(d).value) && DepMet(env, book, d);
    }
  }

  lemma OneEntry(p: Plugin)
    requires p.meta.id != ""
    ensures Firsts([p]) == [p] && Rejects([p]) == []
  {
    assert [p][..0] == [];
  }

  /** One entry that needs what nobody gives is neither active nor deferred. */
  lemma NobodyStays(b: Batch, active: set<nat>, deferred: set<nat>, missing: seq<Missing>, k: Key)
    requires |b.needs| == |b.gives| == 1 && b.needs[0] == [k] && !b.ext(k) && k !in b.gives[0]
    requires GreatestSupplied(b, active) && Classified(b, {}, active, deferred, missing)
    ensures active == {} && deferred == {} && 0 in MissingIds(missing)
  {
    hide FoundFirst;
    assert k in b.needs[0];
    assert 0 !in active && 0 !in deferred;
    assert 0 in active + deferred + MissingIds(missing);
  }

  /** So a plan can only report it as missing that. */
  lemma OnlyMissing(b: Batch, active: set<nat>, deferred: set<nat>, missing: seq<Missing>, order: seq<nat>, k: Key)
    requires |b.needs| == |b.gives| == 1 && b.needs[0] == [k] && !b.ext(k) && k !in b.gives[0]
    requires GreatestSupplied(b, active) && Classified(b, {}, active, deferred, missing) && KahnOrder(b, active, order)
    ensures order == [] && missing == [Missing(0, k)]
  {
    NobodyStays(b, active, deferred, missing, k);
    FirstTwoDiffer(missing);
    hide GreatestSupplied, Grounded, FoundFirst, GivenBy, ReallyDeferred, SameEntryOnce;
    assert missing != [];
    forall i | 0 <= i < |missing|
      ensures missing[i] == Missing(0, k)
    {
      assert ReallyMissing(b, {}, active + deferred, missing[i]);
    }
    assert |missing| == 1;
    NoIds(order);
  }

  lemma FirstTwoDiffer(missing: seq<Missing>)
    requires SameEntryOnce(missing)
    ensures |missing| > 1 ==> missing[0] != missing[1]
  {
  }

  lemma NoIds(order: seq<nat>)
    ensures Ids(order) == {} ==> order == []
  {
    if order != [] {
      assert order[0] in Ids(order);
    }
  }

  lemma OneDependency(env: Env, book: Book, m: Meta, d: Dependency)
    requires m == Meta("Y", "1", "", [], [d], 0) && !NamesNothing(d) && DepMet(env, book, d)
    ensures Acceptable(env, book, m)
  {
    hide DepMet;
    assert "Y"[0] == 'Y';
  }

  /** A plugin that Register would accept, reported by the batch as missing a dependency: it names an unregistered
      plugin and an occupied slot. */
  lemma BatchMissesTwoNames(env: Env, s: State, plan: Plan)
    requires env.slots == map["enc" := SlotSpec(false, [])] && s.waiting == map[]
    requires s.meta == map["X" := Meta("X", "1", "enc", [], [], 0)]
    requires PlanFor(env, s, [Plugin(1, Meta("Y", "1", "", [], [Dependency("P", "enc", Init, "")], 0), false)], plan)
    ensures Acceptable(env, s.meta, Meta("Y", "1", "", [], [Dependency("P", "enc", Init, "")], 0))
    ensures plan.order == [] && MissingFailures(plan.entries, plan.missing) == [Failure("Y", MissingDependency(PluginKey("P")))]
  {
    var d := Dependency("P", "enc", Init, "");
    var y := Plugin(1, Meta("Y", "1", "", [], [d], 0), false);
    assert s.meta["X"].slot == "enc";
    assert DepMet(env, s.meta, d);
    OneDependency(env, s.meta, y.meta, d);
    OneEntry(y);
    assert plan.entries == [y];
    var b := BatchOf(env, s.meta, [y]);
    assert NeedKeys([d]) == [PluginKey("P")];
    assert b.needs[0] == [PluginKey("P")] && b.gives[0] == [PluginKey("Y")];
    assert LaterKeys(s.waiting) == {};
    OnlyMissing(b, plan.active, plan.deferred, plan.missing, plan.order, PluginKey("P"));
  }
}
