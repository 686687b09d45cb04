// What RegisterMany reports as pending: a deferred plugin stays waiting exactly while it lacks a dependency, and
// RegisterLazy may have registered it at once.
module BatchPending {
  import opened Text
  import opened Manifest
  import opened Registry
  import opened Loading
  import opened Catalogue
  import opened LazyLoading
  import opened Replacement
  import opened Graph
  import opened Kahn
  import opened Batches
  import opened BatchOrder

  // ---- who is left waiting ----

  lemma LessIsUnmet(env: Env, a: Book, b: Book, m: Meta)
    requires Grows(a, b) && !DepsMet(env, b, m)
    ensures !DepsMet(env, a, m)
  {
    if DepsMet(env, a, m) {
      MoreAreMet(env, a, b, m);
    }
  }

  lemma LaterKeepsPlugin(a: State, b: State, id: string)
    requires Later(a, b) && id in a.waiting && id in b.waiting
    ensures b.waiting[id] == a.waiting[id]
  {
  }

  /** A waiting plugin that lacks a dependency to the end is not taken out of the queue. */
  lemma {:induction false} EnrollLeaves(env: Env, s: State, p: Plugin, id: string)
    requires Core(s) && id in s.waiting && id != p.meta.id && !DepsMet(env, Enroll(env, s, p).0.meta, s.waiting[id].meta)
    ensures id in Enroll(env, s, p).0.waiting
    decreases |s.pending| + 1, 0
  {
    if p.meta.id != "" {
      AdmitOutcome(env, s, p);
      AdmitFrame(env, s, p);
      AdmitKeeps(env, s, p);
      EnrollUnfolds(env, s, p);
      var (s1, err) := Admit(env, s, p);
      assert id in s1.waiting;
      hide Tables, Queue, Apart, Later, Admit, Retry, Enroll, StaticOk, DepsMet, SlotOk, Acceptable;
      LaterKeepsPlugin(s, s1, id);
      if err.None? {
        RetryLeaves(env, s1, id);
      }
    }
  }

  lemma {:induction false} RetryLeaves(env: Env, s: State, id: string)
    requires Core(s) && id in s.waiting && !DepsMet(env, Retry(env, s).meta, s.waiting[id].meta)
    ensures id in Retry(env, s).waiting
    decreases |s.pending|, 2
  {
    ScannedKeepsQueue(env, s);
    ScannedIsCore(env, s);
    RetryKeeps(env, s);
    var s1, ready := Scanned(env, s), Loadable(env, s);
    assert Grows(s.meta, Retry(env, s).meta);
    hide Tables, Queue, Apart, Later, Quiet, DepsMet, Scanned, Loadable, Grows, Sound;
    LessIsUnmet(env, s.meta, Retry(env, s).meta, s.waiting[id].meta);
    assert id in s1.waiting && s1.waiting[id] == s.waiting[id];
    assert forall p :: p in ready ==> p.meta.id != id;
    LoadAllLeaves(env, s1, ready, id);
  }

  lemma {:induction false} LoadAllLeaves(env: Env, s: State, ready: seq<Plugin>, id: string)
    requires Core(s) && Quiet(env, s) && id in s.waiting && !DepsMet(env, LoadAll(env, s, ready).meta, s.waiting[id].meta)
    requires forall p :: p in ready ==> p.meta.id != id
    ensures id in LoadAll(env, s, ready).waiting
    decreases |s.pending| + |ready|, 1
  {
    hide Tables, Queue, Apart, Quiet, Grows, Later, Enroll, DepsMet, Sound;
    if ready != [] {
      assert ready[0] in ready;
      EnrollKeeps(env, s, ready[0]);
      var s1 := Enroll(env, s, ready[0]).0;
      LoadAllKeeps(env, s1, ready[1..]);
      LaterGrows(s1, LoadAll(env, s1, ready[1..]));
      LessIsUnmet(env, s1.meta, LoadAll(env, s1, ready[1..]).meta, s.waiting[id].meta);
      EnrollLeaves(env, s, ready[0], id);
      LaterKeepsPlugin(s, s1, id);
      LoadAllLeaves(env, s1, ready[1..], id);
    }
  }

  // ---- step 8 ----

  /** p waits, or has all its dependencies. */
  ghost predicate WaitsOrMet(env: Env, s: State, p: Plugin) {
    (p.meta.id in s.waiting && s.waiting[p.meta.id] == p) || DepsMet(env, s.meta, p.meta)
  }

  lemma EnrollLazyStillWaits(env: Env, s: State, q: Plugin, p: Plugin)
    requires Valid(env, s) && WaitsOrMet(env, s, p) && p.meta.id != q.meta.id
    ensures WaitsOrMet(env, EnrollLazy(env, s, q).0, p)
  {
    EnrollLazyKeeps(env, s, q);
    var r := EnrollLazy(env, s, q).0;
    hide Tables, Queue, Apart, Quiet, Sound, DepsMet, Grows, Enroll, EnrollLazy;
    if DepsMet(env, s.meta, p.meta) {
      MoreAreMet(env, s.meta, r.meta, p.meta);
    } else {
      QueueStillWaits(env, s, q, p);
    }
  }

  lemma QueueStillWaits(env: Env, s: State, q: Plugin, p: Plugin)
    requires Core(s) && p.meta.id in s.waiting && s.waiting[p.meta.id] == p && p.meta.id != q.meta.id
    ensures WaitsOrMet(env, EnrollLazy(env, s, q).0, p)
  {
    EnrollStillWaits(env, s, q, p);
    if q.meta.id != "" {
      DeferredStillWaits(s, q, p);
    }
    hide Tables, Queue, Apart, DepsMet, Enroll, Deferred;
  }

  lemma DeferredStillWaits(s: State, q: Plugin, p: Plugin)
    requires Queue(s) && q.meta.id != "" && p.meta.id in s.waiting && s.waiting[p.meta.id] == p && p.meta.id != q.meta.id
    ensures p.meta.id in Deferred(s, q).waiting && Deferred(s, q).waiting[p.meta.id] == p
  {
    hide Queue;
  }

  lemma EnrollStillWaits(env: Env, s: State, q: Plugin, p: Plugin)
    requires Core(s) && p.meta.id in s.waiting && s.waiting[p.meta.id] == p && p.meta.id != q.meta.id
    ensures WaitsOrMet(env, Enroll(env, s, q).0, p)
  {
    var r := Enroll(env, s, q).0;
    EnrollKeeps(env, s, q);
    hide Tables, Queue, Apart, Quiet, Sound, DepsMet, Enroll, Later;
    if !DepsMet(env, r.meta, p.meta) {
      EnrollLeaves(env, s, q, p.meta.id);
      LaterKeepsPlugin(s, r, p.meta.id);
    }
  }

  lemma EnrollLazyWaits(env: Env, s: State, p: Plugin)
    requires Valid(env, s) && EnrollLazy(env, s, p).2.None?
    ensures WaitsOrMet(env, EnrollLazy(env, s, p).0, p)
  {
    EnrollLazyStatus(env, s, p);
    EnrollLazyKeeps(env, s, p);
    hide Tables, Queue, Apart, Quiet, Sound, DepsMet, Grows, EnrollLazy;
    if DepsMet(env, s.meta, p.meta) {
      MoreAreMet(env, s.meta, EnrollLazy(env, s, p).0.meta, p.meta);
    }
  }

  lemma {:induction false} DeferredWait(env: Env, s: State, entries: seq<Plugin>, ids: seq<nat>, i: nat)
    requires Valid(env, s) && InBounds(entries, ids) && NoDup(IdsOf(entries)) && NoDup(ids) && i in ids
    requires entries[i].meta.id in DeferAll(env, s, entries, ids).done
    ensures WaitsOrMet(env, DeferAll(env, s, entries, ids).state, entries[i])
  {
    var rest, j := ids[..|ids| - 1], ids[|ids| - 1];
    var before := DeferAll(env, s, entries, rest);
    LastApart(ids);
    assert KeptGoing(env, s, s);
    DeferAllKeeps(env, s, s, entries, rest);
    DoneAreListed(env, s, entries, rest);
    hide Valid, EnrollLazy, DepsMet, WaitsOrMet, NoDup;
    if i == j {
      DistinctNames(entries, rest, j);
      EnrollLazyWaits(env, before.state, entries[j]);
    } else {
      NamesApart(entries, i, j);
      DeferredWait(env, s, entries, rest, i);
      EnrollLazyStillWaits(env, before.state, entries[j], entries[i]);
    }
  }

  lemma LastApart(ids: seq<nat>)
    requires NoDup(ids) && ids != []
    ensures var rest, j := ids[..|ids| - 1], ids[|ids| - 1];
      NoDup(rest) && j !in rest && forall i :: i in ids <==> i == j || i in rest
  {
    assert ids == ids[..|ids| - 1] + [ids[|ids| - 1]];
  }

  lemma NamesApart(entries: seq<Plugin>, i: nat, j: nat)
    requires NoDup(IdsOf(entries)) && i < |entries| && j < |entries| && i != j
    ensures entries[i].meta.id != entries[j].meta.id
  {
    assert IdsOf(entries)[i] != IdsOf(entries)[j];
  }

  lemma {:induction false} DoneAreListed(env: Env, s: State, entries: seq<Plugin>, ids: seq<nat>)
    requires Queue(s) && InBounds(entries, ids)
    ensures forall name :: name in DeferAll(env, s, entries, ids).done ==> exists i :: i in ids && i < |entries| && entries[i].meta.id == name
  {
    hide Queue, EnrollLazy;
    if ids != [] {
      var rest, j := ids[..|ids| - 1], ids[|ids| - 1];
      assert ids == rest + [j];
      DoneAreListed(env, s, entries, rest);
      forall name | name in DeferAll(env, s, entries, ids).done
        ensures exists i :: i in ids && i < |entries| && entries[i].meta.id == name
      {
        if name in DeferAll(env, s, entries, rest).done {
          var i :| i in rest && i < |entries| && entries[i].meta.id == name;
          assert i in ids;
        } else {
          assert j in ids && entries[j].meta.id == name;
        }
      }
    }
  }

  /** The name of an entry not listed is not the name of one listed. */
  lemma DistinctNames(entries: seq<Plugin>, ids: seq<nat>, j: nat)
    requires NoDup(IdsOf(entries)) && InBounds(entries, ids) && j < |entries| && j !in ids
    ensures !exists i :: i in ids && i < |entries| && entries[i].meta.id == entries[j].meta.id
  {
    forall i | i in ids && i < |entries|
      ensures entries[i].meta.id != entries[j].meta.id
    {
      assert IdsOf(entries)[i] != IdsOf(entries)[j];
    }
  }

  /** A deferred entry reported as pending is waiting in the end if and only if one of its init dependencies is unmet
      there. */
  lemma PendingWaitsIffUnmet(env: Env, s: State, ps: seq<Plugin>, plan: Plan, i: nat)
    requires Valid(env, s) && PlanFor(env, s, ps, plan) && PlanInRange(plan) && i in LaterOnes(plan)
    requires plan.entries[i].meta.id in Carry(env, s, ps, plan).1.pending
    ensures var r, p := Carry(env, s, ps, plan).0, plan.entries[i];
      (p.meta.id in r.waiting && r.waiting[p.meta.id] == p) <==> !DepsMet(env, r.meta, p.meta)
  {
    FirstsAreDistinct(ps);
    assert NoDup(IdsOf(plan.entries));
    CarryKeeps(env, s, ps, plan);
    assert KeptGoing(env, s, s);
    RegisterAllKeeps(env, s, plan.entries, plan.order);
    var run := RegisterAll(env, s, plan.entries, plan.order);
    hide PlanFor, Tables, Apart, RegisterAll, DeferAll, DepsMet, Sound, Grows, Rejects, LeftOver;
    DeferredWait(env, run.state, plan.entries, LaterOnes(plan), i);
  }

  /** Every name reported as pending is that of a deferred entry. */
  lemma PendingAreDeferred(env: Env, s: State, ps: seq<Plugin>, plan: Plan, name: string)
    requires Queue(s) && PlanInRange(plan) && name in Carry(env, s, ps, plan).1.pending
    ensures exists i :: i in LaterOnes(plan) && plan.entries[i].meta.id == name
  {
    hide Queue, RegisterAll, DeferAll, LaterOnes;
    DoneAreListed(env, RegisterAll(env, s, plan.entries, plan.order).state, plan.entries, LaterOnes(plan));
  }

  // ---- what a caller can tell beforehand ----

  /** The registry and the entries listed, in that order of precedence. */
  function Planned(book: Book, entries: seq<Plugin>, order: seq<nat>): Book
    requires InBounds(entries, order)
  {
    if order == [] then book
    else
      var before, m := Planned(book, entries, order[..|order| - 1]), entries[order[|order| - 1]].meta;
      if m.id in before then before else before[m.id := m]
  }

  lemma {:induction false} PlannedHolds(book: Book, entries: seq<Plugin>, order: seq<nat>)
    requires InBounds(entries, order)
    ensures Grows(book, Planned(book, entries, order))
    ensures forall id :: id in Planned(book, entries, order) ==>
      (id in book && Planned(book, entries, order)[id] == book[id]) ||
      exists j :: j in order && j < |entries| && entries[j].meta == Planned(book, entries, order)[id] && entries[j].meta.id == id
  {
    if order != [] {
      var rest, last := order[..|order| - 1], order[|order| - 1];
      assert order == rest + [last];
      PlannedHolds(book, entries, rest);
      var t := Planned(book, entries, order);
      forall id | id in t && !(id in book && t[id] == book[id])
        ensures exists j :: j in order && j < |entries| && entries[j].meta == t[id] && entries[j].meta.id == id
      {
        if id in Planned(book, entries, rest) {
          var j :| j in rest && j < |entries| && entries[j].meta == t[id] && entries[j].meta.id == id;
          assert j in order;
        } else {
          assert last in order;
        }
      }
    }
  }

  /** No waiting plugin becomes loadable from the registry plus the entries listed. */
  ghost predicate NobodyLoadable(env: Env, s: State, entries: seq<Plugin>, order: seq<nat>)
    requires InBounds(entries, order)
  {
    forall id :: id in s.waiting ==> !DepsMet(env, Planned(s.meta, entries, order), s.waiting[id].meta)
  }

  lemma NobodyLoadableSooner(env: Env, s: State, entries: seq<Plugin>, order: seq<nat>)
    requires InBounds(entries, order) && order != [] && NobodyLoadable(env, s, entries, order)
    ensures Grows(Planned(s.meta, entries, order[..|order| - 1]), Planned(s.meta, entries, order))
    ensures NobodyLoadable(env, s, entries, order[..|order| - 1])
  {
    hide DepsMet;
    forall id | id in s.waiting
      ensures !DepsMet(env, Planned(s.meta, entries, order[..|order| - 1]), s.waiting[id].meta)
    {
      LessIsUnmet(env, Planned(s.meta, entries, order[..|order| - 1]), Planned(s.meta, entries, order), s.waiting[id].meta);
    }
  }

  /** What is registered lies in t, and whoever waits now waited before. */
  ghost predicate Inside(s: State, r: State, t: Book) {
    && Core(r) && Grows(r.meta, t)
    && forall id :: id in r.waiting ==> id in s.waiting && r.waiting[id] == s.waiting[id]
  }

  lemma NobodyAbsorbed(env: Env, s: State, r: State, t: Book)
    requires Inside(s, r, t) && forall id :: id in s.waiting ==> !DepsMet(env, t, s.waiting[id].meta)
    ensures Absorbs(env, t, r.waiting)
  {
    hide DepsMet, Core;
  }

  lemma InsideLater(s: State, r: State, r1: State, t: Book)
    requires Inside(s, r, t) && Core(r1) && Later(r, r1) && Grows(r1.meta, t)
    ensures Inside(s, r1, t)
  {
    hide Core, Grows;
  }

  lemma EnrollInside(env: Env, s: State, r: State, p: Plugin, t: Book)
    requires Inside(s, r, t) && forall id :: id in s.waiting ==> !DepsMet(env, t, s.waiting[id].meta)
    requires p.meta.id in r.meta || (p.meta.id in t && t[p.meta.id] == p.meta)
    ensures Inside(s, Enroll(env, r, p).0, t)
  {
    EnrollKeeps(env, r, p);
    NobodyAbsorbed(env, s, r, t);
    var r1 := Enroll(env, r, p).0;
    assert r1.meta == r.meta || Enroll(env, r, p).1.None?;
    hide Tables, Queue, Apart, Quiet, Sound, DepsMet, Absorbs, Grows, Enroll, Later;
    if p.meta.id in t && t[p.meta.id] == p.meta {
      EnrollWithin(env, r, p, t);
    }
    InsideLater(s, r, r1, t);
  }

  /** Without loadable waiters step 7 registers planned entries only. */
  lemma {:induction false} RegisterAllInside(env: Env, s: State, entries: seq<Plugin>, order: seq<nat>)
    requires Core(s) && InBounds(entries, order) && NoDup(IdsOf(entries)) && NoDup(order) && NobodyLoadable(env, s, entries, order)
    ensures Inside(s, RegisterAll(env, s, entries, order).state, Planned(s.meta, entries, order))
  {
    if order == [] {
    } else {
      var rest, p := order[..|order| - 1], entries[order[|order| - 1]];
      NobodyLoadableSooner(env, s, entries, order);
      RegisterAllInside(env, s, entries, rest);
      var r, t := RegisterAll(env, s, entries, rest).state, Planned(s.meta, entries, order);
      PlannedIsNew(s.meta, entries, order);
      RegisteredStay(env, s, entries, rest);
      assert forall id :: id in s.waiting ==> !DepsMet(env, t, s.waiting[id].meta);
      hide Core, DepsMet, Enroll, Planned, NobodyLoadable, NoDup;
      InsideMore(s, r, Planned(s.meta, entries, rest), t);
      EnrollInside(env, s, r, p, t);
    }
  }

  lemma InsideMore(s: State, r: State, t: Book, u: Book)
    requires Inside(s, r, t) && Grows(t, u)
    ensures Inside(s, r, u)
  {
    hide Core;
  }

  lemma PlannedIsNew(book: Book, entries: seq<Plugin>, order: seq<nat>)
    requires InBounds(entries, order) && NoDup(IdsOf(entries)) && NoDup(order) && order != []
    ensures var m, t := entries[order[|order| - 1]].meta, Planned(book, entries, order);
      m.id in book || (m.id in t && t[m.id] == m)
  {
    var rest, last := order[..|order| - 1], order[|order| - 1];
    assert last !in rest;
    PlannedHolds(book, entries, rest);
    DistinctNames(entries, rest, last);
  }

  lemma {:induction false} RegisteredStay(env: Env, s: State, entries: seq<Plugin>, order: seq<nat>)
    requires Core(s) && InBounds(entries, order)
    ensures Core(RegisterAll(env, s, entries, order).state)
    ensures s.meta.Keys <= RegisterAll(env, s, entries, order).state.meta.Keys
  {
    hide Tables, Queue, Apart, Later, Quiet, Sound, Enroll;
    if order == [] {
    } else {
      var rest, p := order[..|order| - 1], entries[order[|order| - 1]];
      RegisteredStay(env, s, entries, rest);
      var r := RegisterAll(env, s, entries, rest).state;
      EnrollKeeps(env, r, p);
      LaterGrows(r, Enroll(env, r, p).0);
    }
  }

  /** What neither the registry nor an active entry gives is unmet by registry and emitted entries together. */
  lemma UngivenIsUnmet(env: Env, book: Book, entries: seq<Plugin>, active: set<nat>, order: seq<nat>, d: Dependency, k: Key)
    requires InBounds(entries, order) && Ids(order) <= active && OneName(d) && KeyOf(d) == Some(k)
    requires !External(env, book, k) && !GivenBy(BatchOf(env, book, entries), active, k)
    ensures !DepMet(env, Planned(book, entries, order), d)
  {
    var t, b := Planned(book, entries, order), BatchOf(env, book, entries);
    PlannedHolds(book, entries, order);
    forall j | j in order && j < |entries|
      ensures k !in ProvideKeys(entries[j].meta)
    {
      assert j in Ids(order) && b.gives[j] == ProvideKeys(entries[j].meta);
    }
    hide GivenBy, BatchOf, Planned;
    if k.SlotKey? {
      forall id | id in t
        ensures t[id].slot != d.slot
      {
        assert id in book && t[id] == book[id] ==> book[id].slot != d.slot;
      }
    } else {
      assert d.plugin !in t;
    }
  }

  lemma DeferredLacks(env: Env, s: State, ps: seq<Plugin>, plan: Plan, i: nat)
    requires PlanFor(env, s, ps, plan) && PlanInRange(plan) && i in LaterOnes(plan) && ShapedMeta(plan.entries[i].meta)
    ensures !DepsMet(env, Planned(s.meta, plan.entries, plan.order), plan.entries[i].meta)
  {
    var b := BatchOf(env, s.meta, plan.entries);
    assert ReallyDeferred(b, LaterKeys(s.waiting), plan.active, plan.deferred, i);
    var k :| Unprovided(b, plan.active, i, k);
    assert k in NeedKeys(plan.entries[i].meta.deps);
    var d :| d in plan.entries[i].meta.deps && KeyOf(d) == Some(k);
    assert OneName(d) && Ids(plan.order) <= plan.active;
    hide PlanFor, DepMet, GivenBy, NeedKeys, KeyOf, Planned, OneName;
    UngivenIsUnmet(env, s.meta, plan.entries, plan.active, plan.order, d, k);
  }

  /** Entries that lack a dependency are only queued: step 8 registers nobody. */
  lemma {:induction false} DeferAllStands(env: Env, s: State, entries: seq<Plugin>, ids: seq<nat>)
    requires Queue(s) && InBounds(entries, ids) && forall i :: i in ids ==> !DepsMet(env, s.meta, entries[i].meta)
    ensures DeferAll(env, s, entries, ids).state.meta == s.meta
  {
    if ids != [] {
      var rest, j := ids[..|ids| - 1], ids[|ids| - 1];
      assert ids == rest + [j];
      DeferAllStands(env, s, entries, rest);
      assert !DepsMet(env, s.meta, entries[j].meta);
      hide Queue, DepsMet, Enroll;
    }
  }

  /** Where no waiting plugin becomes loadable from the registry plus the emitted entries, nor a deferred entry whose
      dependencies do not name one thing each, the report is right: everybody it lists as pending is waiting. */
  lemma PendingIsWaiting(env: Env, s: State, ps: seq<Plugin>, plan: Plan, i: nat)
    requires Valid(env, s) && PlanFor(env, s, ps, plan) && PlanInRange(plan) && NobodyLoadable(env, s, plan.entries, plan.order)
    requires forall j :: j in LaterOnes(plan) ==>
      ShapedMeta(plan.entries[j].meta) || !DepsMet(env, Planned(s.meta, plan.entries, plan.order), plan.entries[j].meta)
    requires i in LaterOnes(plan) && plan.entries[i].meta.id in Carry(env, s, ps, plan).1.pending
    ensures var r, p := Carry(env, s, ps, plan).0, plan.entries[i];
      p.meta.id in r.waiting && r.waiting[p.meta.id] == p
  {
    FirstsAreDistinct(ps);
    assert NoDup(IdsOf(plan.entries)) && NoDup(plan.order);
    var run := RegisterAll(env, s, plan.entries, plan.order);
    RegisterAllInside(env, s, plan.entries, plan.order);
    forall j | j in LaterOnes(plan)
      ensures !DepsMet(env, run.state.meta, plan.entries[j].meta)
    {
      if ShapedMeta(plan.entries[j].meta) {
        DeferredLacks(env, s, ps, plan, j);
      }
      LessIsUnmet(env, run.state.meta, Planned(s.meta, plan.entries, plan.order), plan.entries[j].meta);
    }
    DeferAllStands(env, run.state, plan.entries, LaterOnes(plan));
    PendingWaitsIffUnmet(env, s, ps, plan, i);
    hide PlanFor, Tables, Apart, Quiet, Queue, RegisterAll, DeferAll, DepsMet, LaterOnes, LeftOver, Rejects, NobodyLoadable, Inside;
  }

  // ---- the report at fault ----

  function Needing(handle: nat, id: string, need: string): Plugin {
    Plugin(handle, Meta(id, "1", "", [], if need == "" then [] else [Dependency(need, "", Init, "")], 0), false)
  }

  /** W waits for X. */
  function WaitingForX(): State {
    State(map[], map[], map[], map[], 0, ["W"], map["W" := Needing(1, "W", "X")])
  }

  lemma NeedingIsWelcome(env: Env, s: State, p: Plugin, need: string)
    requires p == Needing(p.handle, p.meta.id, need) && (need == "" || need in s.meta)
    requires !BadChars(p.meta.id) && p.meta.id !in s.meta && p.meta.id != ""
    ensures Welcome(env, s, p) && Acceptable(env, s.meta, p.meta)
  {
  }

  lemma WaitingForXIsFine(env: Env)
    ensures var s := WaitingForX(); Valid(env, s) && Exact(s) && QueueAdmissible(env, s)
  {
    var s := WaitingForX();
    assert Needing(1, "W", "X").meta.deps[0] in Needing(1, "W", "X").meta.deps;
    assert !DepsMet(env, s.meta, s.waiting["W"].meta);
    assert Queue(s) && Tables(s) && Apart(s);
  }

  /** Registering X loads W. */
  lemma XLoadsW(env: Env)
    ensures var (r, err) := Enroll(env, WaitingForX(), Needing(2, "X", ""));
      err.None? && "W" in r.meta && "Y" !in r.meta
  {
    var s, x, w := WaitingForX(), Needing(2, "X", ""), Needing(1, "W", "X");
    WaitingForXIsFine(env);
    NeedingIsWelcome(env, s, x, "");
    LazyLoadingIsLeast(env, s, x);
    var r := Enroll(env, s, x).0;
    assert "X" in s.meta[x.meta.id := x.meta] && "X" in r.meta;
    assert (s.waiting - {"X"})["W"] == w;
    assert DepsMet(env, r.meta, w.meta);
    assert Absorbs(env, r.meta, s.waiting - {"X"});
    hide Tables, Queue, Apart, Quiet, Exact, Enroll, DepsMet, Admissible, LeastSaturated;
  }

  lemma XKeepsQueue(env: Env)
    ensures var r := Enroll(env, WaitingForX(), Needing(2, "X", "")).0; Core(r) && Exact(r) && QueueAdmissible(env, r)
  {
    var s, x := WaitingForX(), Needing(2, "X", "");
    WaitingForXIsFine(env);
    EnrollKeeps(env, s, x);
    AdmissibleIsNamedOnce(env, s);
    assert NamedOnce(x);
    hide Tables, Queue, Apart, Quiet, Exact, Enroll, Sound, Admissible, NamedOnce, Needing, WaitingForX;
    EnrollCatalogue(env, s, x);
    QueueStillAdmissible(env, s, Enroll(env, s, x).0);
  }

  /** The batch: X, and Y that needs W. */
  const BATCH: seq<Plugin> := [Needing(2, "X", ""), Needing(3, "Y", "W")]

  ghost const PLAN: Plan := Plan(BATCH, {0}, {1}, [], [0])

  lemma OfferedAndNeeded(b: Batch, w: Key)
    requires |b.needs| == |b.gives| == 2 && b.needs[0] == [] && b.needs[1] == [w] && !b.ext(w) && w !in b.gives[0] && w !in b.gives[1]
    ensures GreatestSupplied(b, {0}) && Classified(b, {w}, {0}, {1}, []) && KahnOrder(b, {0}, [0])
  {
    assert w in b.needs[1];
    assert Unprovided(b, {0}, 1, w) && IsFirst(b, 1, w, 0);
    assert [0][..0] == [];
  }

  lemma MoreLater(b: Batch, a: set<Key>, c: set<Key>, ids: set<nat>, deferred: set<nat>)
    requires Classified(b, a, ids, deferred, []) && a <= c
    ensures Classified(b, c, ids, deferred, [])
  {
    hide Unprovided, FoundFirst;
    forall i | i in deferred
      ensures ReallyDeferred(b, c, ids, deferred, i)
    {
      assert ReallyDeferred(b, a, ids, deferred, i);
    }
  }

  lemma PlanIsLawful(env: Env)
    ensures PlanFor(env, WaitingForX(), BATCH, PLAN) && PlanInRange(PLAN) && LaterOnes(PLAN) == [1]
  {
    var s, w := WaitingForX(), PluginKey("W");
    var b := BatchOf(env, s.meta, BATCH);
    assert Firsts(BATCH) == BATCH by {
      assert BATCH[..1] == [BATCH[0]];
      OneEntry(BATCH[0]);
    }
    assert b.needs[1] == NeedKeys(BATCH[1].meta.deps) == [w];
    assert b.gives[0] == ProvideKeys(BATCH[0].meta) && b.gives[1] == ProvideKeys(BATCH[1].meta);
    OfferedAndNeeded(b, w);
    assert w in LaterKeys(s.waiting);
    hide Classified, GreatestSupplied, KahnOrder;
    MoreLater(b, {w}, LaterKeys(s.waiting), {0}, {1});
  }

  lemma RegisterXFirst(env: Env, s: State)
    requires Queue(s)
    ensures RegisterAll(env, s, BATCH, [0]).state == Enroll(env, s, BATCH[0]).0
  {
    assert [0][..0] == [];
    hide Queue, Enroll;
  }

  /** Y is deferred, registering X loads W, so that Y is registered at once; the report still lists it as pending. */
  lemma PendingButRegistered(env: Env)
    ensures PlanFor(env, WaitingForX(), BATCH, PLAN) && PlanInRange(PLAN)
    ensures var (r, rep) := Carry(env, WaitingForX(), BATCH, PLAN);
      rep.pending == ["Y"] && "Y" in r.meta && "Y" !in r.waiting
  {
    var s := WaitingForX();
    WaitingForXIsFine(env);
    PlanIsLawful(env);
    XLoadsW(env);
    XKeepsQueue(env);
    RegisterXFirst(env, s);
    CarryKeeps(env, s, BATCH, PLAN);
    var r := Enroll(env, s, BATCH[0]).0;
    YIsRegistered(env, r);
    hide PlanFor, Tables, Queue, Quiet, Exact, QueueAdmissible, Enroll, RegisterAll, DeferAll, Sound, LaterOnes, Rejects, LeftOver;
  }

  lemma YIsRegistered(env: Env, r: State)
    requires Core(r) && Exact(r) && QueueAdmissible(env, r) && "W" in r.meta && "Y" !in r.meta
    ensures DeferAll(env, r, BATCH, [1]).done == ["Y"] && "Y" in DeferAll(env, r, BATCH, [1]).state.meta
  {
    var y := BATCH[1];
    NeedingIsWelcome(env, r, y, "W");
    WelcomeIsAdmitted(env, r, y);
    EnrollKeeps(env, r, y);
    assert Later(Admit(env, r, y).0, Enroll(env, r, y).0) by {
      RetryKeeps(env, Admit(env, r, y).0);
    }
    hide Tables, Queue, Apart, Quiet, Exact, QueueAdmissible, Enroll, Admit, Retry, Sound, Welcome;
    assert "Y" in Admit(env, r, y).0.meta;
    DeferOneWelcome(env, r, BATCH);
  }

  lemma DeferOneWelcome(env: Env, r: State, ps: seq<Plugin>)
    requires Core(r) && |ps| == 2 && Welcome(env, r, ps[1]) && Enroll(env, r, ps[1]).1.None?
    ensures DeferAll(env, r, ps, [1]) == Run(Enroll(env, r, ps[1]).0, [ps[1].meta.id], [])
  {
    assert [1][..0] == [];
    assert ps[1].meta.id !in r.plugins;
    hide Tables, Queue, Enroll, DepsMet;
  }
}
