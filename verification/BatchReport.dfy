// What the report of RegisterMany says is true of the registry it leaves.
module BatchReport {
  import opened Text
  import opened Manifest
  import opened Registry
  import opened Loading
  import opened Replacement
  import opened Graph
  import opened Batches
  import opened Numbering

  // ---- what is registered ----

  /** Entry i of the order has this id and is registered. */
  ghost predicate Serves(s: State, entries: seq<Plugin>, order: seq<nat>, id: string, i: nat) {
    i in order && i < |entries| && entries[i].meta.id == id && id in s.plugins && s.plugins[id] == entries[i]
  }

  ghost predicate Served(s: State, entries: seq<Plugin>, order: seq<nat>, id: string) {
    exists i: nat :: Serves(s, entries, order, id, i)
  }

  /** Every id of done is registered with the plugin of an entry in the order. */
  ghost predicate TrueReport(s: State, entries: seq<Plugin>, order: seq<nat>, done: seq<string>) {
    forall t :: 0 <= t < |done| ==> Served(s, entries, order, done[t])
  }

  lemma TrueLater(a: State, b: State, entries: seq<Plugin>, order: seq<nat>, done: seq<string>)
    requires TrueReport(a, entries, order, done) && Later(a, b)
    ensures TrueReport(b, entries, order, done)
  {
    forall t | 0 <= t < |done|
      ensures Served(b, entries, order, done[t])
    {
      assert Served(a, entries, order, done[t]);
      var i: nat :| Serves(a, entries, order, done[t], i);
      assert Serves(b, entries, order, done[t], i);
    }
  }

  lemma TrueMore(s: State, entries: seq<Plugin>, rest: seq<nat>, i: nat, done: seq<string>)
    requires TrueReport(s, entries, rest, done) && i < |entries|
    ensures TrueReport(s, entries, rest + [i], done)
    ensures entries[i].meta.id in s.plugins && s.plugins[entries[i].meta.id] == entries[i] ==>
            TrueReport(s, entries, rest + [i], done + [entries[i].meta.id])
  {
    forall t | 0 <= t < |done|
      ensures Served(s, entries, rest + [i], done[t])
    {
      assert Served(s, entries, rest, done[t]);
      var j: nat :| Serves(s, entries, rest, done[t], j);
      assert Serves(s, entries, rest + [i], done[t], j);
    }
    var id := entries[i].meta.id;
    if id in s.plugins && s.plugins[id] == entries[i] {
      assert Serves(s, entries, rest + [i], id, i);
    }
  }

  lemma {:induction false} RegisterAllIsTrue(env: Env, s: State, entries: seq<Plugin>, order: seq<nat>)
    requires Queue(s) && InBounds(entries, order) && Valid(env, s)
    ensures var run := RegisterAll(env, s, entries, order);
      Valid(env, run.state) && Later(s, run.state) && TrueReport(run.state, entries, order, run.done)
  {
    if order == [] {
      LaterRefl(s);
      hide Tables, Queue, Apart, Quiet, Later;
    } else {
      var rest, i := order[..|order| - 1], order[|order| - 1];
      assert order == rest + [i];
      RegisterAllIsTrue(env, s, entries, rest);
      var before := RegisterAll(env, s, entries, rest);
      EnrollKeeps(env, before.state, entries[i]);
      var (s1, err) := Enroll(env, before.state, entries[i]);
      hide Tables, Queue, Apart, Quiet, Later, Enroll, TrueReport, Sound;
      LaterTrans(s, before.state, s1);
      TrueLater(before.state, s1, entries, rest, before.done);
      TrueMore(s1, entries, rest, i, before.done);
    }
  }

  lemma {:induction false} DeferAllIsLater(env: Env, s: State, entries: seq<Plugin>, ids: seq<nat>, id: string)
    requires Queue(s) && InBounds(entries, ids) && Valid(env, s) && id in s.plugins
    ensures var r := DeferAll(env, s, entries, ids).state;
      Valid(env, r) && id in r.plugins && r.plugins[id] == s.plugins[id]
  {
    hide Tables, Queue, Apart, Quiet, EnrollLazy, Sound, NumbersKept;
    if ids != [] {
      var rest, i := ids[..|ids| - 1], ids[|ids| - 1];
      DeferAllIsLater(env, s, entries, rest, id);
      EnrollLazyKeeps(env, DeferAll(env, s, entries, rest).state, entries[i]);
      LazyKeeps(env, DeferAll(env, s, entries, rest).state, entries[i]);
    }
  }

  /** Every id a batch reports as registered is registered in the end, with the plugin of an entry in the order. */
  lemma RegisteredIsRegistered(env: Env, s: State, ps: seq<Plugin>, plan: Plan, t: nat)
    requires Valid(env, s) && PlanInRange(plan) && t < |Carry(env, s, ps, plan).1.registered|
    ensures var (r, rep) := Carry(env, s, ps, plan);
      exists i: nat :: Serves(r, plan.entries, plan.order, rep.registered[t], i)
  {
    var run := RegisterAll(env, s, plan.entries, plan.order);
    RegisterAllIsTrue(env, s, plan.entries, plan.order);
    var id := run.done[t];
    assert Served(run.state, plan.entries, plan.order, id);
    var i: nat :| Serves(run.state, plan.entries, plan.order, id, i);
    hide Tables, Queue, Apart, Quiet, Later, RegisterAll, DeferAll, TrueReport, LaterOnes, LeftOver;
    DeferAllIsLater(env, run.state, plan.entries, LaterOnes(plan), id);
    assert Serves(Carry(env, s, ps, plan).0, plan.entries, plan.order, id, i);
  }

  // ---- what failed ----

  /** Register was called for the t-th entry of the order, and the report tells what it answered. */
  lemma {:induction false} RegisterAnswers(env: Env, s: State, entries: seq<Plugin>, order: seq<nat>, t: nat)
    requires Queue(s) && InBounds(entries, order) && t < |order|
    ensures var p, run := entries[order[t]], RegisterAll(env, s, entries, order);
      var err := Enroll(env, RegisterAll(env, s, entries, order[..t]).state, p).1;
      if err.None? then p.meta.id in run.done else Failure(p.meta.id, err.value) in run.failed
  {
    var rest := order[..|order| - 1];
    hide Queue, Enroll;
    if t < |rest| {
      assert rest[..t] == order[..t] && rest[t] == order[t];
      RegisterAnswers(env, s, entries, rest, t);
    } else {
      assert rest == order[..t];
    }
  }

  /** RegisterLazy was called for the t-th deferred entry, and the report tells what it answered. */
  lemma {:induction false} LazyAnswers(env: Env, s: State, entries: seq<Plugin>, ids: seq<nat>, t: nat)
    requires Queue(s) && InBounds(entries, ids) && t < |ids|
    ensures var p, run := entries[ids[t]], DeferAll(env, s, entries, ids);
      var err := EnrollLazy(env, DeferAll(env, s, entries, ids[..t]).state, p).2;
      if err.None? then p.meta.id in run.done else Failure(p.meta.id, err.value) in run.failed
  {
    var rest := ids[..|ids| - 1];
    hide Queue, EnrollLazy;
    if t < |rest| {
      assert rest[..t] == ids[..t] && rest[t] == ids[t];
      LazyAnswers(env, s, entries, rest, t);
    } else {
      assert rest == ids[..t];
    }
  }

  /** The report's failures: the refused inputs, the missing dependencies, the cycles and what Register and
      RegisterLazy refused; nothing else. */
  lemma FailedBecause(env: Env, s: State, ps: seq<Plugin>, plan: Plan, f: Failure)
    requires Queue(s) && PlanInRange(plan) && f in Carry(env, s, ps, plan).1.failed
    ensures
      || f in Rejects(ps)
      || (exists m :: m in plan.missing && f == Failure(plan.entries[m.entry].meta.id, MissingDependency(m.key)))
      || (exists i :: i in plan.active && i !in plan.order && i < |plan.entries| && f == Failure(plan.entries[i].meta.id, DependencyCycle))
      || f in RegisterAll(env, s, plan.entries, plan.order).failed
      || f in DeferAll(env, RegisterAll(env, s, plan.entries, plan.order).state, plan.entries, LaterOnes(plan)).failed
  {
    var e, l := plan.entries, LeftOver(plan);
    if f in MissingFailures(e, plan.missing) {
      var t :| 0 <= t < |plan.missing| && MissingFailures(e, plan.missing)[t] == f;
      assert plan.missing[t] in plan.missing;
    } else if f in CycleFailures(e, l) {
      var t :| 0 <= t < |l| && CycleFailures(e, l)[t] == f;
      assert l[t] in l && l[t] !in Ids(plan.order);
    }
    hide Queue, RegisterAll, DeferAll, MissingFailures, CycleFailures, LeftOver, LaterOnes, Rejects;
  }
}
