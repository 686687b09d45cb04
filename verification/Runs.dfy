// Whole runs: any sequence of Register, RegisterLazy, RegisterMany, Remove and Replace from an empty host.
module Runs {
  import opened Text
  import opened Manifest
  import opened Registry
  import opened Loading
  import opened Catalogue
  import opened LazyLoading
  import opened Removal
  import opened Replacement
  import opened Batches
  import opened BatchOrder
  import Version

  datatype Op =
    | Register(p: Plugin)
    | RegisterLazy(p: Plugin)
    | RegisterMany(ps: seq<Plugin>)
    | Remove(id: string, cascade: bool)
    | Replace(p: Plugin)

  const EMPTY: State := State(map[], map[], map[], map[], 0, [], map[])

  ghost predicate RemoveStep(env: Env, s: State, id: string, cascade: bool, t: State) {
    if id !in s.meta || (!cascade && DependentsOf(env, s.meta, id) != {}) then t == s
    else exists gone :: LeastClosed(env, s.meta, id, gone) && t == Removed(s, gone)
  }

  ghost predicate ManyStep(env: Env, s: State, ps: seq<Plugin>, t: State)
    requires Queue(s)
  {
    exists plan :: PlanFor(env, s, ps, plan) && PlanInRange(plan) && t == Carry(env, s, ps, plan).0
  }

  /** What one call of the host does, as its method's contract says. */
  ghost predicate Step(env: Env, s: State, op: Op, t: State) {
    Queue(s) &&
    match op
    case Register(p) => t == Enroll(env, s, p).0
    case RegisterLazy(p) => t == EnrollLazy(env, s, p).0
    case RegisterMany(ps) => ManyStep(env, s, ps, t)
    case Remove(id, cascade) => RemoveStep(env, s, id, cascade, t)
    case Replace(p) => t == Exchange(env, s, p).0
  }

  ghost predicate IsRun(env: Env, states: seq<State>, ops: seq<Op>) {
    && |states| == |ops| + 1 && states[0] == EMPTY
    && forall i :: 0 <= i < |ops| ==> Step(env, states[i], ops[i], states[i + 1])
  }

  // ---- validity ----

  lemma StepKeepsValid(env: Env, s: State, op: Op, t: State)
    requires Valid(env, s) && Step(env, s, op, t)
    ensures Valid(env, t)
  {
    match op
    case Register(p) => EnrollNowKeeps(env, s, p);
    case RegisterLazy(p) => EnrollLazyKeeps(env, s, p);
    case RegisterMany(ps) =>
      hide Valid, PlanFor, PlanInRange, Carry;
      var plan :| PlanFor(env, s, ps, plan) && PlanInRange(plan) && t == Carry(env, s, ps, plan).0;
      CarryKeeps(env, s, ps, plan);
    case Remove(id, cascade) =>
      if t != s {
        hide Valid, LeastClosed, Removed;
        var gone :| LeastClosed(env, s.meta, id, gone) && t == Removed(s, gone);
        RemovedKeeps(env, s, gone);
      }
    case Replace(p) => ExchangeKeeps(env, s, p);
  }

  /** In every reachable state: the tables agree, the pending list and the waiting table have the same keys without
      duplicates, nobody is both registered and waiting, and nobody waits whose dependencies are met. */
  lemma {:induction false} EveryStateIsValid(env: Env, states: seq<State>, ops: seq<Op>, n: nat)
    requires IsRun(env, states, ops) && n < |states|
    ensures Valid(env, states[n])
  {
    if n == 0 {
      hide DepsMet;
    } else {
      EveryStateIsValid(env, states, ops, n - 1);
      hide Valid, Step;
      StepKeepsValid(env, states[n - 1], ops[n - 1], states[n]);
    }
  }

  // ---- dependencies ----

  ghost function LastingIn(env: Env): Meta -> bool {
    m => LastingMeta(env, m)
  }

  /** The init dependencies an operation brings name one thing, or a built-in slot. */
  ghost predicate LastingOp(env: Env, op: Op) {
    match op
    case Register(p) => LastingMeta(env, p.meta)
    case RegisterLazy(p) => LastingMeta(env, p.meta)
    case RegisterMany(ps) => forall p :: p in ps ==> LastingMeta(env, p.meta)
    case Remove(id, cascade) => true
    case Replace(p) => LastingMeta(env, p.meta)
  }

  /** A replacement that goes through takes nothing from its dependents. */
  ghost predicate CarefulOp(env: Env, s: State, op: Op) {
    op.Replace? && op.p.meta.id in s.meta && Acceptable(env, s.meta, op.p.meta) ==> SafeSwap(env, s.meta, op.p.meta)
  }

  /** A replacement that keeps the slot and does not lower the version. */
  ghost predicate KeepingOp(s: State, op: Op) {
    op.Replace? && op.p.meta.id in s.meta ==>
      var was, m := s.meta[op.p.meta.id], op.p.meta;
      && m.slot == was.slot && Version.AtLeast(m.version, was.version)
      && Version.NonNegative(Version.Segments(m.version)) && Version.NonNegative(Version.Segments(was.version))
  }

  lemma DeferredPasses(s: State, p: Plugin, ok: Meta -> bool)
    requires Queue(s) && p.meta.id != "" && AllPass(s, ok) && ok(p.meta)
    ensures AllPass(Deferred(s, p), ok)
  {
    hide Queue;
  }

  lemma EnrollLazyPasses(env: Env, s: State, p: Plugin, ok: Meta -> bool)
    requires Valid(env, s) && AllPass(s, ok) && ok(p.meta)
    ensures AllPass(EnrollLazy(env, s, p).0, ok)
  {
    EnrollPasses(env, s, p, ok);
    if p.meta.id != "" {
      DeferredPasses(s, p, ok);
    }
    hide AllPass, Tables, Queue, Apart, Quiet, Enroll, DepsMet, Deferred;
  }

  lemma {:induction false} RegisterAllPasses(env: Env, s: State, entries: seq<Plugin>, order: seq<nat>, ok: Meta -> bool)
    requires Valid(env, s) && InBounds(entries, order) && AllPass(s, ok) && forall p :: p in entries ==> ok(p.meta)
    ensures Valid(env, RegisterAll(env, s, entries, order).state) && AllPass(RegisterAll(env, s, entries, order).state, ok)
  {
    if order == [] {
    } else {
      var rest, p := order[..|order| - 1], entries[order[|order| - 1]];
      assert p in entries;
      RegisterAllPasses(env, s, entries, rest, ok);
      var before := RegisterAll(env, s, entries, rest).state;
      EnrollPasses(env, before, p, ok);
      EnrollNowKeeps(env, before, p);
      hide AllPass, Tables, Queue, Apart, Quiet, Enroll;
    }
  }

  lemma {:induction false} DeferAllPasses(env: Env, s: State, entries: seq<Plugin>, ids: seq<nat>, ok: Meta -> bool)
    requires Valid(env, s) && InBounds(entries, ids) && AllPass(s, ok) && forall p :: p in entries ==> ok(p.meta)
    ensures Valid(env, DeferAll(env, s, entries, ids).state) && AllPass(DeferAll(env, s, entries, ids).state, ok)
  {
    if ids == [] {
    } else {
      var rest, p := ids[..|ids| - 1], entries[ids[|ids| - 1]];
      assert p in entries;
      DeferAllPasses(env, s, entries, rest, ok);
      var before := DeferAll(env, s, entries, rest).state;
      EnrollLazyPasses(env, before, p, ok);
      EnrollLazyKeeps(env, before, p);
      hide AllPass, Tables, Queue, Apart, Quiet, EnrollLazy;
    }
  }

  lemma {:induction false} FirstsPass(ps: seq<Plugin>, ok: Meta -> bool)
    requires forall p :: p in ps ==> ok(p.meta)
    ensures forall p :: p in Firsts(ps) ==> ok(p.meta)
  {
    if ps == [] {
    } else {
      assert ps[|ps| - 1] in ps;
      FirstsPass(ps[..|ps| - 1], ok);
    }
  }

  lemma CarryPasses(env: Env, s: State, ps: seq<Plugin>, plan: Plan, ok: Meta -> bool)
    requires Valid(env, s) && plan.entries == Firsts(ps) && PlanInRange(plan)
    requires AllPass(s, ok) && forall p :: p in ps ==> ok(p.meta)
    ensures AllPass(Carry(env, s, ps, plan).0, ok)
  {
    FirstsPass(ps, ok);
    RegisterAllPasses(env, s, plan.entries, plan.order, ok);
    hide Valid, AllPass, RegisterAll, DeferAll, LeftOver, LaterOnes, Firsts, Rejects;
    DeferAllPasses(env, RegisterAll(env, s, plan.entries, plan.order).state, plan.entries, LaterOnes(plan), ok);
  }

  lemma SwappedPasses(s: State, p: Plugin, ok: Meta -> bool)
    requires AllPass(s, ok) && ok(p.meta)
    ensures AllPass(Swapped(s, p), ok)
  {
  }

  lemma ExchangePasses(env: Env, s: State, p: Plugin, ok: Meta -> bool)
    requires Valid(env, s) && AllPass(s, ok) && ok(p.meta)
    ensures AllPass(Exchange(env, s, p).0, ok)
  {
    hide DepsMet, SlotOk;
    if p.meta.id in s.plugins && Acceptable(env, s.meta, p.meta) {
      SwappedIsCore(env, s, p);
      SwappedPasses(s, p, ok);
      hide Tables, Queue, Apart, Quiet, Swapped, Retry, StaticOk, AllPass;
      RetryPasses(env, Swapped(s, p), ok);
    }
  }

  lemma StepKeepsShape(env: Env, s: State, op: Op, t: State)
    requires Valid(env, s) && AllPass(s, LastingIn(env)) && LastingOp(env, op) && Step(env, s, op, t)
    ensures AllPass(t, LastingIn(env))
  {
    hide LastingMeta;
    match op
    case Register(p) =>
      EnrollPasses(env, s, p, LastingIn(env));
      hide AllPass;
    case RegisterLazy(p) =>
      EnrollLazyPasses(env, s, p, LastingIn(env));
      hide AllPass;
    case RegisterMany(ps) =>
      hide Valid, PlanInRange, Carry, AllPass;
      var plan :| PlanFor(env, s, ps, plan) && PlanInRange(plan) && t == Carry(env, s, ps, plan).0;
      CarryPasses(env, s, ps, plan, LastingIn(env));
    case Remove(id, cascade) =>
    case Replace(p) =>
      ExchangePasses(env, s, p, LastingIn(env));
      hide AllPass;
  }

  lemma RemoveKeepsSound(env: Env, s: State, id: string, cascade: bool, t: State)
    requires Sound(env, s.meta) && LastingBook(env, s.meta) && RemoveStep(env, s, id, cascade, t)
    ensures Sound(env, t.meta)
  {
    if t != s {
      hide Sound, LastingBook, Closed;
      var gone :| LeastClosed(env, s.meta, id, gone) && t == Removed(s, gone);
      assert Closed(env, s.meta, gone);
      ClosedKeepsSound(env, s.meta, gone);
    }
  }

  lemma ReplaceKeepsSound(env: Env, s: State, p: Plugin)
    requires Valid(env, s) && Sound(env, s.meta) && CarefulOp(env, s, Replace(p))
    ensures Sound(env, Exchange(env, s, p).0.meta)
  {
    ExchangeKeeps(env, s, p);
    if p.meta.id in s.plugins && Acceptable(env, s.meta, p.meta) {
      assert p.meta.id in s.meta;
      hide Tables, Queue, Apart, Quiet, Sound, StaticOk, DepsMet, SlotOk, Exchange, SafeSwap;
      SwapSoundIff(env, s.meta, p.meta);
    }
  }

  lemma KeepingIsCareful(env: Env, s: State, op: Op)
    requires Sound(env, s.meta) && KeepingOp(s, op)
    ensures CarefulOp(env, s, op)
  {
    if op.Replace? && op.p.meta.id in s.meta && Acceptable(env, s.meta, op.p.meta) {
      hide Sound, StaticOk, DepsMet, SlotOk, SafeSwap;
      SameSlotNoDowngradeIsSafe(env, s.meta, op.p.meta);
    }
  }

  lemma StepKeepsSound(env: Env, s: State, op: Op, t: State)
    requires Valid(env, s) && Sound(env, s.meta) && LastingBook(env, s.meta) && CarefulOp(env, s, op) && Step(env, s, op, t)
    ensures Sound(env, t.meta)
  {
    hide Sound, LastingBook;
    match op
    case Register(p) => EnrollNowKeeps(env, s, p);
    case RegisterLazy(p) => EnrollLazyKeeps(env, s, p);
    case RegisterMany(ps) =>
      hide Valid, PlanFor, PlanInRange, Carry;
      var plan :| PlanFor(env, s, ps, plan) && PlanInRange(plan) && t == Carry(env, s, ps, plan).0;
      CarryKeeps(env, s, ps, plan);
    case Remove(id, cascade) => RemoveKeepsSound(env, s, id, cascade, t);
    case Replace(p) => ReplaceKeepsSound(env, s, p);
  }

  /** Every run of lasting dependencies and careful replacements keeps all init dependencies of all registered plugins met. */
  lemma {:induction false} EveryDependencyStaysMet(env: Env, states: seq<State>, ops: seq<Op>, n: nat)
    requires IsRun(env, states, ops) && n < |states|
    requires forall i :: 0 <= i < n ==> LastingOp(env, ops[i]) && CarefulOp(env, states[i], ops[i])
    ensures Valid(env, states[n]) && Sound(env, states[n].meta) && AllPass(states[n], LastingIn(env))
  {
    EveryStateIsValid(env, states, ops, n);
    if n > 0 {
      EveryDependencyStaysMet(env, states, ops, n - 1);
      EveryStateIsValid(env, states, ops, n - 1);
      assert LastingBook(env, states[n - 1].meta);
      hide Valid, Sound, AllPass, Step, LastingBook, LastingOp, CarefulOp;
      StepKeepsSound(env, states[n - 1], ops[n - 1], states[n]);
      StepKeepsShape(env, states[n - 1], ops[n - 1], states[n]);
    }
  }

  /** In particular where replacements keep the slot and do not lower the version. */
  lemma {:induction false} KeepingRunsStayMet(env: Env, states: seq<State>, ops: seq<Op>, n: nat)
    requires IsRun(env, states, ops) && n < |states|
    requires forall i :: 0 <= i < n ==> LastingOp(env, ops[i]) && KeepingOp(states[i], ops[i])
    ensures Sound(env, states[n].meta) && forall i :: 0 <= i < n ==> CarefulOp(env, states[i], ops[i])
  {
    hide Valid, Sound, AllPass, LastingOp, CarefulOp, KeepingOp, Step;
    if n > 0 {
      KeepingRunsStayMet(env, states, ops, n - 1);
      KeepingIsCareful(env, states[n - 1], ops[n - 1]);
    }
    EveryDependencyStaysMet(env, states, ops, n);
  }

  // ---- the catalogue ----

  ghost predicate NamedOnceOp(op: Op) {
    match op
    case Register(p) => NamedOnce(p)
    case RegisterLazy(p) => NamedOnce(p)
    case RegisterMany(ps) => forall p :: p in ps ==> NamedOnce(p)
    case Remove(id, cascade) => true
    case Replace(p) => true
  }

  /** Exact now, and about to stay so. */
  ghost predicate Listing(env: Env, s: State) {
    Valid(env, s) && Exact(s) && QueueNamedOnce(s)
  }

  lemma EnrollListing(env: Env, s: State, p: Plugin)
    requires Listing(env, s) && NamedOnce(p)
    ensures Listing(env, Enroll(env, s, p).0)
  {
    EnrollCatalogue(env, s, p);
    EnrollKeeps(env, s, p);
    EnrollNowKeeps(env, s, p);
    hide Tables, Queue, Apart, Quiet, Exact, NamedOnce, QueueNamedOnce, Enroll, Later, Sound;
    StillNamedOnce(s, Enroll(env, s, p).0);
  }

  lemma EnrollLazyListing(env: Env, s: State, p: Plugin)
    requires Listing(env, s) && NamedOnce(p)
    ensures Listing(env, EnrollLazy(env, s, p).0)
  {
    EnrollLazyKeeps(env, s, p);
    EnrollListing(env, s, p);
    if p.meta.id != "" {
      DeferredListing(s, p);
    }
    hide Tables, Queue, Apart, Quiet, Exact, NamedOnce, QueueNamedOnce, Enroll, DepsMet, Deferred;
  }

  lemma DeferredListing(s: State, p: Plugin)
    requires Queue(s) && Exact(s) && QueueNamedOnce(s) && NamedOnce(p) && p.meta.id != ""
    ensures Exact(Deferred(s, p)) && QueueNamedOnce(Deferred(s, p))
  {
    hide Queue, Exact, NamedOnce;
    SameExact(s, Deferred(s, p));
  }

  lemma {:induction false} RegisterAllListing(env: Env, s: State, entries: seq<Plugin>, order: seq<nat>)
    requires Listing(env, s) && InBounds(entries, order) && forall p :: p in entries ==> NamedOnce(p)
    ensures Listing(env, RegisterAll(env, s, entries, order).state)
  {
    if order == [] {
    } else {
      var rest, p := order[..|order| - 1], entries[order[|order| - 1]];
      assert p in entries;
      RegisterAllListing(env, s, entries, rest);
      EnrollListing(env, RegisterAll(env, s, entries, rest).state, p);
      hide Tables, Queue, Apart, Quiet, Exact, NamedOnce, QueueNamedOnce, Enroll;
    }
  }

  lemma {:induction false} DeferAllListing(env: Env, s: State, entries: seq<Plugin>, ids: seq<nat>)
    requires Listing(env, s) && InBounds(entries, ids) && forall p :: p in entries ==> NamedOnce(p)
    ensures Listing(env, DeferAll(env, s, entries, ids).state)
  {
    if ids == [] {
    } else {
      var rest, p := ids[..|ids| - 1], entries[ids[|ids| - 1]];
      assert p in entries;
      DeferAllListing(env, s, entries, rest);
      EnrollLazyListing(env, DeferAll(env, s, entries, rest).state, p);
      hide Tables, Queue, Apart, Quiet, Exact, NamedOnce, QueueNamedOnce, EnrollLazy;
    }
  }

  lemma {:induction false} FirstsNamedOnce(ps: seq<Plugin>)
    requires forall p :: p in ps ==> NamedOnce(p)
    ensures forall p :: p in Firsts(ps) ==> NamedOnce(p)
  {
    hide NamedOnce;
    if ps == [] {
    } else {
      assert ps[|ps| - 1] in ps;
      FirstsNamedOnce(ps[..|ps| - 1]);
    }
  }

  lemma CarryListing(env: Env, s: State, ps: seq<Plugin>, plan: Plan)
    requires Listing(env, s) && plan.entries == Firsts(ps) && PlanInRange(plan) && forall p :: p in ps ==> NamedOnce(p)
    ensures Listing(env, Carry(env, s, ps, plan).0)
  {
    FirstsNamedOnce(ps);
    RegisterAllListing(env, s, plan.entries, plan.order);
    assert Queue(s);
    hide Listing, Tables, Queue, RegisterAll, DeferAll, LeftOver, LaterOnes, Firsts, Rejects, NamedOnce;
    DeferAllListing(env, RegisterAll(env, s, plan.entries, plan.order).state, plan.entries, LaterOnes(plan));
  }

  lemma ExchangeListing(env: Env, s: State, p: Plugin)
    requires Listing(env, s)
    ensures Listing(env, Exchange(env, s, p).0)
  {
    ExchangeKeeps(env, s, p);
    if p.meta.id in s.plugins && Acceptable(env, s.meta, p.meta) {
      assert forall f :: f in p.meta.functions ==> GoodFunc(f);
      SwappedIsCore(env, s, p);
      SwapCatalogue(s, p);
      RetryKeeps(env, Swapped(s, p));
      assert Swapped(s, p).waiting == s.waiting;
      hide Tables, Queue, Apart, Quiet, Exact, StaticOk, DepsMet, SlotOk, NamedOnce, Swapped, Retry, Sound, Later;
      assert QueueNamedOnce(Swapped(s, p));
      hide QueueNamedOnce;
      RetryCatalogue(env, Swapped(s, p));
      StillNamedOnce(Swapped(s, p), Retry(env, Swapped(s, p)));
    }
  }

  lemma RemovedListing(env: Env, s: State, gone: set<string>)
    requires Listing(env, s)
    ensures Listing(env, Removed(s, gone))
  {
    RemovedKeeps(env, s, gone);
    RemovedCatalogue(s, gone);
    assert Removed(s, gone).waiting == s.waiting;
    hide Tables, Queue, Apart, Quiet, Exact, NamedOnce, Removed;
  }

  lemma StepKeepsListing(env: Env, s: State, op: Op, t: State)
    requires Listing(env, s) && NamedOnceOp(op) && Step(env, s, op, t)
    ensures Listing(env, t)
  {
    hide Listing, NamedOnce, Queue;
    match op
    case Register(p) => EnrollListing(env, s, p);
    case RegisterLazy(p) => EnrollLazyListing(env, s, p);
    case RegisterMany(ps) =>
      hide PlanInRange, Carry;
      var plan :| PlanFor(env, s, ps, plan) && PlanInRange(plan) && t == Carry(env, s, ps, plan).0;
      CarryListing(env, s, ps, plan);
    case Remove(id, cascade) =>
      if t != s {
        hide LeastClosed, Removed;
        var gone :| LeastClosed(env, s.meta, id, gone) && t == Removed(s, gone);
        RemovedListing(env, s, gone);
      }
    case Replace(p) => ExchangeListing(env, s, p);
  }

  /** In every run whose manifests name each function once, the catalogue lists exactly the declared functions. */
  lemma {:induction false} CatalogueStaysExact(env: Env, states: seq<State>, ops: seq<Op>, n: nat)
    requires IsRun(env, states, ops) && n < |states|
    requires forall i :: 0 <= i < n ==> NamedOnceOp(ops[i])
    ensures Listing(env, states[n])
  {
    EveryStateIsValid(env, states, ops, n);
    if n > 0 {
      CatalogueStaysExact(env, states, ops, n - 1);
      hide Listing, Valid, Step, NamedOnceOp;
      StepKeepsListing(env, states[n - 1], ops[n - 1], states[n]);
    } else {
      assert states[n] == EMPTY;
    }
  }
}
