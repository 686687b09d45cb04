// The plugin host: the maps of host/host.go and the methods of host/register.go and host/batch.go
// that change them, each proved against its meaning on registry states.
module Host {
  import opened Text
  import opened Manifest
  import opened Registry
  import opened Loading
  import opened Removal
  import opened Graph
  import opened Kahn
  import opened Batches
  import Replacement
  import Version
  import BatchOrder

  class Host {
    const env: Env
    var plugins: map<string, Plugin>
    var meta: Book
    var fns: map<string, FnEntry>
    var order: map<string, nat>
    var nextSeq: nat
    var pending: seq<string>
    var waiting: map<string, Plugin>

    ghost function S(): (s: State)
      reads this
    {
      State(plugins, meta, fns, order, nextSeq, pending, waiting)
    }

    constructor (env: Env)
      ensures this.env == env
      ensures Valid(env, S()) && Sound(env, meta) && S() == State(map[], map[], map[], map[], 0, [], map[])
    {
      this.env := env;
      plugins, meta, fns, order, nextSeq, pending, waiting := map[], map[], map[], map[], 0, [], map[];
    }

    // ---- checks ----

    /** slotSatisfiedExcludingLocked without the builtin test: the map is visited in any order. */
    method OccupiedByOther(slot: string, exclude: Option<string>) returns (ok: bool)
      ensures ok == match exclude case Some(id) => OtherOccupant(meta, slot, id) case None => Occupied(meta, slot)
    {
      var todo := meta.Keys;
      while todo != {}
        invariant todo <= meta.Keys
        invariant forall q :: q in meta && q !in todo ==> exclude == Some(q) || meta[q].slot != slot
        decreases todo
      {
        var q :| q in todo;
        todo := todo - {q};
        if exclude != Some(q) && meta[q].slot == slot {
          return true;
        }
      }
      ok := false;
    }

    method SlotSatisfied(slot: string) returns (ok: bool)
      ensures ok == SlotMet(env, meta, slot)
    {
      if slot in env.slots && env.slots[slot].builtin {
        return true;
      }
      ok := OccupiedByOther(slot, None);
    }

    method DepSatisfied(d: Dependency) returns (ok: bool)
      ensures ok == DepMet(env, meta, d)
    {
      if d.kind != Init {
        return true;
      }
      if d.slot != "" {
        ok := SlotSatisfied(d.slot);
        return;
      }
      if d.plugin !in meta {
        return false;
      }
      if d.minVersion == "" {
        return true;
      }
      ok := Version.VersionAtLeast(meta[d.plugin].version, d.minVersion);
    }

    method FindUnmet(ds: seq<Dependency>) returns (r: Option<Dependency>)
      ensures r == FirstUnmet(env, meta, ds)
    {
      for i := 0 to |ds|
        invariant FirstUnmet(env, meta, ds) == FirstUnmet(env, meta, ds[i..])
      {
        var ok := DepSatisfied(ds[i]);
        hide DepMet;
        if !ok {
          return Some(ds[i]);
        }
      }
      r := None;
    }

    method InitDepsSatisfied(m: Meta) returns (ok: bool)
      ensures ok == DepsMet(env, meta, m)
    {
      var unmet := FindUnmet(m.deps);
      ok := unmet.None?;
    }

    method FindBadFunc(fs: seq<Func>) returns (r: Option<Func>)
      ensures r == FirstBadFunc(fs)
    {
      for i := 0 to |fs|
        invariant FirstBadFunc(fs) == FirstBadFunc(fs[i..])
      {
        if !GoodFunc(fs[i]) {
          return Some(fs[i]);
        }
      }
      r := None;
    }

    method AllSlotsSatisfied(slots: seq<string>) returns (ok: bool)
      ensures ok <==> forall n :: n in slots ==> SlotMet(env, meta, n)
    {
      for i := 0 to |slots|
        invariant forall j :: 0 <= j < i ==> SlotMet(env, meta, slots[j])
      {
        ok := SlotSatisfied(slots[i]);
        if !ok {
          return;
        }
      }
      ok := true;
    }

    method NamesSomething(ds: seq<Dependency>) returns (ok: bool)
      ensures ok <==> !exists d :: d in ds && NamesNothing(d)
    {
      for i := 0 to |ds|
        invariant forall j :: 0 <= j < i ==> !NamesNothing(ds[j])
      {
        if ds[i].plugin == "" && ds[i].slot == "" {
          assert NamesNothing(ds[i]) && ds[i] in ds;
          return false;
        }
      }
      ok := true;
    }

    /** validateContractLocked. */
    method ValidateContract(m: Meta) returns (r: Option<Error>)
      ensures r == Validate(env, meta, m)
    {
      hide GoodFunc, DepMet, BadChars, NamesNothing, SlotMet;
      if BadChars(m.id) {
        return Some(BadId);
      }
      var bad := FindBadFunc(m.functions);
      if bad.Some? {
        return Some(BadFunction(bad.value.name));
      }
      var named := NamesSomething(m.deps);
      if !named {
        return Some(EmptyDependency);
      }
      var unmet := FindUnmet(m.deps);
      if unmet.Some? {
        return Some(InitUnmet(unmet.value));
      }
      if m.slot == "" {
        return None;
      }
      if m.slot !in env.slots {
        return Some(UnknownSlot);
      }
      var needs := AllSlotsSatisfied(env.slots[m.slot].needs);
      if !env.axesMet(m) || !needs {
        return Some(SlotContractUnmet);
      }
      r := None;
    }

    // ---- registration ----

    /** removePendingLocked. */
    method RemovePending(id: string)
      modifies this
      ensures S() == DropPending(old(S()), id)
    {
      if id !in waiting {
        return;
      }
      waiting := waiting - {id};
      var i := 0;
      while i < |pending|
        invariant 0 <= i <= |pending|
        invariant pending == old(pending)
        invariant Without(pending, id) == pending[..i] + Without(pending[i..], id)
      {
        if pending[i] == id {
          pending := pending[..i] + pending[i + 1..];
          return;
        }
        i := i + 1;
      }
    }

    /** registerLocked: all checks, then the entries of the new plugin. */
    method RegisterLocked(p: Plugin) returns (err: Option<Error>)
      requires Queue(S())
      modifies this
      ensures (S(), err) == Admit(env, old(S()), p)
    {
      var id := p.meta.id;
      if id in plugins {
        return Some(DuplicateId);
      }
      RemovePending(id);
      ghost var s1 := S();
      assert s1 == DropPending(old(S()), id);
      hide DropPending, Validate;
      err := ValidateContract(p.meta);
      if err.Some? {
        return;
      }
      if p.callable {
        err := AddFunctions(p);
        if err.Some? {
          return;
        }
      }
      plugins := plugins[id := p];
      meta := meta[id := p.meta];
      nextSeq := nextSeq + 1;
      order := order[id := nextSeq];
      err := None;
    }

    /** The catalogue loop of registerLocked. */
    method AddFunctions(p: Plugin) returns (err: Option<Error>)
      modifies this
      ensures S() == old(S()).(fns := AddFns(old(fns), p, p.meta.functions).0)
      ensures err == AddFns(old(fns), p, p.meta.functions).1
    {
      var fs := p.meta.functions;
      for i := 0 to |fs|
        invariant S() == old(S()).(fns := fns)
        invariant AddFns(old(fns), p, fs) == AddFns(fns, p, fs[i..])
      {
        var key := FnKey(p.meta.id, fs[i].name);
        assert fs[i..][0] == fs[i] && fs[i..][1..] == fs[i + 1..];
        if key in fns {
          return Some(FunctionConflict(fs[i].name));
        }
        fns := fns[key := FnEntry(p.meta.id, fs[i].spec, p.handle)];
      }
      err := None;
    }

    method Register(p: Plugin) returns (err: Option<Error>)
      requires Queue(S())
      modifies this
      ensures Queue(S())
      ensures (S(), err) == Enroll(env, old(S()), p)
      decreases |pending| + 1, 0
    {
      if p.meta.id == "" {
        return Some(EmptyId);
      }
      EnrollUnfolds(env, S(), p);
      hide Queue, Admit, Enroll, Retry;
      err := RegisterLocked(p);
      if err.Some? {
        return;
      }
      RetryPending();
    }

    method RetryPending()
      requires Queue(S())
      modifies this
      ensures Queue(S())
      ensures S() == Retry(env, old(S()))
      decreases |pending|, 2
    {
      ghost var s0 := S();
      ScannedKeepsQueue(env, s0);
      var kept, left, ready := ScanQueue();
      pending, waiting := kept, left;
      hide Queue, Scanned, Loadable, LoadAll;
      LoadReady(ready);
    }

    /** The loop of retryPending over the plugins that can be loaded; a refused one is gone. */
    method LoadReady(ready: seq<Plugin>)
      requires Queue(S())
      modifies this
      ensures Queue(S())
      ensures S() == LoadAll(env, old(S()), ready)
      decreases |pending| + |ready|, 1
    {
      ghost var s1 := S();
      hide Queue, Enroll;
      for i := 0 to |ready|
        invariant Queue(S()) && |pending| <= |s1.pending|
        invariant LoadAll(env, s1, ready) == LoadAll(env, S(), ready[i..])
      {
        assert ready[i..][0] == ready[i] && ready[i..][1..] == ready[i + 1..];
        var err := Register(ready[i]);
      }
    }

    /** The scan of retryPending: the ids that stay, the waiting table without the others, and the others. */
    method ScanQueue() returns (kept: seq<string>, left: map<string, Plugin>, ready: seq<Plugin>)
      requires Queue(S())
      ensures S().(pending := kept, waiting := left) == Scanned(env, S())
      ensures ready == Loadable(env, S())
    {
      kept, left, ready := [], waiting, [];
      ghost var s0 := S();
      ScanStart(env, s0);
      hide DepsMet, Queue, ScanAt, Scanned, Loadable;
      for i := 0 to |pending|
        invariant ScanAt(env, s0, i, left, kept, ready)
      {
        ScanNext(env, s0, i, left, kept, ready);
        var id := pending[i];
        var p := left[id];
        var ok := InitDepsSatisfied(p.meta);
        if ok {
          ready := ready + [p];
          left := left - {id};
        } else {
          kept := kept + [id];
        }
      }
      ScanEnd(env, s0, left, kept, ready);
    }

    method RegisterLazy(p: Plugin) returns (status: Status, err: Option<Error>)
      requires Queue(S())
      modifies this
      ensures Queue(S())
      ensures (S(), status, err) == EnrollLazy(env, old(S()), p)
    {
      var id := p.meta.id;
      status := Registered;
      if id == "" {
        return Registered, Some(EmptyId);
      }
      if id in plugins {
        return Registered, Some(DuplicateId);
      }
      var ok := InitDepsSatisfied(p.meta);
      hide DepsMet, Enroll;
      if ok {
        err := Register(p);
        return Registered, err;
      }
      DeferredQueue(S(), p, Deferred(S(), p));
      if id !in waiting {
        pending := pending + [id];
      }
      waiting := waiting[id := p];
      return Pending, None;
    }

    // ---- replacement ----

    /** Deletes the catalogue entries of a plugin. */
    method DropFunctions(id: string)
      modifies this
      ensures S() == old(S()).(fns := DropFns(old(fns), id))
    {
      fns := map k | k in fns && fns[k].owner != id :: fns[k];
    }

    method PutFunctions(p: Plugin)
      modifies this
      ensures S() == old(S()).(fns := PutFns(old(fns), p, p.meta.functions))
    {
      var fs := p.meta.functions;
      for i := 0 to |fs|
        invariant S() == old(S()).(fns := fns)
        invariant PutFns(old(fns), p, fs) == PutFns(fns, p, fs[i..])
      {
        assert fs[i..][0] == fs[i] && fs[i..][1..] == fs[i + 1..];
        fns := fns[FnKey(p.meta.id, fs[i].name) := FnEntry(p.meta.id, fs[i].spec, p.handle)];
      }
    }

    method Replace(p: Plugin) returns (err: Option<Error>)
      requires Queue(S())
      modifies this
      ensures Queue(S())
      ensures (S(), err) == Exchange(env, old(S()), p)
    {
      var id := p.meta.id;
      if id !in plugins {
        return Some(NotRegistered);
      }
      err := ValidateContract(p.meta);
      hide Validate, DropFns, PutFns, Retry;
      if err.Some? {
        return;
      }
      SameQueue(S(), Swapped(S(), p));
      ghost var swapped := Swapped(S(), p);
      hide Queue;
      DropFunctions(id);
      plugins := plugins[id := p];
      meta := meta[id := p.meta];
      if p.callable {
        PutFunctions(p);
      }
      assert S() == swapped;
      RetryPending();
    }

    // ---- removal ----

    /** depBrokenByRemovalLocked. */
    method DepBroken(m: Meta, id: string, slot: string) returns (broken: bool)
      ensures broken == AnyBrokenBy(env, meta, id, slot, m)
    {
      for i := 0 to |m.deps|
        invariant forall j :: 0 <= j < i ==> !BrokenBy(env, meta, id, slot, m.deps[j])
      {
        var d := m.deps[i];
        assert d in m.deps;
        if d.kind != Init {
          continue;
        }
        if d.plugin != "" {
          if d.plugin == id {
            return true;
          }
        } else if d.slot != "" && d.slot == slot {
          if !(d.slot in env.slots && env.slots[d.slot].builtin) {
            var other := OccupiedByOther(d.slot, Some(id));
            if !other {
              return true;
            }
          }
        }
      }
      broken := false;
    }

    /** The scans of Remove and Dependents: who, outside marked, loses something with id; the map is visited in any order. */
    method CollectBroken(id: string, slot: string, marked: set<string>) returns (found: seq<string>)
      ensures NoDup(found)
      ensures forall q :: q in found <==> q in NewlyBroken(env, meta, id, slot, marked)
    {
      found := [];
      var todo := meta.Keys;
      hide AnyBrokenBy;
      while todo != {}
        invariant todo <= meta.Keys && NoDup(found)
        invariant forall q :: q in found <==> q in NewlyBroken(env, meta, id, slot, marked) && q !in todo
        decreases todo
      {
        var q :| q in todo;
        var was := todo;
        todo := todo - {q};
        if q in marked {
          continue;
        }
        var broken := DepBroken(meta[q], id, slot);
        if broken {
          found := found + [q];
        }
      }
    }

    /** Dependents: whom the removal of id alone would break. */
    method Dependents(id: string) returns (r: seq<string>)
      requires Valid(env, S())
      ensures id !in meta ==> r == []
      ensures id in meta ==> NoDup(r) && forall q :: q in r <==> q in DependentsOf(env, meta, id)
    {
      if id !in plugins {
        return [];
      }
      r := CollectBroken(id, meta[id].slot, {id});
    }

    /** Deletes one plugin from the tables. */
    method Delete(id: string, ghost s0: State, ghost gone: set<string>)
      requires S() == Removed(s0, gone)
      modifies this
      ensures S() == Removed(s0, gone + {id})
    {
      plugins := plugins - {id};
      meta := meta - {id};
      order := order - {id};
      DropFunctions(id);
      RemovedOneMore(s0, gone, id, S());
    }

    method Remove(id: string, cascade: bool) returns (victims: seq<string>, err: Option<Error>)
      requires Valid(env, S())
      modifies this
      ensures Valid(env, S())
      ensures id !in old(meta) ==> victims == [] && err == None && S() == old(S())
      ensures id in old(meta) && !cascade && DependentsOf(env, old(meta), id) != {} ==>
                victims == [] && err == Some(StillRequired(DependentsOf(env, old(meta), id))) && S() == old(S())
      ensures id in old(meta) && (cascade || DependentsOf(env, old(meta), id) == {}) ==>
                && err == None && NoDup(victims)
                && LeastClosed(env, old(meta), id, Members(victims))
                && S() == Removed(old(S()), Members(victims))
    {
      if id !in plugins {
        return [], None;
      }
      if !cascade {
        var deps := CollectBroken(id, meta[id].slot, {id});
        FoundAreDependents(env, meta, id, deps);
        if deps != [] {
          assert deps[0] in set q | q in deps;
          return [], Some(StillRequired(set q | q in deps));
        }
      }
      hide DependentsOf, LeastClosed, Removed, Tables, Queue, Apart, Quiet, SweepAt;
      SweepStart(env, S(), id);
      victims := Sweep(id, S(), [id]);
      SweepEnd(env, old(S()), id, S(), victims);
      RemovedKeeps(env, old(S()), Members(victims));
      err := None;
    }

    /** The worklist loop of Remove. */
    method Sweep(ghost id: string, ghost s0: State, start: seq<string>) returns (victims: seq<string>)
      requires SweepAt(env, s0, id, S(), start, 0)
      modifies this
      ensures SweepAt(env, s0, id, S(), victims, |victims|)
    {
      victims := start;
      var next := 0;
      hide SweepAt, Undeleted;
      while next < |victims|
        invariant next <= |victims|
        invariant SweepAt(env, s0, id, S(), victims, next)
        decreases Undeleted(s0, victims, next)
      {
        victims := SweepOne(id, victims, next, s0);
        next := next + 1;
      }
    }

    /** One turn of it: the next victim is deleted, and who newly loses something is queued. */
    method SweepOne(ghost id: string, victims: seq<string>, next: nat, ghost s0: State) returns (more: seq<string>)
      requires next < |victims| && SweepAt(env, s0, id, S(), victims, next)
      modifies this
      ensures next < |more| && |more| >= |victims| && SweepAt(env, s0, id, S(), more, next + 1)
      ensures Undeleted(s0, more, next + 1) < Undeleted(s0, victims, next)
    {
      var x := victims[next];
      ghost var gone := Members(victims[..next]);
      NextVictim(env, s0.meta, id, victims, next);
      WorklistStep(env, s0.meta, id, gone, Members(victims), x);
      RemovedBook(s0, gone, x);
      assert S() == Removed(s0, gone) && NoDup(victims);
      hide SweepAt, Worklist, Removed, NewlyBroken, Members, Undeleted;
      var slot := meta[x].slot;
      Delete(x, s0, gone);
      var found := CollectBroken(x, slot, Members(victims));
      RemovedBookAfter(s0, gone, x, S());
      Queued(env, meta, x, slot, victims, found);
      more := victims + found;
      SweepNext(env, s0, id, S(), victims, next, more);
    }

    // ---- batches ----

    /** Step 7 of RegisterMany. */
    method RegisterInOrder(entries: seq<Plugin>, order: seq<nat>) returns (done: seq<string>, failed: seq<Failure>)
      requires Queue(S()) && InBounds(entries, order)
      modifies this
      ensures Run(S(), done, failed) == RegisterAll(env, old(S()), entries, order)
    {
      done, failed := [], [];
      ghost var s0 := S();
      hide Queue, Enroll, RegisterAll;
      assert order[..0] == [] && RegisterAll(env, s0, entries, []) == Run(s0, [], []) by { NobodyRegistered(env, s0, entries); }
      for t := 0 to |order|
        invariant Queue(S())
        invariant Run(S(), done, failed) == RegisterAll(env, s0, entries, order[..t])
      {
        assert order[..t + 1] == order[..t] + [order[t]];
        RegisterOneMore(env, s0, entries, order[..t], order[t]);
        var err := Register(entries[order[t]]);
        if err.Some? {
          failed := failed + [Failure(entries[order[t]].meta.id, err.value)];
        } else {
          done := done + [entries[order[t]].meta.id];
        }
      }
      assert order[..|order|] == order;
    }

    /** Step 8 of RegisterMany. */
    method RegisterDeferred(entries: seq<Plugin>, deferred: set<nat>) returns (done: seq<string>, failed: seq<Failure>)
      requires Queue(S())
      modifies this
      ensures Run(S(), done, failed) == DeferAll(env, old(S()), entries, Ascending(deferred, |entries|))
    {
      done, failed := [], [];
      ghost var s0 := S();
      hide Queue, EnrollLazy, DeferAll;
      assert Ascending(deferred, 0) == [] && DeferAll(env, s0, entries, []) == Run(s0, [], []) by { NobodyRegistered(env, s0, entries); }
      for i := 0 to |entries|
        invariant Queue(S())
        invariant Run(S(), done, failed) == DeferAll(env, s0, entries, Ascending(deferred, i))
      {
        if i in deferred {
          DeferOneMore(env, s0, entries, Ascending(deferred, i), i);
          var status, err := RegisterLazy(entries[i]);
          if err.Some? {
            failed := failed + [Failure(entries[i].meta.id, err.value)];
          } else {
            done := done + [entries[i].meta.id];
          }
        }
      }
    }

    /** Steps 1 to 6 of RegisterMany: nothing is changed yet. */
    method PlanBatch(ps: seq<Plugin>) returns (entries: seq<Plugin>, rejected: seq<Failure>, deferred: set<nat>,
                                               missing: seq<Missing>, order: seq<nat>, left: seq<nat>, ghost plan: Plan)
      ensures rejected == Rejects(ps)
      ensures plan == Plan(entries, plan.active, deferred, missing, order)
      ensures PlanFor(env, S(), ps, plan)
      ensures left == LeftOver(plan)
    {
      var later := LaterKeys(waiting);
      entries, rejected := IndexBatch(ps);
      var b := BatchOf(env, meta, entries);
      hide BatchOf, LaterKeys;
      var active;
      active, deferred, missing := Prune(b, later);
      order := TopoOrder(b, active);
      left := NotEmitted(active, order);
      plan := Plan(entries, On(active[..]), deferred, missing, order);
    }

    method RegisterMany(ps: seq<Plugin>) returns (rep: Report, ghost plan: Plan)
      requires Valid(env, S())
      modifies this
      ensures Valid(env, S())
      ensures PlanFor(env, old(S()), ps, plan) && PlanInRange(plan)
      ensures (S(), rep) == Carry(env, old(S()), ps, plan)
    {
      ghost var s0 := S();
      var entries, rejected, deferred, missing, order, left;
      entries, rejected, deferred, missing, order, left, plan := PlanBatch(ps);
      PlanRange(env, s0, ps, plan);
      BatchOrder.CarryKeeps(env, s0, ps, plan);
      assert Queue(s0);
      hide PlanFor, Tables, Queue, Apart, Quiet, RegisterAll, DeferAll, Rejects, LeftOver;
      var failed := rejected + MissingFailures(entries, missing) + CycleFailures(entries, left);
      var done, refused := RegisterInOrder(entries, order);
      var pend, refusedLazy := RegisterDeferred(entries, deferred);
      rep := Report(done, pend, failed + refused + refusedLazy);
    }
  }

  /** The active entries the order left out, ascending. */
  method NotEmitted(active: array<bool>, order: seq<nat>) returns (left: seq<nat>)
    ensures left == Ascending(On(active[..]) - Ids(order), active.Length)
  {
    var emitted: set<nat> := {};
    for t := 0 to |order|
      invariant emitted == Ids(order[..t])
    {
      assert order[..t + 1] == order[..t] + [order[t]];
      emitted := emitted + {order[t]};
    }
    assert order[..|order|] == order;
    left := [];
    for i := 0 to active.Length
      invariant left == Ascending(On(active[..]) - Ids(order), i)
    {
      if active[i] && i !in emitted {
        left := left + [i];
      }
    }
  }

  lemma NobodyRegistered(env: Env, s: State, entries: seq<Plugin>)
    requires Queue(s)
    ensures RegisterAll(env, s, entries, []) == Run(s, [], [])
    ensures DeferAll(env, s, entries, []) == Run(s, [], [])
  {
  }

  /** The worklist after `next` deletions. */
  ghost predicate SweepAt(env: Env, s0: State, id: string, s: State, victims: seq<string>, next: nat) {
    && next <= |victims| && NoDup(victims)
    && s == Removed(s0, Members(victims[..next]))
    && Worklist(env, s0.meta, id, Members(victims[..next]), Members(victims))
  }

  lemma SweepStart(env: Env, s: State, id: string)
    requires id in s.meta
    ensures SweepAt(env, s, id, s, [id], 0)
  {
    WorklistStart(env, s.meta, id);
    NothingRemoved(s);
    assert Members([]) == {} && Members([id]) == {id} && [id][..0] == [];
  }

  /** How many plugins have not been deleted yet. */
  ghost function Undeleted(s0: State, victims: seq<string>, next: nat): nat
    requires next <= |victims|
  {
    |s0.meta.Keys - Members(victims[..next])|
  }

  lemma SweepNext(env: Env, s0: State, id: string, s: State, victims: seq<string>, next: nat, more: seq<string>)
    requires next < |victims| && victims <= more && NoDup(more) && NoDup(victims)
    requires Worklist(env, s0.meta, id, Members(victims[..next]), Members(victims))
    requires s == Removed(s0, Members(victims[..next]) + {victims[next]})
    requires Worklist(env, s0.meta, id, Members(victims[..next]) + {victims[next]}, Members(more))
    ensures SweepAt(env, s0, id, s, more, next + 1) && Undeleted(s0, more, next + 1) < Undeleted(s0, victims, next)
  {
    NextVictim(env, s0.meta, id, victims, next);
    NextSlice(victims, next, more);
    hide Worklist, Removed, Members, NoDup;
  }

  lemma NextSlice(victims: seq<string>, next: nat, more: seq<string>)
    requires next < |victims| && victims <= more
    ensures more[..next + 1] == victims[..next] + [victims[next]]
  {
  }

  lemma SweepEnd(env: Env, s0: State, id: string, s: State, victims: seq<string>)
    requires SweepAt(env, s0, id, s, victims, |victims|)
    ensures NoDup(victims) && LeastClosed(env, s0.meta, id, Members(victims)) && s == Removed(s0, Members(victims))
  {
    assert victims[..|victims|] == victims;
    WorklistEnd(env, s0.meta, id, Members(victims));
  }

  lemma FoundAreDependents(env: Env, book: Book, id: string, found: seq<string>)
    requires id in book && forall q :: q in found <==> q in NewlyBroken(env, book, id, book[id].slot, {id})
    ensures (set q | q in found) == DependentsOf(env, book, id)
  {
    hide AnyBrokenBy;
  }

  function Members(ids: seq<string>): set<string> {
    set q | q in ids
  }

  lemma NextVictim(env: Env, book: Book, id: string, victims: seq<string>, next: nat)
    requires next < |victims| && NoDup(victims) && Worklist(env, book, id, Members(victims[..next]), Members(victims))
    ensures var x, gone := victims[next], Members(victims[..next]);
            && x in Members(victims) && x in book && x !in gone
            && Members(victims[..next] + [x]) == gone + {x}
            && |book.Keys - (gone + {x})| < |book.Keys - gone|
  {
    var x, gone := victims[next], Members(victims[..next]);
    assert x in Members(victims);
    assert book.Keys - gone == (book.Keys - (gone + {x})) + {x};
  }

  lemma RemovedBook(s: State, gone: set<string>, x: string)
    requires x in s.meta && x !in gone
    ensures x in Removed(s, gone).meta && Removed(s, gone).meta[x] == s.meta[x]
  {
  }

  lemma RemovedBookAfter(s: State, gone: set<string>, x: string, r: State)
    requires r == Removed(s, gone + {x})
    ensures r.meta == s.meta - (gone + {x})
  {
  }

  lemma Queued(env: Env, left: Book, x: string, slot: string, victims: seq<string>, found: seq<string>)
    requires NoDup(victims) && NoDup(found)
    requires forall q :: q in found <==> q in NewlyBroken(env, left, x, slot, Members(victims))
    ensures NoDup(victims + found)
    ensures Members(victims + found) == Members(victims) + NewlyBroken(env, left, x, slot, Members(victims))
  {
    forall q | q in found
      ensures q !in victims
    {
      assert q in NewlyBroken(env, left, x, slot, Members(victims));
    }
    hide NewlyBroken;
    forall i, j | 0 <= i < j < |victims + found|
      ensures (victims + found)[i] != (victims + found)[j]
    {
      if i < |victims| <= j {
        assert victims[i] in victims && found[j - |victims|] in found;
      }
    }
  }
}
