// RegisterLazy and Replace: what they keep, and exactly when a replacement leaves every dependency met.
module Replacement {
  import opened Text
  import opened Manifest
  import opened Registry
  import opened Loading
  import opened Catalogue
  import opened LazyLoading
  import Version

  // ---- RegisterLazy ----

  lemma EnrollLazyKeeps(env: Env, s: State, p: Plugin)
    requires Valid(env, s)
    ensures var r := EnrollLazy(env, s, p).0;
            Valid(env, r) && Grows(s.meta, r.meta) && (Sound(env, s.meta) ==> Sound(env, r.meta))
  {
    if p.meta.id != "" && p.meta.id !in s.plugins {
      if DepsMet(env, s.meta, p.meta) {
        EnrollNowKeeps(env, s, p);
      } else {
        DeferredIsValid(env, s, p);
      }
    }
    hide Tables, Queue, Apart, Quiet, Sound, DepsMet, Enroll;
    assert Grows(s.meta, s.meta);
  }

  lemma DeferredHolds(s: State, p: Plugin)
    requires Queue(s) && p.meta.id != ""
    ensures var r := Deferred(s, p); p.meta.id in r.waiting && r.waiting[p.meta.id] == p && r.meta == s.meta
  {
    hide Queue;
  }

  /** The status tells the truth: registered now, or waiting because a dependency is unmet. */
  lemma EnrollLazyStatus(env: Env, s: State, p: Plugin)
    requires Valid(env, s) && EnrollLazy(env, s, p).2.None?
    ensures var (r, status, err) := EnrollLazy(env, s, p);
            if DepsMet(env, s.meta, p.meta) then status == Registered && p.meta.id in r.plugins && r.plugins[p.meta.id] == p
            else status == Pending && p.meta.id in r.waiting && r.waiting[p.meta.id] == p && r.meta == s.meta
  {
    EnrollNowKeeps(env, s, p);
    assert p.meta.id != "";
    DeferredHolds(s, p);
    hide Tables, Queue, Apart, Quiet, Sound, DepsMet, Enroll, Grows, Deferred;
  }

  lemma EnrollNowKeeps(env: Env, s: State, p: Plugin)
    requires Valid(env, s)
    ensures var (r, err) := Enroll(env, s, p);
            && Valid(env, r) && Grows(s.meta, r.meta)
            && (Sound(env, s.meta) ==> Sound(env, r.meta))
            && (err.None? ==> p.meta.id in r.plugins && r.plugins[p.meta.id] == p)
  {
    EnrollKeeps(env, s, p);
    hide Tables, Queue, Apart, Quiet, Sound, Enroll, Later, Grows;
    LaterGrows(s, Enroll(env, s, p).0);
  }

  lemma DeferredIsValid(env: Env, s: State, p: Plugin)
    requires Valid(env, s) && p.meta.id != "" && p.meta.id !in s.plugins && !DepsMet(env, s.meta, p.meta)
    ensures Valid(env, Deferred(s, p))
  {
    var r := Deferred(s, p);
    assert s.plugins.Keys == s.meta.Keys;
    SameTables(s, r);
    assert r.waiting == s.waiting[p.meta.id := p];
    hide Tables, DepsMet, Queue, Deferred, Apart, Quiet;
    DeferredFrame(env, s, p, r);
  }

  lemma DeferredFrame(env: Env, s: State, p: Plugin, r: State)
    requires Apart(s) && Quiet(env, s) && p.meta.id !in s.meta && !DepsMet(env, s.meta, p.meta)
    requires r.meta == s.meta && r.waiting == s.waiting[p.meta.id := p]
    ensures Apart(r) && Quiet(env, r)
  {
    hide DepsMet;
  }

  // ---- Replace ----

  lemma SwappedIsCore(env: Env, s: State, p: Plugin)
    requires Core(s) && p.meta.id in s.plugins && StaticOk(p.meta)
    ensures Core(Swapped(s, p))
  {
    var r := Swapped(s, p);
    SameQueue(s, r);
    SwappedTables(s, p, r);
    assert Apart(r) by {
      assert p.meta.id in s.meta;
      hide Tables, Queue, PutFns, DropFns;
    }
  }

  lemma SwappedTables(s: State, p: Plugin, r: State)
    requires Tables(s) && p.meta.id in s.plugins && StaticOk(p.meta)
    requires r.plugins == s.plugins[p.meta.id := p] && r.meta == s.meta[p.meta.id := p.meta]
    requires r.order == s.order && r.nextSeq == s.nextSeq
    ensures Tables(r)
  {
    DescribedNext(s.plugins, s.meta, p);
    hide StaticOk, Numbered, Described;
    assert p.meta.id in s.meta && p.meta.id in s.order;
  }

  /** Replace keeps the invariants; a refused one changes nothing. */
  lemma ExchangeKeeps(env: Env, s: State, p: Plugin)
    requires Valid(env, s)
    ensures var (r, err) := Exchange(env, s, p);
            && Valid(env, r)
            && (err.None? <==> p.meta.id in s.plugins && Acceptable(env, s.meta, p.meta))
            && (err.Some? ==> r == s)
            && (err.None? ==> p.meta.id in r.plugins && r.plugins[p.meta.id] == p)
            && (err.None? && Sound(env, Swapped(s, p).meta) ==> Sound(env, r.meta))
  {
    hide Sound, DepsMet, SlotOk;
    if p.meta.id in s.plugins && Acceptable(env, s.meta, p.meta) {
      SwappedIsCore(env, s, p);
      RetryKeeps(env, Swapped(s, p));
      assert Swapped(s, p).plugins[p.meta.id] == p;
      hide Tables, Queue, Apart, Quiet, Swapped, Retry, StaticOk;
      LaterShows(Swapped(s, p), Retry(env, Swapped(s, p)), p.meta.id);
    }
  }

  /** Dependency d does not lose what it had when m takes the place of its namesake. */
  ghost predicate SafeFor(env: Env, book: Book, m: Meta, d: Dependency)
    requires m.id in book
  {
    d.kind == Init ==>
      if d.slot != "" then d.slot == book[m.id].slot != m.slot ==> Builtin(env, d.slot) || OtherOccupant(book, d.slot, m.id)
      else d.plugin == m.id && d.minVersion != "" ==> Version.AtLeast(m.version, d.minVersion)
  }

  /** What a caller would check before replacing: the slot given up and the versions asked for. */
  ghost predicate SafeSwap(env: Env, book: Book, m: Meta)
    requires m.id in book
  {
    && (forall d :: d in m.deps ==> SafeFor(env, book, m, d))
    && (forall q, d :: q in book && q != m.id && d in book[q].deps ==> SafeFor(env, book, m, d))
  }

  lemma SwapOneDep(env: Env, book: Book, m: Meta, d: Dependency)
    requires m.id in book && DepMet(env, book, d)
    ensures DepMet(env, book[m.id := m], d) <==> SafeFor(env, book, m, d)
  {
    var after := book[m.id := m];
    if d.kind == Init && d.slot != "" && !Builtin(env, d.slot) {
      var id :| id in book && book[id].slot == d.slot;
      if d.slot == m.slot {
        assert after[m.id].slot == d.slot;
      } else if id != m.id {
        assert after[id].slot == d.slot;
      }
      if OtherOccupant(book, d.slot, m.id) {
        var q :| q in book && q != m.id && book[q].slot == d.slot;
        assert after[q].slot == d.slot;
      }
    }
  }

  /** Replacing keeps every dependency met exactly when the swap is safe. */
  lemma SwapSoundIff(env: Env, book: Book, m: Meta)
    requires Sound(env, book) && m.id in book && DepsMet(env, book, m)
    ensures Sound(env, book[m.id := m]) <==> SafeSwap(env, book, m)
  {
    var after := book[m.id := m];
    forall d | d in m.deps
      ensures DepMet(env, after, d) <==> SafeFor(env, book, m, d)
    {
      SwapOneDep(env, book, m, d);
    }
    forall q, d | q in book && q != m.id && d in book[q].deps
      ensures DepMet(env, after, d) <==> SafeFor(env, book, m, d)
    {
      assert DepsMet(env, book, book[q]);
      SwapOneDep(env, book, m, d);
    }
    hide DepMet, SafeFor;
    if Sound(env, after) {
      forall d | d in m.deps
        ensures SafeFor(env, book, m, d)
      {
        assert DepsMet(env, after, after[m.id]);
      }
      forall q, d | q in book && q != m.id && d in book[q].deps
        ensures SafeFor(env, book, m, d)
      {
        assert DepsMet(env, after, after[q]);
      }
    }
    if SafeSwap(env, book, m) {
      forall q | q in after
        ensures DepsMet(env, after, after[q])
      {
      }
    }
  }

  /** Keeping the slot and not lowering the version is safe. */
  lemma SameSlotNoDowngradeIsSafe(env: Env, book: Book, m: Meta)
    requires Sound(env, book) && m.id in book && DepsMet(env, book, m)
    requires m.slot == book[m.id].slot && Version.AtLeast(m.version, book[m.id].version)
    requires Version.NonNegative(Version.Segments(m.version)) && Version.NonNegative(Version.Segments(book[m.id].version))
    ensures SafeSwap(env, book, m)
  {
    hide Version.AtLeast, Version.Segments, Version.NonNegative;
    forall d | DepMet(env, book, d)
      ensures SafeFor(env, book, m, d)
    {
      Version.VersionOrder(m.version, book[m.id].version, d.minVersion);
    }
    forall q, d | q in book && q != m.id && d in book[q].deps
      ensures DepMet(env, book, d)
    {
      assert DepsMet(env, book, book[q]);
    }
  }

  /** Giving up a slot can leave a dependent without it although the replacement itself is accepted. */
  lemma SlotChangeBreaksDependents(env: Env)
    requires env.slots == map["enc" := SlotSpec(false, [])]
    ensures var provider := Meta("A", "1", "enc", [], [], 0);
            var user := Meta("B", "1", "", [], [Dependency("", "enc", Init, "")], 0);
            var book := map["A" := provider, "B" := user];
            var newer := provider.(slot := "", version := "2");
            && Sound(env, book) && Acceptable(env, book, newer) && !Sound(env, book[newer.id := newer])
  {
    var provider := Meta("A", "1", "enc", [], [], 0);
    var d := Dependency("", "enc", Init, "");
    var user := Meta("B", "1", "", [], [d], 0);
    var book: Book := map["A" := provider, "B" := user];
    var newer := provider.(slot := "", version := "2");
    assert book["A"].slot == "enc";
    assert !BadChars("A");
    var after := book[newer.id := newer];
    assert !DepMet(env, after, d);
    assert d in after["B"].deps;
  }

  // ---- the catalogue ----

  /** Replace keeps the catalogue exact, repeated names included. */
  lemma SwapCatalogue(s: State, p: Plugin)
    requires Tables(s) && Exact(s) && p.meta.id in s.plugins && forall f :: f in p.meta.functions ==> GoodFunc(f)
    ensures Exact(Swapped(s, p))
  {
    var r := Swapped(s, p);
    var id := p.meta.id;
    forall k, e
      ensures Listed(r.fns, k, e) <==> SomeoneDeclares(r.plugins, k, e)
    {
      PutMeaning(DropFns(s.fns, id), p, p.meta.functions, k, e);
      assert Listed(s.fns, k, e) <==> SomeoneDeclares(s.plugins, k, e);
      assert Listed(DropFns(s.fns, id), k, e) <==> Listed(s.fns, k, e) && e.owner != id;
      SwapDeclares(s, p, k, e);
      if Listed(s.fns, k, e) && e.owner != id {
        OwnerIsRegistered(s, k, e);
        OthersKeysAreOthers(s, p, k, e);
      }
    }
  }

  lemma OthersKeysAreOthers(s: State, p: Plugin, k: string, e: FnEntry)
    requires Tables(s) && e.owner in s.plugins && Declares(s.plugins[e.owner], k, e) && e.owner != p.meta.id
    requires forall f :: f in p.meta.functions ==> GoodFunc(f)
    ensures !Claims(p.meta.id, p.meta.functions, k)
  {
    var q := s.plugins[e.owner];
    var i :| DeclaredAt(q.meta.id, q.handle, q.meta.functions, i, k, e);
    assert q.meta.functions[i] in s.meta[e.owner].functions;
    assert GoodFunc(q.meta.functions[i]);
    hide Tables, StaticOk;
    forall f | f in p.meta.functions
      ensures FnKey(p.meta.id, f.name) != k
    {
      if FnKey(p.meta.id, f.name) == k {
        KeyInjective(p.meta.id, f.name, q.meta.id, q.meta.functions[i].name);
      }
    }
  }

  lemma SwapDeclares(s: State, p: Plugin, k: string, e: FnEntry)
    requires Tables(s) && p.meta.id in s.plugins
    ensures SomeoneDeclares(s.plugins[p.meta.id := p], k, e) <==>
            Declares(p, k, e) || (SomeoneDeclares(s.plugins, k, e) && e.owner != p.meta.id)
  {
    var id := p.meta.id;
    var after := s.plugins[id := p];
    if SomeoneDeclares(after, k, e) {
      var q :| q in after && Declares(after[q], k, e);
      if q != id {
        assert q in s.plugins && Declares(s.plugins[q], k, e);
        var i :| DeclaredAt(after[q].meta.id, after[q].handle, after[q].meta.functions, i, k, e);
        assert s.meta[q].id == q;
      }
    }
    if Declares(p, k, e) {
      assert after[id] == p;
    }
    if SomeoneDeclares(s.plugins, k, e) && e.owner != id {
      OwnerIsRegistered(s, k, e);
      assert after[e.owner] == s.plugins[e.owner];
    }
  }

  /** A replacement loads exactly the least book that holds the newcomer in the old one's place and absorbs the queue. */
  lemma ReplacingLoadsLeast(env: Env, s: State, p: Plugin)
    requires Valid(env, s) && Exact(s) && p.meta.id in s.plugins && Acceptable(env, s.meta, p.meta)
    requires QueueAdmissible(env, Swapped(s, p))
    ensures var (r, err) := Exchange(env, s, p);
      && err.None? && Quiet(env, r)
      && LeastSaturated(env, s.meta[p.meta.id := p.meta], s.waiting, r.meta)
      && r.meta.Keys + r.waiting.Keys == s.meta.Keys + s.waiting.Keys
  {
    SwappedIsCore(env, s, p);
    SwapCatalogue(s, p);
    var t := Swapped(s, p);
    assert t.meta == s.meta[p.meta.id := p.meta] && t.waiting == s.waiting && p.meta.id in s.meta;
    ExchangeUnfolds(env, s, p);
    hide Tables, Queue, Apart, Exact, QueueAdmissible, Retry, Exchange, Quiet, LeastSaturated, Swapped, StaticOk, DepsMet, SlotOk;
    RetryIsLeast(env, t);
    assert t.meta.Keys == s.meta.Keys;
  }

  lemma ExchangeUnfolds(env: Env, s: State, p: Plugin)
    requires Core(s) && p.meta.id in s.plugins && Acceptable(env, s.meta, p.meta)
    ensures Queue(Swapped(s, p)) && Exchange(env, s, p) == (Retry(env, Swapped(s, p)), None)
  {
    SameQueue(s, Swapped(s, p));
    hide Tables, Queue, Apart, Retry, Swapped, Acceptable;
  }
}
