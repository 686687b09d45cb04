// The function catalogue: always the functions declared by the registered function providers,
// under keys that cannot collide. The one way to break it is a manifest that repeats a name.
module Catalogue {
  import opened Text
  import opened Manifest
  import opened Registry
  import opened Loading

  ghost predicate Listed(fns: map<string, FnEntry>, k: string, e: FnEntry) {
    k in fns && fns[k] == e
  }

  /** Declaration i of a manifest puts e under k; of a repeated name only the last declaration counts. */
  ghost predicate DeclaredAt(id: string, handle: nat, fs: seq<Func>, i: int, k: string, e: FnEntry) {
    && 0 <= i < |fs|
    && k == FnKey(id, fs[i].name)
    && e == FnEntry(id, fs[i].spec, handle)
    && forall j :: i < j < |fs| ==> fs[j].name != fs[i].name
  }

  ghost predicate Declared(id: string, handle: nat, fs: seq<Func>, k: string, e: FnEntry) {
    exists i :: DeclaredAt(id, handle, fs, i, k, e)
  }

  ghost predicate Declares(p: Plugin, k: string, e: FnEntry) {
    p.callable && Declared(p.meta.id, p.handle, p.meta.functions, k, e)
  }

  ghost predicate SomeoneDeclares(plugins: map<string, Plugin>, k: string, e: FnEntry) {
    exists id :: id in plugins && Declares(plugins[id], k, e)
  }

  /** The catalogue is what the registered function providers declare, no less and no more. */
  ghost predicate Exact(s: State) {
    forall k, e :: Listed(s.fns, k, e) <==> SomeoneDeclares(s.plugins, k, e)
  }

  predicate DistinctNames(fs: seq<Func>) {
    forall i, j :: 0 <= i < j < |fs| ==> fs[i].name != fs[j].name
  }

  predicate NamedOnce(p: Plugin) {
    p.callable ==> DistinctNames(p.meta.functions)
  }

  /** Ids may contain dots, function names may not: the key tells both. */
  lemma KeyInjective(a: string, n: string, b: string, m: string)
    requires FnKey(a, n) == FnKey(b, m) && '.' !in n && '.' !in m
    ensures a == b && n == m
  {
    var k := FnKey(a, n);
    assert k[|a|] == '.' && k[|b|] == '.';
    assert forall j :: |a| < j < |k| ==> k[j] == n[j - |a| - 1];
    assert forall j :: |b| < j < |k| ==> k[j] == m[j - |b| - 1];
    assert |a| == |b|;
    assert a == k[..|a|] && b == k[..|b|];
    assert n == k[|a| + 1..] && m == k[|b| + 1..];
  }

  lemma DeclaredSteps(id: string, handle: nat, fs: seq<Func>, k: string, e: FnEntry)
    requires fs != []
    ensures Declared(id, handle, fs, k, e) <==>
            Declared(id, handle, fs[1..], k, e) ||
            (k == FnKey(id, fs[0].name) && e == FnEntry(id, fs[0].spec, handle) && forall j :: 1 <= j < |fs| ==> fs[j].name != fs[0].name)
  {
    if Declared(id, handle, fs, k, e) {
      var i :| DeclaredAt(id, handle, fs, i, k, e);
      if i > 0 {
        assert DeclaredAt(id, handle, fs[1..], i - 1, k, e);
      }
    }
    if Declared(id, handle, fs[1..], k, e) {
      var i :| DeclaredAt(id, handle, fs[1..], i, k, e);
      assert fs[1..][i] == fs[i + 1];
      assert forall j :: i + 1 < j < |fs| ==> fs[j] == fs[1..][j - 1];
      assert DeclaredAt(id, handle, fs, i + 1, k, e);
    }
    if k == FnKey(id, fs[0].name) && e == FnEntry(id, fs[0].spec, handle) && forall j :: 1 <= j < |fs| ==> fs[j].name != fs[0].name {
      assert DeclaredAt(id, handle, fs, 0, k, e);
    }
  }

  predicate Claims(id: string, fs: seq<Func>, k: string) {
    exists f :: f in fs && FnKey(id, f.name) == k
  }

  lemma {:induction false} PutMeaning(fns: map<string, FnEntry>, p: Plugin, fs: seq<Func>, k: string, e: FnEntry)
    ensures Listed(PutFns(fns, p, fs), k, e) <==>
            Declared(p.meta.id, p.handle, fs, k, e) || (Listed(fns, k, e) && !Claims(p.meta.id, fs, k))
    decreases |fs|
  {
    if fs == [] {
    } else {
      var id := p.meta.id;
      var key, entry := FnKey(id, fs[0].name), FnEntry(id, fs[0].spec, p.handle);
      PutMeaning(fns[key := entry], p, fs[1..], k, e);
      DeclaredSteps(id, p.handle, fs, k, e);
      assert Claims(id, fs, k) <==> k == key || Claims(id, fs[1..], k) by {
        assert forall f :: f in fs <==> f == fs[0] || f in fs[1..];
      }
      if k == key {
        SameKeySameName(id, fs);
      }
    }
  }

  lemma SameKeySameName(id: string, fs: seq<Func>)
    requires fs != []
    ensures Claims(id, fs[1..], FnKey(id, fs[0].name)) <==> exists j :: 1 <= j < |fs| && fs[j].name == fs[0].name
  {
    if Claims(id, fs[1..], FnKey(id, fs[0].name)) {
      var f :| f in fs[1..] && FnKey(id, f.name) == FnKey(id, fs[0].name);
      assert f.name == FnKey(id, f.name)[|id| + 1..];
      assert fs[0].name == FnKey(id, fs[0].name)[|id| + 1..];
      var j :| 0 <= j < |fs[1..]| && fs[1..][j] == f;
      assert fs[j + 1].name == fs[0].name;
    }
    if j :| 1 <= j < |fs| && fs[j].name == fs[0].name {
      assert fs[1..][j - 1] == fs[j];
      assert fs[j] in fs[1..];
    }
  }

  // ---- registration ----

  lemma {:induction false} AddIsPut(fns: map<string, FnEntry>, p: Plugin, fs: seq<Func>)
    ensures AddFns(fns, p, fs).1.None? ==>
              AddFns(fns, p, fs).0 == PutFns(fns, p, fs) && forall f :: f in fs ==> FnKey(p.meta.id, f.name) !in fns
    decreases |fs|
  {
    if fs == [] || FnKey(p.meta.id, fs[0].name) in fns {
    } else {
      AddIsPut(fns[FnKey(p.meta.id, fs[0].name) := FnEntry(p.meta.id, fs[0].spec, p.handle)], p, fs[1..]);
      assert forall f :: f in fs <==> f == fs[0] || f in fs[1..];
    }
  }

  /** A name is refused exactly when it repeats or was there before. */
  lemma {:induction false} AddSucceeds(fns: map<string, FnEntry>, p: Plugin, fs: seq<Func>)
    requires forall f :: f in fs ==> FnKey(p.meta.id, f.name) !in fns
    ensures AddFns(fns, p, fs).1.None? <==> DistinctNames(fs)
    decreases |fs|
  {
    if fs == [] {
    } else {
      var id := p.meta.id;
      var key := FnKey(id, fs[0].name);
      assert fs[0] in fs && key !in fns;
      SameKeySameName(id, fs);
      if Claims(id, fs[1..], key) {
        AddClashes(fns[key := FnEntry(id, fs[0].spec, p.handle)], p, fs[1..], key);
      } else {
        forall f | f in fs[1..]
          ensures FnKey(id, f.name) !in fns[key := FnEntry(id, fs[0].spec, p.handle)]
        {
          assert f in fs;
        }
        AddSucceeds(fns[key := FnEntry(id, fs[0].spec, p.handle)], p, fs[1..]);
        DistinctSteps(fs);
      }
    }
  }

  lemma DistinctSteps(fs: seq<Func>)
    requires fs != [] && !exists j :: 1 <= j < |fs| && fs[j].name == fs[0].name
    ensures DistinctNames(fs) <==> DistinctNames(fs[1..])
  {
    if DistinctNames(fs[1..]) {
      forall i, j | 0 <= i < j < |fs|
        ensures fs[i].name != fs[j].name
      {
        if i > 0 {
          assert fs[1..][i - 1].name != fs[1..][j - 1].name;
        }
      }
    }
    if DistinctNames(fs) {
      forall i, j | 0 <= i < j < |fs[1..]|
        ensures fs[1..][i].name != fs[1..][j].name
      {
        assert fs[i + 1].name != fs[j + 1].name;
      }
    }
  }

  lemma {:induction false} AddClashes(fns: map<string, FnEntry>, p: Plugin, fs: seq<Func>, key: string)
    requires key in fns && Claims(p.meta.id, fs, key)
    ensures AddFns(fns, p, fs).1.Some?
    decreases |fs|
  {
    if FnKey(p.meta.id, fs[0].name) !in fns {
      assert forall f :: f in fs <==> f == fs[0] || f in fs[1..];
      AddClashes(fns[FnKey(p.meta.id, fs[0].name) := FnEntry(p.meta.id, fs[0].spec, p.handle)], p, fs[1..], key);
    }
  }

  /** A free id has no key in an exact catalogue. */
  lemma FreshKeysAreFree(s: State, p: Plugin, name: string)
    requires Tables(s) && Exact(s) && p.meta.id !in s.plugins && '.' !in name
    ensures FnKey(p.meta.id, name) !in s.fns
  {
    var k := FnKey(p.meta.id, name);
    if k in s.fns {
      assert Listed(s.fns, k, s.fns[k]);
      var id :| id in s.plugins && Declares(s.plugins[id], k, s.fns[k]);
      var q := s.plugins[id];
      var i :| DeclaredAt(q.meta.id, q.handle, q.meta.functions, i, k, s.fns[k]);
      assert q.meta.functions[i] in s.meta[id].functions;
      assert GoodFunc(q.meta.functions[i]);
      KeyInjective(p.meta.id, name, id, q.meta.functions[i].name);
    }
  }

  lemma OwnerIsRegistered(s: State, k: string, e: FnEntry)
    requires Tables(s) && SomeoneDeclares(s.plugins, k, e)
    ensures e.owner in s.plugins && Declares(s.plugins[e.owner], k, e)
  {
    hide StaticOk;
    var id :| id in s.plugins && Declares(s.plugins[id], k, e);
    var q := s.plugins[id];
    var i :| DeclaredAt(q.meta.id, q.handle, q.meta.functions, i, k, e);
    assert q.meta.id == id;
  }

  /** The entries after p joined: its own and everybody else's. */
  lemma JoinedCatalogue(s: State, r: State, p: Plugin)
    requires Exact(s) && p.meta.id !in s.plugins && r.plugins == s.plugins[p.meta.id := p]
    requires p.callable ==> r.fns == PutFns(s.fns, p, p.meta.functions) &&
                            forall f :: f in p.meta.functions ==> FnKey(p.meta.id, f.name) !in s.fns
    requires !p.callable ==> r.fns == s.fns
    ensures Exact(r)
  {
    forall k, e
      ensures Listed(r.fns, k, e) <==> SomeoneDeclares(r.plugins, k, e)
    {
      PutMeaning(s.fns, p, p.meta.functions, k, e);
      JoinedDeclares(s.plugins, p, k, e);
      assert Listed(s.fns, k, e) <==> SomeoneDeclares(s.plugins, k, e);
      if p.callable && Listed(s.fns, k, e) {
        assert !Claims(p.meta.id, p.meta.functions, k);
      }
    }
  }

  lemma JoinedDeclares(plugins: map<string, Plugin>, p: Plugin, k: string, e: FnEntry)
    requires p.meta.id !in plugins
    ensures SomeoneDeclares(plugins[p.meta.id := p], k, e) <==> SomeoneDeclares(plugins, k, e) || Declares(p, k, e)
  {
    hide Declares;
    var bigger := plugins[p.meta.id := p];
    assert forall id :: id in plugins ==> id in bigger && bigger[id] == plugins[id];
    assert p.meta.id in bigger && bigger[p.meta.id] == p;
  }

  lemma {:induction false} AddKeeps(fns: map<string, FnEntry>, p: Plugin, fs: seq<Func>, k: string, e: FnEntry)
    requires Listed(fns, k, e)
    ensures Listed(AddFns(fns, p, fs).0, k, e)
    decreases |fs|
  {
    if fs != [] && FnKey(p.meta.id, fs[0].name) !in fns {
      AddKeeps(fns[FnKey(p.meta.id, fs[0].name) := FnEntry(p.meta.id, fs[0].spec, p.handle)], p, fs[1..], k, e);
    }
  }

  /** The manifest passes every check of an unregistered id but declares a function twice. */
  predicate Repeats(env: Env, s: State, p: Plugin) {
    p.meta.id !in s.plugins && Acceptable(env, s.meta, p.meta) && !NamedOnce(p)
  }

  /** What admission does to an exact catalogue: a repeated name is the only conflict there is, and it
      leaves an entry of an unregistered plugin behind. */
  lemma AdmitCatalogue(env: Env, s: State, p: Plugin)
    requires Tables(s) && Exact(s)
    ensures Exact(Admit(env, s, p).0) <==> !Repeats(env, s, p)
    ensures (Admit(env, s, p).1.Some? && Admit(env, s, p).1.value.FunctionConflict?) <==> Repeats(env, s, p)
    ensures p.meta.id !in s.plugins && Acceptable(env, s.meta, p.meta) && NamedOnce(p) ==> Admit(env, s, p).1.None?
  {
    hide Exact, DepsMet, SlotOk, NamedOnce;
    var (r, err) := Admit(env, s, p);
    ConflictsComeLast(env, s, p);
    if p.meta.id in s.plugins || !Acceptable(env, s.meta, p.meta) {
      SameExact(s, r);
    } else {
      assert forall f :: f in p.meta.functions ==> GoodFunc(f);
      hide StaticOk, Admit;
      AdmitAcceptable(env, s, p);
    }
  }

  lemma SameExact(s: State, r: State)
    requires r.fns == s.fns && r.plugins == s.plugins
    ensures Exact(r) <==> Exact(s)
  {
  }

  lemma ConflictsComeLast(env: Env, s: State, p: Plugin)
    ensures p.meta.id in s.plugins || !Acceptable(env, s.meta, p.meta) ==>
              Admit(env, s, p).0.fns == s.fns && Admit(env, s, p).0.plugins == s.plugins &&
              Admit(env, s, p).1.Some? && !Admit(env, s, p).1.value.FunctionConflict?
  {
    hide StaticOk, DepsMet, SlotOk;
  }

  lemma AdmitAcceptable(env: Env, s: State, p: Plugin)
    requires Tables(s) && Exact(s) && p.meta.id !in s.plugins && Acceptable(env, s.meta, p.meta)
    requires forall f :: f in p.meta.functions ==> GoodFunc(f)
    ensures Exact(Admit(env, s, p).0) <==> NamedOnce(p)
    ensures Admit(env, s, p).1.None? <==> NamedOnce(p)
    ensures Admit(env, s, p).1.Some? ==> Admit(env, s, p).1.value.FunctionConflict?
  {
    forall f | f in p.meta.functions
      ensures FnKey(p.meta.id, f.name) !in s.fns
    {
      FreshKeysAreFree(s, p, f.name);
    }
    hide StaticOk, DepsMet, SlotOk, Exact, GoodFunc;
    var fs := p.meta.functions;
    var (r, err) := Admit(env, s, p);
    AddSucceeds(s.fns, p, fs);
    AddIsPut(s.fns, p, fs);
    AddErrors(s.fns, p, fs);
    AdmitOutcome(env, s, p);
    assert DropPending(s, p.meta.id).fns == s.fns;
    if err.None? {
      hide AddFns, PutFns, Admit;
      JoinedCatalogue(s, r, p);
    } else {
      StaleEntry(s, r, p);
    }
  }

  lemma {:induction false} AddErrors(fns: map<string, FnEntry>, p: Plugin, fs: seq<Func>)
    ensures AddFns(fns, p, fs).1.Some? ==> AddFns(fns, p, fs).1.value.FunctionConflict?
    decreases |fs|
  {
    if fs != [] && FnKey(p.meta.id, fs[0].name) !in fns {
      AddErrors(fns[FnKey(p.meta.id, fs[0].name) := FnEntry(p.meta.id, fs[0].spec, p.handle)], p, fs[1..]);
    }
  }

  lemma StaleEntry(s: State, r: State, p: Plugin)
    requires Tables(s) && p.meta.id !in s.plugins && r.plugins == s.plugins && r.meta == s.meta && r.order == s.order && r.nextSeq == s.nextSeq
    requires p.meta.functions != [] && FnKey(p.meta.id, p.meta.functions[0].name) !in s.fns
    requires r.fns == AddFns(s.fns, p, p.meta.functions).0
    ensures !Exact(r)
  {
    hide StaticOk;
    var f := p.meta.functions[0];
    var k, e := FnKey(p.meta.id, f.name), FnEntry(p.meta.id, f.spec, p.handle);
    AddKeeps(s.fns[k := e], p, p.meta.functions[1..], k, e);
    assert Listed(r.fns, k, e);
    if SomeoneDeclares(r.plugins, k, e) {
      OwnerIsRegistered(r, k, e);
    }
  }

  /** A manifest with two functions "f" on an empty host: refused, and the first "a.f" stays in the catalogue. */
  lemma RepeatedNameLeavesEntry(env: Env, s: State)
    requires s == State(map[], map[], map[], map[], 0, [], map[])
    ensures var p := Plugin(1, Meta("a", "1", "", [Func("f", 0), Func("f", 1)], [], 0), true);
      && Enroll(env, s, p) == (s.(fns := map["a.f" := FnEntry("a", 0, 1)]), Some(FunctionConflict("f")))
      && Repeats(env, s, p)
  {
    var fs := [Func("f", 0), Func("f", 1)];
    var p := Plugin(1, Meta("a", "1", "", fs, [], 0), true);
    assert FnKey("a", "f") == "a.f";
    assert fs[1..] == [Func("f", 1)] && fs[0].name == fs[1].name;
    assert AddFns(map[], p, fs) == AddFns(map["a.f" := FnEntry("a", 0, 1)], p, fs[1..]);
    assert forall f :: f in fs ==> GoodFunc(f);
    assert FirstBadFunc(fs).None?;
  }
}
