// What Register, RegisterLazy and Replace answer, told by the manifest and the tables: when they accept, which error
// they give otherwise, and what a plugin put into the queue changes.
module Admission {
  import opened Text
  import opened Manifest
  import opened Registry
  import opened Loading
  import opened Catalogue
  import opened LazyLoading
  import opened Replacement
  import Version

  // ---- acceptance ----

  /** Every character is above the space. */
  predicate Printed(s: string) {
    forall i :: 0 <= i < |s| ==> s[i] > ' '
  }

  predicate Undotted(s: string) {
    forall i :: 0 <= i < |s| ==> s[i] != '.'
  }

  /** The slot is built in or a registered plugin occupies it. */
  ghost predicate Filled(env: Env, book: Book, slot: string) {
    (slot in env.slots && env.slots[slot].builtin) || exists id :: id in book && book[id].slot == slot
  }

  /** An init dependency has its slot filled or, without a slot, its plugin registered and recent enough. */
  ghost predicate InPlace(env: Env, book: Book, d: Dependency) {
    && (d.kind == Init && d.slot != "" ==> Filled(env, book, d.slot))
    && (d.kind == Init && d.slot == "" ==> d.plugin in book)
    && (d.kind == Init && d.slot == "" && d.plugin in book && d.minVersion != "" ==>
          Version.AtLeast(book[d.plugin].version, d.minVersion))
  }

  /** The slot of the manifest is known, the static axes hold and the slots it needs are filled. */
  ghost predicate Fits(env: Env, book: Book, m: Meta) {
    m.slot in env.slots && env.axesMet(m) && forall n :: n in env.slots[m.slot].needs ==> Filled(env, book, n)
  }

  /** What the host asks of a manifest. */
  ghost predicate Welcome(env: Env, book: Book, m: Meta) {
    && Printed(m.id)
    && (forall i :: 0 <= i < |m.functions| ==>
          m.functions[i].name != "" && Printed(m.functions[i].name) && Undotted(m.functions[i].name))
    && (forall i :: 0 <= i < |m.deps| ==> m.deps[i].plugin != "" || m.deps[i].slot != "")
    && (forall i :: 0 <= i < |m.deps| ==> InPlace(env, book, m.deps[i]))
    && (m.slot != "" ==> Fits(env, book, m))
  }

  lemma PrintedIsGood(s: string)
    ensures Printed(s) <==> !BadChars(s)
  {
    forall i | 0 <= i < |s|
      ensures s[i] in s
    {
    }
  }

  lemma NameIsGood(f: Func)
    ensures GoodFunc(f) <==> f.name != "" && Printed(f.name) && Undotted(f.name)
  {
    PrintedIsGood(f.name);
    hide Printed, BadChars;
    assert forall i :: 0 <= i < |f.name| ==> f.name[i] in f.name;
  }

  lemma FilledIsMet(env: Env, book: Book, slot: string)
    ensures Filled(env, book, slot) <==> SlotMet(env, book, slot)
  {
  }

  lemma InPlaceIsMet(env: Env, book: Book, d: Dependency)
    ensures InPlace(env, book, d) <==> DepMet(env, book, d)
  {
    hide Filled, SlotMet, Version.AtLeast;
    FilledIsMet(env, book, d.slot);
  }

  lemma FitsIsOk(env: Env, book: Book, m: Meta)
    ensures m.slot == "" || Fits(env, book, m) <==> SlotOk(env, book, m)
  {
    hide Filled, SlotMet;
    if m.slot in env.slots {
      forall n | n in env.slots[m.slot].needs
        ensures Filled(env, book, n) <==> SlotMet(env, book, n)
      {
        FilledIsMet(env, book, n);
      }
    }
  }

  lemma WelcomeIsStatic(m: Meta)
    ensures StaticOk(m) <==>
      && Printed(m.id)
      && (forall i :: 0 <= i < |m.functions| ==>
            m.functions[i].name != "" && Printed(m.functions[i].name) && Undotted(m.functions[i].name))
      && (forall i :: 0 <= i < |m.deps| ==> m.deps[i].plugin != "" || m.deps[i].slot != "")
  {
    PrintedIsGood(m.id);
    forall i | 0 <= i < |m.functions|
      ensures GoodFunc(m.functions[i]) <==>
              m.functions[i].name != "" && Printed(m.functions[i].name) && Undotted(m.functions[i].name)
    {
      NameIsGood(m.functions[i]);
    }
    hide Printed, Undotted, BadChars, GoodFunc;
    assert forall i :: 0 <= i < |m.functions| ==> m.functions[i] in m.functions;
    assert forall i :: 0 <= i < |m.deps| ==> m.deps[i] in m.deps;
  }

  lemma PlacesAreMet(env: Env, book: Book, m: Meta)
    ensures DepsMet(env, book, m) <==> forall i :: 0 <= i < |m.deps| ==> InPlace(env, book, m.deps[i])
  {
    forall i | 0 <= i < |m.deps|
      ensures InPlace(env, book, m.deps[i]) <==> DepMet(env, book, m.deps[i])
    {
      InPlaceIsMet(env, book, m.deps[i]);
    }
    hide InPlace, DepMet;
    assert forall i :: 0 <= i < |m.deps| ==> m.deps[i] in m.deps;
  }

  lemma WelcomeIsAcceptable(env: Env, book: Book, m: Meta)
    ensures Welcome(env, book, m) <==> Acceptable(env, book, m)
  {
    WelcomeIsStatic(m);
    PlacesAreMet(env, book, m);
    FitsIsOk(env, book, m);
    hide Printed, Undotted, InPlace, Fits, DepsMet, StaticOk, SlotOk;
  }

  /** Register and Replace accept exactly the manifests welcome, for a free and for a registered id; Register also
      insists that no function name is repeated. A refused one leaves the registered plugins as they were. */
  lemma AcceptedIff(env: Env, s: State, p: Plugin)
    requires Valid(env, s) && Exact(s)
    ensures Enroll(env, s, p).1.None? <==>
            p.meta.id != "" && p.meta.id !in s.plugins && Welcome(env, s.meta, p.meta) && NamedOnce(p)
    ensures Exchange(env, s, p).1.None? <==> p.meta.id in s.plugins && Welcome(env, s.meta, p.meta)
    ensures Enroll(env, s, p).1.Some? ==> Enroll(env, s, p).0.plugins == s.plugins && Enroll(env, s, p).0.meta == s.meta
    ensures Exchange(env, s, p).1.Some? ==> Exchange(env, s, p).0 == s
  {
    WelcomeIsAcceptable(env, s.meta, p.meta);
    ExchangeKeeps(env, s, p);
    EnrollKeeps(env, s, p);
    hide Tables, Queue, Apart, Quiet, Sound, Exact, Enroll, Exchange, Welcome, Acceptable, NamedOnce, Later;
    RegisterIff(env, s, p);
  }

  lemma TablesShow(s: State, id: string)
    requires Tables(s)
    ensures id in s.plugins <==> id in s.meta
  {
  }

  lemma RegisterIff(env: Env, s: State, p: Plugin)
    requires Core(s) && Exact(s)
    ensures Enroll(env, s, p).1.None? <==>
            p.meta.id != "" && p.meta.id !in s.plugins && Acceptable(env, s.meta, p.meta) && NamedOnce(p)
  {
    if p.meta.id != "" {
      AdmitOutcome(env, s, p);
      AdmitCatalogue(env, s, p);
      EnrollUnfolds(env, s, p);
      TablesShow(s, p.meta.id);
      hide Tables, Queue, Apart, Exact, Admit, Retry, Enroll, Acceptable, NamedOnce;
    }
  }

  // ---- refusals ----

  /** The t-th function is the first with a bad name. */
  ghost predicate FirstBadAt(fs: seq<Func>, t: nat) {
    t < |fs| && !GoodFunc(fs[t]) && forall u :: 0 <= u < t ==> GoodFunc(fs[u])
  }

  /** The t-th dependency is the first that is not met. */
  ghost predicate FirstOpenAt(env: Env, book: Book, ds: seq<Dependency>, t: nat) {
    t < |ds| && !DepMet(env, book, ds[t]) && forall u :: 0 <= u < t ==> DepMet(env, book, ds[u])
  }

  ghost predicate GoodNames(m: Meta) {
    forall i :: 0 <= i < |m.functions| ==> GoodFunc(m.functions[i])
  }

  ghost predicate AllNamed(m: Meta) {
    forall i :: 0 <= i < |m.deps| ==> m.deps[i].plugin != "" || m.deps[i].slot != ""
  }

  /** The checks are made in this order and the error tells the first that fails, with the first culprit. */
  ghost predicate Explains(env: Env, book: Book, m: Meta, e: Error) {
    match e
    case BadId => !Printed(m.id)
    case BadFunction(n) =>
      Printed(m.id) && exists t: nat :: FirstBadAt(m.functions, t) && m.functions[t].name == n
    case EmptyDependency => Printed(m.id) && GoodNames(m) && !AllNamed(m)
    case InitUnmet(d) =>
      && Printed(m.id) && GoodNames(m) && AllNamed(m)
      && exists t: nat :: FirstOpenAt(env, book, m.deps, t) && m.deps[t] == d
    case UnknownSlot =>
      Printed(m.id) && GoodNames(m) && AllNamed(m) && DepsMet(env, book, m) && m.slot != "" && m.slot !in env.slots
    case SlotContractUnmet =>
      && Printed(m.id) && GoodNames(m) && AllNamed(m) && DepsMet(env, book, m)
      && m.slot != "" && m.slot in env.slots && !Fits(env, book, m)
    case _ => false
  }

  lemma {:induction false} FirstBadFuncIsFirst(fs: seq<Func>) returns (t: nat)
    requires FirstBadFunc(fs).Some?
    ensures FirstBadAt(fs, t) && fs[t] == FirstBadFunc(fs).value
  {
    hide GoodFunc;
    if !GoodFunc(fs[0]) {
      t := 0;
    } else {
      t := FirstBadFuncIsFirst(fs[1..]);
      assert forall u :: 0 < u < |fs| ==> fs[u] == fs[1..][u - 1];
      t := t + 1;
    }
  }

  lemma {:induction false} FirstUnmetIsFirst(env: Env, book: Book, ds: seq<Dependency>) returns (t: nat)
    requires FirstUnmet(env, book, ds).Some?
    ensures FirstOpenAt(env, book, ds, t) && ds[t] == FirstUnmet(env, book, ds).value
  {
    hide DepMet;
    if !DepMet(env, book, ds[0]) {
      t := 0;
    } else {
      t := FirstUnmetIsFirst(env, book, ds[1..]);
      assert forall u :: 0 < u < |ds| ==> ds[u] == ds[1..][u - 1];
      t := t + 1;
    }
  }

  lemma NamesAreNamed(m: Meta)
    ensures AllNamed(m) <==> !exists d :: d in m.deps && NamesNothing(d)
    ensures GoodNames(m) <==> FirstBadFunc(m.functions).None?
  {
    hide GoodFunc, FirstBadFunc;
    assert forall i :: 0 <= i < |m.deps| ==> m.deps[i] in m.deps;
    assert forall i :: 0 <= i < |m.functions| ==> m.functions[i] in m.functions;
  }

  /** An error of the manifest checks explains itself. */
  lemma RefusalIsExplained(env: Env, book: Book, m: Meta)
    requires Validate(env, book, m).Some?
    ensures Explains(env, book, m, Validate(env, book, m).value)
  {
    PrintedIsGood(m.id);
    NamesAreNamed(m);
    FitsIsOk(env, book, m);
    hide BadChars, Printed, FirstBadFunc, FirstUnmet, GoodNames, AllNamed, NamesNothing, DepMet, GoodFunc, Fits, SlotContractMet;
    if FirstBadFunc(m.functions).Some? {
      var t := FirstBadFuncIsFirst(m.functions);
    }
    if FirstUnmet(env, book, m.deps).Some? {
      var t := FirstUnmetIsFirst(env, book, m.deps);
    }
    hide FirstBadAt, FirstOpenAt;
  }

  /** And so does an error of Register: an empty id, a registered id, the manifest, or a repeated function name. */
  lemma RegisterErrorIsExplained(env: Env, s: State, p: Plugin)
    requires Core(s) && Exact(s) && Enroll(env, s, p).1.Some?
    ensures var e := Enroll(env, s, p).1.value;
      if p.meta.id == "" then e == EmptyId
      else if p.meta.id in s.plugins then e == DuplicateId
      else if !Acceptable(env, s.meta, p.meta) then Explains(env, s.meta, p.meta, e)
      else e.FunctionConflict? && !NamedOnce(p)
  {
    if p.meta.id != "" {
      RegisterIff(env, s, p);
      EnrollUnfolds(env, s, p);
      AdmitCatalogue(env, s, p);
      AdmitError(env, s, p);
      hide Tables, Queue, Apart, Exact, Admit, Retry, Enroll, Acceptable, NamedOnce, Explains, Validate;
      if p.meta.id !in s.plugins && !Acceptable(env, s.meta, p.meta) {
        RefusalIsExplained(env, s.meta, p.meta);
      }
    }
  }

  lemma AdmitError(env: Env, s: State, p: Plugin)
    ensures p.meta.id in s.plugins ==> Admit(env, s, p).1 == Some(DuplicateId)
    ensures p.meta.id !in s.plugins && !Acceptable(env, s.meta, p.meta) ==>
            Validate(env, s.meta, p.meta).Some? && Admit(env, s, p).1 == Validate(env, s.meta, p.meta)
  {
    hide Validate, Acceptable, AddFns, Without;
  }

  // ---- RegisterLazy ----

  /** A plugin with an unmet dependency is queued, without an error: a new id at the end, an id already waiting where
      it stands, with the new plugin in the table; nothing else changes. */
  lemma LackingIsQueued(env: Env, s: State, p: Plugin)
    requires Queue(s) && p.meta.id != "" && p.meta.id !in s.plugins
    requires exists i :: 0 <= i < |p.meta.deps| && !InPlace(env, s.meta, p.meta.deps[i])
    ensures var id, (r, status, err) := p.meta.id, EnrollLazy(env, s, p);
      && err == None && status == Pending
      && r.waiting == s.waiting[id := p]
      && r.pending == (if id in s.pending then s.pending else s.pending + [id])
      && r.plugins == s.plugins && r.meta == s.meta && r.fns == s.fns && r.order == s.order && r.nextSeq == s.nextSeq
  {
    assert p.meta.id in s.pending <==> p.meta.id in s.waiting;
    PlacesAreMet(env, s.meta, p.meta);
    hide InPlace, DepsMet, Enroll, Queue;
  }

  /** With all dependencies met RegisterLazy is Register. */
  lemma MetIsRegistered(env: Env, s: State, p: Plugin)
    requires Queue(s) && p.meta.id != "" && p.meta.id !in s.plugins
    requires forall i :: 0 <= i < |p.meta.deps| ==> InPlace(env, s.meta, p.meta.deps[i])
    ensures EnrollLazy(env, s, p) == (Enroll(env, s, p).0, Registered, Enroll(env, s, p).1)
  {
    PlacesAreMet(env, s.meta, p.meta);
    hide InPlace, DepsMet, Enroll, Queue;
  }

  /** RegisterLazy fails exactly for an empty id, for a registered id, and for a plugin with all dependencies met that
      Register refuses; then nothing is registered. */
  lemma LazyFailsIff(env: Env, s: State, p: Plugin)
    requires Valid(env, s) && Exact(s)
    ensures EnrollLazy(env, s, p).2.Some? <==>
      || p.meta.id == "" || p.meta.id in s.plugins
      || ((forall i :: 0 <= i < |p.meta.deps| ==> InPlace(env, s.meta, p.meta.deps[i])) &&
          !(Welcome(env, s.meta, p.meta) && NamedOnce(p)))
    ensures EnrollLazy(env, s, p).2.Some? ==>
      EnrollLazy(env, s, p).1 == Registered && EnrollLazy(env, s, p).0.plugins == s.plugins && EnrollLazy(env, s, p).0.meta == s.meta
    ensures EnrollLazy(env, s, p).2.Some? ==>
      EnrollLazy(env, s, p).2 == if p.meta.id == "" then Some(EmptyId) else if p.meta.id in s.plugins then Some(DuplicateId) else Enroll(env, s, p).1
  {
    PlacesAreMet(env, s.meta, p.meta);
    AcceptedIff(env, s, p);
    hide InPlace, DepsMet, Enroll, Queue, Tables, Apart, Quiet, Exact, Welcome, NamedOnce, Deferred;
  }

  /** A plugin with no dependency at all that RegisterLazy refuses, although its id is neither empty nor registered. */
  lemma LazyRefusesBadId(env: Env, s: State)
    requires Queue(s) && "a b" !in s.plugins
    ensures EnrollLazy(env, s, Plugin(1, Meta("a b", "1", "", [], [], 0), false)).2 == Some(BadId)
  {
    var p := Plugin(1, Meta("a b", "1", "", [], [], 0), false);
    var id := "a b";
    assert id[1] == ' ' && id[1] in id && p.meta.id == id;
    assert BadChars(id);
    EnrollUnfolds(env, s, p);
    hide Queue, Without, Enroll, Retry, AddFns;
  }
}
