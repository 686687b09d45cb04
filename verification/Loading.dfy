// What every registration keeps: the tables, the quiet queue, soundness of the dependencies, and
// that lazy loading brings in exactly the least set of waiting plugins that must come in.
module Loading {
  import opened Text
  import opened Manifest
  import opened Registry

  ghost predicate Core(s: State) {
    Tables(s) && Queue(s) && Apart(s)
  }

  /** From a to b plugins were only added and waiting plugins only taken out. */
  ghost predicate Later(a: State, b: State) {
    && Grows(a.meta, b.meta)
    && (forall id :: id in a.plugins ==> id in b.plugins && b.plugins[id] == a.plugins[id])
    && (forall id :: id in b.waiting ==> id in a.waiting && b.waiting[id] == a.waiting[id])
  }

  lemma LaterRefl(a: State)
    ensures Later(a, a)
  {
  }

  lemma LaterGrows(a: State, b: State)
    requires Later(a, b)
    ensures Grows(a.meta, b.meta)
  {
  }

  lemma LaterTrans(a: State, b: State, c: State)
    requires Later(a, b) && Later(b, c)
    ensures Later(a, c)
  {
  }

  lemma LaterStillQuiet(env: Env, a: State, b: State)
    requires b.meta == a.meta && Later(a, b) && Quiet(env, a)
    ensures Quiet(env, b)
  {
  }

  lemma AdmitOutcome(env: Env, s: State, p: Plugin)
    requires Tables(s)
    ensures var (r, err) := Admit(env, s, p);
            && (err.Some? ==> r.plugins == s.plugins && r.meta == s.meta && r.order == s.order && r.nextSeq == s.nextSeq)
            && (err.None? ==> r.plugins == s.plugins[p.meta.id := p] && r.meta == s.meta[p.meta.id := p.meta]
                              && r.nextSeq == s.nextSeq + 1 && r.order == s.order[p.meta.id := s.nextSeq + 1])
            && (err.None? ==> p.meta.id !in s.meta && Acceptable(env, s.meta, p.meta))
            && (p.meta.id !in s.meta ==> r.pending == DropPending(s, p.meta.id).pending)
            && r.waiting == if p.meta.id in s.meta then s.waiting else s.waiting - {p.meta.id}
  {
    hide StaticOk, DepsMet, SlotOk, Validate, AddFns, Without;
    assert p.meta.id !in s.waiting ==> s.waiting - {p.meta.id} == s.waiting;
  }

  lemma TablesAfterAdd(s: State, r: State, p: Plugin)
    requires Tables(s) && p.meta.id !in s.meta && p.meta.id != "" && StaticOk(p.meta)
    requires r.plugins == s.plugins[p.meta.id := p] && r.meta == s.meta[p.meta.id := p.meta]
    requires r.nextSeq == s.nextSeq + 1 && r.order == s.order[p.meta.id := s.nextSeq + 1]
    ensures Tables(r)
  {
    NumberedNext(s.order, s.nextSeq, p.meta.id);
    DescribedNext(s.plugins, s.meta, p);
    hide StaticOk, Numbered, Described;
  }

  lemma DescribedNext(plugins: map<string, Plugin>, meta: Book, p: Plugin)
    requires Described(plugins, meta) && p.meta.id != "" && StaticOk(p.meta)
    ensures Described(plugins[p.meta.id := p], meta[p.meta.id := p.meta])
  {
    hide StaticOk;
  }

  lemma NumberedNext(order: map<string, nat>, next: nat, id: string)
    requires Numbered(order, next) && id !in order
    ensures Numbered(order[id := next + 1], next + 1)
  {
  }

  lemma FrameAfterAdmit(s: State, r: State, p: Plugin)
    requires s.plugins.Keys == s.meta.Keys && Apart(s)
    requires (r.plugins == s.plugins && r.meta == s.meta) ||
             (p.meta.id !in s.meta && r.plugins == s.plugins[p.meta.id := p] && r.meta == s.meta[p.meta.id := p.meta])
    requires r.waiting == if p.meta.id in s.meta then s.waiting else s.waiting - {p.meta.id}
    ensures Apart(r) && Later(s, r) && p.meta.id !in r.waiting
  {
  }

  lemma AdmitFrame(env: Env, s: State, p: Plugin)
    requires Tables(s) && Apart(s)
    ensures var r := Admit(env, s, p).0;
            Apart(r) && Later(s, r) && p.meta.id !in r.waiting
  {
    AdmitOutcome(env, s, p);
    assert s.plugins.Keys == s.meta.Keys;
    hide Tables, Apart, Later, Admit, StaticOk, DepsMet, SlotOk;
    FrameAfterAdmit(s, Admit(env, s, p).0, p);
  }

  lemma AdmitKeeps(env: Env, s: State, p: Plugin)
    requires Core(s) && p.meta.id != ""
    ensures Core(Admit(env, s, p).0)
  {
    AdmitOutcome(env, s, p);
    AdmitKeepsQueue(env, s, p);
    AdmitFrame(env, s, p);
    var (r, err) := Admit(env, s, p);
    hide Admit, Queue, Apart, StaticOk, DepsMet, SlotOk;
    if err.None? {
      TablesAfterAdd(s, r, p);
    }
  }

  lemma EnrollUnfolds(env: Env, s: State, p: Plugin)
    requires Queue(s) && p.meta.id != ""
    ensures var (s1, err) := Admit(env, s, p);
            Queue(s1) && |s1.pending| <= |s.pending| &&
            Enroll(env, s, p) == if err.Some? then (s1, err) else (Retry(env, s1), None)
  {
    hide Admit, Queue, Retry;
    AdmitKeepsQueue(env, s, p);
  }

  lemma AddedStaysSound(env: Env, book: Book, m: Meta)
    requires Sound(env, book) && DepsMet(env, book, m) && m.id !in book
    ensures Sound(env, book[m.id := m])
  {
    var bigger := book[m.id := m];
    forall id | id in bigger
      ensures DepsMet(env, bigger, bigger[id])
    {
      MoreAreMet(env, book, bigger, bigger[id]);
    }
  }

  // ---- the invariants through the recursion ----

  ghost predicate EnrollFacts(env: Env, s: State, p: Plugin, r: State, err: Option<Error>) {
    && Core(r) && Later(s, r)
    && (err.None? || Quiet(env, s) ==> Quiet(env, r))
    && (Sound(env, s.meta) ==> Sound(env, r.meta))
    && (err.None? ==> p.meta.id !in s.meta && p.meta.id in r.plugins && r.plugins[p.meta.id] == p)
    && (err.Some? ==> r.plugins == s.plugins && r.meta == s.meta)
    && p.meta.id !in r.waiting
  }

  lemma {:induction false} EnrollKeeps(env: Env, s: State, p: Plugin)
    requires Core(s)
    ensures EnrollFacts(env, s, p, Enroll(env, s, p).0, Enroll(env, s, p).1)
    decreases |s.pending| + 1, 0
  {
    if p.meta.id == "" {
      LaterRefl(s);
      assert "" !in s.waiting;
      hide Core, Later, Quiet, Sound;
    } else {
      AdmitOutcome(env, s, p);
      AdmitFrame(env, s, p);
      AdmitKeeps(env, s, p);
      EnrollUnfolds(env, s, p);
      var (s1, err) := Admit(env, s, p);
      assert Apart(s1) && Apart(s);
      hide Tables, Queue, Apart, Later, Sound, Admit, Retry, Enroll, StaticOk, DepsMet, SlotOk, Quiet;
      if err.None? {
        EnrollTail(env, s, p, s1);
      } else if Quiet(env, s) {
        LaterStillQuiet(env, s, s1);
      }
    }
  }

  lemma {:induction false} EnrollTail(env: Env, s: State, p: Plugin, s1: State)
    requires Core(s1) && Later(s, s1) && |s1.pending| <= |s.pending|
    requires s1.meta == s.meta[p.meta.id := p.meta] && p.meta.id !in s.meta && p.meta.id !in s1.waiting
    requires p.meta.id in s1.plugins && s1.plugins[p.meta.id] == p && DepsMet(env, s.meta, p.meta)
    ensures EnrollFacts(env, s, p, Retry(env, s1), None)
    decreases |s.pending| + 1, -1
  {
    hide Tables, Queue, Apart, Later, Sound, Quiet, DepsMet, Retry;
    if Sound(env, s.meta) {
      AddedStaysSound(env, s.meta, p.meta);
    }
    RetryKeeps(env, s1);
    LaterTrans(s, s1, Retry(env, s1));
    LaterShows(s1, Retry(env, s1), p.meta.id);
  }

  lemma LaterShows(a: State, b: State, id: string)
    requires Later(a, b)
    ensures id in a.plugins ==> id in b.plugins && b.plugins[id] == a.plugins[id]
    ensures id !in a.waiting ==> id !in b.waiting
  {
  }

  lemma ScannedFrame(env: Env, s: State)
    requires Queue(s) && Apart(s)
    ensures var r := Scanned(env, s);
            && Apart(r) && Later(s, r) && r.waiting.Keys <= s.waiting.Keys
            && r.meta == s.meta && (Tables(s) ==> Tables(r))
  {
    hide Queue, StaticOk, Kept, DepsMet;
  }

  lemma ScannedIsCore(env: Env, s: State)
    requires Core(s)
    ensures Core(Scanned(env, s)) && Later(s, Scanned(env, s)) && Scanned(env, s).meta == s.meta
    ensures Scanned(env, s).waiting.Keys <= s.waiting.Keys
  {
    ScannedKeepsQueue(env, s);
    ScannedFrame(env, s);
    hide Tables, Queue, Apart, Later, StaticOk, Kept, DepsMet, Scanned;
  }

  lemma {:induction false} RetryKeeps(env: Env, s: State)
    requires Core(s)
    ensures var r := Retry(env, s);
            Core(r) && Later(s, r) && Quiet(env, r) && (Sound(env, s.meta) ==> Sound(env, r.meta))
    decreases |s.pending|, 2
  {
    ScannedKeepsQueue(env, s);
    ScannedIsCore(env, s);
    hide Core, Later, Queue, Quiet, Sound, Scanned, Loadable, LoadAll;
    LoadAllKeeps(env, Scanned(env, s), Loadable(env, s));
    LaterTrans(s, Scanned(env, s), Retry(env, s));
  }

  lemma {:induction false} LoadAllKeeps(env: Env, s: State, ready: seq<Plugin>)
    requires Core(s) && Quiet(env, s)
    ensures var r := LoadAll(env, s, ready);
            Core(r) && Later(s, r) && Quiet(env, r) && (Sound(env, s.meta) ==> Sound(env, r.meta))
    decreases |s.pending| + |ready|, 1
  {
    hide Tables, Queue, Apart, Quiet, Sound, Enroll, Later;
    if ready == [] {
      assert Later(s, s) by { LaterRefl(s); }
    } else {
      EnrollKeeps(env, s, ready[0]);
      var s1 := Enroll(env, s, ready[0]).0;
      LoadAllKeeps(env, s1, ready[1..]);
      LaterTrans(s, s1, LoadAll(env, s, ready));
    }
  }

  // ---- nothing comes in that does not have to ----

  /** The book t holds every plugin of ps whose dependencies t meets. */
  ghost predicate Absorbs(env: Env, t: Book, waiting: map<string, Plugin>) {
    forall id :: id in waiting && DepsMet(env, t, waiting[id].meta) ==> id in t && t[id] == waiting[id].meta
  }

  lemma AbsorbsLater(env: Env, a: State, b: State, t: Book)
    requires Later(a, b) && Absorbs(env, t, a.waiting)
    ensures Absorbs(env, t, b.waiting)
  {
    hide DepsMet, Grows;
  }

  lemma AddGrows(book: Book, m: Meta, t: Book)
    requires Grows(book, t) && m.id in t && t[m.id] == m
    ensures Grows(book[m.id := m], t)
  {
  }

  lemma {:induction false} EnrollWithin(env: Env, s: State, p: Plugin, t: Book)
    requires Core(s) && Grows(s.meta, t) && Absorbs(env, t, s.waiting)
    requires p.meta.id in t && t[p.meta.id] == p.meta
    ensures Grows(Enroll(env, s, p).0.meta, t)
    decreases |s.pending| + 1, 0
  {
    if p.meta.id != "" {
      AdmitOutcome(env, s, p);
      AdmitFrame(env, s, p);
      AdmitKeeps(env, s, p);
      EnrollUnfolds(env, s, p);
      var (s1, err) := Admit(env, s, p);
      hide Tables, Queue, Apart, Later, Absorbs, Grows, Admit, Retry, Enroll, StaticOk, DepsMet, SlotOk;
      AbsorbsLater(env, s, s1, t);
      if err.None? {
        AddGrows(s.meta, p.meta, t);
        RetryWithin(env, s1, t);
      }
    }
  }

  lemma {:induction false} RetryWithin(env: Env, s: State, t: Book)
    requires Core(s) && Grows(s.meta, t) && Absorbs(env, t, s.waiting)
    ensures Grows(Retry(env, s).meta, t)
    decreases |s.pending|, 2
  {
    ScannedKeepsQueue(env, s);
    ScannedIsCore(env, s);
    hide Tables, Queue, Apart, Later, Quiet, DepsMet, Grows, Scanned, Loadable;
    AbsorbsLater(env, s, Scanned(env, s), t);
    var ready := Loadable(env, s);
    forall p | p in ready
      ensures p.meta.id in t && t[p.meta.id] == p.meta
    {
      MoreAreMet(env, s.meta, t, p.meta);
    }
    hide Absorbs;
    LoadAllWithin(env, Scanned(env, s), ready, t);
  }

  lemma {:induction false} LoadAllWithin(env: Env, s: State, ready: seq<Plugin>, t: Book)
    requires Core(s) && Quiet(env, s) && Grows(s.meta, t) && Absorbs(env, t, s.waiting)
    requires forall p :: p in ready ==> p.meta.id in t && t[p.meta.id] == p.meta
    ensures Grows(LoadAll(env, s, ready).meta, t)
    decreases |s.pending| + |ready|, 1
  {
    hide Tables, Queue, Apart, Quiet, Grows, Later, Absorbs, Enroll;
    if ready == [] {
    } else {
      assert ready[0] in ready;
      EnrollKeeps(env, s, ready[0]);
      var s1 := Enroll(env, s, ready[0]).0;
      AbsorbsLater(env, s, s1, t);
      EnrollWithin(env, s, ready[0], t);
      LoadAllWithin(env, s1, ready[1..], t);
    }
  }

  // ---- what may come in ----

  /** Every registered and every waiting plugin passes ok. */
  ghost predicate AllPass(s: State, ok: Meta -> bool) {
    (forall id :: id in s.meta ==> ok(s.meta[id])) && forall id :: id in s.waiting ==> ok(s.waiting[id].meta)
  }

  lemma AllPassLess(a: State, b: State, ok: Meta -> bool)
    requires AllPass(a, ok) && b.meta == a.meta && Later(a, b)
    ensures AllPass(b, ok)
  {
    hide Grows;
  }

  lemma AllPassAdd(a: State, b: State, p: Plugin, ok: Meta -> bool)
    requires AllPass(a, ok) && ok(p.meta) && b.meta == a.meta[p.meta.id := p.meta] && Later(a, b)
    ensures AllPass(b, ok)
  {
    hide Grows;
  }

  /** Nothing comes in but the plugin registered and plugins that waited. */
  lemma {:induction false} EnrollPasses(env: Env, s: State, p: Plugin, ok: Meta -> bool)
    requires Core(s) && AllPass(s, ok) && ok(p.meta)
    ensures AllPass(Enroll(env, s, p).0, ok)
    decreases |s.pending| + 1, 0
  {
    if p.meta.id != "" {
      AdmitOutcome(env, s, p);
      AdmitFrame(env, s, p);
      AdmitKeeps(env, s, p);
      EnrollUnfolds(env, s, p);
      hide Tables, Queue, Apart, Later, AllPass, Admit, Retry, Enroll, StaticOk, DepsMet, SlotOk;
      var (s1, err) := Admit(env, s, p);
      if err.None? {
        AllPassAdd(s, s1, p, ok);
        RetryPasses(env, s1, ok);
      } else {
        AllPassLess(s, s1, ok);
      }
    }
  }

  lemma {:induction false} RetryPasses(env: Env, s: State, ok: Meta -> bool)
    requires Core(s) && AllPass(s, ok)
    ensures AllPass(Retry(env, s), ok)
    decreases |s.pending|, 2
  {
    ScannedKeepsQueue(env, s);
    ScannedIsCore(env, s);
    hide Tables, Queue, Apart, Later, Quiet, DepsMet, Scanned, Loadable;
    assert forall p :: p in Loadable(env, s) ==> ok(p.meta);
    AllPassLess(s, Scanned(env, s), ok);
    hide AllPass;
    LoadAllPasses(env, Scanned(env, s), Loadable(env, s), ok);
  }

  lemma {:induction false} LoadAllPasses(env: Env, s: State, ready: seq<Plugin>, ok: Meta -> bool)
    requires Core(s) && Quiet(env, s) && AllPass(s, ok)
    requires forall p :: p in ready ==> ok(p.meta)
    ensures AllPass(LoadAll(env, s, ready), ok)
    decreases |s.pending| + |ready|, 1
  {
    if ready == [] {
    } else {
      hide Tables, Queue, Apart, Quiet, AllPass, Enroll, Later;
      assert ready[0] in ready;
      EnrollKeeps(env, s, ready[0]);
      EnrollPasses(env, s, ready[0], ok);
      LoadAllPasses(env, Enroll(env, s, ready[0]).0, ready[1..], ok);
    }
  }

  lemma EnrollAdds(env: Env, s: State, p: Plugin)
    requires Core(s)
    ensures Enroll(env, s, p).0.meta.Keys <= s.meta.Keys + s.waiting.Keys + {p.meta.id}
  {
    var bound := s.meta.Keys + s.waiting.Keys + {p.meta.id};
    var ok := (m: Meta) => m.id in bound;
    assert AllPass(s, ok) by {
      assert forall id :: id in s.waiting ==> s.waiting[id].meta.id == id;
      assert forall id :: id in s.meta ==> s.meta[id].id == id;
    }
    EnrollPasses(env, s, p, ok);
    EnrollKeeps(env, s, p);
    var r := Enroll(env, s, p).0;
    assert forall id :: id in r.meta ==> r.meta[id].id == id;
    hide Tables, Queue, Apart, Enroll;
  }
}
