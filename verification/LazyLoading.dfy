// Lazy loading as a whole: it keeps the function catalogue exact, it loses nobody who is acceptable,
// and it ends at the least fixed point whatever the order of the queue.
module LazyLoading {
  import opened Text
  import opened Manifest
  import opened Registry
  import opened Loading
  import opened Catalogue

  ghost predicate QueueNamedOnce(s: State) {
    forall id :: id in s.waiting ==> NamedOnce(s.waiting[id])
  }

  lemma StillNamedOnce(a: State, b: State)
    requires Later(a, b) && QueueNamedOnce(a)
    ensures QueueNamedOnce(b)
  {
    hide NamedOnce;
  }

  lemma {:induction false} EnrollCatalogue(env: Env, s: State, p: Plugin)
    requires Core(s) && Exact(s) && NamedOnce(p) && QueueNamedOnce(s)
    ensures Exact(Enroll(env, s, p).0)
    decreases |s.pending| + 1, 0
  {
    if p.meta.id != "" {
      AdmitFrame(env, s, p);
      AdmitKeeps(env, s, p);
      EnrollUnfolds(env, s, p);
      AdmitCatalogue(env, s, p);
      hide Tables, Queue, Apart, Later, Exact, Acceptable, NamedOnce, QueueNamedOnce, Admit, Retry, Enroll;
      var (s1, err) := Admit(env, s, p);
      StillNamedOnce(s, s1);
      if err.None? {
        RetryCatalogue(env, s1);
      }
    }
  }

  lemma {:induction false} RetryCatalogue(env: Env, s: State)
    requires Core(s) && Exact(s) && QueueNamedOnce(s)
    ensures Exact(Retry(env, s))
    decreases |s.pending|, 2
  {
    ScannedKeepsQueue(env, s);
    ScannedIsCore(env, s);
    assert Scanned(env, s).fns == s.fns && Scanned(env, s).plugins == s.plugins;
    hide Tables, Queue, Apart, Later, Quiet, Exact, NamedOnce, Scanned, Loadable;
    SameExact(s, Scanned(env, s));
    StillNamedOnce(s, Scanned(env, s));
    LoadAllCatalogue(env, Scanned(env, s), Loadable(env, s));
  }

  lemma {:induction false} LoadAllCatalogue(env: Env, s: State, ready: seq<Plugin>)
    requires Core(s) && Quiet(env, s) && Exact(s) && QueueNamedOnce(s)
    requires forall p :: p in ready ==> NamedOnce(p)
    ensures Exact(LoadAll(env, s, ready))
    decreases |s.pending| + |ready|, 1
  {
    hide Tables, Queue, Apart, Later, Quiet, Exact, NamedOnce, QueueNamedOnce, Enroll;
    if ready == [] {
    } else {
      EnrollKeeps(env, s, ready[0]);
      var s1 := Enroll(env, s, ready[0]).0;
      StillNamedOnce(s, s1);
      assert ready[0] in ready;
      EnrollCatalogue(env, s, ready[0]);
      LoadAllCatalogue(env, s1, ready[1..]);
    }
  }

  // ---- nobody acceptable is lost ----

  /** p passes every check that is not about the presence of its dependencies. */
  ghost predicate Admissible(env: Env, book: Book, p: Plugin) {
    StaticOk(p.meta) && SlotOk(env, book, p.meta) && NamedOnce(p)
  }

  ghost predicate QueueAdmissible(env: Env, s: State) {
    forall id :: id in s.waiting ==> Admissible(env, s.meta, s.waiting[id])
  }

  lemma StillAdmissible(env: Env, a: Book, b: Book, p: Plugin)
    requires Grows(a, b) && Admissible(env, a, p)
    ensures Admissible(env, b, p)
  {
    hide StaticOk, NamedOnce;
    if p.meta.slot != "" {
      hide Grows, SlotMet;
      forall n | n in env.slots[p.meta.slot].needs
        ensures SlotMet(env, b, n)
      {
        SlotStaysMet(env, a, b, n);
      }
    }
  }

  lemma QueueStillAdmissible(env: Env, a: State, b: State)
    requires Later(a, b) && QueueAdmissible(env, a)
    ensures QueueAdmissible(env, b)
  {
    hide Admissible, Grows;
    forall id | id in b.waiting
      ensures Admissible(env, b.meta, b.waiting[id])
    {
      StillAdmissible(env, a.meta, b.meta, a.waiting[id]);
    }
  }

  lemma AdmissibleIsNamedOnce(env: Env, s: State)
    requires QueueAdmissible(env, s)
    ensures QueueNamedOnce(s)
  {
    hide StaticOk, SlotOk, NamedOnce;
  }

  /** p can be registered now: its id is free, its dependencies are met, its other checks pass. */
  ghost predicate Awaited(env: Env, s: State, p: Plugin) {
    && Admissible(env, s.meta, p)
    && DepsMet(env, s.meta, p.meta)
    && p.meta.id !in s.meta && p.meta.id !in s.waiting && p.meta.id != ""
  }

  lemma {:induction false} EnrollLosesNone(env: Env, s: State, p: Plugin)
    requires Core(s) && Exact(s) && QueueAdmissible(env, s)
    requires Awaited(env, s, p)
    ensures Enroll(env, s, p).1.None?
    ensures s.meta.Keys + s.waiting.Keys + {p.meta.id} <= Enroll(env, s, p).0.meta.Keys + Enroll(env, s, p).0.waiting.Keys
    decreases |s.pending| + 1, 0
  {
    AdmitOutcome(env, s, p);
    AdmitFrame(env, s, p);
    AdmitKeeps(env, s, p);
    EnrollUnfolds(env, s, p);
    AdmitCatalogue(env, s, p);
    assert p.meta.id !in s.plugins;
    hide Tables, Queue, Apart, Later, Exact, StaticOk, DepsMet, SlotOk, NamedOnce, QueueAdmissible, Admit, Retry, Enroll;
    var (s1, err) := Admit(env, s, p);
    QueueStillAdmissible(env, s, s1);
    RetryLosesNone(env, s1);
    assert s.meta.Keys + s.waiting.Keys + {p.meta.id} <= s1.meta.Keys + s1.waiting.Keys;
  }

  lemma {:induction false} RetryLosesNone(env: Env, s: State)
    requires Core(s) && Exact(s) && QueueAdmissible(env, s)
    ensures s.meta.Keys + s.waiting.Keys <= Retry(env, s).meta.Keys + Retry(env, s).waiting.Keys
    decreases |s.pending|, 2
  {
    ScannedKeepsQueue(env, s);
    ScannedIsCore(env, s);
    assert Scanned(env, s).fns == s.fns && Scanned(env, s).plugins == s.plugins;
    assert s.waiting.Keys !! s.meta.Keys;
    assert forall id :: id in s.waiting ==> s.waiting[id].meta.id == id && id != "";
    hide Tables, Queue, Apart, Later, Quiet, Exact, Admissible, Scanned, Loadable, DepsMet;
    var s1, ready := Scanned(env, s), Loadable(env, s);
    SameExact(s, s1);
    QueueStillAdmissible(env, s, s1);
    forall p | p in ready
      ensures Awaited(env, s1, p)
    {
      assert s.waiting[p.meta.id] == p;
    }
    hide QueueAdmissible;
    LoadAllLosesNone(env, s1, ready);
    forall id | id in s.waiting && id !in s1.waiting
      ensures id in Retry(env, s).meta.Keys + Retry(env, s).waiting.Keys
    {
      assert s.waiting[id] in ready;
    }
  }

  lemma {:induction false} LoadAllLosesNone(env: Env, s: State, ready: seq<Plugin>)
    requires Core(s) && Quiet(env, s) && Exact(s) && QueueAdmissible(env, s) && DistinctIds(ready)
    requires forall p :: p in ready ==> Awaited(env, s, p)
    ensures s.meta.Keys + s.waiting.Keys <= LoadAll(env, s, ready).meta.Keys + LoadAll(env, s, ready).waiting.Keys
    ensures forall p :: p in ready ==> p.meta.id in LoadAll(env, s, ready).meta.Keys + LoadAll(env, s, ready).waiting.Keys
    decreases |s.pending| + |ready|, 1
  {
    hide Tables, Queue, Apart, Later, Quiet, Exact, Admissible, DepsMet, QueueAdmissible, Enroll;
    if ready == [] {
    } else {
      var p := ready[0];
      assert p in ready;
      EnrollKeeps(env, s, p);
      EnrollAdds(env, s, p);
      EnrollLosesNone(env, s, p);
      var s1 := Enroll(env, s, p).0;
      AdmissibleIsNamedOnce(env, s);
      JustNamedOnce(env, s.meta, p);
      EnrollCatalogue(env, s, p);
      QueueStillAdmissible(env, s, s1);
      StepKeepsReady(env, s, s1, ready);
      LoadAllLosesNone(env, s1, ready[1..]);
      assert forall q :: q in ready ==> q == p || q in ready[1..];
    }
  }

  lemma JustNamedOnce(env: Env, book: Book, p: Plugin)
    requires Admissible(env, book, p)
    ensures NamedOnce(p)
  {
  }

  lemma StepKeepsReady(env: Env, s: State, s1: State, ready: seq<Plugin>)
    requires ready != [] && Later(s, s1) && DistinctIds(ready)
    requires s1.meta.Keys <= s.meta.Keys + s.waiting.Keys + {ready[0].meta.id}
    requires forall p :: p in ready ==> Awaited(env, s, p)
    ensures DistinctIds(ready[1..])
    ensures forall p :: p in ready[1..] ==> Awaited(env, s1, p)
  {
    assert Grows(s.meta, s1.meta);
    assert forall id :: id in s1.waiting ==> id in s.waiting;
    hide Later, Grows, Admissible, DepsMet;
    forall i | 1 <= i < |ready|
      ensures Awaited(env, s1, ready[i])
    {
      assert ready[i] in ready && ready[i].meta.id != ready[0].meta.id;
      StillAdmissible(env, s.meta, s1.meta, ready[i]);
      MoreAreMet(env, s.meta, s1.meta, ready[i].meta);
    }
  }

  lemma RegisteredMeta(s: State, p: Plugin)
    requires Tables(s) && p.meta.id in s.plugins && s.plugins[p.meta.id] == p
    ensures p.meta.id in s.meta && s.meta[p.meta.id] == p.meta
  {
    hide StaticOk;
  }

  // ---- the least fixed point ----

  /** book is a possible outcome: it holds what was there, and every waiting plugin whose dependencies it meets. */
  ghost predicate Saturated(env: Env, was: Book, waiting: map<string, Plugin>, book: Book) {
    Grows(was, book) && Absorbs(env, book, waiting)
  }

  ghost predicate LeastSaturated(env: Env, was: Book, waiting: map<string, Plugin>, book: Book) {
    Saturated(env, was, waiting, book) && forall other :: Saturated(env, was, waiting, other) ==> Grows(book, other)
  }

  /** What comes in from the queue is the waiting plugin itself. */
  lemma RetryBringsWaiting(env: Env, s: State)
    requires Core(s)
    ensures var r := Retry(env, s);
      && r.meta.Keys <= s.meta.Keys + s.waiting.Keys
      && forall id :: id in r.meta && id in s.waiting ==> r.meta[id] == s.waiting[id].meta
  {
    // Everything that could come in bounds the outcome.
    var t := s.meta + map id | id in s.waiting :: s.waiting[id].meta;
    assert s.waiting.Keys !! s.meta.Keys;
    hide Tables, Queue, Apart, Retry, DepsMet;
    RetryWithin(env, s, t);
    assert forall id :: id in s.waiting ==> t[id] == s.waiting[id].meta;
  }

  lemma AbsorbedWhenQuiet(env: Env, s: State, r: State)
    requires Later(s, r) && Quiet(env, r) && s.waiting.Keys <= r.meta.Keys + r.waiting.Keys
    requires forall id :: id in r.meta && id in s.waiting ==> r.meta[id] == s.waiting[id].meta
    ensures Saturated(env, s.meta, s.waiting, r.meta)
  {
    hide DepsMet;
  }

  lemma LaterWaits(a: State, b: State)
    requires Later(a, b)
    ensures b.waiting.Keys <= a.waiting.Keys && Grows(a.meta, b.meta)
  {
    hide Grows;
  }

  /** Retrying the queue ends in the least book that absorbs it, whatever the order of the queue; what is left
      waiting really lacks a dependency, and nobody is dropped. */
  lemma RetryIsLeast(env: Env, s: State)
    requires Core(s) && Exact(s) && QueueAdmissible(env, s)
    ensures var r := Retry(env, s);
      && LeastSaturated(env, s.meta, s.waiting, r.meta)
      && r.meta.Keys + r.waiting.Keys == s.meta.Keys + s.waiting.Keys
      && Quiet(env, r)
  {
    RetryKeeps(env, s);
    RetryLosesNone(env, s);
    RetryBringsWaiting(env, s);
    var r := Retry(env, s);
    hide Tables, Queue, Apart, Exact, Retry, Quiet, QueueAdmissible, Later, Sound, Saturated;
    LaterWaits(s, r);
    AbsorbedWhenQuiet(env, s, r);
    SameTotal(s.meta.Keys, s.waiting.Keys, r.meta.Keys, r.waiting.Keys);
    forall other | Saturated(env, s.meta, s.waiting, other)
      ensures Grows(r.meta, other)
    {
      SaturatedBounds(env, s, other);
    }
  }

  lemma SameTotal(a: set<string>, b: set<string>, c: set<string>, d: set<string>)
    requires a + b <= c + d && c <= a + b && d <= b
    ensures c + d == a + b
  {
  }

  lemma SaturatedBounds(env: Env, s: State, other: Book)
    requires Core(s) && Saturated(env, s.meta, s.waiting, other)
    ensures Grows(Retry(env, s).meta, other)
  {
    hide Tables, Queue, Apart, Retry, Absorbs, Grows;
    RetryWithin(env, s, other);
  }

  /** p can be registered now, be it waiting or not. */
  ghost predicate Welcome(env: Env, s: State, p: Plugin) {
    Admissible(env, s.meta, p) && DepsMet(env, s.meta, p.meta) && p.meta.id !in s.meta && p.meta.id != ""
  }

  lemma WelcomeIsAdmitted(env: Env, s: State, p: Plugin)
    requires Core(s) && Exact(s) && QueueAdmissible(env, s) && Welcome(env, s, p)
    ensures var (s1, err) := Admit(env, s, p);
      && err.None? && Core(s1) && Exact(s1) && QueueAdmissible(env, s1)
      && s1.meta == s.meta[p.meta.id := p.meta] && s1.waiting == s.waiting - {p.meta.id}
      && Enroll(env, s, p) == (Retry(env, s1), None)
  {
    AdmitFrame(env, s, p);
    AdmitKeeps(env, s, p);
    AdmitOutcome(env, s, p);
    AdmitCatalogue(env, s, p);
    EnrollUnfolds(env, s, p);
    assert p.meta.id !in s.plugins;
    hide Tables, Queue, Apart, Later, Exact, QueueAdmissible, Admit, Retry, Enroll, StaticOk, DepsMet, SlotOk, NamedOnce;
    QueueStillAdmissible(env, s, Admit(env, s, p).0);
  }

  /** Registering an acceptable plugin loads exactly the least book that holds it and absorbs the queue. */
  lemma LazyLoadingIsLeast(env: Env, s: State, p: Plugin)
    requires Core(s) && Exact(s) && QueueAdmissible(env, s) && Welcome(env, s, p)
    ensures var (r, err) := Enroll(env, s, p);
      && err.None? && Quiet(env, r)
      && LeastSaturated(env, s.meta[p.meta.id := p.meta], s.waiting - {p.meta.id}, r.meta)
      && r.meta.Keys + r.waiting.Keys == s.meta.Keys + s.waiting.Keys + {p.meta.id}
  {
    WelcomeIsAdmitted(env, s, p);
    KeysAfterAdmission(s, Admit(env, s, p).0, p);
    hide Tables, Queue, Apart, Exact, QueueAdmissible, Welcome, Admit, Retry, Enroll, Quiet, LeastSaturated;
    RetryIsLeast(env, Admit(env, s, p).0);
  }

  lemma KeysAfterAdmission(s: State, r: State, p: Plugin)
    requires r.meta == s.meta[p.meta.id := p.meta] && r.waiting == s.waiting - {p.meta.id}
    ensures r.meta.Keys + r.waiting.Keys == s.meta.Keys + s.waiting.Keys + {p.meta.id}
  {
  }
}
