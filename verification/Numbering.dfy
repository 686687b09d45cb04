// Registration numbers and the order of the queue: plugins get rising numbers as they come in, keep them for as long
// as they are registered, and lazily loaded ones get theirs in queue order.
module Numbering {
  import opened Text
  import opened Manifest
  import opened Registry
  import opened Loading
  import opened Replacement

  // ---- the queue ----

  /** part picks elements of whole at rising positions. */
  ghost predicate Picks<T>(whole: seq<T>, part: seq<T>, at: seq<nat>) {
    && |at| == |part| && (forall t :: 0 <= t < |at| ==> at[t] < |whole| && part[t] == whole[at[t]])
    && forall t, u :: 0 <= t < u < |at| ==> at[t] < at[u]
  }

  function Shifted(at: seq<nat>): (r: seq<nat>)
    ensures |r| == |at| && forall t :: 0 <= t < |at| ==> r[t] == at[t] + 1
  {
    seq(|at|, t requires 0 <= t < |at| => at[t] + 1)
  }

  lemma PickOn<T>(whole: seq<T>, part: seq<T>, at: seq<nat>)
    requires whole != [] && Picks(whole[1..], part, at)
    ensures Picks(whole, part, Shifted(at)) && Picks(whole, [whole[0]] + part, [0] + Shifted(at))
  {
  }

  /** The scan of the queue leaves those that stay, and hands over the others, in the order of the queue. */
  lemma {:induction false} ScanKeepsOrder(env: Env, book: Book, waiting: map<string, Plugin>, ids: seq<string>)
    returns (kept: seq<nat>, ready: seq<nat>)
    requires forall id :: id in ids ==> id in waiting
    ensures Picks(ids, Kept(env, book, waiting, ids), kept)
    ensures Picks(seq(|ids|, i requires 0 <= i < |ids| => waiting[ids[i]]), Ready(env, book, waiting, ids), ready)
  {
    hide DepsMet;
    if ids == [] {
      kept, ready := [], [];
    } else {
      var rest, plugins := ids[1..], seq(|ids|, i requires 0 <= i < |ids| => waiting[ids[i]]);
      assert plugins[1..] == seq(|rest|, i requires 0 <= i < |rest| => waiting[rest[i]]);
      kept, ready := ScanKeepsOrder(env, book, waiting, rest);
      PickOn(ids, Kept(env, book, waiting, rest), kept);
      PickOn(plugins, Ready(env, book, waiting, rest), ready);
      hide Picks;
      if DepsMet(env, book, waiting[ids[0]].meta) {
        kept, ready := Shifted(kept), [0] + Shifted(ready);
      } else {
        kept, ready := [0] + Shifted(kept), Shifted(ready);
      }
    }
  }

  /** Taking an id out of the queue leaves the others where they were. */
  lemma {:induction false} WithoutCloses<T>(s: seq<T>, i: nat)
    requires NoDup(s) && i < |s|
    ensures Without(s, s[i]) == s[..i] + s[i + 1..]
  {
    if i > 0 {
      assert NoDup(s[1..]);
      WithoutCloses(s[1..], i - 1);
      assert s[1..][i - 1] == s[i] != s[0];
      assert [s[0]] + s[1..][..i - 1] == s[..i] && s[1..][i..] == s[i + 1..];
    }
  }

  // ---- numbers ----

  /** From a to b registered plugins keep their numbers and newcomers get higher ones. */
  ghost predicate NumbersKept(a: State, b: State) {
    && a.nextSeq <= b.nextSeq
    && (forall id :: id in a.order ==> id in b.order && b.order[id] == a.order[id])
    && (forall id :: id in b.order && id !in a.order ==> a.nextSeq < b.order[id])
  }

  lemma KeptByNext(a: State, b: State, c: State)
    requires NumbersKept(a, b) && NumbersKept(b, c)
    ensures NumbersKept(a, c)
  {
  }

  lemma SameNumbers(a: State, b: State, c: State)
    requires a.order == b.order && a.nextSeq == b.nextSeq
    ensures NumbersKept(a, b) && (NumbersKept(b, c) ==> NumbersKept(a, c))
  {
  }

  lemma NextNumber(a: State, b: State, id: string)
    requires id !in a.order && b.order == a.order[id := a.nextSeq + 1] && b.nextSeq == a.nextSeq + 1
    ensures NumbersKept(a, b) && id in b.order && b.order[id] == a.nextSeq + 1
  {
  }

  lemma AdmitNumbers(env: Env, s: State, p: Plugin)
    requires Core(s)
    ensures var (r, err) := Admit(env, s, p);
      NumbersKept(s, r) && (err.None? ==> p.meta.id in r.order && r.order[p.meta.id] == s.nextSeq + 1 == r.nextSeq)
  {
    AdmitOutcome(env, s, p);
    assert p.meta.id !in s.meta ==> p.meta.id !in s.order;
    var (r, err) := Admit(env, s, p);
    hide Tables, Queue, Apart, Admit, Acceptable, NumbersKept;
    if err.None? {
      NextNumber(s, r, p.meta.id);
    } else {
      SameNumbers(s, r, r);
    }
  }

  lemma {:induction false} EnrollNumbers(env: Env, s: State, p: Plugin)
    requires Core(s)
    ensures var (r, err) := Enroll(env, s, p);
      NumbersKept(s, r) && (err.None? ==> p.meta.id in r.order && r.order[p.meta.id] == s.nextSeq + 1)
    decreases |s.pending| + 1, 0
  {
    if p.meta.id != "" {
      AdmitNumbers(env, s, p);
      AdmitKeeps(env, s, p);
      EnrollUnfolds(env, s, p);
      var (s1, err) := Admit(env, s, p);
      hide Tables, Queue, Apart, Admit, Retry, Enroll;
      if err.None? {
        RetryNumbers(env, s1);
        KeptByNext(s, s1, Retry(env, s1));
      }
    } else {
      hide Tables, Queue, Apart, Enroll;
      EnrollEmpty(env, s, p);
    }
  }

  lemma EnrollEmpty(env: Env, s: State, p: Plugin)
    requires Queue(s) && p.meta.id == ""
    ensures Enroll(env, s, p) == (s, Some(EmptyId))
  {
    hide Queue;
  }

  lemma {:induction false} RetryNumbers(env: Env, s: State)
    requires Core(s)
    ensures NumbersKept(s, Retry(env, s))
    decreases |s.pending|, 2
  {
    ScannedKeepsQueue(env, s);
    ScannedIsCore(env, s);
    ScannedNumbers(env, s);
    hide Tables, Queue, Apart, Scanned, Loadable, Later, Quiet, LoadAll, NumbersKept;
    LoadAllNumbers(env, Scanned(env, s), Loadable(env, s));
    SameNumbers(s, Scanned(env, s), Retry(env, s));
  }

  lemma ScannedNumbers(env: Env, s: State)
    requires Queue(s)
    ensures Scanned(env, s).order == s.order && Scanned(env, s).nextSeq == s.nextSeq
  {
    hide Queue, Kept, DepsMet;
  }

  lemma {:induction false} LoadAllNumbers(env: Env, s: State, ready: seq<Plugin>)
    requires Core(s) && Quiet(env, s)
    ensures NumbersKept(s, LoadAll(env, s, ready))
    decreases |s.pending| + |ready|, 1
  {
    if ready != [] {
      EnrollKeeps(env, s, ready[0]);
      EnrollNumbers(env, s, ready[0]);
      var s1 := Enroll(env, s, ready[0]).0;
      hide Tables, Queue, Apart, Quiet, Enroll, Later, Sound;
      LoadAllNumbers(env, s1, ready[1..]);
      KeptByNext(s, s1, LoadAll(env, s1, ready[1..]));
    }
  }

  /** Replace keeps every number, that of the replaced id included. */
  lemma ExchangeKeepsNumbers(env: Env, s: State, p: Plugin)
    requires Valid(env, s)
    ensures NumbersKept(s, Exchange(env, s, p).0)
  {
    ExchangeKeeps(env, s, p);
    if p.meta.id in s.plugins && Acceptable(env, s.meta, p.meta) {
      SwappedIsCore(env, s, p);
      ExchangeUnfolds(env, s, p);
      SwappedNumbers(s, p);
      hide Tables, Queue, Apart, Swapped, Acceptable, Retry, Exchange, Quiet, Sound, NumbersKept;
      RetryNumbers(env, Swapped(s, p));
      SameNumbers(s, Swapped(s, p), Retry(env, Swapped(s, p)));
    } else {
      hide Tables, Queue, Apart, Swapped, Acceptable, Retry, Exchange, Quiet, Sound, NumbersKept;
      SameNumbers(s, s, s);
    }
  }

  lemma SwappedNumbers(s: State, p: Plugin)
    ensures Swapped(s, p).order == s.order && Swapped(s, p).nextSeq == s.nextSeq
  {
    hide PutFns, DropFns;
  }

  /** RegisterLazy keeps every number and every registered plugin. */
  lemma LazyKeeps(env: Env, s: State, p: Plugin)
    requires Valid(env, s)
    ensures var r := EnrollLazy(env, s, p).0;
      NumbersKept(s, r) && forall id :: id in s.plugins ==> id in r.plugins && r.plugins[id] == s.plugins[id]
  {
    EnrollNumbers(env, s, p);
    EnrollKeeps(env, s, p);
    var e, r := Enroll(env, s, p).0, EnrollLazy(env, s, p).0;
    LazyOutcomes(env, s, p);
    hide Tables, Queue, Apart, Quiet, Sound, Enroll, EnrollLazy, DepsMet, NumbersKept, Grows;
    if r == e {
    } else {
      SameNumbers(s, r, r);
    }
  }

  lemma LazyOutcomes(env: Env, s: State, p: Plugin)
    requires Queue(s)
    ensures var r := EnrollLazy(env, s, p).0;
      r == Enroll(env, s, p).0 || (r.plugins == s.plugins && r.order == s.order && r.nextSeq == s.nextSeq)
  {
    hide Queue, Enroll, DepsMet;
  }

  // ---- lazy loads in queue order ----

  /** p came in between a and b. */
  ghost predicate CameIn(a: State, b: State, p: Plugin) {
    p.meta.id in b.order && p.meta.id !in a.order
  }

  /** An id that neither is registered, nor waits, nor is handed over stays out. */
  lemma OtherStaysOut(env: Env, s: State, p: Plugin, id: string)
    requires Core(s) && id !in s.order && id !in s.waiting && id != p.meta.id
    ensures id !in Enroll(env, s, p).0.order
  {
    EnrollAdds(env, s, p);
    EnrollKeeps(env, s, p);
    assert s.meta.Keys == s.order.Keys;
    assert Enroll(env, s, p).0.meta.Keys == Enroll(env, s, p).0.order.Keys;
    hide Queue, Apart, Enroll, Later, Quiet, Sound;
  }

  lemma {:induction false} OtherStaysOutOfAll(env: Env, s: State, ready: seq<Plugin>, id: string)
    requires Core(s) && Quiet(env, s) && id !in s.order && id !in s.waiting && forall p :: p in ready ==> p.meta.id != id
    ensures id !in LoadAll(env, s, ready).order
    decreases |ready|
  {
    if ready != [] {
      assert ready[0] in ready;
      EnrollKeeps(env, s, ready[0]);
      OtherStaysOut(env, s, ready[0], id);
      LaterShows(s, Enroll(env, s, ready[0]).0, id);
      hide Tables, Queue, Apart, Enroll, Later, Quiet, Sound;
      OtherStaysOutOfAll(env, Enroll(env, s, ready[0]).0, ready[1..], id);
    }
  }

  /** Handed-over plugins have distinct ids that do not wait. */
  ghost predicate HandedOver(s: State, ready: seq<Plugin>) {
    DistinctIds(ready) && forall p :: p in ready ==> p.meta.id !in s.waiting
  }

  lemma HandedOverRest(env: Env, s: State, ready: seq<Plugin>)
    requires Core(s) && HandedOver(s, ready) && ready != []
    ensures HandedOver(Enroll(env, s, ready[0]).0, ready[1..])
    ensures ready[0].meta.id !in Enroll(env, s, ready[0]).0.waiting
    ensures forall p :: p in ready[1..] ==> p.meta.id != ready[0].meta.id && p.meta.id !in s.waiting
  {
    EnrollKeeps(env, s, ready[0]);
    assert forall id :: id in Enroll(env, s, ready[0]).0.waiting ==> id in s.waiting;
    hide Tables, Queue, Apart, Enroll, Quiet, Sound;
    assert forall p :: p in ready[1..] ==> p in ready;
  }

  /** The first that comes in is numbered below everything that comes in after it. */
  lemma FirstIsLower(env: Env, s: State, ready: seq<Plugin>, q: Plugin)
    requires Core(s) && Quiet(env, s) && HandedOver(s, ready) && ready != [] && q in ready[1..]
    ensures var r := LoadAll(env, s, ready);
      CameIn(s, r, ready[0]) && CameIn(s, r, q) ==> r.order[ready[0].meta.id] < r.order[q.meta.id]
  {
    var first := ready[0];
    var s1 := Enroll(env, s, first).0;
    EnrollKeeps(env, s, first);
    HandedOverRest(env, s, ready);
    EnrollNumbers(env, s, first);
    assert forall id :: id in s1.order ==> s1.order[id] <= s1.nextSeq;
    hide Tables, Queue, Apart, Quiet, Enroll, Later, Sound, HandedOver;
    LoadAllNumbers(env, s1, ready[1..]);
    if CameIn(s, LoadAll(env, s, ready), first) && q.meta.id !in s.order {
      OtherStaysOut(env, s, first, q.meta.id);
      if first.meta.id !in s1.order {
        OtherStaysOutOfAll(env, s1, ready[1..], first.meta.id);
      }
    }
  }

  lemma LoadAllOn(env: Env, s: State, ready: seq<Plugin>)
    requires Core(s) && Quiet(env, s) && HandedOver(s, ready) && ready != []
    ensures var s1 := Enroll(env, s, ready[0]).0;
      Core(s1) && Quiet(env, s1) && HandedOver(s1, ready[1..]) && LoadAll(env, s, ready) == LoadAll(env, s1, ready[1..])
  {
    EnrollKeeps(env, s, ready[0]);
    HandedOverRest(env, s, ready);
    hide Tables, Queue, Apart, Quiet, Enroll, Later, Sound, HandedOver;
  }

  lemma LaterStaysOut(env: Env, s: State, ready: seq<Plugin>, i: nat)
    requires Core(s) && HandedOver(s, ready) && 0 < i < |ready|
    ensures ready[i].meta.id !in s.order ==> ready[i].meta.id !in Enroll(env, s, ready[0]).0.order
  {
    assert ready[i] in ready;
    hide Tables, Queue, Apart, Enroll;
    if ready[i].meta.id !in s.order {
      OtherStaysOut(env, s, ready[0], ready[i].meta.id);
    }
  }

  /** Of the plugins handed over, those that come in are numbered in the order they were handed over. */
  lemma {:induction false} LoadAllInOrder(env: Env, s: State, ready: seq<Plugin>, i: nat, j: nat)
    requires Core(s) && Quiet(env, s) && HandedOver(s, ready) && i < j < |ready|
    ensures var r := LoadAll(env, s, ready);
      CameIn(s, r, ready[i]) && CameIn(s, r, ready[j]) ==> r.order[ready[i].meta.id] < r.order[ready[j].meta.id]
    decreases |ready|
  {
    var rest := ready[1..];
    assert rest[j - 1] == ready[j];
    LoadAllOn(env, s, ready);
    hide Tables, Queue, Apart, Quiet, Enroll, HandedOver, LoadAll;
    if i == 0 {
      FirstIsLower(env, s, ready, ready[j]);
    } else {
      assert rest[i - 1] == ready[i];
      LaterStaysOut(env, s, ready, i);
      LaterStaysOut(env, s, ready, j);
      LoadAllInOrder(env, Enroll(env, s, ready[0]).0, rest, i - 1, j - 1);
    }
  }

  /** retryPending numbers the waiting plugins it loads itself in the order of the queue. */
  lemma RetryInQueueOrder(env: Env, s: State, i: nat, j: nat)
    requires Core(s) && i < j < |s.pending| && s.pending[i] in s.waiting && s.pending[j] in s.waiting
    requires DepsMet(env, s.meta, s.waiting[s.pending[i]].meta) && DepsMet(env, s.meta, s.waiting[s.pending[j]].meta)
    ensures var r, a, b := Retry(env, s), s.pending[i], s.pending[j];
      a in r.plugins && b in r.plugins ==> a in r.order && b in r.order && r.order[a] < r.order[b]
  {
    ScannedKeepsQueue(env, s);
    ScannedIsCore(env, s);
    var t, ready, r := Scanned(env, s), Loadable(env, s), Retry(env, s);
    assert t.order == s.order;
    RetryKeeps(env, s);
    assert r.plugins.Keys == r.order.Keys;
    assert s.pending[i] !in s.order && s.pending[j] !in s.order;
    var k, l := ReadyPositions(env, s.meta, s.waiting, s.pending, i, j);
    assert HandedOver(t, ready);
    assert ready[k].meta.id == s.pending[i] && ready[l].meta.id == s.pending[j];
    hide Tables, Queue, Apart, Quiet, Scanned, Loadable, Later, Sound, HandedOver, DepsMet, LoadAll;
    LoadAllInOrder(env, t, ready, k, l);
  }

  /** Where the loadable plugins stand among those handed over. */
  lemma {:induction false} ReadyPositions(env: Env, book: Book, waiting: map<string, Plugin>, ids: seq<string>, i: nat, j: nat)
    returns (k: nat, l: nat)
    requires forall id :: id in ids ==> id in waiting
    requires i < j < |ids| && DepsMet(env, book, waiting[ids[i]].meta) && DepsMet(env, book, waiting[ids[j]].meta)
    ensures var ready := Ready(env, book, waiting, ids);
      k < l < |ready| && ready[k] == waiting[ids[i]] && ready[l] == waiting[ids[j]]
  {
    hide DepsMet;
    if i == 0 {
      k := 0;
      l := ReadyPosition(env, book, waiting, ids[1..], j - 1);
      l := l + 1;
    } else {
      k, l := ReadyPositions(env, book, waiting, ids[1..], i - 1, j - 1);
      if DepsMet(env, book, waiting[ids[0]].meta) {
        k, l := k + 1, l + 1;
      }
    }
  }

  lemma {:induction false} ReadyPosition(env: Env, book: Book, waiting: map<string, Plugin>, ids: seq<string>, i: nat) returns (k: nat)
    requires forall id :: id in ids ==> id in waiting
    requires i < |ids| && DepsMet(env, book, waiting[ids[i]].meta)
    ensures k < |Ready(env, book, waiting, ids)| && Ready(env, book, waiting, ids)[k] == waiting[ids[i]]
  {
    hide DepsMet;
    if i == 0 {
      k := 0;
    } else {
      k := ReadyPosition(env, book, waiting, ids[1..], i - 1);
      if DepsMet(env, book, waiting[ids[0]].meta) {
        k := k + 1;
      }
    }
  }
}
