// The registry state of host/host.go and the meaning of Register, RegisterLazy, retryPending
// and Replace as functions on it.
module Registry {
  import opened Text
  import opened Manifest

  datatype FnEntry = FnEntry(owner: string, spec: int, provider: nat)

  datatype State = State(
    plugins: map<string, Plugin>,
    meta: Book,
    fns: map<string, FnEntry>,
    order: map<string, nat>,
    nextSeq: nat,
    pending: seq<string>,
    waiting: map<string, Plugin>)

  // ---- invariants ----

  /** The tables of registered plugins agree. */
  ghost predicate Tables(s: State) {
    && s.plugins.Keys == s.meta.Keys == s.order.Keys
    && Described(s.plugins, s.meta)
    && Numbered(s.order, s.nextSeq)
  }

  /** The metadata table holds the metadata of the plugins, under their own non-empty ids. */
  ghost predicate Described(plugins: map<string, Plugin>, meta: Book) {
    && (forall id :: id in plugins && id in meta ==> plugins[id].meta == meta[id])
    && (forall id :: id in meta ==> meta[id].id == id && id != "" && StaticOk(meta[id]))
  }

  /** Registration numbers are distinct and already given out. */
  ghost predicate Numbered(order: map<string, nat>, next: nat) {
    && (forall id :: id in order ==> order[id] <= next)
    && (forall a, b :: a in order && b in order && order[a] == order[b] ==> a == b)
  }

  /** The pending list is free of duplicates and has the keys of the waiting table. */
  ghost predicate Queue(s: State) {
    && NoDup(s.pending)
    && (forall id :: id in s.pending <==> id in s.waiting)
    && (forall id :: id in s.waiting ==> s.waiting[id].meta.id == id && id != "")
  }

  ghost predicate Apart(s: State) {
    s.waiting.Keys !! s.meta.Keys
  }

  /** No waiting plugin could be loaded. */
  ghost predicate Quiet(env: Env, s: State) {
    forall id :: id in s.waiting ==> !DepsMet(env, s.meta, s.waiting[id].meta)
  }

  ghost predicate Valid(env: Env, s: State) {
    Tables(s) && Queue(s) && Apart(s) && Quiet(env, s)
  }

  // ---- operations ----

  function Without<T(==)>(s: seq<T>, x: T): (r: seq<T>)
    ensures |r| <= |s|
    ensures x in s ==> |r| < |s|
  {
    if s == [] then [] else if s[0] == x then s[1..] else [s[0]] + Without(s[1..], x)
  }

  /** removePendingLocked. */
  function DropPending(s: State, id: string): State {
    if id !in s.waiting then s
    else s.(waiting := s.waiting - {id}, pending := Without(s.pending, id))
  }

  function FnKey(id: string, name: string): string {
    id + "." + name
  }

  /** The catalogue insertions of a registration: they stop, but stay, at a name already taken. */
  function AddFns(fns: map<string, FnEntry>, p: Plugin, todo: seq<Func>): (map<string, FnEntry>, Option<Error>)
    decreases |todo|
  {
    if todo == [] then (fns, None)
    else
      var key := FnKey(p.meta.id, todo[0].name);
      if key in fns then (fns, Some(FunctionConflict(todo[0].name)))
      else AddFns(fns[key := FnEntry(p.meta.id, todo[0].spec, p.handle)], p, todo[1..])
  }

  /** registerLocked. */
  function Admit(env: Env, s: State, p: Plugin): (State, Option<Error>) {
    var id := p.meta.id;
    if id in s.plugins then (s, Some(DuplicateId))
    else
      var s1 := DropPending(s, id);
      match Validate(env, s1.meta, p.meta)
      case Some(e) => (s1, Some(e))
      case None =>
        var (fns, clash) := if p.callable then AddFns(s1.fns, p, p.meta.functions) else (s1.fns, None);
        if clash.Some? then (s1.(fns := fns), clash)
        else (s1.(fns := fns, plugins := s1.plugins[id := p], meta := s1.meta[id := p.meta],
                  nextSeq := s1.nextSeq + 1, order := s1.order[id := s1.nextSeq + 1]), None)
  }

  function Kept(env: Env, book: Book, waiting: map<string, Plugin>, ids: seq<string>): (r: seq<string>)
    requires forall id :: id in ids ==> id in waiting
    ensures |r| <= |ids|
  {
    if ids == [] then []
    else if DepsMet(env, book, waiting[ids[0]].meta) then Kept(env, book, waiting, ids[1..])
    else [ids[0]] + Kept(env, book, waiting, ids[1..])
  }

  function Ready(env: Env, book: Book, waiting: map<string, Plugin>, ids: seq<string>): (r: seq<Plugin>)
    requires forall id :: id in ids ==> id in waiting
    ensures |r| + |Kept(env, book, waiting, ids)| == |ids|
  {
    if ids == [] then []
    else if DepsMet(env, book, waiting[ids[0]].meta) then [waiting[ids[0]]] + Ready(env, book, waiting, ids[1..])
    else Ready(env, book, waiting, ids[1..])
  }

  /** The queue after the scan of retryPending took the loadable plugins out. */
  function Scanned(env: Env, s: State): State
    requires Queue(s)
  {
    var kept := Kept(env, s.meta, s.waiting, s.pending);
    s.(pending := kept, waiting := map id | id in s.waiting && id in kept :: s.waiting[id])
  }

  /** The plugins that scan takes out, in queue order. */
  function Loadable(env: Env, s: State): seq<Plugin>
    requires Queue(s)
  {
    Ready(env, s.meta, s.waiting, s.pending)
  }

  ghost predicate DistinctIds(ps: seq<Plugin>) {
    forall i, j :: 0 <= i < j < |ps| ==> ps[i].meta.id != ps[j].meta.id
  }

  lemma {:induction false} KeptSplits(env: Env, book: Book, waiting: map<string, Plugin>, ids: seq<string>)
    requires NoDup(ids) && forall id :: id in ids ==> id in waiting && waiting[id].meta.id == id
    ensures NoDup(Kept(env, book, waiting, ids))
    ensures forall id :: id in Kept(env, book, waiting, ids) <==> id in ids && !DepsMet(env, book, waiting[id].meta)
    ensures forall p :: p in Ready(env, book, waiting, ids) ==>
              exists id :: id in ids && p == waiting[id] && DepsMet(env, book, p.meta)
    ensures forall id :: id in ids && DepsMet(env, book, waiting[id].meta) ==> waiting[id] in Ready(env, book, waiting, ids)
    ensures DistinctIds(Ready(env, book, waiting, ids))
  {
    if ids == [] {
    } else {
      assert forall id :: id in ids <==> id == ids[0] || id in ids[1..];
      assert NoDup(ids[1..]) && ids[0] !in ids[1..];
      KeptSplits(env, book, waiting, ids[1..]);
    }
  }

  lemma ScannedKeepsQueue(env: Env, s: State)
    requires Queue(s)
    ensures |Scanned(env, s).pending| + |Loadable(env, s)| == |s.pending|
    ensures forall p :: p in Loadable(env, s) ==>
              p.meta.id in s.waiting && p == s.waiting[p.meta.id] && DepsMet(env, s.meta, p.meta)
    ensures forall id :: id in s.waiting && id !in Scanned(env, s).waiting ==> s.waiting[id] in Loadable(env, s)
    ensures DistinctIds(Loadable(env, s))
    ensures Queue(Scanned(env, s))
    ensures Quiet(env, Scanned(env, s))
    ensures forall id :: id in Scanned(env, s).waiting <==> id in s.waiting && !DepsMet(env, s.meta, s.waiting[id].meta)
    ensures forall id :: id in Scanned(env, s).waiting ==> Scanned(env, s).waiting[id] == s.waiting[id]
  {
    KeptSplits(env, s.meta, s.waiting, s.pending);
  }

  /** The scan of retryPending after i queue entries: what it took and what it keeps. */
  ghost predicate ScanLists(env: Env, s: State, i: nat, kept: seq<string>, ready: seq<Plugin>) {
    && i <= |s.pending| && (forall id :: id in s.pending ==> id in s.waiting)
    && Kept(env, s.meta, s.waiting, s.pending) == kept + Kept(env, s.meta, s.waiting, s.pending[i..])
    && Ready(env, s.meta, s.waiting, s.pending) == ready + Ready(env, s.meta, s.waiting, s.pending[i..])
  }

  /** And what is left in the waiting table. */
  ghost predicate ScanTable(s: State, i: nat, waiting: map<string, Plugin>, kept: seq<string>) {
    && i <= |s.pending| && (forall id :: id in kept ==> id in s.pending[..i])
    && (forall id :: id in waiting <==> id in s.waiting && (id in kept || id in s.pending[i..]))
    && (forall id :: id in waiting ==> waiting[id] == s.waiting[id])
  }

  lemma ScanStart(env: Env, s: State)
    requires Queue(s)
    ensures ScanAt(env, s, 0, s.waiting, [], [])
  {
    assert s.pending[0..] == s.pending;
    hide DepsMet, Kept, Ready;
  }

  lemma ScanTake(env: Env, s: State, i: nat, kept: seq<string>, ready: seq<Plugin>, p: Plugin)
    requires i < |s.pending| && ScanLists(env, s, i, kept, ready)
    requires s.pending[i] in s.waiting && p == s.waiting[s.pending[i]] && DepsMet(env, s.meta, p.meta)
    ensures ScanLists(env, s, i + 1, kept, ready + [p])
  {
    hide DepsMet;
    var rest := s.pending[i..];
    assert rest[0] == s.pending[i] && rest[1..] == s.pending[i + 1..];
  }

  lemma ScanKeep(env: Env, s: State, i: nat, kept: seq<string>, ready: seq<Plugin>, id: string)
    requires i < |s.pending| && ScanLists(env, s, i, kept, ready)
    requires id == s.pending[i] && id in s.waiting && !DepsMet(env, s.meta, s.waiting[id].meta)
    ensures ScanLists(env, s, i + 1, kept + [id], ready)
  {
    hide DepsMet;
    var rest := s.pending[i..];
    assert rest[0] == s.pending[i] && rest[1..] == s.pending[i + 1..];
  }

  lemma ScanTableStep(s: State, i: nat, waiting: map<string, Plugin>, kept: seq<string>)
    requires Queue(s) && i < |s.pending| && ScanTable(s, i, waiting, kept)
    ensures s.pending[i] in waiting && s.pending[i] in s.waiting && waiting[s.pending[i]] == s.waiting[s.pending[i]]
    ensures ScanTable(s, i + 1, waiting - {s.pending[i]}, kept)
    ensures ScanTable(s, i + 1, waiting, kept + [s.pending[i]])
  {
    var id := s.pending[i];
    assert s.pending[i..] == [id] + s.pending[i + 1..];
    assert s.pending[..i + 1] == s.pending[..i] + [id];
    assert id !in s.pending[..i] && id !in s.pending[i + 1..];
  }

  /** The scan after i queue entries. */
  ghost predicate ScanAt(env: Env, s: State, i: nat, waiting: map<string, Plugin>, kept: seq<string>, ready: seq<Plugin>) {
    Queue(s) && ScanLists(env, s, i, kept, ready) && ScanTable(s, i, waiting, kept)
  }

  lemma ScanNext(env: Env, s: State, i: nat, waiting: map<string, Plugin>, kept: seq<string>, ready: seq<Plugin>)
    requires i < |s.pending| && ScanAt(env, s, i, waiting, kept, ready)
    ensures var id := s.pending[i];
            && id in waiting
            && (DepsMet(env, s.meta, waiting[id].meta) ==> ScanAt(env, s, i + 1, waiting - {id}, kept, ready + [waiting[id]]))
            && (!DepsMet(env, s.meta, waiting[id].meta) ==> ScanAt(env, s, i + 1, waiting, kept + [id], ready))
  {
    hide DepsMet, Queue, ScanLists, ScanTable;
    var id := s.pending[i];
    ScanTableStep(s, i, waiting, kept);
    if DepsMet(env, s.meta, waiting[id].meta) {
      ScanTake(env, s, i, kept, ready, waiting[id]);
    } else {
      ScanKeep(env, s, i, kept, ready, id);
    }
  }

  lemma ScanEnd(env: Env, s: State, waiting: map<string, Plugin>, kept: seq<string>, ready: seq<Plugin>)
    requires ScanAt(env, s, |s.pending|, waiting, kept, ready)
    ensures Queue(s)
    ensures s.(pending := kept, waiting := waiting) == Scanned(env, s) && ready == Loadable(env, s)
  {
    hide DepsMet, Queue;
    assert s.pending[|s.pending|..] == [];
    assert kept == Kept(env, s.meta, s.waiting, s.pending);
    hide Kept;
    assert waiting == Scanned(env, s).waiting;
  }

  lemma {:induction false} WithoutSplits<T>(s: seq<T>, x: T)
    requires NoDup(s)
    ensures NoDup(Without(s, x))
    ensures forall y :: y in Without(s, x) <==> y in s && y != x
  {
    if s == [] {
    } else {
      assert NoDup(s[1..]) && s[0] !in s[1..];
      assert forall y :: y in s <==> y == s[0] || y in s[1..];
      WithoutSplits(s[1..], x);
    }
  }

  lemma DropKeepsQueue(s: State, id: string)
    requires Queue(s)
    ensures Queue(DropPending(s, id))
    ensures id !in DropPending(s, id).waiting
    ensures |DropPending(s, id).pending| <= |s.pending|
  {
    WithoutSplits(s.pending, id);
  }

  lemma SameTables(a: State, b: State)
    requires Tables(a) && b.plugins == a.plugins && b.meta == a.meta && b.order == a.order && b.nextSeq == a.nextSeq
    ensures Tables(b)
  {
  }

  lemma SameQueue(a: State, b: State)
    requires Queue(a) && b.pending == a.pending && b.waiting == a.waiting
    ensures Queue(b)
  {
  }

  lemma AdmitKeepsQueue(env: Env, s: State, p: Plugin)
    requires Queue(s)
    ensures Queue(Admit(env, s, p).0)
    ensures |Admit(env, s, p).0.pending| <= |s.pending|
  {
    DropKeepsQueue(s, p.meta.id);
    hide Queue, DropPending, Validate, AddFns;
    var dropped, r := DropPending(s, p.meta.id), Admit(env, s, p).0;
    if p.meta.id !in s.plugins {
      SameQueue(dropped, r);
    }
  }

  /** Register: admission, then every waiting plugin whose dependencies have come is loaded. */
  function Enroll(env: Env, s: State, p: Plugin): (r: (State, Option<Error>))
    requires Queue(s)
    ensures Queue(r.0) && |r.0.pending| <= |s.pending|
    decreases |s.pending| + 1, 0
  {
    if p.meta.id == "" then (s, Some(EmptyId))
    else
      var (s1, err) := Admit(env, s, p);
      AdmitKeepsQueue(env, s, p);
      if err.Some? then (s1, err) else (Retry(env, s1), None)
  }

  /** retryPending. */
  function Retry(env: Env, s: State): (r: State)
    requires Queue(s)
    ensures Queue(r) && |r.pending| <= |s.pending|
    decreases |s.pending|, 2
  {
    ScannedKeepsQueue(env, s);
    LoadAll(env, Scanned(env, s), Loadable(env, s))
  }

  /** The loop of retryPending over the plugins that were loadable; a refused one is dropped. */
  function LoadAll(env: Env, s: State, ready: seq<Plugin>): (r: State)
    requires Queue(s)
    ensures Queue(r) && |r.pending| <= |s.pending|
    decreases |s.pending| + |ready|, 1
  {
    if ready == [] then s else LoadAll(env, Enroll(env, s, ready[0]).0, ready[1..])
  }

  datatype Status = Registered | Pending

  lemma DeferredQueue(s: State, p: Plugin, r: State)
    requires Queue(s) && p.meta.id != ""
    requires r == if p.meta.id in s.waiting then s.(waiting := s.waiting[p.meta.id := p])
                  else s.(waiting := s.waiting[p.meta.id := p], pending := s.pending + [p.meta.id])
    ensures Queue(r)
  {
  }

  /** A plugin put into the queue, or updated there. */
  function Deferred(s: State, p: Plugin): (r: State)
    requires Queue(s) && p.meta.id != ""
    ensures Queue(r)
  {
    var r := if p.meta.id in s.waiting then s.(waiting := s.waiting[p.meta.id := p])
             else s.(waiting := s.waiting[p.meta.id := p], pending := s.pending + [p.meta.id]);
    DeferredQueue(s, p, r);
    r
  }

  /** RegisterLazy. */
  function EnrollLazy(env: Env, s: State, p: Plugin): (r: (State, Status, Option<Error>))
    requires Queue(s)
    ensures Queue(r.0)
  {
    var id := p.meta.id;
    if id == "" then (s, Registered, Some(EmptyId))
    else if id in s.plugins then (s, Registered, Some(DuplicateId))
    else if DepsMet(env, s.meta, p.meta) then
      var (s1, err) := Enroll(env, s, p);
      (s1, Registered, err)
    else (Deferred(s, p), Pending, None)
  }

  function DropFns(fns: map<string, FnEntry>, id: string): map<string, FnEntry> {
    map k | k in fns && fns[k].owner != id :: fns[k]
  }

  /** The catalogue insertions of a replacement: a repeated name overwrites. */
  function PutFns(fns: map<string, FnEntry>, p: Plugin, todo: seq<Func>): map<string, FnEntry>
    decreases |todo|
  {
    if todo == [] then fns
    else PutFns(fns[FnKey(p.meta.id, todo[0].name) := FnEntry(p.meta.id, todo[0].spec, p.handle)], p, todo[1..])
  }

  /** What a Replace that passes its checks does before pending plugins are retried. */
  function Swapped(s: State, p: Plugin): State {
    var id := p.meta.id;
    var fns := DropFns(s.fns, id);
    s.(plugins := s.plugins[id := p], meta := s.meta[id := p.meta],
       fns := if p.callable then PutFns(fns, p, p.meta.functions) else fns)
  }

  /** Replace. */
  function Exchange(env: Env, s: State, p: Plugin): (r: (State, Option<Error>))
    requires Queue(s)
  {
    if p.meta.id !in s.plugins then (s, Some(NotRegistered))
    else
      match Validate(env, s.meta, p.meta)
      case Some(e) => (s, Some(e))
      case None => (Retry(env, Swapped(s, p)), None)
  }
}
