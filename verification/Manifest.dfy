// The parts of contract/meta.go the plugin registry looks at, and when a dependency is met.
module Manifest {
  import opened Text
  import Version

  datatype Kind = Init | Call | Soft | Unknown

  datatype Dependency = Dependency(plugin: string, slot: string, kind: Kind, minVersion: string)

  /** A function declaration; spec stands for its schemas and description. */
  datatype Func = Func(name: string, spec: int)

  /** The metadata of a plugin; facets stands for everything only the static slot axes read. */
  datatype Meta = Meta(id: string, version: string, slot: string, functions: seq<Func>,
                       deps: seq<Dependency>, facets: int)

  /** A plugin instance; callable says that it implements FunctionProvider. */
  datatype Plugin = Plugin(handle: nat, meta: Meta, callable: bool)

  datatype SlotSpec = SlotSpec(builtin: bool, needs: seq<string>)

  /** Options.SlotLookup, and the slot axes that depend on the manifest alone. */
  datatype Env = Env(slots: map<string, SlotSpec>, axesMet: Meta -> bool)

  /** The registered metadata by plugin id. */
  type Book = map<string, Meta>

  predicate Builtin(env: Env, slot: string) {
    slot in env.slots && env.slots[slot].builtin
  }

  predicate Occupied(book: Book, slot: string) {
    exists id :: id in book && book[id].slot == slot
  }

  predicate OtherOccupant(book: Book, slot: string, id: string) {
    exists q :: q in book && q != id && book[q].slot == slot
  }

  predicate SlotMet(env: Env, book: Book, slot: string) {
    Builtin(env, slot) || Occupied(book, slot)
  }

  /** An init dependency is met; the slot decides when both names are given. */
  predicate DepMet(env: Env, book: Book, d: Dependency) {
    d.kind == Init ==>
      if d.slot != "" then SlotMet(env, book, d.slot)
      else d.plugin in book && (d.minVersion == "" || Version.AtLeast(book[d.plugin].version, d.minVersion))
  }

  predicate DepsMet(env: Env, book: Book, m: Meta) {
    forall d :: d in m.deps ==> DepMet(env, book, d)
  }

  /** Every registered plugin has all its init dependencies. */
  ghost predicate Sound(env: Env, book: Book) {
    forall id :: id in book ==> DepsMet(env, book, book[id])
  }

  /** Exactly one of plugin and slot is named, as contract/meta.go asks. */
  predicate WellShaped(d: Dependency) {
    (d.plugin == "") != (d.slot == "")
  }

  /** A dependency whose presence all of the host judges alike: not an init dependency, or of one name. */
  predicate OneName(d: Dependency) {
    d.kind == Init ==> WellShaped(d)
  }

  predicate ShapedMeta(m: Meta) {
    forall d :: d in m.deps ==> OneName(d)
  }

  /** Or of two names where the slot is built in, so that it cannot be lost. */
  predicate Lasting(env: Env, d: Dependency) {
    OneName(d) || (d.slot != "" && Builtin(env, d.slot))
  }

  predicate LastingMeta(env: Env, m: Meta) {
    forall d :: d in m.deps ==> Lasting(env, d)
  }

  ghost predicate LastingBook(env: Env, book: Book) {
    forall id :: id in book ==> LastingMeta(env, book[id])
  }

  ghost predicate Shaped(book: Book) {
    forall id :: id in book ==> ShapedMeta(book[id])
  }

  /** b holds every entry of a, unchanged. */
  ghost predicate Grows(a: Book, b: Book) {
    forall id :: id in a ==> id in b && b[id] == a[id]
  }

  lemma MoreIsMet(env: Env, a: Book, b: Book, d: Dependency)
    requires Grows(a, b) && DepMet(env, a, d)
    ensures DepMet(env, b, d)
  {
    if d.kind == Init && d.slot != "" && !Builtin(env, d.slot) {
      var id :| id in a && a[id].slot == d.slot;
      assert id in b && b[id].slot == d.slot;
    }
  }

  lemma MoreAreMet(env: Env, a: Book, b: Book, m: Meta)
    requires Grows(a, b) && DepsMet(env, a, m)
    ensures DepsMet(env, b, m)
  {
    forall d | d in m.deps
      ensures DepMet(env, b, d)
    {
      MoreIsMet(env, a, b, d);
    }
  }

  lemma SlotStaysMet(env: Env, a: Book, b: Book, slot: string)
    requires Grows(a, b) && SlotMet(env, a, slot)
    ensures SlotMet(env, b, slot)
  {
    if !Builtin(env, slot) {
      var id :| id in a && a[id].slot == slot;
      assert id in b && b[id].slot == slot;
    }
  }

  // ---- admission checks of host/register.go ----

  datatype Error =
    | EmptyId
    | DuplicateId
    | BadId
    | BadFunction(name: string)
    | EmptyDependency
    | InitUnmet(dep: Dependency)
    | UnknownSlot
    | SlotContractUnmet
    | FunctionConflict(name: string)
    | NotRegistered
    | StillRequired(dependents: set<string>)
    | DuplicateInBatch
    | MissingDependency(key: Key)
    | DependencyCycle

  /** A dependency key of host/batch.go: a plugin id or a slot name. */
  datatype Key = PluginKey(id: string) | SlotKey(slot: string)

  /** Holds a character at or below the space. */
  predicate BadChars(s: string) {
    exists c :: c in s && c <= ' '
  }

  predicate GoodFunc(f: Func) {
    f.name != "" && '.' !in f.name && !BadChars(f.name)
  }

  predicate NamesNothing(d: Dependency) {
    d.plugin == "" && d.slot == ""
  }

  predicate SlotContractMet(env: Env, book: Book, m: Meta)
    requires m.slot in env.slots
  {
    env.axesMet(m) && forall n :: n in env.slots[m.slot].needs ==> SlotMet(env, book, n)
  }

  predicate SlotOk(env: Env, book: Book, m: Meta) {
    m.slot == "" || (m.slot in env.slots && SlotContractMet(env, book, m))
  }

  /** The checks that do not look at the dependencies' presence. */
  predicate StaticOk(m: Meta) {
    !BadChars(m.id) && (forall f :: f in m.functions ==> GoodFunc(f)) && forall d :: d in m.deps ==> !NamesNothing(d)
  }

  predicate Acceptable(env: Env, book: Book, m: Meta) {
    StaticOk(m) && DepsMet(env, book, m) && SlotOk(env, book, m)
  }

  function FirstBadFunc(fs: seq<Func>): (r: Option<Func>)
    ensures r.None? <==> forall f :: f in fs ==> GoodFunc(f)
  {
    if fs == [] then None else if !GoodFunc(fs[0]) then Some(fs[0]) else
    assert forall f :: f in fs <==> f == fs[0] || f in fs[1..];
    FirstBadFunc(fs[1..])
  }

  function FirstUnmet(env: Env, book: Book, ds: seq<Dependency>): (r: Option<Dependency>)
    ensures r.None? <==> forall d :: d in ds ==> DepMet(env, book, d)
    ensures r.Some? ==> r.value in ds && !DepMet(env, book, r.value)
  {
    if ds == [] then None else if !DepMet(env, book, ds[0]) then Some(ds[0]) else
    assert forall d :: d in ds <==> d == ds[0] || d in ds[1..];
    FirstUnmet(env, book, ds[1..])
  }

  /** validateContractLocked: the first check that fails. */
  function Validate(env: Env, book: Book, m: Meta): (r: Option<Error>)
    ensures r.None? <==> Acceptable(env, book, m)
  {
    if BadChars(m.id) then Some(BadId) else
    match FirstBadFunc(m.functions)
    case Some(f) => Some(BadFunction(f.name))
    case None =>
      if exists d :: d in m.deps && NamesNothing(d) then Some(EmptyDependency) else
      match FirstUnmet(env, book, m.deps)
      case Some(d) => Some(InitUnmet(d))
      case None =>
        if m.slot == "" then None
        else if m.slot !in env.slots then Some(UnknownSlot)
        else if !SlotContractMet(env, book, m) then Some(SlotContractUnmet)
        else None
  }
}
