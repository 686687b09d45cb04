// The hot-reload watcher of autoload/autoload.go: one unit per file, driven by polls, against a host
// whose verdicts are arbitrary. Plugin instances are numbered; 0 stands for instances of others.
module Watcher {
  import opened Text

  type Path = string
  type Hash = nat

  /** The empty hash string: nothing observed, nothing rejected. */
  const NO_HASH: Hash := 0

  /** A loaded instance and the id of its manifest. */
  datatype Plugin = Plugin(handle: nat, id: string)

  datatype Unit = Unit(
    hash: Hash,
    pending: Hash,
    misses: nat,
    id: string,
    plugin: Option<Plugin>,
    loaded: bool,
    np: Option<Plugin>,
    npHash: Hash,
    errHash: Hash)

  const FRESH: Unit := Unit(NO_HASH, NO_HASH, 0, "", None, false, None, NO_HASH, NO_HASH)

  /** What reading and loading a file's content gives. */
  datatype Image = Unreadable | Broken | Good(id: string)

  /** The environment's answers about one path in one round: granted is Remove's for a vanished file, ok is Register's
      or Replace's, removed is Remove's for the old id, victims is what a cascade takes besides the plugin itself. */
  datatype Verdict = Verdict(granted: bool, image: Image, ok: bool, removed: bool, victims: set<string>)

  /** The watcher's units, the host's registered instances, the next instance number and the instances closed. */
  datatype State = State(units: map<Path, Unit>, live: map<string, nat>, next: nat, closed: multiset<nat>)

  // ---- the host's answers, cut to what the host can do ----

  predicate Registers(s: State, np: Plugin, ok: bool) {
    ok && np.id !in s.live
  }

  predicate Replaces(s: State, np: Plugin, ok: bool) {
    ok && np.id in s.live
  }

  /** Removing an id that is not registered succeeds and does nothing. */
  predicate Removes(s: State, id: string, ok: bool) {
    ok || id !in s.live
  }

  // ---- state changes ----

  function Keep(s: State, p: Path, u: Unit): State {
    s.(units := s.units[p := u])
  }

  function Close(s: State, h: nat): State {
    s.(closed := s.closed + multiset{h})
  }

  function Enter(s: State, np: Plugin): State {
    s.(live := s.live[np.id := np.handle])
  }

  function Drop(s: State, ids: set<string>): State {
    s.(live := s.live - ids)
  }

  function Forget(s: State, p: Path): State {
    s.(units := s.units - {p})
  }

  // ---- a poll's first pass: files gone missing ----

  function Missed(s: State, p: Path, granted: bool): State
    requires p in s.units && s.units[p].loaded && s.units[p].plugin.Some?
  {
    var u := s.units[p];
    if u.misses + 1 < 2 then Keep(s, p, u.(misses := u.misses + 1))
    else if Removes(s, u.id, granted) then Forget(Close(Drop(s, {u.id}), u.plugin.value.handle), p)
    else Keep(s, p, u.(misses := 0))
  }

  function Looked(s: State, seen: map<Path, Hash>, p: Path, granted: bool): State {
    if p !in s.units || !s.units[p].loaded || s.units[p].plugin.None? then s
    else if p in seen then Keep(s, p, s.units[p].(misses := 0))
    else Missed(s, p, granted)
  }

  // ---- a poll's second pass: new and changed content ----

  function UnitAt(s: State, p: Path): Unit {
    if p in s.units then s.units[p] else FRESH
  }

  /** Content seen again, neither the loaded nor the rejected one: it is applied. */
  predicate Applies(u: Unit, h: Hash) {
    !Settled(u, h) && u.pending == h
  }

  /** Nothing to do: the content is the loaded one, or was rejected and no instance waits. */
  predicate Settled(u: Unit, h: Hash) {
    (u.loaded && h == u.hash) || (u.np.None? && u.errHash == h)
  }

  function Noticed(s: State, p: Path, h: Hash, v: Verdict): State {
    var u := UnitAt(s, p);
    var s1 := Keep(s, p, u);
    if Settled(u, h) then s1
    else if u.pending != h then Keep(s1, p, u.(pending := h))
    else Applied(s1, p, h, v)
  }

  function Adopting(u: Unit, np: Plugin, h: Hash): Unit {
    u.(id := np.id, hash := h, loaded := true, plugin := Some(np), np := None, npHash := NO_HASH)
  }

  /** applyChange: an instance that waits is registered, or closed when the content moved on. */
  function Applied(s: State, p: Path, h: Hash, v: Verdict): State
    requires p in s.units
  {
    var u := s.units[p];
    if u.np.None? then Loaded(s, p, h, v)
    else if h == u.npHash then
      if Registers(s, u.np.value, v.ok) then Keep(Enter(s, u.np.value), p, Adopting(u, u.np.value, h)) else s
    else Loaded(Shed(s, p), p, h, v)
  }

  function Shed(s: State, p: Path): State
    requires p in s.units && s.units[p].np.Some?
  {
    var u := s.units[p];
    Keep(Close(s, u.np.value.handle), p, u.(np := None, npHash := NO_HASH))
  }

  /** applyChange from the reading of the content on. */
  function Loaded(s: State, p: Path, h: Hash, v: Verdict): State
    requires p in s.units
  {
    var u := s.units[p];
    match v.image
    case Unreadable => Keep(s, p, u.(pending := NO_HASH))
    case Broken => Keep(s, p, u.(pending := NO_HASH, errHash := if u.loaded then u.errHash else h))
    case Good(id) =>
      var np := Plugin(s.next, id);
      var s1 := s.(next := s.next + 1);
      if !u.loaded || u.plugin.None? then FirstTime(s1, p, np, h, v.ok)
      else if id != u.id then Reidentified(s1, p, np, h, v.ok, v.removed)
      else Swapped(s1, p, np, h, v.ok)
  }

  function FirstTime(s: State, p: Path, np: Plugin, h: Hash, ok: bool): State
    requires p in s.units
  {
    if Registers(s, np, ok) then Keep(Enter(s, np), p, Adopting(s.units[p], np, h))
    else Keep(s, p, s.units[p].(np := Some(np), npHash := h))
  }

  /** The new instance is closed, the old one keeps serving. */
  function Refused(s: State, p: Path, np: Plugin, h: Hash): State
    requires p in s.units
  {
    Keep(Close(s, np.handle), p, s.units[p].(pending := NO_HASH, errHash := h))
  }

  /** Another id: register the new instance, then remove the old id; a refusal leaves the old one registered. */
  function Reidentified(s: State, p: Path, np: Plugin, h: Hash, ok: bool, removed: bool): State
    requires p in s.units && s.units[p].plugin.Some?
  {
    var u := s.units[p];
    if !Registers(s, np, ok) then Refused(s, p, np, h)
    else
      var s1 := Enter(s, np);
      var s2 := if Removes(s1, u.id, removed) then Close(Drop(s1, {u.id}), u.plugin.value.handle) else s1;
      Keep(s2, p, u.(id := np.id, hash := h, plugin := Some(np)))
  }

  function Swapped(s: State, p: Path, np: Plugin, h: Hash, ok: bool): State
    requires p in s.units && s.units[p].plugin.Some?
  {
    var u := s.units[p];
    if !Replaces(s, np, ok) then Refused(s, p, np, h)
    else Keep(Close(Enter(s, np), u.plugin.value.handle), p, u.(hash := h, plugin := Some(np)))
  }

  // ---- Unload ----

  /** What the cascade for a unit takes out of the host. */
  function Taken(s: State, u: Unit, victims: set<string>): set<string> {
    if u.id in s.live then victims + {u.id} else {}
  }

  function Unloaded(s: State, p: Path, victims: set<string>): State {
    if p !in s.units then s
    else
      var u := s.units[p];
      if !u.loaded then Forget(if u.np.Some? then Close(s, u.np.value.handle) else s, p)
      else
        var s1 := Drop(s, Taken(s, u, victims));
        Forget(if u.plugin.Some? then Close(s1, u.plugin.value.handle) else s1, p)
  }

  // ---- rounds ----

  /** The keys of a map in some order: what Go's range gives. */
  ghost predicate Covers(order: seq<Path>, keys: set<Path>) {
    && (forall p :: p in order <==> p in keys)
    && (forall i, j :: 0 <= i < j < |order| ==> order[i] != order[j])
  }

  function Looks(s: State, seen: map<Path, Hash>, v: Path -> Verdict, order: seq<Path>): State {
    if order == [] then s
    else Looked(Looks(s, seen, v, order[..|order| - 1]), seen, order[|order| - 1], v(order[|order| - 1]).granted)
  }

  function Turns(s: State, seen: map<Path, Hash>, v: Path -> Verdict, order: seq<Path>): State
    requires forall p :: p in order ==> p in seen
  {
    if order == [] then s
    else
      var p := order[|order| - 1];
      Noticed(Turns(s, seen, v, order[..|order| - 1]), p, seen[p], v(p))
  }

  function Unloads(s: State, v: Path -> Verdict, order: seq<Path>): State {
    if order == [] then s
    else Unloaded(Unloads(s, v, order[..|order| - 1]), order[|order| - 1], v(order[|order| - 1]).victims)
  }

  datatype Round =
    | Poll(seen: map<Path, Hash>, v: Path -> Verdict, looks: seq<Path>, turns: seq<Path>)
    | Unload(v: Path -> Verdict, order: seq<Path>)

  ghost predicate CanRun(s: State, r: Round) {
    match r
    case Poll(seen, v, looks, turns) =>
      Covers(looks, s.units.Keys) && Covers(turns, seen.Keys) && forall p :: p in seen ==> seen[p] != NO_HASH
    case Unload(v, order) => Covers(order, s.units.Keys)
  }

  ghost function Next(s: State, r: Round): State
    requires CanRun(s, r)
  {
    match r
    case Poll(seen, v, looks, turns) => Turns(Looks(s, seen, v, looks), seen, v, turns)
    case Unload(v, order) => Unloads(s, v, order)
  }

  /** At first no unit, no instance of ours. */
  ghost predicate IsStart(s: State) {
    s.units == map[] && s.next == 1 && s.closed == multiset{} && forall k :: k in s.live ==> s.live[k] == 0
  }

  ghost predicate IsRun(states: seq<State>, rounds: seq<Round>) {
    && |states| == |rounds| + 1 && IsStart(states[0])
    && forall i :: 0 <= i < |rounds| ==> CanRun(states[i], rounds[i]) && states[i + 1] == Next(states[i], rounds[i])
  }
}
