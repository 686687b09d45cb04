// What one look at a file leads to, by the host's verdict: which instance is registered, which one waits, which ones
// are closed, and that nothing else changes.
module WatchedOutcomes {
  import opened Text
  import opened Watcher
  import opened WatchedInstances
  import opened WatchedUnload
  import opened WatchedPaths

  /** t is s with this unit at p and these host tables. */
  ghost predicate Becomes(s: State, t: State, p: Path, u: Unit, live: map<string, nat>, next: nat, closed: multiset<nat>) {
    t.units == s.units[p := u] && t.live == live && t.next == next && t.closed == closed
  }

  /** The content was seen in the poll before, is not the loaded one, and was not rejected, or an instance waits. */
  ghost predicate SeenAgain(u: Unit, h: Hash) {
    u.pending == h && (u.loaded ==> u.hash != h) && (u.np.None? ==> u.errHash != h)
  }

  /** The instance that waits was loaded from this very content. */
  ghost predicate WaitsWith(u: Unit, np: Plugin, h: Hash) {
    u.np == Some(np) && u.npHash == h
  }

  // ---- an instance that waits ----

  /** Its id is free and the host accepts it: that very instance is registered, and no other is made or closed. */
  lemma WaitingIsRegistered(s: State, p: Path, h: Hash, v: Verdict, np: Plugin)
    requires UnitOk(UnitAt(s, p)) && SeenAgain(UnitAt(s, p), h) && WaitsWith(UnitAt(s, p), np, h)
    requires v.ok && np.id !in s.live
    ensures var u := UnitAt(s, p);
      Becomes(s, Noticed(s, p, h, v), p, u.(id := np.id, hash := h, loaded := true, plugin := Some(np), np := None, npHash := NO_HASH),
              s.live[np.id := np.handle], s.next, s.closed)
  {
    hide Loaded;
  }

  /** Otherwise it goes on waiting and nothing happens. */
  lemma WaitingGoesOn(s: State, p: Path, h: Hash, v: Verdict, np: Plugin)
    requires UnitOk(UnitAt(s, p)) && SeenAgain(UnitAt(s, p), h) && WaitsWith(UnitAt(s, p), np, h)
    requires !v.ok || np.id in s.live
    ensures Becomes(s, Noticed(s, p, h, v), p, UnitAt(s, p), s.live, s.next, s.closed)
  {
    hide Loaded;
  }

  // ---- content that is loaded ----

  /** No instance waits, or one of other content. */
  ghost predicate ToLoad(u: Unit, h: Hash) {
    UnitOk(u) && SeenAgain(u, h) && (u.np.Some? ==> u.npHash != h)
  }

  /** The instance of other content, which is closed first. */
  function Outdated(u: Unit): multiset<nat> {
    if u.np.Some? then multiset{u.np.value.handle} else multiset{}
  }

  function Cleared(u: Unit): Unit {
    u.(np := None, npHash := NO_HASH)
  }

  lemma ToLoadIsLoaded(s: State, p: Path, h: Hash, v: Verdict) returns (s1: State)
    requires ToLoad(UnitAt(s, p), h)
    ensures p in s1.units && s1.units[p] == (if UnitAt(s, p).np.Some? then Cleared(UnitAt(s, p)) else UnitAt(s, p))
    ensures Becomes(s, s1, p, s1.units[p], s.live, s.next, s.closed + Outdated(UnitAt(s, p)))
    ensures Noticed(s, p, h, v) == Loaded(s1, p, h, v)
  {
    hide Loaded;
    var u := UnitAt(s, p);
    s1 := if u.np.None? then Keep(s, p, u) else Shed(Keep(s, p, u), p);
  }

  /** Content that cannot be read or is broken has to be seen twice again; if nothing is loaded, broken content is
      remembered as rejected. */
  lemma BadIsSetAside(s: State, p: Path, h: Hash, v: Verdict)
    requires ToLoad(UnitAt(s, p), h) && !v.image.Good?
    ensures var u := UnitAt(s, p);
      exists w :: Becomes(s, Noticed(s, p, h, v), p, w, s.live, s.next, s.closed + Outdated(u))
        && w.pending == NO_HASH && w.np.None? && w.plugin == u.plugin && w.id == u.id && w.hash == u.hash && w.loaded == u.loaded
        && w.misses == u.misses && w.errHash == if v.image.Broken? && !u.loaded then h else u.errHash
  {
    var u := UnitAt(s, p);
    var s1 := ToLoadIsLoaded(s, p, h, v);
    hide Noticed, SeenAgain;
    var t := Loaded(s1, p, h, v);
    assert Becomes(s, t, p, t.units[p], s.live, s.next, s.closed + Outdated(u));
  }

  /** A first load that the host accepts is registered under the next number. */
  lemma FirstIsRegistered(s: State, p: Path, h: Hash, v: Verdict)
    requires ToLoad(UnitAt(s, p), h) && !UnitAt(s, p).loaded && v.image.Good? && v.ok && v.image.id !in s.live
    ensures var u, np := UnitAt(s, p), Plugin(s.next, v.image.id);
      Becomes(s, Noticed(s, p, h, v), p, Cleared(u).(id := np.id, hash := h, loaded := true, plugin := Some(np)),
              s.live[np.id := s.next], s.next + 1, s.closed + Outdated(u))
  {
    var s1 := ToLoadIsLoaded(s, p, h, v);
    hide Noticed, SeenAgain;
  }

  /** A first load that the host refuses waits, with its content. */
  lemma FirstWaits(s: State, p: Path, h: Hash, v: Verdict)
    requires ToLoad(UnitAt(s, p), h) && !UnitAt(s, p).loaded && v.image.Good? && (!v.ok || v.image.id in s.live)
    ensures var u := UnitAt(s, p);
      Becomes(s, Noticed(s, p, h, v), p, u.(np := Some(Plugin(s.next, v.image.id)), npHash := h),
              s.live, s.next + 1, s.closed + Outdated(u))
  {
    var s1 := ToLoadIsLoaded(s, p, h, v);
    hide Noticed, SeenAgain;
  }

  /** New content of the same id that the host accepts takes the place of the old, which is closed. */
  lemma NewerIsSwappedIn(s: State, p: Path, h: Hash, v: Verdict)
    requires ToLoad(UnitAt(s, p), h) && UnitAt(s, p).loaded && v.image == Good(UnitAt(s, p).id)
    requires v.ok && UnitAt(s, p).id in s.live
    ensures var u, np := UnitAt(s, p), Plugin(s.next, UnitAt(s, p).id);
      Becomes(s, Noticed(s, p, h, v), p, u.(hash := h, plugin := Some(np)), s.live[u.id := s.next], s.next + 1,
              s.closed + multiset{u.plugin.value.handle})
  {
    var s1 := ToLoadIsLoaded(s, p, h, v);
    hide Noticed, SeenAgain;
  }

  /** New content of another id that the host accepts is registered; the old instance is taken out and closed if the host
      removes the old id, and stays registered otherwise. */
  lemma OtherIdIsRegistered(s: State, p: Path, h: Hash, v: Verdict)
    requires ToLoad(UnitAt(s, p), h) && UnitAt(s, p).loaded && v.image.Good? && v.image.id != UnitAt(s, p).id
    requires v.ok && v.image.id !in s.live
    ensures var u, np := UnitAt(s, p), Plugin(s.next, v.image.id);
      var w, live := u.(id := np.id, hash := h, plugin := Some(np)), s.live[np.id := s.next];
      if v.removed || u.id !in s.live
        then Becomes(s, Noticed(s, p, h, v), p, w, live - {u.id}, s.next + 1, s.closed + multiset{u.plugin.value.handle})
        else Becomes(s, Noticed(s, p, h, v), p, w, live, s.next + 1, s.closed)
  {
    var s1 := ToLoadIsLoaded(s, p, h, v);
    hide Noticed, SeenAgain;
  }

  /** New content that the host refuses to a loaded plugin is closed and rejected; the old instance goes on serving. */
  lemma RefusedNewcomerIsClosed(s: State, p: Path, h: Hash, v: Verdict)
    requires ToLoad(UnitAt(s, p), h) && UnitAt(s, p).loaded && v.image.Good?
    requires !v.ok || (v.image.id in s.live <==> v.image.id != UnitAt(s, p).id)
    ensures var u := UnitAt(s, p);
      Becomes(s, Noticed(s, p, h, v), p, u.(pending := NO_HASH, errHash := h), s.live, s.next + 1, s.closed + multiset{s.next})
  {
    var s1 := ToLoadIsLoaded(s, p, h, v);
    hide Noticed, SeenAgain;
  }

  // ---- content that is not applied ----

  /** Content that is loaded, or rejected with no instance waiting, changes nothing; other content not seen in the poll
      before is only noted. */
  lemma FirstSightIsNoted(s: State, p: Path, h: Hash, v: Verdict)
    requires UnitOk(UnitAt(s, p)) && !SeenAgain(UnitAt(s, p), h)
    ensures var u := UnitAt(s, p);
      var settled := (u.loaded && u.hash == h) || (u.np.None? && u.errHash == h);
      Becomes(s, Noticed(s, p, h, v), p, if settled then u else u.(pending := h), s.live, s.next, s.closed)
  {
    hide Applied;
  }

  // ---- files gone missing ----

  /** A loaded unit missed for the second time is closed, unregistered and forgotten if the host lets it go, and keeps
      serving with its count at nought if not; a first miss is counted, a sight clears the count. */
  lemma MissedTwiceIsRemoved(s: State, seen: map<Path, Hash>, p: Path, granted: bool)
    requires p in s.units && UnitOk(s.units[p]) && s.units[p].loaded
    ensures var u, t := s.units[p], Looked(s, seen, p, granted);
      if p !in seen && u.misses > 0 && (granted || u.id !in s.live)
        then t == s.(units := s.units - {p}, live := s.live - {u.id}, closed := s.closed + multiset{u.plugin.value.handle})
        else t == s.(units := s.units[p := u.(misses := if p !in seen && u.misses == 0 then 1 else 0)])
  {
  }

  lemma UnloadedIsNotMissed(s: State, seen: map<Path, Hash>, p: Path, granted: bool)
    requires p in s.units ==> !s.units[p].loaded
    ensures Looked(s, seen, p, granted) == s
  {
  }

  // ---- Unload ----

  /** Unloading a unit closes the instance it holds, takes a registered id out with the host's victims, and forgets it. */
  lemma UnloadLetsGo(s: State, p: Path, victims: set<string>)
    requires p in s.units && UnitOk(s.units[p])
    ensures var u := s.units[p];
      Unloaded(s, p, victims) == s.(
        units := s.units - {p},
        live := if u.loaded && u.id in s.live then s.live - ({u.id} + victims) else s.live,
        closed := s.closed + if u.plugin.Some? then multiset{u.plugin.value.handle} else Outdated(u))
  {
    var u := s.units[p];
    assert u.id in s.live ==> victims + {u.id} == {u.id} + victims;
    assert s.live - {} == s.live;
  }

  // ---- a whole poll ----

  /** The turns from the k-th on do not touch a path that is not among them. */
  lemma {:induction false} TurnsRest(s: State, seen: map<Path, Hash>, v: Path -> Verdict, order: seq<Path>, k: nat, p: Path)
    requires k <= |order| && p !in order[k..] && forall q :: q in order ==> q in seen
    ensures SameAt(Turns(s, seen, v, order[..k]), Turns(s, seen, v, order), p)
  {
    hide Noticed;
    if k == |order| {
      assert order[..k] == order;
      SelfSame(Turns(s, seen, v, order), p);
    } else {
      var before, q := order[..|order| - 1], order[|order| - 1];
      assert before[..k] == order[..k] && order[k..] == before[k..] + [q];
      TurnsRest(s, seen, v, before, k, p);
      NoticedElsewhere(Turns(s, seen, v, before), q, seen[q], v(q), p);
    }
  }

  /** The turn of a path sees its unit as the first pass left it. */
  lemma AtItsTurn(s: State, r: Round, p: Path, i: nat)
    requires Intact(s) && Serving(s) && CanRun(s, r) && r.Poll? && i < |r.turns| && r.turns[i] == p
    requires p in s.units && p in r.seen && !s.units[p].loaded
    ensures SameAt(s, Turns(Looks(s, r.seen, r.v, r.looks), r.seen, r.v, r.turns[..i]), p)
  {
    var a := Looks(s, r.seen, r.v, r.looks);
    LooksAt(s, r.seen, r.v, r.looks, p);
    hide Looks, Turns, Intact, Serving;
    TurnsMissing(a, r.seen, r.v, r.turns[..i], p);
  }

  lemma TurnIsTaken(a: State, seen: map<Path, Hash>, v: Path -> Verdict, order: seq<Path>, i: nat)
    requires i < |order| && forall q :: q in order ==> q in seen
    ensures Turns(a, seen, v, order[..i + 1]) == Noticed(Turns(a, seen, v, order[..i]), order[i], seen[order[i]], v(order[i]))
  {
    hide Noticed;
    assert order[..i + 1][..i] == order[..i];
  }

  lemma PollStaysFine(s: State, r: Round)
    requires Intact(s) && Serving(s) && CanRun(s, r) && r.Poll?
    ensures Intact(Next(s, r)) && Serving(Next(s, r))
  {
    LooksFine(s, r.seen, r.v, r.looks);
    hide Intact, Serving, Looks, Turns, LostSame;
    TurnsFine(Looks(s, r.seen, r.v, r.looks), r.seen, r.v, r.turns);
  }

  /** If the id of a waiting instance is free at its turn in a poll that sees its content again, and the host accepts it,
      then after the poll that instance is loaded and registered. */
  lemma PollRegistersWaiting(s: State, r: Round, p: Path, np: Plugin, i: nat)
    requires Intact(s) && Serving(s) && CanRun(s, r) && r.Poll? && i < |r.turns| && r.turns[i] == p
    requires p in s.units && p in r.seen && WaitsWith(s.units[p], np, r.seen[p]) && s.units[p].pending == r.seen[p] && r.v(p).ok
    requires np.id !in Turns(Looks(s, r.seen, r.v, r.looks), r.seen, r.v, r.turns[..i]).live
    ensures var t := Next(s, r);
      && p in t.units && t.units[p].loaded && t.units[p].plugin == Some(np) && t.units[p].hash == r.seen[p]
      && np.id in t.live && t.live[np.id] == np.handle
  {
    var u, h, a := s.units[p], r.seen[p], Looks(s, r.seen, r.v, r.looks);
    assert UnitOk(u) && !u.loaded;
    var b, t := Turns(a, r.seen, r.v, r.turns[..i]), Next(s, r);
    AtItsTurn(s, r, p, i);
    PollStaysFine(s, r);
    TurnIsTaken(a, r.seen, r.v, r.turns, i);
    assert p !in r.turns[i + 1..];
    TurnsRest(a, r.seen, r.v, r.turns, i + 1, p);
    hide Intact, Serving, Looks, Turns, Noticed;
    WaitingIsRegistered(b, p, h, r.v(p), np);
    OwnsIts(t, p);
  }
}
