// What a poll does to one file: content is applied only after an earlier poll saw it, and a plugin is
// unloaded only when two polls in a row missed its file.
module WatchedPaths {
  import opened Text
  import opened Watcher
  import opened WatchedInstances
  import opened WatchedUnload

  // ---- one pass, one path ----

  function MissesAfter(u: Unit, seen: bool): nat {
    if !u.loaded then u.misses else if seen || u.misses > 0 then 0 else 1
  }

  /** The first pass at a path: the unit stays but for its count, or goes after a second miss. */
  ghost predicate LookedAt(s: State, t: State, p: Path, seen: bool) {
    && (p in t.units ==> p in s.units && t.units[p] == s.units[p].(misses := MissesAfter(s.units[p], seen)))
    && (p in s.units && p !in t.units ==> s.units[p].loaded && !seen && s.units[p].misses > 0)
  }

  ghost predicate SameAt(s: State, t: State, p: Path) {
    (p in s.units <==> p in t.units) && (p in s.units ==> s.units[p] == t.units[p])
  }

  /** The second pass at a path that was seen. */
  ghost predicate TurnedAt(s: State, t: State, p: Path, h: Hash) {
    && p in t.units
    && var u, w := UnitAt(s, p), t.units[p];
    && w.misses == u.misses
    && (u.loaded ==> w.loaded)
    && (w.pending == NO_HASH || w.pending == h || (w.pending == u.pending && Settled(u, h)))
    && (!Applies(u, h) ==> w == u.(pending := if Settled(u, h) then u.pending else h))
  }

  lemma LookedHere(s: State, seen: map<Path, Hash>, p: Path, granted: bool)
    requires UnitsOk(s)
    ensures LookedAt(s, Looked(s, seen, p, granted), p, p in seen)
  {
  }

  lemma LookedElsewhere(s: State, seen: map<Path, Hash>, q: Path, granted: bool, p: Path)
    requires p != q
    ensures SameAt(s, Looked(s, seen, q, granted), p)
  {
  }

  lemma LoadedElsewhere(s: State, q: Path, h: Hash, v: Verdict, p: Path)
    requires p != q && q in s.units
    ensures SameAt(s, Loaded(s, q, h, v), p)
  {
  }

  lemma NoticedElsewhere(s: State, q: Path, h: Hash, v: Verdict, p: Path)
    requires p != q
    ensures SameAt(s, Noticed(s, q, h, v), p)
  {
    hide Loaded;
    var u := UnitAt(s, q);
    var s1 := Keep(s, q, u);
    if u.pending == h {
      LoadedElsewhere(s1, q, h, v, p);
      if u.np.Some? {
        LoadedElsewhere(Shed(s1, q), q, h, v, p);
      }
    }
  }

  /** What applying content does to the unit. */
  ghost predicate AppliedTo(u: Unit, w: Unit, h: Hash) {
    w.misses == u.misses && (u.loaded ==> w.loaded) && (w.pending == u.pending || w.pending == NO_HASH)
  }

  lemma LoadedHere(s: State, p: Path, h: Hash, v: Verdict)
    requires p in s.units
    ensures p in Loaded(s, p, h, v).units && AppliedTo(s.units[p], Loaded(s, p, h, v).units[p], h)
  {
  }

  lemma NoticedHere(s: State, p: Path, h: Hash, v: Verdict)
    ensures TurnedAt(s, Noticed(s, p, h, v), p, h)
  {
    hide Loaded;
    var u := UnitAt(s, p);
    var s1 := Keep(s, p, u);
    if u.pending == h {
      LoadedHere(s1, p, h, v);
      if u.np.Some? {
        LoadedHere(Shed(s1, p), p, h, v);
      }
    }
  }

  /** New content that is bad, or that the host refuses to a loaded plugin, is rejected. */
  lemma BadContentIsRejected(s: State, p: Path, h: Hash, v: Verdict)
    requires p in s.units && UnitOk(s.units[p]) && s.units[p].np.None?
    requires match v.image
      case Unreadable => false
      case Broken => !s.units[p].loaded
      case Good(id) => s.units[p].loaded && !v.ok
    ensures var w := Loaded(s, p, h, v).units[p];
      w.errHash == h && w.np.None? && w.plugin == s.units[p].plugin && w.hash == s.units[p].hash && Settled(w, h)
  {
  }

  lemma LoadedOldOrNew(s: State, p: Path, h: Hash, v: Verdict)
    requires p in s.units && UnitOk(s.units[p])
    ensures var u, w := s.units[p], Loaded(s, p, h, v).units[p];
      (w.loaded && w.hash == h) || (w.loaded == u.loaded && w.hash == u.hash && w.plugin == u.plugin && w.id == u.id)
  {
  }

  /** Applying content ends with the new content registered under its id, or with the old plugin as it was. */
  lemma OldOrNewServes(s: State, p: Path, h: Hash, v: Verdict)
    requires Intact(s) && Serving(s) && p in s.units
    ensures var t := Applied(s, p, h, v);
      && p in t.units
      && var u, w := s.units[p], t.units[p];
      && ((w.loaded && w.hash == h) || (w.loaded == u.loaded && w.hash == u.hash && w.plugin == u.plugin && w.id == u.id))
      && (w.loaded ==> w.plugin.Some? && w.id in t.live && t.live[w.id] == w.plugin.value.handle)
  {
    AppliedFine(s, p, h, v);
    var t, u := Applied(s, p, h, v), s.units[p];
    LoadedOldOrNew(s, p, h, v);
    if u.np.Some? {
      LoadedOldOrNew(Shed(s, p), p, h, v);
    }
    LoadedHere(s, p, h, v);
    if u.np.Some? {
      LoadedHere(Shed(s, p), p, h, v);
    }
    hide Loaded;
    assert p in t.units;
    if t.units[p].loaded {
      OwnsIts(t, p);
    }
    hide HoldersOk, ClosedOk, LiveOk, NamesOk, LostSame, Serving;
  }

  // ---- a whole poll, one path ----

  lemma {:induction false} LooksMissing(s: State, seen: map<Path, Hash>, v: Path -> Verdict, order: seq<Path>, p: Path)
    requires p !in order
    ensures SameAt(s, Looks(s, seen, v, order), p)
  {
    hide Looked;
    if order != [] {
      LooksMissing(s, seen, v, order[..|order| - 1], p);
      LookedElsewhere(Looks(s, seen, v, order[..|order| - 1]), seen, order[|order| - 1], v(order[|order| - 1]).granted, p);
    }
  }

  lemma {:induction false} LooksAt(s: State, seen: map<Path, Hash>, v: Path -> Verdict, order: seq<Path>, p: Path)
    requires Intact(s) && Serving(s) && p in order
    requires forall i, j :: 0 <= i < j < |order| ==> order[i] != order[j]
    ensures LookedAt(s, Looks(s, seen, v, order), p, p in seen)
  {
    hide Looked, NamesOk, HoldersOk, ClosedOk, LiveOk, Serving, LostSame;
    var before, q := order[..|order| - 1], order[|order| - 1];
    var t := Looks(s, seen, v, before);
    if q == p {
      LooksMissing(s, seen, v, before, p);
      LooksFine(s, seen, v, before);
      LookedHere(t, seen, p, v(p).granted);
    } else {
      assert order == before + [q];
      LooksAt(s, seen, v, before, p);
      LookedElsewhere(t, seen, q, v(q).granted, p);
    }
  }

  lemma {:induction false} TurnsMissing(s: State, seen: map<Path, Hash>, v: Path -> Verdict, order: seq<Path>, p: Path)
    requires p !in order && forall q :: q in order ==> q in seen
    ensures SameAt(s, Turns(s, seen, v, order), p)
  {
    hide Noticed;
    if order != [] {
      var q := order[|order| - 1];
      TurnsMissing(s, seen, v, order[..|order| - 1], p);
      NoticedElsewhere(Turns(s, seen, v, order[..|order| - 1]), q, seen[q], v(q), p);
    }
  }

  lemma SameTurned(s: State, s1: State, t: State, t1: State, p: Path, h: Hash)
    requires TurnedAt(s1, t, p, h) && SameAt(s, s1, p) && SameAt(t, t1, p)
    ensures TurnedAt(s, t1, p, h)
  {
  }

  lemma {:induction false} TurnsAt(s: State, seen: map<Path, Hash>, v: Path -> Verdict, order: seq<Path>, p: Path)
    requires p in order && forall q :: q in order ==> q in seen
    requires forall i, j :: 0 <= i < j < |order| ==> order[i] != order[j]
    ensures TurnedAt(s, Turns(s, seen, v, order), p, seen[p])
  {
    var before, q := order[..|order| - 1], order[|order| - 1];
    var t := Turns(s, seen, v, before);
    hide Noticed, SameAt, TurnedAt;
    if q == p {
      TurnsMissing(s, seen, v, before, p);
      NoticedHere(t, p, seen[p], v(p));
      SelfSame(Noticed(t, p, seen[p], v(p)), p);
      SameTurned(s, t, Noticed(t, p, seen[p], v(p)), Noticed(t, p, seen[p], v(p)), p, seen[p]);
    } else {
      assert order == before + [q];
      TurnsAt(s, seen, v, before, p);
      NoticedElsewhere(t, q, seen[q], v(q), p);
      SelfSame(s, p);
      SameTurned(s, s, t, Noticed(t, q, seen[q], v(q)), p, seen[p]);
    }
  }

  lemma SelfSame(s: State, p: Path)
    ensures SameAt(s, s, p)
  {
  }

  /** A poll as one path lives through it, in terms of the states before and after. */
  ghost predicate Polled(s: State, t: State, seen: map<Path, Hash>, p: Path) {
    if p in seen then
      var u := UnitAt(s, p);
      && p in t.units
      && t.units[p].misses == MissesAfter(u, true)
      && (u.loaded ==> t.units[p].loaded)
      && (t.units[p].pending == NO_HASH || t.units[p].pending == seen[p] || (t.units[p].pending == u.pending && Settled(u, seen[p])))
      && (!Applies(u, seen[p]) ==>
            t.units[p] == u.(pending := if Settled(u, seen[p]) then u.pending else seen[p], misses := MissesAfter(u, true)))
    else LookedAt(s, t, p, false)
  }

  lemma PollAt(s: State, r: Round, p: Path)
    requires Intact(s) && Serving(s) && CanRun(s, r) && r.Poll?
    ensures Polled(s, Next(s, r), r.seen, p)
  {
    var a := Looks(s, r.seen, r.v, r.looks);
    var t := Turns(a, r.seen, r.v, r.turns);
    hide Intact, Serving, Looks, Turns;
    if p in s.units {
      LooksAt(s, r.seen, r.v, r.looks, p);
    } else {
      LooksMissing(s, r.seen, r.v, r.looks, p);
    }
    if p in r.seen {
      TurnsAt(a, r.seen, r.v, r.turns, p);
    } else {
      TurnsMissing(a, r.seen, r.v, r.turns, p);
    }
  }

  lemma UnloadAt(s: State, r: Round, p: Path)
    requires CanRun(s, r) && r.Unload?
    ensures p !in Next(s, r).units
  {
    UnloadsForget(s, r.v, r.order, p);
  }

  // ---- runs ----

  /** Poll k saw h at p; every poll since saw h there, or nothing, or content already settled. */
  ghost predicate Confirms(states: seq<State>, rounds: seq<Round>, k: nat, n: nat, p: Path, h: Hash)
    requires n <= |rounds| < |states|
  {
    && k < n && rounds[k].Poll? && p in rounds[k].seen && rounds[k].seen[p] == h
    && forall j :: k < j < n ==> Between(states[j], rounds[j], p, h)
  }

  ghost predicate Between(s: State, r: Round, p: Path, h: Hash) {
    r.Poll? && (p in r.seen ==> r.seen[p] == h || Settled(UnitAt(s, p), r.seen[p]))
  }

  /** What is pending was seen, and confirmed since. */
  ghost predicate PendingSeen(states: seq<State>, rounds: seq<Round>, n: nat, p: Path)
    requires n <= |rounds| < |states|
  {
    p in states[n].units && states[n].units[p].pending != NO_HASH ==>
      exists k :: Confirms(states, rounds, k, n, p, states[n].units[p].pending)
  }

  lemma StaysConfirmed(states: seq<State>, rounds: seq<Round>, k: nat, n: nat, p: Path, h: Hash)
    requires n < |rounds| < |states| && Confirms(states, rounds, k, n, p, h) && Between(states[n], rounds[n], p, h)
    ensures Confirms(states, rounds, k, n + 1, p, h)
  {
    hide Between;
  }

  lemma PendingStep(states: seq<State>, rounds: seq<Round>, n: nat, p: Path)
    requires n < |rounds| < |states| && rounds[n].Poll? && PendingSeen(states, rounds, n, p)
    requires Polled(states[n], states[n + 1], rounds[n].seen, p)
    ensures PendingSeen(states, rounds, n + 1, p)
  {
    var s, t, r := states[n], states[n + 1], rounds[n];
    if p in t.units && t.units[p].pending != NO_HASH {
      var h := t.units[p].pending;
      if p in r.seen && r.seen[p] == h {
        assert Confirms(states, rounds, n, n + 1, p, h);
      } else {
        assert p in s.units && s.units[p].pending == h && Between(s, r, p, h);
        hide Polled, Settled, Between;
        var k :| Confirms(states, rounds, k, n, p, h);
        StaysConfirmed(states, rounds, k, n, p, h);
      }
    }
  }

  lemma {:induction false} PendingRuns(states: seq<State>, rounds: seq<Round>, n: nat, p: Path)
    requires IsRun(states, rounds) && n < |states|
    ensures PendingSeen(states, rounds, n, p)
  {
    hide CanRun, Next, Polled, Intact, Serving, NoneLost, Loses;
    if n > 0 {
      PendingRuns(states, rounds, n - 1, p);
      var s, r := states[n - 1], rounds[n - 1];
      RunsOk(states, rounds, n - 1);
      if r.Poll? {
        hide PendingSeen;
        PollAt(s, r, p);
        PendingStep(states, rounds, n - 1, p);
      } else {
        UnloadAt(s, r, p);
      }
    }
  }

  /** A poll applies content at a path only if an earlier poll saw the same content there, and every poll since saw that,
      nothing, the loaded content or the rejected one. */
  lemma AppliesConfirmed(states: seq<State>, rounds: seq<Round>, n: nat, p: Path)
    requires IsRun(states, rounds) && n < |rounds| && rounds[n].Poll? && p in rounds[n].seen
    requires Applies(UnitAt(states[n], p), rounds[n].seen[p])
    ensures exists k :: Confirms(states, rounds, k, n, p, rounds[n].seen[p])
  {
    PendingRuns(states, rounds, n, p);
    assert CanRun(states[n], rounds[n]);
  }

  /** Content that two polls in a row see is applied by one of them, if it is not the loaded or the rejected one. */
  lemma SeenTwiceIsApplied(states: seq<State>, rounds: seq<Round>, n: nat, p: Path)
    requires IsRun(states, rounds) && n + 1 < |rounds| && rounds[n].Poll? && rounds[n + 1].Poll?
    requires p in rounds[n].seen && p in rounds[n + 1].seen && rounds[n].seen[p] == rounds[n + 1].seen[p]
    ensures var h := rounds[n].seen[p];
      Settled(UnitAt(states[n], p), h) || Applies(UnitAt(states[n], p), h) || Applies(UnitAt(states[n + 1], p), h)
  {
    RunsOk(states, rounds, n);
    hide Intact, Serving, NoneLost, Loses, CanRun, Next;
    PollAt(states[n], rounds[n], p);
  }

  /** Where a poll applies nothing it leaves the file's plugin, hashes and instances as they were. */
  lemma OnlyAppliesChange(states: seq<State>, rounds: seq<Round>, n: nat, p: Path)
    requires IsRun(states, rounds) && n < |rounds| && rounds[n].Poll? && p in rounds[n].seen
    requires !Applies(UnitAt(states[n], p), rounds[n].seen[p])
    ensures p in states[n + 1].units
    ensures SameContent(UnitAt(states[n], p), states[n + 1].units[p])
  {
    RunsOk(states, rounds, n);
    hide Intact, Serving, NoneLost, Loses, CanRun, Next, Applies;
    PollAt(states[n], rounds[n], p);
  }

  /** The file shows h or nothing, and no Unload comes. */
  ghost predicate OnlyShows(r: Round, p: Path, h: Hash) {
    r.Poll? && (p in r.seen ==> r.seen[p] == h)
  }

  /** Apart from what is pending and missed. */
  predicate SameContent(u: Unit, w: Unit) {
    w == u.(pending := w.pending, misses := w.misses)
  }

  lemma SameContentNext(s: State, t: State, r: Round, p: Path, u: Unit)
    requires OnlyShows(r, p, u.errHash) && Polled(s, t, r.seen, p) && p in s.units && p in t.units
    requires SameContent(u, s.units[p]) && u.np.None?
    ensures SameContent(u, t.units[p])
  {
  }

  /** Rejected content is left alone: while the file shows nothing else, its unit keeps plugin, hashes and verdict, or goes. */
  lemma {:induction false} RejectedIsLeftAlone(states: seq<State>, rounds: seq<Round>, m: nat, n: nat, p: Path)
    requires IsRun(states, rounds) && m <= n < |states| && p in states[m].units && states[m].units[p].np.None?
    requires forall j :: m <= j < n ==> OnlyShows(rounds[j], p, states[m].units[p].errHash)
    requires forall j :: m <= j <= n ==> p in states[j].units
    ensures SameContent(states[m].units[p], states[n].units[p])
  {
    if m < n {
      RejectedIsLeftAlone(states, rounds, m, n - 1, p);
      var s, r := states[n - 1], rounds[n - 1];
      RunsOk(states, rounds, n - 1);
      assert CanRun(s, r) && states[n] == Next(s, r) && OnlyShows(r, p, states[m].units[p].errHash);
      hide Intact, Serving, NoneLost, Loses, CanRun, Next, Polled, IsRun, SameContent;
      assert r.Poll?;
      PollAt(s, r, p);
      SameContentNext(s, states[n], r, p, states[m].units[p]);
    }
  }

  ghost predicate MissesOk(states: seq<State>, rounds: seq<Round>, n: nat, p: Path)
    requires n <= |rounds| < |states|
  {
    p in states[n].units ==>
      var u := states[n].units[p];
      && (u.misses > 0 ==> u.loaded && n > 0 && rounds[n - 1].Poll? && p !in rounds[n - 1].seen)
  }

  lemma {:induction false} MissesRuns(states: seq<State>, rounds: seq<Round>, n: nat, p: Path)
    requires IsRun(states, rounds) && n < |states|
    ensures MissesOk(states, rounds, n, p)
  {
    hide CanRun, Next, Intact, Serving, NoneLost, Loses, Settled;
    if n > 0 {
      MissesRuns(states, rounds, n - 1, p);
      var s, r := states[n - 1], rounds[n - 1];
      RunsOk(states, rounds, n - 1);
      if r.Poll? {
        PollAt(s, r, p);
      } else {
        UnloadAt(s, r, p);
      }
    }
  }

  /** A poll gives up a unit only if its file was absent in this poll and in the one right before. */
  lemma UnloadsAfterTwoMisses(states: seq<State>, rounds: seq<Round>, n: nat, p: Path)
    requires IsRun(states, rounds) && n < |rounds| && rounds[n].Poll?
    requires p in states[n].units && p !in states[n + 1].units
    ensures p !in rounds[n].seen && n > 0 && rounds[n - 1].Poll? && p !in rounds[n - 1].seen
  {
    MissesRuns(states, rounds, n, p);
    RunsOk(states, rounds, n);
    hide Intact, Serving, NoneLost, Loses, CanRun, Next;
    PollAt(states[n], rounds[n], p);
  }
}
