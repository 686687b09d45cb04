// Only a refused removal of an old id leaves an orphan: without one nothing is ever lost.
module WatchedOrphans {
  import opened Text
  import opened Watcher
  import opened WatchedInstances
  import opened WatchedUnload

  ghost predicate Orphanless(s: State) {
    forall k :: k in s.live ==> s.live[k] == 0 || Held(s.units, s.live[k])
  }

  /** One unit changed; what is registered afterwards is what it holds now, or was registered and not its. */
  lemma StepOrphanless(s: State, t: State, p: Path)
    requires Orphanless(s)
    requires forall q :: q in s.units && q != p ==> q in t.units && t.units[q] == s.units[q]
    requires forall k :: k in t.live && t.live[k] != 0 && !(p in t.units && Hand(t.units[p]) == t.live[k]) ==>
               k in s.live && s.live[k] == t.live[k] && !(p in s.units && Hand(s.units[p]) == t.live[k])
    ensures Orphanless(t)
  {
    forall k | k in t.live && t.live[k] != 0
      ensures Held(t.units, t.live[k])
    {
      if p in t.units && Hand(t.units[p]) == t.live[k] {
      } else {
        var q :| q in s.units && Hand(s.units[q]) == s.live[k];
        assert q in t.units && Hand(t.units[q]) == t.live[k];
      }
    }
  }

  lemma QuietOrphanless(s: State, p: Path, u: Unit)
    requires Orphanless(s) && SameHands(UnitAt(s, p), u)
    ensures Orphanless(Keep(s, p, u))
  {
    assert Hand(u) == Hand(UnitAt(s, p));
    hide Orphanless, Held, Hand;
    StepOrphanless(s, Keep(s, p, u), p);
  }

  /** What a serving unit holds is registered under its id alone. */
  lemma OnlyIts(s: State, p: Path)
    requires Intact(s) && p in s.units && s.units[p].loaded
    ensures Hand(s.units[p]) == s.units[p].plugin.value.handle
    ensures forall k :: k in s.live && s.live[k] == Hand(s.units[p]) ==> k == s.units[p].id
  {
    assert NameOk(s, s.units[p].id, s.units[p].plugin.value.handle);
  }

  /** What an idle unit holds is not registered. */
  lemma NoneIts(s: State, p: Path)
    requires Intact(s) && p in s.units && !s.units[p].loaded
    ensures forall k :: k in s.live && s.live[k] != 0 ==> s.live[k] != Hand(s.units[p])
  {
  }

  lemma MissedOrphanless(s: State, p: Path, granted: bool)
    requires Intact(s) && Orphanless(s) && p in s.units && s.units[p].loaded
    ensures Orphanless(Missed(s, p, granted))
  {
    var u := s.units[p];
    OnlyIts(s, p);
    hide Orphanless, Held, Intact, Hand;
    if u.misses >= 1 && Removes(s, u.id, granted) {
      StepOrphanless(s, Missed(s, p, granted), p);
    } else {
      QuietOrphanless(s, p, Missed(s, p, granted).units[p]);
    }
  }

  lemma LookedOrphanless(s: State, seen: map<Path, Hash>, p: Path, granted: bool)
    requires Intact(s) && Orphanless(s)
    ensures Orphanless(Looked(s, seen, p, granted))
  {
    hide Orphanless, Missed, NamesOk, LiveOk, ClosedOk, HoldersOk;
    if p in s.units && s.units[p].loaded {
      if p in seen {
        QuietOrphanless(s, p, s.units[p].(misses := 0));
      } else {
        MissedOrphanless(s, p, granted);
      }
    }
  }

  lemma RefusedOrphanless(s: State, p: Path, np: Plugin, h: Hash)
    requires Orphanless(s) && p in s.units
    ensures Orphanless(Refused(s.(next := s.next + 1), p, np, h))
  {
    var a := Close(s.(next := s.next + 1), np.handle);
    assert Orphanless(a);
    QuietOrphanless(a, p, s.units[p].(pending := NO_HASH, errHash := h));
  }

  lemma FirstTimeOrphanless(s: State, p: Path, np: Plugin, h: Hash, ok: bool)
    requires Intact(s) && Orphanless(s) && p in s.units && !s.units[p].loaded && np.handle == s.next
    ensures Orphanless(FirstTime(s.(next := s.next + 1), p, np, h, ok))
  {
    var t := FirstTime(s.(next := s.next + 1), p, np, h, ok);
    NoneIts(s, p);
    hide Orphanless, Held, Intact;
    StepOrphanless(s, t, p);
  }

  lemma ReidentifiedOrphanless(s: State, p: Path, np: Plugin, h: Hash, ok: bool)
    requires Intact(s) && Serving(s) && Orphanless(s) && p in s.units && s.units[p].loaded && s.units[p].plugin.Some?
    ensures Orphanless(Reidentified(s.(next := s.next + 1), p, np, h, ok, true))
  {
    if Registers(s, np, ok) {
      var t := Reidentified(s.(next := s.next + 1), p, np, h, ok, true);
      OnlyIts(s, p);
      hide Orphanless, Held, Intact;
      StepOrphanless(s, t, p);
    } else {
      RefusedOrphanless(s, p, np, h);
    }
  }

  lemma SwappedOrphanless(s: State, p: Path, np: Plugin, h: Hash, ok: bool)
    requires Intact(s) && Orphanless(s) && p in s.units && s.units[p].plugin.Some? && np.id == s.units[p].id
    ensures Orphanless(Swapped(s.(next := s.next + 1), p, np, h, ok))
  {
    if Replaces(s, np, ok) {
      var t := Swapped(s.(next := s.next + 1), p, np, h, ok);
      OnlyIts(s, p);
      hide Orphanless, Held, Intact;
      StepOrphanless(s, t, p);
    } else {
      RefusedOrphanless(s, p, np, h);
    }
  }

  lemma LoadedOrphanless(s: State, p: Path, h: Hash, v: Verdict)
    requires Intact(s) && Serving(s) && Orphanless(s) && p in s.units && v.removed
    ensures Orphanless(Loaded(s, p, h, v))
  {
    var u := s.units[p];
    hide Orphanless, Serving, NamesOk, LiveOk, ClosedOk, HoldersOk, FirstTime, Reidentified, Swapped;
    match v.image
    case Unreadable => QuietOrphanless(s, p, u.(pending := NO_HASH));
    case Broken => QuietOrphanless(s, p, u.(pending := NO_HASH, errHash := if u.loaded then u.errHash else h));
    case Good(id) =>
      var np := Plugin(s.next, id);
      if !u.loaded {
        FirstTimeOrphanless(s, p, np, h, v.ok);
      } else if id != u.id {
        ReidentifiedOrphanless(s, p, np, h, v.ok);
      } else {
        SwappedOrphanless(s, p, np, h, v.ok);
      }
  }

  lemma ShedOrphanless(s: State, p: Path)
    requires Intact(s) && Orphanless(s) && p in s.units && s.units[p].np.Some?
    ensures Orphanless(Shed(s, p))
  {
    NoneIts(s, p);
    hide Orphanless, Held, Intact;
    StepOrphanless(s, Shed(s, p), p);
  }

  lemma EnrolledOrphanless(s: State, p: Path, h: Hash)
    requires Intact(s) && Orphanless(s) && p in s.units && s.units[p].np.Some?
    ensures Orphanless(Keep(Enter(s, s.units[p].np.value), p, Adopting(s.units[p], s.units[p].np.value, h)))
  {
    NoneIts(s, p);
    hide Orphanless, Held, Intact;
    StepOrphanless(s, Keep(Enter(s, s.units[p].np.value), p, Adopting(s.units[p], s.units[p].np.value, h)), p);
  }

  lemma AppliedOrphanless(s: State, p: Path, h: Hash, v: Verdict)
    requires Intact(s) && Serving(s) && Orphanless(s) && p in s.units && v.removed
    ensures Orphanless(Applied(s, p, h, v))
  {
    var u := s.units[p];
    if u.np.None? {
      LoadedOrphanless(s, p, h, v);
    } else if h == u.npHash {
      EnrolledOrphanless(s, p, h);
    } else {
      ShedFine(s, p);
      ShedOrphanless(s, p);
      hide Intact, Serving, Orphanless, Loaded, LostSame;
      LoadedOrphanless(Shed(s, p), p, h, v);
    }
  }

  lemma NoticedOrphanless(s: State, p: Path, h: Hash, v: Verdict)
    requires Intact(s) && Serving(s) && Orphanless(s) && v.removed
    ensures Orphanless(Noticed(s, p, h, v))
  {
    var u := UnitAt(s, p);
    var s1 := Keep(s, p, u);
    hide Intact, Serving, Orphanless, LostSame, Settled, Applied;
    QuietFine(s, p, u);
    QuietOrphanless(s, p, u);
    if !Settled(u, h) {
      if u.pending != h {
        QuietOrphanless(s1, p, u.(pending := h));
      } else {
        AppliedOrphanless(s1, p, h, v);
      }
    }
  }

  lemma {:induction false} LooksOrphanless(s: State, seen: map<Path, Hash>, v: Path -> Verdict, order: seq<Path>)
    requires Intact(s) && Serving(s) && Orphanless(s)
    ensures Orphanless(Looks(s, seen, v, order))
  {
    hide LostSame, Intact, Serving, Looked, Orphanless;
    if order != [] {
      LooksFine(s, seen, v, order[..|order| - 1]);
      LooksOrphanless(s, seen, v, order[..|order| - 1]);
      LookedOrphanless(Looks(s, seen, v, order[..|order| - 1]), seen, order[|order| - 1], v(order[|order| - 1]).granted);
    }
  }

  lemma {:induction false} TurnsOrphanless(s: State, seen: map<Path, Hash>, v: Path -> Verdict, order: seq<Path>)
    requires Intact(s) && Serving(s) && Orphanless(s) && (forall p :: p in order ==> p in seen) && forall p :: v(p).removed
    ensures Orphanless(Turns(s, seen, v, order))
  {
    hide LostSame, Intact, Serving, Noticed, Orphanless;
    if order != [] {
      var p := order[|order| - 1];
      TurnsFine(s, seen, v, order[..|order| - 1]);
      TurnsOrphanless(s, seen, v, order[..|order| - 1]);
      NoticedOrphanless(Turns(s, seen, v, order[..|order| - 1]), p, seen[p], v(p));
    }
  }

  lemma UnloadedOrphanless(s: State, p: Path, victims: set<string>)
    requires Intact(s) && Orphanless(s)
    ensures Orphanless(Unloaded(s, p, victims)) && !TakesOrphan(s, p, victims)
  {
    if p in s.units {
      if s.units[p].loaded {
        OnlyIts(s, p);
      } else {
        NoneIts(s, p);
      }
      assert !TakesOrphan(s, p, victims);
      hide Orphanless, Held, NamesOk, LiveOk, ClosedOk, HoldersOk, Hand, TakesOrphan;
      StepOrphanless(s, Unloaded(s, p, victims), p);
    }
  }

  lemma {:induction false} UnloadsOrphanless(s: State, v: Path -> Verdict, order: seq<Path>)
    requires Intact(s) && Orphanless(s)
    ensures Orphanless(Unloads(s, v, order)) && !UnloadsTake(s, v, order)
  {
    hide Intact, Unloaded, Orphanless, NoneLost, TakesOrphan;
    if order != [] {
      UnloadsOk(s, v, order[..|order| - 1]);
      UnloadsOrphanless(s, v, order[..|order| - 1]);
      UnloadedOrphanless(Unloads(s, v, order[..|order| - 1]), order[|order| - 1], v(order[|order| - 1]).victims);
    }
  }

  /** The host agrees to every removal of an old id. */
  ghost predicate Agreed(r: Round) {
    r.Poll? ==> forall p :: r.v(p).removed
  }

  lemma RoundOrphanless(s: State, r: Round)
    requires Intact(s) && Serving(s) && Orphanless(s) && CanRun(s, r) && Agreed(r)
    ensures Orphanless(Next(s, r)) && !Loses(s, r)
  {
    hide Intact, Serving, Orphanless, LostSame, Unloads, Turns, Looks, UnloadsTake;
    match r
    case Poll(seen, v, looks, turns) =>
      LooksFine(s, seen, v, looks);
      LooksOrphanless(s, seen, v, looks);
      TurnsOrphanless(Looks(s, seen, v, looks), seen, v, turns);
    case Unload(v, order) => UnloadsOrphanless(s, v, order);
  }

  lemma {:induction false} RunsOrphanless(states: seq<State>, rounds: seq<Round>, n: nat)
    requires IsRun(states, rounds) && n < |states| && forall m :: 0 <= m < n ==> Agreed(rounds[m])
    ensures Orphanless(states[n]) && forall m :: 0 <= m < n ==> !Loses(states[m], rounds[m])
  {
    hide Intact, Serving, NoneLost, Loses, Next, CanRun, Agreed;
    if n == 0 {
      assert Orphanless(states[0]);
    } else {
      RunsOrphanless(states, rounds, n - 1);
      RunsOk(states, rounds, n - 1);
      RoundOrphanless(states[n - 1], rounds[n - 1]);
    }
  }

  /** Where no removal of an old id is refused, what is registered of ours is held, and nothing is ever lost. */
  lemma AgreedRunsLoseNothing(states: seq<State>, rounds: seq<Round>, n: nat)
    requires IsRun(states, rounds) && n < |states| && forall m :: 0 <= m < n ==> Agreed(rounds[m])
    ensures forall k :: k in states[n].live && states[n].live[k] != 0 ==> Held(states[n].units, states[n].live[k])
    ensures forall h: nat :: 1 <= h < states[n].next && states[n].closed[h] == 0 ==> Held(states[n].units, h)
  {
    RunsOrphanless(states, rounds, n);
    RunsOk(states, rounds, n);
    hide Held, Intact, Serving, IsRun, Loses, Agreed;
    var s := states[n];
    forall h: nat | 1 <= h < s.next && s.closed[h] == 0
      ensures Held(s.units, h)
    {
      assert !Stranded(s, h);
    }
  }
}
