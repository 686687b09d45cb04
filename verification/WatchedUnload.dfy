// Unload, and whole runs of polls and unloads: instances are never closed twice, never closed while
// registered, and an instance is lost exactly when an Unload's cascade takes one that no unit holds.
module WatchedUnload {
  import opened Text
  import opened Watcher
  import opened WatchedInstances

  // ---- one unit ----

  /** Registered, ours, and held by no unit: what a re-identification leaves whose Remove was refused. */
  ghost predicate Orphan(s: State, k: string) {
    k in s.live && s.live[k] != 0 && !Held(s.units, s.live[k])
  }

  /** The unit's cascade takes an orphan. */
  ghost predicate TakesOrphan(s: State, p: Path, victims: set<string>) {
    && p in s.units && s.units[p].loaded
    && exists k :: k in Taken(s, s.units[p], victims) && Orphan(s, k)
  }

  lemma DropSound(s: State, ids: set<string>)
    requires Intact(s)
    ensures Intact(Drop(s, ids))
  {
    var t := Drop(s, ids);
    assert forall id: string, h: nat :: NameOk(s, id, h) ==> NameOk(t, id, h);
    assert NamesOk(t) by {
      hide HoldersOk, ClosedOk, LiveOk, NameOk;
    }
    hide NamesOk;
  }

  lemma DropLoses(s: State, ids: set<string>)
    requires Intact(s)
    ensures NoneLost(Drop(s, ids)) <==> NoneLost(s) && !(exists k :: k in ids && Orphan(s, k))
  {
    var t := Drop(s, ids);
    forall h: nat | 1 <= h
      ensures Live(t.live, h) <==> Live(s.live, h) && !(exists k :: k in ids && k in s.live && s.live[k] == h)
    {
      LiveDrop(s.live, ids, h);
    }
    hide Held;
    if k :| k in ids && Orphan(s, k) {
      assert Stranded(t, s.live[k]);
    } else {
      forall h: nat
        ensures Stranded(t, h) <==> Stranded(s, h)
      {
      }
    }
  }

  /** A held instance that is not registered is closed. */
  lemma RetireFine(s: State, p: Path)
    requires Intact(s) && p in s.units && s.units[p].loaded && !Live(s.live, s.units[p].plugin.value.handle)
    ensures Fine(s, Keep(Close(s, s.units[p].plugin.value.handle), p, s.units[p].(plugin := None, loaded := false)))
  {
    var u := s.units[p];
    var w := u.(plugin := None, loaded := false);
    var n := Hand(u);
    var t := Keep(Close(s, n), p, w);
    HeldOnce(s, p, w, n);
    assert Held(s.units, n) by {
      assert Hand(s.units[p]) == n;
    }
    assert Hand(w) == 0;
    forall h: nat
      ensures Stranded(t, h) <==> Stranded(s, h)
    {
      if h >= 1 && h != n {
        HeldSame(s.units, p, w, h);
      }
    }
    hide Held, Stranded;
  }

  lemma FineLoses(s: State, t: State)
    requires Fine(s, t)
    ensures Intact(t) && (NoneLost(t) <==> NoneLost(s))
  {
    hide Intact, Serving, Stranded;
  }

  lemma UnloadedIdle(s: State, p: Path, victims: set<string>)
    requires Intact(s) && p in s.units && !s.units[p].loaded
    ensures Fine(s, Unloaded(s, p, victims))
  {
    hide NamesOk, HoldersOk, ClosedOk, LiveOk, LostSame, Serving;
    if s.units[p].np.Some? {
      ShedFine(s, p);
      ForgetFine(Shed(s, p), p);
      FineTrans(s, Shed(s, p), Forget(Shed(s, p), p));
      assert Shed(s, p).units - {p} == s.units - {p};
    } else {
      ForgetFine(s, p);
    }
  }

  lemma UnloadedBusy(s: State, p: Path, victims: set<string>)
    requires Intact(s) && p in s.units && s.units[p].loaded
    ensures Intact(Unloaded(s, p, victims))
    ensures NoneLost(Unloaded(s, p, victims)) <==> NoneLost(Drop(s, Taken(s, s.units[p], victims)))
  {
    var u := s.units[p];
    var a := Drop(s, Taken(s, u, victims));
    DropSound(s, Taken(s, u, victims));
    assert !Live(a.live, u.plugin.value.handle) by {
      assert NameOk(s, u.id, u.plugin.value.handle);
    }
    RetireFine(a, p);
    var b := Keep(Close(a, u.plugin.value.handle), p, u.(plugin := None, loaded := false));
    hide NamesOk, HoldersOk, ClosedOk, LiveOk, LostSame, Serving, NoneLost;
    ForgetFine(b, p);
    FineTrans(a, b, Forget(b, p));
    FineLoses(a, Forget(b, p));
    assert b.units - {p} == s.units - {p};
  }

  lemma UnloadedOk(s: State, p: Path, victims: set<string>)
    requires Intact(s)
    ensures Intact(Unloaded(s, p, victims))
    ensures NoneLost(Unloaded(s, p, victims)) <==> NoneLost(s) && !TakesOrphan(s, p, victims)
  {
    hide Intact, Unloaded, NoneLost, Fine, Orphan;
    if p in s.units {
      if s.units[p].loaded {
        UnloadedBusy(s, p, victims);
        DropLoses(s, Taken(s, s.units[p], victims));
      } else {
        UnloadedIdle(s, p, victims);
        FineLoses(s, Unloaded(s, p, victims));
      }
    } else {
      assert Unloaded(s, p, victims) == s by {
        UnloadedNothing(s, p, victims);
      }
    }
  }

  lemma UnloadedNothing(s: State, p: Path, victims: set<string>)
    requires p !in s.units
    ensures Unloaded(s, p, victims) == s
  {
  }

  // ---- all units ----

  ghost predicate UnloadsTake(s: State, v: Path -> Verdict, order: seq<Path>) {
    order != [] &&
      var before := order[..|order| - 1];
      UnloadsTake(s, v, before) || TakesOrphan(Unloads(s, v, before), order[|order| - 1], v(order[|order| - 1]).victims)
  }

  lemma {:induction false} UnloadsOk(s: State, v: Path -> Verdict, order: seq<Path>)
    requires Intact(s)
    ensures Intact(Unloads(s, v, order))
    ensures NoneLost(Unloads(s, v, order)) <==> NoneLost(s) && !UnloadsTake(s, v, order)
  {
    hide Intact, Unloaded, NoneLost, TakesOrphan;
    if order != [] {
      UnloadsOk(s, v, order[..|order| - 1]);
      UnloadedOk(Unloads(s, v, order[..|order| - 1]), order[|order| - 1], v(order[|order| - 1]).victims);
    }
  }

  lemma {:induction false} UnloadsForget(s: State, v: Path -> Verdict, order: seq<Path>, p: Path)
    ensures p in Unloads(s, v, order).units <==> p in s.units && p !in order
  {
    if order != [] {
      var before := order[..|order| - 1];
      UnloadsForget(s, v, before, p);
      assert order == before + [order[|order| - 1]];
    }
  }

  // ---- runs ----

  /** An Unload in which the cascade takes an orphan. */
  ghost predicate Loses(s: State, r: Round) {
    r.Unload? && UnloadsTake(s, r.v, r.order)
  }

  lemma RoundOk(s: State, r: Round)
    requires Intact(s) && Serving(s) && CanRun(s, r)
    ensures Intact(Next(s, r)) && Serving(Next(s, r))
    ensures NoneLost(Next(s, r)) <==> NoneLost(s) && !Loses(s, r)
  {
    hide Intact, NoneLost, LostSame, Unloads, Turns, Looks, UnloadsTake;
    match r
    case Poll(seen, v, looks, turns) =>
      var t := Looks(s, seen, v, looks);
      LooksFine(s, seen, v, looks);
      TurnsFine(t, seen, v, turns);
      FineTrans(s, t, Turns(t, seen, v, turns));
      FineLoses(s, Turns(t, seen, v, turns));
    case Unload(v, order) =>
      UnloadsOk(s, v, order);
      forall p
        ensures p !in Unloads(s, v, order).units
      {
        UnloadsForget(s, v, order, p);
      }
  }

  lemma StartSound(s: State)
    requires IsStart(s)
    ensures Intact(s) && Serving(s) && NoneLost(s)
  {
  }

  lemma {:induction false} RunsOk(states: seq<State>, rounds: seq<Round>, n: nat)
    requires IsRun(states, rounds) && n < |states|
    ensures Intact(states[n]) && Serving(states[n])
    ensures NoneLost(states[n]) <==> forall m :: 0 <= m < n ==> !Loses(states[m], rounds[m])
  {
    hide Intact, Serving, NoneLost, Loses, Next, CanRun, IsStart;
    if n == 0 {
      StartSound(states[0]);
    } else {
      RunsOk(states, rounds, n - 1);
      RoundOk(states[n - 1], rounds[n - 1]);
    }
  }

  /** After every run of polls and unloads: no instance was closed twice, nothing registered is closed, no two units
      hold the same instance; and every instance not closed is held by a unit or registered, exactly when no Unload
      so far let a cascade take an instance no unit held. */
  lemma InstancesAccounted(states: seq<State>, rounds: seq<Round>, n: nat)
    requires IsRun(states, rounds) && n < |states|
    ensures forall h: nat :: states[n].closed[h] <= 1
    ensures forall k :: k in states[n].live ==> states[n].closed[states[n].live[k]] == 0
    ensures forall p, q | p in states[n].units && q in states[n].units ::
      Hand(states[n].units[p]) == Hand(states[n].units[q]) != 0 ==> p == q
    ensures
      (forall h: nat :: 1 <= h < states[n].next && states[n].closed[h] == 0 ==> Held(states[n].units, h) || Live(states[n].live, h)) <==>
      (forall m :: 0 <= m < n ==> !Loses(states[m], rounds[m]))
  {
    RunsOk(states, rounds, n);
    hide Held, Live, Loses, IsRun;
    var s := states[n];
    if NoneLost(s) {
      forall h: nat | 1 <= h < s.next && s.closed[h] == 0
        ensures Held(s.units, h) || Live(s.live, h)
      {
        assert !Stranded(s, h);
      }
    }
  }
}
