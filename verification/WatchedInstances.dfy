// No instance is closed twice or closed while registered, and none is lost, but for one way.
module WatchedInstances {
  import opened Text
  import opened Watcher

  ghost predicate UnitOk(u: Unit) {
    && (u.loaded <==> u.plugin.Some?)
    && (u.loaded ==> u.np.None? && u.plugin.value.id == u.id)
  }

  /** The instance a unit holds, registered or waiting; 0 for none. */
  function Hand(u: Unit): nat {
    if u.plugin.Some? then u.plugin.value.handle else if u.np.Some? then u.np.value.handle else 0
  }

  ghost predicate UnitsOk(s: State) {
    forall p :: p in s.units ==> UnitOk(s.units[p])
  }

  ghost predicate InUse(s: State, h: nat) {
    1 <= h < s.next && s.closed[h] == 0
  }

  /** What a unit holds is ours, open, and held by no other unit. */
  ghost predicate HoldersOk(s: State) {
    && (forall p :: p in s.units && (s.units[p].plugin.Some? || s.units[p].np.Some?) ==> InUse(s, Hand(s.units[p])))
    && (forall p, q :: p in s.units && q in s.units && Hand(s.units[p]) == Hand(s.units[q]) != 0 ==> p == q)
  }

  /** Nothing is closed twice, nothing closed is registered. */
  ghost predicate ClosedOk(s: State) {
    && (forall h: nat :: s.closed[h] <= 1 && (s.closed[h] == 1 ==> 1 <= h < s.next))
    && (forall k :: k in s.live ==> s.closed[s.live[k]] == 0)
  }

  ghost predicate LiveOk(s: State) {
    && s.next >= 1
    && (forall k :: k in s.live ==> s.live[k] < s.next)
    && (forall k, l :: k in s.live && l in s.live && s.live[k] == s.live[l] != 0 ==> k == l)
  }

  /** A loaded unit's instance is registered under the unit's id or not at all, one that waits is not registered. */
  ghost predicate NamesOk(s: State) {
    && (forall p :: p in s.units && s.units[p].loaded && s.units[p].plugin.Some? ==> NameOk(s, s.units[p].id, s.units[p].plugin.value.handle))
    && (forall p, k :: p in s.units && s.units[p].np.Some? && k in s.live ==> s.live[k] != s.units[p].np.value.handle)
  }

  ghost predicate NameOk(s: State, id: string, h: nat) {
    && (forall k :: k in s.live && s.live[k] == h ==> k == id)
    && (id in s.live ==> s.live[id] == h)
  }

  ghost predicate Intact(s: State) {
    UnitsOk(s) && HoldersOk(s) && ClosedOk(s) && LiveOk(s) && NamesOk(s)
  }

  /** Between rounds every loaded unit is registered. */
  ghost predicate Serving(s: State) {
    forall p :: p in s.units && s.units[p].loaded ==> s.units[p].id in s.live
  }

  ghost predicate Held(units: map<Path, Unit>, h: nat) {
    exists p :: p in units && Hand(units[p]) == h
  }

  ghost predicate Live(live: map<string, nat>, h: nat) {
    exists k :: k in live && live[k] == h
  }

  /** An instance of ours that nobody can reach any more. */
  ghost predicate Stranded(s: State, h: nat) {
    1 <= h < s.next && s.closed[h] == 0 && !Held(s.units, h) && !Live(s.live, h)
  }

  ghost predicate NoneLost(s: State) {
    forall h: nat :: !Stranded(s, h)
  }

  /** The same instances are lost before and after. */
  ghost predicate LostSame(s: State, t: State) {
    forall h: nat :: Stranded(t, h) <==> Stranded(s, h)
  }

  /** What each single change keeps. */
  ghost predicate Fine(s: State, t: State) {
    Intact(t) && LostSame(s, t) && (Serving(s) ==> Serving(t))
  }

  lemma FineTrans(s: State, t: State, w: State)
    requires Fine(s, t) && Fine(t, w)
    ensures Fine(s, w)
  {
    hide Intact, Serving, Stranded;
  }

  // ---- how holding and being registered change ----

  lemma HeldSame(units: map<Path, Unit>, p: Path, u: Unit, h: nat)
    requires if p in units then (Hand(u) == h) == (Hand(units[p]) == h) else Hand(u) != h
    ensures Held(units[p := u], h) <==> Held(units, h)
  {
    hide Hand;
    var after := units[p := u];
    if q :| q in units && Hand(units[q]) == h {
      assert q in after && Hand(after[q]) == h;
    }
    if q :| q in after && Hand(after[q]) == h {
      assert q in units && Hand(units[q]) == h;
    }
  }

  lemma HeldOnce(s: State, p: Path, u: Unit, h: nat)
    requires HoldersOk(s) && p in s.units && Hand(s.units[p]) == h != 0 && Hand(u) != h
    ensures !Held(s.units[p := u], h)
  {
  }

  lemma LiveEnter(live: map<string, nat>, k: string, n: nat, h: nat)
    requires k !in live
    ensures Live(live[k := n], h) <==> Live(live, h) || h == n
  {
    var after := live[k := n];
    if h == n {
      assert after[k] == h;
    } else if Live(live, h) {
      var l :| l in live && live[l] == h;
      assert after[l] == h;
    }
  }

  lemma LiveDrop(live: map<string, nat>, ks: set<string>, h: nat)
    requires forall k, l :: k in live && l in live && live[k] == live[l] == h ==> k == l
    ensures Live(live - ks, h) <==> Live(live, h) && !(exists k :: k in ks && k in live && live[k] == h)
  {
    var after := live - ks;
    if k :| k in live && live[k] == h && k !in ks {
      assert after[k] == h;
    }
  }

  // ---- single changes ----

  ghost predicate SameHands(u: Unit, w: Unit) {
    w.plugin == u.plugin && w.np == u.np && w.id == u.id && w.loaded == u.loaded
  }

  lemma QuietNames(s: State, p: Path, u: Unit)
    requires NamesOk(s) && SameHands(UnitAt(s, p), u)
    ensures NamesOk(Keep(s, p, u))
  {
    var t := Keep(s, p, u);
    assert forall id: string, h: nat :: NameOk(t, id, h) <==> NameOk(s, id, h);
    hide NameOk;
  }

  lemma QuietHolders(s: State, p: Path, u: Unit)
    requires HoldersOk(s) && SameHands(UnitAt(s, p), u)
    ensures HoldersOk(Keep(s, p, u))
  {
    assert Hand(u) == Hand(UnitAt(s, p)) && Hand(FRESH) == 0;
    hide Hand;
  }

  lemma QuietSound(s: State, p: Path, u: Unit)
    requires Intact(s) && SameHands(UnitAt(s, p), u)
    ensures Intact(Keep(s, p, u)) && (Serving(s) ==> Serving(Keep(s, p, u)))
  {
    QuietNames(s, p, u);
    QuietHolders(s, p, u);
    hide NamesOk, HoldersOk;
  }

  lemma QuietFine(s: State, p: Path, u: Unit)
    requires Intact(s) && SameHands(UnitAt(s, p), u)
    ensures Fine(s, Keep(s, p, u))
  {
    QuietSound(s, p, u);
    hide Intact, Serving;
    forall h: nat
      ensures Stranded(Keep(s, p, u), h) <==> Stranded(s, h)
    {
      if h >= 1 {
        HeldSame(s.units, p, u, h);
      }
    }
  }

  /** The unit lets go of its registered instance. */
  function Released(s: State, p: Path): State
    requires p in s.units
  {
    Keep(s, p, s.units[p].(plugin := None, loaded := false))
  }

  lemma ReleasedFine(s: State, p: Path)
    requires Intact(s) && p in s.units && s.units[p].loaded && s.units[p].id in s.live
    ensures Fine(s, Released(s, p)) && !Held(Released(s, p).units, s.units[p].plugin.value.handle)
  {
    var u := s.units[p];
    var w := u.(plugin := None, loaded := false);
    var n := Hand(u);
    HeldOnce(s, p, w, n);
    assert Live(s.live, n) by {
      assert s.live[u.id] == n;
    }
    assert Hand(w) == 0;
    forall h: nat
      ensures Stranded(Keep(s, p, w), h) <==> Stranded(s, h)
    {
      if h >= 1 && h != n {
        HeldSame(s.units, p, w, h);
      }
    }
    hide Held, Live, Stranded;
  }

  lemma NobodyNamed(s: State, k: string)
    requires Intact(s) && k in s.live && !Held(s.units, s.live[k])
    ensures forall p :: p in s.units && s.units[p].loaded ==> s.units[p].id != k
  {
    forall p | p in s.units && s.units[p].loaded
      ensures s.units[p].id != k
    {
      assert NameOk(s, s.units[p].id, s.units[p].plugin.value.handle);
      assert Hand(s.units[p]) == s.units[p].plugin.value.handle;
    }
  }

  /** A registered instance nobody holds is removed and closed. */
  lemma DiscardFine(s: State, k: string)
    requires Intact(s) && k in s.live && s.live[k] != 0 && !Held(s.units, s.live[k])
    ensures Fine(s, Close(Drop(s, {k}), s.live[k]))
  {
    NobodyNamed(s, k);
    var t := Close(Drop(s, {k}), s.live[k]);
    forall h: nat
      ensures Stranded(t, h) <==> Stranded(s, h)
    {
      if h != 0 {
        LiveDrop(s.live, {k}, h);
      }
    }
    assert forall p :: p in s.units ==> Hand(s.units[p]) != s.live[k];
    hide Held, Live, Stranded;
  }

  /** A new instance is registered and held. */
  ghost predicate Admits(s: State, p: Path, np: Plugin, u: Unit) {
    && p in s.units && s.units[p].plugin.None? && s.units[p].np.None?
    && np.handle == s.next && np.id !in s.live
    && u.plugin == Some(np) && u.np.None? && u.loaded && u.id == np.id
  }

  lemma AdmitSound(s: State, p: Path, np: Plugin, u: Unit)
    requires Intact(s) && Serving(s) && Admits(s, p, np, u)
    ensures Intact(Keep(Enter(s.(next := s.next + 1), np), p, u))
  {
    var t := Keep(Enter(s.(next := s.next + 1), np), p, u);
    assert s.closed[np.handle] == 0 && Hand(u) == np.handle;
    assert HoldersOk(t) && UnitsOk(t) && ClosedOk(t) && LiveOk(t) by {
      hide NamesOk;
    }
    assert NamesOk(t) by {
      FreshNames(s, p, np, u);
    }
    hide UnitsOk, HoldersOk, ClosedOk, LiveOk, NamesOk, Keep, Enter, Admits;
  }

  lemma FreshNames(s: State, p: Path, np: Plugin, u: Unit)
    requires UnitsOk(s) && HoldersOk(s) && LiveOk(s) && NamesOk(s) && Serving(s) && Admits(s, p, np, u)
    ensures NamesOk(Keep(Enter(s.(next := s.next + 1), np), p, u))
  {
    var t := Keep(Enter(s.(next := s.next + 1), np), p, u);
    forall q | q in s.units && q != p
      ensures Hand(s.units[q]) < s.next
    {
      assert s.units[q].plugin.Some? || s.units[q].np.Some? ==> InUse(s, Hand(s.units[q]));
    }
    forall q | q in t.units && t.units[q].loaded && t.units[q].plugin.Some?
      ensures NameOk(t, t.units[q].id, t.units[q].plugin.value.handle)
    {
      if q != p {
        assert NameOk(s, s.units[q].id, s.units[q].plugin.value.handle);
      }
    }
    forall q, k | q in t.units && t.units[q].np.Some? && k in t.live
      ensures t.live[k] != t.units[q].np.value.handle
    {
      assert UnitOk(s.units[q]);
    }
  }

  lemma AdmitFine(s: State, p: Path, np: Plugin, u: Unit)
    requires Intact(s) && Serving(s) && Admits(s, p, np, u)
    ensures Fine(s, Keep(Enter(s.(next := s.next + 1), np), p, u))
  {
    AdmitSound(s, p, np, u);
    var t := Keep(Enter(s.(next := s.next + 1), np), p, u);
    hide Intact;
    forall h: nat
      ensures Stranded(t, h) <==> Stranded(s, h)
    {
      LiveEnter(s.live, np.id, np.handle, h);
      if h >= 1 && h != np.handle {
        HeldSame(s.units, p, u, h);
      }
    }
    hide Held, Live, Stranded;
  }

  /** A waiting instance is registered. */
  lemma EnrolFine(s: State, p: Path, u: Unit)
    requires Intact(s) && Serving(s)
    requires p in s.units && s.units[p].plugin.None? && s.units[p].np.Some? && s.units[p].np.value.id !in s.live
    requires u.plugin == s.units[p].np && u.np.None? && u.loaded && u.id == u.plugin.value.id
    ensures Fine(s, Keep(Enter(s, s.units[p].np.value), p, u))
  {
    var np := s.units[p].np.value;
    var t := Keep(Enter(s, np), p, u);
    EnrolSound(s, p, u);
    hide Intact;
    assert Held(s.units, np.handle) by {
      assert Hand(s.units[p]) == np.handle;
    }
    assert Held(t.units, np.handle) by {
      assert Hand(t.units[p]) == np.handle;
    }
    forall h: nat
      ensures Stranded(t, h) <==> Stranded(s, h)
    {
      LiveEnter(s.live, np.id, np.handle, h);
      HeldSame(s.units, p, u, h);
    }
    hide Held, Live, Stranded;
  }

  lemma EnrolSound(s: State, p: Path, u: Unit)
    requires Intact(s) && Serving(s)
    requires p in s.units && s.units[p].plugin.None? && s.units[p].np.Some? && s.units[p].np.value.id !in s.live
    requires u.plugin == s.units[p].np && u.np.None? && u.loaded && u.id == u.plugin.value.id
    ensures Intact(Keep(Enter(s, s.units[p].np.value), p, u))
  {
    var np := s.units[p].np.value;
    var t := Keep(Enter(s, np), p, u);
    assert InUse(s, np.handle) && Hand(s.units[p]) == np.handle && Hand(u) == np.handle;
    assert NamesOk(t) by {
      EnrolNames(s, p, u);
    }
    assert ClosedOk(t) && LiveOk(t) by {
      hide HoldersOk, NamesOk, NameOk;
    }
    hide NamesOk, NameOk, ClosedOk, LiveOk;
  }

  lemma EnrolNames(s: State, p: Path, u: Unit)
    requires UnitsOk(s) && HoldersOk(s) && NamesOk(s) && Serving(s)
    requires p in s.units && s.units[p].plugin.None? && s.units[p].np.Some? && s.units[p].np.value.id !in s.live
    requires u.plugin == s.units[p].np && u.np.None? && u.loaded && u.id == u.plugin.value.id
    ensures NamesOk(Keep(Enter(s, s.units[p].np.value), p, u))
  {
    var np := s.units[p].np.value;
    var t := Keep(Enter(s, np), p, u);
    assert InUse(s, Hand(s.units[p]));
    forall q | q in s.units && q != p
      ensures Hand(s.units[q]) != np.handle
    {
    }
    hide HoldersOk;
    forall q | q in t.units && t.units[q].loaded && t.units[q].plugin.Some?
      ensures NameOk(t, t.units[q].id, t.units[q].plugin.value.handle)
    {
      if q != p {
        assert NameOk(s, s.units[q].id, s.units[q].plugin.value.handle);
      }
    }
    forall q, k | q in t.units && t.units[q].np.Some? && k in t.live
      ensures t.live[k] != t.units[q].np.value.handle
    {
      assert UnitOk(s.units[q]);
    }
  }

  /** A new instance waits. */
  lemma ParkFine(s: State, p: Path, np: Plugin, u: Unit)
    requires Intact(s) && p in s.units && s.units[p].plugin.None? && s.units[p].np.None?
    requires np.handle == s.next
    requires u.plugin.None? && u.np == Some(np) && !u.loaded
    ensures Fine(s, Keep(s.(next := s.next + 1), p, u))
  {
    var t := Keep(s.(next := s.next + 1), p, u);
    assert s.closed[np.handle] == 0 && Hand(u) == np.handle;
    assert Held(t.units, np.handle) by {
      assert Hand(t.units[p]) == np.handle;
    }
    forall h: nat
      ensures Stranded(t, h) <==> Stranded(s, h)
    {
      if h >= 1 && h != np.handle {
        HeldSame(s.units, p, u, h);
      }
    }
    hide Held, Live, Stranded;
  }

  /** A new instance is closed at once. */
  lemma BurnFine(s: State)
    requires Intact(s)
    ensures Fine(s, Close(s.(next := s.next + 1), s.next))
  {
    assert s.closed[s.next] == 0;
  }

  /** A waiting instance is closed. */
  lemma ShedFine(s: State, p: Path)
    requires Intact(s) && p in s.units && s.units[p].np.Some?
    ensures Fine(s, Shed(s, p))
  {
    var u := s.units[p];
    var w := u.(np := None, npHash := NO_HASH);
    var t := Shed(s, p);
    var n := Hand(u);
    HeldOnce(s, p, w, n);
    assert Held(s.units, n) by {
      assert Hand(s.units[p]) == n;
    }
    assert Hand(w) == 0;
    forall h: nat
      ensures Stranded(t, h) <==> Stranded(s, h)
    {
      if h >= 1 && h != n {
        HeldSame(s.units, p, w, h);
      }
    }
    hide Held, Live, Stranded;
  }

  /** A unit that holds nothing is forgotten. */
  lemma ForgetFine(s: State, p: Path)
    requires Intact(s) && p in s.units && s.units[p].plugin.None? && s.units[p].np.None?
    ensures Fine(s, Forget(s, p))
  {
    var t := Forget(s, p);
    assert Intact(t) && (Serving(s) ==> Serving(t));
    hide Intact, Serving;
    assert t.units[p := s.units[p]] == s.units;
    forall h: nat
      ensures Stranded(t, h) <==> Stranded(s, h)
    {
      if h >= 1 {
        HeldSame(t.units, p, s.units[p], h);
      }
    }
    hide Held, Live, Stranded;
  }

  // ---- a poll's steps ----

  lemma MissedFine(s: State, p: Path, granted: bool)
    requires Intact(s) && Serving(s) && p in s.units && s.units[p].loaded
    ensures Fine(s, Missed(s, p, granted))
  {
    var u := s.units[p];
    if u.misses >= 1 && Removes(s, u.id, granted) {
      var h := u.plugin.value.handle;
      OwnsIts(s, p);
      ReleasedFine(s, p);
      var a := Released(s, p);
      hide LostSame, NamesOk, LiveOk, ClosedOk, HoldersOk, Missed, Held, Serving;
      DiscardFine(a, u.id);
      var b := Close(Drop(a, {u.id}), h);
      FineTrans(s, a, b);
      ForgetFine(b, p);
      FineTrans(s, b, Forget(b, p));
      MissedShape(s, p, granted, b);
    } else {
      QuietFine(s, p, Missed(s, p, granted).units[p]);
    }
  }

  lemma MissedShape(s: State, p: Path, granted: bool, b: State)
    requires p in s.units && s.units[p].loaded && s.units[p].plugin.Some?
    requires s.units[p].misses >= 1 && Removes(s, s.units[p].id, granted)
    requires b == Close(Drop(Released(s, p), {s.units[p].id}), s.units[p].plugin.value.handle)
    ensures Forget(b, p) == Missed(s, p, granted)
  {
    assert b.units - {p} == s.units - {p};
  }

  lemma LookedFine(s: State, seen: map<Path, Hash>, p: Path, granted: bool)
    requires Intact(s) && Serving(s)
    ensures Fine(s, Looked(s, seen, p, granted))
  {
    hide Missed, Keep, Fine, NamesOk, LiveOk, ClosedOk, HoldersOk;
    if p in s.units && s.units[p].loaded {
      if p in seen {
        QuietFine(s, p, s.units[p].(misses := 0));
      } else {
        MissedFine(s, p, granted);
      }
    } else {
      SelfFine(s);
    }
  }

  lemma SelfFine(s: State)
    requires Intact(s)
    ensures Fine(s, s)
  {
  }

  lemma RefusedFine(s: State, p: Path, np: Plugin, h: Hash)
    requires Intact(s) && p in s.units && np.handle == s.next
    ensures Fine(s, Refused(s.(next := s.next + 1), p, np, h))
  {
    BurnFine(s);
    var a := Close(s.(next := s.next + 1), s.next);
    hide Intact, Serving, LostSame;
    QuietFine(a, p, s.units[p].(pending := NO_HASH, errHash := h));
    FineTrans(s, a, Refused(s.(next := s.next + 1), p, np, h));
  }

  lemma FirstTimeFine(s: State, p: Path, np: Plugin, h: Hash, ok: bool)
    requires Intact(s) && Serving(s) && p in s.units && np.handle == s.next && !s.units[p].loaded && s.units[p].np.None?
    ensures Fine(s, FirstTime(s.(next := s.next + 1), p, np, h, ok))
  {
    hide Fine, NamesOk, LiveOk, ClosedOk, HoldersOk;
    if Registers(s, np, ok) {
      AdmitFine(s, p, np, Adopting(s.units[p], np, h));
    } else {
      ParkFine(s, p, np, s.units[p].(np := Some(np), npHash := h));
    }
  }

  /** The new instance registered beside the old one. */
  lemma BesideFine(s: State, p: Path, np: Plugin, h: Hash)
    requires Intact(s) && Serving(s) && p in s.units && np.handle == s.next && s.units[p].loaded && np.id !in s.live
    ensures s.units[p].id in s.live && s.live[s.units[p].id] == s.units[p].plugin.value.handle != 0
    ensures var t := Keep(Enter(s.(next := s.next + 1), np), p, s.units[p].(id := np.id, hash := h, plugin := Some(np)));
      Fine(s, t) && !Held(t.units, s.units[p].plugin.value.handle)
  {
    OwnsIts(s, p);
    ReleasedFine(s, p);
    BesideLast(s, p, np, h, Released(s, p));
  }

  lemma BesideLast(s: State, p: Path, np: Plugin, h: Hash, a: State)
    requires p in s.units && s.units[p].plugin.Some? && s.units[p].np.None? && s.units[p].loaded
    requires np.handle == s.next && np.id !in s.live && 1 <= s.units[p].plugin.value.handle < s.next
    requires a == Released(s, p) && Fine(s, a) && Intact(a) && Serving(a) && !Held(a.units, s.units[p].plugin.value.handle)
    ensures var t := Keep(Enter(s.(next := s.next + 1), np), p, s.units[p].(id := np.id, hash := h, plugin := Some(np)));
      Fine(s, t) && !Held(t.units, s.units[p].plugin.value.handle)
  {
    hide Fine, Intact, Serving, Held;
    var u := s.units[p];
    var w := u.(id := np.id, hash := h, plugin := Some(np));
    AdmitFine(a, p, np, w);
    var t := Keep(Enter(a.(next := a.next + 1), np), p, w);
    FineTrans(s, a, t);
    HeldSame(a.units, p, w, u.plugin.value.handle);
    BesideShape(s, p, np, w);
  }

  lemma BesideShape(s: State, p: Path, np: Plugin, w: Unit)
    requires p in s.units
    ensures Keep(Enter(Released(s, p).(next := s.next + 1), np), p, w) == Keep(Enter(s.(next := s.next + 1), np), p, w)
  {
    assert Released(s, p).units[p := w] == s.units[p := w];
  }

  lemma OwnsIts(s: State, p: Path)
    requires Intact(s) && Serving(s) && p in s.units && s.units[p].loaded
    ensures s.units[p].id in s.live && s.live[s.units[p].id] == s.units[p].plugin.value.handle
    ensures 1 <= s.units[p].plugin.value.handle < s.next
  {
    assert InUse(s, Hand(s.units[p])) && NameOk(s, s.units[p].id, s.units[p].plugin.value.handle);
  }

  lemma ReidentifiedFine(s: State, p: Path, np: Plugin, h: Hash, ok: bool, removed: bool)
    requires Intact(s) && Serving(s) && p in s.units && np.handle == s.next && s.units[p].loaded && s.units[p].plugin.Some?
    ensures Fine(s, Reidentified(s.(next := s.next + 1), p, np, h, ok, removed))
  {
    var u := s.units[p];
    var t := Reidentified(s.(next := s.next + 1), p, np, h, ok, removed);
    hide LostSame, Serving, NamesOk, LiveOk, ClosedOk, HoldersOk;
    if !Registers(s, np, ok) {
      RefusedFine(s, p, np, h);
    } else {
      BesideFine(s, p, np, h);
      var a := Keep(Enter(s.(next := s.next + 1), np), p, u.(id := np.id, hash := h, plugin := Some(np)));
      if removed {
        DiscardFine(a, u.id);
        assert t == Close(Drop(a, {u.id}), u.plugin.value.handle);
        FineTrans(s, a, t);
      }
    }
  }

  lemma SwappedFine(s: State, p: Path, np: Plugin, h: Hash, ok: bool)
    requires Intact(s) && Serving(s) && p in s.units && np.handle == s.next && s.units[p].plugin.Some? && np.id == s.units[p].id
    ensures Fine(s, Swapped(s.(next := s.next + 1), p, np, h, ok))
  {
    var u := s.units[p];
    var t := Swapped(s.(next := s.next + 1), p, np, h, ok);
    if !Replaces(s, np, ok) {
      RefusedFine(s, p, np, h);
    } else {
      var prev := u.plugin.value.handle;
      OwnsIts(s, p);
      ReleasedFine(s, p);
      var a := Released(s, p);
      DiscardFine(a, u.id);
      var b := Close(Drop(a, {u.id}), prev);
      FineTrans(s, a, b);
      hide LostSame, Serving, NamesOk, LiveOk, ClosedOk, HoldersOk;
      SwapLast(s, p, np, h, b);
    }
  }

  lemma SwapLast(s: State, p: Path, np: Plugin, h: Hash, b: State)
    requires UnitsOk(s) && p in s.units && np.handle == s.next && s.units[p].plugin.Some? && np.id == s.units[p].id && np.id in s.live
    requires Fine(s, b) && Serving(b) && b == Close(Drop(Released(s, p), {s.units[p].id}), s.units[p].plugin.value.handle)
    ensures Fine(s, Swapped(s.(next := s.next + 1), p, np, h, true))
  {
    var w := s.units[p].(hash := h, plugin := Some(np));
    SwapShape(s, p, np, h, b);
    hide LostSame, Serving, NamesOk, LiveOk, ClosedOk, HoldersOk, Swapped;
    AdmitFine(b, p, np, w);
    FineTrans(s, b, Keep(Enter(b.(next := b.next + 1), np), p, w));
  }

  lemma SwapShape(s: State, p: Path, np: Plugin, h: Hash, b: State)
    requires p in s.units && s.units[p].plugin.Some? && np.id == s.units[p].id && np.id in s.live
    requires b == Close(Drop(Released(s, p), {s.units[p].id}), s.units[p].plugin.value.handle)
    ensures Swapped(s.(next := s.next + 1), p, np, h, true)
      == Keep(Enter(b.(next := b.next + 1), np), p, s.units[p].(hash := h, plugin := Some(np)))
  {
    assert s.live[np.id := np.handle] == b.live[np.id := np.handle];
  }

  lemma LoadedFine(s: State, p: Path, h: Hash, v: Verdict)
    requires Intact(s) && Serving(s) && p in s.units && s.units[p].np.None?
    ensures Fine(s, Loaded(s, p, h, v))
  {
    hide LostSame, Serving, Fine, NamesOk, LiveOk, ClosedOk, HoldersOk, Refused, FirstTime, Reidentified, Swapped;
    var u := s.units[p];
    match v.image
    case Unreadable => QuietFine(s, p, u.(pending := NO_HASH));
    case Broken => QuietFine(s, p, u.(pending := NO_HASH, errHash := if u.loaded then u.errHash else h));
    case Good(id) =>
      var np := Plugin(s.next, id);
      if !u.loaded {
        FirstTimeFine(s, p, np, h, v.ok);
      } else if id != u.id {
        ReidentifiedFine(s, p, np, h, v.ok, v.removed);
      } else {
        SwappedFine(s, p, np, h, v.ok);
      }
  }

  lemma AppliedFine(s: State, p: Path, h: Hash, v: Verdict)
    requires Intact(s) && Serving(s) && p in s.units
    ensures Fine(s, Applied(s, p, h, v))
  {
    var u := s.units[p];
    hide LostSame, NamesOk, LiveOk, ClosedOk, HoldersOk, Loaded, Serving;
    if u.np.None? {
      LoadedFine(s, p, h, v);
    } else if h == u.npHash {
      if Registers(s, u.np.value, v.ok) {
        EnrolFine(s, p, Adopting(u, u.np.value, h));
      } else {
        SelfFine(s);
      }
    } else {
      ShedFine(s, p);
      LoadedFine(Shed(s, p), p, h, v);
      FineTrans(s, Shed(s, p), Loaded(Shed(s, p), p, h, v));
    }
  }

  lemma NoticedFine(s: State, p: Path, h: Hash, v: Verdict)
    requires Intact(s) && Serving(s)
    ensures Fine(s, Noticed(s, p, h, v))
  {
    var u := UnitAt(s, p);
    var s1 := Keep(s, p, u);
    hide LostSame, Intact, Serving, Settled, Applied;
    QuietFine(s, p, u);
    if !Settled(u, h) {
      if u.pending != h {
        QuietFine(s1, p, u.(pending := h));
        FineTrans(s, s1, Keep(s1, p, u.(pending := h)));
      } else {
        AppliedFine(s1, p, h, v);
        FineTrans(s, s1, Applied(s1, p, h, v));
      }
    }
  }

  lemma {:induction false} LooksFine(s: State, seen: map<Path, Hash>, v: Path -> Verdict, order: seq<Path>)
    requires Intact(s) && Serving(s)
    ensures Fine(s, Looks(s, seen, v, order))
  {
    hide LostSame, Intact, Serving, Looked;
    if order == [] {
      SelfFine(s);
    } else {
      var t := Looks(s, seen, v, order[..|order| - 1]);
      LooksFine(s, seen, v, order[..|order| - 1]);
      LookedFine(t, seen, order[|order| - 1], v(order[|order| - 1]).granted);
      FineTrans(s, t, Looks(s, seen, v, order));
    }
  }

  lemma {:induction false} TurnsFine(s: State, seen: map<Path, Hash>, v: Path -> Verdict, order: seq<Path>)
    requires Intact(s) && Serving(s) && forall p :: p in order ==> p in seen
    ensures Fine(s, Turns(s, seen, v, order))
  {
    hide LostSame, Intact, Serving, Noticed;
    if order == [] {
      SelfFine(s);
    } else {
      var t := Turns(s, seen, v, order[..|order| - 1]);
      TurnsFine(s, seen, v, order[..|order| - 1]);
      NoticedFine(t, order[|order| - 1], seen[order[|order| - 1]], v(order[|order| - 1]));
      FineTrans(s, t, Turns(s, seen, v, order));
    }
  }
}
