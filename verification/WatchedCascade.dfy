// Unload against a host that answers as the plugin registry does: whatever the order, its cascades together take the
// least closed set over the ids of the loaded units, so that a loss can be foretold from the state before.
module WatchedCascade {
  import opened Text
  import opened Manifest
  import opened Removal
  import opened Watcher
  import opened WatchedInstances
  import opened WatchedUnload

  // ---- removals one after the other ----

  /** gone is the least closed set holding all of roots. */
  ghost predicate LeastClosedOver(env: Env, book: Book, roots: set<string>, gone: set<string>) {
    && roots <= gone <= book.Keys && Closed(env, book, gone)
    && forall other :: roots <= other && Closed(env, book, other) ==> gone <= other
  }

  /** What a dependency loses with x, after g took nothing from it, is what it loses with both. */
  lemma LostTwice(env: Env, book: Book, g: set<string>, x: set<string>, d: Dependency)
    requires g <= book.Keys && x <= book.Keys - g && !Removal.Lost(env, book, g, d)
    ensures Removal.Lost(env, book, g + x, d) <==> Removal.Lost(env, book - g, x, d)
  {
    if d.kind == Init && d.plugin == "" && d.slot != "" && !Builtin(env, d.slot) {
      var rest := book - g;
      RestOccupied(book, g, x, d.slot);
      assert OccupiedIn(book, book.Keys - g, d.slot) <==>
        OccupiedIn(book, x, d.slot) || OccupiedIn(book, book.Keys - (g + x), d.slot) by {
        SplitOccupied(book, book.Keys - g, x, book.Keys - (g + x), d.slot);
      }
      assert OccupiedIn(book, g + x, d.slot) <==> OccupiedIn(book, g, d.slot) || OccupiedIn(book, x, d.slot) by {
        SplitOccupied(book, g + x, g, x, d.slot);
      }
    }
  }

  lemma SplitOccupied(book: Book, all: set<string>, a: set<string>, c: set<string>, slot: string)
    requires all == a + c
    ensures OccupiedIn(book, all, slot) <==> OccupiedIn(book, a, slot) || OccupiedIn(book, c, slot)
  {
  }

  lemma RestOccupied(book: Book, g: set<string>, x: set<string>, slot: string)
    requires g <= book.Keys && x <= book.Keys - g
    ensures OccupiedIn(book - g, x, slot) <==> OccupiedIn(book, x, slot)
    ensures OccupiedIn(book - g, (book - g).Keys - x, slot) <==> OccupiedIn(book, book.Keys - (g + x), slot)
  {
    assert (book - g).Keys - x == book.Keys - (g + x);
    assert forall q :: q in x || q in book.Keys - (g + x) ==> q in book - g && (book - g)[q] == book[q];
  }

  /** Closing up in two goes. */
  lemma ClosedTwice(env: Env, book: Book, g: set<string>, x: set<string>)
    requires g <= book.Keys && x <= book.Keys - g && Closed(env, book, g)
    ensures Closed(env, book, g + x) <==> Closed(env, book - g, x)
  {
    forall q, d | q in book && q !in g && d in book[q].deps
      ensures Removal.Lost(env, book, g + x, d) <==> Removal.Lost(env, book - g, x, d)
    {
      assert !LosesSome(env, book, g, book[q]);
      LostTwice(env, book, g, x, d);
    }
    hide Removal.Lost;
    forall q | q in book && q !in g
      ensures LosesSome(env, book, g + x, book[q]) <==> LosesSome(env, book - g, x, (book - g)[q])
    {
    }
    hide LosesSome;
    assert forall q :: q in book - g <==> q in book && q !in g;
  }

  /** A removal from what earlier removals left completes their closed set to the least one with one more root. */
  lemma OneMoreRoot(env: Env, book: Book, roots: set<string>, g: set<string>, r: string, x: set<string>)
    requires LeastClosedOver(env, book, roots, g) && LeastClosed(env, book - g, r, x)
    ensures LeastClosedOver(env, book, roots + {r}, g + x)
  {
    assert (book - g).Keys == book.Keys - g;
    ClosedTwice(env, book, g, x);
    forall other | roots + {r} <= other && Closed(env, book, other)
      ensures g + x <= other
    {
      var inner := other * book.Keys;
      ClosedInside(env, book, other);
      assert g <= other;
      assert g + (inner - g) == inner;
      ClosedTwice(env, book, g, inner - g);
      assert r in inner - g;
    }
    hide Closed;
  }

  // ---- the host's cascades ----

  /** What is left of the book once only the ids of live are registered. */
  function Left(book: Book, live: map<string, nat>): Book {
    map id | id in book && id in live :: book[id]
  }

  /** The cascade takes what the registry's Remove would. */
  ghost predicate LawfulCascade(env: Env, book: Book, s: State, p: Path, victims: set<string>) {
    p in s.units && s.units[p].loaded && s.units[p].id in s.live ==>
      LeastClosed(env, Left(book, s.live), s.units[p].id, Taken(s, s.units[p], victims))
  }

  ghost predicate LawfulUnloads(env: Env, book: Book, s: State, v: Path -> Verdict, order: seq<Path>) {
    order == [] ||
      var before, p := order[..|order| - 1], order[|order| - 1];
      LawfulUnloads(env, book, s, v, before) && LawfulCascade(env, book, Unloads(s, v, before), p, v(p).victims)
  }

  ghost function IdsAlong(s: State, order: seq<Path>): set<string> {
    set p | p in order && p in s.units && s.units[p].loaded :: s.units[p].id
  }

  ghost function HeldIds(s: State): set<string> {
    set p | p in s.units && s.units[p].loaded :: s.units[p].id
  }

  lemma {:induction false} UnloadsUnits(s: State, v: Path -> Verdict, order: seq<Path>, p: Path)
    ensures p in Unloads(s, v, order).units <==> p in s.units && p !in order
    ensures p in Unloads(s, v, order).units ==> Unloads(s, v, order).units[p] == s.units[p]
  {
    if order != [] {
      var before := order[..|order| - 1];
      UnloadsUnits(s, v, before, p);
      assert order == before + [order[|order| - 1]];
    }
  }

  /** The cascades up to here have taken the least closed set over the ids visited. */
  ghost predicate CascadedTo(env: Env, book: Book, s: State, t: State, roots: set<string>) {
    exists gone :: LeastClosedOver(env, book, roots, gone) && t.live == s.live - gone
  }

  lemma CascadedOne(env: Env, book: Book, s: State, t: State, roots: set<string>, p: Path, victims: set<string>)
    requires CascadedTo(env, book, s, t, roots) && book.Keys == s.live.Keys
    requires p in t.units && (t.units[p].loaded ==> t.units[p].id in s.live) && LawfulCascade(env, book, t, p, victims)
    ensures CascadedTo(env, book, s, Unloaded(t, p, victims), if t.units[p].loaded then roots + {t.units[p].id} else roots)
  {
    var gone :| LeastClosedOver(env, book, roots, gone) && t.live == s.live - gone;
    var u, after := t.units[p], Unloaded(t, p, victims);
    if u.loaded {
      if u.id in t.live {
        var x := Taken(t, u, victims);
        assert Left(book, t.live) == book - gone;
        OneMoreRoot(env, book, roots, gone, u.id, x);
        assert after.live == s.live - (gone + x);
      } else {
        assert u.id in gone && LeastClosedOver(env, book, roots + {u.id}, gone);
        assert after.live == t.live - {} == t.live;
      }
    }
    hide Closed;
  }

  lemma IdsAlongNext(s: State, before: seq<Path>, p: Path)
    requires p in s.units
    ensures IdsAlong(s, before + [p]) == if s.units[p].loaded then IdsAlong(s, before) + {s.units[p].id} else IdsAlong(s, before)
  {
  }

  lemma NothingCascaded(env: Env, book: Book, s: State)
    ensures CascadedTo(env, book, s, s, IdsAlong(s, []))
  {
    assert Closed(env, book, {});
    assert IdsAlong(s, []) == {} && s.live == s.live - {};
    assert LeastClosedOver(env, book, {}, {});
  }

  /** No path twice, all of them units'. */
  ghost predicate Visits(s: State, order: seq<Path>) {
    && (forall i, j :: 0 <= i < j < |order| ==> order[i] != order[j])
    && forall p :: p in order ==> p in s.units
  }

  lemma VisitsLast(s: State, order: seq<Path>)
    requires Visits(s, order) && order != []
    ensures var before, p := order[..|order| - 1], order[|order| - 1];
      Visits(s, before) && p in s.units && p !in before && order == before + [p]
  {
  }

  lemma {:induction false} UnloadsCascade(env: Env, book: Book, s: State, v: Path -> Verdict, order: seq<Path>)
    requires Serving(s) && book.Keys == s.live.Keys && LawfulUnloads(env, book, s, v, order) && Visits(s, order)
    ensures CascadedTo(env, book, s, Unloads(s, v, order), IdsAlong(s, order))
  {
    hide CascadedTo, Unloaded, LawfulCascade, IdsAlong, Visits;
    if order == [] {
      NothingCascaded(env, book, s);
    } else {
      var before, p := order[..|order| - 1], order[|order| - 1];
      VisitsLast(s, order);
      UnloadsCascade(env, book, s, v, before);
      UnloadsUnits(s, v, before, p);
      IdsAlongNext(s, before, p);
      CascadedOne(env, book, s, Unloads(s, v, before), IdsAlong(s, before), p, v(p).victims);
    }
  }

  // ---- who is an orphan on the way ----

  lemma {:induction false} UnloadsLive(s: State, v: Path -> Verdict, order: seq<Path>)
    ensures forall k :: k in Unloads(s, v, order).live ==> k in s.live && Unloads(s, v, order).live[k] == s.live[k]
    ensures forall p :: p in order && p in s.units && s.units[p].loaded ==> s.units[p].id !in Unloads(s, v, order).live
  {
    if order != [] {
      var before, p := order[..|order| - 1], order[|order| - 1];
      assert order == before + [p];
      UnloadsLive(s, v, before);
      UnloadsUnits(s, v, before, p);
      UnloadedLive(Unloads(s, v, before), p, v(p).victims);
      hide Unloaded;
      assert p in before ==> p !in Unloads(s, v, before).units;
    }
  }

  lemma UnloadedLive(t: State, p: Path, victims: set<string>)
    ensures forall k :: k in Unloaded(t, p, victims).live ==> k in t.live && Unloaded(t, p, victims).live[k] == t.live[k]
    ensures p in t.units && t.units[p].loaded ==> t.units[p].id !in Unloaded(t, p, victims).live
  {
  }

  /** While Unload goes on, who is still registered is an orphan as before. */
  lemma OrphansStay(s: State, v: Path -> Verdict, order: seq<Path>, k: string)
    requires Intact(s) && k in Unloads(s, v, order).live
    ensures Orphan(Unloads(s, v, order), k) <==> Orphan(s, k)
  {
    var t := Unloads(s, v, order);
    UnloadsLive(s, v, order);
    var h := s.live[k];
    if h != 0 && Held(s.units, h) {
      var p :| p in s.units && Hand(s.units[p]) == h;
      assert s.units[p].loaded && s.units[p].id == k by {
        HeldAndLive(s, p, k);
      }
      UnloadsUnits(s, v, order, p);
    }
    if Held(t.units, h) {
      var p :| p in t.units && Hand(t.units[p]) == h;
      UnloadsUnits(s, v, order, p);
    }
    hide Intact, Hand;
  }

  lemma HeldAndLive(s: State, p: Path, k: string)
    requires Intact(s) && p in s.units && k in s.live && s.live[k] != 0 && Hand(s.units[p]) == s.live[k]
    ensures s.units[p].loaded && s.units[p].id == k
  {
    if s.units[p].loaded {
      assert NameOk(s, s.units[p].id, s.units[p].plugin.value.handle);
    }
  }

  /** From t to u an orphan went out of the host. */
  ghost predicate OrphanGone(s: State, t: State, u: State) {
    exists k :: k in t.live && k !in u.live && Orphan(s, k)
  }

  lemma TakesOrphanIff(t: State, p: Path, victims: set<string>)
    ensures TakesOrphan(t, p, victims) <==> OrphanGone(t, t, Unloaded(t, p, victims))
  {
    hide Held;
    if p in t.units && t.units[p].loaded {
      assert Unloaded(t, p, victims).live == t.live - Taken(t, t.units[p], victims);
    } else {
      assert Unloaded(t, p, victims).live == t.live;
    }
  }

  lemma {:induction false} UnloadsTakeIff(s: State, v: Path -> Verdict, order: seq<Path>)
    requires Intact(s)
    ensures UnloadsTake(s, v, order) <==> OrphanGone(s, s, Unloads(s, v, order))
  {
    if order != [] {
      var before, p := order[..|order| - 1], order[|order| - 1];
      var t, u := Unloads(s, v, before), Unloads(s, v, order);
      UnloadsTakeIff(s, v, before);
      TakesOrphanIff(t, p, v(p).victims);
      UnloadsLive(s, v, before);
      UnloadsLive(s, v, order);
      UnloadedLive(t, p, v(p).victims);
      hide Intact, TakesOrphan, Orphan, Unloaded;
      forall k | k in t.live
        ensures Orphan(t, k) <==> Orphan(s, k)
      {
        OrphansStay(s, v, before, k);
      }
    }
  }

  /** The condition on the state before: an orphan lies in the least closed set over the ids of the loaded units. */
  ghost predicate OrphanInCascades(env: Env, book: Book, s: State) {
    exists gone, k :: LeastClosedOver(env, book, HeldIds(s), gone) && k in gone && Orphan(s, k)
  }

  /** Against a host that answers as the registry does, Unload loses an instance, in whatever order it goes, if and only
      if an orphan lies in the cascades of the loaded ids. */
  lemma UnloadLosesIff(env: Env, book: Book, s: State, r: Round)
    requires Intact(s) && Serving(s) && CanRun(s, r) && r.Unload? && book.Keys == s.live.Keys
    requires LawfulUnloads(env, book, s, r.v, r.order)
    ensures Loses(s, r) <==> OrphanInCascades(env, book, s)
  {
    UnloadsCascade(env, book, s, r.v, r.order);
    UnloadsTakeIff(s, r.v, r.order);
    assert IdsAlong(s, r.order) == HeldIds(s);
    var gone :| LeastClosedOver(env, book, HeldIds(s), gone) && Unloads(s, r.v, r.order).live == s.live - gone;
    hide Intact, Serving, Unloads, LawfulUnloads, Closed, UnloadsTake, Held, HeldIds, IdsAlong, Covers;
    LeastOverIsUnique(env, book, s, gone);
  }

  lemma LeastOverIsUnique(env: Env, book: Book, s: State, gone: set<string>)
    requires LeastClosedOver(env, book, HeldIds(s), gone)
    ensures OrphanInCascades(env, book, s) <==> exists k :: k in gone && Orphan(s, k)
  {
    hide Closed, Orphan, HeldIds;
    if other, k :| LeastClosedOver(env, book, HeldIds(s), other) && k in other && Orphan(s, k) {
      assert other == gone;
    }
  }
}
