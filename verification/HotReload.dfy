// The Watcher object of autoload/autoload.go: Poll and Unload over the units in whatever order the map gives.
module HotReload {
  import opened Text
  import opened Watcher
  import opened WatchedInstances
  import opened WatchedUnload

  /** live is what the host has registered, next numbers the instances made by LoadFS, closed counts Close calls. */
  class FileWatcher {
    var units: map<Path, Unit>
    var live: map<string, nat>
    var next: nat
    var closed: multiset<nat>

    ghost function S(): State
      reads this
    {
      State(units, live, next, closed)
    }

    constructor (registered: set<string>)
      ensures IsStart(S()) && live.Keys == registered
    {
      units, next, closed := map[], 1, multiset{};
      live := map k | k in registered :: 0;
    }

    method CloseInstance(h: nat)
      modifies this`closed
      ensures S() == Close(old(S()), h)
    {
      closed := closed + multiset{h};
    }

    /** The host registers an instance whose id is free, if it accepts it. */
    method Register(np: Plugin, ok: bool) returns (done: bool)
      modifies this`live
      ensures done == Registers(old(S()), np, ok)
      ensures S() == if done then Enter(old(S()), np) else old(S())
    {
      done := ok && np.id !in live;
      if done {
        live := live[np.id := np.handle];
      }
    }

    method Replace(np: Plugin, ok: bool) returns (done: bool)
      modifies this`live
      ensures done == Replaces(old(S()), np, ok)
      ensures S() == if done then Enter(old(S()), np) else old(S())
    {
      done := ok && np.id in live;
      if done {
        live := live[np.id := np.handle];
      }
    }

    /** Remove without cascade. */
    method Remove(id: string, ok: bool) returns (done: bool)
      modifies this`live
      ensures done == Removes(old(S()), id, ok)
      ensures S() == if done then Drop(old(S()), {id}) else old(S())
    {
      if id !in live {
        assert live - {id} == live;
        return true;
      }
      done := ok;
      if done {
        live := live - {id};
      }
    }

    /** The first pass of a poll over one unit. */
    method Look(seen: map<Path, Hash>, p: Path, granted: bool)
      requires UnitsOk(S()) && p in units
      modifies this
      ensures S() == Looked(old(S()), seen, p, granted)
    {
      var u := units[p];
      if !u.loaded {
        return;
      }
      if p in seen {
        units := units[p := u.(misses := 0)];
        return;
      }
      Miss(p, granted);
    }

    /** A file missed once more: the second time in a row its plugin is removed, or kept for another two rounds. */
    method Miss(p: Path, granted: bool)
      requires p in units && units[p].loaded && units[p].plugin.Some?
      modifies this
      ensures S() == Missed(old(S()), p, granted)
    {
      var u := units[p];
      if u.misses + 1 < 2 {
        units := units[p := u.(misses := u.misses + 1)];
        return;
      }
      hide Drop, Enter, Close;
      var done := Remove(u.id, granted);
      if done {
        CloseInstance(u.plugin.value.handle);
        units := units - {p};
      } else {
        units := units[p := u.(misses := 0)];
      }
    }

    /** applyChange. */
    method ApplyChange(p: Path, h: Hash, v: Verdict)
      requires p in units && UnitOk(units[p])
      modifies this
      ensures S() == Applied(old(S()), p, h, v)
    {
      var u := units[p];
      if u.np.Some? {
        if h == u.npHash {
          var done := Register(u.np.value, v.ok);
          if done {
            units := units[p := u.(id := u.np.value.id, hash := h, loaded := true, plugin := u.np, np := None, npHash := NO_HASH)];
          }
          return;
        }
        CloseInstance(u.np.value.handle);
        units := units[p := u.(np := None, npHash := NO_HASH)];
      }
      Load(p, h, v);
    }

    /** applyChange from the reading of the content on. */
    method Load(p: Path, h: Hash, v: Verdict)
      requires p in units && UnitOk(units[p])
      modifies this
      ensures S() == Loaded(old(S()), p, h, v)
    {
      hide FirstTime, Reidentified, Swapped;
      var u := units[p];
      if v.image.Unreadable? {
        units := units[p := u.(pending := NO_HASH)];
        return;
      }
      if v.image.Broken? {
        if !u.loaded {
          u := u.(errHash := h);
        }
        units := units[p := u.(pending := NO_HASH)];
        return;
      }
      var np := Plugin(next, v.image.id);
      next := next + 1;
      if !u.loaded {
        Introduce(p, np, h, v.ok);
      } else if np.id != u.id {
        Reidentify(p, np, h, v.ok, v.removed);
      } else {
        Swap(p, np, h, v.ok);
      }
    }

    method Introduce(p: Path, np: Plugin, h: Hash, ok: bool)
      requires p in units
      modifies this`units, this`live
      ensures S() == FirstTime(old(S()), p, np, h, ok)
    {
      var done := Register(np, ok);
      if done {
        units := units[p := units[p].(id := np.id, hash := h, loaded := true, plugin := Some(np), np := None, npHash := NO_HASH)];
      } else {
        units := units[p := units[p].(np := Some(np), npHash := h)];
      }
    }

    method Reidentify(p: Path, np: Plugin, h: Hash, ok: bool, removed: bool)
      requires p in units && units[p].plugin.Some?
      modifies this`units, this`live, this`closed
      ensures S() == Reidentified(old(S()), p, np, h, ok, removed)
    {
      var u := units[p];
      var done := Register(np, ok);
      if !done {
        Reject(p, np, h);
        return;
      }
      var gone := Remove(u.id, removed);
      if gone {
        CloseInstance(u.plugin.value.handle);
      }
      units := units[p := u.(id := np.id, hash := h, plugin := Some(np))];
    }

    method Swap(p: Path, np: Plugin, h: Hash, ok: bool)
      requires p in units && units[p].plugin.Some?
      modifies this`units, this`live, this`closed
      ensures S() == Swapped(old(S()), p, np, h, ok)
    {
      var u := units[p];
      var done := Replace(np, ok);
      if !done {
        Reject(p, np, h);
        return;
      }
      CloseInstance(u.plugin.value.handle);
      units := units[p := u.(hash := h, plugin := Some(np))];
    }

    method Reject(p: Path, np: Plugin, h: Hash)
      requires p in units
      modifies this`units, this`closed
      ensures S() == Refused(old(S()), p, np, h)
    {
      CloseInstance(np.handle);
      units := units[p := units[p].(pending := NO_HASH, errHash := h)];
    }

    /** The second pass of a poll over one file. */
    method Notice(p: Path, h: Hash, v: Verdict)
      requires UnitsOk(S())
      modifies this
      ensures S() == Noticed(old(S()), p, h, v)
    {
      if p !in units {
        units := units[p := FRESH];
      }
      var u := units[p];
      assert S() == Keep(old(S()), p, UnitAt(old(S()), p));
      if u.loaded && h == u.hash {
        return;
      }
      if u.np.None? && u.errHash == h {
        return;
      }
      if u.pending != h {
        units := units[p := u.(pending := h)];
        return;
      }
      ApplyChange(p, h, v);
    }

    method Poll(seen: map<Path, Hash>, v: Path -> Verdict) returns (ghost r: Round)
      requires Intact(S()) && Serving(S()) && forall p :: p in seen ==> seen[p] != NO_HASH
      modifies this
      ensures r.Poll? && r.seen == seen && r.v == v && CanRun(old(S()), r)
      ensures S() == Next(old(S()), r) && Intact(S()) && Serving(S())
    {
      ghost var looks := LookAll(seen, v);
      ghost var turns := NoticeAll(seen, v);
      r := Round.Poll(seen, v, looks, turns);
    }

    method LookAll(seen: map<Path, Hash>, v: Path -> Verdict) returns (ghost looks: seq<Path>)
      requires Intact(S()) && Serving(S())
      modifies this
      ensures Covers(looks, old(S()).units.Keys) && S() == Looks(old(S()), seen, v, looks)
      ensures Intact(S()) && Serving(S())
    {
      ghost var s := S();
      var todo := units.Keys;
      looks := [];
      SelfFine(s);
      assert Covers(looks, s.units.Keys - todo);
      hide Intact, Serving, LostSame, Looked, Missed, Covers;
      while todo != {}
        invariant todo <= s.units.Keys && Covers(looks, s.units.Keys - todo)
        invariant S() == Looks(s, seen, v, looks) && Intact(S()) && Serving(S())
        invariant forall p :: p in todo ==> p in units
        decreases |todo|
      {
        var p :| p in todo;
        ghost var t := S();
        SoundUnits(t);
        Look(seen, p, v(p).granted);
        LookedFine(t, seen, p, v(p).granted);
        OthersStay(t, seen, p, v(p).granted);
        assert (looks + [p])[..|looks + [p]| - 1] == looks;
        CoversMore(looks, s.units.Keys, todo, p);
        looks := looks + [p];
        todo := todo - {p};
      }
    }

    method NoticeAll(seen: map<Path, Hash>, v: Path -> Verdict) returns (ghost turns: seq<Path>)
      requires Intact(S()) && Serving(S())
      modifies this
      ensures Covers(turns, seen.Keys) && S() == Turns(old(S()), seen, v, turns)
      ensures Intact(S()) && Serving(S())
    {
      ghost var s := S();
      var todo := seen.Keys;
      turns := [];
      SelfFine(s);
      assert Covers(turns, seen.Keys - todo);
      hide Intact, Serving, LostSame, Noticed, Covers;
      while todo != {}
        invariant todo <= seen.Keys && Covers(turns, seen.Keys - todo)
        invariant S() == Turns(s, seen, v, turns) && Intact(S()) && Serving(S())
        decreases |todo|
      {
        var p :| p in todo;
        ghost var t := S();
        SoundUnits(t);
        Notice(p, seen[p], v(p));
        NoticedFine(t, p, seen[p], v(p));
        assert (turns + [p])[..|turns + [p]| - 1] == turns;
        CoversMore(turns, seen.Keys, todo, p);
        turns := turns + [p];
        todo := todo - {p};
      }
    }

    /** Unload: cascade removal of every loaded unit's id, every held instance closed, no unit left. */
    method Unload(v: Path -> Verdict) returns (ghost r: Round)
      requires Intact(S()) && Serving(S())
      modifies this
      ensures r.Unload? && r.v == v && CanRun(old(S()), r)
      ensures S() == Next(old(S()), r) && Intact(S()) && Serving(S()) && units == map[]
    {
      ghost var order := UnloadAll(v);
      r := Round.Unload(v, order);
    }

    method UnloadAll(v: Path -> Verdict) returns (ghost order: seq<Path>)
      requires Intact(S())
      modifies this
      ensures Covers(order, old(S()).units.Keys) && S() == Unloads(old(S()), v, order)
      ensures Intact(S()) && units == map[]
    {
      ghost var s := S();
      var todo := units.Keys;
      order := [];
      assert Covers(order, s.units.Keys - todo);
      hide Intact, Unloaded, Covers, NoneLost, TakesOrphan, UnloadsTake;
      while todo != {}
        invariant todo == units.Keys && todo <= s.units.Keys && Covers(order, s.units.Keys - todo)
        invariant S() == Unloads(s, v, order) && Intact(S())
        decreases |todo|
      {
        var p :| p in todo;
        ghost var t := S();
        SoundUnits(t);
        UnloadOne(p, v(p).victims);
        UnloadedOk(t, p, v(p).victims);
        assert (order + [p])[..|order + [p]| - 1] == order;
        CoversMore(order, s.units.Keys, todo, p);
        order := order + [p];
        todo := todo - {p};
      }
    }

    method UnloadOne(p: Path, victims: set<string>)
      requires UnitsOk(S()) && p in units
      modifies this`units, this`live, this`closed
      ensures S() == Unloaded(old(S()), p, victims) && units == old(units) - {p}
    {
      var u := units[p];
      if !u.loaded {
        if u.np.Some? {
          CloseInstance(u.np.value.handle);
        }
        units := units - {p};
        return;
      }
      if u.id in live {
        live := live - (victims + {u.id});
      }
      if u.plugin.Some? {
        CloseInstance(u.plugin.value.handle);
      }
      units := units - {p};
    }
  }

  lemma CoversMore(order: seq<Path>, keys: set<Path>, todo: set<Path>, p: Path)
    requires Covers(order, keys - todo) && p in todo && todo <= keys
    ensures Covers(order + [p], keys - (todo - {p}))
  {
  }

  lemma SoundUnits(s: State)
    requires Intact(s)
    ensures UnitsOk(s)
  {
  }

  lemma OthersStay(s: State, seen: map<Path, Hash>, p: Path, granted: bool)
    ensures forall q :: q in s.units && q != p ==> q in Looked(s, seen, p, granted).units
  {
  }
}
