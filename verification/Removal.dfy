// Remove and Dependents: which plugins a removal takes along, as the least closed set, and what
// that means for the dependencies of the survivors.
module Removal {
  import opened Text
  import opened Manifest
  import opened Registry
  import opened Loading
  import opened Catalogue

  /** depBrokenByRemovalLocked for one dependency: the plugin name decides when both are given. */
  predicate BrokenBy(env: Env, book: Book, id: string, slot: string, d: Dependency) {
    d.kind == Init &&
    if d.plugin != "" then d.plugin == id
    else d.slot != "" && d.slot == slot && !Builtin(env, d.slot) && !OtherOccupant(book, d.slot, id)
  }

  predicate AnyBrokenBy(env: Env, book: Book, id: string, slot: string, m: Meta) {
    exists d :: d in m.deps && BrokenBy(env, book, id, slot, d)
  }

  predicate OccupiedIn(book: Book, ids: set<string>, slot: string) {
    exists q :: q in ids && q in book && book[q].slot == slot
  }

  /** With the plugins `gone` taken out of the book, d has lost the plugin or the last occupant of the slot it had. */
  ghost predicate Lost(env: Env, book: Book, gone: set<string>, d: Dependency) {
    d.kind == Init &&
    if d.plugin != "" then d.plugin in gone
    else d.slot != "" && !Builtin(env, d.slot) && OccupiedIn(book, gone, d.slot) && !OccupiedIn(book, book.Keys - gone, d.slot)
  }

  ghost predicate LosesSome(env: Env, book: Book, gone: set<string>, m: Meta) {
    exists d :: d in m.deps && Lost(env, book, gone, d)
  }

  /** Nobody outside loses anything. */
  ghost predicate Closed(env: Env, book: Book, gone: set<string>) {
    forall q :: q in book && q !in gone ==> !LosesSome(env, book, gone, book[q])
  }

  /** gone is the least closed set holding id. */
  ghost predicate LeastClosed(env: Env, book: Book, id: string, gone: set<string>) {
    && id in gone && gone <= book.Keys && Closed(env, book, gone)
    && forall other :: id in other && Closed(env, book, other) ==> gone <= other
  }

  lemma LeastClosedIsUnique(env: Env, book: Book, id: string, a: set<string>, b: set<string>)
    requires LeastClosed(env, book, id, a) && LeastClosed(env, book, id, b)
    ensures a == b
  {
    hide Closed;
    assert a <= b && b <= a;
  }

  // ---- one turn of the worklist ----

  lemma LossGrows(env: Env, book: Book, gone: set<string>, id: string, d: Dependency)
    requires id in book && id !in gone
    ensures Lost(env, book, gone + {id}, d) <==>
            Lost(env, book, gone, d) || BrokenBy(env, book - (gone + {id}), id, book[id].slot, d)
  {
    if d.kind == Init && d.plugin == "" && d.slot != "" && !Builtin(env, d.slot) {
      var more := gone + {id};
      var rest := book - more;
      assert OccupiedIn(book, more, d.slot) <==> OccupiedIn(book, gone, d.slot) || book[id].slot == d.slot by {
        if book[id].slot == d.slot { assert id in more; }
        if OccupiedIn(book, gone, d.slot) {
          var q :| q in gone && q in book && book[q].slot == d.slot;
          assert q in more;
        }
      }
      assert OccupiedIn(book, book.Keys - gone, d.slot) <==> OccupiedIn(book, book.Keys - more, d.slot) || book[id].slot == d.slot by {
        if book[id].slot == d.slot { assert id in book.Keys - gone; }
        if OccupiedIn(book, book.Keys - more, d.slot) {
          var q :| q in book.Keys - more && q in book && book[q].slot == d.slot;
          assert q in book.Keys - gone;
        }
      }
      assert OtherOccupant(rest, d.slot, id) <==> OccupiedIn(book, book.Keys - more, d.slot) by {
        if OccupiedIn(book, book.Keys - more, d.slot) {
          var q :| q in book.Keys - more && q in book && book[q].slot == d.slot;
          assert q in rest && q != id;
        }
        if OtherOccupant(rest, d.slot, id) {
          var q :| q in rest && q != id && rest[q].slot == d.slot;
          assert q in book.Keys - more;
        }
      }
    }
  }

  /** The test the loop makes against the registry left tells who newly loses something. */
  lemma LosesMore(env: Env, book: Book, gone: set<string>, id: string, m: Meta)
    requires id in book && id !in gone
    ensures LosesSome(env, book, gone + {id}, m) <==>
            LosesSome(env, book, gone, m) || AnyBrokenBy(env, book - (gone + {id}), id, book[id].slot, m)
  {
    forall d | d in m.deps
      ensures Lost(env, book, gone + {id}, d) <==>
              Lost(env, book, gone, d) || BrokenBy(env, book - (gone + {id}), id, book[id].slot, d)
    {
      LossGrows(env, book, gone, id, d);
    }
    hide Lost, BrokenBy;
  }

  lemma LossIsMonotone(env: Env, book: Book, a: set<string>, b: set<string>, m: Meta)
    requires a <= b <= book.Keys && LosesSome(env, book, a, m)
    ensures LosesSome(env, book, b, m)
  {
    var d :| d in m.deps && Lost(env, book, a, d);
    if d.plugin == "" {
      var q :| q in a && q in book && book[q].slot == d.slot;
      assert q in b;
      forall p | p in book.Keys - b
        ensures book[p].slot != d.slot
      {
        assert p in book.Keys - a;
      }
    }
    assert Lost(env, book, b, d);
  }

  /** The worklist of Remove: `gone` are deleted, `marked` are deleted or queued. */
  ghost predicate Worklist(env: Env, book: Book, id: string, gone: set<string>, marked: set<string>) {
    && id in marked && gone <= marked <= book.Keys
    && (forall q :: q in book && q !in marked ==> !LosesSome(env, book, gone, book[q]))
    && (forall other :: id in other && Closed(env, book, other) ==> marked <= other)
  }

  /** Those a scan after deleting x queues. */
  ghost function NewlyBroken(env: Env, left: Book, x: string, slot: string, marked: set<string>): set<string> {
    set q | q in left && q !in marked && AnyBrokenBy(env, left, x, slot, left[q])
  }

  lemma WorklistStart(env: Env, book: Book, id: string)
    requires id in book
    ensures Worklist(env, book, id, {}, {id})
  {
  }

  lemma WorklistStep(env: Env, book: Book, id: string, gone: set<string>, marked: set<string>, x: string)
    requires Worklist(env, book, id, gone, marked) && x in marked && x !in gone
    ensures var left := book - (gone + {x});
            Worklist(env, book, id, gone + {x}, marked + NewlyBroken(env, left, x, book[x].slot, marked))
  {
    var left := book - (gone + {x});
    var more := NewlyBroken(env, left, x, book[x].slot, marked);
    hide LosesSome, AnyBrokenBy, Closed;
    forall q | q in book && q !in marked + more
      ensures !LosesSome(env, book, gone + {x}, book[q])
    {
      assert q in left;
      LosesMore(env, book, gone, x, book[q]);
    }
    forall other | x in other && gone <= other && marked <= other && Closed(env, book, other)
      ensures more <= other
    {
      forall q | q in more
        ensures q in other
      {
        LosesMore(env, book, gone, x, book[q]);
        ClosedTakes(env, book, gone + {x}, other, q);
      }
    }
  }

  lemma ClosedTakes(env: Env, book: Book, gone: set<string>, other: set<string>, q: string)
    requires q in book && gone <= book.Keys && gone <= other && Closed(env, book, other) && LosesSome(env, book, gone, book[q])
    ensures q in other
  {
    var inside := other * book.Keys;
    LossIsMonotone(env, book, gone, inside, book[q]);
    ClosedInside(env, book, other);
  }

  lemma ClosedInside(env: Env, book: Book, other: set<string>)
    requires Closed(env, book, other)
    ensures Closed(env, book, other * book.Keys)
  {
    var inside := other * book.Keys;
    assert book.Keys - inside == book.Keys - other;
    forall d, slot
      ensures OccupiedIn(book, inside, slot) <==> OccupiedIn(book, other, slot)
      ensures Lost(env, book, inside, d) ==> Lost(env, book, other, d)
    {
      SameOccupied(book, other, slot);
      SameOccupied(book, other, d.slot);
    }
    hide Lost;
  }

  lemma SameOccupied(book: Book, other: set<string>, slot: string)
    ensures OccupiedIn(book, other * book.Keys, slot) <==> OccupiedIn(book, other, slot)
  {
    if OccupiedIn(book, other, slot) {
      var q :| q in other && q in book && book[q].slot == slot;
      assert q in other * book.Keys;
    }
  }

  lemma WorklistEnd(env: Env, book: Book, id: string, marked: set<string>)
    requires Worklist(env, book, id, marked, marked)
    ensures LeastClosed(env, book, id, marked)
  {
  }

  // ---- dependents ----

  /** The set Dependents answers and Remove without cascade looks at. */
  ghost function DependentsOf(env: Env, book: Book, id: string): set<string>
    requires id in book
  {
    set q | q in book && q != id && AnyBrokenBy(env, book, id, book[id].slot, book[q])
  }

  lemma SameBreak(env: Env, book: Book, id: string, m: Meta)
    requires id in book
    ensures LosesSome(env, book, {id}, m) <==> AnyBrokenBy(env, book, id, book[id].slot, m)
  {
    assert {} + {id} == {id};
    LosesMore(env, book, {}, id, m);
    assert !LosesSome(env, book, {}, m);
    forall d | d in m.deps
      ensures BrokenBy(env, book - {id}, id, book[id].slot, d) <==> BrokenBy(env, book, id, book[id].slot, d)
    {
      assert OtherOccupant(book - {id}, d.slot, id) <==> OtherOccupant(book, d.slot, id) by {
        if OtherOccupant(book, d.slot, id) {
          var q :| q in book && q != id && book[q].slot == d.slot;
          assert q in book - {id};
        }
      }
    }
    hide BrokenBy;
  }

  /** Nobody depends on id exactly when a cascade would take id alone. */
  lemma NoDependentsIff(env: Env, book: Book, id: string)
    requires id in book
    ensures DependentsOf(env, book, id) == {} <==> LeastClosed(env, book, id, {id})
  {
    forall q | q in book
      ensures LosesSome(env, book, {id}, book[q]) <==> AnyBrokenBy(env, book, id, book[id].slot, book[q])
    {
      SameBreak(env, book, id, book[q]);
    }
    hide LosesSome, AnyBrokenBy;
    if DependentsOf(env, book, id) == {} {
      forall q | q in book && q != id
        ensures !LosesSome(env, book, {id}, book[q])
      {
        assert q !in DependentsOf(env, book, id);
      }
    }
  }

  // ---- the survivors ----

  /** Below a sound book with single-name dependencies, losing something is exactly becoming unmet. */
  lemma LossIsUnmet(env: Env, book: Book, gone: set<string>, d: Dependency)
    requires OneName(d) && DepMet(env, book, d)
    ensures Lost(env, book, gone, d) <==> !DepMet(env, book - gone, d)
  {
    var rest := book - gone;
    if d.kind == Init && d.slot != "" && !Builtin(env, d.slot) {
      assert Occupied(rest, d.slot) <==> OccupiedIn(book, book.Keys - gone, d.slot) by {
        if Occupied(rest, d.slot) {
          var q :| q in rest && rest[q].slot == d.slot;
          assert q in book.Keys - gone;
        }
        if OccupiedIn(book, book.Keys - gone, d.slot) {
          var q :| q in book.Keys - gone && q in book && book[q].slot == d.slot;
          assert q in rest && rest[q].slot == d.slot;
        }
      }
      var q :| q in book && book[q].slot == d.slot;
      assert q in gone || q in book.Keys - gone;
    }
  }

  /** A lasting dependency that is met and not lost stays met. */
  lemma KeptIsMet(env: Env, book: Book, gone: set<string>, d: Dependency)
    requires Lasting(env, d) && DepMet(env, book, d) && !Lost(env, book, gone, d)
    ensures DepMet(env, book - gone, d)
  {
    if OneName(d) {
      LossIsUnmet(env, book, gone, d);
    }
  }

  /** A removal that takes nothing from the survivors leaves all their dependencies met. */
  lemma ClosedKeepsSound(env: Env, book: Book, gone: set<string>)
    requires Sound(env, book) && LastingBook(env, book) && Closed(env, book, gone)
    ensures Sound(env, book - gone)
  {
    var rest := book - gone;
    forall q, d | q in rest && d in rest[q].deps
      ensures DepMet(env, rest, d)
    {
      assert q in book && q !in gone && d in book[q].deps;
      assert DepsMet(env, book, book[q]) && LastingMeta(env, book[q]) && !LosesSome(env, book, gone, book[q]);
      KeptIsMet(env, book, gone, d);
    }
    hide DepMet, Closed, LastingBook;
    forall q | q in rest
      ensures DepsMet(env, rest, rest[q])
    {
    }
  }

  lemma ClosedIffSoundRest(env: Env, book: Book, gone: set<string>)
    requires Sound(env, book) && Shaped(book)
    ensures Closed(env, book, gone) <==> Sound(env, book - gone)
  {
    var rest := book - gone;
    forall q, d | q in rest && d in book[q].deps
      ensures Lost(env, book, gone, d) <==> !DepMet(env, rest, d)
    {
      assert DepsMet(env, book, book[q]) && ShapedMeta(book[q]);
      LossIsUnmet(env, book, gone, d);
    }
    hide Lost, DepMet;
    if Closed(env, book, gone) {
      forall q | q in rest
        ensures DepsMet(env, rest, rest[q])
      {
        assert !LosesSome(env, book, gone, book[q]);
      }
    }
    if Sound(env, rest) {
      forall q | q in book && q !in gone
        ensures !LosesSome(env, book, gone, book[q])
      {
        assert q in rest && DepsMet(env, rest, rest[q]);
      }
    }
  }

  /** Cascade removal leaves the greatest part of the registry without id that still has all its dependencies. */
  lemma SurvivorsAreGreatest(env: Env, book: Book, id: string, gone: set<string>)
    requires Sound(env, book) && Shaped(book) && LeastClosed(env, book, id, gone)
    ensures Sound(env, book - gone)
    ensures forall kept :: kept <= book.Keys && id !in kept && Sound(env, book - (book.Keys - kept)) ==> kept <= book.Keys - gone
  {
    ClosedIffSoundRest(env, book, gone);
    hide Sound, Shaped, Closed;
    forall kept | kept <= book.Keys && id !in kept && Sound(env, book - (book.Keys - kept))
      ensures kept <= book.Keys - gone
    {
      ClosedIffSoundRest(env, book, book.Keys - kept);
      assert gone <= book.Keys - kept;
    }
  }

  // ---- dependencies with two names ----

  /** Removal and validation agree on when d is broken. */
  ghost predicate Agrees(env: Env, d: Dependency) {
    forall book: Book, gone: set<string> :: DepMet(env, book, d) ==> (Lost(env, book, gone, d) <==> !DepMet(env, book - gone, d))
  }

  /** contract/meta.go says the slot wins everywhere when both names are given; validation does that, removal does
      not. They agree exactly on dependencies with one name. */
  lemma AgreesIffOneName(env: Env, d: Dependency)
    requires d.kind == Init && !NamesNothing(d)
    ensures Agrees(env, d) <==> WellShaped(d)
  {
    if WellShaped(d) {
      forall book: Book, gone: set<string> | DepMet(env, book, d)
        ensures Lost(env, book, gone, d) <==> !DepMet(env, book - gone, d)
      {
        LossIsUnmet(env, book, gone, d);
      }
    } else {
      var other := d.plugin + "x";
      var book: Book := map[other := Meta(other, "1", d.slot, [], [], 0)];
      assert book[other].slot == d.slot;
      assert DepMet(env, book, d);
      var rest := book - {d.plugin};
      assert other in rest && rest[other].slot == d.slot;
      assert Lost(env, book, {d.plugin}, d) && DepMet(env, rest, d);
    }
  }

  /** Removal can never leave a dependency unmet that it did not count as broken, exactly when the dependency is lasting. */
  lemma RemovalKeepsMetIffLasting(env: Env, d: Dependency)
    requires d.kind == Init && !NamesNothing(d)
    ensures (forall book: Book, gone: set<string> :: DepMet(env, book, d) && !Lost(env, book, gone, d) ==> DepMet(env, book - gone, d))
      <==> Lasting(env, d)
  {
    if Lasting(env, d) {
      forall book: Book, gone: set<string> | DepMet(env, book, d) && !Lost(env, book, gone, d)
        ensures DepMet(env, book - gone, d)
      {
        KeptIsMet(env, book, gone, d);
      }
    } else {
      var other := d.plugin + "x";
      var book: Book := map[other := Meta(other, "1", d.slot, [], [], 0)];
      assert book[other].slot == d.slot;
      assert DepMet(env, book, d) && !Lost(env, book, {other}, d);
      assert book - {other} == map[];
      assert !DepMet(env, book - {other}, d);
    }
  }

  /** So removing the last occupant of a slot can leave a plugin registered without its slot. */
  lemma TwoNamesLeaveUnmet(env: Env)
    requires env.slots == map["enc" := SlotSpec(false, [])]
    ensures var provider, named := Meta("X", "1", "enc", [], [], 0), Meta("P", "1", "", [], [], 0);
            var user := Meta("Y", "1", "", [], [Dependency("P", "enc", Init, "")], 0);
            var book := map["X" := provider, "P" := named, "Y" := user];
            Sound(env, book) && LeastClosed(env, book, "X", {"X"}) && !Sound(env, book - {"X"})
  {
    var d := Dependency("P", "enc", Init, "");
    var provider, named := Meta("X", "1", "enc", [], [], 0), Meta("P", "1", "", [], [], 0);
    var user := Meta("Y", "1", "", [], [d], 0);
    var book: Book := map["X" := provider, "P" := named, "Y" := user];
    assert book["X"].slot == "enc";
    assert !Lost(env, book, {"X"}, d);
    var rest := book - {"X"};
    assert !DepMet(env, rest, d) && "Y" in rest && d in rest["Y"].deps;
  }

  // ---- the state after a removal ----

  function Removed(s: State, gone: set<string>): State {
    s.(plugins := s.plugins - gone, meta := s.meta - gone, order := s.order - gone,
       fns := map k | k in s.fns && s.fns[k].owner !in gone :: s.fns[k])
  }

  lemma NothingRemoved(s: State)
    ensures Removed(s, {}) == s
  {
  }

  lemma RemovedOneMore(s: State, gone: set<string>, id: string, r: State)
    requires var was := Removed(s, gone);
             r == was.(plugins := was.plugins - {id}, meta := was.meta - {id}, order := was.order - {id}, fns := DropFns(was.fns, id))
    ensures r == Removed(s, gone + {id})
  {
  }

  lemma RemovedKeeps(env: Env, s: State, gone: set<string>)
    requires Valid(env, s)
    ensures Valid(env, Removed(s, gone))
  {
    var r := Removed(s, gone);
    SameQueue(s, r);
    RemovedTables(s, gone);
    assert Apart(r) && Grows(r.meta, s.meta) by {
      hide Tables, Queue, Quiet;
    }
    hide Tables, Queue, Apart;
    LessStaysQuiet(env, s, r);
  }

  lemma LessStaysQuiet(env: Env, s: State, r: State)
    requires Quiet(env, s) && Grows(r.meta, s.meta) && r.waiting == s.waiting
    ensures Quiet(env, r)
  {
    hide DepsMet, Grows;
    forall id | id in r.waiting
      ensures !DepsMet(env, r.meta, r.waiting[id].meta)
    {
      if DepsMet(env, r.meta, r.waiting[id].meta) {
        MoreAreMet(env, r.meta, s.meta, r.waiting[id].meta);
      }
    }
  }

  lemma RemovedTables(s: State, gone: set<string>)
    requires Tables(s)
    ensures Tables(Removed(s, gone))
  {
    hide StaticOk;
  }

  lemma RemovedDeclares(s: State, gone: set<string>, k: string, e: FnEntry)
    requires Tables(s)
    ensures SomeoneDeclares(s.plugins - gone, k, e) <==> SomeoneDeclares(s.plugins, k, e) && e.owner !in gone
  {
    var left := s.plugins - gone;
    if SomeoneDeclares(left, k, e) {
      var id :| id in left && Declares(left[id], k, e);
      assert s.plugins[id] == left[id];
      OwnerIs(s, id, k, e);
    }
    if SomeoneDeclares(s.plugins, k, e) && e.owner !in gone {
      OwnerIsRegistered(s, k, e);
      assert left[e.owner] == s.plugins[e.owner];
    }
  }

  lemma OwnerIs(s: State, id: string, k: string, e: FnEntry)
    requires Tables(s) && id in s.plugins && Declares(s.plugins[id], k, e)
    ensures e.owner == id
  {
    hide StaticOk;
    var q := s.plugins[id];
    var i :| DeclaredAt(q.meta.id, q.handle, q.meta.functions, i, k, e);
    assert q.meta.id == id;
  }

  lemma RemovedCatalogue(s: State, gone: set<string>)
    requires Tables(s) && Exact(s)
    ensures Exact(Removed(s, gone))
  {
    var r := Removed(s, gone);
    forall k, e
      ensures Listed(r.fns, k, e) <==> SomeoneDeclares(r.plugins, k, e)
    {
      assert Listed(s.fns, k, e) <==> SomeoneDeclares(s.plugins, k, e);
      RemovedDeclares(s, gone, k, e);
      hide Tables, Declares;
    }
  }
}
