// A run on a lawful host that loses an instance: three files hold a chain of plugins, "d" needs "a" and "a" needs "x".
// The file of "a" comes to hold "b" instead; the host must keep "a" for "d". Unload then takes "a" with "x".
module WatchedRename {
  import opened Text
  import opened Manifest
  import opened Removal
  import opened Watcher
  import opened WatchedInstances
  import opened WatchedUnload
  import opened WatchedCascade
  import opened WatchedLawful

  const FILE_X: Path := "x.wasm"
  const FILE_A: Path := "a.wasm"
  const FILE_D: Path := "d.wasm"

  function Needs(id: string): seq<Dependency> {
    if id == "a" then [Dependency("x", "", Init, "")]
    else if id == "d" then [Dependency("a", "", Init, "")]
    else []
  }

  /** The manifests: one name per dependency, nothing else. */
  function Manifests(np: Watcher.Plugin): Meta {
    Meta(np.id, "1", "", [], Needs(np.id), 0)
  }

  function Loader(hash: Hash, pending: Hash, handle: nat, id: string): Unit {
    Unit(hash, pending, 0, id, Some(Watcher.Plugin(handle, id)), true, None, NO_HASH, NO_HASH)
  }

  function Three(x: Unit, a: Unit, d: Unit): map<Path, Unit> {
    map[FILE_X := x, FILE_A := a, FILE_D := d]
  }

  function Seen(a: Hash): map<Path, Hash> {
    map[FILE_X := 1, FILE_A := a, FILE_D := 3]
  }

  /** What the files hold, and the host's answers; victims is what the cascade of "x" takes. */
  function Answer(p: Path, a: string, removed: bool, victims: set<string>): Verdict {
    Verdict(true, Good(if p == FILE_X then "x" else if p == FILE_A then a else "d"), true, removed, if p == FILE_X then victims else {})
  }

  function Answers(a: string, removed: bool, victims: set<string>): Path -> Verdict {
    (p: Path) => Answer(p, a, removed, victims)
  }

  const ORDER: seq<Path> := [FILE_X, FILE_A, FILE_D]

  const LOADED: map<string, nat> := map["x" := 1, "a" := 2, "d" := 3]

  function Stage(i: nat): State {
    match i
    case 0 => State(map[], map[], 1, multiset{})
    case 1 => State(Three(FRESH.(pending := 1), FRESH.(pending := 2), FRESH.(pending := 3)), map[], 1, multiset{})
    case 2 => State(Three(Loader(1, 1, 1, "x"), Loader(2, 2, 2, "a"), Loader(3, 3, 3, "d")), LOADED, 4, multiset{})
    case 3 => State(Three(Loader(1, 1, 1, "x"), Loader(2, 4, 2, "a"), Loader(3, 3, 3, "d")), LOADED, 4, multiset{})
    case _ => State(Three(Loader(1, 1, 1, "x"), Loader(4, 4, 4, "b"), Loader(3, 3, 3, "d")), LOADED["b" := 4], 5, multiset{})
  }

  ghost function StageRound(i: nat): Round {
    match i
    case 0 => Poll(Seen(2), Answers("a", true, {}), [], ORDER)
    case 1 => Poll(Seen(2), Answers("a", true, {}), ORDER, ORDER)
    case 2 => Poll(Seen(4), Answers("b", false, {}), ORDER, ORDER)
    case 3 => Poll(Seen(4), Answers("b", false, {}), ORDER, ORDER)
    case _ => Unload(Answers("b", false, {"x", "a", "d"}), ORDER)
  }

  // ---- how one file fares ----

  lemma FirstSight(s: State, p: Path, h: Hash, v: Verdict)
    requires p !in s.units && h != NO_HASH
    ensures Noticed(s, p, h, v) == Keep(s, p, FRESH.(pending := h))
  {
    assert s.units[p := FRESH][p := FRESH.(pending := h)] == s.units[p := FRESH.(pending := h)];
  }

  lemma SecondSight(s: State, p: Path, h: Hash, v: Verdict, id: string)
    requires p in s.units && s.units[p] == FRESH.(pending := h) && h != NO_HASH
    requires v.image == Good(id) && v.ok && id !in s.live
    ensures Noticed(s, p, h, v) == State(s.units[p := Loader(h, h, s.next, id)], s.live[id := s.next], s.next + 1, s.closed)
  {
    assert Keep(s, p, s.units[p]) == s;
  }

  lemma Unchanged(s: State, p: Path, h: Hash, v: Verdict)
    requires p in s.units && s.units[p].loaded && s.units[p].hash == h
    ensures Noticed(s, p, h, v) == s
  {
    assert s.units[p := s.units[p]] == s.units;
  }

  lemma NewContent(s: State, p: Path, h: Hash, v: Verdict)
    requires p in s.units && !Settled(s.units[p], h) && s.units[p].pending != h
    ensures Noticed(s, p, h, v) == Keep(s, p, s.units[p].(pending := h))
  {
    assert s.units[p := s.units[p]] == s.units;
  }

  lemma NewId(s: State, p: Path, h: Hash, v: Verdict, was: Unit, id: string)
    requires p in s.units && s.units[p] == was && was.plugin.Some? && h != was.hash && h != NO_HASH
    requires was == Loader(was.hash, h, was.plugin.value.handle, was.id)
    requires v.image == Good(id) && v.ok && id !in s.live && id != was.id && was.id in s.live && !v.removed
    ensures Noticed(s, p, h, v) == State(s.units[p := Loader(h, h, s.next, id)], s.live[id := s.next], s.next + 1, s.closed)
  {
    assert s.units[p := s.units[p]] == s.units;
  }

  /** A poll that misses nothing: its first pass changes nothing. */
  lemma {:induction false} LooksIdle(s: State, seen: map<Path, Hash>, v: Path -> Verdict, order: seq<Path>)
    requires forall p :: p in s.units && s.units[p].loaded ==> p in seen && s.units[p].misses == 0
    ensures Looks(s, seen, v, order) == s
  {
    if order != [] {
      var p := order[|order| - 1];
      LooksIdle(s, seen, v, order[..|order| - 1]);
      assert p in s.units && s.units[p].loaded ==> s.units[p := s.units[p].(misses := 0)] == s.units;
    }
  }

  lemma OrderSteps()
    ensures ORDER[..2] == [FILE_X, FILE_A] && ORDER[..2][..1] == [FILE_X] && ORDER[..2][..1][..0] == []
    ensures FILE_X != FILE_A && FILE_A != FILE_D && FILE_X != FILE_D
  {
  }

  lemma TurnsOfThree(s: State, a: Hash, v: Path -> Verdict)
    ensures forall p :: p in ORDER ==> p in Seen(a)
    ensures Turns(s, Seen(a), v, ORDER) ==
      Noticed(Noticed(Noticed(s, FILE_X, 1, v(FILE_X)), FILE_A, a, v(FILE_A)), FILE_D, 3, v(FILE_D))
  {
    OrderSteps();
    hide Noticed;
    assert Turns(s, Seen(a), v, []) == s;
    assert Turns(s, Seen(a), v, [FILE_X]) == Noticed(s, FILE_X, 1, v(FILE_X));
    assert Turns(s, Seen(a), v, [FILE_X, FILE_A]) == Noticed(Noticed(s, FILE_X, 1, v(FILE_X)), FILE_A, a, v(FILE_A));
  }

  // ---- the host's answers ----

  lemma IsAcceptable(env: Env, live: map<string, nat>, np: Watcher.Plugin)
    requires np.id == "x" || np.id == "b" || (np.id == "a" && "x" in live) || (np.id == "d" && "a" in live)
    ensures Acceptable(env, BookOf(Manifests, live), Manifests(np))
  {
  }

  lemma LooksLawful(env: Env, s: State, seen: map<Path, Hash>, v: Path -> Verdict, order: seq<Path>)
    requires forall p :: p in s.units && s.units[p].loaded ==> p in seen && s.units[p].misses == 0
    ensures LawfulLooks(env, Manifests, s, seen, v, order)
  {
    if order != [] {
      LooksLawful(env, s, seen, v, order[..|order| - 1]);
      LooksIdle(s, seen, v, order[..|order| - 1]);
      hide LawfulRemove, Looks;
    }
  }

  lemma TurnsLawful(env: Env, s: State, a: Hash, v: Path -> Verdict)
    requires LawfulNotice(env, Manifests, s, FILE_X, 1, v(FILE_X))
    requires LawfulNotice(env, Manifests, Noticed(s, FILE_X, 1, v(FILE_X)), FILE_A, a, v(FILE_A))
    requires LawfulNotice(env, Manifests, Noticed(Noticed(s, FILE_X, 1, v(FILE_X)), FILE_A, a, v(FILE_A)), FILE_D, 3, v(FILE_D))
    ensures forall p :: p in ORDER ==> p in Seen(a)
    ensures LawfulTurns(env, Manifests, s, Seen(a), v, ORDER)
  {
    OrderSteps();
    hide Noticed, LawfulNotice;
    assert Turns(s, Seen(a), v, []) == s;
    assert Turns(s, Seen(a), v, [FILE_X]) == Noticed(s, FILE_X, 1, v(FILE_X));
    assert Turns(s, Seen(a), v, [FILE_X, FILE_A]) == Noticed(Noticed(s, FILE_X, 1, v(FILE_X)), FILE_A, a, v(FILE_A));
    assert LawfulTurns(env, Manifests, s, Seen(a), v, []);
    assert LawfulTurns(env, Manifests, s, Seen(a), v, [FILE_X]);
    assert LawfulTurns(env, Manifests, s, Seen(a), v, [FILE_X, FILE_A]);
  }

  // ---- the rounds ----

  lemma StepFirst(env: Env)
    ensures var v := Answers("a", true, {});
      && Noticed(Noticed(Noticed(Stage(0), FILE_X, 1, v(FILE_X)), FILE_A, 2, v(FILE_A)), FILE_D, 3, v(FILE_D)) == Stage(1)
      && LawfulTurns(env, Manifests, Stage(0), Seen(2), v, ORDER)
  {
    var s, v := Stage(0), Answers("a", true, {});
    FirstSight(s, FILE_X, 1, v(FILE_X));
    var s1 := Noticed(s, FILE_X, 1, v(FILE_X));
    FirstSight(s1, FILE_A, 2, v(FILE_A));
    var s2 := Noticed(s1, FILE_A, 2, v(FILE_A));
    FirstSight(s2, FILE_D, 3, v(FILE_D));
    hide Noticed;
    TurnsLawful(env, s, 2, v);
  }

  /** Between the stages 1 and 2: "x" is registered, then "a". */
  function Between(i: nat): State {
    match i
    case 0 => State(Three(Loader(1, 1, 1, "x"), FRESH.(pending := 2), FRESH.(pending := 3)), map["x" := 1], 2, multiset{})
    case _ => State(Three(Loader(1, 1, 1, "x"), Loader(2, 2, 2, "a"), FRESH.(pending := 3)), map["x" := 1, "a" := 2], 3, multiset{})
  }

  /** A file seen again is loaded and accepted. */
  lemma Accepted(env: Env, s: State, p: Path, h: Hash, v: Verdict, id: string)
    requires p in s.units && s.units[p] == FRESH.(pending := h) && h != NO_HASH
    requires v.image == Good(id) && v.ok && id !in s.live
    requires id == "x" || (id == "a" && "x" in s.live) || (id == "d" && "a" in s.live)
    ensures Noticed(s, p, h, v) == State(s.units[p := Loader(h, h, s.next, id)], s.live[id := s.next], s.next + 1, s.closed)
    ensures LawfulNotice(env, Manifests, s, p, h, v)
  {
    SecondSight(s, p, h, v, id);
    IsAcceptable(env, s.live, Watcher.Plugin(s.next, id));
    hide Noticed, Acceptable, Manifests, BookOf;
  }

  lemma SecondX(env: Env)
    ensures var v := Answer(FILE_X, "a", true, {});
      Noticed(Stage(1), FILE_X, 1, v) == Between(0) && LawfulNotice(env, Manifests, Stage(1), FILE_X, 1, v)
  {
    Accepted(env, Stage(1), FILE_X, 1, Answer(FILE_X, "a", true, {}), "x");
    hide Noticed, LawfulNotice;
    assert Stage(1).units[FILE_X := Loader(1, 1, 1, "x")] == Between(0).units;
  }

  lemma SecondA(env: Env)
    ensures var v := Answer(FILE_A, "a", true, {});
      Noticed(Between(0), FILE_A, 2, v) == Between(1) && LawfulNotice(env, Manifests, Between(0), FILE_A, 2, v)
  {
    OrderSteps();
    Accepted(env, Between(0), FILE_A, 2, Answer(FILE_A, "a", true, {}), "a");
    hide Noticed, LawfulNotice;
    assert Between(0).units[FILE_A := Loader(2, 2, 2, "a")] == Between(1).units;
  }

  lemma SecondD(env: Env)
    ensures var v := Answer(FILE_D, "a", true, {});
      Noticed(Between(1), FILE_D, 3, v) == Stage(2) && LawfulNotice(env, Manifests, Between(1), FILE_D, 3, v)
  {
    OrderSteps();
    Accepted(env, Between(1), FILE_D, 3, Answer(FILE_D, "a", true, {}), "d");
    hide Noticed, LawfulNotice;
    assert Between(1).units[FILE_D := Loader(3, 3, 3, "d")] == Stage(2).units;
    assert Between(1).live["d" := 3] == LOADED;
  }

  lemma StepSecond(env: Env)
    ensures var v := Answers("a", true, {});
      && Noticed(Noticed(Noticed(Stage(1), FILE_X, 1, v(FILE_X)), FILE_A, 2, v(FILE_A)), FILE_D, 3, v(FILE_D)) == Stage(2)
      && LawfulTurns(env, Manifests, Stage(1), Seen(2), v, ORDER)
  {
    SecondX(env);
    SecondA(env);
    SecondD(env);
    hide Noticed, LawfulNotice, Stage, Between, Answer;
    TurnsLawful(env, Stage(1), 2, Answers("a", true, {}));
  }

  /** Loaded content seen again. */
  lemma Idle(env: Env, s: State, p: Path, h: Hash, v: Verdict)
    requires p in s.units && s.units[p].loaded && s.units[p].hash == h
    ensures Noticed(s, p, h, v) == s && LawfulNotice(env, Manifests, s, p, h, v)
  {
    Unchanged(s, p, h, v);
  }

  lemma ThirdA(env: Env)
    ensures var v := Answer(FILE_A, "b", false, {});
      Noticed(Stage(2), FILE_A, 4, v) == Stage(3) && LawfulNotice(env, Manifests, Stage(2), FILE_A, 4, v)
  {
    OrderSteps();
    NewContent(Stage(2), FILE_A, 4, Answer(FILE_A, "b", false, {}));
    hide Noticed;
    assert Stage(2).units[FILE_A := Loader(2, 4, 2, "a")] == Stage(3).units;
  }

  lemma StepThird(env: Env)
    ensures var v := Answers("b", false, {});
      && Noticed(Noticed(Noticed(Stage(2), FILE_X, 1, v(FILE_X)), FILE_A, 4, v(FILE_A)), FILE_D, 3, v(FILE_D)) == Stage(3)
      && LawfulTurns(env, Manifests, Stage(2), Seen(4), v, ORDER)
  {
    var v := Answers("b", false, {});
    OrderSteps();
    Idle(env, Stage(2), FILE_X, 1, v(FILE_X));
    ThirdA(env);
    Idle(env, Stage(3), FILE_D, 3, v(FILE_D));
    hide Noticed, LawfulNotice, Stage, Answer;
    TurnsLawful(env, Stage(2), 4, v);
  }

  lemma DHoldsA(env: Env)
    ensures DependentsOf(env, BookOf(Manifests, LOADED["b" := 4]), "a") != {}
  {
    var book := BookOf(Manifests, LOADED["b" := 4]);
    var d := Dependency("a", "", Init, "");
    assert book["d"].deps == [d] && d in book["d"].deps;
    assert BrokenBy(env, book, "a", book["a"].slot, d);
    assert "d" in DependentsOf(env, book, "a");
  }

  lemma FourthA(env: Env)
    ensures var v := Answer(FILE_A, "b", false, {});
      Noticed(Stage(3), FILE_A, 4, v) == Stage(4) && LawfulNotice(env, Manifests, Stage(3), FILE_A, 4, v)
  {
    var s, v := Stage(3), Answer(FILE_A, "b", false, {});
    OrderSteps();
    NewId(s, FILE_A, 4, v, s.units[FILE_A], "b");
    IsAcceptable(env, s.live, Watcher.Plugin(4, "b"));
    DHoldsA(env);
    hide Noticed, Acceptable, Manifests, BookOf, DependentsOf;
    assert s.units[FILE_A := Loader(4, 4, 4, "b")] == Stage(4).units;
  }

  lemma StepFourth(env: Env)
    ensures var v := Answers("b", false, {});
      && Noticed(Noticed(Noticed(Stage(3), FILE_X, 1, v(FILE_X)), FILE_A, 4, v(FILE_A)), FILE_D, 3, v(FILE_D)) == Stage(4)
      && LawfulTurns(env, Manifests, Stage(3), Seen(4), v, ORDER)
  {
    var v := Answers("b", false, {});
    OrderSteps();
    Idle(env, Stage(3), FILE_X, 1, v(FILE_X));
    FourthA(env);
    Idle(env, Stage(4), FILE_D, 3, v(FILE_D));
    hide Noticed, LawfulNotice, Stage, Answer;
    TurnsLawful(env, Stage(3), 4, v);
  }

  lemma SeenFits(a: Hash)
    requires a != NO_HASH
    ensures Covers(ORDER, Seen(a).Keys) && (forall p :: p in ORDER ==> p in Seen(a)) && forall p :: p in Seen(a) ==> Seen(a)[p] != NO_HASH
  {
    OrderSteps();
  }

  /** Every loaded unit's file is seen, and was seen before. */
  ghost predicate AllThere(s: State, a: Hash) {
    forall p :: p in s.units && s.units[p].loaded ==> p in Seen(a) && s.units[p].misses == 0
  }

  lemma PollOf(env: Env, s: State, t: State, a: Hash, v: Path -> Verdict, looks: seq<Path>)
    requires a != NO_HASH && Covers(looks, s.units.Keys) && AllThere(s, a)
    requires Noticed(Noticed(Noticed(s, FILE_X, 1, v(FILE_X)), FILE_A, a, v(FILE_A)), FILE_D, 3, v(FILE_D)) == t
    requires (forall p :: p in ORDER ==> p in Seen(a)) && LawfulTurns(env, Manifests, s, Seen(a), v, ORDER)
    ensures var r := Poll(Seen(a), v, looks, ORDER);
      CanRun(s, r) && Next(s, r) == t && LawfulRound(env, Manifests, s, r)
  {
    SeenFits(a);
    LooksIdle(s, Seen(a), v, looks);
    LooksLawful(env, s, Seen(a), v, looks);
    hide Noticed, LawfulTurns, LawfulLooks, Turns, Looks, Seen, Covers;
    TurnsOfThree(s, a, v);
  }

  lemma CoversThree(x: Unit, a: Unit, d: Unit)
    ensures Covers(ORDER, Three(x, a, d).Keys)
  {
    OrderSteps();
  }

  lemma StageCovered(i: nat)
    requires 1 <= i <= 4
    ensures Covers(ORDER, Stage(i).units.Keys)
  {
    var s := Stage(i);
    CoversThree(s.units[FILE_X], s.units[FILE_A], s.units[FILE_D]);
    assert s.units == Three(s.units[FILE_X], s.units[FILE_A], s.units[FILE_D]);
    hide Covers;
  }

  lemma StageThere(i: nat, a: Hash)
    requires i < 4
    ensures AllThere(Stage(i), a)
  {
  }

  /** A poll of the run. */
  lemma PollStep(env: Env, i: nat)
    requires i < 4
    ensures CanRun(Stage(i), StageRound(i)) && Next(Stage(i), StageRound(i)) == Stage(i + 1)
    ensures LawfulRound(env, Manifests, Stage(i), StageRound(i))
  {
    var a, v, looks := if i < 2 then 2 else 4, if i < 2 then Answers("a", true, {}) else Answers("b", false, {}), if i == 0 then [] else ORDER;
    assert StageRound(i) == Poll(Seen(a), v, looks, ORDER);
    StageThere(i, a);
    if i > 0 {
      StageCovered(i);
    } else {
      assert Covers([], Stage(0).units.Keys);
    }
    SeenFits(a);
    hide Noticed, LawfulTurns, LawfulRound, Answers, CanRun, Next, StageRound, Stage, Covers, Seen, AllThere;
    if i == 0 {
      StepFirst(env);
    } else if i == 1 {
      StepSecond(env);
    } else if i == 2 {
      StepThird(env);
    } else {
      StepFourth(env);
    }
    PollOf(env, Stage(i), Stage(i + 1), a, v, looks);
  }

  // ---- Unload ----

  /** Whatever the order, the cascades of "x", "b" and "d" take "a", which no unit holds any more. */
  lemma AIsLost(env: Env)
    ensures Orphan(Stage(4), "a") && HeldIds(Stage(4)) == {"x", "b", "d"}
    ensures forall gone :: LeastClosedOver(env, BookOf(Manifests, Stage(4).live), HeldIds(Stage(4)), gone) ==> "a" in gone
  {
    var s := Stage(4);
    OrderSteps();
    assert s.units[FILE_X].id == "x" && s.units[FILE_A].id == "b" && s.units[FILE_D].id == "d";
    var book := BookOf(Manifests, s.live);
    var d := Dependency("x", "", Init, "");
    assert book["a"].deps == [d] && d in book["a"].deps;
    forall gone | LeastClosedOver(env, book, HeldIds(s), gone)
      ensures "a" in gone
    {
      assert "x" in gone && Removal.Lost(env, book, gone, d);
      assert "a" !in gone ==> LosesSome(env, book, gone, book["a"]);
    }
  }

  ghost const POLLED: seq<State> := [Stage(0), Stage(1), Stage(2), Stage(3), Stage(4)]

  ghost const POLLS: seq<Round> := [StageRound(0), StageRound(1), StageRound(2), StageRound(3)]

  lemma PollsAreLawful(env: Env)
    ensures LawfulRun(env, Manifests, POLLED, POLLS)
  {
    assert IsStart(Stage(0));
    forall i | 0 <= i < 4
      ensures CanRun(POLLED[i], POLLS[i]) && POLLED[i + 1] == Next(POLLED[i], POLLS[i]) && LawfulRound(env, Manifests, POLLED[i], POLLS[i])
    {
      PollStep(env, i);
      hide CanRun, Next, LawfulRound, Stage, StageRound;
    }
    hide CanRun, Next, LawfulRound, Stage, StageRound, IsStart;
  }

  /** The cascade of "x". */
  lemma XTakesChain(env: Env)
    ensures LeastClosed(env, BookOf(Manifests, Stage(4).live), "x", {"x", "a", "d"})
  {
    var book := BookOf(Manifests, Stage(4).live);
    var gone := {"x", "a", "d"};
    var dx, da := Dependency("x", "", Init, ""), Dependency("a", "", Init, "");
    assert book["a"].deps == [dx] && dx in book["a"].deps;
    assert book["d"].deps == [da] && da in book["d"].deps;
    assert Closed(env, book, gone) by {
      assert book["b"].deps == [];
    }
    forall other | "x" in other && Closed(env, book, other)
      ensures gone <= other
    {
      assert Removal.Lost(env, book, other, dx);
      assert "a" !in other ==> LosesSome(env, book, other, book["a"]);
      assert "a" in other ==> Removal.Lost(env, book, other, da);
      assert "d" !in other && "a" in other ==> LosesSome(env, book, other, book["d"]);
    }
  }

  lemma BTakesItself(env: Env, book: Book)
    requires book.Keys == {"b"} && book["b"].deps == []
    ensures LeastClosed(env, book, "b", {"b"})
  {
  }

  /** An Unload the host can give lawful answers to. */
  lemma UnloadIsLawful(env: Env)
    ensures CanRun(Stage(4), StageRound(4)) && LawfulRound(env, Manifests, Stage(4), StageRound(4))
  {
    var s, v := Stage(4), Answers("b", false, {"x", "a", "d"});
    var book := BookOf(Manifests, s.live);
    OrderSteps();
    StageCovered(4);
    UnloadX();
    assert Unloads(s, v, []) == s;
    assert Unloads(s, v, [FILE_X]) == AfterX();
    assert Unloads(s, v, [FILE_X, FILE_A]) == Unloaded(AfterX(), FILE_A, {});
    FirstCascade(env);
    SecondCascade(env);
    ThirdCascade(env);
    hide Unloads, LawfulCascade, Unloaded;
    assert LawfulUnloads(env, book, s, v, []);
    assert LawfulUnloads(env, book, s, v, [FILE_X]);
    assert LawfulUnloads(env, book, s, v, [FILE_X, FILE_A]);
  }

  function AfterX(): State {
    State(map[FILE_A := Loader(4, 4, 4, "b"), FILE_D := Loader(3, 3, 3, "d")], map["b" := 4], 5, multiset{1})
  }

  lemma UnloadX()
    ensures Unloaded(Stage(4), FILE_X, {"x", "a", "d"}) == AfterX()
  {
    OrderSteps();
    assert LOADED["b" := 4] - {"x", "a", "d"} == map["b" := 4];
    assert Stage(4).units - {FILE_X} == AfterX().units;
  }

  lemma FirstCascade(env: Env)
    ensures LawfulCascade(env, BookOf(Manifests, Stage(4).live), Stage(4), FILE_X, {"x", "a", "d"})
  {
    XTakesChain(env);
    var book := BookOf(Manifests, Stage(4).live);
    assert Left(book, Stage(4).live) == book;
    assert Taken(Stage(4), Stage(4).units[FILE_X], {"x", "a", "d"}) == {"x", "a", "d"};
    hide LeastClosed;
  }

  lemma SecondCascade(env: Env)
    ensures LawfulCascade(env, BookOf(Manifests, Stage(4).live), AfterX(), FILE_A, {})
  {
    OrderSteps();
    var book := Left(BookOf(Manifests, Stage(4).live), map["b" := 4]);
    assert book.Keys == {"b"} && book["b"].deps == [];
    hide LeastClosed, Left, BookOf, Manifests;
    BTakesItself(env, book);
    assert Taken(AfterX(), AfterX().units[FILE_A], {}) == {"b"};
  }

  lemma ThirdCascade(env: Env)
    ensures LawfulCascade(env, BookOf(Manifests, Stage(4).live), Unloaded(AfterX(), FILE_A, {}), FILE_D, {})
  {
    OrderSteps();
    assert "d" !in Unloaded(AfterX(), FILE_A, {}).live;
    hide LeastClosed, BookOf, Left;
  }

  /** After these polls every Unload, in whatever order, with lawful answers, leaves an instance open that nobody can reach;
      and there is one. */
  lemma LawfulHostLoses(env: Env, r: Round)
    requires r.Unload? && CanRun(Stage(4), r) && LawfulRound(env, Manifests, Stage(4), r)
    ensures LawfulRun(env, Manifests, POLLED, POLLS) && POLLED[4] == Stage(4)
    ensures exists h :: Stranded(Next(Stage(4), r), h)
  {
    var s := Stage(4);
    PollsAreLawful(env);
    AIsLost(env);
    RunsOk(POLLED, POLLS, 4);
    var book := BookOf(Manifests, s.live);
    assert book.Keys == s.live.Keys;
    hide Intact, Serving, CanRun, LawfulUnloads, Closed, Orphan, Stranded, IsRun, Next, Stage, Loses;
    UnloadLosesIff(env, book, s, r);
    LeastOverExists(env, book, s, r);
    RoundOk(s, r);
  }

  lemma LeastOverExists(env: Env, book: Book, s: State, r: Round)
    requires Intact(s) && Serving(s) && CanRun(s, r) && r.Unload? && book.Keys == s.live.Keys
    requires LawfulUnloads(env, book, s, r.v, r.order)
    ensures exists gone :: LeastClosedOver(env, book, HeldIds(s), gone)
  {
    UnloadsCascade(env, book, s, r.v, r.order);
    assert IdsAlong(s, r.order) == HeldIds(s);
    hide Closed, HeldIds, IdsAlong, Unloads;
  }
}
