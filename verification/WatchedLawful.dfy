// Hot reload on a host whose every answer is the plugin registry's: when it loses an instance, and a run that does.
module WatchedLawful {
  import opened Text
  import opened Manifest
  import opened Removal
  import opened Watcher
  import opened WatchedInstances
  import opened WatchedUnload
  import opened WatchedCascade

  // ---- the registry's answers ----

  /** What is registered, by the manifests of the instances. */
  function BookOf(metas: Watcher.Plugin -> Meta, live: map<string, nat>): Book {
    map id | id in live :: metas(Watcher.Plugin(live[id], id))
  }

  /** Register and Replace accept what is acceptable (a manifest that names its functions once). */
  ghost predicate LawfulAccept(env: Env, metas: Watcher.Plugin -> Meta, s: State, np: Watcher.Plugin, ok: bool) {
    ok <==> Acceptable(env, BookOf(metas, s.live), metas(np))
  }

  /** Remove without cascade refuses an id with dependents. */
  ghost predicate LawfulRemove(env: Env, metas: Watcher.Plugin -> Meta, s: State, id: string, ok: bool) {
    id in s.live ==> (ok <==> DependentsOf(env, BookOf(metas, s.live), id) == {})
  }

  ghost predicate LawfulLook(env: Env, metas: Watcher.Plugin -> Meta, s: State, seen: map<Path, Hash>, p: Path, granted: bool) {
    p in s.units && s.units[p].loaded && p !in seen ==> LawfulRemove(env, metas, s, s.units[p].id, granted)
  }

  ghost predicate LawfulNotice(env: Env, metas: Watcher.Plugin -> Meta, s: State, p: Path, h: Hash, v: Verdict) {
    Applies(UnitAt(s, p), h) ==>
      var u := UnitAt(s, p);
      if u.np.Some? && h == u.npHash then LawfulAccept(env, metas, s, u.np.value, v.ok)
      else v.image.Good? ==>
        var np := Watcher.Plugin(s.next, v.image.id);
        && LawfulAccept(env, metas, s, np, v.ok)
        && (u.loaded && np.id != u.id && Registers(s, np, v.ok) ==> LawfulRemove(env, metas, Enter(s, np), u.id, v.removed))
  }

  ghost predicate LawfulLooks(env: Env, metas: Watcher.Plugin -> Meta, s: State, seen: map<Path, Hash>, v: Path -> Verdict, order: seq<Path>) {
    order == [] ||
      var before, p := order[..|order| - 1], order[|order| - 1];
      LawfulLooks(env, metas, s, seen, v, before) && LawfulLook(env, metas, Looks(s, seen, v, before), seen, p, v(p).granted)
  }

  ghost predicate LawfulTurns(env: Env, metas: Watcher.Plugin -> Meta, s: State, seen: map<Path, Hash>, v: Path -> Verdict, order: seq<Path>)
    requires forall p :: p in order ==> p in seen
  {
    order == [] ||
      var before, p := order[..|order| - 1], order[|order| - 1];
      LawfulTurns(env, metas, s, seen, v, before) && LawfulNotice(env, metas, Turns(s, seen, v, before), p, seen[p], v(p))
  }

  ghost predicate LawfulRound(env: Env, metas: Watcher.Plugin -> Meta, s: State, r: Round)
    requires CanRun(s, r)
  {
    match r
    case Poll(seen, v, looks, turns) =>
      LawfulLooks(env, metas, s, seen, v, looks) && LawfulTurns(env, metas, Looks(s, seen, v, looks), seen, v, turns)
    case Unload(v, order) => LawfulUnloads(env, BookOf(metas, s.live), s, v, order)
  }

  ghost predicate LawfulRun(env: Env, metas: Watcher.Plugin -> Meta, states: seq<State>, rounds: seq<Round>) {
    IsRun(states, rounds) && forall i :: 0 <= i < |rounds| ==> LawfulRound(env, metas, states[i], rounds[i])
  }

  /** On such a host every unclosed instance is held by a unit or registered, if and only if no Unload so far found, in the
      state it started from, an instance no unit held among the cascades of the loaded ids. */
  lemma LawfulRunsAccount(env: Env, metas: Watcher.Plugin -> Meta, states: seq<State>, rounds: seq<Round>, n: nat)
    requires LawfulRun(env, metas, states, rounds) && n < |states|
    ensures
      (forall h: nat :: 1 <= h < states[n].next && states[n].closed[h] == 0 ==> Held(states[n].units, h) || Live(states[n].live, h)) <==>
      (forall m :: 0 <= m < n && rounds[m].Unload? ==> !OrphanInCascades(env, BookOf(metas, states[m].live), states[m]))
  {
    InstancesAccounted(states, rounds, n);
    forall m | 0 <= m < n
      ensures Loses(states[m], rounds[m]) <==> rounds[m].Unload? && OrphanInCascades(env, BookOf(metas, states[m].live), states[m])
    {
      RunsOk(states, rounds, m);
      assert CanRun(states[m], rounds[m]) && LawfulRound(env, metas, states[m], rounds[m]);
      if rounds[m].Unload? {
        hide Intact, Serving, CanRun, Loses, OrphanInCascades, LawfulUnloads, IsRun;
        UnloadLosesIff(env, BookOf(metas, states[m].live), states[m], rounds[m]);
      }
    }
    hide Held, Live, Loses, OrphanInCascades, IsRun;
  }
}
