// The plugin host as the watcher sees it: besides loading waiting plugins, its methods change the registered
// instances exactly as the watcher's model takes for granted.
module WatchedHost {
  import opened Text
  import opened Manifest
  import opened Registry
  import opened Loading
  import opened LazyLoading
  import opened Catalogue
  import opened Removal
  import opened Replacement

  /** The registered instances by id. */
  function Instances(plugins: map<string, Plugin>): map<string, nat> {
    map id | id in plugins :: plugins[id].handle
  }

  lemma InstancesPut(plugins: map<string, Plugin>, np: Plugin)
    ensures Instances(plugins[np.meta.id := np]) == Instances(plugins)[np.meta.id := np.handle]
  {
  }

  lemma InstancesDrop(plugins: map<string, Plugin>, gone: set<string>)
    ensures Instances(plugins - gone) == Instances(plugins) - gone
  {
  }

  lemma TablesKeys(s: State)
    requires Tables(s)
    ensures s.plugins.Keys == s.meta.Keys
  {
  }

  lemma LaterPlugins(a: State, b: State)
    requires Later(a, b)
    ensures forall id :: id in a.plugins ==> id in b.plugins && b.plugins[id] == a.plugins[id]
    ensures b.waiting.Keys <= a.waiting.Keys
  {
  }

  /** From what the call itself registers to what is registered in the end, only waiting plugins were loaded. */
  ghost predicate LoadsOnly(direct: map<string, nat>, after: map<string, nat>, waiting: set<string>) {
    && (forall id :: id in direct ==> id in after && after[id] == direct[id])
    && after.Keys <= direct.Keys + waiting
  }

  lemma LoadsOnlyPlugins(a: map<string, Plugin>, b: map<string, Plugin>, waiting: set<string>)
    requires forall id :: id in a ==> id in b && b[id] == a[id]
    requires b.Keys <= a.Keys + waiting
    ensures LoadsOnly(Instances(a), Instances(b), waiting)
  {
  }

  lemma JoinedInstances(a: map<string, Plugin>, b: map<string, Plugin>, np: Plugin, waiting: set<string>)
    requires forall id :: id in a ==> id in b && b[id] == a[id]
    requires b.Keys <= a.Keys + waiting + {np.meta.id} && np.meta.id in b && b[np.meta.id] == np
    ensures LoadsOnly(Instances(a)[np.meta.id := np.handle], Instances(b), waiting)
  {
  }

  /** With nobody waiting, nothing is loaded besides. */
  lemma NobodyLoads(direct: map<string, nat>, after: map<string, nat>)
    requires LoadsOnly(direct, after, {})
    ensures after == direct
  {
  }

  /** Register takes the id if it succeeds, which it does only for a free one; besides, it only loads waiting plugins. */
  lemma RegisterAsWatched(env: Env, s: State, np: Plugin)
    requires Valid(env, s)
    ensures var (r, err) := Enroll(env, s, np);
      && Valid(env, r) && r.waiting.Keys <= s.waiting.Keys
      && (err.None? ==> np.meta.id !in s.plugins)
      && (err.Some? ==> Instances(r.plugins) == Instances(s.plugins))
      && (err.None? ==> LoadsOnly(Instances(s.plugins)[np.meta.id := np.handle], Instances(r.plugins), s.waiting.Keys))
  {
    var (r, err) := Enroll(env, s, np);
    EnrollKeeps(env, s, np);
    EnrollNowKeeps(env, s, np);
    EnrollAdds(env, s, np);
    hide Tables, Queue, Apart, Quiet, Sound, Enroll, Grows, Later, Instances, LoadsOnly;
    TablesKeys(s);
    TablesKeys(r);
    LaterPlugins(s, r);
    if err.None? {
      JoinedInstances(s.plugins, r.plugins, np, s.waiting.Keys);
    }
  }

  lemma SwappedInstances(s: State, np: Plugin)
    ensures Instances(Swapped(s, np).plugins) == Instances(s.plugins)[np.meta.id := np.handle]
    ensures Swapped(s, np).waiting == s.waiting
  {
    InstancesPut(s.plugins, np);
  }

  lemma RetryLoads(env: Env, s: State)
    requires Core(s)
    ensures LoadsOnly(Instances(s.plugins), Instances(Retry(env, s).plugins), s.waiting.Keys)
    ensures Retry(env, s).waiting.Keys <= s.waiting.Keys
  {
    var r := Retry(env, s);
    RetryKeeps(env, s);
    RetryBringsWaiting(env, s);
    hide Tables, Queue, Apart, Quiet, Sound, Retry, Later, Instances, LoadsOnly;
    TablesKeys(s);
    TablesKeys(r);
    LaterPlugins(s, r);
    LoadsOnlyPlugins(s.plugins, r.plugins, s.waiting.Keys);
  }

  /** Replace puts the new instance in the place of the old one, or changes nothing; besides, it only loads waiting plugins. */
  lemma ReplaceAsWatched(env: Env, s: State, np: Plugin)
    requires Valid(env, s)
    ensures var (r, err) := Exchange(env, s, np);
      && Valid(env, r) && r.waiting.Keys <= s.waiting.Keys
      && (err.None? ==> np.meta.id in s.plugins)
      && (err.Some? ==> Instances(r.plugins) == Instances(s.plugins))
      && (err.None? ==> LoadsOnly(Instances(s.plugins)[np.meta.id := np.handle], Instances(r.plugins), s.waiting.Keys))
  {
    ExchangeKeeps(env, s, np);
    if np.meta.id in s.plugins && Acceptable(env, s.meta, np.meta) {
      SwappedIsCore(env, s, np);
      SwappedInstances(s, np);
      ExchangeUnfolds(env, s, np);
      RetryLoads(env, Swapped(s, np));
    }
    hide Tables, Queue, Apart, Quiet, Sound, Swapped, Retry, Exchange, Instances, LoadsOnly;
  }

  lemma NoDependentsAlone(env: Env, book: Book, id: string, gone: set<string>)
    requires LeastClosed(env, book, id, gone) && DependentsOf(env, book, id) == {}
    ensures gone == {id}
  {
    hide Closed, DependentsOf;
    NoDependentsIff(env, book, id);
    LeastClosedIsUnique(env, book, id, gone, {id});
  }

  /** Remove takes out the whole closed set; without dependents, that is the id alone. */
  lemma RemoveAsWatched(env: Env, s: State, id: string, gone: set<string>)
    requires Valid(env, s) && LeastClosed(env, s.meta, id, gone)
    ensures Valid(env, Removed(s, gone)) && Removed(s, gone).waiting == s.waiting
    ensures id in gone && Instances(Removed(s, gone).plugins) == Instances(s.plugins) - gone
    ensures DependentsOf(env, s.meta, id) == {} ==> gone == {id}
  {
    RemovedKeeps(env, s, gone);
    InstancesDrop(s.plugins, gone);
    if DependentsOf(env, s.meta, id) == {} {
      NoDependentsAlone(env, s.meta, id, gone);
    }
    hide Tables, Queue, Apart, Quiet, DependentsOf, Closed, Instances;
  }

  /** The answers the watcher may expect: for a free id Register accepts exactly the acceptable manifests, Replace does so
      for a registered one. */
  lemma HostAccepts(env: Env, s: State, np: Plugin)
    requires Valid(env, s) && Exact(s) && NamedOnce(np) && np.meta.id != ""
    ensures Enroll(env, s, np).1.None? <==> np.meta.id !in s.plugins && Acceptable(env, s.meta, np.meta)
    ensures Exchange(env, s, np).1.None? <==> np.meta.id in s.plugins && Acceptable(env, s.meta, np.meta)
  {
    AdmitOutcome(env, s, np);
    AdmitCatalogue(env, s, np);
    EnrollUnfolds(env, s, np);
    ExchangeKeeps(env, s, np);
    TablesKeys(s);
    hide Tables, Queue, Apart, Quiet, Sound, Exact, Admit, Retry, Enroll, Exchange, Acceptable, NamedOnce;
  }
}
