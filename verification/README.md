# Verified model of the plugin host, its sessions and its hot reloader

This project models the parts of the egop plugin framework in which state decides correctness, and
proves in Dafny what those parts promise. Paths in the table are relative to the framework's repository.

**The plugin registry** (`Manifest`, `Registry`, `Loading`, `Catalogue`, `LazyLoading`, `Replacement`, `Removal`,
`Graph`, `Kahn`, `Batches`, `BatchOrder`, `BatchPending`, `BatchMeaning`, `BatchReport`, `Admission`, `Numbering`, `Host`, `Runs`,
`Bags`, `Version`, `VersionText`). `Host.Host` is a class with the host's own maps
(`plugins`, `meta`, `fns`, the registration numbers, the pending list and its table). Each of its methods is an
imperative algorithm with the source's loops, proved against a function on registry states (`Registry`) or a relation on
them; what the framework promises is proved about those functions and over whole runs of calls. `Admission`, `BatchMeaning` and `VersionText` tell what
these functions decide by manifests, tables and texts alone. Go's map iteration has
no order, so every loop over a map picks any key next, and the results hold for all orders. Slot dependencies are
disjunctive (any occupant will do), so removal and batch planning are and/or fixed points:
a least one for `Remove`, a greatest one for the pruning of `RegisterMany`, a least one for its Kahn phase and another
least one for lazy loading, where plugins cascade in; `Unload` of the watcher runs several removals, which together are a fourth.

**Sessions** (`Session`, `SessionPair`, `SessionTrace`, `SessionEngine`). Each critical section, channel operation and write of a remote session is one
atomic step and goroutines interleave freely. `Session` proves what one session keeps whatever its peer sends, `SessionPair` joins two
sessions by FIFO wires, `SessionTrace` tells by the steps of a run where a returned frame comes from, `SessionEngine.Engine` is the object
whose methods run the steps on its fields and keep it in order.

**Hot reload** (`Watcher`, `WatchedInstances`, `WatchedUnload`, `WatchedOrphans`, `WatchedPaths`, `WatchedHost`, `WatchedCascade`,
`WatchedLawful`, `WatchedRename`, `WatchedOutcomes`, `HotReload`). One unit per file, driven by polls against a host whose verdicts are arbitrary; `WatchedHost`
shows that the registry model meets what this takes for granted about the host, and `WatchedCascade` and `WatchedLawful` let the host answer exactly as
the registry does. Plugin instances are numbered, so closing twice, closing while registered and losing one can be said.

**Codecs and matching** (`Glob`, `Leb128`, `Sections`, `Framing`, `Text`): the `*` matcher, LEB128 and the WebAssembly section walker, and
the length-prefixed framing.

## What the proofs found

- A dependency that names a plugin *and* a slot is judged by the slot on registration (host/register.go:226-231) but by the plugin
  on removal and in batches (host/register.go:472-477, host/batch.go:38-43), while contract/meta.go:216-218 promises the slot
  everywhere. `Removal.TwoNamesLeaveUnmet` is a removal that leaves such a dependency unmet; `Removal.RemovalKeepsMetIffLasting` says
  exactly for which dependencies that cannot happen: those of one name, and those whose slot is built in. `Batches.BatchMissesTwoNames` is
  a plugin that `Register` would accept and a batch reports as missing a dependency.
- A manifest that repeats a function name is refused after an entry of the refused plugin has been stored
  (host/register.go:264-272): `Catalogue.RepeatedNameLeavesEntry`. The catalogue stays exact if and only if that does not happen
  (`Catalogue.AdmitCatalogue`).
- `Replace` checks the newcomer, not its dependents. `Replacement.SlotChangeBreaksDependents` is an accepted replacement that leaves a
  dependent without its slot; `Replacement.SwapSoundIff` gives the exact condition.
- Negative version segments ("1.-1") break the transitivity of the version comparison; `Version.AtLeastIsPaddedOrder` says exactly where
  it departs from the padded lexicographic order.
- A re-identified file whose old id the host refuses to remove leaves the old instance registered and held by nobody. If a later
  `Unload` takes that instance out by cascade, it is never closed. `WatchedRename.LawfulHostLoses` is such a run on a host all of whose answers are
  the registry's, with one name per dependency: "d" needs "a", "a" needs "x", and the file of "a" comes to hold "b". Whatever the order, Unload
  loses an instance if and only if such an orphan lies in the cascades of the loaded ids, which can be told beforehand
  (`WatchedCascade.UnloadLosesIff`); there is no other way to lose one (`WatchedLawful.LawfulRunsAccount`).
- `RegisterMany` lists a deferred plugin as pending whatever `RegisterLazy` did with it (host/batch.go:251-258), although the report
  describes pending plugins as waiting (host/batch.go:21-22). `BatchPending.PendingButRegistered` is a batch in which a plugin listed as pending is
  registered; `BatchPending.PendingWaitsIffUnmet` says exactly which ones wait, and `BatchPending.PendingIsWaiting` when a caller can rely on the list.
- The comment on `RegisterLazy` allows an error for an empty or a registered id only (host/register.go:118); the code also returns what `Register`
  answers when the dependencies are met. `Admission.LazyFailsIff` says exactly when it fails, `Admission.LazyRefusesBadId` is such a plugin.
- The comment on `versionAtLeast` promises a comparison as text for segments that are no numbers (host/register.go:78-79); the code reads them as
  zero: `VersionText.WordsTie`.
- `readULEB` accepts every encoding of up to six bytes, so values below 2^42; its comment says about 2^35.

## Model

| member | source | states |
|---|---|---|
| Version.CompareSegments | host/register.go:81-99 | The segment loop decides the comparison as the recursive definition does, a missing segment counting as zero. |
| Version.VersionAtLeast | host/register.go:81-99 | Splitting at dots, trimming and converting segments, then comparing; an empty bound is always met. |
| Version.AtLeastIsPaddedOrder | host/register.go:81-99 | The comparison is the lexicographic order on zero-padded sequences if and only if the left side does not continue the right one with a negative segment first. |
| Version.NonNegativeHasNoNegativeTail | host/register.go:81-99 | With non-negative segments the comparison is that order. |
| Version.PaddedOrderIsTotalPreorder | host/register.go:78-99 | The padded order is total and transitive for sequences of different lengths. |
| Version.VersionOrder | host/register.go:78-99 | On versions without negative segments "at least" is reflexive, total and transitive. |
| Version.NegativeSegmentsBreakTransitivity | host/register.go:81-99 | A concrete triple with a negative segment on which it is not transitive. |
| VersionText.SegmentReads | host/register.go:86-97 | A segment reads as the place value of its optionally signed digits, whatever white space surrounds them, clamped to 64 bits; a segment that is no numeral reads as 0. |
| VersionText.SpaceIsWhite | host/register.go:91-93 | The white space trimmed is the 25 characters of Unicode's White_Space. |
| VersionText.DecimalRoundTrip | host/register.go:86-97 | A number up to the largest 64-bit integer, written in decimal with or without a sign and surrounding white space, is read back. |
| VersionText.JoinSplit | host/register.go:84-85 | Splitting at dots undoes joining. |
| VersionText.SegmentsOfRendered | host/register.go:81-99 | The segments of a version written from numbers are those numbers. |
| VersionText.RenderedOrder | host/register.go:81-99 | Versions written from numbers compare as the zero-padded lists of these numbers. |
| VersionText.NineIsBelowTen | host/register.go:78-99 | "1.10" is at least "1.9" and not the other way round. |
| VersionText.WordsTie | host/register.go:78-99 | Versions whose segments are no numerals are all alike; nothing is compared as text. |
| Manifest.FirstUnmet | host/register.go:48-66 | Finds a dependency that is not met if and only if there is one. |
| Manifest.Validate | host/register.go:204-249 | No error exactly for acceptable manifests: legal names, no empty dependency, every init dependency met (slot first, version bound kept), known slot with its contract met. |
| Registry.KeptSplits | host/register.go:149-165 | The scan of the queue keeps exactly the plugins whose dependencies are unmet and hands over exactly the others, each once. |
| Registry.ScannedKeepsQueue | host/register.go:149-165 | After the scan list and table agree again and nobody left could be loaded. |
| Registry.DropKeepsQueue | host/register.go:188-199 | Taking an id out of the queue keeps list and table in step and leaves no trace of it. |
| Numbering.WithoutCloses | host/register.go:188-199 | Taking an id out of the queue leaves all others in their order. |
| Numbering.ScanKeepsOrder | host/register.go:149-165 | The plugins kept and the plugins handed over stay in the order of the queue. |
| Registry.Enroll | host/register.go:23-46 | The recursion through retryPending ends: the queue never grows, and stays free of duplicates. |
| Registry.Retry | host/register.go:149-172 | The same for retryPending, on the size of the queue. |
| Loading.AdmitOutcome | host/register.go:252-296 | A refused registration changes no table but the queue and the catalogue; an accepted one is of a free id that passes every check, and adds that id alone, with the next number. |
| Admission.AcceptedIff | host/register.go:23-46 | Register accepts exactly: a non-empty free id of visible characters, named functions without dots or blanks, dependencies that name something, each init dependency in place (slot filled, or plugin registered and recent enough), a known slot whose axes hold and whose needs are filled, no function named twice. Replace accepts exactly the same of a registered id, function names apart. Refusals leave the registered plugins alone. |
| Admission.RefusalIsExplained | host/register.go:204-249 | The error of the manifest checks names the first check that fails, in the source's order, and the first culprit. |
| Admission.RegisterErrorIsExplained | host/register.go:23-46 | So does the error of Register, with the empty and the registered id before and a repeated function name after the manifest checks. |
| Numbering.EnrollNumbers | host/register.go:285-296 | A newcomer gets the next registration number, everybody registered keeps the old one, and whoever is loaded along gets a higher one. |
| Loading.EnrollKeeps | host/register.go:23-46 | Register with all its lazy loads keeps the tables in agreement, pending ids apart from registered ids, nobody loadable waiting, and every init dependency met. |
| Loading.RetryKeeps | host/register.go:149-172 | After retryPending no waiting plugin has all its dependencies, and nothing registered before has changed. |
| Loading.EnrollWithin | host/register.go:23-46 | Everything a registration brings in lies inside every registry that holds the newcomer and has absorbed its loadable waiters. |
| Loading.EnrollAdds | host/register.go:23-46 | Only the newcomer and plugins that were waiting come in. |
| Numbering.RetryInQueueOrder | host/register.go:149-172 | Of the waiting plugins retryPending finds loadable, those it registers are numbered in the order of the queue. |
| Catalogue.KeyInjective | host/register.go:212-216 | A key "id.name" determines id and name although ids may contain dots, because names may not. |
| Catalogue.PutMeaning | host/register.go:600-604 | Inserting a manifest's functions gives its last declarations and leaves all other entries. |
| Catalogue.FreshKeysAreFree | host/register.go:264-272 | No function of an unregistered id can clash with an exact catalogue. |
| Catalogue.AdmitCatalogue | host/register.go:252-296 | Registering keeps the catalogue exact if and only if the accepted manifest repeats no name; that is also exactly when "conflicts" is reported. |
| Catalogue.StaleEntry | host/register.go:264-272 | A refusal in mid-insertion leaves an entry whose owner is not registered. |
| Catalogue.RepeatedNameLeavesEntry | host/register.go:264-272 | On an empty host a manifest with two functions "f" is refused and leaves the entry "a.f" behind. |
| LazyLoading.EnrollCatalogue | host/register.go:23-46 | The catalogue stays exact through a registration and all lazy loads it sets off. |
| LazyLoading.EnrollLosesNone | host/register.go:149-172 | When every waiting plugin passes the checks other than its dependencies, no waiting plugin is dropped. |
| LazyLoading.RetryIsLeast | host/register.go:149-172 | Then retryPending ends in the least registry that holds what was there and every waiter whose dependencies it meets, whatever the order of the queue; nobody loadable is left waiting and nobody is dropped. |
| LazyLoading.LazyLoadingIsLeast | host/register.go:23-46 | So does Register of an acceptable plugin, be it waiting itself or not, with the newcomer among what was there. |
| Replacement.EnrollLazyKeeps | host/register.go:119-143 | RegisterLazy keeps the registry valid and its dependencies met. |
| Replacement.EnrollLazyStatus | host/register.go:119-143 | Without an error the status is right: registered now when all dependencies are met, and waiting otherwise. |
| Admission.LackingIsQueued | host/register.go:133-143 | A plugin of a non-empty unregistered id with a dependency not in place is queued without an error and with status pending: a new id at the end of the queue, an id already waiting where it stands, the table gaining just this plugin; nothing else changes. |
| Admission.MetIsRegistered | host/register.go:129-132 | With every dependency in place it is handed to Register. |
| Admission.LazyFailsIff | host/register.go:119-132 | RegisterLazy fails exactly for an empty id, a registered id, and a plugin with every dependency in place that Register refuses; which error it is, and that nothing is registered. |
| Admission.LazyRefusesBadId | host/register.go:119-132 | A concrete plugin of neither empty nor registered id that is refused. |
| Replacement.ExchangeKeeps | host/register.go:564-643 | Replace succeeds exactly for a registered id with an acceptable manifest, changes nothing when it fails, keeps the registry valid, and keeps dependencies met if the swap does. |
| Replacement.SwapSoundIff | host/register.go:573-576 | Replacing keeps every dependency met if and only if no dependent loses the slot's last occupant or its version bound. |
| Replacement.SameSlotNoDowngradeIsSafe | host/register.go:564-576 | Keeping the slot and not lowering the version is such a replacement. |
| Replacement.SlotChangeBreaksDependents | host/register.go:573-576 | A concrete accepted replacement that leaves a dependent's slot empty. |
| Replacement.SwapCatalogue | host/register.go:577-604 | Replacing drops the old functions and lists the new ones, so that the catalogue stays exact. |
| Replacement.ReplacingLoadsLeast | host/register.go:564-643 | And so does Replace, with the newcomer in the old one's place. |
| Numbering.ExchangeKeepsNumbers | host/register.go:573-643 | Replace keeps every registration number, that of the replaced id included. |
| Removal.LeastClosedIsUnique | host/register.go:489-558 | There is one least closed set holding an id. |
| Removal.LossGrows | host/register.go:467-484 | What a dependency has lost after one more deletion is what it had lost before plus what depBrokenByRemovalLocked finds at that deletion, several occupants of a slot included. |
| Removal.WorklistStep | host/register.go:519-549 | One turn of the worklist keeps marked sets between the deleted ones and every closed set holding the id. |
| Removal.WorklistEnd | host/register.go:519-549 | An exhausted worklist has marked the least closed set. |
| Removal.NoDependentsIff | host/host.go:254-271 | An id has no dependents exactly when the least closed set of its removal is the id alone. |
| Removal.LossIsUnmet | host/register.go:467-484 | For a dependency that names one thing and is met, losing it means being unmet among the survivors. |
| Removal.ClosedIffSoundRest | host/register.go:489-558 | A removal set is closed exactly when all dependencies among the survivors are met. |
| Removal.SurvivorsAreGreatest | host/register.go:489-558 | The survivors of Remove are the greatest part of the registry without the id in which all init dependencies are met. |
| Removal.AgreesIffOneName | contract/meta.go:216-228 | What removal counts as broken is what registration would find unmet if and only if the dependency names exactly one of plugin and slot. |
| Removal.RemovalKeepsMetIffLasting | host/register.go:467-484 | No removal leaves a dependency unmet that it did not count as broken, if and only if the dependency names one thing or its slot is built in. |
| Removal.ClosedKeepsSound | host/register.go:489-558 | For such dependencies the survivors of a removal have all their dependencies met. |
| Removal.TwoNamesLeaveUnmet | host/register.go:472-481 | With both named, a concrete removal leaves the dependency unmet by registration's own test. |
| Removal.RemovedKeeps | host/register.go:519-550 | Removal keeps the registry valid. |
| Removal.RemovedCatalogue | host/register.go:528-532 | Removal takes exactly the functions of the removed plugins out of the catalogue. |
| Graph.ProviderTable | host/batch.go:142-147 | The table lists for each key exactly the entries that give it. |
| Graph.HasActiveProvider | host/batch.go:85-92 | True exactly when some provider is active. |
| Graph.PruneEntry | host/batch.go:162-180 | One entry's turn of the pruning, in place: it is switched off exactly when a need has no provider, and the bounds from above are kept. |
| Graph.Prune | host/batch.go:149-185 | The pruning ends, in place, with exactly the greatest subset of entries whose needs are met outside or inside it; every entry is active, deferred or missing and rightly so. |
| Graph.DeferOne | host/batch.go:168-175 | Deferring an entry keeps its reason true: a waiting plugin or a deferred entry gives what it lacks. |
| Graph.MissOne | host/batch.go:176-178 | A failure "missing dependency" is about a key that nothing registered, waiting, deferred or active gives. |
| Kahn.CountNeeds | host/batch.go:189-205 | The in-degrees count each open key once and the waiter table lists exactly the waiting entries. |
| Kahn.OpenKey | host/batch.go:218-229 | Opening a key lowers the degrees of its waiters and queues exactly those that become free. |
| Kahn.TopoOrder | host/batch.go:187-231 | Each entry is emitted at most once, with every need given outside or by an earlier emitted entry; every active entry left out has a need nobody emitted gives. |
| Kahn.KahnIsLeast | host/batch.go:187-231 | The emitted entries are the least set closed under "all needs given", whatever order the queue took. |
| Kahn.LeftoverRunsIntoCycle | host/batch.go:233-242 | From every active entry left out a walk along waits-for edges among the left-out entries runs into a cycle, so that "dependency cycle" is only reported of one. |
| Batches.IndexBatch | host/batch.go:121-140 | Entries are the first plugins of each non-empty id in order; the others are the failures. |
| Batches.CycleReportsAreCycles | host/batch.go:233-242 | Every entry reported as "dependency cycle" waits, along entries reported with it, for a cycle among them. |
| Batches.BatchAgreesIffOneName | host/batch.go:32-46 | A batch judges a dependency's presence as registration does if and only if it names one thing. |
| Batches.BatchMissesTwoNames | host/batch.go:32-46 | A concrete entry that Register would accept and every plan reports as missing a dependency. |
| Batches.FirstsAndRejects | host/batch.go:121-140 | Entries and rejected inputs together are the input's ids, each as often. |
| BatchMeaning.EntriesComeFirst | host/batch.go:121-140 | The entries are exactly the first plugins of each non-empty id, the rest is refused as an empty or a duplicate id, both in the order given. |
| BatchMeaning.ActiveIsGreatest | host/batch.go:149-185 | By the manifests alone: the active entries are the greatest part of the batch each of whose init dependencies names a registered plugin, a filled slot or an entry of the part. |
| BatchMeaning.OrderIsGrounded | host/batch.go:187-231 | Each emitted entry's init dependencies are registered or given by entries emitted before. |
| BatchMeaning.LeftOutIsStuck | host/batch.go:233-242 | Each active entry left out has an init dependency that neither the registry nor an emitted entry gives. |
| BatchMeaning.MissingIsNowhere | host/batch.go:149-185 | A failure "missing dependency" names an init dependency of its entry that is not registered, that no active or deferred entry gives, and whose id no waiting plugin has, or whose slot none occupies. |
| BatchMeaning.DeferredIsAwaited | host/batch.go:168-175 | A deferred entry has an init dependency that neither the registry nor an active entry gives, and that a waiting plugin or a deferred entry does. |
| BatchMeaning.InSightIsNotMissing | host/batch.go:168-175 | An entry that is not active, but whose every lacking dependency a waiting plugin gives by its id or slot, is deferred. |
| BatchMeaning.FirstLackDecides | host/batch.go:162-180 | An entry whose first lacking dependency nobody in the batch gives is deferred if a waiting plugin has that id or occupies that slot, and is otherwise reported as missing exactly that dependency. |
| Batches.EntriesPartition | host/batch.go:149-242 | Emitted, left over, deferred and missing entries are all entries, each once. |
| Batches.EveryInputReportedOnce | host/batch.go:97-262 | Registered, pending and failed together name every input exactly once. |
| BatchReport.RegisteredIsRegistered | host/batch.go:244-251 | Every id reported as registered is registered in the end, with the plugin of an entry in the order. |
| BatchReport.RegisterAnswers | host/batch.go:244-251 | Each emitted entry is reported by what Register answered at its turn: registered, or failed with that error. |
| BatchReport.LazyAnswers | host/batch.go:253-261 | Each deferred entry is reported by what RegisterLazy answered at its turn. |
| BatchReport.FailedBecause | host/batch.go:97-262 | Nothing is reported as failed but refused inputs, missing dependencies, active entries left out of the order, and what Register or RegisterLazy refused. |
| BatchOrder.CarryKeeps | host/batch.go:244-261 | Carrying a plan out keeps the registry valid and its dependencies met. |
| BatchOrder.FreshBatchRegisteredInOrder | host/batch.go:244-251 | If the ids are new and the emitted entries pass all checks but the presence of dependencies, Registered is exactly the Kahn order; the lazy loads in between cannot break it. |
| BatchPending.RetryLeaves | host/register.go:149-172 | A waiting plugin that lacks a dependency to the end is never taken out of the queue. |
| BatchPending.PendingAreDeferred | host/batch.go:253-261 | Every name reported as pending is that of a deferred entry. |
| BatchPending.PendingWaitsIffUnmet | host/batch.go:251-261 | A deferred entry reported as pending is waiting in the final state if and only if one of its init dependencies is unmet there. |
| BatchPending.RegisterAllInside | host/batch.go:244-251 | If no waiting plugin becomes loadable from the registry plus the emitted entries, step 7 registers emitted entries only. |
| BatchPending.DeferredLacks | host/batch.go:168-175 | A deferred entry of one-name dependencies lacks one in the registry plus the emitted entries. |
| BatchPending.PendingIsWaiting | host/batch.go:251-261 | Under that condition, which a caller can check beforehand, everybody reported as pending is waiting. |
| BatchPending.PendingButRegistered | host/batch.go:251-261 | A concrete batch in which a plugin reported as pending has been registered. |
| Host.Host.constructor | host/host.go:117-147 | A new host is empty and valid. |
| Host.Host.OccupiedByOther | host/register.go:450-462 | Finds an occupant of the slot other than the excluded plugin exactly when there is one. |
| Host.Host.SlotSatisfied | host/register.go:336-348 | True exactly for built-in and occupied slots. |
| Host.Host.FindUnmet | host/register.go:223-241 | Returns the first dependency that is not met. |
| Host.Host.InitDepsSatisfied | host/register.go:48-66 | True exactly when all init dependencies are met. |
| Host.Host.ValidateContract | host/register.go:204-249 | Reports the first failing check. |
| Host.Host.RemovePending | host/register.go:188-199 | The in-place deletion leaves the queue without the id and otherwise as it was. |
| Host.Host.RegisterLocked | host/register.go:252-296 | The whole state afterwards is that of admission, entries stored before a conflict included. |
| Host.Host.Register | host/register.go:23-46 | The mutually recursive loader ends, and its final state is the registration's. |
| Host.Host.RetryPending | host/register.go:149-172 | The final state is that of loading all loadable plugins in queue order, recursively. |
| Host.Host.ScanQueue | host/register.go:149-165 | The scan splits the queue into the loadable and the others. |
| Host.Host.RegisterLazy | host/register.go:119-143 | Registers, queues or updates in the queue, with the status and error of each case. |
| Host.Host.Replace | host/register.go:564-643 | The whole state afterwards, the retry of waiting plugins included. |
| Host.Host.DepBroken | host/register.go:467-484 | True exactly when a dependency is broken by the removal. |
| Host.Host.CollectBroken | host/register.go:500-508 | Lists each plugin that newly loses something exactly once, in any map order. |
| Host.Host.Dependents | host/host.go:254-271 | Lists exactly the plugins that the removal of the id alone would break, each once; nobody for an unknown id. |
| Host.Host.Remove | host/register.go:489-558 | Unknown id: no effect. Without cascade and with dependents: refused, state unchanged. Otherwise the victims are the least closed set holding the id, each once, and exactly they are gone from all tables. |
| Host.Host.Sweep | host/register.go:519-549 | The worklist loop ends: each turn deletes a registered plugin. |
| Host.Host.RegisterInOrder | host/batch.go:244-251 | Registrations in the planned order, failures apart. |
| Host.Host.RegisterDeferred | host/batch.go:253-261 | Deferred entries are handed to RegisterLazy in index order. |
| Host.Host.PlanBatch | host/batch.go:97-242 | Planning changes nothing and yields a plan: greatest supplied part, right classification, Kahn order. |
| Host.Host.RegisterMany | host/batch.go:97-262 | Some lawful plan is carried out, and the report and the state are its own. |
| Runs.EveryStateIsValid | host/register.go:119-199 | In every state of every run: tables agree, list and table of the queue agree, pending and registered ids are disjoint, and no waiting plugin could be loaded. |
| Runs.EveryDependencyStaysMet | host/register.go:204-249 | Every run whose init dependencies name one thing or a built-in slot, and whose replacements take nothing from their dependents, keeps all init dependencies of all registered plugins met. |
| Runs.KeepingRunsStayMet | host/register.go:489-643 | In particular every run whose replacements keep the slot and do not lower the version. |
| Runs.CatalogueStaysExact | host/register.go:264-272 | In every run of manifests that name each function once, the catalogue is exactly the functions of the registered function providers. |
| Glob.Index | contract/contract.go:145-150 | The leftmost occurrence, or none. |
| Glob.GreedyIsEnough | contract/contract.go:145-151 | Taking the leftmost occurrence of a middle part loses no match. |
| Glob.MatchesByParts | contract/contract.go:135-153 | Matching a pattern is matching its parts between stars in order. |
| Glob.GlobMatch | contract/contract.go:135-153 | True exactly when the text is the pattern with every star replaced by some string, empty ones included. |
| Leb128.DecodeEncode | loader/wasm/load.go:330-346 | Reading inverts LEB128 encoding with anything after it for values below 2^42, and rejects every longer encoding. |
| Leb128.DecodeTruncated | loader/wasm/load.go:330-346 | A proper prefix of an encoding is never read as a value. |
| Leb128.DecodeSpelled | loader/wasm/load.go:330-346 | Every LEB128 encoding, padded with zero groups or not, is read exactly when it takes at most six bytes. |
| Leb128.DecodedIsSpelled | loader/wasm/load.go:330-346 | What is read was an encoding of the value returned. |
| Leb128.SpelledTruncated | loader/wasm/load.go:330-346 | A proper prefix of any encoding is never read as a value. |
| Leb128.DecodeLocal | loader/wasm/load.go:330-346 | What follows a complete value does not matter. |
| Leb128.ReadULEB | loader/wasm/load.go:330-346 | The accumulating loop returns the decoded value and its length, or zero twice. |
| Sections.ReadSection | loader/wasm/load.go:299-312 | Size, content and end of one section, or what is wrong with it, without leaving the file. |
| Sections.ReadCustom | loader/wasm/load.go:313-325 | Name and payload of a custom section, or "bad name". |
| Sections.ParseCustomManifest | loader/wasm/load.go:290-328 | The loop computes the recursive reading of the file and never indexes out of range. |
| Sections.HeadOfEncoded | loader/wasm/load.go:303-312 | The head of a section is read back for every encoding of its size of up to six bytes, and refused for longer ones. |
| Sections.ShortestIsWellFormed | loader/wasm/wasm_core_test.go:268-293 | Sections as the repository's encoder writes them, with shortest lengths, are among them. |
| Sections.ScanEncoded | loader/wasm/load.go:299-328 | Walking any concatenation of sections, whatever encodings their lengths use, finds the first manifest section's payload, or none, or stops at a length of more than six bytes. |
| Sections.ReadableIsFound | loader/wasm/load.go:299-328 | With lengths of up to six bytes the first manifest section is always found. |
| Sections.ParseEncoded | loader/wasm/load.go:290-328 | The same for a whole file: magic, four bytes, sections. |
| Sections.TruncatedIsNeverMisread | loader/wasm/load.go:303-312 | On a truncated file either the right manifest is found or none. |
| Sections.NameIsText | loader/wasm/load.go:290-328 | The magic is the text "\0asm" and the section's name the text "egop.manifest". |
| Sections.ParseHead | loader/wasm/load.go:290-298 | Fewer than eight bytes hold no manifest; eight or more are refused as no module exactly when they do not start with the magic. |
| Framing.ByteStream.constructor | loader/remote/stream.go:40-48 | A new stream is empty. |
| Framing.ByteStream.ReadFull | loader/remote/stream.go:66-80 | Reads all or fails, with end of file told from a short read. |
| Framing.Buffer | loader/remote/stream.go:50-53 | The filled buffer is the four-byte length and the payload. |
| Framing.ByteStream.Send | loader/remote/stream.go:50-64 | Appends the whole frame, or the part the transport took; the transport's own error comes first, then a short write. |
| Framing.ByteStream.Recv | loader/remote/stream.go:66-80 | Takes one frame off the wire or reports why not. |
| Framing.HeaderRoundTrip | loader/remote/stream.go:51-72 | The header gives the length back modulo 2^32. |
| Framing.HeaderIsBigEndian | loader/remote/stream.go:51-72 | The four bytes are read with the most significant first. |
| Framing.ReceiveTells | loader/remote/stream.go:66-80 | What Recv makes of any bytes: the frame, "too large" above 64 MiB, the end of the stream, or a cut. |
| Framing.ReceiveFrameIff | loader/remote/stream.go:50-80 | A frame is received as sent, with the rest of the wire untouched, if and only if its payload has at most 64 MiB. |
| Framing.MessagesRoundTrip | loader/remote/stream.go:50-80 | Repeated receiving of the concatenated frames yields exactly the payloads sent. |
| Framing.MessagesOfPrefix | loader/remote/stream.go:66-80 | On any prefix of that stream it yields exactly the payloads whose frames are whole. |
| Session.RunsStayOk | loader/remote/session.go:142-425 | Over all interleavings and whatever the peer sends: ids, pending, channels, quota and closing stay consistent. |
| Session.NothingBlocksOrRepeats | loader/remote/session.go:279-425 | The receive loop always finds room in a reply channel, no channel gets two frames, Request returns a frame of its own id, onClosed runs at most once, the quota held is the number of executing requests, and giving it back never blocks. |
| Session.RoomForHand | loader/remote/session.go:380-383 | The frame between takePending and its channel always finds the channel empty. |
| Session.QuotaToGiveBack | loader/remote/session.go:315-318 | A finished handler always has quota to give back. |
| Session.PendingStaysEmpty | loader/remote/session.go:252-277 | Once closeWith has left its critical section, pending is empty for ever. |
| Session.BusyMeansFull | loader/remote/session.go:301-312 | A busy reply goes out if and only if a peer is set, the request is dispatched, and as many requests execute as the quota allows. |
| SessionPair.AskedLinks | loader/remote/session.go:301-323 | Reading a request keeps the agreement on who asked what, and answers it at most once. |
| SessionPair.AnsweredLinks | loader/remote/session.go:313-323 | Writing a handler's reply keeps the agreement on who answered what. |
| SessionPair.TakenLinks | loader/remote/session.go:380-383 | Reading a reply keeps it. |
| SessionPair.MoveKeeps | loader/remote/session.go:142-425 | Every step of either side, within its quota or not, keeps the agreement of both directions. |
| SessionPair.RepliesMatchRequests | loader/remote/session.go:142-172 | Over all runs of two joined sessions, whatever either sends, every Request that returns a frame returns the reply its peer produced for that very request. |
| SessionTrace.ReturnedComesFromPeer | loader/remote/session.go:142-172 | Told by the steps of any run of two sessions: if a Request returned a frame, an earlier step of its side began it, a later step of the peer read that very frame, and either that step answered it in place with its own body, or it started a handler that ended, later still, with the body returned. |
| SessionTrace.EveryAnswerIsExplained | loader/remote/session.go:301-357 | Every reply a session makes comes from the read of its request or from the end of the handler that read started. |
| SessionTrace.RequestGoesOut | loader/remote/session.go:142-160 | On an open session a Request is numbered, listed and written, and then waits. |
| SessionTrace.RequestIsServed | loader/remote/session.go:301-323 | A dispatched request read within the quota is handled, gives its quota back, and is then answered with what the handler ended with. |
| SessionTrace.OthersAreAnsweredInPlace | loader/remote/session.go:384-399 | Any other request is answered by the read itself, with "busy" exactly when a set peer is out of quota; nothing is started. |
| SessionTrace.ReplyComesHome | loader/remote/session.go:380-383 | A reply read while its request waits is put into its channel and is what Request returns. |
| SessionTrace.FailedRequestLeaves | loader/remote/session.go:155-171 | A request whose write fails or whose context ends unlists itself and returns without an answer. |
| SessionTrace.ReturnedAreUnlisted | loader/remote/session.go:142-172 | Over all runs a Request that returned leaves no entry in pending, but for callers woken while the session is closing and pending is not cleared yet. |
| SessionTrace.LoopReads | loader/remote/session.go:361-423 | At its read the loop takes any frame or fails; a reply nobody waits for is dropped. |
| SessionTrace.LoopEndsIff | loader/remote/session.go:361-423 | The loop ends exactly when its read fails or reads a shutdown. |
| SessionTrace.CloseGoesThrough | loader/remote/session.go:252-277 | Closing closes done, then clears pending and closes the stream, then notifies once, and cannot be done again. |
| SessionTrace.NoneGoesOutAfterDone | loader/remote/session.go:142-154 | A request not listed when done is closed is never written and returns without an answer. |
| SessionTrace.NobodyHangs | loader/remote/session.go:161-172 | Once done is closed every waiting Request can return. |
| SessionPair.QuotaLeft | loader/remote/session.go:301-323 | When the asker keeps within the quota, a dispatched request in flight finds some left. |
| SessionPair.TakenThrift | loader/remote/session.go:315-322 | Reading a reply makes room: the quota of its request is free already. |
| SessionPair.LeftStepThrifty | loader/remote/session.go:301-323 | One side's keeping within the quota is kept by its own steps within it and by every step of the other side. |
| SessionPair.NeverBusy | loader/remote/session.go:301-323 | Over every run in which one side keeps at most the other's quota of dispatched requests unanswered, no reply on its way to it or returned to it says busy, even if the other side floods it. |
| SessionPair.NeverBusyRight | loader/remote/session.go:301-323 | The same for the other side. |
| SessionEngine.Engine.constructor | loader/remote/session.go:75-94 | A new session is in order, with the default quota of 1024 unless a positive one is set. |
| SessionEngine.Engine.Number | loader/remote/session.go:142-145 | The number Request takes was never used, and its channel is empty. |
| SessionEngine.Engine.Enlist | loader/remote/session.go:146-154 | Nothing is listed once done is closed; the session stays in order. |
| SessionEngine.Engine.WriteRequest | loader/remote/session.go:155-160 | The request goes out as numbered unless the stream is closed; the session stays in order. |
| SessionEngine.Engine.Collect | loader/remote/session.go:161-163 | The frame Request receives is of its own id and the only one its channel gets. |
| SessionEngine.Engine.GiveUp | loader/remote/session.go:164-165 | Waking up because done is closed keeps the session in order. |
| SessionEngine.Engine.CancelRequest | loader/remote/session.go:166-171 | So does the end of the context, from which on the request only unlists itself. |
| SessionEngine.Engine.Unlist | loader/remote/session.go:156-171 | After a failed or cancelled Request nothing is found under its id any more. |
| SessionEngine.Engine.TakePending | loader/remote/session.go:279-285 | An entry is found exactly if it is listed, and at most once ever. |
| SessionEngine.Engine.Put | loader/remote/session.go:380-383 | The receive loop never blocks on a reply channel: it was empty, and then holds this one frame. |
| SessionEngine.Engine.DispatchAsync | loader/remote/session.go:301-312 | Starts a handler within the quota, and refuses at once before a peer is set or beyond the quota. |
| SessionEngine.Engine.Receive | loader/remote/session.go:384-399 | A request is dispatched or answered in place, by its kind; the session stays in order. |
| SessionEngine.Engine.ReceiveOneWay | loader/remote/session.go:400-423 | Of the one-way frames only shutdown ends the loop. |
| SessionEngine.Engine.InstallPeer | loader/remote/session.go:85 | Setting the peer keeps the session in order. |
| SessionEngine.Engine.FinishHandler | loader/remote/session.go:313-314 | A handler that returns still holds its quota. |
| SessionEngine.Engine.GiveBack | loader/remote/session.go:315-318 | Giving the quota back never blocks, and what was held was the number of handlers executing. |
| SessionEngine.Engine.Respond | loader/remote/session.go:319-322 | When the reply goes out its quota has been given back. |
| SessionEngine.Engine.CloseDone | loader/remote/session.go:252-254 | Only the first caller goes on; done is closed for everybody. |
| SessionEngine.Engine.ClearPending | loader/remote/session.go:257-269 | Deleting entry by entry empties pending and touches nothing else but the stream. |
| SessionEngine.Engine.NotifyClosed | loader/remote/session.go:270-276 | The callback runs once, with nothing pending. |
| WatchedInstances.LookedFine | autoload/autoload.go:220-241 | The first pass at a file loses no instance, closes none twice, and keeps every loaded plugin registered under its unit's id. |
| WatchedInstances.ReidentifiedFine | autoload/autoload.go:316-336 | So does a change of id, whether the old id goes or stays. |
| WatchedInstances.SwappedFine | autoload/autoload.go:337-354 | So does a replacement. |
| WatchedInstances.AppliedFine | autoload/autoload.go:273-356 | So does every outcome of applyChange. |
| WatchedInstances.NoticedFine | autoload/autoload.go:243-264 | So does the second pass at a file. |
| WatchedUnload.UnloadedOk | autoload/autoload.go:160-175 | Unloading one unit loses an instance if and only if the cascade takes one that no unit holds. |
| WatchedUnload.UnloadsForget | autoload/autoload.go:157-176 | Unload forgets exactly the units it visits. |
| WatchedUnload.InstancesAccounted | autoload/autoload.go:157-356 | After every run of polls and unloads: no instance closed twice, none registered is closed, none held twice; and every unclosed instance is held by a unit or registered, if and only if no Unload let a cascade take an instance no unit held. |
| WatchedCascade.ClosedTwice | host/register.go:489-558 | Removing twice is closed exactly when removing both together is. |
| WatchedCascade.OneMoreRoot | autoload/autoload.go:160-175 | A cascade after earlier ones completes what they took to the least closed set with one more root. |
| WatchedCascade.UnloadsCascade | autoload/autoload.go:157-176 | Against a host that answers as the registry does, the cascades of Unload together take the least closed set over the ids visited, in whatever order. |
| WatchedCascade.UnloadLosesIff | autoload/autoload.go:157-176 | Such an Unload loses an instance if and only if, in the state before, one that no unit holds lies in the cascades of the loaded ids. |
| WatchedLawful.LawfulRunsAccount | autoload/autoload.go:157-356 | On a host whose every answer is the registry's, every unclosed instance is held or registered if and only if no Unload so far met that condition. |
| WatchedRename.PollsAreLawful | autoload/autoload.go:316-336 | A run of four polls on such a host, with one name per dependency, in which a file changes its plugin's id and the old id must stay. |
| WatchedRename.UnloadIsLawful | autoload/autoload.go:157-176 | After it there is an Unload with the registry's answers. |
| WatchedRename.LawfulHostLoses | autoload/autoload.go:160-175 | Every such Unload, in whatever order, leaves an instance that is neither closed, nor held, nor registered. |
| WatchedOrphans.AgreedRunsLoseNothing | autoload/autoload.go:157-356 | Where no removal of an old id is refused, every unclosed instance is held by a unit. |
| WatchedPaths.PollAt | autoload/autoload.go:191-268 | A whole poll as one path lives through it, in whatever order the maps are visited. |
| WatchedPaths.AppliesConfirmed | autoload/autoload.go:243-264 | Content is applied at a path only if an earlier poll saw it there and every poll since saw it, nothing, the loaded content or the rejected one. |
| WatchedPaths.SeenTwiceIsApplied | autoload/autoload.go:243-264 | Content that two polls in a row see at a path is applied by one of them, unless it is the loaded or the rejected content. |
| WatchedPaths.OldOrNewServes | autoload/autoload.go:273-356 | Applying content ends with the new content loaded or with the old plugin untouched; what the unit then holds as loaded is registered under its id. |
| WatchedPaths.BadContentIsRejected | autoload/autoload.go:296-304 | Content that cannot be loaded for an unloaded unit, or that the host refuses to a loaded one, is remembered as rejected, the old plugin staying. |
| WatchedPaths.RejectedIsLeftAlone | autoload/autoload.go:251-256 | While a file shows nothing but its rejected content, polls leave its unit's plugin, hashes and verdict alone. |
| WatchedPaths.OnlyAppliesChange | autoload/autoload.go:251-260 | Where nothing is applied, the unit's plugin and hashes stay. |
| WatchedPaths.UnloadsAfterTwoMisses | autoload/autoload.go:220-241 | A poll gives a unit up only if its file was absent in this poll and in the one right before. |
| WatchedOutcomes.WaitingIsRegistered | autoload/autoload.go:273-289 | When the content of a waiting instance is seen again, its id is free and the host accepts it, the unit is loaded with that very instance, registered under its id; no instance is made or closed. |
| WatchedOutcomes.WaitingGoesOn | autoload/autoload.go:285-289 | Otherwise the instance goes on waiting and nothing changes. |
| WatchedOutcomes.PollRegistersWaiting | autoload/autoload.go:243-284 | The same for a whole poll, in whatever order the files are visited: if the id is free at its turn, the instance is loaded and registered afterwards. |
| WatchedOutcomes.FirstIsRegistered | autoload/autoload.go:306-315 | A first load that the host accepts is registered; an outdated waiting instance is closed first. |
| WatchedOutcomes.FirstWaits | autoload/autoload.go:308-311 | One that the host refuses waits with its content. |
| WatchedOutcomes.NewerIsSwappedIn | autoload/autoload.go:337-346 | Newer content of the same id that the host accepts takes the old one's place, which is closed. |
| WatchedOutcomes.OtherIdIsRegistered | autoload/autoload.go:316-336 | Newer content of another id that the host accepts is registered; the old instance is unregistered and closed if the host removes its id, and stays registered otherwise. |
| WatchedOutcomes.RefusedNewcomerIsClosed | autoload/autoload.go:318-343 | A newcomer refused to a loaded unit is closed and its content rejected; the old instance goes on serving. |
| WatchedOutcomes.BadIsSetAside | autoload/autoload.go:291-304 | Unreadable or broken content has to be seen twice again; broken content of an unloaded unit is rejected; the plugin stays. |
| WatchedOutcomes.FirstSightIsNoted | autoload/autoload.go:251-260 | Loaded and rejected content changes nothing; other content seen for the first time is only noted. |
| WatchedOutcomes.MissedTwiceIsRemoved | autoload/autoload.go:220-241 | A loaded unit whose file is missed for the second time is closed, unregistered and forgotten exactly if the host lets it go; else only its count changes. |
| WatchedOutcomes.UnloadLetsGo | autoload/autoload.go:157-176 | Unload closes the instance a unit holds, takes a registered id out with the host's victims, and forgets the unit. |
| WatchedHost.RegisterAsWatched | host/register.go:23-46 | Register adds the id or changes nothing, succeeds only for a free id, and besides loads waiting plugins only. |
| WatchedHost.NobodyLoads | host/register.go:149-172 | With nobody waiting nothing is loaded besides, as the watcher's model takes for granted. |
| WatchedHost.ReplaceAsWatched | host/register.go:564-643 | Replace puts the new instance in the old one's place or changes nothing, and besides loads waiting plugins only. |
| WatchedHost.RemoveAsWatched | host/register.go:489-558 | Remove takes out the closed set, which is the id alone when it has no dependents, and no waiting plugin. |
| WatchedHost.HostAccepts | host/register.go:252-296 | Register accepts exactly acceptable manifests of free ids, Replace those of registered ids, when they name each function once. |
| HotReload.FileWatcher.constructor | autoload/autoload.go:99-112 | A watcher starts with no unit and no instance. |
| HotReload.FileWatcher.Look | autoload/autoload.go:222-240 | A unit whose file was seen forgets its misses, one whose file is missing is treated as missed, and an unloaded one is skipped; no other unit changes. |
| HotReload.FileWatcher.Miss | autoload/autoload.go:229-240 | The first miss is only counted; at the second the plugin is removed, closed and forgotten, or, if the host refuses, kept with its count reset. |
| HotReload.FileWatcher.ApplyChange | autoload/autoload.go:273-356 | A waiting instance of the same content is only registered again, one of other content is closed and the content loaded anew; the whole state afterwards is stated. |
| HotReload.FileWatcher.Load | autoload/autoload.go:291-356 | The whole state afterwards for every outcome of reading, loading, registering, re-identifying and replacing. |
| HotReload.FileWatcher.Reidentify | autoload/autoload.go:316-336 | The new instance is registered first; the old one is closed only if its id could be removed, and stays registered otherwise. |
| HotReload.FileWatcher.Swap | autoload/autoload.go:337-354 | The old instance is closed only after the host took the new one; a refused one is closed instead and its content remembered. |
| HotReload.FileWatcher.Notice | autoload/autoload.go:243-264 | Settled content is left alone, content seen for the first time becomes pending, pending content seen again is applied. |
| HotReload.FileWatcher.Poll | autoload/autoload.go:191-268 | Both passes visit every unit and every seen file exactly once, in any order; the state is that of one round, and instances stay sound and loaded units registered. |
| HotReload.FileWatcher.Unload | autoload/autoload.go:157-176 | Every unit is visited exactly once, in any order; the state is that of one round, no unit is left, and nothing closed is registered. |

## Left out

- JSON, sha256, zip bundles, directory walking and URL parsing: contents are abstract, a file's hash and what loading it gives are inputs of a poll, and file contents are stable during one poll.
- The WebAssembly runtime, instance pools and watchdog; capability gates; config storage and replay; effect stacks; hook declarations; lifecycle events, logging and time stamps.
- Lifecycle callbacks (`SetSurface`, event subscribers) are assumed not to call back into the host, and each public call runs to its end before the next; the locks in between are not part of this model.
- The seven slot axes that read the manifest alone, and the tool check, are one opaque predicate; `SlotLookup` is a constant table and tells what a slot needs.
- Host.Close: closing everything in reverse order of registration.
- EventFilter.Match beyond its glob patterns: each field is settled by reading one branch.
- Metadata is fixed per plugin value, so the difference between the snapshot Register takes and a later `Meta()` is not captured; ids and names are character sequences.
- Version.VersionAtLeast: segment values are clamped to 64-bit integers as the conversion does; Unicode white space is the fixed list of characters Go trims.
- Leb128.ReadULEB: combining bits by "or" is written as addition of disjoint bits, for 64-bit integers.
- Sections.ParseCustomManifest: decoding the manifest's JSON is not part of this model; the payload is returned instead.
- Registration, request and instance numbers are unbounded, so wrap-around after 2^64 is not modelled; sizes are those of 64-bit platforms.
- Sessions: payloads are opaque, handlers finish at any time with any result, the handshake (`register` frames) and event delivery are left out; what is stated of progress is that the steps of a call can be taken, not that a blocked transport lets them.
- A Stream's writes go out in the order of the steps; `send` checks `done` before it takes the lock, so a write between the two is allowed until the stream is closed.
- The watcher's units are value records in a map, where the source shares a mutable record between map and loop; the source's events and log lines are left out.
- HotReload.FileWatcher.Poll: the host's answers are inputs, one set per path and round; config replay after a replacement is left out.
- Registry.Retry: the scan deletes from the waiting table after its loop rather than during it, which the loop does not read.
