# Template-level subscription cache: a Dafny model

`template-level-subs-cache` is a Meteor package. It lets a Blaze template
declare cached subscriptions under slot ids. Each slot gets reactive
arguments, lifecycle hooks and a readiness flag. The package subscribes
through a `SubsCache` when the template starts and tears down when it is
destroyed. A second piece of the package, the `InformationBundler`, is a
registry of named helper bundles and subscription associations.

This project models, as immutable datatypes and pure transition functions:

- **`CachedSubscription`** (`cached_subscription.dfy`) is the per-template-instance
  machine of `client/create-cached-subscription-instance.js`. Its operations are
  `startSub`, the re-run of the driving computation with freshly evaluated arguments,
  the deferred `doActualSubscription` step, the handle becoming ready, `stopSub`,
  `restartSub`, the stop continuation and the restart continuation.
  - Every asynchronous step is an explicit event. The source uses `autorun` re-runs,
    `setTimeout`, promise continuations and `sub.ready()` flips; the model returns
    `None` for an event the runtime cannot deliver in that state.
  - A handle is `Pending`, `Real(ready)` or `Fake`.
  - The package-level `create-cached-subscription-instance.js` is an earlier copy of the
    same machine, without the ancestor query, so the same module
    models it. Its `startSub` is lines 46-179, `stopSub` 180-234, `restartSub` 235-245,
    `cachedSubReady` 246-258, `allCachedSubsReady` 259-271 and `allSubsReady` 272-282.
    The table cites the client copy for each operation and the earlier copy for several
    of the lemmas.
- **`CachedSubscriptionProps`** (`cached_subscription_props.dfy`) states the
  instance invariant and proves that every event preserves it. It also proves
  the ordering rules of the machine over whole event runs.
- **`Readiness`** (`readiness.dfy`) holds the readiness queries:
  - `cachedSubReady`;
  - `allCachedSubsReady`, which reads every slot and does not short-circuit;
  - `allSubsReady`;
  - `allSubsReadyAllAncestors`, which short-circuits over the ancestors;
  - the template-ancestor filter.
- **`Binder`** (`binder.dfy`) covers `prepareCachedSubscription` in
  `client/template-level-subs-cache.js`: option defaults, registration and duplicate
  exclusion, the start and destroy hooks, the `subscriptionsReady` replacement and
  `areAllSubsReadyCheck`.
- **`InlineCache`** and **`InlineCacheProps`** (`inline_cache.dfy`, `inline_cache_props.dfy`)
  model the oldest inline machine in the package-level `template-level-subs-cache.js`.
  - Its index counter starts at 1, and the whole issue step is deferred.
  - `stopSub` waits for the handle to be ready, and its teardown block is duplicated.
  - `restartSub` does not wait for the stop.
  - The teardown wait of a re-run's `stopSub` is an autorun created inside the driving
    computation, so it ends when that computation is next invalidated or stopped. Each
    wait records its owning computation.
  - Registration writes the options before it rejects a duplicate.
- **`ParamGetter`** (`param_getter.dfy`) models the `ReactiveParamGetter` combinators.
- **`InformationBundler`** (`information_bundler.dfy`) models `information-bundler.js`
  minus `prepareTemplates`.

Shared vocabulary lives in **`Common`** (`common.dfy`):

- Argument values are an abstract JSON-like `Value`. EJSON deep equality is structural equality on it.
- Argument specs are constants or getters, and `Evaluate` reads them in an environment.
- The effect trace records every hook call, cache call, handle stop and computation stop.
- `Common` also defines the error codes of the package.

A thrown `Meteor.Error` is an `Outcome.Fault`. In the client `stopSub` the error is
raised inside a promise executor, so the `Fault` there stands for a rejected promise.

## Model

| member | source | states |
|---|---|---|
| CachedSubscription.Create | packages/template-level-subs-cache/client/create-cached-subscription-instance.js:27-51 | A new instance has no slots, index counter 0, version cell 1, nothing started and no record, and satisfies the instance invariant |
| CachedSubscription.SubInfo | packages/template-level-subs-cache/client/create-cached-subscription-instance.js:52-59 | The record is found exactly when the slot has a mapped index that holds a record, and it is that record |
| CachedSubscription.StartSub | packages/template-level-subs-cache/client/create-cached-subscription-instance.js:68-141 | A started slot fails with sub-already-started. Otherwise the flag is set, one driving computation is added, and the first run issues a fresh record: counter plus one, the id mapped to it, the version cell set to it, a readiness cell false, and a record with the evaluated args and a pending handle. Older records and cells are unchanged |
| CachedSubscription.Issue | packages/template-level-subs-cache/client/create-cached-subscription-instance.js:107-141 | An issue never fails. It produces a fresh record whose proceed flag is the validity predicate applied to the args, and emits beforeStart only when the args are valid and the hook is set. Slots, options, flags and pending stops are unchanged |
| CachedSubscription.Rerun | packages/template-level-subs-cache/client/create-cached-subscription-instance.js:81-99 | A re-run is deliverable exactly for a live computation. A missing record fails with the missing-info error, equal args leave the state and trace unchanged, and changed args queue a stop of the current index that keeps the computation and issue a fresh record, emitting nothing but beforeStart |
| CachedSubscription.CacheCall | packages/template-level-subs-cache/client/create-cached-subscription-instance.js:155-160 | The cache call is subscribeFor with the cache-level TTL exactly when that TTL is a number, otherwise subscribe. It carries the record's index and args, and it takes no per-slot option |
| CachedSubscription.CompleteDeferred | packages/template-level-subs-cache/client/create-cached-subscription-instance.js:143-198 | Deliverable exactly for a record with a pending handle. Valid args give a real handle with the cache's readiness and the trace cache call, onReady if already ready, then afterStart. Invalid args give a fake handle, the cell set true and only onReady. Other records, the mapping and the started flags are unchanged |
| CachedSubscription.HandleReady | packages/template-level-subs-cache/client/create-cached-subscription-instance.js:171-184 | A real unready handle becomes ready. A running watcher sets the cell true and fires onReady once. A watcher that is not running changes no cell and emits nothing |
| CachedSubscription.StopSub | packages/template-level-subs-cache/client/create-cached-subscription-instance.js:201-236 | Without a record the call fails with no-started-sub-with-id, and only then. Otherwise nothing happens at once: records and mapping are unchanged and one stop request for the current index is queued |
| CachedSubscription.TeardownEffects | packages/template-level-subs-cache/client/create-cached-subscription-instance.js:209-248 | The handle is stopped exactly once. A fake handle gets no hook calls. The computation stop is present exactly when requested |
| CachedSubscription.CompleteStop | packages/template-level-subs-cache/client/create-cached-subscription-instance.js:209-254 | The continuation runs exactly once the record's start has resolved. It clears the slot's started flag, stops the handle once and stops the computation exactly when asked and not already stopped. It removes no mapping, record or cell, and queues the restart when chained |
| CachedSubscription.RestartSub | packages/template-level-subs-cache/client/create-cached-subscription-instance.js:255-265 | Fails exactly when stopSub would. Otherwise nothing is started at once: a stop with the restart chained after it is queued |
| CachedSubscription.ResumeRestart | packages/template-level-subs-cache/client/create-cached-subscription-instance.js:259-263 | The restart continuation is deliverable exactly for a queued restart and then calls startSub on its slot |
| CachedSubscription.CachedSubReady | packages/template-level-subs-cache/client/create-cached-subscription-instance.js:266-278 | True exactly when the slot has a mapped index whose readiness cell is true. An unmapped slot is not ready |
| CachedSubscriptionProps.StepPreservesInv | packages/template-level-subs-cache/client/create-cached-subscription-instance.js:68-265 | Every deliverable event that does not fail preserves the invariant. The invariant says: indices stay at or below the counter, the version equals the counter, every mapped index holds a record of that slot, and every cell belongs to a record |
| CachedSubscriptionProps.RunPreservesInv | packages/template-level-subs-cache/client/create-cached-subscription-instance.js:68-265 | The invariant holds after any sequence of events that does not fail |
| CachedSubscriptionProps.RerunNeverFaults | packages/template-level-subs-cache/create-cached-subscription-instance.js:61-66 | Under the invariant a live computation always finds its record, so the missing-info error is unreachable |
| CachedSubscriptionProps.StopEnabledIffResolved | packages/template-level-subs-cache/create-cached-subscription-instance.js:188 | Under the invariant a queued stop can run exactly when its record's handle is no longer pending |
| CachedSubscriptionProps.StopFollowsSubscribe | packages/template-level-subs-cache/client/create-cached-subscription-instance.js:143-254 | Along any run, each handle stop in the trace refers to a record whose handle is resolved, and for a real handle a cache call for the same index appears earlier in the trace |
| CachedSubscriptionProps.StopOnlyAfterSubscribe | packages/template-level-subs-cache/client/create-cached-subscription-instance.js:143-254 | From a state with no resolved handle, any handle stop in a run's trace for a real handle is preceded by that index's cache call |
| CachedSubscriptionProps.StartedUntilStopCompletes | packages/template-level-subs-cache/create-cached-subscription-instance.js:54-57 | A started slot stays started under every event other than its own stop continuation |
| CachedSubscriptionProps.StopKeepsReadiness | packages/template-level-subs-cache/client/create-cached-subscription-instance.js:266-278 | A stop continuation changes no slot's readiness and no slot's record lookup, so cachedSubReady after a stop reports the last record's cell |
| CachedSubscriptionProps.ArgChangeQueuesStop | packages/template-level-subs-cache/client/create-cached-subscription-instance.js:90-93 | A re-run with changed args succeeds, keeps the invariant, queues as its last stop request the stop of the old index without the computation stop, and maps the slot to a new record driven by the same computation |
| CachedSubscriptionProps.ArgChangeStopSurvivesReissue | packages/template-level-subs-cache/client/create-cached-subscription-instance.js:90-236 | After an argument change the new record's deferred step leaves the old record's stop in place. That stop can then run: it stops the old handle and clears started |
| CachedSubscriptionProps.StopWithoutComputationKeepsComps | packages/template-level-subs-cache/create-cached-subscription-instance.js:208-210 | A stop requested with stopOverallComputation false stops no computation |
| CachedSubscriptionProps.ArgChangeStopClearsStarted | packages/template-level-subs-cache/client/create-cached-subscription-instance.js:236 | After an argument change, the old record's stop clears started although the new record is live and its computation still runs. A further startSub is then accepted and adds a second driving computation for the slot |
| CachedSubscriptionProps.RestartResumesAfterTeardown | packages/template-level-subs-cache/create-cached-subscription-instance.js:235-245 | Once a chained stop has completed, the restart continuation starts the slot again without failing |
| Readiness.ConjoinEveryRead | packages/template-level-subs-cache/create-cached-subscription-instance.js:259-271 | The loop reads every slot in order, because the slot read comes first, and returns the conjunction of the start value with all slot readiness values |
| Readiness.AllCachedSubsReady | packages/template-level-subs-cache/client/create-cached-subscription-instance.js:279-291 | Reads every listed slot and is true exactly when the version cell is nonzero and every slot is ready. Under the invariant the version is at least 1 |
| Readiness.AllSubsReady | packages/template-level-subs-cache/client/create-cached-subscription-instance.js:292-302 | True exactly when all cached slots, the template's own subscriptions and the default subscriptions are ready, and every slot is read |
| Readiness.AncestorsReady | packages/template-level-subs-cache/client/create-cached-subscription-instance.js:303-314 | True exactly when every ancestor is ready. On success every ancestor was asked. On failure the asked ancestors are a non-empty prefix, so the conjunction short-circuits |
| Readiness.AllSubsReadyAllAncestors | packages/template-level-subs-cache/client/create-cached-subscription-instance.js:303-314 | The own readiness conjoined with every ancestor's readiness. Every slot is read, and only a prefix of the ancestors is asked |
| Readiness.TemplateAncestors | packages/template-level-subs-cache/client/create-cached-subscription-instance.js:13-25 | An id is returned exactly when some parent view is a template view with an instance of that id, and there are never more ids than parents |
| Readiness.TemplateAncestorsAppend | packages/template-level-subs-cache/client/create-cached-subscription-instance.js:13-25 | The ancestor filter keeps the parent order: filtering a concatenation gives the concatenation of the filtered parts |
| Binder.WithDefaults | packages/template-level-subs-cache/client/template-level-subs-cache.js:70-81 | Every given option is kept as given. Missing options default to: start on created, both replacement flags on, an always-true validity predicate, no expiry and no hooks |
| Binder.DefaultsKeepGivenOptions | packages/template-level-subs-cache/client/template-level-subs-cache.js:70-86 | Options given in full are kept unchanged by defaulting, and defaulting twice is defaulting once |
| Binder.ModeFor | packages/template-level-subs-cache/client/template-level-subs-cache.js:91-97 | subscriptionsReady becomes the ancestor variant exactly when both replacement flags are set, allSubsReady exactly when only the first is, and stays original exactly when the first is off |
| Binder.Register | packages/template-level-subs-cache/client/template-level-subs-cache.js:88-119 | The instance is created only when absent, and the readiness mode is chosen only then. A duplicate id is excluded and changes nothing. A fresh id is appended with its args and options, allowStart true and startCalled false |
| Binder.AddSlot | packages/template-level-subs-cache/client/template-level-subs-cache.js:109-119 | Appends the id at the end of the list, stores its args and options, sets allowStart and clears startCalled for it alone, and leaves records and started flags untouched |
| Binder.RegisterPreservesInv | packages/template-level-subs-cache/client/template-level-subs-cache.js:88-119 | Registration preserves the template-level invariant |
| Binder.StartHook | packages/template-level-subs-cache/client/template-level-subs-cache.js:123-146 | An excluded registration or a destroyed template does nothing. A missing instance throws. Without allowStart nothing happens. Otherwise startSub runs, and startCalled is set exactly when it did not throw |
| Binder.OnLifecycle | packages/template-level-subs-cache/client/template-level-subs-cache.js:123-171 | The start runs on created exactly when startOnCreated holds and on rendered exactly when it does not; the other event does nothing |
| Binder.DestroyHook | packages/template-level-subs-cache/client/template-level-subs-cache.js:173-190 | An excluded registration does nothing. Otherwise allowStart is cleared for that slot alone, stopSub with the computation stop is called exactly when startCalled is set, its rejection is ignored, the template is marked destroyed, and the mapping and startCalled are unchanged |
| Binder.StartHookPreservesInv | packages/template-level-subs-cache/client/template-level-subs-cache.js:123-171 | The start hook preserves the template-level invariant |
| Binder.DestroyHookPreservesInv | packages/template-level-subs-cache/client/template-level-subs-cache.js:173-190 | The destroy hook preserves the template-level invariant |
| Binder.StopAutoruns | packages/template-level-subs-cache/client/create-cached-subscription-instance.js:81-184 | After the destroy callbacks every computation made with templateInstance.autorun stops: every driving computation, and every running readiness watcher. Nothing else changes |
| Binder.Destroy | packages/template-level-subs-cache/client/template-level-subs-cache.js:173-190 | The destroy hooks run in registration order and a throwing hook aborts the rest. On success nothing is emitted, no computation is live and no watcher runs, mapping, records, started and startCalled are kept, stops are only appended, and every non-excluded slot loses allowStart |
| Binder.DestroyPreservesInv | packages/template-level-subs-cache/client/template-level-subs-cache.js:173-190 | A destroy that does not throw preserves the template-level invariant |
| Binder.DestroyQueuesEveryStop | packages/template-level-subs-cache/client/template-level-subs-cache.js:183-184 | Every non-excluded registration whose start hook called startSub and whose slot has a record gets a stop of its current record, with the computation stop, queued by the destroy |
| Binder.DestroyedTemplateIsQuiet | packages/template-level-subs-cache/client/create-cached-subscription-instance.js:81-184 | After a destroy no computation re-runs, no readiness watcher fires onReady, and a stop that settles later stops no computation |
| Binder.StartAfterDestroyIsNoop | packages/template-level-subs-cache/client/template-level-subs-cache.js:131 | After a destroy, every later start attempt of any slot of that template does nothing |
| Binder.DestroyBeforeStart | packages/template-level-subs-cache/client/template-level-subs-cache.js:183-187 | Destroying before the start requests no stop, leaves the slot's record lookup unchanged, and makes a later start attempt do nothing |
| Binder.DestroyAfterStartStops | packages/template-level-subs-cache/client/template-level-subs-cache.js:173-190 | Destroy after a successful start queues a stop of the current record with the computation stop, because the record is stored synchronously |
| Binder.FirstIndexIsOne | packages/template-level-subs-cache/create-cached-subscription-instance.js:19-119 | The index counter of a new object starts at 0 and increments before use, so the first start of the first registered slot maps it to index 1, whose record holds that run's arguments |
| Binder.AreAllSubsReadyCheck | packages/template-level-subs-cache/client/template-level-subs-cache.js:208-218 | Without an instance the check is the template's own readiness and default readiness. With one it equals allSubsReady, never the ancestor variant |
| Binder.SubscriptionsReady | packages/template-level-subs-cache/client/template-level-subs-cache.js:88-98 | The replaced subscriptionsReady answers as the original, as allSubsReady, or as the ancestor variant according to the chosen mode |
| InlineCache.Create | packages/template-level-subs-cache/template-level-subs-cache.js:62-73 | A new inline instance has index counter 1, version 1, no slots and no records, and satisfies the inline invariant |
| InlineCache.SubInfo | packages/template-level-subs-cache/template-level-subs-cache.js:74-81 | The record is found exactly when the slot's mapped index holds one, and it is that record |
| InlineCache.RegisterAsWritten | packages/template-level-subs-cache/template-level-subs-cache.js:308-322 | The registration throws id-already-exists exactly for a duplicate id, but the new options, allowStart true and startCalled false are written in both cases. A fresh id is appended with its args |
| InlineCache.Register | packages/template-level-subs-cache/template-level-subs-cache.js:308-322 | With the duplicate check first, a duplicate fails with id-already-exists and nothing changes. A fresh id is appended with its args and options and the start flags |
| InlineCache.StartSub | packages/template-level-subs-cache/template-level-subs-cache.js:90-121 | A started slot fails with sub-already-started. Otherwise the flag is set, a driving computation is added and the issue step is only scheduled: no record, index, cell or effect yet |
| InlineCache.Rerun | packages/template-level-subs-cache/template-level-subs-cache.js:103-121 | Deliverable exactly for a live computation. A re-run first ends the teardown waits this computation's earlier runs created. Equal args then change nothing else, a missing record throws, and changed args fire beforeStop, keep the computation and schedule a new issue. When the old handle is ready the record is torn down at once: the trace is beforeStop, the handle stop and afterStop, the record's running watcher stops, started is cleared and no other record changes. Otherwise a wait owned by this computation is queued and started is unchanged |
| InlineCache.CompleteIssue | packages/template-level-subs-cache/template-level-subs-cache.js:122-186 | The deferred issue takes the next index after the counter, maps the slot to it, sets the version, seeds the cell false, subscribes with the cache-level TTL exactly when it is a number, stores the record with the handle, and emits beforeStart and afterStart around the cache call. Setting the slot's index invalidates the slot's drivers, so exactly the waits they own are dropped |
| InlineCache.StartWatcher | packages/template-level-subs-cache/template-level-subs-cache.js:160-175 | The watcher of a record fires at once when the handle is already ready, setting the cell and calling onReady, and otherwise keeps watching |
| InlineCache.HandleReady | packages/template-level-subs-cache/template-level-subs-cache.js:160-175 | The handle of an unready record becomes ready. A running watcher sets the cell and fires onReady once. Without a running watcher no cell changes and nothing is emitted |
| InlineCache.TeardownEffectsAsWritten | packages/template-level-subs-cache/template-level-subs-cache.js:211-250 | The duplicated teardown block stops the handle twice, calls afterStop twice when set, and stops the computation at most once |
| InlineCache.TeardownEffects | packages/template-level-subs-cache/template-level-subs-cache.js:211-230 | A single teardown block stops the handle once, calls afterStop at most once, and stops the computation exactly when asked and not already stopped |
| InlineCache.ApplyTeardown | packages/template-level-subs-cache/template-level-subs-cache.js:209-254 | The teardown clears started and keeps the mapping, cells and readiness. It touches no other record and queues the chained restart when there is one. Stopping the computation also ends exactly the waits that computation owns; otherwise no wait and no driver changes |
| InlineCache.Stop | packages/template-level-subs-cache/template-level-subs-cache.js:189-256 | Without a record the stop throws. Otherwise beforeStop fires at once. The teardown runs immediately when the handle is ready, and otherwise waits under the calling computation, leaving the state unchanged apart from the queued wait |
| InlineCache.StopSub | packages/template-level-subs-cache/template-level-subs-cache.js:189-256 | Fails with no-started-sub-with-id exactly when there is no record. A ready handle is torn down at once, which clears started. An unready one queues exactly one teardown wait |
| InlineCache.RestartSubAsWritten | packages/template-level-subs-cache/template-level-subs-cache.js:257-265 | The restart schedules startSub at once whenever stopSub succeeds, so with an unready handle the slot is still started when the start is scheduled |
| InlineCache.RestartSub | packages/template-level-subs-cache/template-level-subs-cache.js:257-265 | With the start chained after the teardown, an unready handle schedules nothing yet, and a ready one clears started before scheduling the start |
| InlineCache.CompleteTeardown | packages/template-level-subs-cache/template-level-subs-cache.js:209-254 | A waiting teardown runs exactly once its record's handle is ready. It leaves the queue, clears started, adds no wait, and a teardown that keeps its computation removes only itself |
| InlineCache.CachedSubReady | packages/template-level-subs-cache/template-level-subs-cache.js:266-278 | True exactly when the slot's mapped index has a true readiness cell |
| InlineCache.AllCachedSubsReady | packages/template-level-subs-cache/template-level-subs-cache.js:279-291 | Reads every listed slot and is true exactly when the version is nonzero and every slot is ready |
| InlineCache.AllSubsReady | packages/template-level-subs-cache/template-level-subs-cache.js:292-302 | True exactly when all cached slots, the template's subscriptions and the default subscriptions are ready |
| InlineCache.StartHook | packages/template-level-subs-cache/template-level-subs-cache.js:326-352 | Without allowStart the hook does nothing. Otherwise startSub runs, and startCalled is set only when it did not throw |
| InlineCache.DestroyHook | packages/template-level-subs-cache/template-level-subs-cache.js:354-365 | Destroy always clears allowStart, calls stopSub exactly when startCalled is set, and sets no other allowStart flag |
| InlineCache.StopDrivers | packages/template-level-subs-cache/template-level-subs-cache.js:103-121 | Tearing the template instance down stops every driving computation and ends exactly the teardown waits owned by one |
| InlineCache.Destroy | packages/template-level-subs-cache/template-level-subs-cache.js:354-365 | The destroy hooks run in registration order and a throwing hook aborts the rest. On success every driver is stopped, no owned wait remains, every destroyed id has allowStart false, no allowStart flag is newly set, and the trace begins with the first hook's effects |
| InlineCacheProps.StepPreservesInv | packages/template-level-subs-cache/template-level-subs-cache.js:90-302 | Every event of the corrected inline machine that does not fail preserves the inline invariant. The invariant says: the version equals the counter, indices lie between 2 and the counter, cells match records, a true cell means a ready handle, and every wait names a record and, when owned, a live driver of its slot |
| InlineCacheProps.HooksPreserveInv | packages/template-level-subs-cache/template-level-subs-cache.js:326-365 | The inline start and destroy hooks preserve the inline invariant |
| InlineCacheProps.RestartSubAsWrittenPreservesInv | packages/template-level-subs-cache/template-level-subs-cache.js:257-265 | The as-written restart, which schedules the start at once, also preserves the inline invariant |
| InlineCacheProps.DestroyPreservesInv | packages/template-level-subs-cache/template-level-subs-cache.js:354-365 | A destroy that does not throw preserves the inline invariant |
| InlineCacheProps.DestroyedDriversAreQuiet | packages/template-level-subs-cache/template-level-subs-cache.js:103-121 | After a destroy no driving computation re-runs, and a teardown that runs later stops no computation |
| InlineCacheProps.RerunTeardownDiesWithIssue | packages/template-level-subs-cache/template-level-subs-cache.js:113-140 | After an argument change with the old handle unready, the wait queued for the old record is owned by the driver. The issue step drops it, so once the old handle becomes ready only onReady fires, no teardown can run and started stays set |
| InlineCacheProps.ReadyCellMeansHandleReady | packages/template-level-subs-cache/template-level-subs-cache.js:160-175 | Under the invariant a ready slot's current record has a ready handle |
| InlineCacheProps.IssueIndexIsFresh | packages/template-level-subs-cache/template-level-subs-cache.js:137-159 | A deferred issue maps the slot to an index that held no record before, greater than every earlier index |
| InlineCacheProps.FirstIndexIsTwo | packages/template-level-subs-cache/template-level-subs-cache.js:63-140 | On a new instance, the first registered slot's first issue gets index 2 and subscribes under index 2 |
| InlineCacheProps.RerunWithSameArgsIsNoop | packages/template-level-subs-cache/template-level-subs-cache.js:103-121 | After the first issue, a re-run with the same environment changes nothing and emits nothing |
| InlineCacheProps.RestartAsWrittenRacesTeardown | packages/template-level-subs-cache/template-level-subs-cache.js:257-265 | With an unready handle, the as-written restart's scheduled start fails with sub-already-started |
| InlineCacheProps.RestartResumesAfterTeardown | packages/template-level-subs-cache/template-level-subs-cache.js:257-265 | With the corrected restart, once the handle is ready and the teardown has run, the scheduled start succeeds and the slot is started again |
| InlineCacheProps.DestroyBeforeIssueThrows | packages/template-level-subs-cache/template-level-subs-cache.js:354-365 | A destroy between the start hook and the deferred issue throws no-started-sub-with-id, and the issue is still scheduled |
| InlineCacheProps.DuplicateRegistrationOverwrites | packages/template-level-subs-cache/template-level-subs-cache.js:308-321 | A duplicate registration throws only after replacing the first registration's options and resetting startCalled, so a later destroy requests no stop |
| ParamGetter.ObjectOf | packages/template-level-subs-cache/client/template-level-subs-cache.js:258-266 | The pairs object has exactly the given names as keys, each mapped to the getter's value for it |
| ParamGetter.Call | packages/template-level-subs-cache/client/template-level-subs-cache.js:253-270 | fromArrayToArray yields the getter's value for each name, in order and with the same length. fromArrayToObj maps exactly the names to their values. fromObjToObj maps exactly the renamed keys to the getter's value of their parameter. fromName yields the getter's value of the name |
| ParamGetter.ArrayAndObjectFormsAgree | packages/template-level-subs-cache/template-level-subs-cache.js:424-436 | The object form holds under each name the value the array form holds at that name's position, and it equals the renaming form with each name mapped to itself |
| ParamGetter.FromNameIsSingletonArray | packages/template-level-subs-cache/client/template-level-subs-cache.js:256-270 | A single name read with fromName is the one element of fromArrayToArray of that name |
| InformationBundler.Empty | packages/template-level-subs-cache/information-bundler.js:30-32 | The registry starts with no bundles and an empty helper pool, and satisfies the registry invariant |
| InformationBundler.CheckBundleNames | packages/template-level-subs-cache/information-bundler.js:63-69 | Succeeds exactly when every name has a basic bundle. Otherwise it fails with undeclared-info-bundle-name naming the first undeclared name in order |
| InformationBundler.FirstUndeclared | packages/template-level-subs-cache/information-bundler.js:63-69 | An undeclared name is found exactly when some name is undeclared, and it is the first undeclared name in order |
| InformationBundler.AddBasic | packages/template-level-subs-cache/information-bundler.js:35-61 | Non-object helpers fail with invalid-helpers, and only they do. A re-added name merges, with new keys overwriting and other keys kept; a new name stores the map. Every helper lands in the pool |
| InformationBundler.AddSupplementary | packages/template-level-subs-cache/information-bundler.js:71-97 | Non-object helpers fail first, then a non-array name list, then an undeclared name. On success the bundle is appended and its helpers overwrite the pool |
| InformationBundler.AddGeneral | packages/template-level-subs-cache/information-bundler.js:99-104 | A general bundle is a supplementary bundle with no required names |
| InformationBundler.GetHelper | packages/template-level-subs-cache/information-bundler.js:106-108 | A helper is found exactly when the pool holds the name, and it is the pooled one |
| InformationBundler.Arr1ContainsArr2 | packages/template-level-subs-cache/information-bundler.js:114-121 | True exactly when every candidate element is in the pool, so an empty candidate list is always contained |
| InformationBundler.Associate | packages/template-level-subs-cache/information-bundler.js:126-151 | An undeclared bundle fails with undeclared-info-bundle-name. Otherwise the association is appended at the end of that bundle's list and nothing else changes |
| InformationBundler.RepeatedSubNameNeverFires | packages/template-level-subs-cache/information-bundler.js:125-137 | Under the registry invariant an association succeeds exactly when the bundle is declared, so the repeated-sub-name check never fires |
| InformationBundler.SubscriptionsUsed | packages/template-level-subs-cache/information-bundler.js:153-169 | Fails exactly when a requested name is undeclared, with the same error. Otherwise it is the concatenation of the requested bundles' associations |
| InformationBundler.AssociationsOfAppend | packages/template-level-subs-cache/information-bundler.js:153-169 | The associations of a concatenation of name lists are the concatenation of the associations, so the requested-name order is kept |
| InformationBundler.AssociationsOfMembers | packages/template-level-subs-cache/information-bundler.js:153-169 | An association is in the result exactly when it belongs to some requested bundle's list |
| InformationBundler.HelpersUsed | packages/template-level-subs-cache/information-bundler.js:171-202 | Fails exactly when a requested name is undeclared. Otherwise it is the union, later tables winning, of the requested basic bundles in order, then of every supplementary bundle whose required names are all requested, in insertion order |
| InformationBundler.UnionAllKeys | packages/template-level-subs-cache/information-bundler.js:171-202 | A helper name is in the union exactly when some table holds it |
| InformationBundler.UnionAllLastWins | packages/template-level-subs-cache/information-bundler.js:171-202 | In the union, a name takes its value from the last table that holds it |
| InformationBundler.ApplicableTablesMembers | packages/template-level-subs-cache/information-bundler.js:185-195 | A supplementary bundle contributes its helpers exactly when all its required names are requested |
| InformationBundler.GeneralBundleAlwaysIncluded | packages/template-level-subs-cache/information-bundler.js:99-104 | The helpers of a general bundle appear in every helpersUsed result |
| InformationBundler.SupplementaryWinsOverBasic | packages/template-level-subs-cache/information-bundler.js:171-202 | On a name clash between a requested basic bundle and an applicable supplementary bundle, the supplementary helper is the one in the result |
| InformationBundler.LastWriterWins | packages/template-level-subs-cache/information-bundler.js:55-60 | After any successful sequence of basic and supplementary adds, the pool is the original pool overwritten by each add's helpers in order, so getHelper returns the most recently added helper of that name |
| InformationBundler.AddSupplementaryPreservesInv | packages/template-level-subs-cache/information-bundler.js:71-97 | Adding a supplementary bundle keeps every supplementary bundle's required names declared |
| InformationBundler.AssociatePreservesInv | packages/template-level-subs-cache/information-bundler.js:126-151 | Associating keeps the list of used subscription names empty and the required names declared |
| Common.EvaluateDependsOnlyOnReadKeys | packages/template-level-subs-cache/client/create-cached-subscription-instance.js:82 | Evaluating a slot's argument specs in two environments that agree on the keys the specs read gives the same arguments |

## Left out

- Tracker scheduling is replaced by explicit events whose order is left free: `autorun` re-execution, `Tracker.flush` and `nonreactive`, `setTimeout`, promise resolution and `sub.ready()` reactivity. A re-run event carries an environment from which the arguments are evaluated.
- `SubsCache` and `Meteor.subscribe` internals, and TTL expiry, are external. A cache handle is reduced to its readiness. A cache call is an effect that records the index, the TTL and the arguments.
- Blaze view walking is left out. `Readiness.TemplateAncestors` filters a given sequence of parent views, and ancestors' readiness is a function parameter.
- The template-level `subscriptionsReady` and `DefaultSubscriptions.allReady()` are plain boolean inputs, because they are Meteor's own reactive sources.
- Logging, `DEBUG_MODE` and the per-template instance counter are left out. They are used only in log lines.
- `prepareTemplates`, `whenAllSubsReady`, the template `helpers` registrations and the global `allSubsReady` helper are left out. They are Blaze wiring around the modelled queries.
- The callback bodies of the hooks are not modelled. Each hook is an option flag, and a call of it is a trace effect.
- Option defaulting in the inline version is not modelled. `InlineCache` takes its options already defaulted. The inline table at lines 48-56 of `template-level-subs-cache.js` shares its keys with the table `Binder.WithDefaults` models and agrees on them. It has no `replaceSubscriptionsReady`, `replaceSubscriptionsReady_checkOnAllAncestors` or `argValidityPredicate` entry, and the inline machine uses none of them.
- A `stopSub` or `restartSub` called by user code is modelled as called outside any computation. Its inline teardown wait then belongs to no computation and runs until its handle is ready.
- The inline readiness watcher is a plain autorun created in a `setTimeout`, so the destroy does not stop it. A client readiness watcher created after the destroy, by a deferred step that runs late, is not stopped either, as in Blaze.
- A thrown error ends the operation as a `Fault`, and writes made before the throw are not kept. The one exception is the inline duplicate registration, where the write before the throw is the point. Because of this, the client's `startSub` keeps no `started` flag for an unregistered slot.
- The client start hook retries with `setTimeout` when `instance.cachedSubscription` is missing and then dereferences it. The model ends with `Threw(MissingCachedInstance)` and does not model the retry.
- `argValidityPredicate` is applied to the evaluated arguments as a pure Dafny function. The predicate's `this` binding is left out.
- The bundle registry and the helper pool are plain objects (`information-bundler.js` lines 32 and 34), so a lookup by the name of an `Object.prototype` member (`constructor`, `toString`, `__proto__`) finds an inherited value. The model treats such names as absent. So `InformationBundler.CheckBundleNames` rejects a name the program accepts, and `InformationBundler.GetHelper` returns nothing where the program returns the inherited function. `InformationBundler.Associate` and `InformationBundler.SubscriptionsUsed` report an undeclared name where the program goes on to a `TypeError`: for `constructor` it calls `push` or `forEach` on the inherited function. `InformationBundler.HelpersUsed` reports one where the program iterates the inherited value.
- In the bundler, `knownExtension` only logs a warning, so it is left out. `_.extend` with `undefined` values and the aliasing of the stored helper objects with the caller's objects are not modelled. Helpers are values.
- The server files, index creation and listing, default-subscription startup wrappers, packaging and examples are not part of this model.
- The client `startSub` reads the slot's options when it is called, while `CachedSubscription.CompleteDeferred` reads them when the deferred step runs. The two agree, because client registration never changes the options of a registered slot.
- On an argument change the client `stopSub` queues the old record's teardown on that record's start promise (`client/create-cached-subscription-instance.js` line 209). So the new record's `beforeStart` is emitted before the old record's `afterStop`. The model follows this order (`CachedSubscription.Rerun`).
- InformationBundler.AddGeneral: states the appended bundle but not the pool update, which is stated by `InformationBundler.LastWriterWins` for basic and supplementary adds only; a general add is a supplementary add with no names.

## Findings

| source | as written | input that shows it | evidently intended | confidence | as-written member | corrected member |
|---|---|---|---|---|---|---|
| packages/template-level-subs-cache/template-level-subs-cache.js:211-250 | The teardown block of `stopSub` appears twice inside the same `if (sub.ready())` branch | Any stop of a ready record with `afterStop` set: the handle is stopped twice and `afterStop` is called twice | One teardown: the handle stopped once and `afterStop` called once | high, not executed | InlineCache.TeardownEffectsAsWritten | InlineCache.TeardownEffects |
| packages/template-level-subs-cache/template-level-subs-cache.js:257-265 | `restartSub` calls `stopSub` and schedules `startSub` at once | Restart of a slot whose handle is not yet ready: the teardown waits, `started` is still true when the scheduled `startSub` runs, and it throws sub-already-started | The start runs after the teardown, as the later copies chain it on the stop's promise | high, not executed | InlineCacheProps.RestartAsWrittenRacesTeardown | InlineCacheProps.RestartResumesAfterTeardown |
| packages/template-level-subs-cache/template-level-subs-cache.js:113-140 | A re-run's `stopSub(id, false)` waits for the old handle in a `Tracker.autorun` created inside the driving computation. The issue step's `set(id, newIdx)` invalidates that computation, which stops the wait | Change the args while the old handle is unready, run the issue step, then let the old handle become ready: it is never stopped, `afterStop` never fires and `started` stays true | The old record is torn down once it is ready, as the client copy does by chaining the stop on the old record's start promise | medium, not executed | InlineCacheProps.RerunTeardownDiesWithIssue | CachedSubscriptionProps.ArgChangeStopSurvivesReissue |
| packages/template-level-subs-cache/template-level-subs-cache.js:354-365 | Destroy calls `stopSub` when `startSubCalled` is set, but the record is only stored by the deferred issue step | Destroy after the start hook and before the deferred issue: `stopSub` throws no-started-sub-with-id, the issue still runs, and its subscription is never stopped | The record exists as soon as `startSub` returns, as in the client copy, so destroy stops it | medium, not executed | InlineCacheProps.DestroyBeforeIssueThrows | Binder.DestroyAfterStartStops |
| packages/template-level-subs-cache/template-level-subs-cache.js:308-321 | Registration writes `allowStartSubCall`, `startSubCalled` and the options before the duplicate check throws | A second registration of an id already started: its options replace the first ones and `startSubCalled` becomes false, so destroy does not stop the running subscription | A duplicate is rejected before anything is written, as the client copy's exclusion does | low, not executed | InlineCacheProps.DuplicateRegistrationOverwrites | InlineCache.Register |
