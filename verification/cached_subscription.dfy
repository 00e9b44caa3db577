/**
 The per-template-instance cached-subscription state machine
 (`createCachedSubscriptionInstance`): slot bookkeeping, start with a
 synchronous first run, re-runs with freshly evaluated arguments, the deferred
 "actual subscription" step, handle readiness, stop continuations that wait on
 the start promise, and restart.

 Reactive re-runs, the `setTimeout` callback, handle readiness changes and
 promise continuations are explicit events; an event that the runtime cannot
 deliver in a state yields `None`.
 */
module CachedSubscription {
  import opened Common

  /** The subscription handle of a record: not yet created (the `null` handle
      stored before the deferred subscribe), a handle from the cache with its
      current readiness, or the always-ready handle used for invalid args. */
  datatype Handle = Pending | Real(ready: bool) | Fake

  /** One issued record (`csRecord`), stored under its index. `proceed` is
      the value `argValidityPredicate` returned when the record was issued. */
  datatype SubRecord = SubRecord(
    slot: SlotId,
    args: seq<Value>,
    comp: nat,
    proceed: bool,
    handle: Handle,
    watcher: Watcher)

  /** A `stopSub` call waiting on the start promise of record `idx`;
      `thenRestart` marks the stop issued by `restartSub`. */
  datatype StopRequest = StopRequest(slot: SlotId, idx: nat, stopComputation: bool, thenRestart: bool)

  /** The cached-subscription object of one template instance. */
  datatype Instance = Instance(
    slots: seq<SlotId>,                    // __cachedSubscriptionList
    argSpecs: map<SlotId, seq<ArgSpec>>,   // __cachedSubscriptionArgs
    options: map<SlotId, SlotOptions>,     // __options
    started: map<SlotId, bool>,            // __cachedSubscriptionStarted
    allowStart: map<SlotId, bool>,         // __allowStartSubCall
    startCalled: map<SlotId, bool>,        // __startSubCalled
    counter: nat,                          // __cachedSubscriptionIdx
    version: nat,                          // __cachedSubscriptionsAllReady
    current: map<SlotId, nat>,             // __cachedSubscriptionId
    records: map<nat, SubRecord>,          // __cachedSubscription
    cells: map<nat, bool>,                 // __cachedSubscriptionReady
    comps: seq<Computation>,               // driving computations, by creation order
    stops: seq<StopRequest>,               // pending stopSub continuations
    restarts: seq<SlotId>,                 // pending restartSub continuations
    cacheExpireAfter: Option<int>,         // the cache-level `expireAfter`, when a number
    ancestors: seq<nat>)                   // ancestor template instances, captured at creation

  datatype Outcome = Done(next: Instance, effects: seq<Effect>) | Fault(error: Error)

  predicate IsStarted(s: Instance, id: SlotId) {
    Flag(s.started, id)
  }

  predicate Registered(s: Instance, id: SlotId) {
    id in s.argSpecs && id in s.options
  }

  predicate LiveComputation(s: Instance, comp: nat) {
    comp < |s.comps| && !s.comps[comp].stopped
  }

  /** Well-formedness every reachable instance keeps. */
  ghost predicate RecordOk(s: Instance, i: nat)
    requires i in s.records
  {
    var r := s.records[i];
    && r.comp < |s.comps| && s.comps[r.comp].slot == r.slot
    && Registered(s, r.slot)
    && (r.handle.Pending? <==> r.watcher.Unset?)
    && (r.handle.Fake? ==> !r.proceed)
    && (r.handle.Real? ==> r.proceed)
    && (i in s.cells && r.watcher.Watching? ==> r.handle == Real(false) && !s.cells[i])
    && (i in s.cells && s.cells[i] ==> r.handle.Fake? || r.handle == Real(true))
  }

  /** Indices: records and readiness cells share their keys, all at most
      the counter; the version cell holds the last index (1 before any). */
  ghost predicate IndexOk(s: Instance) {
    && s.version == (if s.counter == 0 then 1 else s.counter)
    && s.records.Keys == s.cells.Keys
    && (forall i :: i in s.records ==> 1 <= i <= s.counter)
  }

  /** Registration: one list entry, argument spec and options per slot. */
  ghost predicate RegistryOk(s: Instance) {
    && s.argSpecs.Keys == s.options.Keys
    && (forall id :: id in s.slots <==> id in s.argSpecs)
    && (forall i, j :: 0 <= i < j < |s.slots| ==> s.slots[i] != s.slots[j])
  }

  /** Every mapped index holds a record of that slot. */
  ghost predicate CurrentOk(s: Instance) {
    forall id :: id in s.current ==> s.current[id] in s.records && s.records[s.current[id]].slot == id
  }

  ghost predicate RecordsOk(s: Instance) {
    forall i :: i in s.records ==> RecordOk(s, i)
  }

  /** Computations, pending stops and the flags refer to issued slots. */
  ghost predicate LinksOk(s: Instance) {
    && (forall c :: 0 <= c < |s.comps| ==> s.comps[c].slot in s.current)
    && (forall k :: 0 <= k < |s.stops| ==>
          s.stops[k].idx in s.records && s.records[s.stops[k].idx].slot == s.stops[k].slot)
    && (forall id :: IsStarted(s, id) ==> id in s.current)
    && (forall id :: Flag(s.startCalled, id) ==> id in s.current)
  }

  ghost predicate Inv(s: Instance) {
    IndexOk(s) && RegistryOk(s) && CurrentOk(s) && RecordsOk(s) && LinksOk(s)
  }

  /** A fresh instance: no slots, index counter 0, version cell 1. */
  function Create(cacheExpireAfter: Option<int>, ancestors: seq<nat>): (s: Instance)
    ensures Inv(s)
    ensures s.counter == 0 && s.version == 1 && s.slots == []
    ensures forall id :: !IsStarted(s, id) && SubInfo(s, id).None?
  {
    Instance([], map[], map[], map[], map[], map[], 0, 1, map[], map[], map[], [], [], [],
             cacheExpireAfter, ancestors)
  }

  /** `getSubInfo(id)`: the record under the slot's current index. */
  function SubInfo(s: Instance, id: SlotId): (r: Option<SubRecord>)
    ensures r.Some? <==> id in s.current && s.current[id] in s.records
    ensures r.Some? ==> r.value == s.records[s.current[id]]
  {
    if id in s.current && s.current[id] in s.records then Some(s.records[s.current[id]]) else None
  }

  /** The record issued for slot `id` by computation `comp` with `args` is the
      slot's fresh current record, and nothing issued before changed. */
  predicate IssuedFresh(s: Instance, s': Instance, id: SlotId, comp: nat, args: seq<Value>) {
    var idx := s.counter + 1;
    && s'.counter == idx
    && s'.version == idx
    && s'.current == s.current[id := idx]
    && idx in s'.records && idx in s'.cells
    && s'.records[idx].slot == id && s'.records[idx].args == args && s'.records[idx].comp == comp
    && s'.records[idx].handle == Pending && s'.records[idx].watcher == Unset
    && !s'.cells[idx]
    && (forall i :: i in s.records && i != idx ==> i in s'.records && s'.records[i] == s.records[i])
    && (forall i :: i in s.cells && i != idx ==> i in s'.cells && s'.cells[i] == s.cells[i])
  }

  /** The issue step of a run: validity check, `beforeStart` (valid args
      only), next index, index mapping, version cell, readiness cell seeded
      false, and the record stored with a `null` handle before any subscribe. */
  function Issue(s: Instance, id: SlotId, comp: nat, args: seq<Value>): (o: Outcome)
    requires id in s.options
    ensures o.Done? && IssuedFresh(s, o.next, id, comp, args)
    ensures o.next.records[o.next.counter].proceed == s.options[id].argValidityPredicate(args)
    ensures o.next.slots == s.slots && o.next.options == s.options && o.next.argSpecs == s.argSpecs
    ensures o.next.started == s.started && o.next.comps == s.comps && o.next.stops == s.stops
    ensures o.next.restarts == s.restarts && o.next.startCalled == s.startCalled
    ensures o.effects == if o.next.records[o.next.counter].proceed && s.options[id].beforeStart
                         then [BeforeStart(id, args)] else []
  {
    var opts := s.options[id];
    var proceed := opts.argValidityPredicate(args);
    var idx := s.counter + 1;
    Done(s.(counter := idx,
            current := s.current[id := idx],
            version := idx,
            cells := s.cells[idx := false],
            records := s.records[idx := SubRecord(id, args, comp, proceed, Pending, Unset)]),
         if proceed && opts.beforeStart then [BeforeStart(id, args)] else [])
  }

  /** `startSub(id)`: refuse a started slot, set the flag, create the driving
      computation and run it once with the arguments evaluated in `env`. */
  function StartSub(s: Instance, id: SlotId, env: Env): (o: Outcome)
    ensures IsStarted(s, id) ==> o == Fault(SubAlreadyStarted(id))
    ensures !IsStarted(s, id) && !Registered(s, id) ==> o == Fault(UnregisteredSlot(id))
    ensures !IsStarted(s, id) && Registered(s, id) ==>
      && o.Done?
      && IsStarted(o.next, id)
      && o.next.comps == s.comps + [Computation(id, false)]
      && IssuedFresh(s, o.next, id, |s.comps|, Evaluate(s.argSpecs[id], env))
      && o.next.stops == s.stops && o.next.restarts == s.restarts
  {
    if IsStarted(s, id) then Fault(SubAlreadyStarted(id))
    else if !Registered(s, id) then Fault(UnregisteredSlot(id))
    else
      var s1 := s.(started := s.started[id := true], comps := s.comps + [Computation(id, false)]);
      Issue(s1, id, |s.comps|, Evaluate(s.argSpecs[id], env))
  }

  /** The stop request a `stopSub` call queues on the current record. */
  function Enqueue(s: Instance, id: SlotId, stopComputation: bool, thenRestart: bool): (o: Outcome)
    ensures SubInfo(s, id).None? ==> o == Fault(NoStartedSub(id))
    ensures SubInfo(s, id).Some? ==>
      o == Done(s.(stops := s.stops + [StopRequest(id, s.current[id], stopComputation, thenRestart)]), [])
  {
    if SubInfo(s, id).None? then Fault(NoStartedSub(id))
    else Done(s.(stops := s.stops + [StopRequest(id, s.current[id], stopComputation, thenRestart)]), [])
  }

  /** `stopSub(id, stopOverallComputation)`: without a record the returned
      promise rejects; otherwise the teardown is chained on the record's
      start promise and nothing happens yet. */
  function StopSub(s: Instance, id: SlotId, stopComputation: bool): (o: Outcome)
    ensures SubInfo(s, id).None? <==> o == Fault(NoStartedSub(id))
    ensures o.Done? ==> o.effects == [] && o.next.records == s.records && o.next.current == s.current
    ensures o.Done? ==> o.next.stops == s.stops + [StopRequest(id, s.current[id], stopComputation, false)]
  {
    Enqueue(s, id, stopComputation, false)
  }

  /** `restartSub(id)`: `stopSub(id)` with `startSub(id)` chained after the
      stop has completed. */
  function RestartSub(s: Instance, id: SlotId): (o: Outcome)
    ensures SubInfo(s, id).None? <==> o == Fault(NoStartedSub(id))
    ensures o.Done? ==> o.effects == [] && o.next.started == s.started
    ensures o.Done? ==> o.next.stops == s.stops + [StopRequest(id, s.current[id], true, true)]
  {
    Enqueue(s, id, true, true)
  }

  /** A re-run of driving computation `comp` with the arguments evaluated in
      `env`: equal arguments are a no-op; changed arguments queue a stop of
      the current record (keeping the computation) and issue a new record. */
  function Rerun(s: Instance, comp: nat, env: Env): (r: Option<Outcome>)
    ensures r.None? <==> !LiveComputation(s, comp)
    ensures LiveComputation(s, comp) && Registered(s, s.comps[comp].slot) ==>
      var id := s.comps[comp].slot;
      var args := Evaluate(s.argSpecs[id], env);
      && (SubInfo(s, id).None? ==> r == Some(Fault(MissingSubInfo(id))))
      && (SubInfo(s, id).Some? && SubInfo(s, id).value.args == args ==> r == Some(Done(s, [])))
      && (SubInfo(s, id).Some? && SubInfo(s, id).value.args != args ==>
            && r.Some? && r.value.Done?
            && r.value.next.stops == s.stops + [StopRequest(id, s.current[id], false, false)]
            && IssuedFresh(s, r.value.next, id, comp, args)
            && r.value.next.started == s.started && r.value.next.comps == s.comps
            && forall e :: e in r.value.effects ==> e == BeforeStart(id, args))
  {
    if !LiveComputation(s, comp) then None
    else
      var id := s.comps[comp].slot;
      if !Registered(s, id) then Some(Fault(UnregisteredSlot(id)))
      else
        var args := Evaluate(s.argSpecs[id], env);
        match SubInfo(s, id)
        case None => Some(Fault(MissingSubInfo(id)))
        case Some(rec) =>
          if rec.args == args then Some(Done(s, []))
          else
            var s1 := s.(stops := s.stops + [StopRequest(id, s.current[id], false, false)]);
            Some(Issue(s1, id, comp, args))
  }

  /** The cache call of the deferred step: `subscribeFor` with the TTL
      prepended when the cache-level `expireAfter` is a number, `subscribe`
      otherwise. */
  function CacheCall(expireAfter: Option<int>, idx: nat, args: seq<Value>): (e: Effect)
    ensures e.Subscribe? || e.SubscribeFor?
    ensures e.idx == idx && e.args == args
    ensures e.SubscribeFor? <==> expireAfter.Some?
    ensures e.SubscribeFor? ==> e.ttl == expireAfter.value
  {
    match expireAfter
    case Some(ttl) => SubscribeFor(idx, ttl, args)
    case None => Subscribe(idx, args)
  }

  predicate DeferredEnabled(s: Instance, idx: nat) {
    idx in s.records && s.records[idx].handle.Pending? && s.records[idx].slot in s.options
  }

  /** `doActualSubscription` of record `idx`: subscribe (or install the fake
      handle), start the readiness watcher, which fires at once when the
      handle is already ready, then `afterStart` for valid args. `readyNow`
      is the readiness of the handle the cache returns. */
  function CompleteDeferred(s: Instance, idx: nat, readyNow: bool): (r: Option<Outcome>)
    ensures r.Some? <==> DeferredEnabled(s, idx)
    ensures r.Some? ==> r.value.Done?
    ensures r.Some? ==>
      var rec := s.records[idx];
      var opts := s.options[rec.slot];
      var s' := r.value.next;
      && r.value.Done?
      && s'.current == s.current && s'.started == s.started && s'.stops == s.stops
      && s'.comps == s.comps && s'.options == s.options
      && idx in s'.records
      && s'.records[idx] == rec.(handle := s'.records[idx].handle, watcher := s'.records[idx].watcher)
      && (forall i :: i in s.records && i != idx ==> i in s'.records && s'.records[i] == s.records[i])
      && (rec.proceed ==>
            && s'.records[idx].handle == Real(readyNow)
            && r.value.effects ==
                 [CacheCall(s.cacheExpireAfter, idx, rec.args)]
                 + (if readyNow && opts.onReady then [OnReady(rec.slot, rec.args)] else [])
                 + (if opts.afterStart then [AfterStart(rec.slot, rec.args)] else []))
      && (!rec.proceed ==>
            && s'.records[idx].handle == Fake
            && idx in s'.cells && s'.cells[idx]
            && r.value.effects == if opts.onReady then [OnReady(rec.slot, rec.args)] else [])
  {
    if !DeferredEnabled(s, idx) then None
    else
      var rec := s.records[idx];
      var opts := s.options[rec.slot];
      var handle := if rec.proceed then Real(readyNow) else Fake;
      var readyAtOnce := !rec.proceed || readyNow;
      var subscribeFx := if rec.proceed then [CacheCall(s.cacheExpireAfter, idx, rec.args)] else [];
      var readyFx := if readyAtOnce && opts.onReady then [OnReady(rec.slot, rec.args)] else [];
      var afterFx := if rec.proceed && opts.afterStart then [AfterStart(rec.slot, rec.args)] else [];
      Some(Done(s.(records := s.records[idx := rec.(handle := handle,
                                                    watcher := if readyAtOnce then Stopped else Watching)],
                   cells := if readyAtOnce then s.cells[idx := true] else s.cells),
                subscribeFx + readyFx + afterFx))
  }

  predicate ReadyEnabled(s: Instance, idx: nat) {
    idx in s.records && s.records[idx].handle == Real(false) && s.records[idx].slot in s.options
  }

  /** The cache handle of record `idx` reports ready; a watcher that is still
      running sets the readiness cell, calls `onReady` and stops itself. */
  function HandleReady(s: Instance, idx: nat): (r: Option<Outcome>)
    ensures r.Some? <==> ReadyEnabled(s, idx)
    ensures r.Some? ==>
      var rec := s.records[idx];
      && r.value.Done?
      && idx in r.value.next.records && r.value.next.records[idx].handle == Real(true)
      && r.value.next.current == s.current && r.value.next.started == s.started
      && (rec.watcher.Watching? ==>
            && idx in r.value.next.cells && r.value.next.cells[idx]
            && r.value.effects == if s.options[rec.slot].onReady then [OnReady(rec.slot, rec.args)] else [])
      && (!rec.watcher.Watching? ==> r.value.effects == [] && r.value.next.cells == s.cells)
  {
    if !ReadyEnabled(s, idx) then None
    else
      var rec := s.records[idx];
      if rec.watcher.Watching? then
        Some(Done(s.(records := s.records[idx := rec.(handle := Real(true), watcher := Stopped)],
                     cells := s.cells[idx := true]),
                  if s.options[rec.slot].onReady then [OnReady(rec.slot, rec.args)] else []))
      else
        Some(Done(s.(records := s.records[idx := rec.(handle := Real(true))]), []))
  }

  /** A stop continuation can run once the start promise of its record has
      resolved, i.e. once the record's handle exists. */
  predicate StopEnabled(s: Instance, k: nat) {
    && k < |s.stops|
    && s.stops[k].idx in s.records
    && !s.records[s.stops[k].idx].handle.Pending?
    && s.stops[k].slot in s.options
    && s.records[s.stops[k].idx].comp < |s.comps|
  }

  /** The teardown effects of one stop: hooks only for a non-fake handle,
      the handle stop, and the driving computation stop when asked for and
      not already stopped. */
  function TeardownEffects(s: Instance, req: StopRequest, rec: SubRecord, stopComp: bool): (fx: seq<Effect>)
    requires req.slot in s.options
    ensures Count(fx, StopHandle(req.idx)) == 1
    ensures rec.handle.Fake? ==> forall e :: e in fx ==> e.StopHandle? || e.StopComputation?
    ensures StopComputation(rec.comp) in fx <==> stopComp
  {
    var opts := s.options[req.slot];
    var fake := rec.handle.Fake?;
    var before := if !fake && opts.beforeStop then [BeforeStop(req.slot, rec.args)] else [];
    var compFx := if stopComp then [StopComputation(rec.comp)] else [];
    var after := if !fake && opts.afterStop then [AfterStop(req.slot, rec.args)] else [];
    CountAppend(before, [StopHandle(req.idx)], StopHandle(req.idx));
    CountAppend(before + [StopHandle(req.idx)], compFx, StopHandle(req.idx));
    CountAppend(before + [StopHandle(req.idx)] + compFx, after, StopHandle(req.idx));
    before + [StopHandle(req.idx)] + compFx + after
  }

  /** Runs the k-th pending stop continuation (`stopSubAfterStartCompletes`):
      teardown effects, the readiness watcher stopped, the slot's `started`
      flag cleared, and for a restart the chained `startSub` queued. The
      index mapping, records and readiness cells are left in place. */
  function CompleteStop(s: Instance, k: nat): (r: Option<Outcome>)
    ensures r.Some? <==> StopEnabled(s, k)
    ensures r.Some? ==> r.value.Done?
    ensures r.Some? ==>
      var req := s.stops[k];
      var rec := s.records[req.idx];
      var s' := r.value.next;
      && r.value.Done?
      && !rec.handle.Pending?
      && !IsStarted(s', req.slot)
      && s'.current == s.current && s'.cells == s.cells && s'.records.Keys == s.records.Keys
      && s'.records[req.idx] == rec.(watcher := if rec.watcher.Watching? then Stopped else rec.watcher)
      && (forall i :: i in s.records && i != req.idx ==> s'.records[i] == s.records[i])
      && s'.stops == RemoveAt(s.stops, k)
      && s'.restarts == (if req.thenRestart then s.restarts + [req.slot] else s.restarts)
      && Count(r.value.effects, StopHandle(req.idx)) == 1
      && (StopComputation(rec.comp) in r.value.effects <==>
            req.stopComputation && !s.comps[rec.comp].stopped)
      && (rec.handle.Fake? ==> forall e :: e in r.value.effects ==> e.StopHandle? || e.StopComputation?)
  {
    if !StopEnabled(s, k) then None
    else
      var req := s.stops[k];
      var rec := s.records[req.idx];
      var stopComp := req.stopComputation && !s.comps[rec.comp].stopped;
      var comps := if stopComp then s.comps[rec.comp := s.comps[rec.comp].(stopped := true)] else s.comps;
      var rec' := rec.(watcher := if rec.watcher.Watching? then Stopped else rec.watcher);
      Some(Done(s.(records := s.records[req.idx := rec'],
                   comps := comps,
                   started := s.started[req.slot := false],
                   stops := RemoveAt(s.stops, k),
                   restarts := if req.thenRestart then s.restarts + [req.slot] else s.restarts),
                TeardownEffects(s, req, rec, stopComp)))
  }

  /** The continuation of `restartSub` after its stop completed: `startSub`
      with arguments evaluated in `env`. */
  function ResumeRestart(s: Instance, k: nat, env: Env): (r: Option<Outcome>)
    ensures r.Some? <==> k < |s.restarts|
    ensures r.Some? ==> r.value == StartSub(s.(restarts := RemoveAt(s.restarts, k)), s.restarts[k], env)
  {
    if k >= |s.restarts| then None
    else Some(StartSub(s.(restarts := RemoveAt(s.restarts, k)), s.restarts[k], env))
  }

  /** Readiness of one slot (`cachedSubReady`): false when no index is
      mapped, otherwise the readiness cell of the current index. */
  function CachedSubReady(s: Instance, id: SlotId): (b: bool)
    ensures b ==> id in s.current && s.current[id] in s.cells && s.cells[s.current[id]]
    ensures id in s.current && s.current[id] in s.cells && s.cells[s.current[id]] ==> b
  {
    if id in s.current && s.current[id] in s.cells then s.cells[s.current[id]] else false
  }

  /** Events of the machine. */
  datatype Event =
    | StartEv(id: SlotId, env: Env)
    | RerunEv(comp: nat, env: Env)
    | DeferredEv(idx: nat, readyNow: bool)
    | ReadyEv(idx: nat)
    | StopEv(id: SlotId, stopComputation: bool)
    | StopSettledEv(k: nat)
    | RestartEv(id: SlotId)
    | RestartResumedEv(k: nat, env: Env)

  function Step(s: Instance, e: Event): Option<Outcome> {
    match e
    case StartEv(id, env) => Some(StartSub(s, id, env))
    case RerunEv(comp, env) => Rerun(s, comp, env)
    case DeferredEv(idx, readyNow) => CompleteDeferred(s, idx, readyNow)
    case ReadyEv(idx) => HandleReady(s, idx)
    case StopEv(id, stopComputation) => Some(StopSub(s, id, stopComputation))
    case StopSettledEv(k) => CompleteStop(s, k)
    case RestartEv(id) => Some(RestartSub(s, id))
    case RestartResumedEv(k, env) => ResumeRestart(s, k, env)
  }
}
