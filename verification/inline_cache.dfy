/**
 The oldest, inline version of the cached-subscription machine and its
 binder (the body of `prepareCachedSubscription` in the package-level
 `template-level-subs-cache.js`).

 It differs from the later machine in these ways:
 - the index counter starts at 1, so the first record gets index 2;
 - the whole issue step (the index, the record and the subscribe) runs in a
   deferred callback, and so does the creation of the readiness watcher;
 - there is no argument-validity predicate and no fake handle;
 - `stopSub` calls `beforeStop` at once and tears down only once the handle
   reports ready;
 - the registration writes the flags and options before it checks for a
   duplicate id.

 Where that code is evidently wrong, this module keeps an as-written
 definition next to the corrected one that its `Step` uses:
 - `TeardownEffectsAsWritten` runs the teardown block twice;
 - `RestartSubAsWritten` schedules the new start without waiting for the stop;
 - `RegisterAsWritten` overwrites the options before it throws.
 */
module InlineCache {
  import opened Common
  import CachedSubscription
  import Readiness

  /** The options of one registration after defaulting. */
  datatype InlineOptions = InlineOptions(
    startOnCreated: bool,
    expireAfter: Option<int>,
    beforeStart: bool,
    afterStart: bool,
    onReady: bool,
    beforeStop: bool,
    afterStop: bool)

  /** A driving computation. `opts` holds the slot's options as `startSub`
      read them; its callbacks use those options. */
  datatype Driver = Driver(slot: SlotId, stopped: bool, opts: InlineOptions)

  /** One issued record: the handle comes from the cache together with the
      record, so only its readiness is tracked. */
  datatype Record = Record(
    slot: SlotId,
    args: seq<Value>,
    comp: nat,
    opts: InlineOptions,
    ready: bool,
    watcher: Watcher)

  /** A scheduled `startSubscriptionRoutine` callback. */
  datatype PendingIssue = PendingIssue(slot: SlotId, comp: nat, args: seq<Value>, opts: InlineOptions)

  /** A stop whose teardown autorun waits for the handle of record `idx` to
      be ready. `thenRestart` marks a corrected `restartSub`, whose start runs
      after the teardown. `owner` is the driving computation whose re-run
      called `stopSub`: the autorun is then its child, and Tracker stops it
      when that computation is invalidated or stopped. */
  datatype TeardownWait = TeardownWait(
    slot: SlotId,
    idx: nat,
    stopComputation: bool,
    opts: InlineOptions,
    thenRestart: bool,
    owner: Option<nat>)

  /** Which child teardown autoruns Tracker stops: those of one driving
      computation, those of the computations that read the index of `slot`,
      or those of every driving computation. */
  datatype Stopping = OwnedBy(comp: nat) | OwnedInSlot(slot: SlotId) | AllOwned

  predicate Dies(w: TeardownWait, how: Stopping) {
    && w.owner.Some?
    && match how
       case OwnedBy(c) => w.owner.value == c
       case OwnedInSlot(id) => w.slot == id
       case AllOwned => true
  }

  /** The waiting teardowns left once the computations `how` names are
      invalidated, in their original order. */
  function Surviving(ts: seq<TeardownWait>, how: Stopping): (r: seq<TeardownWait>)
    ensures forall w :: w in r <==> w in ts && !Dies(w, how)
    ensures |r| <= |ts|
    ensures (forall w :: w in ts ==> !Dies(w, how)) ==> r == ts
  {
    if ts == [] then []
    else if Dies(ts[0], how) then Surviving(ts[1..], how)
    else [ts[0]] + Surviving(ts[1..], how)
  }

  datatype Instance = Instance(
    slots: seq<SlotId>,
    argSpecs: map<SlotId, seq<ArgSpec>>,
    options: map<SlotId, InlineOptions>,
    started: map<SlotId, bool>,
    allowStart: map<SlotId, bool>,
    startCalled: map<SlotId, bool>,
    counter: nat,
    version: nat,
    current: map<SlotId, nat>,
    records: map<nat, Record>,
    cells: map<nat, bool>,
    drivers: seq<Driver>,
    issues: seq<PendingIssue>,
    teardowns: seq<TeardownWait>,
    restarts: seq<SlotId>,
    cacheExpireAfter: Option<int>)

  datatype Outcome = Done(next: Instance, effects: seq<Effect>) | Fault(error: Error)

  predicate IsStarted(s: Instance, id: SlotId) {
    Flag(s.started, id)
  }

  predicate Registered(s: Instance, id: SlotId) {
    id in s.argSpecs && id in s.options
  }

  /** Well-formedness of every reachable instance. Indices are issued from
      2 upwards. The version cell holds the counter. A readiness cell is true
      only for a ready handle. A running watcher waits on a handle that is
      not ready. Every waiting teardown satisfies `WaitOk`. */
  ghost predicate Inv(s: Instance) {
    && s.counter >= 1 && s.version == s.counter
    && s.records.Keys == s.cells.Keys
    && (forall i :: i in s.records ==> 2 <= i <= s.counter)
    && (forall id :: id in s.current ==> s.current[id] in s.records && s.records[s.current[id]].slot == id)
    && (forall w :: w in s.teardowns ==> WaitOk(s, w))
    && (forall i :: i in s.records && s.cells[i] ==> s.records[i].ready)
    && (forall i :: i in s.records && s.records[i].watcher.Watching? ==> !s.records[i].ready && !s.cells[i])
  }

  /** A waiting teardown refers to an issued record; one created by a
      re-run belongs to a running driving computation of its slot. */
  ghost predicate WaitOk(s: Instance, w: TeardownWait) {
    && w.idx in s.records
    && (w.owner.Some? ==>
          w.owner.value < |s.drivers| && !s.drivers[w.owner.value].stopped && s.drivers[w.owner.value].slot == w.slot)
  }

  /** A fresh cached-subscription object: the index counter is 1 and the
      version cell is 1. */
  function Create(cacheExpireAfter: Option<int>): (s: Instance)
    ensures Inv(s)
    ensures s.counter == 1 && s.version == 1 && s.slots == [] && s.records == map[]
  {
    Instance([], map[], map[], map[], map[], map[], 1, 1, map[], map[], map[], [], [], [], [], cacheExpireAfter)
  }

  /** `getSubInfo(id)`. */
  function SubInfo(s: Instance, id: SlotId): (r: Option<Record>)
    ensures r.Some? <==> id in s.current && s.current[id] in s.records
    ensures r.Some? ==> r.value == s.records[s.current[id]]
  {
    if id in s.current && s.current[id] in s.records then Some(s.records[s.current[id]]) else None
  }

  /** The registration hook as written. It writes the start permission, the
      not-yet-started mark and the options, and only then checks for a
      duplicate. A duplicate throws `id-already-exists` with those writes
      already made; `thrown` reports the throw. */
  datatype Registration = Registration(next: Instance, thrown: Option<Error>)

  function RegisterAsWritten(s: Instance, id: SlotId, spec: seq<ArgSpec>, o: InlineOptions): (r: Registration)
    ensures r.thrown.Some? <==> id in s.slots
    ensures r.thrown.Some? ==> r.thrown.value == IdAlreadyExists(id)
    ensures r.next.options == s.options[id := o]
    ensures Flag(r.next.allowStart, id) && !Flag(r.next.startCalled, id)
    ensures id in s.slots ==> r.next.slots == s.slots && r.next.argSpecs == s.argSpecs
    ensures id !in s.slots ==> r.next.slots == s.slots + [id] && r.next.argSpecs == s.argSpecs[id := spec]
    ensures r.next.records == s.records && r.next.current == s.current && r.next.started == s.started
  {
    var s1 := s.(allowStart := s.allowStart[id := true],
                 startCalled := s.startCalled[id := false],
                 options := s.options[id := o]);
    if id in s.slots then Registration(s1, Some(IdAlreadyExists(id)))
    else Registration(s1.(slots := s.slots + [id], argSpecs := s.argSpecs[id := spec]), None)
  }

  /** The registration hook with the duplicate check first: a duplicate
      throws and changes nothing. */
  function Register(s: Instance, id: SlotId, spec: seq<ArgSpec>, o: InlineOptions): (r: Outcome)
    ensures r.Fault? <==> id in s.slots
    ensures r.Fault? ==> r.error == IdAlreadyExists(id)
    ensures r.Done? ==>
      && r.effects == []
      && r.next.slots == s.slots + [id]
      && r.next.argSpecs == s.argSpecs[id := spec] && r.next.options == s.options[id := o]
      && Flag(r.next.allowStart, id) && !Flag(r.next.startCalled, id)
      && r.next.records == s.records && r.next.current == s.current && r.next.started == s.started
  {
    if id in s.slots then Fault(IdAlreadyExists(id))
    else
      var r := RegisterAsWritten(s, id, spec, o);
      Done(r.next, [])
  }

  /** `startSub(id)`: refuse a started slot, set the flag, create the
      driving computation and, on its first run, schedule the issue step
      with the arguments evaluated in `env`. Nothing is issued yet. */
  function StartSub(s: Instance, id: SlotId, env: Env): (o: Outcome)
    ensures IsStarted(s, id) ==> o == Fault(SubAlreadyStarted(id))
    ensures !IsStarted(s, id) && !Registered(s, id) ==> o == Fault(UnregisteredSlot(id))
    ensures !IsStarted(s, id) && Registered(s, id) ==>
      && o.Done? && o.effects == []
      && IsStarted(o.next, id)
      && o.next.drivers == s.drivers + [Driver(id, false, s.options[id])]
      && o.next.issues == s.issues + [PendingIssue(id, |s.drivers|, Evaluate(s.argSpecs[id], env), s.options[id])]
      && o.next.records == s.records && o.next.current == s.current && o.next.cells == s.cells
      && o.next.counter == s.counter && o.next.teardowns == s.teardowns
  {
    if IsStarted(s, id) then Fault(SubAlreadyStarted(id))
    else if !Registered(s, id) then Fault(UnregisteredSlot(id))
    else
      var opts := s.options[id];
      Done(s.(started := s.started[id := true],
              drivers := s.drivers + [Driver(id, false, opts)],
              issues := s.issues + [PendingIssue(id, |s.drivers|, Evaluate(s.argSpecs[id], env), opts)]),
           [])
  }

  /** One teardown block: stop the handle, stop the driving computation
      when asked and not already stopped, then `afterStop`. */
  function TeardownEffects(w: TeardownWait, rec: Record, stopComp: bool): (fx: seq<Effect>)
    ensures Count(fx, StopHandle(w.idx)) == 1
    ensures StopComputation(rec.comp) in fx <==> stopComp
    ensures Count(fx, AfterStop(w.slot, rec.args)) == if w.opts.afterStop then 1 else 0
    ensures |fx| >= 1 && fx[0] == StopHandle(w.idx)
  {
    var compFx := if stopComp then [StopComputation(rec.comp)] else [];
    var afterFx := if w.opts.afterStop then [AfterStop(w.slot, rec.args)] else [];
    CountAppend([StopHandle(w.idx)], compFx, StopHandle(w.idx));
    CountAppend([StopHandle(w.idx)] + compFx, afterFx, StopHandle(w.idx));
    CountAppend([StopHandle(w.idx)], compFx, AfterStop(w.slot, rec.args));
    CountAppend([StopHandle(w.idx)] + compFx, afterFx, AfterStop(w.slot, rec.args));
    [StopHandle(w.idx)] + compFx + afterFx
  }

  /** The teardown as written: the block appears twice. The second copy finds
      the driving computation already stopped (or not to be stopped), so it
      stops the handle and calls `afterStop` a second time. */
  function TeardownEffectsAsWritten(w: TeardownWait, rec: Record, stopComp: bool): (fx: seq<Effect>)
    ensures Count(fx, StopHandle(w.idx)) == 2
    ensures w.opts.afterStop ==> Count(fx, AfterStop(w.slot, rec.args)) == 2
    ensures Count(fx, StopComputation(rec.comp)) <= 1
  {
    var first := TeardownEffects(w, rec, stopComp);
    var second := TeardownEffects(w, rec, false);
    CountAppend(first, second, StopHandle(w.idx));
    CountAppend(first, second, AfterStop(w.slot, rec.args));
    CountAppend(first, second, StopComputation(rec.comp));
    CountSingleOccurrence(first, StopComputation(rec.comp));
    first + second
  }

  /** An effect list that holds `e` at most once by construction. */
  lemma {:induction false} CountSingleOccurrence(fx: seq<Effect>, e: Effect)
    requires forall i, j :: 0 <= i < j < |fx| && fx[i] == e ==> fx[j] != e
    ensures Count(fx, e) <= 1
  {
    if fx != [] {
      if fx[0] == e {
        assert forall j :: 0 <= j < |fx[1..]| ==> fx[1..][j] == fx[j + 1] && fx[j + 1] != e;
        assert e !in fx[1..];
      } else {
        assert forall i, j :: 0 <= i < j < |fx[1..]| ==> fx[1..][i] == fx[i + 1] && fx[1..][j] == fx[j + 1];
        CountSingleOccurrence(fx[1..], e);
      }
    }
  }

  /** Runs the teardown of `w` (corrected to a single block): the effects,
      the computation stop, which also stops the teardown autoruns that
      computation's re-runs created, the ready watcher stopped, the `started`
      flag cleared and, for a restart, the start scheduled. */
  function ApplyTeardown(s: Instance, w: TeardownWait): (o: Outcome)
    requires w.idx in s.records
    ensures o.Done?
    ensures !IsStarted(o.next, w.slot)
    ensures o.next.records.Keys == s.records.Keys && o.next.cells == s.cells && o.next.current == s.current
    ensures o.next.records[w.idx].ready == s.records[w.idx].ready
    ensures forall i :: i in s.records && i != w.idx ==> o.next.records[i] == s.records[i]
    ensures o.next.counter == s.counter && o.next.version == s.version
    ensures o.next.restarts == if w.thenRestart then s.restarts + [w.slot] else s.restarts
    ensures |o.next.drivers| == |s.drivers| && o.next.allowStart == s.allowStart
    ensures var stopComp := && w.stopComputation && s.records[w.idx].comp < |s.drivers|
                            && !s.drivers[s.records[w.idx].comp].stopped;
            && o.effects == TeardownEffects(w, s.records[w.idx], stopComp)
            && (stopComp ==> && o.next.drivers[s.records[w.idx].comp].stopped
                             && o.next.teardowns == Surviving(s.teardowns, OwnedBy(s.records[w.idx].comp)))
            && (!stopComp ==> o.next.drivers == s.drivers && o.next.teardowns == s.teardowns)
  {
    var rec := s.records[w.idx];
    var stopComp := w.stopComputation && rec.comp < |s.drivers| && !s.drivers[rec.comp].stopped;
    var drivers := if stopComp then s.drivers[rec.comp := s.drivers[rec.comp].(stopped := true)] else s.drivers;
    var teardowns := if stopComp then Surviving(s.teardowns, OwnedBy(rec.comp)) else s.teardowns;
    var rec' := rec.(watcher := if rec.watcher.Watching? then Stopped else rec.watcher);
    Done(s.(records := s.records[w.idx := rec'],
            drivers := drivers,
            teardowns := teardowns,
            started := s.started[w.slot := false],
            restarts := if w.thenRestart then s.restarts + [w.slot] else s.restarts),
         TeardownEffects(w, rec, stopComp))
  }

  /** A stop of the slot's current record: `beforeStop` at once, then the
      teardown autorun, which runs at once when the handle is already ready
      and otherwise waits for it. `owner` is the computation the call runs
      in, if any. Without a record the call throws. */
  function Stop(s: Instance, id: SlotId, stopComputation: bool, thenRestart: bool, owner: Option<nat>): (o: Outcome)
    ensures SubInfo(s, id).None? ==> o == Fault(NoStartedSub(id))
    ensures SubInfo(s, id).Some? && id !in s.options ==> o == Fault(UnregisteredSlot(id))
    ensures SubInfo(s, id).Some? && id in s.options ==>
      var rec := SubInfo(s, id).value;
      var w := TeardownWait(id, s.current[id], stopComputation, s.options[id], thenRestart, owner);
      var before := if s.options[id].beforeStop then [BeforeStop(id, rec.args)] else [];
      && o.Done?
      && |o.effects| >= |before| && o.effects[..|before|] == before
      && o.next.records.Keys == s.records.Keys && o.next.current == s.current && o.next.cells == s.cells
      && o.next.issues == s.issues && o.next.allowStart == s.allowStart
      && (rec.ready ==> o == Done(ApplyTeardown(s, w).next, before + ApplyTeardown(s, w).effects))
      && (!rec.ready ==> o == Done(s.(teardowns := s.teardowns + [w]), before))
  {
    match SubInfo(s, id)
    case None => Fault(NoStartedSub(id))
    case Some(rec) =>
      if id !in s.options then Fault(UnregisteredSlot(id))
      else
        var opts := s.options[id];
        var w := TeardownWait(id, s.current[id], stopComputation, opts, thenRestart, owner);
        var before := if opts.beforeStop then [BeforeStop(id, rec.args)] else [];
        if rec.ready then
          var t := ApplyTeardown(s, w);
          Done(t.next, before + t.effects)
        else Done(s.(teardowns := s.teardowns + [w]), before)
  }

  /** `stopSub(id, stopOverallComputation)` called outside any computation. */
  function StopSub(s: Instance, id: SlotId, stopComputation: bool): (o: Outcome)
    ensures SubInfo(s, id).None? <==> o == Fault(NoStartedSub(id))
    ensures o.Done? <==> SubInfo(s, id).Some? && id in s.options
    ensures o.Done? && !SubInfo(s, id).value.ready ==>
      o.next.teardowns == s.teardowns + [TeardownWait(id, s.current[id], stopComputation, s.options[id], false, None)]
    ensures o.Done? && SubInfo(s, id).value.ready ==> !IsStarted(o.next, id)
  {
    Stop(s, id, stopComputation, false, None)
  }

  /** `restartSub(id)` as written: `stopSub(id)`, then `startSub(id)`
      scheduled at once, whether or not the teardown has run. */
  function RestartSubAsWritten(s: Instance, id: SlotId): (o: Outcome)
    ensures SubInfo(s, id).None? <==> o == Fault(NoStartedSub(id))
    ensures o.Done? <==> StopSub(s, id, true).Done?
    ensures o.Done? ==> o.next.restarts == StopSub(s, id, true).next.restarts + [id]
    ensures o.Done? && !SubInfo(s, id).value.ready ==> o.next.started == s.started
  {
    match StopSub(s, id, true)
    case Fault(e) => Fault(e)
    case Done(s1, fx) => Done(s1.(restarts := s1.restarts + [id]), fx)
  }

  /** `restartSub(id)` with the start chained after the teardown. */
  function RestartSub(s: Instance, id: SlotId): (o: Outcome)
    ensures SubInfo(s, id).None? <==> o == Fault(NoStartedSub(id))
    ensures o.Done? <==> SubInfo(s, id).Some? && id in s.options
    ensures o.Done? && !SubInfo(s, id).value.ready ==>
      && o.next.restarts == s.restarts
      && o.next.teardowns == s.teardowns + [TeardownWait(id, s.current[id], true, s.options[id], true, None)]
    ensures o.Done? && SubInfo(s, id).value.ready ==>
      !IsStarted(o.next, id) && o.next.restarts == s.restarts + [id]
  {
    Stop(s, id, true, true, None)
  }

  /** A re-run of driving computation `comp`. The invalidation that causes
      it first stops the teardown autoruns its earlier re-runs created. Equal
      arguments then do nothing more; changed arguments stop the current
      record from inside the computation (keeping the computation) and
      schedule a new issue step. A re-run before the first issue step has
      stored a record throws. */
  function Rerun(s: Instance, comp: nat, env: Env): (r: Option<Outcome>)
    ensures r.None? <==> comp >= |s.drivers| || s.drivers[comp].stopped
    ensures r.Some? && Registered(s, s.drivers[comp].slot) ==>
      var d := s.drivers[comp];
      var args := Evaluate(s.argSpecs[d.slot], env);
      var kept := Surviving(s.teardowns, OwnedBy(comp));
      && (SubInfo(s, d.slot).None? ==> r == Some(Fault(MissingSubInfo(d.slot))))
      && (SubInfo(s, d.slot).Some? && SubInfo(s, d.slot).value.args == args ==>
            r == Some(Done(s.(teardowns := kept), [])))
      && (SubInfo(s, d.slot).Some? && SubInfo(s, d.slot).value.args != args ==>
            && r.value.Done?
            && r.value.next.issues == s.issues + [PendingIssue(d.slot, comp, args, d.opts)]
            && r.value.next.records.Keys == s.records.Keys && r.value.next.current == s.current
            && r.value.next.drivers == s.drivers
            && (!SubInfo(s, d.slot).value.ready ==>
                  && IsStarted(r.value.next, d.slot) == IsStarted(s, d.slot)
                  && r.value.effects == (if s.options[d.slot].beforeStop
                                         then [BeforeStop(d.slot, SubInfo(s, d.slot).value.args)] else [])
                  && r.value.next.teardowns ==
                       kept + [TeardownWait(d.slot, s.current[d.slot], false, s.options[d.slot], false, Some(comp))])
            && (SubInfo(s, d.slot).value.ready ==>
                  var rec := SubInfo(s, d.slot).value;
                  var w := TeardownWait(d.slot, s.current[d.slot], false, s.options[d.slot], false, Some(comp));
                  && !IsStarted(r.value.next, d.slot) && r.value.next.teardowns == kept
                  && r.value.effects == (if s.options[d.slot].beforeStop then [BeforeStop(d.slot, rec.args)] else [])
                                        + TeardownEffects(w, rec, false)
                  && r.value.next.records[s.current[d.slot]]
                       == rec.(watcher := if rec.watcher.Watching? then Stopped else rec.watcher)
                  && (forall i :: i in s.records && i != s.current[d.slot] ==> r.value.next.records[i] == s.records[i])))
  {
    if comp >= |s.drivers| || s.drivers[comp].stopped then None
    else
      var d := s.drivers[comp];
      var s0 := s.(teardowns := Surviving(s.teardowns, OwnedBy(comp)));
      if !Registered(s0, d.slot) then Some(Fault(UnregisteredSlot(d.slot)))
      else
        var args := Evaluate(s0.argSpecs[d.slot], env);
        match SubInfo(s0, d.slot)
        case None => Some(Fault(MissingSubInfo(d.slot)))
        case Some(rec) =>
          if rec.args == args then Some(Done(s0, []))
          else
            match Stop(s0, d.slot, false, false, Some(comp))
            case Fault(e) => Some(Fault(e))
            case Done(s1, fx) => Some(Done(s1.(issues := s1.issues + [PendingIssue(d.slot, comp, args, d.opts)]), fx))
  }

  /** The k-th scheduled issue step (`startSubscriptionRoutine`).
      - `beforeStart` is called.
      - The next index is taken and the slot mapped to it. Setting the
        mapping invalidates the driving computations that read it, which
        stops the teardown autoruns their re-runs created.
      - The cache is called: `subscribeFor` with the cache-level TTL when it
        is a number, `subscribe` otherwise.
      - The version cell and a false readiness cell are set.
      - The record is stored with its handle, whose readiness is `readyNow`.
      - `afterStart` is called.
      The readiness watcher is created later. */
  function CompleteIssue(s: Instance, k: nat, readyNow: bool): (r: Option<Outcome>)
    ensures r.Some? <==> k < |s.issues|
    ensures r.Some? ==>
      var p := s.issues[k];
      var idx := s.counter + 1;
      && r.value.Done?
      && r.value.next.issues == RemoveAt(s.issues, k)
      && r.value.next.counter == idx && r.value.next.version == idx
      && r.value.next.current == s.current[p.slot := idx]
      && r.value.next.records == s.records[idx := Record(p.slot, p.args, p.comp, p.opts, readyNow, Unset)]
      && r.value.next.cells == s.cells[idx := false]
      && r.value.next.started == s.started && r.value.next.drivers == s.drivers
      && r.value.next.teardowns == Surviving(s.teardowns, OwnedInSlot(p.slot))
      && r.value.effects ==
           (if p.opts.beforeStart then [BeforeStart(p.slot, p.args)] else [])
           + [CachedSubscription.CacheCall(s.cacheExpireAfter, idx, p.args)]
           + (if p.opts.afterStart then [AfterStart(p.slot, p.args)] else [])
  {
    if k >= |s.issues| then None
    else
      var p := s.issues[k];
      var idx := s.counter + 1;
      Some(Done(s.(issues := RemoveAt(s.issues, k),
                   counter := idx,
                   current := s.current[p.slot := idx],
                   version := idx,
                   cells := s.cells[idx := false],
                   records := s.records[idx := Record(p.slot, p.args, p.comp, p.opts, readyNow, Unset)],
                   teardowns := Surviving(s.teardowns, OwnedInSlot(p.slot))),
                (if p.opts.beforeStart then [BeforeStart(p.slot, p.args)] else [])
                + [CachedSubscription.CacheCall(s.cacheExpireAfter, idx, p.args)]
                + (if p.opts.afterStart then [AfterStart(p.slot, p.args)] else [])))
  }

  /** The readiness watcher of record `idx` fires on `rec`: the watcher
      stops, the readiness cell becomes true and `onReady` is called. */
  function Fire(s: Instance, idx: nat, rec: Record): (o: Outcome)
    ensures o.Done? && idx in o.next.records && o.next.records[idx].watcher == Stopped
    ensures o.next.cells == s.cells[idx := true]
    ensures o.next.current == s.current && o.next.teardowns == s.teardowns
    ensures o.effects == if rec.opts.onReady then [OnReady(rec.slot, rec.args)] else []
  {
    Done(s.(records := s.records[idx := rec.(watcher := Stopped)], cells := s.cells[idx := true]),
         if rec.opts.onReady then [OnReady(rec.slot, rec.args)] else [])
  }

  /** The deferred `subReadyRoutine` of record `idx`: it creates the
      readiness watcher. The watcher fires at once if the handle is ready,
      otherwise it keeps watching. */
  function StartWatcher(s: Instance, idx: nat): (r: Option<Outcome>)
    ensures r.Some? <==> idx in s.records && s.records[idx].watcher.Unset?
    ensures r.Some? ==>
      var rec := s.records[idx];
      && r.value.Done?
      && idx in r.value.next.records
      && r.value.next.records[idx] == rec.(watcher := r.value.next.records[idx].watcher)
      && (rec.ready ==> r.value == Fire(s, idx, rec))
      && (!rec.ready ==>
            && r.value.next.records[idx].watcher == Watching
            && r.value.next.cells == s.cells && r.value.effects == [])
  {
    if idx !in s.records || !s.records[idx].watcher.Unset? then None
    else
      var rec := s.records[idx];
      if rec.ready then Some(Fire(s, idx, rec))
      else Some(Done(s.(records := s.records[idx := rec.(watcher := Watching)]), []))
  }

  /** The handle of record `idx` reports ready. A running watcher then sets
      the readiness cell, calls `onReady` and stops. */
  function HandleReady(s: Instance, idx: nat): (r: Option<Outcome>)
    ensures r.Some? <==> idx in s.records && !s.records[idx].ready
    ensures r.Some? ==>
      var rec := s.records[idx];
      && r.value.Done?
      && idx in r.value.next.records && r.value.next.records[idx] == rec.(ready := true, watcher := r.value.next.records[idx].watcher)
      && (rec.watcher.Watching? ==> r.value == Fire(s, idx, rec.(ready := true)))
      && (!rec.watcher.Watching? ==>
            && r.value.next.records[idx].watcher == rec.watcher
            && r.value.next.cells == s.cells && r.value.effects == [])
      && r.value.next.current == s.current && r.value.next.teardowns == s.teardowns
  {
    if idx !in s.records || s.records[idx].ready then None
    else
      var rec := s.records[idx].(ready := true);
      if rec.watcher.Watching? then Some(Fire(s, idx, rec))
      else Some(Done(s.(records := s.records[idx := rec]), []))
  }

  /** The k-th waiting teardown runs once its handle is ready. Only that
      wait settles, apart from the ones its computation stop ends. */
  function CompleteTeardown(s: Instance, k: nat): (r: Option<Outcome>)
    ensures r.Some? <==> k < |s.teardowns| && s.teardowns[k].idx in s.records && s.records[s.teardowns[k].idx].ready
    ensures r.Some? ==>
      && r.value == ApplyTeardown(s.(teardowns := RemoveAt(s.teardowns, k)), s.teardowns[k])
      && !IsStarted(r.value.next, s.teardowns[k].slot)
      && |r.value.next.teardowns| < |s.teardowns|
      && (forall w :: w in r.value.next.teardowns ==> w in s.teardowns)
      && (!s.teardowns[k].stopComputation ==> r.value.next.teardowns == RemoveAt(s.teardowns, k))
  {
    if k >= |s.teardowns| || s.teardowns[k].idx !in s.records || !s.records[s.teardowns[k].idx].ready then None
    else
      var rest := RemoveAt(s.teardowns, k);
      assert forall w :: w in rest ==> w in s.teardowns;
      Some(ApplyTeardown(s.(teardowns := rest), s.teardowns[k]))
  }

  /** The scheduled `startSub` of a restart. */
  function ResumeRestart(s: Instance, k: nat, env: Env): (r: Option<Outcome>)
    ensures r.Some? <==> k < |s.restarts|
    ensures r.Some? ==> r.value == StartSub(s.(restarts := RemoveAt(s.restarts, k)), s.restarts[k], env)
  {
    if k >= |s.restarts| then None
    else Some(StartSub(s.(restarts := RemoveAt(s.restarts, k)), s.restarts[k], env))
  }

  /** `cachedSubReady(id)`: false with no mapped index, otherwise the
      readiness cell of the mapped index. */
  function CachedSubReady(s: Instance, id: SlotId): (b: bool)
    ensures b <==> id in s.current && s.current[id] in s.cells && s.cells[s.current[id]]
  {
    id in s.current && s.current[id] in s.cells && s.cells[s.current[id]]
  }

  /** `allCachedSubsReady`: every listed slot is read. */
  method AllCachedSubsReady(s: Instance) returns (ready: bool, slotReads: seq<SlotId>)
    ensures slotReads == s.slots
    ensures ready <==> s.version != 0 && forall k :: 0 <= k < |s.slots| ==> CachedSubReady(s, s.slots[k])
  {
    ready, slotReads := Readiness.ConjoinEveryRead(s.version != 0, s.slots, id => CachedSubReady(s, id));
  }

  /** `allSubsReady`: the cached slots, the template's own subscriptions and
      the default subscriptions, all evaluated. */
  method AllSubsReady(s: Instance, templateReady: bool, defaultReady: bool) returns (ready: bool, slotReads: seq<SlotId>)
    ensures slotReads == s.slots
    ensures ready <==> && s.version != 0 && templateReady && defaultReady
                       && forall k :: 0 <= k < |s.slots| ==> CachedSubReady(s, s.slots[k])
  {
    var cached;
    cached, slotReads := AllCachedSubsReady(s);
    ready := cached && templateReady && defaultReady;
  }

  /** The start hook (`onCreated` when `startOnCreated`, else `onRendered`):
      `startSub` and the `startSubCalled` mark while starting is allowed. */
  function StartHook(s: Instance, id: SlotId, env: Env): (o: Outcome)
    ensures !Flag(s.allowStart, id) ==> o == Done(s, [])
    ensures Flag(s.allowStart, id) ==>
      match StartSub(s, id, env)
      case Fault(e) => o == Fault(e)
      case Done(s1, fx) => o == Done(s1.(startCalled := s1.startCalled[id := true]), fx)
  {
    if !Flag(s.allowStart, id) then Done(s, [])
    else
      match StartSub(s, id, env)
      case Fault(e) => Fault(e)
      case Done(s1, fx) => Done(s1.(startCalled := s1.startCalled[id := true]), fx)
  }

  /** The destroy hook: forbid later starts, then `stopSub(subId)` if the
      start hook called `startSub`. A throw from `stopSub` propagates. */
  function DestroyHook(s: Instance, id: SlotId): (o: Outcome)
    ensures o.Done? ==> !Flag(o.next.allowStart, id)
    ensures o.Done? ==> forall x :: Flag(o.next.allowStart, x) ==> Flag(s.allowStart, x)
    ensures !Flag(s.startCalled, id) ==> o == Done(s.(allowStart := s.allowStart[id := false]), [])
    ensures Flag(s.startCalled, id) ==> o == StopSub(s.(allowStart := s.allowStart[id := false]), id, true)
  {
    var s1 := s.(allowStart := s.allowStart[id := false]);
    if Flag(s1.startCalled, id) then StopSub(s1, id, true) else Done(s1, [])
  }

  /** Blaze's teardown of the template instance after its `onDestroyed`
      callbacks: every driving computation (a `templateInstance.autorun`)
      stops, and with it every teardown autorun its re-runs created. The
      readiness watchers are plain autoruns and keep running. */
  function StopDrivers(s: Instance): (s': Instance)
    ensures |s'.drivers| == |s.drivers|
    ensures forall c :: 0 <= c < |s.drivers| ==> s'.drivers[c] == s.drivers[c].(stopped := true)
    ensures forall w :: w in s'.teardowns <==> w in s.teardowns && w.owner.None?
    ensures s' == s.(drivers := s'.drivers, teardowns := s'.teardowns)
  {
    s.(drivers := seq(|s.drivers|, c requires 0 <= c < |s.drivers| => s.drivers[c].(stopped := true)),
       teardowns := Surviving(s.teardowns, AllOwned))
  }

  /** Destroying the template instance: the destroy hook of each
      registration, in registration order, then the stop of its
      computations. A throwing hook aborts the rest. */
  function Destroy(s: Instance, ids: seq<SlotId>): (o: Outcome)
    ensures o.Done? ==> forall c :: 0 <= c < |o.next.drivers| ==> o.next.drivers[c].stopped
    ensures o.Done? ==> forall w :: w in o.next.teardowns ==> w.owner.None?
    ensures o.Done? ==> forall k :: 0 <= k < |ids| ==> !Flag(o.next.allowStart, ids[k])
    ensures o.Done? ==> forall x :: Flag(o.next.allowStart, x) ==> Flag(s.allowStart, x)
    ensures ids == [] ==> o == Done(StopDrivers(s), [])
    ensures ids != [] ==>
      match DestroyHook(s, ids[0])
      case Fault(e) => o == Fault(e)
      case Done(s1, fx) => o.Fault? || (o.Done? && |o.effects| >= |fx| && o.effects[..|fx|] == fx)
    decreases |ids|
  {
    if ids == [] then Done(StopDrivers(s), [])
    else
      match DestroyHook(s, ids[0])
      case Fault(e) => Fault(e)
      case Done(s1, fx) =>
        match Destroy(s1, ids[1..])
        case Fault(e) => Fault(e)
        case Done(s2, fx2) =>
          assert forall k :: 1 <= k < |ids| ==> ids[k] == ids[1..][k - 1];
          Done(s2, fx + fx2)
  }

  datatype Event =
    | StartEv(id: SlotId, env: Env)
    | RerunEv(comp: nat, env: Env)
    | IssueEv(k: nat, readyNow: bool)
    | WatcherEv(idx: nat)
    | ReadyEv(idx: nat)
    | StopEv(id: SlotId, stopComputation: bool)
    | TeardownEv(k: nat)
    | RestartEv(id: SlotId)
    | RestartResumedEv(k: nat, env: Env)

  /** One event of the corrected machine; `None` when the runtime cannot
      deliver the event in that state. */
  function Step(s: Instance, e: Event): Option<Outcome> {
    match e
    case StartEv(id, env) => Some(StartSub(s, id, env))
    case RerunEv(comp, env) => Rerun(s, comp, env)
    case IssueEv(k, readyNow) => CompleteIssue(s, k, readyNow)
    case WatcherEv(idx) => StartWatcher(s, idx)
    case ReadyEv(idx) => HandleReady(s, idx)
    case StopEv(id, stopComputation) => Some(StopSub(s, id, stopComputation))
    case TeardownEv(k) => CompleteTeardown(s, k)
    case RestartEv(id) => Some(RestartSub(s, id))
    case RestartResumedEv(k, env) => ResumeRestart(s, k, env)
  }
}
