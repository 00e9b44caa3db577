/**
 Registration of a cached subscription on a template and the lifecycle
 binder (`prepareCachedSubscription`): option defaults, creation of the
 cached-subscription object on the first registration, the choice of
 `subscriptionsReady` replacement, duplicate exclusion, the start trigger
 and the destroy hook, and the `allSubsReady` helper check.

 One registration is one `subId` on one template instance. Its exclusion
 flag lives in the registration's closure and is passed to the hooks.
 */
module Binder {
  import opened Common
  import opened CachedSubscription
  import Readiness
  import CachedSubscriptionProps

  /** The options a caller passes; a missing key takes its default. */
  datatype PartialOptions = PartialOptions(
    startOnCreated: Option<bool>,
    expireAfter: Option<Option<int>>,
    beforeStart: Option<bool>,
    afterStart: Option<bool>,
    onReady: Option<bool>,
    beforeStop: Option<bool>,
    afterStop: Option<bool>,
    replaceSubscriptionsReady: Option<bool>,
    replaceCheckOnAllAncestors: Option<bool>,
    argValidityPredicate: Option<seq<Value> -> bool>)

  function Or<T>(o: Option<T>, d: T): (r: T)
    ensures o.Some? ==> r == o.value
    ensures o.None? ==> r == d
  {
    match o
    case Some(v) => v
    case None => d
  }

  /** The defaults: start on creation, no per-slot TTL, no hooks, replace
      `subscriptionsReady` with the ancestor-checking variant, accept every
      argument list. */
  const DefaultOptions: SlotOptions :=
    SlotOptions(true, None, false, false, false, false, false, true, true, _ => true)

  /** `_.extend(defaults, pcsOptions)`: every given key wins. */
  function WithDefaults(p: PartialOptions): (o: SlotOptions)
    ensures p.startOnCreated.Some? ==> o.startOnCreated == p.startOnCreated.value
    ensures p.expireAfter.Some? ==> o.expireAfter == p.expireAfter.value
    ensures p.beforeStart.Some? ==> o.beforeStart == p.beforeStart.value
    ensures p.afterStart.Some? ==> o.afterStart == p.afterStart.value
    ensures p.onReady.Some? ==> o.onReady == p.onReady.value
    ensures p.beforeStop.Some? ==> o.beforeStop == p.beforeStop.value
    ensures p.afterStop.Some? ==> o.afterStop == p.afterStop.value
    ensures p.replaceSubscriptionsReady.Some? ==> o.replaceSubscriptionsReady == p.replaceSubscriptionsReady.value
    ensures p.replaceCheckOnAllAncestors.Some? ==> o.replaceCheckOnAllAncestors == p.replaceCheckOnAllAncestors.value
    ensures p.argValidityPredicate.Some? ==> o.argValidityPredicate == p.argValidityPredicate.value
    ensures p.startOnCreated.None? ==> o.startOnCreated
    ensures p.expireAfter.None? ==> o.expireAfter.None?
    ensures p.replaceSubscriptionsReady.None? ==> o.replaceSubscriptionsReady
    ensures p.replaceCheckOnAllAncestors.None? ==> o.replaceCheckOnAllAncestors
    ensures p.argValidityPredicate.None? ==> forall a :: o.argValidityPredicate(a)
    ensures p.beforeStart.None? ==> !o.beforeStart
    ensures p.afterStart.None? ==> !o.afterStart
    ensures p.onReady.None? ==> !o.onReady
    ensures p.beforeStop.None? ==> !o.beforeStop
    ensures p.afterStop.None? ==> !o.afterStop
  {
    SlotOptions(
      Or(p.startOnCreated, DefaultOptions.startOnCreated),
      Or(p.expireAfter, DefaultOptions.expireAfter),
      Or(p.beforeStart, DefaultOptions.beforeStart),
      Or(p.afterStart, DefaultOptions.afterStart),
      Or(p.onReady, DefaultOptions.onReady),
      Or(p.beforeStop, DefaultOptions.beforeStop),
      Or(p.afterStop, DefaultOptions.afterStop),
      Or(p.replaceSubscriptionsReady, DefaultOptions.replaceSubscriptionsReady),
      Or(p.replaceCheckOnAllAncestors, DefaultOptions.replaceCheckOnAllAncestors),
      Or(p.argValidityPredicate, DefaultOptions.argValidityPredicate))
  }

  function Given(o: SlotOptions): PartialOptions {
    PartialOptions(Some(o.startOnCreated), Some(o.expireAfter), Some(o.beforeStart), Some(o.afterStart),
                   Some(o.onReady), Some(o.beforeStop), Some(o.afterStop), Some(o.replaceSubscriptionsReady),
                   Some(o.replaceCheckOnAllAncestors), Some(o.argValidityPredicate))
  }

  /** Fully specified options pass through defaulting unchanged, and
      defaulting twice is defaulting once. */
  lemma DefaultsKeepGivenOptions(o: SlotOptions, p: PartialOptions)
    ensures WithDefaults(Given(o)) == o
    ensures WithDefaults(Given(WithDefaults(p))) == WithDefaults(p)
  {
  }

  /** Which function answers `subscriptionsReady` on the template instance. */
  datatype ReadyMode = Original | AllSubs | AllSubsAllAncestors

  /** The binder's view of one template instance. */
  datatype TemplateState = TemplateState(
    cs: Option<Instance>,   // instance.cachedSubscription
    readyMode: ReadyMode,
    destroyed: bool)        // ___tlsc_on_destroy_called__

  function FreshTemplate(): (t: TemplateState)
    ensures t.cs.None? && t.readyMode == Original && !t.destroyed
  {
    TemplateState(None, Original, false)
  }

  /** The replacement chosen when the object is created: the ancestor
      variant if both flags are set, `allSubsReady` if only the first is,
      the original function otherwise. */
  function ModeFor(o: SlotOptions): (m: ReadyMode)
    ensures m == AllSubsAllAncestors <==> o.replaceSubscriptionsReady && o.replaceCheckOnAllAncestors
    ensures m == AllSubs <==> o.replaceSubscriptionsReady && !o.replaceCheckOnAllAncestors
    ensures m == Original <==> !o.replaceSubscriptionsReady
  {
    if !o.replaceSubscriptionsReady then Original
    else if o.replaceCheckOnAllAncestors then AllSubsAllAncestors
    else AllSubs
  }

  /** The result of the registration hook: the new state and whether the
      registration was excluded as a duplicate. */
  datatype Registration = Registration(t: TemplateState, excluded: bool)

  /** The `onCreated` registration hook of one `subId`. */
  function Register(t: TemplateState, cacheExpireAfter: Option<int>, ancestors: seq<nat>,
                    id: SlotId, spec: seq<ArgSpec>, o: SlotOptions): (r: Registration)
    ensures r.t.cs.Some? && r.t.destroyed == t.destroyed
    ensures t.cs.Some? ==> r.t.readyMode == t.readyMode
    ensures t.cs.None? ==> r.t.readyMode == ModeFor(o) && r.t.cs.value.counter == 0
    ensures var s := if t.cs.Some? then t.cs.value else Create(cacheExpireAfter, ancestors);
            && (r.excluded <==> id in s.slots)
            && (r.excluded ==> r.t.cs.value == s)
            && (!r.excluded ==>
                  && r.t.cs.value.slots == s.slots + [id]
                  && r.t.cs.value.argSpecs == s.argSpecs[id := spec]
                  && r.t.cs.value.options == s.options[id := o]
                  && Flag(r.t.cs.value.allowStart, id) && !Flag(r.t.cs.value.startCalled, id)
                  && r.t.cs.value.records == s.records && r.t.cs.value.current == s.current
                  && r.t.cs.value.started == s.started && r.t.cs.value.stops == s.stops)
  {
    var s := if t.cs.Some? then t.cs.value else Create(cacheExpireAfter, ancestors);
    var mode := if t.cs.Some? then t.readyMode else ModeFor(o);
    if id in s.slots then Registration(t.(cs := Some(s), readyMode := mode), true)
    else
      Registration(t.(cs := Some(AddSlot(s, id, spec, o)), readyMode := mode), false)
  }

  /** A fresh registration's writes: list entry, arguments, start
      permission, not-yet-started mark, options. */
  function AddSlot(s: Instance, id: SlotId, spec: seq<ArgSpec>, o: SlotOptions): (s': Instance)
    ensures s'.slots == s.slots + [id]
    ensures s'.argSpecs == s.argSpecs[id := spec] && s'.options == s.options[id := o]
    ensures Flag(s'.allowStart, id) && !Flag(s'.startCalled, id)
    ensures forall other :: other != id ==> Flag(s'.startCalled, other) == Flag(s.startCalled, other)
    ensures s'.records == s.records && s'.cells == s.cells && s'.comps == s.comps && s'.current == s.current
    ensures s'.started == s.started && s'.stops == s.stops
  {
    s.(slots := s.slots + [id],
       argSpecs := s.argSpecs[id := spec],
       allowStart := s.allowStart[id := true],
       startCalled := s.startCalled[id := false],
       options := s.options[id := o])
  }

  /** The invariant of the template state: the object, once created, is
      well formed. */
  ghost predicate TemplateOk(t: TemplateState) {
    t.cs.Some? ==> Inv(t.cs.value)
  }

  lemma RegisterKeepsRecordsOk(s: Instance, s': Instance)
    requires RecordsOk(s)
    requires s'.records == s.records && s'.cells == s.cells && s'.comps == s.comps
    requires forall id :: id in s.argSpecs ==> id in s'.argSpecs
    requires forall id :: id in s.options ==> id in s'.options
    ensures RecordsOk(s')
  {
    forall i | i in s'.records ensures RecordOk(s', i) {
      assert RecordOk(s, i);
    }
  }

  lemma AddSlotKeepsRegistryOk(s: Instance, id: SlotId, spec: seq<ArgSpec>, o: SlotOptions)
    requires RegistryOk(s) && id !in s.slots
    ensures RegistryOk(AddSlot(s, id, spec, o))
  {
    var s' := AddSlot(s, id, spec, o);
    forall i, j | 0 <= i < j < |s'.slots| ensures s'.slots[i] != s'.slots[j] {
      if j < |s.slots| {
        assert s'.slots[i] == s.slots[i] && s'.slots[j] == s.slots[j];
      } else {
        assert s'.slots[j] == id && s'.slots[i] == s.slots[i];
      }
    }
  }

  lemma AddSlotPreservesInv(s: Instance, id: SlotId, spec: seq<ArgSpec>, o: SlotOptions)
    requires Inv(s) && id !in s.slots
    ensures Inv(AddSlot(s, id, spec, o))
  {
    var s' := AddSlot(s, id, spec, o);
    RegisterKeepsRecordsOk(s, s');
    AddSlotKeepsRegistryOk(s, id, spec, o);
    assert IndexOk(s') && CurrentOk(s');
    assert LinksOk(s');
  }

  lemma RegisterPreservesInv(t: TemplateState, cacheExpireAfter: Option<int>, ancestors: seq<nat>,
                             id: SlotId, spec: seq<ArgSpec>, o: SlotOptions)
    requires TemplateOk(t)
    ensures TemplateOk(Register(t, cacheExpireAfter, ancestors, id, spec, o).t)
  {
    var s := if t.cs.Some? then t.cs.value else Create(cacheExpireAfter, ancestors);
    if id !in s.slots {
      AddSlotPreservesInv(s, id, spec, o);
    }
  }

  /** The start trigger of one registration (`onCreated` when
      `startOnCreated`, `onRendered` otherwise): nothing for an excluded
      registration or a destroyed instance; `startSub` and the
      `startSubCalled` mark when starting is still allowed. */
  function StartHook(t: TemplateState, id: SlotId, excluded: bool, env: Env): (r: Result)
    ensures excluded || t.destroyed ==> r == Ran(t, [])
    ensures !excluded && !t.destroyed && t.cs.None? ==> r == Threw(MissingCachedInstance)
    ensures !excluded && !t.destroyed && t.cs.Some? && !Flag(t.cs.value.allowStart, id) ==> r == Ran(t, [])
    ensures !excluded && !t.destroyed && t.cs.Some? && Flag(t.cs.value.allowStart, id) ==>
              match StartSub(t.cs.value, id, env)
              case Fault(err) => r == Threw(err)
              case Done(s', fx) =>
                && r.Ran? && r.effects == fx && r.t.cs == Some(s'.(startCalled := s'.startCalled[id := true]))
                && Flag(r.t.cs.value.startCalled, id) && IsStarted(r.t.cs.value, id)
  {
    if excluded || t.destroyed then Ran(t, [])
    else if t.cs.None? then Threw(MissingCachedInstance)
    else
      var s := t.cs.value;
      if !Flag(s.allowStart, id) then Ran(t, [])
      else
        match StartSub(s, id, env)
        case Fault(err) => Threw(err)
        case Done(s', fx) => Ran(t.(cs := Some(s'.(startCalled := s'.startCalled[id := true]))), fx)
  }

  /** The template callbacks a registration binds its start hook to. */
  datatype Lifecycle = Created | Rendered

  /** A start callback of one registration with options `o`: the start hook
      is bound to `onCreated` when `startOnCreated` and to `onRendered`
      otherwise, so exactly one of the two callbacks can start the slot. */
  function OnLifecycle(t: TemplateState, id: SlotId, o: SlotOptions, excluded: bool, ev: Lifecycle, env: Env): (r: Result)
    ensures ev == Created && o.startOnCreated ==> r == StartHook(t, id, excluded, env)
    ensures ev == Rendered && !o.startOnCreated ==> r == StartHook(t, id, excluded, env)
    ensures ev == Created && !o.startOnCreated ==> r == Ran(t, [])
    ensures ev == Rendered && o.startOnCreated ==> r == Ran(t, [])
  {
    if (ev == Created) == o.startOnCreated then StartHook(t, id, excluded, env) else Ran(t, [])
  }

  /** The result of a lifecycle hook. */
  datatype Result = Ran(t: TemplateState, effects: seq<Effect>) | Threw(error: Error)

  /** The `onDestroyed` hook of one registration: forbid later starts, stop
      the subscription (and its driving computation) only if the start hook
      called `startSub`, ignore a rejected stop, mark the instance destroyed. */
  function DestroyHook(t: TemplateState, id: SlotId, excluded: bool): (r: Result)
    ensures excluded ==> r == Ran(t, [])
    ensures !excluded && t.cs.None? ==> r == Threw(MissingCachedInstance)
    ensures !excluded && t.cs.Some? ==>
              var s := t.cs.value;
              && r.Ran? && r.effects == [] && r.t.destroyed && r.t.cs.Some?
              && !Flag(r.t.cs.value.allowStart, id)
              && r.t.cs.value.records == s.records && r.t.cs.value.started == s.started
              && r.t.cs.value.current == s.current && r.t.cs.value.startCalled == s.startCalled
              && (forall x :: x != id ==> Flag(r.t.cs.value.allowStart, x) == Flag(s.allowStart, x))
              && (if Flag(s.startCalled, id) && SubInfo(s, id).Some?
                  then r.t.cs.value.stops == s.stops + [StopRequest(id, s.current[id], true, false)]
                  else r.t.cs.value.stops == s.stops)
  {
    if excluded then Ran(t, [])
    else if t.cs.None? then Threw(MissingCachedInstance)
    else
      var s := t.cs.value.(allowStart := t.cs.value.allowStart[id := false]);
      var s' := if Flag(s.startCalled, id) then
                  match StopSub(s, id, true)
                  case Done(next, _) => next
                  case Fault(_) => s
                else s;
      Ran(t.(cs := Some(s'), destroyed := true), [])
  }

  /** Blaze's teardown of the template instance after its `onDestroyed`
      callbacks: every computation made with `templateInstance.autorun`
      stops, which is every driving computation and every running readiness
      watcher. Records, cells and pending stops stay as they are. */
  function StopAutoruns(s: Instance): (s': Instance)
    ensures |s'.comps| == |s.comps|
    ensures forall c :: 0 <= c < |s.comps| ==> s'.comps[c] == s.comps[c].(stopped := true)
    ensures s'.records.Keys == s.records.Keys
    ensures forall i :: i in s.records ==>
              s'.records[i] == s.records[i].(watcher := if s.records[i].watcher.Watching? then Stopped
                                                        else s.records[i].watcher)
    ensures s' == s.(comps := s'.comps, records := s'.records)
  {
    s.(comps := seq(|s.comps|, c requires 0 <= c < |s.comps| => s.comps[c].(stopped := true)),
       records := map i | i in s.records ::
                    s.records[i].(watcher := if s.records[i].watcher.Watching? then Stopped else s.records[i].watcher))
  }

  /** Destroying the template instance: the destroy hook of each
      registration (its slot id and whether it was excluded), in
      registration order, then the stop of its computations. A throwing
      hook aborts the rest. Afterwards no registration can start, nothing
      can re-run or report readiness, and the hooks have only appended stop
      requests. */
  function Destroy(t: TemplateState, regs: seq<(SlotId, bool)>): (r: Result)
    ensures r.Ran? ==> r.effects == [] && (r.t.cs.Some? <==> t.cs.Some?)
    ensures r.Ran? && r.t.cs.Some? ==>
              var s' := r.t.cs.value;
              && (forall c :: !LiveComputation(s', c))
              && (forall i :: i in s'.records ==> !s'.records[i].watcher.Watching?)
    ensures r.Ran? && t.cs.Some? ==>
              var s := t.cs.value;
              var s' := r.t.cs.value;
              && s'.current == s.current && s'.records.Keys == s.records.Keys && s'.started == s.started
              && s'.startCalled == s.startCalled
              && |s'.stops| >= |s.stops| && s'.stops[..|s.stops|] == s.stops
              && (forall x :: Flag(s'.allowStart, x) ==> Flag(s.allowStart, x))
              && (forall k :: 0 <= k < |regs| && !regs[k].1 ==> !Flag(s'.allowStart, regs[k].0))
    decreases |regs|
  {
    if regs == [] then
      Ran(t.(cs := if t.cs.Some? then Some(StopAutoruns(t.cs.value)) else None), [])
    else
      match DestroyHook(t, regs[0].0, regs[0].1)
      case Threw(e) => Threw(e)
      case Ran(t1, _) =>
        var r := Destroy(t1, regs[1..]);
        assert forall k :: 1 <= k < |regs| ==> regs[k] == regs[1..][k - 1];
        r
  }

  lemma StartHookPreservesInv(t: TemplateState, id: SlotId, excluded: bool, env: Env)
    requires TemplateOk(t)
    ensures StartHook(t, id, excluded, env).Ran? ==> TemplateOk(StartHook(t, id, excluded, env).t)
  {
    if !excluded && !t.destroyed && t.cs.Some? && Flag(t.cs.value.allowStart, id) {
      var s := t.cs.value;
      CachedSubscriptionProps.StartSubPreservesInv(s, id, env);
      if StartSub(s, id, env).Done? {
        var s' := StartSub(s, id, env).next;
        StartCalledFrame(s', s'.startCalled[id := true]);
      }
    }
  }

  lemma DestroyHookPreservesInv(t: TemplateState, id: SlotId, excluded: bool)
    requires TemplateOk(t)
    ensures DestroyHook(t, id, excluded).Ran? ==> TemplateOk(DestroyHook(t, id, excluded).t)
  {
    if !excluded && t.cs.Some? {
      var s := t.cs.value.(allowStart := t.cs.value.allowStart[id := false]);
      AllowStartFrame(t.cs.value, s.allowStart);
      CachedSubscriptionProps.EnqueuePreservesInv(s, id, true, false);
      var s' := if Flag(s.startCalled, id) && StopSub(s, id, true).Done? then StopSub(s, id, true).next else s;
      assert DestroyHook(t, id, excluded).t.cs == Some(s');
    }
  }

  /** Stopping the computations and watchers keeps the invariant: a stopped
      watcher is as well formed as a running one. */
  lemma StopAutorunsPreservesInv(s: Instance)
    requires Inv(s)
    ensures Inv(StopAutoruns(s))
  {
    var s' := StopAutoruns(s);
    forall i | i in s'.records ensures RecordOk(s', i) {
      assert RecordOk(s, i);
    }
    forall c | 0 <= c < |s'.comps| ensures s'.comps[c].slot in s'.current {
      assert s'.comps[c].slot == s.comps[c].slot;
    }
  }

  lemma {:induction false} DestroyPreservesInv(t: TemplateState, regs: seq<(SlotId, bool)>)
    requires TemplateOk(t)
    ensures Destroy(t, regs).Ran? ==> TemplateOk(Destroy(t, regs).t)
    decreases |regs|
  {
    if regs == [] {
      if t.cs.Some? { StopAutorunsPreservesInv(t.cs.value); }
    } else {
      DestroyHookPreservesInv(t, regs[0].0, regs[0].1);
      if DestroyHook(t, regs[0].0, regs[0].1).Ran? {
        DestroyPreservesInv(DestroyHook(t, regs[0].0, regs[0].1).t, regs[1..]);
      }
    }
  }

  /** Every registration whose start hook called `startSub` gets the stop of
      its slot's current record, with the driving computation, queued by
      the destroy. */
  lemma {:induction false} DestroyQueuesEveryStop(t: TemplateState, regs: seq<(SlotId, bool)>, k: nat)
    requires t.cs.Some? && Destroy(t, regs).Ran?
    requires k < |regs| && !regs[k].1
    requires Flag(t.cs.value.startCalled, regs[k].0) && SubInfo(t.cs.value, regs[k].0).Some?
    ensures StopRequest(regs[k].0, t.cs.value.current[regs[k].0], true, false) in Destroy(t, regs).t.cs.value.stops
    decreases |regs|
  {
    var t1 := DestroyHook(t, regs[0].0, regs[0].1).t;
    var s1 := t1.cs.value;
    var fin := Destroy(t, regs).t.cs.value;
    assert Destroy(t, regs) == Destroy(t1, regs[1..]);
    if k == 0 {
      var req := StopRequest(regs[0].0, t.cs.value.current[regs[0].0], true, false);
      assert s1.stops[|s1.stops| - 1] == req;
      assert fin.stops[..|s1.stops|] == s1.stops;
      assert fin.stops[|s1.stops| - 1] == req;
    } else {
      assert regs[1..][k - 1] == regs[k];
      assert SubInfo(s1, regs[k].0) == SubInfo(t.cs.value, regs[k].0);
      DestroyQueuesEveryStop(t1, regs[1..], k - 1);
    }
  }

  /** After the destroy no driving computation re-runs, no readiness watcher
      reports, and a stop that settles later finds its computation already
      stopped, so it stops only the handle and calls the stop hooks. */
  lemma DestroyedTemplateIsQuiet(t: TemplateState, regs: seq<(SlotId, bool)>, comp: nat, env: Env, idx: nat, k: nat)
    requires t.cs.Some? && Destroy(t, regs).Ran?
    ensures var s' := Destroy(t, regs).t.cs.value;
            && Rerun(s', comp, env).None?
            && (HandleReady(s', idx).Some? ==> HandleReady(s', idx).value.effects == [])
            && (CompleteStop(s', k).Some? ==>
                  StopComputation(s'.records[s'.stops[k].idx].comp) !in CompleteStop(s', k).value.effects)
  {
    var s' := Destroy(t, regs).t.cs.value;
    if CompleteStop(s', k).Some? {
      assert !LiveComputation(s', s'.records[s'.stops[k].idx].comp);
    }
  }

  /** Marking a started slot as started by its hook keeps the invariant. */
  lemma StartCalledFrame(s: Instance, startCalled: map<SlotId, bool>)
    requires Inv(s)
    requires forall id :: Flag(startCalled, id) ==> id in s.current
    ensures Inv(s.(startCalled := startCalled))
  {
    RegisterKeepsRecordsOk(s, s.(startCalled := startCalled));
  }

  /** The start permissions take no part in the invariant. */
  lemma AllowStartFrame(s: Instance, allowStart: map<SlotId, bool>)
    requires Inv(s)
    ensures Inv(s.(allowStart := allowStart))
  {
    RegisterKeepsRecordsOk(s, s.(allowStart := allowStart));
  }

  /** Once the instance is destroyed, no start hook of any registration
      starts anything. */
  lemma StartAfterDestroyIsNoop(t: TemplateState, id: SlotId, other: SlotId, excluded: bool, env: Env)
    requires DestroyHook(t, id, excluded).Ran? && !excluded
    ensures var t' := DestroyHook(t, id, excluded).t;
            StartHook(t', other, false, env) == Ran(t', [])
  {
  }

  /** The template destroyed before its start trigger ran: the destroy hook
      requests no stop, and a late start trigger (its retry loop) does
      nothing, so no record is ever issued for the slot. */
  lemma DestroyBeforeStart(t: TemplateState, id: SlotId, env: Env)
    requires t.cs.Some? && Inv(t.cs.value) && !t.destroyed
    requires !Flag(t.cs.value.startCalled, id)
    ensures var r := DestroyHook(t, id, false);
            && r.Ran? && r.t.cs.value.stops == t.cs.value.stops
            && StartHook(r.t, id, false, env) == Ran(r.t, [])
            && SubInfo(r.t.cs.value, id) == SubInfo(t.cs.value, id)
  {
  }

  /** The template destroyed after its start hook ran: the destroy hook
      queues a stop of the slot's current record that also stops the
      driving computation. */
  lemma DestroyAfterStartStops(t: TemplateState, id: SlotId, env: Env)
    requires t.cs.Some? && Inv(t.cs.value) && !t.destroyed
    requires StartHook(t, id, false, env).Ran?
    requires Flag(t.cs.value.allowStart, id)
    ensures var t1 := StartHook(t, id, false, env).t;
            var r := DestroyHook(t1, id, false);
            && r.Ran?
            && |r.t.cs.value.stops| == |t1.cs.value.stops| + 1
            && r.t.cs.value.stops[|t1.cs.value.stops|] == StopRequest(id, t1.cs.value.current[id], true, false)
  {
    var s1 := StartHook(t, id, false, env).t.cs.value;
    assert Flag(s1.startCalled, id);
    assert SubInfo(s1, id).Some?;
  }

  /** The index counter of a new object starts at 0 and is incremented
      before use, so the first record of the first registered slot gets
      index 1, holding that run's arguments. */
  lemma FirstIndexIsOne(cacheExpireAfter: Option<int>, ancestors: seq<nat>, id: SlotId,
                        spec: seq<ArgSpec>, o: SlotOptions, env: Env)
    ensures var s := Register(FreshTemplate(), cacheExpireAfter, ancestors, id, spec, o).t.cs.value;
            && StartSub(s, id, env).Done?
            && var s1 := StartSub(s, id, env).next;
            && s1.current[id] == 1 && 1 in s1.records
            && s1.records[1].args == Evaluate(spec, env)
  {
    var s := Register(FreshTemplate(), cacheExpireAfter, ancestors, id, spec, o).t.cs.value;
    assert Registered(s, id) && !IsStarted(s, id);
  }

  /** The `allSubsReady` template helper: with a cached-subscription object
      it asks `allSubsReady` (not the ancestor variant); without one it
      combines the template's own and the default subscriptions. */
  method AreAllSubsReadyCheck(t: TemplateState, templateReady: bool, defaultReady: bool) returns (ready: bool)
    ensures t.cs.None? ==> (ready <==> templateReady && defaultReady)
    ensures t.cs.Some? ==> (ready <==> t.cs.value.version != 0 && Readiness.AllSlotsReady(t.cs.value)
                                       && templateReady && defaultReady)
  {
    if t.cs.Some? {
      var slotReads;
      ready, slotReads := Readiness.AllSubsReady(t.cs.value, templateReady, defaultReady);
    } else {
      ready := templateReady && defaultReady;
    }
  }

  /** `instance.subscriptionsReady()` after registration: whichever function
      the first registration installed. */
  method SubscriptionsReady(t: TemplateState, templateReady: bool, defaultReady: bool, ancestorReady: nat -> bool)
    returns (ready: bool)
    requires t.cs.Some?
    ensures t.readyMode == Original ==> (ready <==> templateReady)
    ensures t.readyMode == AllSubs ==>
              (ready <==> t.cs.value.version != 0 && Readiness.AllSlotsReady(t.cs.value) && templateReady && defaultReady)
    ensures t.readyMode == AllSubsAllAncestors ==>
              (ready <==> && t.cs.value.version != 0 && Readiness.AllSlotsReady(t.cs.value)
                          && templateReady && defaultReady
                          && forall k :: 0 <= k < |t.cs.value.ancestors| ==> ancestorReady(t.cs.value.ancestors[k]))
  {
    var slotReads, asked;
    match t.readyMode
    case Original => ready := templateReady;
    case AllSubs => ready, slotReads := Readiness.AllSubsReady(t.cs.value, templateReady, defaultReady);
    case AllSubsAllAncestors =>
      ready, slotReads, asked := Readiness.AllSubsReadyAllAncestors(t.cs.value, templateReady, defaultReady, ancestorReady);
  }
}
