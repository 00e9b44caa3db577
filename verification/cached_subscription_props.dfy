/**
 Properties of the cached-subscription state machine: the well-formedness
 invariant is kept by every event, re-runs never find a started slot without
 its record, a handle is only stopped after the subscribe call that created
 it, and the consequences of stops leaving the index mapping in place.
 */
module CachedSubscriptionProps {
  import opened Common
  import opened CachedSubscription

  /** Replacing one record (and at most its readiness cell) keeps every
      other record well formed, as long as the computations keep their
      slots and the registration is unchanged. */
  lemma RecordUpdateKeepsRecordsOk(s: Instance, s': Instance, idx: nat)
    requires RecordsOk(s) && idx in s.records && idx in s'.records
    requires s'.argSpecs == s.argSpecs && s'.options == s.options
    requires |s'.comps| == |s.comps| && forall c :: 0 <= c < |s.comps| ==> s'.comps[c].slot == s.comps[c].slot
    requires s'.records == s.records[idx := s'.records[idx]]
    requires s'.cells == s.cells || s'.cells == s.cells[idx := true]
    requires RecordOk(s', idx)
    ensures RecordsOk(s')
  {
    forall i | i in s'.records ensures RecordOk(s', i) {
      if i != idx {
        assert RecordOk(s, i);
      }
    }
  }

  // Each operation keeps each part of the invariant; every part lemma
  // assumes only the parts its proof needs.

  lemma IssueKeepsIndexOk(s: Instance, id: SlotId, comp: nat, args: seq<Value>)
    requires IndexOk(s) && id in s.options
    ensures IndexOk(Issue(s, id, comp, args).next)
  {
  }

  lemma IssueKeepsParts(s: Instance, id: SlotId, comp: nat, args: seq<Value>)
    requires IndexOk(s) && Registered(s, id) && comp < |s.comps| && s.comps[comp].slot == id
    ensures var s' := Issue(s, id, comp, args).next;
            IndexOk(s') && (RegistryOk(s) ==> RegistryOk(s')) && (CurrentOk(s) ==> CurrentOk(s'))
  {
  }

  lemma IssueKeepsRecordsOk(s: Instance, id: SlotId, comp: nat, args: seq<Value>)
    requires IndexOk(s) && RecordsOk(s) && Registered(s, id) && comp < |s.comps| && s.comps[comp].slot == id
    ensures RecordsOk(Issue(s, id, comp, args).next)
  {
    var s' := Issue(s, id, comp, args).next;
    forall i | i in s'.records ensures RecordOk(s', i) {
      if i != s'.counter {
        assert RecordOk(s, i);
      }
    }
  }

  lemma IssueKeepsLinksOk(s: Instance, id: SlotId, comp: nat, args: seq<Value>)
    requires IndexOk(s) && LinksOk(s) && Registered(s, id) && comp < |s.comps| && s.comps[comp].slot == id
    ensures LinksOk(Issue(s, id, comp, args).next)
  {
  }

  lemma IssuePreservesInv(s: Instance, id: SlotId, comp: nat, args: seq<Value>)
    requires Inv(s) && Registered(s, id) && comp < |s.comps| && s.comps[comp].slot == id
    ensures Inv(Issue(s, id, comp, args).next)
  {
    IssueKeepsParts(s, id, comp, args);
    IssueKeepsRecordsOk(s, id, comp, args);
    IssueKeepsLinksOk(s, id, comp, args);
  }

  /** The intermediate state of `startSub`: flag set, computation created. */
  lemma StartFlagKeepsParts(s: Instance, id: SlotId)
    requires Registered(s, id)
    ensures var s1 := s.(started := s.started[id := true], comps := s.comps + [Computation(id, false)]);
            && (IndexOk(s) ==> IndexOk(s1))
            && (RegistryOk(s) ==> RegistryOk(s1))
            && (RecordsOk(s) ==> RecordsOk(s1))
  {
    var s1 := s.(started := s.started[id := true], comps := s.comps + [Computation(id, false)]);
    if RecordsOk(s) {
      forall i | i in s1.records ensures RecordOk(s1, i) {
        assert RecordOk(s, i);
      }
    }
  }

  lemma StartSubKeepsCurrentOk(s: Instance, id: SlotId, env: Env)
    requires IndexOk(s) && CurrentOk(s) && StartSub(s, id, env).Done?
    ensures CurrentOk(StartSub(s, id, env).next)
  {
  }

  lemma StartSubKeepsLinksOk(s: Instance, id: SlotId, env: Env)
    requires IndexOk(s) && LinksOk(s) && StartSub(s, id, env).Done?
    ensures LinksOk(StartSub(s, id, env).next)
  {
    var s' := StartSub(s, id, env).next;
    forall c | 0 <= c < |s'.comps| ensures s'.comps[c].slot in s'.current {
      if c < |s.comps| {
        assert s'.comps[c] == s.comps[c];
      }
    }
  }

  lemma StartSubPreservesInv(s: Instance, id: SlotId, env: Env)
    requires Inv(s)
    ensures StartSub(s, id, env).Done? ==> Inv(StartSub(s, id, env).next)
  {
    if StartSub(s, id, env).Done? {
      var s1 := s.(started := s.started[id := true], comps := s.comps + [Computation(id, false)]);
      StartFlagKeepsParts(s, id);
      var args := Evaluate(s.argSpecs[id], env);
      assert StartSub(s, id, env).next == Issue(s1, id, |s.comps|, args).next;
      IssueKeepsParts(s1, id, |s.comps|, args);
      IssueKeepsRecordsOk(s1, id, |s.comps|, args);
      StartSubKeepsCurrentOk(s, id, env);
      StartSubKeepsLinksOk(s, id, env);
    }
  }

  lemma EnqueueKeepsRecordsOk(s: Instance, id: SlotId, stopComputation: bool, thenRestart: bool)
    requires RecordsOk(s) && Enqueue(s, id, stopComputation, thenRestart).Done?
    ensures RecordsOk(Enqueue(s, id, stopComputation, thenRestart).next)
  {
    var s' := Enqueue(s, id, stopComputation, thenRestart).next;
    forall i | i in s'.records ensures RecordOk(s', i) {
      assert RecordOk(s, i);
    }
  }

  lemma EnqueueKeepsLinksOk(s: Instance, id: SlotId, stopComputation: bool, thenRestart: bool)
    requires CurrentOk(s) && LinksOk(s) && Enqueue(s, id, stopComputation, thenRestart).Done?
    ensures LinksOk(Enqueue(s, id, stopComputation, thenRestart).next)
  {
  }

  lemma EnqueueKeepsIndexOk(s: Instance, id: SlotId, stopComputation: bool, thenRestart: bool)
    requires IndexOk(s) && Enqueue(s, id, stopComputation, thenRestart).Done?
    ensures IndexOk(Enqueue(s, id, stopComputation, thenRestart).next)
  {
  }

  lemma EnqueueKeepsRegistryOk(s: Instance, id: SlotId, stopComputation: bool, thenRestart: bool)
    requires RegistryOk(s) && Enqueue(s, id, stopComputation, thenRestart).Done?
    ensures RegistryOk(Enqueue(s, id, stopComputation, thenRestart).next)
  {
  }

  lemma EnqueueKeepsCurrentOk(s: Instance, id: SlotId, stopComputation: bool, thenRestart: bool)
    requires CurrentOk(s) && Enqueue(s, id, stopComputation, thenRestart).Done?
    ensures CurrentOk(Enqueue(s, id, stopComputation, thenRestart).next)
  {
  }

  lemma EnqueuePreservesInv(s: Instance, id: SlotId, stopComputation: bool, thenRestart: bool)
    requires Inv(s)
    ensures Enqueue(s, id, stopComputation, thenRestart).Done? ==>
              Inv(Enqueue(s, id, stopComputation, thenRestart).next)
  {
    if Enqueue(s, id, stopComputation, thenRestart).Done? {
      EnqueueKeepsRecordsOk(s, id, stopComputation, thenRestart);
      EnqueueKeepsIndexOk(s, id, stopComputation, thenRestart);
      EnqueueKeepsRegistryOk(s, id, stopComputation, thenRestart);
      EnqueueKeepsCurrentOk(s, id, stopComputation, thenRestart);
      EnqueueKeepsLinksOk(s, id, stopComputation, thenRestart);
    }
  }

  lemma RerunPreservesInv(s: Instance, comp: nat, env: Env)
    requires Inv(s)
    ensures Rerun(s, comp, env).Some? && Rerun(s, comp, env).value.Done? ==>
              Inv(Rerun(s, comp, env).value.next)
  {
    if LiveComputation(s, comp) {
      var id := s.comps[comp].slot;
      if Registered(s, id) && SubInfo(s, id).Some? {
        var args := Evaluate(s.argSpecs[id], env);
        if SubInfo(s, id).value.args != args {
          var s1 := s.(stops := s.stops + [StopRequest(id, s.current[id], false, false)]);
          EnqueuePreservesInv(s, id, false, false);
          assert s1 == Enqueue(s, id, false, false).next;
          IssuePreservesInv(s1, id, comp, args);
        }
      }
    }
  }

  lemma CompleteDeferredKeepsIndexOk(s: Instance, idx: nat, readyNow: bool)
    requires IndexOk(s) && CompleteDeferred(s, idx, readyNow).Some?
    ensures IndexOk(CompleteDeferred(s, idx, readyNow).value.next)
  {
  }

  lemma CompleteDeferredKeepsRegistryOk(s: Instance, idx: nat, readyNow: bool)
    requires RegistryOk(s) && CompleteDeferred(s, idx, readyNow).Some?
    ensures RegistryOk(CompleteDeferred(s, idx, readyNow).value.next)
  {
  }

  lemma CompleteDeferredKeepsCurrentOk(s: Instance, idx: nat, readyNow: bool)
    requires CurrentOk(s) && CompleteDeferred(s, idx, readyNow).Some?
    ensures CurrentOk(CompleteDeferred(s, idx, readyNow).value.next)
  {
  }

  lemma CompleteDeferredKeepsLinksOk(s: Instance, idx: nat, readyNow: bool)
    requires LinksOk(s) && CompleteDeferred(s, idx, readyNow).Some?
    ensures LinksOk(CompleteDeferred(s, idx, readyNow).value.next)
  {
  }

  lemma CompleteDeferredKeepsRecordsOk(s: Instance, idx: nat, readyNow: bool)
    requires RecordsOk(s) && CompleteDeferred(s, idx, readyNow).Some?
    ensures RecordsOk(CompleteDeferred(s, idx, readyNow).value.next)
  {
    var s' := CompleteDeferred(s, idx, readyNow).value.next;
    assert RecordOk(s, idx);
    assert s'.records == s.records[idx := s'.records[idx]];
    assert s'.cells == s.cells || s'.cells == s.cells[idx := true];
    assert RecordOk(s', idx);
    RecordUpdateKeepsRecordsOk(s, s', idx);
  }

  lemma CompleteDeferredPreservesInv(s: Instance, idx: nat, readyNow: bool)
    requires Inv(s)
    ensures CompleteDeferred(s, idx, readyNow).Some? ==> Inv(CompleteDeferred(s, idx, readyNow).value.next)
  {
    if CompleteDeferred(s, idx, readyNow).Some? {
      CompleteDeferredKeepsIndexOk(s, idx, readyNow);
      CompleteDeferredKeepsRegistryOk(s, idx, readyNow);
      CompleteDeferredKeepsCurrentOk(s, idx, readyNow);
      CompleteDeferredKeepsLinksOk(s, idx, readyNow);
      CompleteDeferredKeepsRecordsOk(s, idx, readyNow);
    }
  }

  lemma HandleReadyKeepsIndexOk(s: Instance, idx: nat)
    requires IndexOk(s) && HandleReady(s, idx).Some?
    ensures IndexOk(HandleReady(s, idx).value.next)
  {
  }

  lemma HandleReadyKeepsRegistryOk(s: Instance, idx: nat)
    requires RegistryOk(s) && HandleReady(s, idx).Some?
    ensures RegistryOk(HandleReady(s, idx).value.next)
  {
  }

  lemma HandleReadyKeepsCurrentOk(s: Instance, idx: nat)
    requires CurrentOk(s) && HandleReady(s, idx).Some?
    ensures CurrentOk(HandleReady(s, idx).value.next)
  {
  }

  lemma HandleReadyKeepsLinksOk(s: Instance, idx: nat)
    requires LinksOk(s) && HandleReady(s, idx).Some?
    ensures LinksOk(HandleReady(s, idx).value.next)
  {
  }

  lemma HandleReadyKeepsRecordsOk(s: Instance, idx: nat)
    requires RecordsOk(s) && HandleReady(s, idx).Some?
    ensures RecordsOk(HandleReady(s, idx).value.next)
  {
    var s' := HandleReady(s, idx).value.next;
    assert RecordOk(s, idx);
    assert s'.records == s.records[idx := s'.records[idx]];
    assert s'.cells == s.cells || s'.cells == s.cells[idx := true];
    assert RecordOk(s', idx);
    RecordUpdateKeepsRecordsOk(s, s', idx);
  }

  lemma HandleReadyPreservesInv(s: Instance, idx: nat)
    requires Inv(s)
    ensures HandleReady(s, idx).Some? ==> Inv(HandleReady(s, idx).value.next)
  {
    if HandleReady(s, idx).Some? {
      HandleReadyKeepsIndexOk(s, idx);
      HandleReadyKeepsRegistryOk(s, idx);
      HandleReadyKeepsCurrentOk(s, idx);
      HandleReadyKeepsLinksOk(s, idx);
      HandleReadyKeepsRecordsOk(s, idx);
    }
  }

  lemma CompleteStopKeepsIndexOk(s: Instance, k: nat)
    requires IndexOk(s) && CompleteStop(s, k).Some?
    ensures IndexOk(CompleteStop(s, k).value.next)
  {
  }

  lemma CompleteStopKeepsRegistryOk(s: Instance, k: nat)
    requires RegistryOk(s) && CompleteStop(s, k).Some?
    ensures RegistryOk(CompleteStop(s, k).value.next)
  {
  }

  lemma CompleteStopKeepsCurrentOk(s: Instance, k: nat)
    requires CurrentOk(s) && CompleteStop(s, k).Some?
    ensures CurrentOk(CompleteStop(s, k).value.next)
  {
  }

  lemma CompleteStopKeepsRecordsOk(s: Instance, k: nat)
    requires RecordsOk(s) && CompleteStop(s, k).Some?
    ensures RecordsOk(CompleteStop(s, k).value.next)
  {
    var s' := CompleteStop(s, k).value.next;
    var idx := s.stops[k].idx;
    assert RecordOk(s, idx);
    assert s'.records == s.records[idx := s'.records[idx]];
    assert s'.cells == s.cells;
    assert RecordOk(s', idx);
    RecordUpdateKeepsRecordsOk(s, s', idx);
  }

  lemma CompleteStopKeepsLinksOk(s: Instance, k: nat)
    requires LinksOk(s) && CompleteStop(s, k).Some?
    ensures LinksOk(CompleteStop(s, k).value.next)
  {
    var s' := CompleteStop(s, k).value.next;
    forall c | 0 <= c < |s'.comps| ensures s'.comps[c].slot in s'.current {
      assert s'.comps[c].slot == s.comps[c].slot;
    }
    forall j | 0 <= j < |s'.stops|
      ensures s'.stops[j].idx in s'.records && s'.records[s'.stops[j].idx].slot == s'.stops[j].slot
    {
      if j < k {
        assert s'.stops[j] == s.stops[j];
      } else {
        assert s'.stops[j] == s.stops[j + 1];
      }
    }
  }

  lemma CompleteStopPreservesInv(s: Instance, k: nat)
    requires Inv(s)
    ensures CompleteStop(s, k).Some? ==> Inv(CompleteStop(s, k).value.next)
  {
    if CompleteStop(s, k).Some? {
      CompleteStopKeepsIndexOk(s, k);
      CompleteStopKeepsRegistryOk(s, k);
      CompleteStopKeepsCurrentOk(s, k);
      CompleteStopKeepsRecordsOk(s, k);
      CompleteStopKeepsLinksOk(s, k);
    }
  }

  lemma RestartsKeepRecordsOk(s: Instance, restarts: seq<SlotId>)
    requires RecordsOk(s)
    ensures RecordsOk(s.(restarts := restarts))
  {
    var s1 := s.(restarts := restarts);
    forall i | i in s1.records ensures RecordOk(s1, i) {
      assert RecordOk(s, i);
    }
  }

  /** The pending restarts take no part in the invariant. */
  lemma RestartsFrame(s: Instance, restarts: seq<SlotId>)
    requires Inv(s)
    ensures Inv(s.(restarts := restarts))
  {
    RestartsKeepRecordsOk(s, restarts);
  }

  lemma ResumeRestartPreservesInv(s: Instance, k: nat, env: Env)
    requires Inv(s)
    ensures ResumeRestart(s, k, env).Some? && ResumeRestart(s, k, env).value.Done? ==>
              Inv(ResumeRestart(s, k, env).value.next)
  {
    if k < |s.restarts| {
      RestartsFrame(s, RemoveAt(s.restarts, k));
      StartSubPreservesInv(s.(restarts := RemoveAt(s.restarts, k)), s.restarts[k], env);
    }
  }

  /** Every event keeps the invariant. */
  lemma StepPreservesInv(s: Instance, e: Event)
    requires Inv(s)
    ensures Step(s, e).Some? && Step(s, e).value.Done? ==> Inv(Step(s, e).value.next)
  {
    match e
    case StartEv(id, env) => StartSubPreservesInv(s, id, env);
    case RerunEv(comp, env) => RerunPreservesInv(s, comp, env);
    case DeferredEv(idx, readyNow) => CompleteDeferredPreservesInv(s, idx, readyNow);
    case ReadyEv(idx) => HandleReadyPreservesInv(s, idx);
    case StopEv(id, stopComputation) => EnqueuePreservesInv(s, id, stopComputation, false);
    case StopSettledEv(k) => CompleteStopPreservesInv(s, k);
    case RestartEv(id) => EnqueuePreservesInv(s, id, true, true);
    case RestartResumedEv(k, env) => ResumeRestartPreservesInv(s, k, env);
  }

  /** The result of running a sequence of events from a state. */
  datatype RunResult = Ran(final: Instance, trace: seq<Effect>) | Stuck | Failed(error: Error)

  function Run(s: Instance, evs: seq<Event>): (r: RunResult)
    decreases |evs|
  {
    if evs == [] then Ran(s, [])
    else match Step(s, evs[0])
      case None => Stuck
      case Some(Fault(err)) => Failed(err)
      case Some(Done(s1, fx)) =>
        match Run(s1, evs[1..])
        case Ran(f, t) => Ran(f, fx + t)
        case other => other
  }

  /** Every state reachable by a run of events keeps the invariant. */
  lemma {:induction false} RunPreservesInv(s: Instance, evs: seq<Event>)
    requires Inv(s)
    ensures Run(s, evs).Ran? ==> Inv(Run(s, evs).final)
    decreases |evs|
  {
    if evs != [] {
      StepPreservesInv(s, evs[0]);
      match Step(s, evs[0])
      case None =>
      case Some(Fault(_)) =>
      case Some(Done(s1, fx)) => RunPreservesInv(s1, evs[1..]);
    }
  }

  /** A re-run never finds a started slot without its record: the
      `unexpected-missing-subscription-info-for-existing-subscription` error
      cannot happen, because the first run issues a record synchronously
      and records are never removed. */
  lemma RerunNeverFaults(s: Instance, comp: nat, env: Env)
    requires Inv(s)
    ensures Rerun(s, comp, env).Some? ==> Rerun(s, comp, env).value.Done?
  {
    if LiveComputation(s, comp) {
      var id := s.comps[comp].slot;
      assert id in s.current;
      assert RecordOk(s, s.current[id]);
    }
  }

  /** Under the invariant a stop continuation is held back only by an
      unresolved start promise. */
  lemma StopEnabledIffResolved(s: Instance, k: nat)
    requires Inv(s) && k < |s.stops|
    ensures StopEnabled(s, k) <==> !s.records[s.stops[k].idx].handle.Pending?
  {
    assert RecordOk(s, s.stops[k].idx);
  }

  ghost predicate Subscribes(e: Effect, idx: nat) {
    (e.Subscribe? || e.SubscribeFor?) && e.idx == idx
  }

  ghost predicate Subscribed(trace: seq<Effect>, idx: nat) {
    exists i :: 0 <= i < |trace| && Subscribes(trace[i], idx)
  }

  /** Relation between a state and the effects emitted so far: every cache
      handle in the state was obtained by a subscribe call in the trace, and
      every handle stop in the trace came after the subscribe call of its
      record. */
  ghost predicate TraceOk(s: Instance, trace: seq<Effect>) {
    && (forall i :: i in s.records && s.records[i].handle.Real? ==> Subscribed(trace, i))
    && (forall j :: 0 <= j < |trace| && trace[j].StopHandle? ==>
          && trace[j].idx in s.records
          && !s.records[trace[j].idx].handle.Pending?
          && (s.records[trace[j].idx].handle.Real? ==> Subscribed(trace[..j], trace[j].idx)))
  }

  /** Facts about one event that the trace relation needs: records are
      never removed, resolved handles keep their kind, handle stops only
      touch resolved records, and a record becomes a cache handle only
      through a subscribe call of the same event. */
  ghost predicate StepFacts(s: Instance, s': Instance, fx: seq<Effect>) {
    && (forall i :: i in s.records ==> i in s'.records)
    && (forall i :: i in s.records && s.records[i].handle.Real? ==> s'.records[i].handle.Real?)
    && (forall i :: i in s.records && s.records[i].handle.Fake? ==> s'.records[i].handle.Fake?)
    && (forall e :: e in fx && e.StopHandle? ==> e.idx in s.records && !s.records[e.idx].handle.Pending?)
    && (forall i :: i in s'.records && s'.records[i].handle.Real? && !(i in s.records && s.records[i].handle.Real?)
          ==> Subscribed(fx, i))
  }

  lemma IssueHasFacts(s: Instance, id: SlotId, comp: nat, args: seq<Value>)
    requires IndexOk(s) && id in s.options
    ensures StepFacts(s, Issue(s, id, comp, args).next, Issue(s, id, comp, args).effects)
  {
  }

  lemma StartSubHasFacts(s: Instance, id: SlotId, env: Env)
    requires IndexOk(s) && StartSub(s, id, env).Done?
    ensures StepFacts(s, StartSub(s, id, env).next, StartSub(s, id, env).effects)
  {
    var s1 := s.(started := s.started[id := true], comps := s.comps + [Computation(id, false)]);
    IssueHasFacts(s1, id, |s.comps|, Evaluate(s.argSpecs[id], env));
  }

  lemma RerunHasFacts(s: Instance, comp: nat, env: Env)
    requires IndexOk(s) && Rerun(s, comp, env).Some? && Rerun(s, comp, env).value.Done?
    ensures StepFacts(s, Rerun(s, comp, env).value.next, Rerun(s, comp, env).value.effects)
  {
    var id := s.comps[comp].slot;
    var args := Evaluate(s.argSpecs[id], env);
    if SubInfo(s, id).value.args != args {
      var s1 := s.(stops := s.stops + [StopRequest(id, s.current[id], false, false)]);
      IssueHasFacts(s1, id, comp, args);
    }
  }

  lemma CompleteDeferredHasFacts(s: Instance, idx: nat, readyNow: bool)
    requires CompleteDeferred(s, idx, readyNow).Some?
    ensures StepFacts(s, CompleteDeferred(s, idx, readyNow).value.next, CompleteDeferred(s, idx, readyNow).value.effects)
  {
    var fx := CompleteDeferred(s, idx, readyNow).value.effects;
    if s.records[idx].proceed {
      assert Subscribes(fx[0], idx);
    }
  }

  lemma HandleReadyHasFacts(s: Instance, idx: nat)
    requires HandleReady(s, idx).Some?
    ensures StepFacts(s, HandleReady(s, idx).value.next, HandleReady(s, idx).value.effects)
  {
  }

  lemma EnqueueHasFacts(s: Instance, id: SlotId, stopComputation: bool, thenRestart: bool)
    requires Enqueue(s, id, stopComputation, thenRestart).Done?
    ensures StepFacts(s, Enqueue(s, id, stopComputation, thenRestart).next, [])
  {
  }

  lemma CompleteStopHasFacts(s: Instance, k: nat)
    requires CompleteStop(s, k).Some?
    ensures StepFacts(s, CompleteStop(s, k).value.next, CompleteStop(s, k).value.effects)
  {
    var req := s.stops[k];
    var rec := s.records[req.idx];
    var fx := CompleteStop(s, k).value.effects;
    var stopComp := req.stopComputation && !s.comps[rec.comp].stopped;
    assert fx == TeardownEffects(s, req, rec, stopComp);
    forall e | e in fx && e.StopHandle?
      ensures e.idx in s.records && !s.records[e.idx].handle.Pending?
    {
      assert e == StopHandle(req.idx);
    }
  }

  lemma StepHasFacts(s: Instance, e: Event)
    requires IndexOk(s)
    requires Step(s, e).Some? && Step(s, e).value.Done?
    ensures StepFacts(s, Step(s, e).value.next, Step(s, e).value.effects)
  {
    match e
    case StartEv(id, env) => StartSubHasFacts(s, id, env);
    case RerunEv(comp, env) => RerunHasFacts(s, comp, env);
    case DeferredEv(idx, readyNow) => CompleteDeferredHasFacts(s, idx, readyNow);
    case ReadyEv(idx) => HandleReadyHasFacts(s, idx);
    case StopEv(id, stopComputation) => EnqueueHasFacts(s, id, stopComputation, false);
    case StopSettledEv(k) => CompleteStopHasFacts(s, k);
    case RestartEv(id) => EnqueueHasFacts(s, id, true, true);
    case RestartResumedEv(k, env) =>
      StartSubHasFacts(s.(restarts := RemoveAt(s.restarts, k)), s.restarts[k], env);
  }

  /** The trace relation carried over one event, from the facts alone. */
  lemma FactsKeepTraceOk(s: Instance, s': Instance, fx: seq<Effect>, trace: seq<Effect>)
    requires TraceOk(s, trace) && StepFacts(s, s', fx)
    ensures TraceOk(s', trace + fx)
  {
    var t' := trace + fx;
    forall i | i in s'.records && s'.records[i].handle.Real? ensures Subscribed(t', i) {
      if i in s.records && s.records[i].handle.Real? {
        var w :| 0 <= w < |trace| && Subscribes(trace[w], i);
        assert t'[w] == trace[w];
      } else {
        var w :| 0 <= w < |fx| && Subscribes(fx[w], i);
        assert t'[|trace| + w] == fx[w];
      }
    }
    forall j | 0 <= j < |t'| && t'[j].StopHandle?
      ensures && t'[j].idx in s'.records
              && !s'.records[t'[j].idx].handle.Pending?
              && (s'.records[t'[j].idx].handle.Real? ==> Subscribed(t'[..j], t'[j].idx))
    {
      var idx := t'[j].idx;
      if j < |trace| {
        assert t'[j] == trace[j];
        assert t'[..j] == trace[..j];
      } else {
        assert t'[j] == fx[j - |trace|];
        assert t'[j] in fx;
        if s'.records[idx].handle.Real? {
          assert s.records[idx].handle.Real?;
          var w :| 0 <= w < |trace| && Subscribes(trace[w], idx);
          assert t'[..j][w] == trace[w];
        }
      }
    }
  }

  lemma StepPreservesIndexOk(s: Instance, e: Event)
    requires IndexOk(s)
    requires Step(s, e).Some? && Step(s, e).value.Done?
    ensures IndexOk(Step(s, e).value.next)
  {
    match e
    case StartEv(id, env) =>
      var s1 := s.(started := s.started[id := true], comps := s.comps + [Computation(id, false)]);
      IssueKeepsIndexOk(s1, id, |s.comps|, Evaluate(s.argSpecs[id], env));
    case RerunEv(comp, env) =>
      var id := s.comps[comp].slot;
      var args := Evaluate(s.argSpecs[id], env);
      if SubInfo(s, id).value.args != args {
        var s1 := s.(stops := s.stops + [StopRequest(id, s.current[id], false, false)]);
        IssueKeepsIndexOk(s1, id, comp, args);
      }
    case DeferredEv(idx, readyNow) => CompleteDeferredKeepsIndexOk(s, idx, readyNow);
    case ReadyEv(idx) => HandleReadyKeepsIndexOk(s, idx);
    case StopEv(id, stopComputation) => EnqueueKeepsIndexOk(s, id, stopComputation, false);
    case StopSettledEv(k) => CompleteStopKeepsIndexOk(s, k);
    case RestartEv(id) => EnqueueKeepsIndexOk(s, id, true, true);
    case RestartResumedEv(k, env) =>
      var s0 := s.(restarts := RemoveAt(s.restarts, k));
      var id := s.restarts[k];
      var s1 := s0.(started := s0.started[id := true], comps := s0.comps + [Computation(id, false)]);
      IssueKeepsIndexOk(s1, id, |s0.comps|, Evaluate(s0.argSpecs[id], env));
  }

  /** A completed run of a non-empty event sequence is its first event
      followed by a completed run of the rest. */
  lemma RunUnfolds(s: Instance, evs: seq<Event>)
    requires evs != [] && Run(s, evs).Ran?
    ensures Step(s, evs[0]).Some? && Step(s, evs[0]).value.Done?
    ensures var o := Step(s, evs[0]).value;
            && Run(o.next, evs[1..]).Ran?
            && Run(s, evs).final == Run(o.next, evs[1..]).final
            && Run(s, evs).trace == o.effects + Run(o.next, evs[1..]).trace
  {
  }

  /** One event carries the index bookkeeping and the trace relation over. */
  lemma StepKeepsTraceOk(s: Instance, e: Event, trace: seq<Effect>)
    requires IndexOk(s) && TraceOk(s, trace)
    requires Step(s, e).Some? && Step(s, e).value.Done?
    ensures IndexOk(Step(s, e).value.next)
    ensures TraceOk(Step(s, e).value.next, trace + Step(s, e).value.effects)
  {
    StepHasFacts(s, e);
    StepPreservesIndexOk(s, e);
    FactsKeepTraceOk(s, Step(s, e).value.next, Step(s, e).value.effects, trace);
  }

  /** Helper: regrouping the trace. It keeps the sequence equality out of
      the run induction, where the trace facts in scope make it costly. */
  lemma TraceOkRegroup(s: Instance, a: seq<Effect>, b: seq<Effect>, c: seq<Effect>)
    requires TraceOk(s, a + b + c)
    ensures TraceOk(s, a + (b + c))
  {
    assert a + b + c == a + (b + c);
  }

  /** Stop waits for start: along any run, every `stop()` on a cache handle
      comes after the subscribe call that created that handle. */
  lemma {:induction false} StopFollowsSubscribe(s: Instance, evs: seq<Event>, trace: seq<Effect>)
    requires IndexOk(s) && TraceOk(s, trace)
    ensures Run(s, evs).Ran? ==> TraceOk(Run(s, evs).final, trace + Run(s, evs).trace)
    decreases |evs|
  {
    if evs == [] {
      assert trace + Run(s, evs).trace == trace;
    } else if Run(s, evs).Ran? {
      RunUnfolds(s, evs);
      var o := Step(s, evs[0]).value;
      var rest := Run(o.next, evs[1..]);
      StepKeepsTraceOk(s, evs[0], trace);
      StopFollowsSubscribe(o.next, evs[1..], trace + o.effects);
      TraceOkRegroup(rest.final, trace, o.effects, rest.trace);
    }
  }

  lemma NoHandleTraceOk(s: Instance)
    requires forall i :: i in s.records ==> s.records[i].handle.Pending?
    ensures TraceOk(s, [])
  {
  }

  lemma TraceOkStop(f: Instance, t: seq<Effect>, j: nat)
    requires TraceOk(f, t)
    requires j < |t| && t[j].StopHandle?
    ensures && t[j].idx in f.records
            && !f.records[t[j].idx].handle.Pending?
            && (f.records[t[j].idx].handle.Real? ==> exists i :: 0 <= i < j && Subscribes(t[i], t[j].idx))
  {
    var idx := t[j].idx;
    if f.records[idx].handle.Real? {
      var p := t[..j];
      assert Subscribed(p, idx);
      var w :| 0 <= w < |p| && Subscribes(p[w], idx);
      assert t[w] == p[w];
    }
  }

  /** Corollary for a run that starts before any handle exists: a handle
      stop of a record that holds a cache handle at the end is preceded by
      that record's subscribe call. */
  lemma StopOnlyAfterSubscribe(s: Instance, evs: seq<Event>, j: nat)
    requires IndexOk(s)
    requires forall i :: i in s.records ==> s.records[i].handle.Pending?
    requires Run(s, evs).Ran? && j < |Run(s, evs).trace| && Run(s, evs).trace[j].StopHandle?
    ensures var t := Run(s, evs).trace;
            var f := Run(s, evs).final;
            && t[j].idx in f.records
            && !f.records[t[j].idx].handle.Pending?
            && (f.records[t[j].idx].handle.Real? ==> exists i :: 0 <= i < j && Subscribes(t[i], t[j].idx))
  {
    NoHandleTraceOk(s);
    StopFollowsSubscribe(s, evs, []);
    assert [] + Run(s, evs).trace == Run(s, evs).trace;
    TraceOkStop(Run(s, evs).final, Run(s, evs).trace, j);
  }

  /** A started slot stays started until a stop continuation of that slot
      runs: no other event clears the flag. */
  lemma StartedUntilStopCompletes(s: Instance, e: Event, id: SlotId)
    requires IsStarted(s, id)
    requires !(e.StopSettledEv? && e.k < |s.stops| && s.stops[e.k].slot == id)
    requires Step(s, e).Some? && Step(s, e).value.Done?
    ensures IsStarted(Step(s, e).value.next, id)
  {
    match e
    case StartEv(id', env) =>
    case RerunEv(comp, env) =>
    case DeferredEv(idx, readyNow) =>
    case ReadyEv(idx) =>
    case StopEv(id', stopComputation) =>
    case StopSettledEv(k) =>
    case RestartEv(id') =>
    case RestartResumedEv(k, env) =>
  }

  /** Stop removes nothing: after a stop continuation the slot still maps to
      its last record, so `cachedSubReady` reports that record's cell. */
  lemma StopKeepsReadiness(s: Instance, k: nat, id: SlotId)
    requires CompleteStop(s, k).Some?
    ensures CachedSubReady(CompleteStop(s, k).value.next, id) == CachedSubReady(s, id)
    ensures SubInfo(CompleteStop(s, k).value.next, id).Some? == SubInfo(s, id).Some?
  {
  }

  /** A re-run with changed arguments queues, as its last stop request, the
      stop of the record it replaces, and keeps the driving computation. */
  lemma ArgChangeQueuesStop(s: Instance, comp: nat, env: Env)
    requires Inv(s) && LiveComputation(s, comp)
    requires var id := s.comps[comp].slot;
             && !s.records[s.current[id]].handle.Pending?
             && s.records[s.current[id]].args != Evaluate(s.argSpecs[id], env)
    ensures var id := s.comps[comp].slot;
            var s1 := Rerun(s, comp, env).value.next;
            && Rerun(s, comp, env).value.Done?
            && Inv(s1)
            && |s1.stops| > 0
            && s1.stops[|s1.stops| - 1] == StopRequest(id, s.current[id], false, false)
            && !s1.records[s.current[id]].handle.Pending?
            && s1.comps == s.comps
            && SubInfo(s1, id).Some? && SubInfo(s1, id).value.comp == comp
  {
    var id := s.comps[comp].slot;
    assert RecordOk(s, s.current[id]);
    RerunPreservesInv(s, comp, env);
  }

  /** The stop an argument change queues waits on the old record's start
      promise and belongs to no computation, so the replacement record's
      deferred step leaves it in place and it can still run: it stops the
      old handle, ready or not, and clears `started`. */
  lemma ArgChangeStopSurvivesReissue(s: Instance, comp: nat, env: Env, readyNow: bool)
    requires Inv(s) && LiveComputation(s, comp)
    requires var id := s.comps[comp].slot;
             && !s.records[s.current[id]].handle.Pending?
             && s.records[s.current[id]].args != Evaluate(s.argSpecs[id], env)
    ensures var id := s.comps[comp].slot;
            var prior := s.current[id];
            var s1 := Rerun(s, comp, env).value.next;
            && CompleteDeferred(s1, s1.counter, readyNow).Some?
            && var s2 := CompleteDeferred(s1, s1.counter, readyNow).value.next;
            && s2.stops[|s.stops|] == StopRequest(id, prior, false, false)
            && CompleteStop(s2, |s.stops|).Some?
            && StopHandle(prior) in CompleteStop(s2, |s.stops|).value.effects
            && !IsStarted(CompleteStop(s2, |s.stops|).value.next, id)
  {
    var id := s.comps[comp].slot;
    var prior := s.current[id];
    assert prior in s.records && RecordOk(s, prior) && prior <= s.counter;
    ArgChangeEnablesBoth(s, comp, env);
    var s1 := Rerun(s, comp, env).value.next;
    DeferredKeepsStopEnabled(s1, s1.counter, readyNow, |s.stops|);
  }

  /** Right after an argument change both the old record's stop and the new
      record's deferred step can run. Only the old record's own facts are
      needed. */
  lemma ArgChangeEnablesBoth(s: Instance, comp: nat, env: Env)
    requires LiveComputation(s, comp)
    requires var id := s.comps[comp].slot;
             && id in s.current && s.current[id] in s.records && s.current[id] <= s.counter
             && s.records[s.current[id]].slot == id && RecordOk(s, s.current[id])
             && !s.records[s.current[id]].handle.Pending?
             && s.records[s.current[id]].args != Evaluate(s.argSpecs[id], env)
    ensures var id := s.comps[comp].slot;
            var s1 := Rerun(s, comp, env).value.next;
            && Rerun(s, comp, env).value.Done?
            && s1.stops == s.stops + [StopRequest(id, s.current[id], false, false)]
            && s.current[id] != s1.counter
            && DeferredEnabled(s1, s1.counter)
            && StopEnabled(s1, |s.stops|)
  {
    var id := s.comps[comp].slot;
    var s1 := Rerun(s, comp, env).value.next;
    assert IssuedFresh(s, s1, id, comp, Evaluate(s.argSpecs[id], env));
  }


  /** The deferred step of one record leaves a runnable stop of another
      record runnable. */
  lemma DeferredKeepsStopEnabled(s: Instance, idx: nat, readyNow: bool, k: nat)
    requires StopEnabled(s, k) && s.stops[k].idx != idx && DeferredEnabled(s, idx)
    ensures var s' := CompleteDeferred(s, idx, readyNow).value.next;
            && s'.stops[k] == s.stops[k]
            && StopEnabled(s', k)
            && StopHandle(s.stops[k].idx) in CompleteStop(s', k).value.effects
            && !IsStarted(CompleteStop(s', k).value.next, s.stops[k].slot)
  {
    var s' := CompleteDeferred(s, idx, readyNow).value.next;
    assert s'.records[s.stops[k].idx] == s.records[s.stops[k].idx];
    assert Count(CompleteStop(s', k).value.effects, StopHandle(s.stops[k].idx)) == 1;
  }

  /** A stop request that does not stop the computation leaves every
      computation running as it was. */
  lemma StopWithoutComputationKeepsComps(s: Instance, k: nat)
    requires CompleteStop(s, k).Some? && !s.stops[k].stopComputation
    ensures CompleteStop(s, k).value.next.comps == s.comps
  {
  }

  /** An argument change queues the stop of the old record; when that stop
      completes it clears `started` although the replacement record is live
      and its driving computation keeps running, so a further `startSub` is
      accepted and creates a second driving computation for the slot. */
  lemma ArgChangeStopClearsStarted(s: Instance, comp: nat, env: Env, env2: Env)
    requires Inv(s) && LiveComputation(s, comp)
    requires var id := s.comps[comp].slot;
             && !s.records[s.current[id]].handle.Pending?
             && s.records[s.current[id]].args != Evaluate(s.argSpecs[id], env)
    ensures var id := s.comps[comp].slot;
            var s1 := Rerun(s, comp, env).value.next;
            var k := |s1.stops| - 1;
            && CompleteStop(s1, k).Some?
            && var s2 := CompleteStop(s1, k).value.next;
               && !IsStarted(s2, id)
               && LiveComputation(s2, comp)
               && SubInfo(s2, id).Some? && SubInfo(s2, id).value.comp == comp
               && StartSub(s2, id, env2).Done?
               && LiveComputation(StartSub(s2, id, env2).next, |s2.comps|)
               && StartSub(s2, id, env2).next.comps[|s2.comps|].slot == id
  {
    var id := s.comps[comp].slot;
    ArgChangeQueuesStop(s, comp, env);
    var s1 := Rerun(s, comp, env).value.next;
    var k := |s1.stops| - 1;
    assert RecordOk(s1, s.current[id]);
    assert StopEnabled(s1, k);
    assert RecordOk(s1, s1.current[id]);
    OldStopKeepsDriver(s1, k, comp, id, env2);
  }

  /** A settled stop that spares the computation leaves the slot's current
      record and its running driver alone, and clears `started`. */
  lemma OldStopKeepsDriver(s: Instance, k: nat, comp: nat, id: SlotId, env: Env)
    requires StopEnabled(s, k) && !s.stops[k].stopComputation && s.stops[k].slot == id
    requires LiveComputation(s, comp) && Registered(s, id)
    requires SubInfo(s, id).Some? && SubInfo(s, id).value.comp == comp
    ensures var s2 := CompleteStop(s, k).value.next;
            && !IsStarted(s2, id)
            && LiveComputation(s2, comp)
            && SubInfo(s2, id).Some? && SubInfo(s2, id).value.comp == comp
            && StartSub(s2, id, env).Done?
            && LiveComputation(StartSub(s2, id, env).next, |s2.comps|)
            && StartSub(s2, id, env).next.comps[|s2.comps|].slot == id
  {
    StopWithoutComputationKeepsComps(s, k);
    var s2 := CompleteStop(s, k).value.next;
    assert Registered(s2, id);
  }

  /** `restartSub` chains `startSub` on the completed stop: right after the
      stop continuation that queued it, the restart never meets
      `sub-already-started`. */
  lemma RestartResumesAfterTeardown(s: Instance, k: nat, env: Env)
    requires Inv(s) && CompleteStop(s, k).Some? && s.stops[k].thenRestart
    ensures var s1 := CompleteStop(s, k).value.next;
            && ResumeRestart(s1, |s1.restarts| - 1, env).Some?
            && ResumeRestart(s1, |s1.restarts| - 1, env).value.Done?
  {
    var req := s.stops[k];
    assert RecordOk(s, req.idx);
    var s1 := CompleteStop(s, k).value.next;
    assert s1.restarts[|s1.restarts| - 1] == req.slot;
    assert Registered(s1, req.slot);
  }
}
