/**
 Properties of the inline machine:
 - every event keeps the invariant;
 - indices are issued from 2 upwards;
 - an equal-argument re-run is a no-op;
 - a readiness cell reports the handle.
 It also holds the executions that show where the code as written goes
 wrong, each next to the corrected behaviour.
 */
module InlineCacheProps {
  import opened Common
  import opened InlineCache

  lemma StartSubPreservesInv(s: Instance, id: SlotId, env: Env)
    requires Inv(s)
    ensures StartSub(s, id, env).Done? ==> Inv(StartSub(s, id, env).next)
  {
  }

  /** The new index is above every issued one, so the stored record and its
      false cell are fresh. */
  lemma CompleteIssuePreservesInv(s: Instance, k: nat, readyNow: bool)
    requires Inv(s)
    ensures CompleteIssue(s, k, readyNow).Some? ==> Inv(CompleteIssue(s, k, readyNow).value.next)
  {
    if k < |s.issues| {
      var s' := CompleteIssue(s, k, readyNow).value.next;
      var idx := s.counter + 1;
      assert idx !in s.records;
      forall i | i in s'.records && s'.cells[i] ensures s'.records[i].ready {
        assert i != idx;
      }
      forall w | w in s'.teardowns ensures WaitOk(s', w) {
        assert WaitOk(s, w);
      }
    }
  }

  /** Any subset of the waiting teardowns keeps the invariant. */
  lemma FewerTeardownsKeepInv(s: Instance, ts: seq<TeardownWait>)
    requires Inv(s)
    requires forall w :: w in ts ==> w in s.teardowns
    ensures Inv(s.(teardowns := ts))
  {
    var s' := s.(teardowns := ts);
    forall w | w in ts ensures WaitOk(s', w) {
      assert WaitOk(s, w);
    }
  }

  /** A teardown that stops its driving computation also ends the waits that
      computation owned, so every surviving wait still has a running owner. */
  lemma ApplyTeardownPreservesInv(s: Instance, w: TeardownWait)
    requires Inv(s) && w.idx in s.records
    ensures Inv(ApplyTeardown(s, w).next)
  {
    var s' := ApplyTeardown(s, w).next;
    var c := s.records[w.idx].comp;
    forall v | v in s'.teardowns ensures WaitOk(s', v) {
      assert WaitOk(s, v);
      if v.owner.Some? && c < |s.drivers| && v.owner.value != c {
        assert s'.drivers[v.owner.value] == s.drivers[v.owner.value];
      }
    }
  }

  /** Dropping a settled teardown keeps the invariant. */
  lemma DropTeardownPreservesInv(s: Instance, k: nat)
    requires Inv(s) && k < |s.teardowns|
    ensures Inv(s.(teardowns := RemoveAt(s.teardowns, k)))
  {
    FewerTeardownsKeepInv(s, RemoveAt(s.teardowns, k));
  }

  /** A stop keeps the invariant when the computation it runs in, if any, is
      a running driving computation of the stopped slot. */
  lemma StopPreservesInv(s: Instance, id: SlotId, stopComputation: bool, thenRestart: bool, owner: Option<nat>)
    requires Inv(s)
    requires owner.Some? ==> owner.value < |s.drivers| && !s.drivers[owner.value].stopped && s.drivers[owner.value].slot == id
    ensures var o := Stop(s, id, stopComputation, thenRestart, owner);
            o.Done? ==> Inv(o.next)
  {
    if SubInfo(s, id).Some? && id in s.options {
      var w := TeardownWait(id, s.current[id], stopComputation, s.options[id], thenRestart, owner);
      if SubInfo(s, id).value.ready {
        ApplyTeardownPreservesInv(s, w);
      } else {
        var s' := s.(teardowns := s.teardowns + [w]);
        forall v | v in s'.teardowns ensures WaitOk(s', v) {
          if v != w { assert WaitOk(s, v); }
        }
      }
    }
  }

  /** The scheduled issue steps and restarts and the hook flags take no
      part in the invariant. */
  lemma QueuesFrame(s: Instance, s': Instance)
    requires Inv(s)
    requires s' == s.(issues := s'.issues, restarts := s'.restarts, allowStart := s'.allowStart,
                      startCalled := s'.startCalled)
    ensures Inv(s')
  {
    forall w | w in s'.teardowns ensures WaitOk(s', w) {
      assert WaitOk(s, w);
    }
  }

  /** A re-run drops the waits it owned and adds at most one, owned by
      itself, a running computation of the slot. */
  lemma RerunPreservesInv(s: Instance, comp: nat, env: Env)
    requires Inv(s)
    ensures Rerun(s, comp, env).Some? && Rerun(s, comp, env).value.Done? ==> Inv(Rerun(s, comp, env).value.next)
  {
    if comp < |s.drivers| && !s.drivers[comp].stopped {
      var s0 := s.(teardowns := Surviving(s.teardowns, OwnedBy(comp)));
      FewerTeardownsKeepInv(s, s0.teardowns);
      var id := s.drivers[comp].slot;
      StopPreservesInv(s0, id, false, false, Some(comp));
      var o := Stop(s0, id, false, false, Some(comp));
      if Registered(s0, id) && SubInfo(s0, id).Some? && o.Done? {
        var args := Evaluate(s0.argSpecs[id], env);
        QueuesFrame(o.next, o.next.(issues := o.next.issues + [PendingIssue(id, comp, args, s.drivers[comp].opts)]));
      }
    }
  }

  /** Replacing one record of the same slot, and its cell, keeps the
      invariant when the new cell and watcher agree with the new readiness. */
  lemma UpdateRecordKeepsInv(s: Instance, s': Instance, idx: nat, rec: Record, cell: bool)
    requires Inv(s) && idx in s.records && rec.slot == s.records[idx].slot
    requires cell ==> rec.ready
    requires rec.watcher.Watching? ==> !rec.ready && !cell
    requires s' == s.(records := s.records[idx := rec], cells := s.cells[idx := cell])
    ensures Inv(s')
  {
    forall i | i in s'.records && s'.cells[i] ensures s'.records[i].ready {
      if i != idx { assert s'.records[i] == s.records[i] && s'.cells[i] == s.cells[i]; }
    }
    forall i | i in s'.records && s'.records[i].watcher.Watching? ensures !s'.records[i].ready && !s'.cells[i] {
      if i != idx { assert s'.records[i] == s.records[i] && s'.cells[i] == s.cells[i]; }
    }
    forall id | id in s'.current ensures s'.current[id] in s'.records && s'.records[s'.current[id]].slot == id {
      assert s.current[id] in s.records;
    }
    forall w | w in s'.teardowns ensures WaitOk(s', w) {
      assert WaitOk(s, w);
    }
  }

  lemma StartWatcherPreservesInv(s: Instance, idx: nat)
    requires Inv(s)
    ensures StartWatcher(s, idx).Some? ==> Inv(StartWatcher(s, idx).value.next)
  {
    if idx in s.records && s.records[idx].watcher.Unset? {
      var rec := s.records[idx];
      if rec.ready {
        var rec' := rec.(watcher := Stopped);
        UpdateRecordKeepsInv(s, s.(records := s.records[idx := rec'], cells := s.cells[idx := true]), idx, rec', true);
      } else {
        var rec' := rec.(watcher := Watching);
        assert s.cells[idx := s.cells[idx]] == s.cells;
        UpdateRecordKeepsInv(s, s.(records := s.records[idx := rec'], cells := s.cells[idx := s.cells[idx]]),
                             idx, rec', s.cells[idx]);
      }
    }
  }

  lemma HandleReadyPreservesInv(s: Instance, idx: nat)
    requires Inv(s)
    ensures HandleReady(s, idx).Some? ==> Inv(HandleReady(s, idx).value.next)
  {
    if idx in s.records && !s.records[idx].ready {
      var rec := s.records[idx].(ready := true);
      if rec.watcher.Watching? {
        var rec' := rec.(watcher := Stopped);
        UpdateRecordKeepsInv(s, s.(records := s.records[idx := rec'], cells := s.cells[idx := true]), idx, rec', true);
      } else {
        assert s.cells[idx := s.cells[idx]] == s.cells;
        UpdateRecordKeepsInv(s, s.(records := s.records[idx := rec], cells := s.cells[idx := s.cells[idx]]),
                             idx, rec, s.cells[idx]);
      }
    }
  }

  lemma CompleteTeardownPreservesInv(s: Instance, k: nat)
    requires Inv(s)
    ensures CompleteTeardown(s, k).Some? ==> Inv(CompleteTeardown(s, k).value.next)
  {
    if CompleteTeardown(s, k).Some? {
      DropTeardownPreservesInv(s, k);
      ApplyTeardownPreservesInv(s.(teardowns := RemoveAt(s.teardowns, k)), s.teardowns[k]);
    }
  }

  lemma ResumeRestartPreservesInv(s: Instance, k: nat, env: Env)
    requires Inv(s)
    ensures ResumeRestart(s, k, env).Some? && ResumeRestart(s, k, env).value.Done? ==>
              Inv(ResumeRestart(s, k, env).value.next)
  {
    if k < |s.restarts| {
      StartSubPreservesInv(s.(restarts := RemoveAt(s.restarts, k)), s.restarts[k], env);
    }
  }

  /** Every event of the corrected machine keeps the invariant. */
  lemma StepPreservesInv(s: Instance, e: Event)
    requires Inv(s)
    ensures Step(s, e).Some? && Step(s, e).value.Done? ==> Inv(Step(s, e).value.next)
  {
    match e
    case StartEv(id, env) => StartSubPreservesInv(s, id, env);
    case RerunEv(comp, env) => RerunPreservesInv(s, comp, env);
    case IssueEv(k, readyNow) => CompleteIssuePreservesInv(s, k, readyNow);
    case WatcherEv(idx) => StartWatcherPreservesInv(s, idx);
    case ReadyEv(idx) => HandleReadyPreservesInv(s, idx);
    case StopEv(id, stopComputation) => StopPreservesInv(s, id, stopComputation, false, None);
    case TeardownEv(k) => CompleteTeardownPreservesInv(s, k);
    case RestartEv(id) => StopPreservesInv(s, id, true, true, None);
    case RestartResumedEv(k, env) => ResumeRestartPreservesInv(s, k, env);
  }

  /** The restart as written keeps the invariant too: it only adds a
      scheduled start to what `stopSub` does. */
  lemma RestartSubAsWrittenPreservesInv(s: Instance, id: SlotId)
    requires Inv(s)
    ensures RestartSubAsWritten(s, id).Done? ==> Inv(RestartSubAsWritten(s, id).next)
  {
    StopPreservesInv(s, id, true, false, None);
    var o := StopSub(s, id, true);
    if o.Done? {
      QueuesFrame(o.next, o.next.(restarts := o.next.restarts + [id]));
    }
  }

  /** The hooks keep the invariant too. */
  lemma HooksPreserveInv(s: Instance, id: SlotId, env: Env)
    requires Inv(s)
    ensures StartHook(s, id, env).Done? ==> Inv(StartHook(s, id, env).next)
    ensures DestroyHook(s, id).Done? ==> Inv(DestroyHook(s, id).next)
  {
    StartSubPreservesInv(s, id, env);
    if Flag(s.allowStart, id) && StartSub(s, id, env).Done? {
      var s1 := StartSub(s, id, env).next;
      QueuesFrame(s1, s1.(startCalled := s1.startCalled[id := true]));
    }
    var s0 := s.(allowStart := s.allowStart[id := false]);
    QueuesFrame(s, s0);
    StopPreservesInv(s0, id, true, false, None);
  }

  /** Destroying the template keeps the invariant: no wait owned by a
      driving computation survives the stop of all of them. */
  lemma {:induction false} DestroyPreservesInv(s: Instance, ids: seq<SlotId>)
    requires Inv(s)
    ensures Destroy(s, ids).Done? ==> Inv(Destroy(s, ids).next)
    decreases |ids|
  {
    if ids == [] {
      var s' := StopDrivers(s);
      forall w | w in s'.teardowns ensures WaitOk(s', w) {
        assert WaitOk(s, w);
      }
    } else {
      StopPreservesInv(s.(allowStart := s.allowStart[ids[0] := false]), ids[0], true, false, None);
      if DestroyHook(s, ids[0]).Done? {
        DestroyPreservesInv(DestroyHook(s, ids[0]).next, ids[1..]);
      }
    }
  }

  /** After the destroy no driving computation re-runs, and a teardown that
      runs later finds its computation already stopped: it stops the handle
      and calls `afterStop`, and stops no computation. */
  lemma DestroyedDriversAreQuiet(s: Instance, ids: seq<SlotId>, comp: nat, env: Env, k: nat)
    requires Destroy(s, ids).Done?
    ensures var s' := Destroy(s, ids).next;
            && Rerun(s', comp, env).None?
            && (CompleteTeardown(s', k).Some? ==>
                  var rec := s'.records[s'.teardowns[k].idx];
                  StopComputation(rec.comp) !in CompleteTeardown(s', k).value.effects)
  {
  }

  /** A readiness cell that reads true belongs to a ready handle. */
  lemma ReadyCellMeansHandleReady(s: Instance, id: SlotId)
    requires Inv(s) && CachedSubReady(s, id)
    ensures SubInfo(s, id).Some? && SubInfo(s, id).value.ready
  {
  }

  /** Each issue step takes an index above every index already issued; the
      first issue of a fresh object takes index 2. */
  lemma IssueIndexIsFresh(s: Instance, k: nat, readyNow: bool)
    requires Inv(s) && k < |s.issues|
    ensures var idx := CompleteIssue(s, k, readyNow).value.next.current[s.issues[k].slot];
            && idx >= 2
            && idx !in s.records
            && forall i :: i in s.records ==> i < idx
  {
  }

  lemma {:induction false} FirstIndexIsTwo(cacheExpireAfter: Option<int>, id: SlotId, spec: seq<ArgSpec>,
                                           o: InlineOptions, env: Env, readyNow: bool)
    ensures var s0 := Register(Create(cacheExpireAfter), id, spec, o);
            && s0.Done?
            && StartSub(s0.next, id, env).Done?
            && CompleteIssue(StartSub(s0.next, id, env).next, 0, readyNow).Some?
            && var s2 := CompleteIssue(StartSub(s0.next, id, env).next, 0, readyNow).value;
            && s2.next.current[id] == 2
            && CachedSubscription.CacheCall(cacheExpireAfter, 2, Evaluate(spec, env)) in s2.effects
  {
    var s0 := Register(Create(cacheExpireAfter), id, spec, o);
    assert !IsStarted(s0.next, id) && Registered(s0.next, id);
    var s1 := StartSub(s0.next, id, env);
    assert s1.next.issues == [PendingIssue(id, 0, Evaluate(spec, env), o)];
  }

  /** A re-run that evaluates the same arguments as the issued record is a
      no-op: no stop, no issue, no hook, and a fresh driving computation owns
      no wait it could drop. */
  lemma RerunWithSameArgsIsNoop(s: Instance, id: SlotId, env: Env, readyNow: bool)
    requires Inv(s) && Registered(s, id) && !IsStarted(s, id)
    ensures var s1 := StartSub(s, id, env).next;
            && CompleteIssue(s1, |s.issues|, readyNow).Some?
            && var s2 := CompleteIssue(s1, |s.issues|, readyNow).value.next;
            Rerun(s2, |s.drivers|, env) == Some(Done(s2, []))
  {
    var s1 := StartSub(s, id, env).next;
    var s2 := CompleteIssue(s1, |s.issues|, readyNow).value.next;
    assert s2.drivers[|s.drivers|] == Driver(id, false, s.options[id]);
    assert SubInfo(s2, id).value.args == Evaluate(s.argSpecs[id], env);
    forall w | w in s2.teardowns ensures !Dies(w, OwnedBy(|s.drivers|)) {
      assert w in s.teardowns && WaitOk(s, w);
    }
  }

  /** As written, `restartSub` on a slot whose handle is not ready yet
      schedules `startSub` while the slot is still started; when that start
      runs before the handle is ready it throws `sub-already-started`. */
  lemma RestartAsWrittenRacesTeardown(s: Instance, id: SlotId, env: Env)
    requires Registered(s, id) && IsStarted(s, id)
    requires SubInfo(s, id).Some? && !SubInfo(s, id).value.ready
    ensures RestartSubAsWritten(s, id).Done?
    ensures var s1 := RestartSubAsWritten(s, id).next;
            ResumeRestart(s1, |s.restarts|, env) == Some(Fault(SubAlreadyStarted(id)))
  {
    var s1 := RestartSubAsWritten(s, id).next;
    assert s1.restarts == s.restarts + [id];
    assert IsStarted(s1.(restarts := RemoveAt(s1.restarts, |s.restarts|)), id);
  }

  /** With the start chained after the teardown, the same restart waits for
      the handle, tears down, and then starts the slot afresh. */
  lemma RestartResumesAfterTeardown(s: Instance, id: SlotId, env: Env)
    requires Inv(s) && Registered(s, id)
    requires SubInfo(s, id).Some? && !SubInfo(s, id).value.ready
    ensures var idx := s.current[id];
            && RestartSub(s, id).Done?
            && HandleReady(RestartSub(s, id).next, idx).Some?
            && var s2 := HandleReady(RestartSub(s, id).next, idx).value.next;
            && CompleteTeardown(s2, |s.teardowns|).Some?
            && var s3 := CompleteTeardown(s2, |s.teardowns|).value.next;
            && !IsStarted(s3, id)
            && s3.restarts == s.restarts + [id]
            && ResumeRestart(s3, |s.restarts|, env).Some?
            && ResumeRestart(s3, |s.restarts|, env).value.Done?
            && IsStarted(ResumeRestart(s3, |s.restarts|, env).value.next, id)
  {
    var idx := s.current[id];
    var s1 := RestartSub(s, id).next;
    assert s1.teardowns[|s.teardowns|] == TeardownWait(id, idx, true, s.options[id], true, None);
    var s2 := HandleReady(s1, idx).value.next;
    assert s2.teardowns == s1.teardowns;
    var s3 := CompleteTeardown(s2, |s.teardowns|).value.next;
    assert Registered(s3, id);
    var s4 := s3.(restarts := RemoveAt(s3.restarts, |s.restarts|));
    assert s3.restarts[|s.restarts|] == id;
    assert !IsStarted(s4, id) && Registered(s4, id);
  }

  /** As written, a changed-argument re-run calls `stopSub` inside the
      driving computation, so the teardown autorun that waits for the old
      handle is that computation's child. The issue step the re-run
      schedules sets the slot's index, which the computation reads, and the
      invalidation stops the waiting autorun: when the old handle becomes
      ready no teardown is left to stop it, `afterStop` never runs, and
      `started` keeps its value. */
  lemma RerunTeardownDiesWithIssue(s: Instance, comp: nat, env: Env, readyNow: bool)
    requires Inv(s) && s.teardowns == []
    requires comp < |s.drivers| && !s.drivers[comp].stopped
    requires var id := s.drivers[comp].slot;
             && Registered(s, id) && SubInfo(s, id).Some? && !SubInfo(s, id).value.ready
             && SubInfo(s, id).value.args != Evaluate(s.argSpecs[id], env)
    ensures var id := s.drivers[comp].slot;
            var prior := s.current[id];
            var s1 := Rerun(s, comp, env).value.next;
            && s1.teardowns == [TeardownWait(id, prior, false, s.options[id], false, Some(comp))]
            && CompleteIssue(s1, |s.issues|, readyNow).Some?
            && var s2 := CompleteIssue(s1, |s.issues|, readyNow).value.next;
            && s2.teardowns == []
            && HandleReady(s2, prior).Some?
            && var r3 := HandleReady(s2, prior).value;
            && r3.next.records[prior].ready
            && (forall e :: e in r3.effects ==> e.OnReady?)
            && (forall k :: CompleteTeardown(r3.next, k).None?)
            && r3.next.started == s.started
  {
    var id := s.drivers[comp].slot;
    var prior := s.current[id];
    var s1 := Rerun(s, comp, env).value.next;
    assert Surviving(s.teardowns, OwnedBy(comp)) == [];
    var w := TeardownWait(id, prior, false, s.options[id], false, Some(comp));
    var s2 := CompleteIssue(s1, |s.issues|, readyNow).value.next;
    assert s1.issues[|s.issues|].slot == id;
    assert Dies(w, OwnedInSlot(id));
    assert Surviving(s1.teardowns, OwnedInSlot(id)) == Surviving([], OwnedInSlot(id));
    assert prior in s.records && prior != s1.counter + 1;
  }

  /** As written, a template destroyed after its start hook but before the
      deferred issue step has run makes `stopSub` throw
      `no-started-sub-with-id`, and the issue step is still scheduled: the
      subscription it makes is never stopped. */
  lemma DestroyBeforeIssueThrows(s: Instance, id: SlotId, env: Env)
    requires Registered(s, id) && Flag(s.allowStart, id) && !IsStarted(s, id) && id !in s.current
    ensures StartHook(s, id, env).Done?
    ensures var s1 := StartHook(s, id, env).next;
            && s1.issues == s.issues + [PendingIssue(id, |s.drivers|, Evaluate(s.argSpecs[id], env), s.options[id])]
            && DestroyHook(s1, id) == Fault(NoStartedSub(id))
  {
  }

  /** As written, a duplicate registration throws only after it has
      replaced the slot's options and reset its `startSubCalled` mark. A
      started slot is then not stopped by the destroy hook. */
  lemma DuplicateRegistrationOverwrites(s: Instance, id: SlotId, spec: seq<ArgSpec>, o: InlineOptions)
    requires id in s.slots
    ensures var r := RegisterAsWritten(s, id, spec, o);
            && r.thrown == Some(IdAlreadyExists(id))
            && r.next.options[id] == o
            && (Flag(s.startCalled, id) ==> !Flag(r.next.startCalled, id))
            && DestroyHook(r.next, id) == Done(r.next.(allowStart := r.next.allowStart[id := false]), [])
  {
  }
}
