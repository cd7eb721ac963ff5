/** The workflow up to the reload: checks, the connection to the target, the reservation and the one write. */
module RemediationPreparation {
  import opened Prelude
  import opened RemediationTypes
  import opened RemediationStore
  import opened RemediationProtocol
  import opened RemediationEvidence
  import opened SshActions
  import opened RemediationScript
  import opened RemediationScenario
  import opened RemediationWorkflow

  const PRECHECK_BEGUN := Steps([PRECHECK_STARTED], 0, 1, 0)
  const PRECHECK_FINISHED := Steps([PRECHECK_CONFIRMED], 1, 0, 0)

  // ----- connecting

  /** One attempt: `Ok` says whether it opened a session. */
  method ConnectOnce(w: Workflow, leader: bool, attempt: nat) returns (flow: Flow<bool>)
    requires w.Valid() && w.Guarded() && !w.At(Faulted)
    modifies w, w.repository
    ensures w.Valid() && old(w.trace) <= w.trace && old(w.clock) <= w.clock && w.Guarded() && w.clock == old(w.clock)
    ensures old(w.sequence) <= w.sequence <= old(w.sequence) + 1 && (flow.Ok? ==> w.sequence == old(w.sequence) + 1)
    ensures w.run == Staged(old(w.run), w.run.stage)
    ensures flow.Ok? ==> w.At(old(w.sys.live.value.pc))
    ensures flow.Ok? ==> Advances(w.scenario.script, old(w.Here()), w.Here(), w.scenario.AttemptSteps(leader, attempt))
    ensures flow.Ok? ==> flow.value == w.scenario.SessionAt(leader, attempt).SessionOpened?
                         && !w.scenario.FailsForGood(leader, attempt)
    ensures flow.Stop? ==> Abnormal(flow.outcome)
    ensures flow.Stop? ==>
      || (Halts(w.scenario.script, old(w.Here()), w.Here(), flow.outcome, flow.code)
          && !Passes(w.scenario.script, old(w.Here()), w.scenario.AttemptSteps(leader, attempt)))
      || w.scenario.GivesUp(leader, attempt, flow.outcome, flow.code)
  {
    hide w.Valid, w.Filed, w.Audit, InsideTry;
    ghost var start := w.Here();
    var cancelled := w.Cancelled();
    if cancelled {
      return Stop(Stopped, OPERATOR_STOPPED);
    }
    ghost var answered := w.Here();
    var session := if leader then w.scenario.script.leaderSessions(attempt) else w.scenario.script.targetSessions(attempt);
    ghost var entry := w.scenario.ConnectEntry(leader, attempt);
    var ok := w.Note(if leader then LeaderSsh else TargetSsh,
                     Text(if session.SessionOpened? then "CONNECTED"
                          else if session.SshFailed? then session.code else "SSH_CONNECT_FAILED"));
    if !ok {
      GoesOnToHalt(w.scenario.script, start, answered, w.Here(), ONE_QUESTION, Failed, UNEXPECTED);
      return Stop(Failed, UNEXPECTED);
    }
    GoesOn(w.scenario.script, start, answered, w.Here(), ONE_QUESTION, Told(entry));
    if session.SshFailed? && !session.retryable {
      return Stop(Failed, Text(session.code));
    }
    flow := Ok(session.SessionOpened?);
  }

  /** Succeeds exactly if a session opens after failures that all allow a retry, and nothing hinders it;
      otherwise it names the cause. Between attempts at least the retry interval passes. */
  method ConnectActionEndpoint(w: Workflow, leader: bool) returns (flow: Flow<nat>)
    requires w.Valid() && w.Guarded() && !w.At(Faulted)
    modifies w, w.repository
    ensures w.Valid() && old(w.trace) <= w.trace && old(w.clock) <= w.clock && w.Guarded()
    ensures old(w.sequence) <= w.sequence <= old(w.sequence) + w.scenario.settings.sshMaxAttempts
    ensures w.run == Staged(old(w.run), w.run.stage)
    ensures flow.Ok? ==>
      && w.At(old(w.sys.live.value.pc)) && w.scenario.Connects(old(w.Here()), leader, flow.value)
      && Advances(w.scenario.script, old(w.Here()), w.Here(), w.scenario.ConnectSteps(leader, flow.value))
      && w.clock >= old(w.clock) + (flow.value - 1) * w.scenario.settings.sshRetrySeconds * SECOND
    ensures forall n: nat :: w.scenario.Connects(old(w.Here()), leader, n) ==> flow.Ok?
    ensures flow.Stop? ==> Abnormal(flow.outcome)
    ensures flow.Stop? ==>
      || Halts(w.scenario.script, old(w.Here()), w.Here(), flow.outcome, flow.code)
      || w.scenario.ConnectStops(leader, flow.outcome, flow.code)
  {
    hide w.Valid, w.Filed, w.Audit, w.Here, InsideTry, Advances, Halts, Passes, w.scenario.ConnectEntry,
         w.scenario.ConnectEntries, w.scenario.FailsForGood, w.scenario.MayRetry, w.scenario.ConnectStops,
         w.scenario.Connects, w.scenario.GivesUp, w.scenario.SessionAt, w.scenario.ConnectSteps;
    ghost var c, script, start, pc := w.scenario, w.scenario.script, w.Here(), w.sys.live.value.pc;
    w.SettingsAreValid();
    c.NoAttemptYet(leader);
    NothingYet(script, start);
    var attempt, limit := 1, w.scenario.settings.sshMaxAttempts;
    while attempt <= limit
      invariant 1 <= attempt <= limit + 1
      invariant w.Valid() && old(w.trace) <= w.trace && old(w.clock) <= w.clock && w.Guarded() && w.At(pc)
      invariant w.run == Staged(old(w.run), w.run.stage)
      invariant w.sequence == old(w.sequence) + attempt - 1 && c.MayRetry(leader, attempt - 1)
      invariant attempt <= limit ==>
        && Advances(script, start, w.Here(), c.RetrySteps(leader, attempt - 1))
        && w.clock >= old(w.clock) + (attempt - 1) * c.settings.sshRetrySeconds * SECOND
    {
      OneMoreInterval(attempt - 1, c.settings.sshRetrySeconds);
      c.OneMoreAttempt(leader, attempt - 1);
      ghost var before := w.Here();
      c.ConnectIsAhead(start, before, leader, attempt - 1);
      var tried := ConnectOnce(w, leader, attempt);
      if tried.Stop? {
        if c.GivesUp(leader, attempt, tried.outcome, tried.code) {
          c.ConnectStopsAt(leader, attempt, tried.outcome, tried.code);
        } else {
          GoesOnToHalt(script, start, before, w.Here(), c.RetrySteps(leader, attempt - 1), tried.outcome, tried.code);
        }
        return Stop(tried.outcome, tried.code);
      }
      ghost var tried' := w.Here();
      c.AttemptEnds(start, before, tried', leader, attempt - 1);
      if tried.value {
        return Ok(attempt);
      }
      if attempt < limit {
        c.RetryIsAhead(start, tried', leader, attempt);
        var cancelled := w.Wait(w.scenario.settings.sshRetrySeconds);
        if cancelled {
          GoesOnToHalt(script, start, tried', w.Here(), c.ConnectSteps(leader, attempt), Stopped, OPERATOR_STOPPED);
          return Stop(Stopped, OPERATOR_STOPPED);
        }
        c.RetryEnds(start, tried', w.Here(), leader, attempt);
      }
      attempt := attempt + 1;
    }
    c.AttemptsEnd(leader);
    flow := Stop(Failed, Text(if leader then "LEADER_SSH_ATTEMPTS_EXHAUSTED" else "TARGET_SSH_ATTEMPTS_EXHAUSTED"));
  }

  // ----- checks

  method LocalPreflight(w: Workflow) returns (flow: Flow<()>)
    requires w.Valid() && w.Guarded() && w.At(Preparing)
    modifies w, w.repository
    ensures w.Valid() && old(w.trace) <= w.trace && old(w.clock) <= w.clock && w.Guarded()
    ensures old(w.sequence) <= w.sequence <= old(w.sequence) + 1
    ensures w.run == Staged(old(w.run), w.run.stage)
    ensures flow.Ok? <==> w.scenario.PreflightHolds() && Passes(w.scenario.script, old(w.Here()), PREFLIGHT)
    ensures flow.Ok? ==> w.At(Preparing) && Advances(w.scenario.script, old(w.Here()), w.Here(), PREFLIGHT)
    ensures flow.Stop? ==> Abnormal(flow.outcome)
    ensures flow.Stop? ==>
      || Halts(w.scenario.script, old(w.Here()), w.Here(), flow.outcome, flow.code)
      || w.scenario.PreflightStops(flow.outcome, flow.code)
  {
    hide w.Valid, w.Filed, w.Audit, InsideTry;
    ghost var start := w.Here();
    var cancelled := w.Cancelled();
    if cancelled {
      return Stop(Stopped, OPERATOR_STOPPED);
    }
    ghost var answered := w.Here();
    if !w.scenario.script.preflightPasses {
      return Stop(Failed, UNEXPECTED);
    }
    if !w.scenario.script.fingerprintUnchanged {
      return Stop(Stopped, Text("CONFIGURATION_FINGERPRINT_CHANGED"));
    }
    var ok := w.Note(PREFLIGHT_PASSED.stage, PREFLIGHT_PASSED.code);
    if !ok {
      GoesOnToHalt(w.scenario.script, start, answered, w.Here(), ONE_QUESTION, Failed, UNEXPECTED);
      return Stop(Failed, UNEXPECTED);
    }
    flow := Ok(());
  }

  /** Goes on exactly if MM, asked again, completely shows the target as the one expected member that is
      down, and nothing hinders it. */
  method Precheck(w: Workflow) returns (flow: Flow<()>)
    requires w.Valid() && w.Guarded() && w.At(Preparing)
    modifies w, w.repository
    ensures w.Valid() && old(w.trace) <= w.trace && old(w.clock) <= w.clock && w.Guarded()
    ensures old(w.sequence) <= w.sequence <= old(w.sequence) + 2
    ensures w.run == Staged(old(w.run), w.run.stage)
    ensures flow.Ok? <==> w.scenario.PrecheckHolds() && Passes(w.scenario.script, old(w.Here()), PRECHECK)
    ensures flow.Ok? ==> w.At(Preparing) && Advances(w.scenario.script, old(w.Here()), w.Here(), PRECHECK)
    ensures flow.Stop? ==> Abnormal(flow.outcome)
    ensures flow.Stop? ==>
      || Halts(w.scenario.script, old(w.Here()), w.Here(), flow.outcome, flow.code)
      || w.scenario.PrecheckStops(flow.outcome, flow.code)
  {
    hide w.Valid, w.Filed, w.Audit, w.Here, InsideTry, Advances, Halts, Passes, w.scenario.PrecheckHolds,
         w.scenario.PrecheckStops;
    ghost var script, start := w.scenario.script, w.Here();
    FirstPart(script, start, PRECHECK_BEGUN, PRECHECK_FINISHED, PRECHECK);
    flow := AnnouncePrecheck(w);
    if flow.Stop? {
      return;
    }
    ghost var begun := w.Here();
    flow := FinishPrecheck(w);
    InTwoParts(script, start, begun, w.Here(), PRECHECK_BEGUN, PRECHECK_FINISHED, PRECHECK,
               if flow.Stop? then flow.outcome else Failed, if flow.Stop? then flow.code else UNEXPECTED);
  }

  method AnnouncePrecheck(w: Workflow) returns (flow: Flow<()>)
    requires w.Valid() && w.Guarded() && w.At(Preparing)
    modifies w, w.repository
    ensures w.Valid() && old(w.trace) <= w.trace && old(w.clock) <= w.clock && w.Guarded()
    ensures old(w.sequence) <= w.sequence <= old(w.sequence) + 1
    ensures w.run == Staged(old(w.run), w.run.stage)
    ensures if flow.Ok? then w.At(Preparing) && Advances(w.scenario.script, old(w.Here()), w.Here(), PRECHECK_BEGUN)
            else Abnormal(flow.outcome) && Halts(w.scenario.script, old(w.Here()), w.Here(), flow.outcome, flow.code)
                 && !Passes(w.scenario.script, old(w.Here()), PRECHECK_BEGUN)
  {
    hide w.Valid, w.Filed, w.Audit, InsideTry;
    var cancelled := w.Cancelled();
    if cancelled {
      return Stop(Stopped, OPERATOR_STOPPED);
    }
    var ok := w.Note(PRECHECK_STARTED.stage, PRECHECK_STARTED.code);
    flow := if ok then Ok(()) else Stop(Failed, UNEXPECTED);
  }

  method FinishPrecheck(w: Workflow) returns (flow: Flow<()>)
    requires w.Valid() && w.Guarded() && w.At(Preparing)
    modifies w, w.repository
    ensures w.Valid() && old(w.trace) <= w.trace && old(w.clock) <= w.clock && w.Guarded()
    ensures old(w.sequence) <= w.sequence <= old(w.sequence) + 1
    ensures w.run == Staged(old(w.run), w.run.stage)
    ensures flow.Ok? <==> w.scenario.PrecheckHolds() && Passes(w.scenario.script, old(w.Here()), PRECHECK_FINISHED)
    ensures flow.Ok? ==> w.At(Preparing) && Advances(w.scenario.script, old(w.Here()), w.Here(), PRECHECK_FINISHED)
    ensures flow.Stop? ==> Abnormal(flow.outcome)
    ensures flow.Stop? ==>
      || Halts(w.scenario.script, old(w.Here()), w.Here(), flow.outcome, flow.code)
      || w.scenario.PrecheckStops(flow.outcome, flow.code)
  {
    hide w.Valid, w.Filed, w.Audit, InsideTry;
    var precheck := w.scenario.script.precheck;
    if precheck.PollRaised? {
      return Caught(precheck.error);
    }
    var ok := w.Snapshot();
    if !ok {
      return Stop(Failed, UNEXPECTED);
    }
    if !precheck.value.complete {
      return Stop(Failed, Text(if precheck.value.errorCode != "" then precheck.value.errorCode
                               else "MM_PRECHECK_UNTRUSTED"));
    }
    AloneIsTheOnly(precheck.value, w.scenario.target, w.scenario.expected);
    if precheck.value.DownAmong(w.scenario.expected) != {w.scenario.target} {
      return Stop(Stopped, Text("MM_PRECHECK_CHANGED"));
    }
    ok := w.Note(PRECHECK_CONFIRMED.stage, PRECHECK_CONFIRMED.code);
    flow := if ok then Ok(()) else Stop(Failed, UNEXPECTED);
  }

  /** Whatever the cluster answers, only the disk can stop this. */
  method BestEffortClusterSnapshot(w: Workflow) returns (flow: Flow<()>)
    requires w.Valid() && w.Guarded() && w.At(Preparing)
    modifies w, w.repository
    ensures w.Valid() && old(w.trace) <= w.trace && old(w.clock) <= w.clock && w.Guarded()
    ensures old(w.sequence) <= w.sequence <= old(w.sequence) + 1
    ensures w.run == Staged(old(w.run), w.run.stage)
    ensures flow.Ok? <==> Passes(w.scenario.script, old(w.Here()), w.scenario.ClusterSteps())
    ensures if flow.Ok? then w.At(Preparing) && Advances(w.scenario.script, old(w.Here()), w.Here(), w.scenario.ClusterSteps())
            else Abnormal(flow.outcome) && Halts(w.scenario.script, old(w.Here()), w.Here(), flow.outcome, flow.code)
  {
    hide w.Valid, w.Filed, w.Audit, InsideTry;
    var cluster := w.scenario.script.preCluster;
    var result := "UNAVAILABLE";
    if cluster.Seen? {
      var kept := w.Snapshot();
      if !kept {
        return Stop(Failed, UNEXPECTED);
      }
      result := if cluster.value.members != map[] then "COLLECTED" else "PARTIAL";
    }
    var ok := w.Note(Stage.Precheck, Text(result));
    flow := if ok then Ok(()) else Stop(Failed, UNEXPECTED);
  }

  // ----- the reload

  method ReserveReloadSlot(w: Workflow) returns (ok: bool)
    requires w.Valid() && w.At(Preparing)
    modifies w, w.repository
    ensures w.Valid() && old(w.trace) <= w.trace && old(w.clock) <= w.clock && w.Guarded() && w.sequence == old(w.sequence) + 1
    ensures w.run == Staged(old(w.run), Reload).(reloadReserved := true, reloadPhase := Phase.Reserved)
    ensures ok == Passes(w.scenario.script, old(w.Here()), Told(RELOAD_RESERVED))
    ensures if ok then w.At(ReloadReserved) && Advances(w.scenario.script, old(w.Here()), w.Here(), Told(RELOAD_RESERVED))
            else w.At(Faulted) && Halts(w.scenario.script, old(w.Here()), w.Here(), Failed, UNEXPECTED)
  {
    hide w.Filed, w.Audit, w.Valid, EnabledLive, Planned, IsCommit, InsideTry;
    MayReserveReload(w.sys.live.value, w.Answer());
    InsideTryPcs("", true);
    ok := w.Commit(Staged(w.run, Reload).(reloadReserved := true, reloadPhase := Phase.Reserved),
                   Some(Event(w.sequence + 1, Reload, ReloadDispatchReserved)), ReserveReload(w.Answer()));
  }

  ghost method RecordReloadWrite(w: Workflow)
    requires w.Valid() && w.At(ReloadReserved)
    modifies w`sys, w`trace
    ensures w.Valid() && old(w.trace) <= w.trace && old(w.clock) <= w.clock && w.At(ReloadWritten) && w.Here() == old(w.Here())
    ensures w.sys.log == old(w.sys.log) + [ReloadSent(w.id, w.scenario.target)]
  {
    hide Execute, Enabled, Apply, Undisturbed, w.Audit;
    SilentStep(w.config, w.sys, w.sys.live.value, Action.WriteReload);
    UndisturbedSnoc(w.trace, Action.WriteReload);
    w.Record(Action.WriteReload);
  }

  /** The one attempt to write: the trace has a write exactly if the command reaches the device. */
  method DispatchReload(w: Workflow) returns (reply: Reply)
    requires w.Valid() && w.At(ReloadReserved)
    modifies w`sys, w`trace
    ensures w.Valid() && old(w.trace) <= w.trace && old(w.clock) <= w.clock && w.Guarded() && w.Here() == old(w.Here())
    ensures w.At(if ReachesDevice(w.scenario.script.reload) then ReloadWritten else ReloadReserved)
    ensures w.sys.log == old(w.sys.log)
      + if ReachesDevice(w.scenario.script.reload) then [ReloadSent(w.id, w.scenario.target)] else []
    ensures match ReloadError(w.scenario.script.reload)
            case Some(error) => reply == Raised(error)
            case None => reply == Result(ReloadCode(w.scenario.script.reload), true, ReloadPhase(w.scenario.script.reload))
    ensures reply.Result? && ProvesWrite(reply.code) ==> w.At(ReloadWritten)
    ensures w.sequence == old(w.sequence) && w.run == old(w.run) && w.clock == old(w.clock)
  {
    hide w.Valid, w.Here, ReloadError, ReloadCode, ReloadPhase;
    ReloadAnswerProvesWrite(w.scenario.script.reload);
    var channel := new Channel(w.scenario.script.reload);
    reply := channel.RunReloadForce();
    if channel.written != [] {
      RecordReloadWrite(w);
    }
  }

  method SettleReloadResult(w: Workflow, ghost pc: Pc, code: ActionCode, sent: bool, phase: Phase) returns (ok: bool)
    requires w.Valid() && w.At(pc) && (pc == ReloadWritten || (pc == ReloadReserved && !ProvesWrite(code)))
    modifies w, w.repository
    ensures w.Valid() && old(w.trace) <= w.trace && old(w.clock) <= w.clock && w.Guarded() && w.sequence == old(w.sequence) + 1
    ensures w.run == Staged(old(w.run), Reload).(reloadSent := sent, reloadPhase := phase)
    ensures ok == Passes(w.scenario.script, old(w.Here()), Told(Entry(Reload, ResultOf(code))))
    ensures if ok then Advances(w.scenario.script, old(w.Here()), w.Here(), Told(Entry(Reload, ResultOf(code))))
            else Halts(w.scenario.script, old(w.Here()), w.Here(), Failed, UNEXPECTED)
    ensures w.At(if !ok then Faulted else if RefusesReload(code) then ReloadRefused else AwaitingMm)
  {
    hide w.Filed, w.Audit, w.Valid, EnabledLive, Planned, IsCommit, InsideTry, Advances, Halts, Passes;
    ghost var before := w.Here();
    MaySettleReload(w.sys.live.value, w.Answer(), code, sent, phase);
    InsideTryPcs("", true);
    ok := w.Commit(Staged(w.run, Reload).(reloadSent := sent, reloadPhase := phase),
                   Some(Event(w.sequence + 1, Reload, ResultOf(code))), SettleReload(w.Answer(), code, sent, phase));
    OneCommit(w.scenario.script, before, w.Here(), Told(Entry(Reload, ResultOf(code))), ok);
  }

  /** Commits the reservation, makes the one attempt to write, and commits what is known of it. Goes on
      exactly if the call yields a result that is no refusal, and both commits succeed. */
  method ReloadOnce(w: Workflow) returns (flow: Flow<()>)
    requires w.Valid() && w.Guarded() && w.At(Preparing)
    modifies w, w.repository
    ensures w.Valid() && old(w.trace) <= w.trace && old(w.clock) <= w.clock && w.Guarded()
    ensures old(w.sequence) <= w.sequence <= old(w.sequence) + 2
    ensures flow.Ok? <==> w.scenario.ReloadHolds() && Passes(w.scenario.script, old(w.Here()), w.scenario.ReloadSteps())
    ensures flow.Ok? ==>
      && w.At(AwaitingMm) && Advances(w.scenario.script, old(w.Here()), w.Here(), w.scenario.ReloadSteps())
      && w.run == w.scenario.Reloaded(old(w.run))
    ensures w.run.rebalanceReserved == old(w.run.rebalanceReserved)
    ensures flow.Stop? ==> Abnormal(flow.outcome)
    ensures flow.Stop? ==>
      || Halts(w.scenario.script, old(w.Here()), w.Here(), flow.outcome, flow.code)
      || w.scenario.ReloadStops(flow.outcome, flow.code)
  {
    hide w.Valid, w.Filed, w.Here, InsideTry, Advances, Halts, Passes, Steps.Then, ReloadError, ReloadCode,
         ReloadPhase, ReachesDevice;
    ghost var script, start, all := w.scenario.script, w.Here(), w.scenario.ReloadSteps();
    ghost var result := Told(Entry(Reload, ResultOf(ReloadCode(script.reload))));
    var ok := ReserveReloadSlot(w);
    ghost var reserved := w.Here();
    if !ok {
      FirstPart(script, start, Told(RELOAD_RESERVED), result, all);
      return Stop(Failed, UNEXPECTED);
    }
    var reply := DispatchReload(w);
    if reply.Raised? {
      return Caught(SshError(reply.error));
    }
    ok := SettleReloadResult(w, w.sys.live.value.pc, reply.code, reply.sent, reply.phase);
    InTwoParts(script, start, reserved, w.Here(), Told(RELOAD_RESERVED), result, all, Failed, UNEXPECTED);
    if !ok {
      return Stop(Failed, UNEXPECTED);
    }
    flow := if RefusesReload(reply.code) then Stop(Failed, ResultOf(reply.code)) else Ok(());
  }

  /** All that is looked at before the workflow connects to the target. */
  method Check(w: Workflow) returns (flow: Flow<()>)
    requires w.Valid() && w.Guarded() && w.At(Preparing)
    modifies w, w.repository
    ensures w.Valid() && old(w.trace) <= w.trace && old(w.clock) <= w.clock && w.Guarded()
    ensures old(w.sequence) <= w.sequence <= old(w.sequence) + 4
    ensures w.run == Staged(old(w.run), w.run.stage)
    ensures flow.Ok? <==>
      && w.scenario.PreflightHolds() && w.scenario.PrecheckHolds()
      && Passes(w.scenario.script, old(w.Here()), w.scenario.CheckSteps())
    ensures flow.Ok? ==> w.At(Preparing) && Advances(w.scenario.script, old(w.Here()), w.Here(), w.scenario.CheckSteps())
    ensures flow.Stop? ==> Abnormal(flow.outcome)
    ensures flow.Stop? ==>
      || Halts(w.scenario.script, old(w.Here()), w.Here(), flow.outcome, flow.code)
      || w.scenario.PreflightStops(flow.outcome, flow.code)
      || (w.scenario.PreflightHolds() && w.scenario.PrecheckStops(flow.outcome, flow.code))
  {
    hide w.Valid, w.Filed, w.Audit, w.Here, InsideTry, Advances, Halts, Passes, OnTheWay, Steps.Then,
         w.scenario.PreflightHolds, w.scenario.PreflightStops, w.scenario.PrecheckHolds, w.scenario.PrecheckStops,
         w.scenario.ClusterSteps;
    ghost var c, script, start, all := w.scenario, w.scenario.script, w.Here(), w.scenario.CheckSteps();
    SetsOut(script, start, all);
    NextPart(script, start, start, PREFLIGHT, c.StepsAfterPreflight(), all);
    flow := LocalPreflight(w);
    if flow.Stop? {
      return;
    }
    ghost var preflighted := w.Here();
    Proceeds(script, start, start, preflighted, PREFLIGHT, c.StepsAfterPreflight(), all);
    NextPart(script, start, preflighted, PRECHECK, c.StepsAfterPrecheck(), all);
    flow := Precheck(w);
    if flow.Stop? {
      BreaksOff(script, start, preflighted, w.Here(), c.StepsAfterPreflight(), all, flow.outcome, flow.code);
      return;
    }
    ghost var prechecked := w.Here();
    Proceeds(script, start, preflighted, prechecked, PRECHECK, c.StepsAfterPrecheck(), all);
    NextPart(script, start, prechecked, c.ClusterSteps(), ONE_SAVE, all);
    flow := BestEffortClusterSnapshot(w);
    if flow.Stop? {
      BreaksOff(script, start, prechecked, w.Here(), c.StepsAfterPrecheck(), all, flow.outcome, flow.code);
      return;
    }
    ghost var collected := w.Here();
    Proceeds(script, start, prechecked, collected, c.ClusterSteps(), ONE_SAVE, all);
    var ok := w.Snapshot();
    LastPart(script, start, collected, w.Here(), ONE_SAVE, all);
    if !ok {
      BreaksOff(script, start, collected, w.Here(), ONE_SAVE, all, Failed, UNEXPECTED);
      return Stop(Failed, UNEXPECTED);
    }
  }

  /** Everything up to the settled reload. It succeeds exactly if all checks hold, a session opens, the
      device does not refuse, and nothing hinders it. */
  method PrepareAndReload(w: Workflow) returns (flow: Flow<nat>)
    requires w.Valid() && w.Guarded() && w.At(Preparing)
    modifies w, w.repository
    ensures w.Valid() && old(w.trace) <= w.trace && old(w.clock) <= w.clock && w.Guarded()
    ensures old(w.sequence) <= w.sequence <= old(w.sequence) + 6 + w.scenario.settings.sshMaxAttempts
    ensures flow.Ok? ==>
      && w.At(AwaitingMm) && w.scenario.PreparesTo(old(w.Here()), w.Here(), flow.value)
      && w.run == w.scenario.Reloaded(old(w.run))
    ensures Reserves(old(w.run), w.run, w.scenario.ReloadIsDue(), false)
    ensures forall n: nat :: w.scenario.Prepares(old(w.Here()), n) ==> flow.Ok?
    ensures flow.Stop? ==> Abnormal(flow.outcome)
    ensures flow.Stop? ==>
      || Halts(w.scenario.script, old(w.Here()), w.Here(), flow.outcome, flow.code)
      || w.scenario.PrepareStops(flow.outcome, flow.code)
  {
    hide w.Valid, w.Filed, w.Audit, w.Here, InsideTry, Advances, Halts, Passes, Steps.Then, w.scenario.PreflightHolds,
         w.scenario.PreflightStops, w.scenario.PrecheckHolds, w.scenario.PrecheckStops, w.scenario.CheckSteps,
         w.scenario.Prepares, w.scenario.PreparesTo, w.scenario.ConnectStops, w.scenario.ReloadStops,
         w.scenario.ReloadHolds, w.scenario.PrepareSteps, w.scenario.MayRetry, w.scenario.ConnectSteps;
    ghost var c, script, start := w.scenario, w.scenario.script, w.Here();
    c.PreparingChecks(start);
    var checked := Check(w);
    if checked.Stop? {
      return Stop(checked.outcome, checked.code);
    }
    ghost var before := w.Here();
    c.PreparingConnects(start, before);
    flow := ConnectActionEndpoint(w, false);
    if flow.Stop? {
      GoesOnToHaltIf(script, start, before, w.Here(), c.CheckSteps(), flow.outcome, flow.code);
      return;
    }
    ghost var connected := w.Here();
    c.PreparingReloads(start, before, connected, flow.value);
    var reloaded := ReloadOnce(w);
    if reloaded.Stop? {
      GoesOnToHaltIf(script, start, connected, w.Here(), c.CheckSteps().Then(c.ConnectSteps(false, flow.value)),
                     reloaded.outcome, reloaded.code);
      return Stop(reloaded.outcome, reloaded.code);
    }
    c.Prepared(start, connected, w.Here(), flow.value);
  }
}
