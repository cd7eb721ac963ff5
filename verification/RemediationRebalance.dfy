/** The final gate, the rebalance, and the monitoring after it. */
module RemediationRebalance {
  import opened Prelude
  import opened RemediationTypes
  import opened RemediationStore
  import opened RemediationProtocol
  import opened RemediationEvidence
  import opened SshActions
  import opened RemediationScript
  import opened RemediationPolling
  import opened RemediationScenario
  import opened RemediationWorkflow
  import opened RemediationPreparation

  // ----- the gate

  method CommitGatePass(w: Workflow, leader: Ip) returns (ok: bool)
    requires w.Valid() && w.At(Rejoined(leader))
    modifies w, w.repository
    ensures w.Valid() && old(w.trace) <= w.trace && old(w.clock) <= w.clock && w.Guarded() && w.sequence == old(w.sequence) + 1
    ensures w.run == Staged(old(w.run), FinalGate)
    ensures ok == Passes(w.scenario.script, old(w.Here()), Told(GATE_PASSED))
    ensures if ok then w.At(Gated(leader)) && Advances(w.scenario.script, old(w.Here()), w.Here(), Told(GATE_PASSED))
            else w.At(Faulted) && Halts(w.scenario.script, old(w.Here()), w.Here(), Failed, UNEXPECTED)
  {
    hide w.Filed, w.Audit, w.Valid, EnabledLive, Planned, IsCommit, InsideTry;
    MayPassGate(w.sys.live.value, w.Answer());
    InsideTryPcs(leader, true);
    ok := w.Commit(Staged(w.run, FinalGate), Some(Event(w.sequence + 1, FinalGate, GateWasPassed)), PassGate(w.Answer()));
  }

  /** Passes exactly if both sources, asked again, meet all conditions under the rejoin's leader, and
      nothing hinders it; otherwise it names the first reason. */
  method PassFinalGate(w: Workflow, leader: Ip) returns (flow: Flow<()>)
    requires w.Valid() && w.Guarded() && w.At(Rejoined(leader))
    modifies w, w.repository
    ensures w.Valid() && old(w.trace) <= w.trace && old(w.clock) <= w.clock && w.Guarded()
    ensures old(w.sequence) <= w.sequence <= old(w.sequence) + 1
    ensures w.run == Staged(old(w.run), w.run.stage)
    ensures flow.Ok? <==> w.scenario.GateShown(leader) && Passes(w.scenario.script, old(w.Here()), GATE)
    ensures flow.Ok? ==> w.At(Gated(leader)) && Advances(w.scenario.script, old(w.Here()), w.Here(), GATE)
    ensures flow.Stop? ==> Abnormal(flow.outcome)
    ensures flow.Stop? ==>
      || Halts(w.scenario.script, old(w.Here()), w.Here(), flow.outcome, flow.code)
      || w.scenario.GateStops(leader, flow.outcome, flow.code)
  {
    hide w.Valid, w.Filed, w.Audit, InsideTry, Steps.Then, GateHolds, FirstReason;
    var membership, mm := w.scenario.script.gateMembership, w.scenario.script.gateMm;
    if membership.PollRaised? {
      return Caught(membership.error);
    }
    if mm.PollRaised? {
      return Caught(mm.error);
    }
    var passed, reasons, reasonCode :=
      FinalRebalanceGate(mm.value, membership.value, leader, w.scenario.target, w.scenario.expected);
    var ok := w.Snapshot();
    if !ok {
      return Stop(Failed, UNEXPECTED);
    }
    if !passed {
      return Stop(Failed, Text(reasonCode));
    }
    ok := CommitGatePass(w, leader);
    flow := if ok then Ok(()) else Stop(Failed, UNEXPECTED);
  }

  // ----- the rebalance

  method ReserveRebalanceSlot(w: Workflow, leader: Ip) returns (ok: bool)
    requires w.Valid() && w.At(Gated(leader))
    modifies w, w.repository
    ensures w.Valid() && old(w.trace) <= w.trace && old(w.clock) <= w.clock && w.Guarded() && w.sequence == old(w.sequence) + 1
    ensures w.run == Staged(old(w.run), Rebalance).(rebalanceReserved := true, rebalancePhase := Phase.Reserved)
    ensures ok == Passes(w.scenario.script, old(w.Here()), Told(REBALANCE_DISPATCH_RESERVED))
    ensures if ok then w.At(RebalanceReserved(leader))
                       && Advances(w.scenario.script, old(w.Here()), w.Here(), Told(REBALANCE_DISPATCH_RESERVED))
            else w.At(Faulted) && Halts(w.scenario.script, old(w.Here()), w.Here(), Failed, UNEXPECTED)
  {
    hide w.Filed, w.Audit, w.Valid, EnabledLive, Planned, IsCommit, InsideTry;
    MayReserveRebalance(w.sys.live.value, w.Answer());
    InsideTryPcs(leader, true);
    ok := w.Commit(Staged(w.run, Rebalance).(rebalanceReserved := true, rebalancePhase := Phase.Reserved),
                   Some(Event(w.sequence + 1, Rebalance, RebalanceDispatchReserved)), ReserveRebalance(w.Answer()));
  }

  ghost method RecordRebalanceWrite(w: Workflow, leader: Ip)
    requires w.Valid() && w.At(RebalanceReserved(leader))
    modifies w`sys, w`trace
    ensures w.Valid() && old(w.trace) <= w.trace && w.At(RebalanceWritten(leader)) && w.Here() == old(w.Here())
    ensures w.sys.log == old(w.sys.log) + [RebalanceSent(w.id, leader)]
  {
    hide Execute, Enabled, Apply, Undisturbed, w.Audit;
    SilentStep(w.config, w.sys, w.sys.live.value, Action.WriteRebalance);
    UndisturbedSnoc(w.trace, Action.WriteRebalance);
    w.Record(Action.WriteRebalance);
  }

  /** The one attempt to write: the trace has a write exactly if the command reaches the device. */
  method DispatchRebalance(w: Workflow, leader: Ip) returns (reply: Reply)
    requires w.Valid() && w.At(RebalanceReserved(leader))
    modifies w`sys, w`trace
    ensures w.Valid() && old(w.trace) <= w.trace && w.Guarded() && w.Here() == old(w.Here())
    ensures w.sequence == old(w.sequence) && w.run == old(w.run) && w.clock == old(w.clock)
    ensures w.At(if ReachesDevice(w.scenario.script.rebalance) then RebalanceWritten(leader) else RebalanceReserved(leader))
    ensures w.sys.log == old(w.sys.log)
      + if ReachesDevice(w.scenario.script.rebalance) then [RebalanceSent(w.id, leader)] else []
    ensures match RebalanceError(w.scenario.script.rebalance)
            case Some(error) => reply == Raised(error)
            case None => reply == Result(RebalanceCode(w.scenario.script.rebalance), true,
                                         RebalancePhase(w.scenario.script.rebalance))
    ensures reply.Result? && ProvesWrite(reply.code) ==> w.At(RebalanceWritten(leader))
  {
    hide w.Valid, w.Here, InsideTry, RebalanceError, RebalanceCode, RebalancePhase;
    InsideTryPcs(leader, true);
    RebalanceAnswerProvesWrite(w.scenario.script.rebalance);
    var channel := new Channel(w.scenario.script.rebalance);
    reply := channel.RunRebalance();
    if channel.written != [] {
      RecordRebalanceWrite(w, leader);
    }
  }

  method SettleRebalanceResult(w: Workflow, ghost pc: Pc, leader: Ip, code: ActionCode, sent: bool, phase: Phase)
    returns (ok: bool)
    requires w.Valid() && w.At(pc)
    requires pc == RebalanceWritten(leader) || (pc == RebalanceReserved(leader) && !ProvesWrite(code))
    modifies w, w.repository
    ensures w.Valid() && old(w.trace) <= w.trace && old(w.clock) <= w.clock && w.Guarded() && w.sequence == old(w.sequence) + 1
    ensures w.run == Staged(old(w.run), Rebalance).(rebalanceSent := sent, rebalancePhase := phase,
                                                    rebalanceConfirmed := code == RebalanceTriggered)
    ensures ok == Passes(w.scenario.script, old(w.Here()), Told(Entry(Rebalance, ResultOf(code))))
    ensures if ok then Advances(w.scenario.script, old(w.Here()), w.Here(), Told(Entry(Rebalance, ResultOf(code))))
            else Halts(w.scenario.script, old(w.Here()), w.Here(), Failed, UNEXPECTED)
    ensures w.At(if !ok then Faulted else if RefusesRebalance(code) then RebalanceRefused else Monitoring(leader))
  {
    hide w.Filed, w.Audit, w.Valid, EnabledLive, Planned, IsCommit, InsideTry, Advances, Halts, Passes;
    ghost var before := w.Here();
    MaySettleRebalance(w.sys.live.value, w.Answer(), code, sent, phase);
    InsideTryPcs(leader, true);
    ok := w.Commit(Staged(w.run, Rebalance).(rebalanceSent := sent, rebalancePhase := phase,
                                             rebalanceConfirmed := code == RebalanceTriggered),
                   Some(Event(w.sequence + 1, Rebalance, ResultOf(code))), SettleRebalance(w.Answer(), code, sent, phase));
    OneCommit(w.scenario.script, before, w.Here(), Told(Entry(Rebalance, ResultOf(code))), ok);
  }

  /** Commits the reservation, makes the one attempt to write, and commits what is known of it. Goes on
      exactly if the call yields a result that is no refusal, and both commits succeed. */
  method RebalanceOnce(w: Workflow, leader: Ip) returns (flow: Flow<()>)
    requires w.Valid() && w.Guarded() && w.At(Gated(leader))
    modifies w, w.repository
    ensures w.Valid() && old(w.trace) <= w.trace && old(w.clock) <= w.clock && w.Guarded()
    ensures old(w.sequence) <= w.sequence <= old(w.sequence) + 2
    ensures flow.Ok? <==> w.scenario.RebalanceHolds() && Passes(w.scenario.script, old(w.Here()), w.scenario.RebalanceSteps())
    ensures flow.Ok? ==>
      && w.At(Monitoring(leader)) && Advances(w.scenario.script, old(w.Here()), w.Here(), w.scenario.RebalanceSteps())
      && w.run == w.scenario.Rebalanced(old(w.run))
    ensures w.run.reloadReserved == old(w.run.reloadReserved)
    ensures flow.Stop? ==> Abnormal(flow.outcome)
    ensures flow.Stop? ==>
      || Halts(w.scenario.script, old(w.Here()), w.Here(), flow.outcome, flow.code)
      || w.scenario.RebalanceStops(flow.outcome, flow.code)
  {
    hide w.Valid, w.Filed, w.Here, InsideTry, Advances, Halts, Passes, Steps.Then, RebalanceError, RebalanceCode,
         RebalancePhase, ReachesDevice, Triggers;
    ghost var script, start, all := w.scenario.script, w.Here(), w.scenario.RebalanceSteps();
    ghost var result := Told(Entry(Rebalance, ResultOf(RebalanceCode(script.rebalance))));
    var ok := ReserveRebalanceSlot(w, leader);
    ghost var reserved := w.Here();
    if !ok {
      FirstPart(script, start, Told(REBALANCE_DISPATCH_RESERVED), result, all);
      return Stop(Failed, UNEXPECTED);
    }
    TriggeredIff(script.rebalance);
    var reply := DispatchRebalance(w, leader);
    if reply.Raised? {
      return Caught(SshError(reply.error));
    }
    ok := SettleRebalanceResult(w, w.sys.live.value.pc, leader, reply.code, reply.sent, reply.phase);
    InTwoParts(script, start, reserved, w.Here(), Told(REBALANCE_DISPATCH_RESERVED), result, all, Failed, UNEXPECTED);
    if !ok {
      return Stop(Failed, UNEXPECTED);
    }
    flow := if RefusesRebalance(reply.code) then Stop(Failed, ResultOf(reply.code)) else Ok(());
  }

  /** Connects to the leader, passes the gate on that session and rebalances. It succeeds exactly if a
      session opens, the gate's conditions hold, the device does not refuse, and nothing hinders it. */
  method Redistribute(w: Workflow, leader: Ip) returns (flow: Flow<nat>)
    requires w.Valid() && w.Guarded() && w.At(Rejoined(leader))
    modifies w, w.repository
    ensures w.Valid() && old(w.trace) <= w.trace && old(w.clock) <= w.clock && w.Guarded()
    ensures old(w.sequence) <= w.sequence <= old(w.sequence) + 3 + w.scenario.settings.sshMaxAttempts
    ensures flow.Ok? ==>
      && w.At(Monitoring(leader)) && w.scenario.RedistributesTo(old(w.Here()), w.Here(), flow.value, leader)
      && w.run == w.scenario.Rebalanced(old(w.run))
    ensures w.run.reloadReserved == old(w.run.reloadReserved)
    ensures Reserves(old(w.run), w.run, false, w.scenario.RebalanceIsDue(leader))
    ensures forall n: nat :: w.scenario.Redistributes(old(w.Here()), n, leader) ==> flow.Ok?
    ensures flow.Stop? ==> Abnormal(flow.outcome)
    ensures flow.Stop? ==>
      || Halts(w.scenario.script, old(w.Here()), w.Here(), flow.outcome, flow.code)
      || w.scenario.RedistributeStops(leader, flow.outcome, flow.code)
  {
    hide w.Valid, w.Filed, w.Audit, w.Here, InsideTry, Advances, Halts, Passes, Steps.Then, Caught,
         w.scenario.GateShown, w.scenario.GateStops, w.scenario.RebalanceStops, w.scenario.RebalanceHolds,
         w.scenario.RebalanceSteps, w.scenario.ConnectStops, w.scenario.MayRetry, w.scenario.ConnectSteps,
         w.scenario.Redistributes, w.scenario.RedistributesTo;
    ghost var c, script, start := w.scenario, w.scenario.script, w.Here();
    c.RedistributingConnects(start, leader);
    flow := ConnectActionEndpoint(w, true);
    if flow.Stop? {
      return;
    }
    ghost var before := w.Here();
    c.RedistributingGate(start, before, flow.value, leader);
    var step := PassFinalGate(w, leader);
    if step.Stop? {
      GoesOnToHaltIf(script, start, before, w.Here(), c.ConnectSteps(true, flow.value), step.outcome, step.code);
      return Stop(step.outcome, step.code);
    }
    ghost var gated := w.Here();
    c.RedistributingRebalance(start, before, gated, flow.value, leader);
    step := RebalanceOnce(w, leader);
    if step.Stop? {
      GoesOnToHaltIf(script, start, gated, w.Here(), c.ConnectSteps(true, flow.value).Then(GATE), step.outcome, step.code);
      return Stop(step.outcome, step.code);
    }
    c.Redistributed(start, gated, w.Here(), flow.value, leader);
  }

  // ----- after the rebalance

  ghost function MaxPostPolls(c: Scenario): nat
    requires c.settings.Valid()
  {
    CeilDiv(c.settings.postTimeoutSeconds, c.settings.postPollSeconds)
  }

  /** What one poll shows, without touching the store. */
  method LookForNormal(c: Scenario, poll: nat) returns (flow: Flow<Option<Ip>>)
    ensures flow.Ok? <==> c.PostPollSeen(poll)
    ensures flow.Ok? ==> flow.value == c.PostVerdict(poll)
    ensures flow.Stop? ==> Abnormal(flow.outcome) && c.PostRaises(poll, flow.outcome, flow.code)
  {
    var mm, cluster := c.script.postMm(poll), c.script.postCluster(poll);
    if mm.PollRaised? {
      return Caught(mm.error);
    }
    if cluster.PollRaised? {
      return Caught(cluster.error);
    }
    var leaders := if cluster.value.membershipComplete then cluster.value.Leaders() else {};
    var valid := mm.value.complete && mm.value.AllUp(c.expected)
                 && cluster.value.membershipComplete && cluster.value.distributionComplete && |leaders| == 1
                 && cluster.value.AllConnected(c.expected) && cluster.value.AllDistributed(c.expected);
    if !valid {
      if |cluster.value.Leaders()| != 1 {
        NobodyLeadsAlone(cluster.value);
      }
      return Ok(None);
    }
    var leader :| leader in leaders;
    OnlyLeader(leaders, leader);
    LeadersLead(cluster.value, leader);
    c.PostVerdictIsLeader(poll, leader);
    flow := Ok(Some(leader));
  }

  /** One poll: asks, counts the streak, reports; `Ok` carries the new streak. */
  method PollPost(w: Workflow, gated: Ip, poll: nat, stable: nat, leader: Ip) returns (flow: Flow<(nat, Ip)>)
    requires w.Valid() && w.Guarded() && w.At(Monitoring(gated)) && poll > 0
    requires stable < w.scenario.settings.postConfirmations
    requires Streak(w.scenario.PostPolling().Verdicts(poll - 1), stable, leader)
    requires w.scenario.PostPolling().NotYet(poll - 1)
    modifies w, w.repository
    ensures w.Valid() && old(w.trace) <= w.trace && w.clock == old(w.clock) && w.Guarded()
    ensures old(w.sequence) <= w.sequence <= old(w.sequence) + 1 && w.readings == old(w.readings)
    ensures w.run == Staged(old(w.run), w.run.stage)
    ensures flow.Ok? ==>
      && w.At(Monitoring(gated)) && w.scenario.PostPolling().Seen(poll)
      && Streak(w.scenario.PostPolling().Verdicts(poll), flow.value.0, flow.value.1)
      && Advances(w.scenario.script, old(w.Here()), w.Here(), w.scenario.PostPolling().PollSteps(poll))
    ensures flow.Ok? && flow.value.0 >= w.scenario.settings.postConfirmations ==>
      FirstConfirmed(w.scenario.PostPolling().Verdicts(poll), w.scenario.settings.postConfirmations, flow.value.1)
    ensures flow.Ok? && flow.value.0 < w.scenario.settings.postConfirmations ==> w.scenario.PostPolling().NotYet(poll)
    ensures flow.Stop? ==> Abnormal(flow.outcome)
    ensures flow.Stop? ==>
      || (Halts(w.scenario.script, old(w.Here()), w.Here(), flow.outcome, flow.code)
          && !Passes(w.scenario.script, old(w.Here()), w.scenario.PostPolling().PollSteps(poll)))
      || (w.scenario.PostRaises(poll, flow.outcome, flow.code) && !w.scenario.PostPollSeen(poll))
  {
    hide w.Valid, w.Filed, w.Audit, w.Here, InsideTry, Advances, Halts, Passes, Steps.Then, Streak, FirstConfirmed,
         NeverConfirmed, w.scenario.PostRaises, w.scenario.PostPollSeen, w.scenario.PostVerdict, Polling.Verdicts,
         Polling.NotYet, Polling.Seen, Counted;
    ghost var p := w.scenario.PostPolling();
    p.OneMoreCounted(poll - 1, stable, leader);
    ghost var script, start := w.scenario.script, w.Here();
    QuestionComesFirst(script, start, p.entry(poll));
    var cancelled := w.Cancelled();
    ghost var answered := w.Here();
    if cancelled {
      return Stop(Stopped, OPERATOR_STOPPED);
    }
    var shown := LookForNormal(w.scenario, poll);
    if shown.Stop? {
      return Stop(shown.outcome, shown.code);
    }
    var ok := w.Note(PostMonitoring, Text(if shown.value.Some? then "NORMAL" else "NOT_STABLE"));
    AskedAndTold(script, start, answered, w.Here(), p.entry(poll));
    flow := if ok then Ok(Counted(shown.value, stable, leader)) else Stop(Failed, UNEXPECTED);
  }

  method CommitStable(w: Workflow, gated: Ip, leader: Ip) returns (ok: bool)
    requires w.Valid() && w.At(Monitoring(gated))
    modifies w, w.repository
    ensures w.Valid() && old(w.trace) <= w.trace && old(w.clock) <= w.clock && w.Guarded() && w.sequence == old(w.sequence)
    ensures w.run == old(w.run).(leader := leader)
    ensures ok == Passes(w.scenario.script, old(w.Here()), ONE_SAVE)
    ensures if ok then w.At(Monitored(gated, true)) && Advances(w.scenario.script, old(w.Here()), w.Here(), ONE_SAVE)
            else w.At(Faulted) && Halts(w.scenario.script, old(w.Here()), w.Here(), Failed, UNEXPECTED)
  {
    hide w.Filed, w.Audit, w.Valid, EnabledLive, Planned, IsCommit, InsideTry, Advances, Halts, Passes;
    ghost var before := w.Here();
    MayConfirmStable(w.sys.live.value, w.Answer(), leader);
    InsideTryPcs(gated, true);
    ok := w.Commit(w.run.(leader := leader), None, ConfirmStable(w.Answer(), leader));
    OneCommit(w.scenario.script, before, w.Here(), ONE_SAVE, ok);
  }

  ghost method RecordTimeout(w: Workflow, gated: Ip)
    requires w.Valid() && w.At(Monitoring(gated))
    modifies w`sys, w`trace
    ensures w.Valid() && old(w.trace) <= w.trace && w.At(Monitored(gated, false)) && w.Here() == old(w.Here())
  {
    hide Execute, Enabled, Apply, Undisturbed, w.Audit;
    SilentStep(w.config, w.sys, w.sys.live.value, Action.GiveUpMonitoring);
    UndisturbedSnoc(w.trace, Action.GiveUpMonitoring);
    w.Record(Action.GiveUpMonitoring);
  }

  /** One round of the loop: the poll, and then the commit that follows a confirmation or the wait for the
      next poll. `start` is where the loop began. */
  method PostRound(w: Workflow, ghost start: Progress, gated: Ip, poll: nat, stable: nat, leader: Ip)
    returns (flow: Flow<(nat, Ip)>)
    requires w.Valid() && w.Guarded() && w.At(Monitoring(gated)) && poll > 0
    requires stable < w.scenario.settings.postConfirmations
    requires Streak(w.scenario.PostPolling().Verdicts(poll - 1), stable, leader)
    requires w.scenario.PostPolling().NotYet(poll - 1) && w.scenario.PostPolling().PollInTime(start.readings, poll)
    requires Advances(w.scenario.script, start, w.Here(), w.scenario.PostPolling().WaitedSteps(poll - 1))
    modifies w, w.repository
    ensures w.Valid() && old(w.trace) <= w.trace && old(w.clock) <= w.clock && w.Guarded()
    ensures old(w.sequence) <= w.sequence <= old(w.sequence) + 1
    ensures OnlyMoved(old(w.run), w.run)
    ensures flow.Ok? && flow.value.0 >= w.scenario.settings.postConfirmations ==>
      && w.At(Monitored(gated, true)) && w.run.leader == flow.value.1
      && w.scenario.PostPolling().Confirms(start, poll, flow.value.1)
      && Advances(w.scenario.script, start, w.Here(), w.scenario.PostPolling().ConfirmSteps(poll))
    ensures flow.Ok? && flow.value.0 < w.scenario.settings.postConfirmations ==>
      && w.At(Monitoring(gated)) && w.run.leader == old(w.run.leader) && w.scenario.PostPolling().NotYet(poll)
      && Streak(w.scenario.PostPolling().Verdicts(poll), flow.value.0, flow.value.1)
      && Advances(w.scenario.script, start, w.Here(), w.scenario.PostPolling().WaitedSteps(poll))
      && w.readings == old(w.readings) + 1
      && w.clock == old(w.clock) + w.scenario.settings.postPollSeconds * SECOND + w.scenario.script.delay(old(w.readings))
    ensures forall n: nat, other :: w.scenario.PostPolling().Confirms(start, n, other) ==> flow.Ok?
    ensures forall n: nat :: w.scenario.PostPolling().Expires(start, n) ==>
      flow.Ok? && flow.value.0 < w.scenario.settings.postConfirmations
    ensures flow.Stop? ==> Abnormal(flow.outcome)
    ensures flow.Stop? ==>
      || Halts(w.scenario.script, start, w.Here(), flow.outcome, flow.code)
      || w.scenario.PostStops(start.readings, poll, flow.outcome, flow.code)
  {
    hide w.Valid, w.Filed, w.Audit, w.Here, InsideTry, Advances, Halts, Passes, Steps.Then, Streak, FirstConfirmed,
         NeverConfirmed, InTime, w.scenario.PostRaises, w.scenario.PostPollSeen, w.scenario.PostVerdict,
         w.scenario.PostStops, Polling.Verdicts, Polling.Confirms, Polling.Expires, Polling.Seen, Polling.PollSteps,
         Polling.WaitedSteps, Polling.PolledSteps, Polling.ConfirmSteps, Polling.NotYet, Polling.PollInTime;
    ghost var p, script, before := w.scenario.PostPolling(), w.scenario.script, w.Here();
    w.SettingsAreValid();
    p.NextPollIsAhead(start, before, poll - 1);
    flow := PollPost(w, gated, poll, stable, leader);
    ghost var polled := w.Here();
    if flow.Stop? {
      GoesOnToHaltIf(script, start, before, polled, p.WaitedSteps(poll - 1), flow.outcome, flow.code);
      w.scenario.RaisingStopsPost(start.readings, poll, flow.outcome, flow.code);
      return;
    }
    p.PollEnds(start, before, polled, poll - 1);
    if flow.value.0 >= w.scenario.settings.postConfirmations {
      p.SaveIsAhead(start, polled, poll, flow.value.1);
      var ok := CommitStable(w, gated, flow.value.1);
      if !ok {
        GoesOnToHaltIf(script, start, polled, w.Here(), p.PolledSteps(poll), Failed, UNEXPECTED);
        return Stop(Failed, UNEXPECTED);
      }
      p.SaveEnds(start, polled, w.Here(), poll);
    } else {
      p.WaitIsAhead(start, polled, poll);
      var cancelled := w.Wait(w.scenario.settings.postPollSeconds);
      if cancelled {
        GoesOnToHaltIf(script, start, polled, w.Here(), p.PolledSteps(poll), Stopped, OPERATOR_STOPPED);
        return Stop(Stopped, OPERATOR_STOPPED);
      }
      p.WaitEnds(start, polled, w.Here(), poll);
    }
  }

  /** The polling loop: `Ok(false)` says that the time was up without a confirmation. */
  method PollUntilStable(w: Workflow, gated: Ip) returns (flow: Flow<bool>, polls: nat)
    requires w.Valid() && w.Guarded() && w.At(Monitoring(gated))
    modifies w, w.repository
    ensures w.Valid() && old(w.trace) <= w.trace && old(w.clock) <= w.clock && w.Guarded()
    ensures w.scenario.settings.Valid() && polls <= MaxPostPolls(w.scenario)
    ensures old(w.sequence) <= w.sequence <= old(w.sequence) + polls
    ensures OnlyMoved(old(w.run), w.run)
    ensures flow.Ok? ==> w.At(if flow.value then Monitored(gated, true) else Monitoring(gated))
    ensures flow.Ok? && flow.value ==>
      && w.scenario.PostPolling().Confirms(old(w.Here()), polls, w.run.leader)
      && Advances(w.scenario.script, old(w.Here()), w.Here(), w.scenario.PostPolling().ConfirmSteps(polls))
    ensures flow.Ok? && !flow.value ==>
      && w.run.leader == old(w.run.leader) && w.scenario.PostPolling().Expires(old(w.Here()), polls)
      && Advances(w.scenario.script, old(w.Here()), w.Here(), w.scenario.PostPolling().WaitedSteps(polls))
    ensures forall n: nat, leader :: w.scenario.PostPolling().Confirms(old(w.Here()), n, leader) ==> flow == Ok(true)
    ensures forall n: nat :: w.scenario.PostPolling().Expires(old(w.Here()), n) ==> flow == Ok(false)
    ensures flow.Stop? ==> Abnormal(flow.outcome)
    ensures flow.Stop? ==>
      || Halts(w.scenario.script, old(w.Here()), w.Here(), flow.outcome, flow.code)
      || w.scenario.PostStops(old(w.readings), polls, flow.outcome, flow.code)
  {
    hide w.Valid, w.Filed, w.Audit, w.Here, InsideTry, Advances, Halts, Passes, Steps.Then, Streak, FirstConfirmed,
         NeverConfirmed, CeilDiv, Clocked, InTime, w.scenario.PostRaises, w.scenario.PostPollSeen,
         w.scenario.PostVerdict, w.scenario.PostStops, Polling.Verdicts, Polling.Confirms, Polling.Expires,
         Polling.Seen, Polling.WaitedSteps, Polling.ConfirmSteps, Polling.NotYet, Polling.ExpiredAt,
         Polling.PollInTime, OnlyMoved;
    NotMoved(w.run);
    ghost var p, script, start := w.scenario.PostPolling(), w.scenario.script, w.Here();
    w.SettingsAreValid();
    w.CountsHere();
    var interval, timeout := w.scenario.settings.postPollSeconds, w.scenario.settings.postTimeoutSeconds;
    var stable: nat, leader: Ip := 0, "";
    p.NoPollYet(leader);
    polls := 0;
    var started := w.StartTimer();
    ClockStarts(script, start.readings, interval, started, w.clock);
    var deadline := started + timeout * SECOND;
    while w.clock < deadline
      invariant w.Valid() && old(w.trace) <= w.trace && old(w.clock) <= w.clock && w.Guarded() && w.At(Monitoring(gated))
      invariant polls <= CeilDiv(timeout, interval)
      invariant old(w.sequence) <= w.sequence <= old(w.sequence) + polls
      invariant OnlyMoved(old(w.run), w.run) && w.run.leader == old(w.run.leader)
      invariant w.readings == start.readings + 2 + polls
      invariant Clocked(script, start.readings, polls, interval, started, w.clock)
      invariant polls > 0 ==> p.PollInTime(start.readings, polls)
      invariant stable < p.confirmations && Streak(p.Verdicts(polls), stable, leader) && p.NotYet(polls)
      invariant Advances(script, start, w.Here(), p.WaitedSteps(polls))
      decreases CeilDiv(timeout, interval) - polls
    {
      ghost var clock, run := w.clock, w.run;
      ClockTells(script, start.readings, polls, interval, timeout, started, clock);
      p.PollTimes(start.readings, polls + 1);
      polls := polls + 1;
      var counted := PostRound(w, start, gated, polls, stable, leader);
      MovesOn(old(w.run), run, w.run);
      if counted.Stop? {
        return Stop(counted.outcome, counted.code), polls;
      }
      stable, leader := counted.value.0, counted.value.1;
      if stable >= w.scenario.settings.postConfirmations {
        return Ok(true), polls;
      }
      ClockGoesOn(script, start.readings, polls - 1, interval, started, clock, w.clock);
    }
    ClockTells(script, start.readings, polls, interval, timeout, started, w.clock);
    p.PollTimes(start.readings, polls + 1);
    p.ExpiryIsHere(start, w.Here(), polls);
    flow := Ok(false);
  }

  /** `Ok(true)` exactly at the first poll where the last `postConfirmations` polls were all normal under
      one leader; `Ok(false)` exactly if the time is up without such a poll. */
  method PostMonitor(w: Workflow, gated: Ip) returns (flow: Flow<bool>, polls: nat)
    requires w.Valid() && w.Guarded() && w.At(Monitoring(gated))
    modifies w, w.repository
    ensures w.Valid() && old(w.trace) <= w.trace && old(w.clock) <= w.clock && w.Guarded()
    ensures w.scenario.settings.Valid() && polls <= MaxPostPolls(w.scenario)
    ensures old(w.sequence) <= w.sequence <= old(w.sequence) + polls
    ensures OnlyMoved(old(w.run), w.run)
    ensures flow.Ok? ==> w.At(Monitored(gated, flow.value))
    ensures flow.Ok? && flow.value ==>
      && w.scenario.PostPolling().Confirms(old(w.Here()), polls, w.run.leader)
      && Advances(w.scenario.script, old(w.Here()), w.Here(), w.scenario.PostPolling().ConfirmSteps(polls))
    ensures flow.Ok? && !flow.value ==>
      && w.run.leader == old(w.run.leader) && w.scenario.PostPolling().Expires(old(w.Here()), polls)
      && Advances(w.scenario.script, old(w.Here()), w.Here(), w.scenario.PostPolling().WaitedSteps(polls))
    ensures forall n: nat, leader :: w.scenario.PostPolling().Confirms(old(w.Here()), n, leader) ==> flow == Ok(true)
    ensures forall n: nat :: w.scenario.PostPolling().Expires(old(w.Here()), n) ==> flow == Ok(false)
    ensures flow.Stop? ==> Abnormal(flow.outcome)
    ensures flow.Stop? ==>
      || Halts(w.scenario.script, old(w.Here()), w.Here(), flow.outcome, flow.code)
      || w.scenario.PostStops(old(w.readings), polls, flow.outcome, flow.code)
  {
    hide w.Valid, w.Filed, w.Audit, w.Here, InsideTry, Advances, Halts, Passes, Steps.Then, CeilDiv,
         w.scenario.PostStops, Polling.Confirms, Polling.Expires, Polling.WaitedSteps, Polling.ConfirmSteps;
    flow, polls := PollUntilStable(w, gated);
    if flow == Ok(false) {
      RecordTimeout(w, gated);
      InsideTryPcs(gated, false);
    }
  }

  /** The monitoring and the last snapshot; `Ok` says whether the aftermath was stable. */
  method Monitor(w: Workflow, gated: Ip) returns (flow: Flow<bool>, polls: nat)
    requires w.Valid() && w.Guarded() && w.At(Monitoring(gated))
    modifies w, w.repository
    ensures w.Valid() && old(w.trace) <= w.trace && old(w.clock) <= w.clock && w.Guarded()
    ensures w.scenario.settings.Valid() && polls <= MaxPostPolls(w.scenario)
    ensures old(w.sequence) <= w.sequence <= old(w.sequence) + polls
    ensures OnlyMoved(old(w.run), w.run) && (flow == Ok(false) ==> w.run.leader == old(w.run.leader))
    ensures flow.Ok? ==>
      w.At(Monitored(gated, flow.value)) && w.scenario.MonitorsTo(old(w.Here()), w.Here(), polls, flow.value, w.run.leader)
    ensures forall n: nat, stable, leader :: w.scenario.Monitors(old(w.Here()), n, stable, leader) ==> flow == Ok(stable)
    ensures flow.Stop? ==> Abnormal(flow.outcome)
    ensures flow.Stop? ==>
      || Halts(w.scenario.script, old(w.Here()), w.Here(), flow.outcome, flow.code)
      || w.scenario.PostStops(old(w.readings), polls, flow.outcome, flow.code)
  {
    hide w.Valid, w.Filed, w.Audit, w.Here, InsideTry, Advances, Halts, Passes, Steps.Then, CeilDiv,
         w.scenario.PostStops, w.scenario.Monitors, w.scenario.MonitorsTo, Polling.Confirms, Polling.Expires,
         Polling.WaitedSteps, Polling.ConfirmSteps, OnlyMoved;
    ghost var c, script, start := w.scenario, w.scenario.script, w.Here();
    c.MonitoringPolls(start);
    flow, polls := PostMonitor(w, gated);
    if flow.Stop? {
      return;
    }
    ghost var before := w.Here();
    c.MonitoringSaves(start, before, polls, flow.value, w.run.leader);
    var ok := w.Snapshot();
    if !ok {
      GoesOnToHaltIf(script, start, before, w.Here(), c.PostSteps(polls, flow.value), Failed, UNEXPECTED);
      return Stop(Failed, UNEXPECTED), polls;
    }
    c.Monitored(start, before, w.Here(), polls, flow.value, w.run.leader);
  }
}
