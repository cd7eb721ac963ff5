/** A whole run: claiming the target, the guarded region, and concluding whatever happened. */
module RemediationRun {
  import opened Prelude
  import opened RemediationTypes
  import opened RemediationStore
  import opened RemediationProtocol
  import opened RemediationEvidence
  import opened SshActions
  import opened RemediationScript
  import opened RemediationScenario
  import opened RemediationRegion
  import opened RemediationWorkflow
  import opened RemediationPreparation
  import opened RemediationRecovery
  import opened RemediationRebalance

  // ----- claiming

  method InsertRow(w: Workflow) returns (ok: bool)
    requires w.Valid() && w.At(Created)
    modifies w, w.repository
    ensures w.Valid() && old(w.trace) <= w.trace && old(w.clock) <= w.clock && w.run == old(w.run)
    ensures ok == w.scenario.script.durable(old(w.commits)) && w.repository.locks == old(w.repository.locks)
    ensures w.sequence == old(w.sequence) && w.Here() == After(old(w.Here()), ONE_SAVE)
    ensures if ok then w.At(Inserted) && w.Stored()
            else w.sys.live.None? && w.repository.Contents() == old(w.repository.Contents())
  {
    hide Execute, Undisturbed, Entries;
    ghost var action := Action.InsertRow(w.Answer());
    UndisturbedSnoc(w.trace, action);
    ok := w.repository.CreateRun(w.id, w.run, w.scenario.script.durable(w.commits));
    w.commits := w.commits + 1;
    w.Record(action);
  }

  lemma ClaimStep(c: Config, s: Sys, live: Live, durable: bool)
    requires s.live == Some(live) && live.pc == Inserted
    ensures Enabled(c, s, Action.ClaimLock(durable))
    ensures
      var t := Apply(c, s, Action.ClaimLock(durable));
      var ip := live.run.target;
      && t.now == s.now
      && t.db == (if LockHeld(s.db, ip) || !durable then s.db else ClaimedBy(s.db, ip, live.id))
      && t.live == if LockHeld(s.db, ip) then Some(live.(pc := ClaimLost))
                   else if durable then Some(live.(pc := Claimed)) else None
  {
    hide LockHeld, ClaimedBy;
  }

  /** A claimed lock is never taken over; a claim that the disk refuses ends the run with an exception. */
  method ClaimLock(w: Workflow) returns (claimed: ClaimResult)
    requires w.Valid() && w.At(Inserted)
    modifies w, w.repository
    ensures w.Valid() && old(w.trace) <= w.trace && old(w.clock) <= w.clock && w.run == old(w.run)
    ensures claimed == if LockHeld(old(w.repository.Contents()), w.scenario.target) then Lost
                       else if w.scenario.script.durable(old(w.commits)) then Won else ClaimError
    ensures w.sequence == old(w.sequence) && w.Here() == After(old(w.Here()), ONE_SAVE)
    ensures w.repository.runs == old(w.repository.runs)
    ensures !claimed.Won? ==> w.repository.locks == old(w.repository.locks)
    ensures match claimed case Won => w.At(Claimed) case Lost => w.At(ClaimLost) case ClaimError => w.sys.live.None?
  {
    hide Execute, Undisturbed, Entries, Enabled, Apply;
    ghost var action := Action.ClaimLock(w.Answer());
    ClaimStep(w.config, w.sys, w.sys.live.value, w.Answer());
    UndisturbedSnoc(w.trace, action);
    claimed := w.repository.ClaimTarget(w.scenario.target, w.id, w.scenario.script.durable(w.commits));
    w.commits := w.commits + 1;
    w.Record(action);
  }

  ghost method RecordEnter(w: Workflow)
    requires w.Valid() && w.At(Claimed)
    modifies w`sys, w`trace
    ensures w.Valid() && old(w.trace) <= w.trace && w.At(Preparing) && w.Guarded() && w.Here() == old(w.Here())
  {
    hide Execute, Enabled, Apply, Undisturbed, w.Audit;
    SilentStep(w.config, w.sys, w.sys.live.value, Action.EnterTry);
    UndisturbedSnoc(w.trace, Action.EnterTry);
    w.Record(Action.EnterTry);
  }

  /** The first snapshot and the first event; if either fails the run ends with an exception. */
  method Announce(w: Workflow) returns (ok: bool)
    requires w.Valid() && w.At(Claimed)
    modifies w, w.repository
    ensures w.Valid() && old(w.trace) <= w.trace && old(w.clock) <= w.clock && w.run == Staged(old(w.run), w.run.stage)
    ensures old(w.sequence) <= w.sequence <= old(w.sequence) + 1
    ensures ok == Passes(w.scenario.script, old(w.Here()), ANNOUNCEMENT)
    ensures if ok then w.At(Preparing) && w.Guarded() && Advances(w.scenario.script, old(w.Here()), w.Here(), ANNOUNCEMENT)
            else w.sys.live.None?
  {
    hide w.Valid, w.Filed, w.Audit, EnabledLive, Planned, IsCommit;
    MayAnnounce(w.sys.live.value, w.Answer(), DETECTED.code);
    ok := w.Commit(w.run, None, Action.Snapshot(w.Answer()));
    if !ok {
      return;
    }
    MayAnnounce(w.sys.live.value, w.Answer(), DETECTED.code);
    ok := w.Commit(Staged(w.run, Detected), Some(Event(w.sequence + 1, Detected, DETECTED.code)),
                   Action.Note(w.Answer(), Detected, DETECTED.code));
    if ok {
      RecordEnter(w);
    }
  }

  // ----- the guarded region

  ghost function MaxEvents(c: Scenario): nat
    requires c.settings.Valid()
  {
    12 + 2 * c.settings.sshMaxAttempts + MaxMmPolls(c) + MaxRejoinPolls(c) + MaxPostPolls(c)
  }

  ghost predicate PollsFit(c: Scenario, e: Evidence)
    requires c.settings.Valid()
  {
    e.mmPolls <= MaxMmPolls(c) && e.rejoinPolls <= MaxRejoinPolls(c) && e.postPolls <= MaxPostPolls(c)
  }

  /** A run that finished its preparation has its reload reserved, and one that finished the rebalance has it
      settled as the script says. */
  ghost predicate ReservedIf(c: Scenario, before: Run, after: Run, e: Evidence) {
    && (e.targetAttempts > 0 ==> after.reloadReserved)
    && (e.leaderAttempts > 0 ==> SettledFrom(c, before, after))
  }

  /** Apart from where it is and how it ended, this is the run with both writes settled. */
  ghost predicate SettledFrom(c: Scenario, before: Run, after: Run) {
    after == c.Rebalanced(c.Reloaded(before)).(
      stage := after.stage, leader := after.leader, outcome := after.outcome, failureCode := after.failureCode,
      endedAt := after.endedAt, reportPending := after.reportPending)
  }

  /** The guarded region: `Ok` says whether the monitoring ended stable, and is given exactly if the whole
      chain of evidence holds and nothing hinders it. */
  method Remediate(w: Workflow) returns (flow: Flow<bool>, e: Evidence)
    requires w.Valid() && w.Guarded() && w.At(Preparing)
    modifies w, w.repository
    ensures w.Valid() && old(w.trace) <= w.trace && old(w.clock) <= w.clock && w.Guarded()
    ensures w.scenario.settings.Valid() && PollsFit(w.scenario, e)
    ensures old(w.sequence) <= w.sequence <= old(w.sequence) + MaxEvents(w.scenario) - 3
    ensures flow.Ok? ==>
      && w.At(Monitored(e.leader, flow.value)) && RemediatesTo(w.scenario, old(w.Here()), w.Here(), e, flow.value)
      && OnlyMoved(w.scenario.Rebalanced(w.scenario.Reloaded(old(w.run))), w.run) && w.run.leader == e.postLeader
    ensures forall f, stable :: Remediates(w.scenario, old(w.Here()), f, stable) ==> flow == Ok(stable)
    ensures TellsDone(w.scenario, old(w.Here()).told, w.Here().told, e) && ReservedIf(w.scenario, old(w.run), w.run, e)
    ensures Reserves(old(w.run), w.run, w.scenario.ReloadIsDue(), RebalanceWasDue(w.scenario, old(w.readings), e))
    ensures flow.Stop? ==> Abnormal(flow.outcome)
    ensures flow.Stop? ==>
      || Halts(w.scenario.script, old(w.Here()), w.Here(), flow.outcome, flow.code)
      || RegionStops(w.scenario, old(w.readings), e, flow.outcome, flow.code)
  {
    hide w.Valid, w.Filed, w.Audit, w.Here, InsideTry, Advances, Halts, Passes, Steps.Then, CeilDiv, Remediates,
         RemediatesTo, OnlyMoved, SettledFrom, w.scenario.Rebalanced, w.scenario.Reloaded, w.scenario.Prepares,
         w.scenario.PreparesTo, w.scenario.PrepareSteps, w.scenario.PreparesAt, w.scenario.PrepareStops,
         w.scenario.Recovers, w.scenario.RecoversTo, w.scenario.RecoversAt, w.scenario.RecoverSteps,
         w.scenario.RecoverStops, w.scenario.Redistributes, w.scenario.RedistributesTo, w.scenario.RedistributesAt,
         w.scenario.RedistributeSteps, w.scenario.RedistributeStops, w.scenario.Monitors, w.scenario.MonitorsTo,
         w.scenario.PostStops, Reserves, RebalanceWasDue, w.scenario.ReloadIsDue, w.scenario.RebalanceIsDue;
    ghost var c, script, start, entered := w.scenario, w.scenario.script, w.Here(), w.run;
    w.SettingsAreValid();
    w.CountsHere();
    e := NO_EVIDENCE;
    RegionPrepares(c, start);
    var prepared := PrepareAndReload(w);
    if prepared.Stop? {
      w.TellsMore();
      NothingDone(c, start.told, w.Here().told);
      ReservesMore(entered, w.run, c.ReloadIsDue(), RebalanceWasDue(c, start.readings, e));
      return Stop(prepared.outcome, prepared.code), e;
    }
    ghost var a, reloaded := w.Here(), w.run;
    w.CountsHere();
    AfterPreparing(c, start, a, prepared.value);
    RegionRecovers(c, start, a, prepared.value);
    label Prepared:
    var leader, mmPolls, rejoinPolls := AwaitRecovery(w);
    e := e.(targetAttempts := prepared.value, mmPolls := mmPolls, rejoinPolls := rejoinPolls);
    if leader.Stop? {
      w.TellsMore@Prepared();
      DoneIsTold(c, start, a, w.Here().told, e);
      ReloadStaysReserved(c, old(w.run), reloaded, w.run, w.run, e);
      ReservesOnMoving(entered, reloaded, w.run, c.ReloadIsDue());
      ReservesMore(entered, w.run, c.ReloadIsDue(), RebalanceWasDue(c, start.readings, e));
      GoesOnToHaltIf(script, start, a, w.Here(), c.PrepareSteps(prepared.value), leader.outcome, leader.code);
      return Stop(leader.outcome, leader.code), e;
    }
    e := e.(leader := leader.value, recovered := true);
    ghost var b, recovered := w.Here(), w.run;
    ReservesOnMoving(entered, reloaded, recovered, c.ReloadIsDue());
    w.CountsHere();
    AfterRecovery(c, a, b, mmPolls, rejoinPolls, leader.value);
    RegionRedistributes(c, start, a, b, prepared.value, mmPolls, rejoinPolls, leader.value);
    label Recovered:
    var attempts := Redistribute(w, leader.value);
    ReservesThen(c, start.readings, entered, recovered, w.run, e);
    if attempts.Stop? {
      w.TellsMore@Recovered();
      DoneIsTold(c, start, b, w.Here().told, e);
      ReloadStaysReserved(c, old(w.run), reloaded, recovered, w.run, e);
      GoesOnToHaltIf(script, start, b, w.Here(), c.PrepareSteps(e.targetAttempts).Then(c.RecoverSteps(mmPolls, rejoinPolls)),
                     attempts.outcome, attempts.code);
      return Stop(attempts.outcome, attempts.code), e;
    }
    ghost var d, rebalanced, shown := w.Here(), w.run, e;
    e := e.(leaderAttempts := attempts.value);
    w.CountsHere();
    AfterRedistribution(c, b, d, attempts.value, leader.value);
    RegionMonitors(c, start, b, d, e);
    flow, e := MonitorRegion(w, start, e);
    RunMoves(c, old(w.run), reloaded, recovered, rebalanced, w.run);
    ReservesToTheEnd(c, start.readings, entered, rebalanced, w.run, shown, e);
  }

  lemma ReservesMore(before: Run, after: Run, reloadDue: bool, rebalanceDue: bool)
    requires Reserves(before, after, reloadDue, false)
    ensures Reserves(before, after, reloadDue, rebalanceDue)
  {
  }

  lemma ReservesOnMoving(start: Run, before: Run, after: Run, due: bool)
    requires Reserves(start, before, due, false) && OnlyMoved(before, after)
    ensures Reserves(start, after, due, false)
  {
  }

  /** The second phase that reserves, after the first. */
  lemma ReservesThen(c: Scenario, readings: nat, start: Run, before: Run, after: Run, e: Evidence)
    requires Reserves(start, before, c.ReloadIsDue(), false) && Reserves(before, after, false, c.RebalanceIsDue(e.leader))
    requires e.targetAttempts > 0 && c.PreparesAt(e.targetAttempts)
    requires c.RecoversAt(MmReadings(readings, e), e.mmPolls, e.rejoinPolls, e.leader)
    ensures Reserves(start, after, c.ReloadIsDue(), RebalanceWasDue(c, readings, e))
  {
    hide c.ReloadIsDue, c.RebalanceIsDue, c.PreparesAt, c.RecoversAt;
  }

  lemma ReloadStaysReserved(c: Scenario, start: Run, reloaded: Run, recovered: Run, end: Run, e: Evidence)
    requires reloaded == c.Reloaded(start) && OnlyMoved(reloaded, recovered) && e.leaderAttempts == 0
    requires end.reloadReserved == recovered.reloadReserved
    ensures ReservedIf(c, start, end, e)
  {
    hide ReloadPhase;
  }

  lemma RunMoves(c: Scenario, start: Run, reloaded: Run, recovered: Run, rebalanced: Run, end: Run)
    requires reloaded == c.Reloaded(start) && OnlyMoved(reloaded, recovered)
    requires rebalanced == c.Rebalanced(recovered) && OnlyMoved(rebalanced, end)
    ensures OnlyMoved(c.Rebalanced(c.Reloaded(start)), end) && SettledFrom(c, start, end) && end.reloadReserved
  {
    hide ReloadPhase, RebalancePhase, Triggers;
  }

  lemma ReservesToTheEnd(c: Scenario, readings: nat, start: Run, before: Run, after: Run, shown: Evidence, e: Evidence)
    requires Reserves(start, before, c.ReloadIsDue(), RebalanceWasDue(c, readings, shown)) && OnlyMoved(before, after)
    requires e == shown.(leaderAttempts := e.leaderAttempts, postPolls := e.postPolls, postLeader := e.postLeader)
    ensures Reserves(start, after, c.ReloadIsDue(), RebalanceWasDue(c, readings, e))
  {
    hide c.ReloadIsDue, c.RebalanceIsDue, c.PreparesAt, c.RecoversAt;
  }

  /** The last phase of the region, given what all earlier ones established since `start`. */
  method MonitorRegion(w: Workflow, ghost start: Progress, before: Evidence) returns (flow: Flow<bool>, e: Evidence)
    requires w.Valid() && w.Guarded() && w.At(Monitoring(before.leader))
    requires before.targetAttempts > 0 && before.mmPolls > 0 && w.scenario.MmSeen(before.mmPolls)
    requires before.rejoinPolls > 0 && before.recovered && before.leaderAttempts > 0
    requires w.scenario.PreparesAt(before.targetAttempts)
    requires w.scenario.RecoversAt(MmReadings(start.readings, before), before.mmPolls, before.rejoinPolls, before.leader)
    requires w.scenario.RedistributesAt(before.leaderAttempts, before.leader)
    requires w.readings == PostReadings(start.readings, before)
    requires Advances(w.scenario.script, start, w.Here(),
                      w.scenario.PrepareSteps(before.targetAttempts)
                        .Then(w.scenario.RecoverSteps(before.mmPolls, before.rejoinPolls))
                        .Then(w.scenario.RedistributeSteps(before.leaderAttempts)))
    modifies w, w.repository
    ensures w.Valid() && old(w.trace) <= w.trace && old(w.clock) <= w.clock && w.Guarded()
    ensures w.scenario.settings.Valid() && e.postPolls <= MaxPostPolls(w.scenario)
    ensures old(w.sequence) <= w.sequence <= old(w.sequence) + e.postPolls
    ensures OnlyMoved(old(w.run), w.run) && e == before.(postPolls := e.postPolls, postLeader := w.run.leader)
    ensures TellsDone(w.scenario, start.told, w.Here().told, e)
    ensures flow.Ok? ==>
      w.At(Monitored(before.leader, flow.value)) && RemediatesTo(w.scenario, start, w.Here(), e, flow.value)
    ensures forall n: nat, stable, leader :: w.scenario.Monitors(old(w.Here()), n, stable, leader) ==> flow == Ok(stable)
    ensures flow.Stop? ==> Abnormal(flow.outcome)
    ensures flow.Stop? ==>
      || Halts(w.scenario.script, start, w.Here(), flow.outcome, flow.code)
      || RegionStops(w.scenario, start.readings, e, flow.outcome, flow.code)
  {
    hide w.Valid, w.Filed, w.Audit, w.Here, InsideTry, Advances, Halts, Passes, Steps.Then, CeilDiv, RemediatesTo,
         OnlyMoved, w.scenario.PrepareSteps, w.scenario.PreparesAt, w.scenario.PrepareStops, w.scenario.RecoversAt,
         w.scenario.RecoverSteps, w.scenario.RecoverStops, w.scenario.RedistributesAt, w.scenario.RedistributeSteps,
         w.scenario.RedistributeStops, w.scenario.Monitors, w.scenario.MonitorsTo, w.scenario.PostStops;
    ghost var c, script, d := w.scenario, w.scenario.script, w.Here();
    w.CountsHere();
    var polls;
    flow, polls := Monitor(w, before.leader);
    e := before.(postPolls := polls, postLeader := w.run.leader);
    w.TellsMore();
    DoneIsTold(c, start, d, w.Here().told, e);
    if flow.Ok? {
      RegionDone(c, start, d, w.Here(), e, flow.value);
    } else {
      GoesOnToHaltIf(script, start, d, w.Here(),
                     c.PrepareSteps(e.targetAttempts).Then(c.RecoverSteps(e.mmPolls, e.rejoinPolls))
                       .Then(c.RedistributeSteps(e.leaderAttempts)),
                     flow.outcome, flow.code);
    }
  }

  // ----- concluding

  const REPORT_WRITE_FAILED := Text("REPORT_WRITE_FAILED")

  /** The row says what the workflow knows, except perhaps about the report. */
  ghost predicate Recorded(w: Workflow)
    reads w, w.repository
  {
    w.id in w.repository.runs
    && w.repository.runs[w.id] == w.run.(reportPending := w.repository.runs[w.id].reportPending)
  }

  /** The run as it was, concluded. */
  ghost predicate ConcludedFrom(before: Run, after: Run, outcome: Outcome, code: Code) {
    && after == before.(outcome := outcome, stage := after.stage, failureCode := code, endedAt := after.endedAt,
                        reportPending := after.reportPending)
    && after.endedAt.Some?
    && match outcome
       case Completed => after.stage.StageCompleted?
       case Partial => after.stage.StagePartial?
       case Failed => after.stage.StageFailed?
       case Stopped => after.stage.StageStopped?
       case Interrupted => after.stage.StageInterrupted?
       case Running => true
  }

  method Conclude(w: Workflow, outcome: Outcome, code: Code)
    requires w.Valid() && w.sys.live.Some? && w.At(w.sys.live.value.pc) && MayConclude(w.sys.live.value, outcome)
    modifies w`run, w`clock, w`readings, w`sys, w`trace
    ensures w.Valid() && old(w.trace) <= w.trace && old(w.clock) <= w.clock
    ensures w.sequence == old(w.sequence) && w.commits == old(w.commits) && w.asked == old(w.asked)
    ensures w.At(Finalizing(ReleasesLock(old(w.sys.live.value), outcome)))
    ensures w.clock == old(w.clock) + w.scenario.script.delay(old(w.readings)) && w.readings == old(w.readings) + 1
    ensures ConcludedFrom(old(w.run), w.run, outcome, code) && w.run.endedAt == Some(w.clock) && w.run.reportPending
  {
    hide w.Valid, w.Audit, MayConclude, ReleasesLock;
    w.ReadClock();
    TakeConclusion(w, outcome, code);
  }

  /** The conclusion itself: the run's last fields, and from now on only storing and releasing. */
  method TakeConclusion(w: Workflow, outcome: Outcome, code: Code)
    requires w.Valid() && w.sys.live.Some? && w.At(w.sys.live.value.pc) && MayConclude(w.sys.live.value, outcome)
    modifies w`run, w`sys, w`trace
    ensures w.Valid() && old(w.trace) <= w.trace
    ensures w.At(Finalizing(ReleasesLock(old(w.sys.live.value), outcome)))
    ensures ConcludedFrom(old(w.run), w.run, outcome, code) && w.run.endedAt == Some(w.clock) && w.run.reportPending
  {
    hide Execute, Planned, CommitLive, ReleasesLock, MayConclude, Undisturbed, w.Audit, Entries, EventsOf, w.Holds,
         HoldsLock, Enabled, Apply;
    ghost var action := Action.Conclude(outcome, code);
    UndisturbedSnoc(w.trace, action);
    ConcludeStep(w.config, w.sys, outcome, code);
    w.run := w.run.(outcome := outcome, stage := StageOf(outcome), failureCode := code, endedAt := Some(w.clock),
                    reportPending := true);
    w.Record(action);
  }

  lemma ConcludeStep(c: Config, s: Sys, outcome: Outcome, code: Code)
    requires s.live.Some? && MayConclude(s.live.value, outcome)
    ensures
      var live, a := s.live.value, Action.Conclude(outcome, code);
      var run := live.run.(outcome := outcome, stage := StageOf(outcome), failureCode := code, endedAt := Some(s.now),
                           reportPending := true);
      var pc := Finalizing(ReleasesLock(live, outcome));
      && Enabled(c, s, a) && Apply(c, s, a) == s.(live := Some(Live(live.id, run, live.sequence, pc)))
      && run.target == live.run.target && run.startedAt == live.run.startedAt
      && run.reloadReserved == live.run.reloadReserved && run.rebalanceReserved == live.run.rebalanceReserved
      && !live.pc.Created? && (HoldsLock(pc) ==> HoldsLock(live.pc))
  {
    WhereItConcludes(s.live.value, outcome);
    hide MayConclude, ReleasesLock, HoldsLock, Rank;
  }

  lemma WhereItConcludes(live: Live, outcome: Outcome)
    requires MayConclude(live, outcome)
    ensures !live.pc.Created? && (HoldsLock(Finalizing(ReleasesLock(live, outcome))) ==> HoldsLock(live.pc))
  {
  }

  /** One attempt to store the concluded run; failing leaves control where it is. */
  method StoreFinal(w: Workflow, event: Option<Code>, pending: bool) returns (ok: bool)
    requires w.Valid() && w.sys.live.Some? && w.sys.live.value.pc.Finalizing? && w.At(w.sys.live.value.pc)
    modifies w, w.repository
    ensures w.Valid() && old(w.trace) <= w.trace && w.clock == old(w.clock) && w.At(old(w.sys.live.value.pc))
    ensures w.sequence == old(w.sequence) + (if event.Some? then 1 else 0)
    ensures w.commits == old(w.commits) + 1 && ok == w.scenario.script.durable(old(w.commits)) && w.asked == old(w.asked)
    ensures w.run == old(w.run).(reportPending := pending)
    ensures w.Audit() == old(w.Audit()) + if ok && event.Some? then [Entry(w.run.stage, event.value)] else []
    ensures ok ==> w.Stored()
    ensures ok || old(Recorded(w)) ==> Recorded(w)
    ensures SameHolders(old(w.repository.locks), w.repository.locks)
  {
    hide w.Filed, w.Audit, w.Valid, EnabledLive, Planned, IsCommit, SameHolders;
    MayStoreFinal(w.sys.live.value, w.Answer(), event, pending);
    ok := w.Commit(w.run.(reportPending := pending),
                   if event.Some? then Some(Event(w.sequence + 1, w.run.stage, event.value)) else None,
                   FinalCommit(w.Answer(), event, pending));
  }

  /** The commit that says that the report is done, if storing the outcome begins with commit `first`. */
  ghost function ReportCommit(script: Script, first: nat): nat {
    if script.durable(first) then first + 1 else first + 2
  }

  /** The report is still to be written, or that it was could not be stored. */
  ghost predicate ReportPends(script: Script, first: nat) {
    !script.reportWritten || !script.durable(ReportCommit(script, first))
  }

  ghost predicate FailureIsTold(script: Script, first: nat) {
    ReportPends(script, first) && script.durable(ReportCommit(script, first) + if script.reportWritten then 1 else 0)
  }

  /** Stores the outcome with its event or, if that fails, at least the row. */
  method StoreOutcome(w: Workflow, code: Code, ghost release: bool)
    requires w.Valid() && w.At(Finalizing(release)) && w.run.reportPending
    modifies w, w.repository
    ensures w.Valid() && old(w.trace) <= w.trace && w.clock == old(w.clock) && w.At(Finalizing(release))
    ensures w.sequence == old(w.sequence) + 1 && w.run == old(w.run) && w.asked == old(w.asked)
    ensures w.commits == ReportCommit(w.scenario.script, old(w.commits)) > old(w.commits)
    ensures w.Audit() == old(w.Audit())
      + if w.scenario.script.durable(old(w.commits))
        then [Entry(w.run.stage, if code == NoCode then Text("COMPLETED") else code)] else []
    ensures w.scenario.script.durable(old(w.commits)) || w.scenario.script.durable(old(w.commits) + 1) ==> w.Stored()
    ensures SameHolders(old(w.repository.locks), w.repository.locks)
  {
    hide w.Filed, w.Audit, w.Valid, SameHolders;
    var ok := StoreFinal(w, Some(if code == NoCode then Text("COMPLETED") else code), true);
    ghost var locks := w.repository.locks;
    if !ok {
      ok := StoreFinal(w, None, true);
      HoldersStay(old(w.repository.locks), locks, w.repository.locks);
    }
  }

  /** Writes the report and stores that it is done or, if either fails, that it is still pending. */
  method StoreReport(w: Workflow, ghost release: bool)
    requires w.Valid() && w.At(Finalizing(release)) && w.run.reportPending
    modifies w, w.repository
    ensures w.Valid() && old(w.trace) <= w.trace && w.clock == old(w.clock) && w.At(Finalizing(release))
    ensures w.sequence == old(w.sequence) + (if w.run.reportPending then 1 else 0)
    ensures w.run == old(w.run).(reportPending := w.run.reportPending)
    ensures w.commits == old(w.commits) + (if w.run.reportPending && w.scenario.script.reportWritten then 2 else 1)
    ensures w.asked == old(w.asked) && SameHolders(old(w.repository.locks), w.repository.locks)
    ensures w.run.reportPending == !(w.scenario.script.reportWritten && w.scenario.script.durable(old(w.commits)))
    ensures (old(Recorded(w)) ==> Recorded(w)) && (w.run.reportPending || w.Stored())
    ensures w.Audit() == old(w.Audit())
      + if w.run.reportPending && w.scenario.script.durable(w.commits - 1) then [Entry(w.run.stage, REPORT_WRITE_FAILED)] else []
  {
    hide w.Filed, w.Audit, w.Valid, Recorded, SameHolders, w.Stored;
    var ok := w.scenario.script.reportWritten;
    if ok {
      ok := StoreFinal(w, None, false);
    }
    ghost var locks := w.repository.locks;
    if !ok {
      ok := StoreFinal(w, Some(REPORT_WRITE_FAILED), true);
      if w.scenario.script.reportWritten {
        HoldersStay(old(w.repository.locks), locks, w.repository.locks);
      }
    }
  }

  lemma LastSteps(c: Config, s: Sys, live: Live, durable: bool)
    requires s.live == Some(live) && live.pc.Finalizing?
    ensures Enabled(c, s, Action.Finish) && Apply(c, s, Action.Finish) == s.(live := None)
    ensures live.pc == Finalizing(true) ==>
      && Enabled(c, s, Unlock(durable))
      && var t := Apply(c, s, Unlock(durable));
         && t.now == s.now && t.live == s.live
         && t.db == if durable then Released(s.db, live.run.target, live.id) else s.db
  {
    hide LockHeld, RemediationStore.Released;
  }

  /** The lock is given up exactly if `release` says so and the disk takes it. */
  method ReleaseAndFinish(w: Workflow, release: bool)
    requires w.Valid() && w.At(Finalizing(release))
    modifies w, w.repository
    ensures w.Valid() && old(w.trace) <= w.trace && w.clock == old(w.clock) && w.sys.live.None?
    ensures w.run == old(w.run) && w.sequence == old(w.sequence) && w.Audit() == old(w.Audit()) && w.asked == old(w.asked)
    ensures w.commits == old(w.commits) + if release then 1 else 0
    ensures w.repository.Contents() == if release && w.scenario.script.durable(old(w.commits))
      then Released(old(w.repository.Contents()), w.scenario.target, w.id) else old(w.repository.Contents())
    ensures w.repository.runs == old(w.repository.runs)
  {
    hide Execute, Enabled, Apply, Undisturbed, Entries;
    LastSteps(w.config, w.sys, w.sys.live.value, w.Answer());
    if release {
      ghost var action := Unlock(w.Answer());
      UndisturbedSnoc(w.trace, action);
      var released := w.repository.ReleaseTarget(w.scenario.target, w.id, w.scenario.script.durable(w.commits));
      w.commits := w.commits + 1;
      w.Record(action);
      LastSteps(w.config, w.sys, w.sys.live.value, false);
    }
    UndisturbedSnoc(w.trace, Action.Finish);
    w.Record(Action.Finish);
  }

  /** What concluding adds to the audit trail, beginning with commit `first`: the outcome if its event can be
      stored, and a failed report if that can. */
  ghost predicate Closes(script: Script, first: nat, before: seq<Entry>, after: seq<Entry>, stage: Stage, code: Code) {
    var told :=
      before + if script.durable(first) then [Entry(stage, if code == NoCode then Text("COMPLETED") else code)] else [];
    after == told + if FailureIsTold(script, first) then [Entry(stage, REPORT_WRITE_FAILED)] else []
  }

  /** Whatever fails from here on, the run is over. One of two commits storing the outcome is enough for the
      row to say it, and the lock is given up exactly if `release` says so and the disk takes it. */
  method Finalize(w: Workflow, outcome: Outcome, code: Code, release: bool)
    requires w.Valid() && w.sys.live.Some? && w.At(w.sys.live.value.pc) && MayConclude(w.sys.live.value, outcome)
    requires release == ReleasesLock(w.sys.live.value, outcome)
    modifies w, w.repository
    ensures w.Valid() && old(w.trace) <= w.trace && old(w.clock) <= w.clock && w.sys.live.None?
    ensures old(w.sequence) <= w.sequence <= old(w.sequence) + 2 && w.commits > old(w.commits) && w.asked == old(w.asked)
    ensures ConcludedFrom(old(w.run), w.run, outcome, code) && w.run.endedAt == Some(w.clock)
    ensures w.clock == old(w.clock) + w.scenario.script.delay(old(w.readings))
    ensures w.run.reportPending == ReportPends(w.scenario.script, old(w.commits)) && (w.run.reportPending || w.Stored())
    ensures Closes(w.scenario.script, old(w.commits), old(w.Audit()), w.Audit(), w.run.stage, code)
    ensures w.scenario.script.durable(old(w.commits)) || w.scenario.script.durable(old(w.commits) + 1) ==> Recorded(w)
    ensures LockHeld(w.repository.Contents(), w.scenario.target)
      == (old(LockHeld(w.repository.Contents(), w.scenario.target))
          && !(release && old(w.repository.locks[w.scenario.target].runId) == w.id && w.scenario.script.durable(w.commits - 1)))
  {
    hide w.Valid, w.Filed, w.Audit, MayConclude, ReleasesLock, SameHolders, Entries, ConcludedFrom, Recorded,
         w.Stored, Closes, ReportCommit, FailureIsTold;
    ghost var script, first := w.scenario.script, w.commits;
    Conclude(w, outcome, code);
    ghost var concluded := w.run;
    StoreOutcome(w, code, release);
    ghost var locks := w.repository.locks;
    StoredIsRecorded(w);
    ghost var stored := w.Audit();
    StoreReport(w, release);
    ClosesInTwo(script, first, w.commits, old(w.Audit()), stored, w.Audit(), w.run, code);
    ReportIsNoConclusion(old(w.run), concluded, w.run, outcome, code);
    HoldersStay(old(w.repository.locks), locks, w.repository.locks);
    LocksStay(old(w.repository.locks), w.repository.locks, w.scenario.target);
    label Reported:
    ReleaseAndFinish(w, release);
    StillRecorded@Reported(w);
  }

  lemma ClosesInTwo(script: Script, first: nat, commits: nat, before: seq<Entry>, stored: seq<Entry>, after: seq<Entry>,
                    run: Run, code: Code)
    requires stored == before
      + if script.durable(first) then [Entry(run.stage, if code == NoCode then Text("COMPLETED") else code)] else []
    requires run.reportPending == ReportPends(script, first)
    requires commits == ReportCommit(script, first) + if run.reportPending && script.reportWritten then 2 else 1
    requires after == stored
      + if run.reportPending && script.durable(commits - 1) then [Entry(run.stage, REPORT_WRITE_FAILED)] else []
    ensures Closes(script, first, before, after, run.stage, code)
  {
  }

  lemma StoredIsRecorded(w: Workflow)
    ensures w.Stored() ==> Recorded(w)
  {
  }

  twostate lemma StillRecorded(w: Workflow)
    requires w.run == old(w.run) && w.repository.runs == old(w.repository.runs)
    ensures Recorded(w) == old(Recorded(w)) && w.Stored() == old(w.Stored())
  {
  }

  lemma ReportIsNoConclusion(before: Run, concluded: Run, after: Run, outcome: Outcome, code: Code)
    requires ConcludedFrom(before, concluded, outcome, code)
    requires after == concluded.(reportPending := after.reportPending)
    ensures ConcludedFrom(before, after, outcome, code) && after.stage == concluded.stage
  {
  }

  lemma LocksStay(before: map<Ip, Lock>, after: map<Ip, Lock>, ip: Ip)
    requires SameHolders(before, after)
    ensures ip in before <==> ip in after
    ensures ip in before ==> before[ip].runId == after[ip].runId && before[ip].active == after[ip].active
  {
  }

  lemma HoldsMeansHeld(w: Workflow)
    requires w.Valid() && w.sys.live.Some? && HoldsLock(w.sys.live.value.pc)
    ensures LockHeld(w.repository.Contents(), w.scenario.target)
    ensures w.repository.locks[w.scenario.target].runId == w.id
  {
  }

  /** Completed needs a stable monitoring and a confirmed rebalance; anything else that gets through is
      partial, and says which of the two was missing. */
  function OutcomeOf(flow: Flow<bool>, confirmed: bool): (Outcome, Code) {
    match flow
    case Stop(outcome, code) => (outcome, code)
    case Ok(stable) =>
      if stable && confirmed then (Completed, NoCode)
      else (Partial, Text(if stable then "REBALANCE_OUTPUT_UNCONFIRMED" else "POST_MONITOR_TIMEOUT"))
  }

  /** The outcome of the guarded region decides the outcome of the run, its failure code, and whether the
      lock is given up: after the monitoring, or if no reload was reserved. */
  method Close(w: Workflow, flow: Flow<bool>) returns (outcome: Outcome)
    requires w.Valid() && w.Guarded()
    requires flow.Ok? ==> w.sys.live.value.pc.Monitored? && w.sys.live.value.pc.healthy == flow.value
    requires flow.Stop? ==> Abnormal(flow.outcome)
    modifies w, w.repository
    ensures w.Valid() && old(w.trace) <= w.trace && old(w.clock) <= w.clock && w.sys.live.None?
    ensures old(w.sequence) <= w.sequence <= old(w.sequence) + 2 && w.commits > old(w.commits) && w.asked == old(w.asked)
    ensures outcome == OutcomeOf(flow, old(w.run.rebalanceConfirmed)).0
    ensures ConcludedFrom(old(w.run), w.run, outcome, OutcomeOf(flow, old(w.run.rebalanceConfirmed)).1)
    ensures w.run.endedAt == Some(w.clock) && w.clock == old(w.clock) + w.scenario.script.delay(old(w.readings))
    ensures w.run.reportPending == ReportPends(w.scenario.script, old(w.commits)) && (w.run.reportPending || w.Stored())
    ensures Closes(w.scenario.script, old(w.commits), old(w.Audit()), w.Audit(), w.run.stage, w.run.failureCode)
    ensures w.scenario.script.durable(old(w.commits)) || w.scenario.script.durable(old(w.commits) + 1) ==> Recorded(w)
    ensures LockHeld(w.repository.Contents(), w.scenario.target)
      <==> (flow.Stop? && old(w.run.reloadReserved)) || !w.scenario.script.durable(w.commits - 1)
  {
    hide w.Valid, w.Filed, w.Audit, Recorded, Closes, Rank, InsideTry, LockHeld;
    GuardedHolds(w);
    match flow
    case Stop(cause, code) =>
      outcome := cause;
      MayAbort(w.sys.live.value, cause);
      Finalize(w, cause, code, !w.run.reloadReserved);
    case Ok(stable) =>
      outcome := if stable && w.run.rebalanceConfirmed then Completed else Partial;
      var code := if outcome.Completed? then NoCode
                  else Text(if stable then "REBALANCE_OUTPUT_UNCONFIRMED" else "POST_MONITOR_TIMEOUT");
      Finalize(w, outcome, code, true);
  }

  lemma GuardedHolds(w: Workflow)
    requires w.Valid() && w.Guarded()
    ensures LockHeld(w.repository.Contents(), w.scenario.target)
    ensures w.repository.locks[w.scenario.target].runId == w.id
  {
    HoldsMeansHeld(w);
  }

  lemma MayAbort(live: Live, outcome: Outcome)
    requires InsideTry(live.pc) && Abnormal(outcome)
    ensures MayConclude(live, outcome) && ReleasesLock(live, outcome) == !live.run.reloadReserved
  {
  }

  // ----- the whole run

  datatype Opening = IntoTheTry | NotClaimed | Thrown

  /** Inserts the row, claims the lock and announces the run. */
  method Open(w: Workflow) returns (opening: Opening)
    requires w.Valid() && w.At(Created)
    modifies w, w.repository
    ensures w.Valid() && old(w.trace) <= w.trace && old(w.clock) <= w.clock && w.run == Staged(old(w.run), w.run.stage)
    ensures old(w.sequence) <= w.sequence <= old(w.sequence) + 1
    ensures opening.IntoTheTry?
      <==> !old(LockHeld(w.repository.Contents(), w.scenario.target)) && Passes(w.scenario.script, old(w.Here()), OPENING)
    ensures opening.NotClaimed?
      <==> old(LockHeld(w.repository.Contents(), w.scenario.target)) && Passes(w.scenario.script, old(w.Here()), ONE_SAVE)
    ensures match opening
            case IntoTheTry =>
              w.At(Preparing) && w.Guarded() && Advances(w.scenario.script, old(w.Here()), w.Here(), OPENING)
            case NotClaimed =>
              w.At(ClaimLost) && LockHeld(w.repository.Contents(), w.scenario.target) && w.Here().told == old(w.Here()).told
            case Thrown => w.sys.live.None?
  {
    hide w.Valid, w.Filed, w.Audit, w.Here, InsideTry, Advances, Passes, Steps.Then, Halts, LockHeld, After;
    ghost var script, start := w.scenario.script, w.Here();
    OpeningBegins(script, start);
    LocksDecide(w.repository, w.scenario.target);
    w.CountsHere();
    var ok := InsertRow(w);
    ghost var inserted := w.Here();
    SaveAdvances(script, start, inserted);
    if !ok {
      return Thrown;
    }
    LocksDecide(w.repository, w.scenario.target);
    OpeningClaims(script, start, inserted);
    w.CountsHere();
    var claimed := ClaimLock(w);
    ghost var claim := w.Here();
    SaveAdvances(script, inserted, claim);
    LocksDecide(w.repository, w.scenario.target);
    if claimed.ClaimError? {
      return Thrown;
    }
    if claimed.Lost? {
      return NotClaimed;
    }
    GoesOn(script, start, inserted, claim, ONE_SAVE, ONE_SAVE);
    UntoldSteps(ONE_SAVE, ONE_SAVE);
    ok := Announce(w);
    InTwoParts(script, start, claim, w.Here(), CLAIM, ANNOUNCEMENT, OPENING, Failed, UNEXPECTED);
    opening := if ok then IntoTheTry else Thrown;
  }

  lemma OpeningBegins(script: Script, start: Progress)
    ensures Passes(script, start, OPENING) ==> Passes(script, start, ONE_SAVE)
  {
  }

  lemma OpeningClaims(script: Script, start: Progress, inserted: Progress)
    requires Advances(script, start, inserted, ONE_SAVE)
    ensures Passes(script, start, OPENING) ==> Passes(script, inserted, ONE_SAVE)
  {
  }

  lemma SaveAdvances(script: Script, before: Progress, after: Progress)
    requires after == After(before, ONE_SAVE)
    ensures Passes(script, before, ONE_SAVE) == script.durable(before.commits)
    ensures Passes(script, before, ONE_SAVE) ==> Advances(script, before, after, ONE_SAVE)
    ensures after.told == before.told
  {
  }

  lemma UntoldSteps(first: Steps, second: Steps)
    requires first.entries == [] && second.entries == []
    ensures first.Then(second)
         == Steps([], first.plain + second.plain, first.asked + second.asked, first.readings + second.readings)
  {
  }

  lemma LocksDecide(repository: Repository, ip: Ip)
    ensures LockHeld(repository.Contents(), ip) <==> ip in repository.locks && repository.locks[ip].active
  {
  }

  const ALREADY_CLAIMED := Text("TARGET_ALREADY_CLAIMED")

  /** All that a run which got through knows at its end, and how far it has come: its audit trail, and its
      commits, questions and readings. */
  ghost predicate EndsWell(c: Scenario, start: Run, end: Run, e: Evidence, stable: bool, there: Progress) {
    && GetsThrough(c, e, stable) && there == After(BEGINNING, RunSteps(c, e, stable))
    && (end.outcome.Completed? <==> stable && Triggers(c.script.rebalance))
    && ConcludedFrom(c.Rebalanced(c.Reloaded(start)).(leader := e.postLeader), end, end.outcome,
                     OutcomeOf(Ok(stable), Triggers(c.script.rebalance)).1)
  }

  /** The commits before the guarded region succeed; with a held lock there is only one. */
  ghost predicate Opens(script: Script, held: bool) {
    Passes(script, BEGINNING, if held then ONE_SAVE else OPENING)
  }

  /** What a whole run comes to. `held` says whether the lock was held when it started, `there` is how far the
      run had come when the outcome was decided. */
  ghost predicate Verdict(c: Scenario, held: bool, start: Run, result: Option<Outcome>, end: Run, e: Evidence, there: Progress) {
    Decides(c, held, result) && (result.Some? ==> Tells(c, held, start, result.value, end, e, there))
  }

  /** `None` is an exception before the guarded region, exactly if one of the first commits fails. COMPLETED
      and PARTIAL are given exactly where they are due. */
  ghost predicate Decides(c: Scenario, held: bool, result: Option<Outcome>) {
    && (result.None? <==> !Opens(c.script, held))
    && (result == Some(Completed) <==> !held && Completes(c))
    && (result == Some(Partial) <==> !held && EndsPartially(c))
  }

  /** COMPLETED and PARTIAL tell the whole chain of evidence in the audit trail and leave exactly the run that
      this evidence makes; any other outcome is explained, with its failure code and the trail of what was done. */
  ghost predicate Tells(c: Scenario, held: bool, start: Run, outcome: Outcome, end: Run, e: Evidence, there: Progress) {
    && end.outcome == outcome && end.endedAt.Some?
    && if outcome.Completed? || outcome.Partial? then exists stable :: EndsWell(c, start, end, e, stable, there)
       else if held then outcome == Stopped && end.failureCode == ALREADY_CLAIMED && there.told == []
       else Explained(c, e, there, outcome, end.failureCode) && ReservedIf(c, start, end, e)
  }

  lemma VerdictBeforeTheTry(c: Scenario, held: bool, start: Run, end: Run, there: Progress)
    ensures !Opens(c.script, held) ==>
      Verdict(c, held, start, None, end, NO_EVIDENCE, there)
    ensures held && Passes(c.script, BEGINNING, ONE_SAVE) && ConcludedFrom(start, end, Stopped, ALREADY_CLAIMED)
            && there.told == [] ==>
      Verdict(c, held, start, Some(Stopped), end, NO_EVIDENCE, there)
  {
    hide Justified, CountsFit, RegionSteps, Passes, EndsWell, Explained, Triggers;
    forall e, stable | GetsThrough(c, e, stable)
      ensures Passes(c.script, BEGINNING, OPENING)
    {
      FirstPart(c.script, BEGINNING, OPENING, RegionSteps(c, e, stable), RunSteps(c, e, stable));
    }
  }

  /** The verdict on a run whose guarded region went from `here` to `there` and ended with `flow`. */
  lemma VerdictOf(c: Scenario, start: Run, entered: Run, before: Run, end: Run, here: Progress, there: Progress,
                  flow: Flow<bool>, e: Evidence)
    requires entered == Staged(start, entered.stage) && Advances(c.script, BEGINNING, here, OPENING)
    requires flow.Ok? ==>
      && RemediatesTo(c, here, there, e, flow.value) && before.leader == e.postLeader
      && OnlyMoved(c.Rebalanced(c.Reloaded(entered)), before)
    requires forall f, stable :: Remediates(c, here, f, stable) ==> flow == Ok(stable)
    requires flow.Stop? ==>
      && Abnormal(flow.outcome)
      && (Halts(c.script, here, there, flow.outcome, flow.code) || RegionStops(c, here.readings, e, flow.outcome, flow.code))
    requires ConcludedFrom(before, end, OutcomeOf(flow, before.rebalanceConfirmed).0,
                           OutcomeOf(flow, before.rebalanceConfirmed).1)
    requires TellsDone(c, here.told, there.told, e) && ReservedIf(c, entered, before, e)
    ensures Verdict(c, false, start, Some(end.outcome), end, e, there)
  {
    hide TellsDone, SettledFrom, ReservedIf, Justified, CountsFit, RegionSteps, Passes, Advances, Halts, RegionStops,
         Remediates, RemediatesTo, GetsThrough, Triggers, ReloadPhase, RebalancePhase, Steps.Then, RunSteps;
    GettingThrough(c, here);
    OpeningPasses(c, here);
    if flow.Ok? {
      EndOfGood(c, start, entered, before, end, e, flow.value);
      hide OnlyMoved, ConcludedFrom, c.Rebalanced, c.Reloaded;
      GotThrough(c, here, there, e, flow.value);
      ArrivedThere(c.script, there, RunSteps(c, e, flow.value));
      assert EndsWell(c, start, end, e, flow.value, there);
    } else {
      GoesOnToHaltIf(c.script, BEGINNING, here, there, OPENING, flow.outcome, flow.code);
      StillReserved(c, start, entered, before, end, e);
    }
  }

  lemma EndOfGood(c: Scenario, start: Run, entered: Run, before: Run, end: Run, e: Evidence, stable: bool)
    requires entered == Staged(start, entered.stage) && before.leader == e.postLeader
    requires OnlyMoved(c.Rebalanced(c.Reloaded(entered)), before)
    requires ConcludedFrom(before, end, OutcomeOf(Ok(stable), before.rebalanceConfirmed).0,
                           OutcomeOf(Ok(stable), before.rebalanceConfirmed).1)
    ensures before.rebalanceConfirmed == Triggers(c.script.rebalance) && end.endedAt.Some?
    ensures end.outcome == OutcomeOf(Ok(stable), Triggers(c.script.rebalance)).0
    ensures ConcludedFrom(c.Rebalanced(c.Reloaded(start)).(leader := e.postLeader), end, end.outcome,
                          OutcomeOf(Ok(stable), Triggers(c.script.rebalance)).1)
  {
    hide ReloadPhase, RebalancePhase, Triggers;
  }

  lemma StillReserved(c: Scenario, start: Run, entered: Run, before: Run, end: Run, e: Evidence)
    requires entered == Staged(start, entered.stage) && ReservedIf(c, entered, before, e)
    requires ConcludedFrom(before, end, end.outcome, end.failureCode)
    ensures ReservedIf(c, start, end, e)
  {
    hide ReloadPhase, RebalancePhase, Triggers;
  }

  lemma OpeningPasses(c: Scenario, here: Progress)
    requires Advances(c.script, BEGINNING, here, OPENING)
    ensures Passes(c.script, BEGINNING, OPENING) && here.told == OPENING.entries && here.readings == 0
  {
  }

  lemma ArrivedThere(script: Script, there: Progress, steps: Steps)
    requires Advances(script, BEGINNING, there, steps)
    ensures there == After(BEGINNING, steps)
  {
  }

  /** What this run has written was due, as far as it was reserved only where it is due. */
  lemma WritesWereDue(w: Workflow, start: Run, before: Run, e: Evidence)
    requires w.Valid() && !start.reloadReserved && !start.rebalanceReserved
    requires Reserves(start, before, w.scenario.ReloadIsDue(), RebalanceWasDue(w.scenario, 0, e))
    requires w.run.reloadReserved == before.reloadReserved && w.run.rebalanceReserved == before.rebalanceReserved
    ensures w.origin.log <= w.sys.log
    ensures forall i :: |w.origin.log| <= i < |w.sys.log| ==>
      && (w.sys.log[i].ReloadSent? ==>
            && w.scenario.ReloadIsDue() && w.scenario.script.precheck.Seen? && w.scenario.script.precheck.value.complete
            && w.scenario.target in w.scenario.expected
            && var states := w.scenario.script.precheck.value.states;
               forall ip :: ip in w.scenario.expected ==> ((ip in states && states[ip] == Down) <==> ip == w.scenario.target))
      && (w.sys.log[i].RebalanceSent? ==> RebalanceWasDue(w.scenario, 0, e))
  {
    hide w.Filed, RebalanceWasDue, Execute, Undisturbed;
    LogTellsWrites(w.config, w.origin, w.trace, w.sys);
  }

  lemma ConcludingKeeps(before: Run, after: Run, outcome: Outcome, code: Code)
    requires ConcludedFrom(before, after, outcome, code)
    ensures after.outcome == outcome && after.failureCode == code
    ensures after.reloadReserved == before.reloadReserved && after.rebalanceReserved == before.rebalanceReserved
  {
  }

  lemma StageIsForgotten(start: Run, before: Run, after: Run, outcome: Outcome, code: Code)
    requires before == Staged(start, before.stage) && ConcludedFrom(before, after, outcome, code)
    ensures ConcludedFrom(start, after, outcome, code)
  {
  }

  lemma NothingReserved(start: Run, after: Run, reloadDue: bool, rebalanceDue: bool)
    requires after == Staged(start, after.stage)
    ensures Reserves(start, after, reloadDue, rebalanceDue)
    ensures after.reloadReserved == start.reloadReserved && after.rebalanceReserved == start.rebalanceReserved
  {
  }

  /** A whole run, for every script. It ends, with bounded polls and audit events; its trace is a run of the
      protocol; and its verdict is exact. `there` is how far it had come when the outcome was decided; from then
      on nothing is asked, and one of the next two commits is enough for the row to tell everything. The lock
      stays only if it was held before, if a reload was reserved and the monitoring not reached, or if the disk
      refuses the release. */
  method RunWorkflow(w: Workflow) returns (result: Option<Outcome>, e: Evidence, ghost there: Progress)
    requires w.Valid() && w.At(Created) && w.Here() == BEGINNING && !w.run.reloadReserved && !w.run.rebalanceReserved
    modifies w, w.repository
    ensures w.Valid() && old(w.trace) <= w.trace && old(w.clock) <= w.clock && w.sys.live.None?
    ensures w.scenario.settings.Valid() && PollsFit(w.scenario, e) && w.sequence <= MaxEvents(w.scenario)
    ensures Verdict(w.scenario, old(LockHeld(w.repository.Contents(), w.scenario.target)), old(w.run), result, w.run, e, there)
    ensures w.origin.log <= w.sys.log
    ensures forall i :: |w.origin.log| <= i < |w.sys.log| ==>
      && (w.sys.log[i].ReloadSent? ==>
            && w.scenario.ReloadIsDue() && w.scenario.script.precheck.Seen? && w.scenario.script.precheck.value.complete
            && w.scenario.target in w.scenario.expected
            && var states := w.scenario.script.precheck.value.states;
               forall ip :: ip in w.scenario.expected ==> ((ip in states && states[ip] == Down) <==> ip == w.scenario.target))
      && (w.sys.log[i].RebalanceSent? ==> RebalanceWasDue(w.scenario, 0, e))
    ensures result.Some? ==>
      && there.commits < w.commits && there.asked == w.asked
      && w.run.endedAt == Some(w.clock)
      && w.run.reportPending == ReportPends(w.scenario.script, there.commits) && (w.run.reportPending || w.Stored())
      && Closes(w.scenario.script, there.commits, there.told, w.Audit(), w.run.stage, w.run.failureCode)
      && (w.scenario.script.durable(there.commits) || w.scenario.script.durable(there.commits + 1) ==> Recorded(w))
      && (LockHeld(w.repository.Contents(), w.scenario.target) <==>
            || old(LockHeld(w.repository.Contents(), w.scenario.target))
            || (Abnormal(w.run.outcome) && w.run.reloadReserved)
            || !w.scenario.script.durable(w.commits - 1))
  {
    hide w.Valid, w.Filed, w.Audit, w.Here, InsideTry, Advances, Halts, Passes, Steps.Then, CeilDiv, Remediates,
         RemediatesTo, GetsThrough, RegionStops, OnlyMoved, Closes, Recorded, EndsWell, Verdict, Triggers, LockHeld,
         Rank, TellsDone, ReservedIf, w.scenario.Rebalanced, w.scenario.Reloaded, Reserves, RebalanceWasDue,
         w.scenario.ReloadIsDue, ConcludedFrom;
    ghost var c, held, start := w.scenario, LockHeld(w.repository.Contents(), w.scenario.target), w.run;
    w.SettingsAreValid();
    w.CountsHere();
    e := NO_EVIDENCE;
    there := BEGINNING;
    var opening := Open(w);
    match opening
    case Thrown =>
      result := None;
      VerdictBeforeTheTry(c, held, start, w.run, there);
      NothingReserved(start, w.run, c.ReloadIsDue(), RebalanceWasDue(c, 0, e));
      WritesWereDue(w, start, w.run, e);
    case NotClaimed =>
      there := w.Here();
      w.CountsHere();
      w.ToldHere();
      ghost var before := w.run;
      Finalize(w, Stopped, ALREADY_CLAIMED, false);
      result := Some(Stopped);
      StageIsForgotten(start, before, w.run, Stopped, ALREADY_CLAIMED);
      VerdictBeforeTheTry(c, held, start, w.run, there);
      NothingReserved(start, before, c.ReloadIsDue(), RebalanceWasDue(c, 0, e));
      ConcludingKeeps(before, w.run, Stopped, ALREADY_CLAIMED);
      WritesWereDue(w, start, before, e);
    case IntoTheTry =>
      ghost var here, entered := w.Here(), w.run;
      w.CountsHere();
      var flow;
      flow, e := Remediate(w);
      ghost var before := w.run;
      there := w.Here();
      w.CountsHere();
      w.ToldHere();
      var outcome := Close(w, flow);
      result := Some(outcome);
      ConcludingKeeps(before, w.run, outcome, OutcomeOf(flow, before.rebalanceConfirmed).1);
      OpeningPasses(c, here);
      VerdictOf(c, start, entered, before, w.run, here, there, flow, e);
      NothingReserved(start, entered, c.ReloadIsDue(), RebalanceWasDue(c, 0, e));
      WritesWereDue(w, entered, before, e);
  }

  // ----- the workflow inside the whole system

  lemma {:induction false} ExecuteConcat(c: Config, s: Sys, before: seq<Action>, m: Sys, after: seq<Action>, t: Sys)
    requires Execute(c, s, before) == Some(m) && Execute(c, m, after) == Some(t)
    ensures Execute(c, s, before + after) == Some(t)
  {
    hide Enabled, Apply;
    if after == [] {
      assert before + after == before;
    } else {
      var init := after[..|after| - 1];
      ExecuteConcat(c, s, before, m, init, Execute(c, m, init).value);
      assert (before + after)[..|before + after| - 1] == before + init;
    }
  }

  lemma {:induction false} ExecutePrefix(c: Config, s: Sys, actions: seq<Action>, n: nat)
    requires Execute(c, s, actions).Some? && n <= |actions|
    ensures Execute(c, s, actions[..n]).Some?
  {
    hide Enabled, Apply;
    if n == |actions| {
      assert actions[..n] == actions;
    } else {
      var init := actions[..|actions| - 1];
      ExecutePrefix(c, s, init, n);
      assert init[..n] == actions[..n];
    }
  }

  lemma {:induction false} StaysUp(c: Config, s: Sys, actions: seq<Action>, t: Sys)
    requires s.up && Undisturbed(actions) && Execute(c, s, actions) == Some(t)
    ensures t.up
  {
    hide Enabled, Apply;
    if actions == [] {
    } else {
      var init := actions[..|actions| - 1];
      StaysUp(c, s, init, Execute(c, s, init).value);
      StepStaysUp(c, Execute(c, s, init).value, actions[|actions| - 1]);
    }
  }

  lemma StepStaysUp(c: Config, s: Sys, a: Action)
    requires s.up && Enabled(c, s, a) && !a.Crash? && !a.Restart?
    ensures Apply(c, s, a).up
  {
  }

  /** A crash after any statement of a workflow leaves a state that the protocol reaches, so whatever is
      proved of all runs of the protocol holds of a workflow that dies anywhere. */
  lemma CrashAnywhere(w: Workflow, now: int, before: seq<Action>, n: nat)
    requires w.Valid() && w.origin.up && Execute(w.config, Initial(now), before) == Some(w.origin)
    requires n <= |w.trace|
    ensures Execute(w.config, Initial(now), before + w.trace[..n]).Some?
    ensures Execute(w.config, Initial(now), before + w.trace[..n] + [Crash]).Some?
    ensures Execute(w.config, Initial(now), before + w.trace) == Some(w.sys)
  {
    hide Enabled, Apply;
    ExecutePrefix(w.config, w.origin, w.trace, n);
    var m := Execute(w.config, w.origin, w.trace[..n]).value;
    ExecuteConcat(w.config, Initial(now), before, w.origin, w.trace[..n], m);
    ExecuteConcat(w.config, Initial(now), before, w.origin, w.trace, w.sys);
    StaysUp(w.config, w.origin, w.trace[..n], m);
    CrashEnabled(w.config, m);
    ExecuteSnoc(w.config, Initial(now), before + w.trace[..n], m, Crash);
  }

  lemma CrashEnabled(c: Config, s: Sys)
    requires s.up
    ensures Enabled(c, s, Crash)
  {
  }
}
