/** The waits after the reload: until MM shows the target up, and until the cluster confirms its rejoin. */
module RemediationRecovery {
  import opened Prelude
  import opened RemediationTypes
  import opened RemediationStore
  import opened RemediationProtocol
  import opened RemediationEvidence
  import opened SshActions
  import opened RemediationScript
  import opened RemediationPolling
  import opened RemediationScenario
  import opened RemediationWorkflow

  // ----- MM

  ghost function MaxMmPolls(c: Scenario): nat
    requires c.settings.Valid()
  {
    CeilDiv(c.settings.mmUpTimeoutSeconds, c.settings.mmPollSeconds)
  }

  ghost method RecordMmUp(w: Workflow)
    requires w.Valid() && w.At(AwaitingMm)
    modifies w`sys, w`trace
    ensures w.Valid() && old(w.trace) <= w.trace && w.At(AwaitingRejoin) && w.Here() == old(w.Here())
  {
    hide Execute, Enabled, Apply, Undisturbed, w.Audit;
    SilentStep(w.config, w.sys, w.sys.live.value, Action.SeeMmUp);
    UndisturbedSnoc(w.trace, Action.SeeMmUp);
    w.Record(Action.SeeMmUp);
  }

  /** One poll: `Ok` says whether it completely shows the target up. */
  method PollMm(w: Workflow, poll: nat) returns (flow: Flow<bool>)
    requires w.Valid() && w.Guarded() && w.At(AwaitingMm)
    modifies w, w.repository
    ensures w.Valid() && old(w.trace) <= w.trace && w.clock == old(w.clock) && w.Guarded()
    ensures old(w.sequence) <= w.sequence <= old(w.sequence) + 1 && w.readings == old(w.readings)
    ensures w.run == Staged(old(w.run), w.run.stage)
    ensures flow.Ok? ==>
      && w.scenario.script.mmUp(poll).Seen? && flow.value == w.scenario.MmShowsUp(poll)
      && w.At(if flow.value then AwaitingRejoin else AwaitingMm)
      && Advances(w.scenario.script, old(w.Here()), w.Here(), w.scenario.MmPollSteps(poll))
    ensures flow.Stop? ==> Abnormal(flow.outcome)
    ensures flow.Stop? ==>
      || (Halts(w.scenario.script, old(w.Here()), w.Here(), flow.outcome, flow.code)
          && (w.scenario.script.mmUp(poll).Seen? ==>
                !Passes(w.scenario.script, old(w.Here()), w.scenario.MmPollSteps(poll))))
      || Raises(w.scenario.script.mmUp(poll), flow.outcome, flow.code)
  {
    hide w.Valid, w.Filed, w.Audit, InsideTry;
    var cancelled := w.Cancelled();
    if cancelled {
      return Stop(Stopped, OPERATOR_STOPPED);
    }
    var mm := w.scenario.script.mmUp(poll);
    if mm.PollRaised? {
      return Caught(mm.error);
    }
    var up := mm.value.ShowsUp(w.scenario.target);
    var ok := w.Note(WaitingMmUp, Text(mm.value.PollCode(w.scenario.target)));
    if ok && up {
      ok := w.Snapshot();
    }
    if !ok {
      return Stop(Failed, UNEXPECTED);
    }
    if up {
      RecordMmUp(w);
      InsideTryPcs("", true);
    }
    flow := Ok(up);
  }

  /** One round of the loop: the poll and, if it does not show the target up, the wait for the next one. `start`
      is where the loop began. */
  method MmRound(w: Workflow, ghost start: Progress, poll: nat) returns (flow: Flow<bool>)
    requires w.Valid() && w.Guarded() && w.At(AwaitingMm) && poll > 0
    requires w.scenario.MmNotUp(poll - 1) && w.scenario.MmInTime(start.readings, poll)
    requires Advances(w.scenario.script, start, w.Here(), w.scenario.MmWaitSteps(poll - 1))
    modifies w, w.repository
    ensures w.Valid() && old(w.trace) <= w.trace && old(w.clock) <= w.clock && w.Guarded()
    ensures old(w.sequence) <= w.sequence <= old(w.sequence) + 1
    ensures w.run == Staged(old(w.run), w.run.stage)
    ensures flow == Ok(true) ==>
      && w.At(AwaitingRejoin) && w.scenario.MmUps(start, poll)
      && Advances(w.scenario.script, start, w.Here(), w.scenario.MmSteps(poll))
    ensures flow == Ok(false) ==>
      && w.At(AwaitingMm) && w.scenario.MmNotUp(poll)
      && Advances(w.scenario.script, start, w.Here(), w.scenario.MmWaitSteps(poll))
      && w.readings == old(w.readings) + 1
      && w.clock == old(w.clock) + w.scenario.settings.mmPollSeconds * SECOND + w.scenario.script.delay(old(w.readings))
    ensures forall n: nat :: w.scenario.MmUps(start, n) ==> flow.Ok?
    ensures flow.Stop? ==> Abnormal(flow.outcome)
    ensures flow.Stop? ==>
      || Halts(w.scenario.script, start, w.Here(), flow.outcome, flow.code)
      || w.scenario.MmStops(start.readings, poll, flow.outcome, flow.code)
  {
    hide w.Valid, w.Filed, w.Audit, w.Here, InsideTry, Advances, Halts, Passes, Steps.Then, w.scenario.MmShowsUp,
         w.scenario.MmNotUp, w.scenario.MmUps, w.scenario.MmWaitSteps, w.scenario.MmPolledSteps, w.scenario.MmPollSteps,
         w.scenario.MmEntry, w.scenario.MmEntries, InTime;
    ghost var c, script, before := w.scenario, w.scenario.script, w.Here();
    w.SettingsAreValid();
    c.MmPollIsAhead(start, before, poll - 1);
    flow := PollMm(w, poll);
    ghost var polled := w.Here();
    if flow.Stop? {
      GoesOnToHaltIf(script, start, before, polled, c.MmWaitSteps(poll - 1), flow.outcome, flow.code);
      return;
    }
    c.MmPollEnds(start, before, polled, poll - 1);
    if !flow.value {
      c.MmWaitIsAhead(start, polled, poll);
      var cancelled := w.Wait(w.scenario.settings.mmPollSeconds);
      if cancelled {
        GoesOnToHaltIf(script, start, polled, w.Here(), c.MmPolledSteps(poll), Stopped, OPERATOR_STOPPED);
        return Stop(Stopped, OPERATOR_STOPPED);
      }
      c.MmWaitEnds(start, polled, w.Here(), poll);
    }
  }

  /** Returns exactly at the first poll that completely shows the target up; it gives up exactly when the
      time is, or when the collection raises. */
  method WaitForMmUp(w: Workflow) returns (flow: Flow<()>, polls: nat)
    requires w.Valid() && w.Guarded() && w.At(AwaitingMm)
    modifies w, w.repository
    ensures w.Valid() && old(w.trace) <= w.trace && old(w.clock) <= w.clock && w.Guarded()
    ensures w.scenario.settings.Valid() && polls <= MaxMmPolls(w.scenario)
    ensures old(w.sequence) <= w.sequence <= old(w.sequence) + polls
    ensures w.run == Staged(old(w.run), w.run.stage)
    ensures flow.Ok? ==>
      && w.At(AwaitingRejoin) && w.scenario.MmUps(old(w.Here()), polls)
      && Advances(w.scenario.script, old(w.Here()), w.Here(), w.scenario.MmSteps(polls))
    ensures forall n: nat :: w.scenario.MmUps(old(w.Here()), n) ==> flow.Ok?
    ensures flow.Stop? ==> Abnormal(flow.outcome)
    ensures flow.Stop? ==>
      || Halts(w.scenario.script, old(w.Here()), w.Here(), flow.outcome, flow.code)
      || w.scenario.MmStops(old(w.readings), polls, flow.outcome, flow.code)
  {
    hide w.Valid, w.Filed, w.Audit, w.Here, InsideTry, Advances, Halts, Passes, Steps.Then, Raises,
         w.scenario.MmShowsUp, w.scenario.MmNotUp, w.scenario.MmUps, w.scenario.MmWaitSteps, w.scenario.MmPolledSteps,
         w.scenario.MmPollSteps, w.scenario.MmEntries, CeilDiv, Clocked, InTime;
    ghost var c, script, start := w.scenario, w.scenario.script, w.Here();
    w.SettingsAreValid();
    w.CountsHere();
    c.NoMmPollYet();
    var interval, timeout := w.scenario.settings.mmPollSeconds, w.scenario.settings.mmUpTimeoutSeconds;
    polls := 0;
    var started := w.StartTimer();
    ClockStarts(script, start.readings, interval, started, w.clock);
    var deadline := started + timeout * SECOND;
    while w.clock < deadline
      invariant w.Valid() && old(w.trace) <= w.trace && old(w.clock) <= w.clock && w.Guarded() && w.At(AwaitingMm)
      invariant polls <= CeilDiv(timeout, interval)
      invariant old(w.sequence) <= w.sequence <= old(w.sequence) + polls
      invariant w.run == Staged(old(w.run), w.run.stage)
      invariant w.readings == start.readings + 2 + polls
      invariant Clocked(script, start.readings, polls, interval, started, w.clock)
      invariant c.MmNotUp(polls) && Advances(script, start, w.Here(), c.MmWaitSteps(polls))
      decreases CeilDiv(timeout, interval) - polls
    {
      ghost var clock := w.clock;
      ClockTells(script, start.readings, polls, interval, timeout, started, clock);
      polls := polls + 1;
      var seen := MmRound(w, start, polls);
      if seen.Stop? {
        return Stop(seen.outcome, seen.code), polls;
      }
      if seen.value {
        return Ok(()), polls;
      }
      ClockGoesOn(script, start.readings, polls - 1, interval, started, clock, w.clock);
    }
    ClockTells(script, start.readings, polls, interval, timeout, started, w.clock);
    c.MmPollIsAhead(start, w.Here(), polls);
    flow := Stop(Failed, MM_UP_TIMEOUT);
  }

  // ----- the rejoin

  ghost function MaxRejoinPolls(c: Scenario): nat
    requires c.settings.Valid()
  {
    CeilDiv(c.settings.membershipTimeoutSeconds, c.settings.membershipPollSeconds)
  }

  /** What one poll shows and how it is reported, without touching the store. */
  method LookForRejoin(c: Scenario, poll: nat) returns (flow: Flow<Option<Ip>>, entry: Entry)
    ensures flow.Ok? <==> c.RejoinPollSeen(poll)
    ensures flow.Ok? ==> flow.value == c.RejoinVerdict(poll) && entry == c.RejoinEntry(poll)
    ensures flow.Stop? ==> Abnormal(flow.outcome) && c.RejoinRaises(poll, flow.outcome, flow.code)
  {
    entry := Entry(FindingLeader, Text("LEADER_NOT_UNIQUE"));
    var discovery := c.script.discoveries(poll);
    if discovery.PollRaised? {
      return Caught(discovery.error), entry;
    }
    var leaders := if discovery.value.membershipComplete then discovery.value.Leaders() else {};
    if |leaders| != 1 {
      if discovery.value.membershipComplete {
        NobodyLeadsAlone(discovery.value);
      }
      return Ok(None), entry;
    }
    var leader :| leader in leaders;
    OnlyLeader(leaders, leader);
    LeadersLead(discovery.value, leader);
    assert c.NamesLeader(poll, leader);
    var view := c.script.leaderViews(poll, leader);
    if view.PollRaised? {
      return Caught(view.error), entry;
    }
    var valid := view.value.membershipComplete && view.value.source == leader && view.value.Leaders() == {leader}
                 && view.value.Connected(c.target) && view.value.AllConnected(c.expected);
    LeadersLead(view.value, leader);
    c.EntryOfNamed(poll, leader);
    entry := Entry(VerifyingRejoin, Text(if valid then "CONNECTED"
                                         else if view.value.errorCode != "" then view.value.errorCode else "NOT_READY"));
    flow := Ok(if valid then Some(leader) else None);
  }

  /** One poll: asks, counts the streak, reports; `Ok` carries the new streak. */
  method PollRejoin(w: Workflow, poll: nat, stable: nat, leader: Ip) returns (flow: Flow<(nat, Ip)>)
    requires w.Valid() && w.Guarded() && w.At(AwaitingRejoin) && poll > 0
    requires stable < w.scenario.settings.membershipConfirmations
    requires Streak(w.scenario.RejoinPolling().Verdicts(poll - 1), stable, leader)
    requires w.scenario.RejoinPolling().NotYet(poll - 1)
    modifies w, w.repository
    ensures w.Valid() && old(w.trace) <= w.trace && w.clock == old(w.clock) && w.Guarded()
    ensures old(w.sequence) <= w.sequence <= old(w.sequence) + 1 && w.readings == old(w.readings)
    ensures w.run == Staged(old(w.run), w.run.stage)
    ensures flow.Ok? ==>
      && w.At(AwaitingRejoin) && w.scenario.RejoinPolling().Seen(poll)
      && Streak(w.scenario.RejoinPolling().Verdicts(poll), flow.value.0, flow.value.1)
      && Advances(w.scenario.script, old(w.Here()), w.Here(), w.scenario.RejoinPolling().PollSteps(poll))
    ensures flow.Ok? && flow.value.0 >= w.scenario.settings.membershipConfirmations ==>
      FirstConfirmed(w.scenario.RejoinPolling().Verdicts(poll), w.scenario.settings.membershipConfirmations, flow.value.1)
    ensures flow.Ok? && flow.value.0 < w.scenario.settings.membershipConfirmations ==> w.scenario.RejoinPolling().NotYet(poll)
    ensures flow.Stop? ==> Abnormal(flow.outcome)
    ensures flow.Stop? ==>
      || (Halts(w.scenario.script, old(w.Here()), w.Here(), flow.outcome, flow.code)
          && !Passes(w.scenario.script, old(w.Here()), w.scenario.RejoinPolling().PollSteps(poll)))
      || (w.scenario.RejoinRaises(poll, flow.outcome, flow.code) && !w.scenario.RejoinPollSeen(poll))
  {
    hide w.Valid, w.Filed, w.Audit, w.Here, InsideTry, Advances, Halts, Passes, Steps.Then, Caught, Streak,
         FirstConfirmed, NeverConfirmed, w.scenario.RejoinRaises, w.scenario.RejoinPollSeen, w.scenario.RejoinVerdict,
         w.scenario.RejoinEntry, Polling.Verdicts, Polling.NotYet, Polling.Seen, Counted;
    ghost var p := w.scenario.RejoinPolling();
    p.OneMoreCounted(poll - 1, stable, leader);
    ghost var script, start := w.scenario.script, w.Here();
    QuestionComesFirst(script, start, p.entry(poll));
    var cancelled := w.Cancelled();
    ghost var answered := w.Here();
    if cancelled {
      return Stop(Stopped, OPERATOR_STOPPED);
    }
    var shown, entry := LookForRejoin(w.scenario, poll);
    if shown.Stop? {
      return Stop(shown.outcome, shown.code);
    }
    var ok := w.Note(entry.stage, entry.code);
    AskedAndTold(script, start, answered, w.Here(), p.entry(poll));
    flow := if ok then Ok(Counted(shown.value, stable, leader)) else Stop(Failed, UNEXPECTED);
  }

  /** One round of the loop: the poll, and then the commit that follows a confirmation or the wait for the
      next poll. `start` is where the loop began. */
  method RejoinRound(w: Workflow, ghost start: Progress, poll: nat, stable: nat, leader: Ip) returns (flow: Flow<(nat, Ip)>)
    requires w.Valid() && w.Guarded() && w.At(AwaitingRejoin) && poll > 0
    requires stable < w.scenario.settings.membershipConfirmations
    requires Streak(w.scenario.RejoinPolling().Verdicts(poll - 1), stable, leader)
    requires w.scenario.RejoinPolling().NotYet(poll - 1) && w.scenario.RejoinPolling().PollInTime(start.readings, poll)
    requires Advances(w.scenario.script, start, w.Here(), w.scenario.RejoinPolling().WaitedSteps(poll - 1))
    modifies w, w.repository
    ensures w.Valid() && old(w.trace) <= w.trace && old(w.clock) <= w.clock && w.Guarded()
    ensures old(w.sequence) <= w.sequence <= old(w.sequence) + 1
    ensures w.run == Staged(old(w.run), w.run.stage)
    ensures flow.Ok? ==> w.At(AwaitingRejoin)
    ensures flow.Ok? && flow.value.0 >= w.scenario.settings.membershipConfirmations ==>
      && w.scenario.RejoinPolling().Confirms(start, poll, flow.value.1)
      && Advances(w.scenario.script, start, w.Here(), w.scenario.RejoinPolling().ConfirmSteps(poll))
    ensures flow.Ok? && flow.value.0 < w.scenario.settings.membershipConfirmations ==>
      && w.scenario.RejoinPolling().NotYet(poll)
      && Streak(w.scenario.RejoinPolling().Verdicts(poll), flow.value.0, flow.value.1)
      && Advances(w.scenario.script, start, w.Here(), w.scenario.RejoinPolling().WaitedSteps(poll))
      && w.readings == old(w.readings) + 1
      && w.clock == old(w.clock) + w.scenario.settings.membershipPollSeconds * SECOND + w.scenario.script.delay(old(w.readings))
    ensures forall n: nat, other :: w.scenario.RejoinPolling().Confirms(start, n, other) ==> flow.Ok?
    ensures flow.Stop? ==> Abnormal(flow.outcome)
    ensures flow.Stop? ==>
      || Halts(w.scenario.script, start, w.Here(), flow.outcome, flow.code)
      || w.scenario.RejoinStops(start.readings, poll, flow.outcome, flow.code)
  {
    hide w.Valid, w.Filed, w.Audit, w.Here, InsideTry, Advances, Halts, Passes, Steps.Then, Streak, FirstConfirmed,
         NeverConfirmed, InTime, w.scenario.RejoinRaises, w.scenario.RejoinPollSeen, w.scenario.RejoinVerdict,
         w.scenario.RejoinEntry, w.scenario.RejoinStops, Polling.Verdicts, Polling.Confirms, Polling.Seen,
         Polling.PollSteps, Polling.WaitedSteps, Polling.PolledSteps, Polling.ConfirmSteps, Polling.NotYet,
         Polling.PollInTime;
    ghost var p, script, before := w.scenario.RejoinPolling(), w.scenario.script, w.Here();
    w.SettingsAreValid();
    p.NextPollIsAhead(start, before, poll - 1);
    flow := PollRejoin(w, poll, stable, leader);
    ghost var polled := w.Here();
    if flow.Stop? {
      GoesOnToHaltIf(script, start, before, polled, p.WaitedSteps(poll - 1), flow.outcome, flow.code);
      w.scenario.RaisingStopsRejoin(start.readings, poll, flow.outcome, flow.code);
      return;
    }
    p.PollEnds(start, before, polled, poll - 1);
    if flow.value.0 >= w.scenario.settings.membershipConfirmations {
      p.SaveIsAhead(start, polled, poll, flow.value.1);
      var ok := w.Snapshot();
      if !ok {
        GoesOnToHaltIf(script, start, polled, w.Here(), p.PolledSteps(poll), Failed, UNEXPECTED);
        return Stop(Failed, UNEXPECTED);
      }
      p.SaveEnds(start, polled, w.Here(), poll);
    } else {
      p.WaitIsAhead(start, polled, poll);
      var cancelled := w.Wait(w.scenario.settings.membershipPollSeconds);
      if cancelled {
        GoesOnToHaltIf(script, start, polled, w.Here(), p.PolledSteps(poll), Stopped, OPERATOR_STOPPED);
        return Stop(Stopped, OPERATOR_STOPPED);
      }
      p.WaitEnds(start, polled, w.Here(), poll);
    }
  }

  /** The polling loop: `Ok(None)` says that the time was up without a confirmation. */
  method PollUntilRejoined(w: Workflow) returns (flow: Flow<Option<Ip>>, polls: nat)
    requires w.Valid() && w.Guarded() && w.At(AwaitingRejoin)
    modifies w, w.repository
    ensures w.Valid() && old(w.trace) <= w.trace && old(w.clock) <= w.clock && w.Guarded()
    ensures w.scenario.settings.Valid() && polls <= MaxRejoinPolls(w.scenario)
    ensures old(w.sequence) <= w.sequence <= old(w.sequence) + polls
    ensures w.run == Staged(old(w.run), w.run.stage)
    ensures flow.Ok? ==> w.At(AwaitingRejoin)
    ensures flow.Ok? && flow.value.Some? ==>
      && w.scenario.RejoinPolling().Confirms(old(w.Here()), polls, flow.value.value)
      && Advances(w.scenario.script, old(w.Here()), w.Here(), w.scenario.RejoinPolling().ConfirmSteps(polls))
    ensures flow.Ok? && flow.value.None? ==>
      && w.scenario.RejoinPolling().ExpiredAt(old(w.readings), polls)
      && Advances(w.scenario.script, old(w.Here()), w.Here(), w.scenario.RejoinPolling().WaitedSteps(polls))
    ensures forall n: nat, leader :: w.scenario.RejoinPolling().Confirms(old(w.Here()), n, leader) ==>
      flow.Ok? && flow.value.Some?
    ensures flow.Stop? ==> Abnormal(flow.outcome)
    ensures flow.Stop? ==>
      || Halts(w.scenario.script, old(w.Here()), w.Here(), flow.outcome, flow.code)
      || w.scenario.RejoinStops(old(w.readings), polls, flow.outcome, flow.code)
  {
    hide w.Valid, w.Filed, w.Audit, w.Here, InsideTry, Advances, Halts, Passes, Steps.Then, Streak, FirstConfirmed,
         NeverConfirmed, CeilDiv, Clocked, InTime, w.scenario.RejoinRaises, w.scenario.RejoinPollSeen,
         w.scenario.RejoinVerdict, w.scenario.RejoinEntry, w.scenario.RejoinStops, Polling.Verdicts, Polling.Confirms,
         Polling.Expires, Polling.Seen, Polling.WaitedSteps, Polling.ConfirmSteps, Polling.NotYet, Polling.ExpiredAt,
         Polling.PollInTime;
    ghost var p, script, start := w.scenario.RejoinPolling(), w.scenario.script, w.Here();
    w.SettingsAreValid();
    w.CountsHere();
    var interval, timeout := w.scenario.settings.membershipPollSeconds, w.scenario.settings.membershipTimeoutSeconds;
    var stable: nat, leader: Ip := 0, "";
    p.NoPollYet(leader);
    polls := 0;
    var started := w.StartTimer();
    ClockStarts(script, start.readings, interval, started, w.clock);
    var deadline := started + timeout * SECOND;
    while w.clock < deadline
      invariant w.Valid() && old(w.trace) <= w.trace && old(w.clock) <= w.clock && w.Guarded() && w.At(AwaitingRejoin)
      invariant polls <= CeilDiv(timeout, interval)
      invariant old(w.sequence) <= w.sequence <= old(w.sequence) + polls
      invariant w.run == Staged(old(w.run), w.run.stage)
      invariant w.readings == start.readings + 2 + polls
      invariant Clocked(script, start.readings, polls, interval, started, w.clock)
      invariant polls > 0 ==> p.PollInTime(start.readings, polls)
      invariant stable < p.confirmations && Streak(p.Verdicts(polls), stable, leader) && p.NotYet(polls)
      invariant Advances(script, start, w.Here(), p.WaitedSteps(polls))
      decreases CeilDiv(timeout, interval) - polls
    {
      ghost var clock := w.clock;
      ClockTells(script, start.readings, polls, interval, timeout, started, clock);
      p.PollTimes(start.readings, polls + 1);
      polls := polls + 1;
      var counted := RejoinRound(w, start, polls, stable, leader);
      if counted.Stop? {
        return Stop(counted.outcome, counted.code), polls;
      }
      stable, leader := counted.value.0, counted.value.1;
      if stable >= w.scenario.settings.membershipConfirmations {
        return Ok(Some(leader)), polls;
      }
      ClockGoesOn(script, start.readings, polls - 1, interval, started, clock, w.clock);
    }
    ClockTells(script, start.readings, polls, interval, timeout, started, w.clock);
    p.PollTimes(start.readings, polls + 1);
    p.ExpiryIsHere(start, w.Here(), polls);
    flow := Ok(None);
  }

  /** Returns the leader exactly at the first poll where the last `membershipConfirmations` polls all showed
      the rejoin under that same leader; it gives up exactly when the time is up, or when a collection
      raises. `polls` counts every poll begun. */
  method WaitForRejoin(w: Workflow) returns (flow: Flow<Ip>, polls: nat)
    requires w.Valid() && w.Guarded() && w.At(AwaitingRejoin)
    modifies w, w.repository
    ensures w.Valid() && old(w.trace) <= w.trace && old(w.clock) <= w.clock && w.Guarded()
    ensures w.scenario.settings.Valid() && polls <= MaxRejoinPolls(w.scenario)
    ensures old(w.sequence) <= w.sequence <= old(w.sequence) + polls
    ensures w.run == Staged(old(w.run), w.run.stage)
    ensures flow.Ok? ==>
      && w.At(AwaitingRejoin) && w.scenario.RejoinPolling().Confirms(old(w.Here()), polls, flow.value)
      && Advances(w.scenario.script, old(w.Here()), w.Here(), w.scenario.RejoinPolling().ConfirmSteps(polls))
    ensures forall n: nat, leader :: w.scenario.RejoinPolling().Confirms(old(w.Here()), n, leader) ==> flow.Ok?
    ensures flow.Stop? ==> Abnormal(flow.outcome)
    ensures flow.Stop? ==>
      || Halts(w.scenario.script, old(w.Here()), w.Here(), flow.outcome, flow.code)
      || w.scenario.RejoinStops(old(w.readings), polls, flow.outcome, flow.code)
  {
    hide w.Valid, w.Filed, w.Audit, w.Here, InsideTry, Advances, Halts, Passes, Steps.Then, CeilDiv, Caught,
         w.scenario.RejoinRaises, Polling.NotYet, Polling.Confirms, Polling.ExpiredAt, Polling.WaitedSteps,
         Polling.ConfirmSteps;
    ghost var p, start := w.scenario.RejoinPolling(), w.Here();
    var confirmed;
    confirmed, polls := PollUntilRejoined(w);
    if confirmed.Stop? {
      return Stop(confirmed.outcome, confirmed.code), polls;
    }
    if confirmed.value.Some? {
      return Ok(confirmed.value.value), polls;
    }
    if polls > 0 {
      ghost var waited := w.Here();
      var ok := w.Snapshot();
      if !ok {
        GoesOnToHaltIf(w.scenario.script, start, waited, w.Here(), p.WaitedSteps(polls), Failed, UNEXPECTED);
        return Stop(Failed, UNEXPECTED), polls;
      }
    }
    flow := Stop(Failed, REJOIN_TIMEOUT);
  }

  // ----- both waits together

  method ConfirmRejoinOf(w: Workflow, leader: Ip) returns (ok: bool)
    requires w.Valid() && w.At(AwaitingRejoin)
    modifies w, w.repository
    ensures w.Valid() && old(w.trace) <= w.trace && w.clock == old(w.clock) && w.Guarded() && w.sequence == old(w.sequence)
    ensures w.run == old(w.run).(leader := leader)
    ensures ok == Passes(w.scenario.script, old(w.Here()), ONE_SAVE)
    ensures if ok then w.At(Rejoined(leader)) && Advances(w.scenario.script, old(w.Here()), w.Here(), ONE_SAVE)
            else w.At(Faulted) && Halts(w.scenario.script, old(w.Here()), w.Here(), Failed, UNEXPECTED)
  {
    hide w.Filed, w.Audit, w.Valid, EnabledLive, Planned, IsCommit, InsideTry;
    MayConfirmRejoin(w.sys.live.value, w.Answer(), leader);
    InsideTryPcs(leader, true);
    ok := w.Commit(w.run.(leader := leader), None, ConfirmRejoin(w.Answer(), leader));
  }

  method KeepRejoin(w: Workflow, leader: Ip) returns (ok: bool)
    requires w.Valid() && w.At(AwaitingRejoin)
    modifies w, w.repository
    ensures w.Valid() && old(w.trace) <= w.trace && w.clock == old(w.clock) && w.Guarded() && w.sequence == old(w.sequence)
    ensures w.run == old(w.run).(leader := leader)
    ensures ok == Passes(w.scenario.script, old(w.Here()), TWO_SAVES)
    ensures if ok then w.At(Rejoined(leader)) && Advances(w.scenario.script, old(w.Here()), w.Here(), TWO_SAVES)
            else Halts(w.scenario.script, old(w.Here()), w.Here(), Failed, UNEXPECTED)
  {
    hide w.Valid, w.Filed, w.Audit, InsideTry;
    InsideTryPcs(leader, true);
    ok := ConfirmRejoinOf(w, leader);
    if ok {
      ok := w.Snapshot();
    }
  }

  /** The wait for MM and then for the rejoin. It succeeds exactly if both are seen in time and nothing
      hinders it. */
  method AwaitRecovery(w: Workflow) returns (flow: Flow<Ip>, mmPolls: nat, rejoinPolls: nat)
    requires w.Valid() && w.Guarded() && w.At(AwaitingMm)
    modifies w, w.repository
    ensures w.Valid() && old(w.trace) <= w.trace && old(w.clock) <= w.clock && w.Guarded()
    ensures w.scenario.settings.Valid() && mmPolls <= MaxMmPolls(w.scenario) && rejoinPolls <= MaxRejoinPolls(w.scenario)
    ensures old(w.sequence) <= w.sequence <= old(w.sequence) + MaxMmPolls(w.scenario) + MaxRejoinPolls(w.scenario)
    ensures flow.Ok? ==>
      w.At(Rejoined(flow.value)) && w.scenario.RecoversTo(old(w.Here()), w.Here(), mmPolls, rejoinPolls, flow.value)
    ensures OnlyMoved(old(w.run), w.run) && (flow.Ok? ==> w.run.leader == flow.value)
    ensures forall m: nat, n: nat, leader :: w.scenario.Recovers(old(w.Here()), m, n, leader) ==> flow.Ok?
    ensures flow.Stop? ==> Abnormal(flow.outcome)
    ensures flow.Stop? ==>
      || Halts(w.scenario.script, old(w.Here()), w.Here(), flow.outcome, flow.code)
      || w.scenario.RecoverStops(old(w.readings), mmPolls, rejoinPolls, flow.outcome, flow.code)
  {
    hide w.Valid, w.Filed, w.Audit, w.Here, InsideTry, Advances, Halts, Passes, Steps.Then, CeilDiv, Caught,
         w.scenario.Recovers, w.scenario.RecoversTo, w.scenario.RecoverSteps, w.scenario.MmSteps, w.scenario.MmStops,
         w.scenario.RejoinStops, Polling.Confirms, w.scenario.MmUpAt, Polling.ConfirmSteps;
    ghost var c, script, start := w.scenario, w.scenario.script, w.Here();
    w.CountsHere();
    c.RecoveringMm(start);
    rejoinPolls := 0;
    var up;
    up, mmPolls := WaitForMmUp(w);
    if up.Stop? {
      return Stop(up.outcome, up.code), mmPolls, rejoinPolls;
    }
    ghost var before := w.Here();
    w.CountsHere();
    c.ReadingsAfterMm(start, before, mmPolls);
    c.RecoveringRejoin(start, before, mmPolls);
    flow, rejoinPolls := WaitForRejoin(w);
    if flow.Stop? {
      GoesOnToHaltIf(script, start, before, w.Here(), c.MmSteps(mmPolls), flow.outcome, flow.code);
      return;
    }
    ghost var middle := w.Here();
    c.RecoveringSaves(start, before, middle, mmPolls, rejoinPolls, flow.value);
    var ok := KeepRejoin(w, flow.value);
    if !ok {
      GoesOnToHaltIf(script, start, middle, w.Here(), c.MmSteps(mmPolls).Then(c.RejoinPolling().ConfirmSteps(rejoinPolls)),
                     Failed, UNEXPECTED);
      return Stop(Failed, UNEXPECTED), mmPolls, rejoinPolls;
    }
    c.Recovered(start, before, middle, w.Here(), mmPolls, rejoinPolls, flow.value);
  }
}
