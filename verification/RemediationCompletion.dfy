/** Which scripts let a run complete: a steady recovery without faults does, if the confirmations fit into
    the time that the settings allow for them. */
module RemediationCompletion {
  import opened Prelude
  import opened RemediationTypes
  import opened RemediationEvidence
  import opened SshActions
  import opened RemediationScript
  import opened RemediationPolling
  import opened RemediationScenario
  import opened RemediationRegion
  import opened RemediationMeaning

  /** From the first poll on everything shows what the workflow waits for. */
  ghost predicate Steady(c: Scenario, leader: Ip, after: Ip) {
    && DownAlone(c) && c.script.targetSessions(1) == SessionOpened
    && ReloadError(c.script.reload).None? && ReloadCode(c.script.reload) != ReloadRejected
    && MmSawUp(c, 1) && (forall i: nat :: i > 0 ==> FoundConnected(c, i, leader))
    && c.script.leaderSessions(1) == SessionOpened && GateSaw(c, leader)
    && !c.script.rebalance.cancelledAtStart && !c.script.rebalance.transport.Unsupported?
    && !c.script.rebalance.cancelled(0) && !c.script.rebalance.replyFails && RebalanceConfirmed(c.script.rebalance)
    && forall i: nat :: i > 0 ==> FoundNormal(c, i, after)
  }

  /** The confirmations that are needed fit into the time allowed for them. */
  ghost predicate FitsInTime(c: Scenario)
    requires c.settings.Valid()
  {
    && c.MmInTime(0, 1)
    && c.RejoinPolling().PollInTime(2, c.settings.membershipConfirmations)
    && c.PostPolling().PollInTime(3 + c.settings.membershipConfirmations, c.settings.postConfirmations)
  }

  lemma SteadyConfirms(p: Polling, readings: nat, leader: Ip)
    requires p.confirmations > 0 && p.PollInTime(readings, p.confirmations)
    requires forall i: nat :: i > 0 ==> p.seen(i) && p.verdict(i) == Some(leader)
    ensures p.ConfirmedAt(readings, p.confirmations, leader)
  {
    var verdicts := p.Verdicts(p.confirmations);
    assert verdicts[..|verdicts| - 1] == p.Verdicts(p.confirmations - 1);
  }

  lemma NothingHinders(script: Script, from: Progress, steps: Steps)
    requires FaultFree(script)
    ensures Passes(script, from, steps)
  {
  }

  lemma SteadyShows(c: Scenario, poll: nat, leader: Ip, after: Ip)
    requires FoundConnected(c, poll, leader) && FoundNormal(c, poll, after)
    ensures c.RejoinShown(poll, leader) && c.NormalShown(poll, after) && c.NamesLeader(poll, leader)
    ensures c.script.leaderViews(poll, leader).Seen?
  {
  }

  lemma SteadyHolds(c: Scenario, leader: Ip, after: Ip)
    requires Steady(c, leader, after)
    ensures c.PreflightHolds() && c.PrecheckHolds() && c.SessionAt(false, 1).SessionOpened? && c.ReloadHolds()
    ensures c.MmShowsUp(1) && c.SessionAt(true, 1).SessionOpened? && c.GateShown(leader) && c.RebalanceHolds()
    ensures Triggers(c.script.rebalance)
  {
  }

  /** A steady recovery without faults completes whenever its confirmations fit in time. */
  lemma SteadyRunCompletes(c: Scenario, leader: Ip, after: Ip)
    requires c.settings.Valid() && FaultFree(c.script) && Steady(c, leader, after) && FitsInTime(c)
    ensures Completes(c)
  {
    hide c.ReloadHolds, c.RebalanceHolds, c.PrecheckHolds, c.GateShown, Triggers, InTime, CountsFit, Passes, FaultFree,
         Polling.ConfirmedAt, RunSteps, c.RejoinShown, c.NormalShown, FoundConnected, FoundNormal;
    SteadyHolds(c, leader, after);
    var k, n := c.settings.membershipConfirmations, c.settings.postConfirmations;
    var e := Evidence(1, 1, k, true, leader, 1, n, after);
    forall i: nat | i > 0
      ensures c.RejoinPolling().seen(i) && c.RejoinPolling().verdict(i) == Some(leader)
      ensures c.PostPolling().seen(i) && c.PostPolling().verdict(i) == Some(after)
    {
      SteadyShows(c, i, leader, after);
      c.EntryOfNamed(i, leader);
      c.PostVerdictIsLeader(i, after);
    }
    SteadyConfirms(c.RejoinPolling(), 2, leader);
    SteadyConfirms(c.PostPolling(), 3 + k, after);
    assert c.RecoversAt(MmReadings(0, e), 1, k, leader);
    assert Justified(c, 0, e, true);
    JustifiedFits(c, 0, e, true);
    NothingHinders(c.script, BEGINNING, RunSteps(c, e, true));
    assert GetsThrough(c, e, true);
  }
}
