/** What the verdict of a run means, said of the answers of MM, of the cluster and of SSH alone. */
module RemediationMeaning {
  import opened Prelude
  import opened RemediationTypes
  import opened RemediationEvidence
  import opened SshActions
  import opened RemediationScript
  import opened RemediationPolling
  import opened RemediationScenario
  import opened RemediationRegion
  import opened RemediationRun
  import Output = OutputAccumulator

  /** The disk takes every commit and the operator never says stop. */
  ghost predicate FaultFree(script: Script) {
    (forall i :: script.durable(i)) && forall i :: !script.cancelled(i)
  }

  /** The first session opens at attempt `n`, within the limit; all before it failed but allow another one. */
  ghost predicate OpensAt(sessions: nat -> Session, limit: nat, n: nat) {
    && 1 <= n <= limit && sessions(n) == SessionOpened
    && forall m: nat :: 1 <= m < n ==> sessions(m) == OtherFailure || (sessions(m).SshFailed? && sessions(m).retryable)
  }

  /** Before the reload MM completely showed the target down and no other expected member, and a session to
      the target opened. */
  ghost predicate DownAlone(c: Scenario) {
    && c.script.preflightPasses && c.script.fingerprintUnchanged
    && c.script.precheck.Seen? && c.script.precheck.value.complete && c.target in c.expected
    && (forall ip :: ip in c.expected ==>
          ((ip in c.script.precheck.value.states && c.script.precheck.value.states[ip] == Down) <==> ip == c.target))
    && exists n: nat :: OpensAt(c.script.targetSessions, c.settings.sshMaxAttempts, n)
  }

  /** Complete membership, with `leader` as the only leader and the target and every expected member connected. */
  ghost predicate AllConnectedUnder(c: Scenario, view: ClusterObservation, leader: Ip) {
    && view.membershipComplete && LeadsAlone(view, leader)
    && c.target in view.members && view.members[c.target].connected && EveryoneConnected(view, c.expected)
  }

  /** Poll `poll` found `leader` alone at the head, and its own view the whole cluster connected under it. */
  ghost predicate FoundConnected(c: Scenario, poll: nat, leader: Ip) {
    && c.script.discoveries(poll).Seen? && c.script.discoveries(poll).value.membershipComplete
    && LeadsAlone(c.script.discoveries(poll).value, leader)
    && c.script.leaderViews(poll, leader).Seen? && c.script.leaderViews(poll, leader).value.source == leader
    && AllConnectedUnder(c, c.script.leaderViews(poll, leader).value, leader)
  }

  /** Poll `poll` after the rebalance showed everyone up, connected and counted under `leader`. */
  ghost predicate FoundNormal(c: Scenario, poll: nat, leader: Ip) {
    && c.script.postMm(poll).Seen? && c.script.postMm(poll).value.complete
    && EveryoneUp(c.script.postMm(poll).value, c.expected)
    && c.script.postCluster(poll).Seen? && c.script.postCluster(poll).value.membershipComplete
    && c.script.postCluster(poll).value.distributionComplete && LeadsAlone(c.script.postCluster(poll).value, leader)
    && EveryoneConnected(c.script.postCluster(poll).value, c.expected)
    && EveryoneCounted(c.script.postCluster(poll).value, c.expected)
  }

  ghost predicate MmSawUp(c: Scenario, poll: nat) {
    && c.script.mmUp(poll).Seen? && c.script.mmUp(poll).value.complete
    && c.target in c.script.mmUp(poll).value.states && c.script.mmUp(poll).value.states[c.target] == Up
  }

  ghost predicate GateSaw(c: Scenario, leader: Ip) {
    && c.script.gateMm.Seen? && c.script.gateMm.value.complete && EveryoneUp(c.script.gateMm.value, c.expected)
    && c.script.gateMembership.Seen? && AllConnectedUnder(c, c.script.gateMembership.value, leader)
  }

  /** The rebalance was answered in full, and only by its success message. */
  ghost predicate RebalanceConfirmed(s: ChannelScript) {
    && s.connected && s.write.Returns? && Output.Fits(s.reply)
    && s.confirms(s.reply) && !s.rejects(s.reply) && !s.paged(s.reply)
  }

  /** Before the rebalance MM completely showed the target up, the last polls all showed the whole cluster
      connected as one and the same leader sees it, and both sources did so again at the gate. */
  ghost predicate BackUnder(c: Scenario, mmPolls: nat, rejoinPolls: nat, leader: Ip) {
    && MmSawUp(c, mmPolls)
    && c.settings.membershipConfirmations <= rejoinPolls
    && (forall i: nat :: rejoinPolls - c.settings.membershipConfirmations < i <= rejoinPolls ==>
          FoundConnected(c, i, leader))
    && GateSaw(c, leader)
  }

  /** The rebalance was confirmed, and at the end as many polls in a row as are asked for showed everyone up,
      connected and counted under one leader. */
  ghost predicate StableUnder(c: Scenario, postPolls: nat, leader: Ip) {
    && RebalanceConfirmed(c.script.rebalance)
    && c.settings.postConfirmations <= postPolls
    && forall i: nat :: postPolls - c.settings.postConfirmations < i <= postPolls ==> FoundNormal(c, i, leader)
  }

  lemma ConfirmedShows(p: Polling, readings: nat, polls: nat, leader: Ip)
    requires p.ConfirmedAt(readings, polls, leader)
    ensures p.confirmations <= polls
    ensures forall i: nat :: polls - p.confirmations < i <= polls ==> p.verdict(i) == Some(leader)
  {
    forall i: nat | polls - p.confirmations < i <= polls
      ensures p.verdict(i) == Some(leader)
    {
      assert p.Verdicts(polls)[i - 1] == p.verdict(i);
    }
  }

  lemma SessionsOpen(c: Scenario, attempts: nat)
    requires c.ConnectsAt(false, attempts)
    ensures OpensAt(c.script.targetSessions, c.settings.sshMaxAttempts, attempts)
  {
    forall m: nat | 1 <= m < attempts
      ensures c.script.targetSessions(m) == OtherFailure
              || (c.script.targetSessions(m).SshFailed? && c.script.targetSessions(m).retryable)
    {
      assert !c.SessionAt(false, m).SessionOpened? && !c.FailsForGood(false, m);
    }
  }

  lemma ReloadDueMeans(c: Scenario)
    requires c.ReloadIsDue()
    ensures DownAlone(c)
  {
    hide c.ConnectsAt, OpensAt;
    var attempts :| c.ConnectsAt(false, attempts);
    SessionsOpen(c, attempts);
  }

  lemma RebalanceDueMeans(c: Scenario, readings: nat, e: Evidence)
    requires RebalanceWasDue(c, readings, e)
    ensures DownAlone(c) && BackUnder(c, e.mmPolls, e.rejoinPolls, e.leader)
  {
    hide c.ConnectsAt, c.ReloadHolds, Polling.ConfirmedAt, DownAlone;
    ReloadDueMeans(c);
    ConfirmedShows(c.RejoinPolling(), MmReadings(readings, e) + e.mmPolls + 1, e.rejoinPolls, e.leader);
    forall i: nat | e.rejoinPolls - c.settings.membershipConfirmations < i <= e.rejoinPolls
      ensures FoundConnected(c, i, e.leader)
    {
      assert c.RejoinPolling().verdict(i) == Some(e.leader);
      assert c.RejoinShown(i, e.leader);
    }
  }

  lemma JustifiedMeans(c: Scenario, readings: nat, e: Evidence)
    requires Justified(c, readings, e, true) && e.targetAttempts > 0 && e.leaderAttempts > 0 && Triggers(c.script.rebalance)
    ensures RebalanceWasDue(c, readings, e) && StableUnder(c, e.postPolls, e.postLeader)
  {
    hide c.ConnectsAt, c.ReloadHolds, c.RecoversAt, c.GateShown, c.RebalanceHolds, Output.Fits, Polling.ConfirmedAt;
    assert c.ConnectsAt(true, e.leaderAttempts);
    ConfirmedShows(c.PostPolling(), PostReadings(readings, e), e.postPolls, e.postLeader);
    forall i: nat | e.postPolls - c.settings.postConfirmations < i <= e.postPolls
      ensures FoundNormal(c, i, e.postLeader)
    {
      assert c.PostPolling().verdict(i) == Some(e.postLeader);
      assert c.NormalShown(i, e.postLeader);
    }
  }

  /** What COMPLETED stands for, in what MM, the cluster and SSH have answered. */
  lemma CompletedMeans(c: Scenario) returns (e: Evidence)
    requires Completes(c)
    ensures DownAlone(c) && BackUnder(c, e.mmPolls, e.rejoinPolls, e.leader) && StableUnder(c, e.postPolls, e.postLeader)
  {
    hide Justified, RunSteps, Triggers, RebalanceWasDue, DownAlone, BackUnder, StableUnder, Passes;
    e :| GetsThrough(c, e, true);
    JustifiedMeans(c, 0, e);
    RebalanceDueMeans(c, 0, e);
  }

  /** If MM, asked again, shows a second expected member down, then the run stops with that code and writes
      nothing, unless a commit fails or the operator stops it before. */
  lemma AnotherMemberDownStops(c: Scenario, start: Run, result: Option<Outcome>, end: Run, e: Evidence, there: Progress, ip: Ip)
    requires Verdict(c, false, start, result, end, e, there)
    requires c.script.preflightPasses && c.script.fingerprintUnchanged
    requires c.script.precheck.Seen? && c.script.precheck.value.complete
    requires ip in c.expected && ip != c.target
    requires ip in c.script.precheck.value.states && c.script.precheck.value.states[ip] == Down
    ensures !c.ReloadIsDue() && !RebalanceWasDue(c, 0, e)
    ensures result.Some? ==>
      || (result == Some(Stopped) && end.outcome == Stopped && end.failureCode == Text("MM_PRECHECK_CHANGED"))
      || Halts(c.script, BEGINNING, there, end.outcome, end.failureCode)
    ensures FaultFree(c.script) ==>
      result == Some(Stopped) && end.outcome == Stopped && end.failureCode == Text("MM_PRECHECK_CHANGED")
  {
    hide c.ConnectsAt, c.ReloadHolds, c.RecoversAt, c.RedistributesAt, c.PostEndsAt, c.ConnectStops, c.ReloadStops,
         c.RecoverStops, c.RedistributeStops, c.PostStops, CountsFit, RunSteps, TellsDone, ReservedIf, EndsWell;
    assert !c.PrecheckHolds();
  }
}
