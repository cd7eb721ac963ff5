/** The guarded region of a workflow as a whole: the evidence it rests on, what it then adds to the audit
    trail, and why it ends early otherwise. */
module RemediationRegion {
  import opened Prelude
  import opened RemediationTypes
  import opened RemediationEvidence
  import opened SshActions
  import opened RemediationScript
  import opened RemediationPolling
  import opened RemediationScenario

  /** How far the phases of a run got: attempts, polls, and the leaders they found. A phase that was not
      finished has no attempts; `recovered` says that the rejoin was confirmed and stored. */
  datatype Evidence = Evidence(
    targetAttempts: nat,
    mmPolls: nat,
    rejoinPolls: nat,
    recovered: bool,
    leader: Ip,
    leaderAttempts: nat,
    postPolls: nat,
    postLeader: Ip)

  const NO_EVIDENCE := Evidence(0, 0, 0, false, "", 0, 0, "")

  /** The readings of the clock before the wait for MM, and before the monitoring. */
  function MmReadings(readings: nat, e: Evidence): nat
    requires e.targetAttempts > 0
  {
    readings + e.targetAttempts - 1
  }

  function PostReadings(readings: nat, e: Evidence): nat
    requires e.targetAttempts > 0 && e.leaderAttempts > 0
  {
    MmReadings(readings, e) + e.mmPolls + 1 + e.rejoinPolls + 1 + e.leaderAttempts - 1
  }

  /** Everything a remediation rests on: the checks, the reload, a complete MM Up, the confirmed rejoin, the
      gate under that same leader, the rebalance, and a monitoring that ends stable or not. */
  ghost predicate Justified(c: Scenario, readings: nat, e: Evidence, stable: bool) {
    && c.PreparesAt(e.targetAttempts)
    && c.RecoversAt(MmReadings(readings, e), e.mmPolls, e.rejoinPolls, e.leader)
    && c.RedistributesAt(e.leaderAttempts, e.leader)
    && c.PostEndsAt(PostReadings(readings, e), e.postPolls, stable, e.postLeader)
  }

  /** What has to hold before the rebalance may be reserved: all that came before it, and the gate. */
  ghost predicate RebalanceWasDue(c: Scenario, readings: nat, e: Evidence) {
    && e.targetAttempts > 0 && c.PreparesAt(e.targetAttempts)
    && c.RecoversAt(MmReadings(readings, e), e.mmPolls, e.rejoinPolls, e.leader)
    && c.RebalanceIsDue(e.leader)
  }

  ghost predicate CountsFit(c: Scenario, e: Evidence, stable: bool) {
    && e.targetAttempts > 0 && e.mmPolls > 0 && c.MmSeen(e.mmPolls) && e.rejoinPolls > 0 && e.leaderAttempts > 0
    && (stable ==> e.postPolls > 0)
  }

  /** The whole audit trail of the region, and all its commits, questions and readings. */
  ghost function RegionSteps(c: Scenario, e: Evidence, stable: bool): Steps
    requires CountsFit(c, e, stable)
  {
    c.PrepareSteps(e.targetAttempts).Then(c.RecoverSteps(e.mmPolls, e.rejoinPolls))
      .Then(c.RedistributeSteps(e.leaderAttempts)).Then(c.MonitorSteps(e.postPolls, stable))
  }

  // ----- what a run has told when it ends early

  ghost predicate InSequence(c: Scenario, e: Evidence) {
    && (e.recovered ==> e.targetAttempts > 0 && e.mmPolls > 0 && c.MmSeen(e.mmPolls) && e.rejoinPolls > 0)
    && (e.leaderAttempts > 0 ==> e.recovered)
  }

  /** The steps of all phases that were finished. */
  ghost function DoneSteps(c: Scenario, e: Evidence): Steps
    requires InSequence(c, e)
  {
    if e.targetAttempts == 0 then NO_STEPS
    else if !e.recovered then c.PrepareSteps(e.targetAttempts)
    else if e.leaderAttempts == 0 then c.PrepareSteps(e.targetAttempts).Then(c.RecoverSteps(e.mmPolls, e.rejoinPolls))
    else
      c.PrepareSteps(e.targetAttempts).Then(c.RecoverSteps(e.mmPolls, e.rejoinPolls)).Then(c.RedistributeSteps(e.leaderAttempts))
  }

  /** What was told starts with everything that the finished phases tell. */
  ghost predicate TellsDone(c: Scenario, from: seq<Entry>, told: seq<Entry>, e: Evidence) {
    InSequence(c, e) && from + DoneSteps(c, e).entries <= told
  }

  lemma DoneIsTold(c: Scenario, from: Progress, here: Progress, told: seq<Entry>, e: Evidence)
    requires InSequence(c, e) && Advances(c.script, from, here, DoneSteps(c, e)) && here.told <= told
    ensures TellsDone(c, from.told, told, e)
  {
    hide DoneSteps, Passes;
  }

  lemma NothingDone(c: Scenario, from: seq<Entry>, told: seq<Entry>)
    requires from <= told
    ensures TellsDone(c, from, told, NO_EVIDENCE)
  {
    assert from + [] == from;
  }

  lemma JustifiedFits(c: Scenario, readings: nat, e: Evidence, stable: bool)
    requires Justified(c, readings, e, stable)
    ensures CountsFit(c, e, stable)
  {
    hide c.RejoinPolling, c.PostPolling, InTime, Polling.Seen, FirstConfirmed, NeverConfirmed;
    c.UpIsSeen(MmReadings(readings, e), e.mmPolls);
  }

  ghost predicate Remediates(c: Scenario, from: Progress, e: Evidence, stable: bool) {
    Justified(c, from.readings, e, stable) && CountsFit(c, e, stable) && Passes(c.script, from, RegionSteps(c, e, stable))
  }

  ghost predicate RemediatesTo(c: Scenario, from: Progress, to: Progress, e: Evidence, stable: bool) {
    Remediates(c, from, e, stable) && Advances(c.script, from, to, RegionSteps(c, e, stable))
  }

  /** Why the region ends early although nothing outside hinders it: the first phase that fails, with all
      phases before it done. */
  ghost predicate RegionStops(c: Scenario, readings: nat, e: Evidence, outcome: Outcome, code: Code) {
    || c.PrepareStops(outcome, code)
    || (c.PreparesAt(e.targetAttempts)
        && (|| c.RecoverStops(MmReadings(readings, e), e.mmPolls, e.rejoinPolls, outcome, code)
            || (c.RecoversAt(MmReadings(readings, e), e.mmPolls, e.rejoinPolls, e.leader)
                && (|| c.RedistributeStops(e.leader, outcome, code)
                    || (c.RedistributesAt(e.leaderAttempts, e.leader)
                        && c.PostStops(PostReadings(readings, e), e.postPolls, outcome, code))))))
  }

  // ----- what is ahead, phase by phase

  lemma RegionPrepares(c: Scenario, from: Progress)
    ensures forall e, stable :: Remediates(c, from, e, stable) ==> c.Prepares(from, e.targetAttempts)
  {
    hide c.PreparesAt, c.RecoversAt, c.RedistributesAt, c.PostEndsAt, c.PrepareSteps, c.RecoverSteps,
         c.RedistributeSteps, c.MonitorSteps;
    forall e, stable | Remediates(c, from, e, stable)
      ensures c.Prepares(from, e.targetAttempts)
    {
      PassesPart(c.script, from, c.PrepareSteps(e.targetAttempts), RegionSteps(c, e, stable));
    }
  }

  lemma PassesPart(script: Script, from: Progress, part: Steps, all: Steps)
    requires part.Commits() <= all.Commits() && part.asked <= all.asked && Passes(script, from, all)
    ensures Passes(script, from, part)
  {
  }

  lemma AfterPreparing(c: Scenario, from: Progress, here: Progress, attempts: nat)
    requires c.PreparesTo(from, here, attempts)
    ensures attempts > 0 && c.PreparesAt(attempts) && Advances(c.script, from, here, c.PrepareSteps(attempts))
    ensures here.readings == from.readings + attempts - 1
  {
    hide c.ConnectEntries, c.ReloadHolds, c.MayRetry;
  }

  lemma PreparesOnce(c: Scenario, m: nat, n: nat)
    requires c.PreparesAt(m) && c.PreparesAt(n)
    ensures m == n
  {
    hide c.ReloadHolds;
    c.ConnectsOnce(false, m, n);
  }

  lemma RegionRecovers(c: Scenario, from: Progress, here: Progress, attempts: nat)
    requires c.PreparesTo(from, here, attempts)
    ensures forall e, stable :: Remediates(c, from, e, stable) ==>
      e.targetAttempts == attempts && c.Recovers(here, e.mmPolls, e.rejoinPolls, e.leader)
  {
    hide c.PreparesAt, c.RecoversAt, c.RedistributesAt, c.PostEndsAt, c.PrepareSteps, c.RecoverSteps,
         c.RedistributeSteps, c.MonitorSteps, c.PreparesTo;
    AfterPreparing(c, from, here, attempts);
    forall e, stable | Remediates(c, from, e, stable)
      ensures e.targetAttempts == attempts && c.Recovers(here, e.mmPolls, e.rejoinPolls, e.leader)
    {
      PreparesOnce(c, e.targetAttempts, attempts);
      PassesOn(c.script, from, here, c.PrepareSteps(attempts), c.RecoverSteps(e.mmPolls, e.rejoinPolls),
               RegionSteps(c, e, stable));
    }
  }

  lemma AfterRecovery(c: Scenario, from: Progress, here: Progress, mmPolls: nat, rejoinPolls: nat, leader: Ip)
    requires c.RecoversTo(from, here, mmPolls, rejoinPolls, leader)
    ensures mmPolls > 0 && c.MmSeen(mmPolls) && rejoinPolls > 0 && c.RecoversAt(from.readings, mmPolls, rejoinPolls, leader)
    ensures Advances(c.script, from, here, c.RecoverSteps(mmPolls, rejoinPolls))
    ensures here.readings == from.readings + mmPolls + 1 + rejoinPolls + 1
  {
    hide c.MmEntries, Polling.Reports, Polling.Seen, FirstConfirmed, InTime;
    c.UpIsSeen(from.readings, mmPolls);
  }

  lemma RecoversOnce(c: Scenario, readings: nat, m: nat, n: nat, leader: Ip, m': nat, n': nat, other: Ip)
    requires c.settings.Valid() && c.RecoversAt(readings, m, n, leader) && c.RecoversAt(readings, m', n', other)
    ensures m == m' && n == n' && leader == other
  {
    hide Polling.ConfirmedAt, Polling.ExpiredAt, c.MmUpAt;
    c.MmUpOnce(readings, m, m');
    c.RejoinPolling().EndsOnce(readings + m + 1, n, leader, n', other);
  }

  lemma RegionRedistributes(c: Scenario, from: Progress, a: Progress, here: Progress, attempts: nat,
                            mmPolls: nat, rejoinPolls: nat, leader: Ip)
    requires c.settings.Valid()
    requires c.PreparesTo(from, a, attempts) && c.RecoversTo(a, here, mmPolls, rejoinPolls, leader)
    ensures attempts > 0 && mmPolls > 0 && c.MmSeen(mmPolls) && rejoinPolls > 0
    ensures Advances(c.script, from, here, c.PrepareSteps(attempts).Then(c.RecoverSteps(mmPolls, rejoinPolls)))
    ensures forall e, stable :: Remediates(c, from, e, stable) ==>
      e.leader == leader && c.Redistributes(here, e.leaderAttempts, leader)
  {
    hide c.PreparesAt, c.RecoversAt, c.RedistributesAt, c.PostEndsAt, c.PrepareSteps, c.RecoverSteps,
         c.RedistributeSteps, c.MonitorSteps, c.PreparesTo, c.RecoversTo;
    AfterPreparing(c, from, a, attempts);
    AfterRecovery(c, a, here, mmPolls, rejoinPolls, leader);
    GoesOn(c.script, from, a, here, c.PrepareSteps(attempts), c.RecoverSteps(mmPolls, rejoinPolls));
    forall e, stable | Remediates(c, from, e, stable)
      ensures e.leader == leader && c.Redistributes(here, e.leaderAttempts, leader)
    {
      PreparesOnce(c, e.targetAttempts, attempts);
      RecoversOnce(c, a.readings, e.mmPolls, e.rejoinPolls, e.leader, mmPolls, rejoinPolls, leader);
      PassesOn(c.script, from, here, c.PrepareSteps(attempts).Then(c.RecoverSteps(mmPolls, rejoinPolls)),
               c.RedistributeSteps(e.leaderAttempts), RegionSteps(c, e, stable));
    }
  }

  lemma AfterRedistribution(c: Scenario, from: Progress, here: Progress, attempts: nat, leader: Ip)
    requires c.RedistributesTo(from, here, attempts, leader)
    ensures attempts > 0 && c.RedistributesAt(attempts, leader)
    ensures Advances(c.script, from, here, c.RedistributeSteps(attempts))
    ensures here.readings == from.readings + attempts - 1
  {
    hide c.ConnectEntries, c.RebalanceHolds, c.MayRetry, c.GateShown;
  }

  lemma RegionMonitors(c: Scenario, from: Progress, b: Progress, here: Progress, e: Evidence)
    requires c.settings.Valid() && e.targetAttempts > 0 && e.mmPolls > 0 && c.MmSeen(e.mmPolls) && e.rejoinPolls > 0
    requires c.PreparesAt(e.targetAttempts) && c.RecoversAt(MmReadings(from.readings, e), e.mmPolls, e.rejoinPolls, e.leader)
    requires b.readings == MmReadings(from.readings, e) + e.mmPolls + 1 + e.rejoinPolls + 1
    requires Advances(c.script, from, b, c.PrepareSteps(e.targetAttempts).Then(c.RecoverSteps(e.mmPolls, e.rejoinPolls)))
    requires c.RedistributesTo(b, here, e.leaderAttempts, e.leader)
    ensures e.leaderAttempts > 0 && here.readings == PostReadings(from.readings, e)
    ensures Advances(c.script, from, here, c.PrepareSteps(e.targetAttempts).Then(c.RecoverSteps(e.mmPolls, e.rejoinPolls))
                                             .Then(c.RedistributeSteps(e.leaderAttempts)))
    ensures forall f, stable :: Remediates(c, from, f, stable) ==> c.Monitors(here, f.postPolls, stable, f.postLeader)
  {
    hide c.PreparesAt, c.RecoversAt, c.PostEndsAt, c.PrepareSteps, c.RecoverSteps, c.RedistributeSteps,
         c.MonitorSteps, c.RedistributesTo, c.GateShown, c.RebalanceHolds;
    AfterRedistribution(c, b, here, e.leaderAttempts, e.leader);
    ghost var done := c.PrepareSteps(e.targetAttempts).Then(c.RecoverSteps(e.mmPolls, e.rejoinPolls));
    GoesOn(c.script, from, b, here, done, c.RedistributeSteps(e.leaderAttempts));
    forall f, stable | Remediates(c, from, f, stable)
      ensures c.Monitors(here, f.postPolls, stable, f.postLeader)
    {
      PreparesOnce(c, f.targetAttempts, e.targetAttempts);
      RecoversOnce(c, MmReadings(from.readings, e), f.mmPolls, f.rejoinPolls, f.leader, e.mmPolls, e.rejoinPolls, e.leader);
      c.ConnectsOnce(true, f.leaderAttempts, e.leaderAttempts);
      PassesOn(c.script, from, here, done.Then(c.RedistributeSteps(e.leaderAttempts)),
               c.MonitorSteps(f.postPolls, stable), RegionSteps(c, f, stable));
    }
  }

  lemma RegionDone(c: Scenario, from: Progress, b: Progress, here: Progress, e: Evidence, stable: bool)
    requires e.targetAttempts > 0 && e.mmPolls > 0 && c.MmSeen(e.mmPolls) && e.rejoinPolls > 0 && e.leaderAttempts > 0
    requires c.PreparesAt(e.targetAttempts) && c.RecoversAt(MmReadings(from.readings, e), e.mmPolls, e.rejoinPolls, e.leader)
    requires c.RedistributesAt(e.leaderAttempts, e.leader) && b.readings == PostReadings(from.readings, e)
    requires Advances(c.script, from, b, c.PrepareSteps(e.targetAttempts).Then(c.RecoverSteps(e.mmPolls, e.rejoinPolls))
                                          .Then(c.RedistributeSteps(e.leaderAttempts)))
    requires c.MonitorsTo(b, here, e.postPolls, stable, e.postLeader)
    ensures RemediatesTo(c, from, here, e, stable)
  {
    hide c.PreparesAt, c.RecoversAt, c.RedistributesAt, c.PostEndsAt, c.PrepareSteps, c.RecoverSteps,
         c.RedistributeSteps, c.MonitorSteps;
    AfterMonitoring(c, b, here, e.postPolls, stable, e.postLeader);
    GoesOn(c.script, from, b, here,
           c.PrepareSteps(e.targetAttempts).Then(c.RecoverSteps(e.mmPolls, e.rejoinPolls))
             .Then(c.RedistributeSteps(e.leaderAttempts)),
           c.MonitorSteps(e.postPolls, stable));
  }

  lemma AfterMonitoring(c: Scenario, from: Progress, here: Progress, polls: nat, stable: bool, leader: Ip)
    requires c.MonitorsTo(from, here, polls, stable, leader)
    ensures (stable ==> polls > 0) && c.PostEndsAt(from.readings, polls, stable, leader)
    ensures Advances(c.script, from, here, c.MonitorSteps(polls, stable))
  {
    hide Polling.Reports, Polling.Seen, FirstConfirmed, NeverConfirmed, InTime;
  }

  // ----- the whole run

  const BEGINNING := Progress([], 0, 0, 0, 0)
  const DETECTED := Entry(Detected, Text("MM_DOWN_DETECTED"))

  /** Inserting the row, claiming the lock, the first snapshot and the first event. */
  const CLAIM := Steps([], 2, 0, 0)
  const ANNOUNCEMENT := Steps([DETECTED], 1, 0, 0)
  const OPENING := CLAIM.Then(ANNOUNCEMENT)

  ghost function RunSteps(c: Scenario, e: Evidence, stable: bool): Steps
    requires CountsFit(c, e, stable)
  {
    OPENING.Then(RegionSteps(c, e, stable))
  }

  /** The run gets through to the end of its monitoring: everything it rests on holds, and from the first
      commit on nothing hinders it. */
  ghost predicate GetsThrough(c: Scenario, e: Evidence, stable: bool) {
    Justified(c, 0, e, stable) && CountsFit(c, e, stable) && Passes(c.script, BEGINNING, RunSteps(c, e, stable))
  }

  lemma GettingThrough(c: Scenario, here: Progress)
    requires Advances(c.script, BEGINNING, here, OPENING)
    ensures here.readings == 0
    ensures forall e, stable :: GetsThrough(c, e, stable) <==> Remediates(c, here, e, stable)
  {
    hide Justified, CountsFit, RegionSteps;
    forall e, stable
      ensures GetsThrough(c, e, stable) <==> Remediates(c, here, e, stable)
    {
      if CountsFit(c, e, stable) {
        InTwoParts(c.script, BEGINNING, here, here, OPENING, RegionSteps(c, e, stable), RunSteps(c, e, stable),
                   Failed, UNEXPECTED);
      }
    }
  }

  lemma GotThrough(c: Scenario, here: Progress, there: Progress, e: Evidence, stable: bool)
    requires Advances(c.script, BEGINNING, here, OPENING) && RemediatesTo(c, here, there, e, stable)
    ensures GetsThrough(c, e, stable) && CountsFit(c, e, stable)
    ensures Advances(c.script, BEGINNING, there, RunSteps(c, e, stable))
  {
    hide Justified, CountsFit, RegionSteps;
    GettingThrough(c, here);
    GoesOn(c.script, BEGINNING, here, there, OPENING, RegionSteps(c, e, stable));
  }

  /** A run with a free lock completes: it gets through, the monitoring is stable and the rebalance confirmed. */
  ghost predicate Completes(c: Scenario) {
    Triggers(c.script.rebalance) && exists e :: GetsThrough(c, e, true)
  }

  /** It gets through, but either the monitoring is not stable or the rebalance not confirmed. */
  ghost predicate EndsPartially(c: Scenario) {
    (exists e :: GetsThrough(c, e, false)) || (!Triggers(c.script.rebalance) && exists e :: GetsThrough(c, e, true))
  }

  /** Why a run with a free lock has ended as failed or stopped when it came to `there`: it was halted just
      there, or a phase fails; and its audit trail tells everything that was finished before. */
  ghost predicate Explained(c: Scenario, e: Evidence, there: Progress, outcome: Outcome, code: Code) {
    && Abnormal(outcome) && TellsDone(c, OPENING.entries, there.told, e)
    && (Halts(c.script, BEGINNING, there, outcome, code) || RegionStops(c, 0, e, outcome, code))
  }
}
