/** What a script means for each phase of a workflow: when the phase succeeds, what it then adds to the
    audit trail, and why it stops otherwise. All of this is said about the script alone. */
module RemediationScenario {
  import opened Prelude
  import opened RemediationTypes
  import opened RemediationEvidence
  import opened SshActions
  import opened RemediationScript
  import opened RemediationPolling

  const PREFLIGHT_PASSED := Entry(Stage.LocalPreflight, Text("PASSED"))
  const PRECHECK_STARTED := Entry(Stage.Precheck, Text("STARTED"))
  const PRECHECK_CONFIRMED := Entry(Stage.Precheck, Text("CONFIRMED"))
  const RELOAD_RESERVED := Entry(Reload, ReloadDispatchReserved)
  const GATE_PASSED := Entry(FinalGate, GateWasPassed)
  const REBALANCE_DISPATCH_RESERVED := Entry(Rebalance, RebalanceDispatchReserved)
  const MM_UP_TIMEOUT := Text("MM_UP_TIMEOUT")
  const REJOIN_TIMEOUT := Text("MEMBERSHIP_REJOIN_TIMEOUT")

  const PREFLIGHT := Steps([PREFLIGHT_PASSED], 0, 1, 0)
  const PRECHECK := Steps([PRECHECK_STARTED, PRECHECK_CONFIRMED], 1, 1, 0)
  const GATE := Steps([GATE_PASSED], 1, 0, 0)

  /** Of the run only its stage and the leader have changed. */
  ghost predicate OnlyMoved(before: Run, after: Run) {
    after == before.(stage := after.stage, leader := after.leader)
  }

  lemma MovesOn(a: Run, b: Run, c: Run)
    requires OnlyMoved(a, b) && OnlyMoved(b, c)
    ensures OnlyMoved(a, c)
  {
  }

  lemma NotMoved(run: Run)
    ensures OnlyMoved(run, run)
  {
  }

  /** A write is reserved only where it was reserved before, or where it is due. */
  ghost predicate Reserves(before: Run, after: Run, reloadDue: bool, rebalanceDue: bool) {
    && (after.reloadReserved ==> before.reloadReserved || reloadDue)
    && (after.rebalanceReserved ==> before.rebalanceReserved || rebalanceDue)
  }

  datatype Scenario = Scenario(script: Script, settings: Settings, target: Ip, expected: seq<Ip>)
  {
    // ----- before the reload

    predicate PreflightHolds() {
      script.preflightPasses && script.fingerprintUnchanged
    }

    ghost predicate PreflightStops(outcome: Outcome, code: Code) {
      if script.preflightPasses
      then !script.fingerprintUnchanged && outcome == Stopped && code == Text("CONFIGURATION_FINGERPRINT_CHANGED")
      else outcome == Failed && code == UNEXPECTED
    }

    /** MM, asked again, completely shows the target as the one expected member that is down. */
    ghost predicate PrecheckHolds() {
      script.precheck.Seen? && script.precheck.value.complete && TargetAloneDown(script.precheck.value, target, expected)
    }

    ghost predicate PrecheckStops(outcome: Outcome, code: Code) {
      if script.precheck.PollRaised? then Raises(script.precheck, outcome, code)
      else if !script.precheck.value.complete
      then outcome == Failed && code == Text(OrElse(script.precheck.value.errorCode, "MM_PRECHECK_UNTRUSTED"))
      else !TargetAloneDown(script.precheck.value, target, expected) && outcome == Stopped && code == Text("MM_PRECHECK_CHANGED")
    }

    function ClusterEntry(): Entry {
      Entry(Stage.Precheck, Text(if script.preCluster.PollRaised? then "UNAVAILABLE"
                                 else if script.preCluster.value.members != map[] then "COLLECTED" else "PARTIAL"))
    }

    /** Whatever the cluster answers, it is recorded and the workflow goes on. */
    function ClusterSteps(): Steps {
      Steps([ClusterEntry()], if script.preCluster.Seen? then 1 else 0, 0, 0)
    }

    // ----- connecting

    function SessionAt(leader: bool, attempt: nat): Session {
      if leader then script.leaderSessions(attempt) else script.targetSessions(attempt)
    }

    function ConnectEntry(leader: bool, attempt: nat): Entry {
      Entry(if leader then LeaderSsh else TargetSsh,
            Text(match SessionAt(leader, attempt)
                 case SessionOpened => "CONNECTED"
                 case SshFailed(_, code) => code
                 case OtherFailure => "SSH_CONNECT_FAILED"))
    }

    function AttemptSteps(leader: bool, attempt: nat): Steps {
      AskAndTell(ConnectEntry(leader, attempt))
    }

    function ConnectEntries(leader: bool, attempts: nat): (entries: seq<Entry>)
      ensures |entries| == attempts
    {
      seq(attempts, i requires 0 <= i < attempts => ConnectEntry(leader, i + 1))
    }

    function ExhaustedCode(leader: bool): Code {
      Text(if leader then "LEADER_SSH_ATTEMPTS_EXHAUSTED" else "TARGET_SSH_ATTEMPTS_EXHAUSTED")
    }

    predicate FailsForGood(leader: bool, attempt: nat) {
      SessionAt(leader, attempt).SshFailed? && !SessionAt(leader, attempt).retryable
    }

    ghost predicate MayRetry(leader: bool, attempts: nat) {
      forall m: nat :: 1 <= m <= attempts ==> !SessionAt(leader, m).SessionOpened? && !FailsForGood(leader, m)
    }

    /** The first session opens at `attempt`, after failures that all allow a retry. */
    ghost predicate ConnectsAt(leader: bool, attempt: nat) {
      1 <= attempt <= settings.sshMaxAttempts && MayRetry(leader, attempt - 1) && SessionAt(leader, attempt).SessionOpened?
    }

    function ConnectSteps(leader: bool, attempts: nat): Steps
      requires attempts > 0
    {
      Steps(ConnectEntries(leader, attempts), 0, 2 * attempts - 1, attempts - 1)
    }

    /** So many failed attempts, each followed by the wait for the next one. */
    function RetrySteps(leader: bool, attempts: nat): Steps {
      Steps(ConnectEntries(leader, attempts), 0, 2 * attempts, attempts)
    }

    ghost predicate Connects(from: Progress, leader: bool, attempt: nat) {
      ConnectsAt(leader, attempt) && Passes(script, from, ConnectSteps(leader, attempt))
    }

    ghost predicate GivesUp(leader: bool, attempt: nat, outcome: Outcome, code: Code) {
      FailsForGood(leader, attempt) && outcome == Failed && code == Text(SessionAt(leader, attempt).code)
    }

    /** A failure forbids a retry, or the last attempt failed as well. */
    ghost predicate ConnectStops(leader: bool, outcome: Outcome, code: Code) {
      && outcome == Failed
      && ((exists m: nat :: 1 <= m <= settings.sshMaxAttempts && MayRetry(leader, m - 1) && GivesUp(leader, m, outcome, code))
          || (MayRetry(leader, settings.sshMaxAttempts) && code == ExhaustedCode(leader)))
    }

    lemma ConnectStopsAt(leader: bool, attempt: nat, outcome: Outcome, code: Code)
      requires 1 <= attempt <= settings.sshMaxAttempts && MayRetry(leader, attempt - 1)
      requires GivesUp(leader, attempt, outcome, code)
      ensures ConnectStops(leader, outcome, code) && FailsForGood(leader, attempt)
    {
    }

    lemma NoAttemptYet(leader: bool)
      ensures ConnectEntries(leader, 0) == [] && MayRetry(leader, 0)
    {
    }

    lemma OneMoreAttempt(leader: bool, attempts: nat)
      ensures ConnectEntries(leader, attempts + 1) == ConnectEntries(leader, attempts) + [ConnectEntry(leader, attempts + 1)]
      ensures MayRetry(leader, attempts + 1)
        <==> MayRetry(leader, attempts) && !SessionAt(leader, attempts + 1).SessionOpened? && !FailsForGood(leader, attempts + 1)
    {
    }

    /** As long as no attempt opened a session, the one that does is still to come. */
    lemma ConnectIsAhead(from: Progress, here: Progress, leader: bool, attempts: nat)
      requires MayRetry(leader, attempts) && Advances(script, from, here, RetrySteps(leader, attempts))
      ensures forall n: nat :: Connects(from, leader, n) ==>
        attempts < n && !FailsForGood(leader, attempts + 1) && Passes(script, here, AttemptSteps(leader, attempts + 1))
    {
    }

    lemma RetryIsAhead(from: Progress, here: Progress, leader: bool, attempts: nat)
      requires attempts > 0 && MayRetry(leader, attempts)
      requires Advances(script, from, here, ConnectSteps(leader, attempts))
      ensures forall n: nat :: Connects(from, leader, n) ==> Passes(script, here, ONE_WAIT)
    {
    }

    lemma AttemptEnds(from: Progress, before: Progress, here: Progress, leader: bool, attempts: nat)
      requires attempts < settings.sshMaxAttempts && MayRetry(leader, attempts)
      requires Advances(script, from, before, RetrySteps(leader, attempts))
      requires Advances(script, before, here, AttemptSteps(leader, attempts + 1))
      ensures Advances(script, from, here, ConnectSteps(leader, attempts + 1))
      ensures SessionAt(leader, attempts + 1).SessionOpened? ==> Connects(from, leader, attempts + 1)
    {
      GoesOn(script, from, before, here, RetrySteps(leader, attempts), AttemptSteps(leader, attempts + 1));
      OneMoreAttempt(leader, attempts);
    }

    lemma RetryEnds(from: Progress, before: Progress, here: Progress, leader: bool, attempts: nat)
      requires attempts > 0 && Advances(script, from, before, ConnectSteps(leader, attempts))
      requires Advances(script, before, here, ONE_WAIT)
      ensures Advances(script, from, here, RetrySteps(leader, attempts))
    {
      GoesOn(script, from, before, here, ConnectSteps(leader, attempts), ONE_WAIT);
    }

    lemma AttemptsEnd(leader: bool)
      requires MayRetry(leader, settings.sshMaxAttempts)
      ensures ConnectStops(leader, Failed, ExhaustedCode(leader))
      ensures forall from, n: nat :: !Connects(from, leader, n)
    {
    }

    lemma ConnectsOnce(leader: bool, m: nat, n: nat)
      requires ConnectsAt(leader, m) && ConnectsAt(leader, n)
      ensures m == n
    {
    }

    // ----- the reload

    ghost predicate ReloadHolds() {
      ReloadError(script.reload).None? && ReloadCode(script.reload) != ReloadRejected
    }

    ghost function ReloadSteps(): Steps {
      Told(RELOAD_RESERVED).Then(Told(Entry(Reload, ResultOf(ReloadCode(script.reload)))))
    }

    ghost function Reloaded(run: Run): Run {
      run.(stage := Reload, reloadReserved := true, reloadSent := true, reloadPhase := ReloadPhase(script.reload))
    }

    ghost predicate ReloadStops(outcome: Outcome, code: Code) {
      match ReloadError(script.reload)
      case Some(error) => EndsWith(SshError(error), outcome, code)
      case None => ReloadCode(script.reload) == ReloadRejected && outcome == Failed && code == ResultOf(ReloadRejected)
    }

    // ----- checks, connection and reload together

    ghost function CheckSteps(): Steps {
      PREFLIGHT.Then(StepsAfterPreflight())
    }

    ghost function StepsAfterPreflight(): Steps {
      PRECHECK.Then(StepsAfterPrecheck())
    }

    ghost function StepsAfterPrecheck(): Steps {
      ClusterSteps().Then(ONE_SAVE)
    }

    ghost function PrepareSteps(attempts: nat): Steps
      requires attempts > 0
    {
      CheckSteps().Then(ConnectSteps(false, attempts)).Then(ReloadSteps())
    }

    /** The reload is sent and not refused, after `attempts` attempts to connect. */
    ghost predicate Prepares(from: Progress, attempts: nat) {
      PreparesAt(attempts) && Passes(script, from, PrepareSteps(attempts))
    }

    ghost predicate PreparesTo(from: Progress, to: Progress, attempts: nat) {
      Prepares(from, attempts) && Advances(script, from, to, PrepareSteps(attempts))
    }

    ghost predicate PreparesAt(attempts: nat) {
      PreflightHolds() && PrecheckHolds() && ConnectsAt(false, attempts) && ReloadHolds()
    }

    /** What has to hold before the reload may be reserved. */
    ghost predicate ReloadIsDue() {
      PreflightHolds() && PrecheckHolds() && exists n: nat :: ConnectsAt(false, n)
    }

    ghost predicate PrepareStops(outcome: Outcome, code: Code) {
      || PreflightStops(outcome, code)
      || (PreflightHolds() && PrecheckStops(outcome, code))
      || (PreflightHolds() && PrecheckHolds() && ConnectStops(false, outcome, code))
      || (PreflightHolds() && PrecheckHolds() && (exists n: nat :: ConnectsAt(false, n)) && ReloadStops(outcome, code))
    }

    lemma PreparingChecks(from: Progress)
      ensures forall n: nat :: Prepares(from, n) ==> PreflightHolds() && PrecheckHolds() && Passes(script, from, CheckSteps())
    {
      hide CheckSteps, ReloadSteps, ConnectEntries;
    }

    lemma PreparingConnects(from: Progress, here: Progress)
      requires Advances(script, from, here, CheckSteps())
      ensures forall n: nat :: Prepares(from, n) ==> Connects(here, false, n)
    {
      hide CheckSteps, ReloadSteps, ConnectEntries;
    }

    lemma PreparingReloads(from: Progress, before: Progress, here: Progress, attempts: nat)
      requires ConnectsAt(false, attempts)
      requires Advances(script, from, before, CheckSteps()) && Advances(script, before, here, ConnectSteps(false, attempts))
      ensures Advances(script, from, here, CheckSteps().Then(ConnectSteps(false, attempts)))
      ensures forall n: nat :: Prepares(from, n) ==> ReloadHolds() && Passes(script, here, ReloadSteps())
    {
      hide CheckSteps, ReloadSteps, ConnectEntries, MayRetry, ReloadHolds, PreflightHolds, PrecheckHolds;
      GoesOn(script, from, before, here, CheckSteps(), ConnectSteps(false, attempts));
      forall n: nat | Prepares(from, n)
        ensures Passes(script, here, ReloadSteps())
      {
        ConnectsOnce(false, n, attempts);
        PassesOn(script, from, here, CheckSteps().Then(ConnectSteps(false, attempts)), ReloadSteps(), PrepareSteps(attempts));
      }
    }

    lemma Prepared(from: Progress, before: Progress, here: Progress, attempts: nat)
      requires PreflightHolds() && PrecheckHolds() && ConnectsAt(false, attempts) && ReloadHolds()
      requires Advances(script, from, before, CheckSteps().Then(ConnectSteps(false, attempts)))
      requires Advances(script, before, here, ReloadSteps())
      ensures PreparesTo(from, here, attempts)
    {
      hide CheckSteps, ReloadSteps, ConnectEntries, MayRetry, ReloadHolds, PreflightHolds, PrecheckHolds;
      GoesOn(script, from, before, here, CheckSteps().Then(ConnectSteps(false, attempts)), ReloadSteps());
    }

    // ----- waiting for MM

    ghost predicate MmShowsUp(poll: nat) {
      && script.mmUp(poll).Seen? && script.mmUp(poll).value.complete
      && target in script.mmUp(poll).value.states && script.mmUp(poll).value.states[target] == Up
    }

    /** A poll tells UP only if the answer is complete; otherwise its error, or what it says of the target. */
    ghost function MmEntry(poll: nat): Entry
      requires script.mmUp(poll).Seen?
    {
      var mm := script.mmUp(poll).value;
      Entry(WaitingMmUp, Text(
        if MmShowsUp(poll) then "UP"
        else if mm.errorCode != "" then mm.errorCode
        else if target !in mm.states then "UNKNOWN"
        else match mm.states[target] case Up => "UP" case Down => "DOWN" case OtherState(name) => name))
    }

    ghost predicate MmSeen(polls: nat) {
      forall i: nat :: 1 <= i <= polls ==> script.mmUp(i).Seen?
    }

    /** None of the first `polls` polls failed or showed the target up. */
    ghost predicate MmNotUp(polls: nat) {
      MmSeen(polls) && forall i: nat :: 1 <= i <= polls ==> !MmShowsUp(i)
    }

    ghost function MmEntries(polls: nat): (entries: seq<Entry>)
      requires MmSeen(polls)
      ensures |entries| == polls
    {
      seq(polls, i requires 0 <= i < polls => MmEntry(i + 1))
    }

    predicate MmInTime(readings: nat, poll: nat)
      requires poll > 0
    {
      InTime(script, readings, poll, settings.mmPollSeconds, settings.mmUpTimeoutSeconds)
    }

    /** The first poll that completely shows the target up is `poll`, and its time is not up. */
    ghost predicate MmUpAt(readings: nat, poll: nat) {
      poll > 0 && MmNotUp(poll - 1) && MmShowsUp(poll) && MmInTime(readings, poll)
    }

    ghost function MmSteps(polls: nat): Steps
      requires polls > 0 && MmSeen(polls)
    {
      Steps(MmEntries(polls), 1, 2 * polls - 1, polls + 1)
    }

    ghost predicate MmUps(from: Progress, poll: nat) {
      MmUpAt(from.readings, poll) && Passes(script, from, MmSteps(poll))
    }

    ghost function MmPollSteps(poll: nat): Steps
      requires script.mmUp(poll).Seen?
    {
      Steps([MmEntry(poll)], if MmShowsUp(poll) then 1 else 0, 1, 0)
    }

    /** So many polls that do not yet show the target up, each followed by the wait for the next one. */
    ghost function MmWaitSteps(polls: nat): Steps
      requires MmNotUp(polls)
    {
      Steps(MmEntries(polls), 0, 2 * polls, polls + 2)
    }

    ghost function MmPolledSteps(polls: nat): Steps
      requires polls > 0 && MmNotUp(polls)
    {
      Steps(MmEntries(polls), 0, 2 * polls - 1, polls + 1)
    }

    /** The last of the polls raised, or the time is up after them. */
    ghost predicate MmStops(readings: nat, polls: nat, outcome: Outcome, code: Code) {
      || (polls > 0 && MmNotUp(polls - 1) && MmInTime(readings, polls) && Raises(script.mmUp(polls), outcome, code))
      || (MmNotUp(polls) && !MmInTime(readings, polls + 1) && outcome == Failed && code == MM_UP_TIMEOUT)
    }

    lemma NoMmPollYet()
      ensures MmNotUp(0) && MmWaitSteps(0) == TIMER_STARTED
    {
    }

    lemma MmUpOnce(readings: nat, m: nat, n: nat)
      requires MmUpAt(readings, m) && MmUpAt(readings, n)
      ensures m == n
    {
    }

    /** As long as no poll showed the target up, the one that does is still to come. */
    lemma MmUpIsAhead(readings: nat, polls: nat, n: nat)
      requires MmNotUp(polls) && MmUpAt(readings, n)
      ensures polls < n && MmInTime(readings, polls + 1) && script.mmUp(polls + 1).Seen?
      ensures MmShowsUp(polls + 1) ==> n == polls + 1
    {
      InTimeBefore(script, readings, polls + 1, n, settings.mmPollSeconds, settings.mmUpTimeoutSeconds);
    }

    lemma MmPollIsAhead(from: Progress, here: Progress, polls: nat)
      requires MmNotUp(polls) && Advances(script, from, here, MmWaitSteps(polls))
      ensures forall n: nat :: MmUps(from, n) ==>
        && polls < n && MmInTime(from.readings, polls + 1) && script.mmUp(polls + 1).Seen?
        && Passes(script, here, MmPollSteps(polls + 1))
    {
      hide MmShowsUp, MmNotUp, InTime;
      forall n: nat | MmUps(from, n)
        ensures polls < n && MmInTime(from.readings, polls + 1) && script.mmUp(polls + 1).Seen?
        ensures Passes(script, here, MmPollSteps(polls + 1))
      {
        MmUpIsAhead(from.readings, polls, n);
      }
    }

    lemma MmWaitIsAhead(from: Progress, here: Progress, polls: nat)
      requires polls > 0 && MmNotUp(polls) && Advances(script, from, here, MmPolledSteps(polls))
      ensures forall n: nat :: MmUps(from, n) ==> Passes(script, here, ONE_WAIT)
    {
      hide MmShowsUp, MmNotUp, InTime;
      forall n: nat | MmUps(from, n)
        ensures Passes(script, here, ONE_WAIT)
      {
        MmUpIsAhead(from.readings, polls, n);
      }
    }

    lemma MmPollEnds(from: Progress, before: Progress, here: Progress, polls: nat)
      requires MmNotUp(polls) && MmInTime(from.readings, polls + 1) && script.mmUp(polls + 1).Seen?
      requires Advances(script, from, before, MmWaitSteps(polls)) && Advances(script, before, here, MmPollSteps(polls + 1))
      ensures if MmShowsUp(polls + 1) then MmUps(from, polls + 1) && Advances(script, from, here, MmSteps(polls + 1))
              else MmNotUp(polls + 1) && Advances(script, from, here, MmPolledSteps(polls + 1))
    {
      hide InTime, MmEntry;
      GoesOn(script, from, before, here, MmWaitSteps(polls), MmPollSteps(polls + 1));
      assert MmEntries(polls + 1) == MmEntries(polls) + [MmEntry(polls + 1)];
    }

    lemma MmWaitEnds(from: Progress, before: Progress, here: Progress, polls: nat)
      requires polls > 0 && MmNotUp(polls)
      requires Advances(script, from, before, MmPolledSteps(polls)) && Advances(script, before, here, ONE_WAIT)
      ensures Advances(script, from, here, MmWaitSteps(polls))
    {
      hide MmNotUp, MmEntry;
      GoesOn(script, from, before, here, MmPolledSteps(polls), ONE_WAIT);
    }

    // ----- waiting for the rejoin

    /** In poll `poll` a complete discovery names exactly this leader. */
    ghost predicate NamesLeader(poll: nat, leader: Ip) {
      && script.discoveries(poll).Seen?
      && script.discoveries(poll).value.membershipComplete && LeadsAlone(script.discoveries(poll).value, leader)
    }

    /** Moreover, that leader's own view shows the rejoin. */
    ghost predicate RejoinShown(poll: nat, leader: Ip) {
      && NamesLeader(poll, leader) && script.leaderViews(poll, leader).Seen?
      && ShowsRejoin(script.leaderViews(poll, leader).value, leader, target, expected)
    }

    ghost predicate RejoinRaises(poll: nat, outcome: Outcome, code: Code) {
      || Raises(script.discoveries(poll), outcome, code)
      || exists leader :: NamesLeader(poll, leader) && Raises(script.leaderViews(poll, leader), outcome, code)
    }

    ghost predicate RejoinPollSeen(poll: nat) {
      script.discoveries(poll).Seen? && forall leader :: NamesLeader(poll, leader) ==> script.leaderViews(poll, leader).Seen?
    }

    ghost function RejoinVerdict(poll: nat): Option<Ip> {
      if exists leader :: RejoinShown(poll, leader) then
        var leader :| RejoinShown(poll, leader);
        Some(leader)
      else None
    }

    ghost function RejoinEntry(poll: nat): Entry {
      if leader :| NamesLeader(poll, leader)
      then Entry(VerifyingRejoin,
                 Text(if RejoinShown(poll, leader) then "CONNECTED"
                      else if script.leaderViews(poll, leader).Seen?
                      then OrElse(script.leaderViews(poll, leader).value.errorCode, "NOT_READY") else ""))
      else Entry(FindingLeader, Text("LEADER_NOT_UNIQUE"))
    }

    ghost function RejoinPolling(): Polling {
      Polling(script, (i: nat) => RejoinEntry(i), (i: nat) => RejoinVerdict(i), (i: nat) => RejoinPollSeen(i),
              settings.membershipPollSeconds, settings.membershipTimeoutSeconds, settings.membershipConfirmations)
    }

    /** The last of the polls raised, or the time is up after them. */
    ghost predicate RejoinStops(readings: nat, polls: nat, outcome: Outcome, code: Code) {
      var p := RejoinPolling();
      || (polls > 0 && p.NotYet(polls - 1) && p.PollInTime(readings, polls) && RejoinRaises(polls, outcome, code))
      || (p.ExpiredAt(readings, polls) && outcome == Failed && code == REJOIN_TIMEOUT)
    }

    lemma NamesOne(poll: nat, leader: Ip, other: Ip)
      requires NamesLeader(poll, leader) && NamesLeader(poll, other)
      ensures leader == other
    {
      OneLeadsAlone(script.discoveries(poll).value, leader, other);
    }

    lemma EntryOfNamed(poll: nat, leader: Ip)
      requires NamesLeader(poll, leader) && script.leaderViews(poll, leader).Seen?
      ensures RejoinEntry(poll) == Entry(VerifyingRejoin,
        Text(if RejoinShown(poll, leader) then "CONNECTED"
             else OrElse(script.leaderViews(poll, leader).value.errorCode, "NOT_READY")))
      ensures RejoinPollSeen(poll) && RejoinVerdict(poll) == if RejoinShown(poll, leader) then Some(leader) else None
    {
      forall other | NamesLeader(poll, other)
        ensures other == leader
      {
        NamesOne(poll, leader, other);
      }
    }

    lemma RaisingStopsRejoin(readings: nat, polls: nat, outcome: Outcome, code: Code)
      requires polls > 0 && RejoinPolling().NotYet(polls - 1) && RejoinPolling().PollInTime(readings, polls)
      ensures RejoinRaises(polls, outcome, code) ==> RejoinStops(readings, polls, outcome, code)
    {
      hide RejoinRaises, Polling.NotYet;
    }

    // ----- both waits together

    ghost function RecoverSteps(mmPolls: nat, rejoinPolls: nat): Steps
      requires mmPolls > 0 && MmSeen(mmPolls) && rejoinPolls > 0
    {
      MmSteps(mmPolls).Then(RejoinPolling().ConfirmSteps(rejoinPolls)).Then(TWO_SAVES)
    }

    /** MM shows the target up at poll `mmPolls`, and then the rejoin under `leader` is confirmed at poll
        `rejoinPolls`. */
    ghost predicate RecoversAt(readings: nat, mmPolls: nat, rejoinPolls: nat, leader: Ip) {
      MmUpAt(readings, mmPolls) && RejoinPolling().ConfirmedAt(readings + mmPolls + 1, rejoinPolls, leader)
    }

    ghost predicate Recovers(from: Progress, mmPolls: nat, rejoinPolls: nat, leader: Ip) {
      RecoversAt(from.readings, mmPolls, rejoinPolls, leader) && Passes(script, from, RecoverSteps(mmPolls, rejoinPolls))
    }

    ghost predicate RecoversTo(from: Progress, to: Progress, mmPolls: nat, rejoinPolls: nat, leader: Ip) {
      Recovers(from, mmPolls, rejoinPolls, leader) && Advances(script, from, to, RecoverSteps(mmPolls, rejoinPolls))
    }

    ghost predicate RecoverStops(readings: nat, mmPolls: nat, rejoinPolls: nat, outcome: Outcome, code: Code) {
      || MmStops(readings, mmPolls, outcome, code)
      || (MmUpAt(readings, mmPolls) && RejoinStops(readings + mmPolls + 1, rejoinPolls, outcome, code))
    }

    lemma RecoveringMm(from: Progress)
      ensures forall m: nat, n: nat, leader :: Recovers(from, m, n, leader) ==> MmUps(from, m)
    {
      hide MmUpAt, RejoinPolling, Polling.ConfirmedAt;
      forall m: nat, n: nat, leader | Recovers(from, m, n, leader)
        ensures MmUps(from, m)
      {
        UpIsSeen(from.readings, m);
        FirstPart(script, from, MmSteps(m), RejoinPolling().ConfirmSteps(n), MmSteps(m).Then(RejoinPolling().ConfirmSteps(n)));
        FirstPart(script, from, MmSteps(m).Then(RejoinPolling().ConfirmSteps(n)), TWO_SAVES, RecoverSteps(m, n));
      }
    }

    lemma UpIsSeen(readings: nat, polls: nat)
      requires MmUpAt(readings, polls)
      ensures polls > 0 && MmSeen(polls) && MmNotUp(polls - 1)
    {
    }

    lemma ReadingsAfterMm(from: Progress, here: Progress, polls: nat)
      requires MmUps(from, polls) && Advances(script, from, here, MmSteps(polls))
      ensures here.readings == from.readings + polls + 1 && MmUpAt(from.readings, polls) && polls > 0 && MmSeen(polls)
    {
    }

    lemma RecoveringRejoin(from: Progress, here: Progress, mmPolls: nat)
      requires MmUps(from, mmPolls) && Advances(script, from, here, MmSteps(mmPolls))
      ensures forall m: nat, n: nat, leader :: Recovers(from, m, n, leader) ==> RejoinPolling().Confirms(here, n, leader)
    {
      hide MmUpAt, Polling.ConfirmedAt, MmEntries;
      ReadingsAfterMm(from, here, mmPolls);
      forall m: nat, n: nat, leader | Recovers(from, m, n, leader)
        ensures RejoinPolling().Confirms(here, n, leader)
      {
        MmUpOnce(from.readings, m, mmPolls);
        UpIsSeen(from.readings, m);
        PassesOn(script, from, here, MmSteps(m), RejoinPolling().ConfirmSteps(n), RecoverSteps(m, n));
      }
    }

    lemma RecoveringSaves(from: Progress, before: Progress, here: Progress, mmPolls: nat, rejoinPolls: nat, leader: Ip)
      requires settings.Valid() && MmUps(from, mmPolls) && Advances(script, from, before, MmSteps(mmPolls))
      requires RejoinPolling().Confirms(before, rejoinPolls, leader)
      requires Advances(script, before, here, RejoinPolling().ConfirmSteps(rejoinPolls))
      ensures rejoinPolls > 0
      ensures Advances(script, from, here, MmSteps(mmPolls).Then(RejoinPolling().ConfirmSteps(rejoinPolls)))
      ensures forall m: nat, n: nat, other :: Recovers(from, m, n, other) ==> Passes(script, here, TWO_SAVES)
    {
      hide MmUpAt, Polling.ConfirmedAt, MmEntries;
      var p := RejoinPolling();
      ReadingsAfterMm(from, before, mmPolls);
      GoesOn(script, from, before, here, MmSteps(mmPolls), p.ConfirmSteps(rejoinPolls));
      forall m: nat, n: nat, other | Recovers(from, m, n, other)
        ensures Passes(script, here, TWO_SAVES)
      {
        MmUpOnce(from.readings, m, mmPolls);
        p.EndsOnce(before.readings, rejoinPolls, leader, n, other);
        PassesOn(script, from, here, MmSteps(m).Then(p.ConfirmSteps(n)), TWO_SAVES, RecoverSteps(m, n));
      }
    }

    lemma Recovered(from: Progress, before: Progress, middle: Progress, here: Progress,
                    mmPolls: nat, rejoinPolls: nat, leader: Ip)
      requires MmUps(from, mmPolls) && Advances(script, from, before, MmSteps(mmPolls))
      requires RejoinPolling().Confirms(before, rejoinPolls, leader)
      requires Advances(script, from, middle, MmSteps(mmPolls).Then(RejoinPolling().ConfirmSteps(rejoinPolls)))
      requires Advances(script, middle, here, TWO_SAVES)
      ensures RecoversTo(from, here, mmPolls, rejoinPolls, leader)
    {
      hide MmUpAt, Polling.ConfirmedAt, MmEntries;
      UpIsSeen(from.readings, mmPolls);
      GoesOn(script, from, middle, here, MmSteps(mmPolls).Then(RejoinPolling().ConfirmSteps(rejoinPolls)), TWO_SAVES);
    }

    // ----- the final gate

    /** Both sources as the gate sees them. */
    ghost predicate GateShown(leader: Ip) {
      && script.gateMembership.Seen? && script.gateMm.Seen?
      && GateHolds(script.gateMm.value, script.gateMembership.value, leader, target, expected)
    }

    ghost predicate GateStops(leader: Ip, outcome: Outcome, code: Code) {
      || Raises(script.gateMembership, outcome, code)
      || (script.gateMembership.Seen? && Raises(script.gateMm, outcome, code))
      || (script.gateMembership.Seen? && script.gateMm.Seen? && outcome == Failed
          && exists reason ::
               && FirstReason(reason, script.gateMm.value, script.gateMembership.value, leader, target, expected)
               && code == Text(GateCode(reason, script.gateMm.value, script.gateMembership.value)))
    }

    // ----- the rebalance

    ghost predicate RebalanceHolds() {
      RebalanceError(script.rebalance).None? && RebalanceCode(script.rebalance) != RebalanceRejected
    }

    ghost function RebalanceSteps(): Steps {
      Told(REBALANCE_DISPATCH_RESERVED).Then(Told(Entry(Rebalance, ResultOf(RebalanceCode(script.rebalance)))))
    }

    ghost function Rebalanced(run: Run): Run {
      run.(stage := Rebalance, rebalanceReserved := true, rebalanceSent := true,
           rebalancePhase := RebalancePhase(script.rebalance), rebalanceConfirmed := Triggers(script.rebalance))
    }

    ghost predicate RebalanceStops(outcome: Outcome, code: Code) {
      match RebalanceError(script.rebalance)
      case Some(error) => EndsWith(SshError(error), outcome, code)
      case None =>
        RebalanceCode(script.rebalance) == RebalanceRejected && outcome == Failed && code == ResultOf(RebalanceRejected)
    }

    // ----- connection, gate and rebalance together

    ghost function RedistributeSteps(attempts: nat): Steps
      requires attempts > 0
    {
      ConnectSteps(true, attempts).Then(GATE).Then(RebalanceSteps())
    }

    ghost predicate RedistributesAt(attempts: nat, leader: Ip) {
      ConnectsAt(true, attempts) && GateShown(leader) && RebalanceHolds()
    }

    ghost predicate Redistributes(from: Progress, attempts: nat, leader: Ip) {
      RedistributesAt(attempts, leader) && Passes(script, from, RedistributeSteps(attempts))
    }

    ghost predicate RedistributesTo(from: Progress, to: Progress, attempts: nat, leader: Ip) {
      Redistributes(from, attempts, leader) && Advances(script, from, to, RedistributeSteps(attempts))
    }

    /** What has to hold after the rejoin before the rebalance may be reserved. */
    ghost predicate RebalanceIsDue(leader: Ip) {
      (exists n: nat :: ConnectsAt(true, n)) && GateShown(leader)
    }

    ghost predicate RedistributeStops(leader: Ip, outcome: Outcome, code: Code) {
      || ConnectStops(true, outcome, code)
      || ((exists n: nat :: ConnectsAt(true, n)) && GateStops(leader, outcome, code))
      || ((exists n: nat :: ConnectsAt(true, n)) && GateShown(leader) && RebalanceStops(outcome, code))
    }

    lemma RedistributingConnects(from: Progress, leader: Ip)
      ensures forall n: nat :: Redistributes(from, n, leader) ==> Connects(from, true, n)
    {
      hide RebalanceSteps, ConnectEntries, MayRetry, GateShown, RebalanceHolds;
    }

    lemma RedistributingGate(from: Progress, here: Progress, attempts: nat, leader: Ip)
      requires Connects(from, true, attempts) && Advances(script, from, here, ConnectSteps(true, attempts))
      ensures forall n: nat :: Redistributes(from, n, leader) ==> GateShown(leader) && Passes(script, here, GATE)
    {
      hide RebalanceSteps, ConnectEntries, MayRetry, GateShown, RebalanceHolds;
      forall n: nat | Redistributes(from, n, leader)
        ensures GateShown(leader) && Passes(script, here, GATE)
      {
        ConnectsOnce(true, n, attempts);
        PassesOn(script, from, here, ConnectSteps(true, n), GATE, RedistributeSteps(n));
      }
    }

    lemma RedistributingRebalance(from: Progress, before: Progress, here: Progress, attempts: nat, leader: Ip)
      requires Connects(from, true, attempts) && Advances(script, from, before, ConnectSteps(true, attempts))
      requires Advances(script, before, here, GATE)
      ensures Advances(script, from, here, ConnectSteps(true, attempts).Then(GATE))
      ensures forall n: nat :: Redistributes(from, n, leader) ==> RebalanceHolds() && Passes(script, here, RebalanceSteps())
    {
      hide RebalanceSteps, ConnectEntries, MayRetry, GateShown, RebalanceHolds;
      GoesOn(script, from, before, here, ConnectSteps(true, attempts), GATE);
      forall n: nat | Redistributes(from, n, leader)
        ensures RebalanceHolds() && Passes(script, here, RebalanceSteps())
      {
        ConnectsOnce(true, n, attempts);
        PassesOn(script, from, here, ConnectSteps(true, n).Then(GATE), RebalanceSteps(), RedistributeSteps(n));
      }
    }

    lemma Redistributed(from: Progress, before: Progress, here: Progress, attempts: nat, leader: Ip)
      requires ConnectsAt(true, attempts) && GateShown(leader) && RebalanceHolds()
      requires Advances(script, from, before, ConnectSteps(true, attempts).Then(GATE))
      requires Advances(script, before, here, RebalanceSteps())
      ensures RedistributesTo(from, here, attempts, leader)
    {
      hide RebalanceSteps, ConnectEntries, MayRetry, GateShown, RebalanceHolds;
      GoesOn(script, from, before, here, ConnectSteps(true, attempts).Then(GATE), RebalanceSteps());
    }

    // ----- after the rebalance

    /** MM and cluster are completely normal in poll `poll`, under this leader. */
    ghost predicate NormalShown(poll: nat, leader: Ip) {
      && script.postMm(poll).Seen? && script.postCluster(poll).Seen?
      && ShowsNormal(script.postMm(poll).value, script.postCluster(poll).value, leader, expected)
    }

    ghost predicate PostRaises(poll: nat, outcome: Outcome, code: Code) {
      || Raises(script.postMm(poll), outcome, code)
      || (script.postMm(poll).Seen? && Raises(script.postCluster(poll), outcome, code))
    }

    predicate PostPollSeen(poll: nat) {
      script.postMm(poll).Seen? && script.postCluster(poll).Seen?
    }

    ghost function PostVerdict(poll: nat): Option<Ip> {
      if exists leader :: NormalShown(poll, leader) then
        var leader :| NormalShown(poll, leader);
        Some(leader)
      else None
    }

    ghost function PostEntry(poll: nat): Entry {
      Entry(PostMonitoring, Text(if PostVerdict(poll).Some? then "NORMAL" else "NOT_STABLE"))
    }

    ghost function PostPolling(): Polling {
      Polling(script, (i: nat) => PostEntry(i), (i: nat) => PostVerdict(i), (i: nat) => PostPollSeen(i),
              settings.postPollSeconds, settings.postTimeoutSeconds, settings.postConfirmations)
    }

    /** The monitoring ends stable under `leader`, or unstable, after so many polls. */
    ghost predicate PostEndsAt(readings: nat, polls: nat, stable: bool, leader: Ip) {
      if stable then PostPolling().ConfirmedAt(readings, polls, leader) else PostPolling().ExpiredAt(readings, polls)
    }

    ghost function PostSteps(polls: nat, stable: bool): Steps
      requires stable ==> polls > 0
    {
      if stable then PostPolling().ConfirmSteps(polls) else PostPolling().WaitedSteps(polls)
    }

    ghost function MonitorSteps(polls: nat, stable: bool): Steps
      requires stable ==> polls > 0
    {
      PostSteps(polls, stable).Then(ONE_SAVE)
    }

    ghost predicate Monitors(from: Progress, polls: nat, stable: bool, leader: Ip) {
      PostEndsAt(from.readings, polls, stable, leader) && Passes(script, from, MonitorSteps(polls, stable))
    }

    ghost predicate MonitorsTo(from: Progress, to: Progress, polls: nat, stable: bool, leader: Ip) {
      Monitors(from, polls, stable, leader) && Advances(script, from, to, MonitorSteps(polls, stable))
    }

    lemma MonitoringPolls(from: Progress)
      ensures forall n: nat, leader :: Monitors(from, n, true, leader) ==> PostPolling().Confirms(from, n, leader)
      ensures forall n: nat, leader :: Monitors(from, n, false, leader) ==> PostPolling().Expires(from, n)
    {
      hide Polling.NotYet, InTime, FirstConfirmed, Polling.Reports, Polling.Seen;
    }

    lemma MonitoringSaves(from: Progress, here: Progress, polls: nat, stable: bool, leader: Ip)
      requires settings.Valid()
      requires if stable then PostPolling().Confirms(from, polls, leader) else PostPolling().Expires(from, polls)
      requires Advances(script, from, here, PostSteps(polls, stable))
      ensures stable ==> polls > 0
      ensures forall n: nat, s, l :: Monitors(from, n, s, l) ==> Passes(script, here, ONE_SAVE)
    {
      hide Polling.NotYet, InTime, FirstConfirmed, Polling.Reports, Polling.Seen, Polling.ConfirmedAt,
           Polling.ExpiredAt;
      var p := PostPolling();
      forall n: nat, s, l | Monitors(from, n, s, l)
        ensures Passes(script, here, ONE_SAVE)
      {
        PostEndsOnce(from.readings, polls, stable, leader, n, s, l);
        PassesOn(script, from, here, PostSteps(n, s), ONE_SAVE, MonitorSteps(n, s));
      }
    }

    lemma PostEndsOnce(readings: nat, m: nat, stable: bool, leader: Ip, n: nat, s: bool, l: Ip)
      requires settings.Valid() && PostEndsAt(readings, m, stable, leader) && PostEndsAt(readings, n, s, l)
      ensures m == n && stable == s && (stable ==> leader == l)
    {
      hide Polling.ConfirmedAt, Polling.ExpiredAt;
      var p := PostPolling();
      if stable {
        p.EndsOnce(readings, m, leader, n, l);
      } else if s {
        p.EndsOnce(readings, n, l, m, l);
      } else {
        p.ExpiresOnce(readings, m, n);
      }
    }

    lemma Monitored(from: Progress, before: Progress, here: Progress, polls: nat, stable: bool, leader: Ip)
      requires if stable then PostPolling().Confirms(from, polls, leader) else PostPolling().Expires(from, polls)
      requires Advances(script, from, before, PostSteps(polls, stable)) && Advances(script, before, here, ONE_SAVE)
      ensures MonitorsTo(from, here, polls, stable, leader)
    {
      hide Polling.NotYet, InTime, FirstConfirmed, Polling.Reports, Polling.Seen;
      GoesOn(script, from, before, here, PostSteps(polls, stable), ONE_SAVE);
    }

    ghost predicate PostStops(readings: nat, polls: nat, outcome: Outcome, code: Code) {
      var p := PostPolling();
      polls > 0 && p.NotYet(polls - 1) && p.PollInTime(readings, polls) && PostRaises(polls, outcome, code)
    }

    lemma RaisingStopsPost(readings: nat, polls: nat, outcome: Outcome, code: Code)
      requires polls > 0 && PostPolling().NotYet(polls - 1) && PostPolling().PollInTime(readings, polls)
      ensures PostRaises(polls, outcome, code) ==> PostStops(readings, polls, outcome, code)
    {
      hide PostRaises, Polling.NotYet;
    }

    lemma PostVerdictIsLeader(poll: nat, leader: Ip)
      requires NormalShown(poll, leader)
      ensures PostVerdict(poll) == Some(leader)
    {
      assert NormalShown(poll, leader);
      OneLeadsAlone(script.postCluster(poll).value, leader, PostVerdict(poll).value);
    }
  }
}
