/** Values shared by the remediation store, protocol and workflow. */
module RemediationTypes {
  import opened Prelude

  type RunId = nat

  /** Times are whole microseconds. */
  const SECOND := 1_000_000
  const DAY := 24 * 3600 * SECOND
  const RETENTION := 180 * DAY

  datatype Stage =
    | Detected | LocalPreflight | Precheck | TargetSsh | Reload | WaitingMmUp | FindingLeader
    | VerifyingRejoin | LeaderSsh | FinalGate | Rebalance | PostMonitoring
    | StageCompleted | StagePartial | StageFailed | StageStopped | StageInterrupted

  datatype Outcome = Running | Completed | Partial | Failed | Stopped | Interrupted

  datatype Phase = NotAttempted | Reserved | WriteAttempted | WriteReturned | ResponseObserved

  datatype ActionCode =
    | ReloadDispatched | ExpectedDisconnect | ReloadRejected | ResultUnknownAfterSend | ActionNotSent
    | RebalanceTriggered | RebalanceRejected | RebalanceUnconfirmed | RebalanceResultUnknown

  /** Result and failure codes; those that only the audit trail distinguishes are kept as text. */
  datatype Code =
    | NoCode | ReloadDispatchReserved | RebalanceDispatchReserved | GateWasPassed | ProcessInterrupted
    | ResultOf(action: ActionCode)
    | Text(text: string)

  /** The code of the SSH error by which a cancellation makes itself felt. */
  const CANCELLED := "CANCELLED"

  /** What may leave a collection or an SSH call. */
  datatype Exception = SshError(code: string) | OtherError

  function OrElse(text: string, otherwise: string): string {
    if text != "" then text else otherwise
  }

  function StageOf(outcome: Outcome): Stage {
    match outcome
    case Running => Detected
    case Completed => StageCompleted
    case Partial => StagePartial
    case Failed => StageFailed
    case Stopped => StageStopped
    case Interrupted => StageInterrupted
  }

  datatype Run = Run(
    target: Ip,
    startedAt: int,
    endedAt: Option<int>,
    stage: Stage,
    outcome: Outcome,
    leader: Ip,
    reloadReserved: bool,
    reloadSent: bool,
    rebalanceReserved: bool,
    rebalanceSent: bool,
    rebalanceConfirmed: bool,
    reloadPhase: Phase,
    rebalancePhase: Phase,
    failureCode: Code,
    reportPending: bool)

  function NewRun(target: Ip, startedAt: int): Run {
    Run(target, startedAt, None, Detected, Running, "", false, false, false, false, false,
        NotAttempted, NotAttempted, NoCode, false)
  }

  datatype Event = Event(sequenceNo: nat, stage: Stage, code: Code)

  datatype Lock = Lock(runId: RunId, reloadReserved: bool, rebalanceReserved: bool, streak: nat, active: bool)

  /** The operator's settings that the store and the workflow consult. */
  datatype Settings = Settings(
    sshMaxAttempts: nat,
    sshRetrySeconds: nat,
    mmPollSeconds: nat,
    mmUpTimeoutSeconds: nat,
    membershipPollSeconds: nat,
    membershipTimeoutSeconds: nat,
    membershipConfirmations: nat,
    postPollSeconds: nat,
    postTimeoutSeconds: nat,
    postConfirmations: nat,
    recoveryUnlockConfirmations: nat,
    cooldownSeconds: nat,
    maxActions24h: nat)
  {
    predicate Valid() {
      && 1 <= sshMaxAttempts <= 3
      && 1 <= sshRetrySeconds <= 60
      && 5 <= mmPollSeconds <= 300
      && 60 <= mmUpTimeoutSeconds <= 3600
      && 5 <= membershipPollSeconds <= 300
      && 60 <= membershipTimeoutSeconds <= 1800
      && 1 <= membershipConfirmations <= 10
      && 5 <= postPollSeconds <= 300
      && 60 <= postTimeoutSeconds <= 1800
      && 1 <= postConfirmations <= 10
      && 2 <= recoveryUnlockConfirmations <= 10
      && 60 <= cooldownSeconds <= 24 * 3600
      && 1 <= maxActions24h <= 10
    }
  }

  function Max(a: int, b: int): int {
    if a < b then b else a
  }
}
