/** The remediation protocol as a transition system.

    A state holds the durable store, the volatile workflow (at most one), whether the process is up,
    the clock, and three histories that only the proofs read: the log of externally visible
    happenings, who was ever started, and which runs ever had a durable reload reservation.
    Every commit carries the storage engine's answer, and `Crash` may follow any action. */
module RemediationProtocol {
  import opened Prelude
  import opened RemediationTypes
  import opened RemediationStore

  /** Where the workflow's control is; a refused or faulted workflow can only conclude. */
  datatype Pc =
    | Created
    | Inserted
    | ClaimLost
    | Claimed
    | Preparing
    | ReloadReserved
    | ReloadWritten
    | ReloadRefused
    | AwaitingMm
    | AwaitingRejoin
    | Rejoined(leader: Ip)
    | Gated(leader: Ip)
    | RebalanceReserved(leader: Ip)
    | RebalanceWritten(leader: Ip)
    | RebalanceRefused
    | Monitoring(leader: Ip)
    | Monitored(leader: Ip, healthy: bool)
    | Faulted
    | Finalizing(release: bool)

  datatype Live = Live(id: RunId, run: Run, sequence: nat, pc: Pc)

  datatype Happening =
    | LockClaimed(id: RunId, ip: Ip)
    | ReloadSent(id: RunId, ip: Ip)
    | ReloadSettled(id: RunId)
    | SawMmUp(id: RunId)
    | RejoinConfirmed(id: RunId, leader: Ip)
    | GatePassed(id: RunId, leader: Ip)
    | RebalanceSent(id: RunId, leader: Ip)
    | PostMonitored(id: RunId, healthy: bool)
    | LockReleased(id: RunId, ip: Ip)
    | HealthObserved(ip: Ip, healthy: bool, unlocked: bool)

  /** What was known about the cluster when a run was started. */
  datatype Start = Start(target: Ip, startedAt: int, earlier: set<RunId>, unfinished: set<RunId>)

  datatype Reservation = Reservation(target: Ip, startedAt: int)

  datatype Sys = Sys(
    db: Db,
    live: Option<Live>,
    up: bool,
    now: int,
    log: seq<Happening>,
    begun: map<RunId, Start>,
    reserved: map<RunId, Reservation>)

  datatype Config = Config(settings: Settings, pollingPaused: bool)

  datatype Action =
    | Tick(elapsed: nat)
    | Begin(id: RunId, target: Ip, lag: nat)
    | InsertRow(durable: bool)
    | ClaimLock(durable: bool)
    | Note(durable: bool, stage: Stage, result: Code)
    | Snapshot(durable: bool)
    | EnterTry
    | ReserveReload(durable: bool)
    | WriteReload
    | SettleReload(durable: bool, code: ActionCode, sent: bool, phase: Phase)
    | SeeMmUp
    | ConfirmRejoin(durable: bool, leader: Ip)
    | PassGate(durable: bool)
    | ReserveRebalance(durable: bool)
    | WriteRebalance
    | SettleRebalance(durable: bool, code: ActionCode, sent: bool, phase: Phase)
    | ConfirmStable(durable: bool, leader: Ip)
    | GiveUpMonitoring
    | Conclude(outcome: Outcome, failureCode: Code)
    | FinalCommit(durable: bool, event: Option<Code>, reportPending: bool)
    | Unlock(durable: bool)
    | Finish
    | Crash
    | Restart(durable: bool)
    | RetryReport(id: RunId, durable: bool)
    | Observe(ip: Ip, healthy: bool, durable: bool)

  function Initial(now: int): Sys {
    Sys(EMPTY_DB, None, true, now, [], map[], map[])
  }

  function Rank(pc: Pc): nat {
    match pc
    case Created => 0
    case Inserted => 1
    case ClaimLost => 2
    case Claimed => 3
    case Preparing => 4
    case ReloadReserved => 5
    case ReloadWritten => 6
    case ReloadRefused => 7
    case AwaitingMm => 8
    case AwaitingRejoin => 9
    case Rejoined(_) => 10
    case Gated(_) => 11
    case RebalanceReserved(_) => 12
    case RebalanceWritten(_) => 13
    case RebalanceRefused => 14
    case Monitoring(_) => 15
    case Monitored(_, _) => 16
    case Faulted => 17
    case Finalizing(_) => 18
  }

  /** From here on a rebalance reservation has been committed. */
  const REBALANCE_RESERVED := 12

  predicate RefusesReload(code: ActionCode) {
    code == ReloadRejected || code == ActionNotSent
  }

  predicate RefusesRebalance(code: ActionCode) {
    code == RebalanceRejected || code == ActionNotSent
  }

  /** A response to the command is only possible once the command was written. */
  predicate ProvesWrite(code: ActionCode) {
    && code != ActionNotSent
    && code != ResultUnknownAfterSend
    && code != RebalanceResultUnknown
  }

  // ----- transitions

  function NextEvent(live: Live, stage: Stage, code: Code): Event {
    Event(live.sequence + 1, stage, code)
  }

  function Durably(s: Sys, db: Db, live: Live, happened: seq<Happening>): Sys {
    s.(db := db,
       live := Some(live),
       log := s.log + happened,
       reserved :=
         if live.run.reloadReserved && live.id !in s.reserved
         then s.reserved[live.id := Reservation(live.run.target, live.run.startedAt)]
         else s.reserved)
  }

  /** A failed commit before the guarded region loses the workflow; inside it, only concluding is left. */
  function AfterFailure(live: Live, run: Run, sequence: nat): Option<Live> {
    if live.pc.Claimed? then None
    else Some(Live(live.id, run, sequence, if live.pc.Finalizing? then live.pc else Faulted))
  }

  /** What a committing step writes, where it goes on success, and what has then happened. */
  datatype Commit = Commit(run: Run, event: Option<Event>, next: Pc, happened: seq<Happening>)

  function CommitLive(s: Sys, durable: bool, plan: Commit): Sys
    requires s.live.Some?
  {
    var live := s.live.value;
    var sequence := if plan.event.Some? then live.sequence + 1 else live.sequence;
    var committed := Transition(s.db, live.id, plan.run, plan.event);
    if durable && committed.Some?
    then Durably(s, committed.value, Live(live.id, plan.run, sequence, plan.next), plan.happened)
    else s.(live := AfterFailure(live, plan.run, sequence))
  }

  function Staged(run: Run, stage: Stage): Run {
    run.(stage := stage)
  }

  predicate MayConclude(live: Live, outcome: Outcome) {
    if live.pc.ClaimLost? then outcome.Stopped?
    else if outcome.Completed? then live.pc.Monitored? && live.pc.healthy && live.run.rebalanceConfirmed
    else if outcome.Partial? then live.pc.Monitored? && !(live.pc.healthy && live.run.rebalanceConfirmed)
    else (outcome.Failed? || outcome.Stopped?) && Rank(Preparing) <= Rank(live.pc) <= Rank(Faulted)
  }

  function ReleasesLock(live: Live, outcome: Outcome): bool {
    if live.pc.ClaimLost? then false
    else outcome.Completed? || outcome.Partial? || !live.run.reloadReserved
  }

  predicate Enabled(c: Config, s: Sys, a: Action) {
    match a
    case Tick(_) => true
    case Begin(id, target, _) =>
      && s.up && s.live.None? && id !in s.begun
      && BreakerAllows(s.db, target, c.settings.cooldownSeconds, c.settings.maxActions24h, s.now)
    case Crash => s.up
    case Restart(_) => !s.up
    case RetryReport(id, _) => s.up && s.live.None? && id in s.db.runs && !s.db.runs[id].outcome.Running?
    case Observe(_, _, _) => s.up && (c.pollingPaused ==> s.live.None?)
    case _ => s.live.Some? && EnabledLive(s.live.value, a)
  }

  /** The workflow's own steps, by where its control is. */
  predicate EnabledLive(live: Live, a: Action) {
    var pc := live.pc;
    match a
    case InsertRow(_) => pc.Created?
    case ClaimLock(_) => pc.Inserted?
    case Note(_, _, _) => Rank(Claimed) <= Rank(pc) < Rank(Faulted)
    case Snapshot(_) => Rank(Claimed) <= Rank(pc) < Rank(Faulted)
    case EnterTry => pc.Claimed?
    case ReserveReload(_) => pc.Preparing?
    case WriteReload => pc.ReloadReserved?
    case SettleReload(_, code, _, _) => pc.ReloadWritten? || (pc.ReloadReserved? && !ProvesWrite(code))
    case SeeMmUp => pc.AwaitingMm?
    case ConfirmRejoin(_, _) => pc.AwaitingRejoin?
    case PassGate(_) => pc.Rejoined?
    case ReserveRebalance(_) => pc.Gated?
    case WriteRebalance => pc.RebalanceReserved?
    case SettleRebalance(_, code, _, _) => pc.RebalanceWritten? || (pc.RebalanceReserved? && !ProvesWrite(code))
    case ConfirmStable(_, _) => pc.Monitoring?
    case GiveUpMonitoring => pc.Monitoring?
    case Conclude(outcome, _) => MayConclude(live, outcome)
    case FinalCommit(_, _, _) => pc.Finalizing?
    case Unlock(_) => pc == Finalizing(true)
    case Finish => pc.Finalizing?
    case _ => false
  }

  function Apply(c: Config, s: Sys, a: Action): Sys
    requires Enabled(c, s, a)
  {
    match a
    case Tick(elapsed) => s.(now := s.now + elapsed)
    case Begin(id, target, lag) => ApplyBegin(s, id, target, s.now + lag)
    case Crash => s.(up := false, live := None)
    case Restart(durable) => ApplyRestart(s, durable)
    case RetryReport(id, durable) => ApplyRetryReport(s, id, durable)
    case Observe(ip, healthy, durable) => ApplyObserve(c, s, ip, healthy, durable)
    case _ => ApplyLive(s, a)
  }

  function ApplyBegin(s: Sys, id: RunId, target: Ip, startedAt: int): Sys {
    var unfinished := set r | r in s.reserved && r in s.db.runs && s.db.runs[r].endedAt.None?;
    s.(now := startedAt,
       live := Some(Live(id, NewRun(target, startedAt), 0, Created)),
       begun := s.begun[id := Start(target, startedAt, s.reserved.Keys, unfinished)])
  }

  /** Opening the store runs the maintenance; the feature only comes up if recovery commits. */
  function ApplyRestart(s: Sys, durable: bool): Sys {
    var maintained := Maintained(s.db, s.now);
    if durable then s.(up := true, db := Recovered(maintained, s.now)) else s.(db := maintained)
  }

  function ApplyRetryReport(s: Sys, id: RunId, durable: bool): Sys
    requires id in s.db.runs
  {
    if durable then s.(db := Updated(s.db, id, s.db.runs[id].(reportPending := false)).value) else s
  }

  function ApplyObserve(c: Config, s: Sys, ip: Ip, healthy: bool, durable: bool): Sys {
    if !durable then s
    else
      var required := c.settings.recoveryUnlockConfirmations;
      var unlocked := LockHeld(s.db, ip) && Unlocks(s.db.locks[ip], healthy, required);
      s.(db := Observed(s.db, ip, healthy, required), log := s.log + [HealthObserved(ip, healthy, unlocked)])
  }

  predicate IsCommit(a: Action) {
    || a.Note? || a.Snapshot? || a.ReserveReload? || a.SettleReload? || a.ConfirmRejoin? || a.PassGate?
    || a.ReserveRebalance? || a.SettleRebalance? || a.ConfirmStable? || a.FinalCommit?
  }

  function Planned(live: Live, a: Action): Commit
    requires EnabledLive(live, a) && IsCommit(a)
  {
    var id, run, pc := live.id, live.run, live.pc;
    match a
    case Note(_, stage, result) => Commit(Staged(run, stage), Some(NextEvent(live, stage, result)), pc, [])
    case Snapshot(_) => Commit(run, None, pc, [])
    case ReserveReload(_) =>
      Commit(Staged(run, Reload).(reloadReserved := true, reloadPhase := Phase.Reserved),
             Some(NextEvent(live, Reload, ReloadDispatchReserved)), ReloadReserved, [])
    case SettleReload(_, code, sent, phase) =>
      Commit(Staged(run, Reload).(reloadSent := sent, reloadPhase := phase),
             Some(NextEvent(live, Reload, ResultOf(code))),
             if RefusesReload(code) then ReloadRefused else AwaitingMm, [ReloadSettled(id)])
    case ConfirmRejoin(_, leader) =>
      Commit(run.(leader := leader), None, Rejoined(leader), [RejoinConfirmed(id, leader)])
    case PassGate(_) =>
      Commit(Staged(run, FinalGate), Some(NextEvent(live, FinalGate, GateWasPassed)),
             Gated(pc.leader), [GatePassed(id, pc.leader)])
    case ReserveRebalance(_) =>
      Commit(Staged(run, Rebalance).(rebalanceReserved := true, rebalancePhase := Phase.Reserved),
             Some(NextEvent(live, Rebalance, RebalanceDispatchReserved)), RebalanceReserved(pc.leader), [])
    case SettleRebalance(_, code, sent, phase) =>
      Commit(Staged(run, Rebalance).(rebalanceSent := sent, rebalancePhase := phase,
                                     rebalanceConfirmed := code == RebalanceTriggered),
             Some(NextEvent(live, Rebalance, ResultOf(code))),
             if RefusesRebalance(code) then RebalanceRefused else Monitoring(pc.leader), [])
    case ConfirmStable(_, leader) =>
      Commit(run.(leader := leader), None, Monitored(pc.leader, true), [PostMonitored(id, true)])
    case FinalCommit(_, event, reportPending) =>
      Commit(run.(reportPending := reportPending),
             if event.Some? then Some(NextEvent(live, run.stage, event.value)) else None, pc, [])
  }

  function Concluded(live: Live, outcome: Outcome, failureCode: Code, now: int): Live {
    var final := live.run.(outcome := outcome, stage := StageOf(outcome), failureCode := failureCode,
                           endedAt := Some(now), reportPending := true);
    Live(live.id, final, live.sequence, Finalizing(ReleasesLock(live, outcome)))
  }

  function ApplyLive(s: Sys, a: Action): Sys
    requires s.live.Some? && EnabledLive(s.live.value, a)
  {
    var live := s.live.value;
    var id, run, pc := live.id, live.run, live.pc;
    if IsCommit(a) then CommitLive(s, a.durable, Planned(live, a))
    else
      match a
      case InsertRow(durable) =>
        var created := RemediationStore.Created(s.db, id, run);
        if durable && created.Some?
        then s.(db := created.value, live := Some(live.(pc := Inserted)))
        else s.(live := None)
      case ClaimLock(durable) =>
        if LockHeld(s.db, run.target) then s.(live := Some(live.(pc := ClaimLost)))
        else if durable
        then s.(db := ClaimedBy(s.db, run.target, id), live := Some(live.(pc := Claimed)),
                log := s.log + [LockClaimed(id, run.target)])
        else s.(live := None)
      case EnterTry => s.(live := Some(live.(pc := Preparing)))
      case WriteReload => s.(live := Some(live.(pc := ReloadWritten)), log := s.log + [ReloadSent(id, run.target)])
      case SeeMmUp => s.(live := Some(live.(pc := AwaitingRejoin)), log := s.log + [SawMmUp(id)])
      case WriteRebalance =>
        s.(live := Some(live.(pc := RebalanceWritten(pc.leader))), log := s.log + [RebalanceSent(id, pc.leader)])
      case GiveUpMonitoring =>
        s.(live := Some(live.(pc := Monitored(pc.leader, false))), log := s.log + [PostMonitored(id, false)])
      case Conclude(outcome, failureCode) => s.(live := Some(Concluded(live, outcome, failureCode, s.now)))
      case Unlock(durable) => ApplyUnlock(s, id, run.target, durable)
      case Finish => s.(live := None)
  }

  function ApplyUnlock(s: Sys, id: RunId, ip: Ip, durable: bool): Sys {
    if !durable then s
    else
      var released := if LockHeld(s.db, ip) && s.db.locks[ip].runId == id then [LockReleased(id, ip)] else [];
      s.(db := RemediationStore.Released(s.db, ip, id), log := s.log + released)
  }

  /** Steps of the workflow itself, as opposed to its surroundings. */
  predicate IsLiveStep(a: Action) {
    !(a.Tick? || a.Begin? || a.Crash? || a.Restart? || a.RetryReport? || a.Observe?)
  }

  lemma LiveStepOnly(c: Config, s: Sys, a: Action)
    requires Enabled(c, s, a) && IsLiveStep(a)
    ensures s.live.Some? && EnabledLive(s.live.value, a) && Apply(c, s, a) == ApplyLive(s, a)
  {
  }

  // ----- runs of the system

  /** The state after a list of actions, or `None` if some action was not enabled when its turn came. */
  function Execute(c: Config, s: Sys, actions: seq<Action>): Option<Sys> {
    if actions == [] then Some(s)
    else
      match Execute(c, s, actions[..|actions| - 1])
      case None => None
      case Some(m) =>
        var a := actions[|actions| - 1];
        if Enabled(c, m, a) then Some(Apply(c, m, a)) else None
  }

  lemma ExecuteSnoc(c: Config, s: Sys, actions: seq<Action>, m: Sys, a: Action)
    requires Execute(c, s, actions) == Some(m) && Enabled(c, m, a)
    ensures Execute(c, s, actions + [a]) == Some(Apply(c, m, a))
  {
  }
}
