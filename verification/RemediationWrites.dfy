/** Each run writes each command at most once, and only under a committed reservation. */
module RemediationWrites {
  import opened Prelude
  import opened RemediationTypes
  import opened RemediationStore
  import opened RemediationProtocol
  import opened RemediationRecords

  ghost predicate ReservationsOk(s: Sys) {
    && (forall id :: id in s.reserved ==>
          && id in s.begun
          && s.reserved[id] == Reservation(s.begun[id].target, s.begun[id].startedAt))
    && (forall id :: id in s.db.runs ==> (s.db.runs[id].reloadReserved <==> id in s.reserved))
  }

  /** The in-memory flags are never behind the durable ones, and follow the control point. */
  ghost predicate LiveFlagsOk(s: Sys) {
    s.live.Some? ==>
      var live := s.live.value;
      var rank := Rank(live.pc);
      && (live.id in s.reserved ==> live.run.reloadReserved)
      && (live.id in s.db.runs && s.db.runs[live.id].rebalanceReserved ==> live.run.rebalanceReserved)
      && (rank < Rank(ReloadReserved) ==> !live.run.reloadReserved)
      && (Rank(ReloadReserved) <= rank < Rank(Faulted) ==> live.id in s.reserved)
      && (rank < REBALANCE_RESERVED ==> !live.run.rebalanceReserved)
      && (REBALANCE_RESERVED <= rank < Rank(Faulted) ==>
            live.id in s.db.runs && s.db.runs[live.id].rebalanceReserved)
  }

  ghost predicate WritesReserved(s: Sys) {
    && (forall i :: 0 <= i < |s.log| && s.log[i].ReloadSent? ==> s.log[i].id in s.reserved)
    && (forall i :: 0 <= i < |s.log| && s.log[i].RebalanceSent? ==>
          && s.log[i].id in s.reserved
          && (s.log[i].id in s.db.runs ==> s.db.runs[s.log[i].id].rebalanceReserved)
          && (s.live.Some? && s.live.value.id == s.log[i].id ==> s.live.value.run.rebalanceReserved))
  }

  ghost predicate WritesOnce(log: seq<Happening>) {
    && (forall i, j :: 0 <= i < j < |log| && log[i].ReloadSent? && log[j].ReloadSent? ==> log[i].id != log[j].id)
    && (forall i, j :: 0 <= i < j < |log| && log[i].RebalanceSent? && log[j].RebalanceSent? ==> log[i].id != log[j].id)
  }

  ghost predicate NotYetWritten(s: Sys) {
    s.live.Some? ==>
      var live := s.live.value;
      && (Rank(live.pc) <= Rank(ReloadReserved) ==>
            forall i :: 0 <= i < |s.log| && s.log[i].ReloadSent? ==> s.log[i].id != live.id)
      && (Rank(live.pc) <= REBALANCE_RESERVED ==>
            forall i :: 0 <= i < |s.log| && s.log[i].RebalanceSent? ==> s.log[i].id != live.id)
  }

  ghost predicate WritesOk(s: Sys) {
    ReservationsOk(s) && LiveFlagsOk(s) && WritesReserved(s) && WritesOnce(s.log) && NotYetWritten(s)
  }

  /** Commits log no device write, lock change or health observation. */
  ghost predicate Quiet(h: Happening) {
    h.ReloadSettled? || h.RejoinConfirmed? || h.GatePassed? || h.PostMonitored?
  }

  ghost predicate QuietEntries(happened: seq<Happening>) {
    |happened| == 0 || (|happened| == 1 && Quiet(happened[0]))
  }

  lemma PlanLogs(live: Live, a: Action)
    requires EnabledLive(live, a) && IsCommit(a)
    ensures QuietEntries(Planned(live, a).happened)
  {
  }

  /** How a planned commit moves each flag together with the control point. */
  ghost predicate ReloadFlagMoves(live: Live, plan: Commit) {
    var run, next := plan.run, Rank(plan.next);
    && Rank(live.pc) <= next
    && (live.run.reloadReserved ==> run.reloadReserved)
    && (next < Rank(ReloadReserved) ==> !run.reloadReserved)
    && (Rank(ReloadReserved) <= next < Rank(Faulted) ==> run.reloadReserved)
    && (next == Rank(ReloadReserved) ==> Rank(live.pc) <= Rank(ReloadReserved))
  }

  ghost predicate RebalanceFlagMoves(live: Live, plan: Commit) {
    var run, next := plan.run, Rank(plan.next);
    && (live.run.rebalanceReserved ==> run.rebalanceReserved)
    && (next < REBALANCE_RESERVED ==> !run.rebalanceReserved)
    && (REBALANCE_RESERVED <= next < Rank(Faulted) ==> run.rebalanceReserved)
    && (next <= REBALANCE_RESERVED ==> Rank(live.pc) <= REBALANCE_RESERVED)
  }

  ghost predicate FlagsMove(live: Live, plan: Commit) {
    ReloadFlagMoves(live, plan) && RebalanceFlagMoves(live, plan)
  }

  lemma PlanMovesFlags(s: Sys, a: Action)
    requires s.live.Some? && EnabledLive(s.live.value, a) && IsCommit(a) && LiveFlagsOk(s)
    ensures FlagsMove(s.live.value, Planned(s.live.value, a))
  {
    PlanMovesReloadFlag(s, a);
    PlanMovesRebalanceFlag(s, a);
    hide Planned, EnabledLive;
  }

  lemma PlanMovesReloadFlag(s: Sys, a: Action)
    requires s.live.Some? && EnabledLive(s.live.value, a) && IsCommit(a) && LiveFlagsOk(s)
    ensures ReloadFlagMoves(s.live.value, Planned(s.live.value, a))
  {
  }

  lemma PlanMovesRebalanceFlag(s: Sys, a: Action)
    requires s.live.Some? && EnabledLive(s.live.value, a) && IsCommit(a) && LiveFlagsOk(s)
    ensures RebalanceFlagMoves(s.live.value, Planned(s.live.value, a))
  {
  }

  /** `t` is `s` after a durable commit of its workflow, as far as flags and log are concerned. */
  ghost predicate CommitsTo(s: Sys, t: Sys, plan: Commit) {
    && s.live.Some? && t.live.Some?
    && t.live.value.id == s.live.value.id && t.live.value.run == plan.run && t.live.value.pc == plan.next
    && t.begun == s.begun
    && s.live.value.id in s.db.runs
    && t.db.runs == s.db.runs[s.live.value.id := Row(s.db, s.live.value.id, plan.run)]
    && t.log == s.log + plan.happened
    && t.reserved == (if plan.run.reloadReserved && s.live.value.id !in s.reserved
                      then s.reserved[s.live.value.id := Reservation(plan.run.target, plan.run.startedAt)]
                      else s.reserved)
  }

  lemma CommitKeepsReservations(s: Sys, t: Sys, plan: Commit)
    requires CommitsTo(s, t, plan) && FlagsMove(s.live.value, plan)
    requires LiveOk(s) && ReservationsOk(s) && LiveFlagsOk(s) && SameIdentity(plan.run, s.live.value.run)
    ensures ReservationsOk(t) && LiveFlagsOk(t)
  {
  }

  lemma CommitKeepsWriteLog(s: Sys, t: Sys, plan: Commit)
    requires CommitsTo(s, t, plan) && FlagsMove(s.live.value, plan) && QuietEntries(plan.happened)
    requires WritesReserved(s) && WritesOnce(s.log) && NotYetWritten(s)
    ensures WritesReserved(t) && WritesOnce(t.log) && NotYetWritten(t)
  {
    assert forall i :: |s.log| <= i < |t.log| ==> Quiet(t.log[i]);
    assert forall i :: 0 <= i < |s.log| ==> t.log[i] == s.log[i];
  }

  lemma FailedCommitKeepsWrites(s: Sys, plan: Commit)
    requires s.live.Some? && WritesOk(s) && FlagsMove(s.live.value, plan)
    ensures WritesOk(s.(live := AfterFailure(s.live.value, plan.run,
              if plan.event.Some? then s.live.value.sequence + 1 else s.live.value.sequence)))
  {
  }

  lemma CommitKeepsWrites(s: Sys, durable: bool, plan: Commit)
    requires RecordsOk(s) && WritesOk(s) && s.live.Some? && !s.live.value.pc.Created?
    requires NextNumber(s.live.value, plan.event) && SameIdentity(plan.run, s.live.value.run)
    requires FlagsMove(s.live.value, plan) && QuietEntries(plan.happened)
    ensures WritesOk(CommitLive(s, durable, plan))
  {
    if durable {
      var t := CommitShape(s, plan);
      CommitKeepsReservations(s, t, plan);
      CommitKeepsWriteLog(s, t, plan);
    } else {
      FailedCommitKeepsWrites(s, plan);
    }
  }

  lemma ReloadWriteKeepsWrites(s: Sys, t: Sys)
    requires LiveOk(s) && WritesOk(s) && s.live.Some? && s.live.value.pc.ReloadReserved?
    requires t == s.(live := Some(s.live.value.(pc := ReloadWritten)),
                     log := s.log + [ReloadSent(s.live.value.id, s.live.value.run.target)])
    ensures WritesOk(t)
  {
  }

  lemma RebalanceWriteKeepsWrites(s: Sys, t: Sys, leader: Ip)
    requires LiveOk(s) && WritesOk(s) && s.live.Some? && s.live.value.pc == RebalanceReserved(leader)
    requires t == s.(live := Some(s.live.value.(pc := RebalanceWritten(leader))),
                     log := s.log + [RebalanceSent(s.live.value.id, leader)])
    ensures WritesOk(t)
  {
  }

  /** The remaining steps move the control point, the lock table or the log, but no flag and no row. */
  ghost predicate LeavesFlags(s: Sys, t: Sys) {
    && s.live.Some?
    && t.begun == s.begun && t.reserved == s.reserved
    && s.log <= t.log && (forall i :: |s.log| <= i < |t.log| ==> !t.log[i].ReloadSent? && !t.log[i].RebalanceSent?)
    && (t.db.runs == s.db.runs
        || (s.live.value.pc.Created? && t.db.runs == s.db.runs[s.live.value.id := s.live.value.run]))
    && (t.live.Some? ==>
          var before, after := s.live.value, t.live.value;
          && after.id == before.id
          && after.run.reloadReserved == before.run.reloadReserved
          && after.run.rebalanceReserved == before.run.rebalanceReserved
          && Rank(before.pc) <= Rank(after.pc)
          && (Rank(after.pc) >= Rank(ReloadReserved) && Rank(after.pc) < Rank(Faulted) ==>
                Rank(before.pc) >= Rank(ReloadReserved))
          && (Rank(after.pc) >= REBALANCE_RESERVED && Rank(after.pc) < Rank(Faulted) ==>
                Rank(before.pc) >= REBALANCE_RESERVED))
  }

  lemma OtherStepLeavesFlags(s: Sys, a: Action)
    requires LiveOk(s) && s.live.Some? && EnabledLive(s.live.value, a)
    requires !IsCommit(a) && !a.WriteReload? && !a.WriteRebalance?
    ensures LeavesFlags(s, ApplyLive(s, a))
  {
    if a.InsertRow? || a.ClaimLock? || a.EnterTry? || a.Unlock? {
      EarlyStepLeavesFlags(s, a);
    } else if a.Conclude? {
      ConcludingLeavesFlags(s, a);
    } else {
      LateStepLeavesFlags(s, a);
    }
  }

  lemma EarlyStepLeavesFlags(s: Sys, a: Action)
    requires LiveOk(s) && s.live.Some? && EnabledLive(s.live.value, a)
    requires a.InsertRow? || a.ClaimLock? || a.EnterTry? || a.Unlock?
    ensures LeavesFlags(s, ApplyLive(s, a))
  {
  }

  lemma LateStepLeavesFlags(s: Sys, a: Action)
    requires s.live.Some? && EnabledLive(s.live.value, a)
    requires a.SeeMmUp? || a.GiveUpMonitoring? || a.Finish?
    ensures LeavesFlags(s, ApplyLive(s, a))
  {
  }

  lemma ConcludingLeavesFlags(s: Sys, a: Action)
    requires s.live.Some? && EnabledLive(s.live.value, a) && a.Conclude?
    ensures LeavesFlags(s, ApplyLive(s, a))
  {
  }

  lemma LeftFlagsKeepWrites(s: Sys, t: Sys)
    requires LeavesFlags(s, t) && LiveOk(s) && WritesOk(s)
    ensures WritesOk(t)
  {
  }

  lemma LiveStepKeepsWrites(s: Sys, a: Action)
    requires RecordsOk(s) && WritesOk(s) && s.live.Some? && EnabledLive(s.live.value, a)
    ensures WritesOk(ApplyLive(s, a))
  {
    if IsCommit(a) {
      PlanIsModest(s.live.value, a);
      PlanMovesFlags(s, a);
      PlanLogs(s.live.value, a);
      CommitKeepsWrites(s, a.durable, Planned(s.live.value, a));
    } else if a.WriteReload? {
      ReloadWriteKeepsWrites(s, ApplyLive(s, a));
    } else if a.WriteRebalance? {
      RebalanceWriteKeepsWrites(s, ApplyLive(s, a), s.live.value.pc.leader);
    } else {
      OtherStepLeavesFlags(s, a);
      LeftFlagsKeepWrites(s, ApplyLive(s, a));
    }
  }

  lemma BeginKeepsWrites(s: Sys, id: RunId, target: Ip, startedAt: int)
    requires RowsOk(s) && WritesOk(s) && s.live.None? && id !in s.begun
    ensures WritesOk(ApplyBegin(s, id, target, startedAt))
  {
  }

  lemma RestartKeepsWrites(s: Sys, durable: bool)
    requires WritesOk(s) && s.live.None?
    ensures WritesOk(ApplyRestart(s, durable))
  {
  }

  lemma ObserveKeepsWrites(c: Config, s: Sys, ip: Ip, healthy: bool, durable: bool)
    requires WritesOk(s)
    ensures WritesOk(ApplyObserve(c, s, ip, healthy, durable))
  {
  }

  lemma RetryKeepsWrites(s: Sys, id: RunId, durable: bool)
    requires WritesOk(s) && s.live.None? && id in s.db.runs
    ensures WritesOk(ApplyRetryReport(s, id, durable))
  {
  }

  lemma TickOrCrashKeepsWrites(s: Sys, t: Sys)
    requires WritesOk(s)
    requires exists now :: t == s.(now := now) || t == s.(up := false, live := None)
    ensures WritesOk(t)
  {
  }

  lemma OutsideStepKeepsWrites(c: Config, s: Sys, a: Action)
    requires RowsOk(s) && LiveOk(s) && WritesOk(s) && Enabled(c, s, a) && !IsLiveStep(a)
    ensures WritesOk(Apply(c, s, a))
  {
    hide WritesOk, RowsOk;
    if a.Begin? {
      BeginKeepsWrites(s, a.id, a.target, s.now + a.lag);
    } else if a.Restart? {
      RestartKeepsWrites(s, a.durable);
    } else if a.RetryReport? {
      RetryKeepsWrites(s, a.id, a.durable);
    } else if a.Observe? {
      ObserveKeepsWrites(c, s, a.ip, a.healthy, a.durable);
    } else {
      TickOrCrashKeepsWrites(s, Apply(c, s, a));
    }
  }

  lemma StepKeepsWrites(c: Config, s: Sys, a: Action)
    requires RecordsOk(s) && WritesOk(s) && Enabled(c, s, a)
    ensures WritesOk(Apply(c, s, a))
  {
    hide WritesOk, RowsOk, LiveOk, EventsOk;
    if IsLiveStep(a) {
      LiveStepOnly(c, s, a);
      LiveStepKeepsWrites(s, a);
    } else {
      OutsideStepKeepsWrites(c, s, a);
    }
  }
}
