/** The theorems about every run of the remediation system: any interleaving of workflow steps, failed
    commits, crashes, restarts, report retries, health observations and time. */
module RemediationSafety {
  import opened Prelude
  import opened RemediationTypes
  import opened RemediationStore
  import opened RemediationProtocol
  import opened RemediationRecords
  import opened RemediationWrites
  import opened RemediationLimits
  import opened RemediationLocks
  import opened RemediationReleases
  import opened RemediationOrder

  ghost predicate Invariant(c: Config, s: Sys) {
    && RecordsOk(s)
    && WritesOk(s)
    && LimitsOk(c, s)
    && OrderOk(s)
    && (c.pollingPaused ==> LocksOk(c, s) && ReleasesOk(s))
  }

  lemma InitialInvariant(c: Config, now: int)
    ensures Invariant(c, Initial(now))
  {
  }

  lemma StepKeepsInvariant(c: Config, s: Sys, a: Action)
    requires c.settings.Valid() && Invariant(c, s) && Enabled(c, s, a)
    ensures Invariant(c, Apply(c, s, a))
  {
    hide RecordsOk, ReservationsOk, LiveFlagsOk, WritesReserved, NotYetWritten, LimitsOk, OrderOk, HoldsItsLock,
         ReplayOk, SeparationOk, ReleasesOk, Enabled, Apply;
    StepKeepsRecords(c, s, a);
    StepKeepsWrites(c, s, a);
    StepKeepsLimits(c, s, a);
    StepKeepsOrder(c, s, a);
    if c.pollingPaused {
      StepKeepsLocks(c, s, a);
      StepKeepsReleases(c, s, a);
    }
  }

  lemma {:induction false} InvariantPersists(c: Config, s: Sys, actions: seq<Action>, t: Sys)
    requires c.settings.Valid() && Invariant(c, s) && Execute(c, s, actions) == Some(t)
    ensures Invariant(c, t)
  {
    hide Invariant, Enabled, Apply;
    if actions == [] {
    } else {
      var m := Execute(c, s, actions[..|actions| - 1]).value;
      InvariantPersists(c, s, actions[..|actions| - 1], m);
      StepKeepsInvariant(c, m, actions[|actions| - 1]);
    }
  }

  lemma Reached(c: Config, now: int, actions: seq<Action>, s: Sys)
    requires c.settings.Valid() && Execute(c, Initial(now), actions) == Some(s)
    ensures Invariant(c, s)
  {
    InitialInvariant(c, now);
    InvariantPersists(c, Initial(now), actions, s);
  }

  /** A permitted start finds neither row nor event under its id. */
  lemma PermittedStartIsFresh(c: Config, now: int, actions: seq<Action>, s: Sys, id: RunId, target: Ip, lag: nat)
    requires c.settings.Valid() && Execute(c, Initial(now), actions) == Some(s)
    requires Enabled(c, s, Begin(id, target, lag))
    ensures id !in s.db.runs && EventsOf(s.db, id) == []
  {
    hide LimitsOk, OrderOk, LocksOk, ReleasesOk, EventsOk, WritesReserved, WritesOnce, NotYetWritten, Execute;
    Reached(c, now, actions, s);
  }

  // ----- at most once

  /** Each run writes each command at most once. */
  lemma AtMostOnce(c: Config, now: int, actions: seq<Action>, s: Sys, i: nat, j: nat)
    requires c.settings.Valid() && Execute(c, Initial(now), actions) == Some(s)
    requires i < j < |s.log|
    ensures s.log[i].ReloadSent? && s.log[j].ReloadSent? ==> s.log[i].id != s.log[j].id
    ensures s.log[i].RebalanceSent? && s.log[j].RebalanceSent? ==> s.log[i].id != s.log[j].id
  {
    Reached(c, now, actions, s);
  }

  /** Whenever a write can reach a device, its reservation is already committed in that run's row. */
  lemma WritesAreReserved(c: Config, now: int, actions: seq<Action>, s: Sys, a: Action)
    requires c.settings.Valid() && Execute(c, Initial(now), actions) == Some(s)
    requires Enabled(c, s, a) && (a.WriteReload? || a.WriteRebalance?)
    ensures
      && s.live.Some? && s.live.value.id in s.db.runs
      && s.db.runs[s.live.value.id].reloadReserved
      && (a.WriteRebalance? ==> s.db.runs[s.live.value.id].rebalanceReserved)
  {
    Reached(c, now, actions, s);
    WriteIsReserved(c, s, a);
  }

  lemma WriteIsReserved(c: Config, s: Sys, a: Action)
    requires Invariant(c, s) && Enabled(c, s, a) && (a.WriteReload? || a.WriteRebalance?)
    ensures s.live.Some? && s.live.value.id in s.db.runs && s.db.runs[s.live.value.id].reloadReserved
    ensures a.WriteRebalance? ==> s.db.runs[s.live.value.id].rebalanceReserved
  {
    hide Enabled, EnabledLive, Apply, LimitsOk, OrderOk, LocksOk, ReleasesOk, EventsOk,
         WritesReserved, WritesOnce, NotYetWritten;
    LiveStepOnly(c, s, a);
    WriteStepPc(s.live.value, a);
  }

  lemma WriteStepPc(live: Live, a: Action)
    requires EnabledLive(live, a) && (a.WriteReload? || a.WriteRebalance?)
    ensures if a.WriteReload? then live.pc.ReloadReserved? else live.pc.RebalanceReserved?
  {
  }

  /** A reservation behind a past write is never forgotten while the row exists. */
  lemma ReservationsSurvive(c: Config, now: int, actions: seq<Action>, s: Sys, i: nat)
    requires c.settings.Valid() && Execute(c, Initial(now), actions) == Some(s)
    requires i < |s.log| && (s.log[i].ReloadSent? || s.log[i].RebalanceSent?)
    ensures
      var id := s.log[i].id;
      id in s.db.runs ==>
        && s.db.runs[id].reloadReserved
        && (s.log[i].RebalanceSent? ==> s.db.runs[id].rebalanceReserved)
  {
    Reached(c, now, actions, s);
  }

  /** No commit of a workflow is ever refused because of a duplicate row key. */
  lemma CommitsFailOnlyWithTheDisk(c: Config, now: int, actions: seq<Action>, s: Sys, a: Action)
    requires c.settings.Valid() && Execute(c, Initial(now), actions) == Some(s)
    requires s.live.Some? && EnabledLive(s.live.value, a) && IsCommit(a)
    ensures Transition(s.db, s.live.value.id, Planned(s.live.value, a).run, Planned(s.live.value, a).event).Some?
  {
    Reached(c, now, actions, s);
    PlanIsModest(s.live.value, a);
    CommitNeverConflicts(s, Planned(s.live.value, a).run, Planned(s.live.value, a).event);
  }

  // ----- separation by the lock

  /** Between two reload writes to one target the earlier run's lock was given up: by that run after
      its post-monitoring, or by at least max(2, N) consecutive healthy observations made since. */
  lemma SeparationByLock(c: Config, now: int, actions: seq<Action>, s: Sys, i: nat, j: nat) returns (k: nat)
    requires c.settings.Valid() && c.pollingPaused && Execute(c, Initial(now), actions) == Some(s)
    requires i < j < |s.log| && s.log[i].ReloadSent? && s.log[j].ReloadSent? && s.log[i].ip == s.log[j].ip
    ensures i < k < j && GivesUp(s.log, i, k, c.settings.recoveryUnlockConfirmations)
  {
    Reached(c, now, actions, s);
    assert Separated(s.log, i, j, c.settings.recoveryUnlockConfirmations);
    k :| i < k < j && GivesUp(s.log, i, k, c.settings.recoveryUnlockConfirmations);
  }

  /** A lock is only released by its holder, and by a run with a durable reservation only after it
      finished its post-monitoring; a run that failed or crashed after reserving leaves the lock held. */
  lemma ReleaseDiscipline(c: Config, now: int, actions: seq<Action>, s: Sys, k: nat)
    requires c.settings.Valid() && c.pollingPaused && Execute(c, Initial(now), actions) == Some(s)
    requires k < |s.log| && s.log[k].LockReleased?
    ensures Holder(s.log[..k], s.log[k].ip) == Some(s.log[k].id)
    ensures s.log[k].id in s.reserved ==> SeenMonitored(s.log, s.log[k].id, k)
  {
    Reached(c, now, actions, s);
    assert ReleaseJustified(s, k);
  }

  /** The lock table is exactly what the log of claims, releases and unlocking observations says. */
  lemma LockTableIsReplay(c: Config, now: int, actions: seq<Action>, s: Sys, ip: Ip)
    requires c.settings.Valid() && c.pollingPaused && Execute(c, Initial(now), actions) == Some(s)
    ensures Holder(s.log, ip) == if LockHeld(s.db, ip) then Some(s.db.locks[ip].runId) else None
  {
    Reached(c, now, actions, s);
  }

  // ----- the circuit breaker over whole runs

  /** No 24-hour window holds more reload-reserved runs of one target than the limit. */
  lemma DailyLimit(c: Config, now: int, actions: seq<Action>, s: Sys, ip: Ip, from: int, runs: set<RunId>)
    requires c.settings.Valid() && Execute(c, Initial(now), actions) == Some(s)
    requires forall r :: r in runs ==>
      r in s.reserved && s.reserved[r].target == ip && from <= s.reserved[r].startedAt <= from + DAY
    ensures |runs| <= c.settings.maxActions24h
  {
    Reached(c, now, actions, s);
    assert WithinLimit(c.settings.maxActions24h, s.reserved, ip, from);
    SubsetSize(runs, Window(s.reserved, ip, from));
  }

  /** `reserved` is faithful: it covers every row with a reservation and every reload write. */
  lemma ReservedIsFaithful(c: Config, now: int, actions: seq<Action>, s: Sys)
    requires c.settings.Valid() && Execute(c, Initial(now), actions) == Some(s)
    ensures forall id :: id in s.db.runs ==>
      (s.db.runs[id].reloadReserved <==> id in s.reserved)
      && (id in s.reserved ==> s.reserved[id] == Reservation(s.db.runs[id].target, s.db.runs[id].startedAt))
    ensures forall i :: 0 <= i < |s.log| && s.log[i].ReloadSent? ==> s.log[i].id in s.reserved
  {
    Reached(c, now, actions, s);
  }

  /** A start is spaced from the recorded end of an earlier reserved run exactly if that end had been
      recorded when the breaker was asked; otherwise only from that run's start. */
  lemma CooldownExact(c: Config, now: int, actions: seq<Action>, s: Sys, earlier: RunId, later: RunId)
    requires c.settings.Valid() && Execute(c, Initial(now), actions) == Some(s)
    requires later in s.begun && earlier in s.begun[later].earlier && earlier in s.db.runs
    ensures
      var late := earlier in s.begun[later].unfinished;
      && (s.db.runs[earlier].endedAt.Some? ==> (Spaced(c, s, earlier, later) <==> !late))
      && (late ==> s.begun[later].startedAt - s.db.runs[earlier].startedAt > (c.settings.cooldownSeconds - 1) * SECOND)
  {
    Reached(c, now, actions, s);
    assert PairSpacing(c, s, earlier, later);
  }

  ghost predicate NoReservedRowIsOpen(db: Db) {
    forall r :: r in db.runs && db.runs[r].reloadReserved ==> db.runs[r].endedAt.Some?
  }

  /** Every later state keeps the new run spaced from the recorded ends of all runs reserved before it. */
  ghost predicate StaysSpaced(c: Config, s: Sys, id: RunId, started: Sys) {
    forall actions, t, r ::
      (Execute(c, started, actions) == Some(t) && r in s.reserved && id in t.begun
       && r in t.db.runs && t.db.runs[r].endedAt.Some?) ==>
        Spaced(c, t, r, id)
  }

  lemma {:induction false} StartsPersist(c: Config, s: Sys, actions: seq<Action>, t: Sys, id: RunId)
    requires Execute(c, s, actions) == Some(t) && id in s.begun
    ensures id in t.begun && t.begun[id] == s.begun[id]
  {
    if actions == [] {
    } else {
      var m := Execute(c, s, actions[..|actions| - 1]).value;
      StartsPersist(c, s, actions[..|actions| - 1], m, id);
      StartSurvivesStep(c, m, actions[|actions| - 1], id);
    }
  }

  lemma StartSurvivesStep(c: Config, s: Sys, a: Action, id: RunId)
    requires Enabled(c, s, a) && id in s.begun
    ensures id in Apply(c, s, a).begun && Apply(c, s, a).begun[id] == s.begun[id]
  {
    assert a.Begin? ==> a.id !in s.begun;
    hide Enabled, EnabledLive, ApplyLive;
    if IsLiveStep(a) {
      LiveStepOnly(c, s, a);
      LiveStepKeepsStarts(s, a);
    }
  }

  lemma LiveStepKeepsStarts(s: Sys, a: Action)
    requires s.live.Some? && EnabledLive(s.live.value, a)
    ensures ApplyLive(s, a).begun == s.begun
  {
    hide EnabledLive, Planned, Concluded, ClaimedBy, LockHeld, IsCommit, RemediationStore.Created,
         RemediationStore.Released;
  }

  /** The cooldown holds for a start, in every continuation, exactly if no reserved row lacked its end
      when the breaker was asked: after a run whose closing commits all failed, it does not. */
  lemma CooldownHoldsIff(c: Config, now: int, before: seq<Action>, s: Sys, id: RunId, target: Ip, lag: nat)
    requires c.settings.Valid() && Execute(c, Initial(now), before) == Some(s)
    requires Enabled(c, s, Begin(id, target, lag))
    ensures NoReservedRowIsOpen(s.db) <==> StaysSpaced(c, s, id, Apply(c, s, Begin(id, target, lag)))
  {
    Reached(c, now, before, s);
    var begin := Begin(id, target, lag);
    var started := Apply(c, s, begin);
    if NoReservedRowIsOpen(s.db) {
      forall actions, t, r | Execute(c, started, actions) == Some(t) && r in s.reserved && id in t.begun
                             && r in t.db.runs && t.db.runs[r].endedAt.Some?
        ensures Spaced(c, t, r, id)
      {
        StepKeepsInvariant(c, s, begin);
        InvariantPersists(c, started, actions, t);
        StartsPersist(c, started, actions, t, id);
        assert PairSpacing(c, t, r, id);
      }
    } else {
      var r :| r in s.db.runs && s.db.runs[r].reloadReserved && s.db.runs[r].endedAt.None?;
      OpenRowEndsTooLate(c, s, begin, r);
    }
  }

  lemma OpenRowEndsTooLate(c: Config, s: Sys, begin: Action, r: RunId)
    requires c.settings.Valid() && Invariant(c, s) && Enabled(c, s, begin) && begin.Begin?
    requires r in s.db.runs && s.db.runs[r].reloadReserved && s.db.runs[r].endedAt.None?
    ensures !StaysSpaced(c, s, begin.id, Apply(c, s, begin))
  {
    hide Invariant, Maintained, Recovered, BreakerAllows;
    var started := Apply(c, s, begin);
    StepKeepsInvariant(c, s, begin);
    var crashed := Apply(c, started, Crash);
    var restarted := Apply(c, crashed, Restart(true));
    var actions := [Crash, Restart(true)];
    assert Execute(c, started, []) == Some(started);
    ExecuteSnoc(c, started, [], started, Crash);
    assert [] + [Crash] == [Crash];
    ExecuteSnoc(c, started, [Crash], crashed, Restart(true));
    assert [Crash] + [Restart(true)] == actions;
    InvariantPersists(c, started, actions, restarted);
    assert r in s.reserved && r in restarted.db.runs && restarted.db.runs[r].endedAt.Some? by {
      RecoveryEndsOpenRow(c, s, started, r);
    }
    assert begin.id in restarted.begun && r in restarted.begun[begin.id].unfinished by {
      InvariantGivesReservation(c, s, r);
    }
    InvariantGivesSpacing(c, restarted, r, begin.id);
  }

  lemma RecoveryEndsOpenRow(c: Config, s: Sys, started: Sys, r: RunId)
    requires Invariant(c, s) && r in s.db.runs && s.db.runs[r].reloadReserved && s.db.runs[r].endedAt.None?
    requires started.db == s.db
    ensures r in s.reserved
    ensures
      var recovered := Recovered(Maintained(started.db, started.now), started.now);
      r in recovered.runs && recovered.runs[r].endedAt.Some?
  {
  }

  lemma InvariantGivesReservation(c: Config, s: Sys, r: RunId)
    requires Invariant(c, s) && r in s.db.runs && s.db.runs[r].reloadReserved
    ensures r in s.reserved
  {
  }

  lemma InvariantGivesSpacing(c: Config, s: Sys, earlier: RunId, later: RunId)
    requires Invariant(c, s) && later in s.begun
    ensures PairSpacing(c, s, earlier, later) && s.begun[later].unfinished <= s.begun[later].earlier
  {
  }

  // ----- the order of a run

  /** A rebalance write comes after, in this order, the reload result, a complete MM Up, the rejoin
      confirmed under the same leader, and the gate passed under that leader. */
  lemma RebalanceComesLast(c: Config, now: int, actions: seq<Action>, s: Sys, i: nat) returns (at: seq<nat>)
    requires c.settings.Valid() && Execute(c, Initial(now), actions) == Some(s)
    requires i < |s.log| && s.log[i].RebalanceSent?
    ensures |at| == 4 && at[0] < at[1] < at[2] < at[3] < i
    ensures
      var id, leader := s.log[i].id, s.log[i].leader;
      && s.log[at[0]] == ReloadSettled(id)
      && s.log[at[1]] == SawMmUp(id)
      && s.log[at[2]] == RejoinConfirmed(id, leader)
      && s.log[at[3]] == GatePassed(id, leader)
  {
    Reached(c, now, actions, s);
    at := SubsequencePositions(UpToGate(s.log[i].id, s.log[i].leader), s.log[..i]);
  }

  /** COMPLETED means the whole chain happened in order and the rebalance was confirmed. */
  lemma CompletedMeansWholeChain(c: Config, now: int, actions: seq<Action>, s: Sys, id: RunId)
    returns (leader: Ip, at: seq<nat>)
    requires c.settings.Valid() && Execute(c, Initial(now), actions) == Some(s)
    requires id in s.db.runs && s.db.runs[id].outcome.Completed?
    ensures s.db.runs[id].rebalanceConfirmed
    ensures |at| == 6 && at[0] < at[1] < at[2] < at[3] < at[4] < at[5] < |s.log|
    ensures
      && s.log[at[0]] == ReloadSettled(id)
      && s.log[at[1]] == SawMmUp(id)
      && s.log[at[2]] == RejoinConfirmed(id, leader)
      && s.log[at[3]] == GatePassed(id, leader)
      && s.log[at[4]] == RebalanceSent(id, leader)
      && s.log[at[5]] == PostMonitored(id, true)
  {
    Reached(c, now, actions, s);
    assert ChainSeen(s.log, id);
    leader :| Subsequence(WholeChain(id, leader), s.log);
    at := SubsequencePositions(WholeChain(id, leader), s.log);
  }
}
