/** The target lock over whole runs: the lock table is the replay of the log, and between any two
    reload writes to one target the lock was given up by the earlier run after its post-monitoring or
    by enough consecutive healthy observations. */
module RemediationLocks {
  import opened Prelude
  import opened RemediationTypes
  import opened RemediationStore
  import opened RemediationProtocol
  import opened RemediationRecords
  import opened RemediationWrites

  // ----- reading the log

  /** Who holds the lock of `ip` after the log. */
  ghost function Holder(log: seq<Happening>, ip: Ip): Option<RunId> {
    if log == [] then None
    else
      var h := log[|log| - 1];
      if h.LockClaimed? && h.ip == ip then Some(h.id)
      else if h.LockReleased? && h.ip == ip then None
      else if h.HealthObserved? && h.ip == ip && h.unlocked then None
      else Holder(log[..|log| - 1], ip)
  }

  /** How many observations of `ip` at the end of the log were healthy without interruption. */
  ghost function HealthyTail(log: seq<Happening>, ip: Ip): nat {
    if log == [] then 0
    else
      var h := log[|log| - 1];
      if h.HealthObserved? && h.ip == ip then (if h.healthy then 1 + HealthyTail(log[..|log| - 1], ip) else 0)
      else HealthyTail(log[..|log| - 1], ip)
  }

  ghost predicate MonitoredBetween(log: seq<Happening>, id: RunId, from: int, to: int) {
    exists m :: 0 <= from < m < to <= |log| && log[m].PostMonitored? && log[m].id == id
  }

  /** Position `k` gives up the lock that protected the reload write at position `i`. */
  ghost predicate GivesUp(log: seq<Happening>, i: int, k: int, required: nat) {
    && 0 <= i < k < |log| && log[i].ReloadSent?
    && ((log[k] == LockReleased(log[i].id, log[i].ip) && MonitoredBetween(log, log[i].id, i, k))
        || (log[k] == HealthObserved(log[i].ip, true, true)
            && HealthyTail(log[i + 1..k + 1], log[i].ip) >= Max(2, required)))
  }

  ghost predicate Separated(log: seq<Happening>, i: int, before: int, required: nat) {
    exists k :: i < k < before && GivesUp(log, i, k, required)
  }

  // ----- the invariant

  ghost predicate ReplayOk(s: Sys) {
    forall ip :: Holder(s.log, ip) == if LockHeld(s.db, ip) then Some(s.db.locks[ip].runId) else None
  }

  ghost predicate HoldsItsLock(s: Sys) {
    s.live.Some? ==>
      var live := s.live.value;
      && (Rank(Claimed) <= Rank(live.pc) < Rank(Faulted) ==>
            LockHeld(s.db, live.run.target) && s.db.locks[live.run.target].runId == live.id)
      && (Rank(Claimed) <= Rank(live.pc) <= Rank(ReloadReserved) ==> s.db.locks[live.run.target].streak == 0)
      && (live.pc.Monitored? || live.pc == Finalizing(true) ==>
            forall i :: 0 <= i < |s.log| && s.log[i].ReloadSent? && s.log[i].id == live.id ==>
              MonitoredBetween(s.log, live.id, i, |s.log|))
  }

  /** The write at `i` is still protected by its run's lock. */
  ghost predicate Protected(s: Sys, i: nat)
    requires i < |s.log| && s.log[i].ReloadSent?
  {
    && LockHeld(s.db, s.log[i].ip)
    && s.db.locks[s.log[i].ip].runId == s.log[i].id
    && s.db.locks[s.log[i].ip].streak <= HealthyTail(s.log[i + 1..], s.log[i].ip)
  }

  ghost predicate SeparationOk(required: nat, s: Sys) {
    && (forall i :: 0 <= i < |s.log| && s.log[i].ReloadSent? ==>
          Protected(s, i) || Separated(s.log, i, |s.log|, required))
    && (forall i, j ::
          0 <= i < j < |s.log| && s.log[i].ReloadSent? && s.log[j].ReloadSent? && s.log[i].ip == s.log[j].ip ==>
            Separated(s.log, i, j, required))
  }

  ghost predicate LocksOk(c: Config, s: Sys) {
    ReplayOk(s) && HoldsItsLock(s) && SeparationOk(c.settings.recoveryUnlockConfirmations, s)
  }

  // ----- growing the log

  lemma SeparatedGrows(log: seq<Happening>, more: seq<Happening>, i: int, before: int, required: nat)
    requires Separated(log, i, before, required) && before <= |log|
    ensures Separated(log + more, i, before, required)
  {
    var k :| i < k < before && GivesUp(log, i, k, required);
    assert (log + more)[i + 1..k + 1] == log[i + 1..k + 1];
    if MonitoredBetween(log, log[i].id, i, k) {
      var m :| i < m < k && log[m].PostMonitored? && log[m].id == log[i].id;
      assert (log + more)[m] == log[m];
    }
    assert GivesUp(log + more, i, k, required);
  }

  lemma MonitoredGrows(log: seq<Happening>, more: seq<Happening>, id: RunId, from: int)
    requires MonitoredBetween(log, id, from, |log|)
    ensures MonitoredBetween(log + more, id, from, |log + more|)
  {
    var m :| from < m < |log| && log[m].PostMonitored? && log[m].id == id;
    assert (log + more)[m] == log[m];
  }

  ghost predicate LockQuiet(h: Happening) {
    !h.LockClaimed? && !h.LockReleased? && !h.HealthObserved?
  }

  lemma QuietKeepsReading(log: seq<Happening>, more: seq<Happening>, ip: Ip)
    requires forall h :: h in more ==> LockQuiet(h)
    ensures Holder(log + more, ip) == Holder(log, ip)
    ensures HealthyTail(log + more, ip) == HealthyTail(log, ip)
    decreases |more|
  {
    if more == [] {
      assert log + more == log;
    } else {
      var all := log + more;
      assert all[..|all| - 1] == log + more[..|more| - 1];
      assert all[|all| - 1] in more;
      QuietKeepsReading(log, more[..|more| - 1], ip);
    }
  }

  lemma TailSnoc(log: seq<Happening>, h: Happening, i: nat, ip: Ip)
    requires i < |log|
    ensures
      var before, after := HealthyTail(log[i + 1..], ip), HealthyTail((log + [h])[i + 1..], ip);
      after == if h.HealthObserved? && h.ip == ip then (if h.healthy then before + 1 else 0) else before
  {
    var after := (log + [h])[i + 1..];
    assert after == log[i + 1..] + [h];
    assert after[..|after| - 1] == log[i + 1..];
  }

  lemma HolderSnoc(log: seq<Happening>, h: Happening, ip: Ip)
    ensures
      Holder(log + [h], ip) ==
        if h.LockClaimed? && h.ip == ip then Some(h.id)
        else if h.LockReleased? && h.ip == ip then None
        else if h.HealthObserved? && h.ip == ip && h.unlocked then None
        else Holder(log, ip)
  {
  }

  lemma PairsGrow(required: nat, s: Sys, log: seq<Happening>, more: seq<Happening>)
    requires s.log == log && SeparationOk(required, s)
    requires forall h :: h in more ==> !h.ReloadSent?
    ensures
      var all := log + more;
      forall i, j :: 0 <= i < j < |all| && all[i].ReloadSent? && all[j].ReloadSent? && all[i].ip == all[j].ip ==>
        Separated(all, i, j, required)
  {
    var all := log + more;
    assert forall k :: |log| <= k < |all| ==> all[k] in more;
    forall i, j | 0 <= i < j < |all| && all[i].ReloadSent? && all[j].ReloadSent? && all[i].ip == all[j].ip
      ensures Separated(all, i, j, required)
    {
      SeparatedGrows(log, more, i, j, required);
    }
  }

  // ----- steps that leave lock rows alone

  /** Same lock rows up to the mirrored flags, and a log that grew only by entries the lock ignores. */
  ghost predicate LockFrame(s: Sys, t: Sys, more: seq<Happening>) {
    && t.log == s.log + more
    && (forall h :: h in more ==> LockQuiet(h) && !h.ReloadSent?)
    && (forall ip :: LockHeld(t.db, ip) <==> LockHeld(s.db, ip))
    && (forall ip :: LockHeld(s.db, ip) ==>
          t.db.locks[ip].runId == s.db.locks[ip].runId && t.db.locks[ip].streak == s.db.locks[ip].streak)
  }

  lemma LockFrameKeepsSeparation(required: nat, s: Sys, t: Sys, more: seq<Happening>)
    requires LockFrame(s, t, more) && ReplayOk(s) && SeparationOk(required, s)
    ensures ReplayOk(t) && SeparationOk(required, t)
  {
    forall ip
      ensures Holder(t.log, ip) == if LockHeld(t.db, ip) then Some(t.db.locks[ip].runId) else None
    {
      QuietKeepsReading(s.log, more, ip);
    }
    PairsGrow(required, s, s.log, more);
    assert forall k :: |s.log| <= k < |t.log| ==> t.log[k] in more;
    forall i | 0 <= i < |t.log| && t.log[i].ReloadSent?
      ensures Protected(t, i) || Separated(t.log, i, |t.log|, required)
    {
      if Protected(s, i) {
        assert t.log[i + 1..] == s.log[i + 1..] + more;
        QuietKeepsReading(s.log[i + 1..], more, s.log[i].ip);
      } else {
        SeparatedGrows(s.log, more, i, |s.log|, required);
        var k :| i < k < |s.log| && GivesUp(t.log, i, k, required);
      }
    }
  }

  /** The control point moves without entering the region where the lock is relied upon. */
  ghost predicate LiveLockFrame(s: Sys, t: Sys, more: seq<Happening>) {
    t.live.Some? ==>
      && s.live.Some?
      && t.live.value.id == s.live.value.id && t.live.value.run.target == s.live.value.run.target
      && (Rank(Claimed) <= Rank(t.live.value.pc) < Rank(Faulted) ==>
            Rank(Claimed) <= Rank(s.live.value.pc) <= Rank(t.live.value.pc))
      && ((t.live.value.pc.Monitored? || t.live.value.pc == Finalizing(true)) ==>
            || s.live.value.pc.Monitored?
            || s.live.value.pc == Finalizing(true)
            || (exists h :: h in more && h.PostMonitored? && h.id == s.live.value.id)
            || (forall i :: 0 <= i < |s.log| && s.log[i].ReloadSent? ==> s.log[i].id != s.live.value.id))
  }

  lemma LiveLockFrameKeepsLock(s: Sys, t: Sys, more: seq<Happening>)
    requires LockFrame(s, t, more) && LiveLockFrame(s, t, more) && HoldsItsLock(s)
    ensures HoldsItsLock(t)
  {
    if t.live.Some? && (t.live.value.pc.Monitored? || t.live.value.pc == Finalizing(true)) {
      var id := t.live.value.id;
      assert forall k :: |s.log| <= k < |t.log| ==> t.log[k] in more;
      forall i | 0 <= i < |t.log| && t.log[i].ReloadSent? && t.log[i].id == id
        ensures MonitoredBetween(t.log, id, i, |t.log|)
      {
        if MonitoredBetween(s.log, id, i, |s.log|) {
          MonitoredGrows(s.log, more, id, i);
        } else {
          var h :| h in more && h.PostMonitored? && h.id == id;
          var m :| 0 <= m < |more| && more[m] == h;
          assert t.log[|s.log| + m] == h;
        }
      }
    }
  }

  lemma FramedStepKeepsLocks(c: Config, s: Sys, t: Sys, more: seq<Happening>)
    requires LockFrame(s, t, more) && LiveLockFrame(s, t, more) && LocksOk(c, s)
    ensures LocksOk(c, t)
  {
    LockFrameKeepsSeparation(c.settings.recoveryUnlockConfirmations, s, t, more);
    LiveLockFrameKeepsLock(s, t, more);
  }

  lemma PlanIsLockQuiet(s: Sys, a: Action)
    requires s.live.Some? && EnabledLive(s.live.value, a) && IsCommit(a) && LiveFlagsOk(s)
    ensures
      var plan := Planned(s.live.value, a);
      && (Rank(Claimed) <= Rank(plan.next) < Rank(Faulted) ==>
            Rank(Claimed) <= Rank(s.live.value.pc) <= Rank(plan.next))
      && (plan.next.Monitored? ==>
            s.live.value.pc.Monitored? || plan.happened == [PostMonitored(s.live.value.id, true)])
      && (plan.next == Finalizing(true) ==> s.live.value.pc == Finalizing(true))
  {
  }

  lemma CommitKeepsLocks(c: Config, s: Sys, a: Action)
    requires RecordsOk(s) && LiveFlagsOk(s) && LocksOk(c, s)
    requires s.live.Some? && EnabledLive(s.live.value, a) && IsCommit(a)
    ensures LocksOk(c, ApplyLive(s, a))
  {
    hide RecordsOk, LocksOk;
    PlanIsModest(s.live.value, a);
    PlanIsLockQuiet(s, a);
    PlanLogs(s.live.value, a);
    var plan := Planned(s.live.value, a);
    if a.durable {
      var t := CommitShape(s, plan);
      MirroringIsLockFramed(s, t, plan);
      CommitMovesOn(s, t, plan);
      FramedStepKeepsLocks(c, s, t, plan.happened);
    } else {
      var t := ApplyLive(s, a);
      FailureIsLockFramed(s, t, plan);
      FramedStepKeepsLocks(c, s, t, []);
    }
  }

  lemma MirroringIsLockFramed(s: Sys, t: Sys, plan: Commit)
    requires s.live.Some? && t.log == s.log + plan.happened
    requires t.db.locks == MirrorFlags(s.db.locks, s.live.value.id, plan.run)
    requires QuietEntries(plan.happened)
    ensures LockFrame(s, t, plan.happened)
  {
  }

  lemma CommitMovesOn(s: Sys, t: Sys, plan: Commit)
    requires s.live.Some? && t.live.Some?
    requires t.live.value.id == s.live.value.id && t.live.value.run == plan.run && t.live.value.pc == plan.next
    requires plan.run.target == s.live.value.run.target
    requires Rank(Claimed) <= Rank(plan.next) < Rank(Faulted) ==>
      Rank(Claimed) <= Rank(s.live.value.pc) <= Rank(plan.next)
    requires plan.next.Monitored? ==>
      s.live.value.pc.Monitored? || plan.happened == [PostMonitored(s.live.value.id, true)]
    requires plan.next == Finalizing(true) ==> s.live.value.pc == Finalizing(true)
    ensures LiveLockFrame(s, t, plan.happened)
  {
  }

  lemma FailureIsLockFramed(s: Sys, t: Sys, plan: Commit)
    requires s.live.Some? && plan.run.target == s.live.value.run.target
    requires t == s.(live := AfterFailure(s.live.value, plan.run,
               if plan.event.Some? then s.live.value.sequence + 1 else s.live.value.sequence))
    ensures LockFrame(s, t, []) && LiveLockFrame(s, t, [])
  {
  }

  // ----- the steps that touch the lock

  lemma ClaimKeepsLocks(c: Config, s: Sys, t: Sys)
    requires LocksOk(c, s) && WritesReserved(s) && NotYetWritten(s) && s.live.Some? && s.live.value.pc.Inserted?
    requires !LockHeld(s.db, s.live.value.run.target)
    requires
      var live := s.live.value;
      t == s.(db := ClaimedBy(s.db, live.run.target, live.id), live := Some(live.(pc := Claimed)),
              log := s.log + [LockClaimed(live.id, live.run.target)])
    ensures LocksOk(c, t)
  {
    var required := c.settings.recoveryUnlockConfirmations;
    var h := LockClaimed(s.live.value.id, s.live.value.run.target);
    forall ip
      ensures Holder(t.log, ip) == if LockHeld(t.db, ip) then Some(t.db.locks[ip].runId) else None
    {
      HolderSnoc(s.log, h, ip);
    }
    PairsGrow(required, s, s.log, [h]);
    forall i | 0 <= i < |t.log| && t.log[i].ReloadSent?
      ensures Protected(t, i) || Separated(t.log, i, |t.log|, required)
    {
      if Protected(s, i) {
        TailSnoc(s.log, h, i, s.log[i].ip);
      } else {
        SeparatedGrows(s.log, [h], i, |s.log|, required);
        var k :| i < k < |s.log| && GivesUp(t.log, i, k, required);
      }
    }
  }

  lemma ReloadWriteKeepsLocks(c: Config, s: Sys, t: Sys)
    requires LocksOk(c, s) && NotYetWritten(s) && s.live.Some? && s.live.value.pc.ReloadReserved?
    requires t == s.(live := Some(s.live.value.(pc := ReloadWritten)),
                     log := s.log + [ReloadSent(s.live.value.id, s.live.value.run.target)])
    ensures LocksOk(c, t)
  {
    var required := c.settings.recoveryUnlockConfirmations;
    var live := s.live.value;
    var h := ReloadSent(live.id, live.run.target);
    forall ip
      ensures Holder(t.log, ip) == if LockHeld(t.db, ip) then Some(t.db.locks[ip].runId) else None
    {
      HolderSnoc(s.log, h, ip);
    }
    forall i | 0 <= i < |t.log| && t.log[i].ReloadSent?
      ensures Protected(t, i) || Separated(t.log, i, |t.log|, required)
    {
      if i == |s.log| {
        assert t.log[i + 1..] == [];
      } else if Protected(s, i) {
        TailSnoc(s.log, h, i, s.log[i].ip);
      } else {
        SeparatedGrows(s.log, [h], i, |s.log|, required);
        var k :| i < k < |s.log| && GivesUp(t.log, i, k, required);
      }
    }
    forall i, j | 0 <= i < j < |t.log| && t.log[i].ReloadSent? && t.log[j].ReloadSent? && t.log[i].ip == t.log[j].ip
      ensures Separated(t.log, i, j, required)
    {
      assert t.log[i] == s.log[i];
      if j < |s.log| {
        assert Separated(s.log, i, j, required);
      } else {
        // The lock belongs to the writing run, so every earlier write has lost its protection.
        assert !Protected(s, i);
      }
      SeparatedGrows(s.log, [h], i, j, required);
    }
  }

  lemma UnlockKeepsLocks(c: Config, s: Sys, t: Sys)
    requires LocksOk(c, s) && s.live.Some? && s.live.value.pc == Finalizing(true)
    requires
      var live := s.live.value;
      && LockHeld(s.db, live.run.target) && s.db.locks[live.run.target].runId == live.id
      && t == s.(db := Released(s.db, live.run.target, live.id),
                 log := s.log + [LockReleased(live.id, live.run.target)])
    ensures LocksOk(c, t)
  {
    var required := c.settings.recoveryUnlockConfirmations;
    var live := s.live.value;
    var h := LockReleased(live.id, live.run.target);
    forall ip
      ensures Holder(t.log, ip) == if LockHeld(t.db, ip) then Some(t.db.locks[ip].runId) else None
    {
      HolderSnoc(s.log, h, ip);
    }
    PairsGrow(required, s, s.log, [h]);
    forall i | 0 <= i < |t.log| && t.log[i].ReloadSent?
      ensures Protected(t, i) || Separated(t.log, i, |t.log|, required)
    {
      if Separated(s.log, i, |s.log|, required) {
        SeparatedGrows(s.log, [h], i, |s.log|, required);
        var k :| i < k < |s.log| && GivesUp(t.log, i, k, required);
      } else if s.log[i].ip == live.run.target {
        var m :| i < m < |s.log| && s.log[m].PostMonitored? && s.log[m].id == live.id;
        assert t.log[m] == s.log[m];
        assert GivesUp(t.log, i, |s.log|, required);
      } else {
        TailSnoc(s.log, h, i, s.log[i].ip);
      }
    }
    forall i | 0 <= i < |t.log| && t.log[i].ReloadSent? && t.log[i].id == live.id
      ensures MonitoredBetween(t.log, live.id, i, |t.log|)
    {
      MonitoredGrows(s.log, [h], live.id, i);
    }
  }

  lemma ObserveKeepsLocks(c: Config, s: Sys, ip: Ip, healthy: bool)
    requires LocksOk(c, s) && s.live.None?
    ensures LocksOk(c, ApplyObserve(c, s, ip, healthy, true))
  {
    var required := c.settings.recoveryUnlockConfirmations;
    var t := ApplyObserve(c, s, ip, healthy, true);
    var h := t.log[|s.log|];
    assert t.log == s.log + [h];
    forall other
      ensures Holder(t.log, other) == if LockHeld(t.db, other) then Some(t.db.locks[other].runId) else None
    {
      HolderSnoc(s.log, h, other);
    }
    PairsGrow(required, s, s.log, [h]);
    forall i | 0 <= i < |t.log| && t.log[i].ReloadSent?
      ensures Protected(t, i) || Separated(t.log, i, |t.log|, required)
    {
      if Separated(s.log, i, |s.log|, required) {
        SeparatedGrows(s.log, [h], i, |s.log|, required);
        var k :| i < k < |s.log| && GivesUp(t.log, i, k, required);
      } else {
        TailSnoc(s.log, h, i, s.log[i].ip);
        if h == HealthObserved(s.log[i].ip, true, true) {
          assert t.log[i + 1..|s.log| + 1] == t.log[i + 1..];
          assert GivesUp(t.log, i, |s.log|, required);
        }
      }
    }
  }

  // ----- every step

  lemma LiveStepKeepsLocks(c: Config, s: Sys, a: Action)
    requires RecordsOk(s) && WritesOk(s) && LocksOk(c, s) && s.live.Some? && EnabledLive(s.live.value, a)
    ensures LocksOk(c, ApplyLive(s, a))
  {
    var t := ApplyLive(s, a);
    if IsCommit(a) {
      CommitKeepsLocks(c, s, a);
    } else if a.WriteReload? {
      ReloadWriteKeepsLocks(c, s, t);
    } else if a.ClaimLock? && !LockHeld(s.db, s.live.value.run.target) && a.durable {
      ClaimKeepsLocks(c, s, t);
    } else if a.Unlock? && a.durable && LockHeld(s.db, s.live.value.run.target)
              && s.db.locks[s.live.value.run.target].runId == s.live.value.id {
      UnlockKeepsLocks(c, s, t);
    } else {
      PlainLiveStepKeepsLocks(c, s, a);
    }
  }

  ghost predicate TouchesNoLock(s: Sys, a: Action)
    requires s.live.Some?
  {
    var target := s.live.value.run.target;
    && !IsCommit(a) && !a.WriteReload?
    && (a.ClaimLock? ==> LockHeld(s.db, target) || !a.durable)
    && (a.Unlock? ==> !(a.durable && LockHeld(s.db, target) && s.db.locks[target].runId == s.live.value.id))
  }

  lemma PlainLiveStepIsFramed(s: Sys, a: Action) returns (more: seq<Happening>)
    requires s.live.Some? && EnabledLive(s.live.value, a) && TouchesNoLock(s, a)
    ensures LockFrame(s, ApplyLive(s, a), more)
    ensures a.GiveUpMonitoring? ==> more == [PostMonitored(s.live.value.id, false)]
  {
    more := if a.SeeMmUp? then [SawMmUp(s.live.value.id)]
            else if a.WriteRebalance? then [RebalanceSent(s.live.value.id, s.live.value.pc.leader)]
            else if a.GiveUpMonitoring? then [PostMonitored(s.live.value.id, false)]
            else [];
  }

  lemma PlainLiveStepMovesOn(s: Sys, a: Action, more: seq<Happening>)
    requires s.live.Some? && EnabledLive(s.live.value, a) && TouchesNoLock(s, a)
    requires WritesReserved(s) && LiveFlagsOk(s)
    requires a.GiveUpMonitoring? ==> more == [PostMonitored(s.live.value.id, false)]
    ensures LiveLockFrame(s, ApplyLive(s, a), more)
  {
    if a.Conclude? && !s.live.value.pc.Monitored? && ReleasesLock(s.live.value, a.outcome) {
      // Only a run without a reservation may release outside post-monitoring: it wrote nothing.
      assert !s.live.value.run.reloadReserved;
    }
    hide CommitLive, Planned;
  }

  lemma PlainLiveStepKeepsLocks(c: Config, s: Sys, a: Action)
    requires WritesReserved(s) && LiveFlagsOk(s) && LocksOk(c, s) && s.live.Some? && EnabledLive(s.live.value, a)
    requires TouchesNoLock(s, a)
    ensures LocksOk(c, ApplyLive(s, a))
  {
    hide LocksOk, WritesReserved, LiveFlagsOk, TouchesNoLock;
    var more := PlainLiveStepIsFramed(s, a);
    PlainLiveStepMovesOn(s, a, more);
    FramedStepKeepsLocks(c, s, ApplyLive(s, a), more);
  }

  lemma StepKeepsLocks(c: Config, s: Sys, a: Action)
    requires c.pollingPaused
    requires RecordsOk(s) && WritesOk(s) && LocksOk(c, s) && Enabled(c, s, a)
    ensures LocksOk(c, Apply(c, s, a))
  {
    hide LocksOk, WritesOk, RecordsOk;
    if IsLiveStep(a) {
      LiveStepOnly(c, s, a);
      LiveStepKeepsLocks(c, s, a);
    } else if a.Observe? && a.durable {
      ObserveKeepsLocks(c, s, a.ip, a.healthy);
    } else {
      OutsideStepKeepsLocks(c, s, a);
    }
  }

  lemma OutsideStepKeepsLocks(c: Config, s: Sys, a: Action)
    requires LocksOk(c, s) && Enabled(c, s, a) && !IsLiveStep(a) && !(a.Observe? && a.durable)
    ensures LocksOk(c, Apply(c, s, a))
  {
    hide ReplayOk, SeparationOk;
    OutsideStepIsLockFramed(c, s, a);
    LockFrameKeepsSeparation(c.settings.recoveryUnlockConfirmations, s, Apply(c, s, a), []);
  }

  lemma OutsideStepIsLockFramed(c: Config, s: Sys, a: Action)
    requires Enabled(c, s, a) && !IsLiveStep(a) && !(a.Observe? && a.durable)
    ensures LockFrame(s, Apply(c, s, a), [])
  {
  }
}
