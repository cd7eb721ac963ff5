/** Two families of runs that show why the conditions of the theorems are needed. */
module RemediationExamples {
  import opened Prelude
  import opened RemediationTypes
  import opened RemediationStore
  import opened RemediationProtocol
  import opened RemediationLocks
  import opened RemediationSafety

  lemma Extend(c: Config, now: int, actions: seq<Action>, s: Sys, a: Action) returns (longer: seq<Action>, t: Sys)
    requires Execute(c, Initial(now), actions) == Some(s) && Enabled(c, s, a)
    ensures t == Apply(c, s, a)
    ensures longer == actions + [a] && Execute(c, Initial(now), longer) == Some(t)
  {
    ExecuteSnoc(c, Initial(now), actions, s, a);
    longer, t := actions + [a], Apply(c, s, a);
  }

  ghost predicate Idle(s: Sys) {
    s.up && s.live.None?
  }

  /** What the stretch from a start to a committed reload reservation leaves behind. */
  ghost predicate HasReserved(s: Sys, t: Sys, id: RunId, ip: Ip) {
    && t.up && t.now == s.now && t.log == s.log + [LockClaimed(id, ip)]
    && t.db.runs.Keys == s.db.runs.Keys + {id}
    && (forall r :: r in s.db.runs && r != id ==> t.db.runs[r] == s.db.runs[r])
    && t.db.runs[id].reloadReserved && t.db.runs[id].endedAt.None? && t.db.runs[id].outcome.Running?
    && t.db.runs[id].startedAt == s.now && t.db.runs[id].target == ip
    && ip in t.db.locks && t.db.locks[ip].active && t.db.locks[ip].runId == id && t.db.locks[ip].streak == 0
    && (forall other :: other != ip && other in t.db.locks ==>
          other in s.db.locks && t.db.locks[other] == s.db.locks[other])
    && t.live.Some? && t.live.value.id == id && t.live.value.pc == ReloadReserved
    && t.live.value.run.target == ip && t.live.value.run.outcome.Running?
    && t.begun.Keys == s.begun.Keys + {id}
    && t.db.events.Keys == s.db.events.Keys + {id}
  }

  lemma StartToClaim(c: Config, now: int, before: seq<Action>, s: Sys, id: RunId, ip: Ip)
    returns (actions: seq<Action>, t: Sys)
    requires Execute(c, Initial(now), before) == Some(s) && Idle(s) && Enabled(c, s, Begin(id, ip, 0)) && id !in s.db.runs
    ensures Execute(c, Initial(now), actions) == Some(t)
    ensures t.live == Some(Live(id, NewRun(ip, s.now), 0, Preparing)) && t.up && t.now == s.now
    ensures t.db == ClaimedBy(s.db.(runs := s.db.runs[id := NewRun(ip, s.now)]), ip, id)
    ensures t.log == s.log + [LockClaimed(id, ip)] && t.begun.Keys == s.begun.Keys + {id}
  {
    var m;
    actions, m := StartToRow(c, now, before, s, id, ip);
    assert !LockHeld(m.db, ip);
    actions, m := Extend(c, now, actions, m, ClaimLock(true));
    hide Enabled;
    actions, t := Extend(c, now, actions, m, EnterTry) by { EnterTryEnabled(c, m); }
  }

  lemma EnterTryEnabled(c: Config, s: Sys)
    requires s.live.Some? && s.live.value.pc.Claimed?
    ensures Enabled(c, s, EnterTry)
  {
  }

  lemma StartToRow(c: Config, now: int, before: seq<Action>, s: Sys, id: RunId, ip: Ip)
    returns (actions: seq<Action>, t: Sys)
    requires Execute(c, Initial(now), before) == Some(s) && Idle(s) && Enabled(c, s, Begin(id, ip, 0)) && id !in s.db.runs
    ensures Execute(c, Initial(now), actions) == Some(t)
    ensures t.live == Some(Live(id, NewRun(ip, s.now), 0, Inserted)) && t.up && t.now == s.now
    ensures t.db == s.db.(runs := s.db.runs[id := NewRun(ip, s.now)])
    ensures t.log == s.log && t.begun.Keys == s.begun.Keys + {id}
  {
    actions, t := Extend(c, now, before, s, Begin(id, ip, 0));
    actions, t := Extend(c, now, actions, t, InsertRow(true));
  }

  lemma StartAndReserve(c: Config, now: int, before: seq<Action>, s: Sys, id: RunId, ip: Ip)
    returns (actions: seq<Action>, t: Sys)
    requires Execute(c, Initial(now), before) == Some(s) && Idle(s) && Enabled(c, s, Begin(id, ip, 0))
    requires id !in s.db.runs && id !in s.db.events
    ensures Execute(c, Initial(now), actions) == Some(t) && HasReserved(s, t, id, ip)
  {
    var m;
    actions, m := StartToClaim(c, now, before, s, id, ip);
    assert EventsOf(m.db, id) == [];
    ReservingAfterClaim(c, s, m, id, ip);
    hide Execute, HasReserved, Apply;
    actions, t := Extend(c, now, actions, m, ReserveReload(true));
  }

  lemma ReservingAfterClaim(c: Config, s: Sys, m: Sys, id: RunId, ip: Ip)
    requires m.live == Some(Live(id, NewRun(ip, s.now), 0, Preparing)) && m.up && m.now == s.now
    requires m.db == ClaimedBy(s.db.(runs := s.db.runs[id := NewRun(ip, s.now)]), ip, id) && EventsOf(m.db, id) == []
    requires m.log == s.log + [LockClaimed(id, ip)] && m.begun.Keys == s.begun.Keys + {id}
    ensures Enabled(c, m, ReserveReload(true)) && HasReserved(s, Apply(c, m, ReserveReload(true)), id, ip)
  {
  }

  /** A run reserves, and every commit of its conclusion fails: its row stays reserved without an end,
      and after the cooldown counted from its start another target may be started. */
  lemma OpenReservedRowIsReachable(c: Config, a: Ip, b: Ip) returns (actions: seq<Action>, s: Sys)
    requires c.settings.Valid() && a != b
    ensures Execute(c, Initial(0), actions) == Some(s)
    ensures Enabled(c, s, Begin(1, b, 0)) && !NoReservedRowIsOpen(s.db)
  {
    var t := Initial(0);
    assert ReservedSince(t.db, a, -DAY) == {};
    actions, s := StartAndReserve(c, 0, [], t, 0, a);
    actions, t := ConcludeInVain(c, 0, actions, s);
    actions, s := Extend(c, 0, actions, t, Tick(c.settings.cooldownSeconds * SECOND));
    assert s.db.runs.Keys == {0};
    assert ReservedSince(s.db, b, s.now - DAY) == {};
    assert !LockHeld(s.db, b);
  }

  lemma FinishInVain(c: Config, now: int, before: seq<Action>, s: Sys) returns (actions: seq<Action>, t: Sys)
    requires Execute(c, Initial(now), before) == Some(s) && s.live.Some? && s.live.value.pc.Finalizing?
    ensures Execute(c, Initial(now), actions) == Some(t) && t == s.(live := None)
  {
    actions, t := Extend(c, now, before, s, FinalCommit(false, None, true));
    actions, t := Extend(c, now, actions, t, Finish);
  }

  /** Concluding with a storage engine that accepts nothing leaves the store as it was. */
  lemma ConcludeInVain(c: Config, now: int, before: seq<Action>, s: Sys) returns (actions: seq<Action>, t: Sys)
    requires Execute(c, Initial(now), before) == Some(s) && s.live.Some? && s.live.value.pc == ReloadReserved
    ensures Execute(c, Initial(now), actions) == Some(t)
    ensures t == s.(live := None)
  {
    actions, t := Extend(c, now, before, s, Conclude(Failed, NoCode));
    actions, t := FinishInVain(c, now, actions, t);
  }

  /** Three healthy observations during the run, then its write, a crash, a restart and two days. */
  lemma UnlockedWriteAndCrash(c: Config, now: int, before: seq<Action>, s: Sys, id: RunId, ip: Ip)
    returns (actions: seq<Action>, t: Sys)
    requires Execute(c, Initial(now), before) == Some(s) && !c.pollingPaused && c.settings.recoveryUnlockConfirmations == 2
    requires s.up && s.live.Some? && s.live.value.id == id && s.live.value.pc == ReloadReserved && s.live.value.run.target == ip
    requires LockHeld(s.db, ip) && s.db.locks[ip].streak == 0
    ensures Execute(c, Initial(now), actions) == Some(t)
    ensures !t.up && t.live.None? && t.now == s.now && t.db.runs == s.db.runs && t.begun == s.begun
    ensures t.db.locks == s.db.locks[ip := s.db.locks[ip].(active := false)] && t.db.events == s.db.events
    ensures t.log == s.log + [HealthObserved(ip, true, false), HealthObserved(ip, true, true), ReloadSent(id, ip)]
  {
    var m;
    actions, m := UnlockByHealth(c, now, before, s, ip);
    actions, t := Extend(c, now, actions, m, WriteReload);
    actions, t := Extend(c, now, actions, t, Crash);
  }

  lemma UnlockByHealth(c: Config, now: int, before: seq<Action>, s: Sys, ip: Ip)
    returns (actions: seq<Action>, t: Sys)
    requires Execute(c, Initial(now), before) == Some(s) && !c.pollingPaused && c.settings.recoveryUnlockConfirmations == 2
    requires s.up && LockHeld(s.db, ip) && s.db.locks[ip].streak == 0
    ensures Execute(c, Initial(now), actions) == Some(t)
    ensures t == s.(db := s.db.(locks := s.db.locks[ip := s.db.locks[ip].(active := false)]),
                    log := s.log + [HealthObserved(ip, true, false), HealthObserved(ip, true, true)])
  {
    var m;
    actions, m := Extend(c, now, before, s, Observe(ip, true, true));
    actions, t := Extend(c, now, actions, m, Observe(ip, true, true));
  }

  lemma RestartLater(c: Config, now: int, before: seq<Action>, s: Sys, id: RunId) returns (actions: seq<Action>, t: Sys)
    requires Execute(c, Initial(now), before) == Some(s) && !s.up && s.live.None?
    requires s.db.runs.Keys == {id} && s.db.runs[id].endedAt.None? && s.db.runs[id].outcome.Running?
    ensures Execute(c, Initial(now), actions) == Some(t) && Idle(t) && t.now == s.now + 2 * DAY
    ensures t.db.runs == map[id := InterruptedRow(s.db.runs[id], s.now)]
    ensures t.db.events.Keys <= s.db.events.Keys + {id} && t.db.locks == s.db.locks
    ensures t.log == s.log && t.begun == s.begun
  {
    MaintenanceKeepsOpenRows(s.db, s.now);
    RecoveringTheOnlyRun(s.db, id, s.now);
    hide Execute, Maintained, Recovered, InterruptedRow;
    actions, t := Extend(c, now, before, s, Restart(true));
    actions, t := Extend(c, now, actions, t, Tick(2 * DAY));
  }

  lemma RecoveringTheOnlyRun(db: Db, id: RunId, now: int)
    requires db.runs.Keys == {id} && db.runs[id].outcome.Running?
    ensures Recovered(db, now).runs == map[id := InterruptedRow(db.runs[id], now)]
    ensures Recovered(db, now).events.Keys <= db.events.Keys + {id} && Recovered(db, now).locks == db.locks
  {
  }

  lemma MaintenanceKeepsOpenRows(db: Db, now: int)
    requires forall id :: id in db.runs ==> db.runs[id].endedAt.None?
    ensures Maintained(db, now) == db
  {
  }

  /** If health polling went on while a workflow runs, healthy observations could take the lock away
      before its write, and a crash would let a second write follow with nothing in between. */
  lemma SeparationNeedsPausedPolling(c: Config, ip: Ip) returns (actions: seq<Action>, s: Sys)
    requires c.settings.Valid() && !c.pollingPaused && c.settings.recoveryUnlockConfirmations == 2
    ensures Execute(c, Initial(0), actions) == Some(s)
    ensures |s.log| == 6 && s.log[3] == ReloadSent(0, ip) && s.log[5] == ReloadSent(1, ip)
    ensures !Separated(s.log, 3, 5, c.settings.recoveryUnlockConfirmations)
  {
    var m;
    actions, m := FirstWrite(c, ip);
    actions, s := SecondWrite(c, 0, actions, m, ip);
    assert s.log[3] == ReloadSent(0, ip) && s.log[4] == LockClaimed(1, ip);
  }

  lemma FirstWrite(c: Config, ip: Ip) returns (actions: seq<Action>, s: Sys)
    requires c.settings.Valid() && !c.pollingPaused && c.settings.recoveryUnlockConfirmations == 2
    ensures Execute(c, Initial(0), actions) == Some(s)
    ensures Idle(s) && Enabled(c, s, Begin(1, ip, 0)) && 1 !in s.db.runs && 1 !in s.db.events
    ensures |s.log| == 4 && s.log[3] == ReloadSent(0, ip)
  {
    var t := Initial(0);
    assert ReservedSince(t.db, ip, -DAY) == {};
    actions, s := StartAndReserve(c, 0, [], t, 0, ip);
    actions, t := UnlockedWriteAndCrash(c, 0, actions, s, 0, ip);
    actions, s := RestartLater(c, 0, actions, t, 0);
    assert ReservedSince(s.db, ip, s.now - DAY) == {};
  }

  lemma SecondWrite(c: Config, now: int, before: seq<Action>, s: Sys, ip: Ip) returns (actions: seq<Action>, t: Sys)
    requires Execute(c, Initial(now), before) == Some(s) && Idle(s) && Enabled(c, s, Begin(1, ip, 0))
    requires 1 !in s.db.runs && 1 !in s.db.events
    ensures Execute(c, Initial(now), actions) == Some(t)
    ensures t.log == s.log + [LockClaimed(1, ip), ReloadSent(1, ip)]
  {
    var m;
    actions, m := StartAndReserve(c, now, before, s, 1, ip);
    actions, t := Extend(c, now, actions, m, WriteReload);
  }
}
