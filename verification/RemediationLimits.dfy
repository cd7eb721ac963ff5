/** The circuit breaker's two promises over whole runs: the daily limit and the cluster cooldown. */
module RemediationLimits {
  import opened Prelude
  import opened RemediationTypes
  import opened RemediationStore
  import opened RemediationProtocol
  import opened RemediationRecords
  import opened RemediationWrites

  // ----- at most `maxActions24h` reserved runs of a target in any 24-hour window

  ghost function Window(reserved: map<RunId, Reservation>, ip: Ip, from: int): set<RunId> {
    set r | r in reserved && reserved[r].target == ip && from <= reserved[r].startedAt <= from + DAY
  }

  ghost function Since(reserved: map<RunId, Reservation>, ip: Ip, from: int): set<RunId> {
    set r | r in reserved && reserved[r].target == ip && from <= reserved[r].startedAt
  }

  ghost predicate DailyLimitHolds(limit: nat, reserved: map<RunId, Reservation>) {
    forall ip, from :: WithinLimit(limit, reserved, ip, from)
  }

  ghost predicate WithinLimit(limit: nat, reserved: map<RunId, Reservation>, ip: Ip, from: int) {
    |Window(reserved, ip, from)| <= limit
  }

  /** A run that is not reserved yet still fits: its target has room in the day before its start. */
  ghost predicate LiveHasRoom(limit: nat, s: Sys) {
    s.live.Some? ==>
      var run := s.live.value.run;
      && (forall r :: r in s.reserved ==> s.reserved[r].startedAt <= run.startedAt)
      && (s.live.value.id !in s.reserved ==> |Since(s.reserved, run.target, run.startedAt - DAY)| < limit)
  }

  /** Only the maintenance forgets a reserved run, and then it started long ago. */
  ghost predicate ForgottenAreOld(s: Sys) {
    forall r :: r in s.reserved && r !in s.db.runs ==> s.reserved[r].startedAt <= s.now - RETENTION
  }

  ghost predicate DailyOk(c: Config, s: Sys) {
    && ForgottenAreOld(s)
    && LiveHasRoom(c.settings.maxActions24h, s)
    && DailyLimitHolds(c.settings.maxActions24h, s.reserved)
  }

  lemma ReservingKeepsLimit(limit: nat, reserved: map<RunId, Reservation>, id: RunId, r: Reservation)
    requires DailyLimitHolds(limit, reserved) && id !in reserved
    requires forall k :: k in reserved ==> reserved[k].startedAt <= r.startedAt
    requires |Since(reserved, r.target, r.startedAt - DAY)| < limit
    ensures DailyLimitHolds(limit, reserved[id := r])
  {
    var extended := reserved[id := r];
    forall ip, from
      ensures WithinLimit(limit, extended, ip, from)
    {
      assert WithinLimit(limit, reserved, ip, from);
      var after := Window(extended, ip, from);
      if id in after {
        assert after - {id} <= Since(reserved, r.target, r.startedAt - DAY);
        SubsetSize(after - {id}, Since(reserved, r.target, r.startedAt - DAY));
      } else {
        assert after == Window(reserved, ip, from);
      }
    }
  }

  lemma BeginKeepsDaily(c: Config, s: Sys, id: RunId, target: Ip, startedAt: int)
    requires RowsOk(s) && ReservationsOk(s) && DailyOk(c, s) && s.live.None? && id !in s.begun && s.now <= startedAt
    requires BreakerAllows(s.db, target, c.settings.cooldownSeconds, c.settings.maxActions24h, s.now)
    ensures DailyOk(c, ApplyBegin(s, id, target, startedAt))
  {
    var counted := ReservedSince(s.db, target, s.now - DAY);
    var since := Since(s.reserved, target, startedAt - DAY);
    forall r | r in since
      ensures r in counted
    {
      assert s.reserved[r].startedAt > s.now - RETENTION;
    }
    SubsetSize(since, counted);
  }

  /** A step that leaves rows and target alone, except that a commit may reserve the live run. */
  lemma ReservationStepKeepsDaily(c: Config, s: Sys, t: Sys)
    requires DailyOk(c, s) && s.live.Some?
    requires s.db.runs.Keys <= t.db.runs.Keys && t.now == s.now
    requires t.live.Some? ==>
      && t.live.value.id == s.live.value.id
      && t.live.value.run.target == s.live.value.run.target
      && t.live.value.run.startedAt == s.live.value.run.startedAt
    requires
      var live := s.live.value;
      t.reserved == s.reserved
      || (live.id !in s.reserved && live.id in t.db.runs
          && t.reserved == s.reserved[live.id := Reservation(live.run.target, live.run.startedAt)])
    ensures DailyOk(c, t)
  {
    if t.reserved != s.reserved {
      ReservingKeepsLimit(c.settings.maxActions24h, s.reserved, s.live.value.id,
                          t.reserved[s.live.value.id]);
    }
  }

  lemma RestartKeepsDaily(c: Config, s: Sys, durable: bool)
    requires RowsOk(s) && ReservationsOk(s) && DailyOk(c, s) && s.live.None?
    ensures DailyOk(c, ApplyRestart(s, durable))
  {
  }

  // ----- the cooldown between an earlier end and a later start

  /** Whether `later` started more than the cooldown less one second after the recorded end of `earlier`. */
  ghost predicate Spaced(c: Config, s: Sys, earlier: RunId, later: RunId)
    requires earlier in s.db.runs && s.db.runs[earlier].endedAt.Some? && later in s.begun
  {
    s.begun[later].startedAt - s.db.runs[earlier].endedAt.value > (c.settings.cooldownSeconds - 1) * SECOND
  }

  ghost predicate PairSpacing(c: Config, s: Sys, earlier: RunId, later: RunId)
    requires later in s.begun
  {
    earlier in s.begun[later].earlier && earlier in s.db.runs ==>
      var row := s.db.runs[earlier];
      var late := earlier in s.begun[later].unfinished;
      && (row.endedAt.Some? ==> (Spaced(c, s, earlier, later) <==> !late))
      && (row.endedAt.None? ==> late)
      && (late ==> s.begun[later].startedAt - row.startedAt > (c.settings.cooldownSeconds - 1) * SECOND)
  }

  ghost predicate SpacingOk(c: Config, s: Sys) {
    && (forall later :: later in s.begun ==>
          && s.begun[later].unfinished <= s.begun[later].earlier <= s.begun.Keys
          && (s.live.Some? ==> s.live.value.id !in s.begun[later].earlier))
    && (forall later, earlier :: later in s.begun ==> PairSpacing(c, s, earlier, later))
  }

  lemma BeginKeepsSpacing(c: Config, s: Sys, id: RunId, target: Ip, startedAt: int)
    requires RowsOk(s) && ReservationsOk(s) && SpacingOk(c, s) && s.live.None? && id !in s.begun && s.now <= startedAt
    requires BreakerAllows(s.db, target, c.settings.cooldownSeconds, c.settings.maxActions24h, s.now)
    ensures SpacingOk(c, ApplyBegin(s, id, target, startedAt))
  {
    var t := ApplyBegin(s, id, target, startedAt);
    assert t.begun[id].earlier == s.reserved.Keys;
    forall later, earlier | later in t.begun
      ensures PairSpacing(c, t, earlier, later)
    {
      if later != id {
        assert PairSpacing(c, s, earlier, later);
      }
    }
  }

  /** Rows of runs other than the live one keep their start and end. */
  lemma LiveRowsKeepSpacing(c: Config, s: Sys, t: Sys)
    requires SpacingOk(c, s) && s.live.Some?
    requires t.begun == s.begun && (t.live.Some? ==> t.live.value.id == s.live.value.id)
    requires forall r :: r in t.db.runs && r != s.live.value.id ==> r in s.db.runs && t.db.runs[r] == s.db.runs[r]
    ensures SpacingOk(c, t)
  {
    forall later, earlier | later in t.begun
      ensures PairSpacing(c, t, earlier, later)
    {
      assert PairSpacing(c, s, earlier, later);
    }
  }

  lemma RestartKeepsSpacing(c: Config, s: Sys, durable: bool)
    requires RowsOk(s) && SpacingOk(c, s) && s.live.None? && c.settings.cooldownSeconds >= 1
    ensures SpacingOk(c, ApplyRestart(s, durable))
  {
    var t := ApplyRestart(s, durable);
    forall later, earlier | later in t.begun
      ensures PairSpacing(c, t, earlier, later)
    {
      assert PairSpacing(c, s, earlier, later);
      assert (c.settings.cooldownSeconds - 1) * SECOND >= 0;
    }
  }

  lemma QuietRowsKeepSpacing(c: Config, s: Sys, t: Sys)
    requires SpacingOk(c, s) && t.begun == s.begun && (t.live.Some? ==> t.live == s.live)
    requires t.db.runs.Keys == s.db.runs.Keys
    requires forall r :: r in s.db.runs ==>
      t.db.runs[r].startedAt == s.db.runs[r].startedAt && t.db.runs[r].endedAt == s.db.runs[r].endedAt
    ensures SpacingOk(c, t)
  {
    forall later, earlier | later in t.begun
      ensures PairSpacing(c, t, earlier, later)
    {
      assert PairSpacing(c, s, earlier, later);
    }
  }

  // ----- both, step by step

  ghost predicate LimitsOk(c: Config, s: Sys) {
    DailyOk(c, s) && SpacingOk(c, s)
  }

  /** What a step of the workflow may do to the rows and to the reservations. */
  ghost predicate LiveStepFrame(s: Sys, t: Sys) {
    && s.live.Some? && t.now == s.now && t.begun == s.begun
    && s.db.runs.Keys <= t.db.runs.Keys
    && (forall r :: r in t.db.runs && r != s.live.value.id ==> r in s.db.runs && t.db.runs[r] == s.db.runs[r])
    && (t.live.Some? ==>
          && t.live.value.id == s.live.value.id
          && t.live.value.run.target == s.live.value.run.target
          && t.live.value.run.startedAt == s.live.value.run.startedAt)
    && (t.reserved == s.reserved
        || (s.live.value.id !in s.reserved && s.live.value.id in t.db.runs
            && t.reserved == s.reserved[s.live.value.id := Reservation(s.live.value.run.target, s.live.value.run.startedAt)]))
  }

  lemma LiveStepIsFramed(s: Sys, a: Action)
    requires RecordsOk(s) && s.live.Some? && EnabledLive(s.live.value, a)
    ensures LiveStepFrame(s, ApplyLive(s, a))
  {
    if IsCommit(a) {
      PlanIsModest(s.live.value, a);
      if a.durable {
        var t := CommitShape(s, Planned(s.live.value, a));
      }
    }
  }

  /** Time passing, a crash, a report retry and a health observation. */
  ghost predicate CalmFrame(s: Sys, t: Sys) {
    && t.begun == s.begun && t.reserved == s.reserved && s.now <= t.now
    && (t.live.Some? ==> t.live == s.live)
    && t.db.runs.Keys == s.db.runs.Keys
    && (forall r :: r in s.db.runs ==>
          t.db.runs[r].startedAt == s.db.runs[r].startedAt && t.db.runs[r].endedAt == s.db.runs[r].endedAt)
  }

  lemma CalmStepIsFramed(c: Config, s: Sys, a: Action)
    requires Enabled(c, s, a) && (a.Tick? || a.Crash? || a.RetryReport? || a.Observe?)
    ensures CalmFrame(s, Apply(c, s, a))
  {
  }

  lemma CalmStepKeepsDaily(c: Config, s: Sys, t: Sys)
    requires CalmFrame(s, t) && DailyOk(c, s)
    ensures DailyOk(c, t)
  {
  }

  lemma BeginStepKeepsLimits(c: Config, s: Sys, a: Action)
    requires RowsOk(s) && ReservationsOk(s) && LimitsOk(c, s) && Enabled(c, s, a) && a.Begin?
    ensures LimitsOk(c, Apply(c, s, a))
  {
    hide DailyOk, SpacingOk, RowsOk, ReservationsOk;
    BeginKeepsDaily(c, s, a.id, a.target, s.now + a.lag);
    BeginKeepsSpacing(c, s, a.id, a.target, s.now + a.lag);
  }

  lemma CalmStepKeepsLimits(c: Config, s: Sys, a: Action)
    requires LimitsOk(c, s) && Enabled(c, s, a) && (a.Tick? || a.Crash? || a.RetryReport? || a.Observe?)
    ensures LimitsOk(c, Apply(c, s, a))
  {
    hide DailyOk, SpacingOk;
    CalmStepIsFramed(c, s, a);
    CalmStepKeepsDaily(c, s, Apply(c, s, a));
    QuietRowsKeepSpacing(c, s, Apply(c, s, a));
  }

  lemma RestartStepKeepsLimits(c: Config, s: Sys, a: Action)
    requires c.settings.cooldownSeconds >= 1
    requires RowsOk(s) && LiveOk(s) && ReservationsOk(s) && LimitsOk(c, s) && Enabled(c, s, a) && a.Restart?
    ensures LimitsOk(c, Apply(c, s, a))
  {
    hide DailyOk, SpacingOk, RowsOk, ReservationsOk;
    RestartKeepsDaily(c, s, a.durable);
    RestartKeepsSpacing(c, s, a.durable);
  }

  lemma StepKeepsLimits(c: Config, s: Sys, a: Action)
    requires c.settings.cooldownSeconds >= 1
    requires RecordsOk(s) && ReservationsOk(s) && LimitsOk(c, s) && Enabled(c, s, a)
    ensures LimitsOk(c, Apply(c, s, a))
  {
    hide DailyOk, SpacingOk, RowsOk, EventsOk, ReservationsOk;
    if IsLiveStep(a) {
      LiveStepOnly(c, s, a);
      LiveStepIsFramed(s, a);
      ReservationStepKeepsDaily(c, s, ApplyLive(s, a));
      LiveRowsKeepSpacing(c, s, ApplyLive(s, a));
    } else if a.Begin? {
      BeginStepKeepsLimits(c, s, a);
    } else if a.Restart? {
      RestartStepKeepsLimits(c, s, a);
    } else {
      CalmStepKeepsLimits(c, s, a);
    }
  }
}
