/** What every reachable state keeps about its own records: rows describe started runs, ends follow
    starts, event numbers increase, and therefore no commit of the workflow can be refused by a key. */
module RemediationRecords {
  import opened Prelude
  import opened RemediationTypes
  import opened RemediationStore
  import opened RemediationProtocol

  ghost predicate RunTimesOk(s: Sys, id: RunId, run: Run) {
    && id in s.begun
    && run.target == s.begun[id].target
    && run.startedAt == s.begun[id].startedAt
    && run.startedAt <= s.now
    && (run.outcome.Running? <==> run.endedAt.None?)
    && (run.endedAt.Some? ==> run.startedAt <= run.endedAt.value <= s.now)
  }

  ghost predicate RowsOk(s: Sys) {
    && s.db.events.Keys <= s.db.runs.Keys
    && (forall id :: id in s.db.runs ==> RunTimesOk(s, id, s.db.runs[id]))
    && (forall id :: id in s.begun ==> s.begun[id].startedAt <= s.now)
  }

  ghost predicate LiveOk(s: Sys) {
    s.live.Some? ==>
      var live := s.live.value;
      && s.up
      && RunTimesOk(s, live.id, live.run)
      && (live.pc.Created? <==> live.id !in s.db.runs)
      && (live.pc.Finalizing? <==> live.run.endedAt.Some?)
  }

  ghost predicate Increasing(events: seq<Event>) {
    forall i, j :: 0 <= i < j < |events| ==> events[i].sequenceNo < events[j].sequenceNo
  }

  ghost predicate EventsOk(s: Sys) {
    && (forall id :: id in s.db.events ==> Increasing(s.db.events[id]))
    && (s.live.Some? ==> forall e :: e in EventsOf(s.db, s.live.value.id) ==> e.sequenceNo <= s.live.value.sequence)
  }

  ghost predicate RecordsOk(s: Sys) {
    RowsOk(s) && LiveOk(s) && EventsOk(s)
  }

  // ----- commits

  function Row(db: Db, id: RunId, run: Run): Run
    requires id in db.runs
  {
    run.(target := db.runs[id].target, startedAt := db.runs[id].startedAt)
  }

  ghost predicate NextNumber(live: Live, event: Option<Event>) {
    event.Some? ==> event.value.sequenceNo == live.sequence + 1
  }

  /** Uniqueness of (run, sequence number) never makes a workflow's own commit fail. */
  lemma CommitNeverConflicts(s: Sys, run: Run, event: Option<Event>)
    requires RecordsOk(s) && s.live.Some? && !s.live.value.pc.Created? && NextNumber(s.live.value, event)
    ensures Transition(s.db, s.live.value.id, run, event).Some?
  {
  }

  ghost predicate SameIdentity(run: Run, before: Run) {
    run.target == before.target && run.startedAt == before.startedAt
      && run.outcome == before.outcome && run.endedAt == before.endedAt
  }

  /** What a durable commit of the workflow does to the rows, events and lock rows. */
  lemma CommitShape(s: Sys, plan: Commit) returns (t: Sys)
    requires RecordsOk(s) && s.live.Some? && !s.live.value.pc.Created? && NextNumber(s.live.value, plan.event)
    ensures t == CommitLive(s, true, plan)
    ensures
      var live := s.live.value;
      && t == Durably(s, t.db, Live(live.id, plan.run, if plan.event.Some? then live.sequence + 1 else live.sequence, plan.next),
                      plan.happened)
      && t.db.runs == s.db.runs[live.id := Row(s.db, live.id, plan.run)]
      && t.db.events == (if plan.event.Some? then s.db.events[live.id := EventsOf(s.db, live.id) + [plan.event.value]]
                         else s.db.events)
      && t.db.locks == MirrorFlags(s.db.locks, live.id, plan.run)
  {
    CommitNeverConflicts(s, plan.run, plan.event);
    assert EventsOf(Updated(s.db, s.live.value.id, plan.run).value, s.live.value.id) == EventsOf(s.db, s.live.value.id);
    t := CommitLive(s, true, plan);
  }

  /** What every planned commit of the workflow has in common. */
  lemma PlanIsModest(live: Live, a: Action)
    requires EnabledLive(live, a) && IsCommit(a)
    ensures
      var plan := Planned(live, a);
      && NextNumber(live, plan.event) && SameIdentity(plan.run, live.run)
      && !live.pc.Created? && !plan.next.Created? && (plan.next.Finalizing? <==> live.pc.Finalizing?)
  {
  }

  lemma CommitKeepsRecords(s: Sys, durable: bool, plan: Commit)
    requires RecordsOk(s) && s.live.Some? && !s.live.value.pc.Created?
    requires NextNumber(s.live.value, plan.event) && SameIdentity(plan.run, s.live.value.run)
    requires !plan.next.Created? && (plan.next.Finalizing? <==> s.live.value.pc.Finalizing?)
    ensures RecordsOk(CommitLive(s, durable, plan))
  {
    if durable {
      var t := CommitShape(s, plan);
      hide EventsOk;
      DurableCommitKeepsEvents(s, t, plan);
    } else {
      hide RecordsOk;
      FailedCommitKeepsRecords(s, plan);
    }
  }

  lemma DurableCommitKeepsEvents(s: Sys, t: Sys, plan: Commit)
    requires EventsOk(s) && s.live.Some? && NextNumber(s.live.value, plan.event)
    requires t.live.Some? && t.live.value.id == s.live.value.id
    requires t.live.value.sequence == if plan.event.Some? then s.live.value.sequence + 1 else s.live.value.sequence
    requires t.db.events == if plan.event.Some?
                            then s.db.events[s.live.value.id := EventsOf(s.db, s.live.value.id) + [plan.event.value]]
                            else s.db.events
    ensures EventsOk(t)
  {
  }

  lemma FailedCommitKeepsRecords(s: Sys, plan: Commit)
    requires RecordsOk(s) && s.live.Some? && !s.live.value.pc.Created?
    requires SameIdentity(plan.run, s.live.value.run)
    ensures RecordsOk(s.(live := AfterFailure(s.live.value, plan.run,
              if plan.event.Some? then s.live.value.sequence + 1 else s.live.value.sequence)))
  {
  }

  /** Steps that do not commit keep the workflow's identity and its event numbers. */
  ghost predicate PlainRecordFrame(s: Sys, t: Sys) {
    && s.live.Some? && s.up && t.up && t.now == s.now && t.begun == s.begun && t.db.events == s.db.events
    && (t.live.Some? ==>
          var before, after := s.live.value, t.live.value;
          && after.id == before.id && after.sequence == before.sequence
          && after.run.target == before.run.target && after.run.startedAt == before.run.startedAt
          && ((after.run.outcome == before.run.outcome && after.run.endedAt == before.run.endedAt)
              || (!after.run.outcome.Running? && after.run.endedAt == Some(s.now)))
          && (after.pc.Finalizing? <==> after.run.endedAt.Some?)
          && !after.pc.Created?)
    && ((t.db.runs == s.db.runs && (t.live.Some? ==> !s.live.value.pc.Created?))
        || (s.live.value.pc.Created? && t.db.runs == s.db.runs[s.live.value.id := s.live.value.run]))
  }

  lemma PlainStepIsRecordFramed(s: Sys, a: Action)
    requires LiveOk(s) && s.live.Some? && EnabledLive(s.live.value, a) && !IsCommit(a)
    ensures PlainRecordFrame(s, ApplyLive(s, a))
  {
  }

  lemma PlainFrameKeepsRecords(s: Sys, t: Sys)
    requires RecordsOk(s) && PlainRecordFrame(s, t)
    ensures RecordsOk(t)
  {
  }

  lemma LiveStepKeepsRecords(s: Sys, a: Action)
    requires RecordsOk(s) && s.live.Some? && EnabledLive(s.live.value, a)
    ensures RecordsOk(ApplyLive(s, a))
  {
    hide RowsOk, EventsOk;
    if IsCommit(a) {
      PlanIsModest(s.live.value, a);
      CommitKeepsRecords(s, a.durable, Planned(s.live.value, a));
    } else {
      PlainStepIsRecordFramed(s, a);
      PlainFrameKeepsRecords(s, ApplyLive(s, a));
    }
  }

  lemma MaintenanceKeepsRecords(s: Sys)
    requires RecordsOk(s) && s.live.None?
    ensures RecordsOk(s.(db := Maintained(s.db, s.now)))
  {
  }

  lemma RecoveryKeepsRecords(s: Sys)
    requires RecordsOk(s) && s.live.None?
    ensures RecordsOk(s.(up := true, db := Recovered(s.db, s.now)))
  {
  }

  lemma LiveMeansUp(s: Sys)
    requires RecordsOk(s)
    ensures s.live.Some? ==> s.up
  {
  }

  lemma RestartKeepsRecords(s: Sys, durable: bool)
    requires RecordsOk(s) && s.live.None?
    ensures RecordsOk(ApplyRestart(s, durable))
  {
    MaintenanceKeepsRecords(s);
    if durable {
      RecoveryKeepsRecords(s.(db := Maintained(s.db, s.now)));
    }
  }

  lemma OutsideStepKeepsRecords(c: Config, s: Sys, a: Action)
    requires RecordsOk(s) && Enabled(c, s, a) && !IsLiveStep(a) && !a.Restart?
    ensures RecordsOk(Apply(c, s, a))
  {
    hide BreakerAllows;
    if a.Tick? || a.Crash? || a.Begin? {
      hide EventsOk;
      CalmStepKeepsEvents(s, Apply(c, s, a));
    } else {
      hide Increasing;
    }
  }

  lemma CalmStepKeepsEvents(s: Sys, t: Sys)
    requires EventsOk(s) && t.db == s.db
    requires t.live.None? || t.live == s.live || t.live.value.id !in s.db.events
    ensures EventsOk(t)
  {
  }

  lemma StepKeepsRecords(c: Config, s: Sys, a: Action)
    requires RecordsOk(s) && Enabled(c, s, a)
    ensures RecordsOk(Apply(c, s, a))
  {
    hide RecordsOk;
    if IsLiveStep(a) {
      LiveStepOnly(c, s, a);
      LiveStepKeepsRecords(s, a);
    } else if a.Restart? {
      assert s.live.None? by { LiveMeansUp(s); }
      RestartKeepsRecords(s, a.durable);
    } else {
      OutsideStepKeepsRecords(c, s, a);
    }
  }
}
