/** The transactional audit store: target locks, run rows, event rows and the circuit breaker.

    `Db` is the durable content as a value; the functions on it say what each transaction means.
    `Repository` carries the transactions out statement by statement and is proved against them. */
module RemediationStore {
  import opened Prelude
  import opened RemediationTypes

  datatype Db = Db(runs: map<RunId, Run>, events: map<RunId, seq<Event>>, locks: map<Ip, Lock>)

  const EMPTY_DB := Db(map[], map[], map[])

  function EventsOf(db: Db, id: RunId): seq<Event> {
    if id in db.events then db.events[id] else []
  }

  predicate LockHeld(db: Db, ip: Ip) {
    ip in db.locks && db.locks[ip].active
  }

  function Created(db: Db, id: RunId, run: Run): Option<Db> {
    if id in db.runs then None else Some(db.(runs := db.runs[id := run]))
  }

  /** The row update never touches the identity columns; it also mirrors the reservation flags into
      the lock row, but only if that row belongs to this run. */
  function Updated(db: Db, id: RunId, run: Run): Option<Db> {
    if id !in db.runs then None
    else
      var row := run.(target := db.runs[id].target, startedAt := db.runs[id].startedAt);
      Some(Db(db.runs[id := row], db.events, MirrorFlags(db.locks, id, run)))
  }

  function MirrorFlags(locks: map<Ip, Lock>, id: RunId, run: Run): map<Ip, Lock> {
    if run.target in locks && locks[run.target].runId == id
    then locks[run.target := locks[run.target].(reloadReserved := run.reloadReserved,
                                                rebalanceReserved := run.rebalanceReserved)]
    else locks
  }

  /** Rows of `remediation_events` are keyed by (run, sequence number). */
  function Appended(db: Db, id: RunId, event: Event): Option<Db> {
    if exists e :: e in EventsOf(db, id) && e.sequenceNo == event.sequenceNo then None
    else Some(db.(events := db.events[id := EventsOf(db, id) + [event]]))
  }

  function Transition(db: Db, id: RunId, run: Run, event: Option<Event>): Option<Db> {
    match Updated(db, id, run)
    case None => None
    case Some(updated) => if event.None? then Some(updated) else Appended(updated, id, event.value)
  }

  function ClaimedBy(db: Db, ip: Ip, id: RunId): Db {
    db.(locks := db.locks[ip := Lock(id, false, false, 0, true)])
  }

  function Released(db: Db, ip: Ip, id: RunId): Db {
    if ip in db.locks && db.locks[ip].runId == id
    then db.(locks := db.locks[ip := db.locks[ip].(active := false, streak := 0)])
    else db
  }

  function NextStreak(lock: Lock, healthy: bool): nat {
    if healthy then lock.streak + 1 else 0
  }

  predicate Unlocks(lock: Lock, healthy: bool, required: nat) {
    healthy && NextStreak(lock, healthy) >= Max(2, required)
  }

  function Observed(db: Db, ip: Ip, healthy: bool, required: nat): Db {
    if !LockHeld(db, ip) then db
    else
      var lock := db.locks[ip];
      var release := Unlocks(lock, healthy, required);
      db.(locks := db.locks[ip := lock.(streak := if release then 0 else NextStreak(lock, healthy),
                                        active := !release)])
  }

  function MaxSequence(events: seq<Event>): (m: nat)
    ensures forall e :: e in events ==> e.sequenceNo <= m
  {
    if events == [] then 0
    else Max(MaxSequence(events[..|events| - 1]), events[|events| - 1].sequenceNo)
  }

  lemma {:induction false} MaxIsTaken(events: seq<Event>)
    ensures if events == [] then MaxSequence(events) == 0
            else exists e :: e in events && e.sequenceNo == MaxSequence(events)
  {
    if events != [] {
      var init, last := events[..|events| - 1], events[|events| - 1];
      MaxIsTaken(init);
      assert last in events;
      if MaxSequence(init) > last.sequenceNo {
        var e :| e in init && e.sequenceNo == MaxSequence(init);
        assert e in events;
      } else {
        assert MaxSequence(events) == last.sequenceNo;
      }
    }
  }

  function InterruptedRow(run: Run, now: int): Run {
    run.(outcome := Interrupted, stage := StageInterrupted, endedAt := Some(now),
         failureCode := ProcessInterrupted, reportPending := true)
  }

  function InterruptionEvent(events: seq<Event>): Event {
    Event(MaxSequence(events) + 1, StageInterrupted, ProcessInterrupted)
  }

  function RunningIds(db: Db): set<RunId> {
    set id | id in db.runs && db.runs[id].outcome.Running?
  }

  /** Startup recovery of the given rows. */
  function RecoveredOn(db: Db, ids: set<RunId>, now: int): Db {
    Db(map id | id in db.runs :: if id in ids then InterruptedRow(db.runs[id], now) else db.runs[id],
       map id | id in db.events.Keys + ids ::
         if id in ids then EventsOf(db, id) + [InterruptionEvent(EventsOf(db, id))] else db.events[id],
       db.locks)
  }

  function Recovered(db: Db, now: int): Db {
    RecoveredOn(db, RunningIds(db), now)
  }

  lemma RecoverOneMore(db: Db, ids: set<RunId>, id: RunId, now: int)
    requires id in db.runs && id !in ids
    ensures
      var partial := RecoveredOn(db, ids, now);
      var events := EventsOf(partial, id);
      && id in partial.runs
      && RecoveredOn(db, ids + {id}, now)
         == Db(partial.runs[id := InterruptedRow(partial.runs[id], now)],
               partial.events[id := events + [InterruptionEvent(events)]],
               partial.locks)
  {
  }

  predicate Expired(db: Db, id: RunId, now: int) {
    && id in db.runs
    && db.runs[id].endedAt.Some?
    && db.runs[id].endedAt.value < now - RETENTION
    && forall ip :: ip in db.locks && db.locks[ip].active ==> db.locks[ip].runId != id
  }

  /** The 180-day maintenance; deleting a run cascades to its events and to its (inactive) locks. */
  function Maintained(db: Db, now: int): Db {
    var gone := set id | id in db.runs && Expired(db, id, now);
    Db(db.runs - gone, db.events - gone,
       map ip | ip in db.locks && db.locks[ip].runId !in gone :: db.locks[ip])
  }

  // ----- what the transactions do, row by row

  /** Row and event go in together: the row under its old target and start, the event under a number that the
      run has not used, and the run's reservations into the lock, if that is the run's own. */
  lemma TransitionMeans(db: Db, id: RunId, run: Run, event: Option<Event>)
    ensures Transition(db, id, run, event).Some?
      <==> id in db.runs && (event.Some? ==> forall e :: e in EventsOf(db, id) ==> e.sequenceNo != event.value.sequenceNo)
    ensures Transition(db, id, run, event).Some? ==>
      var t := Transition(db, id, run, event).value;
      && t.runs == db.runs[id := run.(target := db.runs[id].target, startedAt := db.runs[id].startedAt)]
      && (forall other :: EventsOf(t, other) == EventsOf(db, other) + if other == id && event.Some? then [event.value] else [])
      && t.locks.Keys == db.locks.Keys
      && forall ip :: ip in t.locks ==>
           if ip == run.target && db.locks[ip].runId == id
           then t.locks[ip] == Lock(id, run.reloadReserved, run.rebalanceReserved, db.locks[ip].streak, db.locks[ip].active)
           else t.locks[ip] == db.locks[ip]
  {
    assert forall events: seq<Event> :: events + [] == events;
  }

  /** Claiming makes a clean lock of this run, giving up clears only a lock of this run. */
  lemma ClaimAndReleaseMean(db: Db, ip: Ip, id: RunId, other: Ip)
    ensures
      var t := ClaimedBy(db, ip, id);
      && t.runs == db.runs && t.events == db.events && t.locks.Keys == db.locks.Keys + {ip}
      && t.locks[ip] == Lock(id, false, false, 0, true)
      && (other != ip && other in db.locks ==> t.locks[other] == db.locks[other])
    ensures
      var t := Released(db, ip, id);
      && t.runs == db.runs && t.events == db.events && t.locks.Keys == db.locks.Keys
      && (other in db.locks ==>
            && t.locks[other].runId == db.locks[other].runId
            && if other == ip && db.locks[ip].runId == id then !t.locks[ip].active && t.locks[ip].streak == 0
               else t.locks[other] == db.locks[other])
  {
  }

  /** An observation counts the healthy polls in a row of a held lock, and the lock is given up with the one
      that is at least the second and at least the `required`th. */
  lemma ObservedMeans(db: Db, ip: Ip, healthy: bool, required: nat, other: Ip)
    ensures
      var t := Observed(db, ip, healthy, required);
      && t.runs == db.runs && t.events == db.events && t.locks.Keys == db.locks.Keys
      && (other in db.locks && (other != ip || !db.locks[ip].active) ==> t.locks[other] == db.locks[other])
      && (ip in db.locks && db.locks[ip].active ==>
            && t.locks[ip].runId == db.locks[ip].runId
            && t.locks[ip].reloadReserved == db.locks[ip].reloadReserved
            && t.locks[ip].rebalanceReserved == db.locks[ip].rebalanceReserved
            && var n := db.locks[ip].streak + 1;
               (t.locks[ip].streak, t.locks[ip].active)
               == if !healthy then (0, true) else if n >= 2 && n >= required then (0, false) else (n, true))
  {
  }

  /** Every row that was running is now interrupted, with one event more, under the number after the greatest so
      far; all else is as it was. */
  lemma RecoveredMeans(db: Db, now: int, id: RunId)
    ensures
      var t := Recovered(db, now);
      && t.runs.Keys == db.runs.Keys && t.locks == db.locks
      && (id in db.runs && !db.runs[id].outcome.Running? ==> t.runs[id] == db.runs[id])
      && (id !in db.runs || !db.runs[id].outcome.Running? ==> EventsOf(t, id) == EventsOf(db, id))
      && (id in db.runs && db.runs[id].outcome.Running? ==>
            && t.runs[id] == db.runs[id].(outcome := Interrupted, stage := StageInterrupted, endedAt := Some(now),
                                          failureCode := ProcessInterrupted, reportPending := true)
            && |EventsOf(t, id)| == |EventsOf(db, id)| + 1 && EventsOf(db, id) <= EventsOf(t, id)
            && var last := EventsOf(t, id)[|EventsOf(db, id)|];
               && last.stage.StageInterrupted? && last.code.ProcessInterrupted?
               && (forall e :: e in EventsOf(db, id) ==> e.sequenceNo < last.sequenceNo)
               && (last.sequenceNo == 1 || exists e :: e in EventsOf(db, id) && e.sequenceNo == last.sequenceNo - 1))
  {
    MaxIsTaken(EventsOf(db, id));
  }

  /** A run is deleted with its events and locks exactly if it ended more than 180 days ago and no active lock
      names it. */
  lemma MaintainedMeans(db: Db, now: int, id: RunId)
    ensures
      var t := Maintained(db, now);
      && (id in t.runs <==>
            && id in db.runs
            && !(db.runs[id].endedAt.Some? && now - db.runs[id].endedAt.value > 180 * 24 * 3600 * SECOND
                 && forall ip :: ip in db.locks && db.locks[ip].active ==> db.locks[ip].runId != id))
      && (id in t.runs ==> t.runs[id] == db.runs[id])
      && EventsOf(t, id) == (if id in db.runs && id !in t.runs then [] else EventsOf(db, id))
      && forall ip :: ip in db.locks && db.locks[ip].runId == id ==>
           (ip in t.locks <==> id !in db.runs || id in t.runs) && (ip in t.locks ==> t.locks[ip] == db.locks[ip])
  {
  }

  // ----- the circuit breaker

  function EndOrStart(run: Run): int {
    if run.endedAt.Some? then run.endedAt.value else run.startedAt
  }

  function ReservedSince(db: Db, ip: Ip, since: int): set<RunId> {
    set id | id in db.runs && db.runs[id].target == ip && db.runs[id].reloadReserved && since <= db.runs[id].startedAt
  }

  predicate CooledDown(db: Db, cooldownSeconds: nat, now: int) {
    forall id :: id in db.runs && db.runs[id].reloadReserved ==>
      now - EndOrStart(db.runs[id]) > (cooldownSeconds - 1) * SECOND
  }

  predicate BreakerAllows(db: Db, ip: Ip, cooldownSeconds: nat, maxActions: nat, now: int) {
    && !LockHeld(db, ip)
    && |ReservedSince(db, ip, now - DAY)| < maxActions
    && CooledDown(db, cooldownSeconds, now)
  }

  datatype BreakerReason = Clear | TargetLocked | DailyLimit | CoolingDown(remainingSeconds: int)

  datatype ClaimResult = Won | Lost | ClaimError

  /** `int(x)` of a quotient of microseconds: truncation toward zero. */
  function TruncatedSeconds(micros: int): int {
    if micros >= 0 then micros / SECOND else -((-micros) / SECOND)
  }

  class Repository {
    var runs: map<RunId, Run>
    var events: map<RunId, seq<Event>>
    var locks: map<Ip, Lock>

    function Contents(): Db
      reads this
    {
      Db(runs, events, locks)
    }

    constructor ()
      ensures Contents() == EMPTY_DB
    {
      runs, events, locks := map[], map[], map[];
    }

    /** `durable` is the storage engine's answer to COMMIT; any failure rolls the statements back. */
    method CreateRun(id: RunId, run: Run, durable: bool) returns (ok: bool)
      modifies this
      ensures ok <==> durable && Created(old(Contents()), id, run).Some?
      ensures Contents() == if ok then Created(old(Contents()), id, run).value else old(Contents())
    {
      var saved := runs;
      ok := id !in runs;
      if ok {
        runs := runs[id := run];
        ok := durable;
        if !ok {
          runs := saved;
        }
      }
    }

    method CommitTransition(id: RunId, run: Run, event: Option<Event>, durable: bool) returns (ok: bool)
      modifies this
      ensures ok <==> durable && Transition(old(Contents()), id, run, event).Some?
      ensures Contents() == if ok then Transition(old(Contents()), id, run, event).value else old(Contents())
    {
      var savedRuns, savedEvents, savedLocks := runs, events, locks;
      ok := id in runs;
      if ok {
        runs := runs[id := run.(target := runs[id].target, startedAt := runs[id].startedAt)];
        if run.target in locks && locks[run.target].runId == id {
          locks := locks[run.target := locks[run.target].(reloadReserved := run.reloadReserved,
                                                          rebalanceReserved := run.rebalanceReserved)];
        }
        if event.Some? {
          var existing := if id in events then events[id] else [];
          if exists e :: e in existing && e.sequenceNo == event.value.sequenceNo {
            ok := false;
          } else {
            events := events[id := existing + [event.value]];
          }
        }
        ok := ok && durable;
        if !ok {
          runs, events, locks := savedRuns, savedEvents, savedLocks;
        }
      }
    }

    method ClaimTarget(ip: Ip, id: RunId, durable: bool) returns (result: ClaimResult)
      modifies this`locks
      ensures result == if LockHeld(old(Contents()), ip) then Lost else if durable then Won else ClaimError
      ensures Contents() == if result.Won? then ClaimedBy(old(Contents()), ip, id) else old(Contents())
    {
      if ip in locks && locks[ip].active {
        return Lost;
      }
      if !durable {
        return ClaimError;
      }
      locks := locks[ip := Lock(id, false, false, 0, true)];
      result := Won;
    }

    method ReleaseTarget(ip: Ip, id: RunId, durable: bool) returns (ok: bool)
      modifies this`locks
      ensures ok <==> durable && ip in old(locks) && old(locks)[ip].runId == id
      ensures Contents() == if durable then Released(old(Contents()), ip, id) else old(Contents())
    {
      ok := durable && ip in locks && locks[ip].runId == id;
      if ok {
        locks := locks[ip := locks[ip].(active := false, streak := 0)];
      }
    }

    method ObserveTargetRecovery(ip: Ip, healthy: bool, required: nat, durable: bool) returns (released: bool)
      modifies this`locks
      ensures released <==> durable && LockHeld(old(Contents()), ip) && Unlocks(old(locks)[ip], healthy, required)
      ensures Contents() == if durable then Observed(old(Contents()), ip, healthy, required) else old(Contents())
    {
      if ip !in locks || !locks[ip].active || !durable {
        return false;
      }
      var streak := if healthy then locks[ip].streak + 1 else 0;
      released := healthy && streak >= Max(2, required);
      locks := locks[ip := locks[ip].(streak := if released then 0 else streak, active := !released)];
    }

    /** The newest end (or, for a row without one, start) of any reserved run of the whole cluster. */
    method LatestReserved() returns (latest: Option<int>)
      ensures latest.None? <==> forall id :: id in runs ==> !runs[id].reloadReserved
      ensures latest.Some? ==>
        && (forall id :: id in runs && runs[id].reloadReserved ==> EndOrStart(runs[id]) <= latest.value)
        && (exists id :: id in runs && runs[id].reloadReserved && EndOrStart(runs[id]) == latest.value)
    {
      latest := None;
      var todo := runs.Keys;
      while todo != {}
        invariant todo <= runs.Keys
        invariant latest.None? <==> forall id :: id in runs.Keys - todo ==> !runs[id].reloadReserved
        invariant latest.Some? ==>
          && (forall id :: id in runs.Keys - todo && runs[id].reloadReserved ==> EndOrStart(runs[id]) <= latest.value)
          && (exists id :: id in runs && runs[id].reloadReserved && EndOrStart(runs[id]) == latest.value)
        decreases todo
      {
        var id :| id in todo;
        var end := match runs[id].endedAt case Some(at) => at case None => runs[id].startedAt;
        if runs[id].reloadReserved && (latest.None? || latest.value < end) {
          latest := Some(end);
        }
        todo := todo - {id};
      }
    }

    method CircuitBreakerReason(ip: Ip, cooldownSeconds: nat, maxActions: nat, now: int) returns (reason: BreakerReason)
      ensures reason.Clear? <==> BreakerAllows(Contents(), ip, cooldownSeconds, maxActions, now)
      ensures reason.TargetLocked? <==> LockHeld(Contents(), ip)
      ensures reason.DailyLimit? <==>
        !LockHeld(Contents(), ip) && |ReservedSince(Contents(), ip, now - DAY)| >= maxActions
      ensures reason.CoolingDown? ==>
        && 0 < reason.remainingSeconds
        && (exists id :: id in runs && runs[id].reloadReserved
              && reason.remainingSeconds * SECOND <= EndOrStart(runs[id]) + cooldownSeconds * SECOND - now)
        && (forall id :: id in runs && runs[id].reloadReserved ==>
              EndOrStart(runs[id]) + cooldownSeconds * SECOND - now < (reason.remainingSeconds + 1) * SECOND)
    {
      if ip in locks && locks[ip].active {
        return TargetLocked;
      }
      var recent := set id | id in runs && runs[id].target == ip && runs[id].reloadReserved
                             && now - DAY <= runs[id].startedAt;
      assert recent == ReservedSince(Contents(), ip, now - DAY);
      if |recent| >= maxActions {
        return DailyLimit;
      }
      var latest := LatestReserved();
      if latest.Some? {
        var remaining := TruncatedSeconds(cooldownSeconds * SECOND - (now - latest.value));
        if remaining > 0 {
          return CoolingDown(remaining);
        }
      }
      reason := Clear;
    }

    /** Marks every row that still says `Running` as interrupted, one row at a time. */
    method RecoverInterruptedRuns(now: int, durable: bool) returns (recovered: set<RunId>, ok: bool)
      modifies this
      ensures ok == durable
      ensures recovered == if ok then RunningIds(old(Contents())) else {}
      ensures Contents() == if ok then Recovered(old(Contents()), now) else old(Contents())
    {
      ghost var before := Contents();
      var savedRuns, savedEvents := runs, events;
      var todo := set id | id in runs && runs[id].outcome.Running?;
      assert todo == RunningIds(before);
      recovered := {};
      assert Contents() == RecoveredOn(before, recovered, now);
      while todo != {}
        invariant todo !! recovered && todo + recovered == RunningIds(before)
        invariant Contents() == RecoveredOn(before, recovered, now)
        decreases todo
      {
        var id :| id in todo;
        RecoverOneMore(before, recovered, id, now);
        runs := runs[id := InterruptedRow(runs[id], now)];
        var existing := if id in events then events[id] else [];
        events := events[id := existing + [InterruptionEvent(existing)]];
        todo, recovered := todo - {id}, recovered + {id};
      }
      ok := durable;
      if !ok {
        runs, events := savedRuns, savedEvents;
        recovered := {};
      }
    }

    method Maintain(now: int)
      modifies this
      ensures Contents() == Maintained(old(Contents()), now)
    {
      var gone := set id | id in runs && Expired(Contents(), id, now);
      locks := map ip | ip in locks && locks[ip].runId !in gone :: locks[ip];
      events := events - gone;
      runs := runs - gone;
    }
  }
}
