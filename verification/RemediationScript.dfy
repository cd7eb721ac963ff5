/** What surrounds a workflow, and how far a workflow has come in it.

    A script answers everything the workflow asks: whether a commit succeeds, how much time passes, whether
    the operator cancelled, what MM and the cluster show, how SSH behaves. It is arbitrary, so what holds
    for every script holds in every environment. */
module RemediationScript {
  import opened Prelude
  import opened RemediationTypes
  import opened RemediationEvidence
  import opened SshActions

  datatype Session = SessionOpened | SshFailed(retryable: bool, code: string) | OtherFailure

  /** `durable`, `delay` and `cancelled` are asked in turn: by the n-th commit, reading of the clock and
      question to the operator. */
  datatype Script = Script(
    durable: nat -> bool,
    delay: nat -> nat,
    cancelled: nat -> bool,
    preflightPasses: bool,
    fingerprintUnchanged: bool,
    precheck: Poll<MmObservation>,
    preCluster: Poll<ClusterObservation>,
    targetSessions: nat -> Session,
    leaderSessions: nat -> Session,
    reload: ChannelScript,
    rebalance: ChannelScript,
    mmUp: nat -> Poll<MmObservation>,
    discoveries: nat -> Poll<ClusterObservation>,
    leaderViews: (nat, Ip) -> Poll<ClusterObservation>,
    gateMembership: Poll<ClusterObservation>,
    gateMm: Poll<MmObservation>,
    postMm: nat -> Poll<MmObservation>,
    postCluster: nat -> Poll<ClusterObservation>,
    reportWritten: bool)

  /** An exception inside the guarded region is `Stop`: it decides how the run is concluded. */
  datatype Flow<+T> = Ok(value: T) | Stop(outcome: Outcome, code: Code)

  predicate Abnormal(outcome: Outcome) {
    outcome.Failed? || outcome.Stopped?
  }

  const UNEXPECTED := Text("UNEXPECTED_REMEDIATION_ERROR")
  const OPERATOR_STOPPED := Text("OPERATOR_STOPPED")

  /** How the guarded region ends on an exception: only a cancelled SSH operation counts as stopped. */
  function Caught<T>(error: Exception): (flow: Flow<T>)
    ensures flow.Stop? && Abnormal(flow.outcome)
  {
    match error
    case SshError(code) => Stop(if code == CANCELLED then Stopped else Failed, Text(code))
    case OtherError => Stop(Failed, UNEXPECTED)
  }

  /** What an error makes of the run. */
  ghost predicate EndsWith(error: Exception, outcome: Outcome, code: Code) {
    match error
    case SshError(text) => outcome == (if text == "CANCELLED" then Stopped else Failed) && code == Text(text)
    case OtherError => outcome == Failed && code == UNEXPECTED
  }

  ghost predicate Raises<T>(poll: Poll<T>, outcome: Outcome, code: Code) {
    poll.PollRaised? && EndsWith(poll.error, outcome, code)
  }

  // ----- the audit trail

  /** What an audit event tells, apart from its number. */
  datatype Entry = Entry(stage: Stage, code: Code)

  function Entries(events: seq<Event>): seq<Entry> {
    seq(|events|, i requires 0 <= i < |events| => Entry(events[i].stage, events[i].code))
  }

  function EntryOf(event: Option<Event>): (entries: seq<Entry>)
    ensures |entries| == if event.Some? then 1 else 0
  {
    if event.Some? then [Entry(event.value.stage, event.value.code)] else []
  }

  // ----- progress

  /** The stored audit trail, and how many events were numbered, commits tried, questions put to the
      operator and readings taken of the clock. */
  datatype Progress = Progress(told: seq<Entry>, numbered: nat, commits: nat, asked: nat, readings: nat)

  /** A stretch of the workflow in which nothing fails: the audit entries it adds, and how many further
      commits, questions and readings it takes. */
  datatype Steps = Steps(entries: seq<Entry>, plain: nat, asked: nat, readings: nat)
  {
    function Commits(): nat {
      |entries| + plain
    }

    function Then(next: Steps): Steps {
      Steps(entries + next.entries, plain + next.plain, asked + next.asked, readings + next.readings)
    }
  }

  const NO_STEPS := Steps([], 0, 0, 0)
  const ONE_SAVE := Steps([], 1, 0, 0)
  const TWO_SAVES := Steps([], 2, 0, 0)
  const ONE_QUESTION := Steps([], 0, 1, 0)
  const ONE_WAIT := Steps([], 0, 1, 1)
  const TIMER_STARTED := Steps([], 0, 0, 2)

  function Told(entry: Entry): Steps {
    Steps([entry], 0, 0, 0)
  }

  /** The next `commits` commits succeed and the next `asked` questions are not answered by a stop. */
  ghost predicate Clear(script: Script, from: Progress, commits: nat, asked: nat) {
    && (forall i: nat :: from.commits <= i < from.commits + commits ==> script.durable(i))
    && (forall i: nat :: from.asked <= i < from.asked + asked ==> !script.cancelled(i))
  }

  /** `steps` can be taken from here without a failing commit or a stop by the operator. */
  ghost predicate Passes(script: Script, from: Progress, steps: Steps) {
    Clear(script, from, steps.Commits(), steps.asked)
  }

  function After(before: Progress, steps: Steps): Progress {
    Progress(before.told + steps.entries, before.numbered + |steps.entries|, before.commits + steps.Commits(),
             before.asked + steps.asked, before.readings + steps.readings)
  }

  /** From `before` to `after` exactly `steps` were taken, and nothing hindered them. */
  ghost predicate Advances(script: Script, before: Progress, after: Progress, steps: Steps) {
    after == After(before, steps) && Passes(script, before, steps)
  }

  /** Stopped from outside, for the first time and just now: the operator said so, or a commit failed. */
  ghost predicate Halts(script: Script, before: Progress, after: Progress, outcome: Outcome, code: Code) {
    && before.told <= after.told && before.commits <= after.commits && before.asked <= after.asked
    && if outcome.Stopped?
       then code == OPERATOR_STOPPED && before.asked < after.asked && script.cancelled(after.asked - 1)
            && Clear(script, before, after.commits - before.commits, after.asked - 1 - before.asked)
       else outcome == Failed && code == UNEXPECTED && before.commits < after.commits && !script.durable(after.commits - 1)
            && Clear(script, before, after.commits - 1 - before.commits, after.asked - before.asked)
  }

  lemma NothingYet(script: Script, here: Progress)
    ensures Advances(script, here, here, NO_STEPS)
  {
    assert here.told + [] == here.told;
  }

  /** One commit was tried: the steps were taken, or the run is halted. */
  lemma OneCommit(script: Script, before: Progress, after: Progress, steps: Steps, ok: bool)
    requires steps.Commits() == 1 && steps.asked == 0 && ok == script.durable(before.commits)
    requires after == if ok then After(before, steps) else After(before, steps).(told := before.told)
    ensures ok == Passes(script, before, steps)
    ensures if ok then Advances(script, before, after, steps) else Halts(script, before, after, Failed, UNEXPECTED)
  {
  }

  lemma GoesOn(script: Script, a: Progress, b: Progress, c: Progress, first: Steps, second: Steps)
    requires Advances(script, a, b, first) && Advances(script, b, c, second)
    ensures Advances(script, a, c, first.Then(second))
  {
    assert a.told + first.entries + second.entries == a.told + (first.entries + second.entries);
  }

  lemma GoesOnToHalt(script: Script, a: Progress, b: Progress, c: Progress, first: Steps, outcome: Outcome, code: Code)
    requires Advances(script, a, b, first) && Halts(script, b, c, outcome, code)
    ensures Halts(script, a, c, outcome, code)
  {
    assert a.told + first.entries <= c.told;
  }

  lemma GoesOnToHaltIf(script: Script, a: Progress, b: Progress, c: Progress, first: Steps, outcome: Outcome, code: Code)
    requires Advances(script, a, b, first)
    ensures Halts(script, b, c, outcome, code) ==> Halts(script, a, c, outcome, code)
  {
    if Halts(script, b, c, outcome, code) {
      GoesOnToHalt(script, a, b, c, first, outcome, code);
    }
  }

  /** What can be taken from the start can, after a first part of it, be taken from there. */
  lemma PassesOn(script: Script, a: Progress, b: Progress, first: Steps, second: Steps, all: Steps)
    requires Advances(script, a, b, first)
    requires first.Commits() + second.Commits() <= all.Commits() && first.asked + second.asked <= all.asked
    ensures Passes(script, a, all) ==> Passes(script, b, second)
  {
  }

  lemma FirstPart(script: Script, from: Progress, first: Steps, second: Steps, all: Steps)
    requires first.Then(second) == all
    ensures Passes(script, from, all) ==> Passes(script, from, first)
  {
  }

  /** The first part was taken: whatever now becomes of the second part, becomes of the whole. */
  lemma InTwoParts(script: Script, a: Progress, b: Progress, c: Progress, first: Steps, second: Steps, all: Steps,
                   outcome: Outcome, code: Code)
    requires Advances(script, a, b, first) && first.Then(second) == all
    ensures Passes(script, a, all) <==> Passes(script, b, second)
    ensures Advances(script, b, c, second) ==> Advances(script, a, c, all)
    ensures Halts(script, b, c, outcome, code) ==> Halts(script, a, c, outcome, code)
  {
    if Advances(script, b, c, second) {
      GoesOn(script, a, b, c, first, second);
    }
    if Halts(script, b, c, outcome, code) {
      GoesOnToHalt(script, a, b, c, first, outcome, code);
    }
  }

  /** A question to the operator, and an audit event after it. */
  function AskAndTell(entry: Entry): Steps {
    Steps([entry], 0, 1, 0)
  }

  lemma QuestionComesFirst(script: Script, from: Progress, entry: Entry)
    ensures Passes(script, from, AskAndTell(entry)) ==> Passes(script, from, ONE_QUESTION)
  {
  }

  lemma AskedAndTold(script: Script, a: Progress, b: Progress, c: Progress, entry: Entry)
    requires Advances(script, a, b, ONE_QUESTION)
    ensures Passes(script, a, AskAndTell(entry)) <==> Passes(script, b, Told(entry))
    ensures Advances(script, b, c, Told(entry)) ==> Advances(script, a, c, AskAndTell(entry))
    ensures Halts(script, b, c, Failed, UNEXPECTED) ==> Halts(script, a, c, Failed, UNEXPECTED)
  {
    InTwoParts(script, a, b, c, ONE_QUESTION, Told(entry), AskAndTell(entry), Failed, UNEXPECTED);
  }

  /** Some steps lead from `start` to `here`, and `rest` remains of `all`. */
  ghost predicate OnTheWay(script: Script, start: Progress, here: Progress, rest: Steps, all: Steps) {
    exists done :: Advances(script, start, here, done) && done.Then(rest) == all
  }

  lemma SetsOut(script: Script, start: Progress, all: Steps)
    ensures OnTheWay(script, start, start, all, all)
  {
    NothingYet(script, start);
    assert NO_STEPS.Then(all) == all by {
      assert [] + all.entries == all.entries;
    }
  }

  lemma Proceeds(script: Script, start: Progress, here: Progress, there: Progress, part: Steps, rest: Steps, all: Steps)
    requires OnTheWay(script, start, here, part.Then(rest), all) && Advances(script, here, there, part)
    ensures OnTheWay(script, start, there, rest, all)
  {
    var done :| Advances(script, start, here, done) && done.Then(part.Then(rest)) == all;
    GoesOn(script, start, here, there, done, part);
    assert done.entries + part.entries + rest.entries == done.entries + (part.entries + rest.entries);
    assert done.Then(part).Then(rest) == all;
  }

  /** What can be taken from the start can be taken on the way; in particular its next part. */
  lemma NextPart(script: Script, start: Progress, here: Progress, part: Steps, rest: Steps, all: Steps)
    requires OnTheWay(script, start, here, part.Then(rest), all)
    ensures Passes(script, start, all) ==> Passes(script, here, part)
  {
    var done :| Advances(script, start, here, done) && done.Then(part.Then(rest)) == all;
    PassesOn(script, start, here, done, part, all);
  }

  lemma LastPart(script: Script, start: Progress, here: Progress, there: Progress, rest: Steps, all: Steps)
    requires OnTheWay(script, start, here, rest, all)
    ensures Passes(script, start, all) ==> Passes(script, here, rest)
    ensures Advances(script, here, there, rest) ==> Advances(script, start, there, all) && Passes(script, start, all)
  {
    var done :| Advances(script, start, here, done) && done.Then(rest) == all;
    PassesOn(script, start, here, done, rest, all);
    if Advances(script, here, there, rest) {
      GoesOn(script, start, here, there, done, rest);
    }
  }

  lemma BreaksOff(script: Script, start: Progress, here: Progress, there: Progress, rest: Steps, all: Steps,
                  outcome: Outcome, code: Code)
    requires OnTheWay(script, start, here, rest, all)
    ensures Halts(script, here, there, outcome, code) ==> Halts(script, start, there, outcome, code)
  {
    if Halts(script, here, there, outcome, code) {
      var done :| Advances(script, start, here, done) && done.Then(rest) == all;
      GoesOnToHalt(script, start, here, there, done, outcome, code);
    }
  }

  // ----- time

  /** What `n` readings of the clock from the given one on add to the time. */
  function Delays(script: Script, from: nat, n: nat): nat {
    if n == 0 then 0 else Delays(script, from, n - 1) + script.delay(from + n - 1)
  }

  /** In a loop that starts its timer after `readings` readings and waits `interval` seconds between polls,
      the time is not yet up when poll number `poll` is about to begin. */
  predicate InTime(script: Script, readings: nat, poll: nat, interval: nat, timeout: nat)
    requires poll > 0
  {
    (poll - 1) * interval * SECOND + Delays(script, readings + 1, poll) < timeout * SECOND
  }

  /** The clock after so many polls and waits of such a loop. */
  predicate Clocked(script: Script, readings: nat, polls: nat, interval: nat, started: int, clock: int) {
    clock == started + polls * interval * SECOND + Delays(script, readings + 1, polls + 1)
  }

  lemma ClockStarts(script: Script, readings: nat, interval: nat, started: int, clock: int)
    requires clock == started + Delays(script, readings + 1, 1)
    ensures Clocked(script, readings, 0, interval, started, clock)
  {
  }

  lemma ClockGoesOn(script: Script, readings: nat, polls: nat, interval: nat, started: int, before: int, clock: int)
    requires Clocked(script, readings, polls, interval, started, before)
    requires clock == before + interval * SECOND + script.delay(readings + 2 + polls)
    ensures Clocked(script, readings, polls + 1, interval, started, clock)
  {
    assert (polls + 1) * interval * SECOND == polls * interval * SECOND + interval * SECOND;
  }

  /** The loop's comparison of the clock with its deadline decides whether the next poll is in time. */
  lemma ClockTells(script: Script, readings: nat, polls: nat, interval: nat, timeout: nat, started: int, clock: int)
    requires Clocked(script, readings, polls, interval, started, clock) && interval > 0
    ensures clock < started + timeout * SECOND <==> InTime(script, readings, polls + 1, interval, timeout)
    ensures clock < started + timeout * SECOND ==> polls + 1 <= CeilDiv(timeout, interval)
  {
    if clock < started + timeout * SECOND {
      PollsInTime(script, readings, polls + 1, interval, timeout);
    }
  }

  lemma {:induction false} InTimeBefore(script: Script, readings: nat, early: nat, late: nat, interval: nat, timeout: nat)
    requires 0 < early <= late && InTime(script, readings, late, interval, timeout)
    ensures InTime(script, readings, early, interval, timeout)
    decreases late - early
  {
    if early < late {
      InTimeStepBack(script, readings, late, interval, timeout);
      InTimeBefore(script, readings, early, late - 1, interval, timeout);
    }
  }

  lemma InTimeStepBack(script: Script, readings: nat, late: nat, interval: nat, timeout: nat)
    requires late > 1 && InTime(script, readings, late, interval, timeout)
    ensures InTime(script, readings, late - 1, interval, timeout)
  {
    assert (late - 1) * interval == (late - 2) * interval + interval;
    assert (late - 1) * interval * SECOND >= (late - 2) * interval * SECOND;
  }

  /** So there are at most ceil(timeout / interval) polls. */
  lemma PollsInTime(script: Script, readings: nat, poll: nat, interval: nat, timeout: nat)
    requires poll > 0 && interval > 0 && InTime(script, readings, poll, interval, timeout)
    ensures poll <= CeilDiv(timeout, interval)
  {
    assert (poll - 1) * interval * SECOND < timeout * SECOND;
    PollFits(poll - 1, interval, timeout);
  }
}
