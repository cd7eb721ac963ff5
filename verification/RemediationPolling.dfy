/** Polling until the last few polls confirm the same leader, or the time is up. */
module RemediationPolling {
  import opened Prelude
  import opened RemediationTypes
  import opened RemediationEvidence
  import opened RemediationScript

  /** The streak and its leader after one more verdict. */
  function Counted(shown: Option<Ip>, stable: nat, leader: Ip): (nat, Ip) {
    if shown.None? then (0, "")
    else if stable > 0 && shown == Some(leader) then (stable + 1, leader)
    else (1, shown.value)
  }

  /** What each poll reports and shows, whether its collections yield observations at all, and how long
      and how often to poll. */
  datatype Polling = Polling(
    script: Script,
    entry: nat -> Entry,
    verdict: nat -> Option<Ip>,
    seen: nat -> bool,
    interval: nat,
    timeout: nat,
    confirmations: nat)
  {
    ghost predicate Seen(polls: nat) {
      forall i: nat :: 1 <= i <= polls ==> seen(i)
    }

    function Verdicts(polls: nat): seq<Option<Ip>> {
      seq(polls, i requires 0 <= i < polls => verdict(i + 1))
    }

    function Reports(polls: nat): (entries: seq<Entry>)
      ensures |entries| == polls
    {
      seq(polls, i requires 0 <= i < polls => entry(i + 1))
    }

    predicate PollInTime(readings: nat, poll: nat)
      requires poll > 0
    {
      InTime(script, readings, poll, interval, timeout)
    }

    lemma PollTimes(readings: nat, poll: nat)
      requires poll > 0
      ensures PollInTime(readings, poll) == InTime(script, readings, poll, interval, timeout)
    {
    }

    ghost predicate NotYet(polls: nat) {
      Seen(polls) && NeverConfirmed(Verdicts(polls), confirmations)
    }

    /** At poll `poll` the last `confirmations` polls all named `leader`, for the first time and in time. */
    ghost predicate ConfirmedAt(readings: nat, poll: nat, leader: Ip) {
      poll > 0 && Seen(poll) && PollInTime(readings, poll) && FirstConfirmed(Verdicts(poll), confirmations, leader)
    }

    /** The time is up after `polls` polls without a confirmation. */
    ghost predicate ExpiredAt(readings: nat, polls: nat) {
      NotYet(polls) && (polls > 0 ==> PollInTime(readings, polls)) && !PollInTime(readings, polls + 1)
    }

    function PollSteps(poll: nat): Steps {
      AskAndTell(entry(poll))
    }

    /** So many polls, the last one without the wait that follows it. */
    function PolledSteps(polls: nat): Steps
      requires polls > 0
    {
      Steps(Reports(polls), 0, 2 * polls - 1, polls + 1)
    }

    function WaitedSteps(polls: nat): Steps {
      Steps(Reports(polls), 0, 2 * polls, polls + 2)
    }

    /** All polls, and the commit that follows the confirmation. */
    function ConfirmSteps(polls: nat): Steps
      requires polls > 0
    {
      Steps(Reports(polls), 1, 2 * polls - 1, polls + 1)
    }

    ghost predicate Confirms(from: Progress, poll: nat, leader: Ip) {
      ConfirmedAt(from.readings, poll, leader) && Passes(script, from, ConfirmSteps(poll))
    }

    ghost predicate Expires(from: Progress, polls: nat) {
      ExpiredAt(from.readings, polls) && Passes(script, from, WaitedSteps(polls))
    }

    // ----- the start, one more poll, one more wait

    lemma NoPollYet(leader: Ip)
      requires confirmations > 0
      ensures NotYet(0) && WaitedSteps(0) == TIMER_STARTED && Streak(Verdicts(0), 0, leader)
    {
    }

    lemma OneMorePoll(polls: nat)
      ensures Reports(polls + 1) == Reports(polls) + [entry(polls + 1)]
      ensures Verdicts(polls + 1) == Verdicts(polls) + [verdict(polls + 1)]
      ensures Seen(polls + 1) <==> Seen(polls) && seen(polls + 1)
    {
    }

    /** What one more poll makes of the count. */
    lemma OneMoreCounted(polls: nat, stable: nat, leader: Ip)
      requires Streak(Verdicts(polls), stable, leader) && stable < confirmations && NotYet(polls)
      ensures
        var next := Counted(verdict(polls + 1), stable, leader);
        && Streak(Verdicts(polls + 1), next.0, next.1)
        && (next.0 >= confirmations ==> FirstConfirmed(Verdicts(polls + 1), confirmations, next.1))
        && (seen(polls + 1) ==> Seen(polls + 1) && (next.0 < confirmations ==> NotYet(polls + 1)))
    {
      hide Verdicts, Streak, FirstConfirmed, NeverConfirmed;
      OneMorePoll(polls);
      StreakSnoc(Verdicts(polls), stable, leader, verdict(polls + 1), confirmations);
      if verdict(polls + 1).None? {
        StreakNamesAny(Verdicts(polls + 1), leader, "");
      }
    }

    lemma PollEnds(from: Progress, before: Progress, here: Progress, polls: nat)
      requires Advances(script, from, before, WaitedSteps(polls)) && Advances(script, before, here, PollSteps(polls + 1))
      ensures Advances(script, from, here, PolledSteps(polls + 1))
    {
      GoesOn(script, from, before, here, WaitedSteps(polls), PollSteps(polls + 1));
      OneMorePoll(polls);
    }

    lemma WaitEnds(from: Progress, before: Progress, here: Progress, polls: nat)
      requires polls > 0 && Advances(script, from, before, PolledSteps(polls)) && Advances(script, before, here, ONE_WAIT)
      ensures Advances(script, from, here, WaitedSteps(polls))
    {
      GoesOn(script, from, before, here, PolledSteps(polls), ONE_WAIT);
    }

    lemma SaveEnds(from: Progress, before: Progress, here: Progress, polls: nat)
      requires polls > 0 && Advances(script, from, before, PolledSteps(polls)) && Advances(script, before, here, ONE_SAVE)
      ensures Advances(script, from, here, ConfirmSteps(polls))
    {
      GoesOn(script, from, before, here, PolledSteps(polls), ONE_SAVE);
    }

    // ----- what is still ahead

    lemma VerdictsBefore(early: nat, late: nat)
      requires early <= late
      ensures Verdicts(late)[..early] == Verdicts(early)
    {
    }

    /** As long as no poll confirmed, the one that does is still to come. */
    lemma ConfirmationIsAhead(readings: nat, polls: nat, n: nat, leader: Ip)
      requires NotYet(polls) && ConfirmedAt(readings, n, leader)
      ensures polls < n && PollInTime(readings, polls + 1) && seen(polls + 1)
      ensures NotYet(polls + 1) ==> polls + 1 < n
    {
      hide Confirmed, InTime;
      assert Confirmed(Verdicts(n), confirmations, leader);
      if n <= polls {
        VerdictsBefore(n, polls);
        NotYetConfirmed(Verdicts(polls), n, confirmations, leader);
        assert false;
      }
      if NotYet(polls + 1) && n == polls + 1 {
        VerdictsBefore(n, n);
        NotYetConfirmed(Verdicts(n), n, confirmations, leader);
        assert false;
      }
      InTimeBefore(script, readings, polls + 1, n, interval, timeout);
    }

    /** Nor is the end of the time passed before the polls that it ends. */
    lemma ExpiryIsAhead(readings: nat, polls: nat, n: nat)
      requires Seen(polls) && ExpiredAt(readings, n) && (polls > 0 ==> PollInTime(readings, polls))
      ensures polls <= n
      ensures polls < n ==> PollInTime(readings, polls + 1) && seen(polls + 1)
    {
      hide NeverConfirmed, InTime;
      if n < polls {
        InTimeBefore(script, readings, n + 1, polls, interval, timeout);
        assert false;
      }
      if polls < n {
        InTimeBefore(script, readings, polls + 1, n, interval, timeout);
      }
    }

    lemma FirstIsNotYetBefore(readings: nat, n: nat, leader: Ip)
      requires ConfirmedAt(readings, n, leader)
      ensures NotYet(n - 1)
    {
      VerdictsBefore(n - 1, n);
    }

    /** There is at most one way to end. */
    lemma EndsOnce(readings: nat, m: nat, leader: Ip, n: nat, other: Ip)
      requires confirmations > 0 && ConfirmedAt(readings, m, leader)
      ensures !ExpiredAt(readings, n)
      ensures ConfirmedAt(readings, n, other) ==> m == n && leader == other
    {
      hide InTime, NeverConfirmed;
      if ExpiredAt(readings, n) {
        ConfirmationIsAhead(readings, n, m, leader);
        assert false;
      }
      if ConfirmedAt(readings, n, other) {
        FirstIsNotYetBefore(readings, m, leader);
        FirstIsNotYetBefore(readings, n, other);
        ConfirmationIsAhead(readings, m - 1, n, other);
        ConfirmationIsAhead(readings, n - 1, m, leader);
        assert Verdicts(m)[m - 1] == Some(leader);
      }
    }

    lemma ExpiresOnce(readings: nat, m: nat, n: nat)
      requires ExpiredAt(readings, m) && ExpiredAt(readings, n)
      ensures m == n
    {
      hide InTime, NeverConfirmed;
      ExpiryIsAhead(readings, m, n);
      ExpiryIsAhead(readings, n, m);
    }

    // ----- the same for all ends at once, with the steps that lead to them

    lemma PollIsAhead(from: Progress, here: Progress, polls: nat)
      requires NotYet(polls) && (polls > 0 ==> PollInTime(from.readings, polls))
      requires Advances(script, from, here, WaitedSteps(polls))
      ensures forall n: nat, leader :: Confirms(from, n, leader) ==>
        PollInTime(from.readings, polls + 1) && seen(polls + 1) && Passes(script, here, PollSteps(polls + 1))
      ensures forall n: nat :: Expires(from, n) ==>
        if PollInTime(from.readings, polls + 1) then seen(polls + 1) && Passes(script, here, PollSteps(polls + 1))
        else n == polls
    {
      hide NotYet, InTime, NeverConfirmed, FirstConfirmed, ConfirmedAt, ExpiredAt;
      forall n: nat, leader | Confirms(from, n, leader)
        ensures PollInTime(from.readings, polls + 1) && seen(polls + 1) && Passes(script, here, PollSteps(polls + 1))
      {
        ConfirmationIsAhead(from.readings, polls, n, leader);
      }
      forall n: nat | Expires(from, n)
        ensures if PollInTime(from.readings, polls + 1) then seen(polls + 1) && Passes(script, here, PollSteps(polls + 1))
                else n == polls
      {
        NotYetSeen(polls);
        ExpiryIsAhead(from.readings, polls, n);
        if PollInTime(from.readings, polls + 1) {
          NotExpired(from.readings, polls, n);
        }
      }
    }

    /** The same where the next poll is known to be in time. */
    lemma NextPollIsAhead(from: Progress, here: Progress, polls: nat)
      requires NotYet(polls) && PollInTime(from.readings, polls + 1)
      requires Advances(script, from, here, WaitedSteps(polls))
      ensures forall n: nat, leader :: Confirms(from, n, leader) ==> seen(polls + 1) && Passes(script, here, PollSteps(polls + 1))
      ensures forall n: nat :: Expires(from, n) ==> seen(polls + 1) && Passes(script, here, PollSteps(polls + 1))
    {
      hide NotYet, Advances, InTime;
      if polls > 0 {
        InTimeBefore(script, from.readings, polls, polls + 1, interval, timeout);
      }
      PollIsAhead(from, here, polls);
    }

    lemma NotYetSeen(polls: nat)
      requires NotYet(polls)
      ensures Seen(polls)
    {
    }

    lemma NotExpired(readings: nat, polls: nat, n: nat)
      requires ExpiredAt(readings, n) && PollInTime(readings, polls + 1)
      ensures n != polls
    {
    }

    lemma WaitIsAhead(from: Progress, here: Progress, polls: nat)
      requires polls > 0 && NotYet(polls) && PollInTime(from.readings, polls)
      requires Advances(script, from, here, PolledSteps(polls))
      ensures forall n: nat, leader :: Confirms(from, n, leader) ==> Passes(script, here, ONE_WAIT)
      ensures forall n: nat :: Expires(from, n) ==> Passes(script, here, ONE_WAIT)
    {
      hide NotYet, InTime, NeverConfirmed, FirstConfirmed, ConfirmedAt, ExpiredAt;
      forall n: nat, leader | Confirms(from, n, leader)
        ensures Passes(script, here, ONE_WAIT)
      {
        ConfirmationIsAhead(from.readings, polls, n, leader);
      }
      forall n: nat | Expires(from, n)
        ensures Passes(script, here, ONE_WAIT)
      {
        NotYetSeen(polls);
        ExpiryIsAhead(from.readings, polls, n);
      }
    }

    /** The polls have just been confirmed: only the commit is left, and no expiry is possible. */
    lemma SaveIsAhead(from: Progress, here: Progress, polls: nat, leader: Ip)
      requires confirmations > 0 && ConfirmedAt(from.readings, polls, leader)
      requires Advances(script, from, here, PolledSteps(polls))
      ensures forall n: nat, other :: Confirms(from, n, other) ==> Passes(script, here, ONE_SAVE)
      ensures forall n: nat :: !Expires(from, n)
      ensures Passes(script, here, ONE_SAVE) ==> Confirms(from, polls, leader)
    {
      hide NotYet, InTime, NeverConfirmed, FirstConfirmed, ConfirmedAt, ExpiredAt;
      forall n: nat, other | Confirms(from, n, other)
        ensures Passes(script, here, ONE_SAVE)
      {
        EndsOnce(from.readings, polls, leader, n, other);
      }
      forall n: nat
        ensures !Expires(from, n)
      {
        EndsOnce(from.readings, polls, leader, n, leader);
      }
      if Passes(script, here, ONE_SAVE) {
        assert ConfirmSteps(polls) == PolledSteps(polls).Then(ONE_SAVE);
      }
    }

    lemma ExpiryIsHere(from: Progress, here: Progress, polls: nat)
      requires NotYet(polls) && (polls > 0 ==> PollInTime(from.readings, polls)) && !PollInTime(from.readings, polls + 1)
      requires Advances(script, from, here, WaitedSteps(polls))
      ensures Expires(from, polls) && ExpiredAt(from.readings, polls)
      ensures forall n: nat, leader :: !Confirms(from, n, leader)
    {
      hide InTime, NeverConfirmed, FirstConfirmed;
      PollIsAhead(from, here, polls);
    }
  }
}
