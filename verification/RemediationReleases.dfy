/** Who gives up a lock: only its holder, and a run with a reservation only after post-monitoring. */
module RemediationReleases {
  import opened Prelude
  import opened RemediationTypes
  import opened RemediationStore
  import opened RemediationProtocol
  import opened RemediationRecords
  import opened RemediationWrites
  import opened RemediationLocks

  ghost predicate SeenMonitored(log: seq<Happening>, id: RunId, before: int) {
    exists m :: 0 <= m < before <= |log| && log[m].PostMonitored? && log[m].id == id
  }

  /** A run that concluded without a reservation can never acquire one. */
  ghost predicate NeverReserved(s: Sys, id: RunId) {
    && id !in s.reserved
    && (s.live.Some? && s.live.value.id == id ==> s.live.value.pc.Finalizing? && !s.live.value.run.reloadReserved)
  }

  ghost predicate ReleaseJustified(s: Sys, k: nat)
    requires k < |s.log| && s.log[k].LockReleased?
  {
    && s.log[k].id in s.begun
    && Holder(s.log[..k], s.log[k].ip) == Some(s.log[k].id)
    && (SeenMonitored(s.log, s.log[k].id, k) || NeverReserved(s, s.log[k].id))
  }

  ghost predicate ReleasesOk(s: Sys) {
    && (forall k :: 0 <= k < |s.log| && s.log[k].LockReleased? ==> ReleaseJustified(s, k))
    && (s.live.Some? && (s.live.value.pc.Monitored? || (s.live.value.pc == Finalizing(true) && s.live.value.run.reloadReserved)) ==>
          SeenMonitored(s.log, s.live.value.id, |s.log|))
  }

  /** What every step does to reservations and to the control point of a concluded run. */
  ghost predicate Forward(s: Sys, t: Sys, more: seq<Happening>) {
    && t.log == s.log + more
    && s.begun.Keys <= t.begun.Keys
    && (forall id :: id in t.reserved && id !in s.reserved ==>
          && s.live.Some? && s.live.value.id == id
          && (s.live.value.pc.Finalizing? ==> s.live.value.run.reloadReserved))
    && (t.live.Some? ==>
          || t.live.value.id !in s.begun
          || (s.live.Some?
              && t.live.value.id == s.live.value.id
              && (s.live.value.pc.Finalizing? ==>
                    t.live.value.pc == s.live.value.pc && t.live.value.run.reloadReserved == s.live.value.run.reloadReserved)))
    && (t.live.Some? && (t.live.value.pc.Monitored? || (t.live.value.pc == Finalizing(true) && t.live.value.run.reloadReserved)) ==>
          && s.live.Some? && t.live.value.id == s.live.value.id
          && (s.live.value.pc.Monitored?
              || (s.live.value.pc == Finalizing(true) && s.live.value.run.reloadReserved)
              || (|more| == 1 && more[0].PostMonitored? && more[0].id == s.live.value.id)))
  }

  lemma SeenGrows(log: seq<Happening>, more: seq<Happening>, id: RunId, before: int)
    requires SeenMonitored(log, id, before)
    ensures SeenMonitored(log + more, id, before)
  {
    var m :| 0 <= m < before && log[m].PostMonitored? && log[m].id == id;
    assert (log + more)[m] == log[m];
  }

  lemma JustifiedGrows(s: Sys, t: Sys, more: seq<Happening>, k: nat)
    requires Forward(s, t, more) && k < |s.log| && s.log[k].LockReleased? && ReleaseJustified(s, k)
    ensures ReleaseJustified(t, k)
  {
    assert t.log[..k] == s.log[..k];
    if SeenMonitored(s.log, s.log[k].id, k) {
      SeenGrows(s.log, more, s.log[k].id, k);
    }
  }

  lemma ForwardKeepsReleases(s: Sys, t: Sys, more: seq<Happening>)
    requires ReleasesOk(s) && Forward(s, t, more)
    requires forall k :: 0 <= k < |more| && more[k].LockReleased? ==> k == 0 && ReleaseJustified(t, |s.log|)
    ensures ReleasesOk(t)
  {
    forall k | 0 <= k < |t.log| && t.log[k].LockReleased?
      ensures ReleaseJustified(t, k)
    {
      if k < |s.log| {
        JustifiedGrows(s, t, more, k);
      } else {
        assert t.log[k] == more[k - |s.log|];
      }
    }
    if t.live.Some? && (t.live.value.pc.Monitored? || (t.live.value.pc == Finalizing(true) && t.live.value.run.reloadReserved)) {
      if |more| == 1 && more[0].PostMonitored? && more[0].id == s.live.value.id {
        assert t.log[|s.log|] == more[0];
      } else {
        SeenGrows(s.log, more, s.live.value.id, |s.log|);
        assert SeenMonitored(t.log, t.live.value.id, |t.log|);
      }
    }
  }

  // ----- every step moves forward

  lemma PlanMovesForward(live: Live, a: Action)
    requires EnabledLive(live, a) && IsCommit(a)
    ensures
      var plan := Planned(live, a);
      && (live.pc.Finalizing? ==> plan.next == live.pc && plan.run.reloadReserved == live.run.reloadReserved)
      && (plan.next.Finalizing? ==> live.pc.Finalizing?)
      && (plan.next.Monitored? ==> live.pc.Monitored? || plan.happened == [PostMonitored(live.id, true)])
  {
  }

  lemma CommitMovesForward(s: Sys, a: Action)
    requires RecordsOk(s) && s.live.Some? && EnabledLive(s.live.value, a) && IsCommit(a)
    ensures Forward(s, ApplyLive(s, a), if a.durable then Planned(s.live.value, a).happened else [])
  {
    hide RowsOk, EventsOk, Planned;
    PlanIsModest(s.live.value, a);
    PlanMovesForward(s.live.value, a);
    if a.durable {
      var t := CommitShape(s, Planned(s.live.value, a));
    } else {
      FailureMovesForward(s, ApplyLive(s, a), Planned(s.live.value, a));
    }
  }

  lemma FailureMovesForward(s: Sys, t: Sys, plan: Commit)
    requires LiveOk(s) && s.live.Some?
    requires s.live.value.pc.Finalizing? ==> plan.run.reloadReserved == s.live.value.run.reloadReserved
    requires t == s.(live := AfterFailure(s.live.value, plan.run,
               if plan.event.Some? then s.live.value.sequence + 1 else s.live.value.sequence))
    ensures Forward(s, t, [])
  {
  }

  lemma PlainStepMovesForward(s: Sys, a: Action) returns (more: seq<Happening>)
    requires LiveOk(s) && s.live.Some? && EnabledLive(s.live.value, a) && !IsCommit(a) && !a.Unlock?
    ensures Forward(s, ApplyLive(s, a), more)
    ensures forall k :: 0 <= k < |more| ==> !more[k].LockReleased?
  {
    more := if a.SeeMmUp? then [SawMmUp(s.live.value.id)]
            else if a.WriteReload? then [ReloadSent(s.live.value.id, s.live.value.run.target)]
            else if a.WriteRebalance? then [RebalanceSent(s.live.value.id, s.live.value.pc.leader)]
            else if a.GiveUpMonitoring? then [PostMonitored(s.live.value.id, false)]
            else if a.ClaimLock? && a.durable && !LockHeld(s.db, s.live.value.run.target)
            then [LockClaimed(s.live.value.id, s.live.value.run.target)]
            else [];
  }

  lemma OutsideStepMovesForward(c: Config, s: Sys, a: Action) returns (more: seq<Happening>)
    requires Enabled(c, s, a) && !IsLiveStep(a)
    ensures Forward(s, Apply(c, s, a), more)
    ensures forall k :: 0 <= k < |more| ==> !more[k].LockReleased?
  {
    hide BreakerAllows, Maintained, Recovered, Updated, Observed;
    more := if a.Observe? && a.durable then [Apply(c, s, a).log[|s.log|]] else [];
    assert Apply(c, s, a).log == s.log + more;
  }

  lemma UnlockKeepsReleases(s: Sys, a: Action)
    requires LiveOk(s) && LiveFlagsOk(s) && ReplayOk(s) && ReleasesOk(s)
    requires s.live.Some? && EnabledLive(s.live.value, a) && a.Unlock?
    ensures ReleasesOk(ApplyLive(s, a))
  {
    var t := ApplyLive(s, a);
    var live := s.live.value;
    if t.log == s.log {
      assert t.log == s.log + [];
      ForwardKeepsReleases(s, t, []);
    } else {
      var h := LockReleased(live.id, live.run.target);
      assert t.log == s.log + [h] && t.log[..|s.log|] == s.log;
      assert Holder(s.log, live.run.target) == Some(live.id);
      if live.run.reloadReserved {
        SeenGrows(s.log, [h], live.id, |s.log|);
      }
      ForwardKeepsReleases(s, t, [h]);
    }
  }

  lemma StepKeepsReleases(c: Config, s: Sys, a: Action)
    requires RecordsOk(s) && LiveFlagsOk(s) && ReplayOk(s) && ReleasesOk(s) && Enabled(c, s, a)
    ensures ReleasesOk(Apply(c, s, a))
  {
    hide RowsOk, EventsOk, LiveFlagsOk, ReplayOk, ReleasesOk;
    if IsLiveStep(a) {
      LiveStepOnly(c, s, a);
      if IsCommit(a) {
        CommitMovesForward(s, a);
        PlanLogs(s.live.value, a);
        ForwardKeepsReleases(s, ApplyLive(s, a), if a.durable then Planned(s.live.value, a).happened else []);
      } else if a.Unlock? {
        UnlockKeepsReleases(s, a);
      } else {
        var more := PlainStepMovesForward(s, a);
        ForwardKeepsReleases(s, ApplyLive(s, a), more);
      }
    } else {
      var more := OutsideStepMovesForward(c, s, a);
      ForwardKeepsReleases(s, Apply(c, s, a), more);
    }
  }
}
