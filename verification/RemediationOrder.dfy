/** The order of a run: no rebalance without the reload result, a complete MM Up, a confirmed rejoin
    and a passed gate before it, and no completion without the whole chain. */
module RemediationOrder {
  import opened Prelude
  import opened RemediationTypes
  import opened RemediationStore
  import opened RemediationProtocol
  import opened RemediationRecords
  import opened RemediationWrites

  function UpToGate(id: RunId, leader: Ip): seq<Happening> {
    [ReloadSettled(id), SawMmUp(id), RejoinConfirmed(id, leader), GatePassed(id, leader)]
  }

  function UpToRebalance(id: RunId, leader: Ip): seq<Happening> {
    UpToGate(id, leader) + [RebalanceSent(id, leader)]
  }

  function WholeChain(id: RunId, leader: Ip): seq<Happening> {
    UpToRebalance(id, leader) + [PostMonitored(id, true)]
  }

  /** What must already have happened when control is at `live.pc`. */
  function Behind(live: Live): seq<Happening> {
    var id := live.id;
    match live.pc
    case AwaitingMm => [ReloadSettled(id)]
    case AwaitingRejoin => [ReloadSettled(id), SawMmUp(id)]
    case Rejoined(leader) => [ReloadSettled(id), SawMmUp(id), RejoinConfirmed(id, leader)]
    case Gated(leader) => UpToGate(id, leader)
    case RebalanceReserved(leader) => UpToGate(id, leader)
    case RebalanceWritten(leader) => UpToRebalance(id, leader)
    case Monitoring(leader) => if live.run.rebalanceConfirmed then UpToRebalance(id, leader) else UpToGate(id, leader)
    case Monitored(leader, healthy) =>
      if !live.run.rebalanceConfirmed then UpToGate(id, leader)
      else if healthy then WholeChain(id, leader)
      else UpToRebalance(id, leader)
    case _ => []
  }

  ghost predicate ChainSeen(log: seq<Happening>, id: RunId) {
    exists leader :: Subsequence(WholeChain(id, leader), log)
  }

  ghost predicate RebalancesOrdered(log: seq<Happening>) {
    forall i :: 0 <= i < |log| && log[i].RebalanceSent? ==> Subsequence(UpToGate(log[i].id, log[i].leader), log[..i])
  }

  ghost predicate CompletedSeen(s: Sys) {
    && (forall id :: id in s.db.runs && s.db.runs[id].outcome.Completed? ==>
          s.db.runs[id].rebalanceConfirmed && ChainSeen(s.log, id))
  }

  ghost predicate ConfirmedLate(live: Live) {
    live.run.rebalanceConfirmed ==> Rank(live.pc) >= Rank(RebalanceRefused)
  }

  ghost predicate LiveOrderOk(s: Sys) {
    s.live.Some? ==>
      && Subsequence(Behind(s.live.value), s.log)
      && ConfirmedLate(s.live.value)
      && (s.live.value.run.outcome.Completed? ==>
            && s.live.value.pc.Finalizing?
            && s.live.value.run.rebalanceConfirmed
            && ChainSeen(s.log, s.live.value.id))
  }

  ghost predicate OrderOk(s: Sys) {
    LiveOrderOk(s) && RebalancesOrdered(s.log) && CompletedSeen(s)
  }

  lemma ChainGrows(log: seq<Happening>, more: seq<Happening>, id: RunId)
    requires ChainSeen(log, id)
    ensures ChainSeen(log + more, id)
  {
    var leader :| Subsequence(WholeChain(id, leader), log);
    SubsequenceGrows(WholeChain(id, leader), log, more);
  }

  /** The log grew by `more`; outcomes other than the live run's are untouched. */
  ghost predicate OrderFrame(s: Sys, t: Sys, more: seq<Happening>) {
    && t.log == s.log + more
    && (forall i :: 0 <= i < |more| && more[i].RebalanceSent? ==>
          i == 0 && Subsequence(UpToGate(more[i].id, more[i].leader), s.log))
    && (forall id :: id in t.db.runs && t.db.runs[id].outcome.Completed? ==>
          || (id in s.db.runs && s.db.runs[id].outcome.Completed?
              && t.db.runs[id].rebalanceConfirmed == s.db.runs[id].rebalanceConfirmed)
          || (s.live.Some? && s.live.value.id == id && s.live.value.run.outcome.Completed?
              && t.db.runs[id].rebalanceConfirmed == s.live.value.run.rebalanceConfirmed))
  }

  lemma FramedStepKeepsCompleted(s: Sys, t: Sys, more: seq<Happening>)
    requires OrderFrame(s, t, more) && OrderOk(s)
    ensures RebalancesOrdered(t.log) && CompletedSeen(t)
  {
    forall i | 0 <= i < |t.log| && t.log[i].RebalanceSent?
      ensures Subsequence(UpToGate(t.log[i].id, t.log[i].leader), t.log[..i])
    {
      if i < |s.log| {
        assert t.log[..i] == s.log[..i];
      } else {
        assert t.log[i] == more[i - |s.log|];
        assert t.log[..i] == s.log;
      }
    }
    forall id | id in t.db.runs && t.db.runs[id].outcome.Completed?
      ensures t.db.runs[id].rebalanceConfirmed && ChainSeen(t.log, id)
    {
      ChainGrows(s.log, more, id);
    }
  }

  /** How what lies behind the control point changes when `more` happens. */
  ghost predicate Extends(before: seq<Happening>, after: seq<Happening>, more: seq<Happening>) {
    || after == before
    || after == []
    || (|more| == 1 && after == before + more)
    || (|before| > 0 && after == before[..|before| - 1])
  }

  lemma ExtendsKeepsSubsequence(before: seq<Happening>, after: seq<Happening>, log: seq<Happening>, more: seq<Happening>)
    requires Extends(before, after, more) && Subsequence(before, log)
    ensures Subsequence(after, log + more)
  {
    if after == before {
      SubsequenceGrows(before, log, more);
    } else if |more| == 1 && after == before + more {
      SubsequenceSnoc(before, log, more[0]);
      assert more == [more[0]];
    } else if after != [] {
      assert before == after + [before[|before| - 1]];
      SubsequencePrefix(after, before[|before| - 1], log);
      SubsequenceGrows(after, log, more);
    }
  }

  lemma PlanExtendsBehind(live: Live, a: Action, after: Live)
    requires EnabledLive(live, a) && IsCommit(a) && ConfirmedLate(live)
    requires
      var plan := Planned(live, a);
      after.id == live.id && after.run == plan.run && after.pc == plan.next
    ensures Extends(Behind(live), Behind(after), Planned(live, a).happened)
  {
  }

  /** Only the rebalance result decides `rebalanceConfirmed`, and never in a concluded run. */
  lemma PlanKeepsOutcome(live: Live, a: Action)
    requires EnabledLive(live, a) && IsCommit(a)
    ensures Planned(live, a).run.outcome == live.run.outcome
    ensures live.pc.Finalizing? ==> Planned(live, a).run.rebalanceConfirmed == live.run.rebalanceConfirmed
  {
    assert live.pc.Finalizing? <==> a.FinalCommit?;
  }

  lemma PlanConfirmsLate(live: Live, a: Action)
    requires EnabledLive(live, a) && IsCommit(a) && ConfirmedLate(live)
    ensures Planned(live, a).run.rebalanceConfirmed ==> Rank(Planned(live, a).next) >= Rank(RebalanceRefused)
  {
  }

  lemma CommitKeepsOrder(s: Sys, a: Action)
    requires RecordsOk(s) && OrderOk(s) && s.live.Some? && EnabledLive(s.live.value, a) && IsCommit(a)
    ensures OrderOk(ApplyLive(s, a))
  {
    hide RowsOk, EventsOk, RebalancesOrdered, CompletedSeen, Subsequence, ChainSeen, Planned, Behind;
    var live := s.live.value;
    var plan := Planned(live, a);
    PlanIsModest(live, a);
    PlanKeepsOutcome(live, a);
    PlanLogs(live, a);
    if a.durable {
      var t := CommitShape(s, plan);
      CommitKeepsLiveOrder(s, t, a);
      CommitIsOrderFramed(s, t, plan);
      FramedStepKeepsCompleted(s, t, plan.happened);
    } else {
      FailureKeepsOrder(s, plan);
    }
  }

  lemma CommitIsOrderFramed(s: Sys, t: Sys, plan: Commit)
    requires CommitsTo(s, t, plan) && plan.run.outcome == s.live.value.run.outcome
    requires s.live.value.run.outcome.Completed? ==>
      s.live.value.pc.Finalizing? && plan.run.rebalanceConfirmed == s.live.value.run.rebalanceConfirmed
    requires QuietEntries(plan.happened)
    ensures OrderFrame(s, t, plan.happened)
  {
  }

  lemma CommitKeepsLiveOrder(s: Sys, t: Sys, a: Action)
    requires LiveOrderOk(s) && s.live.Some? && t.live.Some? && EnabledLive(s.live.value, a) && IsCommit(a)
    requires
      var plan := Planned(s.live.value, a);
      && t.log == s.log + plan.happened
      && t.live.value.id == s.live.value.id && t.live.value.run == plan.run && t.live.value.pc == plan.next
      && (plan.next.Finalizing? <==> s.live.value.pc.Finalizing?)
    ensures LiveOrderOk(t)
  {
    var plan := Planned(s.live.value, a);
    PlanKeepsOutcome(s.live.value, a);
    PlanConfirmsLate(s.live.value, a);
    PlanExtendsBehind(s.live.value, a, t.live.value);
    ExtendsKeepsSubsequence(Behind(s.live.value), Behind(t.live.value), s.log, plan.happened);
    if s.live.value.run.outcome.Completed? {
      ChainGrows(s.log, plan.happened, s.live.value.id);
    }
  }

  lemma FailureKeepsOrder(s: Sys, plan: Commit)
    requires OrderOk(s) && s.live.Some? && plan.run.outcome == s.live.value.run.outcome
    requires s.live.value.run.outcome.Completed? ==> plan.run.rebalanceConfirmed
    ensures OrderOk(s.(live := AfterFailure(s.live.value, plan.run,
              if plan.event.Some? then s.live.value.sequence + 1 else s.live.value.sequence)))
  {
  }

  /** The steps that do not commit, seen from the order of the run. */
  ghost predicate PlainOrderFrame(s: Sys, t: Sys, more: seq<Happening>) {
    && s.live.Some?
    && t.log == s.log + more
    && (forall i :: 0 <= i < |more| && more[i].RebalanceSent? ==>
          i == 0 && UpToGate(more[i].id, more[i].leader) == Behind(s.live.value))
    && (forall id :: id in t.db.runs && t.db.runs[id].outcome.Completed? ==>
          id in s.db.runs && t.db.runs[id] == s.db.runs[id])
    && (t.live.Some? ==>
          && t.live.value.id == s.live.value.id
          && t.live.value.run.rebalanceConfirmed == s.live.value.run.rebalanceConfirmed
          && Rank(s.live.value.pc) <= Rank(t.live.value.pc)
          && Extends(Behind(s.live.value), Behind(t.live.value), more)
          && (t.live.value.run.outcome.Completed? ==>
                && t.live.value.pc.Finalizing?
                && t.live.value.run.rebalanceConfirmed
                && (s.live.value.run.outcome.Completed? || exists leader :: Behind(s.live.value) == WholeChain(t.live.value.id, leader))))
  }

  /** The entries that a step without a commit adds to the log. */
  function PlainEntries(live: Live, a: Action): seq<Happening>
    requires EnabledLive(live, a)
  {
    match a
    case SeeMmUp => [SawMmUp(live.id)]
    case WriteRebalance => [RebalanceSent(live.id, live.pc.leader)]
    case GiveUpMonitoring => [PostMonitored(live.id, false)]
    case WriteReload => [ReloadSent(live.id, live.run.target)]
    case ClaimLock(_) => [LockClaimed(live.id, live.run.target)]
    case Unlock(_) => [LockReleased(live.id, live.run.target)]
    case _ => []
  }

  lemma PlainStepLogs(s: Sys, a: Action) returns (more: seq<Happening>)
    requires s.live.Some? && EnabledLive(s.live.value, a) && !IsCommit(a)
    ensures ApplyLive(s, a).log == s.log + more
    ensures more == PlainEntries(s.live.value, a) || (more == [] && (a.ClaimLock? || a.Unlock?))
  {
    more := if ApplyLive(s, a).log == s.log then [] else PlainEntries(s.live.value, a);
  }

  lemma PlainStepMovesLive(s: Sys, a: Action, more: seq<Happening>)
    requires s.live.Some? && EnabledLive(s.live.value, a) && !IsCommit(a)
    requires more == PlainEntries(s.live.value, a) || (more == [] && (a.ClaimLock? || a.Unlock?))
    ensures
      var live, t := s.live.value, ApplyLive(s, a);
      t.live.Some? ==>
        && t.live.value.id == live.id
        && t.live.value.run.rebalanceConfirmed == live.run.rebalanceConfirmed
        && Rank(live.pc) <= Rank(t.live.value.pc)
        && Extends(Behind(live), Behind(t.live.value), more)
  {
    if a.Conclude? {
      assert Behind(ApplyLive(s, a).live.value) == [];
    }
  }

  lemma PlainStepCompletes(s: Sys, a: Action)
    requires LiveOrderOk(s) && s.live.Some? && EnabledLive(s.live.value, a) && !IsCommit(a)
    ensures
      var live, t := s.live.value, ApplyLive(s, a);
      t.live.Some? && t.live.value.run.outcome.Completed? ==>
        && t.live.value.pc.Finalizing?
        && t.live.value.run.rebalanceConfirmed
        && (live.run.outcome.Completed? || exists leader :: Behind(live) == WholeChain(live.id, leader))
  {
  }

  lemma PlainStepIsFramed(s: Sys, a: Action) returns (more: seq<Happening>)
    requires LiveOk(s) && LiveOrderOk(s) && s.live.Some? && EnabledLive(s.live.value, a) && !IsCommit(a)
    ensures PlainOrderFrame(s, ApplyLive(s, a), more)
  {
    more := PlainStepLogs(s, a);
    PlainStepMovesLive(s, a, more);
    PlainStepCompletes(s, a);
    PlainStepKeepsCompletedRows(s, a);
  }

  lemma PlainStepKeepsCompletedRows(s: Sys, a: Action)
    requires LiveOk(s) && s.live.Some? && EnabledLive(s.live.value, a) && !IsCommit(a)
    ensures forall id :: id in ApplyLive(s, a).db.runs && ApplyLive(s, a).db.runs[id].outcome.Completed? ==>
      id in s.db.runs && ApplyLive(s, a).db.runs[id] == s.db.runs[id]
  {
  }

  lemma FramedPlainStepKeepsOrder(s: Sys, t: Sys, more: seq<Happening>)
    requires OrderOk(s) && LiveOrderOk(s) && PlainOrderFrame(s, t, more)
    ensures OrderOk(t)
  {
    assert OrderFrame(s, t, more);
    FramedStepKeepsCompleted(s, t, more);
    if t.live.Some? {
      ExtendsKeepsSubsequence(Behind(s.live.value), Behind(t.live.value), s.log, more);
      if t.live.value.run.outcome.Completed? {
        if !s.live.value.run.outcome.Completed? {
          var leader :| Behind(s.live.value) == WholeChain(t.live.value.id, leader);
          assert ChainSeen(s.log, t.live.value.id);
        }
        ChainGrows(s.log, more, t.live.value.id);
      }
    }
  }

  lemma OutsideStepIsFramed(c: Config, s: Sys, a: Action) returns (more: seq<Happening>)
    requires Enabled(c, s, a) && !IsLiveStep(a)
    ensures OrderFrame(s, Apply(c, s, a), more)
    ensures
      var t := Apply(c, s, a);
      || t.live == s.live
      || t.live.None?
      || (a.Begin? && more == [] && t.live == Some(Live(a.id, NewRun(a.target, s.now + a.lag), 0, Created)))
  {
    more := if a.Observe? && a.durable then [Apply(c, s, a).log[|s.log|]] else [];
    assert Apply(c, s, a).log == s.log + more;
  }

  lemma OutsideStepKeepsOrder(c: Config, s: Sys, a: Action)
    requires RowsOk(s) && OrderOk(s) && Enabled(c, s, a) && !IsLiveStep(a)
    ensures OrderOk(Apply(c, s, a))
  {
    var t := Apply(c, s, a);
    var more := OutsideStepIsFramed(c, s, a);
    FramedStepKeepsCompleted(s, t, more);
    if t.live == s.live && s.live.Some? {
      SubsequenceGrows(Behind(s.live.value), s.log, more);
      if s.live.value.run.outcome.Completed? {
        ChainGrows(s.log, more, s.live.value.id);
      }
    }
  }

  lemma OrderCoversLive(s: Sys)
    requires OrderOk(s)
    ensures LiveOrderOk(s)
  {
  }

  lemma StepKeepsOrder(c: Config, s: Sys, a: Action)
    requires RecordsOk(s) && OrderOk(s) && Enabled(c, s, a)
    ensures OrderOk(Apply(c, s, a))
  {
    hide RowsOk, EventsOk, OrderOk;
    if IsLiveStep(a) {
      LiveStepOnly(c, s, a);
      if IsCommit(a) {
        CommitKeepsOrder(s, a);
      } else {
        OrderCoversLive(s);
        var more := PlainStepIsFramed(s, a);
        FramedPlainStepKeepsOrder(s, ApplyLive(s, a), more);
      }
    } else {
      OutsideStepKeepsOrder(c, s, a);
    }
  }
}
