/** The workflow's own state and its statements: single commits, waits, writes and readings of the clock.

    Every durable or visible statement is also recorded as an action of the protocol, so the trace of a
    workflow is a run of the transition system, and the theorems about those runs apply to each of its
    prefixes followed by a crash. What a statement does to the stored audit trail, and which commits,
    questions and readings it takes, is its progress through the script. */
module RemediationWorkflow {
  import opened Prelude
  import opened RemediationTypes
  import opened RemediationStore
  import opened RemediationProtocol
  import opened RemediationEvidence
  import opened SshActions
  import opened RemediationScript
  import opened RemediationScenario

  /** The workflow neither crashes nor restarts itself. */
  ghost predicate Undisturbed(trace: seq<Action>) {
    forall a :: a in trace ==> !a.Crash? && !a.Restart?
  }

  lemma UndisturbedSnoc(trace: seq<Action>, a: Action)
    requires Undisturbed(trace) && !a.Crash? && !a.Restart?
    ensures Undisturbed(trace + [a])
  {
  }

  predicate InsideTry(pc: Pc) {
    Rank(Preparing) <= Rank(pc) <= Rank(Faulted)
  }

  /** The run has claimed the target's lock and not yet given it up. */
  predicate HoldsLock(pc: Pc) {
    Rank(Claimed) <= Rank(pc) <= Rank(Faulted) || pc == Finalizing(true)
  }

  ghost predicate SameHolders(before: map<Ip, Lock>, after: map<Ip, Lock>) {
    && before.Keys == after.Keys
    && forall ip :: ip in before ==> before[ip].runId == after[ip].runId && before[ip].active == after[ip].active
  }

  lemma HoldersStay(a: map<Ip, Lock>, b: map<Ip, Lock>, c: map<Ip, Lock>)
    requires SameHolders(a, b) && SameHolders(b, c)
    ensures SameHolders(a, c)
  {
  }

  lemma CommitStep(c: Config, s: Sys, a: Action)
    requires s.live.Some? && IsCommit(a) && EnabledLive(s.live.value, a)
    ensures Enabled(c, s, a) && !a.Crash? && !a.Restart? && a != Action.WriteReload && a != Action.WriteRebalance
    ensures
      var live, plan, t := s.live.value, Planned(s.live.value, a), Apply(c, s, a);
      var committed := Transition(s.db, live.id, plan.run, plan.event);
      var sequence := if plan.event.Some? then live.sequence + 1 else live.sequence;
      && t.now == s.now
      && if a.durable && committed.Some?
         then t.db == committed.value && t.live == Some(Live(live.id, plan.run, sequence, plan.next))
         else t.db == s.db && t.live == AfterFailure(live, plan.run, sequence)
  {
  }

  lemma PlanIsNext(live: Live, a: Action, sequence: nat)
    requires IsCommit(a) && EnabledLive(live, a)
    ensures !live.pc.Created? && !Planned(live, a).next.Created? && (HoldsLock(Planned(live, a).next) ==> HoldsLock(live.pc))
    ensures var lost := AfterFailure(live, Planned(live, a).run, sequence);
      lost.Some? ==> !lost.value.pc.Created? && (HoldsLock(lost.value.pc) ==> HoldsLock(live.pc))
  {
  }

  lemma PlanIsOfThisRun(live: Live, a: Action)
    requires IsCommit(a) && EnabledLive(live, a)
    ensures !live.pc.Created?
    ensures Planned(live, a).run.target == live.run.target && Planned(live, a).run.startedAt == live.run.startedAt
    ensures Planned(live, a).event.Some? ==> Planned(live, a).event.value.sequenceNo == live.sequence + 1
    ensures live.run.reloadReserved ==> Planned(live, a).run.reloadReserved
    ensures live.run.rebalanceReserved ==> Planned(live, a).run.rebalanceReserved
  {
  }

  /** Waiting for a write means having a reservation. */
  lemma PlanKeepsReservations(live: Live, a: Action, sequence: nat)
    requires IsCommit(a) && EnabledLive(live, a)
    ensures Planned(live, a).next.ReloadReserved? ==> live.pc.ReloadReserved? || Planned(live, a).run.reloadReserved
    ensures Planned(live, a).next.RebalanceReserved? ==> live.pc.RebalanceReserved? || Planned(live, a).run.rebalanceReserved
    ensures var lost := AfterFailure(live, Planned(live, a).run, sequence);
      lost.Some? ==>
        && (lost.value.pc.ReloadReserved? ==> live.pc.ReloadReserved?)
        && (lost.value.pc.RebalanceReserved? ==> live.pc.RebalanceReserved?)
  {
  }

  /** What the step of a commit leaves of control, whether the disk took it or not. */
  lemma CommittedLive(c: Config, s: Sys, live: Live, a: Action)
    requires s.live == Some(live) && IsCommit(a) && EnabledLive(live, a)
    ensures Enabled(c, s, a)
    ensures
      var after := Apply(c, s, a).live;
      after.Some? ==>
        && !after.value.pc.Created? && (HoldsLock(after.value.pc) ==> HoldsLock(live.pc))
        && (after.value.pc.ReloadReserved? ==> live.pc.ReloadReserved? || Planned(live, a).run.reloadReserved)
        && (after.value.pc.RebalanceReserved? ==> live.pc.RebalanceReserved? || Planned(live, a).run.rebalanceReserved)
  {
    var sequence := live.sequence + if Planned(live, a).event.Some? then 1 else 0;
    CommitStep(c, s, a);
    PlanIsNext(live, a, sequence);
    PlanKeepsReservations(live, a, sequence);
    hide Enabled, EnabledLive, Apply, Planned, IsCommit, AfterFailure, Transition, HoldsLock;
  }

  // ----- what the history tells of the writes

  lemma StepWrites(c: Config, s: Sys, a: Action)
    requires Enabled(c, s, a)
    ensures s.log <= Apply(c, s, a).log
    ensures forall i :: |s.log| <= i < |Apply(c, s, a).log| ==>
      && (Apply(c, s, a).log[i].ReloadSent? ==> a == Action.WriteReload)
      && (Apply(c, s, a).log[i].RebalanceSent? ==> a == Action.WriteRebalance)
  {
    if IsLiveStep(a) {
      LiveStepOnly(c, s, a);
      hide Enabled, Apply, EnabledLive, ApplyLive;
      LiveStepWrites(s, a);
    } else {
      hide BreakerAllows, MirrorFlags, Unlocks, LockHeld;
    }
  }

  lemma LiveStepWrites(s: Sys, a: Action)
    requires s.live.Some? && EnabledLive(s.live.value, a)
    ensures s.log <= ApplyLive(s, a).log
    ensures forall i :: |s.log| <= i < |ApplyLive(s, a).log| ==>
      && (ApplyLive(s, a).log[i].ReloadSent? ==> a == Action.WriteReload)
      && (ApplyLive(s, a).log[i].RebalanceSent? ==> a == Action.WriteRebalance)
  {
    hide LockHeld, Concluded, Transition;
  }

  lemma {:induction false} LogTellsWrites(c: Config, origin: Sys, trace: seq<Action>, s: Sys)
    requires Execute(c, origin, trace) == Some(s)
    ensures origin.log <= s.log
    ensures forall i :: |origin.log| <= i < |s.log| ==>
      && (s.log[i].ReloadSent? ==> Action.WriteReload in trace)
      && (s.log[i].RebalanceSent? ==> Action.WriteRebalance in trace)
  {
    hide Enabled, Apply;
    if trace != [] {
      var init, last := trace[..|trace| - 1], trace[|trace| - 1];
      LogTellsWrites(c, origin, init, Execute(c, origin, init).value);
      StepWrites(c, Execute(c, origin, init).value, last);
      assert trace == init + [last];
    }
  }

  /** A known row and a fresh number: only the disk can refuse the commit. */
  lemma OnlyTheDiskRefuses(db: Db, id: RunId, run: Run, event: Option<Event>)
    requires id in db.runs && db.runs[id].target == run.target && db.runs[id].startedAt == run.startedAt
    requires event.Some? ==> forall e :: e in EventsOf(db, id) ==> e.sequenceNo < event.value.sequenceNo
    ensures Transition(db, id, run, event).Some?
    ensures Transition(db, id, run, event).value.runs == db.runs[id := run]
    ensures SameHolders(db.locks, Transition(db, id, run, event).value.locks)
    ensures EventsOf(Transition(db, id, run, event).value, id)
         == EventsOf(db, id) + (if event.Some? then [event.value] else [])
    ensures Entries(EventsOf(Transition(db, id, run, event).value, id)) == Entries(EventsOf(db, id)) + EntryOf(event)
  {
  }

  lemma MayNote(live: Live, a: Action)
    requires InsideTry(live.pc) && !live.pc.Faulted? && (a.Note? || a.Snapshot?)
    ensures EnabledLive(live, a) && IsCommit(a) && InsideTry(Faulted) && !live.pc.Claimed? && !live.pc.Finalizing?
    ensures Planned(live, a).next == live.pc
    ensures a.Note? ==>
      Planned(live, a).run == Staged(live.run, a.stage) && Planned(live, a).event == Some(NextEvent(live, a.stage, a.result))
    ensures a.Snapshot? ==> Planned(live, a).run == live.run && Planned(live, a).event == None
  {
  }

  lemma MayReserveReload(live: Live, durable: bool)
    requires live.pc.Preparing?
    ensures
      var a := Action.ReserveReload(durable);
      var run := Staged(live.run, Reload).(reloadReserved := true, reloadPhase := Phase.Reserved);
      && IsCommit(a) && EnabledLive(live, a)
      && Planned(live, a) == Commit(run, Some(NextEvent(live, Reload, ReloadDispatchReserved)), ReloadReserved, [])
  {
  }

  lemma MaySettleReload(live: Live, durable: bool, code: ActionCode, sent: bool, phase: Phase)
    requires live.pc.ReloadWritten? || (live.pc.ReloadReserved? && !ProvesWrite(code))
    ensures
      var a := Action.SettleReload(durable, code, sent, phase);
      var run := Staged(live.run, Reload).(reloadSent := sent, reloadPhase := phase);
      && IsCommit(a) && EnabledLive(live, a)
      && Planned(live, a).run == run && Planned(live, a).event == Some(NextEvent(live, Reload, ResultOf(code)))
      && Planned(live, a).next == if RefusesReload(code) then ReloadRefused else AwaitingMm
  {
  }

  lemma MayPassGate(live: Live, durable: bool)
    requires live.pc.Rejoined?
    ensures
      var a := PassGate(durable);
      && IsCommit(a) && EnabledLive(live, a)
      && Planned(live, a).run == Staged(live.run, FinalGate)
      && Planned(live, a).event == Some(NextEvent(live, FinalGate, GateWasPassed))
      && Planned(live, a).next == Gated(live.pc.leader)
  {
  }

  lemma MayReserveRebalance(live: Live, durable: bool)
    requires live.pc.Gated?
    ensures
      var a := Action.ReserveRebalance(durable);
      var run := Staged(live.run, Rebalance).(rebalanceReserved := true, rebalancePhase := Phase.Reserved);
      && IsCommit(a) && EnabledLive(live, a)
      && Planned(live, a).run == run && Planned(live, a).event == Some(NextEvent(live, Rebalance, RebalanceDispatchReserved))
      && Planned(live, a).next == RebalanceReserved(live.pc.leader)
  {
  }

  lemma MaySettleRebalance(live: Live, durable: bool, code: ActionCode, sent: bool, phase: Phase)
    requires live.pc.RebalanceWritten? || (live.pc.RebalanceReserved? && !ProvesWrite(code))
    ensures
      var a := Action.SettleRebalance(durable, code, sent, phase);
      var run := Staged(live.run, Rebalance).(rebalanceSent := sent, rebalancePhase := phase,
                                              rebalanceConfirmed := code == RebalanceTriggered);
      && IsCommit(a) && EnabledLive(live, a)
      && Planned(live, a).run == run && Planned(live, a).event == Some(NextEvent(live, Rebalance, ResultOf(code)))
      && Planned(live, a).next == if RefusesRebalance(code) then RebalanceRefused else Monitoring(live.pc.leader)
  {
  }

  lemma MayConfirmStable(live: Live, durable: bool, leader: Ip)
    requires live.pc.Monitoring?
    ensures
      var a := ConfirmStable(durable, leader);
      && IsCommit(a) && EnabledLive(live, a)
      && Planned(live, a).run == live.run.(leader := leader) && Planned(live, a).event == None
      && Planned(live, a).next == Monitored(live.pc.leader, true)
  {
  }

  lemma MayConfirmRejoin(live: Live, durable: bool, leader: Ip)
    requires live.pc.AwaitingRejoin?
    ensures
      var a := ConfirmRejoin(durable, leader);
      && IsCommit(a) && EnabledLive(live, a)
      && Planned(live, a) == Commit(live.run.(leader := leader), None, Rejoined(leader), [RejoinConfirmed(live.id, leader)])
  {
  }

  lemma MayAnnounce(live: Live, durable: bool, code: Code)
    requires live.pc.Claimed?
    ensures
      var a := Action.Snapshot(durable);
      && IsCommit(a) && EnabledLive(live, a)
      && Planned(live, a).run == live.run && Planned(live, a).event == None && Planned(live, a).next == Claimed
    ensures
      var a := Action.Note(durable, Detected, code);
      && IsCommit(a) && EnabledLive(live, a) && Planned(live, a).next == Claimed
      && Planned(live, a).run == Staged(live.run, Detected) && Planned(live, a).event == Some(NextEvent(live, Detected, code))
  {
  }

  lemma MayStoreFinal(live: Live, durable: bool, event: Option<Code>, pending: bool)
    requires live.pc.Finalizing?
    ensures
      var a := FinalCommit(durable, event, pending);
      && IsCommit(a) && EnabledLive(live, a) && Planned(live, a).next == live.pc
      && Planned(live, a).run == live.run.(reportPending := pending)
      && Planned(live, a).event == if event.Some? then Some(NextEvent(live, live.run.stage, event.value)) else None
  {
  }

  lemma InsideTryPcs(leader: Ip, healthy: bool)
    ensures InsideTry(Faulted) && InsideTry(ReloadRefused) && InsideTry(AwaitingMm) && InsideTry(AwaitingRejoin)
    ensures InsideTry(Rejoined(leader)) && InsideTry(Gated(leader)) && InsideTry(RebalanceRefused)
    ensures InsideTry(ReloadReserved) && InsideTry(RebalanceReserved(leader)) && InsideTry(RebalanceWritten(leader))
    ensures InsideTry(Monitoring(leader)) && InsideTry(Monitored(leader, healthy))
  {
  }

  // ----- the audit trail only grows

  lemma StepKeepsTold(c: Config, s: Sys, a: Action, id: RunId)
    requires Enabled(c, s, a) && !a.Restart?
    ensures EventsOf(s.db, id) <= EventsOf(Apply(c, s, a).db, id)
  {
    if IsLiveStep(a) {
      LiveStepOnly(c, s, a);
      hide Enabled, Apply, EnabledLive, ApplyLive;
      LiveStepKeepsTold(s, a, id);
    } else {
      hide BreakerAllows, MirrorFlags, Unlocks, LockHeld;
    }
  }

  lemma LiveStepKeepsTold(s: Sys, a: Action, id: RunId)
    requires s.live.Some? && EnabledLive(s.live.value, a)
    ensures EventsOf(s.db, id) <= EventsOf(ApplyLive(s, a).db, id)
  {
    if IsCommit(a) {
      hide EnabledLive, Planned;
      CommitKeepsTold(s, a.durable, Planned(s.live.value, a), id);
    } else {
      hide EnabledLive, LockHeld, Concluded;
      assert ApplyLive(s, a).db.events == s.db.events;
    }
  }

  lemma CommitKeepsTold(s: Sys, durable: bool, plan: Commit, id: RunId)
    requires s.live.Some?
    ensures EventsOf(s.db, id) <= EventsOf(CommitLive(s, durable, plan).db, id)
  {
    hide MirrorFlags, AfterFailure;
  }

  lemma {:induction false} TrailGrows(c: Config, origin: Sys, before: seq<Action>, s: Sys, after: seq<Action>, t: Sys, id: RunId)
    requires Execute(c, origin, before) == Some(s) && Execute(c, origin, after) == Some(t)
    requires before <= after && Undisturbed(after)
    ensures EventsOf(s.db, id) <= EventsOf(t.db, id)
  {
    hide Enabled, Apply, EventsOf;
    if |before| == |after| {
      assert before == after;
    } else {
      var init, last := after[..|after| - 1], after[|after| - 1];
      TrailGrows(c, origin, before, s, init, Execute(c, origin, init).value, id);
      StepKeepsTold(c, Execute(c, origin, init).value, last, id);
    }
  }

  lemma EntriesGrow(before: seq<Event>, after: seq<Event>)
    requires before <= after
    ensures Entries(before) <= Entries(after)
  {
  }

  /** Entering the guarded region, the two writes, and the two steps that only look: the store is not asked. */
  lemma SilentStep(c: Config, s: Sys, live: Live, a: Action)
    requires s.live == Some(live) && EnabledLive(live, a)
    requires a.EnterTry? || a.WriteReload? || a.SeeMmUp? || a.WriteRebalance? || a.GiveUpMonitoring?
    ensures Enabled(c, s, a) && !live.pc.Created? && HoldsLock(live.pc)
    ensures
      var t := Apply(c, s, a);
      && t.now == s.now && t.db == s.db && t.live.Some? && t.live.value == live.(pc := t.live.value.pc)
      && !t.live.value.pc.Created?
      && match a
         case EnterTry => t.live.value.pc == Preparing
         case WriteReload => t.live.value.pc == ReloadWritten && t.log == s.log + [ReloadSent(live.id, live.run.target)]
         case SeeMmUp => t.live.value.pc == AwaitingRejoin
         case WriteRebalance =>
           t.live.value.pc == RebalanceWritten(live.pc.leader) && t.log == s.log + [RebalanceSent(live.id, live.pc.leader)]
         case GiveUpMonitoring => t.live.value.pc == Monitored(live.pc.leader, false)
  {
  }

  lemma BeginsAlive(config: Config, start: Sys, id: RunId, target: Ip, lag: nat)
    requires Enabled(config, start, Begin(id, target, lag))
    ensures Execute(config, start, []) == Some(start) && Undisturbed([Begin(id, target, lag)])
    ensures
      var sys := Apply(config, start, Begin(id, target, lag));
      && sys.live == Some(Live(id, NewRun(target, start.now + lag), 0, Created))
      && sys.db == start.db && sys.now == start.now + lag
    ensures NewRun(target, start.now + lag).target == target
  {
  }

  class Workflow {
    ghost const config: Config
    const repository: Repository
    const scenario: Scenario
    const id: RunId

    var run: Run
    var sequence: nat
    var clock: int
    var commits: nat
    var asked: nat
    var readings: nat

    ghost const origin: Sys
    ghost var trace: seq<Action>
    ghost var sys: Sys

    /** The workflow of a permitted start under a fresh id; it has not yet done anything. */
    constructor (ghost config: Config, repository: Repository, scenario: Scenario, id: RunId,
                 ghost start: Sys, clock: int, lag: nat)
      requires scenario.settings == config.settings && config.settings.Valid()
      requires clock == start.now && start.db == repository.Contents()
      requires Enabled(config, start, Begin(id, scenario.target, lag))
      requires id !in start.db.runs && EventsOf(start.db, id) == []
      ensures Valid() && At(Created) && origin == start && trace == [Begin(id, scenario.target, lag)]
      ensures this.config == config && this.repository == repository && this.scenario == scenario && this.id == id
      ensures this.clock == clock + lag && Here() == Progress([], 0, 0, 0, 0)
      ensures run == Run(scenario.target, clock + lag, None, Detected, Running, "", false, false, false, false, false,
                         NotAttempted, NotAttempted, NoCode, false)
    {
      this.config, this.repository, this.scenario, this.id := config, repository, scenario, id;
      this.clock, run, sequence := clock + lag, NewRun(scenario.target, clock + lag), 0;
      commits, asked, readings := 0, 0, 0;
      origin, trace, sys := start, [], start;
      new;
      hide Enabled, Apply, Execute, Undisturbed;
      BeginsAlive(config, start, id, scenario.target, lag);
      Record(Begin(id, scenario.target, lag));
    }

    /** The recorded trace is a run of the protocol from `origin` to `sys`, and `sys` is what is there. */
    ghost predicate Valid()
      reads this, repository
    {
      && scenario.settings == config.settings && config.settings.Valid()
      && Execute(config, origin, trace) == Some(sys)
      && sys.db == repository.Contents()
      && sys.now == clock
      && run.target == scenario.target
      && Undisturbed(trace)
      && Filed()
      && Reserving()
    }

    /** Whatever was written, or is about to be, was reserved. */
    ghost predicate Reserving()
      reads this
    {
      && (Action.WriteReload in trace ==> run.reloadReserved)
      && (Action.WriteRebalance in trace ==> run.rebalanceReserved)
      && (sys.live.Some? ==>
            && (sys.live.value.pc.ReloadReserved? ==> run.reloadReserved)
            && (sys.live.value.pc.RebalanceReserved? ==> run.rebalanceReserved))
    }

    /** The store has a row of the run once it was inserted, no event with a number still to be given, and
        the target's lock in this run's name for as long as the run holds it. */
    ghost predicate Filed()
      reads this, repository
    {
      && (sys.live.Some? ==> (id in repository.runs <==> !sys.live.value.pc.Created?))
      && (sys.live.Some? && HoldsLock(sys.live.value.pc) ==> Holds())
      && (id in repository.runs ==>
            repository.runs[id].target == run.target && repository.runs[id].startedAt == run.startedAt)
      && Numbered()
    }

    ghost predicate Numbered()
      reads this`sequence, repository
    {
      forall e :: e in EventsOf(repository.Contents(), id) ==> e.sequenceNo <= sequence
    }

    ghost predicate Holds()
      reads repository
    {
      var ip := scenario.target;
      ip in repository.locks && repository.locks[ip].runId == id && repository.locks[ip].active
    }

    twostate lemma StillReserving(a: Action)
      requires old(Reserving()) && trace == old(trace) + [a] && a != Action.WriteReload && a != Action.WriteRebalance
      requires old(run.reloadReserved) ==> run.reloadReserved
      requires old(run.rebalanceReserved) ==> run.rebalanceReserved
      requires sys.live.Some? && sys.live.value.pc.ReloadReserved? ==>
        run.reloadReserved || (old(sys.live).Some? && old(sys.live).value.pc.ReloadReserved?)
      requires sys.live.Some? && sys.live.value.pc.RebalanceReserved? ==>
        run.rebalanceReserved || (old(sys.live).Some? && old(sys.live).value.pc.RebalanceReserved?)
      ensures Reserving()
    {
    }

    lemma KnownRow()
      requires Filed() && sys.live.Some? && !sys.live.value.pc.Created?
      ensures id in repository.runs
      ensures repository.runs[id].target == run.target && repository.runs[id].startedAt == run.startedAt
      ensures Numbered()
    {
    }

    twostate lemma StillFiled()
      requires old(Filed()) && old(sys.live).Some? && SameHolders(old(repository.locks), repository.locks)
      requires id in repository.runs
      requires repository.runs[id].target == run.target && repository.runs[id].startedAt == run.startedAt
      requires Numbered()
      requires sys.live.Some? ==>
        !sys.live.value.pc.Created? && (HoldsLock(sys.live.value.pc) ==> HoldsLock(old(sys.live).value.pc))
      ensures Filed()
    {
      StillHolds();
    }

    twostate lemma StillHolds()
      requires SameHolders(old(repository.locks), repository.locks)
      ensures Holds() == old(Holds())
    {
    }

    ghost predicate At(pc: Pc)
      reads this
    {
      sys.live == Some(Live(id, run, sequence, pc))
    }

    /** Control is somewhere inside the guarded region. */
    ghost predicate Guarded()
      reads this
    {
      sys.live.Some? && At(sys.live.value.pc) && InsideTry(sys.live.value.pc)
    }

    /** The row of the run is exactly what the workflow knows of it. */
    ghost predicate Stored()
      reads this, repository
    {
      id in repository.runs && repository.runs[id] == run
    }

    /** The audit trail of this run, as it is stored. */
    ghost function Audit(): seq<Entry>
      reads repository
    {
      Entries(EventsOf(repository.Contents(), id))
    }

    ghost function Here(): Progress
      reads this, repository
    {
      Progress(Audit(), sequence, commits, asked, readings)
    }

    /** Nothing that was told is ever taken back. */
    twostate lemma TellsMore()
      requires old(Valid()) && Valid() && old(trace) <= trace
      ensures old(Here()).told <= Here().told
    {
      hide Entries, EventsOf, Filed;
      TrailGrows(config, origin, old(trace), old(sys), trace, sys, id);
      EntriesGrow(EventsOf(old(sys).db, id), EventsOf(sys.db, id));
    }

    lemma CountsHere()
      ensures Here().readings == readings && Here().numbered == sequence && Here().commits == commits && Here().asked == asked
    {
    }

    lemma ToldHere()
      ensures Here().told == Audit()
    {
    }

    lemma SettingsAreValid()
      requires Valid()
      ensures scenario.settings.Valid()
    {
    }

    // ----- time and questions

    ghost method Record(a: Action)
      requires Execute(config, origin, trace) == Some(sys) && Enabled(config, sys, a)
      modifies this`sys, this`trace
      ensures Execute(config, origin, trace) == Some(sys)
      ensures sys == Apply(config, old(sys), a) && trace == old(trace) + [a]
    {
      ExecuteSnoc(config, origin, trace, sys, a);
      sys := Apply(config, sys, a);
      trace := trace + [a];
    }

    method PassTime(elapsed: nat)
      requires Valid()
      modifies this`clock, this`sys, this`trace
      ensures Valid() && old(trace) <= trace && clock == old(clock) + elapsed
      ensures sys.live == old(sys.live) && sys.log == old(sys.log)
      ensures Here() == old(Here())
    {
      clock := clock + elapsed;
      Record(Tick(elapsed));
    }

    method ReadClock()
      requires Valid()
      modifies this`clock, this`readings, this`sys, this`trace
      ensures Valid() && old(trace) <= trace && old(clock) <= clock && sys.live == old(sys.live) && sys.log == old(sys.log)
      ensures clock == old(clock) + scenario.script.delay(old(readings)) && Here() == After(old(Here()), Steps([], 0, 0, 1))
    {
      PassTime(scenario.script.delay(readings));
      readings := readings + 1;
    }

    /** Reads the clock for a deadline and again for the first comparison with it. */
    method StartTimer() returns (started: int)
      requires Valid()
      modifies this`clock, this`readings, this`sys, this`trace
      ensures Valid() && old(trace) <= trace && old(clock) <= clock && sys.live == old(sys.live) && sys.log == old(sys.log)
      ensures old(clock) <= started && clock == started + Delays(scenario.script, old(readings) + 1, 1)
      ensures readings == old(readings) + 2
      ensures Advances(scenario.script, old(Here()), Here(), TIMER_STARTED)
    {
      hide Valid, Audit;
      ReadClock();
      started := clock;
      ReadClock();
    }

    /** Puts the next question to the operator. */
    method Cancelled() returns (cancelled: bool)
      modifies this`asked
      ensures Valid() == old(Valid()) && cancelled == !Passes(scenario.script, old(Here()), ONE_QUESTION)
      ensures if cancelled then Halts(scenario.script, old(Here()), Here(), Stopped, OPERATOR_STOPPED)
              else Advances(scenario.script, old(Here()), Here(), ONE_QUESTION)
    {
      cancelled := scenario.script.cancelled(asked);
      asked := asked + 1;
    }

    /** `Event.wait`: either the operator cancels, or the whole interval passes and the clock is read again. */
    method Wait(seconds: nat) returns (cancelled: bool)
      requires Valid()
      modifies this`clock, this`readings, this`asked, this`sys, this`trace
      ensures Valid() && old(trace) <= trace && old(clock) <= clock && sys.live == old(sys.live) && sys.log == old(sys.log)
      ensures cancelled == !Passes(scenario.script, old(Here()), ONE_WAIT)
      ensures if cancelled then Halts(scenario.script, old(Here()), Here(), Stopped, OPERATOR_STOPPED)
              else Advances(scenario.script, old(Here()), Here(), ONE_WAIT)
                   && clock == old(clock) + seconds * SECOND + scenario.script.delay(old(readings))
                   && readings == old(readings) + 1
    {
      hide Execute, Undisturbed, Audit;
      cancelled := scenario.script.cancelled(asked);
      asked := asked + 1;
      if !cancelled {
        PassTime(seconds * SECOND);
        ReadClock();
      }
    }

    // ----- commits

    function Answer(): bool
      reads this
    {
      scenario.script.durable(commits)
    }

    /** With the row known and the number fresh, the store takes exactly what the disk takes. */
    method Store(newRun: Run, event: Option<Event>) returns (ok: bool)
      requires id in repository.runs
      requires repository.runs[id].target == newRun.target && repository.runs[id].startedAt == newRun.startedAt
      requires Numbered()
      requires event.Some? ==> event.value.sequenceNo == sequence + 1
      modifies this`commits, this`run, this`sequence, repository
      ensures commits == old(commits) + 1 && ok == scenario.script.durable(old(commits))
      ensures run == newRun && sequence == old(sequence) + if event.Some? then 1 else 0
      ensures var stored := Transition(old(repository.Contents()), id, newRun, event);
        stored.Some? && repository.Contents() == if ok then stored.value else old(repository.Contents())
      ensures id in repository.runs && repository.runs[id] == if ok then newRun else old(repository.runs[id])
      ensures SameHolders(old(repository.locks), repository.locks)
      ensures Audit() == old(Audit()) + if ok then EntryOf(event) else []
      ensures Numbered()
    {
      hide Transition, Entries, EventsOf, EntryOf;
      OnlyTheDiskRefuses(repository.Contents(), id, newRun, event);
      ok := repository.CommitTransition(id, newRun, event, scenario.script.durable(commits));
      commits := commits + 1;
      run := newRun;
      sequence := if event.Some? then sequence + 1 else sequence;
    }

    /** Carries out the planned commit of action `a`: row and event are stored together, or neither is. */
    method Commit(newRun: Run, event: Option<Event>, ghost a: Action) returns (ok: bool)
      requires Valid() && sys.live.Some? && At(sys.live.value.pc)
      requires IsCommit(a) && EnabledLive(sys.live.value, a) && a.durable == Answer()
      requires Planned(sys.live.value, a).run == newRun && Planned(sys.live.value, a).event == event
      modifies this, repository
      ensures Valid() && old(trace) <= trace && old(clock) <= clock && trace == old(trace) + [a] && clock == old(clock)
      ensures run == newRun && ok == scenario.script.durable(old(commits))
      ensures sequence == old(sequence) + |EntryOf(event)| && commits == old(commits) + 1
      ensures asked == old(asked) && readings == old(readings)
      ensures Audit() == old(Audit()) + if ok then EntryOf(event) else []
      ensures if ok then Stored() else repository.Contents() == old(repository.Contents())
      ensures SameHolders(old(repository.locks), repository.locks)
      ensures ok ==> At(Planned(old(sys.live.value), a).next)
      ensures !ok ==> sys.live == AfterFailure(old(sys.live.value), newRun, sequence)
    {
      hide Execute, Planned, EnabledLive, Enabled, Apply, Transition, EventsOf, EntryOf, AfterFailure, CommitLive,
           Audit, Undisturbed, HoldsLock, Holds, SameHolders, IsCommit, Entries, Reserving, Filed, Numbered;
      CommitStep(config, sys, a);
      UndisturbedSnoc(trace, a);
      PlanIsOfThisRun(sys.live.value, a);
      KnownRow();
      ok := Store(newRun, event);
      Record(a);
      CommittedLive(config, old(sys), old(sys).live.value, a);
      StillFiled();
      StillReserving(a);
    }

    /** An audit event that leaves control where it is. */
    method Note(stage: Stage, result: Code) returns (ok: bool)
      requires Valid() && Guarded() && !At(Faulted)
      modifies this, repository
      ensures Valid() && old(trace) <= trace && old(clock) <= clock && Guarded() && clock == old(clock)
      ensures run == Staged(old(run), stage) == old(run).(stage := stage)
      ensures sequence == old(sequence) + 1 && readings == old(readings)
      ensures ok == Passes(scenario.script, old(Here()), Told(Entry(stage, result)))
      ensures if ok then Advances(scenario.script, old(Here()), Here(), Told(Entry(stage, result)))
              else Halts(scenario.script, old(Here()), Here(), Failed, UNEXPECTED)
      ensures At(if ok then old(sys.live.value.pc) else Faulted)
    {
      hide Execute, Undisturbed, Apply, Enabled, EnabledLive, Planned, InsideTry, Filed, Audit, Valid;
      MayNote(sys.live.value, Action.Note(Answer(), stage, result));
      ok := Commit(Staged(run, stage), Some(Event(sequence + 1, stage, result)),
                   Action.Note(Answer(), stage, result));
    }

    method Snapshot() returns (ok: bool)
      requires Valid() && Guarded() && !At(Faulted)
      modifies this, repository
      ensures Valid() && old(trace) <= trace && old(clock) <= clock && Guarded() && clock == old(clock)
      ensures run == old(run) && sequence == old(sequence) && readings == old(readings)
      ensures ok == Passes(scenario.script, old(Here()), ONE_SAVE)
      ensures if ok then Advances(scenario.script, old(Here()), Here(), ONE_SAVE)
              else Halts(scenario.script, old(Here()), Here(), Failed, UNEXPECTED)
      ensures At(if ok then old(sys.live.value.pc) else Faulted)
    {
      hide Execute, Undisturbed, Apply, Enabled, EnabledLive, Planned, InsideTry, Filed, Audit, Valid;
      MayNote(sys.live.value, Action.Snapshot(Answer()));
      ok := Commit(run, None, Action.Snapshot(Answer()));
    }
  }
}
