/** The poller's incident and baseline duties: correlate, persist with retries, acknowledge, stage settings. */
module RuntimePoller {
  import opened Prelude
  import opened Incidents
  import opened IncidentStages
  import opened IncidentLifecycle
  import opened IncidentRuns
  import opened IncidentStorage
  import opened BaselineCache

  // ----- acknowledging several incidents

  function AcknowledgedAll(s: State, ids: set<IncidentId>, now: int): State {
    State(map id | id in s.incidents ::
            if id in ids && s.incidents[id].acknowledgedAt.None? then AcknowledgedIncident(s.incidents[id], now)
            else s.incidents[id],
          map k | k in s.active && !(s.active[k] in ids && Consumed(s, s.active[k])) :: s.active[k],
          s.nextId)
  }

  /** Of the given incidents exactly those not yet acknowledged are, as of now; their connection-type events end. */
  lemma AcknowledgedAllMeans(s: State, ids: set<IncidentId>, now: int, id: IncidentId)
    ensures
      var t := AcknowledgedAll(s, ids, now);
      && t.incidents.Keys == s.incidents.Keys && t.nextId == s.nextId
      && (id in s.incidents ==>
            t.incidents[id] ==
            if id in ids && s.incidents[id].acknowledgedAt == None
            then s.incidents[id].(acknowledgedAt := Some(now),
                                  active := s.incidents[id].active && s.incidents[id].kind != ConnectionTypeChanged)
            else s.incidents[id])
  {
  }

  /** Acknowledging this incident ends it. */
  predicate Consumed(s: State, id: IncidentId) {
    id in s.incidents && s.incidents[id].acknowledgedAt.None? && s.incidents[id].kind.ConnectionTypeChanged?
  }

  lemma AcknowledgeOneMore(s: State, ids: set<IncidentId>, id: IncidentId, now: int)
    requires Bijection(s) && id !in ids && ActiveIn(s.incidents, id)
    ensures AcknowledgedState(AcknowledgedAll(s, ids, now), id, now) == AcknowledgedAll(s, ids + {id}, now)
    ensures id in AcknowledgedAll(s, ids, now).incidents && AcknowledgedAll(s, ids, now).incidents[id] == s.incidents[id]
  {
  }

  lemma AcknowledgingNone(s: State, now: int, notify: bool)
    ensures AcknowledgedAll(s, {}, now) == s && Reports([], AcknowledgeKinds(s, {}), s.incidents, notify)
  {
  }

  ghost function AcknowledgeKinds(s: State, ids: set<IncidentId>): map<IncidentId, Kind> {
    map id | id in ids && id in s.incidents && s.incidents[id].acknowledgedAt.None? :: Acknowledged
  }

  lemma AcknowledgeReported(s: State, ids: set<IncidentId>, id: IncidentId, now: int, ts: seq<Transition>, notify: bool)
    requires Bijection(s) && id !in ids && ActiveIn(s.incidents, id)
    requires Reports(ts, AcknowledgeKinds(s, ids), AcknowledgedAll(s, ids, now).incidents, notify)
    ensures
      var u := AcknowledgedAll(s, ids + {id}, now);
      && id in u.incidents
      && Reports(if s.incidents[id].acknowledgedAt.None? then ts + [Transition(Acknowledged, id, u.incidents[id], false)] else ts,
                 AcknowledgeKinds(s, ids + {id}), u.incidents, notify)
  {
    hide Reports;
    var p, u := AcknowledgedAll(s, ids, now), AcknowledgedAll(s, ids + {id}, now);
    assert u.incidents == p.incidents[id := u.incidents[id]];
    if s.incidents[id].acknowledgedAt.None? {
      assert AcknowledgeKinds(s, ids + {id}) == AcknowledgeKinds(s, ids)[id := Acknowledged];
      ReportsOneMore(ts, AcknowledgeKinds(s, ids), p.incidents, notify, Transition(Acknowledged, id, u.incidents[id], false));
    } else {
      assert AcknowledgeKinds(s, ids + {id}) == AcknowledgeKinds(s, ids);
      assert u.incidents == p.incidents;
    }
  }

  /** Acknowledging several incidents is a run of single acknowledgements. */
  lemma AcknowledgedInSteps(s: State, ids: set<IncidentId>, now: int) returns (states: seq<State>, steps: seq<Step>)
    requires Bijection(s) && forall id :: id in ids ==> ActiveIn(s.incidents, id)
    ensures IsRun(states, steps) && states[0] == s && states[|steps|] == AcknowledgedAll(s, ids, now)
    ensures forall i :: 0 <= i < |steps| ==> steps[i].Acknowledge? && steps[i].id in ids
    decreases ids
  {
    hide AcknowledgedAll, AcknowledgedState, Bijection;
    if ids == {} {
      AcknowledgingNone(s, now, false);
      states, steps := [s], [];
    } else {
      var id :| id in ids;
      var rest := ids - {id};
      states, steps := AcknowledgedInSteps(s, rest, now);
      AcknowledgeOneMore(s, rest, id, now);
      assert rest + {id} == ids;
      states, steps := states + [AcknowledgedAll(s, ids, now)], steps + [Step.Acknowledge(id, now)];
    }
  }

  lemma AcknowledgingAllGrows(s: State, ids: set<IncidentId>, now: int)
    requires Bijection(s)
    ensures Grows(s, AcknowledgedAll(s, ids, now))
    ensures (forall id :: id in ids ==> ActiveIn(s.incidents, id)) ==> Bijection(AcknowledgedAll(s, ids, now))
  {
  }

  /** A confirmed change of a member's connection type that waits for the operator. */
  datatype ObservedChange = ObservedChange(collector: Ip, currentValue: string, normalizedValue: string, confirmedAt: int)

  /** The observed value becomes the baseline; the collector on record is kept. */
  function AcceptedBaseline(baselines: Baselines, ip: Ip, change: ObservedChange): Baseline {
    var collector := if ip in baselines && baselines[ip].collector != "" then baselines[ip].collector else change.collector;
    Baseline(collector, ip, change.currentValue, change.normalizedValue, change.confirmedAt)
  }

  // ----- acknowledgements of connection changes

  /** The members whose acknowledgement waits to be stored, and those it was stored for. */
  datatype Waiting = Waiting(pending: set<Ip>, stored: set<Ip>)

  /** One call that acknowledges these members and tries to store everything. */
  ghost predicate TriesToStore(before: Waiting, members: set<Ip>, durable: bool, after: Waiting) {
    if durable then after.pending == {} && after.stored == before.stored + before.pending + members
    else after.pending == before.pending + members && after.stored == before.stored
  }

  /** An acknowledged member waits until a flush succeeds, and is stored from then on. */
  lemma {:induction false} AcknowledgementIsKept(states: seq<Waiting>, members: seq<set<Ip>>, durable: seq<bool>,
                                                 i: nat, j: nat, ip: Ip)
    requires |states| == |members| + 1 == |durable| + 1 && i < j <= |members| && ip in members[i]
    requires forall k :: 0 <= k < |members| ==> TriesToStore(states[k], members[k], durable[k], states[k + 1])
    ensures if exists k :: i <= k < j && durable[k] then ip in states[j].stored else ip in states[j].pending
    decreases j
  {
    assert TriesToStore(states[j - 1], members[j - 1], durable[j - 1], states[j]);
    if i < j - 1 {
      AcknowledgementIsKept(states, members, durable, i, j - 1, ip);
    }
  }

  class Runtime {
    const store: DomainStore
    const cache: CachedBaselineStore
    var manager: IncidentManager
    var pending: seq<Transition>
    var pendingAcknowledgements: set<Ip>
    var durableIds: set<IncidentId>

    ghost var produced: seq<Transition>
    ghost var lost: bool

    ghost function Abstract(): Poller
      reads this, manager, store
    {
      Poller(manager.Contents(), pending, durableIds, store.Contents(), produced, lost)
    }

    ghost predicate Valid()
      reads this, manager, store, cache
    {
      && manager.Valid()
      && cache.store == store && cache.Valid()
      && Converging(Abstract())
    }

    /** A new process over an existing store; `before` is what the last process knew. */
    constructor (store: DomainStore, cache: CachedBaselineStore, manager: IncidentManager, ghost before: Poller)
      requires Converging(before) && before.disk == store.Contents() && before.state.nextId <= manager.nextId
      requires cache.store == store && cache.Valid()
      requires manager.Valid() && manager.incidents == RestoredIncidents(store.Contents())
      ensures Valid() && this.store == store && this.cache == cache && this.manager == manager
      ensures Abstract() == Restarted(before, manager.nextId)
    {
      this.store, this.cache, this.manager := store, cache, manager;
      pending, pendingAcknowledgements := [], {};
      durableIds := manager.incidents.Keys;
      produced, lost := before.produced, before.lost || before.pending != [];
      new;
      hide Converging;
      ConvergingHasNoDuplicates(before);
      RestoringIsBijective(RestoredIncidents(before.disk), manager.nextId) by { RowsAreOld(before); }
      SameIncidentsSameKeys(StateOf(RestoredIncidents(before.disk), manager.nextId), manager.Contents());
      assert RestoredIncidents(before.disk).Keys == ActiveRows(before.disk);
      RestartConverges(before, manager.nextId);
    }

    function Waits(): Waiting
      reads this, store
    {
      Waiting(pendingAcknowledgements, store.acknowledged)
    }

    predicate OtherWork()
      reads this, cache
    {
      pendingAcknowledgements != {} || cache.dirty != map[] || cache.removed != {}
    }

    method Journal(transitions: seq<Transition>)
      requires Valid()
      modifies this`pending, this`produced, this`lost, manager
      ensures Valid()
      ensures Abstract() == Journalled(old(Abstract()), transitions)
    {
      hide Converging, CompactedState, IdsOf, ActiveRows, ActiveIds, Agrees, Bijection;
      JournallingKeepsConverging(Abstract(), transitions);
      pending := pending + transitions;
      produced := produced + transitions;
      if |pending| > MAX_PENDING_TRANSITIONS {
        pending := pending[|pending| - MAX_PENDING_TRANSITIONS..];
        lost := true;
        IdsAre(pending);
        var released := manager.CompactInactive((set t | t in pending :: t.id) + durableIds);
      }
    }

    /** One attempt to store everything that is waiting; a failed attempt changes nothing. */
    method FlushPending(changes: bool, expired: set<IncidentId>, durable: bool)
      requires Valid()
      modifies this`pending, this`pendingAcknowledgements, this`durableIds, manager, store, cache
      ensures Valid()
      ensures Abstract() == Flushed(old(Abstract()), changes || old(OtherWork()), durable, expired)
      ensures cache.values == old(cache.values)
      ensures store.baselines == if durable then cache.values else old(store.baselines)
      ensures durable ==> Converged(Abstract())
      ensures TriesToStore(old(Waits()), {}, durable, Waits())
    {
      hide Converging, Converged, Saved, CompactedState, ActiveRows, ActiveIds, Agrees, Bijection;
      FlushConverges(Abstract(), changes || OtherWork(), durable, expired);
      var active := ActiveIds(manager.Contents());
      var ok := cache.Flush(changes, pendingAcknowledgements, manager.incidents, pending, expired, durable);
      if ok {
        pending, pendingAcknowledgements := [], {};
        durableIds := active;
        var released := manager.CompactInactive({});
      }
    }

    /** Appends to the retry journal, bounds it, and tries to store everything in one transaction. */
    method PersistIncidents(transitions: seq<Transition>, changes: bool, expired: set<IncidentId>, durable: bool)
      requires Valid()
      modifies this`pending, this`pendingAcknowledgements, this`durableIds, this`produced, this`lost, manager, store, cache
      ensures Valid()
      ensures Abstract() == Persisted(old(Abstract()), transitions, changes || old(OtherWork()), durable, expired)
      ensures cache.values == old(cache.values)
      ensures store.baselines == if durable then cache.values else old(store.baselines)
      ensures durable ==> Converged(Abstract())
      ensures TriesToStore(old(Waits()), {}, durable, Waits())
    {
      hide Converging, Converged, Journalled, Flushed, Agrees, Bijection;
      Journal(transitions);
      FlushPending(changes, expired, durable);
    }

    /** A health result: incidents advance, then everything is stored if it can be. */
    method Correlate(health: Health, now: int, resolved: set<Ip>, changes: bool, expired: set<IncidentId>, durable: bool)
      returns (transitions: seq<Transition>, ghost after: State)
      requires Valid()
      modifies this`pending, this`pendingAcknowledgements, this`durableIds, this`produced, this`lost, manager, store, cache
      ensures Valid()
      ensures Follows(old(manager.Contents()), Poll(health, now), after)
      ensures Reports(transitions, ProcessKinds(old(manager.Contents()), CurrentOf(health), MonitoringScope(health), health, after),
                      after.incidents, manager.recoveryNotifications)
      ensures Abstract() == Persisted(old(Abstract()).(state := after), transitions,
                                      changes || resolved != {} || old(OtherWork()), durable, expired)
      ensures cache.values == old(cache.values)
      ensures store.baselines == if durable then cache.values else old(store.baselines)
      ensures durable ==> Converged(Abstract())
      ensures TriesToStore(old(Waits()), resolved, durable, Waits())
    {
      hide Converging, Converged, Persisted, Agrees, Bijection, Processed, ProcessKinds, Reports, Grows, CurrentSignals;
      ghost var before := Abstract();
      ConvergingHasNoDuplicates(before);
      pendingAcknowledgements := pendingAcknowledgements + resolved;
      transitions := manager.Process(health, now);
      after := manager.Contents();
      StepGrows(before.state, Poll(health, now), after);
      ThinkingKeepsConverging(before, after);
      assert Abstract() == before.(state := after);
      PersistIncidents(transitions, changes, expired, durable);
    }

    /** Acknowledges the given active incidents in some order. */
    method AcknowledgeActive(ids: set<IncidentId>, now: int) returns (transitions: seq<Transition>)
      requires Valid() && forall id :: id in ids ==> ActiveIn(manager.incidents, id)
      modifies manager
      ensures Valid() && Abstract() == old(Abstract()).(state := AcknowledgedAll(old(manager.Contents()), ids, now))
      ensures Reports(transitions, AcknowledgeKinds(old(manager.Contents()), ids), manager.incidents,
                      manager.recoveryNotifications)
    {
      hide Converging, Agrees, Bijection, AcknowledgedAll, AcknowledgedIncident, Grows, Reports, AcknowledgeKinds;
      ghost var before := Abstract();
      transitions := [];
      var todo: set<IncidentId>, done: set<IncidentId> := ids, {};
      AcknowledgingNone(before.state, now, manager.recoveryNotifications);
      ConvergingHasNoDuplicates(before);
      while todo != {}
        invariant todo !! done && todo + done == ids
        invariant manager.Contents() == AcknowledgedAll(before.state, done, now)
        invariant manager.Valid()
        invariant Reports(transitions, AcknowledgeKinds(before.state, done), manager.incidents, manager.recoveryNotifications)
        decreases todo
      {
        var id :| id in todo;
        AcknowledgeOneMore(before.state, done, id, now);
        AcknowledgeReported(before.state, done, id, now, transitions, manager.recoveryNotifications);
        var transition := manager.Acknowledge(id, now);
        if transition.Some? {
          transitions := transitions + [transition.value];
        }
        todo, done := todo - {id}, done + {id};
      }
      assert done == ids;
      AcknowledgingAllGrows(before.state, ids, now);
      ThinkingKeepsConverging(before, manager.Contents());
    }

    function Acknowledgeable(ip: Option<Ip>, ofKind: IncidentType -> bool): set<IncidentId>
      reads this, manager
    {
      set id | id in manager.incidents && manager.incidents[id].active && ofKind(manager.incidents[id].kind)
               && (ip.Some? ==> manager.incidents[id].ip.Some? && manager.incidents[id].ip.value == ip.value)
    }

    /** The operator accepts the current connection type of a member as its new baseline; without a pending
        change of that member nothing happens. */
    method AcceptConnectionTypeBaseline(ip: Ip, change: Option<ObservedChange>, now: int, changes: bool,
                                        expired: set<IncidentId>, durable: bool)
      returns (accepted: bool, transitions: seq<Transition>, ghost ids: set<IncidentId>)
      requires Valid()
      modifies this`pending, this`pendingAcknowledgements, this`durableIds, this`produced, this`lost, manager, store, cache
      ensures Valid() && (accepted <==> change.Some?)
      ensures !accepted ==>
        transitions == [] && Abstract() == old(Abstract()) && cache.State() == old(cache.State())
        && Waits() == old(Waits()) && store.baselines == old(store.baselines)
      ensures accepted ==> forall id :: id in ids <==>
        && id in old(manager.incidents) && old(manager.incidents)[id].active
        && old(manager.incidents)[id].ip == Some(ip) && old(manager.incidents)[id].kind == ConnectionTypeChanged
      ensures accepted ==>
        var s := AcknowledgedAll(old(manager.Contents()), ids, now);
        && Reports(transitions, AcknowledgeKinds(old(manager.Contents()), ids), s.incidents, manager.recoveryNotifications)
        && Abstract() == Persisted(old(Abstract()).(state := s), transitions, true, durable, expired)
        && cache.values - {ip} == old(cache.values) - {ip} && ip in cache.values
        && cache.values[ip] == Baseline(if ip in old(cache.values) && old(cache.values)[ip].collector != ""
                                        then old(cache.values)[ip].collector else change.value.collector,
                                        ip, change.value.currentValue, change.value.normalizedValue, change.value.confirmedAt)
      ensures accepted ==> TriesToStore(old(Waits()), {ip}, durable, Waits())
      ensures accepted ==> store.baselines == if durable then cache.values else old(store.baselines)
      ensures accepted && durable ==> Converged(Abstract())
    {
      hide Converging, Converged, Persisted, Agrees, Bijection, AcknowledgedAll, AcknowledgeKinds, Reports;
      transitions, ids := [], {};
      accepted := change.Some?;
      if accepted {
        cache.Set(AcceptedBaseline(cache.values, ip, change.value));
        ids := Acknowledgeable(Some(ip), (kind: IncidentType) => kind.ConnectionTypeChanged?);
        transitions := AcknowledgeActive(Acknowledgeable(Some(ip), (kind: IncidentType) => kind.ConnectionTypeChanged?), now);
        pendingAcknowledgements := pendingAcknowledgements + {ip};
        PersistIncidents(transitions, changes, expired, durable);
      }
    }

    method AcknowledgeIp(ip: Ip, now: int, changes: bool, expired: set<IncidentId>, durable: bool)
      returns (transitions: seq<Transition>, ghost ids: set<IncidentId>)
      requires Valid()
      modifies this`pending, this`pendingAcknowledgements, this`durableIds, this`produced, this`lost, manager, store, cache
      ensures Valid() && cache.values == old(cache.values)
      ensures store.baselines == if durable then cache.values else old(store.baselines)
      ensures forall id :: id in ids <==>
        && id in old(manager.incidents) && old(manager.incidents)[id].active
        && old(manager.incidents)[id].ip == Some(ip) && old(manager.incidents)[id].kind != ConnectionTypeChanged
      ensures TriesToStore(old(Waits()), {}, durable, Waits())
      ensures
        var s := AcknowledgedAll(old(manager.Contents()), ids, now);
        && Reports(transitions, AcknowledgeKinds(old(manager.Contents()), ids), s.incidents, manager.recoveryNotifications)
        && Abstract() == Persisted(old(Abstract()).(state := s), transitions, changes || old(OtherWork()), durable, expired)
    {
      hide Converging, Converged, Persisted, Agrees, Bijection, AcknowledgedAll, AcknowledgeKinds, Reports;
      ids := Acknowledgeable(Some(ip), (kind: IncidentType) => !kind.ConnectionTypeChanged?);
      transitions := AcknowledgeActive(Acknowledgeable(Some(ip), (kind: IncidentType) => !kind.ConnectionTypeChanged?), now);
      PersistIncidents(transitions, changes, expired, durable);
    }

    method AcknowledgeGlobal(now: int, changes: bool, expired: set<IncidentId>, durable: bool)
      returns (transitions: seq<Transition>, ghost ids: set<IncidentId>)
      requires Valid()
      modifies this`pending, this`pendingAcknowledgements, this`durableIds, this`produced, this`lost, manager, store, cache
      ensures Valid() && cache.values == old(cache.values)
      ensures store.baselines == if durable then cache.values else old(store.baselines)
      ensures forall id :: id in ids <==>
        && id in old(manager.incidents) && old(manager.incidents)[id].active
        && old(manager.incidents)[id].kind == CollectionFailure
      ensures TriesToStore(old(Waits()), {}, durable, Waits())
      ensures
        var s := AcknowledgedAll(old(manager.Contents()), ids, now);
        && Reports(transitions, AcknowledgeKinds(old(manager.Contents()), ids), s.incidents, manager.recoveryNotifications)
        && Abstract() == Persisted(old(Abstract()).(state := s), transitions, changes || old(OtherWork()), durable, expired)
    {
      hide Converging, Converged, Persisted, Agrees, Bijection, AcknowledgedAll, AcknowledgeKinds, Reports;
      ids := Acknowledgeable(None, (kind: IncidentType) => kind.CollectionFailure?);
      transitions := AcknowledgeActive(Acknowledgeable(None, (kind: IncidentType) => kind.CollectionFailure?), now);
      PersistIncidents(transitions, changes, expired, durable);
    }

    method MarkNotificationDelivered(id: IncidentId, now: int, changes: bool, expired: set<IncidentId>, durable: bool)
      requires Valid()
      modifies this`pending, this`pendingAcknowledgements, this`durableIds, this`produced, this`lost, manager, store, cache
      ensures Valid()
      ensures
        Abstract() == if id !in old(manager.incidents) then old(Abstract())
                      else Persisted(old(Abstract()).(state := NotifiedState(old(manager.Contents()), id, now)),
                                     [], changes || old(OtherWork()), durable, expired)
      ensures cache.values == old(cache.values)
      ensures store.baselines == if durable && id in old(manager.incidents) then cache.values else old(store.baselines)
      ensures if id in old(manager.incidents) then TriesToStore(old(Waits()), {}, durable, Waits())
              else Waits() == old(Waits())
    {
      hide Converging, Converged, Persisted, Agrees, Bijection;
      ghost var before := Abstract();
      ConvergingHasNoDuplicates(before);
      StepGrows(before.state, Notified(id, now), NotifiedState(before.state, id, now));
      ThinkingKeepsConverging(before, NotifiedState(before.state, id, now));
      var known := manager.MarkNotified(id, now);
      if known {
        PersistIncidents([], changes, expired, durable);
      }
    }
  }

  /** A staged settings change: the runtime already works with the new settings, and everything needed to
      go back is kept until the change is committed or rolled back. */
  class SettingsStage {
    const runtime: Runtime
    const previous: IncidentManager
    const baselines: CacheState
    const pending: seq<Transition>
    const pendingAcknowledgements: set<Ip>
    const scopeTransitions: seq<Transition>
    var finished: bool

    /** Builds a new manager over copies of the incidents, leaves scope-less members and incidents behind in
        it, and does not touch the previous manager. */
    constructor (runtime: Runtime, scope: set<Ip>, leaving: set<Ip>, now: int, recoveryNotifications: bool)
      requires runtime.Valid()
      modifies runtime`manager, runtime.cache
      ensures runtime.Valid() && !finished && this.runtime == runtime
      ensures previous == old(runtime.manager) && fresh(runtime.manager)
      ensures baselines == old(runtime.cache.State()) && pending == runtime.pending
      ensures pendingAcknowledgements == runtime.pendingAcknowledgements
      ensures runtime.cache.State() == Without(baselines, leaving)
      ensures
        var s := old(runtime.manager.Contents());
        && runtime.manager.Contents() == Closing(s, ScopeFates(s, Some(scope)), now)
        && Reports(scopeTransitions, ClosingKinds(s, ScopeFates(s, Some(scope))), runtime.manager.incidents, recoveryNotifications)
    {
      hide Converging, Agrees, Closing, ClosingKinds, ScopeFates, Reports, Grows;
      ghost var before := runtime.Abstract();
      ConvergingHasNoDuplicates(before);
      BijectionHasNoDuplicates(before.state);
      ghost var step := Rescope(scope, now);
      StepGrows(before.state, step, Closing(before.state, ScopeFates(before.state, Some(scope)), now));
      ThinkingKeepsConverging(before, Closing(before.state, ScopeFates(before.state, Some(scope)), now));
      this.runtime := runtime;
      this.previous := runtime.manager;
      var snapshot := runtime.cache.SnapshotState();
      this.baselines := snapshot;
      this.pending := runtime.pending;
      this.pendingAcknowledgements := runtime.pendingAcknowledgements;
      finished := false;
      var manager := IncidentManager.Restore(runtime.manager.incidents, runtime.manager.nextId,
                                             runtime.manager.repeatUnacknowledged, runtime.manager.repeatInterval,
                                             recoveryNotifications);
      SameIncidentsSameKeys(before.state, manager.Contents());
      runtime.manager := manager;
      runtime.cache.DiscardAll(leaving);
      var transitions := manager.ReconcileMonitoringScope(scope, now);
      this.scopeTransitions := transitions;
    }

    /** The scope's transitions join the journal; storing them may have to wait. */
    method Commit(changes: bool, expired: set<IncidentId>, durable: bool)
      requires runtime.Valid() && !finished
      modifies this`finished, runtime`pending, runtime`pendingAcknowledgements, runtime`durableIds, runtime`produced,
               runtime`lost, runtime.manager, runtime.store, runtime.cache
      ensures runtime.Valid() && finished
      ensures runtime.Abstract()
        == Persisted(old(runtime.Abstract()), scopeTransitions, changes || old(runtime.OtherWork()), durable, expired)
      ensures TriesToStore(old(runtime.Waits()), {}, durable, runtime.Waits())
    {
      hide Converging, Converged, Persisted, Agrees, Bijection;
      runtime.PersistIncidents(scopeTransitions, changes, expired, durable);
      finished := true;
    }

    method Rollback()
      requires !finished
      modifies this`finished, runtime`manager, runtime`pending, runtime`pendingAcknowledgements, runtime.cache
      ensures finished
      ensures runtime.manager == previous && runtime.cache.State() == baselines
      ensures runtime.pending == pending && runtime.pendingAcknowledgements == pendingAcknowledgements
    {
      runtime.manager := previous;
      runtime.cache.RestoreState(baselines);
      runtime.pending := pending;
      runtime.pendingAcknowledgements := pendingAcknowledgements;
      finished := true;
    }
  }

  /** Staging new settings and taking them back restores the very same manager with its content, the
      cache and the pending lists. */
  method StageAndRollBack(runtime: Runtime, scope: set<Ip>, leaving: set<Ip>, now: int, recoveryNotifications: bool)
    requires runtime.Valid()
    modifies runtime`manager, runtime`pending, runtime`pendingAcknowledgements, runtime.cache
    ensures runtime.Valid() && runtime.Abstract() == old(runtime.Abstract())
    ensures runtime.manager == old(runtime.manager) && runtime.cache.State() == old(runtime.cache.State())
    ensures runtime.pendingAcknowledgements == old(runtime.pendingAcknowledgements)
  {
    hide Converging, Agrees, Closing, ClosingKinds, Reports, Bijection;
    var stage := new SettingsStage(runtime, scope, leaving, now, recoveryNotifications);
    stage.Rollback();
  }

  lemma IdsAre(ts: seq<Transition>)
    ensures IdsOf(ts) == set t | t in ts :: t.id
  {
  }

  lemma ConvergingHasNoDuplicates(p: Poller)
    requires Converging(p)
    ensures !Duplicates(RestoredIncidents(p.disk)) && Bijection(p.state)
  {
  }

  lemma RowsAreOld(p: Poller)
    requires Converging(p)
    ensures forall id :: id in RestoredIncidents(p.disk) ==> id < p.state.nextId
  {
  }
}
