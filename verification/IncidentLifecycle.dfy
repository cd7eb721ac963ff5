/** The incident manager: its fields, and its operations proved against the state relations. */
module IncidentLifecycle {
  import opened Prelude
  import opened Incidents
  import opened IncidentStages
  import opened IncidentMeaning

  // ----- acknowledging, restoring, compacting

  function AcknowledgedIncident(incident: Incident, now: int): Incident {
    incident.(acknowledgedAt := Some(now), active := incident.active && !incident.kind.ConnectionTypeChanged?)
  }

  /** Acknowledging consumes a connection-type event; other incidents stay open. */
  function AcknowledgedState(s: State, id: IncidentId, now: int): State {
    if id !in s.incidents || s.incidents[id].acknowledgedAt.Some? then s
    else
      State(s.incidents[id := AcknowledgedIncident(s.incidents[id], now)],
            if s.incidents[id].kind.ConnectionTypeChanged? then s.active - {s.incidents[id].Identity()} else s.active,
            s.nextId)
  }

  /** A closed, never acknowledged connection-type event whose key is active again under another id. */
  ghost predicate StealsKey(s: State, id: IncidentId) {
    && id in s.incidents && !s.incidents[id].active && s.incidents[id].acknowledgedAt.None?
    && s.incidents[id].kind.ConnectionTypeChanged? && s.incidents[id].Identity() in s.active
  }

  /** Acknowledging keeps the bijection exactly if it does not take the key of another incident. */
  lemma AcknowledgeKeepsBijectionIff(s: State, id: IncidentId, now: int)
    requires Bijection(s)
    ensures Bijection(AcknowledgedState(s, id, now)) <==> !StealsKey(s, id)
  {
    if StealsKey(s, id) {
      var other := s.active[s.incidents[id].Identity()];
      assert ActiveIn(AcknowledgedState(s, id, now).incidents, other);
    }
  }

  function CompactedState(s: State, retain: set<IncidentId>): State {
    s.(incidents := map id | id in s.incidents && (s.incidents[id].active || id in retain) :: s.incidents[id])
  }

  lemma CompactionKeepsBijection(s: State, retain: set<IncidentId>)
    requires Bijection(s)
    ensures Bijection(CompactedState(s, retain))
  {
  }

  lemma CompactionRemoves(s: State, retain: set<IncidentId>, gone: set<IncidentId>)
    requires gone == set id | id in s.incidents && !s.incidents[id].active && id !in retain
    ensures s.(incidents := s.incidents - gone) == CompactedState(s, retain)
    ensures |gone| == |s.incidents| - |s.incidents - gone|
  {
  }

  function NotifiedState(s: State, id: IncidentId, now: int): State {
    if id in s.incidents then s.(incidents := s.incidents[id := s.incidents[id].(lastNotifiedAt := Some(now))]) else s
  }

  /** An acknowledgement is given once and only changes that incident: its time is noted, and a connection-type
      event ends, without being seen again or having recovered. */
  lemma AcknowledgingMeans(s: State, id: IncidentId, now: int, other: IncidentId)
    ensures
      var t := AcknowledgedState(s, id, now);
      && t.incidents.Keys == s.incidents.Keys && t.nextId == s.nextId
      && (other in s.incidents ==>
            t.incidents[other] ==
            if other == id && s.incidents[id].acknowledgedAt == None
            then s.incidents[id].(acknowledgedAt := Some(now),
                                  active := s.incidents[id].active && s.incidents[id].kind != ConnectionTypeChanged)
            else s.incidents[other])
  {
  }

  lemma NotifyingMeans(s: State, id: IncidentId, now: int, other: IncidentId)
    ensures
      var t := NotifiedState(s, id, now);
      && t.incidents.Keys == s.incidents.Keys && t.active == s.active && t.nextId == s.nextId
      && (other in s.incidents ==>
            t.incidents[other] == if other == id then s.incidents[id].(lastNotifiedAt := Some(now)) else s.incidents[other])
  {
  }

  /** Of the active incidents exactly those of a device outside the scope are closed, as last seen now and not
      as recovered. */
  lemma LeavingScopeMeans(s: State, scope: set<Ip>, now: int, id: IncidentId)
    requires Bijection(s)
    ensures
      var t := Closing(s, ScopeFates(s, Some(scope)), now);
      && t.incidents.Keys == s.incidents.Keys && t.nextId == s.nextId
      && (id in s.incidents ==>
            var i := s.incidents[id];
            t.incidents[id] ==
            if i.active && i.kind != CollectionFailure && i.ip != None && i.ip.value !in scope
            then i.(active := false, lastSeenAt := now) else i)
  {
    if id in s.incidents && s.incidents[id].active {
      assert s.active[s.incidents[id].Identity()] == id;
    }
  }

  ghost predicate Duplicates(incidents: map<IncidentId, Incident>) {
    exists i, j :: i != j && ActiveIn(incidents, i) && ActiveIn(incidents, j)
      && incidents[i].Identity() == incidents[j].Identity()
  }

  /** The keys of the active incidents, unless two of them share one. */
  method IndexActive(incidents: map<IncidentId, Incident>, nextId: nat) returns (index: Option<map<Key, IncidentId>>)
    requires forall id :: id in incidents ==> id < nextId
    ensures index.None? <==> Duplicates(incidents)
    ensures index.Some? ==> Bijection(State(incidents, index.value, nextId))
  {
    var keys: map<Key, IncidentId> := map[];
    var todo, done := incidents.Keys, {};
    while todo != {}
      invariant todo !! done && todo + done == incidents.Keys
      invariant forall id :: id in done && incidents[id].active ==>
        incidents[id].Identity() in keys && keys[incidents[id].Identity()] == id
      invariant forall k :: k in keys ==>
        keys[k] in done && incidents[keys[k]].active && incidents[keys[k]].Identity() == k
      decreases todo
    {
      var id :| id in todo;
      if incidents[id].active {
        var key := incidents[id].Identity();
        if key in keys {
          assert ActiveIn(incidents, id) && ActiveIn(incidents, keys[key]);
          return None;
        }
        keys := keys[key := id];
      }
      todo, done := todo - {id}, done + {id};
    }
    index := Some(keys);
  }

  predicate IsDue(incident: Incident, confirmed: set<Key>, interval: int, now: int) {
    && incident.active && incident.acknowledgedAt.None? && incident.Identity() in confirmed
    && now - (if incident.lastNotifiedAt.Some? then incident.lastNotifiedAt.value else incident.firstDetectedAt) >= interval
  }

  class IncidentManager {
    const repeatUnacknowledged: bool
    const repeatInterval: int
    const recoveryNotifications: bool

    var incidents: map<IncidentId, Incident>
    var activeKeys: map<Key, IncidentId>
    var confirmedKeys: set<Key>
    var nextId: nat

    constructor (incidents: map<IncidentId, Incident>, index: map<Key, IncidentId>, nextId: nat,
                 repeatUnacknowledged: bool, repeatInterval: int, recoveryNotifications: bool)
      requires Bijection(State(incidents, index, nextId)) && repeatInterval > 0
      ensures Valid() && Contents() == State(incidents, index, nextId) && confirmedKeys == {}
      ensures this.repeatUnacknowledged == repeatUnacknowledged && this.repeatInterval == repeatInterval
      ensures this.recoveryNotifications == recoveryNotifications
    {
      this.incidents, this.activeKeys, this.nextId, confirmedKeys := incidents, index, nextId, {};
      this.repeatUnacknowledged, this.repeatInterval := repeatUnacknowledged, repeatInterval;
      this.recoveryNotifications := recoveryNotifications;
    }

    /** Restoring fails, rather than choosing, if two active incidents claim one identity. */
    static method Restore(incidents: map<IncidentId, Incident>, nextId: nat, repeatUnacknowledged: bool,
                          repeatInterval: int, recoveryNotifications: bool) returns (manager: IncidentManager?)
      requires forall id :: id in incidents ==> id < nextId
      ensures manager == null <==> repeatInterval <= 0 || Duplicates(incidents)
      ensures manager != null ==>
        && fresh(manager) && manager.Valid() && manager.incidents == incidents
        && manager.nextId == nextId && manager.confirmedKeys == {}
        && manager.repeatUnacknowledged == repeatUnacknowledged && manager.repeatInterval == repeatInterval
        && manager.recoveryNotifications == recoveryNotifications
    {
      if repeatInterval <= 0 {
        return null;
      }
      var index := IndexActive(incidents, nextId);
      if index.None? {
        return null;
      }
      manager := new IncidentManager(incidents, index.value, nextId, repeatUnacknowledged, repeatInterval,
                                     recoveryNotifications);
    }

    function Contents(): State
      reads this
    {
      State(incidents, activeKeys, nextId)
    }

    ghost predicate Valid()
      reads this
    {
      Bijection(Contents()) && repeatInterval > 0
    }

    method ReconcileMonitoringScope(scope: set<Ip>, now: int) returns (transitions: seq<Transition>)
      requires Valid()
      modifies this`incidents, this`activeKeys
      ensures Valid()
      ensures Contents() == Closing(old(Contents()), ScopeFates(old(Contents()), Some(scope)), now)
      ensures Reports(transitions, ClosingKinds(old(Contents()), ScopeFates(old(Contents()), Some(scope))), incidents,
                      recoveryNotifications)
    {
      hide Closing, ClosingKinds, Reports, Bijection;
      ghost var before := Contents();
      ghost var fates: map<Key, Fate> := map[];
      transitions := [];
      var todo := activeKeys.Keys;
      ClosingNothing(before, now, recoveryNotifications);
      while todo != {}
        invariant todo !! fates.Keys && todo + fates.Keys == before.active.Keys
        invariant forall k :: k in fates ==> fates[k] == ScopeFate(k, Some(scope))
        invariant Contents() == Closing(before, fates, now)
        invariant Reports(transitions, ClosingKinds(before, fates), incidents, recoveryNotifications)
        decreases todo
      {
        var key :| key in todo;
        ActiveKeyNames(before, key);
        ghost var fate := ScopeFate(key, Some(scope));
        CloseOneMore(before, fates, key, fate, now);
        CloseReported(before, fates, key, fate, now, transitions, recoveryNotifications);
        var id := activeKeys[key];
        var incident := incidents[id];
        if !(incident.kind.CollectionFailure? || incident.ip.None? || incident.ip.value in scope) {
          incident := incident.(active := false, lastSeenAt := now);
          incidents := incidents[id := incident];
          activeKeys := activeKeys - {key};
          transitions := transitions + [Transition(Superseded, id, incident, false)];
        } else {
          assert transitions + [] == transitions;
        }
        todo, fates := todo - {key}, fates[key := fate];
      }
      assert fates == ScopeFates(before, Some(scope));
      ClosingKeepsBijection(before, fates, now);
    }

    /** The current signals by key, and their keys in the order in which they appear. */
    method CollectSignals(signals: seq<Signal>, scope: Option<set<Ip>>) returns (current: map<Key, Signal>, order: seq<Key>)
      ensures current == CurrentSignals(signals, scope)
      ensures (set k | k in order) == current.Keys
      ensures forall i, j :: 0 <= i < j < |order| ==> order[i] != order[j]
    {
      current, order := map[], [];
      for i := 0 to |signals|
        invariant current == CurrentSignals(signals[..i], scope)
        invariant forall k :: k in order <==> k in current
        invariant forall i, j :: 0 <= i < j < |order| ==> order[i] != order[j]
      {
        assert signals[..i + 1][..i] == signals[..i];
        var signal := signals[i];
        if !signal.kind.CollectionFailure? && signal.ip.Some? && scope.Some? && signal.ip.value !in scope.value {
          continue;
        }
        var key := signal.Identity();
        if key !in current {
          current, order := current[key := signal], order + [key];
        }
      }
      assert signals[..|signals|] == signals;
    }

    /** Opens or refreshes one incident per current key, in their order. */
    method ObserveSignals(current: map<Key, Signal>, order: seq<Key>, devices: seq<Device>, now: int)
      returns (transitions: seq<Transition>)
      requires Valid() && (set k | k in order) == current.Keys
      requires forall i, j :: 0 <= i < j < |order| ==> order[i] != order[j]
      requires forall k :: k in current ==> current[k].Identity() == k
      modifies this`incidents, this`activeKeys, this`nextId
      ensures Valid()
      ensures Signalled(old(Contents()), current.Keys, current, devices, now, Contents())
      ensures Reports(transitions, SignalKinds(old(Contents()), current.Keys, current, Contents()), incidents,
                      recoveryNotifications)
    {
      hide Signalled, SignalKinds, Reports, Bijection;
      ghost var before := Contents();
      ghost var keys: set<Key> := {};
      transitions := [];
      SignalledNothing(before, current, devices, now, recoveryNotifications);
      for i := 0 to |order|
        invariant keys == set k | k in order[..i]
        invariant keys <= current.Keys && Valid()
        invariant Signalled(before, keys, current, devices, now, Contents())
        invariant Reports(transitions, SignalKinds(before, keys, current, Contents()), incidents, recoveryNotifications)
      {
        var key := order[i];
        assert key in current && key !in keys;
        var signal := current[key];
        if key !in activeKeys {
          OpenReported(before, keys, current, devices, now, Contents(), key, transitions, recoveryNotifications);
          var incident := Opened(signal, AliasOf(signal, devices), now);
          transitions := transitions + [Transition(Activated, nextId, incident, true)];
          incidents, activeKeys, nextId := incidents[nextId := incident], activeKeys[key := nextId], nextId + 1;
        } else {
          RefreshReported(before, keys, current, devices, now, Contents(), key, transitions, recoveryNotifications);
          var id := activeKeys[key];
          var incident := incidents[id];
          var changed := Differs(incident, signal);
          incident := incident.(lastSeenAt := now, reason := signal.reason, severity := signal.severity,
                                details := signal.details);
          if changed {
            transitions := transitions + [Transition(Refreshed, id, incident, false)];
          } else {
            assert transitions + [] == transitions;
          }
          incidents := incidents[id := incident];
        }
        keys := keys + {key};
        SignalledKeepsBijection(before, keys, current, devices, now, Contents());
      }
      assert order[..|order|] == order;
    }

    /** Closes the active keys that no current signal names, unless something keeps them open. */
    method CloseUnsignalled(current: set<Key>, health: Health, now: int) returns (transitions: seq<Transition>)
      requires Valid()
      modifies this`incidents, this`activeKeys
      ensures Valid()
      ensures Contents() == Closing(old(Contents()), SignalFates(old(Contents()), current, health), now)
      ensures Reports(transitions, ClosingKinds(old(Contents()), SignalFates(old(Contents()), current, health)), incidents,
                      recoveryNotifications)
    {
      hide Closing, ClosingKinds, Reports, Bijection, FateOf;
      ghost var before := Contents();
      ghost var fates: map<Key, Fate> := map[];
      transitions := [];
      var deferred := DeferredKeys(health);
      var todo := activeKeys.Keys;
      ClosingNothing(before, now, recoveryNotifications);
      while todo != {}
        invariant todo !! fates.Keys && todo + fates.Keys == before.active.Keys
        invariant forall k :: k in fates ==>
          before.active[k] in before.incidents && fates[k] == FateOf(k, before.incidents[before.active[k]], current, health)
        invariant Contents() == Closing(before, fates, now)
        invariant Reports(transitions, ClosingKinds(before, fates), incidents, recoveryNotifications)
        decreases todo
      {
        var key :| key in todo;
        ActiveKeyNames(before, key);
        ghost var fate := FateOf(key, before.incidents[before.active[key]], current, health);
        CloseOneMore(before, fates, key, fate, now);
        CloseReported(before, fates, key, fate, now, transitions, recoveryNotifications);
        var id := activeKeys[key];
        var incident := incidents[id];
        FateByBranch(key, incident, current, health);
        assert transitions + [] == transitions;
        if key !in current {
          if SupersededBy(key, incident, current) {
            incident := incident.(active := false, lastSeenAt := now);
            incidents, activeKeys := incidents[id := incident], activeKeys - {key};
            transitions := transitions + [Transition(Superseded, id, incident, false)];
          } else if key !in deferred && RecoveryConfirmed(key, health) {
            incident := incident.(active := false, recoveredAt := Some(now), lastSeenAt := now);
            incidents, activeKeys := incidents[id := incident], activeKeys - {key};
            transitions := transitions + [Transition(Recovered, id, incident, recoveryNotifications)];
          }
        }
        todo, fates := todo - {key}, fates[key := fate];
      }
      assert fates == SignalFates(before, current, health) by { AllNamed(before); }
      ClosingKeepsBijection(before, fates, now);
    }

    /** Processes one health result; the report is exactly the difference it makes. */
    method Process(health: Health, now: int) returns (transitions: seq<Transition>)
      requires Valid()
      modifies this
      ensures Valid()
      ensures Processed(old(Contents()), CurrentOf(health), MonitoringScope(health), health, now, Contents())
      ensures Reports(transitions, ProcessKinds(old(Contents()), CurrentOf(health), MonitoringScope(health), health, Contents()),
                      incidents, recoveryNotifications)
      ensures confirmedKeys == CurrentOf(health).Keys
      ensures ResultIsApplied(health, now, old(incidents), incidents, transitions)
    {
      hide ResultIsApplied, Closing, ClosingKinds, Signalled, SignalKinds, SignalFates, Reports, Bijection, FateOf, Processed,
           ProcessKinds, CurrentSignals, InScope, ScopeFates;
      ghost var s := Contents();
      var scope := MonitoringScope(health);
      var current, order := CollectSignals(health.signals, scope);
      CurrentSignalsMeaning(health.signals, scope);
      CurrentKeysFit(current, health.signals, scope);
      confirmedKeys := current.Keys;
      var closed: seq<Transition> := [];
      if scope.Some? {
        closed := ReconcileMonitoringScope(scope.value, now);
      } else {
        UnscopedStays(s, now, recoveryNotifications);
      }
      ghost var s1 := Contents();
      var signalled := ObserveSignals(current, order, health.devices, now);
      ghost var s2 := Contents();
      var settled := CloseUnsignalled(current.Keys, health, now);
      transitions := closed + signalled + settled;
      assert Staged(s, s1, s2, Contents(), current, scope, health, now);
      StagesCompose(s, s1, s2, Contents(), current, scope, health, now);
      StagesReport(s, s1, s2, Contents(), current, scope, health, now, closed, signalled, settled, recoveryNotifications);
      ProcessingApplies(s, health, now, Contents(), transitions, recoveryNotifications);
    }

    method Acknowledge(id: IncidentId, now: int) returns (transition: Option<Transition>)
      requires Valid()
      modifies this`incidents, this`activeKeys
      ensures Contents() == AcknowledgedState(old(Contents()), id, now)
      ensures Valid() <==> !StealsKey(old(Contents()), id)
      ensures transition == if id in old(incidents) && old(incidents)[id].acknowledgedAt.None?
                            then Some(Transition(Acknowledged, id, incidents[id], false)) else None
    {
      AcknowledgeKeepsBijectionIff(Contents(), id, now);
      if id !in incidents || incidents[id].acknowledgedAt.Some? {
        return None;
      }
      var incident := incidents[id].(acknowledgedAt := Some(now));
      if incident.kind.ConnectionTypeChanged? {
        incident := incident.(active := false);
        activeKeys := activeKeys - {incident.Identity()};
      }
      incidents := incidents[id := incident];
      transition := Some(Transition(Acknowledged, id, incident, false));
    }

    /** Open, unacknowledged incidents that the last result confirmed, once the interval is over. */
    method DueNotifications(now: int) returns (due: set<IncidentId>)
      requires Valid()
      ensures forall id :: id in due <==>
        && repeatUnacknowledged && id in incidents && incidents[id].active && incidents[id].acknowledgedAt == None
        && incidents[id].Identity() in confirmedKeys
        && match incidents[id].lastNotifiedAt
           case Some(at) => at + repeatInterval <= now
           case None => incidents[id].firstDetectedAt + repeatInterval <= now
    {
      due := {};
      if !repeatUnacknowledged {
        return;
      }
      var todo, done := incidents.Keys, {};
      while todo != {}
        invariant todo !! done && todo + done == incidents.Keys
        invariant due == set id | id in done && IsDue(incidents[id], confirmedKeys, repeatInterval, now)
        decreases todo
      {
        var id :| id in todo;
        todo, done := todo - {id}, done + {id};
        var incident := incidents[id];
        if !incident.active || incident.acknowledgedAt.Some? || incident.Identity() !in confirmedKeys {
          continue;
        }
        var reference := if incident.lastNotifiedAt.Some? then incident.lastNotifiedAt.value else incident.firstDetectedAt;
        if now - reference >= repeatInterval {
          due := due + {id};
        }
      }
    }

    method MarkNotified(id: IncidentId, now: int) returns (known: bool)
      requires Valid()
      modifies this`incidents
      ensures Valid() && Contents() == NotifiedState(old(Contents()), id, now) && known == (id in old(incidents))
    {
      known := id in incidents;
      if known {
        incidents := incidents[id := incidents[id].(lastNotifiedAt := Some(now))];
      }
    }

    method CompactInactive(retain: set<IncidentId>) returns (released: nat)
      requires Valid()
      modifies this`incidents
      ensures Valid() && Contents() == CompactedState(old(Contents()), retain)
      ensures released == |old(incidents)| - |incidents|
    {
      hide Bijection, CompactedState;
      CompactionKeepsBijection(Contents(), retain);
      var gone := set id | id in incidents && !incidents[id].active && id !in retain;
      CompactionRemoves(Contents(), retain, gone);
      incidents := incidents - gone;
      released := |gone|;
    }
  }
}
