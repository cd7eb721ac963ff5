/** The three stages in which a health result changes the incidents, and that together they do exactly
    what `Processed` says and report exactly the difference. */
module IncidentStages {
  import opened Prelude
  import opened Incidents

  // ----- closing active keys

  /** The state after each listed key has met its fate; other keys are untouched. */
  function Closing(s: State, fates: map<Key, Fate>, now: int): State {
    State(map id | id in s.incidents ::
            if s.incidents[id].active && s.incidents[id].Identity() in fates
            then Fated(s.incidents[id], fates[s.incidents[id].Identity()], now) else s.incidents[id],
          map k | k in s.active && (k in fates ==> fates[k].Stays?) :: s.active[k],
          s.nextId)
  }

  function Fated(incident: Incident, fate: Fate, now: int): Incident {
    match fate
    case Stays => incident
    case Supersedes => incident.(active := false, lastSeenAt := now)
    case Recovers => incident.(active := false, lastSeenAt := now, recoveredAt := Some(now))
  }

  function KindOf(fate: Fate): Kind {
    if fate.Supersedes? then Superseded else Recovered
  }

  ghost function ClosingKinds(s: State, fates: map<Key, Fate>): map<IncidentId, Kind> {
    map id | id in s.incidents && s.incidents[id].active && s.incidents[id].Identity() in fates
             && !fates[s.incidents[id].Identity()].Stays? :: KindOf(fates[s.incidents[id].Identity()])
  }

  lemma ClosingNothing(s: State, now: int, notify: bool)
    ensures Closing(s, map[], now) == s && Reports([], ClosingKinds(s, map[]), s.incidents, notify)
  {
  }

  lemma CloseOneMore(s: State, fates: map<Key, Fate>, k: Key, fate: Fate, now: int)
    requires Bijection(s) && k in s.active && k !in fates
    ensures
      var p := Closing(s, fates, now);
      var id := s.active[k];
      && k in p.active && p.active[k] == id && id in p.incidents && p.incidents[id] == s.incidents[id]
      && Closing(s, fates[k := fate], now)
         == if fate.Stays? then p else State(p.incidents[id := Fated(p.incidents[id], fate, now)], p.active - {k}, p.nextId)
  {
  }

  lemma CloseOneMoreKind(s: State, fates: map<Key, Fate>, k: Key, fate: Fate)
    requires Bijection(s) && k in s.active && k !in fates
    ensures s.active[k] !in ClosingKinds(s, fates)
    ensures ClosingKinds(s, fates[k := fate])
      == if fate.Stays? then ClosingKinds(s, fates) else ClosingKinds(s, fates)[s.active[k] := KindOf(fate)]
  {
  }

  function ClosingReport(id: IncidentId, incident: Incident, fate: Fate, now: int, notify: bool): Transition {
    Transition(KindOf(fate), id, Fated(incident, fate, now), fate.Recovers? && notify)
  }

  /** Closing one more key, and reporting it, keeps the report exact. */
  lemma CloseReported(s: State, fates: map<Key, Fate>, k: Key, fate: Fate, now: int, ts: seq<Transition>, notify: bool)
    requires Bijection(s) && k in s.active && k !in fates && s.active[k] in s.incidents
    requires Reports(ts, ClosingKinds(s, fates), Closing(s, fates, now).incidents, notify)
    ensures
      var reported := ts + if fate.Stays? then [] else [ClosingReport(s.active[k], s.incidents[s.active[k]], fate, now, notify)];
      Reports(reported, ClosingKinds(s, fates[k := fate]), Closing(s, fates[k := fate], now).incidents, notify)
  {
    hide Closing, ClosingKinds, Reports, Bijection;
    CloseOneMore(s, fates, k, fate, now);
    CloseOneMoreKind(s, fates, k, fate);
    if fate.Stays? {
      assert ts + [] == ts;
    } else {
      ReportsOneMore(ts, ClosingKinds(s, fates), Closing(s, fates, now).incidents, notify,
                     ClosingReport(s.active[k], s.incidents[s.active[k]], fate, now, notify));
    }
  }

  lemma ClosingKeepsBijection(s: State, fates: map<Key, Fate>, now: int)
    requires Bijection(s)
    ensures Bijection(Closing(s, fates, now))
  {
  }

  // ----- the fates of active keys in the two closing stages

  /** Active keys that left the scope are closed silently. */
  function ScopeFate(key: Key, scope: Option<set<Ip>>): Fate {
    if InScope(key, scope) then Stays else Supersedes
  }

  function ScopeFates(s: State, scope: Option<set<Ip>>): map<Key, Fate> {
    map k | k in s.active :: ScopeFate(k, scope)
  }

  function SignalFates(s: State, current: set<Key>, health: Health): map<Key, Fate> {
    map k | k in s.active && s.active[k] in s.incidents :: FateOf(k, s.incidents[s.active[k]], current, health)
  }

  // ----- opening and refreshing

  /** Every listed key is active afterwards: newly opened under a fresh id, or refreshed in place. */
  ghost predicate Signalled(s: State, keys: set<Key>, current: map<Key, Signal>, devices: seq<Device>, now: int, t: State)
    requires keys <= current.Keys
  {
    Bijection(t) && SignalledFrame(s, keys, current, devices, now, t)
  }

  ghost predicate SignalledFrame(s: State, keys: set<Key>, current: map<Key, Signal>, devices: seq<Device>, now: int, t: State)
    requires keys <= current.Keys
  {
    && t.active.Keys == s.active.Keys + keys
    && (forall k :: k in s.active ==> t.active[k] == s.active[k])
    && (forall k :: k in keys && k !in s.active ==>
          s.nextId <= t.active[k] && t.active[k] in t.incidents
          && t.incidents[t.active[k]] == Opened(current[k], AliasOf(current[k], devices), now))
    && (forall k :: k in keys && k in s.active ==>
          s.active[k] in s.incidents && s.active[k] in t.incidents
          && t.incidents[s.active[k]] == Seen(s.incidents[s.active[k]], current[k], now))
    && (forall id :: id in s.incidents ==> id in t.incidents)
    && (forall id :: id in s.incidents && !(s.incidents[id].active && s.incidents[id].Identity() in keys) ==>
          t.incidents[id] == s.incidents[id])
    && (forall id :: id in t.incidents && id !in s.incidents ==> id >= s.nextId && t.incidents[id].active)
    && s.nextId <= t.nextId
  }

  ghost function SignalKinds(s: State, keys: set<Key>, current: map<Key, Signal>, t: State): map<IncidentId, Kind>
    requires keys <= current.Keys
  {
    map id | id in t.incidents && Noted(s, keys, current, id, t.incidents[id]) ::
      if id !in s.incidents then Activated else Refreshed
  }

  /** An incident with a listed key is reported if it is new or its content changed. */
  ghost predicate Noted(s: State, keys: set<Key>, current: map<Key, Signal>, id: IncidentId, incident: Incident)
    requires keys <= current.Keys
  {
    && incident.active && incident.Identity() in keys
    && (id !in s.incidents || Differs(s.incidents[id], current[incident.Identity()]))
  }

  function OpenFor(t: State, k: Key, signal: Signal, devices: seq<Device>, now: int): State {
    State(t.incidents[t.nextId := Opened(signal, AliasOf(signal, devices), now)], t.active[k := t.nextId], t.nextId + 1)
  }

  function RefreshFor(t: State, k: Key, signal: Signal, now: int): State
    requires k in t.active && t.active[k] in t.incidents
  {
    t.(incidents := t.incidents[t.active[k] := Seen(t.incidents[t.active[k]], signal, now)])
  }

  lemma SignalledNothing(s: State, current: map<Key, Signal>, devices: seq<Device>, now: int, notify: bool)
    requires Bijection(s)
    ensures Signalled(s, {}, current, devices, now, s) && Reports([], SignalKinds(s, {}, current, s), s.incidents, notify)
  {
  }

  lemma OpenedOneMore(s: State, keys: set<Key>, current: map<Key, Signal>, devices: seq<Device>, now: int, t: State, k: Key)
    requires Bijection(s) && keys <= current.Keys && Signalled(s, keys, current, devices, now, t)
    requires k in current && k !in keys && current[k].Identity() == k && k !in t.active
    ensures Signalled(s, keys + {k}, current, devices, now, OpenFor(t, k, current[k], devices, now))
  {
    OpeningKeepsBijection(t, k, current[k], devices, now);
    assert t.nextId !in t.incidents && t.nextId !in s.incidents;
    OpenedFrame(s, keys, current, devices, now, t, k);
  }

  lemma OpenedFrame(s: State, keys: set<Key>, current: map<Key, Signal>, devices: seq<Device>, now: int, t: State, k: Key)
    requires keys <= current.Keys && SignalledFrame(s, keys, current, devices, now, t)
    requires k in current && k !in keys && k !in t.active && t.nextId !in t.incidents && t.nextId !in s.incidents
    requires forall l :: l in t.active ==> t.active[l] in t.incidents
    ensures SignalledFrame(s, keys + {k}, current, devices, now, OpenFor(t, k, current[k], devices, now))
  {
    var u := OpenFor(t, k, current[k], devices, now);
    assert u.active.Keys == s.active.Keys + (keys + {k});
  }

  lemma OpeningKeepsBijection(t: State, k: Key, signal: Signal, devices: seq<Device>, now: int)
    requires Bijection(t) && k !in t.active && signal.Identity() == k
    ensures Bijection(OpenFor(t, k, signal, devices, now))
  {
  }

  lemma RefreshingKeepsBijection(t: State, k: Key, signal: Signal, now: int)
    requires Bijection(t) && k in t.active
    ensures Bijection(RefreshFor(t, k, signal, now))
  {
  }

  lemma RefreshedOneMore(s: State, keys: set<Key>, current: map<Key, Signal>, devices: seq<Device>, now: int, t: State, k: Key)
    requires Bijection(s) && keys <= current.Keys && Signalled(s, keys, current, devices, now, t)
    requires k in current && k !in keys && k in t.active
    ensures Signalled(s, keys + {k}, current, devices, now, RefreshFor(t, k, current[k], now))
    ensures k in s.active && t.incidents[t.active[k]] == s.incidents[s.active[k]]
  {
    RefreshingKeepsBijection(t, k, current[k], now);
    ActiveKeyNames(t, k);
    ActiveKeyNames(s, k);
    assert forall l :: l in t.active && l != k ==> t.active[l] != t.active[k];
    RefreshedFrame(s, keys, current, devices, now, t, k);
  }

  lemma RefreshedFrame(s: State, keys: set<Key>, current: map<Key, Signal>, devices: seq<Device>, now: int, t: State, k: Key)
    requires keys <= current.Keys && SignalledFrame(s, keys, current, devices, now, t)
    requires k in current && k !in keys && k in s.active && k in t.active && t.active[k] in t.incidents
    requires s.active[k] in s.incidents && s.incidents[s.active[k]].active && s.incidents[s.active[k]].Identity() == k
    requires forall l :: l in t.active && l != k ==> t.active[l] != t.active[k]
    ensures SignalledFrame(s, keys + {k}, current, devices, now, RefreshFor(t, k, current[k], now))
  {
    var u := RefreshFor(t, k, current[k], now);
    assert u.active.Keys == s.active.Keys + (keys + {k});
  }

  lemma OpenedKind(s: State, keys: set<Key>, current: map<Key, Signal>, devices: seq<Device>, now: int, t: State, k: Key)
    requires keys <= current.Keys && t.nextId !in s.incidents && t.nextId !in t.incidents
    requires forall id :: ActiveIn(t.incidents, id) ==> t.incidents[id].Identity() != k
    requires k in current && k !in keys && current[k].Identity() == k
    ensures t.nextId !in SignalKinds(s, keys, current, t)
    ensures SignalKinds(s, keys + {k}, current, OpenFor(t, k, current[k], devices, now))
      == SignalKinds(s, keys, current, t)[t.nextId := Activated]
  {
  }

  lemma RefreshedKind(s: State, keys: set<Key>, current: map<Key, Signal>, t: State, k: Key, now: int)
    requires keys <= current.Keys && k in t.active
    requires t.active[k] in s.incidents && ActiveIn(t.incidents, t.active[k])
    requires t.incidents[t.active[k]] == s.incidents[t.active[k]] && t.incidents[t.active[k]].Identity() == k
    requires forall id :: ActiveIn(t.incidents, id) && t.incidents[id].Identity() == k ==> id == t.active[k]
    requires k in current && k !in keys
    ensures t.active[k] !in SignalKinds(s, keys, current, t)
    ensures
      SignalKinds(s, keys + {k}, current, RefreshFor(t, k, current[k], now))
      == if Differs(t.incidents[t.active[k]], current[k]) then SignalKinds(s, keys, current, t)[t.active[k] := Refreshed]
         else SignalKinds(s, keys, current, t)
  {
  }

  /** The report stays exact when a signal opens an incident. */
  lemma OpenReported(s: State, keys: set<Key>, current: map<Key, Signal>, devices: seq<Device>, now: int, t: State, k: Key,
                     ts: seq<Transition>, notify: bool)
    requires Bijection(s) && keys <= current.Keys && Signalled(s, keys, current, devices, now, t)
    requires k in current && k !in keys && current[k].Identity() == k && k !in t.active
    requires Reports(ts, SignalKinds(s, keys, current, t), t.incidents, notify)
    ensures
      var u := OpenFor(t, k, current[k], devices, now);
      && Signalled(s, keys + {k}, current, devices, now, u)
      && Reports(ts + [Transition(Activated, t.nextId, u.incidents[t.nextId], true)],
                 SignalKinds(s, keys + {k}, current, u), u.incidents, notify)
  {
    OpenedOneMore(s, keys, current, devices, now, t, k);
    OpenedKind(s, keys, current, devices, now, t, k);
    hide Signalled, Reports, SignalKinds, Bijection, Opened;
    var u := OpenFor(t, k, current[k], devices, now);
    ReportsOneMore(ts, SignalKinds(s, keys, current, t), t.incidents, notify,
                   Transition(Activated, t.nextId, u.incidents[t.nextId], true));
  }

  lemma OneMoreOrSame(ts: seq<Transition>, kinds: map<IncidentId, Kind>, incidents: map<IncidentId, Incident>,
                      notify: bool, id: IncidentId, incident: Incident, differs: bool)
    requires Reports(ts, kinds, incidents, notify) && id !in kinds
    ensures Reports(ts + if differs then [Transition(Refreshed, id, incident, false)] else [],
                    if differs then kinds[id := Refreshed] else kinds, incidents[id := incident], notify)
  {
    if differs {
      ReportsOneMore(ts, kinds, incidents, notify, Transition(Refreshed, id, incident, false));
    } else {
      assert ts + [] == ts;
    }
  }

  /** The report stays exact when a signal refreshes an incident, reported only if the content changed. */
  lemma RefreshReported(s: State, keys: set<Key>, current: map<Key, Signal>, devices: seq<Device>, now: int, t: State,
                        k: Key, ts: seq<Transition>, notify: bool)
    requires Bijection(s) && keys <= current.Keys && Signalled(s, keys, current, devices, now, t)
    requires k in current && k !in keys && k in t.active
    requires Reports(ts, SignalKinds(s, keys, current, t), t.incidents, notify)
    ensures ActiveIn(t.incidents, t.active[k])
    ensures
      var id := t.active[k];
      var u := RefreshFor(t, k, current[k], now);
      var more := if Differs(t.incidents[id], current[k]) then [Transition(Refreshed, id, u.incidents[id], false)] else [];
      && Signalled(s, keys + {k}, current, devices, now, u)
      && Reports(ts + more, SignalKinds(s, keys + {k}, current, u), u.incidents, notify)
  {
    RefreshedOneMore(s, keys, current, devices, now, t, k);
    RefreshedKind(s, keys, current, t, k, now);
    hide Signalled, SignalKinds, Bijection, Differs, Reports;
    var id := t.active[k];
    OneMoreOrSame(ts, SignalKinds(s, keys, current, t), t.incidents, notify, id, Seen(t.incidents[id], current[k], now),
                  Differs(t.incidents[id], current[k]));
  }

  lemma SignalledKeepsBijection(s: State, keys: set<Key>, current: map<Key, Signal>, devices: seq<Device>, now: int, t: State)
    requires keys <= current.Keys && Signalled(s, keys, current, devices, now, t)
    ensures Bijection(t)
  {
  }

  lemma FateByBranch(key: Key, incident: Incident, current: set<Key>, health: Health)
    ensures FateOf(key, incident, current, health).Stays? <==>
      key in current
      || (!SupersededBy(key, incident, current) && (key in DeferredKeys(health) || !RecoveryConfirmed(key, health)))
    ensures FateOf(key, incident, current, health).Supersedes? <==>
      key !in current && SupersededBy(key, incident, current)
  {
  }

  lemma AllNamed(s: State)
    requires Bijection(s)
    ensures forall k :: k in s.active ==> s.active[k] in s.incidents
  {
  }

  // ----- one health result as a whole

  /** What processing a health result makes of an incident that existed before. */
  function Evolved(incident: Incident, current: map<Key, Signal>, scope: Option<set<Ip>>, health: Health, now: int): Incident {
    if !incident.active then incident
    else if !InScope(incident.Identity(), scope) then Fated(incident, Supersedes, now)
    else if incident.Identity() in current then Seen(incident, current[incident.Identity()], now)
    else Fated(incident, FateOf(incident.Identity(), incident, current.Keys, health), now)
  }

  function ReportedKind(incident: Incident, current: map<Key, Signal>, scope: Option<set<Ip>>, health: Health): Option<Kind> {
    if !incident.active then None
    else if !InScope(incident.Identity(), scope) then Some(Superseded)
    else if incident.Identity() in current then
      if Differs(incident, current[incident.Identity()]) then Some(Refreshed) else None
    else
      var fate := FateOf(incident.Identity(), incident, current.Keys, health);
      if fate.Stays? then None else Some(KindOf(fate))
  }

  /** The old keys that stay active: in scope, and signalled, deferred or not confirmed recovered. */
  function KeptKeys(s: State, current: set<Key>, scope: Option<set<Ip>>, health: Health): set<Key> {
    set k | k in s.active && s.active[k] in s.incidents && InScope(k, scope)
            && FateOf(k, s.incidents[s.active[k]], current, health).Stays?
  }

  /** The active keys afterwards, who keeps its incident, and which incident a new key gets. */
  ghost predicate KeysProcessed(s: State, current: map<Key, Signal>, scope: Option<set<Ip>>, health: Health, now: int, t: State) {
    && t.active.Keys == current.Keys + KeptKeys(s, current.Keys, scope, health)
    && (forall k :: k in s.active && k in t.active ==> t.active[k] == s.active[k])
    && (forall k :: k in current && k !in s.active ==>
          s.nextId <= t.active[k] && t.active[k] in t.incidents
          && t.incidents[t.active[k]] == Opened(current[k], AliasOf(current[k], health.devices), now))
  }

  ghost predicate IncidentsProcessed(s: State, current: map<Key, Signal>, scope: Option<set<Ip>>, health: Health, now: int,
                                     t: State)
  {
    && (forall id :: id in s.incidents ==>
          id in t.incidents && t.incidents[id] == Evolved(s.incidents[id], current, scope, health, now))
    && (forall id :: id in t.incidents && id !in s.incidents ==> id >= s.nextId && t.incidents[id].active)
  }

  ghost predicate Processed(s: State, current: map<Key, Signal>, scope: Option<set<Ip>>, health: Health, now: int, t: State) {
    && Bijection(t) && s.nextId <= t.nextId
    && KeysProcessed(s, current, scope, health, now, t)
    && IncidentsProcessed(s, current, scope, health, now, t)
  }

  ghost function ProcessKinds(s: State, current: map<Key, Signal>, scope: Option<set<Ip>>, health: Health, t: State)
    : map<IncidentId, Kind>
  {
    map id | id in t.incidents
             && (id in s.incidents ==> ReportedKind(s.incidents[id], current, scope, health).Some?) ::
      if id in s.incidents then ReportedKind(s.incidents[id], current, scope, health).value else Activated
  }

  /** The three stages of one health result. */
  ghost predicate Staged(s: State, s1: State, s2: State, t: State, current: map<Key, Signal>, scope: Option<set<Ip>>,
                         health: Health, now: int)
  {
    && s1 == Closing(s, ScopeFates(s, scope), now)
    && Signalled(s1, current.Keys, current, health.devices, now, s2)
    && t == Closing(s2, SignalFates(s2, current.Keys, health), now)
  }

  lemma StagesEvolve(s: State, s1: State, s2: State, t: State, current: map<Key, Signal>, scope: Option<set<Ip>>,
                     health: Health, now: int, id: IncidentId)
    requires Bijection(s) && Bijection(s1) && Bijection(s2) && Staged(s, s1, s2, t, current, scope, health, now)
    requires forall k :: k in current ==> InScope(k, scope) && current[k].Identity() == k
    requires id in s.incidents
    ensures id in t.incidents && t.incidents[id] == Evolved(s.incidents[id], current, scope, health, now)
  {
    var incident := s.incidents[id];
    if incident.active {
      var k := incident.Identity();
      if !InScope(k, scope) {
        assert !s1.incidents[id].active;
      } else {
        assert s1.incidents[id] == incident && k in s1.active;
        assert k in s2.active && s2.active[k] == id;
      }
    }
  }

  lemma StagesKeepKey(s: State, s1: State, s2: State, t: State, current: map<Key, Signal>, scope: Option<set<Ip>>,
                      health: Health, now: int, k: Key)
    requires Bijection(s) && Bijection(s1) && Bijection(s2) && Staged(s, s1, s2, t, current, scope, health, now)
    requires k in current ==> InScope(k, scope)
    ensures k in t.active <==> k in current || k in KeptKeys(s, current.Keys, scope, health)
    ensures k in s.active && k in t.active ==> t.active[k] == s.active[k]
  {
    assert k in s1.active <==> k in s.active && InScope(k, scope);
    if k in s1.active {
      var id := s.active[k];
      assert s1.incidents[id] == s.incidents[id];
      assert s2.active[k] == id;
      assert k !in current ==> s2.incidents[id] == s.incidents[id];
    }
  }

  lemma StagesOpen(s: State, s1: State, s2: State, t: State, current: map<Key, Signal>, scope: Option<set<Ip>>,
                   health: Health, now: int, k: Key)
    requires Bijection(s) && Bijection(s1) && Bijection(s2) && Staged(s, s1, s2, t, current, scope, health, now)
    requires k in current && k !in s.active
    ensures k in t.active && s.nextId <= t.active[k] && t.active[k] in t.incidents
    ensures t.incidents[t.active[k]] == Opened(current[k], AliasOf(current[k], health.devices), now)
  {
    var id := s2.active[k];
    assert s2.incidents[id].Identity() == k;
  }

  lemma StagesNew(s: State, s1: State, s2: State, t: State, current: map<Key, Signal>, scope: Option<set<Ip>>,
                  health: Health, now: int, id: IncidentId)
    requires Bijection(s) && Bijection(s1) && Bijection(s2) && Staged(s, s1, s2, t, current, scope, health, now)
    requires id in t.incidents && id !in s.incidents
    ensures id >= s.nextId && t.incidents[id].active && id in s2.incidents && s2.incidents[id] == t.incidents[id]
    ensures s2.incidents[id].Identity() in current
  {
    var k := s2.incidents[id].Identity();
    assert id !in s1.incidents;
    assert s2.active[k] == id;
    assert k in s2.active && k !in s1.active;
  }

  lemma StagesKeys(s: State, s1: State, s2: State, t: State, current: map<Key, Signal>, scope: Option<set<Ip>>,
                   health: Health, now: int)
    requires Bijection(s) && Bijection(s1) && Bijection(s2) && Staged(s, s1, s2, t, current, scope, health, now)
    requires forall k :: k in current ==> InScope(k, scope)
    ensures KeysProcessed(s, current, scope, health, now, t)
  {
    hide Staged, KeptKeys, Opened, Bijection, InScope, AliasOf;
    var after := current.Keys + KeptKeys(s, current.Keys, scope, health);
    forall k | k in t.active
      ensures k in after && (k in s.active ==> t.active[k] == s.active[k])
    {
      StagesKeepKey(s, s1, s2, t, current, scope, health, now, k);
    }
    forall k | k in after
      ensures k in t.active
    {
      StagesKeepKey(s, s1, s2, t, current, scope, health, now, k);
    }
    forall k | k in current && k !in s.active
      ensures k in t.active && s.nextId <= t.active[k] && t.active[k] in t.incidents
      ensures t.incidents[t.active[k]] == Opened(current[k], AliasOf(current[k], health.devices), now)
    {
      StagesOpen(s, s1, s2, t, current, scope, health, now, k);
    }
  }

  lemma StagesIncidents(s: State, s1: State, s2: State, t: State, current: map<Key, Signal>, scope: Option<set<Ip>>,
                        health: Health, now: int)
    requires Bijection(s) && Bijection(s1) && Bijection(s2) && Staged(s, s1, s2, t, current, scope, health, now)
    requires forall k :: k in current ==> InScope(k, scope) && current[k].Identity() == k
    ensures IncidentsProcessed(s, current, scope, health, now, t)
  {
    hide Evolved, Staged, Bijection, InScope;
    forall id | id in s.incidents
      ensures id in t.incidents && t.incidents[id] == Evolved(s.incidents[id], current, scope, health, now)
    {
      StagesEvolve(s, s1, s2, t, current, scope, health, now, id);
    }
    forall id | id in t.incidents && id !in s.incidents
      ensures id >= s.nextId && t.incidents[id].active
    {
      StagesNew(s, s1, s2, t, current, scope, health, now, id);
    }
  }

  lemma StagesCompose(s: State, s1: State, s2: State, t: State, current: map<Key, Signal>, scope: Option<set<Ip>>,
                      health: Health, now: int)
    requires Bijection(s) && Bijection(s1) && Bijection(s2) && Bijection(t)
    requires Staged(s, s1, s2, t, current, scope, health, now)
    requires forall k :: k in current ==> InScope(k, scope) && current[k].Identity() == k
    ensures Processed(s, current, scope, health, now, t)
  {
    hide Bijection, InScope, KeysProcessed, IncidentsProcessed;
    StagesKeys(s, s1, s2, t, current, scope, health, now);
    StagesIncidents(s, s1, s2, t, current, scope, health, now);
  }

  /** Which of the three stages reports an incident, and as what. */
  ghost predicate ReportedOnce(k1: map<IncidentId, Kind>, k2: map<IncidentId, Kind>, k3: map<IncidentId, Kind>,
                               all: map<IncidentId, Kind>, id: IncidentId)
  {
    && (id in all <==> id in k1 || id in k2 || id in k3)
    && (id in k1 ==> id !in k2 && id !in k3 && all[id] == k1[id])
    && (id in k2 ==> id !in k3 && all[id] == k2[id])
    && (id in k3 ==> all[id] == k3[id])
  }

  lemma StagesKindOfOld(s: State, s1: State, s2: State, t: State, current: map<Key, Signal>, scope: Option<set<Ip>>,
                        health: Health, now: int, id: IncidentId)
    requires Bijection(s) && Bijection(s1) && Bijection(s2) && Staged(s, s1, s2, t, current, scope, health, now)
    requires forall k :: k in current ==> InScope(k, scope) && current[k].Identity() == k
    requires id in s.incidents
    ensures ReportedOnce(ClosingKinds(s, ScopeFates(s, scope)), SignalKinds(s1, current.Keys, current, s2),
                         ClosingKinds(s2, SignalFates(s2, current.Keys, health)),
                         ProcessKinds(s, current, scope, health, t), id)
    ensures id in s1.incidents && id in s2.incidents && id in t.incidents
    ensures id in ClosingKinds(s, ScopeFates(s, scope)) ==> t.incidents[id] == s1.incidents[id]
    ensures id in SignalKinds(s1, current.Keys, current, s2) ==> t.incidents[id] == s2.incidents[id]
  {
    var incident := s.incidents[id];
    var k := incident.Identity();
    if incident.active && InScope(k, scope) {
      assert s1.incidents[id] == incident && s1.active[k] == id;
      assert s2.active[k] == id;
      if k !in current {
        assert s2.incidents[id] == incident;
      }
    } else {
      assert !s1.incidents[id].active && s2.incidents[id] == s1.incidents[id];
    }
  }

  lemma StagesKindOfNew(s: State, s1: State, s2: State, t: State, current: map<Key, Signal>, scope: Option<set<Ip>>,
                        health: Health, now: int, id: IncidentId)
    requires Bijection(s) && Bijection(s1) && Bijection(s2) && Staged(s, s1, s2, t, current, scope, health, now)
    requires id !in s.incidents && id in t.incidents
    ensures ReportedOnce(ClosingKinds(s, ScopeFates(s, scope)), SignalKinds(s1, current.Keys, current, s2),
                         ClosingKinds(s2, SignalFates(s2, current.Keys, health)),
                         ProcessKinds(s, current, scope, health, t), id)
    ensures id in s2.incidents && t.incidents[id] == s2.incidents[id]
  {
    StagesNew(s, s1, s2, t, current, scope, health, now, id);
  }

  ghost predicate ReportsFit(ids: set<IncidentId>, k1: map<IncidentId, Kind>, k2: map<IncidentId, Kind>,
                             k3: map<IncidentId, Kind>, all: map<IncidentId, Kind>)
  {
    && k1.Keys <= ids && k2.Keys <= ids && k3.Keys <= ids && all.Keys <= ids
    && forall id :: id in ids ==> ReportedOnce(k1, k2, k3, all, id)
  }

  lemma FittingKinds(ids: set<IncidentId>, k1: map<IncidentId, Kind>, k2: map<IncidentId, Kind>,
                     k3: map<IncidentId, Kind>, all: map<IncidentId, Kind>)
    requires ReportsFit(ids, k1, k2, k3, all)
    ensures k1.Keys !! k2.Keys && (k1 + k2).Keys !! k3.Keys && k1 + k2 + k3 == all
  {
  }

  lemma ReportsOfThree(ids: set<IncidentId>, k1: map<IncidentId, Kind>, k2: map<IncidentId, Kind>,
                       k3: map<IncidentId, Kind>, all: map<IncidentId, Kind>,
                       ts1: seq<Transition>, ts2: seq<Transition>, ts3: seq<Transition>,
                       incidents: map<IncidentId, Incident>, notify: bool)
    requires ReportsFit(ids, k1, k2, k3, all)
    requires Reports(ts1, k1, incidents, notify) && Reports(ts2, k2, incidents, notify) && Reports(ts3, k3, incidents, notify)
    ensures Reports(ts1 + ts2 + ts3, all, incidents, notify)
  {
    hide Reports;
    FittingKinds(ids, k1, k2, k3, all);
    ReportsJoined(ts1, k1, ts2, k2, incidents, notify);
    ReportsJoined(ts1 + ts2, k1 + k2, ts3, k3, incidents, notify);
  }

  lemma StagesKeepAll(s: State, s1: State, s2: State, t: State, current: map<Key, Signal>, scope: Option<set<Ip>>,
                      health: Health, now: int)
    requires Staged(s, s1, s2, t, current, scope, health, now)
    ensures forall id :: id in s.incidents ==> id in t.incidents
    ensures ClosingKinds(s, ScopeFates(s, scope)).Keys <= t.incidents.Keys
    ensures SignalKinds(s1, current.Keys, current, s2).Keys <= t.incidents.Keys
    ensures ClosingKinds(s2, SignalFates(s2, current.Keys, health)).Keys <= t.incidents.Keys
    ensures ProcessKinds(s, current, scope, health, t).Keys <= t.incidents.Keys
  {
  }

  lemma StagesFit(s: State, s1: State, s2: State, t: State, current: map<Key, Signal>, scope: Option<set<Ip>>,
                  health: Health, now: int)
    requires Bijection(s) && Bijection(s1) && Bijection(s2) && Staged(s, s1, s2, t, current, scope, health, now)
    requires forall k :: k in current ==> InScope(k, scope) && current[k].Identity() == k
    ensures ReportsFit(t.incidents.Keys, ClosingKinds(s, ScopeFates(s, scope)), SignalKinds(s1, current.Keys, current, s2),
                       ClosingKinds(s2, SignalFates(s2, current.Keys, health)),
                       ProcessKinds(s, current, scope, health, t))
  {
    StagesKeepAll(s, s1, s2, t, current, scope, health, now);
    hide Bijection, InScope, Staged, ScopeFates, SignalFates, ReportedOnce, ClosingKinds, SignalKinds, ProcessKinds;
    forall id | id in t.incidents
      ensures ReportedOnce(ClosingKinds(s, ScopeFates(s, scope)), SignalKinds(s1, current.Keys, current, s2),
                           ClosingKinds(s2, SignalFates(s2, current.Keys, health)),
                           ProcessKinds(s, current, scope, health, t), id)
    {
      if id in s.incidents {
        StagesKindOfOld(s, s1, s2, t, current, scope, health, now, id);
      } else {
        StagesKindOfNew(s, s1, s2, t, current, scope, health, now, id);
      }
    }
  }

  lemma StagesAgreeAt(s: State, s1: State, s2: State, t: State, current: map<Key, Signal>, scope: Option<set<Ip>>,
                      health: Health, now: int, id: IncidentId)
    requires Bijection(s) && Bijection(s1) && Bijection(s2) && Staged(s, s1, s2, t, current, scope, health, now)
    requires forall k :: k in current ==> InScope(k, scope) && current[k].Identity() == k
    requires id in t.incidents
    ensures id in ClosingKinds(s, ScopeFates(s, scope)) && id in s1.incidents ==> t.incidents[id] == s1.incidents[id]
    ensures id in SignalKinds(s1, current.Keys, current, s2) && id in s2.incidents ==> t.incidents[id] == s2.incidents[id]
  {
  }

  /** What an early stage reported is still so at the end. */
  lemma StagesAgree(s: State, s1: State, s2: State, t: State, current: map<Key, Signal>, scope: Option<set<Ip>>,
                    health: Health, now: int)
    requires Bijection(s) && Bijection(s1) && Bijection(s2) && Staged(s, s1, s2, t, current, scope, health, now)
    requires forall k :: k in current ==> InScope(k, scope) && current[k].Identity() == k
    ensures forall id :: id in ClosingKinds(s, ScopeFates(s, scope)) && id in s1.incidents ==>
      id in t.incidents && t.incidents[id] == s1.incidents[id]
    ensures forall id :: id in SignalKinds(s1, current.Keys, current, s2) && id in s2.incidents ==>
      id in t.incidents && t.incidents[id] == s2.incidents[id]
  {
    StagesKeepAll(s, s1, s2, t, current, scope, health, now);
    hide Bijection, InScope, Staged, ScopeFates, ClosingKinds, SignalKinds;
    forall id | id in t.incidents
      ensures id in ClosingKinds(s, ScopeFates(s, scope)) && id in s1.incidents ==> t.incidents[id] == s1.incidents[id]
      ensures id in SignalKinds(s1, current.Keys, current, s2) && id in s2.incidents ==> t.incidents[id] == s2.incidents[id]
    {
      StagesAgreeAt(s, s1, s2, t, current, scope, health, now, id);
    }
  }

  lemma StagesReport(s: State, s1: State, s2: State, t: State, current: map<Key, Signal>, scope: Option<set<Ip>>,
                     health: Health, now: int, ts1: seq<Transition>, ts2: seq<Transition>, ts3: seq<Transition>, notify: bool)
    requires Bijection(s) && Bijection(s1) && Bijection(s2) && Staged(s, s1, s2, t, current, scope, health, now)
    requires forall k :: k in current ==> InScope(k, scope) && current[k].Identity() == k
    requires Reports(ts1, ClosingKinds(s, ScopeFates(s, scope)), s1.incidents, notify)
    requires Reports(ts2, SignalKinds(s1, current.Keys, current, s2), s2.incidents, notify)
    requires Reports(ts3, ClosingKinds(s2, SignalFates(s2, current.Keys, health)), t.incidents, notify)
    ensures Reports(ts1 + ts2 + ts3, ProcessKinds(s, current, scope, health, t), t.incidents, notify)
  {
    hide Bijection, InScope, Staged, ScopeFates, SignalFates, ReportedKind, ClosingKinds, SignalKinds, ProcessKinds,
         ReportsFit, Reports;
    StagesAgree(s, s1, s2, t, current, scope, health, now);
    StagesFit(s, s1, s2, t, current, scope, health, now);
    ReportsOf(ts1, ClosingKinds(s, ScopeFates(s, scope)), s1.incidents, t.incidents, notify);
    ReportsOf(ts2, SignalKinds(s1, current.Keys, current, s2), s2.incidents, t.incidents, notify);
    ReportsOfThree(t.incidents.Keys, ClosingKinds(s, ScopeFates(s, scope)), SignalKinds(s1, current.Keys, current, s2),
                   ClosingKinds(s2, SignalFates(s2, current.Keys, health)),
                   ProcessKinds(s, current, scope, health, t), ts1, ts2, ts3, t.incidents, notify);
  }

  function CurrentOf(health: Health): map<Key, Signal> {
    CurrentSignals(health.signals, MonitoringScope(health))
  }

  lemma CurrentKeysFit(current: map<Key, Signal>, signals: seq<Signal>, scope: Option<set<Ip>>)
    requires IsCurrent(current, signals, scope)
    ensures forall k :: k in current ==> InScope(k, scope) && current[k].Identity() == k
  {
  }

  lemma UnscopedStays(s: State, now: int, notify: bool)
    requires Bijection(s)
    ensures Closing(s, ScopeFates(s, None), now) == s
    ensures Reports([], ClosingKinds(s, ScopeFates(s, None)), s.incidents, notify)
  {
  }
}
