/** The incident lifecycle: which signals open, refresh and close incidents.

    `State` is the manager's content as a value, with the bijection between active incidents and their
    keys as its invariant; the class carries out the operations and is proved against relations on it.
    Incident ids are drawn from a counter, which stands for ids that never repeat. */
module Incidents {
  import opened Prelude

  datatype IncidentType =
    | MmDown | ClientDistribution | ConnectionTypeChanged | MmMemberMissing | LoadMemberMissing
    | MembershipMemberMissing | CollectionFailure

  datatype Severity = Normal | Warning | Critical | Unknown

  type IncidentId = nat

  /** A device address is never empty; in the database an empty text stands for no address. */
  type Address = s: Ip | s != "" witness "0.0.0.0"

  /** What makes two signals the same incident. */
  datatype Key = Key(kind: IncidentType, ip: Option<Address>, token: string)

  function MakeKey(kind: IncidentType, ip: Option<Address>, token: string): Key {
    Key(kind, ip, if kind.ConnectionTypeChanged? || kind.CollectionFailure? then token else "")
  }

  datatype Incident = Incident(
    kind: IncidentType,
    severity: Severity,
    reason: string,
    firstDetectedAt: int,
    lastSeenAt: int,
    ip: Option<Address>,
    alias: Option<string>,
    token: string,
    details: string,
    active: bool,
    acknowledgedAt: Option<int>,
    recoveredAt: Option<int>,
    lastNotifiedAt: Option<int>)
  {
    function Identity(): Key {
      MakeKey(kind, ip, token)
    }
  }

  datatype Signal = Signal(
    kind: IncidentType, severity: Severity, reason: string, ip: Option<Address>, token: string, details: string)
  {
    function Identity(): Key {
      MakeKey(kind, ip, token)
    }
  }

  datatype MmStatus = NoStatus | UpStatus | OtherStatus

  datatype Device = Device(ip: Ip, displayName: string, registered: bool, mmPresent: bool, mmStatus: MmStatus)

  datatype Deferred = Deferred(kind: IncidentType, ip: Option<Address>, token: string)

  datatype Health = Health(
    devices: seq<Device>, signals: seq<Signal>, deferred: seq<Deferred>, scope: Option<set<Ip>>)

  datatype Kind = Activated | Refreshed | Recovered | Acknowledged | Superseded

  datatype Transition = Transition(kind: Kind, id: IncidentId, incident: Incident, notify: bool)

  // ----- the manager's content

  datatype State = State(incidents: map<IncidentId, Incident>, active: map<Key, IncidentId>, nextId: nat)

  ghost predicate ActiveIn(incidents: map<IncidentId, Incident>, id: IncidentId) {
    id in incidents && incidents[id].active
  }

  /** Active incidents and active keys are in bijection, and ids in use are below the supply. */
  ghost predicate Bijection(s: State) {
    && (forall id :: ActiveIn(s.incidents, id) ==>
          s.incidents[id].Identity() in s.active && s.active[s.incidents[id].Identity()] == id)
    && (forall k :: k in s.active ==> ActiveIn(s.incidents, s.active[k]) && s.incidents[s.active[k]].Identity() == k)
    && (forall id :: id in s.incidents ==> id < s.nextId)
  }

  lemma ActiveKeyNames(s: State, k: Key)
    requires Bijection(s) && k in s.active
    ensures ActiveIn(s.incidents, s.active[k]) && s.incidents[s.active[k]].Identity() == k
  {
  }

  function ActiveIds(s: State): set<IncidentId> {
    set id | id in s.incidents && s.incidents[id].active
  }

  // ----- what one health result says

  function MonitoringScope(health: Health): Option<set<Ip>> {
    if health.scope.Some? then health.scope
    else
      var registered := set d | d in health.devices && d.registered :: d.ip;
      if registered != {} then Some(registered) else None
  }

  /** Collection failures and global signals are never out of scope. */
  predicate InScope(key: Key, scope: Option<set<Ip>>) {
    key.kind.CollectionFailure? || key.ip.None? || scope.None? || key.ip.value in scope.value
  }

  /** The first signal of the list that has this key. */
  ghost predicate FirstWithKey(signals: seq<Signal>, key: Key, signal: Signal) {
    exists i :: 0 <= i < |signals| && signals[i] == signal && signal.Identity() == key
      && forall j :: 0 <= j < i ==> signals[j].Identity() != key
  }

  /** The current signals by key, as they are collected from the list. */
  function CurrentSignals(signals: seq<Signal>, scope: Option<set<Ip>>): map<Key, Signal> {
    if signals == [] then map[]
    else
      var earlier := CurrentSignals(signals[..|signals| - 1], scope);
      var last := signals[|signals| - 1];
      if InScope(last.Identity(), scope) && last.Identity() !in earlier then earlier[last.Identity() := last] else earlier
  }

  /** The current signals by key: in scope, the first of each key. */
  ghost predicate IsCurrent(current: map<Key, Signal>, signals: seq<Signal>, scope: Option<set<Ip>>) {
    && (forall k :: k in current ==> InScope(k, scope) && FirstWithKey(signals, k, current[k]))
    && (forall i :: 0 <= i < |signals| && InScope(signals[i].Identity(), scope) ==> signals[i].Identity() in current)
  }

  lemma FirstStaysFirst(signals: seq<Signal>, last: Signal, key: Key, signal: Signal)
    requires FirstWithKey(signals, key, signal)
    ensures FirstWithKey(signals + [last], key, signal)
  {
    var i :| 0 <= i < |signals| && signals[i] == signal && forall j :: 0 <= j < i ==> signals[j].Identity() != key;
    assert (signals + [last])[i] == signal;
  }

  lemma LastIsFirst(signals: seq<Signal>, last: Signal)
    requires forall j :: 0 <= j < |signals| ==> signals[j].Identity() != last.Identity()
    ensures FirstWithKey(signals + [last], last.Identity(), last)
  {
    assert (signals + [last])[|signals|] == last;
  }

  lemma {:induction false} SignalledKeyIsCurrent(signals: seq<Signal>, scope: Option<set<Ip>>, i: nat)
    requires i < |signals| && InScope(signals[i].Identity(), scope)
    ensures signals[i].Identity() in CurrentSignals(signals, scope)
  {
    if i < |signals| - 1 {
      SignalledKeyIsCurrent(signals[..|signals| - 1], scope, i);
    }
  }

  lemma {:induction false} CurrentIsFirst(signals: seq<Signal>, scope: Option<set<Ip>>, k: Key)
    requires k in CurrentSignals(signals, scope)
    ensures InScope(k, scope) && FirstWithKey(signals, k, CurrentSignals(signals, scope)[k])
  {
    var init, last := signals[..|signals| - 1], signals[|signals| - 1];
    assert signals == init + [last];
    var earlier := CurrentSignals(init, scope);
    hide FirstWithKey;
    if k in earlier {
      CurrentIsFirst(init, scope, k);
      FirstStaysFirst(init, last, k, earlier[k]);
    } else {
      forall j | 0 <= j < |init|
        ensures init[j].Identity() != last.Identity()
      {
        if init[j].Identity() == last.Identity() {
          SignalledKeyIsCurrent(init, scope, j);
        }
      }
      LastIsFirst(init, last);
    }
  }

  lemma CurrentSignalsMeaning(signals: seq<Signal>, scope: Option<set<Ip>>)
    ensures IsCurrent(CurrentSignals(signals, scope), signals, scope)
  {
    forall k | k in CurrentSignals(signals, scope)
      ensures InScope(k, scope) && FirstWithKey(signals, k, CurrentSignals(signals, scope)[k])
    {
      CurrentIsFirst(signals, scope, k);
    }
    forall i: nat | i < |signals| && InScope(signals[i].Identity(), scope)
      ensures signals[i].Identity() in CurrentSignals(signals, scope)
    {
      SignalledKeyIsCurrent(signals, scope, i);
    }
  }

  function AliasFor(devices: seq<Device>, ip: Ip): Option<string> {
    if devices == [] then None
    else if devices[|devices| - 1].ip == ip then Some(devices[|devices| - 1].displayName)
    else AliasFor(devices[..|devices| - 1], ip)
  }

  function DeviceByIp(devices: seq<Device>, ip: Ip): Option<Device> {
    if devices == [] then None
    else if devices[0].ip == ip then Some(devices[0])
    else DeviceByIp(devices[1..], ip)
  }

  predicate ReportsUp(health: Health, ip: Ip) {
    var device := DeviceByIp(health.devices, ip);
    device.Some? && device.value.mmPresent && device.value.mmStatus.UpStatus?
  }

  /** A key that is no longer signalled may close, except that MM Down needs positive evidence of Up. */
  predicate RecoveryConfirmed(key: Key, health: Health) {
    key.kind.MmDown? ==> key.ip.Some? && ReportsUp(health, key.ip.value)
  }

  predicate SupersededBy(key: Key, incident: Incident, current: set<Key>) {
    key.kind.ConnectionTypeChanged?
    && exists k :: k in current && k.kind.ConnectionTypeChanged? && k.ip == key.ip && k.token != incident.token
  }

  function DeferredKeys(health: Health): set<Key> {
    set d | d in health.deferred :: MakeKey(d.kind, d.ip, d.token)
  }

  datatype Fate = Stays | Supersedes | Recovers

  /** What a signalled-or-not active key comes to, once it is in scope. */
  function FateOf(key: Key, incident: Incident, current: set<Key>, health: Health): Fate {
    if key in current then Stays
    else if SupersededBy(key, incident, current) then Supersedes
    else if key in DeferredKeys(health) || !RecoveryConfirmed(key, health) then Stays
    else Recovers
  }

  // ----- what happens to a single incident

  function Opened(signal: Signal, alias: Option<string>, now: int): Incident {
    Incident(signal.kind, signal.severity, signal.reason, now, now, signal.ip, alias, signal.token, signal.details,
             true, None, None, None)
  }

  function AliasOf(signal: Signal, devices: seq<Device>): Option<string> {
    if signal.ip.None? then None else AliasFor(devices, signal.ip.value)
  }

  function Seen(incident: Incident, signal: Signal, now: int): Incident {
    incident.(lastSeenAt := now, reason := signal.reason, severity := signal.severity, details := signal.details)
  }

  predicate Differs(incident: Incident, signal: Signal) {
    incident.reason != signal.reason || incident.severity != signal.severity || incident.details != signal.details
  }

  // ----- reports

  /** The list tells exactly these changes, each incident once, with the incident as it then is. */
  ghost predicate Reports(ts: seq<Transition>, kinds: map<IncidentId, Kind>, incidents: map<IncidentId, Incident>,
                          recoveryNotifications: bool) {
    && (forall i :: 0 <= i < |ts| ==>
          && ts[i].id in kinds && ts[i].kind == kinds[ts[i].id]
          && ts[i].id in incidents && ts[i].incident == incidents[ts[i].id]
          && ts[i].notify == (ts[i].kind.Activated? || (ts[i].kind.Recovered? && recoveryNotifications)))
    && (forall i, j :: 0 <= i < j < |ts| ==> ts[i].id != ts[j].id)
    && (forall id :: id in kinds ==> exists i :: 0 <= i < |ts| && ts[i].id == id)
  }

  lemma ReportsOneMore(ts: seq<Transition>, kinds: map<IncidentId, Kind>, incidents: map<IncidentId, Incident>,
                       notify: bool, t: Transition)
    requires Reports(ts, kinds, incidents, notify) && t.id !in kinds
    requires t.notify == (t.kind.Activated? || (t.kind.Recovered? && notify))
    ensures Reports(ts + [t], kinds[t.id := t.kind], incidents[t.id := t.incident], notify)
  {
    var more := ts + [t];
    var moreKinds := kinds[t.id := t.kind];
    forall id | id in moreKinds
      ensures exists i :: 0 <= i < |more| && more[i].id == id
    {
      if id == t.id {
        assert more[|ts|].id == id;
      } else {
        var i :| 0 <= i < |ts| && ts[i].id == id;
        assert more[i].id == id;
      }
    }
  }

  lemma ReportsOf(ts: seq<Transition>, kinds: map<IncidentId, Kind>, incidents: map<IncidentId, Incident>,
                  others: map<IncidentId, Incident>, notify: bool)
    requires Reports(ts, kinds, incidents, notify)
    requires forall id :: id in kinds && id in incidents ==> id in others && others[id] == incidents[id]
    ensures Reports(ts, kinds, others, notify)
  {
  }

  lemma ReportsJoined(a: seq<Transition>, ka: map<IncidentId, Kind>, b: seq<Transition>, kb: map<IncidentId, Kind>,
                      incidents: map<IncidentId, Incident>, notify: bool)
    requires Reports(a, ka, incidents, notify) && Reports(b, kb, incidents, notify) && ka.Keys !! kb.Keys
    ensures Reports(a + b, ka + kb, incidents, notify)
  {
    var ts := a + b;
    var kinds := ka + kb;
    forall id | id in kinds
      ensures exists i :: 0 <= i < |ts| && ts[i].id == id
    {
      if id in kb {
        var i :| 0 <= i < |b| && b[i].id == id;
        assert ts[|a| + i].id == id;
      } else {
        var i :| 0 <= i < |a| && a[i].id == id;
        assert ts[i].id == id;
      }
    }
  }
}
