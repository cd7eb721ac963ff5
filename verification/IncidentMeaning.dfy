/** What a health result does to incidents, over its own lists of devices, signals and deferrals. */
module IncidentMeaning {
  import opened Prelude
  import opened Incidents
  import opened IncidentStages

  // ----- what a result says about one incident

  /** This kind of event, at this address; connection types and collection failures also by their token. */
  ghost predicate SameEvent(kind: IncidentType, ip: Option<Address>, token: string, i: Incident) {
    && kind == i.kind && ip == i.ip
    && (kind == ConnectionTypeChanged || kind == CollectionFailure ==> token == i.token)
  }

  /** A device incident whose address is not monitored: by the declared scope or, without one, by the
      registered devices, if there are any. */
  ghost predicate LeftScope(health: Health, kind: IncidentType, ip: Option<Address>) {
    && kind != CollectionFailure && ip.Some?
    && if health.scope.Some? then ip.value !in health.scope.value
       else (exists d :: d in health.devices && d.registered)
            && forall d :: d in health.devices && d.registered ==> d.ip != ip.value
  }

  ghost predicate FirstSignal(health: Health, i: Incident, g: Signal) {
    exists x :: 0 <= x < |health.signals| && health.signals[x] == g && SameEvent(g.kind, g.ip, g.token, i)
      && forall y :: 0 <= y < x ==>
           !SameEvent(health.signals[y].kind, health.signals[y].ip, health.signals[y].token, i)
  }

  ghost predicate IsSignalled(health: Health, i: Incident) {
    exists g :: g in health.signals && SameEvent(g.kind, g.ip, g.token, i)
  }

  ghost predicate IsDeferred(health: Health, i: Incident) {
    exists d :: d in health.deferred && SameEvent(d.kind, d.ip, d.token, i)
  }

  /** The same member shows another connection-type change. */
  ghost predicate IsReplaced(health: Health, i: Incident) {
    i.kind == ConnectionTypeChanged
    && exists g :: g in health.signals && g.kind == ConnectionTypeChanged && g.ip == i.ip && g.token != i.token
  }

  /** The first device row of this address is present at MM and reported up. */
  ghost predicate ShownUp(devices: seq<Device>, ip: Ip) {
    exists x :: 0 <= x < |devices| && devices[x].ip == ip && devices[x].mmPresent && devices[x].mmStatus == UpStatus
      && forall y :: 0 <= y < x ==> devices[y].ip != ip
  }

  /** The result confirms that the incident is over; of MM Down only a device shown up does. */
  ghost predicate IsOver(health: Health, i: Incident) {
    && !LeftScope(health, i.kind, i.ip) && !IsSignalled(health, i) && !IsReplaced(health, i) && !IsDeferred(health, i)
    && (i.kind == MmDown ==> i.ip.Some? && ShownUp(health.devices, i.ip.value))
  }

  // ----- the same in the terms of keys

  lemma ScopeMeans(health: Health, i: Incident)
    ensures InScope(i.Identity(), MonitoringScope(health)) <==> !LeftScope(health, i.kind, i.ip)
  {
    var registered := set d | d in health.devices && d.registered :: d.ip;
    if health.scope.None? && i.ip.Some? {
      assert registered == {} <==> forall d :: d in health.devices ==> !d.registered by {
        if d :| d in health.devices && d.registered {
          assert d.ip in registered;
        }
      }
      assert i.ip.value in registered <==> exists d :: d in health.devices && d.registered && d.ip == i.ip.value;
    }
  }

  lemma KeyMeans(kind: IncidentType, ip: Option<Address>, token: string, i: Incident)
    ensures MakeKey(kind, ip, token) == i.Identity() <==> SameEvent(kind, ip, token, i)
  {
  }

  lemma SignalledMeans(health: Health, i: Incident)
    requires !LeftScope(health, i.kind, i.ip)
    ensures i.Identity() in CurrentOf(health) <==> IsSignalled(health, i)
    ensures forall g :: FirstSignal(health, i, g) ==> i.Identity() in CurrentOf(health) && CurrentOf(health)[i.Identity()] == g
  {
    var key := i.Identity();
    ScopeMeans(health, i);
    CurrentSignalsMeaning(health.signals, MonitoringScope(health));
    forall g: Signal
      ensures g.Identity() == key <==> SameEvent(g.kind, g.ip, g.token, i)
    {
      KeyMeans(g.kind, g.ip, g.token, i);
    }
    hide SameEvent, LeftScope, MakeKey, CurrentSignals, InScope, MonitoringScope;
    if g :| g in health.signals && SameEvent(g.kind, g.ip, g.token, i) {
      var x :| 0 <= x < |health.signals| && health.signals[x] == g;
      assert key in CurrentOf(health);
    }
    if key in CurrentOf(health) {
      assert FirstWithKey(health.signals, key, CurrentOf(health)[key]);
    }
  }

  lemma ReplacedMeans(health: Health, i: Incident)
    requires !LeftScope(health, i.kind, i.ip)
    ensures SupersededBy(i.Identity(), i, CurrentOf(health).Keys) <==> IsReplaced(health, i)
  {
    if i.kind == ConnectionTypeChanged {
      var scope := MonitoringScope(health);
      ScopeMeans(health, i);
      CurrentSignalsMeaning(health.signals, scope);
      hide LeftScope, CurrentSignals, MonitoringScope;
      if g :| g in health.signals && g.kind == ConnectionTypeChanged && g.ip == i.ip && g.token != i.token {
        var x :| 0 <= x < |health.signals| && health.signals[x] == g;
        assert InScope(g.Identity(), scope) && g.Identity() in CurrentOf(health);
      }
      if k :| k in CurrentOf(health) && k.kind.ConnectionTypeChanged? && k.ip == i.Identity().ip && k.token != i.token {
        assert FirstWithKey(health.signals, k, CurrentOf(health)[k]);
      }
    }
  }

  lemma DeferredMeans(health: Health, i: Incident)
    ensures i.Identity() in DeferredKeys(health) <==> IsDeferred(health, i)
  {
    forall d | d in health.deferred
      ensures MakeKey(d.kind, d.ip, d.token) == i.Identity() <==> SameEvent(d.kind, d.ip, d.token, i)
    {
      KeyMeans(d.kind, d.ip, d.token, i);
    }
    hide SameEvent, MakeKey;
  }

  lemma {:induction false} FirstDevice(devices: seq<Device>, ip: Ip)
    ensures ShownUp(devices, ip) <==>
      var d := DeviceByIp(devices, ip);
      d.Some? && d.value.mmPresent && d.value.mmStatus == UpStatus
  {
    if devices != [] && devices[0].ip != ip {
      FirstDevice(devices[1..], ip);
      LaterDevice(devices, ip);
    }
  }

  lemma LaterDevice(devices: seq<Device>, ip: Ip)
    requires devices != [] && devices[0].ip != ip
    ensures ShownUp(devices, ip) <==> ShownUp(devices[1..], ip)
  {
    var rest := devices[1..];
    if ShownUp(rest, ip) {
      var x :| 0 <= x < |rest| && rest[x].ip == ip && rest[x].mmPresent && rest[x].mmStatus == UpStatus
        && forall y :: 0 <= y < x ==> rest[y].ip != ip;
      assert devices[x + 1] == rest[x];
      assert forall y :: 0 < y < x + 1 ==> devices[y] == rest[y - 1];
    }
    if ShownUp(devices, ip) {
      var x :| 0 <= x < |devices| && devices[x].ip == ip && devices[x].mmPresent && devices[x].mmStatus == UpStatus
        && forall y :: 0 <= y < x ==> devices[y].ip != ip;
      assert rest[x - 1] == devices[x];
    }
  }

  /** What the stages decide by keys is what the result says. */
  lemma FateIsMeant(health: Health, i: Incident)
    requires !LeftScope(health, i.kind, i.ip) && !IsSignalled(health, i)
    ensures
      var fate := FateOf(i.Identity(), i, CurrentOf(health).Keys, health);
      && (fate == Recovers <==> IsOver(health, i))
      && (fate == Supersedes <==> IsReplaced(health, i))
  {
    SignalledMeans(health, i);
    ReplacedMeans(health, i);
    DeferredMeans(health, i);
    FateByBranch(i.Identity(), i, CurrentOf(health).Keys, health);
    if i.ip.Some? {
      FirstDevice(health.devices, i.ip.value);
    }
    hide SupersededBy, DeferredKeys, IsSignalled, IsReplaced, IsDeferred, ShownUp, DeviceByIp, CurrentSignals, LeftScope,
         MonitoringScope;
  }

  // ----- one health result

  /** What a result makes of an incident that was active. */
  ghost predicate Becomes(health: Health, i: Incident, now: int, j: Incident) {
    && j.kind == i.kind && j.ip == i.ip && j.token == i.token && j.firstDetectedAt == i.firstDetectedAt
    && j.alias == i.alias && j.acknowledgedAt == i.acknowledgedAt && j.lastNotifiedAt == i.lastNotifiedAt
    && (j.active <==> !LeftScope(health, i.kind, i.ip) && !IsOver(health, i)
                      && (IsSignalled(health, i) || !IsReplaced(health, i)))
    && j.recoveredAt == (if IsOver(health, i) then Some(now) else i.recoveredAt)
    && j.lastSeenAt == (if j.active && !IsSignalled(health, i) then i.lastSeenAt else now)
    && (if !LeftScope(health, i.kind, i.ip) && IsSignalled(health, i)
        then forall g :: FirstSignal(health, i, g) ==> j.reason == g.reason && j.severity == g.severity && j.details == g.details
        else j.reason == i.reason && j.severity == i.severity && j.details == i.details)
  }

  /** An active incident stays, is refreshed, is silently closed or recovers exactly as the result says. */
  lemma ActiveBecomes(s: State, health: Health, now: int, t: State, id: IncidentId)
    requires Processed(s, CurrentOf(health), MonitoringScope(health), health, now, t) && ActiveIn(s.incidents, id)
    ensures id in t.incidents && Becomes(health, s.incidents[id], now, t.incidents[id])
  {
    var i := s.incidents[id];
    assert t.incidents[id] == Evolved(i, CurrentOf(health), MonitoringScope(health), health, now);
    hide Processed, FateOf, CurrentSignals, InScope, MonitoringScope, LeftScope, IsSignalled, IsReplaced, IsDeferred, ShownUp;
    ScopeMeans(health, i);
    if !LeftScope(health, i.kind, i.ip) {
      SignalledMeans(health, i);
      if !IsSignalled(health, i) {
        FateIsMeant(health, i);
      }
    }
  }

  /** The last device of this address has this name. */
  ghost predicate NamedLast(devices: seq<Device>, ip: Ip, name: string) {
    exists x :: 0 <= x < |devices| && devices[x].ip == ip && devices[x].displayName == name
      && forall y :: x < y < |devices| ==> devices[y].ip != ip
  }

  ghost predicate NamedAs(devices: seq<Device>, ip: Option<Address>, alias: Option<string>) {
    if ip.None? || forall d :: d in devices ==> d.ip != ip.value then alias == None
    else alias.Some? && NamedLast(devices, ip.value, alias.value)
  }

  lemma {:induction false} AliasMeans(devices: seq<Device>, ip: Ip)
    ensures
      var alias := AliasFor(devices, ip);
      if forall d :: d in devices ==> d.ip != ip then alias == None else alias.Some? && NamedLast(devices, ip, alias.value)
  {
    if devices != [] {
      var init, last := devices[..|devices| - 1], devices[|devices| - 1];
      assert devices == init + [last];
      if last.ip == ip {
        assert devices[|devices| - 1].displayName == last.displayName;
      } else {
        AliasMeans(init, ip);
        if d :| d in init && d.ip == ip {
          NamedBefore(devices, ip, AliasFor(init, ip).value);
        }
      }
    }
  }

  lemma NamedBefore(devices: seq<Device>, ip: Ip, name: string)
    requires devices != [] && devices[|devices| - 1].ip != ip && NamedLast(devices[..|devices| - 1], ip, name)
    ensures NamedLast(devices, ip, name)
  {
    var init := devices[..|devices| - 1];
    var x :| 0 <= x < |init| && init[x].ip == ip && init[x].displayName == name
      && forall y :: x < y < |init| ==> init[y].ip != ip;
    assert devices[x] == init[x];
    assert forall y :: x < y < |init| ==> devices[y] == init[y];
  }

  /** A new incident is what the first in-scope signal of its event says, seen just now. */
  ghost predicate OpenedBy(health: Health, now: int, j: Incident) {
    && !LeftScope(health, j.kind, j.ip)
    && (exists g :: FirstSignal(health, j, g) && j.severity == g.severity && j.reason == g.reason
                    && j.token == g.token && j.details == g.details)
    && NamedAs(health.devices, j.ip, j.alias)
    && j.firstDetectedAt == now && j.lastSeenAt == now && j.active
    && j.acknowledgedAt == None && j.recoveredAt == None && j.lastNotifiedAt == None
  }

  lemma NewIsOpened(s: State, health: Health, now: int, t: State, id: IncidentId)
    requires Bijection(s) && Processed(s, CurrentOf(health), MonitoringScope(health), health, now, t)
    requires id in t.incidents && id !in s.incidents
    ensures OpenedBy(health, now, t.incidents[id])
    ensures forall o :: ActiveIn(s.incidents, o) && !LeftScope(health, s.incidents[o].kind, s.incidents[o].ip) ==>
      !SameEvent(s.incidents[o].kind, s.incidents[o].ip, s.incidents[o].token, t.incidents[id])
  {
    var j := t.incidents[id];
    var key := j.Identity();
    var current, scope := CurrentOf(health), MonitoringScope(health);
    NewHasNewKey(s, current, scope, health, now, t, id);
    CurrentSignalsMeaning(health.signals, scope);
    ScopeMeans(health, j);
    if j.ip.Some? {
      AliasMeans(health.devices, j.ip.value);
    }
    FirstWithKeyMeans(health, j, current[key]);
    forall o | ActiveIn(s.incidents, o) && !LeftScope(health, s.incidents[o].kind, s.incidents[o].ip)
      ensures !SameEvent(s.incidents[o].kind, s.incidents[o].ip, s.incidents[o].token, j)
    {
      KeyMeans(s.incidents[o].kind, s.incidents[o].ip, s.incidents[o].token, j);
    }
    hide Processed, CurrentSignals, InScope, MonitoringScope, LeftScope, AliasFor, Bijection, FirstWithKey, FirstSignal;
  }

  lemma NewHasNewKey(s: State, current: map<Key, Signal>, scope: Option<set<Ip>>, health: Health, now: int, t: State,
                     id: IncidentId)
    requires Bijection(s) && Processed(s, current, scope, health, now, t) && id in t.incidents && id !in s.incidents
    ensures
      var key := t.incidents[id].Identity();
      && key in current && key !in s.active
      && t.incidents[id] == Opened(current[key], AliasOf(current[key], health.devices), now)
  {
    hide InScope, FateOf, Evolved;
    var key := t.incidents[id].Identity();
    assert t.active[key] == id;
    assert key !in KeptKeys(s, current.Keys, scope, health);
  }

  lemma FirstWithKeyMeans(health: Health, i: Incident, g: Signal)
    ensures FirstWithKey(health.signals, i.Identity(), g) <==> FirstSignal(health, i, g)
  {
    forall h: Signal
      ensures h.Identity() == i.Identity() <==> SameEvent(h.kind, h.ip, h.token, i)
    {
      KeyMeans(h.kind, h.ip, h.token, i);
    }
    hide SameEvent, MakeKey;
  }

  /** Every signal in scope is tracked by an active incident afterwards. */
  lemma SignalIsTracked(s: State, health: Health, now: int, t: State, g: Signal)
    requires Processed(s, CurrentOf(health), MonitoringScope(health), health, now, t)
    requires g in health.signals && !LeftScope(health, g.kind, g.ip)
    ensures exists id :: ActiveIn(t.incidents, id) && SameEvent(g.kind, g.ip, g.token, t.incidents[id])
  {
    var like := Opened(g, None, now);
    SignalledMeans(health, like);
    hide CurrentSignals, InScope, MonitoringScope, LeftScope, FateOf, Evolved, KeptKeys, FirstSignal;
    assert IsSignalled(health, like);
    var id := t.active[like.Identity()];
    ActiveKeyNames(t, like.Identity());
    KeyMeans(g.kind, g.ip, g.token, t.incidents[id]);
  }

  // ----- the report

  ghost predicate Tells(ts: seq<Transition>, id: IncidentId, kind: Kind) {
    exists x :: 0 <= x < |ts| && ts[x].id == id && ts[x].kind == kind
  }

  /** The report tells of an active incident that it recovered exactly if the result says that it is over; in
      particular, of MM Down only if the first device row of its address is present and up. */
  lemma ReportMeans(s: State, health: Health, now: int, t: State, ts: seq<Transition>, notify: bool, id: IncidentId)
    requires Bijection(s) && Processed(s, CurrentOf(health), MonitoringScope(health), health, now, t)
    requires Reports(ts, ProcessKinds(s, CurrentOf(health), MonitoringScope(health), health, t), t.incidents, notify)
    requires ActiveIn(s.incidents, id)
    ensures TellsActive(health, ts, id, s.incidents[id])
  {
    hide Processed, Reports, ProcessKinds, ReportedKind, CurrentSignals, InScope, MonitoringScope, LeftScope, IsOver,
         IsSignalled, IsReplaced, FirstSignal, Tells, Bijection;
    var i := s.incidents[id];
    KindIsTold(ts, ProcessKinds(s, CurrentOf(health), MonitoringScope(health), health, t), t.incidents, notify, id);
    OldKind(s, health, now, t, id);
    KindMeans(health, i);
  }

  lemma OldKind(s: State, health: Health, now: int, t: State, id: IncidentId)
    requires Processed(s, CurrentOf(health), MonitoringScope(health), health, now, t) && id in s.incidents
    ensures
      var kinds := ProcessKinds(s, CurrentOf(health), MonitoringScope(health), health, t);
      var kind := ReportedKind(s.incidents[id], CurrentOf(health), MonitoringScope(health), health);
      && (id in kinds <==> kind.Some?) && (id in kinds ==> kinds[id] == kind.value)
  {
    hide ReportedKind, CurrentSignals, MonitoringScope, KeysProcessed, Evolved, Bijection;
  }

  lemma KindIsTold(ts: seq<Transition>, kinds: map<IncidentId, Kind>, incidents: map<IncidentId, Incident>, notify: bool,
                   id: IncidentId)
    requires Reports(ts, kinds, incidents, notify)
    ensures forall kind :: Tells(ts, id, kind) <==> id in kinds && kinds[id] == kind
  {
  }

  lemma KindMeans(health: Health, i: Incident)
    requires i.active
    ensures
      var kind := ReportedKind(i, CurrentOf(health), MonitoringScope(health), health);
      && (kind == Some(Recovered) <==> IsOver(health, i))
      && (kind == Some(Superseded) <==>
            LeftScope(health, i.kind, i.ip) || (!IsSignalled(health, i) && IsReplaced(health, i)))
      && (kind == Some(Refreshed) <==>
            !LeftScope(health, i.kind, i.ip)
            && exists g :: FirstSignal(health, i, g)
                 && (i.reason != g.reason || i.severity != g.severity || i.details != g.details))
  {
    ScopeMeans(health, i);
    if !LeftScope(health, i.kind, i.ip) {
      SignalledMeans(health, i);
      CurrentSignalsMeaning(health.signals, MonitoringScope(health));
      if IsSignalled(health, i) {
        FirstWithKeyMeans(health, i, CurrentOf(health)[i.Identity()]);
      } else {
        FateIsMeant(health, i);
        NoFirstSignal(health, i);
      }
    }
    hide FateOf, CurrentSignals, InScope, MonitoringScope, LeftScope, IsSignalled, IsReplaced, IsDeferred, ShownUp,
         FirstSignal, FirstWithKey;
  }

  lemma NoFirstSignal(health: Health, i: Incident)
    requires !IsSignalled(health, i)
    ensures forall g :: !FirstSignal(health, i, g)
  {
  }

  /** The result decides over every active incident, opens what it signals anew, leaves closed incidents
      alone, and reports just that. */
  ghost predicate ResultIsApplied(health: Health, now: int, before: map<IncidentId, Incident>, after: map<IncidentId, Incident>,
                                  ts: seq<Transition>)
  {
    && (forall id :: id in before ==> id in after)
    && (forall id :: id in before && !before[id].active ==> after[id] == before[id])
    && (forall id :: ActiveIn(before, id) ==> Becomes(health, before[id], now, after[id]))
    && (forall id :: id in after && id !in before ==> OpenedBy(health, now, after[id]) && Tells(ts, id, Activated))
    && (forall g :: g in health.signals && !LeftScope(health, g.kind, g.ip) ==>
          exists id :: ActiveIn(after, id) && SameEvent(g.kind, g.ip, g.token, after[id]))
    && (forall id :: ActiveIn(before, id) ==> TellsActive(health, ts, id, before[id]))
  }

  ghost predicate TellsActive(health: Health, ts: seq<Transition>, id: IncidentId, i: Incident) {
    && (Tells(ts, id, Recovered) <==> IsOver(health, i))
    && (Tells(ts, id, Superseded) <==>
          LeftScope(health, i.kind, i.ip) || (!IsSignalled(health, i) && IsReplaced(health, i)))
    && (Tells(ts, id, Refreshed) <==>
          !LeftScope(health, i.kind, i.ip)
          && exists g :: FirstSignal(health, i, g)
               && (i.reason != g.reason || i.severity != g.severity || i.details != g.details))
  }

  lemma ProcessingApplies(s: State, health: Health, now: int, t: State, ts: seq<Transition>, notify: bool)
    requires Bijection(s) && Processed(s, CurrentOf(health), MonitoringScope(health), health, now, t)
    requires Reports(ts, ProcessKinds(s, CurrentOf(health), MonitoringScope(health), health, t), t.incidents, notify)
    ensures ResultIsApplied(health, now, s.incidents, t.incidents, ts)
  {
    ClosedIsLeft(s, health, now, t);
    hide Processed, Reports, Bijection, Becomes, OpenedBy, TellsActive, LeftScope, SameEvent, ProcessKinds, Tells;
    forall id | ActiveIn(s.incidents, id)
      ensures id in t.incidents && Becomes(health, s.incidents[id], now, t.incidents[id])
      ensures TellsActive(health, ts, id, s.incidents[id])
    {
      ActiveBecomes(s, health, now, t, id);
      ReportMeans(s, health, now, t, ts, notify, id);
    }
    forall id | id in t.incidents && id !in s.incidents
      ensures OpenedBy(health, now, t.incidents[id]) && Tells(ts, id, Activated)
    {
      NewIsOpened(s, health, now, t, id);
      NewIsTold(s, health, now, t, ts, notify, id);
    }
    forall g | g in health.signals && !LeftScope(health, g.kind, g.ip)
      ensures exists id :: ActiveIn(t.incidents, id) && SameEvent(g.kind, g.ip, g.token, t.incidents[id])
    {
      SignalIsTracked(s, health, now, t, g);
    }
  }

  lemma ClosedIsLeft(s: State, health: Health, now: int, t: State)
    requires Processed(s, CurrentOf(health), MonitoringScope(health), health, now, t)
    ensures forall id :: id in s.incidents ==> id in t.incidents
    ensures forall id :: id in s.incidents && !s.incidents[id].active ==> t.incidents[id] == s.incidents[id]
  {
    hide CurrentSignals, InScope, FateOf, KeysProcessed, Bijection;
  }

  lemma NewIsTold(s: State, health: Health, now: int, t: State, ts: seq<Transition>, notify: bool, id: IncidentId)
    requires Reports(ts, ProcessKinds(s, CurrentOf(health), MonitoringScope(health), health, t), t.incidents, notify)
    requires id in t.incidents && id !in s.incidents
    ensures Tells(ts, id, Activated)
  {
    KindIsTold(ts, ProcessKinds(s, CurrentOf(health), MonitoringScope(health), health, t), t.incidents, notify, id);
    hide ReportedKind, CurrentSignals, MonitoringScope, Reports, Tells;
  }
}
