/** What holds of incidents over whole runs of the manager's operations. */
module IncidentRuns {
  import opened Prelude
  import opened Incidents
  import opened IncidentStages
  import opened IncidentLifecycle
  import opened IncidentMeaning

  // ----- one result

  /** The activations reported are exactly the keys gained, the closings exactly the incidents lost. */
  lemma ReportIsTheDifference(s: State, health: Health, now: int, t: State, ts: seq<Transition>, notify: bool)
    requires Bijection(s) && Processed(s, CurrentOf(health), MonitoringScope(health), health, now, t)
    requires Reports(ts, ProcessKinds(s, CurrentOf(health), MonitoringScope(health), health, t), t.incidents, notify)
    ensures forall k :: k in t.active && (k !in s.active || s.active[k] != t.active[k]) <==>
      k in t.active && exists i :: 0 <= i < |ts| && ts[i].kind.Activated? && ts[i].id == t.active[k]
    ensures forall k :: k in s.active && (k !in t.active || s.active[k] != t.active[k]) <==>
      k in s.active && exists i :: 0 <= i < |ts| && (ts[i].kind.Recovered? || ts[i].kind.Superseded?) && ts[i].id == s.active[k]
  {
    forall k | k in t.active
      ensures (k !in s.active || s.active[k] != t.active[k]) <==>
        exists i :: 0 <= i < |ts| && ts[i].kind.Activated? && ts[i].id == t.active[k]
    {
      GainedIffActivated(s, health, now, t, ts, notify, k);
    }
    forall k | k in s.active
      ensures (k !in t.active || s.active[k] != t.active[k]) <==>
        exists i :: 0 <= i < |ts| && (ts[i].kind.Recovered? || ts[i].kind.Superseded?) && ts[i].id == s.active[k]
    {
      LostIffClosed(s, health, now, t, ts, notify, k);
    }
  }

  lemma GainedIffActivated(s: State, health: Health, now: int, t: State, ts: seq<Transition>, notify: bool, k: Key)
    requires Bijection(s) && Processed(s, CurrentOf(health), MonitoringScope(health), health, now, t)
    requires Reports(ts, ProcessKinds(s, CurrentOf(health), MonitoringScope(health), health, t), t.incidents, notify)
    requires k in t.active
    ensures (k !in s.active || s.active[k] != t.active[k]) <==>
      exists i :: 0 <= i < |ts| && ts[i].kind.Activated? && ts[i].id == t.active[k]
  {
    hide CurrentSignals, InScope, FateOf, Evolved, KeptKeys;
    var kinds := ProcessKinds(s, CurrentOf(health), MonitoringScope(health), health, t);
    var id := t.active[k];
    assert k !in s.active || s.active[k] != id <==> id !in s.incidents by {
      ActiveKeyNames(t, k);
      if id in s.incidents {
        StaysActiveOnlyIfWas(s, CurrentOf(health), MonitoringScope(health), health, now, t, id);
      }
    }
    assert id !in s.incidents ==> id in kinds && kinds[id] == Activated;
  }

  lemma StaysActiveOnlyIfWas(s: State, current: map<Key, Signal>, scope: Option<set<Ip>>, health: Health, now: int,
                             t: State, id: IncidentId)
    requires Bijection(s) && Processed(s, current, scope, health, now, t) && id in s.incidents && ActiveIn(t.incidents, id)
    ensures s.incidents[id].active && t.incidents[id].Identity() == s.incidents[id].Identity()
    ensures s.incidents[id].Identity() in s.active && s.active[s.incidents[id].Identity()] == id
  {
  }

  lemma LostIffClosed(s: State, health: Health, now: int, t: State, ts: seq<Transition>, notify: bool, k: Key)
    requires Bijection(s) && Processed(s, CurrentOf(health), MonitoringScope(health), health, now, t)
    requires Reports(ts, ProcessKinds(s, CurrentOf(health), MonitoringScope(health), health, t), t.incidents, notify)
    requires k in s.active
    ensures (k !in t.active || s.active[k] != t.active[k]) <==>
      exists i :: 0 <= i < |ts| && (ts[i].kind.Recovered? || ts[i].kind.Superseded?) && ts[i].id == s.active[k]
  {
    hide CurrentSignals, InScope, FateOf, KeptKeys, KeysProcessed;
    var current, scope := CurrentOf(health), MonitoringScope(health);
    var kinds := ProcessKinds(s, current, scope, health, t);
    var id := s.active[k];
    ActiveKeyNames(s, k);
    assert t.incidents[id] == Evolved(s.incidents[id], current, scope, health, now);
    EvolvedIffReported(s.incidents[id], current, scope, health, now);
    assert (k !in t.active || t.active[k] != id) <==> !t.incidents[id].active;
    hide Evolved, ReportedKind, Processed;
    assert id in kinds <==> ReportedKind(s.incidents[id], current, scope, health).Some?;
    if !t.incidents[id].active {
      var i :| 0 <= i < |ts| && ts[i].id == id;
      assert ts[i].kind == kinds[id];
    }
  }

  lemma EvolvedIffReported(incident: Incident, current: map<Key, Signal>, scope: Option<set<Ip>>, health: Health, now: int)
    requires incident.active
    ensures
      var kind := ReportedKind(incident, current, scope, health);
      !Evolved(incident, current, scope, health, now).active <==> kind.Some? && (kind.value.Recovered? || kind.value.Superseded?)
    ensures Evolved(incident, current, scope, health, now).kind == incident.kind
      && Evolved(incident, current, scope, health, now).ip == incident.ip
      && Evolved(incident, current, scope, health, now).token == incident.token
  {
  }

  // ----- runs

  datatype Step =
    | Poll(health: Health, now: int)
    | Rescope(scope: set<Ip>, now: int)
    | Acknowledge(id: IncidentId, now: int)
    | Notified(id: IncidentId, now: int)
    | Compact(retain: set<IncidentId>)

  ghost predicate Follows(s: State, step: Step, t: State) {
    match step
    case Poll(health, now) => Processed(s, CurrentOf(health), MonitoringScope(health), health, now, t)
    case Rescope(scope, now) => t == Closing(s, ScopeFates(s, Some(scope)), now)
    case Acknowledge(id, now) => ActiveIn(s.incidents, id) && t == AcknowledgedState(s, id, now)
    case Notified(id, now) => t == NotifiedState(s, id, now)
    case Compact(retain) => t == CompactedState(s, retain)
  }

  ghost predicate IsRun(states: seq<State>, steps: seq<Step>) {
    |states| == |steps| + 1 && forall i :: 0 <= i < |steps| ==> Follows(states[i], steps[i], states[i + 1])
  }

  lemma StepKeepsBijection(s: State, step: Step, t: State)
    requires Bijection(s) && Follows(s, step, t)
    ensures Bijection(t)
  {
  }

  lemma {:induction false} RunKeepsBijection(states: seq<State>, steps: seq<Step>, i: nat)
    requires IsRun(states, steps) && Bijection(states[0]) && i < |states|
    ensures Bijection(states[i])
  {
    if i > 0 {
      RunKeepsBijection(states, steps, i - 1);
      StepKeepsBijection(states[i - 1], steps[i - 1], states[i]);
    }
  }

  /** A result whose first device row of this address is present and up, with neither a signal nor a deferral
      for it, or a scope without it. */
  ghost predicate MayCloseMmDown(step: Step, ip: Option<Address>) {
    match step
    case Poll(health, _) =>
      || LeftScope(health, MmDown, ip)
      || (ip.Some? && ShownUp(health.devices, ip.value)
          && (forall g :: g in health.signals ==> !(g.kind == MmDown && g.ip == ip))
          && (forall d :: d in health.deferred ==> !(d.kind == MmDown && d.ip == ip)))
    case Rescope(scope, _) => ip.Some? && ip.value !in scope
    case _ => false
  }

  lemma StepClosesMmDown(s: State, step: Step, t: State, id: IncidentId)
    requires Bijection(s) && Follows(s, step, t) && ActiveIn(s.incidents, id) && s.incidents[id].kind.MmDown?
    ensures ActiveIn(t.incidents, id) <==> !MayCloseMmDown(step, s.incidents[id].ip)
    ensures ActiveIn(t.incidents, id) ==>
      t.incidents[id].kind.MmDown? && t.incidents[id].ip == s.incidents[id].ip
  {
    match step
    case Poll(health, now) =>
      ActiveBecomes(s, health, now, t, id);
      hide Processed, LeftScope, ShownUp;
    case Rescope(_, _) =>
    case Acknowledge(_, _) =>
    case Notified(_, _) =>
    case Compact(_) =>
  }

  lemma ClosedStaysClosed(s: State, step: Step, t: State, id: IncidentId)
    requires Bijection(s) && Follows(s, step, t) && id < s.nextId && !ActiveIn(s.incidents, id)
    ensures id < t.nextId && !ActiveIn(t.incidents, id)
  {
  }

  /** Over any run an MM Down incident is still open exactly if no step so far showed the target up (with
      neither a signal nor a deferral for it) and none took it out of the scope. */
  lemma {:induction false} MmDownClosesOnEvidence(states: seq<State>, steps: seq<Step>, i: nat, j: nat, id: IncidentId)
    requires IsRun(states, steps) && Bijection(states[0]) && i <= j < |states|
    requires ActiveIn(states[i].incidents, id) && states[i].incidents[id].kind.MmDown?
    ensures ActiveIn(states[j].incidents, id) <==>
      forall m :: i <= m < j ==> !MayCloseMmDown(steps[m], states[i].incidents[id].ip)
    ensures ActiveIn(states[j].incidents, id) ==>
      states[j].incidents[id].kind.MmDown? && states[j].incidents[id].ip == states[i].incidents[id].ip
    ensures id < states[j].nextId
    decreases j
  {
    hide Bijection, MakeKey, MayCloseMmDown, Follows;
    if i == j {
      RunKeepsBijection(states, steps, i);
      IdsAreBelow(states[i], id);
    } else {
      MmDownClosesOnEvidence(states, steps, i, j - 1, id);
      RunKeepsBijection(states, steps, j - 1);
      if ActiveIn(states[j - 1].incidents, id) {
        StepClosesMmDown(states[j - 1], steps[j - 1], states[j], id);
        NextIdGrows(states[j - 1], steps[j - 1], states[j]);
      } else {
        ClosedStaysClosed(states[j - 1], steps[j - 1], states[j], id);
      }
    }
  }

  lemma IdsAreBelow(s: State, id: IncidentId)
    requires Bijection(s) && id in s.incidents
    ensures id < s.nextId
  {
  }

  lemma NextIdGrows(s: State, step: Step, t: State)
    requires Follows(s, step, t)
    ensures s.nextId <= t.nextId
  {
  }
}
