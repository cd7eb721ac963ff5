/** The bounded history: closed incidents, events, failovers and acknowledged changes. */
module HistoryRetention {
  import opened Prelude
  import opened Retention
  import opened InventoryRetention

  datatype IncidentRow = IncidentRow(active: bool, resolvedAt: Option<int>, lastSeenAt: int)

  datatype EventRow = EventRow(incident: Option<Key>, occurredAt: int)

  datatype ChangeRow = ChangeRow(acknowledged: bool, lastConfirmedAt: int)

  datatype History = History(
    incidents: map<Key, IncidentRow>, events: map<Key, EventRow>, failovers: map<Key, int>, changes: map<Key, ChangeRow>)

  // ----- who takes part in each table, and since when

  function ClosedAt(row: IncidentRow): int {
    if row.resolvedAt.Some? then row.resolvedAt.value else row.lastSeenAt
  }

  function InactiveTimes(h: History): map<Key, int> {
    map k | k in h.incidents && !h.incidents[k].active :: h.incidents[k].lastSeenAt
  }

  function StaleIncidents(h: History, cutoff: int): set<Key> {
    set k | k in h.incidents && !h.incidents[k].active && ClosedAt(h.incidents[k]) < cutoff
  }

  predicate OfActiveIncident(h: History, event: Key)
    requires event in h.events
  {
    h.events[event].incident.Some? && h.events[event].incident.value in h.incidents
    && h.incidents[h.events[event].incident.value].active
  }

  function LooseEventTimes(h: History): map<Key, int> {
    map k | k in h.events && !OfActiveIncident(h, k) :: h.events[k].occurredAt
  }

  function AcknowledgedTimes(h: History): map<Key, int> {
    map k | k in h.changes && h.changes[k].acknowledged :: h.changes[k].lastConfirmedAt
  }

  /** Closed incidents take part by when they were last seen, and are stale by when they were resolved if that
      is known; events take part unless they belong to an active incident, changes if they are acknowledged. */
  lemma WhoTakesPart(h: History, cutoff: int, k: Key)
    ensures k in InactiveTimes(h) <==> k in h.incidents && !h.incidents[k].active
    ensures k in InactiveTimes(h) ==> InactiveTimes(h)[k] == h.incidents[k].lastSeenAt
    ensures k in StaleIncidents(h, cutoff)
      <==> k in h.incidents && !h.incidents[k].active
           && match h.incidents[k].resolvedAt case Some(at) => cutoff > at case None => cutoff > h.incidents[k].lastSeenAt
    ensures k in LooseEventTimes(h)
      <==> k in h.events && forall i :: h.events[k].incident == Some(i) && i in h.incidents ==> !h.incidents[i].active
    ensures k in LooseEventTimes(h) ==> LooseEventTimes(h)[k] == h.events[k].occurredAt
    ensures k in AcknowledgedTimes(h) <==> k in h.changes && h.changes[k].acknowledged
    ensures k in AcknowledgedTimes(h) ==> AcknowledgedTimes(h)[k] == h.changes[k].lastConfirmedAt
  {
    if k in h.events && h.events[k].incident.Some? {
      assert h.events[k].incident == Some(h.events[k].incident.value);
    }
  }

  // ----- the cleanup

  function GoneIncidents(h: History, cutoff: int, maxRows: nat): set<Key> {
    Expendable(InactiveTimes(h), StaleIncidents(h, cutoff), maxRows)
  }

  function GoneEvents(h: History, cutoff: int, maxRows: nat): set<Key> {
    Expendable(LooseEventTimes(h), Before(LooseEventTimes(h), cutoff), maxRows)
  }

  function GoneFailovers(h: History, cutoff: int, maxRows: nat): set<Key> {
    Expendable(h.failovers, Before(h.failovers, cutoff), maxRows)
  }

  function GoneChanges(h: History, cutoff: int, maxRows: nat): set<Key> {
    Expendable(AcknowledgedTimes(h), Before(AcknowledgedTimes(h), cutoff), maxRows)
  }

  function Cleaned(h: History, cutoff: int, maxRows: nat): History {
    History(h.incidents - GoneIncidents(h, cutoff, maxRows), h.events - GoneEvents(h, cutoff, maxRows),
            h.failovers - GoneFailovers(h, cutoff, maxRows), h.changes - GoneChanges(h, cutoff, maxRows))
  }

  /** Deleting closed incidents first does not change which events are protected. */
  lemma ProtectionSurvives(h: History, gone: set<Key>, event: Key)
    requires event in h.events && forall k :: k in gone && k in h.incidents ==> !h.incidents[k].active
    ensures OfActiveIncident(h.(incidents := h.incidents - gone), event) <==> OfActiveIncident(h, event)
  {
  }

  /** So the later deletions of a cleanup find what they would have found before the earlier ones. */
  lemma OtherTablesStay(h: History, cutoff: int, maxRows: nat)
    ensures
      var a := h.(incidents := h.incidents - GoneIncidents(h, cutoff, maxRows));
      var b := a.(events := a.events - GoneEvents(a, cutoff, maxRows));
      var c := b.(failovers := b.failovers - GoneFailovers(b, cutoff, maxRows));
      && GoneEvents(a, cutoff, maxRows) == GoneEvents(h, cutoff, maxRows)
      && GoneFailovers(b, cutoff, maxRows) == GoneFailovers(h, cutoff, maxRows)
      && GoneChanges(c, cutoff, maxRows) == GoneChanges(h, cutoff, maxRows)
  {
    hide Newest;
    var gone := GoneIncidents(h, cutoff, maxRows);
    var a := h.(incidents := h.incidents - gone);
    forall event | event in h.events
      ensures OfActiveIncident(a, event) <==> OfActiveIncident(h, event)
    {
      ProtectionSurvives(h, gone, event);
    }
    assert LooseEventTimes(a) == LooseEventTimes(h);
  }

  /** Active incidents, their events and pending changes are never deleted; what is deletable is bounded
      in number and no older than the cutoff. */
  lemma CleanupIsSafe(h: History, cutoff: int, maxRows: nat)
    ensures
      var c := Cleaned(h, cutoff, maxRows);
      && (forall k :: k in h.incidents && h.incidents[k].active ==> k in c.incidents)
      && (forall k :: k in h.events && OfActiveIncident(h, k) ==> k in c.events && OfActiveIncident(c, k))
      && (forall k :: k in h.changes && !h.changes[k].acknowledged ==> k in c.changes)
      && |InactiveTimes(c)| <= maxRows && |LooseEventTimes(c)| <= maxRows
      && |c.failovers| <= maxRows && |AcknowledgedTimes(c)| <= maxRows
      && StaleIncidents(c, cutoff) == {} && Before(LooseEventTimes(c), cutoff) == {}
      && Before(c.failovers, cutoff) == {} && Before(AcknowledgedTimes(c), cutoff) == {}
  {
    CleanedTables(h, cutoff, maxRows);
    KeptAreFew(InactiveTimes(h), StaleIncidents(h, cutoff), maxRows);
    KeptAreFew(LooseEventTimes(h), Before(LooseEventTimes(h), cutoff), maxRows);
    KeptAreFew(h.failovers, Before(h.failovers, cutoff), maxRows);
    KeptAreFew(AcknowledgedTimes(h), Before(AcknowledgedTimes(h), cutoff), maxRows);
    StaleAfterCleanup(h, cutoff, maxRows);
  }

  /** What takes part afterwards is what was kept of what took part before. */
  lemma CleanedTables(h: History, cutoff: int, maxRows: nat)
    ensures
      var c := Cleaned(h, cutoff, maxRows);
      && InactiveTimes(c) == Kept(InactiveTimes(h), StaleIncidents(h, cutoff), maxRows)
      && LooseEventTimes(c) == Kept(LooseEventTimes(h), Before(LooseEventTimes(h), cutoff), maxRows)
      && c.failovers == Kept(h.failovers, Before(h.failovers, cutoff), maxRows)
      && AcknowledgedTimes(c) == Kept(AcknowledgedTimes(h), Before(AcknowledgedTimes(h), cutoff), maxRows)
  {
  }

  lemma StaleAfterCleanup(h: History, cutoff: int, maxRows: nat)
    ensures
      var c := Cleaned(h, cutoff, maxRows);
      && StaleIncidents(c, cutoff) == {}
      && (forall k :: k in h.incidents && h.incidents[k].active ==> k in c.incidents)
      && (forall k :: k in h.events && OfActiveIncident(h, k) ==> k in c.events && OfActiveIncident(c, k))
      && (forall k :: k in h.changes && !h.changes[k].acknowledged ==> k in c.changes)
  {
  }

  lemma NothingMoreIsGone(h: History, cutoff: int, maxRows: nat)
    ensures
      var c := Cleaned(h, cutoff, maxRows);
      && GoneIncidents(c, cutoff, maxRows) == {} && GoneEvents(c, cutoff, maxRows) == {}
      && GoneFailovers(c, cutoff, maxRows) == {} && GoneChanges(c, cutoff, maxRows) == {}
  {
    var c := Cleaned(h, cutoff, maxRows);
    CleanedTables(h, cutoff, maxRows);
    StaleAfterCleanup(h, cutoff, maxRows);
    hide Expendable, Kept, Cleaned, InactiveTimes, LooseEventTimes, AcknowledgedTimes, StaleIncidents;
    SecondCleanupRemovesNothing(InactiveTimes(h), StaleIncidents(h, cutoff), maxRows, StaleIncidents(c, cutoff));
    StillBefore(LooseEventTimes(h), cutoff, maxRows);
    StillBefore(h.failovers, cutoff, maxRows);
    StillBefore(AcknowledgedTimes(h), cutoff, maxRows);
  }

  lemma StillBefore(times: map<Key, int>, cutoff: int, maxRows: nat)
    ensures
      var kept := Kept(times, Before(times, cutoff), maxRows);
      Expendable(kept, Before(kept, cutoff), maxRows) == {}
  {
    var kept := Kept(times, Before(times, cutoff), maxRows);
    SecondCleanupRemovesNothing(times, Before(times, cutoff), maxRows, Before(kept, cutoff));
  }

  /** A second cleanup at the same time deletes nothing. */
  lemma SecondCleanupDeletesNothing(h: History, cutoff: int, maxRows: nat)
    ensures
      var c := Cleaned(h, cutoff, maxRows);
      Cleaned(c, cutoff, maxRows) == c
  {
    NothingMoreIsGone(h, cutoff, maxRows);
    hide GoneIncidents, GoneEvents, GoneFailovers, GoneChanges;
    var c := Cleaned(h, cutoff, maxRows);
    assert c.incidents - {} == c.incidents && c.events - {} == c.events && c.failovers - {} == c.failovers
        && c.changes - {} == c.changes;
  }

  class HistoryTables {
    var history: History
    var lastRun: Option<int>

    constructor (history: History)
      ensures this.history == history && lastRun.None?
    {
      this.history, lastRun := history, None;
    }

    /** The four deletions of one transaction, in their order. */
    method CleanupIfDue(now: int, maxAge: nat, maxRows: nat, force: bool) returns (counts: (nat, nat, nat, nat))
      modifies this
      ensures history == if Due(old(lastRun), now, force) then Cleaned(old(history), now - maxAge, maxRows) else old(history)
      ensures lastRun == if Due(old(lastRun), now, force) then Some(now) else old(lastRun)
      ensures counts == if Due(old(lastRun), now, force)
                        then (|GoneIncidents(old(history), now - maxAge, maxRows)|,
                              |GoneEvents(old(history), now - maxAge, maxRows)|,
                              |GoneFailovers(old(history), now - maxAge, maxRows)|,
                              |GoneChanges(old(history), now - maxAge, maxRows)|)
                        else (0, 0, 0, 0)
    {
      hide GoneIncidents, GoneEvents, GoneFailovers, GoneChanges;
      if !Due(lastRun, now, force) {
        return (0, 0, 0, 0);
      }
      var cutoff := now - maxAge;
      OtherTablesStay(history, cutoff, maxRows);
      var incidents := GoneIncidents(history, cutoff, maxRows);
      history := history.(incidents := history.incidents - incidents);
      var events := GoneEvents(history, cutoff, maxRows);
      history := history.(events := history.events - events);
      var failovers := GoneFailovers(history, cutoff, maxRows);
      history := history.(failovers := history.failovers - failovers);
      var changes := GoneChanges(history, cutoff, maxRows);
      history := history.(changes := history.changes - changes);
      lastRun := Some(now);
      counts := (|incidents|, |events|, |failovers|, |changes|);
    }
  }
}
