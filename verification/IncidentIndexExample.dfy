/** An incident that is closed while the disk is out and opened again: the next flush meets the unique index
    unless the clock has advanced since the first detection. */
module IncidentIndexExample {
  import opened Prelude
  import opened Incidents
  import opened IncidentStages
  import opened IncidentLifecycle
  import opened IncidentRuns
  import opened IncidentStorage
  import opened IncidentIndexRule

  const SIGNAL := Signal(ClientDistribution, Warning, "few clients", Some("10.0.0.1"), "", "")
  const KEY := Key(ClientDistribution, Some("10.0.0.1"), "")
  const SIGNALLED := Health([], [SIGNAL], [], None)
  const QUIET := Health([], [], [], None)
  const EMPTY := Poller(State(map[], map[], 0), [], {}, Disk(map[], []), [], false)

  // ----- the three polls

  function OpenedAt(now: int): Incident {
    Opened(SIGNAL, None, now)
  }

  function ClosedAt(first: int, end: int): Incident {
    Fated(OpenedAt(first), Recovers, end)
  }

  function Open(first: int): State {
    State(map[0 := OpenedAt(first)], map[KEY := 0], 1)
  }

  function Closed(first: int, end: int): State {
    State(map[0 := ClosedAt(first, end)], map[], 1)
  }

  function Reopened(first: int, end: int, again: int): State {
    State(map[0 := ClosedAt(first, end), 1 := OpenedAt(again)], map[KEY := 1], 2)
  }

  lemma OnlyTheSignal()
    ensures CurrentOf(SIGNALLED) == map[KEY := SIGNAL] && MonitoringScope(SIGNALLED) == None
    ensures CurrentOf(QUIET) == map[] && MonitoringScope(QUIET) == None
  {
    assert SIGNALLED.signals[..0] == [];
    assert CurrentSignals([], None) == map[];
  }

  lemma PollsOpen(s: State, now: int)
    requires Bijection(s) && s.active == map[]
    ensures Follows(s, Poll(SIGNALLED, now), OpenFor(s, KEY, SIGNAL, [], now))
  {
    OnlyTheSignal();
    OpeningKeepsBijection(s, KEY, SIGNAL, [], now);
  }

  lemma PollCloses(first: int, end: int)
    ensures Follows(Open(first), Poll(QUIET, end), Closed(first, end))
  {
    OnlyTheSignal();
    assert DeferredKeys(QUIET) == {};
    assert KeptKeys(Open(first), {}, None, QUIET) == {};
  }

  // ----- the run

  function Change(kind: Kind, id: IncidentId, incident: Incident): Transition {
    Transition(kind, id, incident, true)
  }

  function Moves(first: int, end: int, again: int): seq<Move> {
    [Think(Poll(SIGNALLED, first), Open(first)),
     Persist([Change(Activated, 0, OpenedAt(first))], false, true, {}),
     Think(Poll(QUIET, end), Closed(first, end)),
     Persist([Change(Recovered, 0, ClosedAt(first, end))], false, false, {}),
     Think(Poll(SIGNALLED, again), Reopened(first, end, again)),
     Persist([Change(Activated, 1, OpenedAt(again))], false, false, {})]
  }

  function Stored(first: int): Poller {
    var changes := [Change(Activated, 0, OpenedAt(first))];
    Poller(Open(first), [], {0}, Disk(map[0 := RowOf(OpenedAt(first))], changes), changes, false)
  }

  function Waiting(first: int, end: int): Poller {
    var change := Change(Recovered, 0, ClosedAt(first, end));
    Stored(first).(state := Closed(first, end), pending := [change], produced := Stored(first).produced + [change])
  }

  function Pollers(first: int, end: int, again: int): seq<Poller> {
    var last := Waiting(first, end).(state := Reopened(first, end, again));
    [EMPTY, EMPTY.(state := Open(first)), Stored(first), Stored(first).(state := Closed(first, end)),
     Waiting(first, end), last, Journalled(last, [Change(Activated, 1, OpenedAt(again))])]
  }

  lemma FirstFlush(first: int)
    ensures Persisted(EMPTY.(state := Open(first)), [Change(Activated, 0, OpenedAt(first))], false, true, {})
      == Stored(first)
  {
    var p := EMPTY.(state := Open(first));
    var changes := [Change(Activated, 0, OpenedAt(first))];
    assert p.pending + changes == changes && p.produced + changes == changes && p.disk.events + changes == changes;
    assert 0 in p.state.incidents;
    assert CompactedState(p.state, {}) == p.state;
    assert ActiveIds(p.state) == {0};
  }

  lemma FailedFlushes(first: int, end: int, again: int)
    ensures Persisted(Stored(first).(state := Closed(first, end)), [Change(Recovered, 0, ClosedAt(first, end))], false,
                      false, {})
      == Waiting(first, end)
    ensures
      var p := Waiting(first, end).(state := Reopened(first, end, again));
      var changes := [Change(Activated, 1, OpenedAt(again))];
      Persisted(p, changes, false, false, {}) == Journalled(p, changes)
  {
    var p := Stored(first).(state := Closed(first, end));
    var change := Change(Recovered, 0, ClosedAt(first, end));
    assert 0 in p.state.incidents;
    assert p.pending + [change] == [change];
  }

  lemma ThePolls(first: int, end: int, again: int)
    ensures Follows(EMPTY.state, Poll(SIGNALLED, first), Open(first))
    ensures Follows(Closed(first, end), Poll(SIGNALLED, again), Reopened(first, end, again))
  {
    hide Follows;
    PollsOpen(EMPTY.state, first);
    PollsOpen(Closed(first, end), again);
    assert OpenFor(EMPTY.state, KEY, SIGNAL, [], first) == Open(first);
    assert OpenFor(Closed(first, end), KEY, SIGNAL, [], again) == Reopened(first, end, again);
  }

  lemma ItIsARun(first: int, end: int, again: int)
    ensures IsPollerRun(Pollers(first, end, again), Moves(first, end, again))
  {
    hide Follows, Persisted, Open, Closed, Reopened, Stored, Waiting, Journalled;
    ThePolls(first, end, again);
    FirstFlush(first);
    PollCloses(first, end);
    FailedFlushes(first, end, again);
    StatesOfPollers(first, end, again);
  }

  lemma StatesOfPollers(first: int, end: int, again: int)
    ensures Stored(first).state == Open(first) && Waiting(first, end).state == Closed(first, end)
  {
  }

  // ----- the flush at its end

  /** The flush after the reopening passes in every order by detection exactly if the clock has advanced past
      the first detection; behind it, it passes in none. */
  lemma PassesIffTheClockAdvanced(first: int, end: int, again: int)
    ensures
      var p := Pollers(first, end, again)[6];
      && IsPollerRun(Pollers(first, end, again), Moves(first, end, again)) && Pollers(first, end, again)[0] == EMPTY
      && ((forall order :: ByDetection(order, p.state.incidents) ==> Passes(p.disk.rows, p.state.incidents, order))
           <==> first < again)
      && (again < first ==>
           forall order :: ByDetection(order, p.state.incidents) ==> !Passes(p.disk.rows, p.state.incidents, order))
  {
    var pollers, moves := Pollers(first, end, again), Moves(first, end, again);
    var p := pollers[6];
    ItIsARun(first, end, again);
    StartIsIndexed();
    NoTokensNeeded(first, end, again);
    FlushOfRunPassesIff(pollers, moves, 5);
    TheWay(first, end, again);
    if again < first {
      forall order | ByDetection(order, p.state.incidents)
        ensures !Passes(p.disk.rows, p.state.incidents, order)
      {
        LaterComesFirst(first, end, again, order);
      }
    }
  }

  lemma StartIsIndexed()
    ensures Indexed(EMPTY)
  {
    assert RestoredIncidents(EMPTY.disk) == map[];
  }

  lemma NoTokensNeeded(first: int, end: int, again: int)
    ensures forall move :: move in Moves(first, end, again) ==> TokensCarried(move)
  {
  }

  lemma TheWay(first: int, end: int, again: int)
    ensures
      var p := Pollers(first, end, again)[6];
      && InTheWay(p.disk.rows, p.state.incidents, 1, 0)
      && (WayIsOlder(p.disk.rows, p.state.incidents) <==> first < again)
  {
    var p := Pollers(first, end, again)[6];
    var rows, incidents := p.disk.rows, p.state.incidents;
    assert rows == map[0 := RowOf(OpenedAt(first))];
    assert incidents[0].firstDetectedAt == first && incidents[1].firstDetectedAt == again;
    assert InTheWay(rows, incidents, 1, 0);
    assert forall later, former :: InTheWay(rows, incidents, later, former) ==> later == 1 && former == 0;
  }

  /** Listed by detection, the incident that needs the columns is the first of the two. */
  lemma LaterComesFirst(first: int, end: int, again: int, order: seq<IncidentId>)
    requires again < first && ByDetection(order, Reopened(first, end, again).incidents)
    ensures
      var p := Pollers(first, end, again)[6];
      p.state.incidents == Reopened(first, end, again).incidents && !Passes(p.disk.rows, p.state.incidents, order)
  {
    var p := Pollers(first, end, again)[6];
    assert 1 in order;
    var k :| 0 <= k < |order| && order[k] == 1;
    forall y | 0 <= y < k
      ensures order[y] != 0
    {
    }
    TheWay(first, end, again);
    ItIsARun(first, end, again);
    StartIsIndexed();
    NoTokensNeeded(first, end, again);
    StaysIndexed(Pollers(first, end, again), Moves(first, end, again), 6);
    ActiveColumnsDiffer(p);
    StatementsRespectIndexIff(p.disk.rows, p.state.incidents, order);
  }
}
