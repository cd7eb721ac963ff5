/** The durable copy of the incidents, and how it converges to the manager through outages.

    A row is what SQLite keeps of an incident; `Poller` is the value of everything the poller holds about
    incidents, in memory and on disk. Storing is one transaction that either happens or does not. */
module IncidentStorage {
  import opened Prelude
  import opened Incidents
  import opened IncidentStages
  import opened IncidentLifecycle
  import opened IncidentRuns

  const MAX_PENDING_TRANSITIONS: nat := 10_000

  datatype Payload = Payload(
    severity: Severity, reason: string, alias: Option<string>, acknowledgedAt: Option<int>, recoveredAt: Option<int>,
    lastNotifiedAt: Option<int>, token: string, details: string)

  datatype Row = Row(
    ip: Ip,
    kind: IncidentType,
    reasonKey: string,
    firstDetectedAt: int,
    lastSeenAt: int,
    resolvedAt: Option<int>,
    active: bool,
    acknowledged: bool,
    payload: Payload)

  function PayloadOf(i: Incident): Payload {
    Payload(i.severity, i.reason, i.alias, i.acknowledgedAt, i.recoveredAt, i.lastNotifiedAt, i.token, i.details)
  }

  function RowOf(i: Incident): Row {
    Row(if i.ip.Some? then i.ip.value else "", i.kind, if i.token != "" then i.token else i.reason,
        i.firstDetectedAt, i.lastSeenAt, i.recoveredAt, i.active, i.acknowledgedAt.Some?, PayloadOf(i))
  }

  /** A conflicting row keeps its identity columns, and once acknowledged it stays so. */
  function Merged(row: Row, i: Incident): Row {
    row.(lastSeenAt := i.lastSeenAt, resolvedAt := i.recoveredAt, active := i.active,
         acknowledged := row.acknowledged || i.acknowledgedAt.Some?, payload := PayloadOf(i))
  }

  function IncidentOf(row: Row): Incident {
    var p := row.payload;
    Incident(row.kind, p.severity, p.reason, row.firstDetectedAt, row.lastSeenAt,
             if row.ip == "" then None else Some(row.ip), p.alias, p.token, p.details, row.active, p.acknowledgedAt,
             if p.recoveredAt.Some? then p.recoveredAt else row.resolvedAt, p.lastNotifiedAt)
  }

  lemma RowRoundTrip(i: Incident)
    ensures IncidentOf(RowOf(i)) == i && (RowOf(i).acknowledged <==> i.acknowledgedAt.Some?)
  {
  }

  /** An updated row reads back as the incident exactly if its identity columns were the incident's. */
  lemma MergeRoundTripIff(row: Row, i: Incident)
    ensures IncidentOf(Merged(row, i)) == i <==>
      row.kind == i.kind && row.firstDetectedAt == i.firstDetectedAt
      && row.ip == if i.ip.Some? then i.ip.value else ""
  {
  }

  // ----- the disk

  datatype Disk = Disk(rows: map<IncidentId, Row>, events: seq<Transition>)

  function StoredRow(rows: map<IncidentId, Row>, id: IncidentId, i: Incident): Row {
    if id in rows then Merged(rows[id], i) else RowOf(i)
  }

  /** The transaction: every incident upserted, every transition appended, then the history cleanup of
      rows that are no longer active. */
  function Saved(disk: Disk, incidents: map<IncidentId, Incident>, transitions: seq<Transition>, expired: set<IncidentId>): Disk {
    Disk(map id | id in disk.rows.Keys + incidents.Keys
                  && (id in expired ==>
                        if id in incidents then StoredRow(disk.rows, id, incidents[id]).active else disk.rows[id].active) ::
           if id in incidents then StoredRow(disk.rows, id, incidents[id]) else disk.rows[id],
         disk.events + transitions)
  }

  /** What is written of an incident: a known row keeps what identifies it, and its acknowledgement. */
  lemma ColumnsMean(rows: map<IncidentId, Row>, id: IncidentId, i: Incident)
    ensures
      var row := StoredRow(rows, id, i);
      && row.lastSeenAt == i.lastSeenAt && row.resolvedAt == i.recoveredAt && row.active == i.active
      && row.payload.severity == i.severity && row.payload.reason == i.reason && row.payload.alias == i.alias
      && row.payload.acknowledgedAt == i.acknowledgedAt && row.payload.recoveredAt == i.recoveredAt
      && row.payload.lastNotifiedAt == i.lastNotifiedAt && row.payload.token == i.token && row.payload.details == i.details
      && if id in rows
         then && row.kind == rows[id].kind && row.ip == rows[id].ip && row.firstDetectedAt == rows[id].firstDetectedAt
              && row.reasonKey == rows[id].reasonKey && (row.acknowledged <==> rows[id].acknowledged || i.acknowledgedAt.Some?)
         else && row.kind == i.kind && row.firstDetectedAt == i.firstDetectedAt
              && (if i.ip == None then row.ip == "" else i.ip == Some(row.ip))
              && row.reasonKey == (if i.token == "" then i.reason else i.token)
              && (row.acknowledged <==> i.acknowledgedAt.Some?)
  {
  }

  /** What is read from a row; a row without a time of recovery in its payload has it in its column. */
  lemma ReadBackMeans(row: Row)
    ensures
      var i := IncidentOf(row);
      && i.kind == row.kind && i.firstDetectedAt == row.firstDetectedAt && i.lastSeenAt == row.lastSeenAt
      && i.active == row.active && (i.ip == None <==> row.ip == "") && (row.ip != "" ==> i.ip == Some(row.ip))
      && i.severity == row.payload.severity && i.reason == row.payload.reason && i.alias == row.payload.alias
      && i.token == row.payload.token && i.details == row.payload.details
      && i.acknowledgedAt == row.payload.acknowledgedAt && i.lastNotifiedAt == row.payload.lastNotifiedAt
      && (row.payload.recoveredAt == None ==> i.recoveredAt == row.resolvedAt)
      && (row.payload.recoveredAt != None ==> i.recoveredAt == row.payload.recoveredAt)
  {
  }

  /** After the transaction there is a row of everything that there was one of or an incident of, except for
      closed ones that the cleanup selects; every transition is appended in order. */
  lemma SavedMeans(disk: Disk, incidents: map<IncidentId, Incident>, transitions: seq<Transition>, expired: set<IncidentId>,
                   id: IncidentId)
    ensures
      var t := Saved(disk, incidents, transitions, expired);
      && t.events == disk.events + transitions
      && (id in t.rows <==>
            || (id in incidents && (id !in expired || incidents[id].active))
            || (id !in incidents && id in disk.rows && (id !in expired || disk.rows[id].active)))
      && (id in t.rows && id !in incidents ==> t.rows[id] == disk.rows[id])
      && (id in t.rows && id in incidents ==> t.rows[id] == StoredRow(disk.rows, id, incidents[id]))
  {
  }

  function ActiveRows(disk: Disk): set<IncidentId> {
    set id | id in disk.rows && disk.rows[id].active
  }

  function RestoredIncidents(disk: Disk): map<IncidentId, Incident> {
    map id | id in ActiveRows(disk) :: IncidentOf(disk.rows[id])
  }

  // ----- the poller

  /** `produced` and `lost` only record history: every transition so far, of this process and those before it,
      and whether any was dropped before it was stored. */
  datatype Poller = Poller(
    state: State,
    pending: seq<Transition>,
    durableIds: set<IncidentId>,
    disk: Disk,
    produced: seq<Transition>,
    lost: bool)

  function IdsOf(ts: seq<Transition>): set<IncidentId> {
    set t | t in ts :: t.id
  }

  /** New transitions join the retry journal; beyond its limit the oldest go, and with them closed incidents
      that neither the journal nor the disk still refers to. */
  function Journalled(p: Poller, ts: seq<Transition>): Poller {
    var all := p.pending + ts;
    if |all| <= MAX_PENDING_TRANSITIONS then p.(pending := all, produced := p.produced + ts)
    else
      var kept := all[|all| - MAX_PENDING_TRANSITIONS..];
      p.(pending := kept, produced := p.produced + ts, lost := true,
         state := CompactedState(p.state, IdsOf(kept) + p.durableIds))
  }

  /** Without anything to write the store is not even asked. */
  predicate Idle(p: Poller, otherWork: bool) {
    !otherWork && p.state.incidents == map[] && p.pending == []
  }

  function Flushed(p: Poller, otherWork: bool, durable: bool, expired: set<IncidentId>): Poller {
    if !Idle(p, otherWork) && !durable then p
    else
      p.(disk := if Idle(p, otherWork) then p.disk else Saved(p.disk, p.state.incidents, p.pending, expired),
         pending := [], durableIds := ActiveIds(p.state), state := CompactedState(p.state, {}))
  }

  function Persisted(p: Poller, ts: seq<Transition>, otherWork: bool, durable: bool, expired: set<IncidentId>): Poller {
    Flushed(Journalled(p, ts), otherWork, durable, expired)
  }

  /** A new process starts from the active rows; what was only in memory is gone. */
  function Restarted(p: Poller, nextId: nat): Poller
    requires !Duplicates(RestoredIncidents(p.disk))
  {
    Poller(StateOf(RestoredIncidents(p.disk), nextId), [], ActiveRows(p.disk), p.disk, p.produced, p.lost || p.pending != [])
  }

  function StateOf(incidents: map<IncidentId, Incident>, nextId: nat): State
    requires !Duplicates(incidents)
  {
    State(incidents,
          map id | id in incidents && incidents[id].active :: incidents[id].Identity() := id,
          nextId)
  }

  // ----- what stays true

  ghost predicate SameOrigin(a: Incident, b: Incident) {
    && a.kind == b.kind && a.ip == b.ip && a.firstDetectedAt == b.firstDetectedAt && a.token == b.token
    && (a.acknowledgedAt.Some? ==> b.acknowledgedAt.Some?)
  }

  /** Incidents keep their identity, acknowledgements are never taken back, new ids are fresh. */
  ghost predicate Grows(s: State, t: State) {
    && s.nextId <= t.nextId
    && (forall id :: id in s.incidents ==> id in t.incidents && SameOrigin(s.incidents[id], t.incidents[id]))
    && (forall id :: id in t.incidents && id !in s.incidents ==> id >= s.nextId)
  }

  lemma ProcessingGrows(s: State, health: Health, now: int, t: State)
    requires Processed(s, CurrentOf(health), MonitoringScope(health), health, now, t)
    ensures Grows(s, t)
  {
    hide CurrentSignals, InScope, FateOf, KeysProcessed, Bijection;
    forall id | id in s.incidents
      ensures id in t.incidents && SameOrigin(s.incidents[id], t.incidents[id])
    {
      assert t.incidents[id] == Evolved(s.incidents[id], CurrentOf(health), MonitoringScope(health), health, now);
    }
  }

  /** A step other than a poll or a compaction only changes incidents it finds, and opens none. */
  ghost predicate OnlyCloses(s: State, t: State) {
    && t.incidents.Keys == s.incidents.Keys && t.nextId == s.nextId
    && forall id :: id in s.incidents ==>
         SameOrigin(s.incidents[id], t.incidents[id]) && (t.incidents[id].active ==> s.incidents[id].active)
  }

  lemma StepOnlyCloses(s: State, step: Step, t: State)
    requires Follows(s, step, t) && !step.Compact? && !step.Poll?
    ensures OnlyCloses(s, t)
  {
  }

  lemma StepGrows(s: State, step: Step, t: State)
    requires Bijection(s) && Follows(s, step, t) && !step.Compact?
    ensures Grows(s, t) && Bijection(t)
  {
    StepKeepsBijection(s, step, t);
    hide Bijection, Processed, Closing, AcknowledgedState, NotifiedState;
    match step
    case Poll(health, now) => ProcessingGrows(s, health, now, t);
    case _ => StepOnlyCloses(s, step, t);
  }

  ghost predicate RowFits(row: Row, i: Incident) {
    && row.kind == i.kind && row.firstDetectedAt == i.firstDetectedAt
    && row.ip == (if i.ip.Some? then i.ip.value else "")
    && row.payload.token == i.token && (i.token != "" ==> row.reasonKey == i.token)
    && (row.acknowledged ==> i.acknowledgedAt.Some?)
  }

  ghost predicate RowsFit(disk: Disk, s: State) {
    && (forall id :: id in disk.rows && id in s.incidents ==> RowFits(disk.rows[id], s.incidents[id]))
    && (forall id :: id in disk.rows ==>
          id < s.nextId && (disk.rows[id].acknowledged ==> disk.rows[id].payload.acknowledgedAt.Some?)
          && (disk.rows[id].payload.token != "" ==> disk.rows[id].reasonKey == disk.rows[id].payload.token))
  }

  /** What every poller keeps, whatever the storage does. */
  ghost predicate Converging(p: Poller) {
    && Bijection(p.state)
    && |p.pending| <= MAX_PENDING_TRANSITIONS
    && ActiveRows(p.disk) == p.durableIds && p.durableIds <= p.state.incidents.Keys
    && RowsFit(p.disk, p.state)
    && !Duplicates(RestoredIncidents(p.disk))
    && Subsequence(p.disk.events + p.pending, p.produced)
    && (!p.lost ==> p.disk.events + p.pending == p.produced)
  }

  /** Disk and memory agree completely; nothing is waiting. */
  ghost predicate Converged(p: Poller) {
    && RestoredIncidents(p.disk) == p.state.incidents
    && (forall id :: id in p.state.incidents ==> (p.disk.rows[id].acknowledged <==> p.state.incidents[id].acknowledgedAt.Some?))
    && p.pending == []
  }

  lemma ThinkingKeepsConverging(p: Poller, t: State)
    requires Converging(p) && Grows(p.state, t) && Bijection(t)
    ensures Converging(p.(state := t))
  {
  }

  lemma JournallingKeepsConverging(p: Poller, ts: seq<Transition>)
    requires Converging(p)
    ensures Converging(Journalled(p, ts))
    ensures ActiveIds(Journalled(p, ts).state) == ActiveIds(p.state)
    ensures Journalled(p, ts).lost <==> p.lost || |p.pending| + |ts| > MAX_PENDING_TRANSITIONS
  {
    var all := p.pending + ts;
    if |all| <= MAX_PENDING_TRANSITIONS {
      JournalOrder(p.disk.events, p.pending, ts, p.produced, 0);
      assert all[0..] == all;
    } else {
      var cut := |all| - MAX_PENDING_TRANSITIONS;
      CompactionKeepsBijection(p.state, IdsOf(all[cut..]) + p.durableIds);
      JournalOrder(p.disk.events, p.pending, ts, p.produced, cut);
    }
  }

  /** Dropping the oldest waiting transitions keeps the order of what is left. */
  lemma JournalOrder(events: seq<Transition>, pending: seq<Transition>, ts: seq<Transition>, produced: seq<Transition>, cut: nat)
    requires Subsequence(events + pending, produced) && cut <= |pending + ts|
    ensures Subsequence(events + (pending + ts)[cut..], produced + ts)
    ensures events + (pending + ts) == (events + pending) + ts
  {
    hide Subsequence;
    var all := pending + ts;
    SubsequenceJoined(events + pending, produced, ts);
    SubsequenceWithoutMiddle(events, all[..cut], all[cut..]);
    assert events + all[..cut] + all[cut..] == events + all == (events + pending) + ts;
    SubsequenceTransitive(events + all[cut..], events + all, produced + ts);
  }

  /** One stored incident reads back exactly, whether its row is new or updated. */
  lemma StoredReadsBack(rows: map<IncidentId, Row>, id: IncidentId, i: Incident)
    requires id in rows ==> RowFits(rows[id], i)
    ensures IncidentOf(StoredRow(rows, id, i)) == i
    ensures StoredRow(rows, id, i).acknowledged <==> i.acknowledgedAt.Some?
    ensures RowFits(StoredRow(rows, id, i), i)
  {
  }

  lemma SavingConverges(disk: Disk, s: State, transitions: seq<Transition>, expired: set<IncidentId>)
    requires Bijection(s) && RowsFit(disk, s) && ActiveRows(disk) <= s.incidents.Keys
    ensures
      var saved := Saved(disk, s.incidents, transitions, expired);
      && ActiveRows(saved) == ActiveIds(s) && RowsFit(saved, s)
      && (forall id :: id in ActiveIds(s) ==>
            IncidentOf(saved.rows[id]) == s.incidents[id]
            && (saved.rows[id].acknowledged <==> s.incidents[id].acknowledgedAt.Some?))
  {
    var saved := Saved(disk, s.incidents, transitions, expired);
    forall id | id in s.incidents
      ensures IncidentOf(StoredRow(disk.rows, id, s.incidents[id])) == s.incidents[id]
      ensures StoredRow(disk.rows, id, s.incidents[id]).acknowledged <==> s.incidents[id].acknowledgedAt.Some?
      ensures RowFits(StoredRow(disk.rows, id, s.incidents[id]), s.incidents[id])
    {
      StoredReadsBack(disk.rows, id, s.incidents[id]);
    }
    forall id | id in saved.rows && saved.rows[id].active
      ensures id in s.incidents && s.incidents[id].active
    {
      assert id in s.incidents || id in ActiveRows(disk);
    }
  }

  /** A successful flush makes disk and memory agree; a failed one changes nothing. */
  lemma FlushConverges(p: Poller, otherWork: bool, durable: bool, expired: set<IncidentId>)
    requires Converging(p)
    ensures Converging(Flushed(p, otherWork, durable, expired))
    ensures durable || Idle(p, otherWork) ==> Converged(Flushed(p, otherWork, durable, expired))
    ensures !durable && !Idle(p, otherWork) ==> Flushed(p, otherWork, durable, expired) == p
    ensures ActiveIds(Flushed(p, otherWork, durable, expired).state) == ActiveIds(p.state)
  {
    var q := Flushed(p, otherWork, durable, expired);
    assert p.disk.events + p.pending + [] == p.disk.events + p.pending;
    CompactionKeepsBijection(p.state, {});
    if Idle(p, otherWork) {
      assert RestoredIncidents(p.disk) == map[];
    } else if durable {
      SavingConverges(p.disk, p.state, p.pending, expired);
      RestoredMatches(p, q);
    }
  }

  lemma RestoredMatches(p: Poller, q: Poller)
    requires Converging(p) && q.state == CompactedState(p.state, {}) && ActiveRows(q.disk) == ActiveIds(p.state)
    requires forall id :: id in ActiveIds(p.state) ==> IncidentOf(q.disk.rows[id]) == p.state.incidents[id]
    ensures RestoredIncidents(q.disk) == q.state.incidents && !Duplicates(RestoredIncidents(q.disk))
  {
  }

  lemma BijectionHasNoDuplicates(s: State)
    requires Bijection(s)
    ensures !Duplicates(s.incidents)
  {
  }

  /** A restart restores exactly the last stored active set; it never meets two claims of one identity. */
  lemma RestartConverges(p: Poller, nextId: nat)
    requires Converging(p) && p.state.nextId <= nextId
    ensures Converging(Restarted(p, nextId))
    ensures Converged(p) ==> Restarted(p, nextId).state == p.state.(nextId := nextId)
  {
    var q := Restarted(p, nextId);
    RestoringIsBijective(RestoredIncidents(p.disk), nextId);
    RestoredFits(p.disk, p.state, nextId);
    hide RowsFit, IncidentOf;
    JournalOrder(p.disk.events, p.pending, [], p.produced, |p.pending|);
    assert (p.pending + [])[|p.pending|..] == [] && p.disk.events + [] == p.disk.events && p.produced + [] == p.produced;
    hide Subsequence;
    if Converged(p) {
      SameIncidentsSameKeys(p.state, q.state);
    }
  }

  lemma RestoredFits(disk: Disk, s: State, nextId: nat)
    requires RowsFit(disk, s) && !Duplicates(RestoredIncidents(disk)) && s.nextId <= nextId
    ensures RowsFit(disk, StateOf(RestoredIncidents(disk), nextId))
  {
  }

  lemma SameIncidentsSameKeys(s: State, t: State)
    requires Bijection(s) && Bijection(t) && s.incidents == t.incidents
    ensures s.active == t.active
  {
  }

  lemma RestoringIsBijective(incidents: map<IncidentId, Incident>, nextId: nat)
    requires !Duplicates(incidents) && forall id :: id in incidents ==> id < nextId
    ensures Bijection(StateOf(incidents, nextId))
  {
  }

  // ----- over whole runs

  datatype Move =
    | Think(step: Step, after: State)
    | Persist(transitions: seq<Transition>, otherWork: bool, durable: bool, expired: set<IncidentId>)
    | Restart(nextId: nat)

  ghost predicate MovesTo(p: Poller, move: Move, q: Poller) {
    match move
    case Think(step, after) => Follows(p.state, step, after) && !step.Compact? && q == p.(state := after)
    case Persist(ts, otherWork, durable, expired) => q == Persisted(p, ts, otherWork, durable, expired)
    case Restart(nextId) =>
      p.state.nextId <= nextId && !Duplicates(RestoredIncidents(p.disk)) && q == Restarted(p, nextId)
  }

  ghost predicate IsPollerRun(pollers: seq<Poller>, moves: seq<Move>) {
    |pollers| == |moves| + 1 && forall i :: 0 <= i < |moves| ==> MovesTo(pollers[i], moves[i], pollers[i + 1])
  }

  /** The flush of this move went through. */
  predicate Succeeds(p: Poller, move: Move) {
    move.Persist? && (move.durable || Idle(Journalled(p, move.transitions), move.otherWork))
  }

  lemma MoveKeepsConverging(p: Poller, move: Move, q: Poller)
    requires Converging(p) && MovesTo(p, move, q)
    ensures Converging(q)
    ensures Succeeds(p, move) ==> Converged(q)
  {
    hide Converging, Converged, Flushed, Journalled, Restarted, Follows, Grows, Idle;
    match move
    case Think(step, after) =>
      ConvergingIsBijective(p);
      StepGrows(p.state, step, after);
      ThinkingKeepsConverging(p, after);
    case Persist(ts, otherWork, durable, expired) =>
      JournallingKeepsConverging(p, ts);
      FlushConverges(Journalled(p, ts), otherWork, durable, expired);
    case Restart(nextId) => RestartConverges(p, nextId);
  }

  lemma ConvergingIsBijective(p: Poller)
    requires Converging(p)
    ensures Bijection(p.state)
  {
  }

  /** A restart can always happen: what is stored never claims one identity twice. */
  lemma RestartIsPossible(p: Poller)
    requires Converging(p)
    ensures exists q :: MovesTo(p, Restart(p.state.nextId), q)
  {
    assert MovesTo(p, Restart(p.state.nextId), Restarted(p, p.state.nextId));
  }

  /** Through any polls, acknowledgements, outages, overflows and restarts: the journal stays bounded, the
      stored and waiting transitions are those produced, in order and none twice, complete unless some were
      dropped; and after each successful flush disk and memory agree completely. */
  lemma {:induction false} ConvergesThroughOutages(pollers: seq<Poller>, moves: seq<Move>, i: nat)
    requires IsPollerRun(pollers, moves) && Converging(pollers[0]) && i < |pollers|
    ensures |pollers[i].pending| <= MAX_PENDING_TRANSITIONS
    ensures Subsequence(pollers[i].disk.events + pollers[i].pending, pollers[i].produced)
    ensures !pollers[i].lost ==> pollers[i].disk.events + pollers[i].pending == pollers[i].produced
    ensures i > 0 && Succeeds(pollers[i - 1], moves[i - 1]) ==>
      Converged(pollers[i]) && ActiveRows(pollers[i].disk) == ActiveIds(pollers[i].state)
    ensures Converging(pollers[i])
  {
    if i > 0 {
      ConvergesThroughOutages(pollers, moves, i - 1);
      hide Succeeds, MovesTo;
      MoveKeepsConverging(pollers[i - 1], moves[i - 1], pollers[i]);
      assert Succeeds(pollers[i - 1], moves[i - 1]) ==>
        RestoredIncidents(pollers[i].disk).Keys == pollers[i].state.incidents.Keys;
    }
  }

  /** A restart brings back exactly the incidents of the last successful flush. */
  lemma RestartRestoresLastStored(pollers: seq<Poller>, moves: seq<Move>, i: nat, j: nat)
    requires IsPollerRun(pollers, moves) && Converging(pollers[0]) && 0 < i <= j < |moves|
    requires Succeeds(pollers[i - 1], moves[i - 1]) && moves[j].Restart?
    requires forall m :: i <= m < j ==> !Succeeds(pollers[m], moves[m])
    ensures pollers[j + 1].state.incidents == pollers[i].state.incidents
    ensures pollers[j + 1].state.active == pollers[i].state.active
  {
    ConvergesThroughOutages(pollers, moves, i);
    ConvergesThroughOutages(pollers, moves, j + 1);
    DiskUntouched(pollers, moves, i, j);
    SameIncidentsSameKeys(pollers[i].state, pollers[j + 1].state);
  }

  lemma {:induction false} DiskUntouched(pollers: seq<Poller>, moves: seq<Move>, i: nat, j: nat)
    requires IsPollerRun(pollers, moves) && i <= j < |pollers|
    requires forall m :: i <= m < j ==> !Succeeds(pollers[m], moves[m])
    ensures pollers[j].disk == pollers[i].disk
    decreases j
  {
    if i < j {
      DiskUntouched(pollers, moves, i, j - 1);
      assert MovesTo(pollers[j - 1], moves[j - 1], pollers[j]);
    }
  }
}
