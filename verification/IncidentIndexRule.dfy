/** The unique index over active incident rows, which SQLite checks after every single upsert, and why the
    order of the upserts keeps every flush clear of it. */
module IncidentIndexRule {
  import opened Prelude
  import opened Incidents
  import opened IncidentStages
  import opened IncidentLifecycle
  import opened IncidentRuns
  import opened IncidentStorage

  type Rows = map<IncidentId, Row>

  /** The indexed columns of two rows coincide. */
  predicate SameColumns(a: Row, b: Row) {
    a.ip == b.ip && a.kind == b.kind && a.reasonKey == b.reasonKey
  }

  ghost predicate UniqueActive(rows: Rows) {
    forall a, b :: (a in rows && b in rows && a != b && rows[a].active && rows[b].active) ==> !SameColumns(rows[a], rows[b])
  }

  /** The rows after the listed incidents were upserted, one statement each. */
  function Upserted(rows: Rows, incidents: map<IncidentId, Incident>, order: seq<IncidentId>): Rows
    requires forall id :: id in order ==> id in incidents
  {
    if order == [] then rows
    else
      var last := |order| - 1;
      var earlier := Upserted(rows, incidents, order[..last]);
      earlier[order[last] := StoredRow(earlier, order[last], incidents[order[last]])]
  }

  ghost predicate EachOnce(order: seq<IncidentId>, incidents: map<IncidentId, Incident>) {
    && (forall id :: id in order <==> id in incidents)
    && (forall i, j :: 0 <= i < j < |order| ==> order[i] != order[j])
  }

  lemma {:induction false} UpsertedRow(rows: Rows, incidents: map<IncidentId, Incident>, order: seq<IncidentId>, id: IncidentId)
    requires forall i :: i in order ==> i in incidents
    requires forall i, j :: 0 <= i < j < |order| ==> order[i] != order[j]
    ensures id in Upserted(rows, incidents, order) <==> id in rows || id in order
    ensures id in order ==> Upserted(rows, incidents, order)[id] == StoredRow(rows, id, incidents[id])
    ensures id in rows && id !in order ==> Upserted(rows, incidents, order)[id] == rows[id]
  {
    if order != [] {
      var last := |order| - 1;
      assert order == order[..last] + [order[last]];
      UpsertedRow(rows, incidents, order[..last], id);
      UpsertedRow(rows, incidents, order[..last], order[last]);
    }
  }

  // ----- what the order has to respect

  /** Stored as active under the columns that another, active incident is about to take. */
  ghost predicate InTheWay(rows: Rows, incidents: map<IncidentId, Incident>, later: IncidentId, former: IncidentId) {
    && later != former && ActiveIn(incidents, later) && former in rows && rows[former].active
    && SameColumns(StoredRow(rows, later, incidents[later]), rows[former])
  }

  /** No two active incidents of the manager take the same columns. */
  ghost predicate ColumnsTellApart(rows: Rows, incidents: map<IncidentId, Incident>) {
    forall a, b :: (a != b && ActiveIn(incidents, a) && ActiveIn(incidents, b)) ==>
      !SameColumns(StoredRow(rows, a, incidents[a]), StoredRow(rows, b, incidents[b]))
  }

  /** The index is respected after every statement exactly if whatever is stored in the way of an active
      incident is upserted before it. */
  lemma StatementsRespectIndexIff(rows: Rows, incidents: map<IncidentId, Incident>, order: seq<IncidentId>)
    requires EachOnce(order, incidents) && UniqueActive(rows) && ColumnsTellApart(rows, incidents)
    ensures (forall k :: 0 <= k <= |order| ==> UniqueActive(Upserted(rows, incidents, order[..k]))) <==>
      forall k, former :: 0 <= k < |order| && InTheWay(rows, incidents, order[k], former) ==> former in order[..k]
  {
    if forall k, former :: 0 <= k < |order| && InTheWay(rows, incidents, order[k], former) ==> former in order[..k] {
      forall k | 0 <= k <= |order|
        ensures UniqueActive(Upserted(rows, incidents, order[..k]))
      {
        EveryStageIsUnique(rows, incidents, order, k);
      }
    }
    if exists k, former :: 0 <= k < |order| && InTheWay(rows, incidents, order[k], former) && former !in order[..k] {
      var k, former :| 0 <= k < |order| && InTheWay(rows, incidents, order[k], former) && former !in order[..k];
      assert order[..k + 1] == order[..k] + [order[k]];
      UpsertedRow(rows, incidents, order[..k + 1], order[k]);
      UpsertedRow(rows, incidents, order[..k + 1], former);
      StoredIsActive(rows, order[k], incidents[order[k]]);
      hide Upserted, SameColumns, StoredRow;
      assert !UniqueActive(Upserted(rows, incidents, order[..k + 1]));
    }
  }

  lemma EveryStageIsUnique(rows: Rows, incidents: map<IncidentId, Incident>, order: seq<IncidentId>, k: nat)
    requires EachOnce(order, incidents) && UniqueActive(rows) && ColumnsTellApart(rows, incidents) && k <= |order|
    requires forall k, former :: 0 <= k < |order| && InTheWay(rows, incidents, order[k], former) ==> former in order[..k]
    ensures UniqueActive(Upserted(rows, incidents, order[..k]))
  {
    var stage := Upserted(rows, incidents, order[..k]);
    forall a, b | a in stage && b in stage && a != b && stage[a].active && stage[b].active
      ensures !SameColumns(stage[a], stage[b])
    {
      UpsertedRow(rows, incidents, order[..k], a);
      UpsertedRow(rows, incidents, order[..k], b);
      hide Upserted, SameColumns, StoredRow;
      AllStoredActive(rows, incidents);
      StageRowsDiffer(rows, incidents, order, k, a, b);
    }
  }

  lemma StageRowsDiffer(rows: Rows, incidents: map<IncidentId, Incident>, order: seq<IncidentId>, k: nat, a: IncidentId, b: IncidentId)
    requires EachOnce(order, incidents) && UniqueActive(rows) && ColumnsTellApart(rows, incidents) && k <= |order|
    requires forall k, former :: 0 <= k < |order| && InTheWay(rows, incidents, order[k], former) ==> former in order[..k]
    requires a != b && (a in order[..k] || a in rows) && (b in order[..k] || b in rows)
    requires a in order[..k] ==> incidents[a].active
    requires b in order[..k] ==> incidents[b].active
    requires a !in order[..k] ==> rows[a].active
    requires b !in order[..k] ==> rows[b].active
    ensures
      var rowOfA := if a in order[..k] then StoredRow(rows, a, incidents[a]) else rows[a];
      var rowOfB := if b in order[..k] then StoredRow(rows, b, incidents[b]) else rows[b];
      !SameColumns(rowOfA, rowOfB)
  {
    if a in order[..k] && b !in order[..k] {
      NotInTheWay(rows, incidents, order, k, a, b);
    } else if b in order[..k] && a !in order[..k] {
      NotInTheWay(rows, incidents, order, k, b, a);
    }
  }

  lemma NotInTheWay(rows: Rows, incidents: map<IncidentId, Incident>, order: seq<IncidentId>, k: nat, later: IncidentId,
                    former: IncidentId)
    requires EachOnce(order, incidents) && k <= |order| && later in order[..k] && former !in order[..k]
    requires forall k, former :: 0 <= k < |order| && InTheWay(rows, incidents, order[k], former) ==> former in order[..k]
    ensures !InTheWay(rows, incidents, later, former)
  {
  }

  // ----- why the order by detection time does it

  /** A closed incident was detected before any open one of the same identity. */
  ghost predicate Chronological(incidents: map<IncidentId, Incident>) {
    forall i, j :: (ActiveIn(incidents, i) && j in incidents && !incidents[j].active
                    && incidents[j].Identity() == incidents[i].Identity()) ==>
      incidents[j].firstDetectedAt < incidents[i].firstDetectedAt
  }

  predicate UsesToken(kind: IncidentType) {
    kind.ConnectionTypeChanged? || kind.CollectionFailure?
  }

  /** Incidents that are told apart by their token have one. */
  ghost predicate Tokened(incidents: map<IncidentId, Incident>) {
    forall id :: id in incidents && UsesToken(incidents[id].kind) ==> incidents[id].token != ""
  }

  /** The incidents are listed by detection time. */
  ghost predicate ByDetection(order: seq<IncidentId>, incidents: map<IncidentId, Incident>) {
    && EachOnce(order, incidents)
    && forall i, j :: 0 <= i < j < |order| ==> incidents[order[i]].firstDetectedAt <= incidents[order[j]].firstDetectedAt
  }

  /** Flushing in the order of detection never meets a row in the way. */
  lemma FlushNeverConflicts(p: Poller, order: seq<IncidentId>, k: nat)
    requires Converging(p) && Chronological(p.state.incidents) && Tokened(p.state.incidents) && UniqueActive(p.disk.rows)
    requires ByDetection(order, p.state.incidents) && k <= |order|
    ensures UniqueActive(Upserted(p.disk.rows, p.state.incidents, order[..k]))
  {
    var rows, incidents := p.disk.rows, p.state.incidents;
    ActiveColumnsDiffer(p);
    forall x, former | 0 <= x < |order| && InTheWay(rows, incidents, order[x], former)
      ensures former in order[..x]
    {
      InTheWayIsOlder(p, order[x], former);
      var y :| 0 <= y < |order| && order[y] == former;
      assert y < x;
      assert order[..x][y] == former;
    }
    EveryStageIsUnique(rows, incidents, order, k);
  }

  lemma ActiveColumnsDiffer(p: Poller)
    requires Converging(p) && Tokened(p.state.incidents)
    ensures ColumnsTellApart(p.disk.rows, p.state.incidents)
  {
  }

  lemma InTheWayIsOlder(p: Poller, later: IncidentId, former: IncidentId)
    requires Converging(p) && Chronological(p.state.incidents) && Tokened(p.state.incidents)
    requires InTheWay(p.disk.rows, p.state.incidents, later, former)
    ensures former in p.state.incidents
    ensures p.state.incidents[former].firstDetectedAt < p.state.incidents[later].firstDetectedAt
  {
  }

  lemma OneOfThemIsClosed(s: State, later: IncidentId, former: IncidentId)
    requires Bijection(s) && later != former && ActiveIn(s.incidents, later) && former in s.incidents
    requires s.incidents[later].Identity() == s.incidents[former].Identity()
    ensures !s.incidents[former].active
  {
  }

  lemma StoredIsActive(rows: Rows, id: IncidentId, i: Incident)
    ensures StoredRow(rows, id, i).active == i.active
  {
  }

  lemma AllStoredActive(rows: Rows, incidents: map<IncidentId, Incident>)
    ensures forall id :: id in incidents ==> StoredRow(rows, id, incidents[id]).active == incidents[id].active
  {
  }

  // ----- exactly when the order by detection time does it

  /** What holds of every poller whose signals carry the tokens they need, whatever its clock does. */
  ghost predicate Indexed(p: Poller) {
    Converging(p) && UniqueActive(p.disk.rows) && Tokened(p.state.incidents)
  }

  /** Whatever is stored in the way of an active incident was detected strictly before it. */
  ghost predicate WayIsOlder(rows: Rows, incidents: map<IncidentId, Incident>) {
    forall later, former :: InTheWay(rows, incidents, later, former) ==>
      former in incidents && incidents[former].firstDetectedAt < incidents[later].firstDetectedAt
  }

  /** Every statement of a flush in this order respects the index. */
  ghost predicate Passes(rows: Rows, incidents: map<IncidentId, Incident>, order: seq<IncidentId>)
    requires EachOnce(order, incidents)
  {
    forall k :: 0 <= k <= |order| ==> UniqueActive(Upserted(rows, incidents, order[..k]))
  }

  /** A flush passes in every order by detection exactly if whatever is in the way is strictly older. */
  lemma FlushPassesIff(p: Poller)
    requires Indexed(p)
    ensures (forall order :: ByDetection(order, p.state.incidents) ==> Passes(p.disk.rows, p.state.incidents, order))
      <==> WayIsOlder(p.disk.rows, p.state.incidents)
  {
    var rows, incidents := p.disk.rows, p.state.incidents;
    ActiveColumnsDiffer(p);
    hide Converging, Tokened, ColumnsTellApart, UniqueActive, InTheWay;
    if WayIsOlder(rows, incidents) {
      forall order | ByDetection(order, incidents)
        ensures Passes(rows, incidents, order)
      {
        OlderComesFirst(rows, incidents, order);
        StatementsRespectIndexIff(rows, incidents, order);
      }
    } else {
      var later, former :| InTheWay(rows, incidents, later, former)
        && !(former in incidents && incidents[former].firstDetectedAt < incidents[later].firstDetectedAt);
      var order := OrderAgainst(p, later, former);
      StatementsRespectIndexIff(rows, incidents, order);
      assert !Passes(rows, incidents, order);
    }
  }

  lemma OlderComesFirst(rows: Rows, incidents: map<IncidentId, Incident>, order: seq<IncidentId>)
    requires WayIsOlder(rows, incidents) && ByDetection(order, incidents)
    ensures forall k, former :: 0 <= k < |order| && InTheWay(rows, incidents, order[k], former) ==> former in order[..k]
  {
    hide InTheWay;
    forall k, former | 0 <= k < |order| && InTheWay(rows, incidents, order[k], former)
      ensures former in order[..k]
    {
      var y :| 0 <= y < |order| && order[y] == former;
      assert order[..k][y] == former;
    }
  }

  /** An order by detection in which the incident that needs the columns comes before their holder. */
  lemma OrderAgainst(p: Poller, later: IncidentId, former: IncidentId) returns (order: seq<IncidentId>)
    requires Converging(p) && InTheWay(p.disk.rows, p.state.incidents, later, former)
    requires former in p.state.incidents ==>
      p.state.incidents[later].firstDetectedAt <= p.state.incidents[former].firstDetectedAt
    ensures ByDetection(order, p.state.incidents)
    ensures exists k :: 0 <= k < |order| && order[k] == later && former !in order[..k]
  {
    var incidents := p.state.incidents;
    HolderIsKnown(p, later, former);
    order := Sorted(incidents, incidents.Keys, former);
    assert forall id :: id in order <==> id in incidents;
    var k :| 0 <= k < |order| && order[k] == later;
    forall y | 0 <= y < k
      ensures order[y] != former
    {
      assert Before(incidents, former, order[y], order[k]);
    }
  }

  lemma HolderIsKnown(p: Poller, later: IncidentId, former: IncidentId)
    requires Converging(p) && InTheWay(p.disk.rows, p.state.incidents, later, former)
    ensures former in p.state.incidents && later in p.state.incidents && later != former
  {
    assert former in ActiveRows(p.disk);
  }

  /** By detection time, and `last` after all others of its time. */
  predicate Before(incidents: map<IncidentId, Incident>, last: IncidentId, a: IncidentId, b: IncidentId)
    requires a in incidents && b in incidents
  {
    || incidents[a].firstDetectedAt < incidents[b].firstDetectedAt
    || (incidents[a].firstDetectedAt == incidents[b].firstDetectedAt && a != last)
  }

  lemma {:induction false} Sorted(incidents: map<IncidentId, Incident>, ids: set<IncidentId>, last: IncidentId)
    returns (order: seq<IncidentId>)
    requires ids <= incidents.Keys
    ensures forall id :: id in order <==> id in ids
    ensures forall i, j :: 0 <= i < j < |order| ==> order[i] != order[j]
    ensures forall i, j :: 0 <= i < j < |order| ==>
      order[i] in incidents && order[j] in incidents && Before(incidents, last, order[i], order[j])
    decreases |ids|
  {
    if ids == {} {
      order := [];
    } else {
      var latest := Latest(incidents, ids, last);
      var rest := Sorted(incidents, ids - {latest}, last);
      order := rest + [latest];
      forall i, j | 0 <= i < j < |order|
        ensures order[i] != order[j] && order[i] in incidents && order[j] in incidents
        ensures Before(incidents, last, order[i], order[j])
      {
        assert order[i] in rest;
      }
    }
  }

  lemma {:induction false} Latest(incidents: map<IncidentId, Incident>, ids: set<IncidentId>, last: IncidentId)
    returns (latest: IncidentId)
    requires ids <= incidents.Keys && ids != {}
    ensures latest in ids && forall id :: id in ids && id != latest ==> Before(incidents, last, id, latest)
    decreases |ids|
  {
    var id :| id in ids;
    if ids == {id} {
      latest := id;
    } else {
      var other := Latest(incidents, ids - {id}, last);
      latest := if Before(incidents, last, id, other) then other else id;
      forall x | x in ids && x != latest
        ensures Before(incidents, last, x, latest)
      {
        assert x == id || x in ids - {id};
      }
    }
  }

  // ----- over whole runs

  ghost predicate InOrder(p: Poller) {
    Indexed(p) && Chronological(p.state.incidents)
  }

  ghost predicate TokensCarried(move: Move) {
    move.Think? && move.step.Poll? ==> forall s :: s in move.step.health.signals && UsesToken(s.kind) ==> s.token != ""
  }

  /** Whatever the clock does: a flush of any run passes in every order by detection exactly if whatever is
      stored in the way of an active incident was detected strictly before it. */
  lemma FlushOfRunPassesIff(pollers: seq<Poller>, moves: seq<Move>, i: nat)
    requires IsPollerRun(pollers, moves) && Indexed(pollers[0]) && (forall move :: move in moves ==> TokensCarried(move))
    requires i < |moves| && moves[i].Persist?
    ensures
      var p := Journalled(pollers[i], moves[i].transitions);
      (forall order :: ByDetection(order, p.state.incidents) ==> Passes(p.disk.rows, p.state.incidents, order))
        <==> WayIsOlder(p.disk.rows, p.state.incidents)
  {
    StaysIndexed(pollers, moves, i);
    JournallingKeepsConverging(pollers[i], moves[i].transitions);
    FlushPassesIff(Journalled(pollers[i], moves[i].transitions));
  }

  lemma {:induction false} StaysIndexed(pollers: seq<Poller>, moves: seq<Move>, i: nat)
    requires IsPollerRun(pollers, moves) && Indexed(pollers[0]) && (forall move :: move in moves ==> TokensCarried(move))
    requires i < |pollers|
    ensures Indexed(pollers[i])
  {
    hide Indexed, MovesTo, TokensCarried;
    if i > 0 {
      StaysIndexed(pollers, moves, i - 1);
      MoveKeepsIndexed(pollers[i - 1], moves[i - 1], pollers[i]);
    }
  }

  lemma MoveKeepsIndexed(p: Poller, move: Move, q: Poller)
    requires Indexed(p) && MovesTo(p, move, q) && TokensCarried(move)
    ensures Indexed(q)
  {
    hide Converging, UniqueActive, Tokened, Follows, Journalled, Flushed;
    MoveKeepsConverging(p, move, q);
    match move
    case Think(step, after) => ThinkingKeepsTokens(p, step, after);
    case Persist(ts, otherWork, durable, expired) => PersistingKeepsIndexed(p, ts, otherWork, durable, expired);
    case Restart(nextId) => RestartingKeepsTokens(p, nextId);
  }

  lemma ThinkingKeepsTokens(p: Poller, step: Step, after: State)
    requires Indexed(p) && Follows(p.state, step, after) && !step.Compact? && TokensCarried(Think(step, after))
    ensures Tokened(after.incidents)
  {
    hide Bijection, Processed, Closing, AcknowledgedState, NotifiedState, Converging, UniqueActive;
    ConvergingIsBijective(p);
    match step
    case Poll(health, now) =>
      forall id | id in after.incidents && UsesToken(after.incidents[id].kind)
        ensures after.incidents[id].token != ""
      {
        PolledIncident(p.state, health, now, after, id);
      }
    case _ => StepOnlyCloses(p.state, step, after);
  }

  lemma PersistingKeepsIndexed(p: Poller, ts: seq<Transition>, otherWork: bool, durable: bool, expired: set<IncidentId>)
    requires Indexed(p)
    ensures
      var q := Persisted(p, ts, otherWork, durable, expired);
      UniqueActive(q.disk.rows) && Tokened(q.state.incidents)
  {
    JournallingKeepsConverging(p, ts);
    var j := Journalled(p, ts);
    if durable && !Idle(j, otherWork) {
      ActiveColumnsDiffer(j);
      SavedIsUnique(j, expired);
    }
  }

  lemma RestartingKeepsTokens(p: Poller, nextId: nat)
    requires Indexed(p) && !Duplicates(RestoredIncidents(p.disk))
    ensures Tokened(Restarted(p, nextId).state.incidents)
  {
    hide UniqueActive, Bijection;
  }

  /** The clock of a poll is past every detection so far, and its signals carry the tokens they need. */
  ghost predicate Timely(p: Poller, move: Move) {
    move.Think? && move.step.Poll? ==>
      && (forall id :: id in p.state.incidents ==> p.state.incidents[id].firstDetectedAt < move.step.now)
      && (forall s :: s in move.step.health.signals && UsesToken(s.kind) ==> s.token != "")
  }

  ghost predicate IsTimelyRun(pollers: seq<Poller>, moves: seq<Move>) {
    IsPollerRun(pollers, moves) && forall i :: 0 <= i < |moves| ==> Timely(pollers[i], moves[i])
  }

  lemma PollKeepsChronological(s: State, health: Health, now: int, t: State)
    requires Bijection(s) && Chronological(s.incidents) && Tokened(s.incidents)
    requires Processed(s, CurrentOf(health), MonitoringScope(health), health, now, t)
    requires forall id :: id in s.incidents ==> s.incidents[id].firstDetectedAt < now
    requires forall g :: g in health.signals && UsesToken(g.kind) ==> g.token != ""
    ensures Chronological(t.incidents) && Tokened(t.incidents)
  {
    var current, scope := CurrentOf(health), MonitoringScope(health);
    forall id | id in t.incidents
      ensures id in s.incidents ==>
        SameOrigin(s.incidents[id], t.incidents[id]) && (t.incidents[id].active ==> s.incidents[id].active)
      ensures id !in s.incidents ==>
        t.incidents[id].active && t.incidents[id].firstDetectedAt == now
        && (UsesToken(t.incidents[id].kind) ==> t.incidents[id].token != "")
    {
      PolledIncident(s, health, now, t, id);
    }
    hide Processed, CurrentOf, MonitoringScope;
    forall i, j | ActiveIn(t.incidents, i) && j in t.incidents && !t.incidents[j].active
                  && t.incidents[j].Identity() == t.incidents[i].Identity()
      ensures t.incidents[j].firstDetectedAt < t.incidents[i].firstDetectedAt
    {
      if i in s.incidents {
        assert s.incidents[j].Identity() == s.incidents[i].Identity();
        if s.incidents[j].active {
          OneOfThemIsClosed(s, i, j);
        }
      }
    }
  }

  lemma PolledIncident(s: State, health: Health, now: int, t: State, id: IncidentId)
    requires Bijection(s) && Processed(s, CurrentOf(health), MonitoringScope(health), health, now, t) && id in t.incidents
    requires forall g :: g in health.signals && UsesToken(g.kind) ==> g.token != ""
    ensures id in s.incidents ==>
      SameOrigin(s.incidents[id], t.incidents[id]) && (t.incidents[id].active ==> s.incidents[id].active)
    ensures id !in s.incidents ==>
      t.incidents[id].active && t.incidents[id].firstDetectedAt == now
      && (UsesToken(t.incidents[id].kind) ==> t.incidents[id].token != "")
  {
    var current, scope := CurrentOf(health), MonitoringScope(health);
    hide CurrentSignals, InScope, FateOf;
    if id in s.incidents {
      assert t.incidents[id] == Evolved(s.incidents[id], current, scope, health, now);
    } else {
      var k := t.incidents[id].Identity();
      assert t.active[k] == id && k !in KeptKeys(s, current.Keys, scope, health);
      CurrentIsSignal(health, k);
    }
  }

  lemma CurrentIsSignal(health: Health, k: Key)
    requires k in CurrentOf(health)
    ensures CurrentOf(health)[k] in health.signals && CurrentOf(health)[k].Identity() == k
  {
    CurrentIsFirst(health.signals, MonitoringScope(health), k);
  }

  lemma MoveKeepsInOrder(p: Poller, move: Move, q: Poller)
    requires InOrder(p) && MovesTo(p, move, q) && Timely(p, move)
    ensures InOrder(q)
  {
    MoveKeepsConverging(p, move, q);
    match move
    case Think(step, after) => ThinkingKeepsInOrder(p, step, after);
    case Persist(ts, otherWork, durable, expired) => PersistingKeepsInOrder(p, ts, otherWork, durable, expired);
    case Restart(nextId) => RestartingKeepsInOrder(p, nextId);
  }

  lemma ThinkingKeepsInOrder(p: Poller, step: Step, after: State)
    requires InOrder(p) && Follows(p.state, step, after) && !step.Compact? && Timely(p, Think(step, after))
    ensures Chronological(after.incidents) && Tokened(after.incidents)
  {
    hide Bijection, Processed, Closing, AcknowledgedState, NotifiedState, Chronological, Tokened, Converging,
         UniqueActive;
    ConvergingIsBijective(p);
    match step
    case Poll(health, now) => PollKeepsChronological(p.state, health, now, after);
    case _ =>
      StepOnlyCloses(p.state, step, after);
      ClosingKeepsChronological(p.state, after);
  }

  lemma ClosingKeepsChronological(s: State, t: State)
    requires Bijection(s) && Chronological(s.incidents) && Tokened(s.incidents) && OnlyCloses(s, t)
    ensures Chronological(t.incidents) && Tokened(t.incidents)
  {
  }

  lemma PersistingKeepsInOrder(p: Poller, ts: seq<Transition>, otherWork: bool, durable: bool, expired: set<IncidentId>)
    requires InOrder(p)
    ensures
      var q := Persisted(p, ts, otherWork, durable, expired);
      UniqueActive(q.disk.rows) && Chronological(q.state.incidents) && Tokened(q.state.incidents)
  {
    JournallingKeepsConverging(p, ts);
    var j := Journalled(p, ts);
    assert InOrder(j);
    if durable && !Idle(j, otherWork) {
      ActiveColumnsDiffer(j);
      SavedIsUnique(j, expired);
    }
  }

  lemma SavedIsUnique(p: Poller, expired: set<IncidentId>)
    requires Converging(p) && ColumnsTellApart(p.disk.rows, p.state.incidents)
    ensures UniqueActive(Saved(p.disk, p.state.incidents, p.pending, expired).rows)
  {
  }

  lemma RestartingKeepsInOrder(p: Poller, nextId: nat)
    requires InOrder(p) && !Duplicates(RestoredIncidents(p.disk))
    ensures Chronological(Restarted(p, nextId).state.incidents) && Tokened(Restarted(p, nextId).state.incidents)
  {
  }

  /** Over any timely run, every flush can go through as far as the index is concerned: no statement of it
      meets another active row with the same columns. */
  lemma {:induction false} NoFlushEverConflicts(pollers: seq<Poller>, moves: seq<Move>, i: nat)
    requires IsTimelyRun(pollers, moves) && InOrder(pollers[0]) && i < |pollers|
    ensures InOrder(pollers[i])
    ensures i < |moves| && moves[i].Persist? ==>
      forall order, k ::
        var p := Journalled(pollers[i], moves[i].transitions);
        ByDetection(order, p.state.incidents) && 0 <= k <= |order| ==>
          UniqueActive(Upserted(p.disk.rows, p.state.incidents, order[..k]))
  {
    if i > 0 {
      NoFlushEverConflicts(pollers, moves, i - 1);
      MoveKeepsInOrder(pollers[i - 1], moves[i - 1], pollers[i]);
    }
    if i < |moves| && moves[i].Persist? {
      var p := Journalled(pollers[i], moves[i].transitions);
      JournallingKeepsConverging(pollers[i], moves[i].transitions);
      assert InOrder(p);
      forall order, k | ByDetection(order, p.state.incidents) && 0 <= k <= |order|
        ensures UniqueActive(Upserted(p.disk.rows, p.state.incidents, order[..k]))
      {
        FlushNeverConflicts(p, order, k);
      }
    }
  }
}
