/** The in-memory authority over connection baselines, written back to the store when it can be. */
module BaselineCache {
  import opened Prelude
  import opened Incidents
  import opened IncidentStorage

  datatype Baseline = Baseline(collector: Ip, member: Ip, displayValue: string, normalizedValue: string, observedAt: int)

  type Baselines = map<Ip, Baseline>

  /** What the cache holds besides its values: changes the store has not seen yet. */
  datatype CacheState = CacheState(values: Baselines, dirty: Baselines, removed: set<Ip>)

  /** The stored baselines as they would be after the next flush. */
  function Overlay(stored: Baselines, c: CacheState): Baselines {
    (stored - c.removed) + c.dirty
  }

  ghost predicate Agrees(stored: Baselines, c: CacheState) {
    Overlay(stored, c) == c.values && c.dirty.Keys !! c.removed && forall ip :: ip in c.dirty ==> c.dirty[ip].member == ip
  }

  function WithBaseline(c: CacheState, b: Baseline): CacheState {
    CacheState(c.values[b.member := b], c.dirty[b.member := b], c.removed - {b.member})
  }

  function Without(c: CacheState, ips: set<Ip>): CacheState {
    CacheState(c.values - ips, c.dirty - ips, c.removed + ips)
  }

  lemma SettingAgrees(stored: Baselines, c: CacheState, b: Baseline)
    requires Agrees(stored, c)
    ensures Agrees(stored, WithBaseline(c, b))
  {
  }

  lemma DiscardingAgrees(stored: Baselines, c: CacheState, ips: set<Ip>)
    requires Agrees(stored, c)
    ensures Agrees(stored, Without(c, ips))
  {
  }

  /** The domain tables that one poll cycle writes in a single transaction. Of the connection changes only
      the members are kept whose changes a cycle has acknowledged. */
  class DomainStore {
    var baselines: Baselines
    var acknowledged: set<Ip>
    var rows: map<IncidentId, Row>
    var events: seq<Transition>

    function Contents(): Disk
      reads this
    {
      Disk(rows, events)
    }

    constructor ()
      ensures baselines == map[] && acknowledged == {} && Contents() == Disk(map[], [])
    {
      baselines, acknowledged, rows, events := map[], {}, map[], [];
    }

    method UpsertIncidents(incidents: map<IncidentId, Incident>)
      modifies this`rows
      ensures rows.Keys == old(rows).Keys + incidents.Keys
      ensures forall id :: id in rows ==>
        rows[id] == if id in incidents then StoredRow(old(rows), id, incidents[id]) else old(rows)[id]
    {
      hide Merged, RowOf;
      var todo, done := incidents.Keys, {};
      while todo != {}
        invariant todo !! done && todo + done == incidents.Keys
        invariant rows.Keys == old(rows).Keys + done
        invariant forall id :: id in rows ==>
          rows[id] == if id in done then StoredRow(old(rows), id, incidents[id]) else old(rows)[id]
        decreases todo
      {
        var id :| id in todo;
        rows := rows[id := if id in rows then Merged(rows[id], incidents[id]) else RowOf(incidents[id])];
        todo, done := todo - {id}, done + {id};
      }
    }

    /** `expired` are the closed incidents that the history cleanup selects at this time. */
    method SaveCycleDomainState(dirty: Baselines, removed: set<Ip>, members: set<Ip>,
                                incidents: map<IncidentId, Incident>, transitions: seq<Transition>,
                                expired: set<IncidentId>, durable: bool) returns (ok: bool)
      modifies this
      ensures ok == durable
      ensures baselines == if ok then (old(baselines) - removed) + dirty else old(baselines)
      ensures acknowledged == if ok then old(acknowledged) + members else old(acknowledged)
      ensures Contents() == if ok then Saved(old(Contents()), incidents, transitions, expired) else old(Contents())
    {
      hide StoredRow;
      var savedBaselines, savedAcknowledged, savedRows, savedEvents := baselines, acknowledged, rows, events;
      baselines := (baselines - removed) + dirty;
      acknowledged := acknowledged + members;
      UpsertIncidents(incidents);
      for i := 0 to |transitions|
        modifies this`events
        invariant events == savedEvents + transitions[..i]
      {
        events := events + [transitions[i]];
      }
      rows := map id | id in rows && (id in expired ==> rows[id].active) :: rows[id];
      assert rows == Saved(old(Contents()), incidents, transitions, expired).rows;
      ok := durable;
      if !ok {
        baselines, acknowledged, rows, events := savedBaselines, savedAcknowledged, savedRows, savedEvents;
      }
    }
  }

  class CachedBaselineStore {
    const store: DomainStore
    var values: Baselines
    var dirty: Baselines
    var removed: set<Ip>

    function State(): CacheState
      reads this
    {
      CacheState(values, dirty, removed)
    }

    /** The stored baselines, overlaid with dirty and without removed ones, are always the cached values. */
    ghost predicate Valid()
      reads this, store
    {
      Agrees(store.baselines, State())
    }

    constructor (store: DomainStore)
      ensures Valid() && this.store == store && State() == CacheState(store.baselines, map[], {})
    {
      this.store := store;
      values, dirty, removed := store.baselines, map[], {};
    }

    method Set(baseline: Baseline)
      requires Valid()
      modifies this
      ensures Valid() && State() == WithBaseline(old(State()), baseline)
    {
      SettingAgrees(store.baselines, State(), baseline);
      values := values[baseline.member := baseline];
      dirty := dirty[baseline.member := baseline];
      removed := removed - {baseline.member};
    }

    method Discard(member: Ip)
      requires Valid()
      modifies this
      ensures Valid() && State() == Without(old(State()), {member})
    {
      DiscardingAgrees(store.baselines, State(), {member});
      values, dirty, removed := values - {member}, dirty - {member}, removed + {member};
    }

    method DiscardAll(members: set<Ip>)
      requires Valid()
      modifies this
      ensures Valid() && State() == Without(old(State()), members)
    {
      ghost var before := State();
      var todo, done := members, {};
      assert State() == Without(before, done);
      while todo != {}
        invariant todo !! done && todo + done == members
        invariant Valid() && State() == Without(before, done)
        decreases todo
      {
        var member :| member in todo;
        Discard(member);
        todo, done := todo - {member}, done + {member};
        assert Without(Without(before, done - {member}), {member}) == Without(before, done);
      }
    }

    method Prune(expected: set<Ip>) returns (gone: set<Ip>)
      requires Valid()
      modifies this
      ensures Valid() && gone == old(values).Keys - expected && State() == Without(old(State()), gone)
      ensures values.Keys == old(values).Keys * expected
    {
      gone := values.Keys - expected;
      DiscardAll(gone);
    }

    method SnapshotState() returns (state: CacheState)
      ensures state == State()
    {
      state := CacheState(values, dirty, removed);
    }

    /** Restoring a snapshot keeps the agreement exactly if no flush changed the store in between. */
    method RestoreState(state: CacheState)
      modifies this
      ensures State() == state && (Valid() <==> Agrees(store.baselines, state))
    {
      values, dirty, removed := state.values, state.dirty, state.removed;
    }

    /** One transaction for baselines, incidents and journal; afterwards store and cache are equal. */
    method Flush(changes: bool, members: set<Ip>, incidents: map<IncidentId, Incident>, transitions: seq<Transition>,
                 expired: set<IncidentId>, durable: bool) returns (ok: bool)
      requires Valid()
      modifies this, store
      ensures
        var busy := changes || members != {} || old(dirty) != map[] || old(removed) != {};
        var idle := !busy && incidents == map[] && transitions == [];
        && ok == (idle || durable)
        && store.Contents() == (if ok && !idle then Saved(old(store.Contents()), incidents, transitions, expired)
                                else old(store.Contents()))
      ensures Valid() && values == old(values)
      ensures store.baselines == if durable then values else old(store.baselines)
      ensures ok ==> store.baselines == values && dirty == map[] && removed == {}
      ensures !ok ==> State() == old(State())
      ensures store.acknowledged == if ok then old(store.acknowledged) + members else old(store.acknowledged)
    {
      if dirty == map[] && !changes && members == {} && incidents == map[] && transitions == [] && removed == {} {
        assert store.baselines - removed + dirty == store.baselines;
        return true;
      }
      ok := store.SaveCycleDomainState(dirty, removed, members, incidents, transitions, expired, durable);
      if ok {
        dirty, removed := map[], {};
        assert store.baselines - removed + dirty == store.baselines;
      }
    }
  }
}
