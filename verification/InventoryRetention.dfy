/** The bounded device inventory: three tables of sightings, one cleanup that removes an address from all. */
module InventoryRetention {
  import opened Prelude
  import opened Retention

  /** A stored time, or text that the database cannot read as one. */
  datatype Stamp = At(time: int) | Unreadable

  /** Addresses are numbered in text order; 0 is the empty text, which never takes part. */
  type Table = map<Key, Stamp>

  datatype Inventory = Inventory(discovered: Table, states: Table, normalStates: Table)

  /** The sighting that counts for an address: discovery first, then the state, then the normal state. */
  function Sighting(v: Inventory, ip: Key): Option<Stamp> {
    if ip in v.discovered then Some(v.discovered[ip])
    else if ip in v.states then Some(v.states[ip])
    else if ip in v.normalStates then Some(v.normalStates[ip])
    else None
  }

  function Addresses(v: Inventory): set<Key> {
    v.discovered.Keys + v.states.Keys + v.normalStates.Keys
  }

  predicate IsEligible(v: Inventory, guarded: set<Key>, ip: Key) {
    ip != 0 && ip !in guarded && Sighting(v, ip).Some? && Sighting(v, ip).value.At?
  }

  /** Unguarded addresses with a readable sighting, and when it was. */
  function Eligible(v: Inventory, guarded: set<Key>): map<Key, int> {
    map ip | ip in Addresses(v) && IsEligible(v, guarded, ip) :: Sighting(v, ip).value.time
  }

  /** An address takes part if it is neither empty nor guarded and the sighting that counts is readable: the
      discovered one if there is any, else that of the state, else that of the normal state. */
  lemma EligibleMeans(v: Inventory, guarded: set<Key>, ip: Key)
    ensures ip in Eligible(v, guarded)
      <==> ip > 0 && ip !in guarded
           && if ip in v.discovered then v.discovered[ip].At?
              else if ip in v.states then v.states[ip].At?
              else ip in v.normalStates && v.normalStates[ip].At?
    ensures ip in Eligible(v, guarded) ==>
      At(Eligible(v, guarded)[ip])
      == if ip in v.discovered then v.discovered[ip] else if ip in v.states then v.states[ip] else v.normalStates[ip]
  {
  }

  function ToPrune(v: Inventory, guarded: set<Key>, cutoff: int, maxRows: nat): set<Key> {
    Expendable(Eligible(v, guarded), Before(Eligible(v, guarded), cutoff), maxRows)
  }

  function Pruned(v: Inventory, ips: set<Key>): Inventory {
    Inventory(v.discovered - ips, v.states - ips, v.normalStates - ips)
  }

  lemma PruningRestrictsEligible(v: Inventory, guarded: set<Key>, ips: set<Key>)
    ensures Eligible(Pruned(v, ips), guarded) == Eligible(v, guarded) - ips
  {
  }

  lemma PruningIsGuarded(v: Inventory, guarded: set<Key>, cutoff: int, maxRows: nat)
    ensures
      var gone := ToPrune(v, guarded, cutoff, maxRows);
      && gone !! guarded && gone <= Eligible(v, guarded).Keys
      && (forall ip :: ip in gone ==> Sighting(v, ip).Some? && Sighting(v, ip).value.At?)
      && Addresses(Pruned(v, gone)) == Addresses(v) - gone
  {
    hide AllAbove;
  }

  /** The cleanup never touches a guarded or unreadable address, leaves at most `maxRows` unguarded readable
      ones, none of them before the cutoff, and ranks everything it removes below everything it keeps. */
  lemma CleanupIsSafeAndOptimal(v: Inventory, guarded: set<Key>, cutoff: int, maxRows: nat)
    ensures
      var gone := ToPrune(v, guarded, cutoff, maxRows);
      var left := Eligible(Pruned(v, gone), guarded);
      && gone !! guarded
      && (forall ip :: ip in gone ==> Sighting(v, ip).Some? && Sighting(v, ip).value.At?)
      && Addresses(Pruned(v, gone)) == Addresses(v) - gone
      && |left| <= maxRows
      && (forall ip :: ip in left ==> left[ip] >= cutoff)
      && (forall r, k :: r in gone && k in left ==>
            r in Eligible(v, guarded) && k in Eligible(v, guarded) && Above(Eligible(v, guarded), k, r))
  {
    var times := Eligible(v, guarded);
    var gone := ToPrune(v, guarded, cutoff, maxRows);
    PruningRestrictsEligible(v, guarded, gone);
    KeptAreFew(times, Before(times, cutoff), maxRows);
    PruningIsGuarded(v, guarded, cutoff, maxRows);
    hide Eligible, Sighting, Addresses, Pruned, Expendable, Above;
    assert Eligible(Pruned(v, gone), guarded) == Kept(times, Before(times, cutoff), maxRows);
    forall r, k | r in gone && k in Kept(times, Before(times, cutoff), maxRows)
      ensures Above(times, k, r)
    {
      RemovedRankBelowKept(times, cutoff, maxRows, r, k);
    }
  }

  /** Running it again at the same time with the same guards removes nothing. */
  lemma SecondRunRemovesNothing(v: Inventory, guarded: set<Key>, cutoff: int, maxRows: nat)
    ensures ToPrune(Pruned(v, ToPrune(v, guarded, cutoff, maxRows)), guarded, cutoff, maxRows) == {}
  {
    var times := Eligible(v, guarded);
    var gone := ToPrune(v, guarded, cutoff, maxRows);
    PruningRestrictsEligible(v, guarded, gone);
    var kept := Kept(times, Before(times, cutoff), maxRows);
    assert Eligible(Pruned(v, gone), guarded) == kept;
    assert Before(kept, cutoff) <= Before(times, cutoff);
    SecondCleanupRemovesNothing(times, Before(times, cutoff), maxRows, Before(kept, cutoff));
  }

  const MAINTENANCE_INTERVAL := 24 * 3600 * 1_000_000

  /** Maintenance is due unless it ran within the last interval; a time in the future does not count. */
  predicate Due(lastRun: Option<int>, now: int, force: bool) {
    force || lastRun.None? || !(0 <= now - lastRun.value < MAINTENANCE_INTERVAL)
  }

  lemma DueMeans(lastRun: Option<int>, now: int, force: bool)
    ensures Due(lastRun, now, force)
      <==> force || lastRun.None? || now < lastRun.value || lastRun.value + 86_400 * 1_000_000 <= now
  {
  }

  class InventoryTables {
    var inventory: Inventory
    var lastRun: Option<int>

    constructor ()
      ensures inventory == Inventory(map[], map[], map[]) && lastRun.None?
    {
      inventory, lastRun := Inventory(map[], map[], map[]), None;
    }

    /** `guarded`: registered addresses, those with active incidents, and those with pending changes. */
    method CleanupIfDue(registered: set<Key>, activeIncidents: set<Key>, pendingMembers: set<Key>, now: int,
                        maxAge: nat, maxRows: nat, force: bool) returns (removed: set<Key>)
      modifies this
      ensures
        var guarded := registered + activeIncidents + pendingMembers;
        removed == if Due(old(lastRun), now, force) then ToPrune(old(inventory), guarded, now - maxAge, maxRows) else {}
      ensures inventory == Pruned(old(inventory), removed)
      ensures inventory.discovered == old(inventory.discovered) - removed
      ensures inventory.states == old(inventory.states) - removed
      ensures inventory.normalStates == old(inventory.normalStates) - removed
      ensures lastRun == if Due(old(lastRun), now, force) then Some(now) else old(lastRun)
    {
      if !Due(lastRun, now, force) {
        assert Pruned(inventory, {}) == inventory;
        return {};
      }
      var guarded := registered + activeIncidents + pendingMembers;
      removed := ToPrune(inventory, guarded, now - maxAge, maxRows);
      inventory := inventory.(normalStates := inventory.normalStates - removed);
      inventory := inventory.(states := inventory.states - removed);
      inventory := inventory.(discovered := inventory.discovered - removed);
      lastRun := Some(now);
    }
  }
}
