/** Pending connection-type changes: at most one per member, through migration and every later save. */
module PendingChanges {
  import opened Prelude

  type RowId = nat

  type Token = string

  datatype LegacyRow = LegacyRow(member: Ip, firstDetectedAt: int, acknowledged: bool)

  // ----- the migration to version 4

  /** `a` is a pending row of the same member, later by detection time and then by row number. */
  predicate Newer(rows: map<RowId, LegacyRow>, a: RowId, b: RowId)
    requires a in rows && b in rows
  {
    && rows[a].member == rows[b].member && !rows[a].acknowledged
    && (rows[a].firstDetectedAt > rows[b].firstDetectedAt
        || (rows[a].firstDetectedAt == rows[b].firstDetectedAt && a > b))
  }

  predicate Outdated(rows: map<RowId, LegacyRow>, id: RowId)
    requires id in rows
  {
    !rows[id].acknowledged && exists newer :: newer in rows && Newer(rows, newer, id)
  }

  function Migrated(rows: map<RowId, LegacyRow>): map<RowId, LegacyRow> {
    map id | id in rows :: if Outdated(rows, id) then rows[id].(acknowledged := true) else rows[id]
  }

  /** The newest pending row of this row's member. */
  lemma NewestPending(rows: map<RowId, LegacyRow>, id: RowId, among: set<RowId>) returns (newest: RowId)
    requires id in among && among <= rows.Keys && !rows[id].acknowledged
    ensures newest in among && rows[newest].member == rows[id].member && !rows[newest].acknowledged
    ensures newest == id || Newer(rows, newest, id)
    ensures forall a :: a in among ==> !Newer(rows, a, newest)
    decreases among
  {
    if a :| a in among && Newer(rows, a, id) {
      newest := NewestPending(rows, a, among - {id});
      forall b | b in among
        ensures !Newer(rows, b, newest)
      {
        if b == id {
          assert newest == a || Newer(rows, newest, a);
        }
      }
    } else {
      newest := id;
    }
  }

  /** An outdated row still has a newer pending row after other outdated rows were acknowledged. */
  lemma NewestOutlasts(rows: map<RowId, LegacyRow>, current: map<RowId, LegacyRow>, id: RowId)
    requires id in rows && current.Keys == rows.Keys && current[id] == rows[id] && !rows[id].acknowledged
    requires forall a :: a in rows ==>
      current[a] == rows[a] || (Outdated(rows, a) && current[a] == rows[a].(acknowledged := true))
    ensures Outdated(current, id) <==> Outdated(rows, id)
  {
    if Outdated(rows, id) {
      var newest := NewestPending(rows, id, rows.Keys);
      assert !Outdated(rows, newest);
      assert Newer(rows, newest, id) && Newer(current, newest, id);
    }
    if Outdated(current, id) {
      var newer :| newer in current && Newer(current, newer, id);
      assert Newer(rows, newer, id);
    }
  }

  /** The UPDATE may visit the rows in any order, and may or may not see what it already wrote: the
      outcome is the same. */
  method MigrateToVersion4(rows: map<RowId, LegacyRow>) returns (migrated: map<RowId, LegacyRow>)
    ensures migrated == Migrated(rows)
  {
    migrated := rows;
    var todo := rows.Keys;
    while todo != {}
      invariant todo <= rows.Keys && migrated.Keys == rows.Keys
      invariant forall id :: id in rows ==> migrated[id] == if id in todo then rows[id] else Migrated(rows)[id]
      decreases todo
    {
      var id :| id in todo;
      var seesOwnWrites: bool := *;
      if !rows[id].acknowledged {
        NewestOutlasts(rows, migrated, id);
      }
      if !migrated[id].acknowledged && (if seesOwnWrites then Outdated(migrated, id) else Outdated(rows, id)) {
        migrated := migrated[id := migrated[id].(acknowledged := true)];
      }
      todo := todo - {id};
    }
  }

  /** After the migration a member keeps exactly its newest pending row, if it had one, and nothing else
      of any row changes. */
  lemma MigrationKeepsNewest(rows: map<RowId, LegacyRow>, id: RowId)
    requires id in rows
    ensures !Migrated(rows)[id].acknowledged <==>
      !rows[id].acknowledged && forall a :: a in rows ==> !Newer(rows, a, id)
    ensures Migrated(rows)[id] == rows[id] || Migrated(rows)[id] == rows[id].(acknowledged := true)
    ensures !rows[id].acknowledged ==>
      exists kept :: kept in rows && rows[kept].member == rows[id].member && !Migrated(rows)[kept].acknowledged
  {
    if !rows[id].acknowledged {
      var newest := NewestPending(rows, id, rows.Keys);
      assert !Migrated(rows)[newest].acknowledged;
    }
  }

  lemma MigrationLeavesOnePending(rows: map<RowId, LegacyRow>, a: RowId, b: RowId)
    requires a in rows && b in rows && rows[a].member == rows[b].member
    requires !Migrated(rows)[a].acknowledged && !Migrated(rows)[b].acknowledged
    ensures a == b
  {
  }

  // ----- saving changes

  datatype Change = Change(token: Token, member: Ip, firstDetectedAt: int, lastConfirmedAt: int)

  datatype ChangeRow = ChangeRow(member: Ip, firstDetectedAt: int, lastConfirmedAt: int, acknowledged: bool)

  type Changes = map<Token, ChangeRow>

  /** The rule that the partial unique index enforces. */
  ghost predicate OnePending(rows: Changes) {
    forall a, b :: (a in rows && b in rows && rows[a].member == rows[b].member
                    && !rows[a].acknowledged && !rows[b].acknowledged) ==> a == b
  }

  /** No row disappears and no acknowledgement is taken back. */
  ghost predicate KeepsAcknowledgements(before: Changes, after: Changes) {
    forall t :: t in before ==> t in after && after[t].member == before[t].member
                                && (before[t].acknowledged ==> after[t].acknowledged)
  }

  function Acknowledged(rows: Changes, member: Ip, keep: Option<Token>): Changes {
    map t | t in rows ::
      if rows[t].member == member && Some(t) != keep then rows[t].(acknowledged := true) else rows[t]
  }

  function SavedChange(rows: Changes, change: Change, acknowledged: bool): Changes {
    var silenced := if acknowledged then rows else Acknowledged(rows, change.member, Some(change.token));
    silenced[change.token :=
      if change.token in silenced
      then silenced[change.token].(lastConfirmedAt := change.lastConfirmedAt,
                                   acknowledged := silenced[change.token].acknowledged || acknowledged)
      else ChangeRow(change.member, change.firstDetectedAt, change.lastConfirmedAt, acknowledged)]
  }

  lemma SavingKeepsOnePending(rows: Changes, change: Change, acknowledged: bool)
    requires OnePending(rows)
    ensures OnePending(SavedChange(rows, change, acknowledged))
    ensures KeepsAcknowledgements(rows, SavedChange(rows, change, acknowledged))
    ensures !acknowledged ==> forall t :: t in rows && t != change.token && rows[t].member == change.member ==>
      SavedChange(rows, change, acknowledged)[t].acknowledged
  {
  }

  lemma AcknowledgingKeepsOnePending(rows: Changes, member: Ip)
    requires OnePending(rows)
    ensures OnePending(Acknowledged(rows, member, None)) && KeepsAcknowledgements(rows, Acknowledged(rows, member, None))
    ensures forall t :: t in rows && rows[t].member == member ==> Acknowledged(rows, member, None)[t].acknowledged
  {
  }

  function AcknowledgedMembers(rows: Changes, members: set<Ip>): Changes {
    map t | t in rows :: if rows[t].member in members then rows[t].(acknowledged := true) else rows[t]
  }

  function SavedAll(rows: Changes, changes: seq<Change>): Changes {
    if changes == [] then rows
    else SavedChange(SavedAll(rows, changes[..|changes| - 1]), changes[|changes| - 1], false)
  }

  // ----- what a whole list of changes stores

  ghost predicate FirstListing(changes: seq<Change>, i: nat, t: Token) {
    i < |changes| && changes[i].token == t && forall j :: 0 <= j < i ==> changes[j].token != t
  }

  ghost predicate LastListing(changes: seq<Change>, i: nat, t: Token) {
    i < |changes| && changes[i].token == t && forall j :: i < j < |changes| ==> changes[j].token != t
  }

  /** From the given place on, the list has another change of this member. */
  ghost predicate OtherFrom(changes: seq<Change>, from: nat, t: Token, member: Ip) {
    exists k :: from <= k < |changes| && changes[k].token != t && changes[k].member == member
  }

  lemma OneMoreOther(changes: seq<Change>, from: nat, t: Token, member: Ip)
    requires from < |changes|
    ensures OtherFrom(changes, from, t, member) <==>
      var last := changes[|changes| - 1];
      OtherFrom(changes[..|changes| - 1], from, t, member) || (last.token != t && last.member == member)
  {
    var init := changes[..|changes| - 1];
    if k :| from <= k < |init| && init[k].token != t && init[k].member == member {
      assert changes[k] == init[k];
    }
    if k :| from <= k < |changes| && changes[k].token != t && changes[k].member == member {
      assert k < |init| ==> init[k] == changes[k];
    }
  }

  /** A row that was there keeps its identity, is confirmed as last listed, and is acknowledged exactly if it
      was, if it was silenced beforehand, or if another change of its member comes along. */
  ghost predicate UpdatedBy(changes: seq<Change>, t: Token, silenced: bool, before: ChangeRow, after: ChangeRow) {
    && after.member == before.member && after.firstDetectedAt == before.firstDetectedAt
    && (after.acknowledged <==> before.acknowledged || silenced || OtherFrom(changes, 0, t, before.member))
    && (forall i: nat :: LastListing(changes, i, t) ==> after.lastConfirmedAt == changes[i].lastConfirmedAt)
    && ((forall i :: 0 <= i < |changes| ==> changes[i].token != t) ==> after.lastConfirmedAt == before.lastConfirmedAt)
  }

  /** A row that was not there is stored as first listed. */
  ghost predicate InsertedBy(changes: seq<Change>, t: Token, first: nat, after: ChangeRow)
    requires first < |changes|
  {
    && after.member == changes[first].member && after.firstDetectedAt == changes[first].firstDetectedAt
    && (after.acknowledged <==> OtherFrom(changes, first + 1, t, changes[first].member))
    && (forall i: nat :: LastListing(changes, i, t) ==> after.lastConfirmedAt == changes[i].lastConfirmedAt)
  }

  lemma OneMoreSaved(rows: Changes, change: Change, t: Token)
    ensures
      var after := SavedChange(rows, change, false);
      && (t in after <==> t in rows || t == change.token)
      && (t in rows ==>
            && after[t].member == rows[t].member && after[t].firstDetectedAt == rows[t].firstDetectedAt
            && after[t].lastConfirmedAt == (if t == change.token then change.lastConfirmedAt else rows[t].lastConfirmedAt)
            && (after[t].acknowledged <==>
                  rows[t].acknowledged || (t != change.token && rows[t].member == change.member)))
      && (t !in rows && t == change.token ==>
            after[t] == ChangeRow(change.member, change.firstDetectedAt, change.lastConfirmedAt, false))
  {
  }

  lemma {:induction false} KnownIsUpdated(rows: Changes, changes: seq<Change>, t: Token)
    requires t in rows
    ensures t in SavedAll(rows, changes) && UpdatedBy(changes, t, false, rows[t], SavedAll(rows, changes)[t])
  {
    if changes != [] {
      var init := changes[..|changes| - 1];
      KnownIsUpdated(rows, init, t);
      OneMoreSaved(SavedAll(rows, init), changes[|changes| - 1], t);
      hide SavedChange;
      OneMoreOther(changes, 0, t, rows[t].member);
      LastOfInit(changes, t);
      assert (forall i :: 0 <= i < |changes| ==> changes[i].token != t) ==> forall i :: 0 <= i < |init| ==> init[i].token != t;
    }
  }

  lemma {:induction false} NewIsStored(rows: Changes, changes: seq<Change>, t: Token, first: nat)
    requires t !in rows && FirstListing(changes, first, t)
    ensures t in SavedAll(rows, changes) && InsertedBy(changes, t, first, SavedAll(rows, changes)[t])
    decreases |changes|
  {
    var init := changes[..|changes| - 1];
    OneMoreSaved(SavedAll(rows, init), changes[|changes| - 1], t);
    hide SavedChange;
    if first == |changes| - 1 {
      NothingElseIsStored(rows, init, t);
    } else {
      NewIsStored(rows, init, t, first);
      OneMoreOther(changes, first + 1, t, changes[first].member);
      LastOfInit(changes, t);
    }
  }

  lemma LastOfInit(changes: seq<Change>, t: Token)
    requires changes != []
    ensures forall i: nat :: LastListing(changes, i, t) && i < |changes| - 1 ==> LastListing(changes[..|changes| - 1], i, t)
  {
  }

  lemma {:induction false} NothingElseIsStored(rows: Changes, changes: seq<Change>, t: Token)
    requires t !in rows && forall i :: 0 <= i < |changes| ==> changes[i].token != t
    ensures t !in SavedAll(rows, changes)
  {
    if changes != [] {
      NothingElseIsStored(rows, changes[..|changes| - 1], t);
      OneMoreSaved(SavedAll(rows, changes[..|changes| - 1]), changes[|changes| - 1], t);
    }
  }

  /** What a cycle makes of every row, and which rows there are. */
  lemma CycleIsStored(rows: Changes, members: set<Ip>, changes: seq<Change>)
    ensures
      var after := SavedAll(AcknowledgedMembers(rows, members), changes);
      && (forall t :: t in rows ==> t in after && UpdatedBy(changes, t, rows[t].member in members, rows[t], after[t]))
      && (forall t, i: nat :: t !in rows && FirstListing(changes, i, t) ==>
            t in after && InsertedBy(changes, t, i, after[t]))
      && (forall t :: t in after ==> t in rows || exists i :: 0 <= i < |changes| && changes[i].token == t)
  {
    var before := AcknowledgedMembers(rows, members);
    forall t | t in rows
      ensures t in SavedAll(before, changes)
      ensures UpdatedBy(changes, t, rows[t].member in members, rows[t], SavedAll(before, changes)[t])
    {
      KnownIsUpdated(before, changes, t);
    }
    forall t, i: nat | t !in rows && FirstListing(changes, i, t)
      ensures t in SavedAll(before, changes) && InsertedBy(changes, t, i, SavedAll(before, changes)[t])
    {
      NewIsStored(before, changes, t, i);
    }
    forall t | t !in rows && forall i :: 0 <= i < |changes| ==> changes[i].token != t
      ensures t !in SavedAll(before, changes)
    {
      NothingElseIsStored(before, changes, t);
    }
  }

  class ChangeTable {
    var rows: Changes

    ghost predicate Valid()
      reads this
    {
      OnePending(rows)
    }

    constructor (migrated: Changes)
      requires OnePending(migrated)
      ensures Valid() && rows == migrated
    {
      rows := migrated;
    }

    method Acknowledge(member: Ip, keep: Option<Token>)
      modifies this
      ensures rows == Acknowledged(old(rows), member, keep)
    {
      var todo, done := rows.Keys, {};
      while todo != {}
        invariant todo !! done && todo + done == old(rows).Keys && rows.Keys == old(rows).Keys
        invariant forall t :: t in rows ==>
          rows[t] == if t in done then Acknowledged(old(rows), member, keep)[t] else old(rows)[t]
        decreases todo
      {
        var t :| t in todo;
        if rows[t].member == member && !rows[t].acknowledged && Some(t) != keep {
          rows := rows[t := rows[t].(acknowledged := true)];
        }
        todo, done := todo - {t}, done + {t};
      }
    }

    method SaveConnectionChange(change: Change, acknowledged: bool)
      requires Valid()
      modifies this
      ensures Valid() && rows == SavedChange(old(rows), change, acknowledged)
      ensures KeepsAcknowledgements(old(rows), rows)
      ensures rows.Keys == old(rows).Keys + {change.token}
      ensures change.token !in old(rows) ==>
        rows[change.token] == ChangeRow(change.member, change.firstDetectedAt, change.lastConfirmedAt, acknowledged)
      ensures change.token in old(rows) ==>
        && rows[change.token].member == old(rows)[change.token].member
        && rows[change.token].firstDetectedAt == old(rows)[change.token].firstDetectedAt
        && rows[change.token].lastConfirmedAt == change.lastConfirmedAt
        && (rows[change.token].acknowledged <==> old(rows)[change.token].acknowledged || acknowledged)
      ensures forall t :: t in old(rows) && t != change.token ==>
        && rows[t].member == old(rows)[t].member && rows[t].firstDetectedAt == old(rows)[t].firstDetectedAt
        && rows[t].lastConfirmedAt == old(rows)[t].lastConfirmedAt
        && (rows[t].acknowledged <==>
              old(rows)[t].acknowledged || (!acknowledged && old(rows)[t].member == change.member))
    {
      SavingKeepsOnePending(rows, change, acknowledged);
      if !acknowledged {
        Acknowledge(change.member, Some(change.token));
      }
      if change.token in rows {
        var row := rows[change.token];
        rows := rows[change.token := row.(lastConfirmedAt := change.lastConfirmedAt,
                                          acknowledged := row.acknowledged || acknowledged)];
      } else {
        rows := rows[change.token := ChangeRow(change.member, change.firstDetectedAt, change.lastConfirmedAt, acknowledged)];
      }
    }

    /** The connection-change part of one poll cycle's transaction. */
    method SaveCycle(removed: set<Ip>, acknowledgedMembers: set<Ip>, changes: seq<Change>)
      requires Valid()
      modifies this
      ensures Valid() && KeepsAcknowledgements(old(rows), rows)
      ensures rows == SavedAll(AcknowledgedMembers(old(rows), removed + acknowledgedMembers), changes)
      ensures forall t :: t in old(rows) ==>
        t in rows && UpdatedBy(changes, t, old(rows)[t].member in removed + acknowledgedMembers, old(rows)[t], rows[t])
      ensures forall t, i: nat :: t !in old(rows) && FirstListing(changes, i, t) ==>
        t in rows && InsertedBy(changes, t, i, rows[t])
      ensures forall t :: t in rows ==> t in old(rows) || exists i :: 0 <= i < |changes| && changes[i].token == t
    {
      var members := removed + acknowledgedMembers;
      var todo := members;
      while todo != {}
        invariant todo <= members
        invariant Valid() && KeepsAcknowledgements(old(rows), rows)
        invariant rows == AcknowledgedMembers(old(rows), members - todo)
        decreases todo
      {
        var member :| member in todo;
        AcknowledgingKeepsOnePending(rows, member);
        Acknowledge(member, None);
        todo := todo - {member};
      }
      ghost var before := rows;
      assert members - todo == members;
      for i := 0 to |changes|
        invariant Valid() && KeepsAcknowledgements(old(rows), rows)
        invariant rows == SavedAll(before, changes[..i])
      {
        SaveConnectionChange(changes[i], false);
        assert changes[..i + 1][..i] == changes[..i];
      }
      assert changes[..|changes|] == changes;
      CycleIsStored(old(rows), members, changes);
    }
  }
}
