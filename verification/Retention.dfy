/** Retention by rank: keep the newest rows, as ORDER BY ... DESC LIMIT n selects them. */
module Retention {
  import opened Prelude

  /** Rows by number; text keys are numbered in the order in which the database compares them. */
  type Key = nat

  /** `a` comes before `b` in the descending order by time and then by key. */
  predicate Above(times: map<Key, int>, a: Key, b: Key)
    requires a in times && b in times
  {
    times[a] > times[b] || (times[a] == times[b] && a > b)
  }

  function AllAbove(times: map<Key, int>, k: Key): set<Key>
    requires k in times
  {
    set a | a in times && Above(times, a, k)
  }

  /** The first `limit` rows of the order. */
  function Newest(times: map<Key, int>, limit: nat): set<Key> {
    set k | k in times && |AllAbove(times, k)| < limit
  }

  lemma AboveIsSmaller(times: map<Key, int>, a: Key, b: Key)
    requires a in times && b in times && Above(times, a, b)
    ensures |AllAbove(times, a)| < |AllAbove(times, b)|
  {
    assert AllAbove(times, a) + {a} <= AllAbove(times, b);
    SubsetSize(AllAbove(times, a) + {a}, AllAbove(times, b));
  }

  lemma Lowest(times: map<Key, int>, among: set<Key>) returns (low: Key)
    requires among != {} && among <= times.Keys
    ensures low in among && forall k :: k in among && k != low ==> Above(times, k, low)
    decreases among
  {
    var k :| k in among;
    if among == {k} {
      low := k;
    } else {
      var rest := among - {k};
      assert among == rest + {k};
      var lowest := Lowest(times, rest);
      low := if Above(times, k, lowest) then lowest else k;
      forall j | j in among && j != low
        ensures Above(times, j, low)
      {
        assert j in rest && j != lowest ==> Above(times, j, lowest);
      }
    }
  }

  /** At most `limit` rows are among the first `limit`. */
  lemma NewestAreFew(times: map<Key, int>, limit: nat)
    ensures |Newest(times, limit)| <= limit
  {
    var newest := Newest(times, limit);
    if newest != {} {
      var low := Lowest(times, newest);
      assert newest - {low} <= AllAbove(times, low);
      SubsetSize(newest - {low}, AllAbove(times, low));
    }
  }

  /** Few enough rows are all among the first. */
  lemma FewAreAllNewest(times: map<Key, int>, limit: nat)
    requires |times| <= limit
    ensures Newest(times, limit) == times.Keys
  {
    forall k | k in times
      ensures |AllAbove(times, k)| < limit
    {
      assert AllAbove(times, k) <= times.Keys - {k};
      SubsetSize(AllAbove(times, k), times.Keys - {k});
      assert |times.Keys| == |times|;
    }
  }

  /** What a cleanup removes: too stale, or not among the newest. */
  function Expendable(times: map<Key, int>, stale: set<Key>, limit: nat): set<Key> {
    set k | k in times && (k in stale || k !in Newest(times, limit))
  }

  /** A row goes if it is stale, or if `limit` rows or more are newer than it; among rows of one time a larger
      key counts as newer. */
  lemma ExpendableMeans(times: map<Key, int>, cutoff: int, stale: set<Key>, limit: nat, k: Key)
    ensures k in Expendable(times, stale, limit)
      <==> k in times
           && (k in stale
               || |set a | a in times && (times[a] > times[k] || (times[a] == times[k] && a > k))| >= limit)
    ensures k in Before(times, cutoff) <==> k in times && cutoff > times[k]
  {
    if k in times {
      assert AllAbove(times, k) == set a | a in times && (times[a] > times[k] || (times[a] == times[k] && a > k));
    }
  }

  function Kept(times: map<Key, int>, stale: set<Key>, limit: nat): map<Key, int> {
    times - Expendable(times, stale, limit)
  }

  lemma KeptAreFew(times: map<Key, int>, stale: set<Key>, limit: nat)
    ensures |Kept(times, stale, limit)| <= limit
    ensures forall k :: k in Kept(times, stale, limit) ==> k !in stale
  {
    NewestAreFew(times, limit);
    var kept := Kept(times, stale, limit);
    assert kept.Keys <= Newest(times, limit);
    SubsetSize(kept.Keys, Newest(times, limit));
    assert |kept.Keys| == |kept|;
  }

  /** Removed rows rank below kept ones, if being too old is decided by the ranked time. */
  lemma RemovedRankBelowKept(times: map<Key, int>, cutoff: int, limit: nat, removed: Key, kept: Key)
    requires removed in times && kept in times
    requires removed in Expendable(times, Before(times, cutoff), limit)
    requires kept !in Expendable(times, Before(times, cutoff), limit)
    ensures Above(times, kept, removed)
  {
    if Above(times, removed, kept) {
      AboveIsSmaller(times, removed, kept);
    }
  }

  function Before(times: map<Key, int>, cutoff: int): set<Key> {
    set k | k in times && times[k] < cutoff
  }

  /** A second cleanup at the same time finds nothing to remove. */
  lemma SecondCleanupRemovesNothing(times: map<Key, int>, stale: set<Key>, limit: nat, stillStale: set<Key>)
    requires stillStale <= stale
    ensures Expendable(Kept(times, stale, limit), stillStale, limit) == {}
  {
    KeptAreFew(times, stale, limit);
    FewAreAllNewest(Kept(times, stale, limit), limit);
  }
}
