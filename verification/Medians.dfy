/** Medians of client counts, and how many members of a cluster can look low at once. */
module Medians {

  predicate Ascending(xs: seq<int>) {
    forall i, j :: 0 <= i < j < |xs| ==> xs[i] <= xs[j]
  }

  function Insert(xs: seq<int>, x: int): seq<int> {
    if xs == [] || x <= xs[0] then [x] + xs else [xs[0]] + Insert(xs[1..], x)
  }

  lemma {:induction false} InsertPermutes(xs: seq<int>, x: int)
    ensures multiset(Insert(xs, x)) == multiset(xs) + multiset{x} && |Insert(xs, x)| == |xs| + 1
  {
    if xs != [] && x > xs[0] {
      InsertPermutes(xs[1..], x);
      assert xs == [xs[0]] + xs[1..];
    }
  }

  lemma {:induction false} InsertSorts(xs: seq<int>, x: int)
    requires Ascending(xs)
    ensures Ascending(Insert(xs, x))
    ensures forall i :: 0 <= i < |Insert(xs, x)| ==> Insert(xs, x)[i] >= x || (xs != [] && Insert(xs, x)[i] >= xs[0])
  {
    if xs != [] && x > xs[0] {
      InsertSorts(xs[1..], x);
    }
  }

  function Sorted(xs: seq<int>): (r: seq<int>)
    ensures Ascending(r) && multiset(r) == multiset(xs) && |r| == |xs|
  {
    if xs == [] then []
    else
      InsertSorts(Sorted(xs[..|xs| - 1]), xs[|xs| - 1]);
      InsertPermutes(Sorted(xs[..|xs| - 1]), xs[|xs| - 1]);
      assert xs == xs[..|xs| - 1] + [xs[|xs| - 1]];
      Insert(Sorted(xs[..|xs| - 1]), xs[|xs| - 1])
  }

  /** Twice the median: the middle value counted twice, or the two middle values. */
  function TwiceMedian(xs: seq<int>): int
    requires xs != []
  {
    var s := Sorted(xs);
    s[(|s| - 1) / 2] + s[|s| / 2]
  }

  /** How many values are at most `limit`. */
  function Low(xs: seq<int>, limit: int): (n: nat)
    ensures n <= |xs|
  {
    if xs == [] then 0 else Low(xs[..|xs| - 1], limit) + if xs[|xs| - 1] <= limit then 1 else 0
  }

  lemma {:induction false} LowOfJoin(xs: seq<int>, ys: seq<int>, limit: int)
    ensures Low(xs + ys, limit) == Low(xs, limit) + Low(ys, limit)
    decreases |ys|
  {
    if ys == [] {
      assert xs + ys == xs;
    } else {
      assert (xs + ys)[..|xs + ys| - 1] == xs + ys[..|ys| - 1];
      LowOfJoin(xs, ys[..|ys| - 1], limit);
    }
  }

  lemma {:induction false} LowOfInsert(xs: seq<int>, x: int, limit: int)
    ensures Low(Insert(xs, x), limit) == Low(xs, limit) + if x <= limit then 1 else 0
  {
    assert [x][..0] == [];
    LowOfJoin([x], xs, limit);
    if xs != [] && x > xs[0] {
      LowOfInsert(xs[1..], x, limit);
      LowOfJoin([xs[0]], Insert(xs[1..], x), limit);
      LowOfJoin([xs[0]], xs[1..], limit);
      assert [xs[0]] + xs[1..] == xs;
    }
  }

  lemma {:induction false} LowOfSorted(xs: seq<int>, limit: int)
    ensures Low(Sorted(xs), limit) == Low(xs, limit)
  {
    if xs != [] {
      LowOfSorted(xs[..|xs| - 1], limit);
      LowOfInsert(Sorted(xs[..|xs| - 1]), xs[|xs| - 1], limit);
    }
  }

  /** In ascending order the low values come first. */
  lemma {:induction false} LowComeFirst(xs: seq<int>, limit: int, i: nat)
    requires Ascending(xs) && i < Low(xs, limit)
    ensures xs[i] <= limit
  {
    if xs[|xs| - 1] > limit {
      LowComeFirst(xs[..|xs| - 1], limit, i);
    }
  }

  lemma MiddleAboveLimit(s: seq<int>, limit: int, half: nat)
    requires Ascending(s) && s != [] && half == |s| / 2 && 2 * half <= |s| <= 2 * half + 1
    requires s[(|s| - 1) / 2] + s[half] > 2 * limit
    ensures 2 * Low(s, limit) <= |s|
  {
    if Low(s, limit) > half {
      LowComeFirst(s, limit, half);
      LowComeFirst(s, limit, (|s| - 1) / 2);
    }
  }

  /** A median above the limit leaves at most half of the values at or below it. */
  lemma MedianAboveLimit(xs: seq<int>, limit: int)
    requires xs != [] && TwiceMedian(xs) > 2 * limit
    ensures 2 * Low(xs, limit) <= |xs|
  {
    LowOfSorted(xs, limit);
    MiddleAboveLimit(Sorted(xs), limit, |xs| / 2);
  }

  // ----- one poll of a cluster

  datatype Mode = AbsoluteOnly | AbsoluteAndRelative

  datatype Load = Load(active: int, standby: int)

  /** The relative ratio is kept in percent. */
  datatype Thresholds = Thresholds(low: nat, peerMinimum: nat, ratioPercent: nat, mode: Mode)

  function Actives(loads: seq<Load>): seq<int> {
    seq(|loads|, i requires 0 <= i < |loads| => loads[i].active)
  }

  function Standbys(loads: seq<Load>): seq<int> {
    seq(|loads|, i requires 0 <= i < |loads| => loads[i].standby)
  }

  function Peers<T>(xs: seq<T>, i: nat): seq<T>
    requires i < |xs|
  {
    xs[..i] + xs[i + 1..]
  }

  predicate RelativelyLow(own: Load, peers: seq<Load>, t: Thresholds) {
    && peers != []
    && TwiceMedian(Actives(peers)) >= 2 * t.peerMinimum
    && TwiceMedian(Standbys(peers)) >= 2 * t.peerMinimum
    && own.active * 200 <= TwiceMedian(Actives(peers)) * t.ratioPercent
    && own.standby * 200 <= TwiceMedian(Standbys(peers)) * t.ratioPercent
  }

  /** The anomaly condition of one member in a complete, sufficiently used cluster. */
  predicate LooksLow(own: Load, peers: seq<Load>, t: Thresholds) {
    && own.active <= t.low && own.standby <= t.low
    && (t.mode.AbsoluteAndRelative? ==> RelativelyLow(own, peers, t))
  }

  function LowMembers(loads: seq<Load>, t: Thresholds): set<nat> {
    set i: nat | i < |loads| && LooksLow(loads[i], Peers(loads, i), t)
  }

  lemma {:induction false} MembersAtMostLow(xs: seq<int>, limit: int, members: set<nat>)
    requires forall i :: i in members ==> i < |xs| && xs[i] <= limit
    ensures |members| <= Low(xs, limit)
    decreases |xs|
  {
    if xs == [] {
      assert members == {};
    } else {
      var last := |xs| - 1;
      MembersAtMostLow(xs[..last], limit, members - {last});
      assert members <= (members - {last}) + {last};
      assert |members| <= |members - {last}| + 1;
      if last !in members {
        assert members - {last} == members;
      }
    }
  }

  lemma PeersOfActives(loads: seq<Load>, i: nat)
    requires i < |loads|
    ensures Actives(Peers(loads, i)) == Peers(Actives(loads), i)
  {
  }

  lemma LowAmongPeers(xs: seq<int>, limit: int, i: nat)
    requires i < |xs| && xs[i] <= limit
    ensures Low(xs, limit) == Low(Peers(xs, i), limit) + 1
  {
    assert xs == xs[..i] + ([xs[i]] + xs[i + 1..]);
    LowOfJoin(xs[..i], [xs[i]] + xs[i + 1..], limit);
    LowOfJoin([xs[i]], xs[i + 1..], limit);
    LowOfJoin(xs[..i], xs[i + 1..], limit);
    assert [xs[i]][..0] == [];
  }

  /** In relative mode, with a peer minimum above the low threshold, at most floor((n + 1) / 2) of n
      members can look low in one poll, for every n. */
  lemma AtMostHalfLookLow(loads: seq<Load>, t: Thresholds)
    requires t.mode.AbsoluteAndRelative? && t.peerMinimum > t.low
    ensures |LowMembers(loads, t)| <= (|loads| + 1) / 2
  {
    var members := LowMembers(loads, t);
    if members != {} {
      var i :| i in members;
      MembersAtMostLow(Actives(loads), t.low, members);
      PeersOfActives(loads, i);
      MedianAboveLimit(Actives(Peers(loads, i)), t.low);
      LowAmongPeers(Actives(loads), t.low, i);
    }
  }

  lemma MedianOfTwo(a: int, b: int)
    ensures TwiceMedian([a, b]) == a + b
  {
  }

  lemma OneOfTwoPeersLow(own: Load, peer: Load, big: Load, t: Thresholds)
    requires own == peer == Load(1, 1) && big == Load(90, 90) && t == Thresholds(10, 30, 25, AbsoluteAndRelative)
    ensures LooksLow(own, [peer, big], t)
  {
    MedianOfTwo(1, 90);
    assert Actives([peer, big]) == [1, 90] == Standbys([peer, big]);
  }

  /** The bound is reached: two of three members can look low at once. */
  lemma TheBoundIsReached(t: Thresholds)
    requires t == Thresholds(10, 30, 25, AbsoluteAndRelative)
    ensures LowMembers([Load(1, 1), Load(1, 1), Load(90, 90)], t) == {0, 1}
  {
    var loads := [Load(1, 1), Load(1, 1), Load(90, 90)];
    OneOfTwoPeersLow(loads[0], loads[1], loads[2], t);
    OneOfTwoPeersLow(loads[1], loads[0], loads[2], t);
    assert Peers(loads, 0) == [loads[1], loads[2]] && Peers(loads, 1) == [loads[0], loads[2]];
    assert !LooksLow(loads[2], Peers(loads, 2), t);
    hide LooksLow;
  }
}
