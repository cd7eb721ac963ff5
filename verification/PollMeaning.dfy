/** What one poll of client counts says, over the collected rows themselves: the rows that count, the total,
    the medians of the other members, and when a member is judged low. */
module PollMeaning {
  import opened Prelude
  import opened Medians

  datatype Row = Row(ip: Ip, load: Load)

  // ----- the rows that count

  /** The last row of this address shows this load. */
  ghost predicate Shows(rows: seq<Row>, ip: Ip, load: Load) {
    exists i :: 0 <= i < |rows| && rows[i] == Row(ip, load) && forall j :: i < j < |rows| ==> rows[j].ip != ip
  }

  ghost predicate HasRow(rows: seq<Row>, ip: Ip) {
    exists i :: 0 <= i < |rows| && rows[i].ip == ip
  }

  lemma {:induction false} LastRow(rows: seq<Row>, ip: Ip)
    requires HasRow(rows, ip)
    ensures exists load :: Shows(rows, ip, load)
  {
    var init, last := rows[..|rows| - 1], rows[|rows| - 1];
    if last.ip == ip {
      assert Shows(rows, ip, last.load);
    } else {
      var i :| 0 <= i < |rows| && rows[i].ip == ip;
      assert init[i].ip == ip;
      LastRow(init, ip);
      var load :| Shows(init, ip, load);
      OneMoreRow(rows, ip, load);
    }
  }

  lemma OneMoreRow(rows: seq<Row>, ip: Ip, load: Load)
    requires rows != []
    ensures Shows(rows, ip, load) <==>
      var last := rows[|rows| - 1];
      if last.ip == ip then last.load == load else Shows(rows[..|rows| - 1], ip, load)
  {
    var init, last := rows[..|rows| - 1], rows[|rows| - 1];
    if last.ip == ip {
      assert last == Row(ip, last.load);
    } else {
      if Shows(init, ip, load) {
        ShownEarlier(rows, ip, load);
      }
      if Shows(rows, ip, load) {
        var i :| 0 <= i < |rows| && rows[i] == Row(ip, load) && forall j :: i < j < |rows| ==> rows[j].ip != ip;
        assert init[i] == Row(ip, load);
      }
    }
  }

  lemma ShownEarlier(rows: seq<Row>, ip: Ip, load: Load)
    requires rows != [] && Shows(rows[..|rows| - 1], ip, load) && rows[|rows| - 1].ip != ip
    ensures Shows(rows, ip, load)
  {
    var init := rows[..|rows| - 1];
    var i :| 0 <= i < |init| && init[i] == Row(ip, load) && forall j :: i < j < |init| ==> init[j].ip != ip;
    assert rows[i] == Row(ip, load);
    assert forall j :: i < j < |init| ==> rows[j] == init[j];
  }

  lemma ShowsOne(rows: seq<Row>, ip: Ip, load: Load, other: Load)
    requires Shows(rows, ip, load) && Shows(rows, ip, other)
    ensures load == other
  {
  }

  ghost function Shown(rows: seq<Row>, ip: Ip): (load: Load)
    requires HasRow(rows, ip)
    ensures Shows(rows, ip, load)
  {
    LastRow(rows, ip);
    var load :| Shows(rows, ip, load);
    load
  }

  // ----- sums and medians of what a set of members shows

  function Without(values: map<Ip, int>, ip: Ip): (rest: map<Ip, int>)
    ensures rest.Keys == values.Keys - {ip} && forall k :: k in rest ==> rest[k] == values[k]
  {
    map k | k in values && k != ip :: values[k]
  }

  lemma WithoutTwo(values: map<Ip, int>, a: Ip, b: Ip)
    ensures Without(Without(values, a), b) == Without(Without(values, b), a)
  {
  }

  ghost function Sum(values: map<Ip, int>): int
    decreases values.Keys
  {
    if values.Keys == {} then 0
    else
      var ip :| ip in values.Keys;
      values[ip] + Sum(Without(values, ip))
  }

  /** All values, each as often as it occurs. */
  ghost function Bag(values: map<Ip, int>): multiset<int>
    decreases values.Keys
  {
    if values.Keys == {} then multiset{}
    else
      var ip :| ip in values.Keys;
      multiset{values[ip]} + Bag(Without(values, ip))
  }

  lemma {:induction false} SumAnyFirst(values: map<Ip, int>, ip: Ip)
    requires ip in values
    ensures Sum(values) == values[ip] + Sum(Without(values, ip))
    decreases values.Keys
  {
    var p :| p in values.Keys && Sum(values) == values[p] + Sum(Without(values, p));
    hide Sum, Without;
    if p != ip {
      SumAnyFirst(Without(values, p), ip);
      SumAnyFirst(Without(values, ip), p);
      WithoutTwo(values, p, ip);
    }
  }

  lemma {:induction false} BagAnyFirst(values: map<Ip, int>, ip: Ip)
    requires ip in values
    ensures Bag(values) == multiset{values[ip]} + Bag(Without(values, ip))
    decreases values.Keys
  {
    var p :| p in values.Keys && Bag(values) == multiset{values[p]} + Bag(Without(values, p));
    hide Bag, Without;
    if p != ip {
      BagAnyFirst(Without(values, p), ip);
      BagAnyFirst(Without(values, ip), p);
      WithoutTwo(values, p, ip);
    }
  }

  function Listed(members: seq<Ip>, values: map<Ip, int>): seq<int>
    requires forall ip :: ip in members ==> ip in values
  {
    seq(|members|, i requires 0 <= i < |members| => values[members[i]])
  }

  lemma ListedSnoc(init: seq<Ip>, last: Ip, values: map<Ip, int>, rest: map<Ip, int>)
    requires last in values && forall ip :: ip in init ==> ip in values && ip in rest && rest[ip] == values[ip]
    ensures Listed(init + [last], values) == Listed(init, rest) + [values[last]]
  {
  }

  lemma BagOfSnoc(xs: seq<int>, x: int)
    ensures multiset(xs + [x]) == multiset{x} + multiset(xs)
  {
  }

  lemma {:induction false} BagOfListed(members: seq<Ip>, values: map<Ip, int>)
    requires forall i, j :: 0 <= i < j < |members| ==> members[i] != members[j]
    requires forall ip :: ip in values <==> ip in members
    ensures Bag(values) == multiset(Listed(members, values))
  {
    if members == [] {
      assert values.Keys == {};
    } else {
      var init, last := members[..|members| - 1], members[|members| - 1];
      assert members == init + [last];
      BagAnyFirst(values, last);
      hide Bag, Without;
      var rest := Without(values, last);
      BagOfListed(init, rest);
      ListedSnoc(init, last, values, rest);
      BagOfSnoc(Listed(init, rest), values[last]);
    }
  }

  lemma TotalOfSnoc(xs: seq<int>, x: int)
    ensures Total(xs + [x]) == Total(xs) + x
  {
    assert (xs + [x])[..|xs|] == xs;
  }

  lemma {:induction false} SumOfListed(members: seq<Ip>, values: map<Ip, int>)
    requires forall i, j :: 0 <= i < j < |members| ==> members[i] != members[j]
    requires forall ip :: ip in values <==> ip in members
    ensures Sum(values) == Total(Listed(members, values))
  {
    if members == [] {
      assert values.Keys == {};
    } else {
      var init, last := members[..|members| - 1], members[|members| - 1];
      assert members == init + [last];
      SumAnyFirst(values, last);
      hide Sum, Without;
      var rest := Without(values, last);
      SumOfListed(init, rest);
      ListedSnoc(init, last, values, rest);
      TotalOfSnoc(Listed(init, rest), values[last]);
    }
  }

  function Total(xs: seq<int>): int {
    if xs == [] then 0 else Total(xs[..|xs| - 1]) + xs[|xs| - 1]
  }

  ghost predicate IsTwiceMedian(twice: int, values: multiset<int>) {
    exists s: seq<int> ::
      s != [] && Ascending(s) && multiset(s) == values && twice == s[(|s| - 1) / 2] + s[|s| / 2]
  }

  lemma LastIsGreatest(s: seq<int>, x: int)
    requires Ascending(s) && x in multiset(s)
    ensures s != [] && x <= s[|s| - 1]
  {
    var i :| 0 <= i < |s| && s[i] == x;
  }

  lemma InitOf(s: seq<int>)
    requires s != []
    ensures multiset(s[..|s| - 1]) == multiset(s) - multiset{s[|s| - 1]}
  {
    assert s == s[..|s| - 1] + [s[|s| - 1]];
  }

  lemma SameLast(s: seq<int>, t: seq<int>)
    requires Ascending(s) && Ascending(t) && multiset(s) == multiset(t)
    ensures |s| == |t|
    ensures s != [] ==> s[|s| - 1] == t[|s| - 1] && multiset(s[..|s| - 1]) == multiset(t[..|s| - 1])
  {
    assert |s| == |multiset(s)| && |t| == |multiset(t)|;
    hide Ascending;
    if s != [] {
      var n := |s| - 1;
      assert s[n] in multiset(s) && t[n] in multiset(t);
      LastIsGreatest(t, s[n]);
      LastIsGreatest(s, t[n]);
      InitOf(s);
      InitOf(t);
    }
  }

  lemma {:induction false} SortedOnce(s: seq<int>, t: seq<int>)
    requires Ascending(s) && Ascending(t) && multiset(s) == multiset(t)
    ensures s == t
    decreases |s|
  {
    SameLast(s, t);
    if s != [] {
      var n := |s| - 1;
      assert Ascending(s[..n]) && Ascending(t[..n]);
      SortedOnce(s[..n], t[..n]);
      assert s == s[..n] + [s[n]] && t == t[..n] + [t[n]];
    }
  }

  lemma NoMedian(values: multiset<int>)
    requires values == multiset{}
    ensures forall twice :: !IsTwiceMedian(twice, values)
  {
  }

  lemma MedianIsUnique(xs: seq<int>, twice: int)
    requires xs != []
    ensures IsTwiceMedian(twice, multiset(xs)) <==> twice == TwiceMedian(xs)
  {
    var sorted := Sorted(xs);
    if IsTwiceMedian(twice, multiset(xs)) {
      var s :| s != [] && Ascending(s) && multiset(s) == multiset(xs) && twice == s[(|s| - 1) / 2] + s[|s| / 2];
      SortedOnce(s, sorted);
    }
    assert |sorted| == |xs|;
  }

  // ----- when a poll is judged, and when a member is low

  ghost function Others(rows: seq<Row>, expected: seq<Ip>, ip: Ip, active: bool): map<Ip, int>
    requires forall other :: other in expected ==> HasRow(rows, other)
  {
    map other | other in expected && other != ip ::
      if active then Shown(rows, other).active else Shown(rows, other).standby
  }

  /** Nothing is concluded from incomplete data, or when the cluster is hardly used. */
  ghost predicate Unjudged(rows: seq<Row>, expected: seq<Ip>, dataComplete: bool, totalActive: Option<int>, minimum: int) {
    || !dataComplete
    || (exists ip :: ip in expected && !HasRow(rows, ip))
    || (if totalActive.Some? then totalActive.value else Sum(map ip | ip in expected :: Shown(rows, ip).active)) < minimum
  }

  /** Low against the medians of these active and standby counts. */
  ghost predicate LowAgainst(own: Load, actives: multiset<int>, standbys: multiset<int>, t: Thresholds) {
    exists a, b ::
      && IsTwiceMedian(a, actives) && IsTwiceMedian(b, standbys)
      && a >= 2 * t.peerMinimum && b >= 2 * t.peerMinimum
      && own.active * 200 <= a * t.ratioPercent && own.standby * 200 <= b * t.ratioPercent
  }

  /** The member's own counts are low, and in relative mode low against the medians of all other members. */
  ghost predicate JudgedLow(rows: seq<Row>, expected: seq<Ip>, ip: Ip, t: Thresholds)
    requires ip in expected && forall other :: other in expected ==> HasRow(rows, other)
  {
    var own := Shown(rows, ip);
    && own.active <= t.low && own.standby <= t.low
    && (t.mode == AbsoluteAndRelative ==>
          LowAgainst(own, Bag(Others(rows, expected, ip, true)), Bag(Others(rows, expected, ip, false)), t))
  }

  lemma LowAgainstPeers(own: Load, peers: seq<Load>, t: Thresholds)
    ensures LowAgainst(own, multiset(Actives(peers)), multiset(Standbys(peers)), t) <==> RelativelyLow(own, peers, t)
  {
    var actives, standbys := Actives(peers), Standbys(peers);
    if peers == [] {
      NoMedian(multiset(actives));
    } else {
      forall twice
        ensures IsTwiceMedian(twice, multiset(actives)) <==> twice == TwiceMedian(actives)
        ensures IsTwiceMedian(twice, multiset(standbys)) <==> twice == TwiceMedian(standbys)
      {
        MedianIsUnique(actives, twice);
        MedianIsUnique(standbys, twice);
      }
      hide IsTwiceMedian, TwiceMedian;
      assert IsTwiceMedian(TwiceMedian(actives), multiset(actives));
      assert IsTwiceMedian(TwiceMedian(standbys), multiset(standbys));
    }
  }
}
