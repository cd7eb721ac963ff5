/** What a debounce counter remembers, and that it decides exactly by the observation history. */
module Debounce {
  import opened Prelude

  /** A trusted anomaly, a trusted normal value, or a poll that proves neither. */
  datatype Observation = Anomalous | Ordinary | NoEvidence

  datatype Counter = Counter(anomalyStreak: nat, recoveryStreak: nat, active: bool)

  const FRESH := Counter(0, 0, false)

  function Advanced(c: Counter, o: Observation, anomalies: nat, recoveries: nat): Counter {
    match o
    case Anomalous => Counter(c.anomalyStreak + 1, 0, c.active || c.anomalyStreak + 1 >= anomalies)
    case Ordinary =>
      if !c.active || c.recoveryStreak + 1 >= recoveries then FRESH
      else c.(recoveryStreak := c.recoveryStreak + 1)
    case NoEvidence => if c.active then c.(recoveryStreak := 0) else FRESH
  }

  function After(c: Counter, trace: seq<Observation>, anomalies: nat, recoveries: nat): Counter {
    if trace == [] then c
    else Advanced(After(c, trace[..|trace| - 1], anomalies, recoveries), trace[|trace| - 1], anomalies, recoveries)
  }

  // ----- the history specification

  /** The `n` observations before `end` are all `o`. */
  ghost predicate RunBefore(trace: seq<Observation>, n: nat, end: nat, o: Observation) {
    n <= end <= |trace| && forall j :: end - n <= j < end ==> trace[j] == o
  }

  /** The `anomalies` observations before `end` are anomalies, and no `recoveries` normal ones follow in a row. */
  ghost predicate Stands(trace: seq<Observation>, end: nat, anomalies: nat, recoveries: nat) {
    && RunBefore(trace, anomalies, end, Anomalous)
    && forall f: nat :: end + recoveries <= f ==> !RunBefore(trace, recoveries, f, Ordinary)
  }

  /** Some confirmed anomaly has not been followed by a confirmed recovery. */
  ghost predicate ActiveByHistory(trace: seq<Observation>, anomalies: nat, recoveries: nat) {
    exists end: nat :: Stands(trace, end, anomalies, recoveries)
  }

  function Trailing(trace: seq<Observation>, o: Observation): (n: nat)
    ensures n <= |trace|
  {
    if trace == [] || trace[|trace| - 1] != o then 0 else Trailing(trace[..|trace| - 1], o) + 1
  }

  lemma {:induction false} TrailingIsMaximal(trace: seq<Observation>, o: Observation, n: nat)
    ensures n <= Trailing(trace, o) <==> RunBefore(trace, n, |trace|, o)
  {
    if trace == [] || n == 0 {
    } else {
      var init := trace[..|trace| - 1];
      TrailingIsMaximal(init, o, n - 1);
      if n <= Trailing(trace, o) {
        forall j | |trace| - n <= j < |trace|
          ensures trace[j] == o
        {
          assert j < |init| ==> init[j] == trace[j];
        }
      }
    }
  }

  /** What the counter knows: whether the history is active, and how far the pending streak has come. */
  ghost predicate Tracks(trace: seq<Observation>, c: Counter, anomalies: nat, recoveries: nat) {
    && (c.active <==> ActiveByHistory(trace, anomalies, recoveries))
    && (!c.active ==> c.recoveryStreak == 0 && c.anomalyStreak == Trailing(trace, Anomalous) < anomalies)
    && (c.active ==> c.recoveryStreak == Trailing(trace, Ordinary) < recoveries)
  }

  lemma StandsAfterPrefix(trace: seq<Observation>, o: Observation, end: nat, anomalies: nat, recoveries: nat)
    requires Stands(trace + [o], end, anomalies, recoveries) && end <= |trace|
    ensures Stands(trace, end, anomalies, recoveries)
  {
    var more := trace + [o];
    assert forall j :: 0 <= j < |trace| ==> more[j] == trace[j];
    assert forall f: nat :: RunBefore(trace, recoveries, f, Ordinary) ==> RunBefore(more, recoveries, f, Ordinary);
  }

  lemma StandsIfNoNewRecovery(trace: seq<Observation>, o: Observation, end: nat, anomalies: nat, recoveries: nat)
    requires Stands(trace, end, anomalies, recoveries) && recoveries > 0
    requires o != Ordinary || Trailing(trace, Ordinary) + 1 < recoveries
    ensures Stands(trace + [o], end, anomalies, recoveries)
  {
    var more := trace + [o];
    assert forall j :: 0 <= j < |trace| ==> more[j] == trace[j];
    forall f: nat | end + recoveries <= f
      ensures !RunBefore(more, recoveries, f, Ordinary)
    {
      if f <= |trace| {
        assert !RunBefore(trace, recoveries, f, Ordinary);
      } else {
        TrailingIsMaximal(trace, Ordinary, recoveries - 1);
        assert more[|trace|] == o;
      }
    }
  }

  lemma RecoveryEndsAll(trace: seq<Observation>, anomalies: nat, recoveries: nat)
    requires Trailing(trace, Ordinary) + 1 >= recoveries && anomalies > 0 && recoveries > 0
    ensures !ActiveByHistory(trace + [Ordinary], anomalies, recoveries)
  {
    var more := trace + [Ordinary];
    TrailingIsMaximal(trace, Ordinary, recoveries - 1);
    assert RunBefore(more, recoveries, |more|, Ordinary);
    forall end: nat | RunBefore(more, anomalies, end, Anomalous)
      ensures end + recoveries <= |more|
    {
      assert more[end - 1] == Anomalous;
    }
  }

  lemma TracksOneMore(trace: seq<Observation>, c: Counter, o: Observation, anomalies: nat, recoveries: nat)
    requires anomalies > 0 && recoveries > 0 && Tracks(trace, c, anomalies, recoveries)
    ensures Tracks(trace + [o], Advanced(c, o, anomalies, recoveries), anomalies, recoveries)
  {
    hide Stands, RunBefore;
    var more := trace + [o];
    assert more[..|trace|] == trace;
    HistoryOneMore(trace, o, anomalies, recoveries);
  }

  /** How one more observation changes what the history says. */
  lemma HistoryOneMore(trace: seq<Observation>, o: Observation, anomalies: nat, recoveries: nat)
    requires anomalies > 0 && recoveries > 0
    ensures ActiveByHistory(trace + [o], anomalies, recoveries) <==>
      match o
      case Anomalous => ActiveByHistory(trace, anomalies, recoveries) || Trailing(trace, Anomalous) + 1 >= anomalies
      case Ordinary => ActiveByHistory(trace, anomalies, recoveries) && Trailing(trace, Ordinary) + 1 < recoveries
      case NoEvidence => ActiveByHistory(trace, anomalies, recoveries)
  {
    var more := trace + [o];
    if ActiveByHistory(trace, anomalies, recoveries) && (o != Ordinary || Trailing(trace, Ordinary) + 1 < recoveries) {
      var end: nat :| Stands(trace, end, anomalies, recoveries);
      StandsIfNoNewRecovery(trace, o, end, anomalies, recoveries);
    }
    if o == Ordinary && Trailing(trace, Ordinary) + 1 >= recoveries {
      RecoveryEndsAll(trace, anomalies, recoveries);
    }
    if o == Anomalous && Trailing(trace, Anomalous) + 1 >= anomalies {
      TrailingIsMaximal(trace, Anomalous, anomalies - 1);
      assert Stands(more, |more|, anomalies, recoveries);
    }
    if ActiveByHistory(more, anomalies, recoveries) {
      var end: nat :| Stands(more, end, anomalies, recoveries);
      if end <= |trace| {
        StandsAfterPrefix(trace, o, end, anomalies, recoveries);
      } else {
        assert more[|trace|] == Anomalous;
        assert RunBefore(trace, anomalies - 1, |trace|, Anomalous) by {
          assert forall j :: 0 <= j < |trace| ==> more[j] == trace[j];
        }
        TrailingIsMaximal(trace, Anomalous, anomalies - 1);
      }
    }
  }

  lemma {:induction false} TracksHistory(trace: seq<Observation>, anomalies: nat, recoveries: nat)
    requires anomalies > 0 && recoveries > 0
    ensures Tracks(trace, After(FRESH, trace, anomalies, recoveries), anomalies, recoveries)
  {
    if trace == [] {
      assert !ActiveByHistory([], anomalies, recoveries);
    } else {
      var init, last := trace[..|trace| - 1], trace[|trace| - 1];
      TracksHistory(init, anomalies, recoveries);
      TracksOneMore(init, After(FRESH, init, anomalies, recoveries), last, anomalies, recoveries);
      assert init + [last] == trace;
    }
  }

  /** A counter that started fresh is active exactly if the history says so: some run of `anomalies`
      trusted anomalies is followed nowhere by a run of `recoveries` trusted normal values. */
  lemma DebounceEqualsHistory(trace: seq<Observation>, anomalies: nat, recoveries: nat)
    requires anomalies > 0 && recoveries > 0
    ensures After(FRESH, trace, anomalies, recoveries).active <==> ActiveByHistory(trace, anomalies, recoveries)
  {
    TracksHistory(trace, anomalies, recoveries);
  }

  // ----- alternation

  predicate ActivatesAt(c: Counter, trace: seq<Observation>, i: nat, anomalies: nat, recoveries: nat)
    requires i < |trace|
  {
    !After(c, trace[..i], anomalies, recoveries).active && After(c, trace[..i + 1], anomalies, recoveries).active
  }

  predicate RecoversAt(c: Counter, trace: seq<Observation>, i: nat, anomalies: nat, recoveries: nat)
    requires i < |trace|
  {
    After(c, trace[..i], anomalies, recoveries).active && !After(c, trace[..i + 1], anomalies, recoveries).active
  }

  /** Between two activations there is a recovery. */
  lemma RecoveryBetween(c: Counter, trace: seq<Observation>, i: nat, j: nat, anomalies: nat, recoveries: nat) returns (k: nat)
    requires i < j < |trace|
    requires ActivatesAt(c, trace, i, anomalies, recoveries) && ActivatesAt(c, trace, j, anomalies, recoveries)
    ensures i < k < j && RecoversAt(c, trace, k, anomalies, recoveries)
  {
    k := i + 1;
    while After(c, trace[..k + 1], anomalies, recoveries).active
      invariant i < k < j && After(c, trace[..k], anomalies, recoveries).active
      decreases j - k
    {
      k := k + 1;
    }
  }

  /** Between two recoveries there is an activation. */
  lemma ActivationBetween(c: Counter, trace: seq<Observation>, i: nat, j: nat, anomalies: nat, recoveries: nat) returns (k: nat)
    requires i < j < |trace|
    requires RecoversAt(c, trace, i, anomalies, recoveries) && RecoversAt(c, trace, j, anomalies, recoveries)
    ensures i < k < j && ActivatesAt(c, trace, k, anomalies, recoveries)
  {
    k := i + 1;
    while !After(c, trace[..k + 1], anomalies, recoveries).active
      invariant i < k < j && !After(c, trace[..k], anomalies, recoveries).active
      decreases j - k
    {
      k := k + 1;
    }
  }
}
