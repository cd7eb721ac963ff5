/** The stateful detector: counters updated in place, one observation per member and poll. */
module AnomalyDetector {
  import opened Prelude
  import opened Debounce
  import opened Medians
  import opened PollMeaning

  datatype Settings = Settings(
    thresholds: Thresholds,
    minimumTotalActive: nat,
    anomalyConfirmations: nat,
    recoveryConfirmations: nat,
    missingConfirmations: nat,
    missingRecoveryConfirmations: nat)
  {
    predicate Valid() {
      && anomalyConfirmations >= 1 && recoveryConfirmations >= 1
      && missingConfirmations >= 1 && missingRecoveryConfirmations >= 1
      && 0 < thresholds.ratioPercent <= 100
    }
  }

  datatype Category = Distribution | Missing(source: string)

  datatype CounterKey = CounterKey(category: Category, ip: Ip)

  datatype Evaluation = Evaluation(
    active: bool, conditionMet: bool, activated: bool, recovered: bool, anomalyStreak: nat, recoveryStreak: nat,
    deferred: bool)

  function EvaluationOf(before: Counter, o: Observation, anomalies: nat, recoveries: nat): Evaluation {
    var after := Advanced(before, o, anomalies, recoveries);
    Evaluation(after.active, o.Anomalous?, !before.active && after.active, before.active && !after.active,
               after.anomalyStreak, after.recoveryStreak, o.NoEvidence?)
  }

  class DetectorCounter {
    ghost const key: CounterKey
    var anomalyStreak: nat
    var recoveryStreak: nat
    var active: bool

    function Value(): Counter
      reads this
    {
      Counter(anomalyStreak, recoveryStreak, active)
    }

    constructor (ghost key: CounterKey, value: Counter)
      ensures this.key == key && Value() == value
    {
      this.key := key;
      anomalyStreak, recoveryStreak, active := value.anomalyStreak, value.recoveryStreak, value.active;
    }

    method Advance(condition: bool, anomalies: nat, recoveries: nat) returns (activated: bool, recovered: bool)
      modifies this
      ensures Value() == Advanced(old(Value()), if condition then Anomalous else Ordinary, anomalies, recoveries)
      ensures activated == (!old(active) && active) && recovered == (old(active) && !active)
    {
      activated, recovered := false, false;
      if condition {
        recoveryStreak := 0;
        anomalyStreak := anomalyStreak + 1;
        if !active && anomalyStreak >= anomalies {
          active := true;
          activated := true;
        }
      } else if active {
        recoveryStreak := recoveryStreak + 1;
        if recoveryStreak >= recoveries {
          active := false;
          anomalyStreak := 0;
          recoveryStreak := 0;
          recovered := true;
        }
      } else {
        anomalyStreak := 0;
        recoveryStreak := 0;
      }
    }

    /** A poll without evidence breaks a pending streak and freezes an active event. */
    method Freeze(ghost anomalies: nat, ghost recoveries: nat)
      modifies this
      ensures Value() == Advanced(old(Value()), NoEvidence, anomalies, recoveries)
      ensures active == old(active)
    {
      if active {
        recoveryStreak := 0;
      } else {
        anomalyStreak := 0;
        recoveryStreak := 0;
      }
    }

    method Take(o: Observation, anomalies: nat, recoveries: nat) returns (evaluation: Evaluation)
      modifies this
      ensures Value() == Advanced(old(Value()), o, anomalies, recoveries)
      ensures evaluation == EvaluationOf(old(Value()), o, anomalies, recoveries)
    {
      var activated, recovered := false, false;
      if o.NoEvidence? {
        Freeze(anomalies, recoveries);
      } else {
        activated, recovered := Advance(o.Anomalous?, anomalies, recoveries);
      }
      evaluation := Evaluation(active, o.Anomalous?, activated, recovered, anomalyStreak, recoveryStreak, o.NoEvidence?);
    }
  }

  function Anomalies(s: Settings, key: CounterKey): nat {
    if key.category.Distribution? then s.anomalyConfirmations else s.missingConfirmations
  }

  function Recoveries(s: Settings, key: CounterKey): nat {
    if key.category.Distribution? then s.recoveryConfirmations else s.missingRecoveryConfirmations
  }

  // ----- what one poll shows

  /** The distinct members in the order of their first mention. */
  function Members(expected: seq<Ip>): (members: seq<Ip>)
    ensures forall ip :: ip in members <==> ip in expected
    ensures forall i, j :: 0 <= i < j < |members| ==> members[i] != members[j]
  {
    if expected == [] then []
    else
      var earlier := Members(expected[..|expected| - 1]);
      var last := expected[|expected| - 1];
      assert expected == expected[..|expected| - 1] + [last];
      if last in earlier then earlier else earlier + [last]
  }

  /** A later row of the same address replaces an earlier one. */
  function RowMap(rows: seq<Row>): map<Ip, Load> {
    if rows == [] then map[] else RowMap(rows[..|rows| - 1])[rows[|rows| - 1].ip := rows[|rows| - 1].load]
  }

  function LoadsOf(rowMap: map<Ip, Load>, members: seq<Ip>): seq<Load>
    requires forall ip :: ip in members ==> ip in rowMap
  {
    seq(|members|, i requires 0 <= i < |members| => rowMap[members[i]])
  }

  function TotalActive(loads: seq<Load>): int {
    if loads == [] then 0 else TotalActive(loads[..|loads| - 1]) + loads[|loads| - 1].active
  }

  predicate Complete(rowMap: map<Ip, Load>, members: seq<Ip>, dataComplete: bool) {
    dataComplete && forall ip :: ip in members ==> ip in rowMap
  }

  function DistributionObserved(s: Settings, rowMap: map<Ip, Load>, members: seq<Ip>, dataComplete: bool,
                                totalActive: Option<int>, i: nat): Observation
    requires i < |members|
  {
    if !Complete(rowMap, members, dataComplete) then NoEvidence
    else
      var loads := LoadsOf(rowMap, members);
      var total := if totalActive.Some? then totalActive.value else TotalActive(loads);
      if total < s.minimumTotalActive then NoEvidence
      else if LooksLow(loads[i], Peers(loads, i), s.thresholds) then Anomalous else Ordinary
  }

  function MissingObserved(present: set<Ip>, dataComplete: bool, ip: Ip): Observation {
    if !dataComplete then NoEvidence else if ip in present then Ordinary else Anomalous
  }

  ghost function Defaulted<V>(m: map<CounterKey, V>, key: CounterKey, value: V): map<CounterKey, V> {
    if key in m then m else m[key := value]
  }

  /** The counters' values, their start values (fresh, or restored), and the observations since then. */
  datatype Memory = Memory(
    values: map<CounterKey, Counter>, base: map<CounterKey, Counter>, history: map<CounterKey, seq<Observation>>)

  ghost function ValueIn(m: Memory, key: CounterKey): Counter {
    if key in m.values then m.values[key] else FRESH
  }

  ghost function Remembered(m: Memory, key: CounterKey): Memory {
    Memory(Defaulted(m.values, key, FRESH), Defaulted(m.base, key, FRESH), Defaulted(m.history, key, []))
  }

  ghost function Noted(s: Settings, m: Memory, key: CounterKey, o: Observation): Memory
    requires key in m.values && key in m.history
  {
    Memory(m.values[key := Advanced(m.values[key], o, Anomalies(s, key), Recoveries(s, key))], m.base,
           m.history[key := m.history[key] + [o]])
  }

  /** Every named key got exactly its observation; nothing else changed. */
  ghost predicate Took(s: Settings, m: Memory, seen: map<CounterKey, Observation>, n: Memory) {
    TookValues(s, m, seen, n) && TookBase(m, seen, n) && TookHistory(m, seen, n)
  }

  ghost predicate TookValues(s: Settings, m: Memory, seen: map<CounterKey, Observation>, n: Memory) {
    n.values.Keys == m.values.Keys + seen.Keys && forall k :: k in n.values ==> n.values[k] == ValueTaken(s, m, seen, k)
  }

  ghost predicate TookBase(m: Memory, seen: map<CounterKey, Observation>, n: Memory) {
    && n.base.Keys == m.base.Keys + seen.Keys
    && forall k :: k in n.base ==> n.base[k] == if k in m.base then m.base[k] else FRESH
  }

  ghost predicate TookHistory(m: Memory, seen: map<CounterKey, Observation>, n: Memory) {
    n.history.Keys == m.history.Keys + seen.Keys && forall k :: k in n.history ==> n.history[k] == HistoryTaken(m, seen, k)
  }

  ghost function ValueTaken(s: Settings, m: Memory, seen: map<CounterKey, Observation>, k: CounterKey): Counter {
    if k in seen then Advanced(ValueIn(m, k), seen[k], Anomalies(s, k), Recoveries(s, k)) else ValueIn(m, k)
  }

  ghost function HistoryTaken(m: Memory, seen: map<CounterKey, Observation>, k: CounterKey): seq<Observation> {
    (if k in m.history then m.history[k] else []) + if k in seen then [seen[k]] else []
  }

  lemma TookNothing(s: Settings, m: Memory)
    ensures Took(s, m, map[], m)
  {
  }

  lemma TookOneMore(s: Settings, m: Memory, seen: map<CounterKey, Observation>, n: Memory, key: CounterKey, o: Observation)
    requires Took(s, m, seen, n) && key !in seen
    ensures Took(s, m, seen[key := o], Noted(s, Remembered(n, key), key, o))
    ensures ValueIn(n, key) == ValueIn(m, key)
  {
    hide Advanced, Anomalies, Recoveries;
    TookOneMoreValue(s, m, seen, n, key, o);
    TookOneMoreBase(s, m, seen, n, key, o);
    TookOneMoreHistory(s, m, seen, n, key, o);
    hide TookValues, TookBase, TookHistory;
  }

  lemma TookOneMoreBase(s: Settings, m: Memory, seen: map<CounterKey, Observation>, n: Memory, key: CounterKey, o: Observation)
    requires TookValues(s, m, seen, n) && TookHistory(m, seen, n) && TookBase(m, seen, n) && key !in seen
    ensures TookBase(m, seen[key := o], Noted(s, Remembered(n, key), key, o))
  {
    hide Advanced, Anomalies, Recoveries, TookValues, TookHistory;
    assert Remembered(n, key).base.Keys == n.base.Keys + {key};
  }

  lemma TookOneMoreValue(s: Settings, m: Memory, seen: map<CounterKey, Observation>, n: Memory, key: CounterKey, o: Observation)
    requires TookValues(s, m, seen, n) && key !in seen
    ensures TookValues(s, m, seen[key := o], Noted(s, Remembered(n, key), key, o))
    ensures ValueIn(n, key) == ValueIn(m, key)
  {
    hide Advanced, Anomalies, Recoveries;
    var t := Noted(s, Remembered(n, key), key, o);
    assert t.values.Keys == n.values.Keys + {key};
  }

  lemma TookOneMoreHistory(s: Settings, m: Memory, seen: map<CounterKey, Observation>, n: Memory, key: CounterKey, o: Observation)
    requires TookHistory(m, seen, n) && key !in seen
    ensures TookHistory(m, seen[key := o], Noted(s, Remembered(n, key), key, o))
  {
  }

  /** The observations of one poll, by counter. */
  function SeenBy(category: Category, members: seq<Ip>, os: seq<Observation>): map<CounterKey, Observation>
    requires |os| == |members|
  {
    if members == [] then map[]
    else
      var last := |members| - 1;
      SeenBy(category, members[..last], os[..last])[CounterKey(category, members[last]) := os[last]]
  }

  lemma {:induction false} SeenByKeys(category: Category, members: seq<Ip>, os: seq<Observation>)
    requires |os| == |members|
    ensures SeenBy(category, members, os).Keys == set ip | ip in members :: CounterKey(category, ip)
  {
    if members == [] {
    } else {
      var last := |members| - 1;
      SeenByKeys(category, members[..last], os[..last]);
      assert members == members[..last] + [members[last]];
    }
  }

  lemma {:induction false} SeenByMeaning(category: Category, members: seq<Ip>, os: seq<Observation>, i: nat)
    requires |os| == |members| && i < |members|
    requires forall i, j :: 0 <= i < j < |members| ==> members[i] != members[j]
    ensures CounterKey(category, members[i]) in SeenBy(category, members, os)
    ensures SeenBy(category, members, os)[CounterKey(category, members[i])] == os[i]
  {
    var last := |members| - 1;
    if i < last {
      SeenByMeaning(category, members[..last], os[..last], i);
    }
  }

  /** Each member's evaluation tells what its observation did to its counter. */
  ghost predicate Told(s: Settings, m: Memory, category: Category, members: seq<Ip>, os: seq<Observation>,
                       evaluations: map<Ip, Evaluation>)
    requires |os| == |members|
  {
    && evaluations.Keys == (set ip | ip in members)
    && forall i :: 0 <= i < |members| ==>
         var key := CounterKey(category, members[i]);
         evaluations[members[i]] == EvaluationOf(ValueIn(m, key), os[i], Anomalies(s, key), Recoveries(s, key))
  }

  /** An evaluation tells the counter as it now is, its two edges, and the observation that joined its history. */
  ghost predicate TellsCounter(m: Memory, n: Memory, key: CounterKey, e: Evaluation) {
    && key in n.values && e.active == n.values[key].active
    && e.anomalyStreak == n.values[key].anomalyStreak && e.recoveryStreak == n.values[key].recoveryStreak
    && e.activated == (e.active && !(key in m.values && m.values[key].active))
    && e.recovered == (!e.active && key in m.values && m.values[key].active)
    && key in n.history
    && n.history[key] == (if key in m.history then m.history[key] else [])
                         + [if e.deferred then NoEvidence else if e.conditionMet then Anomalous else Ordinary]
  }

  lemma PollTells(s: Settings, m: Memory, n: Memory, category: Category, members: seq<Ip>, os: seq<Observation>,
                  evaluations: map<Ip, Evaluation>, i: nat)
    requires |os| == |members| && forall i, j :: 0 <= i < j < |members| ==> members[i] != members[j]
    requires Took(s, m, SeenBy(category, members, os), n) && Told(s, m, category, members, os, evaluations)
    requires i < |members|
    ensures members[i] in evaluations && TellsCounter(m, n, CounterKey(category, members[i]), evaluations[members[i]])
    ensures evaluations[members[i]].deferred == os[i].NoEvidence? && evaluations[members[i]].conditionMet == os[i].Anomalous?
  {
    SeenByMeaning(category, members, os, i);
    hide Advanced, Anomalies, Recoveries, SeenBy;
    assert members[i] in members;
  }

  lemma ToldOneMore(s: Settings, m: Memory, category: Category, members: seq<Ip>, os: seq<Observation>,
                    evaluations: map<Ip, Evaluation>, ip: Ip, o: Observation)
    requires |os| == |members| && Told(s, m, category, members, os, evaluations) && ip !in members
    ensures
      var key := CounterKey(category, ip);
      Told(s, m, category, members + [ip], os + [o],
           evaluations[ip := EvaluationOf(ValueIn(m, key), o, Anomalies(s, key), Recoveries(s, key))])
  {
  }

  /** Every counter is what its observations made of its start value. */
  ghost predicate Explained(s: Settings, m: Memory) {
    && m.values.Keys == m.base.Keys == m.history.Keys
    && forall k :: k in m.values ==> m.values[k] == After(m.base[k], m.history[k], Anomalies(s, k), Recoveries(s, k))
  }

  lemma ExplainedOneMore(s: Settings, m: Memory, key: CounterKey, o: Observation)
    requires Explained(s, m) && key in m.values
    ensures key in m.history && Explained(s, Noted(s, m, key, o))
  {
  }

  lemma StillExplained(s: Settings, m: Memory, key: CounterKey)
    requires Explained(s, m)
    ensures Explained(s, Remembered(m, key)) && key in Remembered(m, key).values
    ensures key in m.values ==> Remembered(m, key) == m
  {
  }

  class AnomalyDetector {
    const settings: Settings
    var counters: map<CounterKey, DetectorCounter>

    ghost var memory: Memory
    ghost var objects: set<DetectorCounter>

    ghost predicate Valid()
      reads this, objects
    {
      && settings.Valid()
      && counters.Keys == memory.values.Keys
      && (forall k :: k in counters ==>
            counters[k] in objects && counters[k].key == k && counters[k].Value() == memory.values[k])
      && Explained(settings, memory)
    }

    constructor (settings: Settings)
      requires settings.Valid()
      ensures Valid() && this.settings == settings && memory == Memory(map[], map[], map[]) && fresh(objects)
    {
      this.settings := settings;
      counters, memory, objects := map[], Memory(map[], map[], map[]), {};
    }

    /** A counter of a detector that started without saved state is active exactly if its history is. */
    lemma ActiveIffHistory(key: CounterKey)
      requires Valid() && key in counters && memory.base[key] == FRESH
      ensures key.category == Distribution ==>
        (counters[key].active <==>
           ActiveByHistory(memory.history[key], settings.anomalyConfirmations, settings.recoveryConfirmations))
      ensures key.category != Distribution ==>
        (counters[key].active <==>
           ActiveByHistory(memory.history[key], settings.missingConfirmations, settings.missingRecoveryConfirmations))
    {
      DebounceEqualsHistory(memory.history[key], Anomalies(settings, key), Recoveries(settings, key));
    }

    /** The counter of a key, created on first use. */
    method CounterFor(key: CounterKey) returns (counter: DetectorCounter)
      requires Valid()
      modifies this
      ensures Valid() && key in counters && counter == counters[key]
      ensures counter in old(objects) || fresh(counter)
      ensures fresh(objects - old(objects)) && memory == Remembered(old(memory), key)
    {
      hide Explained;
      StillExplained(settings, memory, key);
      if key !in counters {
        counter := new DetectorCounter(key, FRESH);
        counters := counters[key := counter];
        memory := Remembered(memory, key);
        objects := objects + {counter};
      } else {
        counter := counters[key];
      }
    }

    /** Steps an existing counter; the others keep their values. */
    method StepCounter(key: CounterKey, o: Observation) returns (evaluation: Evaluation)
      requires Valid() && key in counters
      modifies this`memory, counters[key]
      ensures Valid()
      ensures evaluation == EvaluationOf(ValueIn(old(memory), key), o, Anomalies(settings, key), Recoveries(settings, key))
      ensures key in old(memory).values && key in old(memory).history && memory == Noted(settings, old(memory), key, o)
    {
      hide Advanced, Anomalies, Recoveries, Explained, EvaluationOf;
      ExplainedOneMore(settings, memory, key, o);
      evaluation := counters[key].Take(o, Anomalies(settings, key), Recoveries(settings, key));
      memory := Noted(settings, memory, key, o);
    }

    /** One observation for one counter, which is created on first use. */
    method Observe(key: CounterKey, o: Observation) returns (evaluation: Evaluation)
      requires Valid()
      modifies this, objects
      ensures Valid() && fresh(objects - old(objects))
      ensures evaluation == EvaluationOf(ValueIn(old(memory), key), o, Anomalies(settings, key), Recoveries(settings, key))
      ensures key in Remembered(old(memory), key).history
      ensures memory == Noted(settings, Remembered(old(memory), key), key, o)
    {
      hide Advanced, Anomalies, Recoveries, Explained, EvaluationOf;
      var counter := CounterFor(key);
      evaluation := StepCounter(key, o);
    }

    /** Debounces the missing rows of one source: one observation per distinct expected member. */
    method EvaluateMissing(source: string, present: set<Ip>, expected: seq<Ip>, dataComplete: bool)
      returns (evaluations: map<Ip, Evaluation>)
      requires Valid()
      modifies this, objects
      ensures Valid() && fresh(objects - old(objects))
      ensures
        var members := Members(expected);
        var os := MissingObservations(present, dataComplete, members);
        && Took(settings, old(memory), SeenBy(Missing(source), members, os), memory)
        && Told(settings, old(memory), Missing(source), members, os, evaluations)
      ensures evaluations.Keys == set ip | ip in expected
      ensures forall ip :: ip in expected ==>
        && TellsCounter(old(memory), memory, CounterKey(Missing(source), ip), evaluations[ip])
        && (evaluations[ip].deferred <==> !dataComplete)
        && (evaluations[ip].conditionMet <==> dataComplete && ip !in present)
    {
      hide Explained, Took, Told, Noted, Remembered, EvaluationOf, MissingObserved, Members;
      evaluations := map[];
      var members := Members(expected);
      MembersAreDistinct(expected);
      ghost var os := MissingObservations(present, dataComplete, members);
      TookNothing(settings, memory);
      ToldNothing(settings, memory, Missing(source));
      for i := 0 to |members|
        invariant Valid() && fresh(objects - old(objects))
        invariant Took(settings, old(memory), SeenBy(Missing(source), members[..i], os[..i]), memory)
        invariant Told(settings, old(memory), Missing(source), members[..i], os[..i], evaluations)
      {
        var ip := members[i];
        NextMember(Missing(source), members, os, i);
        TookOneMore(settings, old(memory), SeenBy(Missing(source), members[..i], os[..i]), memory,
                    CounterKey(Missing(source), ip), os[i]);
        ToldOneMore(settings, old(memory), Missing(source), members[..i], os[..i], evaluations, ip, os[i]);
        var evaluation := Observe(CounterKey(Missing(source), ip), MissingObserved(present, dataComplete, ip));
        evaluations := evaluations[ip := evaluation];
      }
      assert members[..|members|] == members && os[..|members|] == os;
      MissingMeans(settings, old(memory), memory, source, present, expected, dataComplete, evaluations);
    }

    /** Debounces the client distribution: one observation per distinct expected member. */
    method EvaluateClientDistribution(rows: seq<Row>, expected: seq<Ip>, dataComplete: bool, totalActive: Option<int>)
      returns (evaluations: map<Ip, Evaluation>)
      requires Valid()
      modifies this, objects
      ensures Valid() && fresh(objects - old(objects))
      ensures
        var members := Members(expected);
        var os := DistributionObservations(settings, RowMap(rows), members, dataComplete, totalActive);
        && Took(settings, old(memory), SeenBy(Distribution, members, os), memory)
        && Told(settings, old(memory), Distribution, members, os, evaluations)
      ensures evaluations.Keys == set ip | ip in expected
      ensures forall ip :: ip in expected ==>
        && TellsCounter(old(memory), memory, CounterKey(Distribution, ip), evaluations[ip])
        && (evaluations[ip].deferred <==> Unjudged(rows, expected, dataComplete, totalActive, settings.minimumTotalActive))
        && (evaluations[ip].conditionMet <==>
              !evaluations[ip].deferred && JudgedLow(rows, expected, ip, settings.thresholds))
    {
      hide Explained, Took, Told, Noted, Remembered, EvaluationOf, Members, LooksLow, Complete, TotalActive, Peers,
           RowMap, DistributionObserved;
      evaluations := map[];
      var members := Members(expected);
      MembersAreDistinct(expected);
      var rowMap := MapRows(rows);
      ghost var os := DistributionObservations(settings, rowMap, members, dataComplete, totalActive);
      var complete := Complete(rowMap, members, dataComplete);
      var lowUsage := LowUsage(settings, rowMap, members, dataComplete, totalActive);
      TookNothing(settings, memory);
      ToldNothing(settings, memory, Distribution);
      for i := 0 to |members|
        invariant Valid() && fresh(objects - old(objects))
        invariant Took(settings, old(memory), SeenBy(Distribution, members[..i], os[..i]), memory)
        invariant Told(settings, old(memory), Distribution, members[..i], os[..i], evaluations)
      {
        var ip := members[i];
        NextMember(Distribution, members, os, i);
        TookOneMore(settings, old(memory), SeenBy(Distribution, members[..i], os[..i]), memory,
                    CounterKey(Distribution, ip), os[i]);
        ToldOneMore(settings, old(memory), Distribution, members[..i], os[..i], evaluations, ip, os[i]);
        var o := NoEvidence;
        if complete && !lowUsage {
          CompleteHasAll(rowMap, members, dataComplete);
          var loads := LoadsOf(rowMap, members);
          o := if LooksLow(loads[i], Peers(loads, i), settings.thresholds) then Anomalous else Ordinary;
        }
        ObservedByBranch(settings, rowMap, members, dataComplete, totalActive, i);
        var evaluation := Observe(CounterKey(Distribution, ip), o);
        evaluations := evaluations[ip := evaluation];
      }
      assert members[..|members|] == members && os[..|members|] == os;
      DistributionMeans(settings, old(memory), memory, rows, expected, dataComplete, totalActive, evaluations);
    }

    /** Forgets the counters of members that are no longer expected. */
    method PruneIps(expected: set<Ip>) returns (removed: set<Ip>)
      requires Valid()
      modifies this`counters, this`memory
      ensures Valid()
      ensures removed == set k | k in old(counters) && k.ip !in expected :: k.ip
      ensures memory == Pruned(old(memory), expected)
      ensures counters == map k | k in old(counters) && k.ip in expected :: old(counters)[k]
      ensures forall k :: k in counters ==> k in memory.values && memory.values[k] == old(memory).values[k]
    {
      removed := {};
      var todo, done := counters.Keys, {};
      ghost var before := memory;
      var kept: map<CounterKey, DetectorCounter> := map[];
      while todo != {}
        invariant todo !! done && todo + done == counters.Keys
        invariant removed == set k | k in done && k.ip !in expected :: k.ip
        invariant kept == map k | k in done && k.ip in expected :: counters[k]
        decreases todo
      {
        var key :| key in todo;
        if key.ip !in expected {
          removed := removed + {key.ip};
        } else {
          kept := kept[key := counters[key]];
        }
        todo, done := todo - {key}, done + {key};
      }
      counters := kept;
      memory := Pruned(before, expected);
    }
  }

  function Pruned(m: Memory, expected: set<Ip>): Memory {
    Memory(map k | k in m.values && k.ip in expected :: m.values[k],
           map k | k in m.base && k.ip in expected :: m.base[k],
           map k | k in m.history && k.ip in expected :: m.history[k])
  }

  predicate LowUsage(s: Settings, rowMap: map<Ip, Load>, members: seq<Ip>, dataComplete: bool, totalActive: Option<int>) {
    Complete(rowMap, members, dataComplete)
    && (if totalActive.Some? then totalActive.value else TotalActive(LoadsOf(rowMap, members))) < s.minimumTotalActive
  }

  lemma CompleteHasAll(rowMap: map<Ip, Load>, members: seq<Ip>, dataComplete: bool)
    requires Complete(rowMap, members, dataComplete)
    ensures forall ip :: ip in members ==> ip in rowMap
  {
  }

  lemma ObservedByBranch(s: Settings, rowMap: map<Ip, Load>, members: seq<Ip>, dataComplete: bool,
                         totalActive: Option<int>, i: nat)
    requires i < |members|
    ensures DistributionObserved(s, rowMap, members, dataComplete, totalActive, i)
      == if !Complete(rowMap, members, dataComplete) || LowUsage(s, rowMap, members, dataComplete, totalActive) then NoEvidence
         else if LooksLow(LoadsOf(rowMap, members)[i], Peers(LoadsOf(rowMap, members), i), s.thresholds) then Anomalous
         else Ordinary
  {
  }

  function DistributionObservations(s: Settings, rowMap: map<Ip, Load>, members: seq<Ip>, dataComplete: bool,
                                    totalActive: Option<int>): (os: seq<Observation>)
    ensures |os| == |members|
  {
    seq(|members|, i requires 0 <= i < |members| =>
      DistributionObserved(s, rowMap, members, dataComplete, totalActive, i))
  }

  // ----- what the observations of a poll mean

  lemma {:induction false} MapShows(rows: seq<Row>, ip: Ip)
    ensures ip in RowMap(rows) <==> HasRow(rows, ip)
    ensures ip in RowMap(rows) ==> RowMap(rows)[ip] == Shown(rows, ip)
  {
    if rows != [] {
      var init := rows[..|rows| - 1];
      MapShows(init, ip);
      MoreRows(rows, ip);
      if HasRow(rows, ip) {
        OneMoreRow(rows, ip, Shown(rows, ip));
        if HasRow(init, ip) && rows[|rows| - 1].ip != ip {
          ShowsOne(init, ip, Shown(init, ip), Shown(rows, ip));
        }
      }
    }
  }

  lemma MoreRows(rows: seq<Row>, ip: Ip)
    requires rows != []
    ensures HasRow(rows, ip) <==> HasRow(rows[..|rows| - 1], ip) || rows[|rows| - 1].ip == ip
  {
    var init := rows[..|rows| - 1];
    if i :| 0 <= i < |rows| && rows[i].ip == ip {
      assert i < |init| ==> init[i].ip == ip;
    }
    if i :| 0 <= i < |init| && init[i].ip == ip {
      assert rows[i].ip == ip;
    }
  }

  lemma {:induction false} TotalOfLoads(loads: seq<Load>, xs: seq<int>)
    requires |xs| == |loads| && forall i :: 0 <= i < |loads| ==> xs[i] == loads[i].active
    ensures TotalActive(loads) == Total(xs)
  {
    if loads != [] {
      TotalOfLoads(loads[..|loads| - 1], xs[..|xs| - 1]);
    }
  }

  /** A poll is judged exactly if its data are complete and the cluster is used enough. */
  lemma UnjudgedIff(s: Settings, rows: seq<Row>, expected: seq<Ip>, dataComplete: bool, totalActive: Option<int>)
    ensures
      var rowMap, members := RowMap(rows), Members(expected);
      var judged := Complete(rowMap, members, dataComplete) && !LowUsage(s, rowMap, members, dataComplete, totalActive);
      judged <==> !Unjudged(rows, expected, dataComplete, totalActive, s.minimumTotalActive)
  {
    hide Shows, HasRow, TotalActive, Sum, Members, RowMap;
    var rowMap, members := RowMap(rows), Members(expected);
    forall ip
      ensures ip in rowMap <==> HasRow(rows, ip)
      ensures ip in rowMap ==> rowMap[ip] == Shown(rows, ip)
    {
      MapShows(rows, ip);
    }
    MembersAreDistinct(expected);
    if Complete(rowMap, members, dataComplete) {
      var actives := map ip | ip in expected :: Shown(rows, ip).active;
      SumOfListed(members, actives);
      TotalOfLoads(LoadsOf(rowMap, members), Listed(members, actives));
    }
  }

  lemma PeersAreTheRest(members: seq<Ip>, i: nat, ip: Ip)
    requires i < |members| && forall j, k :: 0 <= j < k < |members| ==> members[j] != members[k]
    ensures ip in Peers(members, i) <==> ip in members && ip != members[i]
  {
    if ip in members && ip != members[i] {
      var j :| 0 <= j < |members| && members[j] == ip;
      assert Peers(members, i)[if j < i then j else j - 1] == ip;
    }
  }

  lemma PeersAreOthers(rows: seq<Row>, expected: seq<Ip>, members: seq<Ip>, counts: seq<int>, i: nat, active: bool)
    requires forall ip :: ip in members <==> ip in expected
    requires forall j, k :: 0 <= j < k < |members| ==> members[j] != members[k]
    requires i < |members| == |counts| && forall ip :: ip in expected ==> HasRow(rows, ip)
    requires forall j :: 0 <= j < |members| ==>
      counts[j] == if active then Shown(rows, members[j]).active else Shown(rows, members[j]).standby
    ensures multiset(Peers(counts, i)) == Bag(Others(rows, expected, members[i], active))
  {
    hide Shows, HasRow, Bag;
    var peers, others := Peers(members, i), Others(rows, expected, members[i], active);
    forall ip
      ensures ip in peers <==> ip in expected && ip != members[i]
    {
      PeersAreTheRest(members, i, ip);
    }
    BagOfListed(peers, others);
    assert Listed(peers, others) == Peers(counts, i);
  }

  /** In a judged poll a member looks low exactly if its own counts are, and those of its peers are not. */
  lemma JudgedLowIff(s: Settings, rows: seq<Row>, expected: seq<Ip>, i: nat)
    requires i < |Members(expected)| && forall ip :: ip in expected ==> HasRow(rows, ip)
    requires forall ip :: ip in expected ==> ip in RowMap(rows)
    ensures
      var loads := LoadsOf(RowMap(rows), Members(expected));
      LooksLow(loads[i], Peers(loads, i), s.thresholds) <==> JudgedLow(rows, expected, Members(expected)[i], s.thresholds)
  {
    hide Shows, HasRow, Members, RowMap;
    var members, rowMap := Members(expected), RowMap(rows);
    var loads := LoadsOf(rowMap, members);
    forall j | 0 <= j < |members|
      ensures loads[j] == Shown(rows, members[j])
    {
      MapShows(rows, members[j]);
    }
    MembersAreDistinct(expected);
    PeersAreOthers(rows, expected, members, Actives(loads), i, true);
    PeersAreOthers(rows, expected, members, Standbys(loads), i, false);
    PeersOfCounts(loads, i);
    LowAgainstPeers(loads[i], Peers(loads, i), s.thresholds);
    hide Bag, Others, LowAgainst, RelativelyLow, Peers, Actives, Standbys;
  }

  lemma PeersOfCounts(loads: seq<Load>, i: nat)
    requires i < |loads|
    ensures Actives(Peers(loads, i)) == Peers(Actives(loads), i) && Standbys(Peers(loads, i)) == Peers(Standbys(loads), i)
  {
  }

  /** What each expected member is observed to be in one poll. */
  lemma ObservationMeans(s: Settings, rows: seq<Row>, expected: seq<Ip>, dataComplete: bool, totalActive: Option<int>, i: nat)
    requires i < |Members(expected)|
    ensures
      var o := DistributionObserved(s, RowMap(rows), Members(expected), dataComplete, totalActive, i);
      && (o.NoEvidence? <==> Unjudged(rows, expected, dataComplete, totalActive, s.minimumTotalActive))
      && (o.Anomalous? <==> !Unjudged(rows, expected, dataComplete, totalActive, s.minimumTotalActive)
                            && JudgedLow(rows, expected, Members(expected)[i], s.thresholds))
  {
    UnjudgedIff(s, rows, expected, dataComplete, totalActive);
    ObservedByBranch(s, RowMap(rows), Members(expected), dataComplete, totalActive, i);
    hide DistributionObserved, LowUsage, Members, RowMap, LooksLow, JudgedLow, HasRow, TotalActive, Sum;
    if !Unjudged(rows, expected, dataComplete, totalActive, s.minimumTotalActive) {
      JudgedLowIff(s, rows, expected, i);
    }
  }

  lemma DistributionMeans(s: Settings, m: Memory, n: Memory, rows: seq<Row>, expected: seq<Ip>, dataComplete: bool,
                          totalActive: Option<int>, evaluations: map<Ip, Evaluation>)
    requires
      var members := Members(expected);
      var os := DistributionObservations(s, RowMap(rows), members, dataComplete, totalActive);
      && Took(s, m, SeenBy(Distribution, members, os), n) && Told(s, m, Distribution, members, os, evaluations)
    ensures evaluations.Keys == set ip | ip in expected
    ensures forall ip :: ip in expected ==>
      MemberMeans(m, n, s, rows, expected, dataComplete, totalActive, ip, evaluations[ip])
  {
    hide Took, Told, TellsCounter, Members, RowMap, SeenBy, MemberMeans, DistributionObservations;
    var members := Members(expected);
    var os := DistributionObservations(s, RowMap(rows), members, dataComplete, totalActive);
    MembersAreDistinct(expected);
    ToldAll(s, m, Distribution, members, os, evaluations);
    forall ip | ip in expected
      ensures ip in evaluations && MemberMeans(m, n, s, rows, expected, dataComplete, totalActive, ip, evaluations[ip])
    {
      var i :| 0 <= i < |members| && members[i] == ip;
      PollTells(s, m, n, Distribution, members, os, evaluations, i);
      MemberIsMeant(s, m, n, rows, expected, dataComplete, totalActive, i, evaluations[ip]);
    }
  }

  ghost predicate MemberMeans(m: Memory, n: Memory, s: Settings, rows: seq<Row>, expected: seq<Ip>, dataComplete: bool,
                              totalActive: Option<int>, ip: Ip, e: Evaluation)
    requires ip in expected
  {
    && TellsCounter(m, n, CounterKey(Distribution, ip), e)
    && (e.deferred <==> Unjudged(rows, expected, dataComplete, totalActive, s.minimumTotalActive))
    && (e.conditionMet <==> !e.deferred && JudgedLow(rows, expected, ip, s.thresholds))
  }

  lemma MemberIsMeant(s: Settings, m: Memory, n: Memory, rows: seq<Row>, expected: seq<Ip>, dataComplete: bool,
                      totalActive: Option<int>, i: nat, e: Evaluation)
    requires i < |Members(expected)| && TellsCounter(m, n, CounterKey(Distribution, Members(expected)[i]), e)
    requires
      var o := DistributionObservations(s, RowMap(rows), Members(expected), dataComplete, totalActive)[i];
      e.deferred == o.NoEvidence? && e.conditionMet == o.Anomalous?
    ensures MemberMeans(m, n, s, rows, expected, dataComplete, totalActive, Members(expected)[i], e)
  {
    hide TellsCounter, Members, RowMap, DistributionObserved, JudgedLow;
    ObservationMeans(s, rows, expected, dataComplete, totalActive, i);
  }

  lemma MissingMeans(s: Settings, m: Memory, n: Memory, source: string, present: set<Ip>, expected: seq<Ip>,
                     dataComplete: bool, evaluations: map<Ip, Evaluation>)
    requires
      var members := Members(expected);
      var os := MissingObservations(present, dataComplete, members);
      && Took(s, m, SeenBy(Missing(source), members, os), n) && Told(s, m, Missing(source), members, os, evaluations)
    ensures evaluations.Keys == set ip | ip in expected
    ensures forall ip :: ip in expected ==>
      && TellsCounter(m, n, CounterKey(Missing(source), ip), evaluations[ip])
      && (evaluations[ip].deferred <==> !dataComplete)
      && (evaluations[ip].conditionMet <==> dataComplete && ip !in present)
  {
    hide Took, Told, TellsCounter, Members, SeenBy;
    var members := Members(expected);
    var os := MissingObservations(present, dataComplete, members);
    MembersAreDistinct(expected);
    ToldAll(s, m, Missing(source), members, os, evaluations);
    forall ip | ip in expected
      ensures TellsCounter(m, n, CounterKey(Missing(source), ip), evaluations[ip])
      ensures evaluations[ip].deferred <==> !dataComplete
      ensures evaluations[ip].conditionMet <==> dataComplete && ip !in present
    {
      var i :| 0 <= i < |members| && members[i] == ip;
      PollTells(s, m, n, Missing(source), members, os, evaluations, i);
    }
  }

  lemma ToldAll(s: Settings, m: Memory, category: Category, members: seq<Ip>, os: seq<Observation>,
                evaluations: map<Ip, Evaluation>)
    requires |os| == |members| && Told(s, m, category, members, os, evaluations)
    ensures evaluations.Keys == set ip | ip in members
  {
  }

  method MapRows(rows: seq<Row>) returns (rowMap: map<Ip, Load>)
    ensures rowMap == RowMap(rows)
  {
    rowMap := map[];
    for i := 0 to |rows|
      invariant rowMap == RowMap(rows[..i])
    {
      rowMap := rowMap[rows[i].ip := rows[i].load];
      assert rows[..i + 1][..i] == rows[..i];
    }
    assert rows[..|rows|] == rows;
  }

  lemma ToldNothing(s: Settings, m: Memory, category: Category)
    ensures Told(s, m, category, [], [], map[])
  {
  }

  lemma MembersAreDistinct(expected: seq<Ip>)
    ensures forall i, j :: 0 <= i < j < |Members(expected)| ==> Members(expected)[i] != Members(expected)[j]
  {
  }

  lemma NextMember(category: Category, members: seq<Ip>, os: seq<Observation>, i: nat)
    requires |os| == |members| && i < |members|
    requires forall i, j :: 0 <= i < j < |members| ==> members[i] != members[j]
    ensures members[i] !in members[..i] && CounterKey(category, members[i]) !in SeenBy(category, members[..i], os[..i])
    ensures members[..i + 1] == members[..i] + [members[i]] && os[..i + 1] == os[..i] + [os[i]]
    ensures SeenBy(category, members[..i + 1], os[..i + 1])
      == SeenBy(category, members[..i], os[..i])[CounterKey(category, members[i]) := os[i]]
  {
    SeenByKeys(category, members[..i], os[..i]);
    assert members[..i + 1][..i] == members[..i] && os[..i + 1][..i] == os[..i];
  }

  function MissingObservations(present: set<Ip>, dataComplete: bool, members: seq<Ip>): (os: seq<Observation>)
    ensures |os| == |members|
  {
    seq(|members|, i requires 0 <= i < |members| => MissingObserved(present, dataComplete, members[i]))
  }

  /** In relative mode, with a peer minimum above the low threshold, one poll of n members shows at most
      floor((n + 1) / 2) anomalies, whatever was collected. */
  lemma AtMostHalfAreAnomalous(s: Settings, rowMap: map<Ip, Load>, members: seq<Ip>, dataComplete: bool,
                               totalActive: Option<int>)
    requires s.thresholds.mode.AbsoluteAndRelative? && s.thresholds.peerMinimum > s.thresholds.low
    ensures
      var os := DistributionObservations(s, rowMap, members, dataComplete, totalActive);
      |set i: nat | i < |os| && os[i].Anomalous?| <= (|members| + 1) / 2
  {
    hide LooksLow;
    var os := DistributionObservations(s, rowMap, members, dataComplete, totalActive);
    var anomalous := set i: nat | i < |os| && os[i].Anomalous?;
    if LowUsage(s, rowMap, members, dataComplete, totalActive) || !Complete(rowMap, members, dataComplete) {
      assert anomalous == {};
    } else {
      var loads := LoadsOf(rowMap, members);
      AtMostHalfLookLow(loads, s.thresholds);
      assert anomalous <= LowMembers(loads, s.thresholds);
      SubsetSize(anomalous, LowMembers(loads, s.thresholds));
    }
  }
}
