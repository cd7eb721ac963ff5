/** What MM and cluster observations show, the final gate, and consecutive confirmation. */
module RemediationEvidence {
  import opened Prelude
  import opened RemediationTypes

  /** `name` is the reported text in capitals. */
  datatype MmState = Up | Down | OtherState(name: string)

  datatype MmObservation = MmObservation(complete: bool, states: map<Ip, MmState>, errorCode: string)
  {
    function StateFor(ip: Ip): MmState {
      if ip in states then states[ip] else OtherState("UNKNOWN")
    }

    predicate ShowsUp(ip: Ip) {
      complete && StateFor(ip).Up?
    }

    /** How a recovery poll reports what it saw of `ip`. */
    function PollCode(ip: Ip): string {
      if ShowsUp(ip) then "UP"
      else if errorCode != "" then errorCode
      else
        match StateFor(ip)
        case Up => "UP"
        case Down => "DOWN"
        case OtherState(name) => name
    }

    predicate AllUp(ips: seq<Ip>) {
      forall ip :: ip in ips ==> StateFor(ip).Up?
    }

    /** Which of these members are reported down. */
    function DownAmong(ips: seq<Ip>): set<Ip> {
      set ip | ip in ips && StateFor(ip).Down?
    }
  }

  // ----- what the conditions say of an observation itself

  /** Of the expected members exactly the target is reported down. */
  ghost predicate TargetAloneDown(mm: MmObservation, target: Ip, expected: seq<Ip>) {
    target in expected && forall ip :: ip in expected ==> ((ip in mm.states && mm.states[ip] == Down) <==> ip == target)
  }

  lemma AloneIsTheOnly(mm: MmObservation, target: Ip, expected: seq<Ip>)
    ensures mm.DownAmong(expected) == {target} <==> TargetAloneDown(mm, target, expected)
  {
    if mm.DownAmong(expected) == {target} {
      forall ip | ip in expected
        ensures (ip in mm.states && mm.states[ip] == Down) <==> ip == target
      {
        assert ip in mm.DownAmong(expected) <==> ip in {target};
      }
      assert target in mm.DownAmong(expected);
    }
  }

  ghost predicate EveryoneUp(mm: MmObservation, expected: seq<Ip>) {
    forall ip :: ip in expected ==> ip in mm.states && mm.states[ip] == Up
  }

  datatype Member = Member(connected: bool, isLeader: bool, active: Option<int>, standby: Option<int>)

  datatype ClusterObservation = ClusterObservation(
    source: Ip,
    members: map<Ip, Member>,
    membershipComplete: bool,
    distributionComplete: bool,
    errorCode: string)
  {
    function Leaders(): set<Ip> {
      set ip | ip in members && members[ip].isLeader
    }

    predicate Connected(ip: Ip) {
      ip in members && members[ip].connected
    }

    predicate AllConnected(ips: seq<Ip>) {
      ips != [] && forall ip :: ip in ips ==> Connected(ip)
    }

    predicate AllDistributed(ips: seq<Ip>) {
      ips != [] && forall ip :: ip in ips ==> ip in members && members[ip].active.Some? && members[ip].standby.Some?
    }
  }

  ghost predicate LeadsAlone(view: ClusterObservation, leader: Ip) {
    forall ip :: ip in view.members && view.members[ip].isLeader <==> ip == leader
  }

  ghost predicate EveryoneConnected(view: ClusterObservation, expected: seq<Ip>) {
    expected != [] && forall ip :: ip in expected ==> ip in view.members && view.members[ip].connected
  }

  ghost predicate EveryoneCounted(view: ClusterObservation, expected: seq<Ip>) {
    && expected != []
    && forall ip :: ip in expected ==>
         ip in view.members && view.members[ip].active.Some? && view.members[ip].standby.Some?
  }

  lemma LeadersLead(view: ClusterObservation, leader: Ip)
    ensures view.Leaders() == {leader} <==> LeadsAlone(view, leader)
  {
    if view.Leaders() == {leader} {
      forall ip
        ensures ip in view.members && view.members[ip].isLeader <==> ip == leader
      {
        assert ip in view.Leaders() <==> ip in {leader};
      }
    }
  }

  lemma OneLeadsAlone(view: ClusterObservation, leader: Ip, other: Ip)
    requires LeadsAlone(view, leader) && LeadsAlone(view, other)
    ensures leader == other
  {
    assert leader in view.members && view.members[leader].isLeader;
  }

  lemma NobodyLeadsAlone(view: ClusterObservation)
    requires |view.Leaders()| != 1
    ensures forall leader :: !LeadsAlone(view, leader)
  {
    forall leader
      ensures !LeadsAlone(view, leader)
    {
      LeadersLead(view, leader);
    }
  }

  /** A collection either yields an observation or leaves the workflow with an exception. */
  datatype Poll<+T> = Seen(value: T) | PollRaised(error: Exception)

  lemma OnlyLeader(leaders: set<Ip>, leader: Ip)
    requires |leaders| == 1 && leader in leaders
    ensures leaders == {leader}
  {
    assert |leaders - {leader}| == 0;
    assert leaders == (leaders - {leader}) + {leader};
  }

  // ----- verdicts of one poll

  ghost predicate ShowsRejoin(view: ClusterObservation, leader: Ip, target: Ip, expected: seq<Ip>) {
    && view.membershipComplete
    && view.source == leader
    && LeadsAlone(view, leader)
    && target in view.members && view.members[target].connected
    && EveryoneConnected(view, expected)
  }

  ghost predicate ShowsNormal(mm: MmObservation, cluster: ClusterObservation, leader: Ip, expected: seq<Ip>) {
    && mm.complete && EveryoneUp(mm, expected)
    && cluster.membershipComplete && cluster.distributionComplete
    && LeadsAlone(cluster, leader)
    && EveryoneConnected(cluster, expected)
    && EveryoneCounted(cluster, expected)
  }

  // ----- the final gate

  ghost predicate GateHolds(mm: MmObservation, cluster: ClusterObservation, leader: Ip, target: Ip, expected: seq<Ip>) {
    && mm.complete && EveryoneUp(mm, expected)
    && cluster.membershipComplete
    && LeadsAlone(cluster, leader)
    && target in cluster.members && cluster.members[target].connected
    && EveryoneConnected(cluster, expected)
  }

  datatype GateReason =
    | MmUntrusted | NotAllUp | MembershipUntrusted | LeaderChanged | TargetNotConnected | MembersNotConnected

  /** The failure code of a gate whose first reason this is. */
  function GateCode(reason: GateReason, mm: MmObservation, cluster: ClusterObservation): string {
    match reason
    case MmUntrusted => OrElse(mm.errorCode, "MM_FINAL_GATE_UNTRUSTED")
    case NotAllUp => "MM_FINAL_GATE_NOT_ALL_UP"
    case MembershipUntrusted => OrElse(cluster.errorCode, "MEMBERSHIP_FINAL_GATE_UNTRUSTED")
    case LeaderChanged => "LEADER_CHANGED_BEFORE_REBALANCE"
    case TargetNotConnected => "TARGET_NOT_CONNECTED_AT_FINAL_GATE"
    case MembersNotConnected => "MEMBERS_NOT_CONNECTED_AT_FINAL_GATE"
  }

  /** The condition that `reason` says is violated, and all that the gate asks of that source before it. */
  ghost predicate Violates(reason: GateReason, mm: MmObservation, cluster: ClusterObservation,
                           leader: Ip, target: Ip, expected: seq<Ip>) {
    match reason
    case MmUntrusted => !mm.complete
    case NotAllUp => mm.complete && !EveryoneUp(mm, expected)
    case MembershipUntrusted => !cluster.membershipComplete
    case LeaderChanged => cluster.membershipComplete && !LeadsAlone(cluster, leader)
    case TargetNotConnected =>
      && cluster.membershipComplete && LeadsAlone(cluster, leader)
      && !(target in cluster.members && cluster.members[target].connected)
    case MembersNotConnected =>
      && cluster.membershipComplete && LeadsAlone(cluster, leader)
      && target in cluster.members && cluster.members[target].connected
      && !EveryoneConnected(cluster, expected)
  }

  predicate OfMm(reason: GateReason) {
    reason.MmUntrusted? || reason.NotAllUp?
  }

  /** The first reason of a failing gate: one of MM if MM violates anything. */
  ghost predicate FirstReason(reason: GateReason, mm: MmObservation, cluster: ClusterObservation,
                              leader: Ip, target: Ip, expected: seq<Ip>) {
    && Violates(reason, mm, cluster, leader, target, expected)
    && (OfMm(reason) <==> !(mm.complete && EveryoneUp(mm, expected)))
  }

  /** Collects at most one reason per source, MM first; the gate passes without a reason, which is
      exactly when all its conditions hold. */
  method FinalRebalanceGate(mm: MmObservation, cluster: ClusterObservation, leader: Ip, target: Ip, expected: seq<Ip>)
    returns (passed: bool, reasons: seq<GateReason>, code: string)
    ensures passed <==> GateHolds(mm, cluster, leader, target, expected)
    ensures passed <==> reasons == []
    ensures |reasons| <= 2
    ensures forall r :: r in reasons ==> Violates(r, mm, cluster, leader, target, expected)
    ensures reasons != [] ==> FirstReason(reasons[0], mm, cluster, leader, target, expected)
    ensures code == if reasons != [] then GateCode(reasons[0], mm, cluster) else ""
  {
    LeadersLead(cluster, leader);
    reasons := [];
    var codes: seq<string> := [];
    if !mm.complete {
      reasons := [MmUntrusted];
      codes := [if mm.errorCode != "" then mm.errorCode else "MM_FINAL_GATE_UNTRUSTED"];
    } else if !mm.AllUp(expected) {
      reasons := [NotAllUp];
      codes := ["MM_FINAL_GATE_NOT_ALL_UP"];
    }
    if !cluster.membershipComplete {
      reasons := reasons + [MembershipUntrusted];
      codes := codes + [if cluster.errorCode != "" then cluster.errorCode else "MEMBERSHIP_FINAL_GATE_UNTRUSTED"];
    } else if cluster.Leaders() != {leader} {
      reasons := reasons + [LeaderChanged];
      codes := codes + ["LEADER_CHANGED_BEFORE_REBALANCE"];
    } else if !cluster.Connected(target) {
      reasons := reasons + [TargetNotConnected];
      codes := codes + ["TARGET_NOT_CONNECTED_AT_FINAL_GATE"];
    } else if !cluster.AllConnected(expected) {
      reasons := reasons + [MembersNotConnected];
      codes := codes + ["MEMBERS_NOT_CONNECTED_AT_FINAL_GATE"];
    }
    passed := reasons == [];
    code := if codes != [] then codes[0] else "";
  }

  // ----- confirmation by consecutive polls

  /** The last `k` verdicts all name `leader`. */
  ghost predicate Confirmed(verdicts: seq<Option<Ip>>, k: nat, leader: Ip) {
    k <= |verdicts| && forall j :: |verdicts| - k <= j < |verdicts| ==> verdicts[j] == Some(leader)
  }

  ghost predicate NeverConfirmed(verdicts: seq<Option<Ip>>, k: nat) {
    forall m, leader :: 0 <= m <= |verdicts| ==> !Confirmed(verdicts[..m], k, leader)
  }

  /** Confirmation is reached with the last verdict and not before. */
  ghost predicate FirstConfirmed(verdicts: seq<Option<Ip>>, k: nat, leader: Ip) {
    verdicts != [] && Confirmed(verdicts, k, leader) && NeverConfirmed(verdicts[..|verdicts| - 1], k)
  }

  lemma NotYetConfirmed(verdicts: seq<Option<Ip>>, n: nat, k: nat, leader: Ip)
    requires n <= |verdicts| && NeverConfirmed(verdicts, k)
    ensures !Confirmed(verdicts[..n], k, leader)
  {
  }

  /** `stable` is the length of the run of equal verdicts at the end, `leader` the one they name. */
  ghost predicate Streak(verdicts: seq<Option<Ip>>, stable: nat, leader: Ip) {
    && Confirmed(verdicts, stable, leader)
    && (stable < |verdicts| ==> verdicts[|verdicts| - 1 - stable] != Some(leader))
    && (stable == 0 && verdicts != [] ==> verdicts[|verdicts| - 1].None?)
  }

  /** One more verdict extends the streak or starts a new one, as the polling loops compute it. */
  lemma StreakSnoc(verdicts: seq<Option<Ip>>, stable: nat, leader: Ip, verdict: Option<Ip>, k: nat)
    requires Streak(verdicts, stable, leader) && stable < k && NeverConfirmed(verdicts, k)
    ensures
      var next := if verdict.None? then 0 else if stable > 0 && verdict == Some(leader) then stable + 1 else 1;
      var named := if verdict.None? then leader else verdict.value;
      && Streak(verdicts + [verdict], next, named)
      && (next < k ==> NeverConfirmed(verdicts + [verdict], k))
      && (next >= k ==> FirstConfirmed(verdicts + [verdict], k, named))
  {
    var all := verdicts + [verdict];
    assert all[..|verdicts|] == verdicts;
    var next := if verdict.None? then 0 else if stable > 0 && verdict == Some(leader) then stable + 1 else 1;
    if next < k {
      forall l
        ensures !Confirmed(all, k, l)
      {
        StreakTooShort(all, next, if verdict.None? then leader else verdict.value, k, l);
      }
      forall m, l | 0 <= m <= |all|
        ensures !Confirmed(all[..m], k, l)
      {
        if m == |all| {
          assert all[..m] == all;
        } else {
          assert all[..m] == verdicts[..m];
        }
      }
    }
  }

  lemma StreakTooShort(verdicts: seq<Option<Ip>>, stable: nat, leader: Ip, k: nat, other: Ip)
    requires verdicts != [] && Streak(verdicts, stable, leader) && stable < k
    ensures !Confirmed(verdicts, k, other)
  {
    if stable < |verdicts| {
      assert verdicts[|verdicts| - 1] == Some(other) ==> verdicts[|verdicts| - 1 - stable] != Some(other);
    }
  }

  lemma StreakNamesAny(verdicts: seq<Option<Ip>>, leader: Ip, other: Ip)
    requires Streak(verdicts, 0, leader)
    ensures Streak(verdicts, 0, other)
  {
  }

  // ----- bounds on the number of polls

  function CeilDiv(a: nat, b: nat): nat
    requires b > 0
  {
    (a + b - 1) / b
  }

  /** A poll that still starts before the deadline leaves the count within ceil(timeout / interval). */
  lemma PollFits(polls: nat, interval: nat, timeout: nat)
    requires interval > 0 && polls * interval < timeout
    ensures polls + 1 <= CeilDiv(timeout, interval)
  {
  }

  /** It is the least number of intervals that take up the whole time. */
  lemma CeilDivIsLeast(a: nat, b: nat)
    requires b > 0
    ensures CeilDiv(a, b) * b >= a && (CeilDiv(a, b) > 0 ==> (CeilDiv(a, b) - 1) * b < a)
  {
    var q := CeilDiv(a, b);
    assert a + b - 1 == q * b + (a + b - 1) % b;
    assert (q - 1) * b == q * b - b;
  }

  lemma OneMoreInterval(polls: nat, interval: nat)
    ensures (polls + 1) * interval == polls * interval + interval
  {
  }
}
