/** The start guards: what one health cycle observes, and when it starts a workflow. */
module RemediationController {
  import opened Prelude
  import opened RemediationTypes
  import opened RemediationStore
  import opened RemediationProtocol
  import opened RemediationEvidence

  /** A registered device as a health cycle reports it; `status` is missing if the text is blank. */
  datatype Device = Device(ip: Ip, mmPresent: bool, status: Option<MmState>, controllerUp: bool)

  predicate TrustedMmCycle(devices: seq<Device>, mmErrors: bool) {
    !mmErrors && devices != [] && forall d :: d in devices ==> d.mmPresent && d.status.Some?
  }

  predicate OperationallyHealthy(d: Device) {
    d.status == Some(Up) && d.controllerUp
  }

  function Downs(devices: seq<Device>): seq<Ip> {
    if devices == [] then []
    else
      var last := devices[|devices| - 1];
      Downs(devices[..|devices| - 1]) + if last.status == Some(Down) then [last.ip] else []
  }

  /** The store after the cycle's recovery observations, device by device. */
  function AfterObservations(db: Db, devices: seq<Device>, required: nat, durable: nat -> bool): Db {
    if devices == [] then db
    else
      var last := |devices| - 1;
      var earlier := AfterObservations(db, devices[..last], required, durable);
      if devices[last].ip != "" && durable(last)
      then Observed(earlier, devices[last].ip, OperationallyHealthy(devices[last]), required) else earlier
  }

  lemma ObservationIsAStep(c: Config, s: Sys, ip: Ip, healthy: bool)
    requires s.up && s.live.None?
    ensures
      var step := Observe(ip, healthy, true);
      && Enabled(c, s, step)
      && Apply(c, s, step).db == Observed(s.db, ip, healthy, c.settings.recoveryUnlockConfirmations)
      && Apply(c, s, step).up && Apply(c, s, step).live.None?
      && Apply(c, s, step).now == s.now && Apply(c, s, step).begun == s.begun
  {
  }

  /** The observations of one cycle are steps of the protocol. */
  lemma {:induction false} CycleIsARun(c: Config, s: Sys, devices: seq<Device>, durable: nat -> bool)
    returns (actions: seq<Action>, t: Sys)
    requires s.up && s.live.None?
    ensures Execute(c, s, actions) == Some(t) && t.up && t.live.None? && t.now == s.now && t.begun == s.begun
    ensures t.db == AfterObservations(s.db, devices, c.settings.recoveryUnlockConfirmations, durable)
  {
    if devices == [] {
      actions, t := [], s;
    } else {
      var last := |devices| - 1;
      actions, t := CycleIsARun(c, s, devices[..last], durable);
      if devices[last].ip != "" && durable(last) {
        var step := Observe(devices[last].ip, OperationallyHealthy(devices[last]), true);
        ObservationIsAStep(c, t, devices[last].ip, OperationallyHealthy(devices[last]));
        hide Execute, Enabled, Apply, Observed, AfterObservations;
        ExecuteSnoc(c, s, actions, t, step);
        actions, t := actions + [step], Apply(c, t, step);
      }
    }
  }

  /** One more device counts as healthy exactly if MM reports it up and its controller answers. */
  lemma OneMoreDevice(db: Db, devices: seq<Device>, d: Device, required: nat, durable: nat -> bool)
    ensures
      var before := AfterObservations(db, devices, required, durable);
      AfterObservations(db, devices + [d], required, durable)
      == if d.ip != "" && durable(|devices|) then Observed(before, d.ip, d.status == Some(Up) && d.controllerUp, required)
         else before
  {
    assert (devices + [d])[..|devices|] == devices;
  }

  /** A lock that a cycle gives up belongs to a device which that cycle reports up in MM and reachable as a
      controller. Runs, events and the owner of a lock are never touched. */
  lemma {:induction false} OnlyHealthUnlocks(db: Db, devices: seq<Device>, required: nat, durable: nat -> bool, ip: Ip)
    ensures
      var t := AfterObservations(db, devices, required, durable);
      && t.runs == db.runs && t.events == db.events && t.locks.Keys == db.locks.Keys
      && (ip in db.locks ==> t.locks[ip].runId == db.locks[ip].runId)
      && (ip in db.locks && t.locks[ip].active ==> db.locks[ip].active)
      && (ip in db.locks && db.locks[ip].active && !t.locks[ip].active ==>
            exists i :: 0 <= i < |devices| && devices[i].ip == ip && devices[i].status == Some(Up) && devices[i].controllerUp)
  {
    if devices != [] {
      var last := |devices| - 1;
      OnlyHealthUnlocks(db, devices[..last], required, durable, ip);
      assert forall i :: 0 <= i < last ==> devices[..last][i] == devices[i];
    }
  }

  /** Exactly the device at place `i` is reported down. */
  ghost predicate OneDownAt(devices: seq<Device>, i: nat, ip: Ip) {
    && i < |devices| && devices[i].ip == ip
    && forall j :: 0 <= j < |devices| ==> (devices[j].status == Some(Down) <==> j == i)
  }

  lemma {:induction false} NoDowns(devices: seq<Device>)
    ensures Downs(devices) == [] <==> forall j :: 0 <= j < |devices| ==> devices[j].status != Some(Down)
  {
    if devices != [] {
      var last := |devices| - 1;
      NoDowns(devices[..last]);
      assert forall j :: 0 <= j < last ==> devices[..last][j] == devices[j];
    }
  }

  lemma {:induction false} DownsAlone(devices: seq<Device>, ip: Ip)
    ensures Downs(devices) == [ip] <==> exists i: nat :: OneDownAt(devices, i, ip)
  {
    if devices != [] {
      var last := |devices| - 1;
      var init := devices[..last];
      NoDowns(init);
      DownsAlone(init, ip);
      assert forall j :: 0 <= j < last ==> init[j] == devices[j];
      if devices[last].status == Some(Down) {
        assert Downs(devices) == [ip] ==> |Downs(init)| == 0 && Downs(devices)[0] == devices[last].ip;
        assert OneDownAt(devices, last, ip) <==> Downs(init) == [] && devices[last].ip == ip;
        assert forall i: nat | i < last :: !OneDownAt(devices, i, ip);
      } else {
        assert forall i: nat :: OneDownAt(devices, i, ip) <==> OneDownAt(init, i, ip);
      }
    }
  }

  /** All guards hold for starting a workflow on this target, over the store as it is: MM told of every
      registered device, without an error, and of exactly one that it is down. */
  ghost predicate Guards(free: bool, devices: seq<Device>, mmErrors: bool, ip: Ip, db: Db, settings: Settings, now: int) {
    && free && !mmErrors && (forall d :: d in devices ==> d.mmPresent && d.status.Some?)
    && (exists i: nat :: OneDownAt(devices, i, ip)) && ip != ""
    && BreakerAllows(db, ip, settings.cooldownSeconds, settings.maxActions24h, now)
  }

  // ----- the feature switch

  /** What the slots keep: the setting in memory, a running workflow, the shutdown, and what the panel shows. */
  datatype Feature = Feature(enabled: bool, active: bool, closing: bool, shown: bool)

  /** `Cycled(true)` starts a workflow; `NotStarted` follows it if the worker could not be queued. */
  datatype Slot =
    | Toggled(available: bool, confirmed: bool, saved: bool)
    | Cycled(started: bool)
    | NotStarted
    | Finished(completed: bool)
    | WorkerFailed
    | CloseRequested

  /** A click on the panel's switch turns it on and is confirmed by the operator. */
  predicate TurnsOn(f: Feature, slot: Slot) {
    slot.Toggled? && !f.shown && slot.available && slot.confirmed
  }

  predicate TurnsOnUnsaved(f: Feature, slot: Slot) {
    TurnsOn(f, slot) && !slot.saved
  }

  predicate MayHappen(f: Feature, slot: Slot) {
    match slot
    case Cycled(started) => started ==> f.enabled && !f.active && !f.closing
    case NotStarted => f.active
    case Finished(_) => f.active
    case WorkerFailed => f.active
    case _ => true
  }

  function AfterSlot(f: Feature, slot: Slot, pause: bool): Feature {
    match slot
    case Toggled(_, _, saved) =>
      if f.shown then f.(enabled := false, shown := false)
      else if TurnsOn(f, slot) then f.(enabled := true, shown := saved)
      else f
    case Cycled(started) => f.(active := f.active || started)
    case NotStarted => f.(active := false)
    case Finished(completed) =>
      if completed || !pause then f.(active := false) else f.(active := false, enabled := false, shown := false)
    case WorkerFailed => f.(active := false, enabled := false, shown := false)
    case CloseRequested => f.(closing := true)
  }

  /** The states of the feature along a list of slots, or `None` if one could not happen. */
  function Along(f: Feature, slots: seq<Slot>, pause: bool): Option<Feature> {
    if slots == [] then Some(f)
    else
      match Along(f, slots[..|slots| - 1], pause)
      case None => None
      case Some(m) =>
        var slot := slots[|slots| - 1];
        if MayHappen(m, slot) then Some(AfterSlot(m, slot, pause)) else None
  }

  lemma {:induction false} AlongPrefix(f: Feature, slots: seq<Slot>, pause: bool, n: nat)
    requires Along(f, slots, pause).Some? && n <= |slots|
    ensures Along(f, slots[..n], pause).Some?
  {
    if n == |slots| {
      assert slots[..n] == slots;
    } else {
      var init := slots[..|slots| - 1];
      AlongPrefix(f, init, pause, n);
      assert init[..n] == slots[..n];
    }
  }

  function At(f: Feature, slots: seq<Slot>, pause: bool, n: nat): Feature
    requires Along(f, slots, pause).Some? && n <= |slots|
  {
    AlongPrefix(f, slots, pause, n);
    Along(f, slots[..n], pause).value
  }

  lemma OneSlot(f: Feature, slots: seq<Slot>, pause: bool, n: nat)
    requires Along(f, slots, pause).Some? && n < |slots|
    ensures MayHappen(At(f, slots, pause, n), slots[n])
    ensures At(f, slots, pause, n + 1) == AfterSlot(At(f, slots, pause, n), slots[n], pause)
  {
    AlongPrefix(f, slots, pause, n + 1);
    AlongPrefix(f, slots, pause, n);
    assert slots[..n + 1][..n] == slots[..n];
  }

  /** A worker that fails, or a workflow that does not complete while the pause is configured, switches the
      feature off, and no workflow starts until the operator switches it on again. */
  lemma {:induction false} NoStartUntilResumed(f: Feature, slots: seq<Slot>, pause: bool, i: nat, j: nat)
    requires Along(f, slots, pause).Some? && i < j < |slots|
    requires slots[i].WorkerFailed? || (pause && slots[i] == Finished(false))
    requires forall k :: i < k < j ==> !TurnsOn(At(f, slots, pause, k), slots[k])
    ensures !At(f, slots, pause, j).enabled && slots[j] != Cycled(true)
    decreases j
  {
    OneSlot(f, slots, pause, j);
    if j == i + 1 {
      OneSlot(f, slots, pause, i);
    } else {
      NoStartUntilResumed(f, slots, pause, i, j - 1);
      OneSlot(f, slots, pause, j - 1);
    }
  }

  /** Between two starts the first workflow has ended, or its worker never ran. */
  lemma {:induction false} OneWorkflowAtATime(f: Feature, slots: seq<Slot>, pause: bool, i: nat, j: nat)
    requires Along(f, slots, pause).Some? && i < j < |slots|
    requires slots[i] == Cycled(true)
    ensures At(f, slots, pause, j).active
      || exists k :: i < k < j && (slots[k].Finished? || slots[k].WorkerFailed? || slots[k].NotStarted?)
    ensures slots[j] == Cycled(true) ==>
      exists k :: i < k < j && (slots[k].Finished? || slots[k].WorkerFailed? || slots[k].NotStarted?)
    decreases j
  {
    OneSlot(f, slots, pause, j);
    if j == i + 1 {
      OneSlot(f, slots, pause, i);
    } else {
      OneWorkflowAtATime(f, slots, pause, i, j - 1);
      OneSlot(f, slots, pause, j - 1);
    }
  }

  predicate Misleads(f: Feature) {
    f.enabled && !f.shown
  }

  /** What ends or corrects a switch that was turned on. */
  predicate SetsAgain(f: Feature, slot: Slot, pause: bool) {
    TurnsOn(f, slot) || slot.WorkerFailed? || (pause && slot == Finished(false))
  }

  /** The switch was turned on at `i` without being saved, and nothing up to `n` has set it again. */
  ghost predicate UnsavedUntil(f: Feature, slots: seq<Slot>, pause: bool, i: nat, n: nat)
    requires Along(f, slots, pause).Some? && i < n <= |slots|
  {
    && TurnsOnUnsaved(At(f, slots, pause, i), slots[i])
    && forall k :: i < k < n ==> !SetsAgain(At(f, slots, pause, k), slots[k], pause)
  }

  ghost predicate Unsaved(f: Feature, slots: seq<Slot>, pause: bool, n: nat)
    requires Along(f, slots, pause).Some? && n <= |slots|
  {
    exists i :: 0 <= i < n && UnsavedUntil(f, slots, pause, i, n)
  }

  lemma SlotMisleads(f: Feature, slot: Slot, pause: bool)
    requires f.shown ==> f.enabled
    ensures
      var g := AfterSlot(f, slot, pause);
      && (g.shown ==> g.enabled)
      && (Misleads(g) <==> TurnsOnUnsaved(f, slot) || (Misleads(f) && !SetsAgain(f, slot, pause)))
  {
  }

  lemma UnsavedOneMore(f: Feature, slots: seq<Slot>, pause: bool, n: nat)
    requires Along(f, slots, pause).Some? && n < |slots|
    ensures Unsaved(f, slots, pause, n + 1)
      <==> TurnsOnUnsaved(At(f, slots, pause, n), slots[n])
           || (Unsaved(f, slots, pause, n) && !SetsAgain(At(f, slots, pause, n), slots[n], pause))
  {
    hide Along, At, TurnsOnUnsaved, SetsAgain;
    if TurnsOnUnsaved(At(f, slots, pause, n), slots[n]) {
      assert UnsavedUntil(f, slots, pause, n, n + 1);
    }
    if i :| 0 <= i < n && UnsavedUntil(f, slots, pause, i, n) {
      assert !SetsAgain(At(f, slots, pause, n), slots[n], pause) ==> UnsavedUntil(f, slots, pause, i, n + 1);
    }
    var m := n + 1;
    if i :| 0 <= i < m && UnsavedUntil(f, slots, pause, i, m) {
      if i < n {
        assert UnsavedUntil(f, slots, pause, i, n) && !SetsAgain(At(f, slots, pause, n), slots[n], pause);
      }
    }
  }

  /** The panel shows the setting, except after the switch was turned on and could not be saved: then the
      feature is on although the panel shows it off. */
  lemma {:induction false} PanelMisleadsIff(f: Feature, slots: seq<Slot>, pause: bool, n: nat)
    requires Along(f, slots, pause).Some? && n <= |slots| && f.enabled == f.shown
    ensures At(f, slots, pause, n).shown ==> At(f, slots, pause, n).enabled
    ensures Misleads(At(f, slots, pause, n)) <==> Unsaved(f, slots, pause, n)
  {
    if n > 0 {
      PanelMisleadsIff(f, slots, pause, n - 1);
      OneSlot(f, slots, pause, n - 1);
      SlotMisleads(At(f, slots, pause, n - 1), slots[n - 1], pause);
      UnsavedOneMore(f, slots, pause, n - 1);
      hide Along, At, TurnsOnUnsaved, SetsAgain, Unsaved, AfterSlot, MayHappen;
    }
  }

  class FeatureController {
    const config: Config
    const pauseAfterNonSuccess: bool
    const repository: Repository
    var enabled: bool
    var active: bool
    var closing: bool
    var shown: bool

    constructor (config: Config, pauseAfterNonSuccess: bool, repository: Repository, enabled: bool)
      ensures this.config == config && this.repository == repository && this.pauseAfterNonSuccess == pauseAfterNonSuccess
      ensures State() == Feature(enabled, false, false, enabled)
    {
      this.config, this.repository, this.pauseAfterNonSuccess := config, repository, pauseAfterNonSuccess;
      this.enabled, active, closing, shown := enabled, false, false, enabled;
    }

    function State(): Feature
      reads this
    {
      Feature(enabled, active, closing, shown)
    }

    /** The click flips what the panel shows; `saved` is the settings file's answer. */
    method OnToggle(available: bool, confirmed: bool, saved: bool)
      modifies this`enabled, this`shown
      ensures MayHappen(old(State()), Toggled(available, confirmed, saved))
      ensures State() == AfterSlot(old(State()), Toggled(available, confirmed, saved), pauseAfterNonSuccess)
      ensures enabled == (!old(shown) && (old(enabled) || (available && confirmed)))
      ensures shown == (!old(shown) && available && confirmed && saved)
    {
      shown := !shown;
      if shown {
        if !available || !confirmed {
          shown := false;
          return;
        }
        enabled := true;
        if !saved {
          shown := false;
        }
      } else {
        enabled := false;
      }
    }

    method ObserveRegistered(devices: seq<Device>, durable: nat -> bool)
      modifies repository
      ensures repository.Contents()
        == AfterObservations(old(repository.Contents()), devices, config.settings.recoveryUnlockConfirmations, durable)
    {
      for i := 0 to |devices|
        invariant repository.Contents() == AfterObservations(old(repository.Contents()), devices[..i],
                                                             config.settings.recoveryUnlockConfirmations, durable)
      {
        assert devices[..i + 1][..i] == devices[..i];
        if devices[i].ip != "" {
          var released := repository.ObserveTargetRecovery(devices[i].ip,
                                                           devices[i].status == Some(Up) && devices[i].controllerUp,
                                                           config.settings.recoveryUnlockConfirmations, durable(i));
        }
      }
      assert devices[..|devices|] == devices;
    }

    /** Observes every registered device of a trusted cycle, then starts a workflow exactly if all guards
        hold of the store as it is after these observations. */
    method OnHealthCycle(devices: seq<Device>, mmErrors: bool, now: int, durable: nat -> bool) returns (started: Option<Ip>)
      modifies this`active, repository
      ensures repository.Contents()
        == if TrustedMmCycle(devices, mmErrors)
           then AfterObservations(old(repository.Contents()), devices, config.settings.recoveryUnlockConfirmations, durable)
           else old(repository.Contents())
      ensures active == (old(active) || started.Some?)
      ensures MayHappen(old(State()), Cycled(started.Some?))
      ensures State() == AfterSlot(old(State()), Cycled(started.Some?), pauseAfterNonSuccess)
      ensures forall ip :: started == Some(ip) <==>
        Guards(old(enabled) && !old(active) && !old(closing), devices, mmErrors, ip, repository.Contents(), config.settings, now)
    {
      if mmErrors || devices == [] || exists d :: d in devices && (!d.mmPresent || d.status.None?) {
        return None;
      }
      ObserveRegistered(devices, durable);
      if !enabled || active || closing {
        return None;
      }
      var downs := Downs(devices);
      forall ip, i: nat | OneDownAt(devices, i, ip)
        ensures downs == [ip]
      {
        DownsAlone(devices, ip);
      }
      if |downs| != 1 || downs[0] == "" {
        return None;
      }
      DownsAlone(devices, downs[0]);
      var reason := repository.CircuitBreakerReason(downs[0], config.settings.cooldownSeconds,
                                                    config.settings.maxActions24h, now);
      if !reason.Clear? {
        return None;
      }
      active := true;
      started := Some(downs[0]);
    }

    /** Only now may another workflow start; a non-success pauses the feature if it is so configured. */
    method OnWorkflowFinished(outcome: Outcome)
      modifies this`active, this`enabled, this`shown
      ensures State() == AfterSlot(old(State()), Finished(outcome.Completed?), pauseAfterNonSuccess)
      ensures !active
      ensures enabled == (old(enabled) && (outcome == Completed || !pauseAfterNonSuccess))
      ensures shown == (old(shown) && (outcome == Completed || !pauseAfterNonSuccess))
    {
      active := false;
      if pauseAfterNonSuccess && !outcome.Completed? {
        enabled := false;
        shown := false;
      }
    }

    method OnWorkflowFailed()
      modifies this`active, this`enabled, this`shown
      ensures State() == AfterSlot(old(State()), WorkerFailed, pauseAfterNonSuccess)
      ensures !active && !enabled && !shown
    {
      active, enabled, shown := false, false, false;
    }

    method CouldNotStart()
      modifies this`active
      ensures State() == AfterSlot(old(State()), NotStarted, pauseAfterNonSuccess) && !active
    {
      active := false;
    }

    method RequestClose()
      modifies this`closing
      ensures MayHappen(old(State()), CloseRequested) && closing
      ensures State() == AfterSlot(old(State()), CloseRequested, pauseAfterNonSuccess)
    {
      closing := true;
    }
  }

  /** What the guards let through is a start that the protocol permits. */
  lemma GuardedStartIsPermitted(c: Config, free: bool, devices: seq<Device>, mmErrors: bool, ip: Ip, s: Sys, id: RunId, lag: nat)
    requires Guards(free, devices, mmErrors, ip, s.db, c.settings, s.now)
    requires s.up && s.live.None? && id !in s.begun
    ensures Enabled(c, s, Begin(id, ip, lag))
  {
  }
}
