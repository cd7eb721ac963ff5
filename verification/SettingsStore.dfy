/** The settings store and its staged update, run against file operations that may fail or be the last. */
module SettingsStore {
  import opened Prelude
  import opened SettingsFiles

  datatype Fault = Fine | Fails | CrashesBefore | CrashesAfter

  /** `Crashed`: the process died at some file operation and nothing after it happened. */
  datatype Result = Done | Error | Crashed

  /** There is something to load, or nothing at all, and it is not too large. */
  predicate Readable(seen: Seen) {
    seen.Shows? && (seen.settings.Some? ==> |seen.settings.value| <= MAX_SETTINGS_BYTES)
  }

  /** Every value passed its checks, and the serialised settings are not too large. */
  predicate Storable(content: Bytes, valid: bool) {
    valid && |content| <= MAX_SETTINGS_BYTES
  }

  lemma WithinTheLimit(seen: Seen, content: Bytes, valid: bool)
    ensures Readable(seen) <==> seen == Shows(None) || (seen.Shows? && seen.settings.Some? && |seen.settings.value| < 262_145)
    ensures Storable(content, valid) <==> valid && |content| < 262_145
  {
  }

  class SettingsStore {
    var files: Files
    var crashed: bool
    var used: nat
    const faults: nat -> Fault

    constructor (files: Files, faults: nat -> Fault)
      ensures this.files == files && !crashed && this.faults == faults
    {
      this.files, this.faults, crashed, used := files, faults, false, 0;
    }

    /** No file operation from now on fails or is the last. */
    ghost predicate Smooth()
      reads this
    {
      forall k :: used <= k ==> faults(k).Fine?
    }

    /** Some file operation since the given one failed. */
    ghost predicate FailedSince(from: nat)
      reads this
    {
      exists k :: from <= k < used && faults(k).Fails?
    }

    /** One atomic file operation; removing a marker that is not there fails as well. */
    method Attempt(op: Op) returns (result: Result)
      requires !crashed
      modifies this`files, this`crashed, this`used
      ensures used == old(used) + 1
      ensures result == match faults(old(used))
                        case CrashesBefore => Crashed
                        case Fails => Error
                        case _ => if op.DropMarker? && old(files).marker.None? then Error
                                  else if faults(old(used)).Fine? then Done else Crashed
      ensures files == if result.Error? || faults(old(used)).CrashesBefore? then old(files) else Do(old(files), op)
      ensures crashed <==> result.Crashed?
      ensures old(Smooth()) ==> Smooth() && result == if op.DropMarker? && old(files).marker.None? then Error else Done
    {
      var fault := faults(used);
      used := used + 1;
      if fault.CrashesBefore? {
        crashed := true;
        return Crashed;
      }
      if fault.Fails? || (op.DropMarker? && files.marker.None?) {
        return Error;
      }
      files := Do(files, op);
      crashed := fault.CrashesAfter?;
      result := if crashed then Crashed else Done;
    }

    /** A leftover rollback copy has no authority; failing to remove it is not an error. */
    method RemoveOrphanRollback() returns (result: Result)
      requires !crashed
      modifies this`files, this`crashed, this`used
      ensures files == old(files) || files == old(files).(rollback := None)
      ensures result.Done? || result.Crashed?
      ensures result.Done? && files.rollback.Some? ==> FailedSince(old(used))
      ensures (crashed <==> result.Crashed?) && used == old(used) + 1
      ensures old(Smooth()) ==> Smooth() && result.Done? && files.rollback.None?
    {
      result := Attempt(DropRollback);
      if result.Error? {
        result := Done;
      }
    }

    /** Restores what the marker says; whatever fails or crashes, the next load sees the same as before. */
    method RecoverInterruptedUpdate() returns (result: Result)
      requires !crashed
      modifies this`files, this`crashed, this`used
      ensures Meaning(files) == old(Meaning(files))
      ensures crashed <==> result.Crashed?
      ensures result.Done? ==> files.marker.None? && Meaning(files) == Shows(files.settings)
      ensures old(files).marker.None? ==> !result.Error? && files.settings == old(files).settings
      ensures old(Meaning(files)).Unrecoverable? ==> result.Error? && files == old(files)
      ensures CutOff(old(files), RecoverOps(old(files)), files)
      ensures old(used) <= used && (result.Error? && old(Meaning(files)).Shows? ==> FailedSince(old(used)))
      ensures result.Done? && files.rollback.Some? ==> FailedSince(old(used))
      ensures old(Smooth()) ==> Smooth() && result == if old(Meaning(files)).Shows? then Done else Error
    {
      CutOffAt(files, RecoverOps(files));
      if files.marker.None? {
        result := RemoveOrphanRollback();
        return;
      }
      match files.marker.value
      case Malformed =>
        return Error;
      case Marker(originalExists) =>
        if originalExists {
          if files.rollback.None? || |files.rollback.value| > MAX_SETTINGS_BYTES {
            return Error;
          }
          result := Attempt(PutSettings(files.rollback.value));
        } else {
          result := Attempt(DropSettings);
        }
        if !result.Done? {
          return;
        }
        result := Attempt(DropMarker);
        if !result.Done? {
          return;
        }
        result := RemoveOrphanRollback();
    }

    /** Loading never changes what is seen; it returns exactly that, if it is readable and small enough. */
    method Load() returns (result: Result, settings: Option<Bytes>)
      requires !crashed
      modifies this`files, this`crashed, this`used
      ensures Meaning(files) == old(Meaning(files))
      ensures crashed <==> result.Crashed?
      ensures result.Done? ==> old(Meaning(files)) == Shows(settings)
      ensures result.Done? ==> (settings.Some? ==> |settings.value| <= MAX_SETTINGS_BYTES)
      ensures old(Smooth()) ==> Smooth() && result == if Readable(old(Meaning(files))) then Done else Error
    {
      settings := None;
      result := RecoverInterruptedUpdate();
      if result.Done? {
        settings := files.settings;
        if settings.Some? && |settings.value| > MAX_SETTINGS_BYTES {
          result := Error;
        }
      }
    }

    /** A direct save switches at once: the next load sees the old file or the new one, nothing else. */
    method Save(content: Bytes, valid: bool) returns (result: Result)
      requires !crashed
      modifies this`files, this`crashed, this`used
      ensures Meaning(files) == old(Meaning(files)) || (Meaning(files) == Shows(Some(content)) && valid)
      ensures result.Done? ==> Meaning(files) == Shows(Some(content))
      ensures result.Error? ==> Meaning(files) == old(Meaning(files))
      ensures crashed <==> result.Crashed?
      ensures old(Smooth()) ==>
        Smooth() && result == if old(Meaning(files)).Shows? && Storable(content, valid) then Done else Error
    {
      result := RecoverInterruptedUpdate();
      if !result.Done? {
        return;
      }
      if !valid || |content| > MAX_SETTINGS_BYTES {
        return Error;
      }
      result := Attempt(PutSettings(content));
    }

    /** The staging proper, over a recovered state. */
    method StageFiles(content: Bytes, valid: bool) returns (result: Result)
      requires !crashed && Stageable(files)
      modifies this`files, this`crashed, this`used
      ensures CutOff(old(files), BeginOps(old(files), content), files)
      ensures Meaning(files) == old(Meaning(files))
      ensures result.Error? ==> files.settings == old(files).settings
      ensures old(used) <= used
      ensures crashed <==> result.Crashed?
      ensures result.Done? ==> files.settings == Some(content) && files.marker == Some(Marker(old(files).settings.Some?))
      ensures old(Smooth()) ==> Smooth() && result == if Storable(content, valid) then Done else Error
    {
      CutOffAt(files, BeginOps(files, content));
      if files.settings.Some? {
        result := Attempt(PutRollback(files.settings.value));
        if !result.Done? {
          return;
        }
      }
      result := Attempt(PutMarker(files.settings.Some?));
      if !result.Done? {
        return;
      }
      if !valid || |content| > MAX_SETTINGS_BYTES {
        return Error;
      }
      result := Attempt(PutSettings(content));
    }

    /** Stages an update. However far it gets, the next load still sees the old file; if it succeeds, the
        new file lies in place behind the marker. */
    method BeginUpdate(content: Bytes, valid: bool) returns (result: Result, originalExists: bool)
      requires !crashed
      modifies this`files, this`crashed, this`used
      ensures Meaning(files) == old(Meaning(files))
      ensures result.Error? && old(files).marker.None? ==> files.settings == old(files).settings
      ensures old(used) <= used
      ensures crashed <==> result.Crashed?
      ensures result.Done? ==>
        && files.settings == Some(content) && files.marker == Some(Marker(originalExists))
        && Meaning(files).Shows? && (originalExists <==> Meaning(files).settings.Some?)
      ensures old(Smooth()) ==>
        Smooth() && result == if Readable(old(Meaning(files))) && Storable(content, valid) then Done else Error
    {
      originalExists := false;
      result := RecoverInterruptedUpdate();
      if !result.Done? {
        return;
      }
      originalExists := files.settings.Some?;
      if originalExists && |files.settings.value| > MAX_SETTINGS_BYTES {
        return Error, originalExists;
      }
      result := StageFiles(content, valid);
    }
  }

  class SettingsUpdate {
    const store: SettingsStore
    var finished: bool

    constructor (store: SettingsStore)
      ensures this.store == store && !finished
    {
      this.store, finished := store, false;
    }

    /** Removing the marker is the commit: from then on, and not before, the settings file is what the next
        load sees. If the marker is gone already, the commit fails and changes nothing. */
    method Commit() returns (result: Result)
      requires !store.crashed
      modifies this`finished, store`files, store`crashed, store`used
      ensures old(finished) ==> result.Done? && store.files == old(store.files)
      ensures !old(finished) ==>
        Meaning(store.files) == if store.files.marker.None? && old(store.files).marker.Some?
                                then Shows(old(store.files).settings) else old(Meaning(store.files))
      ensures result.Done? && !old(finished) ==> store.files.marker.None? && old(store.files).marker.Some? && finished
      ensures result.Error? ==> store.files == old(store.files)
      ensures old(store.files).marker.Some? ==> CutOff(old(store.files), COMMIT_OPS, store.files)
      ensures store.crashed <==> result.Crashed?
      ensures old(store.used) <= store.used
      ensures !result.Done? ==> finished == old(finished)
      ensures result.Error? && old(store.files).marker.Some? ==> store.FailedSince(old(store.used))
      ensures result.Done? && !old(finished) && store.files.rollback.Some? ==> store.FailedSince(old(store.used))
      ensures old(store.Smooth()) && !old(finished) ==>
        store.Smooth() && result == if old(store.files).marker.Some? then Done else Error
    {
      CutOffAt(store.files, COMMIT_OPS);
      if finished {
        return Done;
      }
      result := store.Attempt(DropMarker);
      if !result.Done? {
        return;
      }
      result := store.RemoveOrphanRollback();
      if result.Done? {
        finished := true;
      }
    }

    /** Rolling back keeps what is seen; if it succeeds, the file itself is the old one again. */
    method Rollback() returns (result: Result)
      requires !store.crashed
      modifies this`finished, store`files, store`crashed, store`used
      ensures Meaning(store.files) == old(Meaning(store.files))
      ensures result.Done? && !old(finished) ==>
        finished && store.files.marker.None? && Meaning(store.files) == Shows(store.files.settings)
      ensures store.crashed <==> result.Crashed?
      ensures old(store.used) <= store.used
      ensures result.Error? && old(Meaning(store.files)).Shows? ==> store.FailedSince(old(store.used))
      ensures result.Done? && !old(finished) && store.files.rollback.Some? ==> store.FailedSince(old(store.used))
      ensures old(store.Smooth()) && !old(finished) ==>
        store.Smooth() && result == if old(Meaning(store.files)).Shows? then Done else Error
    {
      if finished {
        return Done;
      }
      result := store.RecoverInterruptedUpdate();
      if result.Done? {
        finished := true;
      }
    }
  }

  /** A complete update under arbitrary faults: the next load sees the old file or the new one, and the new
      one exactly if the marker is gone after the commit was tried; without faults, exactly if the old file can
      be read and the new one is valid and not too large. A new file that is left lying behind the marker takes a
      crash or two failures. */
  method UpdateSettings(store: SettingsStore, content: Bytes, valid: bool) returns (committed: bool)
    requires !store.crashed && Meaning(store.files).Shows?
    modifies store`files, store`crashed, store`used
    ensures Meaning(store.files) == if committed then Shows(Some(content)) else old(Meaning(store.files))
    ensures old(store.Smooth()) ==>
      (committed <==> Readable(old(Meaning(store.files))) && Storable(content, valid))
    ensures old(store.files).marker.None? && old(store.files).settings != Some(content)
            && store.files.marker.Some? && store.files.settings == Some(content) && !store.crashed ==>
      exists j, k :: old(store.used) <= j < k < store.used && store.faults(j).Fails? && store.faults(k).Fails?
  {
    var result, originalExists := store.BeginUpdate(content, valid);
    if !result.Done? {
      return false;
    }
    var update := new SettingsUpdate(store);
    result := update.Commit();
    committed := store.files.marker.None?;
    if result.Error? {
      ghost var failed :| old(store.used) <= failed < store.used && store.faults(failed).Fails?;
      result := update.Rollback();
      committed := false;
    }
  }
}
