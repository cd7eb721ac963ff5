/** The three-file settings update: settings, rollback copy and marker, each replaced or removed atomically.

    A crash may fall between any two of these file operations, and any of them may fail. `Meaning` is what
    the next successful load sees; the marker alone decides between the rollback copy and the settings. */
module SettingsFiles {
  import opened Prelude

  type Bytes = string

  const MAX_SETTINGS_BYTES: nat := 256 * 1024

  datatype Marker = Marker(originalExists: bool) | Malformed

  datatype Files = Files(settings: Option<Bytes>, rollback: Option<Bytes>, marker: Option<Marker>)

  /** Either a readable state (perhaps without a settings file), or one that recovery refuses to touch. */
  datatype Seen = Shows(settings: Option<Bytes>) | Unrecoverable

  function Meaning(f: Files): Seen {
    match f.marker
    case None => Shows(f.settings)
    case Some(Malformed) => Unrecoverable
    case Some(Marker(false)) => Shows(None)
    case Some(Marker(true)) =>
      if f.rollback.Some? && |f.rollback.value| <= MAX_SETTINGS_BYTES then Shows(f.rollback) else Unrecoverable
  }

  /** Without a marker the settings file is seen, with one the copy that it vouches for; a copy of up to 262144
      bytes is enough. */
  lemma MarkerDecides(f: Files)
    ensures f.marker == None ==> Meaning(f) == Shows(f.settings)
    ensures f.marker == Some(Marker(false)) ==> Meaning(f) == Shows(None)
    ensures f.marker == Some(Malformed) ==> Meaning(f) == Unrecoverable
    ensures f.marker == Some(Marker(true)) ==>
      Meaning(f) == if f.rollback == None || |f.rollback.value| >= 262_145 then Unrecoverable else Shows(f.rollback)
  {
  }

  // ----- the file operations of each procedure

  datatype Op =
    | PutSettings(content: Bytes)
    | PutRollback(content: Bytes)
    | PutMarker(originalExists: bool)
    | DropSettings
    | DropRollback
    | DropMarker

  function Do(f: Files, op: Op): Files {
    match op
    case PutSettings(content) => f.(settings := Some(content))
    case PutRollback(content) => f.(rollback := Some(content))
    case PutMarker(originalExists) => f.(marker := Some(Marker(originalExists)))
    case DropSettings => f.(settings := None)
    case DropRollback => f.(rollback := None)
    case DropMarker => f.(marker := None)
  }

  function Exec(f: Files, ops: seq<Op>): Files
    decreases ops
  {
    if ops == [] then f else Exec(Do(f, ops[0]), ops[1..])
  }

  /** `g` is what is left of `f` after some first part of the operations took effect. */
  ghost predicate CutOff(f: Files, ops: seq<Op>, g: Files) {
    exists n: nat :: n <= |ops| && g == Exec(f, ops[..n])
  }

  lemma CutOffAt(f: Files, ops: seq<Op>)
    requires |ops| <= 3
    ensures CutOff(f, ops, f)
    ensures |ops| > 0 ==> CutOff(f, ops, Do(f, ops[0]))
    ensures |ops| > 1 ==> CutOff(f, ops, Do(Do(f, ops[0]), ops[1]))
    ensures |ops| > 2 ==> CutOff(f, ops, Do(Do(Do(f, ops[0]), ops[1]), ops[2]))
  {
    assert ops[..0] == [];
    if |ops| > 0 {
      ExecSteps(f, ops[0], ops[0], ops[0]);
      assert ops[..1] == [ops[0]];
    }
    if |ops| > 1 {
      ExecSteps(f, ops[0], ops[1], ops[1]);
      assert ops[..2] == [ops[0], ops[1]];
    }
    if |ops| > 2 {
      ExecSteps(f, ops[0], ops[1], ops[2]);
      assert ops[..3] == [ops[0], ops[1], ops[2]];
    }
  }

  function RecoverOps(f: Files): seq<Op> {
    match Meaning(f)
    case Unrecoverable => []
    case Shows(seen) =>
      if f.marker.None? then [DropRollback]
      else if seen.Some? then [PutSettings(seen.value), DropMarker, DropRollback]
      else [DropSettings, DropMarker, DropRollback]
  }

  /** Staging an update over a recovered state. */
  function BeginOps(f: Files, content: Bytes): seq<Op> {
    if f.settings.Some? then [PutRollback(f.settings.value), PutMarker(true), PutSettings(content)]
    else [PutMarker(false), PutSettings(content)]
  }

  const COMMIT_OPS := [DropMarker, DropRollback]

  predicate Stageable(f: Files) {
    f.marker.None? && (f.settings.Some? ==> |f.settings.value| <= MAX_SETTINGS_BYTES)
  }

  lemma ExecSteps(f: Files, a: Op, b: Op, c: Op)
    ensures Exec(f, [a]) == Do(f, a)
    ensures Exec(f, [a, b]) == Do(Do(f, a), b)
    ensures Exec(f, [a, b, c]) == Do(Do(Do(f, a), b), c)
  {
    assert forall g, x :: Exec(g, [x]) == Do(g, x) by {
      forall g, x
        ensures Exec(g, [x]) == Do(g, x)
      {
        assert [x][1..] == [];
      }
    }
    assert [a, b][1..] == [b] && [b, c][1..] == [c] && [a, b, c][1..] == [b, c];
    assert Exec(Do(f, a), [b, c]) == Exec(Do(Do(f, a), b), [c]);
  }

  /** Wherever recovery is cut off, the next load sees the same; when it is through, the marker is gone and
      the settings file itself is what was seen. */
  lemma RecoveryKeepsMeaning(f: Files, n: nat)
    requires n <= |RecoverOps(f)|
    ensures Meaning(Exec(f, RecoverOps(f)[..n])) == Meaning(f)
    ensures n == |RecoverOps(f)| && Meaning(f).Shows? ==>
      Exec(f, RecoverOps(f)) == Files(Meaning(f).settings, None, None)
  {
    var ops := RecoverOps(f);
    if |ops| == 3 {
      ExecSteps(f, ops[0], ops[1], ops[2]);
      assert ops[..0] == [] && ops[..1] == [ops[0]] && ops[..2] == [ops[0], ops[1]];
      assert ops[..3] == ops == [ops[0], ops[1], ops[2]];
    } else if |ops| == 1 {
      ExecSteps(f, ops[0], DropMarker, DropMarker);
      assert ops[..0] == [] && ops[..1] == ops == [ops[0]];
    }
  }

  /** Recovering again changes nothing. */
  lemma RecoveryIsIdempotent(f: Files)
    ensures
      var recovered := Exec(f, RecoverOps(f));
      Exec(recovered, RecoverOps(recovered)) == recovered
  {
    RecoveryKeepsMeaning(f, |RecoverOps(f)|);
    assert RecoverOps(f)[..|RecoverOps(f)|] == RecoverOps(f);
    var recovered := Exec(f, RecoverOps(f));
    if Meaning(f).Shows? {
      ExecSteps(recovered, DropRollback, DropRollback, DropRollback);
    }
  }

  /** Wherever staging is cut off, the next load sees the old file; staged completely, the new file lies
      ready but is not yet seen. */
  lemma StagingKeepsMeaning(f: Files, content: Bytes, n: nat)
    requires Stageable(f) && n <= |BeginOps(f, content)|
    ensures Meaning(Exec(f, BeginOps(f, content)[..n])) == Shows(f.settings)
    ensures
      var staged := Exec(f, BeginOps(f, content));
      staged.settings == Some(content) && staged.marker == Some(Marker(f.settings.Some?))
  {
    var ops := BeginOps(f, content);
    if |ops| == 3 {
      ExecSteps(f, ops[0], ops[1], ops[2]);
      assert ops[..0] == [] && ops[..1] == [ops[0]] && ops[..2] == [ops[0], ops[1]];
      assert ops[..3] == ops == [ops[0], ops[1], ops[2]];
    } else {
      ExecSteps(f, ops[0], ops[1], DropMarker);
      assert ops[..0] == [] && ops[..1] == [ops[0]] && ops[..2] == ops == [ops[0], ops[1]];
    }
  }

  /** Removing the marker is the switch: before it nothing changed, from it on the settings file is seen. */
  lemma CommitSwitchesOnce(f: Files, n: nat)
    requires n <= 2
    ensures Meaning(Exec(f, COMMIT_OPS[..n])) == if n == 0 then Meaning(f) else Shows(f.settings)
  {
    ExecSteps(f, DropMarker, DropRollback, DropRollback);
    assert COMMIT_OPS[..0] == [] && COMMIT_OPS[..1] == [DropMarker] && COMMIT_OPS[..2] == [DropMarker, DropRollback];
  }

  /** Without a marker, or with one that says there was no file, the rollback copy is never consulted. */
  lemma StaleRollbackIsIgnored(f: Files, stale: Option<Bytes>)
    requires f.marker != Some(Marker(true))
    ensures Meaning(f.(rollback := stale)) == Meaning(f)
    ensures RecoverOps(f.(rollback := stale)) == RecoverOps(f)
  {
  }

  // ----- any number of procedures, each cut off anywhere

  /** A procedure and how many of its file operations took effect. */
  datatype Episode =
    | Recovering(done: nat)
    | Staging(content: Bytes, done: nat)
    | Committing(done: nat)
    | Saving(content: Bytes, done: nat)

  predicate CanRun(f: Files, e: Episode) {
    match e
    case Recovering(done) => done <= |RecoverOps(f)|
    case Staging(content, done) => Stageable(f) && done <= |BeginOps(f, content)|
    case Committing(done) => f.marker.Some? && done <= 2
    case Saving(_, done) => f.marker.None? && done <= 1
  }

  function RunEpisode(f: Files, e: Episode): Files
    requires CanRun(f, e)
  {
    match e
    case Recovering(done) => Exec(f, RecoverOps(f)[..done])
    case Staging(content, done) => Exec(f, BeginOps(f, content)[..done])
    case Committing(done) => Exec(f, COMMIT_OPS[..done])
    case Saving(content, done) => Exec(f, [PutSettings(content)][..done])
  }

  /** Whatever a procedure that was cut off leaves is what some episode leaves, and nothing else is. */
  lemma EpisodesAreCutOffs(f: Files, content: Bytes, g: Files)
    ensures CutOff(f, RecoverOps(f), g)
      <==> exists done: nat :: CanRun(f, Recovering(done)) && g == RunEpisode(f, Recovering(done))
    ensures f.marker.Some? ==>
      (CutOff(f, COMMIT_OPS, g) <==> exists done: nat :: CanRun(f, Committing(done)) && g == RunEpisode(f, Committing(done)))
    ensures f.marker.None? && (f.settings.None? || |f.settings.value| < 262_145) ==>
      (CutOff(f, BeginOps(f, content), g)
       <==> exists done: nat :: CanRun(f, Staging(content, done)) && g == RunEpisode(f, Staging(content, done)))
    ensures f.marker.None? ==>
      (CutOff(f, [PutSettings(content)], g)
       <==> exists done: nat :: CanRun(f, Saving(content, done)) && g == RunEpisode(f, Saving(content, done)))
  {
    hide Exec, RecoverOps, BeginOps;
    forall n: nat | n <= |RecoverOps(f)|
      ensures CanRun(f, Recovering(n)) && RunEpisode(f, Recovering(n)) == Exec(f, RecoverOps(f)[..n])
    {
    }
    forall n: nat | f.marker.Some? && n <= 2
      ensures CanRun(f, Committing(n)) && RunEpisode(f, Committing(n)) == Exec(f, COMMIT_OPS[..n])
    {
    }
    forall n: nat | Stageable(f) && n <= |BeginOps(f, content)|
      ensures CanRun(f, Staging(content, n)) && RunEpisode(f, Staging(content, n)) == Exec(f, BeginOps(f, content)[..n])
    {
    }
    forall n: nat | f.marker.None? && n <= 1
      ensures CanRun(f, Saving(content, n)) && RunEpisode(f, Saving(content, n)) == Exec(f, [PutSettings(content)][..n])
    {
    }
  }

  function RunEpisodes(f: Files, es: seq<Episode>): Option<Files> {
    if es == [] then Some(f)
    else
      match RunEpisodes(f, es[..|es| - 1])
      case None => None
      case Some(g) => if CanRun(g, es[|es| - 1]) then Some(RunEpisode(g, es[|es| - 1])) else None
  }

  /** A commit that removed the marker, or a save that replaced the file. */
  predicate Switches(e: Episode) {
    (e.Committing? || e.Saving?) && e.done > 0
  }

  lemma EpisodeKeepsMeaning(f: Files, e: Episode)
    requires CanRun(f, e)
    ensures !Switches(e) ==> Meaning(RunEpisode(f, e)) == Meaning(f)
    ensures Switches(e) ==> Meaning(RunEpisode(f, e)) == Shows(if e.Saving? then Some(e.content) else f.settings)
  {
    match e
    case Recovering(done) => RecoveryKeepsMeaning(f, done);
    case Staging(content, done) => StagingKeepsMeaning(f, content, done);
    case Committing(done) => CommitSwitchesOnce(f, done);
    case Saving(content, done) =>
      ExecSteps(f, PutSettings(content), DropRollback, DropRollback);
      assert [PutSettings(content)][..done] == if done == 0 then [] else [PutSettings(content)];
  }

  /** Over any run of procedures, each cut off anywhere, the next load sees what it saw before unless a
      commit removed the marker or a save replaced the file. */
  lemma {:induction false} OnlySwitchesChangeMeaning(f: Files, es: seq<Episode>)
    requires RunEpisodes(f, es).Some? && forall i :: 0 <= i < |es| ==> !Switches(es[i])
    ensures Meaning(RunEpisodes(f, es).value) == Meaning(f)
  {
    if es != [] {
      var init := es[..|es| - 1];
      OnlySwitchesChangeMeaning(f, init);
      EpisodeKeepsMeaning(RunEpisodes(f, init).value, es[|es| - 1]);
    }
  }
}
