/** The case-insensitive path index of a release archive, entry by entry, against a pairwise rule. */
module PathIndex {
  import opened Prelude

  type Component = string

  type Path = seq<Component>

  datatype Entry = Entry(parts: Path, isDir: bool)

  /** How the portable file systems see names: which components are valid, and what they fold to. */
  datatype Naming = Naming(valid: Component -> bool, fold: Component -> Component)

  function Folded(n: Naming, path: Path): Path {
    seq(|path|, i requires 0 <= i < |path| => n.fold(path[i]))
  }

  /** An entry claims each of its prefixes: all but the last as directories. */
  datatype Claim = Claim(path: Path, isDir: bool)

  function ClaimOf(e: Entry, length: nat): Claim
    requires length <= |e.parts|
  {
    Claim(e.parts[..length], length < |e.parts| || e.isDir)
  }

  function ClaimsUpTo(e: Entry, length: nat): seq<Claim>
    requires length <= |e.parts|
  {
    if length == 0 then [] else ClaimsUpTo(e, length - 1) + [ClaimOf(e, length)]
  }

  function Claims(e: Entry): seq<Claim> {
    ClaimsUpTo(e, |e.parts|)
  }

  lemma {:induction false} ClaimsMeaning(e: Entry, length: nat, c: Claim)
    requires length <= |e.parts|
    ensures c in ClaimsUpTo(e, length) <==> exists k :: 1 <= k <= length && c == ClaimOf(e, k)
  {
    if length > 0 {
      ClaimsMeaning(e, length - 1, c);
      assert c == ClaimOf(e, length) ==> c in ClaimsUpTo(e, length);
    }
  }

  // ----- the pairwise rule

  /** Prefixes that fold alike are spelled alike and are not both file and directory. */
  predicate Agrees(n: Naming, c: Claim, d: Claim) {
    Folded(n, c.path) == Folded(n, d.path) ==> c == d
  }

  ghost predicate AgreesWithAll(n: Naming, cs: seq<Claim>, d: Claim) {
    forall c :: c in cs ==> Agrees(n, c, d)
  }

  /** The claims of an entry: every prefix, the whole path as what the entry is, all others as directories. */
  lemma ClaimsAre(e: Entry, c: Claim)
    ensures c in Claims(e)
      <==> 1 <= |c.path| <= |e.parts| && c.path <= e.parts && (c.isDir <==> c.path != e.parts || e.isDir)
  {
    ClaimsMeaning(e, |e.parts|, c);
    forall k | 1 <= k <= |e.parts|
      ensures c == ClaimOf(e, k) <==>
        k == |c.path| && c.path <= e.parts && (c.isDir <==> c.path != e.parts || e.isDir)
    {
      assert c.path == e.parts[..k] ==> (k == |e.parts| <==> c.path == e.parts);
    }
    if 1 <= |c.path| <= |e.parts| {
      assert c == ClaimOf(e, |c.path|) || c != ClaimOf(e, |c.path|);
    }
  }

  predicate AllValid(n: Naming, e: Entry) {
    forall i :: 0 <= i < |e.parts| ==> n.valid(e.parts[i])
  }

  ghost predicate ClaimsAgree(n: Naming, e: Entry, f: Entry) {
    forall c, d :: c in Claims(e) && d in Claims(f) ==> Agrees(n, c, d)
  }

  ghost predicate Acceptable(n: Naming, entries: seq<Entry>) {
    && (forall e :: e in entries ==> AllValid(n, e))
    && (forall e, f :: e in entries && f in entries ==> ClaimsAgree(n, e, f))
    && (forall i, j :: 0 <= i < j < |entries| ==> Folded(n, entries[i].parts) != Folded(n, entries[j].parts))
  }

  /** The first `k` components of both paths fold alike, one by one. */
  ghost predicate FoldAlike(n: Naming, a: Path, b: Path, k: nat) {
    k <= |a| && k <= |b| && forall i :: 0 <= i < k ==> n.fold(a[i]) == n.fold(b[i])
  }

  lemma FoldedAlike(n: Naming, a: Path, b: Path)
    ensures Folded(n, a) == Folded(n, b) <==> |a| == |b| && FoldAlike(n, a, b, |a|)
  {
    if Folded(n, a) == Folded(n, b) {
      assert |Folded(n, a)| == |Folded(n, b)|;
      forall i | 0 <= i < |a|
        ensures n.fold(a[i]) == n.fold(b[i])
      {
        assert Folded(n, a)[i] == Folded(n, b)[i];
      }
    }
  }

  /** What two entries may not do: spell a common prefix differently, or use one both as a file and as a
      directory. */
  ghost predicate PrefixesAgree(n: Naming, e: Entry, f: Entry) {
    forall k :: 1 <= k && FoldAlike(n, e.parts, f.parts, k) ==>
      e.parts[..k] == f.parts[..k] && ((k < |e.parts| || e.isDir) <==> (k < |f.parts| || f.isDir))
  }

  lemma ClaimsAgreeMeans(n: Naming, e: Entry, f: Entry)
    ensures ClaimsAgree(n, e, f) <==> PrefixesAgree(n, e, f)
  {
    hide Folded, Claims;
    if ClaimsAgree(n, e, f) {
      forall k | 1 <= k && FoldAlike(n, e.parts, f.parts, k)
        ensures ClaimOf(e, k) == ClaimOf(f, k)
      {
        ClaimsAre(e, ClaimOf(e, k));
        ClaimsAre(f, ClaimOf(f, k));
        FoldedAlike(n, ClaimOf(e, k).path, ClaimOf(f, k).path);
        assert Agrees(n, ClaimOf(e, k), ClaimOf(f, k));
      }
    }
    if PrefixesAgree(n, e, f) {
      forall c, d | c in Claims(e) && d in Claims(f)
        ensures Agrees(n, c, d)
      {
        ClaimsAre(e, c);
        ClaimsAre(f, d);
        FoldedAlike(n, c.path, d.path);
        if Folded(n, c.path) == Folded(n, d.path) {
          assert FoldAlike(n, e.parts, f.parts, |c.path|);
          assert e.parts[..|c.path|] == c.path && f.parts[..|d.path|] == d.path;
        }
      }
    }
  }

  /** The rule in terms of the entries alone. */
  lemma AcceptableMeans(n: Naming, entries: seq<Entry>)
    ensures Acceptable(n, entries)
      <==> && (forall e, i :: e in entries && 0 <= i < |e.parts| ==> n.valid(e.parts[i]))
           && (forall e, f :: e in entries && f in entries ==> PrefixesAgree(n, e, f))
           && (forall i, j :: 0 <= i < j < |entries| ==>
                 !(|entries[i].parts| == |entries[j].parts|
                   && FoldAlike(n, entries[i].parts, entries[j].parts, |entries[i].parts|)))
  {
    hide Folded, ClaimsAgree, PrefixesAgree, FoldAlike;
    forall e, f
      ensures ClaimsAgree(n, e, f) <==> PrefixesAgree(n, e, f)
    {
      ClaimsAgreeMeans(n, e, f);
    }
    forall i, j | 0 <= i < j < |entries|
      ensures Folded(n, entries[i].parts) == Folded(n, entries[j].parts)
        <==> |entries[i].parts| == |entries[j].parts|
             && FoldAlike(n, entries[i].parts, entries[j].parts, |entries[i].parts|)
    {
      FoldedAlike(n, entries[i].parts, entries[j].parts);
    }
  }

  /** The same rule on the entries as a collection without order. */
  ghost predicate AcceptableTogether(n: Naming, entries: multiset<Entry>) {
    && (forall e :: e in entries ==> AllValid(n, e) && entries[e] <= 1)
    && (forall e, f :: e in entries && f in entries ==> ClaimsAgree(n, e, f))
    && (forall e, f :: e in entries && f in entries && e != f ==> Folded(n, e.parts) != Folded(n, f.parts))
  }

  ghost predicate NoDuplicates(entries: seq<Entry>) {
    forall i, j :: 0 <= i < j < |entries| ==> entries[i] != entries[j]
  }

  lemma {:induction false} NoDuplicatesCounted(entries: seq<Entry>, e: Entry)
    requires NoDuplicates(entries)
    ensures multiset(entries)[e] <= 1
  {
    if entries != [] {
      var last := |entries| - 1;
      assert entries == entries[..last] + [entries[last]];
      NoDuplicatesCounted(entries[..last], e);
      assert entries[last] !in entries[..last];
    }
  }

  lemma CountedOnceDistinct(entries: seq<Entry>, i: nat, j: nat)
    requires i < j < |entries| && multiset(entries)[entries[i]] <= 1
    ensures entries[i] != entries[j]
  {
    assert entries == entries[..j] + entries[j..];
    assert entries[i] in entries[..j] && entries[j] in entries[j..];
  }

  /** The rule does not depend on the order of the entries. */
  lemma OrderDoesNotMatter(n: Naming, entries: seq<Entry>)
    ensures Acceptable(n, entries) <==> AcceptableTogether(n, multiset(entries))
  {
    if Acceptable(n, entries) {
      forall e | e in multiset(entries)
        ensures multiset(entries)[e] <= 1
      {
        NoDuplicatesCounted(entries, e);
      }
    }
    if AcceptableTogether(n, multiset(entries)) {
      forall i, j | 0 <= i < j < |entries|
        ensures Folded(n, entries[i].parts) != Folded(n, entries[j].parts)
      {
        assert entries[i] in multiset(entries) && entries[j] in multiset(entries);
        CountedOnceDistinct(entries, i, j);
      }
    }
  }

  // ----- the index

  class PathIndex {
    const naming: Naming
    var explicitPaths: map<Path, Path>
    var prefixSpellings: map<Path, Path>
    var pathTypes: map<Path, bool>

    /** Everything claimed so far, and the entries registered so far. */
    ghost var claimed: seq<Claim>
    ghost var registered: seq<Entry>

    /** The two dictionaries hold exactly the claims made, one per folded prefix. */
    ghost predicate Indexed()
      reads this
    {
      && prefixSpellings.Keys == pathTypes.Keys
      && (forall c :: c in claimed ==>
            var f := Folded(naming, c.path);
            f in prefixSpellings && prefixSpellings[f] == c.path && pathTypes[f] == c.isDir)
      && (forall f :: f in prefixSpellings ==> Claim(prefixSpellings[f], pathTypes[f]) in claimed
                                               && Folded(naming, prefixSpellings[f]) == f)
    }

    ghost predicate Valid()
      reads this
    {
      && Indexed()
      && Acceptable(naming, registered)
      && (forall c :: c in claimed <==> exists e :: e in registered && c in Claims(e))
      && (forall f :: f in explicitPaths <==> exists e :: e in registered && Folded(naming, e.parts) == f)
    }

    constructor (naming: Naming)
      ensures Valid() && registered == [] && this.naming == naming
    {
      this.naming := naming;
      explicitPaths, prefixSpellings, pathTypes, claimed, registered := map[], map[], map[], [], [];
    }

    /** One prefix of an entry: accepted exactly if it agrees with everything claimed so far. */
    method RegisterClaim(claim: Claim) returns (ok: bool)
      requires Indexed()
      modifies this`prefixSpellings, this`pathTypes, this`claimed
      ensures ok <==> AgreesWithAll(naming, old(claimed), claim)
      ensures ok ==> Indexed() && claimed == old(claimed) + [claim]
    {
      var folded := Folded(naming, claim.path);
      var previousSpelling := if folded in prefixSpellings then prefixSpellings[folded] else claim.path;
      if previousSpelling != claim.path {
        assert !Agrees(naming, Claim(prefixSpellings[folded], pathTypes[folded]), claim);
        return false;
      }
      var previousType := if folded in pathTypes then pathTypes[folded] else claim.isDir;
      if previousType != claim.isDir {
        assert !Agrees(naming, Claim(prefixSpellings[folded], pathTypes[folded]), claim);
        return false;
      }
      prefixSpellings := prefixSpellings[folded := claim.path];
      pathTypes := pathTypes[folded := claim.isDir];
      claimed := claimed + [claim];
      ok := true;
    }

    /** Claims the prefixes of an entry one by one; stops at the first that is invalid or disagrees. */
    method RegisterPrefixes(entry: Entry) returns (ok: bool)
      requires Valid()
      modifies this`prefixSpellings, this`pathTypes, this`claimed
      ensures !ok ==> !Acceptable(naming, registered + [entry])
      ensures ok ==>
        && Indexed() && claimed == old(claimed) + Claims(entry) && AllValid(naming, entry)
        && forall d :: d in Claims(entry) ==> AgreesWithAll(naming, old(claimed), d)
    {
      hide Acceptable, AgreesWithAll, ClaimOf, Folded, Indexed;
      for k := 0 to |entry.parts|
        invariant Indexed()
        invariant claimed == old(claimed) + ClaimsUpTo(entry, k)
        invariant forall i :: 0 <= i < k ==> naming.valid(entry.parts[i])
        invariant forall d :: d in ClaimsUpTo(entry, k) ==> AgreesWithAll(naming, old(claimed), d)
      {
        if !naming.valid(entry.parts[k]) {
          InvalidIsUnacceptable(naming, registered, entry, k);
          return false;
        }
        ok := RegisterClaim(ClaimOf(entry, k + 1));
        if !ok {
          DisagreementIsUnacceptable(naming, registered, old(claimed), entry, k);
          return;
        }
        AgreesWithFewer(naming, old(claimed), ClaimsUpTo(entry, k), ClaimOf(entry, k + 1));
        assert claimed == old(claimed) + ClaimsUpTo(entry, k + 1);
      }
      ok := true;
    }

    /** Registers one entry; accepted exactly if all entries so far and this one together meet the rule. */
    method Register(entry: Entry) returns (ok: bool)
      requires Valid()
      modifies this
      ensures ok <==> Acceptable(naming, old(registered) + [entry])
      ensures ok ==> Valid() && registered == old(registered) + [entry]
    {
      hide Acceptable, Agrees, Claims, AllValid, Folded;
      ghost var before := registered;
      ok := RegisterPrefixes(entry);
      if !ok {
        return;
      }
      var folded := Folded(naming, entry.parts);
      if folded in explicitPaths {
        ghost var e :| e in before && Folded(naming, e.parts) == folded;
        DuplicateIsUnacceptable(naming, before, entry, e);
        return false;
      }
      explicitPaths := explicitPaths[folded := entry.parts];
      registered := registered + [entry];
      OwnClaimsAgree(naming, entry);
      OneMoreAcceptable(naming, before, entry);
    }
  }

  /** Prefixes of different length never fold alike. */
  lemma OwnClaimsAgree(n: Naming, e: Entry)
    ensures ClaimsAgree(n, e, e)
  {
    forall c, d | c in Claims(e) && d in Claims(e)
      ensures Agrees(n, c, d)
    {
      ClaimsMeaning(e, |e.parts|, c);
      ClaimsMeaning(e, |e.parts|, d);
      assert |Folded(n, c.path)| == |c.path| && |Folded(n, d.path)| == |d.path|;
    }
  }

  lemma AgreesWithFewer(n: Naming, cs: seq<Claim>, more: seq<Claim>, d: Claim)
    requires AgreesWithAll(n, cs + more, d)
    ensures AgreesWithAll(n, cs, d)
  {
  }

  lemma InvalidIsUnacceptable(n: Naming, entries: seq<Entry>, entry: Entry, k: nat)
    requires k < |entry.parts| && !n.valid(entry.parts[k])
    ensures !Acceptable(n, entries + [entry])
  {
    assert entry in entries + [entry] && !AllValid(n, entry);
  }

  /** A claim that disagrees with an earlier one, of another entry or of the same. */
  lemma DisagreementIsUnacceptable(n: Naming, entries: seq<Entry>, claimed: seq<Claim>, entry: Entry, k: nat)
    requires k < |entry.parts|
    requires forall c :: c in claimed <==> exists e :: e in entries && c in Claims(e)
    requires !AgreesWithAll(n, claimed + ClaimsUpTo(entry, k), ClaimOf(entry, k + 1))
    ensures !Acceptable(n, entries + [entry])
  {
    var all := entries + [entry];
    var c :| c in claimed + ClaimsUpTo(entry, k) && !Agrees(n, c, ClaimOf(entry, k + 1));
    ClaimsMeaning(entry, |entry.parts|, ClaimOf(entry, k + 1));
    ClaimsMeaning(entry, k, c);
    assert |Folded(n, c.path)| == |c.path| && |Folded(n, ClaimOf(entry, k + 1).path)| == k + 1;
    var e :| e in entries && c in Claims(e);
    assert e in all && entry in all && !ClaimsAgree(n, e, entry);
  }

  lemma DuplicateIsUnacceptable(n: Naming, entries: seq<Entry>, entry: Entry, e: Entry)
    requires e in entries && Folded(n, e.parts) == Folded(n, entry.parts)
    ensures !Acceptable(n, entries + [entry])
  {
    var all := entries + [entry];
    var i :| 0 <= i < |entries| && entries[i] == e;
    assert all[i] == e && all[|entries|] == entry;
  }

  lemma OneMoreAcceptable(n: Naming, entries: seq<Entry>, entry: Entry)
    requires Acceptable(n, entries) && AllValid(n, entry) && ClaimsAgree(n, entry, entry)
    requires forall e :: e in entries ==> ClaimsAgree(n, e, entry) && Folded(n, e.parts) != Folded(n, entry.parts)
    ensures Acceptable(n, entries + [entry])
  {
  }

  /** The archive loop: accepted exactly if the pairwise rule holds of all entries. */
  method InspectEntries(naming: Naming, entries: seq<Entry>) returns (ok: bool)
    ensures ok <==> Acceptable(naming, entries)
  {
    var index := new PathIndex(naming);
    for i := 0 to |entries|
      invariant index.Valid() && fresh(index) && index.naming == naming && index.registered == entries[..i]
    {
      assert entries[..i + 1] == entries[..i] + [entries[i]];
      ok := index.Register(entries[i]);
      if !ok {
        PrefixIsAcceptable(naming, entries, i + 1);
        return;
      }
    }
    assert entries[..|entries|] == entries;
    ok := true;
  }

  lemma PrefixIsAcceptable(n: Naming, entries: seq<Entry>, k: nat)
    requires k <= |entries|
    ensures Acceptable(n, entries) ==> Acceptable(n, entries[..k])
  {
  }
}
