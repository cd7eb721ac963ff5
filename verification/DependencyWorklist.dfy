/** The runtime dependency worklist: what it visits is exactly what is reachable from the project. */
module DependencyWorklist {
  import opened Prelude

  /** Canonical distribution names; the lookup of installed metadata is by canonical name. */
  type Name = string

  type Version = string

  datatype Requirement = Requirement(name: Name, specifier: string)

  /** `metadataName` is what the installed metadata reports; `needs` are the active dependencies. */
  datatype Distribution = Distribution(metadataName: Name, version: Version, needs: seq<Requirement>)

  datatype World = World(
    project: Name,
    roots: seq<Requirement>,
    installed: map<Name, Distribution>,
    locked: map<Name, Version>,
    allows: (string, Version) -> bool)
  {
    predicate Accepts(r: Requirement, version: Version) {
      allows(r.specifier, version)
    }
  }

  datatype Problem = NotInstalled | NameMismatch | NotPinned | VersionMismatch | SpecifierViolated

  datatype Resolution =
    | Resolved(visited: set<Name>, parents: map<Name, set<Name>>)
    | Failed(problem: Problem, requirement: Requirement)

  predicate Names(requirements: seq<Requirement>, name: Name) {
    exists r :: r in requirements && r.name == name
  }

  predicate Needs(w: World, parent: Name, child: Name) {
    parent in w.installed && Names(w.installed[parent].needs, child)
  }

  predicate IsRoot(w: World, name: Name) {
    Names(w.roots, name)
  }

  /** A chain of needs from a project requirement that never passes through the project itself. */
  predicate Chain(w: World, path: seq<Name>) {
    && path != [] && IsRoot(w, path[0])
    && (forall i :: 0 <= i < |path| ==> path[i] != w.project)
    && (forall i :: 0 < i < |path| ==> Needs(w, path[i - 1], path[i]))
  }

  ghost predicate Reachable(w: World, name: Name) {
    exists path :: Chain(w, path) && path[|path| - 1] == name
  }

  lemma RootIsReachable(w: World, name: Name)
    requires IsRoot(w, name) && name != w.project
    ensures Reachable(w, name)
  {
    assert Chain(w, [name]);
  }

  lemma NeededIsReachable(w: World, parent: Name, child: Name)
    requires Reachable(w, parent) && Needs(w, parent, child) && child != w.project
    ensures Reachable(w, child)
  {
    var path :| Chain(w, path) && path[|path| - 1] == parent;
    assert Chain(w, path + [child]);
  }

  /** A set that contains the roots and is closed under needs contains everything reachable. */
  lemma {:induction false} ClosedContainsReachable(w: World, names: set<Name>, path: seq<Name>)
    requires forall n :: IsRoot(w, n) && n != w.project ==> n in names
    requires forall p, n :: p in names && Needs(w, p, n) && n != w.project ==> n in names
    requires Chain(w, path)
    ensures path[|path| - 1] in names
  {
    if |path| > 1 {
      var init := path[..|path| - 1];
      assert Chain(w, init);
      ClosedContainsReachable(w, names, init);
      assert Needs(w, path[|path| - 2], path[|path| - 1]);
    }
  }

  /** The installed distribution is the one the lock pins. */
  predicate Sound(w: World, name: Name) {
    && name in w.installed && w.installed[name].metadataName == name
    && name in w.locked && w.installed[name].version == w.locked[name]
  }

  predicate Exhibits(w: World, problem: Problem, r: Requirement) {
    match problem
    case NotInstalled => r.name !in w.installed
    case NameMismatch => r.name in w.installed && w.installed[r.name].metadataName != r.name
    case NotPinned => r.name in w.installed && r.name !in w.locked
    case VersionMismatch => r.name in w.installed && r.name in w.locked && w.installed[r.name].version != w.locked[r.name]
    case SpecifierViolated => r.name in w.installed && !w.Accepts(r, w.installed[r.name].version)
  }

  /** A requirement of the project itself or of a visited distribution. */
  predicate Raised(w: World, visited: set<Name>, r: Requirement) {
    r in w.roots || exists p :: p in visited && p in w.installed && r in w.installed[p].needs
  }

  /** A requirement of the project itself or of a reachable distribution. */
  ghost predicate AskedFor(w: World, r: Requirement) {
    r in w.roots || exists p :: Reachable(w, p) && p in w.installed && r in w.installed[p].needs
  }

  /** The first check that the requirement fails. */
  function ProblemOf(w: World, r: Requirement): Option<Problem> {
    if r.name !in w.installed then Some(NotInstalled)
    else
      var d := w.installed[r.name];
      if d.metadataName != r.name then Some(NameMismatch)
      else if r.name !in w.locked then Some(NotPinned)
      else if d.version != w.locked[r.name] then Some(VersionMismatch)
      else if !w.Accepts(r, d.version) then Some(SpecifierViolated)
      else None
  }

  datatype Ending = Done(visited: set<Name>) | Stuck(problem: Problem, requirement: Requirement)

  /** How the worklist ends from here on: the requirement added last is always taken first. */
  function EndOf(w: World, visited: set<Name>, pending: seq<Requirement>): Ending
    requires visited <= w.installed.Keys
    decreases |w.installed.Keys - visited|, |pending|
  {
    if pending == [] then Done(visited)
    else
      var r, rest := pending[|pending| - 1], pending[..|pending| - 1];
      if r.name == w.project || r.name in visited then EndOf(w, visited, rest)
      else if ProblemOf(w, r).Some? then Stuck(ProblemOf(w, r).value, r)
      else
        OneFewerLeft(w.installed.Keys, visited, r.name);
        EndOf(w, visited + {r.name}, rest + w.installed[r.name].needs)
  }

  function ParentsAmong(w: World, visited: set<Name>, name: Name): set<Name> {
    set p | p in visited && Needs(w, p, name)
  }

  method Check(w: World, r: Requirement) returns (problem: Option<Problem>)
    ensures problem == ProblemOf(w, r)
    ensures problem.None? <==> Sound(w, r.name) && w.Accepts(r, w.installed[r.name].version)
    ensures problem.Some? ==> Exhibits(w, problem.value, r)
  {
    if r.name !in w.installed {
      return Some(NotInstalled);
    }
    var d := w.installed[r.name];
    if d.metadataName != r.name {
      return Some(NameMismatch);
    }
    if r.name !in w.locked {
      return Some(NotPinned);
    }
    if d.version != w.locked[r.name] {
      return Some(VersionMismatch);
    }
    if !w.Accepts(r, d.version) {
      return Some(SpecifierViolated);
    }
    problem := None;
  }

  /** `noted` is `parents` with `parent` added to each needed name. */
  ghost predicate ParentNoted(parents: map<Name, set<Name>>, parent: Name, needs: seq<Requirement>, noted: map<Name, set<Name>>) {
    && noted.Keys == parents.Keys + (set r | r in needs :: r.name)
    && forall n :: n in noted ==>
         noted[n] == (if n in parents then parents[n] else {}) + if Names(needs, n) then {parent} else {}
  }

  lemma ParentNotedOneMore(parents: map<Name, set<Name>>, parent: Name, needs: seq<Requirement>, i: nat,
                           noted: map<Name, set<Name>>)
    requires i < |needs| && ParentNoted(parents, parent, needs[..i], noted)
    ensures
      var name := needs[i].name;
      ParentNoted(parents, parent, needs[..i + 1], noted[name := (if name in noted then noted[name] else {}) + {parent}])
  {
  }

  method NoteParents(parents: map<Name, set<Name>>, parent: Name, needs: seq<Requirement>)
    returns (noted: map<Name, set<Name>>)
    ensures ParentNoted(parents, parent, needs, noted)
  {
    noted := parents;
    assert ParentNoted(parents, parent, needs[..0], noted);
    for i := 0 to |needs|
      invariant ParentNoted(parents, parent, needs[..i], noted)
    {
      hide ParentNoted;
      var name := needs[i].name;
      ParentNotedOneMore(parents, parent, needs, i, noted);
      noted := noted[name := (if name in noted then noted[name] else {}) + {parent}];
    }
    assert needs[..|needs|] == needs;
  }

  /** Everything required by the project or by a visited distribution is visited, is the project, or waits. */
  ghost predicate Covered(w: World, visited: set<Name>, pending: seq<Requirement>) {
    forall r :: Raised(w, visited, r) ==> r.name in visited || r.name == w.project || r in pending
  }

  /** Only what was required waits. */
  ghost predicate Justified(w: World, visited: set<Name>, pending: seq<Requirement>) {
    forall r :: r in pending ==> Raised(w, visited, r)
  }

  /** Visited names are reachable and pinned, and each was asked for by a requirement it satisfies. */
  ghost predicate VisitedWell(w: World, visited: set<Name>) {
    forall n :: n in visited ==>
      n != w.project && Reachable(w, n) && Sound(w, n)
      && exists r :: Raised(w, visited, r) && r.name == n && w.Accepts(r, w.installed[n].version)
  }

  ghost predicate ParentsExact(w: World, visited: set<Name>, parents: map<Name, set<Name>>) {
    && (forall n :: IsRoot(w, n) ==> n in parents)
    && (forall n :: n in parents ==> parents[n] == ParentsAmong(w, visited, n))
    && (forall p, n :: p in visited && Needs(w, p, n) ==> n in parents)
  }

  lemma RaisedIsReachable(w: World, visited: set<Name>, r: Requirement)
    requires Raised(w, visited, r) && VisitedWell(w, visited) && r.name != w.project
    ensures Reachable(w, r.name)
  {
    if r in w.roots {
      RootIsReachable(w, r.name);
    } else {
      var p :| p in visited && p in w.installed && r in w.installed[p].needs;
      NeededIsReachable(w, p, r.name);
    }
  }

  lemma VisitingCovers(w: World, visited: set<Name>, rest: seq<Requirement>, r: Requirement)
    requires Covered(w, visited, rest + [r]) && Justified(w, visited, rest + [r]) && VisitedWell(w, visited)
    requires r.name != w.project && Reachable(w, r.name) && Sound(w, r.name) && w.Accepts(r, w.installed[r.name].version)
    ensures
      var more := visited + {r.name};
      var pending := rest + w.installed[r.name].needs;
      Covered(w, more, pending) && Justified(w, more, pending) && VisitedWell(w, more)
  {
    var more := visited + {r.name};
    var needs := w.installed[r.name].needs;
    assert forall q :: Raised(w, visited, q) ==> Raised(w, more, q);
    assert forall q :: q in needs ==> Raised(w, more, q);
    forall q | Raised(w, more, q)
      ensures q.name in more || q.name == w.project || q in rest + needs
    {
      if !Raised(w, visited, q) {
        assert q in needs;
      }
    }
    assert r in rest + [r] && Raised(w, more, r);
  }

  lemma VisitingKeepsParents(w: World, visited: set<Name>, parents: map<Name, set<Name>>, noted: map<Name, set<Name>>, name: Name)
    requires ParentsExact(w, visited, parents) && name in w.installed && name !in visited
    requires ParentNoted(parents, name, w.installed[name].needs, noted)
    ensures ParentsExact(w, visited + {name}, noted)
  {
  }

  lemma CoveredIsClosed(w: World, visited: set<Name>)
    requires Covered(w, visited, [])
    ensures forall n :: IsRoot(w, n) && n != w.project ==> n in visited
    ensures forall p, n :: p in visited && Needs(w, p, n) && n != w.project ==> n in visited
  {
  }

  method ResolveRuntimeComponents(w: World) returns (resolution: Resolution)
    ensures match EndOf(w, {}, w.roots)
            case Done(visited) => resolution.Resolved? && resolution.visited == visited
            case Stuck(problem, requirement) => resolution == Failed(problem, requirement)
    ensures resolution.Resolved? ==>
      && (forall n :: n in resolution.visited <==> Reachable(w, n))
      && (forall n :: n in resolution.visited ==>
            && n in w.installed && w.installed[n].metadataName == n
            && n in w.locked && w.locked[n] == w.installed[n].version)
      && VisitedWell(w, resolution.visited)
      && (forall n :: n in resolution.visited ==>
            n in resolution.parents && resolution.parents[n] == ParentsAmong(w, resolution.visited, n))
      && (AllSatisfied(w) <==> Agreeing(w))
    ensures resolution.Failed? ==>
      && Exhibits(w, resolution.problem, resolution.requirement)
      && resolution.requirement.name != w.project && Reachable(w, resolution.requirement.name)
      && AskedFor(w, resolution.requirement)
  {
    hide Covered, Justified, VisitedWell, ParentsExact, Reachable, Needs, IsRoot, ParentsAmong, ProblemOf, EndOf,
         AllSatisfied, Agreeing;
    var pending := w.roots;
    var visited: set<Name> := {};
    var direct := set r | r in w.roots :: r.name;
    var parents: map<Name, set<Name>> := map n | n in direct :: {};
    StartIsCovered(w, parents);
    while pending != []
      invariant visited <= w.installed.Keys && EndOf(w, visited, pending) == EndOf(w, {}, w.roots)
      invariant Covered(w, visited, pending) && Justified(w, visited, pending)
      invariant VisitedWell(w, visited) && ParentsExact(w, visited, parents)
      decreases |w.installed.Keys - visited|, |pending|
    {
      var r := pending[|pending| - 1];
      var rest := pending[..|pending| - 1];
      assert pending == rest + [r];
      EndTakesLast(w, visited, rest, r);
      if r.name == w.project || r.name in visited {
        SkippingCovers(w, visited, rest, r);
        pending := rest;
        continue;
      }
      WaitingIsReachable(w, visited, rest, r);
      var problem := Check(w, r);
      if problem.Some? {
        return Failed(problem.value, r);
      }
      var needs := w.installed[r.name].needs;
      var noted := NoteParents(parents, r.name, needs);
      VisitingCovers(w, visited, rest, r);
      VisitingKeepsParents(w, visited, parents, noted, r.name);
      OneFewerLeft(w.installed.Keys, visited, r.name);
      visited, parents, pending := visited + {r.name}, noted, rest + needs;
    }
    EndsDone(w, visited);
    VisitedIsReachable(w, visited);
    ResolvedParents(w, visited, parents);
    ResolvedSatisfiesIff(w, visited);
    resolution := Resolved(visited, parents);
  }

  lemma EndTakesLast(w: World, visited: set<Name>, rest: seq<Requirement>, r: Requirement)
    requires visited <= w.installed.Keys
    ensures EndOf(w, visited, rest + [r])
      == if r.name == w.project || r.name in visited then EndOf(w, visited, rest)
         else if ProblemOf(w, r).Some? then Stuck(ProblemOf(w, r).value, r)
         else EndOf(w, visited + {r.name}, rest + w.installed[r.name].needs)
  {
    assert (rest + [r])[..|rest + [r]| - 1] == rest;
  }

  lemma EndsDone(w: World, visited: set<Name>)
    requires visited <= w.installed.Keys
    ensures EndOf(w, visited, []) == Done(visited)
  {
  }

  lemma StartIsCovered(w: World, parents: map<Name, set<Name>>)
    requires parents.Keys == (set r | r in w.roots :: r.name) && forall n :: n in parents ==> parents[n] == {}
    ensures Covered(w, {}, w.roots) && Justified(w, {}, w.roots) && VisitedWell(w, {}) && ParentsExact(w, {}, parents)
  {
  }

  lemma SkippingCovers(w: World, visited: set<Name>, rest: seq<Requirement>, r: Requirement)
    requires Covered(w, visited, rest + [r]) && Justified(w, visited, rest + [r])
    requires r.name == w.project || r.name in visited
    ensures Covered(w, visited, rest) && Justified(w, visited, rest)
  {
  }

  lemma WaitingIsReachable(w: World, visited: set<Name>, rest: seq<Requirement>, r: Requirement)
    requires Justified(w, visited, rest + [r]) && VisitedWell(w, visited) && r.name != w.project
    ensures Reachable(w, r.name) && AskedFor(w, r)
  {
    assert r in rest + [r];
    RaisedIsReachable(w, visited, r);
  }

  lemma OneFewerLeft(all: set<Name>, visited: set<Name>, name: Name)
    requires name in all && name !in visited
    ensures |all - (visited + {name})| < |all - visited|
  {
    assert all - visited == (all - (visited + {name})) + {name};
  }

  lemma VisitedIsReachable(w: World, visited: set<Name>)
    requires Covered(w, visited, []) && VisitedWell(w, visited)
    ensures forall n :: n in visited <==> Reachable(w, n)
    ensures forall n :: n in visited ==>
      && n in w.installed && w.installed[n].metadataName == n && n in w.locked && w.locked[n] == w.installed[n].version
  {
    CoveredIsClosed(w, visited);
    forall n | Reachable(w, n)
      ensures n in visited
    {
      var path :| Chain(w, path) && path[|path| - 1] == n;
      ClosedContainsReachable(w, visited, path);
    }
  }

  lemma ResolvedParents(w: World, visited: set<Name>, parents: map<Name, set<Name>>)
    requires VisitedWell(w, visited) && ParentsExact(w, visited, parents)
    ensures forall n :: n in visited ==> n in parents && parents[n] == ParentsAmong(w, visited, n)
  {
    forall n | n in visited
      ensures n in parents
    {
      var r :| Raised(w, visited, r) && r.name == n && w.Accepts(r, w.installed[n].version);
      if r in w.roots {
        assert IsRoot(w, n);
      } else {
        var p :| p in visited && p in w.installed && r in w.installed[p].needs;
        assert Needs(w, p, n);
      }
    }
  }

  // ----- what a resolution says about version specifiers

  /** What is promised: the installed version satisfies every requirement that can be reached. */
  ghost predicate AllSatisfied(w: World) {
    forall r :: AskedFor(w, r) && r.name != w.project ==> r.name in w.installed && w.Accepts(r, w.installed[r.name].version)
  }

  /** Requirements on one name that can be reached agree on whether they accept the installed version. */
  ghost predicate Agreeing(w: World) {
    forall r, q :: AskedFor(w, r) && AskedFor(w, q) && r.name == q.name && r.name != w.project && r.name in w.installed ==>
      (w.Accepts(r, w.installed[r.name].version) <==> w.Accepts(q, w.installed[r.name].version))
  }

  ghost predicate Visited(w: World, visited: set<Name>) {
    (forall n :: n in visited <==> Reachable(w, n)) && VisitedWell(w, visited)
  }

  lemma RaisedIsAskedFor(w: World, visited: set<Name>, r: Requirement)
    requires Visited(w, visited)
    ensures Raised(w, visited, r)
      <==> r in w.roots || exists p :: Reachable(w, p) && p in w.installed && r in w.installed[p].needs
  {
  }

  lemma AskedForIsReachable(w: World, r: Requirement)
    requires AskedFor(w, r) && r.name != w.project
    ensures Reachable(w, r.name)
  {
    if r in w.roots {
      RootIsReachable(w, r.name);
    } else {
      var p :| Reachable(w, p) && p in w.installed && r in w.installed[p].needs;
      NeededIsReachable(w, p, r.name);
    }
  }

  /** The code checks the specifier only of the requirement by which it first takes a name. So what it has
      resolved satisfies every requirement exactly if the requirements on one name agree. */
  lemma ResolvedSatisfiesIff(w: World, visited: set<Name>)
    requires Visited(w, visited)
    ensures AllSatisfied(w) <==> Agreeing(w)
  {
    hide Reachable;
    if Agreeing(w) {
      forall r | AskedFor(w, r) && r.name != w.project
        ensures r.name in w.installed && w.Accepts(r, w.installed[r.name].version)
      {
        AskedForIsReachable(w, r);
        var q :| Raised(w, visited, q) && q.name == r.name && w.Accepts(q, w.installed[r.name].version);
        RaisedIsAskedFor(w, visited, q);
      }
    }
  }

  // ----- other orders of taking requirements

  function NamesOf(taken: seq<Requirement>): set<Name> {
    set r | r in taken :: r.name
  }

  /** Each requirement in turn was waiting, names something new, and passes all checks. */
  ghost predicate Taking(w: World, taken: seq<Requirement>) {
    forall i :: 0 <= i < |taken| ==>
      && taken[i].name != w.project && taken[i].name !in NamesOf(taken[..i])
      && Raised(w, NamesOf(taken[..i]), taken[i]) && ProblemOf(w, taken[i]).None?
  }

  /** Taking the requirements in this order resolves the project: nothing new is left waiting. */
  ghost predicate ResolvesBy(w: World, taken: seq<Requirement>) {
    Taking(w, taken) && Covered(w, NamesOf(taken), [])
  }

  /** A chain of requirements from the project, each of which passes all checks. */
  ghost predicate GoodChain(w: World, chain: seq<Requirement>) {
    && chain != [] && chain[0] in w.roots
    && (forall i :: 0 <= i < |chain| ==> chain[i].name != w.project && ProblemOf(w, chain[i]).None?)
    && forall i :: 0 < i < |chain| ==> Follows(w, chain[i - 1], chain[i])
  }

  predicate Follows(w: World, r: Requirement, next: Requirement) {
    r.name in w.installed && next in w.installed[r.name].needs
  }

  ghost predicate WellReached(w: World, name: Name) {
    exists chain: seq<Requirement> :: GoodChain(w, chain) && chain[|chain| - 1].name == name
  }

  lemma {:induction false} TakenIsWellReached(w: World, taken: seq<Requirement>, i: nat)
    requires Taking(w, taken) && i < |taken|
    ensures WellReached(w, taken[i].name)
  {
    var r := taken[i];
    if r in w.roots {
      assert GoodChain(w, [r]);
    } else {
      var p :| p in NamesOf(taken[..i]) && p in w.installed && r in w.installed[p].needs;
      var j :| 0 <= j < i && taken[j].name == p;
      TakenIsWellReached(w, taken, j);
      NextIsWellReached(w, p, r);
    }
  }

  lemma NextIsWellReached(w: World, parent: Name, r: Requirement)
    requires WellReached(w, parent) && parent in w.installed && r in w.installed[parent].needs
    requires r.name != w.project && ProblemOf(w, r).None?
    ensures WellReached(w, r.name)
  {
    hide ProblemOf;
    var chain: seq<Requirement> :| GoodChain(w, chain) && chain[|chain| - 1].name == parent;
    var longer := chain + [r];
    assert Follows(w, chain[|chain| - 1], r);
    assert GoodChain(w, longer);
  }

  lemma {:induction false} WellReachedIsReachable(w: World, chain: seq<Requirement>)
    requires GoodChain(w, chain)
    ensures Reachable(w, chain[|chain| - 1].name) && chain[|chain| - 1].name in w.installed
  {
    var r := chain[|chain| - 1];
    if |chain| == 1 {
      RootIsReachable(w, r.name);
    } else {
      var init := chain[..|chain| - 1];
      assert GoodChain(w, init);
      WellReachedIsReachable(w, init);
      assert Follows(w, chain[|chain| - 2], r);
      NeededIsReachable(w, chain[|chain| - 2].name, r.name);
    }
  }

  lemma {:induction false} TakenIsVisitedWell(w: World, taken: seq<Requirement>)
    requires Taking(w, taken)
    ensures VisitedWell(w, NamesOf(taken))
  {
    forall n | n in NamesOf(taken)
      ensures n != w.project && Reachable(w, n) && Sound(w, n)
      ensures exists r :: Raised(w, NamesOf(taken), r) && r.name == n && w.Accepts(r, w.installed[n].version)
    {
      var i :| 0 <= i < |taken| && taken[i].name == n;
      TakenIsWellReached(w, taken, i);
      var chain: seq<Requirement> :| GoodChain(w, chain) && chain[|chain| - 1].name == n;
      WellReachedIsReachable(w, chain);
      assert NamesOf(taken[..i]) <= NamesOf(taken);
      assert Raised(w, NamesOf(taken), taken[i]);
    }
  }

  /** Whatever the order, a resolution visits the same names, and satisfies every requirement exactly if
      the requirements on one name agree. */
  lemma AnyOrderSatisfiesIff(w: World, taken: seq<Requirement>)
    requires ResolvesBy(w, taken)
    ensures forall n :: n in NamesOf(taken) <==> Reachable(w, n)
    ensures AllSatisfied(w) <==> Agreeing(w)
  {
    hide Taking, Agreeing, AllSatisfied, Reachable, VisitedWell, Covered;
    TakenIsVisitedWell(w, taken);
    VisitedIsReachable(w, NamesOf(taken));
    ResolvedSatisfiesIff(w, NamesOf(taken));
  }

  /** Some order resolves the project exactly if every reachable name is reached through requirements that
      pass all checks. So a project with a violated requirement slips through in some order exactly if this
      holds of it and its requirements do not agree. */
  lemma SomeOrderResolvesIff(w: World)
    ensures (exists taken :: ResolvesBy(w, taken)) <==> (forall n :: Reachable(w, n) ==> WellReached(w, n))
  {
    hide Taking, Reachable, WellReached, VisitedWell, Covered, GoodChain, NamesOf;
    if taken :| ResolvesBy(w, taken) {
      AnyOrderSatisfiesIff(w, taken);
      forall n | Reachable(w, n)
        ensures WellReached(w, n)
      {
        var i := IndexOf(taken, n);
        TakenIsWellReached(w, taken, i);
      }
    }
    if forall n :: Reachable(w, n) ==> WellReached(w, n) {
      NothingTaken(w);
      var taken := TakeTheRest(w, []);
    }
  }

  lemma IndexOf(taken: seq<Requirement>, name: Name) returns (i: nat)
    requires name in NamesOf(taken)
    ensures i < |taken| && taken[i].name == name
  {
    i :| i < |taken| && taken[i].name == name;
  }

  lemma NothingTaken(w: World)
    ensures Taking(w, []) && NamesOf([]) <= w.installed.Keys
  {
  }

  /** As long as something reachable is not taken, the first gap on its good chain can be taken next. */
  lemma {:induction false} TakeTheRest(w: World, taken: seq<Requirement>) returns (all: seq<Requirement>)
    requires Taking(w, taken) && NamesOf(taken) <= w.installed.Keys
    requires forall n :: Reachable(w, n) ==> WellReached(w, n)
    ensures ResolvesBy(w, all)
    decreases |w.installed.Keys - NamesOf(taken)|
  {
    hide Taking, Reachable, WellReached, GoodChain, NamesOf;
    if Covered(w, NamesOf(taken), []) {
      all := taken;
    } else {
      var r := LeftOver(w, taken);
      TakenIsVisitedWell(w, taken);
      RaisedIsReachable(w, NamesOf(taken), r);
      var next := FirstGap(w, taken, r.name);
      TakeNext(w, taken, next);
      OneFewerLeft(w.installed.Keys, NamesOf(taken), next.name);
      all := TakeTheRest(w, taken + [next]);
    }
  }

  lemma LeftOver(w: World, taken: seq<Requirement>) returns (r: Requirement)
    requires !Covered(w, NamesOf(taken), [])
    ensures Raised(w, NamesOf(taken), r) && r.name !in NamesOf(taken) && r.name != w.project
  {
    r :| Raised(w, NamesOf(taken), r) && !(r.name in NamesOf(taken) || r.name == w.project || r in []);
  }

  lemma FirstGap(w: World, taken: seq<Requirement>, name: Name) returns (next: Requirement)
    requires WellReached(w, name) && name !in NamesOf(taken)
    ensures next.name != w.project && next.name !in NamesOf(taken)
    ensures Raised(w, NamesOf(taken), next) && ProblemOf(w, next).None?
  {
    hide NamesOf;
    var chain: seq<Requirement> :| GoodChain(w, chain) && chain[|chain| - 1].name == name;
    var i := 0;
    while chain[i].name in NamesOf(taken)
      invariant i < |chain| && forall j :: 0 <= j < i ==> chain[j].name in NamesOf(taken)
      decreases |chain| - i
    {
      i := i + 1;
    }
    next := chain[i];
    if i > 0 {
      assert Follows(w, chain[i - 1], next) && chain[i - 1].name in NamesOf(taken);
    }
  }

  lemma TakeNext(w: World, taken: seq<Requirement>, next: Requirement)
    requires Taking(w, taken) && NamesOf(taken) <= w.installed.Keys
    requires next.name != w.project && next.name !in NamesOf(taken)
    requires Raised(w, NamesOf(taken), next) && ProblemOf(w, next).None?
    ensures Taking(w, taken + [next]) && NamesOf(taken + [next]) == NamesOf(taken) + {next.name}
    ensures next.name in w.installed
  {
    var more := taken + [next];
    forall i | 0 <= i < |more|
      ensures more[i].name != w.project && more[i].name !in NamesOf(more[..i])
      ensures Raised(w, NamesOf(more[..i]), more[i]) && ProblemOf(w, more[i]).None?
    {
      assert more[..i] == taken[..i];
    }
    assert next in more;
  }

  // ----- two projects that differ only in the order of their requirements

  const STRICT := Requirement("library", "old versions only")
  const LENIENT := Requirement("library", "any version")

  function Listing(roots: seq<Requirement>): World {
    World("project", roots, map["library" := Distribution("library", "2", [])], map["library" := "2"],
          (specifier, version) => specifier == "any version")
  }

  /** The requirement listed last is checked, the other one is not: the same two requirements resolve in one
      order although one of them is violated, and fail in the other. */
  lemma TheOrderDecides()
    ensures EndOf(Listing([STRICT, LENIENT]), {}, [STRICT, LENIENT]) == Done({"library"})
    ensures EndOf(Listing([LENIENT, STRICT]), {}, [LENIENT, STRICT]) == Stuck(SpecifierViolated, STRICT)
    ensures !AllSatisfied(Listing([STRICT, LENIENT])) && !Agreeing(Listing([STRICT, LENIENT]))
  {
    var w, v := Listing([STRICT, LENIENT]), Listing([LENIENT, STRICT]);
    assert !w.Accepts(STRICT, "2") && w.Accepts(LENIENT, "2") && !v.Accepts(STRICT, "2");
    EndTakesLast(w, {}, [STRICT], LENIENT);
    EndTakesLast(w, {"library"}, [], STRICT);
    EndTakesLast(v, {}, [LENIENT], STRICT);
    assert [STRICT] + [LENIENT] == [STRICT, LENIENT] && [LENIENT] + [STRICT] == [LENIENT, STRICT];
    assert [STRICT] + [] == [] + [STRICT];
    assert STRICT in w.roots && LENIENT in w.roots;
    assert AskedFor(w, STRICT) && AskedFor(w, LENIENT);
  }
}
