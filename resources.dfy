/**
  `ensure_resource` and `find_resource` and their bindings to the standard
  locations. The filesystem is modelled as the set of directories that exist.
 */
module ResourceAccessor {
  import opened Wrappers
  import opened Paths
  import opened PathResolver
  import opened StandardLocations

  /** The first `k` components of `p`: an ancestor of `p`, or `p` itself. */
  function Prefix(p: Path, k: nat): Path
    requires k <= |p.parts|
  {
    Path(p.absolute, p.parts[..k])
  }

  /** `p` and every ancestor of it, down to `/` or `.`. */
  function Ancestors(p: Path): (r: set<Path>)
    ensures p in r
    ensures forall q :: q in r ==> q.absolute == p.absolute && q.parts <= p.parts
  {
    assert Prefix(p, |p.parts|) == p;
    set k | 0 <= k <= |p.parts| :: Prefix(p, k)
  }

  /** A real directory tree: the parent of every existing directory exists. */
  predicate AncestorClosed(dirs: set<Path>) {
    forall p :: p in dirs ==> Ancestors(p) <= dirs
  }

  /**
    What `ensure_resource(base, *subs)` returns: the join, or `ValueError` when the
    join is not lexically under `base`. The check comes before any directory is made.
   */
  function EnsureOutcome(base: Path, subs: seq<string>): (r: Result<Path>)
    ensures r.Ok? ==> r.value == JoinAll(base, subs)
    ensures r.Ok? <==> JoinAll(base, subs).absolute == base.absolute && base.parts <= JoinAll(base, subs).parts
    ensures r.Err? ==> r.error == ValueError(JoinAll(base, subs), base)
  {
    var path := JoinAll(base, subs);
    if RelativeTo(path, base).Some? then Ok(path) else Err(ValueError(path, base))
  }

  /** The directories after `ensure_resource(base, *subs)`: `mkdir(parents=True, exist_ok=True)` on success, nothing on error. */
  function AfterEnsure(dirs: set<Path>, base: Path, subs: seq<string>): set<Path>
  {
    match EnsureOutcome(base, subs)
    case Ok(path) => dirs + Ancestors(path)
    case Err(_) => dirs
  }

  /** Sub-paths none of which starts with `/` never escape. */
  lemma EnsureRelativeSucceeds(base: Path, subs: seq<string>)
    requires forall i :: 0 <= i < |subs| ==> !StartsWithSlash(subs[i])
    ensures EnsureOutcome(base, subs) == Ok(JoinAll(base, subs))
  {
    JoinAllRelative(base, subs);
  }

  /**
    An absolute sub-path replaces the base, and the result still succeeds when it
    lies under the base: `ensure_resource(Path("/home"), "/home/x")` is `/home/x`.
   */
  lemma EnsureAbsoluteInside(x: string)
    requires IsComponent(x)
    ensures EnsureOutcome(Path(true, ["home"]), ["/home/" + x]) == Ok(Path(true, ["home", x]))
  {
    var p := Path(true, ["home", x]);
    assert p.parts[1..] == [x];
    assert JoinWith([x], '/') == x;
    assert JoinWith(p.parts, '/') == "home" + ['/'] + JoinWith([x], '/');
    assert ToString(p) == "/" + ("home" + ['/'] + x);
    assert "/" + ("home" + ['/'] + x) == "/home/" + x;
    Parses("/home/" + x, p);
    assert JoinAll(Path(true, ["home"]), ["/home/" + x]) == JoinAll(p, []);
  }

  /** On success the path and every ancestor exist afterwards, and nothing that existed is lost. */
  lemma EnsureCreates(dirs: set<Path>, base: Path, subs: seq<string>)
    requires EnsureOutcome(base, subs).Ok?
    ensures var path := EnsureOutcome(base, subs).value;
      path in AfterEnsure(dirs, base, subs) && Ancestors(path) <= AfterEnsure(dirs, base, subs)
    ensures dirs <= AfterEnsure(dirs, base, subs)
    ensures forall q :: q in AfterEnsure(dirs, base, subs) - dirs ==> q in Ancestors(EnsureOutcome(base, subs).value)
  {
  }

  /** An escaping sub-path creates nothing. */
  lemma EnsureEscapeCreatesNothing(dirs: set<Path>, base: Path, subs: seq<string>)
    requires EnsureOutcome(base, subs).Err?
    ensures AfterEnsure(dirs, base, subs) == dirs
  {
  }

  /** An ancestor of an ancestor is an ancestor. */
  lemma AncestorsOfAncestor(p: Path, q: Path)
    requires q in Ancestors(p)
    ensures Ancestors(q) <= Ancestors(p)
  {
    var k :| 0 <= k <= |p.parts| && q == Prefix(p, k);
    forall a | a in Ancestors(q) ensures a in Ancestors(p) {
      var j :| 0 <= j <= |q.parts| && a == Prefix(q, j);
      assert q.parts[..j] == p.parts[..j];
      assert a == Prefix(p, j);
    }
  }

  /** Adding a path with all its ancestors keeps a tree closed under parents. */
  lemma AddAncestorsKeepsClosed(dirs: set<Path>, path: Path)
    requires AncestorClosed(dirs)
    ensures AncestorClosed(dirs + Ancestors(path))
  {
    forall q | q in dirs + Ancestors(path) ensures Ancestors(q) <= dirs + Ancestors(path) {
      if q !in dirs {
        AncestorsOfAncestor(path, q);
      }
    }
  }

  /** Creating a directory with its parents keeps the tree closed under parents. */
  lemma EnsureKeepsTreeClosed(dirs: set<Path>, base: Path, subs: seq<string>)
    requires AncestorClosed(dirs)
    ensures AncestorClosed(AfterEnsure(dirs, base, subs))
  {
    var outcome := EnsureOutcome(base, subs);
    if outcome.Ok? {
      AddAncestorsKeepsClosed(dirs, outcome.value);
    }
  }

  /** A second identical call returns the same and changes nothing more. */
  lemma EnsureIdempotent(dirs: set<Path>, base: Path, subs: seq<string>)
    ensures AfterEnsure(AfterEnsure(dirs, base, subs), base, subs) == AfterEnsure(dirs, base, subs)
  {
  }

  /** When the directory already exists in a closed tree, nothing changes. */
  lemma EnsureExistingChangesNothing(dirs: set<Path>, base: Path, subs: seq<string>)
    requires AncestorClosed(dirs)
    requires EnsureOutcome(base, subs).Ok? && EnsureOutcome(base, subs).value in dirs
    ensures AfterEnsure(dirs, base, subs) == dirs
  {
  }

  /** `ensure_resource(Path("/home"), "/")` raises `ValueError`: `/` replaces the base. */
  lemma EnsureSlashEscapes()
    ensures EnsureOutcome(Path(true, ["home"]), ["/"]) == Err(ValueError(Path(true, []), Path(true, ["home"])))
  {
    SlashIsRoot();
    assert JoinAll(Path(true, ["home"]), ["/"]) == JoinAll(Path(true, []), []);
  }

  /** The check is lexical: `/home/..` counts as under `/home`. */
  lemma EnsureDotDotStaysInside()
    ensures EnsureOutcome(Path(true, ["home"]), [".."]) == Ok(Path(true, ["home", ".."]))
  {
    Parses("..", Path(false, [".."]));
    assert JoinAll(Path(true, ["home"]), [".."]) == JoinAll(Path(true, ["home", ".."]), []);
    assert RelativeTo(Path(true, ["home", ".."]), Path(true, ["home"])) == Some(Path(false, [".."]));
  }

  // ---------------------------------------------------------------------------
  // find_resource
  // ---------------------------------------------------------------------------

  /** The join of `base` and `sub` is not lexically under `base`. */
  predicate Escapes(base: Path, sub: Path) {
    RelativeTo(Join(base, sub), base).None?
  }

  /**
    `list(find_resource(bases, sub))` for a sub-path built once: each base in
    order, `ValueError` at the first join that escapes, otherwise the joins that exist.
   */
  function FindFrom(existing: set<Path>, bases: seq<Path>, sub: Path): (r: Result<seq<Path>>)
    ensures r.Ok? ==> |r.value| <= |bases|
    ensures r.Ok? ==> forall i :: 0 <= i < |r.value| ==> r.value[i] in existing
    decreases |bases|
  {
    if |bases| == 0 then Ok([])
    else
      var path := Join(bases[0], sub);
      if RelativeTo(path, bases[0]).None? then Err(ValueError(path, bases[0]))
      else
        match FindFrom(existing, bases[1..], sub)
        case Err(e) => Err(e)
        case Ok(rest) => Ok(if path in existing then [path] + rest else rest)
  }

  /** `list(find_resource(bases, *subs))`: `Path(*subs)` joined to each base. */
  function FindOutcome(existing: set<Path>, bases: seq<Path>, subs: seq<string>): Result<seq<Path>>
  {
    FindFrom(existing, bases, JoinAll(Current, subs))
  }

  /** `base / sub` for each base, in order: the reference for what `find_resource` looks at. */
  function Joined(bases: seq<Path>, sub: Path): seq<Path>
  {
    seq(|bases|, i requires 0 <= i < |bases| => Join(bases[i], sub))
  }

  /** The paths of `ps` that exist, in order, duplicates kept. */
  function KeepExisting(existing: set<Path>, ps: seq<Path>): (r: seq<Path>)
    ensures |r| <= |ps|
    ensures forall p :: p in r <==> p in ps && p in existing
    decreases |ps|
  {
    if |ps| == 0 then []
    else if ps[0] in existing then [ps[0]] + KeepExisting(existing, ps[1..])
    else KeepExisting(existing, ps[1..])
  }

  /** With no escaping base, `find_resource` keeps exactly the joins that exist, in base order. */
  lemma {:induction false} FindIsFilter(existing: set<Path>, bases: seq<Path>, sub: Path)
    requires forall i :: 0 <= i < |bases| ==> !Escapes(bases[i], sub)
    ensures FindFrom(existing, bases, sub) == Ok(KeepExisting(existing, Joined(bases, sub)))
    decreases |bases|
  {
    if |bases| > 0 {
      assert !Escapes(bases[0], sub);
      FindIsFilter(existing, bases[1..], sub);
      assert Joined(bases, sub)[1..] == Joined(bases[1..], sub);
    }
  }

  /** `find_resource` fails exactly when some base lets the sub-path escape. */
  lemma {:induction false} FindFailsIff(existing: set<Path>, bases: seq<Path>, sub: Path)
    ensures FindFrom(existing, bases, sub).Err? <==> exists i :: 0 <= i < |bases| && Escapes(bases[i], sub)
    decreases |bases|
  {
    if |bases| > 0 {
      FindFailsIff(existing, bases[1..], sub);
      if exists i :: 0 <= i < |bases[1..]| && Escapes(bases[1..][i], sub) {
        var i :| 0 <= i < |bases[1..]| && Escapes(bases[1..][i], sub);
        assert Escapes(bases[i + 1], sub);
      }
      if exists i :: 0 <= i < |bases| && Escapes(bases[i], sub) {
        var i :| 0 <= i < |bases| && Escapes(bases[i], sub);
        if i > 0 {
          assert Escapes(bases[1..][i - 1], sub);
        }
      }
    }
  }

  /** The error is the one of the first escaping base; the later bases are never looked at. */
  lemma {:induction false} FindFirstEscape(existing: set<Path>, bases: seq<Path>, sub: Path, i: nat)
    requires i < |bases| && Escapes(bases[i], sub)
    requires forall j :: 0 <= j < i ==> !Escapes(bases[j], sub)
    ensures FindFrom(existing, bases, sub) == Err(ValueError(Join(bases[i], sub), bases[i]))
    decreases i
  {
    if i > 0 {
      assert !Escapes(bases[0], sub);
      FindFirstEscape(existing, bases[1..], sub, i - 1);
    }
  }

  /** A sub-path none of whose parts starts with `/` makes `find_resource` succeed for every base list. */
  lemma FindRelativeSucceeds(existing: set<Path>, bases: seq<Path>, subs: seq<string>)
    requires forall i :: 0 <= i < |subs| ==> !StartsWithSlash(subs[i])
    ensures FindOutcome(existing, bases, subs) == Ok(KeepExisting(existing, Joined(bases, JoinAll(Current, subs))))
  {
    var sub := JoinAll(Current, subs);
    JoinAllRelative(Current, subs);
    forall i | 0 <= i < |bases| ensures !Escapes(bases[i], sub) {
      RelativeToJoin(bases[i], sub);
    }
    FindIsFilter(existing, bases, sub);
  }

  /** After `ensure_resource(base, *subs)` succeeds, `find_resource([base], *subs)` finds it. */
  lemma FindAfterEnsure(dirs: set<Path>, base: Path, subs: seq<string>)
    requires EnsureOutcome(base, subs).Ok?
    ensures FindOutcome(AfterEnsure(dirs, base, subs), [base], subs) == Ok([EnsureOutcome(base, subs).value])
  {
    var sub := JoinAll(Current, subs);
    var path := EnsureOutcome(base, subs).value;
    JoinSubPath(base, subs);
    assert Join(base, sub) == path;
    var after := AfterEnsure(dirs, base, subs);
    assert path in after;
    assert RelativeTo(path, base).Some?;
    assert [base][1..] == [];
    assert FindFrom(after, [], sub) == Ok([]);
    assert FindFrom(after, [base], sub) == Ok([path] + []);
    assert [path] + [] == [path];
  }

  /** `Ok(xs)` with `prefix` put in front; errors pass through. */
  function Prepend(prefix: seq<Path>, r: Result<seq<Path>>): Result<seq<Path>>
  {
    match r
    case Ok(xs) => Ok(prefix + xs)
    case Err(e) => Err(e)
  }

  /** One base examined: its escape ends the search, otherwise its join is kept when it exists. */
  lemma FindStep(existing: set<Path>, bases: seq<Path>, sub: Path, found: seq<Path>)
    requires |bases| > 0
    ensures var path := Join(bases[0], sub);
      Prepend(found, FindFrom(existing, bases, sub)) ==
        if RelativeTo(path, bases[0]).None? then Err(ValueError(path, bases[0]))
        else Prepend(if path in existing then found + [path] else found, FindFrom(existing, bases[1..], sub))
  {
    var path := Join(bases[0], sub);
    if RelativeTo(path, bases[0]).Some? && FindFrom(existing, bases[1..], sub).Ok? {
      var rest := FindFrom(existing, bases[1..], sub).value;
      assert found + ([path] + rest) == (found + [path]) + rest;
    }
  }

  /** The filesystem as the set of existing directories, which `ensure_resource` grows. */
  class FileSystem {
    var dirs: set<Path>

    ghost predicate Valid()
      reads this
    {
      AncestorClosed(dirs)
    }

    constructor (existing: set<Path>)
      requires AncestorClosed(existing)
      ensures Valid() && dirs == existing
    {
      dirs := existing;
    }

    /** `mkdir(parents=True, exist_ok=True)`: the path and all its ancestors exist afterwards. */
    method MakeDirs(path: Path)
      requires Valid()
      modifies this
      ensures Valid()
      ensures dirs == old(dirs) + Ancestors(path)
    {
      AddAncestorsKeepsClosed(dirs, path);
      dirs := dirs + Ancestors(path);
    }

    /** `ensure_resource(base, *subs)`. */
    method EnsureResource(base: Path, subs: seq<string>) returns (r: Result<Path>)
      requires Valid()
      modifies this
      ensures Valid()
      ensures r == EnsureOutcome(base, subs)
      ensures dirs == AfterEnsure(old(dirs), base, subs)
    {
      var path := JoinAll(base, subs);
      if RelativeTo(path, base).None? {
        return Err(ValueError(path, base));
      }
      MakeDirs(path);
      return Ok(path);
    }

    method EnsureDataResource(locations: Locations, subs: seq<string>) returns (r: Result<Path>)
      requires Valid()
      modifies this
      ensures Valid()
      ensures r == EnsureOutcome(locations.dataHome, subs)
      ensures dirs == AfterEnsure(old(dirs), locations.dataHome, subs)
    {
      r := EnsureResource(locations.dataHome, subs);
    }

    method EnsureConfigResource(locations: Locations, subs: seq<string>) returns (r: Result<Path>)
      requires Valid()
      modifies this
      ensures Valid()
      ensures r == EnsureOutcome(locations.configHome, subs)
      ensures dirs == AfterEnsure(old(dirs), locations.configHome, subs)
    {
      r := EnsureResource(locations.configHome, subs);
    }

    method EnsureStateResource(locations: Locations, subs: seq<string>) returns (r: Result<Path>)
      requires Valid()
      modifies this
      ensures Valid()
      ensures r == EnsureOutcome(locations.stateHome, subs)
      ensures dirs == AfterEnsure(old(dirs), locations.stateHome, subs)
    {
      r := EnsureResource(locations.stateHome, subs);
    }

    method EnsureCacheResource(locations: Locations, subs: seq<string>) returns (r: Result<Path>)
      requires Valid()
      modifies this
      ensures Valid()
      ensures r == EnsureOutcome(locations.cacheHome, subs)
      ensures dirs == AfterEnsure(old(dirs), locations.cacheHome, subs)
    {
      r := EnsureResource(locations.cacheHome, subs);
    }

    /** `list(find_resource(bases, *subs))`: the loop over the bases. */
    method FindResource(bases: seq<Path>, subs: seq<string>) returns (r: Result<seq<Path>>)
      ensures r == FindOutcome(dirs, bases, subs)
    {
      var sub := JoinAll(Current, subs);
      var found: seq<Path> := [];
      var i := 0;
      assert bases[0..] == bases;
      match FindFrom(dirs, bases, sub) {
        case Ok(xs) => assert [] + xs == xs;
        case Err(_) =>
      }
      while i < |bases|
        invariant 0 <= i <= |bases|
        invariant FindFrom(dirs, bases, sub) == Prepend(found, FindFrom(dirs, bases[i..], sub))
      {
        var base := bases[i];
        var path := Join(base, sub);
        assert bases[i..][0] == base && bases[i..][1..] == bases[i + 1..];
        FindStep(dirs, bases[i..], sub, found);
        if RelativeTo(path, base).None? {
          return Err(ValueError(path, base));
        }
        if path in dirs {
          found := found + [path];
        }
        i := i + 1;
      }
      assert bases[i..] == [];
      assert found + [] == found;
      return Ok(found);
    }

    /** `find_data_resource`: `XDG_DATA_HOME` first, then `XDG_DATA_DIRS`. */
    method FindDataResource(locations: Locations, subs: seq<string>) returns (r: Result<seq<Path>>)
      ensures r == FindOutcome(dirs, [locations.dataHome] + locations.dataDirs, subs)
    {
      r := FindResource([locations.dataHome] + locations.dataDirs, subs);
    }

    /** `find_config_resource`: `XDG_CONFIG_HOME` first, then `XDG_CONFIG_DIRS`. */
    method FindConfigResource(locations: Locations, subs: seq<string>) returns (r: Result<seq<Path>>)
      ensures r == FindOutcome(dirs, [locations.configHome] + locations.configDirs, subs)
    {
      r := FindResource([locations.configHome] + locations.configDirs, subs);
    }
  }
}
