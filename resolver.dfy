/**
  `get_path` and `gen_paths`: pick a path, or a `:`-separated list of paths, from
  the value of an environment variable or from a fallback. The process
  environment is a parameter: a map from variable names to values.
 */
module PathResolver {
  import opened Wrappers
  import opened Paths

  /** The exceptions `basedir` raises. */
  datatype Error =
    | KeyError(variable: Option<string>)  // neither the variable nor the fallback gave a path
    | ValueError(path: Path, base: Path)  // `path.relative_to(base)` failed

  datatype Result<T> = Ok(value: T) | Err(error: Error)

  type Environment = map<string, string>

  /** Python truthiness of an optional variable name: `None` and `""` are falsy. */
  predicate Named(variable: Option<string>) {
    variable.Some? && variable.value != ""
  }

  /** `os.environ.get(name)` is truthy: present and non-empty. */
  predicate IsSet(env: Environment, name: string) {
    name in env && env[name] != ""
  }

  /**
    `get_path(variable, fallback)`. The environment is only read when the name is
    truthy; a non-empty value wins over the fallback; with neither, `KeyError`.
    A fallback `Path` is always truthy, so it is returned as it is.
   */
  function GetPath(env: Environment, variable: Option<string>, fallback: Option<Path>): (r: Result<Path>)
    ensures Named(variable) && IsSet(env, variable.value) ==> r == Ok(FromString(env[variable.value]))
    ensures !(Named(variable) && IsSet(env, variable.value)) && fallback.Some? ==> r == Ok(fallback.value)
    ensures r.Err? <==> fallback.None? && !(Named(variable) && IsSet(env, variable.value))
    ensures r.Err? ==> r.error == KeyError(variable)
  {
    var envPath := if Named(variable) && variable.value in env then Some(env[variable.value]) else None;
    var path := if envPath.Some? && envPath.value != "" then Some(FromString(envPath.value)) else fallback;
    if path.None? then Err(KeyError(variable)) else Ok(path.value)
  }

  /** With a falsy name the environment plays no part. */
  lemma GetPathUnnamedIgnoresEnvironment(env1: Environment, env2: Environment, variable: Option<string>, fallback: Option<Path>)
    requires !Named(variable)
    ensures GetPath(env1, variable, fallback) == GetPath(env2, variable, fallback)
    ensures GetPath(env1, variable, fallback) == if fallback.Some? then Ok(fallback.value) else Err(KeyError(variable))
  {
  }

  /** `os.environ.get(name) or fallback`. */
  function ChosenSpec(env: Environment, name: string, fallback: Option<string>): Option<string>
  {
    if IsSet(env, name) then Some(env[name]) else fallback
  }

  /**
    `get_path(None, Path(segment))` for each segment in order. Every `Path` is
    truthy, an empty segment's `Path("")` (that is, `.`) included, so no segment fails.
   */
  function ResolveSegments(env: Environment, segments: seq<string>): (r: Result<seq<Path>>)
    ensures r.Ok? && |r.value| == |segments|
    ensures forall i :: 0 <= i < |segments| ==> r.value[i] == FromString(segments[i])
    decreases |segments|
  {
    if |segments| == 0 then Ok([])
    else
      match GetPath(env, None, Some(FromString(segments[0])))
      case Err(e) => Err(e)
      case Ok(p) =>
        match ResolveSegments(env, segments[1..])
        case Err(e) => Err(e)
        case Ok(ps) => Ok([p] + ps)
  }

  /**
    `list(gen_paths(name, fallback))`: `KeyError` before any element when neither
    the variable nor the fallback is a non-empty string, otherwise one path per
    `:`-separated segment of the chosen string, in order.
   */
  function GenPaths(env: Environment, name: string, fallback: Option<string>): (r: Result<seq<Path>>)
    ensures r.Err? <==> !IsSet(env, name) && (fallback.None? || fallback.value == "")
    ensures r.Err? ==> r.error == KeyError(Some(name))
    ensures r.Ok? ==> |r.value| >= 1 && forall i :: 0 <= i < |r.value| ==> Normal(r.value[i])
    ensures r.Ok? ==>
      var segments := Split(ChosenSpec(env, name, fallback).value, ':');
      |r.value| == |segments| &&
      forall i :: 0 <= i < |segments| ==> r.value[i] == FromString(segments[i])
  {
    var spec := ChosenSpec(env, name, fallback);
    if spec.None? || spec.value == "" then Err(KeyError(Some(name)))
    else ResolveSegments(env, Split(spec.value, ':'))
  }

  /** No component of the path holds a `:`, so it survives a `:`-joined list. */
  predicate ColonFree(p: Path) {
    forall i :: 0 <= i < |p.parts| ==> ':' !in p.parts[i]
  }

  /** `":".join(p.as_posix() for p in ps)`. */
  function SpecOf(ps: seq<Path>): string {
    JoinWith(seq(|ps|, i requires 0 <= i < |ps| => ToString(ps[i])), ':')
  }

  /** The list spelled by `SpecOf(ps)` is non-empty and splits back into the strings of `ps`. */
  lemma SpecOfSplits(ps: seq<Path>)
    requires |ps| >= 1
    requires forall i :: 0 <= i < |ps| ==> Normal(ps[i]) && ColonFree(ps[i])
    ensures SpecOf(ps) != ""
    ensures Split(SpecOf(ps), ':') == seq(|ps|, i requires 0 <= i < |ps| => ToString(ps[i]))
  {
    var strings := seq(|ps|, i requires 0 <= i < |ps| => ToString(ps[i]));
    forall i | 0 <= i < |ps| ensures ':' !in strings[i] {
      ToStringAvoids(ps[i], ':');
    }
    SplitJoin(strings, ':');
    ToStringNonEmpty(ps[0]);
    if |strings| > 1 {
      assert SpecOf(ps)[..|strings[0]|] == strings[0];
    }
  }

  /** Each segment of `SpecOf(ps)` parses back to its path. */
  lemma GenPathsResult(env: Environment, name: string, fallback: Option<string>, ps: seq<Path>)
    requires |ps| >= 1
    requires forall i :: 0 <= i < |ps| ==> Normal(ps[i]) && ColonFree(ps[i])
    requires ChosenSpec(env, name, fallback) == Some(SpecOf(ps))
    ensures GenPaths(env, name, fallback) == Ok(ps)
  {
    SpecOfSplits(ps);
    var r := GenPaths(env, name, fallback);
    assert r.Ok? && |r.value| == |ps|;
    forall i | 0 <= i < |ps| ensures r.value[i] == ps[i] {
      FromStringToString(ps[i]);
    }
    assert r.value == ps;
  }

  /** A list joined with `:` into the fallback comes back unchanged when the variable is unset. */
  lemma GenPathsRoundTripFallback(env: Environment, name: string, ps: seq<Path>)
    requires !IsSet(env, name)
    requires |ps| >= 1
    requires forall i :: 0 <= i < |ps| ==> Normal(ps[i]) && ColonFree(ps[i])
    ensures GenPaths(env, name, Some(SpecOf(ps))) == Ok(ps)
  {
    GenPathsResult(env, name, Some(SpecOf(ps)), ps);
  }

  /** A list joined with `:` into the variable comes back unchanged, whatever the fallback. */
  lemma GenPathsRoundTripEnvironment(env: Environment, name: string, fallback: Option<string>, ps: seq<Path>)
    requires name in env && env[name] == SpecOf(ps)
    requires |ps| >= 1
    requires forall i :: 0 <= i < |ps| ==> Normal(ps[i]) && ColonFree(ps[i])
    ensures GenPaths(env, name, fallback) == Ok(ps)
  {
    SpecOfSplits(ps);
    GenPathsResult(env, name, fallback, ps);
  }

  /**
    An empty segment is not an error: `Path("")` is `.`, which is truthy, so
    the segment between the colons of `a::b` gives `.`.
   */
  lemma GenPathsEmptySegment(env: Environment, name: string, fallback: Option<string>, i: nat)
    requires GenPaths(env, name, fallback).Ok?
    requires i < |Split(ChosenSpec(env, name, fallback).value, ':')|
    requires Split(ChosenSpec(env, name, fallback).value, ':')[i] == ""
    ensures i < |GenPaths(env, name, fallback).value|
    ensures GenPaths(env, name, fallback).value[i] == Current
  {
    assert FromString("") == Current;
  }

  /** The list `/a::/b` gives three paths, the middle one `.`. */
  lemma GenPathsEmptySegmentExample(env: Environment, name: string, a: string, b: string)
    requires !IsSet(env, name)
    requires IsComponent(a) && IsComponent(b) && ':' !in a && ':' !in b
    ensures GenPaths(env, name, Some("/" + a + "::/" + b)) == Ok([Path(true, [a]), Current, Path(true, [b])])
  {
    var spec := "/" + a + "::/" + b;
    var first, second := Path(true, [a]), Path(true, [b]);
    assert ToString(first) == "/" + a;
    assert ToString(second) == "/" + b;
    assert spec == ToString(first) + [':'] + ("" + [':'] + ToString(second));
    SplitAt(ToString(first), ':', "" + [':'] + ToString(second));
    SplitAt("", ':', ToString(second));
    SplitPlain(ToString(second), ':');
    assert Split(spec, ':') == [ToString(first), "", ToString(second)];
    FromStringToString(first);
    FromStringToString(second);
    assert FromString("") == Current;
    var r := GenPaths(env, name, Some(spec));
    assert r.Ok? && |r.value| == 3;
    assert r.value == [first, Current, second];
  }
}
