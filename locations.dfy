/**
  The module-level constants of the base directory module: the seven locations of
  the XDG Base Directory Specification, version 0.8 ("Environment variables"),
  computed once from an environment snapshot, the user's home directory and the
  user id, all passed in.
 */
module StandardLocations {
  import opened Wrappers
  import opened Paths
  import opened PathResolver

  datatype Locations = Locations(
    home: Path,
    dataHome: Path,
    configHome: Path,
    stateHome: Path,
    cacheHome: Path,
    dataDirs: seq<Path>,
    configDirs: seq<Path>,
    runtimeDir: Path)

  /** The decimal digit of `d`. */
  function Digit(d: nat): char
    requires d < 10
  {
    ('0' as int + d) as char
  }

  predicate IsDigit(c: char) {
    '0' <= c <= '9'
  }

  /** `f"{n}"` for a natural number: a non-empty string of decimal digits. */
  function DecimalString(n: nat): (r: string)
    ensures |r| >= 1 && forall i :: 0 <= i < |r| ==> IsDigit(r[i])
    ensures r[0] == '0' ==> n == 0
    decreases n
  {
    if n < 10 then [Digit(n)] else DecimalString(n / 10) + [Digit(n % 10)]
  }

  /** The number a string of decimal digits spells: the inverse of `DecimalString`. */
  function DecimalValue(s: string): nat
    requires forall i :: 0 <= i < |s| ==> IsDigit(s[i])
    decreases |s|
  {
    if |s| == 0 then 0 else assert IsDigit(s[|s| - 1]); DecimalValue(s[..|s| - 1]) * 10 + (s[|s| - 1] as int - '0' as int)
  }

  lemma {:induction false} DecimalRoundTrip(n: nat)
    ensures DecimalValue(DecimalString(n)) == n
    decreases n
  {
    var s := DecimalString(n);
    if n >= 10 {
      DecimalRoundTrip(n / 10);
      assert s[..|s| - 1] == DecimalString(n / 10);
    }
  }

  /** `f"/tmp/user-{uid}"`. */
  function RuntimeFallback(uid: nat): string {
    "/tmp/user-" + DecimalString(uid)
  }

  predicate AllNormal(ps: seq<Path>) {
    forall i :: 0 <= i < |ps| ==> Normal(ps[i])
  }

  /**
    One per-user location: `get_path(name, home / sub)`. The fallback is a `Path`,
    so the lookup never raises.
   */
  function UserLocation(env: Environment, name: string, home: Path, sub: string): (p: Path)
    ensures Named(Some(name)) && IsSet(env, name) ==> p == FromString(env[name])
    ensures !(Named(Some(name)) && IsSet(env, name)) ==> p == Join(home, FromString(sub))
    ensures Normal(home) ==> Normal(p)
  {
    GetPath(env, Some(name), Some(Join(home, FromString(sub)))).value
  }

  /**
    One system search list: `list(gen_paths(name, spec))`. The fallback list is
    not empty, so the lookup never raises.
   */
  function SystemDirs(env: Environment, name: string, spec: string): (ps: seq<Path>)
    requires spec != ""
    ensures |ps| >= 1 && AllNormal(ps)
    ensures var chosen := if IsSet(env, name) then env[name] else spec;
      |ps| == |Split(chosen, ':')| &&
      forall i :: 0 <= i < |ps| ==> ps[i] == FromString(Split(chosen, ':')[i])
  {
    GenPaths(env, name, Some(spec)).value
  }

  /** `get_path("XDG_RUNTIME_DIR", Path(f"/tmp/user-{uid}"))`. */
  function RuntimeDir(env: Environment, uid: nat): (p: Path)
    ensures IsSet(env, "XDG_RUNTIME_DIR") ==> p == FromString(env["XDG_RUNTIME_DIR"])
    ensures !IsSet(env, "XDG_RUNTIME_DIR") ==> p == Path(true, ["tmp", "user-" + DecimalString(uid)])
    ensures Normal(p)
  {
    RuntimeDefault(uid);
    GetPath(env, Some("XDG_RUNTIME_DIR"), Some(FromString(RuntimeFallback(uid)))).value
  }

  /** The constants `HOME` to `XDG_RUNTIME_DIR`, in the order the module defines them. */
  function Initialize(env: Environment, home: Path, uid: nat): (r: Locations)
    ensures r.home == home
    ensures |r.dataDirs| >= 1 && |r.configDirs| >= 1
    ensures Normal(home) ==>
      Normal(r.dataHome) && Normal(r.configHome) && Normal(r.stateHome) && Normal(r.cacheHome) &&
      AllNormal(r.dataDirs) && AllNormal(r.configDirs) && Normal(r.runtimeDir)
  {
    Locations(
      home,
      UserLocation(env, "XDG_DATA_HOME", home, ".local/share"),
      UserLocation(env, "XDG_CONFIG_HOME", home, ".config"),
      UserLocation(env, "XDG_STATE_HOME", home, ".local/state"),
      UserLocation(env, "XDG_CACHE_HOME", home, ".cache"),
      SystemDirs(env, "XDG_DATA_DIRS", "/usr/local/share/:/usr/share/"),
      SystemDirs(env, "XDG_CONFIG_DIRS", "/etc/xdg"),
      RuntimeDir(env, uid))
  }

  // One lemma per constant: the variable overrides, otherwise the default.

  lemma DataHome(env: Environment, home: Path, uid: nat)
    ensures Initialize(env, home, uid).dataHome ==
      if IsSet(env, "XDG_DATA_HOME") then FromString(env["XDG_DATA_HOME"])
      else Path(home.absolute, home.parts + [".local", "share"])
  {
    LocalShareParses();
  }

  lemma ConfigHome(env: Environment, home: Path, uid: nat)
    ensures Initialize(env, home, uid).configHome ==
      if IsSet(env, "XDG_CONFIG_HOME") then FromString(env["XDG_CONFIG_HOME"])
      else Path(home.absolute, home.parts + [".config"])
  {
    ConfigParses();
  }

  lemma StateHome(env: Environment, home: Path, uid: nat)
    ensures Initialize(env, home, uid).stateHome ==
      if IsSet(env, "XDG_STATE_HOME") then FromString(env["XDG_STATE_HOME"])
      else Path(home.absolute, home.parts + [".local", "state"])
  {
    LocalStateParses();
  }

  lemma CacheHome(env: Environment, home: Path, uid: nat)
    ensures Initialize(env, home, uid).cacheHome ==
      if IsSet(env, "XDG_CACHE_HOME") then FromString(env["XDG_CACHE_HOME"])
      else Path(home.absolute, home.parts + [".cache"])
  {
    CacheParses();
  }

  /** The `:`-separated value of `XDG_DATA_DIRS`, else `/usr/local/share` and `/usr/share`. */
  lemma DataDirs(env: Environment, home: Path, uid: nat)
    ensures var dirs := Initialize(env, home, uid).dataDirs;
      if IsSet(env, "XDG_DATA_DIRS") then
        |dirs| == |Split(env["XDG_DATA_DIRS"], ':')| &&
        forall i :: 0 <= i < |dirs| ==> dirs[i] == FromString(Split(env["XDG_DATA_DIRS"], ':')[i])
      else dirs == [Path(true, ["usr", "local", "share"]), Path(true, ["usr", "share"])]
  {
    if !IsSet(env, "XDG_DATA_DIRS") {
      DataDirsDefault(env);
    }
  }

  /** The `:`-separated value of `XDG_CONFIG_DIRS`, else `/etc/xdg`. */
  lemma ConfigDirs(env: Environment, home: Path, uid: nat)
    ensures var dirs := Initialize(env, home, uid).configDirs;
      if IsSet(env, "XDG_CONFIG_DIRS") then
        |dirs| == |Split(env["XDG_CONFIG_DIRS"], ':')| &&
        forall i :: 0 <= i < |dirs| ==> dirs[i] == FromString(Split(env["XDG_CONFIG_DIRS"], ':')[i])
      else dirs == [Path(true, ["etc", "xdg"])]
  {
    if !IsSet(env, "XDG_CONFIG_DIRS") {
      ConfigDirsDefault(env);
    }
  }

  /** `XDG_RUNTIME_DIR`, else `/tmp/user-<uid>` (a usable default, not a compliant runtime directory). */
  lemma RuntimeDirectory(env: Environment, home: Path, uid: nat)
    ensures Initialize(env, home, uid).runtimeDir ==
      if IsSet(env, "XDG_RUNTIME_DIR") then FromString(env["XDG_RUNTIME_DIR"])
      else Path(true, ["tmp", "user-" + DecimalString(uid)])
  {
  }

  /** With none of the variables set, every location is its documented default. */
  lemma InitializeDefaults(env: Environment, home: Path, uid: nat)
    requires !IsSet(env, "XDG_DATA_HOME") && !IsSet(env, "XDG_CONFIG_HOME")
    requires !IsSet(env, "XDG_STATE_HOME") && !IsSet(env, "XDG_CACHE_HOME")
    requires !IsSet(env, "XDG_DATA_DIRS") && !IsSet(env, "XDG_CONFIG_DIRS")
    requires !IsSet(env, "XDG_RUNTIME_DIR")
    ensures var r := Initialize(env, home, uid);
      r.home == home &&
      r.dataHome == Path(home.absolute, home.parts + [".local", "share"]) &&
      r.configHome == Path(home.absolute, home.parts + [".config"]) &&
      r.stateHome == Path(home.absolute, home.parts + [".local", "state"]) &&
      r.cacheHome == Path(home.absolute, home.parts + [".cache"]) &&
      r.dataDirs == [Path(true, ["usr", "local", "share"]), Path(true, ["usr", "share"])] &&
      r.configDirs == [Path(true, ["etc", "xdg"])] &&
      r.runtimeDir == Path(true, ["tmp", "user-" + DecimalString(uid)])
  {
    DataHome(env, home, uid);
    ConfigHome(env, home, uid);
    StateHome(env, home, uid);
    CacheHome(env, home, uid);
    DataDirs(env, home, uid);
    ConfigDirs(env, home, uid);
    RuntimeDirectory(env, home, uid);
  }

  /** Every variable set to `/` makes every location `/`. */
  lemma InitializeAllRoot(env: Environment, home: Path, uid: nat)
    requires "XDG_DATA_HOME" in env && env["XDG_DATA_HOME"] == "/"
    requires "XDG_CONFIG_HOME" in env && env["XDG_CONFIG_HOME"] == "/"
    requires "XDG_STATE_HOME" in env && env["XDG_STATE_HOME"] == "/"
    requires "XDG_CACHE_HOME" in env && env["XDG_CACHE_HOME"] == "/"
    requires "XDG_DATA_DIRS" in env && env["XDG_DATA_DIRS"] == "/"
    requires "XDG_CONFIG_DIRS" in env && env["XDG_CONFIG_DIRS"] == "/"
    requires "XDG_RUNTIME_DIR" in env && env["XDG_RUNTIME_DIR"] == "/"
    ensures var r := Initialize(env, home, uid);
      r.dataHome == r.configHome == r.stateHome == r.cacheHome == r.runtimeDir == Path(true, []) &&
      r.dataDirs == r.configDirs == [Path(true, [])]
  {
    RootParses();
    DataHome(env, home, uid);
    ConfigHome(env, home, uid);
    StateHome(env, home, uid);
    CacheHome(env, home, uid);
    DataDirs(env, home, uid);
    ConfigDirs(env, home, uid);
    RuntimeDirectory(env, home, uid);
  }

  // The literal defaults, each parsed in a lemma of its own.

  lemma RootParses()
    ensures FromString("/") == Path(true, []) && Split("/", ':') == ["/"]
  {
    SlashIsRoot();
    SplitPlain("/", ':');
  }

  // The per-user defaults, one literal per lemma: several literals in one proof are costly.

  lemma LocalShareParses()
    ensures FromString(".local/share") == Path(false, [".local", "share"])
  {
    ParsesRelativeTwo(".local/share", ".local", "share");
  }

  lemma ConfigParses()
    ensures FromString(".config") == Path(false, [".config"])
  {
    ParsesOne(".config");
  }

  lemma LocalStateParses()
    ensures FromString(".local/state") == Path(false, [".local", "state"])
  {
    ParsesRelativeTwo(".local/state", ".local", "state");
  }

  lemma CacheParses()
    ensures FromString(".cache") == Path(false, [".cache"])
  {
    ParsesOne(".cache");
  }

  /** A single component parses to the relative path holding it. */
  lemma ParsesOne(c: string)
    requires IsComponent(c)
    ensures FromString(c) == Path(false, [c])
  {
    assert JoinWith([c], '/') == c;
    Parses(c, Path(false, [c]));
  }

  /** `a/b` parses to the relative path with components `a`, `b`. */
  lemma ParsesRelativeTwo(s: string, a: string, b: string)
    requires IsComponent(a) && IsComponent(b)
    requires s == a + "/" + b
    ensures FromString(s) == Path(false, [a, b])
  {
    assert [a, b][1..] == [b];
    assert JoinWith([a, b], '/') == a + ['/'] + b;
    Parses(s, Path(false, [a, b]));
  }

  /** A search list taken from its fallback is the parse of each segment. */
  lemma SystemDirsFallback(env: Environment, name: string, spec: string, segments: seq<string>)
    requires !IsSet(env, name) && spec != ""
    requires Split(spec, ':') == segments
    ensures |SystemDirs(env, name, spec)| == |segments|
    ensures forall i :: 0 <= i < |segments| ==> SystemDirs(env, name, spec)[i] == FromString(segments[i])
  {
  }

  /** A two-element list given element by element. */
  lemma TwoSegments(ps: seq<Path>, x: string, y: string)
    requires |ps| == 2
    requires forall i :: 0 <= i < 2 ==> ps[i] == FromString([x, y][i])
    ensures ps == [FromString(x), FromString(y)]
  {
    assert ps[0] == FromString([x, y][0]);
    assert ps[1] == FromString([x, y][1]);
  }

  /** The trailing slashes of `/usr/local/share/:/usr/share/` disappear. */
  lemma DataDirsDefault(env: Environment)
    requires !IsSet(env, "XDG_DATA_DIRS")
    ensures SystemDirs(env, "XDG_DATA_DIRS", "/usr/local/share/:/usr/share/")
         == [Path(true, ["usr", "local", "share"]), Path(true, ["usr", "share"])]
  {
    var spec, x, y := "/usr/local/share/:/usr/share/", "/usr/local/share/", "/usr/share/";
    DataDirsSplit();
    SystemDirsFallback(env, "XDG_DATA_DIRS", spec, [x, y]);
    TwoSegments(SystemDirs(env, "XDG_DATA_DIRS", spec), x, y);
    UsrLocalShareParses();
    UsrShareParses();
  }

  lemma DataDirsSplit()
    ensures Split("/usr/local/share/:/usr/share/", ':') == ["/usr/local/share/", "/usr/share/"]
  {
    assert "/usr/local/share/:/usr/share/" == "/usr/local/share/" + [':'] + "/usr/share/";
    assert ':' !in "/usr/local/share/" && ':' !in "/usr/share/";
    SplitAt("/usr/local/share/", ':', "/usr/share/");
    SplitPlain("/usr/share/", ':');
  }

  /** `/a/b/c/` with a trailing slash is the path with components `a`, `b`, `c`. */
  lemma ParsesThree(s: string, a: string, b: string, c: string)
    requires IsComponent(a) && IsComponent(b) && IsComponent(c)
    requires s == "/" + a + "/" + b + "/" + c + "/"
    ensures FromString(s) == Path(true, [a, b, c])
  {
    var t := "/" + a + "/" + b + "/" + c;
    assert s == t + "/";
    FromStringTrailingSlash(t);
    assert [a, b, c][1..] == [b, c];
    assert JoinWith([b, c], '/') == b + ['/'] + c;
    assert JoinWith([a, b, c], '/') == a + ['/'] + (b + ['/'] + c);
    Parses(t, Path(true, [a, b, c]));
  }

  /** `/a/b/` with a trailing slash is the path with components `a`, `b`. */
  lemma ParsesTwo(s: string, a: string, b: string)
    requires IsComponent(a) && IsComponent(b)
    requires s == "/" + a + "/" + b + "/"
    ensures FromString(s) == Path(true, [a, b])
  {
    var t := "/" + a + "/" + b;
    assert s == t + "/";
    FromStringTrailingSlash(t);
    assert JoinWith([a, b], '/') == a + ['/'] + b;
    Parses(t, Path(true, [a, b]));
  }

  lemma UsrLocalShareParses()
    ensures FromString("/usr/local/share/") == Path(true, ["usr", "local", "share"])
  {
    assert "/usr/local/share/" == "/" + "usr" + "/" + "local" + "/" + "share" + "/";
    ParsesThree("/usr/local/share/", "usr", "local", "share");
  }

  lemma UsrShareParses()
    ensures FromString("/usr/share/") == Path(true, ["usr", "share"])
  {
    assert "/usr/share/" == "/" + "usr" + "/" + "share" + "/";
    ParsesTwo("/usr/share/", "usr", "share");
  }

  lemma ConfigDirsDefault(env: Environment)
    requires !IsSet(env, "XDG_CONFIG_DIRS")
    ensures SystemDirs(env, "XDG_CONFIG_DIRS", "/etc/xdg") == [Path(true, ["etc", "xdg"])]
  {
    EtcXdgSplits();
    EtcXdgParses();
    SystemDirsFallback(env, "XDG_CONFIG_DIRS", "/etc/xdg", ["/etc/xdg"]);
  }

  lemma EtcXdgSplits()
    ensures Split("/etc/xdg", ':') == ["/etc/xdg"]
  {
    SplitPlain("/etc/xdg", ':');
  }

  lemma EtcXdgParses()
    ensures FromString("/etc/xdg") == Path(true, ["etc", "xdg"])
  {
    Parses("/etc/xdg", Path(true, ["etc", "xdg"]));
  }

  lemma RuntimeDefault(uid: nat)
    ensures FromString(RuntimeFallback(uid)) == Path(true, ["tmp", "user-" + DecimalString(uid)])
  {
    var d := DecimalString(uid);
    var u := "user-" + d;
    forall i | 0 <= i < |u| ensures u[i] != '/' {
      if i >= 5 { assert u[i] == d[i - 5] && IsDigit(d[i - 5]); }
    }
    assert u[0] == 'u';
    var p := Path(true, ["tmp", u]);
    RuntimeSpelled(u);
    Parses(RuntimeFallback(uid), p);
  }

  lemma RuntimeSpelled(u: string)
    ensures ToString(Path(true, ["tmp", u])) == "/tmp/" + u
  {
    assert JoinWith(["tmp", u], '/') == "tmp" + ['/'] + u;
  }
}
