# pyxdg2 base directories, modelled in Dafny

This project models `pyxdg2.basedir`, a small Python module for the XDG Base
Directory Specification, version 0.8. The model covers these parts of the module:

- `get_path` picks one path from an environment variable or from a fallback path.
- `gen_paths` picks a `:`-separated list of paths from an environment variable or
  from a fallback string.
- The module-level constants `HOME` through `XDG_RUNTIME_DIR` become
  `StandardLocations.Initialize`. It takes the environment, the home directory
  and the user id as parameters.
- `ensure_resource` and its four bindings join sub-paths onto a base directory,
  refuse a result that is not lexically under the base, and create the directory
  with its parents.
- `find_resource` and its two bindings join one sub-path onto each base directory
  in order, refuse the first join that escapes its base, and keep the joins that
  exist.

Paths are modelled lexically, as `pathlib.PurePosixPath` treats them. A
`Paths.Path` is a flag for a leading `/` plus the list of its components. Parsing
a string drops empty and `.` components and keeps `..`. An absolute right-hand
side of a join replaces the left-hand side. `relative_to` succeeds exactly when
the base's components are a prefix of the path's components and both have the
same anchor. The filesystem is modelled as the set of directories that exist,
held by the class `ResourceAccessor.FileSystem`. That set is always closed under
taking parents, and `ensure_resource` grows it.

Exceptions are modelled as values of `PathResolver.Result`. The `KeyError(variable)`
value stands for the `KeyError` that `get_path` and `gen_paths` raise. The
`ValueError(path, base)` value stands for the failure of `path.relative_to(base)`.

An empty segment of a `:`-separated list, as in `/a::/b`, does not raise. One
might expect `get_path` to reject the empty segment, but it never sees a string:
`gen_paths` wraps every segment in `pathlib.Path` first, and `Path("")` is `.`.
A `Path` object is always truthy, because `PurePath` defines neither `__bool__`
nor `__len__`. So the empty segment yields `.` (`PathResolver.GenPathsEmptySegment`),
as the code at `pyxdg2/basedir.py:53-54` does.

## Model

| member | source | states |
|---|---|---|
| Paths.Split | pyxdg2/basedir.py:53 | `str.split(":")` yields at least one segment, and no segment holds the separator |
| Paths.JoinSplit | pyxdg2/basedir.py:53 | joining the segments of a split with the separator gives back the string |
| Paths.SplitJoin | tests/test_basedir.py:86 | splitting a `sep.join` of separator-free strings gives back the strings |
| Paths.SplitAt | pyxdg2/basedir.py:53 | the first separator ends the first segment and the rest splits on its own |
| Paths.SplitPlain | pyxdg2/basedir.py:53 | a string without the separator is a single segment |
| Paths.SplitTrailing | pyxdg2/basedir.py:63 | a trailing separator adds one empty segment |
| Paths.JoinWithAvoids | tests/test_basedir.py:86 | a character that is neither the separator nor in any piece is not in the join |
| Paths.Components | pyxdg2/basedir.py:29 | the components kept from a split string are never empty and never `.`, each comes from the split, and every proper piece of the split is kept |
| Paths.ComponentsAppend | pyxdg2/basedir.py:29 | pieces are kept or dropped one by one, in order: the components of `a + b` are those of `a` followed by those of `b` |
| Paths.ComponentsKeepsComponents | pyxdg2/basedir.py:29 | a list of proper components is kept whole |
| Paths.ComponentsDropsTrailingEmpty | pyxdg2/basedir.py:63 | a trailing empty piece is dropped |
| Paths.StartsWithSlash | pyxdg2/basedir.py:89 | a sub-path that starts with `/` is absolute and replaces what it is joined to; the one test the `…Relative…` lemmas use |
| Paths.FromString | pyxdg2/basedir.py:29 | `pathlib.Path(s)` is a normal path, and it is absolute exactly when `StartsWithSlash(s)` |
| Paths.ToString | tests/test_basedir.py:86 | `as_posix()`: a leading `/` for an absolute path, the components joined by `/`, and `.` for the empty relative path; `FromStringToString` proves that parsing inverts it |
| Paths.JoinWith | tests/test_basedir.py:86 | `sep.join(xs)`; `JoinSplit` and `SplitJoin` prove it inverse to `Split` |
| Paths.SplitThree | pyxdg2/basedir.py:53 | two separators split three separator-free pieces into those pieces |
| Paths.FromStringSkipsMiddle | pyxdg2/basedir.py:29 | an empty or `.` piece between two components is dropped |
| Paths.FromStringCollapses | pyxdg2/basedir.py:29 | `Path("a//b")` and `Path("a/./b")` are both `a/b`, as a doubled slash in `XDG_DATA_DIRS` gives |
| Paths.FromStringToString | tests/test_basedir.py:130-137 | parsing the `as_posix()` string of a normal path gives back the path |
| Paths.Parses | tests/test_basedir.py:130-137 | a string that spells a normal path parses to that path |
| Paths.SlashIsRoot | tests/test_basedir.py:199-201 | `Path("/")` is the root |
| Paths.ToStringNonEmpty | tests/test_basedir.py:86 | `as_posix()` of a normal path is never empty, so a `:`-joined list of paths is a non-empty fallback (used by `SpecOfSplits`) |
| Paths.ToStringAvoids | tests/test_basedir.py:86 | a character other than `/` and `.` that no component holds is not in `as_posix()` |
| Paths.FromStringTrailingSlash | pyxdg2/basedir.py:63 | `Path(s + "/")` is `Path(s)` for a non-empty `s` |
| Paths.Join | pyxdg2/basedir.py:127 | `base / sub` of normal paths is normal |
| Paths.JoinAll | pyxdg2/basedir.py:89 | `base.joinpath(*subs)` of a normal base is normal |
| Paths.RelativeTo | pyxdg2/basedir.py:90 | when `relative_to` succeeds, its result is relative and joining it back onto the base gives the path |
| Paths.RelativeToJoin | pyxdg2/basedir.py:128 | `relative_to` finds every relative join again: the converse of `RelativeTo`'s contract |
| Paths.JoinCurrent | pyxdg2/basedir.py:125 | joining `.` changes nothing |
| Paths.JoinAssociative | pyxdg2/basedir.py:125-127 | `/` is associative |
| Paths.JoinJoinAll | pyxdg2/basedir.py:125-127 | joining onto a `joinpath` is a `joinpath` from the joined base |
| Paths.JoinSubPath | pyxdg2/basedir.py:125-127 | `base / Path(*subs)` equals `base.joinpath(*subs)`, which ties `find_resource` to `ensure_resource` |
| Paths.JoinAllRelative | tests/test_basedir.py:17-19 | sub-paths that do not start with `/` keep the anchor and extend the base's components |
| PathResolver.GetPath | pyxdg2/basedir.py:16-34 | a truthy name with a non-empty value gives that value's path; otherwise a fallback is returned as it is; `KeyError(variable)` exactly when neither exists |
| PathResolver.GetPathUnnamedIgnoresEnvironment | tests/test_basedir.py:33-48 | with a falsy name the result does not depend on the environment and is the fallback |
| PathResolver.ChosenSpec | pyxdg2/basedir.py:48 | `os.environ.get(name) or fallback`: the variable's value when it is present and non-empty, else the fallback; `GenPaths` states what follows from it |
| PathResolver.ResolveSegments | pyxdg2/basedir.py:53-54 | `get_path(None, Path(p))` for each segment never raises and yields each segment's path in order |
| PathResolver.GenPaths | pyxdg2/basedir.py:37-54 | `KeyError(name)` exactly when neither the variable nor the fallback is a non-empty string; otherwise one normal path per `:` segment of the chosen string, in order |
| PathResolver.SpecOf | tests/test_basedir.py:86 | `":".join(p.as_posix() for p in ps)`, the list the round-trip lemmas feed to `gen_paths` |
| PathResolver.SpecOfSplits | tests/test_basedir.py:84-102 | the `:`-join of the strings of colon-free normal paths is non-empty and splits back into those strings |
| PathResolver.GenPathsResult | tests/test_basedir.py:84-102 | `gen_paths` over a `:`-joined list of paths gives back the list |
| PathResolver.GenPathsRoundTripFallback | tests/test_basedir.py:84-91 | the round trip through the fallback when the variable is unset |
| PathResolver.GenPathsRoundTripEnvironment | tests/test_basedir.py:93-102 | the round trip through the variable, whatever the fallback |
| PathResolver.GenPathsEmptySegment | pyxdg2/basedir.py:53-54 | an empty segment yields `.` instead of raising |
| PathResolver.GenPathsEmptySegmentExample | pyxdg2/basedir.py:53-54 | `/a::/b` yields `/a`, `.` and `/b` |
| StandardLocations.DecimalString | pyxdg2/basedir.py:67 | `f"{uid}"` is a non-empty string of decimal digits with no leading zero unless the uid is 0 |
| StandardLocations.DecimalRoundTrip | pyxdg2/basedir.py:67 | the digits read back as the uid |
| StandardLocations.RuntimeFallback | pyxdg2/basedir.py:67 | `f"/tmp/user-{uid}"`; `RuntimeDir` states the path it parses to |
| StandardLocations.UserLocation | pyxdg2/basedir.py:59-62 | a per-user location is the variable's path when it is set, else `home / sub`, and it is normal when home is |
| StandardLocations.SystemDirs | pyxdg2/basedir.py:63-64 | a system list is non-empty and normal and is the list of the chosen string's `:` segments |
| StandardLocations.RuntimeDir | pyxdg2/basedir.py:66-68 | `XDG_RUNTIME_DIR` when set, else `/tmp/user-<uid>` |
| StandardLocations.Initialize | pyxdg2/basedir.py:58-68 | the constants keep `HOME`, both system lists are non-empty, and every location is normal when home is |
| StandardLocations.DataHome | pyxdg2/basedir.py:59 | `XDG_DATA_HOME` when set, else home with `.local` and `share` appended |
| StandardLocations.ConfigHome | pyxdg2/basedir.py:60 | `XDG_CONFIG_HOME` when set, else home with `.config` appended |
| StandardLocations.StateHome | pyxdg2/basedir.py:61 | `XDG_STATE_HOME` when set, else home with `.local` and `state` appended |
| StandardLocations.CacheHome | pyxdg2/basedir.py:62 | `XDG_CACHE_HOME` when set, else home with `.cache` appended |
| StandardLocations.DataDirs | pyxdg2/basedir.py:63 | the `:` segments of `XDG_DATA_DIRS` when set, else `/usr/local/share` then `/usr/share` (trailing slashes dropped) |
| StandardLocations.ConfigDirs | pyxdg2/basedir.py:64 | the `:` segments of `XDG_CONFIG_DIRS` when set, else `/etc/xdg` |
| StandardLocations.RuntimeDirectory | pyxdg2/basedir.py:65-68 | `XDG_RUNTIME_DIR` when set, else `/tmp/user-<uid>` |
| StandardLocations.InitializeDefaults | tests/test_basedir.py:139-160 | with no variable set, every constant is its default |
| StandardLocations.InitializeAllRoot | tests/test_basedir.py:105-137 | with every variable set to `/`, every location is `/` |
| ResourceAccessor.Ancestors | pyxdg2/basedir.py:91 | `mkdir(parents=True)` creates the path itself and only paths that are prefixes of it |
| ResourceAccessor.EnsureOutcome | pyxdg2/basedir.py:72-92 | success exactly when `base.joinpath(*subs)` has the base's anchor and extends its components, and then the result is that join; otherwise the error is `ValueError(path, base)` |
| ResourceAccessor.AfterEnsure | pyxdg2/basedir.py:89-91 | the directories after the call: the old ones plus the result and its ancestors on success, the old ones on error; the `Ensure…` lemmas state its properties |
| ResourceAccessor.EnsureAbsoluteInside | pyxdg2/basedir.py:89-90 | an absolute sub-path replaces the base and still succeeds when it lies under it: `ensure_resource(Path("/home"), "/home/x")` is `/home/x` |
| ResourceAccessor.EnsureRelativeSucceeds | tests/test_basedir.py:163-176 | sub-paths that do not start with `/` never raise and give the join |
| ResourceAccessor.EnsureCreates | tests/test_basedir.py:163-176 | after success the path and all its ancestors exist, nothing is lost, and nothing else is created |
| ResourceAccessor.EnsureEscapeCreatesNothing | pyxdg2/basedir.py:90-91 | an escaping sub-path raises before `mkdir` and creates nothing |
| ResourceAccessor.AncestorsOfAncestor | pyxdg2/basedir.py:91 | an ancestor of an ancestor is an ancestor |
| ResourceAccessor.AddAncestorsKeepsClosed | pyxdg2/basedir.py:91 | adding a path with all its ancestors keeps a parent-closed set parent-closed |
| ResourceAccessor.EnsureKeepsTreeClosed | pyxdg2/basedir.py:91 | creating with parents keeps every directory's parent existing |
| ResourceAccessor.EnsureIdempotent | pyxdg2/basedir.py:91 | `exist_ok=True`: a second identical call changes nothing more |
| ResourceAccessor.EnsureExistingChangesNothing | tests/test_basedir.py:178-188 | an existing directory is returned and nothing changes |
| ResourceAccessor.EnsureSlashEscapes | tests/test_basedir.py:199-201 | `ensure_resource(Path("/home"), "/")` raises `ValueError('/', '/home')` |
| ResourceAccessor.EnsureDotDotStaysInside | pyxdg2/basedir.py:89-90 | the check is lexical: `..` under `/home` is accepted as `/home/..` |
| ResourceAccessor.Escapes | pyxdg2/basedir.py:128 | `(base / sub).relative_to(base)` raises |
| ResourceAccessor.FindFrom | pyxdg2/basedir.py:125-130 | on success at most one path per base, and every path found exists |
| ResourceAccessor.FindOutcome | pyxdg2/basedir.py:125-130 | `list(find_resource(bases, *subs))`: `FindFrom` on `Path(*subs)`, built once; the `Find…` lemmas state its properties |
| ResourceAccessor.Joined | pyxdg2/basedir.py:127 | the reference list `[base / sub for base in bases]` that `FindIsFilter` compares the result against |
| ResourceAccessor.KeepExisting | pyxdg2/basedir.py:129-130 | keeps exactly the paths that exist, and no more paths than it was given |
| ResourceAccessor.FindIsFilter | tests/test_basedir.py:226-239 | with no escaping base, `find_resource` yields exactly the existing joins, in base order |
| ResourceAccessor.FindFailsIff | pyxdg2/basedir.py:126-128 | `ValueError` exactly when some base lets the sub-path escape |
| ResourceAccessor.FindFirstEscape | pyxdg2/basedir.py:126-128 | the error names the first escaping base |
| ResourceAccessor.FindRelativeSucceeds | tests/test_basedir.py:204-213 | sub-paths that do not start with `/` never raise, for any base list, the empty one included |
| ResourceAccessor.FindAfterEnsure | tests/test_basedir.py:215-224 | after `ensure_resource(base, *subs)` succeeds, `find_resource([base], *subs)` yields exactly that path |
| ResourceAccessor.FindStep | pyxdg2/basedir.py:126-130 | one loop step: an escape ends the search, otherwise an existing join is kept |
| ResourceAccessor.FileSystem.constructor | pyxdg2/basedir.py:91 | the filesystem starts as any parent-closed set of directories |
| ResourceAccessor.FileSystem.MakeDirs | pyxdg2/basedir.py:91 | `mkdir(parents=True, exist_ok=True)` adds the path and its ancestors and keeps the directories parent-closed |
| ResourceAccessor.FileSystem.EnsureResource | pyxdg2/basedir.py:72-92 | returns `EnsureOutcome`, leaves the directories as `AfterEnsure` says, and keeps them parent-closed |
| ResourceAccessor.FileSystem.EnsureDataResource | pyxdg2/basedir.py:95 | `ensure_resource` on `XDG_DATA_HOME` |
| ResourceAccessor.FileSystem.EnsureConfigResource | pyxdg2/basedir.py:99 | `ensure_resource` on `XDG_CONFIG_HOME` |
| ResourceAccessor.FileSystem.EnsureStateResource | pyxdg2/basedir.py:103 | `ensure_resource` on `XDG_STATE_HOME` |
| ResourceAccessor.FileSystem.EnsureCacheResource | pyxdg2/basedir.py:107 | `ensure_resource` on `XDG_CACHE_HOME` |
| ResourceAccessor.FileSystem.FindResource | pyxdg2/basedir.py:113-130 | the loop over the bases returns `FindOutcome` |
| ResourceAccessor.FileSystem.FindDataResource | pyxdg2/basedir.py:133 | `find_resource` over `XDG_DATA_HOME` followed by `XDG_DATA_DIRS` |
| ResourceAccessor.FileSystem.FindConfigResource | pyxdg2/basedir.py:137-139 | `find_resource` over `XDG_CONFIG_HOME` followed by `XDG_CONFIG_DIRS` |

## Left out

- `os.environ`, `pathlib.Path.home()` and `os.getuid()` are parameters: the environment is a map, and home and the uid are passed to `StandardLocations.Initialize`.
- The module-level constants are computed once at import time. The model computes them as a function of those parameters, and the bindings take the resulting `Locations` record.
- `ensure_resource` does not model the `OSError` subclasses that `mkdir` can raise, such as `PermissionError` on an unwritable parent. The model has no permissions or other filesystem failures, so `mkdir` always succeeds.
- `ResourceAccessor.FileSystem.FindResource`: `path.exists()` also holds for regular files. The model's filesystem holds only directories, so only directories are found.
- Generators are lazy: `list(find_resource(...))` and `list(gen_paths(...))` are modelled. An error raised part-way through becomes an error result for the whole list, and the paths yielded before it are not returned.
- `Paths.FromString` does not model POSIX's special case that a path starting with exactly two slashes keeps the `//` anchor. Here `//x` is `/x`.
- Paths are never resolved against a real filesystem. `..` is kept as a component, and the directory set is keyed by the path as written. So two spellings of one directory are two distinct entries: a relative `a` and `/cwd/a`, `x/..` and its parent, or a symbolic link and its target. In Python, `exists()` and `mkdir()` resolve these through the operating system.
- `os.PathLike` arguments are modelled as strings, and the bases of `find_resource` as already parsed paths.
- `CreateMode` and `_MODE_700` are declared at `pyxdg2/basedir.py:12-13` but not used by `basedir`'s functions. Directory modes are not modelled.
- Strings are sequences of Unicode characters. No encoding and no surrogate escapes are modelled.
