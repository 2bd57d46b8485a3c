/**
  A lexical model of POSIX `pathlib.PurePosixPath`: a path is a flag for a leading
  `/` and the sequence of its components. Building a path from a string drops empty
  and `.` components (so `a//b`, `a/./b` and `a/b/` all become `a/b`) and keeps `..`.
  Nothing here touches a filesystem.
 */
module Paths {
  import opened Wrappers

  datatype Path = Path(absolute: bool, parts: seq<string>)

  /** `.`, the path that `Path("")` and `Path()` denote. */
  const Current: Path := Path(false, [])

  /** A component as pathlib stores it: never empty, never `.`, never containing `/`. */
  predicate IsComponent(c: string) {
    c != "" && c != "." && '/' !in c
  }

  predicate Normal(p: Path) {
    forall i :: 0 <= i < |p.parts| ==> IsComponent(p.parts[i])
  }

  // ---------------------------------------------------------------------------
  // str.split and str.join on a one-character separator
  // ---------------------------------------------------------------------------

  /** `s.split(sep)`: always at least one segment, none holding the separator. */
  function Split(s: string, sep: char): (r: seq<string>)
    ensures |r| >= 1
    ensures forall i :: 0 <= i < |r| ==> sep !in r[i]
    decreases |s|
  {
    if |s| == 0 then [""]
    else
      var rest := Split(s[1..], sep);
      if s[0] == sep then [""] + rest
      else [[s[0]] + rest[0]] + rest[1..]
  }

  /** `sep.join(xs)`. */
  function JoinWith(xs: seq<string>, sep: char): string
    decreases |xs|
  {
    if |xs| == 0 then ""
    else if |xs| == 1 then xs[0]
    else xs[0] + [sep] + JoinWith(xs[1..], sep)
  }

  /** Joining the segments of a split gives back the string. */
  lemma {:induction false} JoinSplit(s: string, sep: char)
    ensures JoinWith(Split(s, sep), sep) == s
    decreases |s|
  {
    if |s| > 0 {
      JoinSplit(s[1..], sep);
      var rest := Split(s[1..], sep);
      assert s == [s[0]] + s[1..];
      if s[0] == sep {
        assert ([""] + rest)[1..] == rest;
      } else if |rest| > 1 {
        assert ([[s[0]] + rest[0]] + rest[1..])[1..] == rest[1..];
      }
    }
  }

  /** A string without the separator splits into itself. */
  lemma {:induction false} SplitPlain(t: string, sep: char)
    requires sep !in t
    ensures Split(t, sep) == [t]
    decreases |t|
  {
    if |t| > 0 {
      SplitPlain(t[1..], sep);
      assert [t[0]] + t[1..] == t;
    }
  }

  /** The first separator ends the first segment. */
  lemma {:induction false} SplitAt(a: string, sep: char, t: string)
    requires sep !in a
    ensures Split(a + [sep] + t, sep) == [a] + Split(t, sep)
    decreases |a|
  {
    var s := a + [sep] + t;
    if |a| == 0 {
      assert s[1..] == t;
    } else {
      assert s[1..] == a[1..] + [sep] + t;
      SplitAt(a[1..], sep, t);
      assert [a[0]] + a[1..] == a;
    }
  }

  /** Splitting a join of separator-free segments gives back the segments. */
  lemma {:induction false} SplitJoin(xs: seq<string>, sep: char)
    requires |xs| >= 1
    requires forall i :: 0 <= i < |xs| ==> sep !in xs[i]
    ensures Split(JoinWith(xs, sep), sep) == xs
    decreases |xs|
  {
    if |xs| == 1 {
      SplitPlain(xs[0], sep);
    } else {
      SplitJoin(xs[1..], sep);
      SplitAt(xs[0], sep, JoinWith(xs[1..], sep));
      assert [xs[0]] + xs[1..] == xs;
    }
  }

  /** A trailing separator adds one empty segment. */
  lemma {:induction false} SplitTrailing(s: string, sep: char)
    ensures Split(s + [sep], sep) == Split(s, sep) + [""]
    decreases |s|
  {
    if |s| == 0 {
      assert Split([sep], sep) == [""] + Split([], sep);
    } else {
      assert (s + [sep])[1..] == s[1..] + [sep];
      SplitTrailing(s[1..], sep);
      assert [s[0]] + s[1..] == s;
    }
  }

  /** A character that is not the separator is in a join only if it is in a segment. */
  lemma {:induction false} JoinWithAvoids(xs: seq<string>, sep: char, c: char)
    requires c != sep
    requires forall i :: 0 <= i < |xs| ==> c !in xs[i]
    ensures c !in JoinWith(xs, sep)
    decreases |xs|
  {
    if |xs| > 1 {
      JoinWithAvoids(xs[1..], sep, c);
    }
  }

  // ---------------------------------------------------------------------------
  // Path(string) and Path.as_posix()
  // ---------------------------------------------------------------------------

  /** The components pathlib keeps of a split string: the empty and `.` ones go. */
  function Components(raw: seq<string>): (r: seq<string>)
    ensures forall i :: 0 <= i < |r| ==> r[i] != "" && r[i] != "." && r[i] in raw
    ensures forall x :: x in raw && x != "" && x != "." ==> x in r
    decreases |raw|
  {
    if |raw| == 0 then []
    else if raw[0] == "" || raw[0] == "." then Components(raw[1..])
    else [raw[0]] + Components(raw[1..])
  }

  lemma {:induction false} ComponentsKeepsComponents(xs: seq<string>)
    requires forall i :: 0 <= i < |xs| ==> IsComponent(xs[i])
    ensures Components(xs) == xs
    decreases |xs|
  {
    if |xs| > 0 {
      ComponentsKeepsComponents(xs[1..]);
      assert [xs[0]] + xs[1..] == xs;
    }
  }

  /** Pieces are kept or dropped one by one, in order. */
  lemma {:induction false} ComponentsAppend(a: seq<string>, b: seq<string>)
    ensures Components(a + b) == Components(a) + Components(b)
    decreases |a|
  {
    if |a| == 0 {
      assert a + b == b;
    } else {
      var ab := a + b;
      assert ab[0] == a[0];
      assert ab[1..] == a[1..] + b;
      ComponentsAppend(a[1..], b);
      if a[0] == "" || a[0] == "." {
        assert Components(ab) == Components(ab[1..]);
        assert Components(a) == Components(a[1..]);
      } else {
        assert Components(ab) == [a[0]] + Components(ab[1..]);
        assert Components(a) == [a[0]] + Components(a[1..]);
        assert [a[0]] + (Components(a[1..]) + Components(b)) == ([a[0]] + Components(a[1..])) + Components(b);
      }
    }
  }

  lemma {:induction false} ComponentsDropsTrailingEmpty(xs: seq<string>)
    ensures Components(xs + [""]) == Components(xs)
    decreases |xs|
  {
    if |xs| == 0 {
      assert Components([""]) == Components([]);
    } else {
      assert (xs + [""])[1..] == xs[1..] + [""];
      ComponentsDropsTrailingEmpty(xs[1..]);
    }
  }

  /** Whether a string, read as a path, is absolute and so replaces what it is joined to. */
  predicate StartsWithSlash(s: string) {
    |s| > 0 && s[0] == '/'
  }

  /** `pathlib.PurePosixPath(s)`. */
  function FromString(s: string): (r: Path)
    ensures Normal(r)
    ensures r.absolute <==> StartsWithSlash(s)
  {
    Path(|s| > 0 && s[0] == '/', Components(Split(s, '/')))
  }

  /** `Path.as_posix()`, which is also `str(path)` on POSIX. */
  function ToString(p: Path): (r: string)
  {
    if p.absolute then "/" + JoinWith(p.parts, '/')
    else if p.parts == [] then "."
    else JoinWith(p.parts, '/')
  }

  /** Printing a normal path and parsing it again gives back the path. */
  lemma FromStringToString(p: Path)
    requires Normal(p)
    ensures FromString(ToString(p)) == p
  {
    var s := ToString(p);
    if p.absolute {
      var j := JoinWith(p.parts, '/');
      assert s[1..] == j;
      assert Split(s, '/') == [""] + Split(j, '/');
      if p.parts == [] {
        assert Components(["", ""]) == [];
      } else {
        SplitJoin(p.parts, '/');
        assert ([""] + p.parts)[1..] == p.parts;
        ComponentsKeepsComponents(p.parts);
      }
    } else if p.parts == [] {
      SplitPlain(".", '/');
    } else {
      assert s[0] == p.parts[0][0];
      SplitJoin(p.parts, '/');
      ComponentsKeepsComponents(p.parts);
    }
  }

  /** A string that spells a normal path parses to that path. */
  lemma Parses(s: string, p: Path)
    requires Normal(p) && s == ToString(p)
    ensures FromString(s) == p
  {
    FromStringToString(p);
  }

  lemma SlashIsRoot()
    ensures FromString("/") == Path(true, [])
  {
    Parses("/", Path(true, []));
  }

  /** The string of a path is never empty: `.` stands for the empty relative path. */
  lemma ToStringNonEmpty(p: Path)
    requires Normal(p)
    ensures ToString(p) != ""
  {
    if !p.absolute && p.parts != [] {
      assert ToString(p)[0] == p.parts[0][0];
    }
  }

  /** A character that no component holds appears in the string only if it is `/` or `.`. */
  lemma ToStringAvoids(p: Path, c: char)
    requires c != '/' && c != '.'
    requires forall i :: 0 <= i < |p.parts| ==> c !in p.parts[i]
    ensures c !in ToString(p)
  {
    JoinWithAvoids(p.parts, '/', c);
  }

  /** Two separators split a string of three separator-free pieces into those pieces. */
  lemma SplitThree(a: string, m: string, b: string, sep: char)
    requires sep !in a && sep !in m && sep !in b
    ensures Split(a + [sep] + m + [sep] + b, sep) == [a, m, b]
  {
    var t := m + [sep] + b;
    SplitPlain(b, sep);
    SplitAt(m, sep, b);
    SplitAt(a, sep, t);
    Regroup(a, m, b, sep);
    assert [a] + [m, b] == [a, m, b];
  }

  lemma Regroup(a: string, m: string, b: string, sep: char)
    ensures a + [sep] + m + [sep] + b == a + [sep] + (m + [sep] + b)
  {
  }

  /** An empty or `.` piece between two components is dropped. */
  lemma FromStringSkipsMiddle(a: string, m: string, b: string)
    requires IsComponent(a) && IsComponent(b) && (m == "" || m == ".")
    ensures FromString(a + ['/'] + m + ['/'] + b) == Path(false, [a, b])
  {
    SplitThree(a, m, b, '/');
    ComponentsAppend([a], [m, b]);
    assert [a] + [m, b] == [a, m, b];
    assert [m, b][1..] == [b];
    ComponentsKeepsComponents([a]);
    ComponentsKeepsComponents([b]);
    assert [a] + [b] == [a, b];
  }

  /** `a//b` and `a/./b` are both `a/b`. */
  lemma FromStringCollapses(a: string, b: string)
    requires IsComponent(a) && IsComponent(b)
    ensures FromString(a + "//" + b) == Path(false, [a, b])
    ensures FromString(a + "/./" + b) == Path(false, [a, b])
  {
    FromStringSkipsMiddle(a, "", b);
    assert a + "//" + b == a + ['/'] + "" + ['/'] + b;
    FromStringSkipsMiddle(a, ".", b);
    assert a + "/./" + b == a + ['/'] + "." + ['/'] + b;
  }

  /** A trailing slash does not change the path. */
  lemma FromStringTrailingSlash(s: string)
    requires s != ""
    ensures FromString(s + "/") == FromString(s)
  {
    SplitTrailing(s, '/');
    ComponentsDropsTrailingEmpty(Split(s, '/'));
  }

  // ---------------------------------------------------------------------------
  // joinpath, the `/` operator and relative_to
  // ---------------------------------------------------------------------------

  /** `base / sub`: an absolute right-hand side replaces the left. */
  function Join(base: Path, sub: Path): (r: Path)
    ensures Normal(base) && Normal(sub) ==> Normal(r)
  {
    if sub.absolute then sub else Path(base.absolute, base.parts + sub.parts)
  }

  /** `base.joinpath(*subs)`, and `Path(*subs)` when `base` is `Current`. */
  function JoinAll(base: Path, subs: seq<string>): (r: Path)
    ensures Normal(base) ==> Normal(r)
    decreases |subs|
  {
    if |subs| == 0 then base else JoinAll(Join(base, FromString(subs[0])), subs[1..])
  }

  /**
    `p.relative_to(base)`: `None` where Python raises `ValueError`. The check is
    lexical: a `..` component counts as any other.
   */
  function RelativeTo(p: Path, base: Path): (r: Option<Path>)
    ensures r.Some? ==> !r.value.absolute && Join(base, r.value) == p
  {
    if p.absolute == base.absolute && base.parts <= p.parts
    then Some(Path(false, p.parts[|base.parts|..]))
    else None
  }

  /** Each relative join is found again by `relative_to`: the converse of its ensures. */
  lemma RelativeToJoin(base: Path, sub: Path)
    requires !sub.absolute
    ensures RelativeTo(Join(base, sub), base) == Some(sub)
  {
    var p := Join(base, sub);
    assert p.parts[|base.parts|..] == sub.parts;
  }

  lemma JoinCurrent(base: Path)
    ensures Join(base, Current) == base
  {
    assert base.parts + [] == base.parts;
  }

  lemma JoinAssociative(a: Path, b: Path, c: Path)
    ensures Join(a, Join(b, c)) == Join(Join(a, b), c)
  {
    if !b.absolute && !c.absolute {
      assert a.parts + (b.parts + c.parts) == (a.parts + b.parts) + c.parts;
    }
  }

  /** Joining onto a joined path is joining onto the join of the bases. */
  lemma {:induction false} JoinJoinAll(base: Path, start: Path, subs: seq<string>)
    ensures Join(base, JoinAll(start, subs)) == JoinAll(Join(base, start), subs)
    decreases |subs|
  {
    if |subs| > 0 {
      var next := FromString(subs[0]);
      JoinJoinAll(base, Join(start, next), subs[1..]);
      JoinAssociative(base, start, next);
    }
  }

  /** `base / Path(*subs)` is `base.joinpath(*subs)`. */
  lemma JoinSubPath(base: Path, subs: seq<string>)
    ensures Join(base, JoinAll(Current, subs)) == JoinAll(base, subs)
  {
    JoinJoinAll(base, Current, subs);
    JoinCurrent(base);
  }

  /** Sub-paths none of which starts with `/` extend the base and keep its anchor. */
  lemma {:induction false} JoinAllRelative(base: Path, subs: seq<string>)
    requires forall i :: 0 <= i < |subs| ==> !StartsWithSlash(subs[i])
    ensures JoinAll(base, subs).absolute == base.absolute
    ensures base.parts <= JoinAll(base, subs).parts
    decreases |subs|
  {
    if |subs| > 0 {
      var next := Join(base, FromString(subs[0]));
      JoinAllRelative(next, subs[1..]);
      assert base.parts <= next.parts;
    }
  }
}
