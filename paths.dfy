/**
 * POSIX paths as Python's `pathlib` represents them: an optional root and a
 * list of parts. Parsing drops empty and "." segments, so two spellings of the
 * same path compare equal, as `pathlib.Path` objects do.
 */
module PurePath {
  import opened Text

  datatype Path = Path(absolute: bool, parts: seq<string>)

  /** A component `pathlib` keeps after parsing. */
  predicate IsPart(s: string) {
    s != "" && s != "." && '/' !in s
  }

  predicate Normal(p: Path) {
    forall i :: 0 <= i < |p.parts| ==> IsPart(p.parts[i])
  }

  /** `s.split("/")`. */
  function Split(s: string): (r: seq<string>)
    ensures |r| >= 1
    ensures forall i :: 0 <= i < |r| ==> '/' !in r[i]
    decreases |s|
  {
    if s == [] then [""]
    else if s[0] == '/' then [""] + Split(s[1..])
    else var rest := Split(s[1..]); [[s[0]] + rest[0]] + rest[1..]
  }

  /** The segments that survive parsing, in order. */
  function KeepParts(segments: seq<string>): (r: seq<string>)
    ensures forall i :: 0 <= i < |r| ==> IsPart(r[i])
    ensures forall i :: 0 <= i < |r| ==> r[i] in segments
  {
    if segments == [] then []
    else (if IsPart(segments[0]) then [segments[0]] else []) + KeepParts(segments[1..])
  }

  /** `os.path.isabs(s)` on a POSIX system. */
  predicate IsAbs(s: string) {
    StartsWith(s, "/")
  }

  /** `PurePosixPath(s)`. */
  function Parse(s: string): (p: Path)
    ensures Normal(p)
    ensures p.absolute == IsAbs(s)
  {
    Path(|s| > 0 && s[0] == '/', KeepParts(Split(s)))
  }

  function JoinParts(ps: seq<string>): string
    decreases |ps|
  {
    if ps == [] then "" else if |ps| == 1 then ps[0] else ps[0] + "/" + JoinParts(ps[1..])
  }

  /** `str(p)`. */
  function Str(p: Path): string {
    if p.absolute then "/" + JoinParts(p.parts)
    else if p.parts == [] then "."
    else JoinParts(p.parts)
  }

  /** `p / s`: an absolute `s` replaces `p`, a relative one extends it. */
  function Join(p: Path, s: string): (r: Path)
    ensures Normal(p) ==> Normal(r)
    ensures IsAbs(s) ==> r == Parse(s)
    ensures !IsAbs(s) ==> r == Path(p.absolute, p.parts + Parse(s).parts)
  {
    var q := Parse(s);
    if q.absolute then q else Path(p.absolute, p.parts + q.parts)
  }

  /** `p.name`: the last part, or "" for a path without parts. */
  function Name(p: Path): string {
    if p.parts == [] then "" else p.parts[|p.parts| - 1]
  }

  /** `p.parent`: the path without its last part; a path without parts is its own parent. */
  function Parent(p: Path): (r: Path)
    ensures Normal(p) ==> Normal(r)
    ensures p.parts != [] ==> r.parts + [Name(p)] == p.parts && r.absolute == p.absolute
  {
    if p.parts == [] then p else Path(p.absolute, p.parts[..|p.parts| - 1])
  }

  /** The index of the last '.' of `name`, or -1 (`LastDotIsLast`). */
  function LastDot(name: string): (i: int)
    ensures -1 <= i < |name|
    decreases |name|
  {
    if name == [] then -1
    else
      var r := LastDot(name[1..]);
      if r >= 0 then r + 1 else if name[0] == '.' then 0 else -1
  }

  /** `LastDot` finds a '.', and none comes after it; -1 means there is none at all. */
  lemma {:induction false} LastDotIsLast(name: string)
    ensures LastDot(name) >= 0 ==> name[LastDot(name)] == '.'
    ensures forall k :: LastDot(name) < k < |name| ==> name[k] != '.'
    decreases |name|
  {
    if name != [] {
      LastDotIsLast(name[1..]);
      forall k | LastDot(name) < k < |name|
        ensures name[k] != '.'
      {
        if k > 0 {
          assert name[k] == name[1..][k - 1];
        }
      }
    }
  }

  /** A name without a dot has no last dot. */
  lemma {:induction false} LastDotNone(s: string)
    requires '.' !in s
    ensures LastDot(s) == -1
    decreases |s|
  {
    if s != [] {
      assert forall c :: c in s[1..] ==> c in s;
      LastDotNone(s[1..]);
    }
  }

  /**
   * `PurePath(name).stem` for a single name: the name without its last suffix,
   * where a dot that opens or closes the name does not start a suffix.
   */
  function Stem(name: string): string {
    var i := LastDot(name);
    if 0 < i < |name| - 1 then name[..i] else name
  }

  /** Dropping a non-empty, dot-free extension from a non-empty base gives back the base. */
  lemma {:induction false} StemOfSuffixed(base: string, ext: string)
    requires |base| > 0 && |ext| > 0 && '.' !in ext
    ensures Stem(base + "." + ext) == base
  {
    var name := base + "." + ext;
    LastDotOfSuffixed(base, ext);
    assert name[..|base|] == base;
  }

  lemma {:induction false} LastDotOfSuffixed(base: string, ext: string)
    requires '.' !in ext
    ensures LastDot(base + "." + ext) == |base|
    decreases |base|
  {
    var name := base + "." + ext;
    if base == [] {
      assert name[1..] == ext;
      LastDotNone(ext);
    } else {
      assert name[1..] == base[1..] + "." + ext;
      LastDotOfSuffixed(base[1..], ext);
    }
  }

  /** A stem is a prefix of its name, so it has no '/' when the name has none. */
  lemma StemNoSlash(name: string)
    requires '/' !in name
    ensures '/' !in Stem(name)
  {
    var i := LastDot(name);
    if 0 < i < |name| - 1 {
      forall k | 0 <= k < i
        ensures name[..i][k] != '/'
      {
        assert name[..i][k] == name[k];
      }
    }
  }

  /** `p.with_name(name)`: the last part replaced. */
  function WithName(p: Path, name: string): (r: Path)
    requires p.parts != []
    ensures Parent(r) == Parent(p) && Name(r) == name
  {
    Path(p.absolute, p.parts[..|p.parts| - 1] + [name])
  }

  /** Lexical handling of ".." parts, from left to right; ".." at the root stays at the root. */
  function Collapse(ps: seq<string>): (r: seq<string>)
    ensures forall i :: 0 <= i < |r| ==> r[i] != ".."
    ensures (forall i :: 0 <= i < |ps| ==> IsPart(ps[i])) ==> forall i :: 0 <= i < |r| ==> IsPart(r[i])
    ensures |r| <= |ps|
    decreases |ps|
  {
    if ps == [] then []
    else
      var c := Collapse(ps[..|ps| - 1]);
      var x := ps[|ps| - 1];
      if x == ".." then (if c == [] then [] else c[..|c| - 1]) else c + [x]
  }

  /** Parts without ".." are left as they are. */
  lemma {:induction false} CollapseNoDots(ps: seq<string>)
    requires forall i :: 0 <= i < |ps| ==> ps[i] != ".."
    ensures Collapse(ps) == ps
    decreases |ps|
  {
    if ps != [] {
      CollapseNoDots(ps[..|ps| - 1]);
    }
  }

  /** `p.resolve()` without symbolic links: a relative path is anchored at `cwd`. */
  function Resolve(p: Path, cwd: Path): (r: Path)
    ensures r.absolute
    ensures forall i :: 0 <= i < |r.parts| ==> r.parts[i] != ".."
    ensures Normal(p) && Normal(cwd) ==> Normal(r)
  {
    Path(true, Collapse(if p.absolute then p.parts else cwd.parts + p.parts))
  }

  // ----- Parsing a name and printing a path -----

  lemma {:induction false} SplitPlain(a: string)
    requires '/' !in a
    ensures Split(a) == [a]
    decreases |a|
  {
    if a != [] {
      assert forall k :: 0 <= k < |a[1..]| ==> a[1..][k] == a[k + 1];
      SplitPlain(a[1..]);
      assert [a[0]] + a[1..] == a;
    }
  }

  lemma {:induction false} SplitAfterPlain(a: string, b: string)
    requires '/' !in a
    ensures Split(a + "/" + b) == [a] + Split(b)
    decreases |a|
  {
    var s := a + "/" + b;
    if a == [] {
      assert s == "/" + b && s[1..] == b;
    } else {
      assert s[1..] == a[1..] + "/" + b;
      assert forall k :: 0 <= k < |a[1..]| ==> a[1..][k] == a[k + 1];
      SplitAfterPlain(a[1..], b);
      assert [a[0]] + a[1..] == a;
    }
  }

  /** A name without separator, other than "" and ".", parses to that single part. */
  lemma ParseSingle(name: string)
    requires IsPart(name)
    ensures Parse(name) == Path(false, [name])
  {
    SplitPlain(name);
    assert KeepParts([name]) == [name] + KeepParts([]);
  }

  /** Joining a single part appends it. */
  lemma JoinPart(p: Path, name: string)
    requires IsPart(name)
    ensures Join(p, name) == Path(p.absolute, p.parts + [name])
  {
    ParseSingle(name);
    assert name[0] != '/';
  }

  lemma {:induction false} SplitJoinParts(ps: seq<string>)
    requires ps != []
    requires forall i :: 0 <= i < |ps| ==> '/' !in ps[i]
    ensures Split(JoinParts(ps)) == ps
    decreases |ps|
  {
    if |ps| == 1 {
      SplitPlain(ps[0]);
    } else {
      SplitJoinParts(ps[1..]);
      SplitAfterPlain(ps[0], JoinParts(ps[1..]));
    }
  }

  lemma {:induction false} KeepAllParts(ps: seq<string>)
    requires forall i :: 0 <= i < |ps| ==> IsPart(ps[i])
    ensures KeepParts(ps) == ps
    decreases |ps|
  {
    if ps != [] {
      KeepAllParts(ps[1..]);
    }
  }

  /** Printing a parsed path and parsing it again gives the same path. */
  lemma {:induction false} ParseStr(p: Path)
    requires Normal(p)
    ensures Parse(Str(p)) == p
  {
    var s := Str(p);
    if p.parts == [] {
      if p.absolute {
        assert s == "/" && s[1..] == "";
        assert Split(s) == ["", ""];
      } else {
        assert s == ".";
        SplitPlain(s);
      }
    } else {
      SplitJoinParts(p.parts);
      KeepAllParts(p.parts);
      var j := JoinParts(p.parts);
      if p.absolute {
        assert s[1..] == j;
        assert Split(s) == [""] + Split(j);
        assert KeepParts(Split(s)) == KeepParts(Split(j));
      } else {
        JoinPartsStart(p.parts);
      }
    }
  }

  lemma {:induction false} JoinPartsStart(ps: seq<string>)
    requires ps != [] && IsPart(ps[0])
    ensures |JoinParts(ps)| > 0 && JoinParts(ps)[0] == ps[0][0]
  {
  }

  /** `str` is one-to-one on parsed paths, so comparing strings compares paths. */
  lemma StrInjective(p: Path, q: Path)
    requires Normal(p) && Normal(q)
    ensures Str(p) == Str(q) <==> p == q
  {
    if Str(p) == Str(q) {
      ParseStr(p);
      ParseStr(q);
    }
  }

  /** Two strings without '/' concatenate to one without '/'. */
  lemma NoSlashConcat(a: string, b: string)
    requires '/' !in a && '/' !in b
    ensures '/' !in a + b
  {
    var r := a + b;
    forall k | 0 <= k < |r|
      ensures r[k] != '/'
    {
      if k < |a| {
        assert r[k] == a[k];
      } else {
        assert r[k] == b[k - |a|];
      }
    }
  }
}
