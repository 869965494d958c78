/** POSIX path manipulation as Python's `posixpath` does it, on strings. */
module Paths {
  import opened Strings

  /** `p.startswith('/')`: the test the pipeline uses to call a path absolute. */
  predicate IsAbs(p: string)
  {
    StartsWith(p, "/")
  }

  /** `os.path.join(a, b)`: an absolute `b` replaces `a`; otherwise `b` is appended after one separator. */
  function Join(a: string, b: string): (r: string)
    ensures IsAbs(b) ==> r == b
  {
    if IsAbs(b) then b
    else if a == "" || EndsWith(a, "/") then a + b
    else a + "/" + b
  }

  /** A joined path ends with its last part and, unless that part is absolute, starts with the first. */
  lemma JoinShape(a: string, b: string)
    ensures EndsWith(Join(a, b), b)
    ensures !IsAbs(b) ==> StartsWith(Join(a, b), a) && |Join(a, b)| >= |a| + |b|
  {
  }

  /** Index of the last `c` in `p`, or -1. */
  function RFind(p: string, c: char): (i: int)
    ensures -1 <= i < |p|
    ensures i >= 0 ==> p[i] == c
    ensures forall k :: i < k < |p| ==> p[k] != c
  {
    if p == [] then -1
    else if p[|p| - 1] == c then |p| - 1
    else RFind(p[..|p| - 1], c)
  }

  /** `os.path.basename(p)`: everything after the last separator. */
  function Basename(p: string): (r: string)
    ensures '/' !in r
  {
    p[RFind(p, '/') + 1..]
  }

  /** The base name is the part of the path after its last separator. */
  lemma BasenameSuffix(p: string)
    ensures EndsWith(p, Basename(p))
  {
  }

  function RStripSlashes(s: string): (r: string)
    ensures StartsWith(s, r)
    ensures r == "" || r[|r| - 1] != '/'
  {
    if s != [] && s[|s| - 1] == '/' then RStripSlashes(s[..|s| - 1]) else s
  }

  predicate AllSlashes(s: string)
  {
    forall k :: 0 <= k < |s| ==> s[k] == '/'
  }

  /** `os.path.dirname(p)`: everything up to the last separator, with trailing separators
      removed unless the head consists of separators only. */
  function Dirname(p: string): (r: string)
    ensures |r| <= RFind(p, '/') + 1
    ensures Basename(p) != "" ==> |r| < |p|
    ensures r == "" || AllSlashes(r) || r[|r| - 1] != '/'
  {
    var head := p[..RFind(p, '/') + 1];
    if head != "" && !AllSlashes(head) then RStripSlashes(head) else head
  }

  /** The directory part is a prefix of the path. */
  lemma DirnamePrefix(p: string)
    ensures StartsWith(p, Dirname(p))
  {
  }

  /** The directory and the name a path was joined from are recovered by `dirname` and `basename`. */
  lemma DirnameBasenameJoin(d: string, n: string)
    requires d != "" && !EndsWith(d, "/")
    requires n != "" && '/' !in n
    ensures Dirname(Join(d, n)) == d
    ensures Basename(Join(d, n)) == n
  {
    var p := Join(d, n);
    assert !IsAbs(n);
    assert p == d + "/" + n;
    assert RFind(p, '/') == |d| by {
      RFindAfter(d + "/", n, '/');
    }
    assert p[..|d| + 1] == d + "/";
    assert (d + "/")[..|d|] == d;
    assert d[|d| - 1] != '/';
    assert !AllSlashes(d + "/") by { assert (d + "/")[|d| - 1] != '/'; }
    assert RStripSlashes(d + "/") == RStripSlashes(d);
  }

  lemma RFindAfter(a: string, n: string, c: char)
    requires a != [] && a[|a| - 1] == c && c !in n
    ensures RFind(a + n, c) == |a| - 1
    decreases |n|
  {
    if n == [] {
      assert a + n == a;
    } else {
      var p := a + n;
      assert p[|p| - 1] == n[|n| - 1];
      assert p[..|p| - 1] == a + n[..|n| - 1];
      RFindAfter(a, n[..|n| - 1], c);
    }
  }

  /** The components kept by `os.path.normpath`: empty and `.` components dropped,
      `..` cancelling the previous component where there is one to cancel. */
  function NormComponents(comps: seq<string>, kept: seq<string>, rooted: bool): seq<string>
    decreases |comps|
  {
    if comps == [] then kept
    else
      var c := comps[0];
      if c == "" || c == "." then NormComponents(comps[1..], kept, rooted)
      else if c != ".." || (!rooted && kept == []) || (kept != [] && kept[|kept| - 1] == "..") then
        NormComponents(comps[1..], kept + [c], rooted)
      else if kept != [] then NormComponents(comps[1..], kept[..|kept| - 1], rooted)
      else NormComponents(comps[1..], kept, rooted)
  }

  function Slashes(n: nat): (r: string)
    ensures |r| == n && AllSlashes(r)
  {
    if n == 0 then "" else "/" + Slashes(n - 1)
  }

  /** `os.path.normpath(p)`: lexical normalisation; two leading separators are kept, three or more become one. */
  function Normpath(p: string): (r: string)
    ensures r != ""
    ensures IsAbs(p) ==> IsAbs(r)
  {
    if p == "" then "."
    else
      var initial := if !StartsWith(p, "/") then 0
                     else if StartsWith(p, "//") && !StartsWith(p, "///") then 2
                     else 1;
      var r := Slashes(initial) + JoinWith(NormComponents(Split(p, '/'), [], initial > 0), "/");
      if r == "" then "." else r
  }

  /** A plain file name after `./` normalises to the bare name. */
  lemma NormpathDotName(n: string)
    requires n != "" && n != "." && n != ".." && '/' !in n
    ensures Normpath("./" + n) == n
  {
    var p := "./" + n;
    assert p[0] == '.';
    assert !StartsWith(p, "/");
    assert '/' in p by { assert p[1] == '/'; }
    assert IndexOf(p, '/') == 1;
    assert p[..1] == "." && p[2..] == n;
    assert Split(p, '/') == [".", n];
    assert NormComponents([n], [], false) == [n];
  }

  /** `os.path.abspath(p)` for a process whose working directory is `cwd`. */
  function Abspath(p: string, cwd: string): (r: string)
    ensures IsAbs(p) || IsAbs(cwd) ==> IsAbs(r)
  {
    if IsAbs(p) then Normpath(p) else Normpath(Join(cwd, p))
  }
}
