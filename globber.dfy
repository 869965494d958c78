/** The source-file matcher used by `copy`: a walk of the working directory, every file's
    path made relative to it, filtered by a shell wildcard. Hidden files are not skipped. */
module Globber {
  import opened Strings
  import opened Paths

  /** One step of `os.walk(base)`: a directory and the names of the regular files in it.
      Sub-directory names are not part of it: the matcher never looks at them. */
  datatype WalkEntry = WalkEntry(root: string, files: seq<string>)

  /** `fnmatch.fnmatch(name, pattern)` on POSIX: `*` matches any run of characters
      (separators included), `?` any one character, every other character itself. */
  predicate Match(pattern: string, name: string)
    ensures Match(pattern, name) ==> |name| >= |pattern| - Count(pattern, '*')
    ensures Match(pattern, name) && '*' !in pattern ==> |name| == |pattern|
    decreases |pattern| + |name|
  {
    if pattern == [] then name == []
    else if pattern[0] == '*' then Match(pattern[1..], name) || (name != [] && Match(pattern, name[1..]))
    else name != [] && (pattern[0] == '?' || pattern[0] == name[0]) && Match(pattern[1..], name[1..])
  }

  predicate Literal(pattern: string)
  {
    '*' !in pattern && '?' !in pattern
  }

  /** A pattern without wildcards matches exactly itself. */
  lemma {:induction false} MatchLiteral(pattern: string, name: string)
    requires Literal(pattern)
    ensures Match(pattern, name) <==> pattern == name
    decreases |pattern|
  {
    if pattern != [] && name != [] {
      assert pattern[0] != '*' && pattern[0] != '?';
      MatchLiteral(pattern[1..], name[1..]);
      if pattern[0] == name[0] && pattern[1..] == name[1..] {
        assert pattern == [pattern[0]] + pattern[1..];
        assert name == [name[0]] + name[1..];
      }
    } else if pattern != [] {
      assert pattern[0] != '*';
    }
  }

  /** A lone `*` matches every name. */
  lemma {:induction false} MatchStar(name: string)
    ensures Match("*", name)
    decreases |name|
  {
    if name != [] {
      MatchStar(name[1..]);
    }
  }

  /** A literal prefix followed by `*` matches exactly the names with that prefix. */
  lemma {:induction false} MatchPrefixStar(prefix: string, name: string)
    requires Literal(prefix)
    ensures Match(prefix + "*", name) <==> StartsWith(name, prefix)
    decreases |prefix|
  {
    var p := prefix + "*";
    if prefix == [] {
      assert p == "*";
      MatchStar(name);
    } else {
      assert p[0] == prefix[0] && p[0] != '*' && p[0] != '?';
      assert p[1..] == prefix[1..] + "*";
      if name != [] {
        MatchPrefixStar(prefix[1..], name[1..]);
        if StartsWith(name[1..], prefix[1..]) && name[0] == prefix[0] {
          assert name[..|prefix|] == [name[0]] + name[1..][..|prefix| - 1];
        }
        if StartsWith(name, prefix) {
          assert name[1..][..|prefix| - 1] == name[..|prefix|][1..];
        }
      }
    }
  }

  /** The path the matcher reports for file `name` found in directory `root`: every occurrence of
      `base` in the joined path (not only a leading one) is replaced by `.`, then the path is normalised. */
  function Relative(root: string, name: string, base: string): (r: string)
    ensures r != ""
  {
    Normpath(Replace(Join(root, name), base, "."))
  }

  /** A file directly under `base` is reported by its bare name, so a hidden file keeps its leading dot. */
  lemma RelativeDirectChild(base: string, name: string)
    requires base != "" && !EndsWith(base, "/")
    requires name != "" && name != "." && name != ".." && '/' !in name
    requires !Occurs("/" + name, base)
    ensures Relative(base, name, base) == name
  {
    assert !IsAbs(name);
    assert Join(base, name) == base + ("/" + name);
    ReplacePrefix(base, "/" + name, ".");
    ReplaceAbsent("/" + name, base, ".");
    assert "." + ("/" + name) == "./" + name;
    NormpathDotName(name);
  }

  /** Replacing every occurrence of `base` rather than a leading one: in `/a`, the file `a`
      is reported as `..`, not as `a`. */
  lemma RelativeReplacesEveryOccurrence()
    ensures Relative("/a", "a", "/a") == ".."
  {
    assert Join("/a", "a") == "/a/a";
    ReplacePrefix("/a", "/a", ".");
    ReplacePrefix("/a", "", ".");
    assert Replace("", "/a", ".") == "";
    assert Replace("/a/a", "/a", ".") == "..";
    var comps := Split("..", '/');
    assert '/' !in "..";
    assert comps == [".."];
    assert NormComponents([".."], [], false) == [".."];
  }

  /** The matches among one directory's files, in the order of its file list. */
  function GlobFiles(pattern: string, base: string, root: string, files: seq<string>): (r: seq<string>)
    ensures |r| <= |files|
    ensures forall k :: 0 <= k < |r| ==> Match(pattern, r[k])
  {
    if files == [] then []
    else
      var full := Relative(root, files[0], base);
      (if Match(pattern, full) then [full] else []) + GlobFiles(pattern, base, root, files[1..])
  }

  /** `glob(path, base)` over the walk of `base`: matches in walk order, and within a directory
      in the order of its file list. Every reported path matches the pattern. */
  function Glob(pattern: string, base: string, walk: seq<WalkEntry>): (r: seq<string>)
    ensures forall k :: 0 <= k < |r| ==> Match(pattern, r[k])
  {
    if walk == [] then []
    else GlobFiles(pattern, base, walk[0].root, walk[0].files) + Glob(pattern, base, walk[1..])
  }

  /** A file of the walk is reported exactly when its relative path matches. */
  predicate Reported(pattern: string, base: string, walk: seq<WalkEntry>, x: string)
  {
    exists i, j :: 0 <= i < |walk| && 0 <= j < |walk[i].files| &&
      x == Relative(walk[i].root, walk[i].files[j], base) && Match(pattern, x)
  }

  lemma {:induction false} GlobFilesMember(pattern: string, base: string, root: string, files: seq<string>, x: string)
    ensures x in GlobFiles(pattern, base, root, files) <==>
      (Match(pattern, x) && exists j :: 0 <= j < |files| && x == Relative(root, files[j], base))
  {
    if files != [] {
      GlobFilesMember(pattern, base, root, files[1..], x);
      if exists j :: 0 <= j < |files[1..]| && x == Relative(root, files[1..][j], base) {
        var j :| 0 <= j < |files[1..]| && x == Relative(root, files[1..][j], base);
        assert x == Relative(root, files[j + 1], base);
      }
      if exists j :: 0 <= j < |files| && x == Relative(root, files[j], base) {
        var j :| 0 <= j < |files| && x == Relative(root, files[j], base);
        if j > 0 {
          assert x == Relative(root, files[1..][j - 1], base);
        }
      }
    }
  }

  /** Soundness and completeness: the reported paths are exactly the relative paths of the
      walk's files that match the pattern; nothing else (no directory) is reported. */
  lemma {:induction false} GlobMember(pattern: string, base: string, walk: seq<WalkEntry>, x: string)
    ensures x in Glob(pattern, base, walk) <==> Reported(pattern, base, walk, x)
  {
    if walk != [] {
      GlobMember(pattern, base, walk[1..], x);
      GlobFilesMember(pattern, base, walk[0].root, walk[0].files, x);
      if x in Glob(pattern, base, walk) {
        if x in GlobFiles(pattern, base, walk[0].root, walk[0].files) {
          var j :| 0 <= j < |walk[0].files| && x == Relative(walk[0].root, walk[0].files[j], base);
          assert Match(pattern, x);
        } else {
          assert x in Glob(pattern, base, walk[1..]);
          var i, j :| 0 <= i < |walk[1..]| && 0 <= j < |walk[1..][i].files| &&
            x == Relative(walk[1..][i].root, walk[1..][i].files[j], base) && Match(pattern, x);
          assert walk[1..][i] == walk[i + 1];
        }
      }
      if Reported(pattern, base, walk, x) {
        var i, j :| 0 <= i < |walk| && 0 <= j < |walk[i].files| &&
          x == Relative(walk[i].root, walk[i].files[j], base) && Match(pattern, x);
        if i > 0 {
          assert walk[1..][i - 1] == walk[i];
          assert Reported(pattern, base, walk[1..], x);
        }
      }
    }
  }

  /** The walk is consumed in order: matching two consecutive parts of a walk reports the first
      part's paths before the second's. */
  lemma {:induction false} GlobAppend(pattern: string, base: string, w1: seq<WalkEntry>, w2: seq<WalkEntry>)
    ensures Glob(pattern, base, w1 + w2) == Glob(pattern, base, w1) + Glob(pattern, base, w2)
  {
    if w1 == [] {
      assert w1 + w2 == w2;
    } else {
      assert (w1 + w2)[0] == w1[0];
      assert (w1 + w2)[1..] == w1[1..] + w2;
      GlobAppend(pattern, base, w1[1..], w2);
    }
  }

  /** A hidden file directly under `base` is reported by `.*`. */
  lemma HiddenFileReported(base: string, name: string, rest: seq<WalkEntry>)
    requires base != "" && !EndsWith(base, "/")
    requires |name| >= 2 && name[0] == '.' && name != ".." && '/' !in name
    requires !Occurs("/" + name, base)
    ensures name in Glob(".*", base, [WalkEntry(base, [name])] + rest)
  {
    RelativeDirectChild(base, name);
    MatchPrefixStar(".", name);
    var walk := [WalkEntry(base, [name])] + rest;
    assert walk[0].files[0] == name;
    GlobMember(".*", base, walk, name);
  }
}
