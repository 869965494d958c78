/** The handful of Python `str` operations the pipeline relies on, on `seq<char>`. */
module Strings {

  /** `s.startswith(prefix)` */
  predicate StartsWith(s: string, prefix: string)
  {
    |prefix| <= |s| && s[..|prefix|] == prefix
  }

  /** `s.endswith(suffix)` */
  predicate EndsWith(s: string, suffix: string)
  {
    |suffix| <= |s| && s[|s| - |suffix|..] == suffix
  }

  /** `needle in s` for a non-empty needle: some position of `s` starts a copy of it. */
  predicate Occurs(s: string, needle: string)
  {
    exists i | 0 <= i <= |s| :: OccursAt(s, needle, i)
  }

  /** A copy of `needle` starts at position `i` of `s`. */
  predicate OccursAt(s: string, needle: string, i: int)
  {
    0 <= i <= |s| - |needle| && s[i..i + |needle|] == needle
  }

  /** Upper-case form of an ASCII character; every other character is its own upper case. */
  function UpperChar(c: char): char
  {
    if 'a' <= c <= 'z' then (c as int - 32) as char else c
  }

  /** `s.upper()`, on ASCII letters. */
  function Upper(s: string): (r: string)
    ensures |r| == |s|
    ensures forall i :: 0 <= i < |s| ==> r[i] == UpperChar(s[i])
  {
    if s == [] then [] else [UpperChar(s[0])] + Upper(s[1..])
  }

  /** Number of occurrences of `c` in `s`. */
  function Count(s: string, c: char): nat
  {
    if s == [] then 0 else (if s[0] == c then 1 else 0) + Count(s[1..], c)
  }

  /** Index of the first `c` in `s`, which must occur. */
  function IndexOf(s: string, c: char): (i: nat)
    requires c in s
    ensures i < |s| && s[i] == c && c !in s[..i]
  {
    if s[0] == c then 0 else 1 + IndexOf(s[1..], c)
  }

  /** `s.split(sep)` for a one-character separator: the pieces between the separators, empty pieces kept. */
  function Split(s: string, sep: char): (r: seq<string>)
    ensures |r| > 0
    ensures forall k :: 0 <= k < |r| ==> sep !in r[k]
    decreases |s|
  {
    if sep !in s then [s]
    else
      var i := IndexOf(s, sep);
      [s[..i]] + Split(s[i + 1..], sep)
  }

  /** `sep.join(parts)` */
  function JoinWith(parts: seq<string>, sep: string): string
  {
    if parts == [] then ""
    else if |parts| == 1 then parts[0]
    else parts[0] + sep + JoinWith(parts[1..], sep)
  }

  /** `s.replace(old, new)`: every non-overlapping occurrence, scanning left to right.
      With an empty `old`, Python inserts `new` before every character and at the end. */
  function Replace(s: string, target: string, repl: string): (r: string)
    ensures target == repl ==> r == s
    decreases |s|
  {
    if target == [] then
      if s == [] then repl else repl + [s[0]] + Replace(s[1..], target, repl)
    else if |s| < |target| then s
    else if s[..|target|] == target then repl + Replace(s[|target|..], target, repl)
    else [s[0]] + Replace(s[1..], target, repl)
  }

  /** Splitting on a separator gives one more piece than there are separators. */
  lemma {:induction false} SplitCount(s: string, sep: char)
    ensures |Split(s, sep)| == Count(s, sep) + 1
    decreases |s|
  {
    if sep in s {
      var i := IndexOf(s, sep);
      SplitCount(s[i + 1..], sep);
      CountConcat(s[..i], s[i..], sep);
      assert s == s[..i] + s[i..];
      NoOccurrence(s[..i], sep);
      assert s[i..] == [sep] + s[i + 1..];
      assert Count(s[i..], sep) == 1 + Count(s[i + 1..], sep);
    } else {
      NoOccurrence(s, sep);
    }
  }

  /** Joining the pieces of a split with the separator gives back the text. */
  lemma {:induction false} SplitJoin(s: string, sep: char)
    ensures JoinWith(Split(s, sep), [sep]) == s
    decreases |s|
  {
    if sep in s {
      var i := IndexOf(s, sep);
      var rest := Split(s[i + 1..], sep);
      SplitJoin(s[i + 1..], sep);
      assert Split(s, sep) == [s[..i]] + rest;
      assert JoinWith(Split(s, sep), [sep]) == s[..i] + [sep] + JoinWith(rest, [sep]);
      assert s == s[..i] + [sep] + s[i + 1..];
    }
  }

  lemma {:induction false} CountConcat(a: string, b: string, c: char)
    ensures Count(a + b, c) == Count(a, c) + Count(b, c)
  {
    if a != [] {
      assert (a + b)[0] == a[0] && (a + b)[1..] == a[1..] + b;
      CountConcat(a[1..], b, c);
    } else {
      assert a + b == b;
    }
  }

  lemma {:induction false} NoOccurrence(s: string, c: char)
    requires c !in s
    ensures Count(s, c) == 0
  {
    if s != [] {
      NoOccurrence(s[1..], c);
    }
  }

  /** Past a leading occurrence of a non-empty `target`, the rest is replaced independently. */
  lemma ReplacePrefix(target: string, rest: string, repl: string)
    requires target != []
    ensures Replace(target + rest, target, repl) == repl + Replace(rest, target, repl)
  {
    assert (target + rest)[..|target|] == target;
    assert (target + rest)[|target|..] == rest;
  }

  /** A text with no occurrence of a non-empty `target` is left as it is. */
  lemma {:induction false} ReplaceAbsent(s: string, target: string, repl: string)
    requires target != [] && !Occurs(s, target)
    ensures Replace(s, target, repl) == s
    decreases |s|
  {
    if |s| >= |target| {
      assert !OccursAt(s, target, 0);
      assert s[0..|target|] == s[..|target|];
      assert !Occurs(s[1..], target) by {
        forall i | 0 <= i
          ensures !OccursAt(s[1..], target, i)
        {
          assert !OccursAt(s, target, i + 1);
          if i <= |s[1..]| - |target| {
            assert s[1..][i..i + |target|] == s[i + 1..i + 1 + |target|];
          }
        }
      }
      ReplaceAbsent(s[1..], target, repl);
    }
  }
}
