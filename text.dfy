/** The part of Python's `str` behaviour that the payload generator and the
    two byte-format tools rely on: `in`, `startswith`, `endswith`,
    `replace`, `split`, `splitlines`, `join`, and list comprehensions that
    filter a list of lines. */
module Text {

  /** `p in s`: `p` occurs somewhere in `s` (the empty string occurs everywhere). */
  predicate Contains(s: string, p: string)
    decreases |s|
  {
    |p| <= |s| && (s[..|p|] == p || (|s| > 0 && Contains(s[1..], p)))
  }

  /** `s.startswith(p)` */
  predicate StartsWith(s: string, p: string) {
    |p| <= |s| && s[..|p|] == p
  }

  /** `s.endswith(p)` */
  predicate EndsWith(s: string, p: string) {
    |p| <= |s| && s[|s| - |p|..] == p
  }

  /** `s.replace(p, r)` for a non-empty `p`: every occurrence of `p`, found
      left to right and never overlapping, is replaced by `r`. */
  function Replace(s: string, p: string, r: string): (result: string)
    requires |p| > 0
    decreases |s|
  {
    if |s| < |p| then s
    else if s[..|p|] == p then r + Replace(s[|p|..], p, r)
    else [s[0]] + Replace(s[1..], p, r)
  }

  /** `s.split(sep)` for a non-empty `sep`: the pieces between the occurrences
      of `sep`, found left to right. */
  function SplitOn(s: string, sep: string): (parts: seq<string>)
    requires |sep| > 0
    ensures |parts| >= 1
    decreases |s|
  {
    if |s| < |sep| then [s]
    else if s[..|sep|] == sep then [""] + SplitOn(s[|sep|..], sep)
    else
      var rest := SplitOn(s[1..], sep);
      [[s[0]] + rest[0]] + rest[1..]
  }

  /** `sep.join(parts)` */
  function Join(parts: seq<string>, sep: string): (r: string) {
    if |parts| == 0 then ""
    else if |parts| == 1 then parts[0]
    else parts[0] + sep + Join(parts[1..], sep)
  }

  /** `s.splitlines()` with `\n` as the only line separator: no line for the
      empty text, and no empty last line after a trailing newline. */
  function PyLines(s: string): (r: seq<string>) {
    if s == "" then []
    else
      var parts := SplitOn(s, "\n");
      if parts[|parts| - 1] == "" then parts[..|parts| - 1] else parts
  }

  /** `[x for x in xs if keep(x)]` */
  function Filter<T>(xs: seq<T>, keep: T -> bool): (ys: seq<T>)
    ensures |ys| <= |xs|
  {
    if xs == [] then []
    else Filter(xs[..|xs| - 1], keep) + (if keep(xs[|xs| - 1]) then [xs[|xs| - 1]] else [])
  }

  /** `a` is `b` with some elements left out and the rest in their order. */
  predicate IsSubsequence<T(==)>(a: seq<T>, b: seq<T>)
    decreases |b|
  {
    if a == [] then true
    else if b == [] then false
    else if a[|a| - 1] == b[|b| - 1] then IsSubsequence(a[..|a| - 1], b[..|b| - 1])
    else IsSubsequence(a, b[..|b| - 1])
  }

  // ---------------------------------------------------------------------
  // Replace

  /** Replacing a pattern that does not occur leaves the text as it is. */
  lemma {:induction false} ReplaceAbsent(s: string, p: string, r: string)
    requires |p| > 0 && !Contains(s, p)
    ensures Replace(s, p, r) == s
    decreases |s|
  {
    if |s| >= |p| {
      ReplaceAbsent(s[1..], p, r);
      assert [s[0]] + s[1..] == s;
    }
  }

  /** Python's own characterisation: `s.replace(p, r) == r.join(s.split(p))`. */
  lemma {:induction false} ReplaceIsJoinOfSplit(s: string, p: string, r: string)
    requires |p| > 0
    ensures Replace(s, p, r) == Join(SplitOn(s, p), r)
    decreases |s|
  {
    if |s| < |p| {
    } else if s[..|p|] == p {
      var rest := SplitOn(s[|p|..], p);
      assert SplitOn(s, p) == [""] + rest;
      assert Replace(s, p, r) == r + Replace(s[|p|..], p, r);
      ReplaceIsJoinOfSplit(s[|p|..], p, r);
      assert ([""] + rest)[1..] == rest;
    } else {
      var rest := SplitOn(s[1..], p);
      var parts := [[s[0]] + rest[0]] + rest[1..];
      assert SplitOn(s, p) == parts;
      assert Replace(s, p, r) == [s[0]] + Replace(s[1..], p, r);
      ReplaceIsJoinOfSplit(s[1..], p, r);
      if |rest| > 1 {
        assert parts[1..] == rest[1..];
        assert Join(rest, r) == rest[0] + r + Join(rest[1..], r);
      }
    }
  }

  /** The first occurrence of `p` after a stretch that cannot start one is
      replaced in place, and replacement continues after it. */
  lemma {:induction false} ReplaceSplice(a: string, p: string, b: string, r: string)
    requires |p| > 0 && p[0] !in a
    ensures Replace(a + p + b, p, r) == a + r + Replace(b, p, r)
    decreases |a|
  {
    var s := a + p + b;
    if a == [] {
      assert s == p + b;
      assert s[..|p|] == p && s[|p|..] == b;
    } else {
      var t := a[1..] + p + b;
      assert s == [a[0]] + t;
      assert s[..|p|][0] == a[0] != p[0];
      assert Replace(s, p, r) == [a[0]] + Replace(t, p, r);
      ReplaceSplice(a[1..], p, b, r);
      assert [a[0]] + a[1..] == a;
    }
  }

  // ---------------------------------------------------------------------
  // SplitOn and Join

  /** A text in which the separator's first character never occurs is one piece. */
  lemma {:induction false} SplitWithoutSeparator(a: string, sep: string)
    requires |sep| > 0 && sep[0] !in a
    ensures SplitOn(a, sep) == [a]
    decreases |a|
  {
    if |a| >= |sep| {
      assert a[0] == a[..|sep|][0];
      SplitWithoutSeparator(a[1..], sep);
      assert [a[0]] + a[1..] == a;
    }
  }

  /** Splitting stops at the first separator after a stretch that cannot start one. */
  lemma {:induction false} SplitAfterPiece(a: string, sep: string, b: string)
    requires |sep| > 0 && sep[0] !in a
    ensures SplitOn(a + sep + b, sep) == [a] + SplitOn(b, sep)
    decreases |a|
  {
    var s := a + sep + b;
    if a == [] {
      assert s == sep + b && s[..|sep|] == sep && s[|sep|..] == b;
    } else {
      assert s[0] == a[0] != sep[0];
      assert s[..|sep|] != sep;
      assert s[1..] == a[1..] + sep + b;
      SplitAfterPiece(a[1..], sep, b);
      assert [a[0]] + a[1..] == a;
    }
  }

  /** Joining pieces that cannot start a separator and splitting again gives
      the pieces back. */
  lemma {:induction false} SplitOfJoin(parts: seq<string>, sep: string)
    requires |sep| > 0 && |parts| >= 1
    requires forall i :: 0 <= i < |parts| ==> sep[0] !in parts[i]
    ensures SplitOn(Join(parts, sep), sep) == parts
    decreases |parts|
  {
    if |parts| == 1 {
      SplitWithoutSeparator(parts[0], sep);
    } else {
      SplitOfJoin(parts[1..], sep);
      SplitAfterPiece(parts[0], sep, Join(parts[1..], sep));
      assert [parts[0]] + parts[1..] == parts;
    }
  }

  /** No piece of a split on one character contains that character. */
  lemma {:induction false} SplitPiecesAvoidSeparator(s: string, c: char)
    ensures forall i :: 0 <= i < |SplitOn(s, [c])| ==> c !in SplitOn(s, [c])[i]
    decreases |s|
  {
    if |s| >= 1 {
      SplitPiecesAvoidSeparator(s[1..], c);
      var rest := SplitOn(s[1..], [c]);
      if s[..1] != [c] {
        assert s[0] != c;
        var parts := [[s[0]] + rest[0]] + rest[1..];
        assert SplitOn(s, [c]) == parts;
        forall i | 0 <= i < |parts| ensures c !in parts[i] {
          if i > 0 { assert parts[i] == rest[i]; }
        }
      } else {
        assert SplitOn(s, [c]) == [""] + SplitOn(s[1..], [c]);
      }
    }
  }

  /** No line produced by `splitlines()` contains a newline. */
  lemma PyLinesAvoidNewline(s: string)
    ensures forall i :: 0 <= i < |PyLines(s)| ==> '\n' !in PyLines(s)[i]
  {
    if s != "" {
      SplitPiecesAvoidSeparator(s, '\n');
      var parts := SplitOn(s, "\n");
      assert forall i :: 0 <= i < |PyLines(s)| ==> PyLines(s)[i] == parts[i];
    }
  }

  /** A pattern without the joining character that occurs in none of the
      pieces does not occur in their join either. */
  lemma {:induction false} JoinAvoids(parts: seq<string>, c: char, p: string)
    requires |p| > 0 && c !in p
    requires forall i :: 0 <= i < |parts| ==> !Contains(parts[i], p)
    ensures !Contains(Join(parts, [c]), p)
    decreases |parts|
  {
    if |parts| == 0 {
    } else if |parts| > 1 {
      JoinAvoids(parts[1..], c, p);
      ContainsAcross(parts[0], c, Join(parts[1..], [c]), p);
    }
  }

  /** An occurrence of `p` cannot straddle a character that `p` lacks. */
  lemma {:induction false} ContainsAcross(a: string, c: char, b: string, p: string)
    requires |p| > 0 && c !in p
    requires !Contains(a, p) && !Contains(b, p)
    ensures !Contains(a + [c] + b, p)
    decreases |a|
  {
    var s := a + [c] + b;
    if |p| <= |s| {
      if a == [] {
        assert s[..|p|][0] == c;
        assert s[1..] == b;
      } else {
        if |p| <= |a| {
          assert s[..|p|] == a[..|p|];
        } else {
          assert s[..|p|][|a|] == c;
        }
        assert s[1..] == a[1..] + [c] + b;
        ContainsAcross(a[1..], c, b, p);
      }
    }
  }

  /** A text that holds `p` somewhere in the middle contains it. */
  lemma {:induction false} ContainsInfix(a: string, p: string, b: string)
    ensures Contains(a + p + b, p)
    decreases |a|
  {
    var s := a + p + b;
    if a == [] {
      assert s[..|p|] == p;
    } else {
      ContainsInfix(a[1..], p, b);
      assert s[1..] == a[1..] + p + b;
    }
  }

  /** The last piece of a split on one character is what follows the last
      occurrence of that character. */
  lemma {:induction false} SplitLastPiece(a: string, c: char, b: string)
    requires c !in b
    ensures var parts := SplitOn(a + [c] + b, [c]);
      |parts| >= 2 && parts[|parts| - 1] == b
    decreases |a|
  {
    var s := a + [c] + b;
    if a == [] {
      assert s[..1] == [c];
      assert s[1..] == b;
      SplitWithoutSeparator(b, [c]);
    } else {
      assert s[1..] == a[1..] + [c] + b;
      SplitLastPiece(a[1..], c, b);
    }
  }

  // ---------------------------------------------------------------------
  // Filter

  /** What a filter keeps comes from the input and passes the test. */
  lemma {:induction false} FilterMembers<T>(xs: seq<T>, keep: T -> bool)
    ensures forall y :: y in Filter(xs, keep) ==> y in xs && keep(y)
    decreases |xs|
  {
    if xs != [] {
      FilterMembers(xs[..|xs| - 1], keep);
    }
  }

  /** A filter keeps every element that passes the test. */
  lemma {:induction false} FilterKeeps<T>(xs: seq<T>, keep: T -> bool, x: T)
    requires x in xs && keep(x)
    ensures x in Filter(xs, keep)
    decreases |xs|
  {
    if xs[|xs| - 1] != x {
      assert xs == xs[..|xs| - 1] + [xs[|xs| - 1]];
      FilterKeeps(xs[..|xs| - 1], keep, x);
    }
  }

  /** Filtering a list whose every element passes the test changes nothing. */
  lemma {:induction false} FilterAllKept<T>(xs: seq<T>, keep: T -> bool)
    requires forall i :: 0 <= i < |xs| ==> keep(xs[i])
    ensures Filter(xs, keep) == xs
    decreases |xs|
  {
    if xs != [] {
      FilterAllKept(xs[..|xs| - 1], keep);
      assert xs[..|xs| - 1] + [xs[|xs| - 1]] == xs;
    }
  }

  /** A filter keeps its survivors in their original order. */
  lemma {:induction false} FilterIsSubsequence<T>(xs: seq<T>, keep: T -> bool)
    ensures IsSubsequence(Filter(xs, keep), xs)
    decreases |xs|
  {
    if xs != [] {
      var init := xs[..|xs| - 1];
      FilterIsSubsequence(init, keep);
      assert init + [xs[|xs| - 1]] == xs;
      if keep(xs[|xs| - 1]) {
        var ys := Filter(xs, keep);
        assert ys == Filter(init, keep) + [xs[|xs| - 1]];
        assert ys[|ys| - 1] == xs[|xs| - 1];
        assert ys[..|ys| - 1] == Filter(init, keep);
      } else {
        assert Filter(xs, keep) == Filter(init, keep);
        SubsequenceOfLonger(Filter(init, keep), init, xs[|xs| - 1]);
      }
    }
  }

  /** A subsequence of a list is a subsequence of that list extended by one. */
  lemma {:induction false} SubsequenceOfLonger<T>(a: seq<T>, b: seq<T>, x: T)
    requires IsSubsequence(a, b)
    ensures IsSubsequence(a, b + [x])
    decreases |b|, 1
  {
    var bx := b + [x];
    assert bx[..|bx| - 1] == b;
    if a != [] && a[|a| - 1] == x {
      SubsequenceDropLast(a, b);
    }
  }

  /** Dropping the last element of a subsequence keeps it a subsequence. */
  lemma {:induction false} SubsequenceDropLast<T>(a: seq<T>, b: seq<T>)
    requires a != [] && IsSubsequence(a, b)
    ensures IsSubsequence(a[..|a| - 1], b)
    decreases |b|, 0
  {
    var a' := a[..|a| - 1];
    if a[|a| - 1] == b[|b| - 1] {
      if a' != [] {
        SubsequenceOfLonger(a', b[..|b| - 1], b[|b| - 1]);
        assert b[..|b| - 1] + [b[|b| - 1]] == b;
      }
    } else {
      SubsequenceDropLast(a, b[..|b| - 1]);
      if a' != [] {
        SubsequenceOfLonger(a', b[..|b| - 1], b[|b| - 1]);
        assert b[..|b| - 1] + [b[|b| - 1]] == b;
      }
    }
  }
}
