/** Python string primitives used by the generators, written out on `seq<char>`:
    `str.split(sep)` with a one-character separator, the last piece of a
    `re.split` on a character class, `str.replace` and substring tests. */
module Strs {

  predicate IsPrefix(p: string, s: string) {
    |p| <= |s| && s[..|p|] == p
  }

  predicate IsSuffix(r: string, s: string) {
    |r| <= |s| && s[|s| - |r|..] == r
  }

  /** Python's `t in s` for strings. */
  predicate Contains(s: string, t: string)
    decreases |s|
  {
    IsPrefix(t, s) || (|s| > 0 && Contains(s[1..], t))
  }

  /** Python's `s.split(sep)`: never empty, and a separator at either end or
      two in a row give empty pieces. */
  function Split(s: string, sep: char): (parts: seq<string>)
    ensures |parts| >= 1
    ensures forall i :: 0 <= i < |parts| ==> sep !in parts[i]
  {
    if s == [] then [[]]
    else
      var rest := Split(s[1..], sep);
      if s[0] == sep then [[]] + rest
      else [[s[0]] + rest[0]] + rest[1..]
  }

  /** `sep.join(parts)` */
  function Join(parts: seq<string>, sep: char): string
    requires |parts| >= 1
  {
    if |parts| == 1 then parts[0] else parts[0] + [sep] + Join(parts[1..], sep)
  }

  function Last<T>(xs: seq<T>): T
    requires |xs| > 0
  {
    xs[|xs| - 1]
  }

  /** Joining the pieces of a split gives back the original string. */
  lemma {:induction false} JoinSplit(s: string, sep: char)
    ensures Join(Split(s, sep), sep) == s
  {
    if s != [] {
      JoinSplit(s[1..], sep);
      var rest := Split(s[1..], sep);
      if s[0] != sep {
        if |rest| == 1 {
          assert Split(s, sep) == [[s[0]] + rest[0]];
        } else {
          assert Split(s, sep)[1..] == rest[1..];
          assert Join(rest, sep) == rest[0] + [sep] + Join(rest[1..], sep);
        }
      }
    }
  }

  /** And splitting a join of separator-free pieces gives back the pieces. */
  lemma {:induction false} SplitJoin(parts: seq<string>, sep: char)
    requires |parts| >= 1
    requires forall i :: 0 <= i < |parts| ==> sep !in parts[i]
    ensures Split(Join(parts, sep), sep) == parts
  {
    if |parts| == 1 {
      SplitNoSep(parts[0], sep);
    } else {
      SplitJoin(parts[1..], sep);
      SplitPrefix(parts[0], Join(parts[1..], sep), sep);
      assert Join(parts, sep) == parts[0] + ([sep] + Join(parts[1..], sep));
      assert [parts[0]] + parts[1..] == parts;
    }
  }

  /** A string without the separator splits into itself. */
  lemma {:induction false} SplitNoSep(s: string, sep: char)
    requires sep !in s
    ensures Split(s, sep) == [s]
  {
    if s != [] {
      SplitNoSep(s[1..], sep);
      assert [s[0]] + s[1..] == s;
    }
  }

  /** Splitting `a + sep + rest` where `a` has no separator. */
  lemma {:induction false} SplitPrefix(a: string, rest: string, sep: char)
    requires sep !in a
    ensures Split(a + ([sep] + rest), sep) == [a] + Split(rest, sep)
  {
    if a == [] {
      assert a + ([sep] + rest) == [sep] + rest;
      assert ([sep] + rest)[1..] == rest;
    } else {
      SplitPrefix(a[1..], rest, sep);
      assert (a + ([sep] + rest))[1..] == a[1..] + ([sep] + rest);
      assert [a[0]] + a[1..] == a;
    }
  }

  /** The last piece after splitting on any character of `seps`
      (`re.split("[...]", s)[-1]`, and `s.split(c)[-1]` for one character):
      the longest suffix of `s` free of those characters. */
  function LastAfter(s: string, seps: set<char>): string
  {
    if s == [] then []
    else if s[|s| - 1] in seps then []
    else LastAfter(s[..|s| - 1], seps) + [s[|s| - 1]]
  }

  /** The last piece is a suffix free of the separators, and the longest one:
      it is all of `s`, or a separator comes just before it. */
  lemma {:induction false} LastAfterShape(s: string, seps: set<char>)
    ensures IsSuffix(LastAfter(s, seps), s)
    ensures forall i :: 0 <= i < |LastAfter(s, seps)| ==> LastAfter(s, seps)[i] !in seps
    ensures |LastAfter(s, seps)| == |s| || s[|s| - |LastAfter(s, seps)| - 1] in seps
    decreases |s|
  {
    if s != [] && s[|s| - 1] !in seps {
      var init := s[..|s| - 1];
      LastAfterShape(init, seps);
      var l := LastAfter(init, seps);
      assert s[|s| - |l| - 1..] == init[|init| - |l|..] + [s[|s| - 1]];
    }
  }

  /** `s[i]`, and a fixed character when `i` is out of range. */
  function CharAt(s: string, i: int): char {
    if 0 <= i < |s| then s[i] else ' '
  }

  /** A suffix free of the separators that is preceded by a separator (or is all
      of `s`) is exactly `LastAfter`; so the ensures of `LastAfter` pin it down. */
  lemma LastAfterUnique(s: string, seps: set<char>, r: string)
    requires IsSuffix(r, s)
    requires forall i :: 0 <= i < |r| ==> r[i] !in seps
    requires |r| == |s| || s[|s| - |r| - 1] in seps
    ensures r == LastAfter(s, seps)
  {
    var l := LastAfter(s, seps);
    LastAfterShape(s, seps);
    // The shorter of two such suffixes would end inside the longer one at a
    // separator, which the longer one does not contain.
    assert |r| < |l| ==> CharAt(l, |l| - |r| - 1) == CharAt(s, |s| - |r| - 1);
    assert |l| < |r| ==> CharAt(r, |r| - |l| - 1) == CharAt(s, |s| - |l| - 1);
  }

  /** Taking the last piece for one set of separators and then for another
      is taking it for both at once. */
  lemma {:induction false} LastAfterTwice(s: string, a: set<char>, b: set<char>)
    ensures LastAfter(LastAfter(s, a), b) == LastAfter(s, a + b)
  {
    if s != [] && s[|s| - 1] !in a {
      var init := s[..|s| - 1];
      var l := LastAfter(init, a);
      assert LastAfter(s, a) == l + [s[|s| - 1]];
      assert (l + [s[|s| - 1]])[..|l|] == l;
      LastAfterTwice(init, a, b);
    }
  }

  /** `s.split(c)[-1]` is `LastAfter(s, {c})`. */
  lemma {:induction false} LastAfterIsLastSplit(s: string, c: char)
    ensures LastAfter(s, {c}) == Last(Split(s, c))
  {
    if s != [] {
      var parts := Split(s, c);
      JoinSplit(s, c);
      var r := Last(parts);
      LastOfJoin(parts, c);
      LastAfterUnique(s, {c}, r);
    }
  }

  /** The last piece of a split is a separator-free suffix preceded by the
      separator unless it is the whole string. */
  lemma {:induction false} LastOfJoin(parts: seq<string>, c: char)
    requires |parts| >= 1
    requires forall i :: 0 <= i < |parts| ==> c !in parts[i]
    ensures IsSuffix(Last(parts), Join(parts, c))
    ensures |Last(parts)| == |Join(parts, c)| || Join(parts, c)[|Join(parts, c)| - |Last(parts)| - 1] == c
  {
    if |parts| > 1 {
      LastOfJoin(parts[1..], c);
      var j := Join(parts[1..], c);
      assert Join(parts, c) == (parts[0] + [c]) + j;
      assert Last(parts[1..]) == Last(parts);
    }
  }

  /** `s.split(c)[0]`: everything before the first `c`. */
  function FirstBefore(s: string, c: char): string
  {
    if s == [] || s[0] == c then [] else [s[0]] + FirstBefore(s[1..], c)
  }

  /** The first piece is a prefix free of `c`, followed by `c` unless it is
      all of `s`. */
  lemma {:induction false} FirstBeforeShape(s: string, c: char)
    ensures IsPrefix(FirstBefore(s, c), s)
    ensures c !in FirstBefore(s, c)
    ensures |FirstBefore(s, c)| == |s| || s[|FirstBefore(s, c)|] == c
  {
    if s != [] && s[0] != c {
      FirstBeforeShape(s[1..], c);
      assert s == [s[0]] + s[1..];
    }
  }

  lemma {:induction false} FirstBeforeIsFirstSplit(s: string, c: char)
    ensures FirstBefore(s, c) == Split(s, c)[0]
  {
    if s != [] && s[0] != c {
      FirstBeforeIsFirstSplit(s[1..], c);
    }
  }

  /** Python's `s.replace(pat, rep)`: every non-overlapping occurrence of `pat`,
      scanning left to right, becomes `rep`; an empty `pat` puts `rep` before
      every character and at the end. */
  function Replace(s: string, pat: string, rep: string): string
    decreases |s|
  {
    if pat == [] then
      if s == [] then rep else rep + [s[0]] + Replace(s[1..], pat, rep)
    else if IsPrefix(pat, s) then rep + Replace(s[|pat|..], pat, rep)
    else if s == [] then []
    else [s[0]] + Replace(s[1..], pat, rep)
  }

  /** A string that does not contain a non-empty `pat` is left alone. */
  lemma {:induction false} ReplaceAbsent(s: string, pat: string, rep: string)
    requires pat != []
    requires !Contains(s, pat)
    ensures Replace(s, pat, rep) == s
  {
    if s != [] {
      ReplaceAbsent(s[1..], pat, rep);
    }
  }

  /** Replacing a string by itself changes nothing. */
  lemma {:induction false} ReplaceSame(s: string, pat: string)
    requires pat != []
    ensures Replace(s, pat, pat) == s
  {
    if IsPrefix(pat, s) {
      ReplaceSame(s[|pat|..], pat);
      assert s == s[..|pat|] + s[|pat|..];
    } else if s != [] {
      ReplaceSame(s[1..], pat);
    }
  }
}
