// `strip_comments`: `re.sub` of the quoted-string-or-comment pattern
// `((["'])(?:\\?.)*?\2)|(/\*.*?\*/)|((?:#|//).*?(?=\n|$))` (MULTILINE, DOTALL)
// with a replacement that keeps a quoted string and drops a comment.
// The regex is written out as the scan the matcher performs: at each
// position the three alternatives are tried in order, the first one that
// matches is consumed, and otherwise the character is copied.
module Comments {
  import opened Wrappers

  predicate IsQuote(c: char) { c == '"' || c == '\'' }

  /** The end of `(?:\\?.)*?\2` started at `i`, as the backtracking matcher
      finds it: the lazy star first tries the closing quote, then one more
      repetition, in which the optional backslash is first taken (consuming
      the escaped character too) and, on failure, left out. */
  function QuoteEnd(s: string, i: nat, q: char): (r: Option<nat>)
    requires i <= |s|
    ensures r.Some? ==> i < r.value <= |s| && s[r.value - 1] == q
    decreases |s| - i
  {
    if i == |s| then None
    else if s[i] == q then Some(i + 1)
    else if s[i] == '\\' && i + 1 < |s| && QuoteEnd(s, i + 2, q).Some? then QuoteEnd(s, i + 2, q)
    else QuoteEnd(s, i + 1, q)
  }

  // The end of `.*?\*/` started at `i`: just past the first `*/`.
  function BlockEnd(s: string, i: nat): (r: Option<nat>)
    requires i <= |s|
    ensures r.Some? ==> i + 2 <= r.value <= |s| && s[r.value - 2] == '*' && s[r.value - 1] == '/'
    decreases |s| - i
  {
    if i + 1 >= |s| then None
    else if s[i] == '*' && s[i + 1] == '/' then Some(i + 2)
    else BlockEnd(s, i + 1)
  }

  /** The end of `.*?(?=\n|$)` started at `i`: the next newline, or the end. */
  function LineEnd(s: string, i: nat): (k: nat)
    requires i <= |s|
    ensures i <= k <= |s|
    ensures k == |s| || s[k] == '\n'
    ensures forall m :: i <= m < k ==> s[m] != '\n'
    decreases |s| - i
  {
    if i == |s| || s[i] == '\n' then i else LineEnd(s, i + 1)
  }

  /** The substitution from scan position `p` on. */
  function Strip(s: string, p: nat): string
    requires p <= |s|
    decreases |s| - p
  {
    if p == |s| then ""
    else if IsQuote(s[p]) && QuoteEnd(s, p + 1, s[p]).Some? then
      s[p..QuoteEnd(s, p + 1, s[p]).value] + Strip(s, QuoteEnd(s, p + 1, s[p]).value)
    else if s[p] == '/' && p + 1 < |s| && s[p + 1] == '*' && BlockEnd(s, p + 2).Some? then
      Strip(s, BlockEnd(s, p + 2).value)
    else if s[p] == '#' then Strip(s, LineEnd(s, p + 1))
    else if s[p] == '/' && p + 1 < |s| && s[p + 1] == '/' then Strip(s, LineEnd(s, p + 2))
    else [s[p]] + Strip(s, p + 1)
  }

  function StripComments(s: string): string {
    Strip(s, 0)
  }

  /** Only deletions happen: the output is never longer than the input. */
  lemma {:induction false} StripNotLonger(s: string, p: nat)
    requires p <= |s|
    ensures |Strip(s, p)| <= |s| - p
    decreases |s| - p
  {
    if p < |s| {
      if IsQuote(s[p]) && QuoteEnd(s, p + 1, s[p]).Some? {
        StripNotLonger(s, QuoteEnd(s, p + 1, s[p]).value);
      } else if s[p] == '/' && p + 1 < |s| && s[p + 1] == '*' && BlockEnd(s, p + 2).Some? {
        StripNotLonger(s, BlockEnd(s, p + 2).value);
      } else if s[p] == '#' {
        StripNotLonger(s, LineEnd(s, p + 1));
      } else if s[p] == '/' && p + 1 < |s| && s[p + 1] == '/' {
        StripNotLonger(s, LineEnd(s, p + 2));
      } else {
        StripNotLonger(s, p + 1);
      }
    }
  }

  lemma StripCommentsNotLonger(s: string)
    ensures |StripComments(s)| <= |s|
  {
    StripNotLonger(s, 0);
  }

  predicate Plain(c: char) { !IsQuote(c) && c != '/' && c != '#' }

  /** Text with no quote, `/` or `#` from `p` on is copied as it is. */
  lemma {:induction false} StripPlain(s: string, p: nat)
    requires p <= |s|
    requires forall k :: p <= k < |s| ==> Plain(s[k])
    ensures Strip(s, p) == s[p..]
    decreases |s| - p
  {
    if p < |s| {
      StripPlain(s, p + 1);
      assert s[p..] == [s[p]] + s[p + 1..];
    }
  }

  lemma StripCommentsPlain(s: string)
    requires forall k :: 0 <= k < |s| ==> Plain(s[k])
    ensures StripComments(s) == s
  {
    StripPlain(s, 0);
  }

  /** `s[i..j]` is the body of a well-formed quoted string closed by `q` at
      `j`: characters other than `q` and a backslash, or a backslash and the
      character it escapes. */
  predicate WellQuoted(s: string, i: nat, j: nat, q: char)
    requires i <= j < |s|
    decreases j - i
  {
    if i == j then s[j] == q
    else if s[i] == '\\' then i + 1 < j && WellQuoted(s, i + 2, j, q)
    else s[i] != q && WellQuoted(s, i + 1, j, q)
  }

  /** A well-formed body is matched up to its own closing quote. */
  lemma {:induction false} QuoteEndWellQuoted(s: string, i: nat, j: nat, q: char)
    requires i <= j < |s|
    requires WellQuoted(s, i, j, q)
    requires q != '\\'
    ensures QuoteEnd(s, i, q) == Some(j + 1)
    decreases j - i
  {
    if i < j {
      if s[i] == '\\' {
        QuoteEndWellQuoted(s, i + 2, j, q);
      } else {
        QuoteEndWellQuoted(s, i + 1, j, q);
      }
    }
  }

  /** A well-formed quoted string at a scan position is kept verbatim, comment
      markers inside it included, and the scan resumes after it. */
  lemma StripKeepsQuoted(s: string, p: nat, j: nat)
    requires p < j < |s|
    requires IsQuote(s[p]) && WellQuoted(s, p + 1, j, s[p])
    ensures Strip(s, p) == s[p..j + 1] + Strip(s, j + 1)
  {
    QuoteEndWellQuoted(s, p + 1, j, s[p]);
  }

  /** A `#` comment at a scan position is dropped up to, not including, the
      next newline (or the end of the text). */
  lemma StripHashComment(s: string, p: nat, k: nat)
    requires p < k <= |s| && s[p] == '#'
    requires k == |s| || s[k] == '\n'
    requires forall m :: p < m < k ==> s[m] != '\n'
    ensures Strip(s, p) == Strip(s, k)
  {
    LineEndIsNext(s, p + 1, k);
  }

  /** The same for a `//` comment. */
  lemma StripSlashComment(s: string, p: nat, k: nat)
    requires p + 2 <= k <= |s| && s[p] == '/' && s[p + 1] == '/'
    requires k == |s| || s[k] == '\n'
    requires forall m :: p + 2 <= m < k ==> s[m] != '\n'
    ensures Strip(s, p) == Strip(s, k)
  {
    LineEndIsNext(s, p + 2, k);
  }

  lemma {:induction false} LineEndIsNext(s: string, i: nat, k: nat)
    requires i <= k <= |s|
    requires k == |s| || s[k] == '\n'
    requires forall m :: i <= m < k ==> s[m] != '\n'
    ensures LineEnd(s, i) == k
    decreases k - i
  {
    if i < k {
      LineEndIsNext(s, i + 1, k);
    }
  }

  // A `/* ... */` block at a scan position is dropped through the first
  // `*/`, across newlines.
  lemma {:induction false} StripBlockComment(s: string, p: nat, j: nat)
    requires p + 2 <= j && j + 1 < |s| && s[p] == '/' && s[p + 1] == '*'
    requires s[j] == '*' && s[j + 1] == '/'
    requires forall m :: p + 2 <= m < j ==> !(s[m] == '*' && s[m + 1] == '/')
    ensures Strip(s, p) == Strip(s, j + 2)
  {
    BlockEndFirst(s, p + 2, j);
    assert !IsQuote(s[p]);
  }

  lemma {:induction false} BlockEndFirst(s: string, i: nat, j: nat)
    requires i <= j && j + 1 < |s|
    requires s[j] == '*' && s[j + 1] == '/'
    requires forall m :: i <= m < j ==> !(s[m] == '*' && s[m + 1] == '/')
    ensures BlockEnd(s, i) == Some(j + 2)
    decreases j - i
  {
    if i < j {
      BlockEndFirst(s, i + 1, j);
    }
  }

  lemma {:induction false} BlockEndNone(s: string, i: nat)
    requires i <= |s|
    requires forall m :: i <= m < |s| - 1 ==> !(s[m] == '*' && s[m + 1] == '/')
    ensures BlockEnd(s, i) == None
    decreases |s| - i
  {
    if i + 1 < |s| {
      BlockEndNone(s, i + 1);
    }
  }

  // An unterminated `/*` is not a comment: its `/` is copied and the scan
  // moves on by one character.
  lemma StripUnterminatedBlock(s: string, p: nat)
    requires p + 1 < |s| && s[p] == '/' && s[p + 1] == '*'
    requires forall m :: p + 2 <= m < |s| - 1 ==> !(s[m] == '*' && s[m + 1] == '/')
    ensures Strip(s, p) == "/" + Strip(s, p + 1)
  {
    BlockEndNone(s, p + 2);
  }
}
