/** The Python string operations the request path relies on: substring
    membership (`p in s`), `str.replace` and `str.strip()`. */
module Text {

  /** `p` occurs in `s` starting at index `i`. */
  predicate OccursAt(s: string, p: string, i: nat) {
    i + |p| <= |s| && s[i..i + |p|] == p
  }

  /** Python's `p in s` on two strings. */
  predicate Contains(s: string, p: string) {
    exists i: nat | i <= |s| :: OccursAt(s, p, i)
  }

  /** An occurrence inside `b` is an occurrence inside `a + b + c`. */
  lemma ContainsInfix(a: string, b: string, c: string, p: string)
    requires Contains(b, p)
    ensures Contains(a + b + c, p)
  {
    var i: nat :| i <= |b| && OccursAt(b, p, i);
    assert (a + b + c)[|a| + i..|a| + i + |p|] == b[i..i + |p|];
    assert OccursAt(a + b + c, p, |a| + i);
  }

  // ---------------------------------------------------------------------------
  // str.replace

  /** Python's `s.replace(pat, sub)`: every occurrence of `pat`, scanning left
      to right and never overlapping, is replaced by `sub`.
      A string that does not contain the pattern is returned unchanged. */
  function Replace(s: string, pat: string, sub: string): (r: string)
    requires |pat| > 0
    ensures !Contains(s, pat) ==> r == s
    decreases |s|
  {
    if |s| < |pat| then s
    else if s[..|pat|] == pat then
      assert OccursAt(s, pat, 0);
      sub + Replace(s[|pat|..], pat, sub)
    else
      ContainsTail(s, pat);
      assert [s[0]] + s[1..] == s;
      [s[0]] + Replace(s[1..], pat, sub)
  }

  /** An occurrence in the tail of `s` is an occurrence in `s`. */
  lemma ContainsTail(s: string, p: string)
    requires |s| > 0
    ensures Contains(s[1..], p) ==> Contains(s, p)
  {
    if Contains(s[1..], p) {
      var i: nat :| i <= |s[1..]| && OccursAt(s[1..], p, i);
      assert s[1..][i..i + |p|] == s[i + 1..i + 1 + |p|];
      assert OccursAt(s, p, i + 1);
    }
  }

  /** An occurrence at the very start is replaced, and the scan resumes after it. */
  lemma ReplaceLeading(pat: string, rest: string, sub: string)
    requires |pat| > 0
    ensures Replace(pat + rest, pat, sub) == sub + Replace(rest, pat, sub)
  {
  }

  // ---------------------------------------------------------------------------
  // str.strip()

  /** Python's `str.isspace()` for one character: the Unicode whitespace set. */
  predicate IsSpace(c: char) {
    || ('\t' <= c <= '\r')
    || ('\U{1C}' <= c <= ' ')
    || c == '\U{85}' || c == '\U{A0}' || c == '\U{1680}'
    || ('\U{2000}' <= c <= '\U{200A}')
    || c == '\U{2028}' || c == '\U{2029}' || c == '\U{202F}' || c == '\U{205F}'
    || c == '\U{3000}'
  }

  predicate AllSpace(s: string) {
    forall i | 0 <= i < |s| :: IsSpace(s[i])
  }

  /** `s` has no whitespace at either end. */
  predicate Trimmed(s: string) {
    |s| == 0 || (!IsSpace(s[0]) && !IsSpace(s[|s| - 1]))
  }

  /** `s.lstrip()`: a suffix of `s`, all that was dropped is whitespace, and it
      does not start with whitespace. */
  function LStrip(s: string): (r: string)
    ensures |r| <= |s| && r == s[|s| - |r|..]
    ensures AllSpace(s[..|s| - |r|])
    ensures |r| == 0 || !IsSpace(r[0])
  {
    if |s| > 0 && IsSpace(s[0]) then
      var r := LStrip(s[1..]);
      assert s[..|s| - |r|] == [s[0]] + s[1..][..|s| - 1 - |r|];
      r
    else s
  }

  /** `s.rstrip()`: a prefix of `s`, all that was dropped is whitespace, and it
      does not end with whitespace. */
  function RStrip(s: string): (r: string)
    ensures |r| <= |s| && r == s[..|r|]
    ensures AllSpace(s[|r|..])
    ensures |r| == 0 || !IsSpace(r[|r| - 1])
  {
    if |s| > 0 && IsSpace(s[|s| - 1]) then
      var r := RStrip(s[..|s| - 1]);
      assert s[|r|..] == s[..|s| - 1][|r|..] + [s[|s| - 1]];
      r
    else s
  }

  /** `s.strip()`: the infix of `s` left once whitespace is removed from both
      ends; what was removed is whitespace and the result is trimmed. */
  function Strip(s: string): (r: string)
    ensures Trimmed(r)
    ensures exists i: nat | i + |r| <= |s| :: StripCut(s, r, i)
  {
    var l := LStrip(s);
    var r := RStrip(l);
    var i := |s| - |l|;
    assert StripCut(s, r, i) by {
      assert l == s[i..] && r == l[..|r|];
      assert s[i..i + |r|] == r;
      assert s[i + |r|..] == l[|r|..];
    }
    assert |r| > 0 ==> r[0] == l[0];
    r
  }

  /** `r` is the part of `s` from index `i` on, and everything around it is whitespace. */
  predicate StripCut(s: string, r: string, i: nat) {
    && i + |r| <= |s|
    && s[i..i + |r|] == r
    && AllSpace(s[..i])
    && AllSpace(s[i + |r|..])
  }

  /** A string that is already trimmed is its own strip. */
  lemma StripTrimmed(s: string)
    requires Trimmed(s)
    ensures Strip(s) == s
  {
  }

  /** Stripping twice is stripping once. */
  lemma StripIdempotent(s: string)
    ensures Strip(Strip(s)) == Strip(s)
  {
  }

  /** Strip is characterised by its cut: whitespace, then a trimmed infix, then
      whitespace, is stripped to exactly that infix. */
  lemma StripUnique(a: string, m: string, b: string)
    requires AllSpace(a) && AllSpace(b) && Trimmed(m)
    ensures Strip(a + m + b) == m
  {
    var x := a + m + b;
    assert x == a + (m + b);
    LStripSpacePrefix(a, m + b);
    assert LStrip(x) == LStrip(m + b);
    if |m| == 0 {
      assert m + b == b;
      LStripAllSpace(b);
      assert RStrip(LStrip(x)) == m;
    } else {
      RStripSpaceSuffix(m, b);
      assert RStrip(LStrip(x)) == m;
    }
  }

  /** The trailing newline of a printed line is stripped. */
  lemma StripNewline(line: string)
    requires Trimmed(line)
    ensures Strip(line + "\n") == line
  {
  }

  lemma {:induction false} LStripSpacePrefix(a: string, t: string)
    requires AllSpace(a)
    ensures LStrip(a + t) == LStrip(t)
    decreases |a|
  {
    if |a| > 0 {
      assert (a + t)[0] == a[0];
      assert (a + t)[1..] == a[1..] + t;
      LStripSpacePrefix(a[1..], t);
    } else {
      assert a + t == t;
    }
  }

  lemma LStripAllSpace(b: string)
    requires AllSpace(b)
    ensures LStrip(b) == "" && RStrip(LStrip(b)) == ""
  {
  }

  lemma {:induction false} RStripSpaceSuffix(m: string, b: string)
    requires AllSpace(b) && |m| > 0 && !IsSpace(m[0]) && !IsSpace(m[|m| - 1])
    ensures LStrip(m + b) == m + b && RStrip(m + b) == m
    decreases |b|
  {
    if |b| > 0 {
      assert (m + b)[..|m + b| - 1] == m + b[..|b| - 1];
      RStripSpaceSuffix(m, b[..|b| - 1]);
    } else {
      assert m + b == m;
    }
  }
}
