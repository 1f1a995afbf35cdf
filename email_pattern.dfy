/**
 * The email check of the login/registration form: a JavaScript regular
 * expression `\S+@\S+\.\S+` without anchors, so a string passes when SOME
 * substring of it has the shape "non-blanks @ non-blanks . non-blanks".
 */
module EmailPattern {

  /**
   * JavaScript's `\s`: the ECMAScript WhiteSpace and LineTerminator code
   * points (tab, line feed, vertical tab, form feed, carriage return, space,
   * the Unicode space separators, line and paragraph separator, and the
   * byte-order mark).
   */
  predicate IsBlank(c: char)
  {
    || c == '\t' || c == '\n' || c == '\U{000B}' || c == '\U{000C}' || c == '\r' || c == ' '
    || c == '\U{00A0}' || c == '\U{1680}'
    || ('\U{2000}' <= c <= '\U{200A}')
    || c == '\U{2028}' || c == '\U{2029}' || c == '\U{202F}' || c == '\U{205F}'
    || c == '\U{3000}' || c == '\U{FEFF}'
  }

  /** Every character of s[lo..hi] matches `\S`. */
  ghost predicate NonBlank(s: string, lo: int, hi: int)
    requires 0 <= lo <= hi <= |s|
  {
    forall k :: lo <= k < hi ==> !IsBlank(s[k])
  }

  /**
   * s[i..j] is a match of the pattern, with its '@' at p and its '.' at q:
   * s[i..p], s[p+1..q] and s[q+1..j] are the three non-empty `\S+` runs.
   */
  ghost predicate MatchesAt(s: string, i: int, p: int, q: int, j: int)
  {
    && 0 <= i < p && p + 1 < q && q + 1 < j <= |s|
    && s[p] == '@' && s[q] == '.'
    && NonBlank(s, i, p) && NonBlank(s, p + 1, q) && NonBlank(s, q + 1, j)
  }

  /** The regular-expression semantics of `.test(s)`: some substring matches. */
  ghost predicate ContainsMatch(s: string)
  {
    exists i, p, q, j :: MatchesAt(s, i, p, q, j)
  }

  /**
   * A match exists iff some '@' at p and some later '.' at q have a
   * non-blank character just before the '@', only non-blank characters
   * (at least one) between them, and a non-blank character just after the
   * '.': the shortest match around them is s[p-1..q+2].
   */
  function Test(s: string): (b: bool)
    ensures b <==> ContainsMatch(s)
  {
    var b := exists p, q | 0 < p < q < |s| - 1 :: Anchors(s, p, q);
    TestCorrect(s);
    b
  }

  /** The '@' at p and the '.' at q are the anchors of the shortest match s[p-1..q+2]. */
  predicate Anchors(s: string, p: int, q: int)
    requires 0 < p < q < |s| - 1
  {
    && s[p] == '@' && s[q] == '.' && p + 1 < q
    && !IsBlank(s[p - 1]) && !IsBlank(s[q + 1])
    && forall k | p < k < q :: !IsBlank(s[k])
  }

  lemma TestCorrect(s: string)
    ensures (exists p, q | 0 < p < q < |s| - 1 :: Anchors(s, p, q)) <==> ContainsMatch(s)
  {
    if exists p, q | 0 < p < q < |s| - 1 :: Anchors(s, p, q) {
      var p, q :| 0 < p < q < |s| - 1 && Anchors(s, p, q);
      assert MatchesAt(s, p - 1, p, q, q + 2);
    }
    if ContainsMatch(s) {
      var i, p, q, j :| MatchesAt(s, i, p, q, j);
      assert !IsBlank(s[p - 1]);
      assert !IsBlank(s[q + 1]);
      assert Anchors(s, p, q);
    }
  }

  /** The address of the registration scenario passes the check. */
  lemma AcceptsPlainAddress()
    ensures Test("a@b.com")
  {
    assert MatchesAt("a@b.com", 0, 1, 3, 7);
  }

  /** Without a '.' after the '@' nothing matches, whatever else the string holds. */
  lemma {:induction false} RejectsWithoutDotAfterAt(s: string)
    requires forall p, q :: 0 <= p < q < |s| && s[p] == '@' ==> s[q] != '.'
    ensures !Test(s)
  {
  }

  /** A blank next to the '@' breaks the match: "a @b.com" does not pass. */
  lemma RejectsBlankBeforeAt()
    ensures !Test("a @b.com")
  {
  }
}
