/**
 * The email format check of the signup form's first step: the unanchored
 * regular expression  \S+@\S+\.\S+  applied with `test`, which succeeds
 * when SOME substring of the input matches the whole pattern.
 *
 * `Matches` is the matcher, written as a left-to-right scan; `ContainsToken`
 * is the meaning of the regular expression, stated directly on substrings;
 * `MatchesIffContainsToken` proves that the two agree on every string.
 */
module EmailPattern {

  /** The ECMAScript class \s: WhiteSpace (TAB, VT, FF, SP, NBSP, ZWNBSP and the
      Unicode space separators) and LineTerminator (LF, CR, LS, PS). */
  predicate IsSpace(c: char) {
    || c == '\t' || c == '\n' || c == '\U{000B}' || c == '\U{000C}' || c == '\r'
    || c == ' ' || c == '\U{00A0}' || c == '\U{1680}'
    || ('\U{2000}' <= c <= '\U{200A}')
    || c == '\U{2028}' || c == '\U{2029}' || c == '\U{202F}' || c == '\U{205F}'
    || c == '\U{3000}' || c == '\U{FEFF}'
  }

  /** Every character of t is matched by \S. */
  predicate NoSpace(t: string) {
    forall k :: 0 <= k < |t| ==> !IsSpace(t[k])
  }

  /** t splits as x '@' y '.' z with x, y, z non-empty runs of \S:
      the '@' stands at j and the '.' at l. */
  ghost predicate TokenSplit(t: string, j: int, l: int) {
    && 0 < j && j + 1 < l && l + 1 < |t|
    && t[j] == '@' && t[l] == '.'
    && NoSpace(t[..j]) && NoSpace(t[j + 1..l]) && NoSpace(t[l + 1..])
  }

  /** t as a whole matches \S+@\S+\.\S+ */
  ghost predicate IsToken(t: string) {
    exists j, l :: TokenSplit(t, j, l)
  }

  /** Some substring of s matches the pattern: what the unanchored `test` asks. */
  ghost predicate ContainsToken(s: string) {
    exists i, m :: 0 <= i <= m <= |s| && IsToken(s[i..m])
  }

  /** Starting at j, a run of \S reaches a '.' that has a \S right after it. */
  function DotAhead(s: string, j: nat): bool
    requires j <= |s|
    decreases |s| - j
  {
    if j + 1 >= |s| || IsSpace(s[j]) then false
    else (s[j] == '.' && !IsSpace(s[j + 1])) || DotAhead(s, j + 1)
  }

  /** Some '@' at index i or later has a \S before it, a \S after it, and
      then a run of \S up to a '.' followed by a \S. */
  function AtAhead(s: string, i: nat): bool
    requires i <= |s|
    decreases |s| - i
  {
    if i + 2 > |s| then false
    else
      (&& s[i] == '@' && 0 < i && !IsSpace(s[i - 1]) && !IsSpace(s[i + 1])
       && DotAhead(s, i + 2))
      || AtAhead(s, i + 1)
  }

  /** An '@' at a and a '.' at d with a \S before the '@', a \S after the
      '.', and nothing but \S strictly between them. */
  ghost predicate AtDotPair(s: string, a: int, d: int) {
    && 0 < a && a + 1 < d && d + 1 < |s|
    && s[a] == '@' && s[d] == '.'
    && !IsSpace(s[a - 1]) && !IsSpace(s[d + 1])
    && forall k :: a < k < d ==> !IsSpace(s[k])
  }

  /** The regular-expression test of the email field: the scan succeeds
      exactly when the string holds such an '@' and '.'. */
  function Matches(s: string): (m: bool)
    ensures m <==> exists a, d :: AtDotPair(s, a, d)
  {
    ScanFindsPair(s);
    AtAhead(s, 0)
  }

  /** The scan from the start finds a pair exactly when there is one. */
  lemma ScanFindsPair(s: string)
    ensures AtAhead(s, 0) <==> exists a, d :: AtDotPair(s, a, d)
  {
    if AtAhead(s, 0) {
      var a, d := AtAheadWitness(s, 0);
      assert AtDotPair(s, a, d);
    }
    if exists a, d :: AtDotPair(s, a, d) {
      var a, d :| AtDotPair(s, a, d);
      AtAheadFromMatch(s, 0, a, d);
    }
  }

  /** A scan that succeeds hands back the '.' it found. */
  lemma {:induction false} DotAheadWitness(s: string, j: nat) returns (d: nat)
    requires j <= |s| && DotAhead(s, j)
    ensures j <= d && d + 1 < |s| && s[d] == '.' && !IsSpace(s[d + 1])
    ensures forall k :: j <= k < d ==> !IsSpace(s[k])
    decreases |s| - j
  {
    if s[j] == '.' && !IsSpace(s[j + 1]) {
      d := j;
    } else {
      d := DotAheadWitness(s, j + 1);
    }
  }

  /** A run of \S from j up to a suitable '.' makes the scan succeed. */
  lemma {:induction false} DotAheadFromRun(s: string, j: nat, d: nat)
    requires j <= d && d + 1 < |s| && s[d] == '.' && !IsSpace(s[d + 1])
    requires forall k :: j <= k < d ==> !IsSpace(s[k])
    ensures DotAhead(s, j)
    decreases d - j
  {
    if j < d {
      DotAheadFromRun(s, j + 1, d);
    }
  }

  /** A scan that succeeds hands back the '@' and the '.' it found. */
  lemma {:induction false} AtAheadWitness(s: string, i: nat) returns (a: nat, d: nat)
    requires i <= |s| && AtAhead(s, i)
    ensures i <= a && 0 < a && a + 1 < d && d + 1 < |s|
    ensures s[a] == '@' && s[d] == '.'
    ensures !IsSpace(s[a - 1]) && !IsSpace(s[d + 1])
    ensures forall k :: a < k < d ==> !IsSpace(s[k])
    decreases |s| - i
  {
    if s[i] == '@' && 0 < i && !IsSpace(s[i - 1]) && !IsSpace(s[i + 1]) && DotAhead(s, i + 2) {
      a := i;
      d := DotAheadWitness(s, i + 2);
    } else {
      a, d := AtAheadWitness(s, i + 1);
    }
  }

  /** An '@' at a, at or after i, with the right neighbourhood makes the scan succeed. */
  lemma {:induction false} AtAheadFromMatch(s: string, i: nat, a: nat, d: nat)
    requires i <= a && 0 < a && a + 1 < d && d + 1 < |s|
    requires s[a] == '@' && s[d] == '.'
    requires !IsSpace(s[a - 1]) && !IsSpace(s[d + 1])
    requires forall k :: a < k < d ==> !IsSpace(s[k])
    ensures AtAhead(s, i)
    decreases a - i
  {
    if i < a {
      AtAheadFromMatch(s, i + 1, a, d);
    } else {
      DotAheadFromRun(s, a + 2, d);
    }
  }

  /** A successful scan exhibits a substring matching the pattern: the
      shortest one, one character either side of the '@' and the '.' . */
  lemma MatchYieldsToken(s: string)
    requires Matches(s)
    ensures ContainsToken(s)
  {
    var a, d := AtAheadWitness(s, 0);
    var t := s[a - 1..d + 2];
    var l := d - a + 1;
    assert NoSpace(t[..1]) by { assert t[..1] == [s[a - 1]]; }
    assert NoSpace(t[2..l]) by {
      forall k | 0 <= k < |t[2..l]| ensures !IsSpace(t[2..l][k]) {
        assert t[2..l][k] == s[a + 1 + k];
      }
    }
    assert NoSpace(t[l + 1..]) by { assert t[l + 1..] == [s[d + 1]]; }
    assert TokenSplit(t, 1, l);
    assert IsToken(s[a - 1..d + 2]);
  }

  /** A substring matching the pattern makes the scan succeed. */
  lemma TokenYieldsMatch(s: string)
    requires ContainsToken(s)
    ensures Matches(s)
  {
    var i, m :| 0 <= i <= m <= |s| && IsToken(s[i..m]);
    var t := s[i..m];
    var j, l :| TokenSplit(t, j, l);
    assert !IsSpace(s[i + j - 1]) by { assert s[i + j - 1] == t[..j][j - 1]; }
    assert !IsSpace(s[i + l + 1]) by { assert s[i + l + 1] == t[l + 1..][0]; }
    forall k | i + j < k < i + l
      ensures !IsSpace(s[k])
    {
      assert s[k] == t[j + 1..l][k - i - j - 1];
    }
    AtAheadFromMatch(s, 0, i + j, i + l);
  }

  /** The matcher agrees with the regular expression on every string. */
  lemma MatchesIffContainsToken(s: string)
    ensures Matches(s) <==> ContainsToken(s)
  {
    if Matches(s) {
      MatchYieldsToken(s);
    }
    if ContainsToken(s) {
      TokenYieldsMatch(s);
    }
  }

  /** The pattern needs at least five characters: x@y.z */
  lemma ShortestMatch(s: string)
    requires Matches(s)
    ensures |s| >= 5
  {
    var a, d := AtAheadWitness(s, 0);
  }
}
