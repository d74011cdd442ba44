/** The JavaScript string built-ins the services rely on: `trim`,
    `toLowerCase`, `toUpperCase` and `includes`. */
module Text {

  /** JavaScript's WhiteSpace and LineTerminator characters: exactly the ones
      `String.prototype.trim` removes and the regular-expression class `\s`
      matches. */
  predicate IsWhitespace(c: char) {
    c == '\t' || c == '\n' || c == '\U{B}' || c == '\U{C}' || c == '\r' || c == ' '
    || c == '\U{A0}' || c == '\U{1680}' || ('\U{2000}' <= c <= '\U{200A}')
    || c == '\U{2028}' || c == '\U{2029}' || c == '\U{202F}' || c == '\U{205F}'
    || c == '\U{3000}' || c == '\U{FEFF}'
  }

  /** `trimStart`: drops the leading white space. */
  function TrimStart(s: string): string {
    if s != [] && IsWhitespace(s[0]) then TrimStart(s[1..]) else s
  }

  /** `trimEnd`: drops the trailing white space. */
  function TrimEnd(s: string): string {
    if s != [] && IsWhitespace(s[|s| - 1]) then TrimEnd(s[..|s| - 1]) else s
  }

  /** `trim`: white space removed from both ends. */
  function Trim(s: string): string {
    TrimEnd(TrimStart(s))
  }

  /** `trimStart` drops white space, and only white space, from the front,
      and stops at the first other character. */
  lemma {:induction false} TrimStartSpec(s: string)
    ensures |TrimStart(s)| <= |s| && TrimStart(s) == s[|s| - |TrimStart(s)|..]
    ensures TrimStart(s) == [] || !IsWhitespace(TrimStart(s)[0])
    ensures forall i :: 0 <= i < |s| - |TrimStart(s)| ==> IsWhitespace(s[i])
  {
    if s != [] && IsWhitespace(s[0]) {
      var t := s[1..];
      TrimStartSpec(t);
      assert TrimStart(s) == TrimStart(t);
      assert t[|t| - |TrimStart(t)|..] == s[|s| - |TrimStart(s)|..];
    }
  }

  /** `trimEnd` drops white space, and only white space, from the back, and
      stops at the last other character. */
  lemma {:induction false} TrimEndSpec(s: string)
    ensures |TrimEnd(s)| <= |s| && TrimEnd(s) == s[..|TrimEnd(s)|]
    ensures TrimEnd(s) == [] || !IsWhitespace(TrimEnd(s)[|TrimEnd(s)| - 1])
    ensures forall i :: |TrimEnd(s)| <= i < |s| ==> IsWhitespace(s[i])
  {
    if s != [] && IsWhitespace(s[|s| - 1]) {
      TrimEndSpec(s[..|s| - 1]);
    }
  }

  /** `trim` yields the slice of `s` between its leading and trailing white
      space, and that slice neither starts nor ends with white space. */
  lemma TrimSpec(s: string)
    ensures exists a :: SliceBetweenWhitespace(s, Trim(s), a)
    ensures Trim(s) == [] || (!IsWhitespace(Trim(s)[0]) && !IsWhitespace(Trim(s)[|Trim(s)| - 1]))
  {
    var t := TrimStart(s);
    var r := TrimEnd(t);
    TrimStartSpec(s);
    TrimEndSpec(t);
    var a := |s| - |t|;
    assert r == Trim(s);
    assert r == s[a..a + |r|];
    assert SliceBetweenWhitespace(s, r, a);
    if r != [] {
      assert r[0] == t[0];
    }
  }

  /** `r` is `s[a..a + |r|]` and everything around it is white space. */
  predicate SliceBetweenWhitespace(s: string, r: string, a: int) {
    0 <= a && a + |r| <= |s| && r == s[a..a + |r|]
    && (forall i :: 0 <= i < a ==> IsWhitespace(s[i]))
    && (forall i :: a + |r| <= i < |s| ==> IsWhitespace(s[i]))
  }

  /** Trimming twice is trimming once. */
  lemma TrimIdempotent(s: string)
    ensures Trim(Trim(s)) == Trim(s)
  {
    var r := Trim(s);
    TrimSpec(s);
    assert TrimStart(r) == r;
    assert TrimEnd(r) == r;
  }

  /** A string trims to nothing exactly when it is all white space. */
  lemma TrimEmptyIff(s: string)
    ensures Trim(s) == [] <==> forall i :: 0 <= i < |s| ==> IsWhitespace(s[i])
  {
    TrimSpec(s);
    if forall i :: 0 <= i < |s| ==> IsWhitespace(s[i]) {
      AllWhitespaceTrimsStartToEmpty(s);
    }
  }

  lemma {:induction false} AllWhitespaceTrimsStartToEmpty(s: string)
    requires forall i :: 0 <= i < |s| ==> IsWhitespace(s[i])
    ensures TrimStart(s) == []
  {
    if s != [] {
      AllWhitespaceTrimsStartToEmpty(s[1..]);
    }
  }

  /** `toLowerCase` on one character. Besides A-Z, the only character whose
      lower case is an ASCII letter of the same length is the Kelvin sign. */
  function LowerChar(c: char): char {
    if 'A' <= c <= 'Z' then (c as int + 32) as char
    else if c == '\U{212A}' then 'k'
    else c
  }

  predicate IsUpperCased(c: char) {
    ('A' <= c <= 'Z') || c == '\U{212A}'
  }

  /** `toLowerCase`, character by character. */
  function Lower(s: string): (r: string)
    ensures |r| == |s|
    ensures forall i :: 0 <= i < |s| ==> r[i] == LowerChar(s[i])
  {
    if s == [] then [] else [LowerChar(s[0])] + Lower(s[1..])
  }

  /** A string without upper-case letters is its own lower case. */
  lemma LowerOfLowerCase(s: string)
    requires forall i :: 0 <= i < |s| ==> !IsUpperCased(s[i])
    ensures Lower(s) == s
  {
  }

  /** Lower-casing a capitalised word changes only its first letter. */
  lemma LowerCapitalised(m: string)
    requires |m| > 0 && 'A' <= m[0] <= 'Z'
    requires forall i :: 1 <= i < |m| ==> !IsUpperCased(m[i])
    ensures Lower(m) == [LowerChar(m[0])] + m[1..]
  {
    LowerOfLowerCase(m[1..]);
  }

  /** Lower-casing commutes with slicing. */
  lemma {:induction false} LowerSlice(s: string, a: nat, b: nat)
    requires a <= b <= |s|
    ensures Lower(s)[a..b] == Lower(s[a..b])
  {
    var x, y := Lower(s)[a..b], Lower(s[a..b]);
    forall i | 0 <= i < |x|
      ensures x[i] == y[i]
    {
      assert x[i] == LowerChar(s[a + i]);
    }
  }

  /** `toUpperCase` on one character. Besides a-z, the characters whose upper
      case is a single ASCII letter are the long s and the dotless i. Other
      characters are kept as they are, although `toUpperCase` maps some of
      them to several letters (the sharp s to `SS`, the ligature ff to `FF`);
      none of those expansions is `Y`, `E`, `S` or a part of `YES`, so the
      model is exact for the one comparison it serves, with `YES`. */
  function UpperChar(c: char): char {
    if 'a' <= c <= 'z' then (c as int - 32) as char
    else if c == '\U{17F}' then 'S'
    else if c == '\U{131}' then 'I'
    else c
  }

  function Upper(s: string): (r: string)
    ensures |r| == |s|
    ensures forall i :: 0 <= i < |s| ==> r[i] == UpperChar(s[i])
  {
    if s == [] then [] else [UpperChar(s[0])] + Upper(s[1..])
  }

  predicate StartsWith(s: string, k: string) {
    |k| <= |s| && s[..|k|] == k
  }

  /** `s.includes(k)`: does `k` occur in `s` at some position? */
  predicate Includes(s: string, k: string)
    decreases |s|
  {
    StartsWith(s, k) || (s != [] && Includes(s[1..], k))
  }

  predicate OccursAt(s: string, k: string, j: int) {
    0 <= j && j + |k| <= |s| && s[j..j + |k|] == k
  }

  /** The scan above finds an occurrence exactly when one exists. */
  lemma {:induction false} IncludesIff(s: string, k: string)
    ensures Includes(s, k) <==> exists j :: OccursAt(s, k, j)
  {
    if StartsWith(s, k) {
      assert OccursAt(s, k, 0);
    } else if s != [] {
      IncludesIff(s[1..], k);
      if exists j :: OccursAt(s[1..], k, j) {
        var j :| OccursAt(s[1..], k, j);
        assert s[j + 1..j + 1 + |k|] == s[1..][j..j + |k|];
        assert OccursAt(s, k, j + 1);
      }
      if exists j :: OccursAt(s, k, j) {
        var j :| OccursAt(s, k, j);
        assert j != 0;
        assert s[1..][j - 1..j - 1 + |k|] == s[j..j + |k|];
        assert OccursAt(s[1..], k, j - 1);
      }
    }
  }

  /** A string occurs in any concatenation that has it as a middle part. */
  lemma IncludesMiddle(a: string, k: string, b: string)
    ensures Includes(a + k + b, k)
  {
    var s := a + k + b;
    assert s[|a|..|a| + |k|] == k;
    assert OccursAt(s, k, |a|);
    IncludesIff(s, k);
  }

  /** A string occurs at the end of any concatenation ending with it. */
  lemma IncludesSuffix(a: string, k: string)
    ensures Includes(a + k, k)
  {
    var s := a + k;
    assert s[|a|..|a| + |k|] == k;
    assert OccursAt(s, k, |a|);
    IncludesIff(s, k);
  }

  /** An occurrence survives appending more text. */
  lemma IncludesExtend(a: string, b: string, k: string)
    requires Includes(a, k)
    ensures Includes(a + b, k)
  {
    IncludesIff(a, k);
    var j :| OccursAt(a, k, j);
    assert (a + b)[j..j + |k|] == a[j..j + |k|];
    assert OccursAt(a + b, k, j);
    IncludesIff(a + b, k);
  }

  /** Only text at most as long as `s` occurs in it. */
  lemma IncludesLength(s: string, k: string)
    requires Includes(s, k)
    ensures |k| <= |s|
  {
    IncludesIff(s, k);
  }

  /** A string containing a character that `s` lacks does not occur in `s`. */
  lemma NotIncludedByChar(s: string, k: string, c: char)
    requires c in k && c !in s
    ensures !Includes(s, k)
  {
    IncludesIff(s, k);
  }
}
