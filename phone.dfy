/** The phone-number pattern
      ^[+]?[(]?[0-9]{3}[)]?[-\s.]?[0-9]{3}[-\s.]?[0-9]{4,6}$
    as a hand-written matcher. `Render` spells out the language the pattern
    denotes; `ParsePhone` is the matcher, and the two are proved inverse. */
module Phone {
  import opened Wrappers
  import opened Text

  predicate IsDigit(c: char) {
    '0' <= c <= '9'
  }

  predicate AllDigits(s: string) {
    forall i :: 0 <= i < |s| ==> IsDigit(s[i])
  }

  /** The separator class `[-\s.]`. */
  predicate IsSeparator(c: char) {
    c == '-' || IsWhitespace(c) || c == '.'
  }

  /** One way of writing a number the pattern accepts: each optional part of
      the pattern is a flag or an optional character. */
  datatype PhoneParts = PhoneParts(
    plus: bool,
    open: bool,
    area: string,
    close: bool,
    sep1: Option<char>,
    exchange: string,
    sep2: Option<char>,
    line: string)

  predicate OptSeparator(o: Option<char>) {
    o.Some? ==> IsSeparator(o.value)
  }

  predicate ValidParts(p: PhoneParts) {
    && |p.area| == 3 && AllDigits(p.area)
    && OptSeparator(p.sep1)
    && |p.exchange| == 3 && AllDigits(p.exchange)
    && OptSeparator(p.sep2)
    && 4 <= |p.line| <= 6 && AllDigits(p.line)
  }

  function Flag(b: bool, c: char): string {
    if b then [c] else []
  }

  function OptChar(o: Option<char>): string {
    if o.Some? then [o.value] else []
  }

  /** The text a choice of parts spells. */
  function Render(p: PhoneParts): string {
    Flag(p.plus, '+') + (Flag(p.open, '(') + (p.area + (Flag(p.close, ')')
    + (OptChar(p.sep1) + (p.exchange + (OptChar(p.sep2) + p.line))))))
  }

  /** Takes an optional leading character `c`. */
  function TakeChar(s: string, c: char): (bool, string) {
    if |s| > 0 && s[0] == c then (true, s[1..]) else (false, s)
  }

  /** Takes an optional leading separator. */
  function TakeSeparator(s: string): (Option<char>, string) {
    if |s| > 0 && IsSeparator(s[0]) then (Some(s[0]), s[1..]) else (None, s)
  }

  /** Takes exactly three leading digits, or fails. */
  function TakeDigits3(s: string): Option<(string, string)> {
    if |s| >= 3 && AllDigits(s[..3]) then Some((s[..3], s[3..])) else None
  }

  /** The matcher: the pattern's elements taken left to right. Each optional
      element is taken whenever the next character fits it: skipping it
      instead would leave a character that the element after it cannot start
      with, so no backtracking is needed. */
  function ParsePhone(s: string): Option<PhoneParts> {
    var plus := TakeChar(s, '+');
    var open := TakeChar(plus.1, '(');
    ParseFromArea(plus.0, open.0, open.1)
  }

  /** The rest of the match once the optional `+` and `(` are taken. */
  function ParseFromArea(plus: bool, open: bool, s: string): Option<PhoneParts> {
    var area := TakeDigits3(s);
    if area.None? then None
    else
      var close := TakeChar(area.value.1, ')');
      var sep1 := TakeSeparator(close.1);
      var r := ParseFromExchange(sep1.1);
      if r.None? then None
      else Some(PhoneParts(plus, open, area.value.0, close.0, sep1.0, r.value.0, r.value.1, r.value.2))
  }

  /** The exchange, the second optional separator and the line number, which
      must end the input. */
  function ParseFromExchange(s: string): Option<(string, Option<char>, string)> {
    var exchange := TakeDigits3(s);
    if exchange.None? then None
    else
      var sep2 := TakeSeparator(exchange.value.1);
      var line := sep2.1;
      if 4 <= |line| <= 6 && AllDigits(line) then Some((exchange.value.0, sep2.0, line)) else None
  }

  /** `PHONE_REGEX.test(s)`. */
  predicate MatchesPhone(s: string) {
    ParsePhone(s).Some?
  }

  // ----- soundness: whatever the matcher accepts, the pattern describes -----

  /** Taking an optional character splits the input without losing any. */
  lemma TakeCharSplits(s: string, c: char)
    ensures s == Flag(TakeChar(s, c).0, c) + TakeChar(s, c).1
  {
    if |s| > 0 && s[0] == c {
      assert s == [c] + s[1..];
    }
  }

  lemma TakeSeparatorSplits(s: string)
    ensures OptSeparator(TakeSeparator(s).0) && s == OptChar(TakeSeparator(s).0) + TakeSeparator(s).1
  {
    if |s| > 0 && IsSeparator(s[0]) {
      assert s == [s[0]] + s[1..];
    }
  }

  lemma TakeDigits3Splits(s: string)
    requires TakeDigits3(s).Some?
    ensures |TakeDigits3(s).value.0| == 3 && AllDigits(TakeDigits3(s).value.0)
    ensures s == TakeDigits3(s).value.0 + TakeDigits3(s).value.1
  {
  }

  lemma ParseFromExchangeSound(s: string)
    requires ParseFromExchange(s).Some?
    ensures var r := ParseFromExchange(s).value;
      |r.0| == 3 && AllDigits(r.0) && OptSeparator(r.1) && 4 <= |r.2| <= 6 && AllDigits(r.2)
      && s == r.0 + (OptChar(r.1) + r.2)
  {
    TakeDigits3Splits(s);
    TakeSeparatorSplits(TakeDigits3(s).value.1);
  }

  lemma ParseFromAreaSound(plus: bool, open: bool, s: string)
    requires ParseFromArea(plus, open, s).Some?
    ensures var p := ParseFromArea(plus, open, s).value;
      ValidParts(p) && p.plus == plus && p.open == open
      && Render(p) == Flag(plus, '+') + (Flag(open, '(') + s)
  {
    var area := TakeDigits3(s).value;
    var close := TakeChar(area.1, ')');
    var sep1 := TakeSeparator(close.1);
    TakeDigits3Splits(s);
    TakeCharSplits(area.1, ')');
    TakeSeparatorSplits(close.1);
    ParseFromExchangeSound(sep1.1);
  }

  /** Every accepted string is spelled by the valid parts the matcher read. */
  lemma ParsePhoneSound(s: string)
    requires ParsePhone(s).Some?
    ensures ValidParts(ParsePhone(s).value) && Render(ParsePhone(s).value) == s
  {
    var plus := TakeChar(s, '+');
    TakeCharSplits(s, '+');
    TakeCharSplits(plus.1, '(');
    ParseFromAreaSound(plus.0, TakeChar(plus.1, '(').0, TakeChar(plus.1, '(').1);
  }

  // ----- completeness: whatever the pattern describes, the matcher accepts -----

  lemma TakeCharOfFlag(b: bool, c: char, t: string)
    requires t == [] || t[0] != c
    ensures TakeChar(Flag(b, c) + t, c) == (b, t)
  {
    var s := Flag(b, c) + t;
    if b {
      assert s == [c] + t && s[0] == c && s[1..] == t;
    } else {
      assert s == t;
    }
  }

  lemma TakeSeparatorOfOpt(o: Option<char>, t: string)
    requires OptSeparator(o) && (t == [] || !IsSeparator(t[0]))
    ensures TakeSeparator(OptChar(o) + t) == (o, t)
  {
    var s := OptChar(o) + t;
    if o.Some? {
      assert s == [o.value] + t && s[0] == o.value && s[1..] == t;
    } else {
      assert s == t;
    }
  }

  lemma TakeDigits3OfDigits(d: string, t: string)
    requires |d| == 3 && AllDigits(d)
    ensures TakeDigits3(d + t) == Some((d, t))
  {
    assert (d + t)[..3] == d;
    assert (d + t)[3..] == t;
  }

  /** Every valid choice of parts is accepted, and read back as itself. */
  lemma ParseComplete(p: PhoneParts)
    requires ValidParts(p)
    ensures ParsePhone(Render(p)) == Some(p)
  {
    var r2 := p.area + (Flag(p.close, ')') + (OptChar(p.sep1) + (p.exchange + (OptChar(p.sep2) + p.line))));
    var r1 := Flag(p.open, '(') + r2;
    assert IsDigit(p.area[0]);
    assert r1[0] == (if p.open then '(' else p.area[0]);
    TakeCharOfFlag(p.plus, '+', r1);
    TakeCharOfFlag(p.open, '(', r2);
    ParseFromAreaComplete(p);
  }

  lemma ParseFromAreaComplete(p: PhoneParts)
    requires ValidParts(p)
    ensures ParseFromArea(p.plus, p.open, p.area + (Flag(p.close, ')') + (OptChar(p.sep1)
              + (p.exchange + (OptChar(p.sep2) + p.line))))) == Some(p)
  {
    var r6 := OptChar(p.sep2) + p.line;
    var r5 := p.exchange + r6;
    var r4 := OptChar(p.sep1) + r5;
    var r3 := Flag(p.close, ')') + r4;
    TakeDigits3OfDigits(p.area, r3);
    assert IsDigit(p.exchange[0]);
    assert r4[0] == (if p.sep1.Some? then p.sep1.value else p.exchange[0]);
    TakeCharOfFlag(p.close, ')', r4);
    TakeSeparatorOfOpt(p.sep1, r5);
    ParseFromExchangeComplete(p.exchange, p.sep2, p.line);
  }

  lemma ParseFromExchangeComplete(exchange: string, sep2: Option<char>, line: string)
    requires |exchange| == 3 && AllDigits(exchange) && OptSeparator(sep2)
    requires 4 <= |line| <= 6 && AllDigits(line)
    ensures ParseFromExchange(exchange + (OptChar(sep2) + line)) == Some((exchange, sep2, line))
  {
    TakeDigits3OfDigits(exchange, OptChar(sep2) + line);
    assert IsDigit(line[0]);
    TakeSeparatorOfOpt(sep2, line);
  }

  /** The matcher accepts exactly the strings the pattern describes. */
  lemma MatchesPhoneIff(s: string)
    ensures MatchesPhone(s) <==> exists p :: ValidParts(p) && Render(p) == s
  {
    if exists p :: ValidParts(p) && Render(p) == s {
      var p :| ValidParts(p) && Render(p) == s;
      ParseComplete(p);
    }
    if MatchesPhone(s) {
      ParsePhoneSound(s);
    }
  }

  function DigitCount(s: string): nat {
    if s == [] then 0 else (if IsDigit(s[0]) then 1 else 0) + DigitCount(s[1..])
  }

  lemma {:induction false} DigitCountConcat(a: string, b: string)
    ensures DigitCount(a + b) == DigitCount(a) + DigitCount(b)
  {
    if a == [] {
      assert a + b == b;
    } else {
      assert (a + b)[1..] == a[1..] + b;
      DigitCountConcat(a[1..], b);
    }
  }

  lemma {:induction false} DigitCountAll(s: string)
    requires AllDigits(s)
    ensures DigitCount(s) == |s|
  {
    if s != [] {
      DigitCountAll(s[1..]);
    }
  }

  lemma DigitCountNone(s: string)
    requires forall i :: 0 <= i < |s| ==> !IsDigit(s[i])
    ensures DigitCount(s) == 0
  {
    if s != [] {
      DigitCountNone(s[1..]);
    }
  }

  /** Every accepted number has 10 to 12 digits (the validation message asks
      for at least 10). */
  lemma AcceptedDigitCount(s: string)
    requires MatchesPhone(s)
    ensures 10 <= DigitCount(s) <= 12
  {
    ParsePhoneSound(s);
    RenderDigitCount(ParsePhone(s).value);
  }

  lemma RenderDigitCount(p: PhoneParts)
    requires ValidParts(p)
    ensures DigitCount(Render(p)) == 6 + |p.line|
  {
    var r6 := OptChar(p.sep2) + p.line;
    var r5 := p.exchange + r6;
    var r4 := OptChar(p.sep1) + r5;
    var r3 := Flag(p.close, ')') + r4;
    var r2 := p.area + r3;
    var r1 := Flag(p.open, '(') + r2;
    DigitCountAll(p.area);
    DigitCountAll(p.exchange);
    DigitCountAll(p.line);
    DigitCountNone(OptChar(p.sep2));
    DigitCountNone(OptChar(p.sep1));
    DigitCountNone(Flag(p.close, ')'));
    DigitCountNone(Flag(p.open, '('));
    DigitCountNone(Flag(p.plus, '+'));
    DigitCountConcat(OptChar(p.sep2), p.line);
    DigitCountConcat(p.exchange, r6);
    DigitCountConcat(OptChar(p.sep1), r5);
    DigitCountConcat(Flag(p.close, ')'), r4);
    DigitCountConcat(p.area, r3);
    DigitCountConcat(Flag(p.open, '('), r2);
    DigitCountConcat(Flag(p.plus, '+'), r1);
  }

  /** Builds the parts of a number with no `+` and the given punctuation. */
  function Digits10(open: bool, close: bool, sep1: Option<char>, sep2: Option<char>): PhoneParts {
    PhoneParts(false, open, "555", close, sep1, "123", sep2, "4567")
  }

  /** A string spelled by valid parts is accepted (parts given by the caller). */
  lemma RenderedAccepted(s: string, p: PhoneParts)
    requires ValidParts(p) && s == Render(p)
    ensures MatchesPhone(s)
  {
    ParseComplete(p);
  }

  /** A plain ten-digit number is accepted. */
  lemma PlainNumberAccepted()
    ensures MatchesPhone("5551234567")
  {
    RenderedAccepted("5551234567", Digits10(false, false, None, None));
  }

  /** A dashed ten-digit number is accepted. */
  lemma DashedNumberAccepted()
    ensures MatchesPhone("555-123-4567")
  {
    RenderedAccepted("555-123-4567", Digits10(false, false, Some('-'), Some('-')));
  }

  /** A number with a parenthesised area code is accepted. */
  lemma ParenthesisedNumberAccepted()
    ensures MatchesPhone("(555) 123-4567")
  {
    RenderedAccepted("(555) 123-4567", Digits10(true, true, Some(' '), Some('-')));
  }

  /** The two parentheses are independent: an unclosed one is accepted. */
  lemma UnclosedParenthesisAccepted()
    ensures MatchesPhone("(555 123 4567")
  {
    RenderedAccepted("(555 123 4567", Digits10(true, false, Some(' '), Some(' ')));
  }

  /** Five digits are too few. */
  lemma ShortNumberRejected()
    ensures !MatchesPhone("12345")
  {
    assert ParseFromExchange("45") == None;
  }

  /** The first digit group is exactly three digits, so a country code
      written before a separated area code is refused. */
  lemma CountryCodeRejected()
    ensures !MatchesPhone("+1 (555) 123-4567")
  {
    var s := "+1 (555) 123-4567";
    assert TakeChar(s, '+') == (true, s[1..]);
    assert TakeChar(s[1..], '(') == (false, s[1..]);
    assert !IsDigit(s[1..][1]);
    assert TakeDigits3(s[1..]) == None;
  }
}
