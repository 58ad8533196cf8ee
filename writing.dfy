/** The writing score and the total (app.py:194-198): the external model's
    reply text is trimmed and read as a Python integer literal; a failed call
    or an unreadable reply scores 0. The score is not clamped to the 0..8
    range the prompt asks for. */
module Writing {
  import opened Wrappers
  import opened Decimal

  /** Python's `str.isspace`: the characters `str.strip()` removes. */
  predicate IsSpace(c: char) {
    c == ' ' || ('\t' <= c <= '\r') || ('\U{1C}' <= c <= '\U{1F}') ||
    c == '\U{85}' || c == '\U{A0}' || c == '\U{1680}' ||
    ('\U{2000}' <= c <= '\U{200A}') || c == '\U{2028}' || c == '\U{2029}' ||
    c == '\U{202F}' || c == '\U{205F}' || c == '\U{3000}'
  }

  predicate AllSpace(s: string) {
    forall i :: 0 <= i < |s| ==> IsSpace(s[i])
  }

  function TrimStart(s: string): string {
    if s != [] && IsSpace(s[0]) then TrimStart(s[1..]) else s
  }

  function TrimEnd(s: string): string {
    if s != [] && IsSpace(s[|s| - 1]) then TrimEnd(s[..|s| - 1]) else s
  }

  /** `str.strip()`. */
  function Strip(s: string): string {
    TrimEnd(TrimStart(s))
  }

  /** A run of digits in which each underscore sits between two digits, as
      `int()` accepts after the optional sign. */
  predicate ValidDigitRun(s: string) {
    |s| > 0 && IsDigit(s[0]) && IsDigit(s[|s| - 1]) && DigitsOrUnderscores(s) &&
    forall i :: 0 <= i < |s| - 1 && s[i] == '_' ==> IsDigit(s[i + 1])
  }

  predicate DigitsOrUnderscores(s: string) {
    forall i :: 0 <= i < |s| ==> IsDigit(s[i]) || s[i] == '_'
  }

  /** The digits of a run with its underscores dropped. */
  function DropUnderscores(s: string): (r: string)
    requires DigitsOrUnderscores(s)
    ensures AllDigits(r)
  {
    if s == [] then []
    else (if s[0] == '_' then [] else [s[0]]) + DropUnderscores(s[1..])
  }

  /** `int(s)` on a string without surrounding white space: None where
      Python raises ValueError. */
  function ParseInt(s: string): Option<int> {
    if |s| > 0 && (s[0] == '+' || s[0] == '-') then
      if ValidDigitRun(s[1..]) then
        var v: int := ValueOf(DropUnderscores(s[1..]));
        Some(if s[0] == '-' then -v else v)
      else None
    else if ValidDigitRun(s) then Some(ValueOf(DropUnderscores(s)))
    else None
  }

  /** `score_writing`: None stands for a call that raised. */
  function WritingScore(reply: Option<string>): int {
    match reply
    case None => 0
    case Some(text) => ParseInt(Strip(text)).GetOr(0)
  }

  /** `total_score`. */
  function TotalScore(scoreObj: int, reply: Option<string>): int {
    scoreObj + WritingScore(reply)
  }

  /** The plain decimal text of an integer, with a minus sign when negative. */
  function Render(n: int): string {
    if n < 0 then "-" + Show(-n) else Show(n)
  }

  /** What `strip()` returns is a piece of its input with white space only
      around it, and it neither begins nor ends with white space. */
  lemma {:induction false} StripShape(s: string)
    ensures exists i, j :: 0 <= i <= j <= |s| && Strip(s) == s[i..j] && AllSpace(s[..i]) && AllSpace(s[j..])
    ensures Strip(s) != [] ==> !IsSpace(Strip(s)[0]) && !IsSpace(Strip(s)[|Strip(s)| - 1])
  {
    var i := TrimStartAt(s);
    var t := s[i..];
    var j := TrimEndAt(t);
    assert Strip(s) == s[i..i + j];
    assert s[i + j..] == t[j..];
    assert AllSpace(s[i + j..]);
  }

  /** Helper of StripShape: `TrimStart` drops a white-space prefix and stops
      at a non-space character. */
  lemma {:induction false} TrimStartAt(s: string) returns (i: nat)
    ensures i <= |s| && TrimStart(s) == s[i..] && AllSpace(s[..i])
    ensures TrimStart(s) != [] ==> !IsSpace(TrimStart(s)[0])
  {
    if s != [] && IsSpace(s[0]) {
      var k := TrimStartAt(s[1..]);
      i := k + 1;
      assert s[1..][k..] == s[i..];
      assert forall m :: 1 <= m < i ==> s[..i][m] == s[1..][..k][m - 1];
    } else {
      i := 0;
    }
  }

  /** Helper of StripShape: `TrimEnd` drops a white-space suffix and stops
      at a non-space character. */
  lemma {:induction false} TrimEndAt(s: string) returns (j: nat)
    ensures j <= |s| && TrimEnd(s) == s[..j] && AllSpace(s[j..])
    ensures TrimEnd(s) != [] ==> !IsSpace(TrimEnd(s)[|TrimEnd(s)| - 1])
  {
    if s != [] && IsSpace(s[|s| - 1]) {
      var n := |s| - 1;
      j := TrimEndAt(s[..n]);
      assert s[..n][..j] == s[..j];
      assert s[j..] == s[..n][j..] + [s[n]];
    } else {
      j := |s|;
    }
  }

  /** Stripping white space from around a text that neither begins nor ends
      with white space gives back that text. */
  lemma {:induction false} StripPadded(lead: string, core: string, trail: string)
    requires AllSpace(lead) && AllSpace(trail)
    requires core != [] && !IsSpace(core[0]) && !IsSpace(core[|core| - 1])
    ensures Strip(lead + core + trail) == core
  {
    TrimStartPadded(lead, core + trail);
    assert lead + core + trail == lead + (core + trail);
    TrimEndPadded(core, trail);
  }

  lemma {:induction false} TrimStartPadded(lead: string, rest: string)
    requires AllSpace(lead)
    requires rest != [] && !IsSpace(rest[0])
    ensures TrimStart(lead + rest) == rest
  {
    if lead != [] {
      assert (lead + rest)[1..] == lead[1..] + rest;
      TrimStartPadded(lead[1..], rest);
    } else {
      assert lead + rest == rest;
    }
  }

  lemma {:induction false} TrimEndPadded(rest: string, trail: string)
    requires AllSpace(trail)
    requires rest != [] && !IsSpace(rest[|rest| - 1])
    ensures TrimEnd(rest + trail) == rest
  {
    if trail != [] {
      var n := |trail| - 1;
      assert (rest + trail)[..|rest + trail| - 1] == rest + trail[..n];
      TrimEndPadded(rest, trail[..n]);
    } else {
      assert rest + trail == rest;
    }
  }

  /** A run of plain digits reads back unchanged when underscores are dropped. */
  lemma {:induction false} DropUnderscoresOfDigits(s: string)
    requires AllDigits(s)
    ensures DropUnderscores(s) == s
  {
    if s != [] {
      DropUnderscoresOfDigits(s[1..]);
      assert s == [s[0]] + s[1..];
    }
  }

  /** A reply holding the decimal text of any integer, padded with white
      space, scores exactly that integer: the score is neither clamped nor
      bounded. */
  lemma WritingScoreReads(n: int, lead: string, trail: string, scoreObj: int)
    requires AllSpace(lead) && AllSpace(trail)
    ensures WritingScore(Some(lead + Render(n) + trail)) == n
    ensures TotalScore(scoreObj, Some(lead + Render(n) + trail)) == scoreObj + n
  {
    var m := if n < 0 then -n else n;
    var digits := Show(m);
    DropUnderscoresOfDigits(digits);
    ValueOfShow(m);
    StripPadded(lead, Render(n), trail);
    if n < 0 {
      assert Render(n)[1..] == digits;
    }
  }

  /** A non-empty run of digits and underscores with at most a leading sign:
      the only texts `int()` can accept. */
  predicate IntegerShaped(s: string) {
    s != [] && forall i :: 0 <= i < |s| ==>
      IsDigit(s[i]) || s[i] == '_' || (i == 0 && (s[i] == '+' || s[i] == '-'))
  }

  /** Every text `int()` accepts is integer-shaped. */
  lemma ParsedShape(s: string)
    ensures ParseInt(s).Some? ==> IntegerShaped(s)
  {
    if ParseInt(s).Some? && |s| > 0 && (s[0] == '+' || s[0] == '-') {
      assert forall i :: 1 <= i < |s| ==> s[i] == s[1..][i - 1];
    }
  }

  /** The fallback: a failed call scores 0, and so does every reply whose
      stripped text is not integer-shaped — an empty or blank one, one with
      a letter, a decimal point or an inner space — leaving the total equal
      to the objective score. */
  lemma WritingFallback(reply: Option<string>, scoreObj: int)
    requires reply.None? || !IntegerShaped(Strip(reply.value))
    ensures WritingScore(reply) == 0
    ensures TotalScore(scoreObj, reply) == scoreObj
  {
    if reply.Some? {
      ParsedShape(Strip(reply.value));
    }
  }
}
