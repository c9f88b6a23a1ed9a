/** bktest/utils.py: sign, blank-string checks and number recognition. */
module Utils {
  import opened Wrappers

  /** Python's str.isspace(): the characters that str.strip() removes when
      called without arguments. */
  predicate IsWhitespace(c: char) {
    var n := c as int;
    (9 <= n <= 13) || (0x1c <= n <= 0x20) || n == 0x85 || n == 0xa0 || n == 0x1680
    || (0x2000 <= n <= 0x200a) || n == 0x2028 || n == 0x2029 || n == 0x202f
    || n == 0x205f || n == 0x3000
  }

  predicate AllWhitespace(s: string) {
    forall i :: 0 <= i < |s| ==> IsWhitespace(s[i])
  }

  /** str.lstrip(): drops the leading whitespace. */
  function StripLeft(s: string): (r: string)
    ensures |r| <= |s| && r == s[|s| - |r|..]
    ensures AllWhitespace(s[..|s| - |r|])
    ensures r != [] ==> !IsWhitespace(r[0])
  {
    if s == [] then []
    else if IsWhitespace(s[0]) then
      var rest := StripLeft(s[1..]);
      assert s[..|s| - |rest|] == [s[0]] + s[1..][..|s| - 1 - |rest|];
      rest
    else s
  }

  /** str.rstrip(): drops the trailing whitespace. */
  function StripRight(s: string): (r: string)
    ensures |r| <= |s| && r == s[..|r|]
    ensures AllWhitespace(s[|r|..])
    ensures r != [] ==> !IsWhitespace(r[|r| - 1])
  {
    if s == [] then []
    else if IsWhitespace(s[|s| - 1]) then
      var rest := StripRight(s[..|s| - 1]);
      assert s[|rest|..] == s[..|s| - 1][|rest|..] + [s[|s| - 1]];
      rest
    else s
  }

  /** str.strip() */
  function Strip(s: string): string {
    StripRight(StripLeft(s))
  }

  /** is_blank: None, or a string that is empty once stripped. */
  predicate IsBlank(value: Option<string>) {
    value.None? || |Strip(value.value)| == 0
  }

  /** A string is blank exactly when every character is whitespace. */
  lemma {:induction false} BlankIffAllWhitespace(s: string)
    ensures IsBlank(Some(s)) <==> AllWhitespace(s)
  {
    var l := StripLeft(s);
    assert s == s[..|s| - |l|] + l;
    if l == [] {
      assert AllWhitespace(s);
    } else {
      assert !IsWhitespace(l[0]);
      assert s[|s| - |l|] == l[0];
    }
  }

  /** signum: -1, 0 or 1 according to the sign of n. */
  function Signum(n: real): (r: int)
    ensures r == -1 <==> n < 0.0
    ensures r == 0 <==> n == 0.0
    ensures r == 1 <==> n > 0.0
  {
    if n < 0.0 then -1 else if n > 0.0 then 1 else 0
  }

  /** Python's abs() on a number. */
  function Abs(x: real): (r: real)
    ensures r >= 0.0 && (r == x || r == -x)
  {
    if x < 0.0 then -x else x
  }

  /** Python's truthiness of an optional string: None and "" are false. */
  predicate Truthy(s: Option<string>) {
    s.Some? && |s.value| > 0
  }

  /** ensure_not_blank: returns the value, or raises ValueError whose message
      names the property when one is given. */
  function EnsureNotBlank(value: Option<string>, property: Option<string>): (r: Result<string>)
    ensures r.Ok? <==> !IsBlank(value)
    ensures r.Ok? ==> value == Some(r.value)
    ensures r.Err? && Truthy(property) ==> r.error == ValueError(property.value + " must not be blank")
    ensures r.Err? && !Truthy(property) ==> r.error == ValueError("must not be blank")
  {
    if IsBlank(value) then
      Err(ValueError(if Truthy(property) then property.value + " must not be blank" else "must not be blank"))
    else
      Ok(value.value)
  }

  /** An ASCII decimal digit. */
  predicate IsDigit(c: char) {
    '0' <= c <= '9'
  }

  /** One or more digits with single underscores between them, the digit
      groups int() and float() accept (PEP 515). */
  predicate DigitRun(s: string) {
    s != [] && IsDigit(s[0]) && IsDigit(s[|s| - 1])
    && (forall i :: 0 <= i < |s| ==> IsDigit(s[i]) || s[i] == '_')
    && (forall i :: 0 <= i < |s| - 1 ==> IsDigit(s[i]) || IsDigit(s[i + 1]))
  }

  /** The text after one optional leading sign. */
  function Unsigned(s: string): (r: string)
    ensures r == s || (s != [] && s[0] in {'+', '-'} && r == s[1..])
  {
    if s != [] && s[0] in {'+', '-'} then s[1..] else s
  }

  /** The first position of a character in cs, or |s| when there is none. */
  function IndexOf(s: string, cs: set<char>): (k: nat)
    ensures k <= |s|
    ensures forall i :: 0 <= i < k ==> s[i] !in cs
    ensures k < |s| ==> s[k] in cs
  {
    if s == [] || s[0] in cs then 0 else 1 + IndexOf(s[1..], cs)
  }

  lemma {:induction false} IndexOfAbsent(s: string, cs: set<char>)
    requires forall i :: 0 <= i < |s| ==> s[i] !in cs
    ensures IndexOf(s, cs) == |s|
  {
    if s != [] {
      assert s[0] !in cs;
      IndexOfAbsent(s[1..], cs);
    }
  }

  /** int(value) in base 10 succeeds: surrounding whitespace, an optional
      sign, then a digit group. */
  predicate ParsesAsInt(value: string) {
    DigitRun(Unsigned(Strip(value)))
  }

  /** The part of a float literal before its exponent: a digit group, or
      one '.' with a digit group on at least one side of it. */
  predicate Mantissa(m: string) {
    var k := IndexOf(m, {'.'});
    if k == |m| then
      DigitRun(m)
    else
      && (k > 0 || k + 1 < |m|)
      && (k == 0 || DigitRun(m[..k]))
      && (k + 1 == |m| || DigitRun(m[k + 1..]))
  }

  /** A decimal float literal: a mantissa, then optionally 'e' or 'E', a sign
      and a digit group. */
  predicate DecimalFloat(u: string) {
    var k := IndexOf(u, {'e', 'E'});
    Mantissa(u[..k]) && (k == |u| || DigitRun(Unsigned(u[k + 1..])))
  }

  /** u spells the lower-case word w in any mix of cases. */
  predicate SpellsIgnoringCase(u: string, w: string) {
    |u| == |w| && forall i :: 0 <= i < |u| ==> u[i] == w[i] || u[i] as int == w[i] as int - 32
  }

  /** "inf", "infinity" and "nan", in any case. */
  predicate SpecialFloat(u: string) {
    SpellsIgnoringCase(u, "inf") || SpellsIgnoringCase(u, "infinity") || SpellsIgnoringCase(u, "nan")
  }

  /** float(value) succeeds: surrounding whitespace, an optional sign, then
      a special value or a decimal literal. */
  predicate ParsesAsFloat(value: string) {
    var u := Unsigned(Strip(value));
    SpecialFloat(u) || DecimalFloat(u)
  }

  /** is_number: is_int or is_float. */
  predicate IsNumber(value: string) {
    ParsesAsInt(value) || ParsesAsFloat(value)
  }

  /** A digit group is a decimal float literal with neither '.' nor exponent. */
  lemma DigitsAreDecimal(u: string)
    requires DigitRun(u)
    ensures DecimalFloat(u)
  {
    IndexOfAbsent(u, {'e', 'E'});
    assert u[..|u|] == u;
    IndexOfAbsent(u, {'.'});
  }

  /** Every string int() accepts, float() accepts too, so is_number is
      is_float on its own. */
  lemma {:induction false} IntIsFloat(value: string)
    ensures ParsesAsInt(value) ==> ParsesAsFloat(value)
    ensures IsNumber(value) <==> ParsesAsFloat(value)
  {
    var u := Unsigned(Strip(value));
    if DigitRun(u) {
      DigitsAreDecimal(u);
    }
  }

  /** A string with no whitespace at either end is its own strip. */
  lemma StripUnpadded(s: string)
    requires s != [] && !IsWhitespace(s[0]) && !IsWhitespace(s[|s| - 1])
    ensures Strip(s) == s
  {
  }

  /** Without surrounding whitespace or a sign, int() and float() judge the
      text itself. */
  lemma Unpadded(v: string)
    requires v != [] && !IsWhitespace(v[0]) && !IsWhitespace(v[|v| - 1]) && v[0] !in {'+', '-'}
    ensures ParsesAsInt(v) <==> DigitRun(v)
    ensures ParsesAsFloat(v) <==> SpecialFloat(v) || DecimalFloat(v)
  {
    StripUnpadded(v);
  }

  /** The outcomes tests/test_utils.py pins for is_int, is_float and
      is_number on "1". */
  lemma WholeNumberExample(v: string)
    requires v == "1"
    ensures ParsesAsInt(v) && ParsesAsFloat(v) && IsNumber(v)
  {
    Unpadded(v);
    DigitsAreDecimal(v);
  }

  /** ... on "1.5": float() accepts it, int() does not. */
  lemma FractionExample(v: string)
    requires v == "1.5"
    ensures !ParsesAsInt(v) && ParsesAsFloat(v) && IsNumber(v)
  {
    Unpadded(v);
    assert !IsDigit(v[1]) && v[1] != '_';
    IndexOfAbsent(v, {'e', 'E'});
    assert v[..3] == v;
    assert IndexOf(v, {'.'}) == 1 by {
      assert v[1..][0] in {'.'};
    }
    assert v[..1] == "1" && v[2..] == "5";
  }

  /** ... and on "hello": neither accepts it. */
  lemma WordExample(v: string)
    requires v == "hello"
    ensures !ParsesAsInt(v) && !ParsesAsFloat(v) && !IsNumber(v)
  {
    Unpadded(v);
    assert !IsDigit(v[0]);
    assert IndexOf(v, {'e', 'E'}) == 1 by {
      assert v[1..][0] in {'e', 'E'};
    }
    assert v[..1] == "h";
    IndexOfAbsent("h", {'.'});
  }

  /** The checks pinned by tests/test_utils.py. */
  lemma BlankExamples()
    ensures IsBlank(None) && IsBlank(Some("")) && IsBlank(Some("   "))
    ensures !IsBlank(Some("hello"))
  {
    BlankIffAllWhitespace("   ");
    BlankIffAllWhitespace("hello");
    assert !IsWhitespace("hello"[0]);
  }

  /** `int(x)`: truncation toward zero. */
  function Trunc(x: real): (r: int)
    ensures x >= 0.0 ==> r as real <= x < r as real + 1.0
    ensures x < 0.0 ==> r as real - 1.0 < x <= r as real
  {
    if x >= 0.0 then x.Floor else -((-x).Floor)
  }
}
