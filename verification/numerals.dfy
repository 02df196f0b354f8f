/**
 Parameters as text (src/core/op_chain.cpp, parse_float, format_param, quantize_param).
 Numbers are the decimal grammar: a sign, digits, a point.
 */
module Numerals {
  import opened Samples
  import opened Chains
  import opened Texts

  predicate IsDigit(c: char) {
    '0' <= c <= '9'
  }

  predicate AllDigits(s: string) {
    forall i :: 0 <= i < |s| ==> IsDigit(s[i])
  }

  function DigitOf(n: nat): (c: char)
    requires n < 10
    ensures IsDigit(c)
  {
    '0' + n as char
  }

  /** The number a string of digits spells. */
  function DigitsValue(s: string): nat
    requires AllDigits(s)
  {
    if s == [] then 0 else 10 * DigitsValue(s[..|s| - 1]) + (s[|s| - 1] as int - '0' as int)
  }

  /** std::to_string of a non-negative number. */
  function Decimal(n: nat): (s: string)
    ensures s != [] && AllDigits(s)
  {
    if n < 10 then [DigitOf(n)] else Decimal(n / 10) + [DigitOf(n % 10)]
  }

  lemma {:induction false} DecimalSpells(n: nat)
    ensures DigitsValue(Decimal(n)) == n
  {
    if n < 10 {
      assert [DigitOf(n)][..0] == [];
    } else {
      DecimalSpells(n / 10);
      assert (Decimal(n / 10) + [DigitOf(n % 10)])[..|Decimal(n / 10)|] == Decimal(n / 10);
    }
  }

  function Pow10(n: nat): (r: nat)
    ensures r > 0
  {
    if n == 0 then 1 else 10 * Pow10(n - 1)
  }

  /** Digits, optionally a point and more digits; at least one digit in all. */
  function ParseUnsigned(s: string): Option<real> {
    var dot := Find(s, '.', 0);
    var whole, part := s[..dot], if dot < |s| then s[dot + 1..] else [];
    if AllDigits(whole + part) && whole + part != []
    then Some(DigitsValue(whole + part) as real / Pow10(|part|) as real)
    else None
  }

  function ParseNumber(s: string): Option<real> {
    if s != [] && s[0] == '-' then
      var r := ParseUnsigned(s[1..]);
      if r.Some? then Some(0.0 - r.value) else None
    else if s != [] && s[0] == '+' then ParseUnsigned(s[1..])
    else ParseUnsigned(s)
  }

  function QuantizeParam(value: real): real {
    RoundHalfAway(value * 100.0) as real / 100.0
  }

  function Magnitude(n: int): nat {
    if n < 0 then -n else n
  }

  /** The text of a magnitude in hundredths: two decimals, the second only when not zero. */
  function FormatMagnitude(m: nat): string {
    Decimal(m / 100) + "." + Decimal(m / 10 % 10) + (if m % 10 != 0 then Decimal(m % 10) else "")
  }

  method FormatParam(value: real) returns (text: string)
    ensures text == ParamText(value)
  {
    var scaled := RoundHalfAway(value * 100.0);
    var magnitude := Magnitude(scaled);
    text := (if scaled < 0 then "-" else "") + Decimal(magnitude / 100) + "." + Decimal(magnitude / 10 % 10);
    var hundredths := magnitude % 10;
    if hundredths != 0 {
      text := text + Decimal(hundredths);
    }
    SameConcat(if scaled < 0 then "-" else "", Decimal(magnitude / 100), ".", Decimal(magnitude / 10 % 10),
      if hundredths != 0 then Decimal(hundredths) else "");
  }

  lemma SameConcat(a: string, b: string, c: string, d: string, e: string)
    ensures a + b + c + d + e == a + (b + c + d + e)
    ensures a + b + c + d + [] == a + b + c + d
  {
  }

  function ParamText(value: real): string {
    var scaled := RoundHalfAway(value * 100.0);
    (if scaled < 0 then "-" else "") + FormatMagnitude(Magnitude(scaled))
  }

  lemma FindPoint(whole: string, part: string)
    requires AllDigits(whole)
    ensures Find(whole + "." + part, '.', 0) == |whole|
  {
    var s := whole + "." + part;
    assert s[|whole|] == '.';
    forall j | 0 <= j < |whole| ensures s[j] != '.' {
      assert IsDigit(whole[j]);
    }
    FindAt(s, '.', 0, |whole|);
  }

  lemma PointSplits(whole: string, part: string)
    requires AllDigits(whole) && AllDigits(part) && whole != []
    ensures ParseUnsigned(whole + "." + part)
            == Some(DigitsValue(whole + part) as real / Pow10(|part|) as real)
  {
    FindPoint(whole, part);
    var s := whole + "." + part;
    assert s[..|whole|] == whole && s[|whole| + 1..] == part;
  }

  lemma AppendDigit(s: string, d: nat)
    requires AllDigits(s) && d < 10
    ensures Decimal(d) == [DigitOf(d)] && DigitsValue(s + Decimal(d)) == 10 * DigitsValue(s) + d
  {
    assert (s + [DigitOf(d)])[..|s|] == s;
  }

  lemma PointValue(whole: string, part: string, value: nat, scale: nat)
    requires AllDigits(whole) && AllDigits(part) && whole != [] && scale > 0
    requires DigitsValue(whole + part) == value && Pow10(|part|) == scale
    ensures ParseUnsigned(whole + "." + part) == Some(value as real / scale as real)
  {
    PointSplits(whole, part);
  }

  lemma OneDecimal(whole: string, tenth: nat)
    requires AllDigits(whole) && whole != [] && tenth < 10
    ensures ParseUnsigned(whole + "." + Decimal(tenth)) == Some((10 * DigitsValue(whole) + tenth) as real / 10 as real)
  {
    AppendDigit(whole, tenth);
    assert Pow10(1) == 10;
    PointValue(whole, Decimal(tenth), 10 * DigitsValue(whole) + tenth, 10);
  }

  lemma TwoDigits(whole: string, tenth: nat, last: nat, part: string)
    requires AllDigits(whole) && tenth < 10 && last < 10 && part == Decimal(tenth) + Decimal(last)
    ensures AllDigits(part) && |part| == 2
    ensures DigitsValue(whole + part) == 10 * (10 * DigitsValue(whole) + tenth) + last
  {
    AppendDigit(whole, tenth);
    AppendDigit(whole + Decimal(tenth), last);
    assert whole + part == whole + Decimal(tenth) + Decimal(last);
  }

  lemma TwoDecimals(whole: string, tenth: nat, last: nat, part: string)
    requires AllDigits(whole) && whole != [] && tenth < 10 && last < 10 && part == Decimal(tenth) + Decimal(last)
    ensures ParseUnsigned(whole + "." + part)
            == Some((10 * (10 * DigitsValue(whole) + tenth) + last) as real / 100 as real)
  {
    TwoDigits(whole, tenth, last, part);
    assert Pow10(2) == 10 * Pow10(1) == 100;
    PointValue(whole, part, 10 * (10 * DigitsValue(whole) + tenth) + last, 100);
  }

  lemma Hundredths(m: nat)
    ensures m == 10 * (10 * (m / 100) + m / 10 % 10) + m % 10
  {
    assert m / 10 / 10 == m / 100;
  }

  lemma MagnitudeParses(m: nat)
    ensures ParseUnsigned(FormatMagnitude(m)) == Some(m as real / 100.0)
  {
    var whole, tenth, last := Decimal(m / 100), m / 10 % 10, m % 10;
    DecimalSpells(m / 100);
    Hundredths(m);
    if last == 0 {
      assert FormatMagnitude(m) == whole + "." + Decimal(tenth);
      OneDecimal(whole, tenth);
    } else {
      assert FormatMagnitude(m) == whole + "." + (Decimal(tenth) + Decimal(last));
      TwoDecimals(whole, tenth, last, Decimal(tenth) + Decimal(last));
    }
  }

  lemma StartsWithDigit(m: nat)
    ensures FormatMagnitude(m) != [] && IsDigit(FormatMagnitude(m)[0])
  {
    assert FormatMagnitude(m)[0] == Decimal(m / 100)[0];
  }

  /** A sign in front of an unsigned text is read as that sign. */
  lemma SignIsRead(body: string)
    requires body != [] && IsDigit(body[0])
    ensures ParseNumber(body) == ParseUnsigned(body)
    ensures ParseNumber("-" + body)
            == if ParseUnsigned(body).Some? then Some(0.0 - ParseUnsigned(body).value) else None
  {
    assert ("-" + body)[1..] == body;
  }

  /** What the printer writes for a parameter, the parser reads back as that parameter. */
  lemma ParamRoundTrips(param: real)
    requires CanonicalParam(param)
    ensures ParseNumber(ParamText(param)) == Some(param) && QuantizeParam(param) == param
  {
    var n := RoundHalfAway(param * 100.0);
    MagnitudeParses(Magnitude(n));
    StartsWithDigit(Magnitude(n));
    SignIsRead(FormatMagnitude(Magnitude(n)));
    assert "" + FormatMagnitude(Magnitude(n)) == FormatMagnitude(Magnitude(n));
  }

  lemma RoundOfInteger(n: int)
    ensures RoundHalfAway(n as real) == n
  {
  }

  lemma QuantizedIsCanonical(value: real)
    requires -4.0 <= QuantizeParam(value) <= 4.0
    ensures CanonicalParam(QuantizeParam(value))
  {
    var n, q := RoundHalfAway(value * 100.0), QuantizeParam(value);
    HundredthsAreCanonical(n, q);
  }

  lemma HundredthsAreCanonical(n: int, q: real)
    requires q == n as real / 100.0 && -4.0 <= q <= 4.0
    ensures CanonicalParam(q)
  {
    assert q * 100.0 == n as real;
    RoundOfInteger(n);
  }

  /** A character no number contains. */
  predicate Separates(c: char) {
    c == ',' || c == ':' || IsSpace(c)
  }

  predicate Free(s: string) {
    forall i :: 0 <= i < |s| ==> !Separates(s[i])
  }

  lemma DigitsAreFree(s: string)
    requires AllDigits(s)
    ensures Free(s)
  {
    forall i | 0 <= i < |s| ensures !Separates(s[i]) {
      assert IsDigit(s[i]);
    }
  }

  lemma ParamTextIsFree(param: real)
    ensures Free(ParamText(param)) && ParamText(param) != []
  {
    var m := Magnitude(RoundHalfAway(param * 100.0));
    DigitsAreFree(Decimal(m / 100));
    DigitsAreFree(Decimal(m / 10 % 10));
    DigitsAreFree(Decimal(m % 10));
  }
}
