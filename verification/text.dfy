/**
 * Rendering numbers as text. Unsigned and signed integers are rendered in
 * decimal, as `std::to_string` and stream insertion do. Floating-point values
 * are rendered by a caller-supplied `show` function standing for
 * `std::to_string`; `FixedToString` adds the NaN/infinity workaround.
 */
module Text {
  import opened Ieee
  import opened Wrappers

  predicate IsDigit(c: char) {
    '0' <= c <= '9'
  }

  predicate AllDigits(s: string) {
    forall i :: 0 <= i < |s| ==> IsDigit(s[i])
  }

  function DigitChar(d: nat): (c: char)
    requires d < 10
    ensures IsDigit(c)
    ensures c as int - '0' as int == d
  {
    (d + '0' as int) as char
  }

  function DigitValue(c: char): (d: nat)
    requires IsDigit(c)
    ensures d < 10
  {
    c as int - '0' as int
  }

  /** Decimal rendering of a natural number: digits only, no leading zero. */
  function NatToString(n: nat): (s: string)
    ensures |s| >= 1
    ensures AllDigits(s)
    ensures s[0] == '0' <==> n == 0
    ensures n == 0 ==> s == "0"
    decreases n
  {
    if n < 10 then [DigitChar(n)] else NatToString(n / 10) + [DigitChar(n % 10)]
  }

  /** Decimal rendering of an integer, with a leading '-' when negative. */
  function IntToString(i: int): (s: string)
    ensures |s| >= 1
    ensures s[0] == '-' <==> i < 0
    ensures i >= 0 ==> s == NatToString(i)
  {
    if i < 0 then "-" + NatToString(-i) else NatToString(i)
  }

  /** Reads a string of decimal digits back as a number. */
  function ParseNat(s: string): nat
    requires AllDigits(s)
  {
    if |s| == 0 then 0 else ParseNat(s[..|s| - 1]) * 10 + DigitValue(s[|s| - 1])
  }

  /** Parsing the rendering gives the number back. */
  lemma {:induction false} ParseNatToString(n: nat)
    ensures ParseNat(NatToString(n)) == n
    decreases n
  {
    var s := NatToString(n);
    if n >= 10 {
      var prefix := NatToString(n / 10);
      assert s[..|s| - 1] == prefix;
      ParseNatToString(n / 10);
    }
  }

  /** Different numbers render differently. */
  lemma NatToStringInjective(m: nat, n: nat)
    requires NatToString(m) == NatToString(n)
    ensures m == n
  {
    ParseNatToString(m);
    ParseNatToString(n);
  }

  /** Consumes `lit` from the front of `s`. */
  function Expect(lit: string, s: string): (r: Option<string>)
    ensures r.Some? ==> s == lit + r.value
  {
    if |lit| <= |s| && s[..|lit|] == lit then Some(s[|lit|..]) else None
  }

  /** A string that starts with `lit` gives up exactly the rest. */
  lemma ExpectPrefix(lit: string, rest: string)
    ensures Expect(lit, lit + rest) == Some(rest)
  {
    assert (lit + rest)[..|lit|] == lit;
    assert (lit + rest)[|lit|..] == rest;
  }

  /** Splits `s` before the first occurrence of `stop`. */
  function SplitAt(stop: char, s: string): (r: (string, string))
    ensures s == r.0 + r.1
    ensures stop !in r.0
    ensures r.1 == [] || r.1[0] == stop
  {
    if |s| == 0 then ([], [])
    else if s[0] == stop then ([], s)
    else
      var (v, rest) := SplitAt(stop, s[1..]);
      ([s[0]] + v, rest)
  }

  /** Text free of `stop`, followed by `stop`, is split off exactly. */
  lemma {:induction false} SplitAtStops(stop: char, v: string, rest: string)
    requires stop !in v
    requires rest != [] && rest[0] == stop
    ensures SplitAt(stop, v + rest) == (v, rest)
    decreases |v|
  {
    if v != [] {
      var s := v + rest;
      assert s[0] == v[0] && v[0] != stop;
      assert s[1..] == v[1..] + rest;
      SplitAtStops(stop, v[1..], rest);
      assert SplitAt(stop, s[1..]) == (v[1..], rest);
      assert SplitAt(stop, s) == ([s[0]] + v[1..], rest);
      assert [v[0]] + v[1..] == v;
    } else {
      assert v + rest == rest;
    }
  }

  /**
   * `gcc_7x_to_string_fix`: "nan" for NaN, "inf" for either infinity (the sign
   * is dropped), and `std::to_string` otherwise.
   */
  function FixedToString(show: Float -> string, x: Float): (s: string)
    ensures x.NaN? ==> s == "nan"
    ensures x.PosInf? || x.NegInf? ==> s == "inf"
    ensures x.Fin? ==> s == show(x)
  {
    match x
    case NaN => "nan"
    case PosInf => "inf"
    case NegInf => "inf"
    case Fin(_) => show(x)
  }
}
