/**
 * Decimal rendering of Java `Integer` values, as `String.valueOf` and
 * `StringBuilder.append` produce it, together with the matching parser that
 * serves as its partner in the round-trip lemmas.
 */
module Decimal {
  import opened Wrappers

  predicate IsDigit(c: char) { '0' <= c <= '9' }

  function DigitChar(d: nat): (c: char)
    requires d < 10
    ensures IsDigit(c) && c as int - '0' as int == d
  {
    ['0', '1', '2', '3', '4', '5', '6', '7', '8', '9'][d]
  }

  /** Decimal digits of `n`, most significant first, with no leading zero. */
  function NatToString(n: nat): (s: string)
    ensures |s| >= 1
    ensures forall i :: 0 <= i < |s| ==> IsDigit(s[i])
    ensures |s| > 1 ==> s[0] != '0'
  {
    if n < 10 then [DigitChar(n)] else NatToString(n / 10) + [DigitChar(n % 10)]
  }

  /** Java's rendering of an int: an optional minus sign, then the digits. */
  function IntToString(i: int): (s: string)
  {
    if i < 0 then "-" + NatToString(-i) else NatToString(i)
  }

  /** Rendering of a boxed `Integer` by `StringBuilder.append`: a null reference becomes "null". */
  function IntegerToString(v: Option<int>): (s: string)
  {
    match v
    case None => "null"
    case Some(i) => IntToString(i)
  }

  function DigitValue(c: char): (d: nat)
    requires IsDigit(c)
    ensures d < 10
  {
    c as int - '0' as int
  }

  /** The value of a string of digits. */
  function DigitsValue(s: string): nat
    requires forall i :: 0 <= i < |s| ==> IsDigit(s[i])
  {
    if s == [] then 0 else DigitsValue(s[..|s| - 1]) * 10 + DigitValue(s[|s| - 1])
  }

  predicate AllDigits(s: string) { forall i :: 0 <= i < |s| ==> IsDigit(s[i]) }

  /** Reads back a rendering of `IntToString`; `None` for anything else. */
  function ParseInt(s: string): (r: Option<int>)
    ensures r.Some? ==> IntToString(r.value) == s
  {
    if |s| >= 2 && s[0] == '-' && AllDigits(s[1..]) && s[1] != '0' then
      NatRendering(DigitsValue(s[1..]), s[1..]);
      var magnitude: int := DigitsValue(s[1..]);
      Some(-magnitude)
    else if |s| >= 1 && AllDigits(s) && (|s| == 1 || s[0] != '0') then
      NatRendering(DigitsValue(s), s);
      Some(DigitsValue(s))
    else None
  }

  /** Reads back a rendering of `IntegerToString`. */
  function ParseInteger(s: string): (r: Option<Option<int>>)
    ensures r.Some? ==> IntegerToString(r.value) == s
  {
    if s == "null" then Some(None)
    else match ParseInt(s)
      case None => None
      case Some(i) => Some(Some(i))
  }

  /** A digit string without a leading zero is the rendering of its value. */
  lemma {:induction false} NatRendering(n: nat, s: string)
    requires |s| >= 1 && AllDigits(s) && (|s| == 1 || s[0] != '0')
    requires n == DigitsValue(s)
    ensures NatToString(n) == s
  {
    var last := DigitValue(s[|s| - 1]);
    if |s| == 1 {
      assert DigitsValue(s[..0]) == 0;
      assert [DigitChar(n)] == s;
    } else {
      var init := s[..|s| - 1];
      assert AllDigits(init);
      assert init[0] == s[0];
      if DigitsValue(init) == 0 {
        LeadingDigitPositive(init);
      }
      assert n / 10 == DigitsValue(init) && n % 10 == last;
      NatRendering(DigitsValue(init), init);
      assert s == init + [s[|s| - 1]];
    }
  }

  /** A digit string of length at least one that does not start with '0' has a positive value. */
  lemma {:induction false} LeadingDigitPositive(s: string)
    requires |s| >= 1 && AllDigits(s) && s[0] != '0'
    ensures DigitsValue(s) > 0
  {
    if |s| > 1 {
      var init := s[..|s| - 1];
      assert init[0] == s[0];
      LeadingDigitPositive(init);
    }
  }

  /** The digits of `n` read back as `n`. */
  lemma {:induction false} NatRoundTrip(n: nat)
    ensures DigitsValue(NatToString(n)) == n
  {
    if n >= 10 {
      var s := NatToString(n);
      NatRoundTrip(n / 10);
      assert s[..|s| - 1] == NatToString(n / 10);
    }
  }

  /** Decimal rendering of an int is undone by `ParseInt`. */
  lemma IntRoundTrip(i: int)
    ensures ParseInt(IntToString(i)) == Some(i)
  {
    var s := IntToString(i);
    if i < 0 {
      var d := NatToString(-i);
      assert s[1..] == d;
      NatRoundTrip(-i);
      assert AllDigits(s[1..]) && s[1] == d[0];
      assert d[0] != '0' by {
        if |d| == 1 { assert d == [DigitChar(-i)]; }
      }
    } else {
      NatRoundTrip(i);
      assert AllDigits(s);
    }
  }

  /** Rendering of a possibly-null Integer is undone by `ParseInteger`. */
  lemma IntegerRoundTrip(v: Option<int>)
    ensures ParseInteger(IntegerToString(v)) == Some(v)
  {
    match v
    case None =>
    case Some(i) =>
      IntRoundTrip(i);
      assert IntToString(i) != "null" by {
        var s := IntToString(i);
        assert s[0] == '-' || IsDigit(s[0]);
      }
  }

  /** A rendered Integer is never empty and never holds a separator or a line break. */
  lemma IntegerTokenShape(v: Option<int>)
    ensures IntegerToString(v) != []
    ensures ',' !in IntegerToString(v) && '\n' !in IntegerToString(v) && '^' !in IntegerToString(v)
  {
    match v
    case None =>
    case Some(i) =>
      var d := if i < 0 then NatToString(-i) else NatToString(i);
      assert forall k :: 0 <= k < |d| ==> d[k] != ',' && d[k] != '\n' && d[k] != '^';
  }
}
