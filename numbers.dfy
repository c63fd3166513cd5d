/**
 * Rust's fixed-width integers used by the request layer and their `to_string`
 * rendering in base 10, with a decoder that proves the rendering exact and
 * unambiguous.
 */
module Numbers {
  import opened Wrappers

  /** Rust `u64`: timestamps, the trade `limit`, the invoice expiry. */
  type u64 = x: int | 0 <= x < 0x1_0000_0000_0000_0000

  /** Rust `i64`: the row bounds of the transactions endpoint. */
  type i64 = x: int | -0x8000_0000_0000_0000 <= x < 0x8000_0000_0000_0000

  predicate IsDigit(c: char) { '0' <= c <= '9' }

  predicate AllDigits(s: string) { forall i :: 0 <= i < |s| ==> IsDigit(s[i]) }

  function DigitChar(d: nat): (c: char)
    requires d < 10
    ensures IsDigit(c) && (c as int) - ('0' as int) == d
  {
    (('0' as int) + d) as char
  }

  /** Base-10 rendering of a natural number, most significant digit first, as Rust's `to_string`. */
  function NatToString(n: nat): (s: string)
    ensures |s| >= 1 && AllDigits(s)
    ensures s[0] == '0' ==> n == 0 && s == "0"
  {
    if n < 10 then [DigitChar(n)] else NatToString(n / 10) + [DigitChar(n % 10)]
  }

  /** Rust's `to_string` on a signed integer: a leading '-' for negative values. */
  function IntToString(i: int): (s: string)
    ensures |s| >= 1
    ensures s[0] == '-' <==> i < 0
    ensures i < 0 ==> AllDigits(s[1..])
    ensures i >= 0 ==> AllDigits(s)
  {
    if i < 0 then "-" + NatToString(-i) else NatToString(i)
  }

  /** The value of a string of decimal digits. */
  function DigitsValue(s: string): nat
    requires AllDigits(s)
  {
    if |s| == 0 then 0
    else DigitsValue(s[..|s| - 1]) * 10 + ((s[|s| - 1] as int) - ('0' as int))
  }

  /** Reads back a base-10 integer with an optional leading '-'. */
  function ParseInt(s: string): Option<int> {
    if |s| >= 2 && s[0] == '-' && AllDigits(s[1..]) then Some(-(DigitsValue(s[1..]) as int))
    else if |s| >= 1 && AllDigits(s) then Some(DigitsValue(s))
    else None
  }

  lemma {:induction false} NatToStringValue(n: nat)
    ensures DigitsValue(NatToString(n)) == n
  {
    var s := NatToString(n);
    if n >= 10 {
      NatToStringValue(n / 10);
      assert s[..|s| - 1] == NatToString(n / 10);
    }
  }

  /** Rendering then reading back yields the same integer. */
  lemma IntToStringRoundTrip(i: int)
    ensures ParseInt(IntToString(i)) == Some(i)
  {
    var s := IntToString(i);
    if i < 0 {
      assert s[1..] == NatToString(-i);
      NatToStringValue(-i);
    } else {
      NatToStringValue(i);
    }
  }

  /** Distinct integers render to distinct strings. */
  lemma IntToStringInjective(a: int, b: int)
    requires IntToString(a) == IntToString(b)
    ensures a == b
  {
    IntToStringRoundTrip(a);
    IntToStringRoundTrip(b);
  }

  /** The rendering is canonical: no '+' sign, no "-0", no leading zeros. */
  lemma IntToStringCanonical(i: int)
    ensures IntToString(i) != "-0"
    ensures IntToString(i)[0] != '+'
    ensures |IntToString(i)| > 1 && IntToString(i)[0] != '-' ==> IntToString(i)[0] != '0'
    ensures i < 0 ==> IntToString(i)[1] != '0'
  {
    if i < 0 {
      assert IntToString(i)[1..] == NatToString(-i);
    }
  }
}
