/**
 * How a template literal renders a JavaScript safe integer (|n| <= 2^53):
 * an optional minus sign followed by decimal digits without leading zeros.
 * Beyond 2^53 JavaScript prints the shortest digits that round back to the
 * same double; `IntString` always prints the exact digits.
 * The parser is the inverse used to state that a rendered id can be read back.
 */
module Decimal {
  import opened Wrappers

  predicate IsDigit(c: char) {
    '0' <= c <= '9'
  }

  function DigitChar(d: nat): (c: char)
    requires d < 10
    ensures IsDigit(c)
  {
    (48 + d) as char
  }

  function DigitValue(c: char): (r: Option<nat>)
    ensures r.Some? <==> IsDigit(c)
    ensures r.Some? ==> r.value < 10
  {
    if IsDigit(c) then Some(c as int - 48) else None
  }

  /** Decimal digits of a natural number, most significant first. */
  function NatDigits(n: nat): (s: string)
    ensures |s| >= 1
    ensures forall i :: 0 <= i < |s| ==> IsDigit(s[i])
  {
    if n < 10 then [DigitChar(n)] else NatDigits(n / 10) + [DigitChar(n % 10)]
  }

  /** `${n}` for an integer n. */
  function IntString(n: int): string {
    if n < 0 then "-" + NatDigits(-n) else NatDigits(n)
  }

  function ParseDigits(s: string): Option<nat>
    decreases |s|
  {
    if |s| == 0 then None
    else
      match (if |s| == 1 then Some(0) else ParseDigits(s[..|s| - 1]), DigitValue(s[|s| - 1]))
      case (Some(high), Some(low)) => Some(high * 10 + low)
      case _ => None
  }

  function ParseInt(s: string): Option<int> {
    if |s| > 0 && s[0] == '-' then
      match ParseDigits(s[1..])
      case Some(v) => var k: int := v; Some(-k)
      case None => None
    else
      match ParseDigits(s)
      case Some(v) => var k: int := v; Some(k)
      case None => None
  }

  lemma {:induction false} NatDigitsRoundTrip(n: nat)
    ensures ParseDigits(NatDigits(n)) == Some(n)
  {
    if n >= 10 {
      var s := NatDigits(n);
      NatDigitsRoundTrip(n / 10);
      assert s[..|s| - 1] == NatDigits(n / 10);
      assert |s| > 1;
    }
  }

  /** A rendered natural number has no leading zero. */
  lemma {:induction false} NoLeadingZero(n: nat)
    ensures n >= 10 ==> NatDigits(n)[0] != '0'
  {
    if n >= 10 {
      NoLeadingZero(n / 10);
      assert NatDigits(n)[0] == NatDigits(n / 10)[0];
    }
  }

  /** Rendering an integer and parsing it back yields the integer. */
  lemma {:induction false} IntStringRoundTrip(n: int)
    ensures ParseInt(IntString(n)) == Some(n)
  {
    var s := IntString(n);
    if n < 0 {
      NatDigitsRoundTrip(-n);
      assert s[0] == '-' && s[1..] == NatDigits(-n);
    } else {
      NatDigitsRoundTrip(n);
      assert IsDigit(s[0]);
    }
  }

  /** A rendered integer holds no '/' and so ends a path segment. */
  lemma IntStringHasNoSlash(n: int)
    ensures forall i :: 0 <= i < |IntString(n)| ==> IntString(n)[i] != '/'
  {
  }
}
