/**
 * Python's `str(n)` for an `int`: the decimal text an f-string produces for an
 * integer, together with its inverse, so that a port written into a URL can be
 * read back from it.
 */
module Decimal {
  import opened Wrappers

  predicate IsDigit(c: char) {
    '0' <= c <= '9'
  }

  predicate AllDigits(s: string) {
    forall k :: 0 <= k < |s| ==> IsDigit(s[k])
  }

  function DigitChar(d: nat): (c: char)
    requires d < 10
    ensures IsDigit(c)
  {
    ('0' as int + d) as char
  }

  function DigitValue(c: char): (d: nat)
    requires IsDigit(c)
    ensures d < 10
  {
    c as int - '0' as int
  }

  /** The decimal digits of `n`, most significant first, without leading zeros. */
  function FromNat(n: nat): (s: string)
    ensures |s| > 0 && AllDigits(s)
    ensures n > 0 ==> s[0] != '0'
    decreases n
  {
    if n < 10 then [DigitChar(n)] else FromNat(n / 10) + [DigitChar(n % 10)]
  }

  /** `str(i)`: a minus sign in front of the digits of a negative number. */
  function FromInt(i: int): (s: string)
    ensures |s| > 0
    ensures i < 0 <==> s[0] == '-'
    ensures i >= 0 ==> AllDigits(s)
  {
    if i < 0 then "-" + FromNat(-i) else FromNat(i)
  }

  /** The value of a string of decimal digits (the empty string reads as 0). */
  function ParseNat(s: string): (n: nat)
    requires AllDigits(s)
  {
    if s == [] then 0 else ParseNat(s[..|s| - 1]) * 10 + DigitValue(s[|s| - 1])
  }

  /** Reads an optional minus sign followed by at least one digit; anything else is rejected. */
  function ParseInt(s: string): (r: Option<int>)
    ensures r.Some? ==> |s| > 0 && (s[0] == '-' ==> |s| > 1 && AllDigits(s[1..]))
    ensures r.Some? && s[0] != '-' ==> AllDigits(s)
  {
    if s == [] then None
    else if s[0] == '-' then
      (if |s| > 1 && AllDigits(s[1..]) then Some(-(ParseNat(s[1..]) as int)) else None)
    else if AllDigits(s) then Some(ParseNat(s))
    else None
  }

  lemma {:induction false} ParseFromNat(n: nat)
    ensures ParseNat(FromNat(n)) == n
    decreases n
  {
    var s := FromNat(n);
    if n < 10 {
      assert s[..|s| - 1] == [];
    } else {
      var prefix := FromNat(n / 10);
      assert s == prefix + [DigitChar(n % 10)];
      assert s[..|s| - 1] == prefix;
      ParseFromNat(n / 10);
    }
  }

  /** Every integer is recovered from its decimal text. */
  lemma FromIntRoundTrip(i: int)
    ensures ParseInt(FromInt(i)) == Some(i)
  {
    if i < 0 {
      var s := FromInt(i);
      assert s[1..] == FromNat(-i);
      ParseFromNat(-i);
    } else {
      ParseFromNat(i);
    }
  }

  /** Distinct integers have distinct decimal texts. */
  lemma FromIntInjective(i: int, j: int)
    ensures FromInt(i) == FromInt(j) ==> i == j
  {
    FromIntRoundTrip(i);
    FromIntRoundTrip(j);
  }
}
