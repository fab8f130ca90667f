/**
 * String helpers the client relies on: decimal rendering of integers
 * (Python's `str(int)` and f-string interpolation), truncation of a clock
 * reading toward zero (Python's `int(float)`), and removal of trailing
 * characters (Python's `str.rstrip(c)`).
 */
module Text {
  import opened Prelude

  predicate IsDigit(c: char) {
    '0' <= c <= '9'
  }

  predicate AllDigits(s: string) {
    forall i :: 0 <= i < |s| ==> IsDigit(s[i])
  }

  function DigitChar(d: nat): (c: char)
    requires d < 10
    ensures IsDigit(c) && c as int - '0' as int == d
  {
    ('0' as int + d) as char
  }

  /** The decimal text of `n`, most significant digit first, without leading zeros. */
  function NatToDecimal(n: nat): (s: string)
    ensures |s| >= 1 && AllDigits(s)
    ensures s[0] == '0' <==> n == 0
    ensures n == 0 ==> s == "0"
    decreases n
  {
    if n < 10 then [DigitChar(n)] else NatToDecimal(n / 10) + [DigitChar(n % 10)]
  }

  /** The number a string of digits denotes (an independent reading of decimal text). */
  function DecimalValue(s: string): nat
    requires AllDigits(s)
    decreases |s|
  {
    if s == [] then 0 else 10 * DecimalValue(s[..|s| - 1]) + (s[|s| - 1] as int - '0' as int)
  }

  lemma {:induction false} DecimalRoundTrip(n: nat)
    ensures DecimalValue(NatToDecimal(n)) == n
  {
    if n >= 10 {
      var s := NatToDecimal(n / 10);
      DecimalRoundTrip(n / 10);
      assert (s + [DigitChar(n % 10)])[..|s|] == s;
    }
  }

  lemma NatToDecimalInjective(a: nat, b: nat)
    ensures NatToDecimal(a) == NatToDecimal(b) ==> a == b
  {
    DecimalRoundTrip(a);
    DecimalRoundTrip(b);
  }

  /** Reads back the text `IntToDecimal` produces: an optional '-' followed by digits. */
  function DecimalToInt(s: string): Option<int> {
    if |s| > 1 && s[0] == '-' && AllDigits(s[1..]) then Some(-(DecimalValue(s[1..]) as int))
    else if |s| > 0 && AllDigits(s) then Some(DecimalValue(s))
    else None
  }

  /**
   * Python's `str(i)` for an int: a '-' sign exactly for negative values,
   * then the digits, with no leading zero and no "-0".
   */
  function IntToDecimal(i: int): (s: string)
    ensures |s| >= 1
    ensures DecimalToInt(s) == Some(i)
    ensures s[0] == '-' <==> i < 0
    ensures i >= 0 ==> AllDigits(s)
    ensures i < 0 ==> |s| >= 2 && AllDigits(s[1..])
    ensures (s[0] == '0' ==> s == "0") && (i < 0 ==> s[1] != '0')
  {
    if i < 0 then
      DecimalRoundTrip(-i);
      var s := "-" + NatToDecimal(-i);
      assert s[1..] == NatToDecimal(-i);
      s
    else
      DecimalRoundTrip(i);
      NatToDecimal(i)
  }

  /** Digit text without a leading zero (other than "0" itself). */
  predicate CanonicalDigits(s: string) {
    |s| >= 1 && AllDigits(s) && (s[0] == '0' ==> s == "0")
  }

  /** A digit string that starts with a non-zero digit denotes a positive number. */
  lemma {:induction false} LeadingDigitPositive(s: string)
    requires |s| >= 1 && AllDigits(s) && s[0] != '0'
    ensures DecimalValue(s) >= 1
    decreases |s|
  {
    if |s| > 1 {
      LeadingDigitPositive(s[..|s| - 1]);
    }
  }

  /** `NatToDecimal(n)` is the only canonical digit text that denotes `n`. */
  lemma {:induction false} CanonicalDigitsUnique(s: string, n: nat)
    requires CanonicalDigits(s) && DecimalValue(s) == n
    ensures s == NatToDecimal(n)
    decreases |s|
  {
    if |s| > 1 {
      var front := s[..|s| - 1];
      var d := s[|s| - 1] as int - '0' as int;
      assert front[0] == s[0] != '0';
      LeadingDigitPositive(front);
      assert n / 10 == DecimalValue(front) && n % 10 == d;
      CanonicalDigitsUnique(front, n / 10);
      assert s == front + [DigitChar(d)];
    }
  }

  /**
   * `str(i)` is the only text that reads back as `i`, carries a '-' exactly
   * when `i` is negative, and has canonical digits: nothing shaped like
   * "07" or "-0" is produced.
   */
  lemma CanonicalDecimalUnique(s: string, i: int)
    requires DecimalToInt(s) == Some(i)
    requires |s| >= 1 && (s[0] == '-' <==> i < 0)
    requires CanonicalDigits(if i < 0 then s[1..] else s)
    ensures s == IntToDecimal(i)
  {
    if i < 0 {
      CanonicalDigitsUnique(s[1..], -i);
      assert s == [s[0]] + s[1..];
    } else {
      CanonicalDigitsUnique(s, i);
    }
  }

  /** A corollary of the read-back in `IntToDecimal`'s contract: different ints never print the same. */
  lemma IntToDecimalInjective(a: int, b: int)
    ensures IntToDecimal(a) == IntToDecimal(b) ==> a == b
  {
  }

  /** Python's `int(t)` for a float: truncation toward zero. */
  function TruncateTowardZero(t: real): (i: int)
    ensures 0.0 <= t ==> 0 <= i && i as real <= t < i as real + 1.0
    ensures t < 0.0 ==> i <= 0 && i as real - 1.0 < t <= i as real
  {
    if t >= 0.0 then t.Floor else -((-t).Floor)
  }

  /** Python's `s.rstrip(c)` for a single character `c`: drops every trailing `c`. */
  function TrimTrailing(s: string, c: char): (r: string)
    ensures r <= s
    ensures r == [] || r[|r| - 1] != c
    ensures forall i :: |r| <= i < |s| ==> s[i] == c
    decreases |s|
  {
    if |s| > 0 && s[|s| - 1] == c then TrimTrailing(s[..|s| - 1], c) else s
  }

  /**
   * `TrimTrailing` is the only prefix of `s` that does not end in `c` and
   * leaves nothing but `c` behind it.
   */
  lemma {:induction false} TrimTrailingUnique(s: string, c: char, r: string)
    requires r <= s
    requires r == [] || r[|r| - 1] != c
    requires forall i :: |r| <= i < |s| ==> s[i] == c
    ensures r == TrimTrailing(s, c)
    decreases |s|
  {
    if |s| > 0 && s[|s| - 1] == c {
      assert |r| < |s|;
      TrimTrailingUnique(s[..|s| - 1], c, r);
    }
  }

  /** A corollary of `TrimTrailing`'s contract: normalising twice is normalising once. */
  lemma TrimTrailingIdempotent(s: string, c: char)
    ensures TrimTrailing(TrimTrailing(s, c), c) == TrimTrailing(s, c)
  {
  }
}
