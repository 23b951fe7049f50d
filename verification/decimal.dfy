/** Decimal rendering of integers, as Go's `%d` verb prints a signed integer,
    together with the parser that reads such a rendering back. */
module Decimal {
  import opened Results

  /** Go's `int32`, the type of the service port the resolver receives. */
  type Int32 = x: int | -0x8000_0000 <= x < 0x8000_0000

  predicate IsDigit(c: char) {
    '0' <= c <= '9'
  }

  predicate AllDigits(s: string) {
    forall i :: 0 <= i < |s| ==> IsDigit(s[i])
  }

  function DigitValue(c: char): (d: nat)
    requires IsDigit(c)
    ensures d < 10
  {
    c as int - '0' as int
  }

  function DigitChar(d: nat): (c: char)
    requires d < 10
    ensures IsDigit(c) && DigitValue(c) == d
  {
    (d + '0' as int) as char
  }

  /** The digits of `n`, most significant first, without leading zeros. */
  function NatToDigits(n: nat): (s: string)
    ensures |s| >= 1 && AllDigits(s)
    ensures s[0] == '0' ==> n == 0
    decreases n
  {
    if n < 10 then [DigitChar(n)]
    else NatToDigits(n / 10) + [DigitChar(n % 10)]
  }

  /** The number a string of digits denotes (the empty string denotes 0). */
  function DigitsToNat(s: string): nat
    requires AllDigits(s)
  {
    if |s| == 0 then 0
    else DigitsToNat(s[..|s| - 1]) * 10 + DigitValue(s[|s| - 1])
  }

  /** Reading the digits of `n` back gives `n`. */
  lemma {:induction false} DigitsRoundTrip(n: nat)
    ensures DigitsToNat(NatToDigits(n)) == n
  {
    if n >= 10 {
      var s := NatToDigits(n);
      assert s[..|s| - 1] == NatToDigits(n / 10);
      DigitsRoundTrip(n / 10);
    }
  }

  /** A non-empty string of digits with no leading zero: "0" is the only
      such string that starts with '0'. */
  predicate CanonicalDigits(s: string) {
    |s| >= 1 && AllDigits(s) && (s[0] == '0' ==> |s| == 1)
  }

  /** Go's `%d`: a minus sign for a negative value, then the digits of its
      magnitude, with no leading zero and no `-0`. */
  function FormatInt(n: int): (s: string)
    ensures |s| >= 1
    ensures s[0] == '-' <==> n < 0
    ensures AllDigits(if n < 0 then s[1..] else s)
    ensures n >= 0 ==> (s[0] == '0' ==> s == "0")
    ensures n < 0 ==> |s| >= 2 && s[1] != '0'
    ensures ':' !in s
  {
    if n < 0 then "-" + NatToDigits(-n) else NatToDigits(n)
  }

  /** The integer a `%d` rendering denotes, or None for any other string:
      leading zeros, `-0`, a bare `-` and non-digits are all rejected. */
  function ParseInt(s: string): Option<int> {
    if |s| >= 2 && s[0] == '-' && CanonicalDigits(s[1..]) && s[1] != '0'
    then Some(0 - DigitsToNat(s[1..]) as int)
    else if CanonicalDigits(s) then Some(DigitsToNat(s))
    else None
  }

  /** Digits without a leading zero are exactly the digits of the number
      they denote. */
  lemma {:induction false} CanonicalDigitsRoundTrip(s: string)
    requires CanonicalDigits(s)
    ensures NatToDigits(DigitsToNat(s)) == s
  {
    if |s| == 1 {
      assert DigitChar(DigitValue(s[0])) == s[0];
    } else {
      var p := s[..|s| - 1];
      assert p[0] == s[0];
      CanonicalDigitsRoundTrip(p);
      var d := DigitValue(s[|s| - 1]);
      var n := DigitsToNat(s);
      assert DigitsToNat(p) != 0;
      assert n / 10 == DigitsToNat(p) && n % 10 == d;
      assert DigitChar(d) == s[|s| - 1];
      assert s == p + [s[|s| - 1]];
    }
  }

  /** `%d` loses nothing: its rendering parses back to the same integer. */
  lemma FormatIntRoundTrip(n: int)
    ensures ParseInt(FormatInt(n)) == Some(n)
  {
    DigitsRoundTrip(if n < 0 then -n else n);
    if n < 0 {
      assert FormatInt(n)[1..] == NatToDigits(-n);
    }
  }

  /** Conversely, every string `ParseInt` accepts is exactly the `%d`
      rendering of what it read: the reader accepts Go's canonical text and
      nothing else. */
  lemma ParseIntIsCanonical(s: string)
    requires ParseInt(s).Some?
    ensures FormatInt(ParseInt(s).value) == s
  {
    if |s| >= 2 && s[0] == '-' && CanonicalDigits(s[1..]) && s[1] != '0' {
      var t := s[1..];
      CanonicalDigitsRoundTrip(t);
      assert DigitsToNat(t) != 0;
      assert s == "-" + t;
    } else {
      CanonicalDigitsRoundTrip(s);
    }
  }

  /** Two integers with the same `%d` rendering are equal. */
  lemma FormatIntInjective(m: int, n: int)
    requires FormatInt(m) == FormatInt(n)
    ensures m == n
  {
    FormatIntRoundTrip(m);
    FormatIntRoundTrip(n);
  }
}
