/**
 * The string conversions the repository relies on when it persists a pick:
 * Kotlin's `Int.toString()`, `Boolean.toString()`, `String.toBoolean()`, and the
 * zero-padded decimal fields of a `yyyy-MM-dd` date pattern.
 */
module Conversions {

  predicate IsDigit(c: char) {
    '0' <= c <= '9'
  }

  predicate AllDigits(s: string) {
    forall i :: 0 <= i < |s| ==> IsDigit(s[i])
  }

  function DigitChar(d: nat): (c: char)
    requires d < 10
    ensures IsDigit(c) && c as int - '0' as int == d
  {
    "0123456789"[d]
  }

  /** The decimal value of a string of digits read left to right (leading zeros allowed). */
  function DecimalValue(s: string): int
  {
    if s == [] then 0 else DecimalValue(s[..|s| - 1]) * 10 + (s[|s| - 1] as int - '0' as int)
  }

  /** Canonical decimal notation of a natural number: digits only, no leading zero. */
  function NatToString(n: nat): (s: string)
    ensures |s| >= 1 && AllDigits(s)
    ensures s[0] == '0' ==> n == 0
  {
    if n < 10 then [DigitChar(n)] else NatToString(n / 10) + [DigitChar(n % 10)]
  }

  lemma {:induction false} NatToStringRoundTrip(n: nat)
    ensures DecimalValue(NatToString(n)) == n
  {
    if n >= 10 {
      var s := NatToString(n);
      assert s[..|s| - 1] == NatToString(n / 10);
      NatToStringRoundTrip(n / 10);
    }
  }

  /** Kotlin `Int.toString()`: an optional minus sign followed by the canonical digits. */
  function IntToString(n: int): (s: string)
    ensures |s| > 0 && (s[0] == '-' <==> n < 0)
    ensures n >= 0 ==> AllDigits(s)
  {
    if n < 0 then "-" + NatToString(-n) else NatToString(n)
  }

  /** Two ids print alike exactly when they are equal, so comparing printed ids compares ids. */
  lemma IntToStringInjective(a: int, b: int)
    ensures IntToString(a) == IntToString(b) <==> a == b
  {
    if a != b {
      if (a < 0) == (b < 0) {
        var m, n: nat := if a < 0 then -a else a, if b < 0 then -b else b;
        NatToStringRoundTrip(m);
        NatToStringRoundTrip(n);
        assert NatToString(m) != NatToString(n);
        if a < 0 {
          assert IntToString(a)[1..] == NatToString(m);
          assert IntToString(b)[1..] == NatToString(n);
        }
      }
    }
  }

  /** The only string a stored id 23 can be. */
  lemma PrintsTwentyThree()
    ensures IntToString(23) == "23"
  {
    assert NatToString(23) == NatToString(2) + [DigitChar(3)];
  }

  /** Kotlin `Boolean.toString()`. */
  function BooleanToString(b: bool): (s: string)
    ensures s == "true" || s == "false"
    ensures ToBoolean(s) == b
  {
    if b then "true" else "false"
  }

  /** ASCII lower-casing. For the letters of "true" this agrees with Kotlin's Unicode case folding. */
  function LowerAscii(c: char): char
  {
    if 'A' <= c <= 'Z' then (c as int + 32) as char else c
  }

  /** Kotlin `String.toBoolean()`: true exactly when the string equals "true" ignoring case. */
  function ToBoolean(s: string): (b: bool)
    ensures b ==> |s| == 4
  {
    |s| == 4 && LowerAscii(s[0]) == 't' && LowerAscii(s[1]) == 'r'
    && LowerAscii(s[2]) == 'u' && LowerAscii(s[3]) == 'e'
  }

  /** `toBoolean` is lenient about case and answers false for anything that is not "true". */
  lemma ToBooleanExamples()
    ensures ToBoolean("TRUE") && ToBoolean("True")
    ensures !ToBoolean("false") && !ToBoolean("yes") && !ToBoolean("") && !ToBoolean("true ")
  {
  }

  function Zeros(k: nat): (s: string)
    ensures |s| == k && forall i :: 0 <= i < k ==> s[i] == '0'
  {
    if k == 0 then "" else Zeros(k - 1) + "0"
  }

  /** A decimal field zero-padded to at least `width` digits, as a date pattern letter repeated `width` times prints it. */
  function Padded(n: nat, width: nat): (s: string)
    ensures AllDigits(s)
    ensures |s| == if |NatToString(n)| >= width then |NatToString(n)| else width
  {
    var digits := NatToString(n);
    if |digits| >= width then digits else Zeros(width - |digits|) + digits
  }

  lemma {:induction false} LeadingZerosIgnored(k: nat, s: string)
    ensures DecimalValue(Zeros(k) + s) == DecimalValue(s)
    decreases |s|, k
  {
    if s == [] {
      if k > 0 {
        assert Zeros(k) + s == Zeros(k - 1) + "0";
        assert (Zeros(k - 1) + "0")[..k - 1] == Zeros(k - 1);
        LeadingZerosIgnored(k - 1, "");
        assert Zeros(k - 1) + "" == Zeros(k - 1);
      }
    } else {
      var t := Zeros(k) + s;
      assert t[..|t| - 1] == Zeros(k) + s[..|s| - 1];
      LeadingZerosIgnored(k, s[..|s| - 1]);
    }
  }

  lemma PaddedRoundTrip(n: nat, width: nat)
    ensures DecimalValue(Padded(n, width)) == n
  {
    var digits := NatToString(n);
    NatToStringRoundTrip(n);
    if |digits| < width {
      LeadingZerosIgnored(width - |digits|, digits);
    }
  }

  /** Small values fill exactly the requested width. */
  lemma PaddedWidth(n: nat, width: nat)
    requires width >= 1 && n < Power10(width)
    ensures |Padded(n, width)| == width
  {
    NatToStringShort(n, width);
  }

  function Power10(k: nat): (p: nat)
    ensures p >= 1
  {
    if k == 0 then 1 else 10 * Power10(k - 1)
  }

  lemma {:induction false} NatToStringShort(n: nat, width: nat)
    requires width >= 1 && n < Power10(width)
    ensures |NatToString(n)| <= width
  {
    if n >= 10 {
      assert width >= 2;
      assert n / 10 < Power10(width - 1);
      NatToStringShort(n / 10, width - 1);
    }
  }
}
