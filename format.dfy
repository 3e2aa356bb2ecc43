/** Text rendering of integers as the application formats them: Python's
    str(n) for a non-negative int, the ':03d' zero-padded form used in
    snapshot file names, and ", ".join over a list of names. The decimal
    parser is the inverse that the round-trip lemmas are stated against. */
module Format {

  predicate IsDigit(c: char) {
    '0' <= c <= '9'
  }

  predicate AllDigits(s: string) {
    forall i :: 0 <= i < |s| ==> IsDigit(s[i])
  }

  function DigitChar(d: nat): (c: char)
    requires d < 10
    ensures IsDigit(c)
  {
    ('0' as int + d) as char
  }

  function DigitValue(c: char): nat
    requires IsDigit(c)
  {
    c as int - '0' as int
  }

  /** str(n) for a non-negative integer: the most significant digit first,
      no leading zeros, at least one digit. */
  function DecimalString(n: nat): (s: string)
    ensures |s| >= 1 && AllDigits(s)
    ensures n >= 10 ==> s[0] != '0'
    decreases n
  {
    if n < 10 then [DigitChar(n)] else DecimalString(n / 10) + [DigitChar(n % 10)]
  }

  /** The value of a string of decimal digits (the inverse of DecimalString). */
  function ParseDecimal(s: string): nat
    requires AllDigits(s)
  {
    if s == [] then 0 else ParseDecimal(s[..|s| - 1]) * 10 + DigitValue(s[|s| - 1])
  }

  lemma {:induction false} DecimalRoundTrip(n: nat)
    ensures ParseDecimal(DecimalString(n)) == n
    decreases n
  {
    var s := DecimalString(n);
    if n < 10 {
      assert s[..|s| - 1] == [];
    } else {
      assert s[..|s| - 1] == DecimalString(n / 10);
      DecimalRoundTrip(n / 10);
    }
  }

  /** Different numbers never render to the same text. */
  lemma DecimalInjective(a: nat, b: nat)
    ensures DecimalString(a) == DecimalString(b) ==> a == b
  {
    DecimalRoundTrip(a);
    DecimalRoundTrip(b);
  }

  function Pow10(k: nat): (p: nat)
    ensures p >= 1
  {
    if k == 0 then 1 else 10 * Pow10(k - 1)
  }

  /** The rendering has at most k digits exactly when n is below 10^k. */
  lemma {:induction false} DecimalLength(n: nat, k: nat)
    requires k >= 1
    ensures |DecimalString(n)| <= k <==> n < Pow10(k)
    decreases k
  {
    if k > 1 {
      if n < 10 {
        assert Pow10(k) == 10 * Pow10(k - 1);
      } else {
        DecimalLength(n / 10, k - 1);
        assert n / 10 < Pow10(k - 1) <==> n < 10 * Pow10(k - 1);
      }
    }
  }

  function Zeros(k: nat): (z: string)
    ensures |z| == k && AllDigits(z)
  {
    seq(k, _ => '0')
  }

  /** Left-pad with '0' to at least `width` characters (Python's ':0<width>d'
      applied to the digits of a non-negative number). */
  function ZeroPad(s: string, width: nat): string {
    if |s| >= width then s else Zeros(width - |s|) + s
  }

  /** f"{n:03d}" for a non-negative integer. */
  function Format3(n: nat): string {
    ZeroPad(DecimalString(n), 3)
  }

  lemma {:induction false} LeadingZerosIgnored(k: nat, s: string)
    requires AllDigits(s)
    ensures AllDigits(Zeros(k) + s) && ParseDecimal(Zeros(k) + s) == ParseDecimal(s)
    decreases |s|
  {
    var z := Zeros(k) + s;
    if s == [] {
      assert z == Zeros(k);
      AllZerosParseToZero(k);
    } else {
      assert z[..|z| - 1] == Zeros(k) + s[..|s| - 1];
      LeadingZerosIgnored(k, s[..|s| - 1]);
    }
  }

  lemma {:induction false} AllZerosParseToZero(k: nat)
    ensures ParseDecimal(Zeros(k)) == 0
    decreases k
  {
    if k > 0 {
      assert Zeros(k)[..k - 1] == Zeros(k - 1);
      AllZerosParseToZero(k - 1);
    }
  }

  /** The padded counter still reads back as the counter; it is three
      characters wide exactly while the counter is below 1000 and never
      narrower. */
  lemma Format3RoundTrip(n: nat)
    ensures AllDigits(Format3(n)) && ParseDecimal(Format3(n)) == n
    ensures |Format3(n)| >= 3
    ensures |Format3(n)| == 3 <==> n < 1000
  {
    var s := DecimalString(n);
    DecimalRoundTrip(n);
    DecimalLength(n, 3);
    if |s| < 3 {
      LeadingZerosIgnored(3 - |s|, s);
    }
  }

  lemma Format3Injective(a: nat, b: nat)
    ensures Format3(a) == Format3(b) ==> a == b
  {
    Format3RoundTrip(a);
    Format3RoundTrip(b);
  }

  /** Three consecutive counters starting from zero render as 000, 001, 002. */
  lemma FirstCounters()
    ensures Format3(0) == "000" && Format3(1) == "001" && Format3(2) == "002"
    ensures Format3(1000) == "1000"
  {
    assert DecimalString(0) == "0";
    assert DecimalString(1) == "1";
    assert DecimalString(2) == "2";
    assert Zeros(2) == "00";
    assert DecimalString(1000) == DecimalString(100) + "0";
    assert DecimalString(100) == DecimalString(10) + "0";
    assert DecimalString(10) == "10";
  }

  /** sep.join(xs) */
  function Join(sep: string, xs: seq<string>): string
    decreases |xs|
  {
    if |xs| == 0 then "" else if |xs| == 1 then xs[0] else xs[0] + sep + Join(sep, xs[1..])
  }
}
