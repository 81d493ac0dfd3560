/**
 * Byte strings as the firmware sees them: a C string is the bytes before
 * its first NUL.
 */
module Text {
  import opened Bits

  /** The NUL terminator. */
  const Nul: Byte := 0

  /** The characters of a C string: those before the first NUL (all of them if there is none). */
  function CString(s: seq<Byte>): (r: seq<Byte>)
    ensures Nul !in r
    ensures r <= s
    ensures |r| < |s| ==> s[|r|] == Nul
  {
    if s == [] || s[0] == Nul then [] else [s[0]] + CString(s[1..])
  }

  /**
   * A loop that walks `s` up to the first NUL stops at the index where the
   * C string ends: any prefix without a NUL that is followed by a NUL, or
   * by the end, is the C string.
   */
  lemma {:induction false} CStringEndsAtFirstNul(s: seq<Byte>, i: nat)
    requires i <= |s|
    requires Nul !in s[..i]
    requires i == |s| || s[i] == Nul
    ensures CString(s) == s[..i]
    decreases i
  {
    if i == 0 {
    } else {
      assert s[0] == s[..i][0];
      assert s[1..][..i - 1] == s[..i][1..];
      CStringEndsAtFirstNul(s[1..], i - 1);
    }
  }

  /** A string without a NUL, terminated, is its own C string. */
  lemma CStringOfTerminated(t: seq<Byte>)
    requires Nul !in t
    ensures CString(t + [Nul]) == t
  {
    assert (t + [Nul])[..|t|] == t;
    CStringEndsAtFirstNul(t + [Nul], |t|);
  }

  /** The character of a decimal digit. */
  function DigitChar(d: nat): (c: char)
    requires d < 10
    ensures '0' <= c <= '9'
  {
    ('0' as int + d) as char
  }

  /** The value of a decimal digit character. */
  function DigitValue(c: char): (d: nat)
    requires '0' <= c <= '9'
    ensures d < 10
  {
    c as int - '0' as int
  }

  /** Every character is a decimal digit. */
  predicate IsDigits(s: string)
  {
    forall i :: 0 <= i < |s| ==> '0' <= s[i] <= '9'
  }

  /** `n` in decimal, as `%d` / `%u` print it: no sign, no leading zero. */
  function Decimal(n: nat): (s: string)
    ensures |s| >= 1 && IsDigits(s)
    ensures |s| > 1 ==> s[0] != '0'
    ensures n < 10 <==> |s| == 1
    decreases n
  {
    if n < 10 then [DigitChar(n)] else Decimal(n / 10) + [DigitChar(n % 10)]
  }

  /** `n` in decimal padded with zeros to at least two digits, as `%02d` prints it. */
  function Pad2(n: nat): (s: string)
    ensures |s| >= 2 && IsDigits(s)
    ensures n < 100 ==> |s| == 2
  {
    if n < 10 then ['0'] + Decimal(n) else Decimal(n)
  }

  /** The number a string of decimal digits spells. */
  function ParseDecimal(s: string): nat
    requires IsDigits(s)
    decreases |s|
  {
    if s == [] then 0 else ParseDecimal(s[..|s| - 1]) * 10 + DigitValue(s[|s| - 1])
  }

  /** Reading a printed number back gives the number. */
  lemma {:induction false} DecimalRoundTrip(n: nat)
    ensures ParseDecimal(Decimal(n)) == n
    decreases n
  {
    if n >= 10 {
      var s := Decimal(n);
      assert s[..|s| - 1] == Decimal(n / 10);
      DecimalRoundTrip(n / 10);
    }
  }

  /** A leading zero does not change the number a digit string spells. */
  lemma {:induction false} LeadingZero(s: string)
    requires IsDigits(s)
    ensures IsDigits(['0'] + s) && ParseDecimal(['0'] + s) == ParseDecimal(s)
    decreases |s|
  {
    if s != [] {
      assert (['0'] + s)[..|s|] == ['0'] + s[..|s| - 1];
      LeadingZero(s[..|s| - 1]);
    }
  }

  /** Reading a zero-padded number back gives the number. */
  lemma Pad2RoundTrip(n: nat)
    ensures ParseDecimal(Pad2(n)) == n
  {
    DecimalRoundTrip(n);
    if n < 10 {
      LeadingZero(Decimal(n));
    }
  }
}
