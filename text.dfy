/**
 * How the platform turns numbers into text: Python's `str()` of a
 * non-negative int and of a Decimal with two fraction digits (the form every
 * money amount takes once it has been stored), list joining and ASCII
 * lower-casing. Each formatter comes with the parser that inverts it.
 */
module Text {

  predicate IsDigit(c: char) {
    '0' <= c <= '9'
  }

  predicate AllDigits(s: string) {
    forall i :: 0 <= i < |s| ==> IsDigit(s[i])
  }

  function DigitChar(d: nat): (c: char)
    requires d < 10
    ensures IsDigit(c) && c as int - '0' as int == d
  {
    ('0' as int + d) as char
  }

  /** `str(n)` for an int n >= 0: its decimal digits, without leading zeros. */
  function NatToString(n: nat): (s: string)
    ensures |s| >= 1 && AllDigits(s)
    ensures (s[0] == '0') == (n == 0)
  {
    if n < 10 then [DigitChar(n)] else NatToString(n / 10) + [DigitChar(n % 10)]
  }

  /** The number a string of decimal digits denotes (the inverse of NatToString). */
  function DigitsValue(s: string): nat
    requires AllDigits(s)
  {
    if s == [] then 0 else DigitsValue(s[..|s| - 1]) * 10 + (s[|s| - 1] as int - '0' as int)
  }

  lemma {:induction false} NatToStringRoundTrip(n: nat)
    ensures DigitsValue(NatToString(n)) == n
  {
    var s := NatToString(n);
    if n < 10 {
      assert s[..|s| - 1] == [];
    } else {
      assert s[..|s| - 1] == NatToString(n / 10);
      NatToStringRoundTrip(n / 10);
    }
  }

  /** Distinct numbers print differently. */
  lemma NatToStringInjective(a: nat, b: nat)
    requires NatToString(a) == NatToString(b)
    ensures a == b
  {
    NatToStringRoundTrip(a);
    NatToStringRoundTrip(b);
  }

  /**
   * `str(d)` for a Decimal d >= 0 with exactly two fraction digits, given as
   * its count of cents: the integer part, a point, then two digits.
   */
  function FormatCents(cents: nat): (s: string)
    ensures |s| >= 4 && s[|s| - 3] == '.' && CentsShaped(s)
  {
    var s := NatToString(cents / 100) + "." + [DigitChar(cents % 100 / 10), DigitChar(cents % 10)];
    assert s[..|s| - 3] == NatToString(cents / 100);
    s
  }

  /** The shape FormatCents produces: digits, one more character, two digits. */
  predicate CentsShaped(s: string) {
    |s| >= 3 && AllDigits(s[..|s| - 3]) && AllDigits(s[|s| - 2..])
  }

  /** The only amount printed with a leading zero is one below 1, and its zero is followed by the point. */
  lemma FormatCentsLead(cents: nat)
    ensures FormatCents(cents)[0] != '0' || FormatCents(cents)[1] == '.'
  {
    var hi := NatToString(cents / 100);
    assert FormatCents(cents) == hi + ("." + [DigitChar(cents % 100 / 10), DigitChar(cents % 10)]);
    if hi[0] == '0' {
      assert hi == "0";
    }
  }

  /** Reads back a string of the shape FormatCents produces, as cents. */
  function ParseCents(s: string): nat
    requires CentsShaped(s)
  {
    DigitsValue(s[..|s| - 3]) * 100 + DigitsValue(s[|s| - 2..])
  }

  lemma FormatCentsRoundTrip(cents: nat)
    ensures ParseCents(FormatCents(cents)) == cents
  {
    var s := FormatCents(cents);
    var hi, d1, d0 := NatToString(cents / 100), DigitChar(cents % 100 / 10), DigitChar(cents % 10);
    assert s[..|s| - 3] == hi;
    assert s[|s| - 2..] == [d1, d0];
    assert [d1, d0][..1] == [d1];
    assert [d1][..0] == [];
    assert DigitsValue([d1]) == cents % 100 / 10;
    assert DigitsValue([d1, d0]) == (cents % 100 / 10) * 10 + cents % 10;
    NatToStringRoundTrip(cents / 100);
  }

  /** `str(d)` for any Decimal with two fraction digits, given as cents. */
  function FormatAmount(cents: int): (s: string)
    ensures |s| >= 4
  {
    if cents < 0 then "-" + FormatCents(-cents) else FormatCents(cents)
  }

  /** In a run of digits closed by a non-digit, exactly the run's positions hold digits. */
  lemma DigitRunAt(a: string, x: char, r: string, k: nat)
    requires AllDigits(a) && !IsDigit(x) && k <= |a|
    ensures IsDigit((a + [x] + r)[k]) == (k < |a|)
  {
  }

  /**
   * Two strings that each start with a run of digits closed by a non-digit
   * agree on that run and on the closing character.
   */
  lemma DigitRunPrefix(a: string, x: char, r1: string, b: string, y: char, r2: string)
    requires AllDigits(a) && AllDigits(b) && !IsDigit(x) && !IsDigit(y)
    requires a + [x] + r1 == b + [y] + r2
    ensures a == b && x == y && r1 == r2
  {
    var s := a + [x] + r1;
    var k := if |a| < |b| then |a| else |b|;
    DigitRunAt(a, x, r1, k);
    DigitRunAt(b, y, r2, k);
    assert |a| == |b|;
    assert a == s[..|a|] == b;
    assert x == s[|a|] == y;
    assert r1 == s[|a| + 1..] == r2;
  }

  /** `sep.join(parts)`. */
  function Join(parts: seq<string>, sep: string): string {
    if |parts| == 0 then ""
    else if |parts| == 1 then parts[0]
    else parts[0] + sep + Join(parts[1..], sep)
  }

  function LowerChar(c: char): (l: char)
    ensures !('A' <= l <= 'Z')
  {
    if 'A' <= c <= 'Z' then (c as int - 'A' as int + 'a' as int) as char else c
  }

  /** `s.lower()` on the ASCII letters a currency code is made of. */
  function Lower(s: string): (l: string)
    ensures |l| == |s|
    ensures forall i :: 0 <= i < |s| ==> l[i] == LowerChar(s[i])
  {
    seq(|s|, i requires 0 <= i < |s| => LowerChar(s[i]))
  }
}
