/**
 * Character classes and decimal rendering shared by the OTP endpoint, the
 * verification pages and the form schemas.  Strings are JavaScript strings
 * seen as sequences of characters.
 */
module Text {

  /** `\d` in an ECMAScript regular expression without the `u` flag: ASCII digits only. */
  predicate IsDigit(c: char) {
    '0' <= c <= '9'
  }

  predicate AllDigits(s: string) {
    forall i :: 0 <= i < |s| ==> IsDigit(s[i])
  }

  /**
   * `\s` in an ECMAScript regular expression: the WhiteSpace code points
   * (TAB, VT, FF, SP, NBSP, ZWNBSP and the Unicode space separators) and the
   * LineTerminator code points (LF, CR, LS, PS).
   */
  predicate IsJsSpace(c: char) {
    c == '\t' || c == '\n' || c == '\U{B}' || c == '\U{C}' || c == '\r' || c == ' '
    || c == '\U{A0}' || c == '\U{1680}' || ('\U{2000}' <= c <= '\U{200A}')
    || c == '\U{2028}' || c == '\U{2029}' || c == '\U{202F}' || c == '\U{205F}'
    || c == '\U{3000}' || c == '\U{FEFF}'
  }

  /** The characters that `.` in an ECMAScript regular expression does not match. */
  predicate IsLineTerminator(c: char) {
    c == '\n' || c == '\r' || c == '\U{2028}' || c == '\U{2029}'
  }

  predicate IsLower(c: char) { 'a' <= c <= 'z' }

  predicate IsUpper(c: char) { 'A' <= c <= 'Z' }

  function DigitChar(d: nat): (c: char)
    requires d < 10
    ensures IsDigit(c)
  {
    ('0' as int + d) as char
  }

  function DigitValue(c: char): (d: nat)
    requires IsDigit(c)
    ensures d < 10 && DigitChar(d) == c
  {
    c as int - '0' as int
  }

  /** `n.toString()` for a non-negative integer: its decimal digits, no leading zero. */
  function NatToDecimal(n: nat): (s: string)
    ensures |s| >= 1 && AllDigits(s)
    decreases n
  {
    if n < 10 then [DigitChar(n)] else NatToDecimal(n / 10) + [DigitChar(n % 10)]
  }

  /** The number a string of decimal digits denotes (leading zeros allowed). */
  function DecimalValue(s: string): nat
    requires AllDigits(s)
    decreases |s|
  {
    if s == [] then 0 else 10 * DecimalValue(s[..|s| - 1]) + DigitValue(s[|s| - 1])
  }

  function Pow10(k: nat): (p: nat)
    ensures p >= 1
  {
    if k == 0 then 1 else 10 * Pow10(k - 1)
  }

  lemma Pow10Six()
    ensures Pow10(5) == 100000 && Pow10(6) == 1000000
  {
    assert Pow10(1) == 10;
    assert Pow10(2) == 100;
    assert Pow10(3) == 1000;
    assert Pow10(4) == 10000;
  }

  /** Reading back what `NatToDecimal` wrote gives the number again. */
  lemma {:induction false} DecimalRoundTrip(n: nat)
    ensures DecimalValue(NatToDecimal(n)) == n
    decreases n
  {
    if n >= 10 {
      var s := NatToDecimal(n);
      DecimalRoundTrip(n / 10);
      assert s[..|s| - 1] == NatToDecimal(n / 10);
    }
  }

  /** The rendering has no leading zero unless it is the single digit "0". */
  lemma {:induction false} DecimalNoLeadingZero(n: nat)
    ensures NatToDecimal(n)[0] == '0' <==> n == 0
    decreases n
  {
    if n >= 10 {
      DecimalNoLeadingZero(n / 10);
    }
  }

  /** A number with exactly k digits is rendered with exactly k characters. */
  lemma {:induction false} DecimalLength(n: nat, k: nat)
    requires 1 <= k && (k == 1 || Pow10(k - 1) <= n) && n < Pow10(k)
    ensures |NatToDecimal(n)| == k
    decreases k
  {
    if k > 1 {
      var p := Pow10(k - 2);
      assert Pow10(k - 1) == 10 * p;
      assert 10 * p <= n < 100 * p;
      DivBounds(n, p);
      DecimalLength(n / 10, k - 1);
    }
  }

  lemma DivBounds(n: nat, p: nat)
    requires p >= 1 && 10 * p <= n < 100 * p
    ensures p <= n / 10 < 10 * p && n >= 10
  {
  }

  /** A digit string is rendered back unchanged when it has no leading zero. */
  lemma {:induction false} DecimalCanonical(s: string)
    requires AllDigits(s) && |s| >= 1 && (|s| == 1 || s[0] != '0')
    ensures NatToDecimal(DecimalValue(s)) == s
    decreases |s|
  {
    var init := s[..|s| - 1];
    var v := DecimalValue(s);
    if |s| == 1 {
      assert init == [] && DecimalValue(init) == 0;
      assert v == DigitValue(s[0]);
    } else {
      assert init[0] == s[0];
      DecimalCanonical(init);
      DecimalNoLeadingZero(DecimalValue(init));
      assert DecimalValue(init) != 0;
      assert v / 10 == DecimalValue(init) && v % 10 == DigitValue(s[|s| - 1]);
      assert NatToDecimal(v) == init + [s[|s| - 1]];
    }
  }
}
