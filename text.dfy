/**
 * Character and string helpers shared by the parsers and the loggers:
 * ASCII decimal digits, decimal rendering of integers, runs of spaces and
 * the first occurrence of a character (`str.find` / `std::string::find`).
 */
module Text {

  predicate IsDigit(c: char) {
    '0' <= c <= '9'
  }

  predicate AllDigits(s: string) {
    forall i | 0 <= i < |s| :: IsDigit(s[i])
  }

  function DigitValue(c: char): (d: nat)
    requires IsDigit(c)
    ensures d < 10
  {
    c as int - '0' as int
  }

  function DigitChar(d: nat): (c: char)
    requires d < 10
    ensures IsDigit(c) && DigitValue(c) == d
  {
    ('0' as int + d) as char
  }

  function Pow10(n: nat): (p: nat)
    ensures p >= 1
  {
    if n == 0 then 1 else 10 * Pow10(n - 1)
  }

  /** The value of a string of decimal digits, leading zeros allowed (`int(s)`, `std::stoi`). */
  function DecimalValue(s: string): (v: nat)
    requires AllDigits(s)
    ensures v < Pow10(|s|)
  {
    if s == [] then 0 else DecimalValue(s[..|s| - 1]) * 10 + DigitValue(s[|s| - 1])
  }

  /** The last `n` decimal digits of `v`, zero-padded on the left. */
  function PaddedDigits(v: nat, n: nat): (s: string)
    ensures |s| == n && AllDigits(s)
  {
    if n == 0 then [] else PaddedDigits(v / 10, n - 1) + [DigitChar(v % 10)]
  }

  /** A value with at most `n` digits survives rendering with `n` digits and reading back. */
  lemma {:induction false} PaddedDigitsValue(v: nat, n: nat)
    requires v < Pow10(n)
    ensures DecimalValue(PaddedDigits(v, n)) == v
  {
    if n > 0 {
      var s := PaddedDigits(v, n);
      PaddedDigitsValue(v / 10, n - 1);
      assert s[..n - 1] == PaddedDigits(v / 10, n - 1);
    }
  }

  /** Any digit string is the `|s|`-digit rendering of its own value. */
  lemma {:induction false} DigitsArePadded(s: string)
    requires AllDigits(s)
    ensures PaddedDigits(DecimalValue(s), |s|) == s
  {
    if s != [] {
      var p := s[..|s| - 1];
      var c := s[|s| - 1];
      var q, d := DecimalValue(p), DigitValue(c);
      var v := DecimalValue(s);
      assert v == q * 10 + d;
      LastDigit(q, d);
      calc {
        PaddedDigits(v, |s|);
        PaddedDigits(v / 10, |s| - 1) + [DigitChar(v % 10)];
        PaddedDigits(q, |p|) + [DigitChar(d)];
        { DigitsArePadded(p); }
        p + [DigitChar(d)];
        { assert DigitChar(d) == c; }
        p + [c];
      }
      assert p + [c] == s;
    }
  }

  /** Appending decimal digit `d` to `q` is undone by `/ 10` and `% 10`. */
  lemma LastDigit(q: nat, d: nat)
    requires d < 10
    ensures (q * 10 + d) / 10 == q && (q * 10 + d) % 10 == d
  {
  }

  /** The shortest decimal rendering of `n` (`str(n)`, `operator<<` on an int). */
  function NatToString(n: nat): (s: string)
    ensures |s| >= 1 && AllDigits(s)
    ensures DecimalValue(s) == n
    ensures |s| > 1 ==> s[0] != '0'
  {
    if n < 10 then [DigitChar(n)]
    else
      var s := NatToString(n / 10) + [DigitChar(n % 10)];
      assert s[..|s| - 1] == NatToString(n / 10);
      s
  }

  /** Decimal rendering of a possibly negative integer, with a leading `-`. */
  function IntToString(n: int): (s: string)
    ensures |s| >= 1
    ensures n >= 0 <==> s[0] != '-'
  {
    if n < 0 then "-" + NatToString(-n) else NatToString(n)
  }

  /** `n` spaces (`" " * n`, `std::string(n, ' ')`). */
  function Spaces(n: nat): (s: string)
    ensures |s| == n
    ensures forall i | 0 <= i < n :: s[i] == ' '
  {
    seq(n, _ => ' ')
  }

  /** Index of the first `c` in `s`, or `|s|` when there is none. */
  function IndexOf(s: string, c: char): (k: nat)
    ensures k <= |s|
    ensures k < |s| ==> s[k] == c
    ensures forall j | 0 <= j < k :: s[j] != c
  {
    if s == [] then 0
    else if s[0] == c then 0
    else 1 + IndexOf(s[1..], c)
  }

  /** The three postconditions of IndexOf determine its result. */
  lemma IndexOfUnique(s: string, c: char, k: nat)
    requires k <= |s|
    requires k < |s| ==> s[k] == c
    requires forall j | 0 <= j < k :: s[j] != c
    ensures IndexOf(s, c) == k
  {
  }
}
