/**
 * The client's menu-choice check `UserInterface::isValidRequestNumber`
 * (Client/UserInterface.cpp): `std::stoi` of the input followed by a switch.
 * `exit(0)` on choice 0 is a distinct outcome instead of ending the process.
 */
module UserInterface {
  import opened Wrappers
  import opened Text

  const INT_MIN: int := -0x8000_0000
  const INT_MAX: int := 0x7FFF_FFFF

  /** The case labels of the switch that return true; 153 is among them although the menu never lists it. */
  predicate IsRequestCode(n: int) {
    n == 110 || n == 120 || n == 130 || n == 140 || n == 150 || n == 151 || n == 152 || n == 153
  }

  /** `std::invalid_argument` and `std::out_of_range`, the exceptions `std::stoi` throws. */
  datatype StoiError = InvalidArgument | OutOfRange

  datatype Choice = Valid | Invalid | ExitProgram

  /** `isspace` in the "C" locale. */
  predicate IsSpace(c: char) {
    c == ' ' || c == '\t' || c == '\n' || c == '\r' || c == 11 as char || c == 12 as char
  }

  /** Leading white space, which `strtol` skips. */
  function SkipSpaces(s: string): (r: string)
    ensures |r| <= |s|
    ensures r == [] || !IsSpace(r[0])
  {
    if s != [] && IsSpace(s[0]) then SkipSpaces(s[1..]) else s
  }

  /** `SkipSpaces` keeps a suffix and drops only white space: the longest suffix not opening with white space. */
  lemma {:induction false} SkipSpacesDropsSpaces(s: string)
    ensures SkipSpaces(s) == s[|s| - |SkipSpaces(s)|..]
    ensures forall i | 0 <= i < |s| - |SkipSpaces(s)| :: IsSpace(s[i])
  {
    if s != [] && IsSpace(s[0]) {
      SkipSpacesDropsSpaces(s[1..]);
      assert forall i | 1 <= i < |s| - |SkipSpaces(s)| :: s[i] == s[1..][i - 1];
    }
  }

  /** The longest run of decimal digits at the start of `s`. */
  function DigitPrefix(s: string): (d: string)
    ensures AllDigits(d) && |d| <= |s| && d == s[..|d|]
    ensures |d| < |s| ==> !IsDigit(s[|d|])
  {
    if s != [] && IsDigit(s[0]) then [s[0]] + DigitPrefix(s[1..]) else []
  }

  /**
   * `std::stoi(s)` in base 10: skip white space, read an optional sign and the
   * longest digit prefix; the rest of the string is ignored. No digits is
   * `invalid_argument`, a value outside `int` is `out_of_range`.
   */
  function Stoi(s: string): (r: Result<int, StoiError>)
    ensures r.Success? ==> INT_MIN <= r.value <= INT_MAX
  {
    var t := SkipSpaces(s);
    var negative := t != [] && t[0] == '-';
    var body := if t != [] && (t[0] == '-' || t[0] == '+') then t[1..] else t;
    SignedValue(negative, DigitPrefix(body))
  }

  /** The value of the digits read, with their sign; no digits is `invalid_argument`. */
  function SignedValue(negative: bool, digits: string): (r: Result<int, StoiError>)
    requires AllDigits(digits)
    ensures r.Success? ==> INT_MIN <= r.value <= INT_MAX
  {
    if digits == [] then Failure(InvalidArgument)
    else
      var magnitude: int := DecimalValue(digits);
      var v := if negative then -magnitude else magnitude;
      if v < INT_MIN || v > INT_MAX then Failure(OutOfRange) else Success(v)
  }

  /** `UserInterface::isValidRequestNumber`. */
  function IsValidRequestNumber(input: string): (c: Choice)
    ensures c == Valid <==> Stoi(input).Success? && IsRequestCode(Stoi(input).value)
    ensures c == ExitProgram <==> Stoi(input) == Success(0)
    ensures Stoi(input).Failure? ==> c == Invalid
  {
    var n := Stoi(input);
    if n.Failure? then Invalid
    else if IsRequestCode(n.value) then Valid
    else if n.value == 0 then ExitProgram
    else Invalid
  }

  /** A string of digits is its own digit prefix, whatever non-digit follows it. */
  lemma {:induction false} DigitPrefixOf(digits: string, rest: string)
    requires AllDigits(digits)
    requires rest == [] || !IsDigit(rest[0])
    ensures DigitPrefix(digits + rest) == digits
  {
    if digits != [] {
      assert (digits + rest)[1..] == digits[1..] + rest;
      DigitPrefixOf(digits[1..], rest);
    } else {
      assert digits + rest == rest;
    }
  }

  /**
   * What `std::stoi` reads from an optional '-' and a run of digits followed by
   * anything that is not a digit: exactly those digits, with that sign.
   */
  lemma {:induction false} StoiReads(negative: bool, digits: string, rest: string)
    requires digits != [] && AllDigits(digits)
    requires rest == [] || !IsDigit(rest[0])
    ensures Stoi((if negative then "-" else "") + digits + rest) == SignedValue(negative, digits)
  {
    var s := (if negative then "-" else "") + digits + rest;
    var body := digits + rest;
    assert IsDigit(digits[0]) && body[0] == digits[0];
    if negative {
      assert s == "-" + body && s[1..] == body;
    } else {
      assert s == body;
    }
    assert SkipSpaces(s) == s;
    DigitPrefixOf(digits, rest);
  }

  /** Only the leading number counts: what follows the digits is ignored. */
  lemma NumericPrefixDecides(digits: string, rest: string)
    requires digits != [] && AllDigits(digits)
    requires rest == [] || !IsDigit(rest[0])
    ensures Stoi(digits + rest) == Stoi(digits)
  {
    StoiReads(false, digits, rest);
    StoiReads(false, digits, []);
    assert "" + digits + rest == digits + rest;
    assert "" + digits + [] == digits;
  }

  /** Every `int` printed in decimal is read back by `std::stoi`. */
  lemma StoiRoundTrip(n: int)
    requires INT_MIN <= n <= INT_MAX
    ensures Stoi(IntToString(n)) == Success(n)
  {
    var digits := NatToString(if n < 0 then -n else n);
    StoiReads(n < 0, digits, []);
    assert IntToString(n) == (if n < 0 then "-" else "") + digits + [];
  }

  /** A choice is accepted when its leading number is a request code, whatever text follows the digits. */
  lemma AcceptedWithTrailingText(code: int, rest: string)
    requires IsRequestCode(code)
    requires rest == [] || !IsDigit(rest[0])
    ensures IsValidRequestNumber(NatToString(code) + rest) == Valid
  {
    var digits := NatToString(code);
    NumericPrefixDecides(digits, rest);
    StoiRoundTrip(code);
    assert IntToString(code) == digits;
    assert Stoi(digits + rest) == Success(code);
  }

  /** "151abc" is accepted: `std::stoi` stops at the first non-digit. */
  lemma TrailingTextAccepted()
    ensures IsValidRequestNumber("151abc") == Valid
  {
    assert NatToString(151) == "151";
    assert "151" + "abc" == "151abc";
    AcceptedWithTrailingText(151, "abc");
  }

  /** 153 is accepted although the menu never offers it. */
  lemma UnlistedCodeAccepted()
    ensures IsValidRequestNumber("153") == Valid
  {
    assert NatToString(153) == "153";
    assert "153" + [] == "153";
    AcceptedWithTrailingText(153, []);
  }

  /** "0" and "-0" both ask to exit. */
  lemma ZeroExits()
    ensures IsValidRequestNumber("0") == ExitProgram
    ensures IsValidRequestNumber("-0") == ExitProgram
  {
    StoiReads(false, "0", []);
    StoiReads(true, "0", []);
    assert "" + "0" + [] == "0";
    assert "-" + "0" + [] == "-0";
  }

  /** Text without a leading number is rejected. */
  lemma NonNumericRejected()
    ensures IsValidRequestNumber("abc") == Invalid
    ensures IsValidRequestNumber("+") == Invalid
  {
    assert SkipSpaces("abc") == "abc" && DigitPrefix("abc") == [];
    assert SkipSpaces("+") == "+" && "+"[1..] == [];
  }

  /** A number outside the switch is rejected. */
  lemma UnknownCodeRejected()
    ensures IsValidRequestNumber("100") == Invalid
  {
    StoiReads(false, "100", []);
    assert "" + "100" + [] == "100";
    assert "100"[..2] == "10" && "10"[..1] == "1" && "1"[..0] == [];
    assert DecimalValue("100") == 100;
  }
}
