/**
 * Go's `strconv.Atoi`, as both chaincodes use it to read the `maxVotes`
 * argument, on a platform whose `int` is 64 bits wide.
 *
 * `Atoi` accepts an optional `+` or `-` sign followed by one or more decimal
 * digits (no blanks, no underscores, no other base) and fails with
 * `ErrSyntax` on anything else; a well-formed number outside the range of a
 * 64-bit `int` fails with `ErrRange`. Go reads long inputs digit by digit
 * and reports `ErrRange` as soon as the digits read so far exceed the
 * largest unsigned 64-bit value, before it reaches any later character
 * that is not a digit; the model does the same. `Itoa` (Go's
 * `strconv.Itoa`) is its partner: the two round-trip on every 64-bit
 * integer.
 */
module Strconv {

  const MIN_INT: int := -0x8000_0000_0000_0000
  const MAX_INT: int := 0x7FFF_FFFF_FFFF_FFFF
  const MAX_UINT: int := 0xFFFF_FFFF_FFFF_FFFF

  /** The two kinds of `*strconv.NumError` that `Atoi` can return. */
  datatype NumError = ErrSyntax | ErrRange

  datatype AtoiResult = Ok(value: int) | Err(error: NumError)

  predicate IsDigit(c: char) {
    '0' <= c <= '9'
  }

  predicate IsSign(c: char) {
    c == '+' || c == '-'
  }

  predicate AllDigits(s: string) {
    forall i :: 0 <= i < |s| ==> IsDigit(s[i])
  }

  function DigitValue(c: char): (d: nat)
    requires IsDigit(c)
    ensures d < 10
  {
    (c as int) - ('0' as int)
  }

  function DigitChar(d: nat): (c: char)
    requires d < 10
    ensures IsDigit(c) && DigitValue(c) == d
  {
    ('0' as int + d) as char
  }

  /** The value of a string of decimal digits, most significant digit first. */
  function DigitsValue(s: string): nat
    requires AllDigits(s)
  {
    if |s| == 0 then 0 else 10 * DigitsValue(s[..|s| - 1]) + DigitValue(s[|s| - 1])
  }

  /** The part of `s` after its sign, if it has one. */
  function Unsigned(s: string): string {
    if |s| > 0 && IsSign(s[0]) then s[1..] else s
  }

  /** The longest prefix of `s` made of digits. */
  function LeadingDigits(s: string): (d: string)
    ensures AllDigits(d) && d <= s
    ensures |d| < |s| ==> !IsDigit(s[|d|])
  {
    if |s| == 0 || !IsDigit(s[0]) then "" else [s[0]] + LeadingDigits(s[1..])
  }

  /** An optional sign followed by one or more digits. */
  predicate WellFormed(s: string) {
    |Unsigned(s)| > 0 && AllDigits(Unsigned(s))
  }

  /** The integer a well-formed string denotes, whatever its size. */
  function SignedValue(s: string): int
    requires WellFormed(s)
  {
    var magnitude: int := DigitsValue(Unsigned(s));
    if s[0] == '-' then -magnitude else magnitude
  }

  function Atoi(s: string): (r: AtoiResult)
    ensures r.Ok? ==> MIN_INT <= r.value <= MAX_INT
    ensures r.Ok? ==> |Unsigned(s)| > 0 && AllDigits(Unsigned(s))
    ensures r.Ok? && (|s| == 0 || s[0] != '-') ==> r.value >= 0
  {
    var digits := Unsigned(s);
    if DigitsValue(LeadingDigits(digits)) > MAX_UINT then Err(ErrRange)
    else if |digits| == 0 || !AllDigits(digits) then Err(ErrSyntax)
    else
      var magnitude: int := DigitsValue(digits);
      var v := if s[0] == '-' then -magnitude else magnitude;
      if MIN_INT <= v <= MAX_INT then Ok(v) else Err(ErrRange)
  }

  /** The decimal digits of `n`, without leading zeros. */
  function NatDigits(n: nat): (s: string)
    ensures |s| > 0 && AllDigits(s)
    ensures s[0] == '0' ==> n == 0
  {
    if n < 10 then [DigitChar(n)] else NatDigits(n / 10) + [DigitChar(n % 10)]
  }

  function Itoa(n: int): string {
    if n < 0 then "-" + NatDigits(-n) else NatDigits(n)
  }

  lemma {:induction false} NatDigitsValue(n: nat)
    ensures DigitsValue(NatDigits(n)) == n
  {
    if n >= 10 {
      var s := NatDigits(n);
      assert s[..|s| - 1] == NatDigits(n / 10);
      NatDigitsValue(n / 10);
    }
  }

  /** Every 64-bit integer survives formatting and parsing back. */
  lemma AtoiItoa(n: int)
    requires MIN_INT <= n <= MAX_INT
    ensures Atoi(Itoa(n)) == Ok(n)
  {
    var s := Itoa(n);
    if n < 0 {
      assert Unsigned(s) == NatDigits(-n);
      NatDigitsValue(-n);
    } else {
      assert Unsigned(s) == NatDigits(n);
      NatDigitsValue(n);
    }
    assert WellFormed(s) && SignedValue(s) == n;
    AtoiAccepts(s);
  }

  lemma {:induction false} LeadingZeroValue(s: string)
    requires AllDigits(s)
    ensures AllDigits("0" + s) && DigitsValue("0" + s) == DigitsValue(s)
  {
    if |s| > 0 {
      var t := "0" + s;
      assert t[..|t| - 1] == "0" + s[..|s| - 1];
      LeadingZeroValue(s[..|s| - 1]);
    }
  }

  /**
   * Leading zeros are accepted and ignored, so `Atoi` is not injective:
   * "7", "07" and "007" all give 7.
   */
  lemma AtoiLeadingZero(digits: string)
    requires |digits| > 0 && AllDigits(digits)
    ensures Atoi("0" + digits) == Atoi(digits)
  {
    LeadingZeroValue(digits);
    LeadingDigitsOfDigits("0" + digits);
    LeadingDigitsOfDigits(digits);
  }

  /** A string of digits is its own longest digit prefix. */
  lemma {:induction false} LeadingDigitsOfDigits(s: string)
    requires AllDigits(s)
    ensures LeadingDigits(s) == s
  {
    if |s| > 0 {
      LeadingDigitsOfDigits(s[1..]);
      assert [s[0]] + s[1..] == s;
    }
  }

  /**
   * Every input is pinned down: `Atoi` succeeds exactly on the well-formed
   * strings whose value fits in 64 bits, returns that value, and refuses a
   * well-formed string outside the range as out of range.
   */
  lemma AtoiAccepts(s: string)
    ensures Atoi(s).Ok? <==> WellFormed(s) && MIN_INT <= SignedValue(s) <= MAX_INT
    ensures Atoi(s).Ok? ==> Atoi(s).value == SignedValue(s)
    ensures WellFormed(s) && !(MIN_INT <= SignedValue(s) <= MAX_INT) ==> Atoi(s) == Err(ErrRange)
  {
    if WellFormed(s) {
      LeadingDigitsOfDigits(Unsigned(s));
    }
  }

  /** A leading `+` changes nothing. */
  lemma AtoiPlusSign(rest: string)
    requires |rest| == 0 || !IsSign(rest[0])
    ensures Atoi("+" + rest) == Atoi(rest)
  {
    assert Unsigned("+" + rest) == rest;
  }

  /** Zeros after a `-` change nothing either: "-007" gives -7. */
  lemma AtoiNegativeLeadingZero(digits: string)
    requires |digits| > 0 && AllDigits(digits)
    ensures Atoi("-0" + digits) == Atoi("-" + digits)
  {
    assert Unsigned("-0" + digits) == "0" + digits;
    assert Unsigned("-" + digits) == digits;
    LeadingZeroValue(digits);
    LeadingDigitsOfDigits("0" + digits);
    LeadingDigitsOfDigits(digits);
  }

  /**
   * A string that has a character other than a digit after its sign is
   * refused as malformed, unless the digits before the first such character
   * already exceed the largest unsigned 64-bit value.
   */
  lemma AtoiRejectsNonDigit(s: string, i: nat)
    requires i < |s| && !IsDigit(s[i])
    requires i > 0 || !IsSign(s[0])
    requires DigitsValue(LeadingDigits(Unsigned(s))) <= MAX_UINT
    ensures Atoi(s) == Err(ErrSyntax)
  {
    var digits := Unsigned(s);
    if IsSign(s[0]) {
      assert digits[i - 1] == s[i];
    } else {
      assert digits[i] == s[i];
    }
  }

  /** A bare sign, and the empty string, are refused. */
  lemma AtoiRejectsEmptyNumber(s: string)
    requires s == "" || s == "+" || s == "-"
    ensures Atoi(s) == Err(ErrSyntax)
  {
  }

  /** Some inputs `Atoi` accepts; a negative `maxVotes` is a number like any other. */
  lemma AtoiExamples()
    ensures Atoi("5") == Ok(5)
    ensures Atoi("-1") == Ok(-1)
    ensures Atoi("+7") == Ok(7)
  {
    assert Unsigned("-1") == "1" && Unsigned("+7") == "7";
    assert "5"[..0] == "" && "1"[..0] == "" && "7"[..0] == "";
    LeadingDigitsOfDigits("5");
    LeadingDigitsOfDigits("1");
    LeadingDigitsOfDigits("7");
  }

  /** Some inputs `Atoi` refuses: no underscores, no blanks. */
  lemma AtoiRejectedExamples()
    ensures Atoi("1_0") == Err(ErrSyntax)
    ensures Atoi(" 1") == Err(ErrSyntax)
  {
    assert LeadingDigits("_0") == "";
    assert LeadingDigits("1_0") == "1";
    assert "1"[..0] == "";
    AtoiRejectsNonDigit("1_0", 1);
    AtoiRejectsNonDigit(" 1", 0);
  }

  /** An unsigned digit string whose value exceeds `MAX_INT` is refused as out of range, not as malformed. */
  lemma AtoiRejectsOutOfRange(s: string)
    requires |s| > 0 && AllDigits(s) && DigitsValue(s) > MAX_INT
    ensures Atoi(s) == Err(ErrRange)
  {
    LeadingDigitsOfDigits(s);
  }

  /**
   * Digits whose value exceeds the largest unsigned 64-bit value give
   * `ErrRange` whatever follows them, "18446744073709551616x" included.
   */
  lemma AtoiOverflowFirst(digits: string, rest: string)
    requires AllDigits(digits) && DigitsValue(digits) > MAX_UINT
    requires |rest| == 0 || !IsDigit(rest[0])
    ensures Atoi(digits + rest) == Err(ErrRange)
  {
    var s := digits + rest;
    assert |digits| > 0;
    assert Unsigned(s) == s;
    LeadingDigitsAppend(digits, rest);
  }

  lemma {:induction false} LeadingDigitsAppend(digits: string, rest: string)
    requires AllDigits(digits)
    requires |rest| == 0 || !IsDigit(rest[0])
    ensures LeadingDigits(digits + rest) == digits
  {
    if |digits| > 0 {
      assert (digits + rest)[1..] == digits[1..] + rest;
      LeadingDigitsAppend(digits[1..], rest);
      assert [digits[0]] + digits[1..] == digits;
    } else {
      assert digits + rest == rest;
    }
  }
}
