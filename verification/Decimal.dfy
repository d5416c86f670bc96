/**
 Decimal numbers as Go prints and reads them: fmt's %d / strconv.Itoa, and
 strconv.Atoi on a 64-bit platform with its two kinds of error.
 */
module Decimal {

  const MAX_INT := 0x7FFF_FFFF_FFFF_FFFF
  const MIN_INT := -0x8000_0000_0000_0000
  const MAX_UINT := 0xFFFF_FFFF_FFFF_FFFF

  function DigitChar(d: nat): char
    requires d < 10
  {
    '0' + d as char
  }

  predicate IsDigit(c: char) {
    '0' <= c <= '9'
  }

  function DigitValue(c: char): nat
    requires IsDigit(c)
  {
    (c - '0') as nat
  }

  function Digits(n: nat): (s: string)
    ensures s != [] && forall i :: 0 <= i < |s| ==> IsDigit(s[i])
  {
    if n < 10 then [DigitChar(n)] else Digits(n / 10) + [DigitChar(n % 10)]
  }

  function Itoa(n: int): string {
    if n < 0 then "-" + Digits(-n) else Digits(n)
  }

  // ---------------------------------------------------------------- reading

  datatype Scan = Fits(n: nat) | NotANumber | Overflow

  /** strconv.ParseUint, base 10: digits left to right; an overflow is reported
      before any later character is looked at. */
  function ScanUint(s: string, n: nat): Scan
    decreases |s|
  {
    if s == [] then Fits(n)
    else if !IsDigit(s[0]) then NotANumber
    else
      var n' := n * 10 + DigitValue(s[0]);
      if n' > MAX_UINT then Overflow else ScanUint(s[1..], n')
  }

  /** A number, a syntax error (which yields 0), or a range error (which yields
      the nearest representable number). */
  datatype Parsed = Number(n: int) | SyntaxError | RangeError(clamped: int) {
    /** What Go returns beside the error. */
    function Value(): int {
      match this
      case Number(n) => n
      case SyntaxError => 0
      case RangeError(c) => c
    }
  }

  function Atoi(s: string): Parsed {
    if s == [] then SyntaxError
    else
      var neg := s[0] == '-';
      var digits := if neg || s[0] == '+' then s[1..] else s;
      if digits == [] then SyntaxError
      else match ScanUint(digits, 0)
        case NotANumber => SyntaxError
        case Overflow => RangeError(if neg then MIN_INT else MAX_INT)
        case Fits(u) =>
          var n: int := u;
          if !neg && n > MAX_INT then RangeError(MAX_INT)
          else if neg && n > -MIN_INT then RangeError(MIN_INT)
          else Number(if neg then -n else n)
  }

  // ---------------------------------------------------------------- round trip

  lemma {:induction false} ScanSplit(a: string, b: string, n: nat)
    ensures ScanUint(a + b, n) == match ScanUint(a, n) case Fits(m) => ScanUint(b, m) case r => r
    decreases |a|
  {
    if a == [] {
      assert a + b == b;
    } else {
      assert (a + b)[1..] == a[1..] + b;
      if IsDigit(a[0]) {
        ScanSplit(a[1..], b, n * 10 + DigitValue(a[0]));
      }
    }
  }

  predicate AllDigits(s: string) {
    forall i :: 0 <= i < |s| ==> IsDigit(s[i])
  }

  /** The number a string of digits stands for: ten times the number before the last
      digit, plus that digit. */
  function Decimals(s: string): nat
    requires AllDigits(s)
    decreases |s|
  {
    if s == [] then 0 else Decimals(s[..|s| - 1]) * 10 + (s[|s| - 1] as int - '0' as int)
  }

  lemma {:induction false} ScanIsDecimals(s: string)
    requires AllDigits(s)
    ensures ScanUint(s, 0) == if Decimals(s) <= MAX_UINT then Fits(Decimals(s)) else Overflow
    decreases |s|
  {
    if s != [] {
      var front, last := s[..|s| - 1], [s[|s| - 1]];
      assert s == front + last;
      ScanIsDecimals(front);
      ScanSplit(front, last, 0);
      if Decimals(front) <= MAX_UINT {
        var n := Decimals(front) * 10 + DigitValue(last[0]);
        assert ScanUint(last, Decimals(front)) == if n > MAX_UINT then Overflow else ScanUint([], n);
      }
    }
  }

  lemma {:induction false} ScanNeedsDigits(s: string, n: nat)
    ensures ScanUint(s, n).Fits? ==> AllDigits(s)
    decreases |s|
  {
    if s != [] && IsDigit(s[0]) {
      ScanNeedsDigits(s[1..], n * 10 + DigitValue(s[0]));
      assert forall i :: 0 < i < |s| ==> s[i] == s[1..][i - 1];
    }
  }

  /** The nearest 64-bit number, with an error when it is not the number itself. */
  function Clamp(n: int): Parsed {
    if n < -9223372036854775808 then RangeError(-9223372036854775808)
    else if n > 9223372036854775807 then RangeError(9223372036854775807)
    else Number(n)
  }

  /** An optional sign and one or more digits are read as the number they stand for, or
      clamped to 64 bits. */
  lemma AtoiReads(s: string)
    requires s != [] && AllDigits(s)
    ensures Atoi(s) == Atoi("+" + s) == Clamp(Decimals(s))
    ensures Atoi("-" + s) == Clamp(0 - Decimals(s))
  {
    ScanIsDecimals(s);
    assert ("+" + s)[1..] == s && ("-" + s)[1..] == s;
  }

  /** Digits followed by something else are a syntax error, unless they overflow 64 bits
      before it is looked at. */
  lemma AtoiStops(s: string, rest: string)
    requires AllDigits(s) && rest != [] && !IsDigit(rest[0])
    ensures var overflows := Decimals(s) > 18446744073709551615;
            (s == [] ==> rest[0] != '-' && rest[0] != '+') ==>
              Atoi(s + rest) == if overflows then RangeError(9223372036854775807) else SyntaxError
    ensures Atoi("-" + (s + rest)) ==
            if Decimals(s) > 18446744073709551615 then RangeError(-9223372036854775808) else SyntaxError
  {
    ScanIsDecimals(s);
    ScanSplit(s, rest, 0);
    assert ("-" + (s + rest))[1..] == s + rest;
  }

  /** Nothing else is read as a number. */
  lemma AtoiNeedsDigits(s: string)
    requires Atoi(s).Number?
    ensures && s != []
            && var digits := if s[0] == '-' || s[0] == '+' then s[1..] else s;
               digits != [] && AllDigits(digits)
  {
    ScanNeedsDigits(if s[0] == '-' || s[0] == '+' then s[1..] else s, 0);
  }

  lemma {:induction false} DecimalsOfDigits(n: nat)
    ensures Decimals(Digits(n)) == n
    decreases n
  {
    if n >= 10 {
      DecimalsOfDigits(n / 10);
      assert Digits(n)[..|Digits(n)| - 1] == Digits(n / 10);
    } else {
      assert Digits(n)[..0] == [];
      assert Decimals([]) == 0;
    }
  }

  /** Reading back what was printed, sign included; a number that does not fit is clamped. */
  lemma AtoiItoa(n: int)
    ensures Atoi(Itoa(n)) == Clamp(n)
  {
    var digits := Digits(if n < 0 then -n else n);
    DecimalsOfDigits(if n < 0 then -n else n);
    AtoiReads(digits);
  }

  lemma {:induction false} DigitsInjective(m: nat, n: nat)
    requires Digits(m) == Digits(n)
    ensures m == n
    decreases m
  {
    var a, b := Digits(m), Digits(n);
    if m < 10 || n < 10 {
      assert |a| == 1 <==> m < 10;
      assert |b| == 1 <==> n < 10;
    } else {
      assert a[|a| - 1] == DigitChar(m % 10) && b[|b| - 1] == DigitChar(n % 10);
      assert a[..|a| - 1] == Digits(m / 10) && b[..|b| - 1] == Digits(n / 10);
      DigitsInjective(m / 10, n / 10);
    }
  }
}
