/**
 * Decimal integer parsing and formatting as Go's strconv package does it for
 * base 10 and 64 bits: `ParseInt(s, 10, 64)`, `Atoi` (the same on 64-bit
 * platforms), `FormatInt(n, 10)` and `Itoa`.
 */
module Strconv {
  import opened Wrappers

  const MinInt64: int := -0x8000_0000_0000_0000
  const MaxInt64: int := 0x7fff_ffff_ffff_ffff

  /** Go's `int64` (and `int` on a 64-bit platform). */
  type Int64 = x: int | MinInt64 <= x <= MaxInt64

  predicate IsDigit(c: char) {
    '0' <= c <= '9'
  }

  predicate AllDigits(s: string) {
    forall i :: 0 <= i < |s| ==> IsDigit(s[i])
  }

  /** The value of a non-empty run of decimal digits, most significant first. */
  function DigitsValue(s: string): nat
    requires AllDigits(s)
  {
    if s == [] then 0
    else DigitsValue(s[..|s| - 1]) * 10 + (s[|s| - 1] as int - '0' as int)
  }

  /**
   * `strconv.ParseInt(s, 10, 64)`: an optional '+' or '-' sign followed by at
   * least one decimal digit and nothing else; a value outside the 64-bit range
   * is a range error. Every error is None.
   */
  function ParseInt(s: string): (r: Option<Int64>)
    ensures r.Some? ==> |s| > 0 && (s[0] == '+' || s[0] == '-' || IsDigit(s[0]))
    ensures r.Some? ==> forall i :: 0 < i < |s| ==> IsDigit(s[i])
    ensures r.Some? && s[0] == '-' ==> r.value <= 0
    ensures r.Some? && s[0] != '-' ==> r.value >= 0
    ensures r.Some? ==> (AllDigits(s) && r.value == DigitsValue(s))
                        || (s[0] == '+' && |s| > 1 && AllDigits(s[1..]) && r.value == DigitsValue(s[1..]))
                        || (s[0] == '-' && |s| > 1 && AllDigits(s[1..]) && r.value == -(DigitsValue(s[1..]) as int))
  {
    if s == [] then None
    else
      var negative := s[0] == '-';
      var digits := if s[0] == '+' || s[0] == '-' then s[1..] else s;
      if digits == [] || !AllDigits(digits) then None
      else
        var magnitude: int := DigitsValue(digits);
        var value: int := if negative then -magnitude else magnitude;
        if MinInt64 <= value <= MaxInt64 then Some(value) else None
  }

  function DigitChar(d: nat): char
    requires d < 10
  {
    ('0' as int + d) as char
  }

  /** The shortest decimal spelling of a natural number. */
  function Digits(n: nat): (s: string)
    ensures |s| > 0 && AllDigits(s)
    decreases n
  {
    if n < 10 then [DigitChar(n)] else Digits(n / 10) + [DigitChar(n % 10)]
  }

  /** `strconv.FormatInt(n, 10)` and `strconv.Itoa(n)`: a '-' for negatives, never a '+'. */
  function FormatInt(n: int): (s: string)
    ensures |s| > 0
    ensures s[0] == '-' <==> n < 0
  {
    if n < 0 then "-" + Digits(-n) else Digits(n)
  }

  lemma {:induction false} DigitsValueOfDigits(n: nat)
    ensures DigitsValue(Digits(n)) == n
    decreases n
  {
    if n >= 10 {
      DigitsValueOfDigits(n / 10);
      var s := Digits(n);
      assert s[..|s| - 1] == Digits(n / 10);
      assert s[|s| - 1] == DigitChar(n % 10);
    }
  }

  /** Formatting then parsing gives the number back: the query parameters the public API
      writes with FormatInt/Itoa are read back unchanged by ParseInt/Atoi. */
  lemma ParseFormat(n: Int64)
    ensures ParseInt(FormatInt(n)) == Some(n)
  {
    if n < 0 {
      var m: nat := -(n as int);
      DigitsValueOfDigits(m);
      assert FormatInt(n)[1..] == Digits(m);
    } else {
      DigitsValueOfDigits(n);
      var s := Digits(n);
      assert s[0] != '+' && s[0] != '-';
    }
  }

  /**
   * A bare or '+'-signed digit string, leading zeros included, is read by its
   * value ("007" and "+7" are 7); one above the 64-bit range is a range error.
   */
  lemma ParseSpellings(d: string)
    requires |d| > 0 && AllDigits(d)
    ensures DigitsValue(d) <= MaxInt64 ==> ParseInt(d) == Some(DigitsValue(d)) && ParseInt("+" + d) == Some(DigitsValue(d))
    ensures DigitsValue(d) > MaxInt64 ==> ParseInt(d) == None && ParseInt("+" + d) == None
  {
    assert d[0] != '+' && d[0] != '-';
    var plus := "+" + d;
    assert plus[0] == '+' && plus[1..] == d;
  }

  /**
   * A '-'-signed digit string is read as the negated value ("-0" is 0); one
   * below the 64-bit range is a range error.
   */
  lemma ParseNegativeSpellings(d: string)
    requires |d| > 0 && AllDigits(d)
    ensures DigitsValue(d) <= -MinInt64 ==> ParseInt("-" + d) == Some(-(DigitsValue(d) as int))
    ensures DigitsValue(d) > -MinInt64 ==> ParseInt("-" + d) == None
  {
    var minus := "-" + d;
    assert minus[0] == '-' && minus[1..] == d;
  }

  /** A string holding a character that is neither a digit nor a leading sign is no number. */
  lemma NonNumberRejected(s: string, i: nat)
    requires i < |s| && !IsDigit(s[i])
    requires i > 0 || (s[i] != '+' && s[i] != '-')
    ensures ParseInt(s) == None
  {
  }

  /** A well-formed number outside the 64-bit range is a range error, never a wrapped value. */
  lemma OutOfRangeRejected(n: int)
    requires n < MinInt64 || MaxInt64 < n
    ensures ParseInt(FormatInt(n)) == None
  {
    if n < 0 {
      var m: nat := -(n as int);
      DigitsValueOfDigits(m);
      assert FormatInt(n)[1..] == Digits(m);
    } else {
      DigitsValueOfDigits(n);
      var s := Digits(n);
      assert s[0] != '+' && s[0] != '-';
    }
  }
}
