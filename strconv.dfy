/** The two conversions of Go's `strconv` package the gateway relies on:
    `FormatInt(n, 10)` writes installation and app ids into labels and source
    state, and `ParseInt(s, 10, 64)` reads the installation id back in the
    monitor. */
module Strconv {
  import opened Core

  const Int64Min := -0x8000_0000_0000_0000
  const Int64Max := 0x7fff_ffff_ffff_ffff

  /** Go's `int64`. */
  type int64 = x: int | Int64Min <= x <= Int64Max

  predicate IsDigit(c: char) {
    '0' <= c <= '9'
  }

  predicate AllDigits(s: string) {
    forall i :: 0 <= i < |s| ==> IsDigit(s[i])
  }

  function DigitChar(d: nat): (c: char)
    requires d < 10
    ensures IsDigit(c)
  {
    (48 + d) as char
  }

  function DigitValue(c: char): (d: nat)
    requires IsDigit(c)
    ensures d < 10 && DigitChar(d) == c
  {
    (c as int - 48) as nat
  }

  /** The shortest decimal numeral of `n`: no sign, no leading zero. */
  function Numeral(n: nat): (s: string)
    ensures |s| >= 1 && AllDigits(s)
    ensures s[0] == '0' ==> n == 0
  {
    if n < 10 then [DigitChar(n)] else Numeral(n / 10) + [DigitChar(n % 10)]
  }

  /** The value of a string of decimal digits, most significant first. */
  function NumeralValue(s: string): nat
    requires AllDigits(s)
  {
    if s == [] then 0 else NumeralValue(s[..|s| - 1]) * 10 + DigitValue(s[|s| - 1])
  }

  /** `strconv.FormatInt(n, 10)`. */
  function FormatInt(n: int): (s: string)
    ensures |s| >= 1
    ensures (n < 0) <==> (s[0] == '-')
    ensures n >= 0 ==> AllDigits(s)
  {
    if n < 0 then "-" + Numeral(-n) else Numeral(n)
  }

  /** `strconv.ParseInt(s, 10, 64)`: an optional sign, at least one digit and
      nothing else, within the range of `int64`. `None` is the error return. */
  function ParseInt64(s: string): (r: Option<int>)
    ensures r.Some? ==> Int64Min <= r.value <= Int64Max
    ensures r.Some? ==> s != ""
  {
    if s == [] then None
    else
      var signed := s[0] == '+' || s[0] == '-';
      var digits := if signed then s[1..] else s;
      if digits == [] || !AllDigits(digits) then None
      else
        var v: int := if s[0] == '-' then 0 - (NumeralValue(digits) as int) else NumeralValue(digits) as int;
        if Int64Min <= v <= Int64Max then Some(v) else None
  }

  /** The text of the error `ParseInt` reports for `s` when it fails. */
  function ParseIntError(s: string): string {
    var signed := s != [] && (s[0] == '+' || s[0] == '-');
    var digits := if signed then s[1..] else s;
    var reason := if digits != [] && AllDigits(digits) then "value out of range" else "invalid syntax";
    "strconv.ParseInt: parsing " + Quote(s) + ": " + reason
  }

  lemma {:induction false} NumeralValueOfNumeral(n: nat)
    ensures NumeralValue(Numeral(n)) == n
  {
    if n >= 10 {
      var s := Numeral(n);
      assert s[..|s| - 1] == Numeral(n / 10);
      NumeralValueOfNumeral(n / 10);
    }
  }

  /** What the receiver writes with `FormatInt`, the monitor reads back with
      `ParseInt` unchanged, for every `int64`. */
  lemma FormatIntParseRoundTrip(n: int64)
    ensures ParseInt64(FormatInt(n)) == Some(n)
  {
    var s := FormatInt(n);
    if n < 0 {
      var m: nat := -(n as int);
      assert s == "-" + Numeral(m);
      assert s[1..] == Numeral(m);
      NumeralValueOfNumeral(m);
    } else {
      NumeralValueOfNumeral(n);
      assert s[0] != '+' && s[0] != '-';
    }
  }
}
