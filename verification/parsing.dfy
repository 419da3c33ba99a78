/**
 * Rust's `str::parse` for the three target types the query-string reader
 * uses (`i32`, `u16`, `bool`), plus a decimal rendering used as their
 * round-trip partner.
 *
 * Integer parsing follows `from_str_radix` with radix 10: an empty string is
 * an error; one leading `+` is accepted; one leading `-` is accepted only for
 * signed types; a sign on its own is an error; every remaining character must
 * be an ASCII digit; a value outside the target type's range is an error.
 */
module Parsing {
  import opened Wrappers

  const I32Min: int := -0x8000_0000
  const I32Max: int := 0x7FFF_FFFF
  const U16Max: int := 0xFFFF

  predicate InI32(n: int) { I32Min <= n <= I32Max }

  predicate IsDigit(c: char) { '0' <= c <= '9' }

  predicate AllDigits(s: string) {
    forall i :: 0 <= i < |s| ==> IsDigit(s[i])
  }

  /** Value of a string of decimal digits, most significant first. */
  function DigitsValue(s: string): nat
    requires AllDigits(s)
  {
    if s == [] then 0
    else DigitsValue(s[..|s| - 1]) * 10 + (s[|s| - 1] - '0') as int
  }

  /** A non-empty run of digits, or nothing. */
  function Unsigned(digits: string): (r: Option<nat>)
    ensures r.Some? ==> digits != [] && AllDigits(digits)
  {
    if digits != [] && AllDigits(digits) then Some(DigitsValue(digits)) else None
  }

  /** `s` with one leading `+` removed, or one leading `-` when the target type is signed. */
  function AfterSign(s: string, signed: bool): string
    requires s != []
  {
    if s[0] == '+' || (signed && s[0] == '-') then s[1..] else s
  }

  /** An optional sign followed by a non-empty run of ASCII digits. */
  predicate Numeral(s: string, signed: bool) {
    s != [] && AfterSign(s, signed) != [] && AllDigits(AfterSign(s, signed))
  }

  /** The value a numeral denotes, negated after a `-`. */
  function NumeralValue(s: string, signed: bool): int
    requires Numeral(s, signed)
  {
    var magnitude: int := DigitsValue(AfterSign(s, signed));
    if signed && s[0] == '-' then -magnitude else magnitude
  }

  /**
   * `s.parse::<i32>()`, with `Err` as `None`: it succeeds exactly on a
   * numeral whose value is an `i32`, and then gives that value.
   */
  function ParseI32(s: string): (r: Option<int>)
    ensures r.Some? ==> InI32(r.value)
    ensures s == [] ==> r == None
    ensures r.Some? <==> Numeral(s, true) && InI32(NumeralValue(s, true))
    ensures r.Some? ==> Numeral(s, true) && r.value == NumeralValue(s, true)
  {
    if s == [] then None
    else
      var negative := s[0] == '-';
      var digits := if s[0] == '+' || s[0] == '-' then s[1..] else s;
      match Unsigned(digits)
      case None => None
      case Some(n) =>
        var v: int := if negative then 0 - n as int else n;
        if InI32(v) then Some(v) else None
  }

  /**
   * `s.parse::<u16>()`, with `Err` as `None`: an unsigned type takes no `-`,
   * so it succeeds exactly on an unsigned numeral whose value is at most
   * 65535, and then gives that value.
   */
  function ParseU16(s: string): (r: Option<int>)
    ensures r.Some? ==> 0 <= r.value <= U16Max
    ensures s == [] ==> r == None
    ensures r.Some? <==> Numeral(s, false) && NumeralValue(s, false) <= U16Max
    ensures r.Some? ==> Numeral(s, false) && r.value == NumeralValue(s, false)
  {
    if s == [] then None
    else
      var digits := if s[0] == '+' then s[1..] else s;
      match Unsigned(digits)
      case None => None
      case Some(n) => if n <= U16Max then Some(n) else None
  }

  /** `s.parse::<bool>()`: exactly "true" or "false". */
  function ParseBool(s: string): (r: Option<bool>)
    ensures r == Some(true) <==> s == "true"
    ensures r == Some(false) <==> s == "false"
  {
    if s == "true" then Some(true)
    else if s == "false" then Some(false)
    else None
  }

  function DigitChar(d: nat): char
    requires d < 10
  {
    ('0' as int + d) as char
  }

  /** Decimal rendering of a natural number, without leading zeros. */
  function FormatNat(n: nat): (r: string)
    ensures r != []
    decreases n
  {
    if n < 10 then [DigitChar(n)] else FormatNat(n / 10) + [DigitChar(n % 10)]
  }

  /** Decimal rendering of an integer, with a `-` for negatives. */
  function FormatInt(n: int): string {
    if n < 0 then "-" + FormatNat(-n) else FormatNat(n)
  }

  lemma {:induction false} FormatNatDigits(n: nat)
    ensures AllDigits(FormatNat(n))
    ensures DigitsValue(FormatNat(n)) == n
    decreases n
  {
    if n >= 10 {
      FormatNatDigits(n / 10);
      var s := FormatNat(n);
      assert s[..|s| - 1] == FormatNat(n / 10);
    }
  }

  /** Parsing the decimal rendering of any `i32` gives that value back. */
  lemma ParseI32FormatInt(n: int)
    requires InI32(n)
    ensures ParseI32(FormatInt(n)) == Some(n)
  {
    var m: nat := if n < 0 then -n else n;
    FormatNatDigits(m);
    var s := FormatInt(n);
    if n < 0 {
      assert s[1..] == FormatNat(m);
    } else {
      assert s[0] != '+' && s[0] != '-' by { assert IsDigit(s[0]); }
    }
  }

  /** Parsing the decimal rendering of any `u16` gives that value back. */
  lemma ParseU16FormatNat(n: nat)
    requires n <= U16Max
    ensures ParseU16(FormatNat(n)) == Some(n)
  {
    FormatNatDigits(n);
    var s := FormatNat(n);
    assert s[0] != '+' by { assert IsDigit(s[0]); }
  }

  /** A leading `+` is accepted by both integer parsers. */
  lemma ParseAcceptsPlus(n: nat)
    requires n <= U16Max
    ensures ParseI32("+" + FormatNat(n)) == Some(n)
    ensures ParseU16("+" + FormatNat(n)) == Some(n)
  {
    FormatNatDigits(n);
    assert ("+" + FormatNat(n))[1..] == FormatNat(n);
  }

  /** `u16` refuses any `-`, even on zero, where `i32` accepts it. */
  lemma ParseU16RejectsMinus(n: nat)
    ensures ParseU16("-" + FormatNat(n)) == None
  {
  }

  /** The rendering of a value beyond `i32`, with or without a sign, is refused rather than wrapped. */
  lemma ParseI32RejectsOverflow(n: nat)
    requires n > I32Max
    ensures ParseI32(FormatNat(n)) == None
    ensures ParseI32("+" + FormatNat(n)) == None
    ensures n > -I32Min ==> ParseI32("-" + FormatNat(n)) == None
  {
    FormatNatDigits(n);
    var s := FormatNat(n);
    assert s[0] != '+' && s[0] != '-' by { assert IsDigit(s[0]); }
    assert ("+" + s)[1..] == s;
    assert ("-" + s)[1..] == s;
  }

  /** The rendering of a value beyond `u16` is refused rather than wrapped. */
  lemma ParseU16RejectsOverflow(n: nat)
    requires n > U16Max
    ensures ParseU16(FormatNat(n)) == None
    ensures ParseU16("+" + FormatNat(n)) == None
  {
    FormatNatDigits(n);
    var s := FormatNat(n);
    assert s[0] != '+' by { assert IsDigit(s[0]); }
    assert ("+" + s)[1..] == s;
  }

  /** Any character other than one leading sign and ASCII digits makes `i32` parsing fail. */
  lemma ParseI32RejectsStrayChar(s: string, i: nat)
    requires i < |s| && !IsDigit(s[i])
    requires i > 0 || (s[0] != '+' && s[0] != '-')
    ensures ParseI32(s) == None
  {
    var d := AfterSign(s, true);
    if d != s {
      assert i > 0 && d[i - 1] == s[i];
    } else {
      assert d[i] == s[i];
    }
  }

  /** Any character other than one leading `+` and ASCII digits makes `u16` parsing fail. */
  lemma ParseU16RejectsStrayChar(s: string, i: nat)
    requires i < |s| && !IsDigit(s[i])
    requires i > 0 || s[0] != '+'
    ensures ParseU16(s) == None
  {
    var d := AfterSign(s, false);
    if d != s {
      assert i > 0 && d[i - 1] == s[i];
    } else {
      assert d[i] == s[i];
    }
  }
}
