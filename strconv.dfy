/**
 * Go's `strconv.ParseInt(s, 10, 64)`: an optional `+` or `-`, then a
 * non-empty run of ASCII digits (leading zeros accepted, no underscores in
 * base 10), whose value must fit a signed 64-bit integer. Any other input is
 * an error (a syntax error or a range error; callers here only test
 * `err != nil`, so both are `None`).
 */
module Strconv {
  import opened Results

  const Int64Min: int := -0x8000_0000_0000_0000
  const Int64Max: int := 0x7FFF_FFFF_FFFF_FFFF

  type Int64 = x: int | -0x8000_0000_0000_0000 <= x <= 0x7FFF_FFFF_FFFF_FFFF

  predicate IsDigit(c: char)
  {
    '0' <= c <= '9'
  }

  predicate AllDigits(s: string)
  {
    forall i :: 0 <= i < |s| ==> IsDigit(s[i])
  }

  /** Value of a run of decimal digits, most significant first. */
  function DecimalValue(ds: string): nat
    requires AllDigits(ds)
  {
    if ds == [] then 0
    else 10 * DecimalValue(ds[..|ds| - 1]) + (ds[|ds| - 1] as int - '0' as int)
  }

  /** The digits of `s` after an optional sign. */
  function Unsigned(s: string): string
  {
    if s != [] && (s[0] == '+' || s[0] == '-') then s[1..] else s
  }

  /** `s` is an optional sign followed by at least one ASCII digit. */
  predicate IsDecimal(s: string)
  {
    Unsigned(s) != [] && AllDigits(Unsigned(s))
  }

  /** Mathematical value of a decimal string, before any range check. */
  function SignedValue(s: string): int
    requires IsDecimal(s)
  {
    var v: int := DecimalValue(Unsigned(s));
    if s[0] == '-' then -v else v
  }

  function ParseInt(s: string): (r: Option<Int64>)
    ensures r.Some? <==> IsDecimal(s) && Int64Min <= SignedValue(s) <= Int64Max
    ensures r.Some? ==> r.value == SignedValue(s)
  {
    if s == [] then None
    else
      var neg := s[0] == '-';
      var digits := if s[0] == '+' || s[0] == '-' then s[1..] else s;
      if digits == [] || !AllDigits(digits) then None
      else
        var un: int := DecimalValue(digits);
        if !neg && un > Int64Max then None
        else if neg && un > -Int64Min then None
        else Some(if neg then -un else un)
  }

  function DigitChar(d: nat): (c: char)
    requires d < 10
    ensures IsDigit(c) && c as int - '0' as int == d
  {
    ('0' as int + d) as char
  }

  /** Canonical decimal digits of `n` (no leading zeros, at least one digit). */
  function FormatNat(n: nat): (s: string)
    decreases n
  {
    if n < 10 then [DigitChar(n)] else FormatNat(n / 10) + [DigitChar(n % 10)]
  }

  /** Go's `strconv.FormatInt(n, 10)` on unbounded integers. */
  function FormatInt(n: int): string
  {
    if n < 0 then ['-'] + FormatNat(-n) else FormatNat(n)
  }

  lemma {:induction false} FormatNatDigits(n: nat)
    ensures FormatNat(n) != [] && AllDigits(FormatNat(n))
    ensures DecimalValue(FormatNat(n)) == n
    ensures FormatNat(n)[0] != '0' || n == 0
    decreases n
  {
    var s := FormatNat(n);
    if n >= 10 {
      FormatNatDigits(n / 10);
      assert s[..|s| - 1] == FormatNat(n / 10);
      assert s[0] == FormatNat(n / 10)[0];
    }
  }

  /** Parsing inverts formatting on the whole int64 range. */
  lemma ParseFormatRoundTrip(n: Int64)
    ensures ParseInt(FormatInt(n)) == Some(n)
  {
    var m: int := n;
    var s := FormatInt(m);
    if m < 0 {
      FormatNatDigits(-m);
      assert Unsigned(s) == FormatNat(-m);
    } else {
      FormatNatDigits(m);
      assert Unsigned(s) == FormatNat(m);
    }
    assert IsDecimal(s) && SignedValue(s) == m;
    var r := ParseInt(s);
    assert r.Some? && r.value == m;
  }

  /** Decimal strings outside the int64 range are rejected. */
  lemma ParseRejectsOutOfRange(n: int)
    requires n < Int64Min || Int64Max < n
    ensures ParseInt(FormatInt(n)) == None
  {
    FormatNatDigits(if n < 0 then -n else n);
    var s := FormatInt(n);
    if n < 0 {
      assert Unsigned(s) == FormatNat(-n);
    } else {
      assert Unsigned(s) == FormatNat(n);
    }
  }

  lemma {:induction false} LeadingZeroValue(ds: string)
    requires AllDigits(ds)
    ensures AllDigits(['0'] + ds) && DecimalValue(['0'] + ds) == DecimalValue(ds)
    decreases |ds|
  {
    if ds != [] {
      var z := ['0'] + ds;
      assert z[..|z| - 1] == ['0'] + ds[..|ds| - 1];
      LeadingZeroValue(ds[..|ds| - 1]);
    }
  }

  /** Leading zeros are accepted and do not change the value. */
  lemma ParseIgnoresLeadingZero(ds: string)
    requires ds != [] && AllDigits(ds)
    ensures ParseInt(['0'] + ds) == ParseInt(ds)
  {
    LeadingZeroValue(ds);
  }

  /** A `+` sign is accepted and does not change the value. */
  lemma ParseIgnoresPlusSign(ds: string)
    requires ds != [] && AllDigits(ds)
    ensures ParseInt(['+'] + ds) == ParseInt(ds)
  {
    assert Unsigned(['+'] + ds) == ds;
  }

  /** Only an optional sign then digits can parse: one stray rune is a syntax error. */
  lemma ParseRejectsNonDigit(s: string, i: nat)
    requires 0 < i < |s| && !IsDigit(s[i])
    ensures ParseInt(s) == None
  {
    assert Unsigned(s)[i - (|s| - |Unsigned(s)|)] == s[i];
  }
}
