/** The part of Go's `strconv` the provisioner relies on: printing and parsing integers. */
module Decimal {
  import opened Wrappers

  const INT64_LIMIT: int := 0x8000_0000_0000_0000
  const UINT32_LIMIT: nat := 0x1_0000_0000

  predicate IsDigit(c: char, base: nat) {
    '0' <= c <= '9' && DigitValue(c) < base
  }

  function DigitValue(c: char): nat
    requires '0' <= c <= '9'
  {
    c as int - '0' as int
  }

  /** A non-empty run of digits of the base. */
  predicate IsNumeral(s: string, base: nat) {
    s != "" && forall i :: 0 <= i < |s| ==> IsDigit(s[i], base)
  }

  function NumeralValue(s: string, base: nat): nat
    requires forall i :: 0 <= i < |s| ==> IsDigit(s[i], base)
  {
    if s == "" then 0
    else assert IsDigit(s[|s| - 1], base); base * NumeralValue(s[..|s| - 1], base) + DigitValue(s[|s| - 1])
  }

  /** strconv.ParseUint(s, base, bits) for base <= 10, with limit = 2^bits */
  function ParseUint(s: string, base: nat, limit: nat): Option<nat> {
    if IsNumeral(s, base) && NumeralValue(s, base) < limit then Some(NumeralValue(s, base)) else None
  }

  /** strconv.ParseInt(s, 10, 64), and strconv.Atoi where int has 64 bits */
  function ParseInt(s: string): Option<int> {
    if s != "" && s[0] == '-' then
      match ParseUint(s[1..], 10, INT64_LIMIT + 1)
      case Some(n) => Some(0 - n)
      case None => None
    else
      match ParseUint(if s != "" && s[0] == '+' then s[1..] else s, 10, INT64_LIMIT)
      case Some(n) => Some(n)
      case None => None
  }

  /** A sign may stand before the numeral, either one; the range is that of a signed 64-bit integer. */
  lemma SignedNumerals(s: string)
    ensures IsNumeral(s, 10) ==>
              ParseInt(s) == if NumeralValue(s, 10) < 0x8000_0000_0000_0000 then Some(NumeralValue(s, 10)) else None
    ensures s != "" && s[0] == '+' && IsNumeral(s[1..], 10) ==> ParseInt(s) == ParseInt(s[1..])
    ensures s != "" && s[0] == '-' && IsNumeral(s[1..], 10) ==>
              ParseInt(s) == if NumeralValue(s[1..], 10) <= 0x8000_0000_0000_0000 then Some(0 - NumeralValue(s[1..], 10))
                             else None
    ensures !IsNumeral(s, 10) && (s == "" || s[0] !in {'+', '-'} || !IsNumeral(s[1..], 10)) ==> ParseInt(s).None?
  {
    assert IsNumeral(s, 10) ==> IsDigit(s[0], 10);
    assert s != "" && IsNumeral(s[1..], 10) ==> IsDigit(s[1..][0], 10);
  }

  function FormatNat(n: nat): (s: string)
    ensures IsNumeral(s, 10)
  {
    var last := ['0' + (n % 10) as char];
    if n < 10 then last else FormatNat(n / 10) + last
  }

  /** strconv.FormatInt(n, 10) */
  function FormatInt(n: int): string {
    if n < 0 then "-" + FormatNat(-n) else FormatNat(n)
  }

  lemma {:induction false} FormatNatValue(n: nat)
    ensures NumeralValue(FormatNat(n), 10) == n
  {
    var s := FormatNat(n);
    if n >= 10 {
      FormatNatValue(n / 10);
      assert s[..|s| - 1] == FormatNat(n / 10);
    } else {
      assert s[..|s| - 1] == "";
    }
  }

  lemma ParseUintFormat(n: nat, limit: nat)
    ensures ParseUint(FormatNat(n), 10, limit) == if n < limit then Some(n) else None
    ensures IsDigit(FormatNat(n)[0], 10)
  {
    FormatNatValue(n);
  }

  /** Parsing inverts printing on exactly the 64-bit range. */
  lemma ParseFormatInt(n: int)
    ensures ParseInt(FormatInt(n)) == if 0 - INT64_LIMIT <= n < INT64_LIMIT then Some(n) else None
  {
    if n < 0 {
      var digits := FormatNat(-n);
      assert FormatInt(n) == "-" + digits && ("-" + digits)[1..] == digits;
      ParseUintFormat(-n, INT64_LIMIT + 1);
    } else {
      ParseUintFormat(n, INT64_LIMIT);
    }
  }
}
