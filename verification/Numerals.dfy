/** Machine widths, saturating arithmetic and the printed forms of numbers. */
module Numerals {
  import opened Wrappers

  const U16_MAX: nat := 0xFFFF
  const U32_MAX: nat := 0xFFFF_FFFF
  const U64_MAX: nat := 0xFFFF_FFFF_FFFF_FFFF
  const I64_MAX: int := 0x7FFF_FFFF_FFFF_FFFF
  const I64_MIN: int := -0x8000_0000_0000_0000

  type UInt16 = x: int | 0 <= x <= U16_MAX
  type UInt32 = x: int | 0 <= x <= U32_MAX
  type Int64 = x: int | I64_MIN <= x <= I64_MAX

  /** `u32::saturating_add(1)`. */
  function SatIncU32(x: nat): nat { if x < U32_MAX then x + 1 else U32_MAX }

  /** `saturating_sub(1)` on an unsigned counter. */
  function SatDec(x: nat): nat { if x > 0 then x - 1 else 0 }

  /** The `as u16` cast. */
  function CastU16(x: nat): UInt16 { x % 0x1_0000 }

  /** `i64::saturating_sub`. */
  function SatSubI64(a: Int64, b: Int64): Int64 {
    if a - b > I64_MAX then I64_MAX else if a - b < I64_MIN then I64_MIN else a - b
  }

  /** `now.saturating_sub(then).max(0)`, the CPU delta of a record. */
  function CpuDelta(now: Int64, then_: Int64): (d: Int64)
    ensures d == Max(0, Min(now - then_, I64_MAX))
  {
    var d := SatSubI64(now, then_);
    if d < 0 then 0 else d
  }

  // --- Powers, logarithms --------------------------------------------------

  function Pow(b: nat, e: nat): (p: nat)
    ensures b > 0 ==> p > 0
  {
    if e == 0 then 1 else b * Pow(b, e - 1)
  }

  /** `u32::ilog10`: the exponent of the largest power of ten not above `n`. */
  function Ilog10(n: nat): (k: nat)
    requires n > 0
    ensures Pow(10, k) <= n < Pow(10, k + 1)
  {
    if n < 10 then 0 else 1 + Ilog10(n / 10)
  }

  /** `usize::BITS - leading_zeros`: the least number of bits that hold `n`. */
  function BitLength(n: nat): (k: nat)
    requires n > 0
    ensures k > 0 && Pow(2, k - 1) <= n < Pow(2, k)
  {
    if n < 2 then 1 else 1 + BitLength(n / 2)
  }

  // --- Printing ------------------------------------------------------------

  function DigitChar(d: nat): (c: char)
    requires d < 16
  {
    if d < 10 then '0' + d as char else 'a' + (d - 10) as char
  }

  predicate IsDigit(c: char) { '0' <= c <= '9' }

  /** `format!("{n}")`. */
  function Decimal(n: nat): (s: string)
    ensures |s| > 0
    ensures forall i :: 0 <= i < |s| ==> IsDigit(s[i])
  {
    if n < 10 then [DigitChar(n)] else Decimal(n / 10) + [DigitChar(n % 10)]
  }

  /** `format!("{n:x}")`. */
  function Hex(n: nat): (s: string)
    ensures |s| > 0
    ensures forall i :: 0 <= i < |s| ==> IsDigit(s[i]) || 'a' <= s[i] <= 'f'
  {
    if n < 16 then [DigitChar(n)] else Hex(n / 16) + [DigitChar(n % 16)]
  }

  /** `format!("{i}")` on a signed value. */
  function SignedDecimal(i: int): string {
    if i < 0 then "-" + Decimal(-i) else Decimal(i)
  }

  lemma {:induction false} DecimalLength(n: nat)
    ensures |Decimal(n)| == if n == 0 then 1 else Ilog10(n) + 1
  {
    if n >= 10 {
      DecimalLength(n / 10);
    }
  }

  lemma {:induction false} HexLength(n: nat)
    ensures |Hex(n)| == if n == 0 then 1 else (BitLength(n) + 3) / 4
  {
    if n >= 16 {
      HexLength(n / 16);
      assert BitLength(n) == 1 + BitLength(n / 2);
      assert BitLength(n / 2) == 1 + BitLength(n / 2 / 2);
      assert BitLength(n / 2 / 2) == 1 + BitLength(n / 2 / 2 / 2);
      assert BitLength(n / 2 / 2 / 2) == 1 + BitLength(n / 2 / 2 / 2 / 2);
      assert n / 2 / 2 / 2 / 2 == n / 16;
    } else if n >= 8 {
      assert BitLength(n) == 1 + BitLength(n / 2);
      assert BitLength(n / 2) == 1 + BitLength(n / 2 / 2);
      assert BitLength(n / 2 / 2) == 1 + BitLength(n / 2 / 2 / 2);
    }
  }

  // --- Parsing -------------------------------------------------------------

  /** Value of an all-digit text, most significant digit first; the empty text is 0. */
  function DigitsValue(s: string): Option<nat> {
    if s == [] then Some(0)
    else
      var c := s[|s| - 1];
      match DigitsValue(s[..|s| - 1])
      case Some(v) => if IsDigit(c) then Some(10 * v + (c - '0') as nat) else None
      case None => None
  }

  /** `str::parse::<uN>()`: an optional `+`, then at least one digit, no overflow past `max`. */
  function ParseUnsigned(s: string, max: nat): (r: Option<nat>)
    ensures r.Some? ==> r.value <= max
  {
    var digits := if s != [] && s[0] == '+' then s[1..] else s;
    if digits == [] then None
    else
      match DigitsValue(digits)
      case Some(v) => if v <= max then Some(v) else None
      case None => None
  }

  /** `str::parse::<i64>()`. */
  function ParseInt64(s: string): Option<Int64> {
    if s != [] && s[0] == '-' then
      if s[1..] == [] then None
      else
        match DigitsValue(s[1..])
        case Some(v) => var w: int := 0 - v; if w >= I64_MIN then Some(w) else None
        case None => None
    else
      match ParseUnsigned(s, I64_MAX)
      case Some(v) => Some(v)
      case None => None
  }

  lemma {:induction false} DigitsOfDecimal(n: nat)
    ensures DigitsValue(Decimal(n)) == Some(n)
  {
    if n < 10 {
      assert Decimal(n)[..0] == [];
    } else {
      DigitsOfDecimal(n / 10);
      assert Decimal(n)[..|Decimal(n)| - 1] == Decimal(n / 10);
    }
  }

  /** Printing then parsing an unsigned number succeeds exactly when it fits the width. */
  lemma UnsignedRoundTrip(n: nat, max: nat)
    ensures ParseUnsigned(Decimal(n), max) == if n <= max then Some(n) else None
  {
    DigitsOfDecimal(n);
    assert IsDigit(Decimal(n)[0]);
  }

  lemma SignedRoundTrip(i: Int64)
    ensures ParseInt64(SignedDecimal(i)) == Some(i)
    ensures SignedDecimal(i)[0] == '-' <==> i < 0
  {
    assert IsDigit(Decimal(if i < 0 then 0 - i else i)[0]);
    if i < 0 {
      var magnitude: nat := 0 - i;
      DigitsOfDecimal(magnitude);
      assert SignedDecimal(i)[1..] == Decimal(magnitude);
    } else {
      UnsignedRoundTrip(i, I64_MAX);
      assert IsDigit(Decimal(i)[0]);
    }
  }
}
