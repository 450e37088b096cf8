/** PostgreSQL's binary NUMERIC: base-10000 digits, most significant first. */
module Numerics {
  import opened Types
  import opened Bytes
  import opened CopyFormat

  const NUMERIC_BASE: nat := 10_000
  const NUMERIC_POS := 0x0000
  const NUMERIC_NEG := 0x4000
  const NUMERIC_HEADER_SIZE: nat := 8
  const MAX_U64_BASE10000_DIGITS: nat := 5
  const MAX_I128_BASE10000_DIGITS: nat := 10
  const U64_LIMIT: nat := 0x1_0000_0000_0000_0000
  const I128_LIMIT: nat := 0x8000_0000_0000_0000_0000_0000_0000_0000
  const TEN_TO_36: nat := 1_000_000_000_000_000_000_000_000_000_000_000_000

  // ---- Digits ----------------------------------------------------------------------------------------

  function Digits(v: nat): (d: seq<nat>)
    ensures forall i :: 0 <= i < |d| ==> d[i] < NUMERIC_BASE
    ensures v > 0 ==> |d| > 0
  {
    if v == 0 then [] else Digits(v / NUMERIC_BASE) + [v % NUMERIC_BASE]
  }

  function DigitsValue(d: seq<nat>): nat {
    if d == [] then 0 else 10_000 * DigitsValue(Front(d)) + Last(d)
  }

  function PowerOfBase(k: nat): nat {
    if k == 0 then 1 else NUMERIC_BASE * PowerOfBase(k - 1)
  }

  lemma {:induction false} ValueOfDigits(v: nat)
    ensures DigitsValue(Digits(v)) == v
  {
    if v > 0 {
      ValueOfDigits(v / NUMERIC_BASE);
      assert Front(Digits(v)) == Digits(v / NUMERIC_BASE);
    }
  }

  /** `k` digits are enough exactly below the k-th power of the base. */
  lemma {:induction false} DigitsNeeded(v: nat, k: nat)
    ensures |Digits(v)| <= k <==> v < PowerOfBase(k)
  {
    PowerPositive(k);
    if v > 0 && k > 0 {
      DigitsNeeded(v / NUMERIC_BASE, k - 1);
    }
  }

  lemma {:induction false} PowerPositive(k: nat)
    ensures PowerOfBase(k) > 0
  {
    if k > 0 {
      PowerPositive(k - 1);
    }
  }

  // ---- Counting digits -------------------------------------------------------------------------------

  function CountDigits(value: nat): nat {
    if value == 0 then 0
    else if value < 10_000 then 1
    else if value < 100_000_000 then 2
    else if value < 1_000_000_000_000 then 3
    else if value < 10_000_000_000_000_000 then 4
    else MAX_U64_BASE10000_DIGITS
  }

  lemma LowPowers()
    ensures PowerOfBase(0) == 1 && PowerOfBase(1) == 10_000 && PowerOfBase(2) == 100_000_000
    ensures PowerOfBase(3) == 1_000_000_000_000 && PowerOfBase(4) == 10_000_000_000_000_000
    ensures PowerOfBase(5) == 100_000_000_000_000_000_000
  {
    assert PowerOfBase(2) == 10_000 * PowerOfBase(1);
    assert PowerOfBase(4) == 10_000 * PowerOfBase(3);
  }

  lemma HighPowers()
    ensures PowerOfBase(6) == 1_000_000_000_000_000_000_000_000
    ensures PowerOfBase(7) == 10_000_000_000_000_000_000_000_000_000
    ensures PowerOfBase(8) == 100_000_000_000_000_000_000_000_000_000_000
    ensures PowerOfBase(9) == TEN_TO_36
  {
    LowPowers();
    assert PowerOfBase(6) == 10_000 * PowerOfBase(5);
    assert PowerOfBase(7) == 10_000 * PowerOfBase(6);
    assert PowerOfBase(8) == 10_000 * PowerOfBase(7);
  }

  /** The comparison chain counts exactly, for every 64-bit value. */
  lemma CountIsExact(value: nat)
    requires value < U64_LIMIT
    ensures CountDigits(value) == |Digits(value)|
  {
    LowPowers();
    DigitsNeeded(value, 0);
    DigitsNeeded(value, 1);
    DigitsNeeded(value, 2);
    DigitsNeeded(value, 3);
    DigitsNeeded(value, 4);
    DigitsNeeded(value, 5);
  }

  /** The comparison chain of the 128-bit form, below its fallback. */
  function CountDigitsBelow36(value: nat): nat
    requires value < TEN_TO_36
  {
    if value < 10_000_000_000_000_000 then CountDigits(value)
    else if value < 100_000_000_000_000_000_000 then 5
    else if value < 1_000_000_000_000_000_000_000_000 then 6
    else if value < 10_000_000_000_000_000_000_000_000_000 then 7
    else if value < 100_000_000_000_000_000_000_000_000_000_000 then 8
    else 9
  }

  lemma ChainIsExact(value: nat)
    requires value < TEN_TO_36
    ensures CountDigitsBelow36(value) == |Digits(value)|
  {
    if value < 10_000_000_000_000_000 {
      CountIsExact(value);
    } else {
      LowPowers();
      HighPowers();
      DigitsNeeded(value, 4);
      DigitsNeeded(value, 5);
      DigitsNeeded(value, 6);
      DigitsNeeded(value, 7);
      DigitsNeeded(value, 8);
      DigitsNeeded(value, 9);
    }
  }

  /** Never below the real count; exact below ten to the 36th, and one too many from there on. */
  method CountDigitsI128(value: int) returns (ndigits: nat)
    requires Abs(value) <= I128_LIMIT
    ensures ndigits == |Digits(Abs(value))| + (if Abs(value) < TEN_TO_36 then 0 else 1)
  {
    var absValue := Abs(value);
    if absValue < TEN_TO_36 {
      ChainIsExact(absValue);
      return CountDigitsBelow36(absValue);
    }
    TenDigits(absValue);
    ndigits := MAX_I128_BASE10000_DIGITS;
    var remaining: nat := absValue / TEN_TO_36;
    while remaining > 0
      invariant ndigits == if remaining == 0 then 11 else 10
      invariant remaining < NUMERIC_BASE
      decreases remaining
    {
      ndigits := ndigits + 1;
      remaining := remaining / NUMERIC_BASE;
    }
  }

  lemma TenDigits(v: nat)
    requires TEN_TO_36 <= v <= I128_LIMIT
    ensures |Digits(v)| == 10
  {
    HighPowers();
    assert PowerOfBase(10) == 10_000 * TEN_TO_36;
    DigitsNeeded(v, 9);
    DigitsNeeded(v, 10);
  }

  function Abs(v: int): nat {
    if v < 0 then -v else v
  }

  // ---- The payload -----------------------------------------------------------------------------------

  function DigitBytes(d: seq<nat>): seq<Byte> {
    if d == [] then [] else DigitBytes(Front(d)) + I16(Last(d))
  }

  function Sign(v: int): int {
    if v < 0 then NUMERIC_NEG else NUMERIC_POS
  }

  function Weight(v: int): nat {
    if v == 0 then 0 else |Digits(Abs(v))| - 1
  }

  function NumericHeader(ndigits: int, weight: int, sign: int, dscale: int): (h: seq<Byte>)
    ensures |h| == NUMERIC_HEADER_SIZE
  {
    I16(ndigits) + I16(weight) + I16(sign) + I16(dscale)
  }

  function NumericPayload(v: int, dscale: int): seq<Byte> {
    NumericHeader(|Digits(Abs(v))|, Weight(v), Sign(v), dscale) + DigitBytes(Digits(Abs(v)))
  }

  /** A decoded number: `mantissa` times the base to the power of `exponent`. */
  datatype Numeric = Numeric(mantissa: int, exponent: int, dscale: int)

  function ReadDigits(b: seq<Byte>, n: nat): Option<seq<nat>> {
    if n == 0 then (if b == [] then Some([]) else None)
    else
      match ReadI16(b)
      case None => None
      case Some((digit, rest)) =>
        if !(0 <= digit < 10_000) then None
        else
          match ReadDigits(rest, n - 1)
          case None => None
          case Some(more) => Some([digit] + more)
  }

  datatype Header = Header(ndigits: int, weight: int, sign: int, dscale: int)

  function ReadNumericHeader(b: seq<Byte>): Option<(Header, seq<Byte>)> {
    match ReadI16(b)
    case None => None
    case Some((ndigits, b1)) =>
      match ReadI16(b1)
      case None => None
      case Some((weight, b2)) =>
        match ReadI16(b2)
        case None => None
        case Some((sign, b3)) =>
          match ReadI16(b3)
          case None => None
          case Some((dscale, b4)) => Some((Header(ndigits, weight, sign, dscale), b4))
  }

  predicate HeaderOk(h: Header) {
    0 <= h.ndigits && h.sign in {0x0000, 0x4000} && 0 <= h.dscale <= 0x3FFF
  }

  function DecodeNumeric(b: seq<Byte>): Option<Numeric> {
    match ReadNumericHeader(b)
    case None => None
    case Some((h, rest)) =>
      if !HeaderOk(h) then None
      else
        match ReadDigits(rest, h.ndigits)
        case None => None
        case Some(d) =>
          var value: int := DigitsValue(d);
          Some(Numeric(if h.sign == 0x4000 then -value else value, if d == [] then 0 else h.weight - (|d| - 1),
                       h.dscale))
  }

  lemma {:induction false} DigitBytesHead(d: seq<nat>)
    requires d != []
    ensures DigitBytes(d) == I16(d[0]) + DigitBytes(d[1..])
  {
    if |d| == 1 {
      assert Front(d) == [] && d[1..] == [];
    } else {
      DigitBytesHead(Front(d));
      var tail := d[1..];
      assert Front(d)[1..] == Front(tail) && Last(tail) == Last(d);
      assert DigitBytes(tail) == DigitBytes(Front(tail)) + I16(Last(d));
      assert DigitBytes(d) == (I16(d[0]) + DigitBytes(Front(tail))) + I16(Last(d));
    }
  }

  lemma {:induction false} ReadWrittenDigits(d: seq<nat>)
    requires forall i :: 0 <= i < |d| ==> d[i] < NUMERIC_BASE
    ensures ReadDigits(DigitBytes(d), |d|) == Some(d)
  {
    if d == [] {
    } else {
      DigitBytesHead(d);
      ReadSmallI16(d[0], DigitBytes(d[1..]));
      ReadWrittenDigits(d[1..]);
      assert [d[0]] + d[1..] == d;
    }
  }

  lemma HeaderFirst<T>(a: seq<T>, b: seq<T>, c: seq<T>, d: seq<T>, rest: seq<T>)
    ensures (a + b + c + d) + rest == a + (b + (c + (d + rest)))
  {
  }

  lemma ReadHeader(ndigits: int, weight: int, sign: int, dscale: int, rest: seq<Byte>)
    requires 0 <= ndigits < I16_LIMIT && 0 <= weight < I16_LIMIT && 0 <= sign < I16_LIMIT
    ensures ReadNumericHeader(NumericHeader(ndigits, weight, sign, dscale) + rest) ==
            Some((Header(ndigits, weight, sign, WrapI16(dscale)), rest))
  {
    HeaderFirst(I16(ndigits), I16(weight), I16(sign), I16(dscale), rest);
    ReadSmallI16(ndigits, I16(weight) + (I16(sign) + (I16(dscale) + rest)));
    ReadSmallI16(weight, I16(sign) + (I16(dscale) + rest));
    ReadSmallI16(sign, I16(dscale) + rest);
    ReadWrittenI16(dscale, rest);
  }

  /** Decoding gives back the same integer, for every display scale the format allows. */
  lemma NumericRoundTrip(v: int, dscale: int)
    requires |Digits(Abs(v))| < I16_LIMIT
    ensures DecodeNumeric(NumericPayload(v, dscale)) ==
            if 0 <= WrapI16(dscale) <= 0x3FFF then Some(Numeric(v, 0, WrapI16(dscale))) else None
  {
    var d := Digits(Abs(v));
    ReadHeader(|d|, Weight(v), Sign(v), dscale, DigitBytes(d));
    ReadWrittenDigits(d);
    ValueOfDigits(Abs(v));
  }

  lemma SignBytes(v: int)
    ensures I16(Sign(v)) == if v < 0 then [0x40, 0x00] else [0x00, 0x00]
  {
    var u: nat := if v < 0 then 0x4000 else 0;
    assert Sign(v) % (2 * I16_LIMIT) == u;
    assert BigEndian(u / 256, 1) == [u / 256 % 256];
    assert BigEndian(u, I16_WIDTH) == BigEndian(u / 256, 1) + [u % 256];
  }

  /** The sign word on the wire. */
  lemma SignOnTheWire(v: int, dscale: int)
    ensures |NumericPayload(v, dscale)| >= NUMERIC_HEADER_SIZE
    ensures NumericPayload(v, dscale)[4..6] == if v < 0 then [0x40, 0x00] else [0x00, 0x00]
  {
    var d := Digits(Abs(v));
    SignBytes(v);
    assert NumericPayload(v, dscale)[4..6] == I16(Sign(v));
  }

  function Power10(k: nat): nat {
    if k == 0 then 1 else 10 * Power10(k - 1)
  }

  /** The number is `v` with the decimal point moved `scale` places to the left. */
  ghost predicate Denotes(n: Numeric, v: int, scale: int) {
    && n.exponent == 0
    && if scale >= 0 then n.mantissa * Power10(scale) == v else n.mantissa == v * Power10(-scale)
  }

  ghost predicate ReadsBack(n: Option<Numeric>, v: int, scale: int) {
    n.Some? && Denotes(n.value, v, scale)
  }

  lemma {:induction false} Power10Grows(k: nat)
    requires k > 0
    ensures Power10(k) > 1
  {
    if k > 1 {
      Power10Grows(k - 1);
    }
  }

  lemma ScaleMatters(v: int, p: nat)
    requires p > 1
    ensures v * p == v <==> v == 0
  {
    if v > 0 {
      assert v * p >= v * 2;
    } else if v < 0 {
      assert v * p <= v * 2;
    }
  }

  lemma ScaledDenotes(v: int, scale: int, dscale: int)
    ensures Denotes(Numeric(v, 0, dscale), v, scale) <==> v == 0 || scale == 0
  {
    if scale != 0 {
      var places: nat := if scale > 0 then scale else -scale;
      Power10Grows(places);
      ScaleMatters(v, Power10(places));
    }
  }

  lemma WrapScale(scale: int)
    requires -128 <= scale < 128
    ensures WrapI16(scale) == scale
  {
  }

  /**
   * A negative scale is refused. Otherwise the digits are those of the unscaled value, so a decimal is read back right
   * only without a scale, or if zero.
   */
  lemma DecimalRoundTrip(v: int, scale: int)
    requires |Digits(Abs(v))| < I16_LIMIT && -128 <= scale < 128
    ensures DecodeNumeric(NumericPayload(v, scale)).Some? <==> scale >= 0
    ensures ReadsBack(DecodeNumeric(NumericPayload(v, scale)), v, scale) <==> scale == 0 || (v == 0 && scale > 0)
  {
    NumericRoundTrip(v, scale);
    WrapScale(scale);
    ScaledDenotes(v, scale, scale);
  }
}
