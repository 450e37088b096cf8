/** The encoder itself: it appends to a byte buffer, and patches list lengths in afterwards. */
module CopyEncoder {
  import opened Types
  import opened Bytes
  import opened CopyFormat
  import opened Numerics

  datatype EncodeError = ColumnCountMismatch(expected: nat, actual: nat) | FieldTooLarge(length: nat)

  class BytesMut {
    var bytes: seq<Byte>

    constructor ()
      ensures bytes == []
    {
      bytes := [];
    }

    method Put(b: seq<Byte>)
      modifies this
      ensures bytes == old(bytes) + b
    {
      bytes := bytes + b;
    }

    method PutI16(v: int)
      modifies this
      ensures bytes == old(bytes) + I16(v)
    {
      bytes := bytes + I16(v);
    }

    method PutI32(v: int)
      modifies this
      ensures bytes == old(bytes) + I32(v)
    {
      bytes := bytes + I32(v);
    }

    /** Overwrites the four bytes at `base`. */
    method PatchI32(base: nat, v: int)
      requires base + 4 <= |bytes|
      modifies this
      ensures bytes == old(bytes)[..base] + I32(v) + old(bytes)[base + 4..]
    {
      bytes := bytes[..base] + I32(v) + bytes[base + 4..];
    }
  }

  // ---- Fields ----------------------------------------------------------------------------------------

  /** Length-prefixed bytes, or the null marker. */
  method EncodeField(f: Field, buf: BytesMut) returns (r: Result<(), EncodeError>)
    modifies buf
    ensures r.Ok? <==> FieldFits(f)
    ensures r.Ok? ==> buf.bytes == old(buf.bytes) + FieldBytes(f)
  {
    match f {
      case Null => buf.PutI32(-1);
      case Payload(p) =>
        if |p| >= I32_LIMIT {
          return Err(FieldTooLarge(|p|));
        }
        buf.PutI32(|p|);
        buf.Put(p);
    }
    r := Ok(());
  }

  lemma Assoc<T>(a: seq<T>, b: seq<T>, c: seq<T>)
    ensures (a + b) + c == a + (b + c)
  {
  }

  lemma {:induction false} FieldsSnoc(fields: seq<Field>, f: Field)
    ensures FieldsBytes(fields + [f]) == FieldsBytes(fields) + FieldBytes(f)
  {
    var all := fields + [f];
    if fields == [] {
      assert all[1..] == [] && all[0] == f;
    } else {
      assert all[0] == fields[0] && all[1..] == fields[1..] + [f];
      FieldsSnoc(fields[1..], f);
      Assoc(FieldBytes(fields[0]), FieldsBytes(fields[1..]), FieldBytes(f));
    }
  }

  lemma AppendField(before: seq<Byte>, fields: seq<Field>, i: nat)
    requires i < |fields|
    ensures (before + FieldsBytes(fields[..i])) + FieldBytes(fields[i]) == before + FieldsBytes(fields[..i + 1])
  {
    FieldsSnoc(fields[..i], fields[i]);
    assert fields[..i + 1] == fields[..i] + [fields[i]];
    Assoc(before, FieldsBytes(fields[..i]), FieldBytes(fields[i]));
  }

  lemma {:induction false} FieldsTakeBytes(fields: seq<Field>)
    ensures 4 * |fields| <= |FieldsBytes(fields)|
  {
    if fields == [] {
    } else {
      FieldsTakeBytes(fields[1..]);
    }
  }

  /** Field after field. */
  method EncodeFields(fields: seq<Field>, buf: BytesMut) returns (r: Result<(), EncodeError>)
    modifies buf
    ensures r.Ok? <==> RowFits(fields)
    ensures r.Ok? ==> buf.bytes == old(buf.bytes) + FieldsBytes(fields)
  {
    for i := 0 to |fields|
      invariant buf.bytes == old(buf.bytes) + FieldsBytes(fields[..i])
      invariant forall j :: 0 <= j < i ==> FieldFits(fields[j])
    {
      r := EncodeField(fields[i], buf);
      if r.Err? {
        return;
      }
      AppendField(old(buf.bytes), fields, i);
    }
    assert fields[..|fields|] == fields;
    r := Ok(());
  }

  function ListHeader(items: seq<Field>, oid: nat): (h: seq<Byte>)
    ensures |h| == 20
  {
    I32(1) + I32(if HasNull(items) then 1 else 0) + I32(oid) + I32(|items|) + I32(1)
  }

  method PutListHeader(items: seq<Field>, oid: nat, buf: BytesMut)
    modifies buf
    ensures buf.bytes == old(buf.bytes) + ListHeader(items, oid)
  {
    buf.PutI32(1);
    buf.PutI32(if HasNull(items) then 1 else 0);
    buf.PutI32(oid);
    buf.PutI32(|items|);
    buf.PutI32(1);
  }

  /** Replacing the four bytes reserved for the length leaves the bytes of the field. */
  lemma PatchedList(before: seq<Byte>, slot: seq<Byte>, payload: seq<Byte>)
    requires |slot| == 4
    ensures var written := before + slot + payload;
            && |written| == |before| + 4 + |payload|
            && written[..|before|] + I32(|payload|) + written[|before| + 4..] == before + FieldBytes(Payload(payload))
  {
    var written := before + slot + payload;
    assert written[..|before|] == before && written[|before| + 4..] == payload;
  }

  /** A list: its length is not known before its elements are written, so it is patched in at the end. */
  method EncodeList(items: seq<Field>, oid: nat, buf: BytesMut) returns (r: Result<(), EncodeError>)
    modifies buf
    ensures r.Ok? <==> RowFits(items) && |ListPayload(items, oid)| < I32_LIMIT
    ensures r.Ok? ==> buf.bytes == old(buf.bytes) + FieldBytes(Payload(ListPayload(items, oid)))
  {
    var base := |buf.bytes|;
    buf.PutI32(0);
    r := EncodeListBody(items, oid, buf);
    if r.Err? {
      return;
    }
    ghost var payload := ListPayload(items, oid);
    PatchedList(old(buf.bytes), I32(0), payload);
    var total := |buf.bytes| - base - 4;
    assert total == |payload|;
    if total >= I32_LIMIT {
      return Err(FieldTooLarge(total));
    }
    buf.PatchI32(base, total);
  }

  /** Everything after the length. */
  method EncodeListBody(items: seq<Field>, oid: nat, buf: BytesMut) returns (r: Result<(), EncodeError>)
    modifies buf
    ensures r.Ok? <==> RowFits(items)
    ensures r.Ok? ==> buf.bytes == old(buf.bytes) + ListPayload(items, oid)
  {
    PutListHeader(items, oid, buf);
    r := EncodeFields(items, buf);
    assert ListPayload(items, oid) == ListHeader(items, oid) + FieldsBytes(items);
  }

  /** Whatever length a list is given, if it was encoded at all then a reader gets the same elements back. */
  lemma EncodedListReadsBack(items: seq<Field>, oid: nat, rest: seq<Byte>)
    requires RowFits(items) && |ListPayload(items, oid)| < I32_LIMIT && oid < I32_LIMIT
    ensures var field := FieldBytes(Payload(ListPayload(items, oid)));
            && DecodeField(field + rest) == Some((Payload(ListPayload(items, oid)), rest))
            && DecodeList(ListPayload(items, oid)) == Some(Array(oid, items))
  {
    FieldsTakeBytes(items);
    DecodeWrittenField(Payload(ListPayload(items, oid)), rest);
    ListRoundTrip(items, oid);
  }

  // ---- Numbers ---------------------------------------------------------------------------------------

  function Reversed(s: seq<nat>): seq<nat> {
    if s == [] then [] else [Last(s)] + Reversed(Front(s))
  }

  lemma {:induction false} ReversedIndex(s: seq<nat>, i: nat)
    requires i < |s|
    ensures |Reversed(s)| == |s| && Reversed(s)[i] == s[|s| - 1 - i]
  {
    if i > 0 {
      ReversedIndex(Front(s), i - 1);
    } else if |s| > 1 {
      ReversedIndex(Front(s), 0);
    }
  }

  lemma ReversedSnoc(s: seq<nat>, x: nat)
    ensures Reversed(s + [x]) == [x] + Reversed(s)
  {
    assert Front(s + [x]) == s;
  }

  lemma MoveOver(a: seq<nat>, x: nat, b: seq<nat>)
    ensures (a + [x]) + b == a + ([x] + b)
  {
  }

  lemma DigitsStep(all: seq<nat>, remaining: nat, low: seq<nat>)
    requires remaining > 0 && all == Digits(remaining) + Reversed(low)
    ensures all == Digits(remaining / NUMERIC_BASE) + Reversed(low + [remaining % NUMERIC_BASE])
  {
    ReversedSnoc(low, remaining % NUMERIC_BASE);
    MoveOver(Digits(remaining / NUMERIC_BASE), remaining % NUMERIC_BASE, Reversed(low));
  }

  lemma ReversedAll(s: seq<nat>, all: seq<nat>)
    requires all == Reversed(s)
    ensures |all| == |s| && forall i :: 0 <= i < |s| ==> s[|s| - 1 - i] == all[i]
  {
    if s == [] {
    } else {
      ReversedIndex(s, 0);
      forall i | 0 <= i < |s| ensures s[|s| - 1 - i] == all[i] {
        ReversedIndex(s, i);
      }
    }
  }

  /** Fills a fixed-size array from the least significant digit up. */
  method SplitDigits(value: nat, capacity: nat) returns (digits: array<nat>, ndigits: nat)
    requires |Digits(value)| <= capacity
    ensures fresh(digits) && ndigits == |Digits(value)| <= digits.Length
    ensures forall i :: 0 <= i < ndigits ==> digits[ndigits - 1 - i] == Digits(value)[i]
  {
    digits := new nat[capacity](_ => 0);
    ndigits := 0;
    var remaining: nat := value;
    ghost var all := Digits(value);
    while remaining > 0
      invariant ndigits <= capacity && digits.Length == capacity && fresh(digits)
      invariant all == Digits(remaining) + Reversed(digits[..ndigits]) && |Reversed(digits[..ndigits])| == ndigits
      decreases remaining
    {
      ghost var low := digits[..ndigits];
      DigitsStep(all, remaining, low);
      ReversedSnoc(low, remaining % NUMERIC_BASE);
      digits[ndigits] := remaining % NUMERIC_BASE;
      ndigits := ndigits + 1;
      assert digits[..ndigits] == low + [remaining % NUMERIC_BASE];
      remaining := remaining / NUMERIC_BASE;
    }
    ReversedAll(digits[..ndigits], all);
  }

  /** Writes the digits, most significant first. */
  method PutDigits(digits: array<nat>, ndigits: nat, ghost d: seq<nat>, buf: BytesMut)
    requires ndigits == |d| <= digits.Length
    requires forall i :: 0 <= i < ndigits ==> digits[ndigits - 1 - i] == d[i]
    modifies buf
    ensures buf.bytes == old(buf.bytes) + DigitBytes(d)
  {
    var i := ndigits;
    while i > 0
      invariant 0 <= i <= ndigits
      invariant buf.bytes == old(buf.bytes) + DigitBytes(d[..ndigits - i])
    {
      i := i - 1;
      buf.PutI16(digits[i]);
      ghost var k := ndigits - 1 - i;
      assert digits[i] == d[k] && Front(d[..k + 1]) == d[..k] && Last(d[..k + 1]) == d[k];
    }
    assert d[..ndigits] == d;
  }

  /** A NUMERIC field for an integer; zero has no digits. */
  method EncodeNumeric(value: int, dscale: int, capacity: nat, buf: BytesMut)
    requires |Digits(Abs(value))| <= capacity < 1000
    modifies buf
    ensures buf.bytes == old(buf.bytes) + FieldBytes(Payload(NumericPayload(value, dscale)))
  {
    if value == 0 {
      PutZero(dscale, buf);
    } else {
      PutNonZero(value, dscale, capacity, buf);
    }
  }

  method PutZero(dscale: int, buf: BytesMut)
    modifies buf
    ensures buf.bytes == old(buf.bytes) + FieldBytes(Payload(NumericPayload(0, dscale)))
  {
    PayloadLength(0, dscale);
    buf.PutI32(NUMERIC_HEADER_SIZE);
    PutHeader(0, 0, NUMERIC_POS, dscale, buf);
    FieldAppended(old(buf.bytes), NumericPayload(0, dscale), NUMERIC_HEADER_SIZE);
  }

  method PutNonZero(value: int, dscale: int, capacity: nat, buf: BytesMut)
    requires value != 0 && |Digits(Abs(value))| <= capacity < 1000
    modifies buf
    ensures buf.bytes == old(buf.bytes) + FieldBytes(Payload(NumericPayload(value, dscale)))
  {
    var digits, ndigits := SplitDigits(Abs(value), capacity);
    PayloadLength(value, dscale);
    PutPrefixed(value, dscale, digits, ndigits, NumericPayload(value, dscale), buf);
  }

  lemma FieldAppended(before: seq<Byte>, p: seq<Byte>, length: int)
    requires length == |p|
    ensures (before + I32(length)) + p == before + FieldBytes(Payload(p))
  {
    Assoc(before, I32(length), p);
  }

  /** The length and the payload of a number other than zero. */
  method PutPrefixed(value: int, dscale: int, digits: array<nat>, ndigits: nat, ghost p: seq<Byte>, buf: BytesMut)
    requires value != 0 && ndigits == |Digits(Abs(value))| <= digits.Length
    requires forall i :: 0 <= i < ndigits ==> digits[ndigits - 1 - i] == Digits(Abs(value))[i]
    requires p == NumericPayload(value, dscale) && |p| == NUMERIC_HEADER_SIZE + 2 * ndigits
    modifies buf
    ensures buf.bytes == old(buf.bytes) + FieldBytes(Payload(p))
  {
    buf.PutI32(NUMERIC_HEADER_SIZE + 2 * ndigits);
    PutNumeric(value, dscale, digits, ndigits, p, buf);
    FieldAppended(old(buf.bytes), p, NUMERIC_HEADER_SIZE + 2 * ndigits);
  }

  lemma PayloadLength(value: int, dscale: int)
    ensures |NumericPayload(value, dscale)| == NUMERIC_HEADER_SIZE + 2 * |Digits(Abs(value))|
    ensures value == 0 ==> NumericPayload(value, dscale) == NumericHeader(0, 0, NUMERIC_POS, dscale)
  {
    DigitBytesLength(Digits(Abs(value)));
  }

  /** The header and the digits of a number other than zero. */
  method PutNumeric(value: int, dscale: int, digits: array<nat>, ndigits: nat, ghost p: seq<Byte>, buf: BytesMut)
    requires value != 0 && ndigits == |Digits(Abs(value))| <= digits.Length
    requires forall i :: 0 <= i < ndigits ==> digits[ndigits - 1 - i] == Digits(Abs(value))[i]
    requires p == NumericPayload(value, dscale)
    modifies buf
    ensures buf.bytes == old(buf.bytes) + p
  {
    PutHeader(ndigits, ndigits - 1, if value < 0 then NUMERIC_NEG else NUMERIC_POS, dscale, buf);
    PutDigits(digits, ndigits, Digits(Abs(value)), buf);
    Assoc(old(buf.bytes), NumericHeader(ndigits, Weight(value), Sign(value), dscale), DigitBytes(Digits(Abs(value))));
  }

  method PutHeader(ndigits: int, weight: int, sign: int, dscale: int, buf: BytesMut)
    modifies buf
    ensures buf.bytes == old(buf.bytes) + NumericHeader(ndigits, weight, sign, dscale)
  {
    buf.PutI16(ndigits);
    buf.PutI16(weight);
    buf.PutI16(sign);
    buf.PutI16(dscale);
  }

  lemma {:induction false} DigitBytesLength(d: seq<nat>)
    ensures |DigitBytes(d)| == 2 * |d|
  {
    if d == [] {
    } else {
      DigitBytesLength(Front(d));
    }
  }

  method EncodeUInt64(value: nat, buf: BytesMut)
    requires value < U64_LIMIT
    modifies buf
    ensures buf.bytes == old(buf.bytes) + FieldBytes(Payload(NumericPayload(value, 0)))
    ensures DecodeNumeric(NumericPayload(value, 0)) == Some(Numeric(value, 0, 0))
  {
    LowPowers();
    DigitsNeeded(value, MAX_U64_BASE10000_DIGITS);
    NumericRoundTrip(value, 0);
    EncodeNumeric(value, 0, MAX_U64_BASE10000_DIGITS, buf);
  }

  method EncodeDecimal128(value: int, scale: int, buf: BytesMut)
    requires Abs(value) < I128_LIMIT && -128 <= scale < 128
    modifies buf
    ensures buf.bytes == old(buf.bytes) + FieldBytes(Payload(NumericPayload(value, scale)))
    ensures DecodeNumeric(NumericPayload(value, scale)).Some? <==> scale >= 0
    ensures ReadsBack(DecodeNumeric(NumericPayload(value, scale)), value, scale) <==>
            scale == 0 || (value == 0 && scale > 0)
  {
    FewDigits(Abs(value));
    DecimalRoundTrip(value, scale);
    EncodeNumeric(value, scale, MAX_I128_BASE10000_DIGITS, buf);
  }

  lemma FewDigits(v: nat)
    requires v < I128_LIMIT
    ensures |Digits(v)| <= MAX_I128_BASE10000_DIGITS
  {
    HighPowers();
    assert PowerOfBase(10) == 10_000 * TEN_TO_36;
    DigitsNeeded(v, 10);
  }

  // ---- Batches ---------------------------------------------------------------------------------------

  ghost predicate Rectangular(columns: seq<seq<Field>>, rows: nat) {
    forall c :: 0 <= c < |columns| ==> |columns[c]| == rows
  }

  /** Row `r` across all columns. */
  function RowAt(columns: seq<seq<Field>>, r: nat): CopyRow
    requires forall c :: 0 <= c < |columns| ==> r < |columns[c]|
  {
    seq(|columns|, c requires 0 <= c < |columns| => columns[c][r])
  }

  function Transposed(columns: seq<seq<Field>>, rows: nat): seq<CopyRow>
    requires forall c :: 0 <= c < |columns| ==> rows <= |columns[c]|
  {
    seq(rows, r requires 0 <= r < rows => RowAt(columns, r))
  }

  lemma {:induction false} RowsSnoc(rows: seq<CopyRow>, row: CopyRow)
    ensures RowsBytes(rows + [row]) == RowsBytes(rows) + RowBytes(row)
  {
    var all := rows + [row];
    if rows == [] {
      assert all[1..] == [] && all[0] == row;
    } else {
      assert all[0] == rows[0] && all[1..] == rows[1..] + [row];
      RowsSnoc(rows[1..], row);
      Assoc(RowBytes(rows[0]), RowsBytes(rows[1..]), RowBytes(row));
    }
  }

  lemma AppendRow(before: seq<Byte>, rows: seq<CopyRow>, i: nat)
    requires i < |rows|
    ensures (before + RowsBytes(rows[..i])) + RowBytes(rows[i]) == before + RowsBytes(rows[..i + 1])
  {
    RowsSnoc(rows[..i], rows[i]);
    assert rows[..i + 1] == rows[..i] + [rows[i]];
    Assoc(before, RowsBytes(rows[..i]), RowBytes(rows[i]));
  }

  /** One row: the column count, truncated to 16 bits, and each column's field. */
  method EncodeRow(columns: seq<seq<Field>>, r: nat, buf: BytesMut) returns (ok: Result<(), EncodeError>)
    requires forall c :: 0 <= c < |columns| ==> r < |columns[c]|
    modifies buf
    ensures ok.Ok? <==> RowFits(RowAt(columns, r))
    ensures ok.Ok? ==> buf.bytes == old(buf.bytes) + RowBytes(RowAt(columns, r))
  {
    buf.PutI16(|columns|);
    ok := EncodeFields(RowAt(columns, r), buf);
  }

  predicate RowsFit(table: seq<CopyRow>) {
    forall i :: 0 <= i < |table| ==> RowFits(table[i])
  }

  method EncodeNextRow(columns: seq<seq<Field>>, i: nat, ghost before: seq<Byte>, ghost table: seq<CopyRow>,
                       buf: BytesMut)
    returns (ok: Result<(), EncodeError>)
    requires forall c :: 0 <= c < |columns| ==> i < |columns[c]|
    requires i < |table| && table[i] == RowAt(columns, i) && buf.bytes == before + RowsBytes(table[..i])
    modifies buf
    ensures ok.Ok? <==> RowFits(table[i])
    ensures ok.Ok? ==> buf.bytes == before + RowsBytes(table[..i + 1])
  {
    ok := EncodeRow(columns, i, buf);
    AppendRow(before, table, i);
  }

  method EncodeRows(columns: seq<seq<Field>>, rows: nat, ghost table: seq<CopyRow>, buf: BytesMut)
    returns (ok: Result<(), EncodeError>)
    requires Rectangular(columns, rows) && |table| == rows
    requires forall i :: 0 <= i < rows ==> table[i] == RowAt(columns, i)
    modifies buf
    ensures ok.Ok? <==> RowsFit(table)
    ensures ok.Ok? ==> buf.bytes == old(buf.bytes) + RowsBytes(table)
  {
    for i := 0 to rows
      invariant buf.bytes == old(buf.bytes) + RowsBytes(table[..i])
      invariant forall j :: 0 <= j < i ==> RowFits(table[j])
    {
      ok := EncodeNextRow(columns, i, old(buf.bytes), table, buf);
      if ok.Err? {
        return;
      }
    }
    assert table[..rows] == table;
    ok := Ok(());
  }

  method PutCopyHeader(buf: BytesMut)
    requires buf.bytes == []
    modifies buf
    ensures buf.bytes == HEADER
  {
    buf.Put(SIGNATURE);
    buf.PutI32(0);
    buf.PutI32(0);
  }

  lemma BatchReadsBack(columns: seq<seq<Field>>, rows: nat)
    requires Rectangular(columns, rows) && RowsFit(Transposed(columns, rows))
    ensures DecodeCopy(CopyBytes(Transposed(columns, rows))) == Some(Transposed(columns, rows)) <==>
            rows == 0 || |columns| < I16_LIMIT
  {
    CopyRoundTrip(Transposed(columns, rows), |columns|);
  }

  /** Header, rows and trailer; fails on the wrong number of columns or a field too large for its length prefix. */
  method EncodeBatch(fields: nat, columns: seq<seq<Field>>, rows: nat) returns (r: Result<seq<Byte>, EncodeError>)
    requires Rectangular(columns, rows)
    ensures r.Ok? <==> |columns| == fields && RowsFit(Transposed(columns, rows))
    ensures r.Ok? ==> r.value == CopyBytes(Transposed(columns, rows))
    ensures r.Ok? ==> (DecodeCopy(r.value) == Some(Transposed(columns, rows)) <==> rows == 0 || fields < I16_LIMIT)
  {
    if |columns| != fields {
      return Err(ColumnCountMismatch(fields, |columns|));
    }
    var buf := new BytesMut();
    var ok := EncodeTable(columns, rows, Transposed(columns, rows), buf);
    if ok.Err? {
      return Err(ok.error);
    }
    BatchReadsBack(columns, rows);
    r := Ok(buf.bytes);
  }

  method EncodeTable(columns: seq<seq<Field>>, rows: nat, ghost table: seq<CopyRow>, buf: BytesMut)
    returns (ok: Result<(), EncodeError>)
    requires Rectangular(columns, rows) && |table| == rows && buf.bytes == []
    requires forall i :: 0 <= i < rows ==> table[i] == RowAt(columns, i)
    modifies buf
    ensures ok.Ok? <==> RowsFit(table)
    ensures ok.Ok? ==> buf.bytes == CopyBytes(table)
  {
    PutCopyHeader(buf);
    ok := EncodeAfterHeader(columns, rows, table, buf);
  }

  method EncodeAfterHeader(columns: seq<seq<Field>>, rows: nat, ghost table: seq<CopyRow>, buf: BytesMut)
    returns (ok: Result<(), EncodeError>)
    requires Rectangular(columns, rows) && |table| == rows
    requires forall i :: 0 <= i < rows ==> table[i] == RowAt(columns, i)
    modifies buf
    ensures ok.Ok? <==> RowsFit(table)
    ensures ok.Ok? ==> buf.bytes == old(buf.bytes) + RowsBytes(table) + I16(-1)
  {
    ok := EncodeRows(columns, rows, table, buf);
    if ok.Ok? {
      buf.PutI16(-1);
    }
  }
}
