/** PostgreSQL's COPY binary format: the encoder's framing, and an independent decoder. */
module CopyFormat {
  import opened Types
  import opened Bytes

  // ---- Integers --------------------------------------------------------------------------------------

  const I16_LIMIT: nat := 0x8000
  const I32_LIMIT: nat := 0x8000_0000
  const I16_WIDTH: nat := 2
  const I32_WIDTH: nat := 4

  /** The two's complement bytes of `v as i16`, which keeps only the low 16 bits. */
  function I16(v: int): (b: seq<Byte>)
    ensures |b| == 2
  {
    BigEndian(v % (2 * I16_LIMIT), I16_WIDTH)
  }

  function I32(v: int): (b: seq<Byte>)
    ensures |b| == 4
  {
    BigEndian(v % (2 * I32_LIMIT), I32_WIDTH)
  }

  /** What truncation to 16 bits makes of a count. */
  function WrapI16(v: int): int {
    var u := v % (2 * I16_LIMIT);
    if u < I16_LIMIT then u else u - 2 * I16_LIMIT
  }

  function ReadI16(b: seq<Byte>): (r: Option<(int, seq<Byte>)>)
    ensures r.Some? ==> |r.value.1| == |b| - 2
  {
    if |b| < 2 then None
    else
      var u := Value(b[..2]);
      Some((if u < 0x8000 then u else u - 0x1_0000, b[2..]))
  }

  function ReadI32(b: seq<Byte>): (r: Option<(int, seq<Byte>)>)
    ensures r.Some? ==> |r.value.1| == |b| - 4
  {
    if |b| < 4 then None
    else
      var u := Value(b[..4]);
      Some((if u < 0x8000_0000 then u else u - 0x1_0000_0000, b[4..]))
  }

  lemma Powers()
    ensures Power256(2) == 2 * I16_LIMIT && Power256(4) == 2 * I32_LIMIT
  {
    assert Power256(1) == 256;
    assert Power256(3) == 256 * Power256(2);
  }

  lemma ReadWrittenI16(v: int, rest: seq<Byte>)
    ensures ReadI16(I16(v) + rest) == Some((WrapI16(v), rest))
  {
    Powers();
    ValueOfBigEndian(v % (2 * I16_LIMIT), I16_WIDTH);
    assert (I16(v) + rest)[..2] == I16(v) && (I16(v) + rest)[2..] == rest;
  }

  lemma ReadWrittenI32(v: int, rest: seq<Byte>)
    requires -0x8000_0000 <= v < I32_LIMIT
    ensures ReadI32(I32(v) + rest) == Some((v, rest))
  {
    Powers();
    ValueOfBigEndian(v % (2 * I32_LIMIT), I32_WIDTH);
    assert (I32(v) + rest)[..4] == I32(v) && (I32(v) + rest)[4..] == rest;
  }

  // ---- The format ------------------------------------------------------------------------------------

  datatype Field = Null | Payload(bytes: seq<Byte>)
  type CopyRow = seq<Field>

  /** A signature of eleven bytes, flags and the length of an absent extension. */
  const SIGNATURE: seq<Byte> := [0x50, 0x47, 0x43, 0x4F, 0x50, 0x59, 0x0A, 0xFF, 0x0D, 0x0A, 0x00]
  const HEADER: seq<Byte> := SIGNATURE + I32(0) + I32(0)

  function FieldBytes(f: Field): seq<Byte> {
    match f
    case Null => I32(-1)
    case Payload(p) => I32(|p|) + p
  }

  function FieldsBytes(fields: seq<Field>): seq<Byte> {
    if fields == [] then [] else FieldBytes(fields[0]) + FieldsBytes(fields[1..])
  }

  function RowBytes(row: CopyRow): seq<Byte> {
    I16(|row|) + FieldsBytes(row)
  }

  function RowsBytes(rows: seq<CopyRow>): seq<Byte> {
    if rows == [] then [] else RowBytes(rows[0]) + RowsBytes(rows[1..])
  }

  function CopyBytes(rows: seq<CopyRow>): seq<Byte> {
    HEADER + RowsBytes(rows) + I16(-1)
  }

  predicate FieldFits(f: Field) {
    f.Payload? ==> |f.bytes| < I32_LIMIT
  }

  predicate RowFits(row: CopyRow) {
    forall i :: 0 <= i < |row| ==> FieldFits(row[i])
  }

  // ---- The decoder -----------------------------------------------------------------------------------

  function DecodeField(b: seq<Byte>): (r: Option<(Field, seq<Byte>)>)
    ensures r.Some? ==> |r.value.1| <= |b|
  {
    match ReadI32(b)
    case None => None
    case Some((n, rest)) =>
      if n == -1 then Some((Null, rest))
      else if n < 0 || n > |rest| then None
      else Some((Payload(rest[..n]), rest[n..]))
  }

  function DecodeFields(b: seq<Byte>, n: nat): (r: Option<(seq<Field>, seq<Byte>)>)
    ensures r.Some? ==> |r.value.0| == n && |r.value.1| <= |b|
  {
    if n == 0 then Some(([], b))
    else
      match DecodeField(b)
      case None => None
      case Some((f, rest)) =>
        match DecodeFields(rest, n - 1)
        case None => None
        case Some((fs, after)) => Some(([f] + fs, after))
  }

  /** Tuples up to the trailer, which must be the end of the data. */
  function DecodeRows(b: seq<Byte>): Option<seq<CopyRow>>
    decreases |b|
  {
    match ReadI16(b)
    case None => None
    case Some((n, rest)) =>
      if n == -1 then (if rest == [] then Some([]) else None)
      else if n < 0 then None
      else
        match DecodeFields(rest, n)
        case None => None
        case Some((row, after)) =>
          match DecodeRows(after)
          case None => None
          case Some(rows) => Some([row] + rows)
  }

  /** The signature PGCOPY, newline, 255, return, newline, zero; then four bytes of flags and four of no extension. */
  predicate StartsLikeCopy(b: seq<Byte>) {
    |b| >= 19 && b[..19] == [0x50, 0x47, 0x43, 0x4F, 0x50, 0x59, 0x0A, 0xFF, 0x0D, 0x0A, 0x00, 0, 0, 0, 0, 0, 0, 0, 0]
  }

  function DecodeCopy(b: seq<Byte>): Option<seq<CopyRow>> {
    if StartsLikeCopy(b) then DecodeRows(b[19..]) else None
  }

  // ---- Round trip ------------------------------------------------------------------------------------

  lemma DecodeWrittenField(f: Field, rest: seq<Byte>)
    requires FieldFits(f)
    ensures DecodeField(FieldBytes(f) + rest) == Some((f, rest))
  {
    match f
    case Null => ReadWrittenI32(-1, rest);
    case Payload(p) =>
      assert I32(|p|) + p + rest == I32(|p|) + (p + rest);
      ReadWrittenI32(|p|, p + rest);
      assert (p + rest)[..|p|] == p && (p + rest)[|p|..] == rest;
  }

  lemma {:induction false} DecodeWrittenFields(fields: seq<Field>, rest: seq<Byte>)
    requires forall i :: 0 <= i < |fields| ==> FieldFits(fields[i])
    ensures DecodeFields(FieldsBytes(fields) + rest, |fields|) == Some((fields, rest))
  {
    if fields == [] {
      assert FieldsBytes(fields) + rest == rest;
    } else {
      var more := FieldsBytes(fields[1..]) + rest;
      assert FieldsBytes(fields) + rest == FieldBytes(fields[0]) + more;
      DecodeWrittenField(fields[0], more);
      DecodeWrittenFields(fields[1..], rest);
      OneMoreField(FieldBytes(fields[0]) + more, fields[0], more, fields[1..], rest);
      assert [fields[0]] + fields[1..] == fields;
    }
  }

  lemma OneMoreField(b: seq<Byte>, f: Field, more: seq<Byte>, fs: seq<Field>, rest: seq<Byte>)
    requires DecodeField(b) == Some((f, more)) && DecodeFields(more, |fs|) == Some((fs, rest))
    ensures DecodeFields(b, |fs| + 1) == Some(([f] + fs, rest))
  {
  }

  /** The rows and the trailer, as the decoder meets them. */
  function Tuples(rows: seq<CopyRow>): seq<Byte> {
    RowsBytes(rows) + I16(-1)
  }

  lemma FirstTuple(rows: seq<CopyRow>)
    requires rows != []
    ensures Tuples(rows) == I16(|rows[0]|) + (FieldsBytes(rows[0]) + Tuples(rows[1..]))
  {
  }

  lemma ReadSmallI16(v: int, rest: seq<Byte>)
    requires -1 <= v < I16_LIMIT
    ensures ReadI16(I16(v) + rest) == Some((v, rest))
  {
    ReadWrittenI16(v, rest);
  }

  lemma ReadTrailer()
    ensures DecodeRows(Tuples([])) == Some([])
  {
    assert Tuples([]) == I16(-1) + [];
    ReadSmallI16(-1, []);
  }

  lemma {:induction false} DecodeWrittenRows(rows: seq<CopyRow>)
    requires forall i :: 0 <= i < |rows| ==> RowFits(rows[i]) && |rows[i]| < I16_LIMIT
    ensures DecodeRows(Tuples(rows)) == Some(rows)
  {
    if rows == [] {
      ReadTrailer();
    } else {
      FirstTuple(rows);
      ReadSmallI16(|rows[0]|, FieldsBytes(rows[0]) + Tuples(rows[1..]));
      DecodeWrittenFields(rows[0], Tuples(rows[1..]));
      DecodeWrittenRows(rows[1..]);
      assert [rows[0]] + rows[1..] == rows;
    }
  }

  lemma ZeroWord()
    ensures I32(0) == [0, 0, 0, 0]
  {
    assert BigEndian(0, 1) == [0];
    assert BigEndian(0, 2) == BigEndian(0, 1) + [0];
    assert BigEndian(0, 3) == BigEndian(0, 2) + [0];
    assert BigEndian(0, I32_WIDTH) == BigEndian(0, 3) + [0];
  }

  /** The header on the wire is the one the format prescribes. */
  lemma HeaderBytes(body: seq<Byte>)
    ensures |HEADER| == 19 && StartsLikeCopy(HEADER + body)
  {
    ZeroWord();
    assert (HEADER + body)[..19] == HEADER;
  }

  lemma DecodeBody(body: seq<Byte>)
    ensures DecodeCopy(HEADER + body) == DecodeRows(body)
  {
    HeaderBytes(body);
    assert (HEADER + body)[19..] == body;
  }

  /** A tuple whose column count does not fit 16 bits is read with a different number of fields, or not at all. */
  lemma WrappedCountLost(rows: seq<CopyRow>)
    requires rows != [] && |rows[0]| >= I16_LIMIT
    ensures DecodeRows(Tuples(rows)) != Some(rows)
  {
    FirstTuple(rows);
    ReadWrittenI16(|rows[0]|, FieldsBytes(rows[0]) + Tuples(rows[1..]));
  }

  /**
   * Decoding gives back exactly the encoded rows, if and only if there are none or the column count fits the
   * 16 bits it is written in.
   */
  lemma CopyRoundTrip(rows: seq<CopyRow>, columns: nat)
    requires forall i :: 0 <= i < |rows| ==> |rows[i]| == columns && RowFits(rows[i])
    ensures DecodeCopy(CopyBytes(rows)) == Some(rows) <==> rows == [] || columns < I16_LIMIT
  {
    assert CopyBytes(rows) == HEADER + Tuples(rows);
    DecodeBody(Tuples(rows));
    if rows == [] || columns < I16_LIMIT {
      DecodeWrittenRows(rows);
    } else {
      WrappedCountLost(rows);
    }
  }

  // ---- Lists -----------------------------------------------------------------------------------------

  predicate HasNull(items: seq<Field>) {
    exists i :: 0 <= i < |items| && items[i].Null?
  }

  /** One dimension, the nulls flag, the element type, the length, the lower bound and the elements. */
  function ListPayload(items: seq<Field>, oid: nat): seq<Byte> {
    I32(1) + I32(if HasNull(items) then 1 else 0) + I32(oid) + I32(|items|) + I32(1) + FieldsBytes(items)
  }

  datatype Array = Array(oid: int, items: seq<Field>)

  function DecodeList(b: seq<Byte>): Option<Array> {
    match ReadI32(b)
    case None => None
    case Some((dimensions, b1)) =>
      match ReadI32(b1)
      case None => None
      case Some((nulls, b2)) =>
        match ReadI32(b2)
        case None => None
        case Some((oid, b3)) =>
          match ReadI32(b3)
          case None => None
          case Some((length, b4)) =>
            match ReadI32(b4)
            case None => None
            case Some((lower, b5)) =>
              if dimensions != 1 || lower != 1 || length < 0 then None
              else
                match DecodeFields(b5, length)
                case None => None
                case Some((items, rest)) =>
                  if rest == [] && nulls == (if HasNull(items) then 1 else 0) then Some(Array(oid, items)) else None
  }

  lemma ListRoundTrip(items: seq<Field>, oid: nat)
    requires RowFits(items) && oid < I32_LIMIT && |items| < I32_LIMIT
    ensures DecodeList(ListPayload(items, oid)) == Some(Array(oid, items))
  {
    var flag := if HasNull(items) then 1 else 0;
    var e := FieldsBytes(items) + [];
    var d := I32(1) + e;
    var c := I32(|items|) + d;
    var b := I32(oid) + c;
    var a := I32(flag) + b;
    assert ListPayload(items, oid) == I32(1) + a;
    ReadWrittenI32(1, a);
    ReadWrittenI32(flag, b);
    ReadWrittenI32(oid, c);
    ReadWrittenI32(|items|, d);
    ReadWrittenI32(1, e);
    DecodeWrittenFields(items, []);
  }
}
