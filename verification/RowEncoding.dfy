/**
  The framed encoding of a database row and the digest of a row set
  (scripts/g3-forward-adoption-readonly-witness.py, typed, row_digest and rowset).
*/
module RowEncoding {
  import opened Options
  import opened Decimal

  type Byte = b: nat | b < 256

  type Bytes = seq<Byte>

  /** A value as SQLite hands it out: text by its UTF-8 bytes, a float by its eight bytes. */
  datatype SqlValue = Null | Blob(bytes: Bytes) | Text(utf8: Bytes) | Integer(n: int) | Real(ieee: Bytes)

  predicate WellFormed(v: SqlValue) { v.Real? ==> |v.ieee| == 8 }

  const TAG_NULL: Byte := 78
  const TAG_BLOB: Byte := 66
  const TAG_TEXT: Byte := 84
  const TAG_INTEGER: Byte := 73
  const TAG_REAL: Byte := 70
  const MINUS: Byte := 45
  const ZERO: Byte := 48
  const SEMICOLON: Byte := 59

  /** Small numbers as bytes, counted up from `base`. */
  function AsBytes(digits: seq<nat>, base: nat): (bytes: Bytes)
    requires forall d :: d in digits ==> base + d < 256
    ensures |bytes| == |digits| && forall i :: 0 <= i < |digits| ==> bytes[i] == base + digits[i]
  {
    if digits == [] then []
    else
      assert digits[0] in digits && forall d :: d in digits[1..] ==> d in digits;
      var first: Byte := base + digits[0];
      [first] + AsBytes(digits[1..], base)
  }

  /** `to_bytes(8, "big")`, which raises OverflowError from 2 to the 64th on. */
  function Length8(n: nat): (bytes: Bytes)
    ensures |bytes| == 8
  {
    AsBytes(Word(n, 8), 0)
  }

  predicate FitsLength(bytes: Bytes) { |bytes| < Capacity(8) }

  function AsciiDigits(n: nat): Bytes { AsBytes(Digits(n), ZERO) }

  /** `str(value).encode("ascii")` */
  function AsciiInteger(n: int): Bytes { if n < 0 then [MINUS] + AsciiDigits(-n) else AsciiDigits(n) }

  function Typed(v: SqlValue): Bytes {
    match v
    case Null => [TAG_NULL]
    case Blob(bytes) => [TAG_BLOB] + Length8(|bytes|) + bytes
    case Text(utf8) => [TAG_TEXT] + Length8(|utf8|) + utf8
    case Integer(n) => [TAG_INTEGER] + AsciiInteger(n) + [SEMICOLON]
    case Real(ieee) => [TAG_REAL] + ieee
  }

  function Frame(field: Bytes): Bytes { Length8(|field|) + field }

  function Framed(row: seq<SqlValue>): Bytes {
    if row == [] then [] else Frame(Typed(row[0])) + Framed(row[1..])
  }

  /** Every field is short enough to be framed. */
  predicate Encodable(row: seq<SqlValue>) {
    forall v :: v in row ==> WellFormed(v) && FitsLength(Typed(v))
  }

  // ---------------------------------------------------------------- the bytes themselves

  lemma {:induction false} ZeroWord(width: nat)
    ensures Word(0, width) == seq(width, _ => 0)
  {
    if width > 0 { ZeroWord(width - 1); }
  }

  /** Lengths have eight bytes, the most significant first. */
  lemma LengthBytes(n: nat)
    requires n < 65536
    ensures Length8(n) == [0, 0, 0, 0, 0, 0, n / 256, n % 256]
  {
    ZeroWord(6);
    assert Word(n / 256, 7) == Word(0, 6) + [n / 256];
    assert Word(n, 8) == [0, 0, 0, 0, 0, 0, n / 256, n % 256];
  }

  lemma CapacityIs()
    ensures Capacity(8) == 18446744073709551616
  {
    assert Capacity(2) == 65536;
    assert Capacity(4) == 65536 * 65536;
    assert Capacity(6) == 65536 * 65536 * 65536;
  }

  lemma MinusTen()
    ensures Typed(Integer(-10)) == [73, 45, 49, 48, 59]
  {
    assert Digits(10) == Digits(1) + [0] == [1, 0];
    assert AsciiDigits(10) == [49, 48];
  }

  lemma FrameBytes(field: Bytes)
    requires |field| < 256
    ensures Frame(field) == [0, 0, 0, 0, 0, 0, 0, |field|] + field
  {
    LengthBytes(|field|);
  }

  /** One field of each kind, byte by byte. */
  lemma NullBytes()
    ensures Frame(Typed(Null)) == [0, 0, 0, 0, 0, 0, 0, 1, 78]
  {
    FrameBytes([78]);
  }

  lemma CountedBytes(tag: Byte, bytes: Bytes)
    requires |bytes| < 247
    ensures var typed := [tag] + Length8(|bytes|) + bytes;
            Frame(typed) == [0, 0, 0, 0, 0, 0, 0, |bytes| + 9] + ([tag] + [0, 0, 0, 0, 0, 0, 0, |bytes|] + bytes)
  {
    LengthBytes(|bytes|);
    FrameBytes([tag] + Length8(|bytes|) + bytes);
  }

  lemma BlobBytes(bytes: Bytes)
    requires |bytes| < 247
    ensures Frame(Typed(Blob(bytes)))
            == [0, 0, 0, 0, 0, 0, 0, |bytes| + 9] + ([66] + [0, 0, 0, 0, 0, 0, 0, |bytes|] + bytes)
  {
    CountedBytes(66, bytes);
  }

  lemma TextBytes(utf8: Bytes)
    requires |utf8| < 247
    ensures Frame(Typed(Text(utf8)))
            == [0, 0, 0, 0, 0, 0, 0, |utf8| + 9] + ([84] + [0, 0, 0, 0, 0, 0, 0, |utf8|] + utf8)
  {
    CountedBytes(84, utf8);
  }

  lemma RealBytes(ieee: Bytes)
    requires |ieee| == 8
    ensures Frame(Typed(Real(ieee))) == [0, 0, 0, 0, 0, 0, 0, 9, 70] + ieee
  {
    FrameBytes([70] + ieee);
  }

  lemma MinusTenBytes()
    ensures Frame(Typed(Integer(-10))) == [0, 0, 0, 0, 0, 0, 0, 5] + [73, 45, 49, 48, 59]
  {
    MinusTen();
    FrameBytes([73, 45, 49, 48, 59]);
  }

  /** Integers are decimal, without a leading zero, and with a minus exactly when they are negative. */
  lemma PlainIntegers(n: int)
    ensures n == 0 ==> AsciiInteger(n) == [48]
    ensures n > 0 ==> AsciiInteger(n) != [] && 49 <= AsciiInteger(n)[0] <= 57
    ensures n < 0 ==> AsciiInteger(n) == [45] + AsciiInteger(-n)
  {
    var digits := Digits(if n < 0 then -n else n);
    if n > 0 {
      DigitsValue(n);
      assert digits[0] in digits;
    }
  }

  /** A row is its fields' frames, one after the other. */
  lemma {:induction false} FramesJoin(a: seq<SqlValue>, b: seq<SqlValue>)
    ensures Framed(a + b) == Framed(a) + Framed(b)
  {
    if a == [] {
      assert a + b == b;
    } else {
      assert (a + b)[0] == a[0] && (a + b)[1..] == a[1..] + b;
      FramesJoin(a[1..], b);
    }
  }

  // ---------------------------------------------------------------- a decoder

  function Length8Value(bytes: Bytes): nat
    requires |bytes| == 8
  {
    Value(256, bytes)
  }

  lemma Length8RoundTrip(n: nat)
    requires n < Capacity(8)
    ensures Length8Value(Length8(n)) == n
  {
    WordValue(n, 8);
    assert Length8(n) == Word(n, 8);
  }

  predicate AllDigits(bytes: Bytes) { forall b :: b in bytes ==> ZERO <= b < ZERO + 10 }

  function DigitValues(bytes: Bytes): (digits: seq<nat>)
    requires AllDigits(bytes)
    ensures |digits| == |bytes| && forall i :: 0 <= i < |bytes| ==> digits[i] == bytes[i] - ZERO
  {
    if bytes == [] then []
    else
      assert bytes[0] in bytes && forall b :: b in bytes[1..] ==> b in bytes;
      [bytes[0] - ZERO] + DigitValues(bytes[1..])
  }

  lemma AsciiDigitsRoundTrip(n: nat)
    ensures |AsciiDigits(n)| > 0 && AllDigits(AsciiDigits(n)) && Value(10, DigitValues(AsciiDigits(n))) == n
  {
    var digits := Digits(n);
    forall b | b in AsciiDigits(n) ensures ZERO <= b < ZERO + 10 {
      var i :| 0 <= i < |digits| && AsciiDigits(n)[i] == b;
      assert digits[i] in digits;
    }
    assert DigitValues(AsciiDigits(n)) == digits;
    DigitsValue(n);
  }

  function ParseInteger(bytes: Bytes): Option<int> {
    if bytes != [] && bytes[0] == MINUS && AllDigits(bytes[1..]) then
      var n: int := 0 - Value(10, DigitValues(bytes[1..]));
      Some(n)
    else if AllDigits(bytes) then
      var n: int := Value(10, DigitValues(bytes));
      Some(n)
    else None
  }

  lemma ParsesDigits(bytes: Bytes)
    requires bytes != [] && AllDigits(bytes)
    ensures ParseInteger(bytes) == Some(Value(10, DigitValues(bytes)))
  {
    assert bytes[0] in bytes;
  }

  lemma NegativeRoundTrip(n: nat)
    ensures ParseInteger([MINUS] + AsciiDigits(n)) == Some(0 - n)
  {
    AsciiDigitsRoundTrip(n);
    assert ([MINUS] + AsciiDigits(n))[1..] == AsciiDigits(n);
  }

  lemma IntegerRoundTrip(n: int)
    ensures ParseInteger(AsciiInteger(n)) == Some(n)
  {
    if n < 0 {
      NegativeRoundTrip(-n);
      assert AsciiInteger(n) == [MINUS] + AsciiDigits(-n);
    } else {
      AsciiDigitsRoundTrip(n);
      ParsesDigits(AsciiDigits(n));
    }
  }

  function DecodeField(field: Bytes): Option<SqlValue> {
    if field == [] then None
    else if field == [TAG_NULL] then Some(Null)
    else if field[0] == TAG_BLOB && |field| >= 9 then Some(Blob(field[9..]))
    else if field[0] == TAG_TEXT && |field| >= 9 then Some(Text(field[9..]))
    else if field[0] == TAG_REAL then Some(Real(field[1..]))
    else if field[0] == TAG_INTEGER && |field| >= 2 then
      match ParseInteger(field[1..|field| - 1]) case Some(n) => Some(Integer(n)) case None => None
    else None
  }

  lemma CountedRoundTrip(tag: Byte, bytes: Bytes)
    ensures ([tag] + Length8(|bytes|) + bytes)[0] == tag
    ensures ([tag] + Length8(|bytes|) + bytes)[9..] == bytes
  {}

  lemma IntegerFieldRoundTrip(n: int)
    ensures DecodeField([TAG_INTEGER] + AsciiInteger(n) + [SEMICOLON]) == Some(Integer(n))
  {
    IntegerRoundTrip(n);
    Delimited(TAG_INTEGER, AsciiInteger(n), SEMICOLON);
  }

  lemma Delimited(tag: Byte, bytes: Bytes, end: Byte)
    ensures var field := [tag] + bytes + [end];
            |field| == |bytes| + 2 && field[0] == tag && field[1..|field| - 1] == bytes
  {}

  lemma FieldRoundTrip(v: SqlValue)
    ensures DecodeField(Typed(v)) == Some(v)
  {
    match v
    case Null => {}
    case Blob(bytes) => CountedRoundTrip(TAG_BLOB, bytes);
    case Text(utf8) => CountedRoundTrip(TAG_TEXT, utf8);
    case Integer(n) => IntegerFieldRoundTrip(n);
    case Real(ieee) => assert ([TAG_REAL] + ieee)[1..] == ieee;
  }

  function DecodeRow(bytes: Bytes): Option<seq<SqlValue>>
    decreases |bytes|
  {
    if bytes == [] then Some([])
    else if |bytes| < 8 then None
    else
      var n := Length8Value(bytes[..8]);
      if |bytes| < 8 + n then None
      else
        match (DecodeField(bytes[8..8 + n]), DecodeRow(bytes[8 + n..]))
        case (Some(v), Some(rest)) => Some([v] + rest)
        case _ => None
  }

  /** One frame, read off. */
  lemma FrameRoundTrip(field: Bytes, rest: Bytes)
    requires FitsLength(field)
    ensures var bytes := Frame(field) + rest;
            && |bytes| >= 8 && Length8Value(bytes[..8]) == |field| && |bytes| >= 8 + |field|
            && bytes[8..8 + |field|] == field && bytes[8 + |field|..] == rest
  {
    Length8RoundTrip(|field|);
    var bytes := Frame(field) + rest;
    assert bytes[..8] == Length8(|field|);
  }

  lemma OneField(v: SqlValue, bytes: Bytes, rest: Bytes, tail: seq<SqlValue>)
    requires FitsLength(Typed(v)) && bytes == Frame(Typed(v)) + rest && DecodeRow(rest) == Some(tail)
    ensures DecodeRow(bytes) == Some([v] + tail)
  {
    FrameRoundTrip(Typed(v), rest);
    FieldRoundTrip(v);
  }

  lemma TailEncodable(row: seq<SqlValue>)
    requires Encodable(row) && row != []
    ensures Encodable(row[1..]) && FitsLength(Typed(row[0]))
  {
    assert row[0] in row && forall v :: v in row[1..] ==> v in row;
  }

  /** The row comes back from its frames, whatever its width and types. */
  lemma {:induction false} RowRoundTrip(row: seq<SqlValue>)
    requires Encodable(row)
    ensures DecodeRow(Framed(row)) == Some(row)
  {
    if row != [] {
      TailEncodable(row);
      RowRoundTrip(row[1..]);
      OneField(row[0], Framed(row), Framed(row[1..]), row[1..]);
      assert [row[0]] + row[1..] == row;
    }
  }

  /** So no two rows share an encoding. */
  lemma FramedInjective(a: seq<SqlValue>, b: seq<SqlValue>)
    requires Encodable(a) && Encodable(b)
    ensures Framed(a) == Framed(b) <==> a == b
  {
    RowRoundTrip(a);
    RowRoundTrip(b);
  }
}
