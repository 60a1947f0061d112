/** Scalars of the native sources as tagged JSON values: encoder, validator and decoder. */
module ScalarCodec {
  import opened Wrappers
  import B = Binary64
  import G = JsonGrammar

  newtype byte = x: int | 0 <= x < 256

  /** A value handed to the database driver. */
  datatype Bound =
    | Nothing
    | Boolean(truth: bool)
    | Integer(number: int)
    | Text(text: string)
    | Blob(bytes: seq<byte>)
    | Real(finite: B.Finite)
    | Infinite(negative: bool)
    | NotANumber

  predicate WellTyped(v: Bound) { v.Real? ==> B.Canonical(v.finite) }

  /** What SQLite keeps of it. */
  datatype Scalar =
    | SqlNull
    | SqlInteger(number: int)
    | SqlText(text: string)
    | SqlBlob(bytes: seq<byte>)
    | SqlReal(finite: B.Finite)
    | SqlInfinite(negative: bool)

  /** A JSON value as SQLite's JSON functions see it; `Float` is a number written with a fraction or exponent. */
  datatype Json =
    | Null
    | Bool(truth: bool)
    | Whole(number: int)
    | Float(finite: B.Finite)
    | Str(text: string)
    | Array(items: seq<Json>)
    | Object(fields: map<string, Json>)

  predicate Int64(n: int) { -0x8000_0000_0000_0000 <= n < 0x8000_0000_0000_0000 }

  /** How the driver binds the value itself: booleans are integers, NaN is NULL, a wider integer is refused. */
  function BoundAs(v: Bound): Result<Scalar> {
    match v
    case Nothing => Success(SqlNull)
    case Boolean(truth) => Success(SqlInteger(if truth then 1 else 0))
    case Integer(n) => if Int64(n) then Success(SqlInteger(n)) else Failure
    case Text(text) => Success(SqlText(text))
    case Blob(bytes) => Success(SqlBlob(bytes))
    case Real(d) => Success(SqlReal(d))
    case Infinite(negative) => Success(SqlInfinite(negative))
    case NotANumber => Success(SqlNull)
  }

  // ---------- hexadecimal ----------

  function Digit(n: int): char
    requires 0 <= n < 16
  {
    if n < 10 then (n + '0' as int) as char else (n - 10 + 'a' as int) as char
  }

  function DigitValue(c: char): Option<int> {
    if '0' <= c <= '9' then Some(c as int - '0' as int)
    else if 'a' <= c <= 'f' then Some(c as int - 'a' as int + 10)
    else if 'A' <= c <= 'F' then Some(c as int - 'A' as int + 10)
    else None
  }

  function Hex(bytes: seq<byte>): string {
    if bytes == [] then ""
    else [Digit(bytes[0] as int / 16), Digit(bytes[0] as int % 16)] + Hex(bytes[1..])
  }

  function Unhex(text: string): Option<seq<byte>> {
    if text == "" then Some([])
    else if |text| == 1 then None
    else
      var high, low, rest := DigitValue(text[0]), DigitValue(text[1]), Unhex(text[2..]);
      if high.None? || low.None? || rest.None? || !(0 <= high.value * 16 + low.value < 256) then None
      else Some([(high.value * 16 + low.value) as byte] + rest.value)
  }

  lemma DigitBack(n: int)
    requires 0 <= n < 16
    ensures DigitValue(Digit(n)) == Some(n)
  {
  }

  lemma {:induction false} HexBack(bytes: seq<byte>)
    ensures |Hex(bytes)| == 2 * |bytes| && Unhex(Hex(bytes)) == Some(bytes)
  {
    if bytes != [] {
      var b := bytes[0] as int;
      DigitBack(b / 16);
      DigitBack(b % 16);
      HexBack(bytes[1..]);
      assert Hex(bytes)[2..] == Hex(bytes[1..]);
      assert Hex(bytes)[0] == Digit(b / 16) && Hex(bytes)[1] == Digit(b % 16);
      assert ((b / 16) * 16 + b % 16) as byte == bytes[0];
      assert [bytes[0]] + bytes[1..] == bytes;
    }
  }

  // ---------- encoder ----------

  function EncodedMantissa(m: B.Mantissa): Json {
    match m
    case Whole(n) => Whole(n)
    case SignedZero(negative) => Float(B.Finite(negative, 0, B.MIN_EXPONENT))
  }

  function Encode(v: Bound): Result<Json>
    requires WellTyped(v)
  {
    match v
    case Nothing => Success(Null)
    case Boolean(truth) => Success(Bool(truth))
    case Integer(n) => if Int64(n) then Success(Whole(n)) else Failure
    case Text(text) => Success(Str(text))
    case Blob(bytes) => Success(Object(map["t" := Str("blob"), "v" := Str(Hex(bytes))]))
    case Real(d) =>
      var x := B.Encode(d);
      Success(Object(map["t" := Str("real"), "m" := EncodedMantissa(x.m), "e" := Whole(x.e)]))
    case Infinite(negative) => Success(Object(map["t" := Str(if negative then "-inf" else "inf")]))
    case NotANumber => Success(Null)
  }

  // ---------- validator ----------

  predicate IsZero(d: B.Finite) { d.c == 0 }

  predicate ValidBlob(fields: map<string, Json>) {
    && fields.Keys == {"t", "v"} && fields["v"].Str?
    && |fields["v"].text| % 2 == 0 && Unhex(fields["v"].text).Some?
  }

  predicate ValidReal(fields: map<string, Json>) {
    && fields.Keys == {"t", "m", "e"} && fields["e"].Whole?
    && B.MIN_EXPONENT <= fields["e"].number <= B.MAX_EXPONENT
    && ((fields["m"].Whole? && -B.MAX_MANTISSA <= fields["m"].number <= B.MAX_MANTISSA)
        || (fields["m"].Float? && IsZero(fields["m"].finite)))
  }

  predicate Valid(j: Json) {
    match j
    case Array(_) => false
    case Object(fields) =>
      && "t" in fields && fields["t"].Str?
      && (match fields["t"].text
          case "blob" => ValidBlob(fields)
          case "real" => ValidReal(fields)
          case "inf" => fields.Keys == {"t"}
          case "-inf" => fields.Keys == {"t"}
          case _ => false)
    case _ => true
  }

  // ---------- decoder ----------

  function ReadMantissa(m: Json): B.Mantissa
    requires m.Whole? || m.Float?
  {
    if m.Whole? then B.Whole(m.number) else B.SignedZero(m.finite.negative)
  }

  function Decode(j: Json): Scalar
    requires Valid(j)
  {
    match j
    case Null => SqlNull
    case Bool(truth) => SqlInteger(if truth then 1 else 0)
    case Whole(n) => SqlInteger(n)
    case Float(d) => SqlReal(d)
    case Str(text) => SqlText(text)
    case Array(_) => SqlNull
    case Object(fields) =>
      match fields["t"].text
      case "blob" => SqlBlob(Unhex(fields["v"].text).value)
      case "real" => SqlReal(B.Decode(B.Encoded(ReadMantissa(fields["m"]), fields["e"].number)))
      case tag => SqlInfinite(tag == "-inf")
  }

  // ---------- the codec as a whole ----------

  lemma ReadBack(m: B.Mantissa)
    ensures ReadMantissa(EncodedMantissa(m)) == m
  {
  }

  /**
   * The encoder refuses exactly what the driver refuses; what it writes passes the validator and decodes to
   * the scalar the driver would have stored.
   */
  lemma EncodeSound(v: Bound)
    requires WellTyped(v)
    ensures Encode(v).Success? <==> BoundAs(v).Success?
    ensures Encode(v).Success? ==> Valid(Encode(v).value) && Success(Decode(Encode(v).value)) == BoundAs(v)
  {
    match v
    case Blob(bytes) => HexBack(bytes);
    case Real(d) => RealSound(d);
    case _ =>
  }

  lemma RealSound(d: B.Finite)
    requires WellTyped(Real(d))
    ensures Encode(Real(d)).Success? <==> BoundAs(Real(d)).Success?
    ensures Encode(Real(d)).Success? ==>
      Valid(Encode(Real(d)).value) && Success(Decode(Encode(Real(d)).value)) == BoundAs(Real(d))
  {
    B.RoundTrip(d);
    var x := B.Encode(d);
    hide B.Encode;
    hide B.Decode;
    hide B.Canonical;
    ReadBack(x.m);
    var fields := map["t" := Str("real"), "m" := EncodedMantissa(x.m), "e" := Whole(x.e)];
    assert fields.Keys == {"t", "m", "e"};
  }

  /** Values the database would store differently never share an encoding. */
  lemma EncodeInjective(v: Bound, w: Bound)
    requires WellTyped(v) && WellTyped(w) && Encode(v).Success? && Encode(v) == Encode(w)
    ensures BoundAs(v) == BoundAs(w)
  {
    EncodeSound(v);
    EncodeSound(w);
  }

  /** The validator's real objects are exactly the finite binary64 values: each is one, and each value is one. */
  lemma ValidRealIff(m: int, e: int)
    ensures
      var j := Object(map["t" := Str("real"), "m" := Whole(m), "e" := Whole(e)]);
      && (Valid(j) <==> B.Accepted(B.Encoded(B.Whole(m), e)))
      && (Valid(j) ==> Decode(j).SqlReal? && B.Canonical(Decode(j).finite) && B.Value(Decode(j).finite) == B.Units(m, e))
  {
    var fields := map["t" := Str("real"), "m" := Whole(m), "e" := Whole(e)];
    assert fields.Keys == {"t", "m", "e"};
    if B.Accepted(B.Encoded(B.Whole(m), e)) { B.DecodeExact(B.Encoded(B.Whole(m), e)); }
    hide B.Decode;
    hide B.Value;
    hide B.Units;
  }

  // ---------- exactly what is valid ----------

  /** Two hexadecimal digits, in either case, for each byte. */
  predicate HexOf(text: string, bytes: seq<byte>) {
    |text| == 2 * |bytes|
    && forall i | 0 <= i < |bytes| ::
         G.HexIs(text[2 * i], bytes[i] as int / 16) && G.HexIs(text[2 * i + 1], bytes[i] as int % 16)
  }

  lemma DigitIs(c: char)
    ensures forall d :: DigitValue(c) == Some(d) <==> G.HexIs(c, d)
    ensures DigitValue(c).Some? ==> 0 <= DigitValue(c).value < 16
  {
  }

  lemma HexHead(text: string, bytes: seq<byte>)
    requires |text| >= 2 && bytes != []
    ensures HexOf(text, bytes) <==>
      G.HexIs(text[0], bytes[0] as int / 16) && G.HexIs(text[1], bytes[0] as int % 16) && HexOf(text[2..], bytes[1..])
  {
    hide G.HexIs;
    if HexOf(text[2..], bytes[1..]) && G.HexIs(text[0], bytes[0] as int / 16) && G.HexIs(text[1], bytes[0] as int % 16) {
      forall i | 0 <= i < |bytes|
        ensures G.HexIs(text[2 * i], bytes[i] as int / 16) && G.HexIs(text[2 * i + 1], bytes[i] as int % 16)
      {
        if i > 0 {
          var k := i - 1;
          assert text[2..][2 * k] == text[2 * i] && text[2..][2 * k + 1] == text[2 * i + 1] && bytes[1..][k] == bytes[i];
        }
      }
    }
    if HexOf(text, bytes) {
      forall k | 0 <= k < |bytes[1..]|
        ensures G.HexIs(text[2..][2 * k], bytes[1..][k] as int / 16) && G.HexIs(text[2..][2 * k + 1], bytes[1..][k] as int % 16)
      {
        var i := k + 1;
        assert text[2..][2 * k] == text[2 * i] && text[2..][2 * k + 1] == text[2 * i + 1] && bytes[1..][k] == bytes[i];
      }
    }
  }

  lemma {:induction false} UnhexIff(text: string, bytes: seq<byte>)
    ensures Unhex(text) == Some(bytes) <==> HexOf(text, bytes)
    decreases |text|
  {
    hide HexOf;
    hide DigitValue;
    if |text| >= 2 && bytes != [] {
      UnhexIff(text[2..], bytes[1..]);
      HexHead(text, bytes);
      DigitIs(text[0]);
      DigitIs(text[1]);
      hide G.HexIs;
      assert bytes == [bytes[0]] + bytes[1..];
    } else {
      HexEnds(text, bytes);
    }
  }

  lemma HexEnds(text: string, bytes: seq<byte>)
    requires |text| < 2 || bytes == []
    ensures HexOf(text, bytes) <==> text == "" && bytes == []
    ensures Unhex(text) == Some(bytes) <==> text == "" && bytes == []
  {
  }

  predicate BlobObject(j: Json, text: string) { j == Object(map["t" := Str("blob"), "v" := Str(text)]) }

  predicate RealObject(j: Json, m: Json, e: int) { j == Object(map["t" := Str("real"), "m" := m, "e" := Whole(e)]) }

  /** A whole mantissa within 53 bits, or a zero written as a real, and an exponent in range. */
  predicate RealFits(j: Json, m: Json, e: int) {
    && RealObject(j, m, e) && -1074 <= e <= 971
    && ((m.Whole? && -9007199254740991 <= m.number <= 9007199254740991) || (m.Float? && m.finite.c == 0))
  }

  /** Scalars as they are; objects with exactly these fields and values: hexadecimal text, a real, an infinity. */
  lemma ValidIff(j: Json)
    ensures Valid(j) <==>
      || j.Null? || j.Bool? || j.Whole? || j.Float? || j.Str?
      || (exists text, bytes :: BlobObject(j, text) && HexOf(text, bytes))
      || (exists m, e :: RealFits(j, m, e))
      || j == Object(map["t" := Str("inf")]) || j == Object(map["t" := Str("-inf")])
  {
    if j.Object? && "t" in j.fields && j.fields["t"].Str? {
      match j.fields["t"].text
      case "blob" => BlobIff(j);
      case "real" => RealIff(j);
      case _ => OthersIff(j);
    } else {
      OthersIff(j);
    }
    hide Valid;
    hide HexOf;
  }

  lemma BlobIff(j: Json)
    requires j.Object? && "t" in j.fields && j.fields["t"] == Str("blob")
    ensures Valid(j) <==> exists text, bytes :: BlobObject(j, text) && HexOf(text, bytes)
    ensures forall m, e :: !RealFits(j, m, e)
    ensures j != Object(map["t" := Str("inf")]) && j != Object(map["t" := Str("-inf")])
  {
    if Valid(j) {
      var text := j.fields["v"].text;
      assert j.fields == map["t" := Str("blob"), "v" := Str(text)];
      var bytes := Unhex(text).value;
      UnhexIff(text, bytes);
      assert BlobObject(j, text);
    }
    if text, bytes :| BlobObject(j, text) && HexOf(text, bytes) {
      UnhexIff(text, bytes);
      assert map["t" := Str("blob"), "v" := Str(text)].Keys == {"t", "v"};
      assert |text| == 2 * |bytes|;
    }
    forall m, e ensures !RealFits(j, m, e) {
      assert map["t" := Str("real"), "m" := m, "e" := Whole(e)]["t"] == Str("real");
    }
    assert map["t" := Str("inf")]["t"] == Str("inf") && map["t" := Str("-inf")]["t"] == Str("-inf");
    hide Unhex;
    hide HexOf;
  }

  lemma RealIff(j: Json)
    requires j.Object? && "t" in j.fields && j.fields["t"] == Str("real")
    ensures Valid(j) <==> exists m, e :: RealFits(j, m, e)
    ensures forall text :: !BlobObject(j, text)
    ensures j != Object(map["t" := Str("inf")]) && j != Object(map["t" := Str("-inf")])
  {
    if Valid(j) {
      var m, e := j.fields["m"], j.fields["e"].number;
      assert j.fields == map["t" := Str("real"), "m" := m, "e" := Whole(e)];
      assert RealFits(j, m, e);
    }
    if m, e :| RealFits(j, m, e) {
      assert map["t" := Str("real"), "m" := m, "e" := Whole(e)].Keys == {"t", "m", "e"};
    }
    forall text ensures !BlobObject(j, text) {
      assert map["t" := Str("blob"), "v" := Str(text)]["t"] == Str("blob");
    }
    assert map["t" := Str("inf")]["t"] == Str("inf") && map["t" := Str("-inf")]["t"] == Str("-inf");
  }

  lemma OthersIff(j: Json)
    requires !(j.Object? && "t" in j.fields && (j.fields["t"] == Str("blob") || j.fields["t"] == Str("real")))
    ensures Valid(j) <==>
      j.Null? || j.Bool? || j.Whole? || j.Float? || j.Str? || j == Object(map["t" := Str("inf")]) || j == Object(map["t" := Str("-inf")])
    ensures (forall text :: !BlobObject(j, text)) && forall m, e :: !RealFits(j, m, e)
  {
    if j.Object? && "t" in j.fields && j.fields.Keys == {"t"} {
      assert j.fields == map["t" := j.fields["t"]];
    }
    assert map["t" := Str("inf")].Keys == {"t"} && map["t" := Str("-inf")].Keys == {"t"};
    forall text ensures !BlobObject(j, text) {
      assert map["t" := Str("blob"), "v" := Str(text)]["t"] == Str("blob");
    }
    forall m, e ensures !RealFits(j, m, e) {
      assert map["t" := Str("real"), "m" := m, "e" := Whole(e)]["t"] == Str("real");
    }
  }
}
