/** The byte encoding of scalar values at the driver boundary. */
module ValueCodec {
  import opened Bytes
  import opened ControlTypes

  // ---------- values, tags, errors ----------

  /** A raw value. Floats are their 64-bit pattern, strings their bytes. */
  datatype RawValue =
    | RawBool(b: bool)
    | RawI64(i: int)
    | RawU64(u: nat)
    | RawF64(bits: nat)
    | RawString(text: Text)
    | RawBytes(bytes: seq<Byte>)
    | RawComplex

  /** What the value types admit. */
  ghost predicate WellFormed(v: RawValue) {
    match v
    case RawI64(i) => -0x8000_0000_0000_0000 <= i <= 0x7FFF_FFFF_FFFF_FFFF
    case RawU64(u) => u < 0x1_0000_0000_0000_0000
    case RawF64(bits) => bits < 0x1_0000_0000_0000_0000
    case RawString(text) => IsUtf8(text)
    case _ => true
  }

  const BOOL := 1
  const I8 := 2
  const I16 := 3
  const I32 := 4
  const I64 := 5
  const U8 := 6
  const U16 := 7
  const U32 := 8
  const U64 := 9
  const F32 := 10
  const F64 := 11
  const STRING := 12
  const BYTES := 13
  const ARRAY := 14
  const STRUCT := 15

  datatype Error =
    | UnknownTag(tag: nat)
    | ComplexTypeNeedsSchema(tag: nat)
    | TypeMismatch(tag: nat)
    | ComplexTypeNotEncodable
    | InvalidLength(tag: nat, expected: nat, actual: nat)
    | InvalidBool(byte: Byte)
    | OutOfRange(tag: nat)
    | InvalidUtf8

  datatype Result<T> = Ok(value: T) | Err(error: Error)

  /** Conversions between the two float formats, on bit patterns; `None` is an overflow. */
  datatype Floats = Floats(narrow: nat -> Option<nat>, widen: nat -> nat)

  // ---------- little endian ----------

  function Pow256(w: nat): (p: nat)
    ensures p > 0
  {
    if w == 0 then 1 else 256 * Pow256(w - 1)
  }

  /** The `w` low bytes of `n`, lowest first. */
  function LittleEndian(n: nat, w: nat): (r: seq<Byte>)
    ensures |r| == w
  {
    if w == 0 then [] else [n % 256] + LittleEndian(n / 256, w - 1)
  }

  function FromLittleEndian(bytes: seq<Byte>): nat {
    if bytes == [] then 0 else bytes[0] + 256 * FromLittleEndian(bytes[1..])
  }

  lemma {:induction false} LittleEndianReads(n: nat, w: nat)
    requires n < Pow256(w)
    ensures FromLittleEndian(LittleEndian(n, w)) == n
  {
    if w > 0 {
      LittleEndianReads(n / 256, w - 1);
      assert LittleEndian(n, w)[1..] == LittleEndian(n / 256, w - 1);
    }
  }

  lemma {:induction false} PowSplit(w: nat, k: nat)
    requires k <= w
    ensures Pow256(w) == Pow256(k) * Pow256(w - k)
  {
    if k > 0 {
      PowSplit(w - 1, k - 1);
    }
  }

  lemma DivTwice(n: int, p: nat)
    requires p > 0
    ensures n / 256 / p == n / (256 * p)
  {
    var a := n / 256;
    var q := a / p;
    assert n == 256 * a + n % 256 && a == p * q + a % p;
    assert n == (256 * p) * q + (256 * (a % p) + n % 256);
    DivIs(n, 256 * p, q, 256 * (a % p) + n % 256);
  }

  lemma DivIs(n: int, d: nat, q: int, r: nat)
    requires n == d * q + r && r < d
    ensures n / d == q
  {
    var x := q - n / d;
    assert d * x == n % d - r by {
      assert n == d * (n / d) + n % d;
      assert d * x == d * q - d * (n / d);
    }
    Multiples(d, x);
  }

  lemma Multiples(d: int, x: int)
    requires d > 0
    ensures x >= 1 ==> d * x >= d
    ensures x <= -1 ==> d * x <= -d
  {
    assert d * x == d * (x - 1) + d && d * x == d * (x + 1) - d;
    assert x >= 1 ==> d * (x - 1) >= 0;
    assert x <= -1 ==> d * (x + 1) <= 0;
  }

  /** Byte `k` is the `k`-th digit to base 256, from the lowest. */
  lemma {:induction false} LittleEndianByte(n: nat, w: nat, k: nat)
    requires k < w
    ensures LittleEndian(n, w)[k] == n / Pow256(k) % 256
  {
    if k > 0 {
      LittleEndianByte(n / 256, w - 1, k - 1);
      DivTwice(n, Pow256(k - 1));
    }
  }

  /** The digits of a negative number are those of its two's complement. */
  lemma WrappedByte(i: int, w: nat, k: nat)
    requires SignedFits(i, w) && k < w
    ensures LittleEndian(Wrap(i, w), w)[k] == i / Pow256(k) % 256
  {
    LittleEndianByte(Wrap(i, w), w, k);
    if i < 0 {
      PowSplit(w, k);
      ShiftedDigit(i, Pow256(k), Pow256(w - k - 1));
    }
  }

  lemma ShiftedDigit(i: int, p: nat, high: nat)
    requires p > 0
    ensures (i + p * (256 * high)) / p % 256 == i / p % 256
  {
    DivPlus(i, p, 256 * high);
  }

  lemma DivPlus(i: int, p: nat, m: nat)
    requires p > 0
    ensures (i + p * m) / p == i / p + m
  {
    Distribute(p, i / p, m);
    DivIs(i + p * m, p, i / p + m, i % p);
  }

  lemma Distribute(p: int, a: int, b: int)
    ensures p * (a + b) == p * a + p * b
  {
  }

  lemma LowByte(low: nat, rest: nat)
    requires low < 256
    ensures (low + 256 * rest) % 256 == low && (low + 256 * rest) / 256 == rest
  {
  }

  lemma {:induction false} LittleEndianWrites(bytes: seq<Byte>)
    ensures FromLittleEndian(bytes) < Pow256(|bytes|)
    ensures LittleEndian(FromLittleEndian(bytes), |bytes|) == bytes
  {
    if bytes != [] {
      LittleEndianWrites(bytes[1..]);
      LowByte(bytes[0], FromLittleEndian(bytes[1..]));
    }
  }

  /** Two's complement in `w` bytes. */
  function Wrap(i: int, w: nat): nat
    requires -(Pow256(w) as int) <= i
  {
    if i < 0 then i + Pow256(w) else i
  }

  function Unwrap(n: nat, w: nat): int {
    if 2 * n < Pow256(w) then n else n - Pow256(w)
  }

  predicate SignedFits(i: int, w: nat) {
    -(Pow256(w) as int) <= 2 * i < Pow256(w)
  }

  lemma WrapRoundTrip(i: int, n: nat, w: nat)
    ensures SignedFits(i, w) ==> Wrap(i, w) < Pow256(w) && Unwrap(Wrap(i, w), w) == i
    ensures w > 0 && n < Pow256(w) ==> SignedFits(Unwrap(n, w), w) && Wrap(Unwrap(n, w), w) == n
  {
  }

  // ---------- the codec ----------

  /** Width of an integer or 64-bit float tag. */
  function Width(tag: nat): nat {
    if tag == I8 || tag == U8 then 1
    else if tag == I16 || tag == U16 then 2
    else if tag == I32 || tag == U32 then 4
    else 8
  }

  predicate IsSigned(tag: nat) { I8 <= tag <= I64 }

  predicate IsUnsigned(tag: nat) { U8 <= tag <= U64 }

  function EncodeScalar(tag: nat, v: RawValue, floats: Floats): Result<seq<Byte>> {
    match v
    case RawBool(b) => if tag == BOOL then Ok([if b then 1 else 0]) else Err(TypeMismatch(tag))
    case RawI64(i) =>
      if !IsSigned(tag) then Err(TypeMismatch(tag))
      else if SignedFits(i, Width(tag)) then Ok(LittleEndian(Wrap(i, Width(tag)), Width(tag)))
      else Err(OutOfRange(tag))
    case RawU64(u) =>
      if !IsUnsigned(tag) then Err(TypeMismatch(tag))
      else if u < Pow256(Width(tag)) then Ok(LittleEndian(u, Width(tag)))
      else Err(OutOfRange(tag))
    case RawF64(bits) =>
      if tag == F64 then Ok(LittleEndian(bits, 8))
      else if tag == F32 then
        (match floats.narrow(bits) case None => Err(OutOfRange(tag)) case Some(small) => Ok(LittleEndian(small, 4)))
      else Err(TypeMismatch(tag))
    case RawString(text) => if tag == STRING then Ok(text) else Err(TypeMismatch(tag))
    case RawBytes(bytes) => if tag == BYTES then Ok(bytes) else Err(TypeMismatch(tag))
    case RawComplex => Err(TypeMismatch(tag))
  }

  function Encode(tag: nat, v: RawValue, floats: Floats): Result<seq<Byte>> {
    if !(BOOL <= tag <= STRUCT) then Err(UnknownTag(tag))
    else if tag == ARRAY || tag == STRUCT then Err(ComplexTypeNotEncodable)
    else EncodeScalar(tag, v, floats)
  }

  /** The exact length a tag asks for, if it does. */
  function ExactLength(tag: nat): Option<nat> {
    if tag == BOOL then Some(1)
    else if IsSigned(tag) || IsUnsigned(tag) || tag == F64 then Some(Width(tag))
    else if tag == F32 then Some(4)
    else None
  }

  function DecodeScalar(tag: nat, bytes: seq<Byte>, floats: Floats): Result<RawValue>
    requires BOOL <= tag <= BYTES && (ExactLength(tag).Some? ==> |bytes| == ExactLength(tag).value)
  {
    if tag == BOOL then
      if bytes[0] == 0 then Ok(RawBool(false))
      else if bytes[0] == 1 then Ok(RawBool(true))
      else Err(InvalidBool(bytes[0]))
    else if IsSigned(tag) then Ok(RawI64(Unwrap(FromLittleEndian(bytes), Width(tag))))
    else if IsUnsigned(tag) then Ok(RawU64(FromLittleEndian(bytes)))
    else if tag == F32 then Ok(RawF64(floats.widen(FromLittleEndian(bytes))))
    else if tag == F64 then Ok(RawF64(FromLittleEndian(bytes)))
    else if tag == STRING then (if IsUtf8(bytes) then Ok(RawString(bytes)) else Err(InvalidUtf8))
    else Ok(RawBytes(bytes))
  }

  function Decode(tag: nat, bytes: seq<Byte>, floats: Floats): Result<RawValue> {
    if !(BOOL <= tag <= STRUCT) then Err(UnknownTag(tag))
    else if tag == ARRAY || tag == STRUCT then Err(ComplexTypeNotEncodable)
    else if ExactLength(tag).Some? && |bytes| != ExactLength(tag).value
    then Err(InvalidLength(tag, ExactLength(tag).value, |bytes|))
    else DecodeScalar(tag, bytes, floats)
  }

  // ---------- what is accepted, and what the bytes are ----------

  lemma Powers()
    ensures Pow256(1) == 0x100 && Pow256(2) == 0x1_0000 && Pow256(4) == 0x1_0000_0000
    ensures Pow256(8) == 0x1_0000_0000_0000_0000
  {
    assert Pow256(3) == 0x100_0000;
    assert Pow256(5) == 0x100_0000_0000;
    assert Pow256(6) == 0x1_0000_0000_0000;
    assert Pow256(7) == 0x100_0000_0000_0000;
  }

  /** The numbers a signed tag takes. */
  predicate TakesSigned(tag: nat, i: int) {
    || (tag == I8 && -0x80 <= i <= 0x7F)
    || (tag == I16 && -0x8000 <= i <= 0x7FFF)
    || (tag == I32 && -0x8000_0000 <= i <= 0x7FFF_FFFF)
    || (tag == I64 && -0x8000_0000_0000_0000 <= i <= 0x7FFF_FFFF_FFFF_FFFF)
  }

  predicate TakesUnsigned(tag: nat, u: nat) {
    || (tag == U8 && u <= 0xFF)
    || (tag == U16 && u <= 0xFFFF)
    || (tag == U32 && u <= 0xFFFF_FFFF)
    || (tag == U64 && u <= 0xFFFF_FFFF_FFFF_FFFF)
  }

  /** A value encodes exactly under a tag of its kind whose range it lies in. Of the refusals, an unknown tag
      comes first, then a composite one, then a tag of another kind, then the range. */
  lemma EncodesIff(tag: nat, v: RawValue, floats: Floats)
    ensures Encode(tag, v, floats).Ok? <==>
              match v
              case RawBool(_) => tag == BOOL
              case RawI64(i) => TakesSigned(tag, i)
              case RawU64(u) => TakesUnsigned(tag, u)
              case RawF64(bits) => tag == F64 || (tag == F32 && floats.narrow(bits).Some?)
              case RawString(_) => tag == STRING
              case RawBytes(_) => tag == BYTES
              case RawComplex => false
    ensures Encode(tag, v, floats) == Err(UnknownTag(tag)) <==> tag < 1 || tag > 15
    ensures Encode(tag, v, floats) == Err(ComplexTypeNotEncodable) <==> tag == 14 || tag == 15
    ensures Encode(tag, v, floats) == Err(OutOfRange(tag)) <==>
              || (v.RawI64? && 2 <= tag <= 5 && !TakesSigned(tag, v.i))
              || (v.RawU64? && 6 <= tag <= 9 && !TakesUnsigned(tag, v.u))
              || (v.RawF64? && tag == 10 && floats.narrow(v.bits).None?)
  {
    Powers();
  }

  /** An integer's bytes are its digits to base 256, lowest first, and as many as its tag is wide. */
  lemma EncodedDigits(tag: nat, v: RawValue, floats: Floats, k: nat)
    requires Encode(tag, v, floats).Ok? && (v.RawI64? || v.RawU64?)
    requires k < |Encode(tag, v, floats).value|
    ensures Encode(tag, v, floats).value[k] == (if v.RawI64? then v.i else v.u) / Pow256(k) % 256
    ensures |Encode(tag, v, floats).value| ==
              if tag == I8 || tag == U8 then 1 else if tag == I16 || tag == U16 then 2
              else if tag == I32 || tag == U32 then 4 else 8
  {
    if v.RawI64? {
      WrappedByte(v.i, Width(tag), k);
    } else {
      LittleEndianByte(v.u, Width(tag), k);
    }
  }

  /** Bytes decode exactly under a scalar tag whose length they have, a truth value being 0 or 1 and a string
      well-formed. */
  lemma DecodesIff(tag: nat, bytes: seq<Byte>, floats: Floats)
    ensures Decode(tag, bytes, floats).Ok? <==>
              || (tag == BOOL && (bytes == [0] || bytes == [1]))
              || ((tag == I8 || tag == U8) && |bytes| == 1)
              || ((tag == I16 || tag == U16) && |bytes| == 2)
              || ((tag == I32 || tag == U32 || tag == F32) && |bytes| == 4)
              || ((tag == I64 || tag == U64 || tag == F64) && |bytes| == 8)
              || (tag == STRING && IsUtf8(bytes))
              || tag == BYTES
    ensures Decode(tag, bytes, floats) == Err(UnknownTag(tag)) <==> tag < 1 || tag > 15
    ensures Decode(tag, bytes, floats) == Err(ComplexTypeNotEncodable) <==> tag == 14 || tag == 15
    ensures Decode(tag, bytes, floats) == Err(InvalidUtf8) <==> tag == 12 && !IsUtf8(bytes)
  {
    if tag == BOOL && |bytes| == 1 {
      assert bytes == [bytes[0]];
    }
  }

  // ---------- round trips ----------

  lemma Pow256Eight()
    ensures Pow256(8) == 0x1_0000_0000_0000_0000
  {
  }

  /** Decoding an accepted encoding gives the value back, single precision apart. */
  lemma DecodeEncode(tag: nat, v: RawValue, floats: Floats)
    requires WellFormed(v) && tag != F32 && Encode(tag, v, floats).Ok?
    ensures Decode(tag, Encode(tag, v, floats).value, floats) == Ok(v)
  {
    match v
    case RawI64(i) =>
      WrapRoundTrip(i, 0, Width(tag));
      LittleEndianReads(Wrap(i, Width(tag)), Width(tag));
    case RawU64(u) => LittleEndianReads(u, Width(tag));
    case RawF64(bits) =>
      Pow256Eight();
      LittleEndianReads(bits, 8);
    case _ =>
  }

  /** Encoding what accepted bytes decode to gives the bytes back, single precision apart. */
  lemma EncodeDecode(tag: nat, bytes: seq<Byte>, floats: Floats)
    requires tag != F32 && Decode(tag, bytes, floats).Ok?
    ensures Encode(tag, Decode(tag, bytes, floats).value, floats) == Ok(bytes)
    ensures WellFormed(Decode(tag, bytes, floats).value)
  {
    LittleEndianWrites(bytes);
    Pow256Eight();
    if IsSigned(tag) {
      WrapRoundTrip(0, FromLittleEndian(bytes), Width(tag));
      WidthMonotone(tag);
    } else if IsUnsigned(tag) {
      WidthMonotone(tag);
    } else if tag == BOOL {
      assert bytes == [bytes[0]];
    }
  }

  lemma WidthMonotone(tag: nat)
    ensures Pow256(Width(tag)) <= Pow256(8)
  {
  }

  /** The tag the loader writes a value under. */
  function TagFor(v: RawValue): Option<nat> {
    match v
    case RawBool(_) => Some(BOOL)
    case RawI64(_) => Some(I64)
    case RawU64(_) => Some(U64)
    case RawF64(_) => Some(F64)
    case RawString(_) => Some(STRING)
    case RawBytes(_) => Some(BYTES)
    case RawComplex => None
  }

  /** Every scalar value encodes under the loader's tag and decodes to itself; others have none. */
  lemma LoaderRoundTrip(v: RawValue, floats: Floats)
    requires WellFormed(v)
    ensures TagFor(v).None? <==> v.RawComplex?
    ensures TagFor(v).Some? ==>
              && Encode(TagFor(v).value, v, floats).Ok?
              && Decode(TagFor(v).value, Encode(TagFor(v).value, v, floats).value, floats) == Ok(v)
  {
    Pow256Eight();
    if TagFor(v).Some? {
      DecodeEncode(TagFor(v).value, v, floats);
    }
  }

  // ---------- type tags ----------

  datatype DataType =
    | BoolType | I8Type | I16Type | I32Type | I64Type | U8Type | U16Type | U32Type | U64Type
    | F32Type | F64Type | StringType | BytesType
    | ArrayType(elem: DataType) | StructType(fields: seq<(string, DataType)>)

  function TagOf(t: DataType): nat {
    match t
    case BoolType => BOOL
    case I8Type => I8
    case I16Type => I16
    case I32Type => I32
    case I64Type => I64
    case U8Type => U8
    case U16Type => U16
    case U32Type => U32
    case U64Type => U64
    case F32Type => F32
    case F64Type => F64
    case StringType => STRING
    case BytesType => BYTES
    case ArrayType(_) => ARRAY
    case StructType(_) => STRUCT
  }

  const SCALARS := [BoolType, I8Type, I16Type, I32Type, I64Type, U8Type, U16Type, U32Type, U64Type, F32Type, F64Type,
                    StringType, BytesType]

  /** Zero stands for an unspecified type. */
  function DataTypeToTag(t: Option<DataType>): nat {
    match t
    case None => 0
    case Some(dt) => TagOf(dt)
  }

  function TagToDataType(tag: nat): Result<Option<DataType>> {
    if tag == 0 then Ok(None)
    else if tag > STRUCT then Err(UnknownTag(tag))
    else if tag == ARRAY || tag == STRUCT then Err(ComplexTypeNeedsSchema(tag))
    else Ok(Some(SCALARS[tag - 1]))
  }

  /** Tags and types translate into each other, but for the two types a tag cannot describe. */
  lemma TagRoundTrip(t: Option<DataType>, tag: nat)
    ensures var back := TagToDataType(DataTypeToTag(t));
            if t.Some? && (t.value.ArrayType? || t.value.StructType?)
            then back == Err(ComplexTypeNeedsSchema(TagOf(t.value))) else back == Ok(t)
    ensures TagToDataType(tag).Ok? ==> DataTypeToTag(TagToDataType(tag).value) == tag
    ensures TagToDataType(tag).Ok? <==> tag <= BYTES
  {
  }
}
