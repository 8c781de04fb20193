/** Command validation: typing of nested parameters, lossless representability, ranges. */
module Validate {
  import opened ControlTypes

  // ---------- values and types ----------

  /** A binary floating-point number as far as validation looks at it. */
  datatype Float = Finite(r: real) | Infinite(positive: bool) | NaN

  datatype IntType = I8 | I16 | I32 | I64 | U8 | U16 | U32 | U64

  datatype Value =
    | BoolValue(b: bool)
    | IntValue(kind: IntType, n: int)
    | F32Value(f: Float)
    | F64Value(f: Float)
    | StringValue(text: string)
    | BytesValue(bytes: seq<nat>)
    | ArrayValue(items: seq<Value>)
    | StructValue(values: seq<FieldValue>)

  datatype FieldValue = FieldValue(name: string, value: Value)

  datatype DataType =
    | BoolType
    | IntegerType(kind: IntType)
    | F32Type
    | F64Type
    | StringType
    | BytesType
    | ArrayType(elem: DataType)
    | StructType(fields: seq<FieldType>)

  datatype FieldType = FieldType(name: string, dataType: DataType)

  function Low(t: IntType): int {
    match t
    case I8 => -0x80
    case I16 => -0x8000
    case I32 => -0x8000_0000
    case I64 => -0x8000_0000_0000_0000
    case _ => 0
  }

  function High(t: IntType): int {
    match t
    case I8 => 0x7F
    case I16 => 0x7FFF
    case I32 => 0x7FFF_FFFF
    case I64 => 0x7FFF_FFFF_FFFF_FFFF
    case U8 => 0xFF
    case U16 => 0xFFFF
    case U32 => 0xFFFF_FFFF
    case U64 => 0xFFFF_FFFF_FFFF_FFFF
  }

  predicate InRange(n: int, t: IntType) {
    Low(t) <= n <= High(t)
  }

  /** Integers below these are exact in the two float formats. */
  const F32_EXACT := 0x100_0000
  const F64_EXACT := 0x20_0000_0000_0000
  /** Finite numbers of at least this magnitude become infinite in single precision: 2^128 - 2^103. */
  const F32_OVERFLOW := 340282356779733661637539395458142568448.0

  predicate IsNumeric(v: Value) {
    v.IntValue? || v.F32Value? || v.F64Value?
  }

  // ---------- the checks ----------

  predicate HasNonFinite(v: Value) {
    match v
    case F32Value(f) => !f.Finite?
    case F64Value(f) => !f.Finite?
    case ArrayValue(items) => exists i :: 0 <= i < |items| && HasNonFinite(items[i])
    case StructValue(values) => exists i :: 0 <= i < |values| && HasNonFinite(values[i].value)
    case _ => false
  }

  predicate Matches(v: Value, t: DataType)
    decreases t
  {
    match t
    case BoolType => v.BoolValue?
    case StringType => v.StringValue?
    case BytesType => v.BytesValue?
    case ArrayType(elem) => v.ArrayValue? && forall i :: 0 <= i < |v.items| ==> Matches(v.items[i], elem)
    case StructType(fields) =>
      && v.StructValue? && |fields| == |v.values|
      && forall i :: 0 <= i < |fields| ==> MatchedIn(v.values, fields[i])
    case _ => IsNumeric(v)
  }

  /** Some value of the field's name matches the field's type. */
  predicate MatchedIn(values: seq<FieldValue>, f: FieldType)
    decreases f
  {
    exists j :: 0 <= j < |values| && values[j].name == f.name && Matches(values[j].value, f.dataType)
  }

  predicate IsIntegral(r: real) {
    r == r.Floor as real
  }

  function Magnitude(n: int): nat { if n < 0 then -n else n }

  predicate FloatFits(f: Float, t: IntType) {
    f.Finite? && IsIntegral(f.r) && -(F64_EXACT as real) < f.r < F64_EXACT as real && InRange(f.r.Floor, t)
  }

  predicate Representable(v: Value, t: DataType)
    decreases t
  {
    match t
    case ArrayType(elem) => v.ArrayValue? ==> forall i :: 0 <= i < |v.items| ==> Representable(v.items[i], elem)
    case StructType(fields) =>
      v.StructValue? ==>
        forall i, j :: 0 <= i < |fields| && 0 <= j < |v.values| && v.values[j].name == fields[i].name ==>
          Representable(v.values[j].value, fields[i].dataType)
    case F32Type =>
      if v.F64Value? then v.f.Finite? && -F32_OVERFLOW < v.f.r < F32_OVERFLOW
      else v.IntValue? ==> Magnitude(v.n) < F32_EXACT
    case F64Type => v.IntValue? ==> Magnitude(v.n) < F64_EXACT
    case IntegerType(k) =>
      if v.IntValue? then InRange(v.n, k) else if IsNumeric(v) then FloatFits(v.f, k) else true
    case _ => true
  }

  // ---------- what acceptance means ----------

  /** No struct schema, at any depth, names a field twice. */
  ghost predicate DistinctNames(t: DataType)
    decreases t
  {
    match t
    case ArrayType(elem) => DistinctNames(elem)
    case StructType(fields) =>
      && (forall i, j :: 0 <= i < j < |fields| ==> fields[i].name != fields[j].name)
      && forall i :: 0 <= i < |fields| ==> DistinctNames(fields[i].dataType)
    case _ => true
  }

  predicate Declares(fields: seq<FieldType>, name: string) {
    exists i :: 0 <= i < |fields| && fields[i].name == name
  }

  predicate Carries(values: seq<FieldValue>, name: string) {
    exists j :: 0 <= j < |values| && values[j].name == name
  }

  /** Fields and values correspond one to one by name. */
  ghost predicate OneToOne(fields: seq<FieldType>, values: seq<FieldValue>) {
    && |fields| == |values|
    && (forall i, j :: 0 <= i < j < |values| ==> values[i].name != values[j].name)
    && (forall j :: 0 <= j < |values| ==> Declares(fields, values[j].name))
    && (forall i :: 0 <= i < |fields| ==> Carries(values, fields[i].name))
  }

  /** The value carries what the type describes, and nothing is lost by storing it there: an integer
      target holds exactly the integer the value is; a float target holds an integer exactly and a
      finite number without overflow; structs correspond field by field. */
  ghost predicate Fits(v: Value, t: DataType)
    decreases t
  {
    match t
    case BoolType => v.BoolValue?
    case StringType => v.StringValue?
    case BytesType => v.BytesValue?
    case ArrayType(elem) => v.ArrayValue? && forall i :: 0 <= i < |v.items| ==> Fits(v.items[i], elem)
    case StructType(fields) =>
      && v.StructValue? && OneToOne(fields, v.values)
      && forall i, j :: 0 <= i < |fields| && 0 <= j < |v.values| && v.values[j].name == fields[i].name ==>
           Fits(v.values[j].value, fields[i].dataType)
    case IntegerType(k) => IsNumeric(v) && exists n :: IsInteger(v, n) && InRange(n, k)
    case F32Type => FitsFloat(v, F32_EXACT) && (v.F64Value? ==> -F32_OVERFLOW < v.f.r < F32_OVERFLOW)
    case F64Type => FitsFloat(v, F64_EXACT)
  }

  ghost predicate FitsFloat(v: Value, exact: int) {
    (v.IntValue? && -exact < v.n < exact) || ((v.F32Value? || v.F64Value?) && v.f.Finite?)
  }

  /** The number `v` is exactly the integer `n`, and for floats one the format tells apart from its
      neighbours. */
  ghost predicate IsInteger(v: Value, n: int) {
    match v
    case IntValue(_, m) => m == n
    case F32Value(f) => f == Finite(n as real) && -F64_EXACT < n < F64_EXACT
    case F64Value(f) => f == Finite(n as real) && -F64_EXACT < n < F64_EXACT
    case _ => false
  }

  predicate Accepts(v: Value, t: DataType) {
    !HasNonFinite(v) && Matches(v, t) && Representable(v, t)
  }

  // ---------- pigeonhole ----------

  function NameSet(names: seq<string>): set<string> {
    set n | n in names
  }

  ghost predicate Distinct(names: seq<string>) {
    forall i, j :: 0 <= i < j < |names| ==> names[i] != names[j]
  }

  /** A list has as many different names as entries exactly when no name repeats. */
  lemma {:induction false} NameCount(names: seq<string>)
    ensures |NameSet(names)| <= |names|
    ensures |NameSet(names)| == |names| <==> Distinct(names)
  {
    if names != [] {
      var init, last := names[..|names| - 1], names[|names| - 1];
      NameCount(init);
      assert forall n :: n in names <==> n in init || n == last;
      assert NameSet(names) == NameSet(init) + {last};
      if last in init {
        var i :| 0 <= i < |init| && init[i] == last;
        assert NameSet(names) == NameSet(init) && names[i] == names[|names| - 1];
      } else {
        assert Distinct(init) ==> Distinct(names);
        assert Distinct(names) ==> Distinct(init) by {
          assert forall i :: 0 <= i < |init| ==> init[i] == names[i];
        }
      }
    }
  }

  lemma {:induction false} SubsetSize(a: set<string>, b: set<string>)
    requires a <= b
    ensures |a| <= |b|
    ensures |a| == |b| ==> a == b
  {
    if a != {} {
      var x :| x in a;
      SubsetSize(a - {x}, b - {x});
      assert a == a - {x} + {x} && b == b - {x} + {x};
    }
  }

  /** If each of n different names occurs among n others, the two lists have the same names once each. */
  lemma Pigeonhole(a: seq<string>, b: seq<string>)
    requires Distinct(a) && |a| == |b| && forall n :: n in a ==> n in b
    ensures Distinct(b) && forall n :: n in b ==> n in a
  {
    NameCount(a);
    NameCount(b);
    SubsetSize(NameSet(a), NameSet(b));
    assert forall n :: n in b <==> n in NameSet(b);
  }

  function FieldNames(fields: seq<FieldType>): seq<string> {
    seq(|fields|, i requires 0 <= i < |fields| => fields[i].name)
  }

  function ValueNames(values: seq<FieldValue>): seq<string> {
    seq(|values|, i requires 0 <= i < |values| => values[i].name)
  }

  /** Equal length and every declared field present already force a one-to-one correspondence. */
  lemma PresentIsOneToOne(fields: seq<FieldType>, values: seq<FieldValue>)
    requires |fields| == |values| && forall i, j :: 0 <= i < j < |fields| ==> fields[i].name != fields[j].name
    requires forall i :: 0 <= i < |fields| ==> Carries(values, fields[i].name)
    ensures OneToOne(fields, values)
  {
    var a, b := FieldNames(fields), ValueNames(values);
    forall n | n in a ensures n in b {
      var i :| 0 <= i < |a| && a[i] == n;
      assert Carries(values, fields[i].name);
      var j :| 0 <= j < |values| && values[j].name == fields[i].name;
      assert b[j] == n;
    }
    Pigeonhole(a, b);
    forall i, j | 0 <= i < j < |values| ensures values[i].name != values[j].name {
      assert b[i] == values[i].name && b[j] == values[j].name;
    }
    forall j | 0 <= j < |values| ensures Declares(fields, values[j].name) {
      assert b[j] in a;
      var i :| 0 <= i < |a| && a[i] == b[j];
      assert fields[i].name == values[j].name;
    }
  }

  // ---------- acceptance is lossless ----------

  lemma LeafIff(v: Value, t: DataType)
    requires !t.ArrayType? && !t.StructType?
    ensures Accepts(v, t) <==> Fits(v, t)
  {
  }

  /** A command parameter is accepted if and only if it fits its declared type. */
  lemma {:induction false} AcceptsIff(v: Value, t: DataType)
    requires DistinctNames(t)
    ensures Accepts(v, t) <==> Fits(v, t)
    decreases t
  {
    match t
    case ArrayType(elem) =>
      if v.ArrayValue? {
        forall i | 0 <= i < |v.items| ensures Accepts(v.items[i], elem) <==> Fits(v.items[i], elem) {
          AcceptsIff(v.items[i], elem);
        }
      }
    case StructType(fields) =>
      if v.StructValue? {
        forall i, j | 0 <= i < |fields| && 0 <= j < |v.values|
          ensures Accepts(v.values[j].value, fields[i].dataType) <==> Fits(v.values[j].value, fields[i].dataType)
        {
          AcceptsIff(v.values[j].value, fields[i].dataType);
        }
        if Accepts(v, t) {
          StructAccepted(fields, v.values);
        }
        if Fits(v, t) {
          StructFits(fields, v.values);
        }
      }
    case _ => LeafIff(v, t);
  }

  ghost predicate PairsAgree(fields: seq<FieldType>, values: seq<FieldValue>) {
    forall i, j :: 0 <= i < |fields| && 0 <= j < |values| ==>
      (Accepts(values[j].value, fields[i].dataType) <==> Fits(values[j].value, fields[i].dataType))
  }

  /** What acceptance of a struct says about its pairs of equal name. */
  lemma AcceptedPair(fields: seq<FieldType>, values: seq<FieldValue>, i: nat, j: nat)
    requires Accepts(StructValue(values), StructType(fields)) && OneToOne(fields, values)
    requires i < |fields| && j < |values| && values[j].name == fields[i].name
    ensures Accepts(values[j].value, fields[i].dataType)
  {
    var v, t := StructValue(values), StructType(fields);
    assert MatchedIn(v.values, t.fields[i]);
    var k :| 0 <= k < |values| && values[k].name == fields[i].name && Matches(values[k].value, fields[i].dataType);
    assert k == j;
    assert Representable(v.values[j].value, t.fields[i].dataType);
    assert !HasNonFinite(v.values[j].value);
  }

  lemma AcceptedCarries(fields: seq<FieldType>, values: seq<FieldValue>, i: nat)
    requires Matches(StructValue(values), StructType(fields)) && i < |fields|
    ensures |fields| == |values| && Carries(values, fields[i].name)
  {
  }

  lemma StructAccepted(fields: seq<FieldType>, values: seq<FieldValue>)
    requires PairsAgree(fields, values) && Accepts(StructValue(values), StructType(fields))
    requires forall i, j :: 0 <= i < j < |fields| ==> fields[i].name != fields[j].name
    ensures Fits(StructValue(values), StructType(fields))
  {
    forall i | 0 <= i < |fields| ensures Carries(values, fields[i].name) {
      AcceptedCarries(fields, values, i);
    }
    PresentIsOneToOne(fields, values);
    forall i, j | 0 <= i < |fields| && 0 <= j < |values| && values[j].name == fields[i].name
      ensures Fits(values[j].value, fields[i].dataType)
    {
      AcceptedPair(fields, values, i, j);
    }
  }

  lemma StructFits(fields: seq<FieldType>, values: seq<FieldValue>)
    requires PairsAgree(fields, values) && Fits(StructValue(values), StructType(fields))
    ensures Accepts(StructValue(values), StructType(fields))
  {
  }

  // ---------- distinct field names are exactly what it takes ----------

  /** A value of the type, with every number zero and every array of length one. */
  ghost function Sample(t: DataType): Value
    decreases t
  {
    match t
    case BoolType => BoolValue(false)
    case IntegerType(k) => IntValue(k, 0)
    case F32Type => F32Value(Finite(0.0))
    case F64Type => F64Value(Finite(0.0))
    case StringType => StringValue("")
    case BytesType => BytesValue([])
    case ArrayType(elem) => ArrayValue([Sample(elem)])
    case StructType(fields) =>
      StructValue(seq(|fields|, i requires 0 <= i < |fields| => FieldValue(fields[i].name, Sample(fields[i].dataType))))
  }

  ghost predicate ZeroLike(v: Value) {
    match v
    case IntValue(_, n) => n == 0
    case F32Value(f) => f == Finite(0.0)
    case F64Value(f) => f == Finite(0.0)
    case ArrayValue(items) => forall i :: 0 <= i < |items| ==> ZeroLike(items[i])
    case StructValue(values) => forall i :: 0 <= i < |values| ==> ZeroLike(values[i].value)
    case _ => true
  }

  lemma {:induction false} SampleZeroLike(t: DataType)
    ensures ZeroLike(Sample(t))
    decreases t
  {
    match t
    case ArrayType(elem) => SampleZeroLike(elem);
    case StructType(fields) =>
      forall i | 0 <= i < |fields| ensures ZeroLike(Sample(fields[i].dataType)) {
        SampleZeroLike(fields[i].dataType);
      }
    case _ =>
  }

  lemma {:induction false} ZeroRepresentable(v: Value, t: DataType)
    requires ZeroLike(v)
    ensures Representable(v, t)
    decreases t
  {
    match t
    case ArrayType(elem) =>
      if v.ArrayValue? {
        forall i | 0 <= i < |v.items| ensures Representable(v.items[i], elem) {
          ZeroRepresentable(v.items[i], elem);
        }
      }
    case StructType(fields) =>
      if v.StructValue? {
        forall i, j | 0 <= i < |fields| && 0 <= j < |v.values|
          ensures Representable(v.values[j].value, fields[i].dataType)
        {
          ZeroRepresentable(v.values[j].value, fields[i].dataType);
        }
      }
    case _ =>
  }

  lemma {:induction false} ZeroFinite(v: Value)
    requires ZeroLike(v)
    ensures !HasNonFinite(v)
  {
    match v
    case ArrayValue(items) =>
      forall i | 0 <= i < |items| ensures !HasNonFinite(items[i]) {
        ZeroFinite(items[i]);
      }
    case StructValue(values) =>
      forall i | 0 <= i < |values| ensures !HasNonFinite(values[i].value) {
        ZeroFinite(values[i].value);
      }
    case _ =>
  }

  lemma {:induction false} SampleMatches(t: DataType)
    ensures Matches(Sample(t), t)
    decreases t
  {
    match t
    case ArrayType(elem) => SampleMatches(elem);
    case StructType(fields) =>
      var values := Sample(t).values;
      forall i | 0 <= i < |fields| ensures MatchedIn(values, fields[i]) {
        SampleMatches(fields[i].dataType);
        assert values[i].name == fields[i].name;
      }
    case _ =>
  }

  lemma SampleAccepted(t: DataType)
    ensures Accepts(Sample(t), t)
  {
    SampleZeroLike(t);
    ZeroFinite(Sample(t));
    ZeroRepresentable(Sample(t), t);
    SampleMatches(t);
  }

  /** A one-to-one correspondence is impossible where a field name repeats. */
  lemma OneToOneDistinct(fields: seq<FieldType>, values: seq<FieldValue>)
    requires OneToOne(fields, values)
    ensures forall i, j :: 0 <= i < j < |fields| ==> fields[i].name != fields[j].name
  {
    var a, b := ValueNames(values), FieldNames(fields);
    forall n | n in a ensures n in b {
      var j :| 0 <= j < |a| && a[j] == n;
      assert Declares(fields, values[j].name);
      var i :| 0 <= i < |fields| && fields[i].name == values[j].name;
      assert b[i] == n;
    }
    Pigeonhole(a, b);
    forall i, j | 0 <= i < j < |fields| ensures fields[i].name != fields[j].name {
      assert b[i] == fields[i].name && b[j] == fields[j].name;
    }
  }

  lemma {:induction false} SampleFitsOnlyDistinct(t: DataType)
    requires Fits(Sample(t), t)
    ensures DistinctNames(t)
    decreases t
  {
    match t
    case ArrayType(elem) =>
      assert Fits(Sample(t).items[0], elem);
      SampleFitsOnlyDistinct(elem);
    case StructType(fields) =>
      var values := Sample(t).values;
      OneToOneDistinct(fields, values);
      forall i | 0 <= i < |fields| ensures DistinctNames(fields[i].dataType) {
        assert values[i].name == fields[i].name;
        assert Fits(values[i].value, fields[i].dataType);
        SampleFitsOnlyDistinct(fields[i].dataType);
      }
    case _ =>
  }

  /** Acceptance means fitting, for all values of a type, exactly when the type's struct schemas
      name no field twice. */
  lemma LosslessIff(t: DataType)
    ensures DistinctNames(t) <==> forall v :: Accepts(v, t) <==> Fits(v, t)
  {
    if DistinctNames(t) {
      forall v ensures Accepts(v, t) <==> Fits(v, t) {
        AcceptsIff(v, t);
      }
    }
    if forall v :: Accepts(v, t) <==> Fits(v, t) {
      SampleAccepted(t);
      SampleFitsOnlyDistinct(t);
    }
  }

  // ---------- ranges ----------

  /** Conversion of integers to double precision; rounding is monotone. */
  ghost predicate Monotone(round: int -> real) {
    forall m, n :: m <= n ==> round(m) <= round(n)
  }

  predicate Less(a: Float, b: Float) {
    match (a, b)
    case (Finite(x), Finite(y)) => x < y
    case (Finite(_), Infinite(positive)) => positive
    case (Infinite(positive), Finite(_)) => !positive
    case (Infinite(p), Infinite(q)) => !p && q
    case _ => false
  }

  function AsFloat(v: Value, round: int -> real): Option<Float> {
    match v
    case IntValue(_, n) => Some(Finite(round(n)))
    case F32Value(f) => Some(f)
    case F64Value(f) => Some(f)
    case _ => None
  }

  predicate Below(v: Value, bound: Option<Value>, round: int -> real) {
    && bound.Some?
    && ( || (v.IntValue? && bound.value.IntValue? && v.n < bound.value.n)
         || (AsFloat(v, round).Some? && AsFloat(bound.value, round).Some?
             && Less(AsFloat(v, round).value, AsFloat(bound.value, round).value)))
  }

  predicate Above(v: Value, bound: Option<Value>, round: int -> real) {
    && bound.Some?
    && ( || (v.IntValue? && bound.value.IntValue? && v.n > bound.value.n)
         || (AsFloat(v, round).Some? && AsFloat(bound.value, round).Some?
             && Less(AsFloat(bound.value, round).value, AsFloat(v, round).value)))
  }

  predicate WithinRange(v: Value, min: Option<Value>, max: Option<Value>, round: int -> real) {
    !Below(v, min, round) && !Above(v, max, round)
  }

  /** For integers the fallback to floating point never changes the exact comparison. */
  lemma IntegerRangeExact(v: Value, min: Option<Value>, max: Option<Value>, round: int -> real)
    requires Monotone(round) && v.IntValue?
    requires (min.Some? ==> min.value.IntValue?) && (max.Some? ==> max.value.IntValue?)
    ensures WithinRange(v, min, max, round) <==>
              (min.Some? ==> min.value.n <= v.n) && (max.Some? ==> v.n <= max.value.n)
  {
  }

  predicate HasReal(v: Value) {
    (v.F32Value? && v.f.Finite?) || (v.F64Value? && v.f.Finite?)
  }

  function RealOf(v: Value): real
    requires HasReal(v)
  {
    if v.F32Value? then v.f.r else v.f.r
  }

  predicate HasInfinity(v: Value, positive: bool) {
    v == F32Value(Infinite(positive)) || v == F64Value(Infinite(positive))
  }

  /** The value is a number, and not NaN. */
  predicate Comparable(v: Value) {
    v.IntValue? || HasReal(v) || HasInfinity(v, true) || HasInfinity(v, false)
  }

  /** `low` does not exclude `high`: integers are compared exactly, an integer and a float as floats. An
      infinity lies beyond every number; NaN and what is no number exclude nothing. */
  predicate InOrder(low: Value, high: Value, round: int -> real) {
    if low.IntValue? && high.IntValue? then low.n <= high.n
    else if HasReal(low) && HasReal(high) then RealOf(low) <= RealOf(high)
    else if low.IntValue? && HasReal(high) then round(low.n) <= RealOf(high)
    else if HasReal(low) && high.IntValue? then RealOf(low) <= round(high.n)
    else if Comparable(low) && Comparable(high) then HasInfinity(low, false) || HasInfinity(high, true)
    else true
  }

  predicate Between(v: Value, min: Option<Value>, max: Option<Value>, round: int -> real) {
    (min.Some? ==> InOrder(min.value, v, round)) && (max.Some? ==> InOrder(v, max.value, round))
  }

  /** The range check, for values and bounds of every kind. */
  lemma WithinRangeIff(v: Value, min: Option<Value>, max: Option<Value>, round: int -> real)
    ensures WithinRange(v, min, max, round) ==> Between(v, min, max, round)
    ensures Monotone(round) && Between(v, min, max, round) ==> WithinRange(v, min, max, round)
  {
    if min.Some? {
      BelowIff(v, min.value, round);
    }
    if max.Some? {
      BelowIff(max.value, v, round);
    }
  }

  lemma BelowIff(v: Value, bound: Value, round: int -> real)
    ensures !InOrder(bound, v, round) ==> Below(v, Some(bound), round)
    ensures Monotone(round) && Below(v, Some(bound), round) ==> !InOrder(bound, v, round)
    ensures Below(v, Some(bound), round) <==> Above(bound, Some(v), round)
  {
    if Monotone(round) && v.IntValue? && bound.IntValue? {
      assert bound.n <= v.n ==> round(bound.n) <= round(v.n);
    }
  }

  /** A finite float within finite float bounds: an interval. */
  lemma FloatRangeExact(v: Value, min: Value, max: Value, round: int -> real)
    requires HasReal(v) && HasReal(min) && HasReal(max)
    ensures WithinRange(v, Some(min), Some(max), round) <==> RealOf(min) <= RealOf(v) <= RealOf(max)
  {
  }

  /** An integer against float bounds, or a float against integer bounds, goes by the rounded integer. */
  lemma MixedRange(v: Value, min: Value, max: Value, round: int -> real)
    ensures v.IntValue? && HasReal(min) && HasReal(max) ==>
              (WithinRange(v, Some(min), Some(max), round) <==> RealOf(min) <= round(v.n) <= RealOf(max))
    ensures HasReal(v) && min.IntValue? && max.IntValue? ==>
              (WithinRange(v, Some(min), Some(max), round) <==> round(min.n) <= RealOf(v) <= round(max.n))
  {
  }

  // ---------- whole commands ----------

  datatype Parameter = Parameter(name: string, value: Value)

  datatype Descriptor = Descriptor(name: string, dataType: DataType, required: bool, min: Option<Value>,
                                   max: Option<Value>)

  datatype Command = Command(id: string, driverId: string, parameters: seq<Descriptor>)

  datatype Error =
    | CommandNotFound
    | DuplicateParameter(name: string)
    | MissingParameter(name: string)
    | UnknownParameter(name: string)
    | ParameterNotFinite(name: string)
    | ParameterTypeMismatch(name: string)
    | ParameterNotRepresentable(name: string)
    | ParameterOutOfRange(name: string)

  datatype Outcome = Valid(driverId: string, payload: map<string, Value>) | Invalid(error: Error)

  function FindFirst<T>(items: seq<T>, wanted: T -> bool): (r: Option<T>)
    ensures r.Some? ==>
              exists i :: && 0 <= i < |items| && items[i] == r.value && wanted(items[i])
                          && forall j :: 0 <= j < i ==> !wanted(items[j])
    ensures r.None? <==> forall i :: 0 <= i < |items| ==> !wanted(items[i])
  {
    if items == [] then None else if wanted(items[0]) then Some(items[0]) else FindFirst(items[1..], wanted)
  }

  /** The first descriptor of this name. */
  function Find(descriptors: seq<Descriptor>, name: string): Option<Descriptor> {
    FindFirst(descriptors, (d: Descriptor) => d.name == name)
  }

  function FindCommand(commands: seq<Command>, id: string): Option<Command> {
    FindFirst(commands, (c: Command) => c.id == id)
  }

  /** What is wrong with one parameter, checked in this order. */
  function Fault(command: Command, p: Parameter, round: int -> real): Option<Error> {
    match Find(command.parameters, p.name)
    case None => Some(UnknownParameter(p.name))
    case Some(d) =>
      if HasNonFinite(p.value) then Some(ParameterNotFinite(p.name))
      else if !Matches(p.value, d.dataType) then Some(ParameterTypeMismatch(p.name))
      else if !Representable(p.value, d.dataType) then Some(ParameterNotRepresentable(p.name))
      else if !WithinRange(p.value, d.min, d.max, round) then Some(ParameterOutOfRange(p.name))
      else None
  }

  ghost predicate UniqueNames(params: seq<Parameter>) {
    forall i, j :: 0 <= i < j < |params| ==> params[i].name != params[j].name
  }

  predicate Supplies(params: seq<Parameter>, name: string) {
    exists i :: 0 <= i < |params| && params[i].name == name
  }

  ghost predicate RequiredSupplied(command: Command, params: seq<Parameter>) {
    forall i :: 0 <= i < |command.parameters| && command.parameters[i].required ==>
      Supplies(params, command.parameters[i].name)
  }

  ghost predicate Flawless(command: Command, params: seq<Parameter>, round: int -> real) {
    forall i :: 0 <= i < |params| ==> Fault(command, params[i], round).None?
  }

  method FindDuplicate(params: seq<Parameter>) returns (r: Option<string>)
    ensures r.None? <==> UniqueNames(params)
    ensures r.Some? ==>
              exists i, j :: && 0 <= i < j < |params| && params[i].name == params[j].name == r.value
                             && UniqueNames(params[..j])
  {
    var seen: set<string> := {};
    var n := 0;
    while n < |params|
      invariant 0 <= n <= |params| && UniqueNames(params[..n])
      invariant forall name :: name in seen <==> exists i :: 0 <= i < n && params[i].name == name
    {
      if params[n].name in seen {
        return Some(params[n].name);
      }
      seen := seen + {params[n].name};
      n := n + 1;
    }
    assert params[..n] == params;
    return None;
  }

  method FindMissing(command: Command, params: seq<Parameter>) returns (r: Option<string>)
    ensures r.None? <==> RequiredSupplied(command, params)
    ensures r.Some? ==>
              && !Supplies(params, r.value)
              && exists k :: && 0 <= k < |command.parameters| && command.parameters[k].required
                             && command.parameters[k].name == r.value
                             && forall i :: 0 <= i < k && command.parameters[i].required ==>
                                  Supplies(params, command.parameters[i].name)
  {
    var n := 0;
    while n < |command.parameters|
      invariant 0 <= n <= |command.parameters|
      invariant forall i :: 0 <= i < n && command.parameters[i].required ==>
                  Supplies(params, command.parameters[i].name)
    {
      if command.parameters[n].required && !Supplies(params, command.parameters[n].name) {
        return Some(command.parameters[n].name);
      }
      n := n + 1;
    }
    return None;
  }

  /** The first parameter with a fault decides the error. */
  method FindFault(command: Command, params: seq<Parameter>, round: int -> real) returns (r: Option<Error>)
    ensures r.None? <==> Flawless(command, params, round)
    ensures r.Some? ==>
              exists i :: && 0 <= i < |params| && Fault(command, params[i], round) == r
                          && Flawless(command, params[..i], round)
  {
    var n := 0;
    while n < |params|
      invariant 0 <= n <= |params| && Flawless(command, params[..n], round)
    {
      r := Fault(command, params[n], round);
      if r.Some? {
        return;
      }
      n := n + 1;
    }
    assert params[..n] == params;
    return None;
  }

  /** The parameters by name. */
  method Payload(params: seq<Parameter>) returns (payload: map<string, Value>)
    requires UniqueNames(params)
    ensures forall name :: name in payload <==> Supplies(params, name)
    ensures forall i :: 0 <= i < |params| ==> params[i].name in payload && payload[params[i].name] == params[i].value
  {
    payload := map[];
    var n := 0;
    while n < |params|
      invariant 0 <= n <= |params|
      invariant forall name :: name in payload <==> exists i :: 0 <= i < n && params[i].name == name
      invariant forall i :: 0 <= i < n ==> params[i].name in payload && payload[params[i].name] == params[i].value
    {
      payload := payload[params[n].name := params[n].value];
      n := n + 1;
    }
  }

  /** Accepted exactly when the command exists, no name repeats, all required parameters are there
      and no parameter has a fault; the payload is then the parameters, name by name. */
  method ValidateCommand(commands: seq<Command>, id: string, params: seq<Parameter>, round: int -> real)
    returns (r: Outcome)
    ensures var c := FindCommand(commands, id);
            r.Valid? <==>
              && c.Some? && UniqueNames(params)
              && RequiredSupplied(c.value, params) && Flawless(c.value, params, round)
    ensures r == Invalid(CommandNotFound) <==> FindCommand(commands, id).None?
    ensures r.Valid? ==>
              && r.driverId == FindCommand(commands, id).value.driverId
              && (forall name :: name in r.payload <==> Supplies(params, name))
              && forall i :: 0 <= i < |params| ==>
                   params[i].name in r.payload && r.payload[params[i].name] == params[i].value
    ensures r.Invalid? && r.error.DuplicateParameter? <==> FindCommand(commands, id).Some? && !UniqueNames(params)
    ensures r.Invalid? && r.error.DuplicateParameter? ==>
              exists i, j :: && 0 <= i < j < |params| && params[i].name == params[j].name == r.error.name
                             && UniqueNames(params[..j])
    ensures r.Invalid? && r.error.MissingParameter? ==> !Supplies(params, r.error.name)
    ensures r.Invalid? && r.error.MissingParameter? <==>
              && FindCommand(commands, id).Some? && UniqueNames(params)
              && !RequiredSupplied(FindCommand(commands, id).value, params)
    ensures r.Invalid? && FindCommand(commands, id).Some? && UniqueNames(params)
            && RequiredSupplied(FindCommand(commands, id).value, params) ==>
              exists i ::
                && 0 <= i < |params|
                && Fault(FindCommand(commands, id).value, params[i], round) == Some(r.error)
                && Flawless(FindCommand(commands, id).value, params[..i], round)
  {
    var found := FindCommand(commands, id);
    if found.None? {
      return Invalid(CommandNotFound);
    }
    var duplicate := FindDuplicate(params);
    if duplicate.Some? {
      return Invalid(DuplicateParameter(duplicate.value));
    }
    var missing := FindMissing(found.value, params);
    if missing.Some? {
      return Invalid(MissingParameter(missing.value));
    }
    var fault := FindFault(found.value, params, round);
    if fault.Some? {
      return Invalid(fault.value);
    }
    var payload := Payload(params);
    return Valid(found.value.driverId, payload);
  }

  /** What a fault says of a parameter, in terms of what it should be: undeclared; carrying an infinity or a
      NaN; not a value of its declared type; outside its range. None of these, and it is accepted. */
  lemma FaultTells(command: Command, p: Parameter, round: int -> real)
    requires Monotone(round)
    requires forall k :: 0 <= k < |command.parameters| ==> DistinctNames(command.parameters[k].dataType)
    ensures var d, fault := Find(command.parameters, p.name), Fault(command, p, round);
            var fits := d.Some? && Fits(p.value, d.value.dataType);
            && (fault == Some(UnknownParameter(p.name)) <==> d.None?)
            && (fault == Some(ParameterNotFinite(p.name)) <==> d.Some? && HasNonFinite(p.value))
            && (fault == Some(ParameterTypeMismatch(p.name)) || fault == Some(ParameterNotRepresentable(p.name)) <==>
                  d.Some? && !HasNonFinite(p.value) && !fits)
            && (fault == Some(ParameterOutOfRange(p.name)) <==>
                  fits && !Between(p.value, d.value.min, d.value.max, round))
            && (fault == None <==> fits && Between(p.value, d.value.min, d.value.max, round))
  {
    var found := Find(command.parameters, p.name);
    if found.Some? {
      var d := found.value;
      AcceptsIff(p.value, d.dataType);
      WithinRangeIff(p.value, d.min, d.max, round);
    }
  }

  /** Every parameter of an accepted command is declared, fits its declared type and lies within its range. */
  lemma AcceptedParametersFit(command: Command, params: seq<Parameter>, round: int -> real, i: nat)
    requires Flawless(command, params, round) && i < |params|
    requires forall k :: 0 <= k < |command.parameters| ==> DistinctNames(command.parameters[k].dataType)
    ensures exists k ::
              && 0 <= k < |command.parameters| && command.parameters[k].name == params[i].name
              && (forall j :: 0 <= j < k ==> command.parameters[j].name != params[i].name)
              && Fits(params[i].value, command.parameters[k].dataType)
              && Between(params[i].value, command.parameters[k].min, command.parameters[k].max, round)
  {
    assert Fault(command, params[i], round).None?;
    var d := Find(command.parameters, params[i].name).value;
    AcceptsIff(params[i].value, d.dataType);
    WithinRangeIff(params[i].value, d.min, d.max, round);
  }
}
