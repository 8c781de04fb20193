/** Length-prefixed identifiers and the parsers that take them apart. Lengths count bytes. */
module Identifiers {
  import opened Bytes
  import opened ControlTypes

  const COLON: Byte := 58
  const DOT: Byte := 46
  const ZERO: Byte := 48

  // ---------- decimal numbers ----------

  predicate IsDigit(b: Byte) {
    ZERO <= b < ZERO + 10
  }

  function Decimal(n: nat): (r: Text)
    ensures r != [] && forall i :: 0 <= i < |r| ==> IsDigit(r[i])
  {
    if n < 10 then [ZERO + n] else Decimal(n / 10) + [ZERO + n % 10]
  }

  function Value(digits: Text): nat
    requires forall i :: 0 <= i < |digits| ==> IsDigit(digits[i])
  {
    if digits == [] then 0
    else
      assert IsDigit(digits[|digits| - 1]);
      Value(digits[..|digits| - 1]) * 10 + (digits[|digits| - 1] - ZERO)
  }

  lemma {:induction false} ValueOfDecimal(n: nat)
    ensures Value(Decimal(n)) == n
  {
    if n >= 10 {
      ValueOfDecimal(n / 10);
      var d := Decimal(n);
      assert d[..|d| - 1] == Decimal(n / 10);
    } else {
      assert Decimal(n)[..0] == [];
    }
  }

  /** Number of leading digits. */
  function Digits(t: Text): (k: nat)
    ensures k <= |t| && forall i :: 0 <= i < k ==> IsDigit(t[i])
  {
    if t != [] && IsDigit(t[0]) then 1 + Digits(t[1..]) else 0
  }

  lemma {:induction false} DigitsEnd(t: Text, rest: Text)
    requires forall i :: 0 <= i < |t| ==> IsDigit(t[i])
    requires rest == [] || !IsDigit(rest[0])
    ensures Digits(t + rest) == |t|
  {
    if t == [] {
      assert t + rest == rest;
    } else {
      assert (t + rest)[1..] == t[1..] + rest;
      DigitsEnd(t[1..], rest);
    }
  }

  // ---------- reading ----------

  datatype Read<T> = Read(value: T, rest: Text)

  /** A decimal number up to the first byte that is not a digit. */
  function ReadNumber(t: Text): Option<Read<nat>> {
    var k := Digits(t);
    if k == 0 then None else Some(Read(Value(t[..k]), t[k..]))
  }

  function ReadColon(t: Text): Option<Text> {
    if t != [] && t[0] == COLON then Some(t[1..]) else None
  }

  /** Length, colon, that many bytes. */
  function ReadSegment(t: Text): Option<Read<Text>> {
    match ReadNumber(t)
    case None => None
    case Some(len) =>
      match ReadColon(len.rest)
      case None => None
      case Some(body) =>
        if len.value <= |body| then Some(Read(body[..len.value], body[len.value..])) else None
  }

  function Segment(t: Text): Text {
    Decimal(|t|) + [COLON] + t
  }

  lemma NumberReads(n: nat, rest: Text)
    requires rest == [] || !IsDigit(rest[0])
    ensures ReadNumber(Decimal(n) + rest) == Some(Read(n, rest))
  {
    var t := Decimal(n) + rest;
    DigitsEnd(Decimal(n), rest);
    ValueOfDecimal(n);
    assert t[..|Decimal(n)|] == Decimal(n) && t[|Decimal(n)|..] == rest;
  }

  lemma ColonReads(rest: Text)
    ensures ReadColon([COLON] + rest) == Some(rest)
  {
  }

  /** Whatever follows, and whatever bytes the segment holds, it is read back whole. */
  lemma SegmentReads(t: Text, rest: Text)
    ensures ReadSegment(Segment(t) + rest) == Some(Read(t, rest))
  {
    var tail := [COLON] + (t + rest);
    assert Segment(t) + rest == Decimal(|t|) + tail;
    NumberReads(|t|, tail);
    ColonReads(t + rest);
    assert (t + rest)[..|t|] == t && (t + rest)[|t|..] == rest;
  }

  // ---------- message ids ----------

  datatype MessageKey = MessageKey(session: Text, device: Text, sequence: nat)

  function MessageId(k: MessageKey): Text {
    Segment(k.session) + (Segment(k.device) + Decimal(k.sequence))
  }

  function ParseMessageId(t: Text): Option<MessageKey> {
    match ReadSegment(t)
    case None => None
    case Some(session) =>
      match ReadSegment(session.rest)
      case None => None
      case Some(device) =>
        match ReadNumber(device.rest)
        case None => None
        case Some(sequence) =>
          if sequence.rest == [] then Some(MessageKey(session.value, device.value, sequence.value)) else None
  }

  lemma MessageIdRoundTrip(k: MessageKey)
    ensures ParseMessageId(MessageId(k)) == Some(k)
  {
    SegmentReads(k.session, Segment(k.device) + Decimal(k.sequence));
    SegmentReads(k.device, Decimal(k.sequence));
    NumberReads(k.sequence, []);
    assert Decimal(k.sequence) + [] == Decimal(k.sequence);
  }

  lemma MessageIdInjective(a: MessageKey, b: MessageKey)
    requires MessageId(a) == MessageId(b)
    ensures a == b
  {
    MessageIdRoundTrip(a);
    MessageIdRoundTrip(b);
  }

  // ---------- observation ids ----------

  datatype ObservationKey = ObservationKey(device: Text, path: Text, sequence: nat, session: Text)

  function AfterPath(k: ObservationKey): Text {
    [COLON] + (Decimal(k.sequence) + ([COLON] + k.session))
  }

  function ObservationId(k: ObservationKey): Text {
    Segment(k.device) + ([COLON] + (Segment(k.path) + AfterPath(k)))
  }

  function ParseAfterPath(device: Text, path: Read<Text>): Option<ObservationKey> {
    match ReadColon(path.rest)
    case None => None
    case Some(t) =>
      match ReadNumber(t)
      case None => None
      case Some(sequence) =>
        match ReadColon(sequence.rest)
        case None => None
        case Some(session) => Some(ObservationKey(device, path.value, sequence.value, session))
  }

  function ParseObservationId(t: Text): Option<ObservationKey> {
    match ReadSegment(t)
    case None => None
    case Some(device) =>
      match ReadColon(device.rest)
      case None => None
      case Some(u) =>
        match ReadSegment(u)
        case None => None
        case Some(path) => ParseAfterPath(device.value, path)
  }

  lemma AfterPathReads(k: ObservationKey)
    ensures ParseAfterPath(k.device, Read(k.path, AfterPath(k))) == Some(k)
  {
    ColonReads(Decimal(k.sequence) + ([COLON] + k.session));
    NumberReads(k.sequence, [COLON] + k.session);
    ColonReads(k.session);
  }

  lemma ObservationIdRoundTrip(k: ObservationKey)
    ensures ParseObservationId(ObservationId(k)) == Some(k)
  {
    SegmentReads(k.device, [COLON] + (Segment(k.path) + AfterPath(k)));
    ColonReads(Segment(k.path) + AfterPath(k));
    SegmentReads(k.path, AfterPath(k));
    AfterPathReads(k);
  }

  lemma ObservationIdInjective(a: ObservationKey, b: ObservationKey)
    requires ObservationId(a) == ObservationId(b)
    ensures a == b
  {
    ObservationIdRoundTrip(a);
    ObservationIdRoundTrip(b);
  }
}
