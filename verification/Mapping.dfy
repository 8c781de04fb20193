/** Turning read results into observations: sequence numbers per device, consumed by every reading
    of a batch whether or not it yields an observation. */
module Mapping {
  import opened Bytes
  import opened ControlTypes
  import opened Identifiers

  /** `prefix` is the standard path prefix of the device's domain; `items[k]` the path of item `k`. */
  datatype Instance = Instance(device: Text, prefix: Text, items: seq<Text>)

  /** What the driver returned for an item; a failed batch has no values. */
  datatype Reading = Reading(item: nat, value: Option<Text>)

  datatype Observation = Observation(id: Text, device: Text, path: Text, sequence: nat, value: Option<Text>)

  datatype Error = EmptySession | PathPrefix(path: Text)

  datatype Result<T> = Ok(value: T) | Err(error: Error)

  function FirstSegment(path: Text): Text {
    if path == [] || path[0] == DOT then [] else [path[0]] + FirstSegment(path[1..])
  }

  function Build(instance: Instance, r: Reading, sequence: nat, session: Text): Result<Observation>
    requires r.item < |instance.items|
  {
    var path := instance.items[r.item];
    if session == [] then Err(EmptySession)
    else if FirstSegment(path) != instance.prefix then Err(PathPrefix(path))
    else
      Ok(Observation(ObservationId(ObservationKey(instance.device, path, sequence, session)),
                     instance.device, path, sequence, r.value))
  }

  /** The batch's observations when its first number is `start`, or the first error. */
  function Mapped(instance: Instance, readings: seq<Reading>, start: nat, session: Text): Result<seq<Observation>> {
    if readings == [] then Ok([])
    else
      var n := |readings| - 1;
      match Mapped(instance, readings[..n], start, session)
      case Err(e) => Err(e)
      case Ok(done) =>
        if readings[n].item >= |instance.items| then Ok(done)
        else
          match Build(instance, readings[n], start + n, session)
          case Err(e) => Err(e)
          case Ok(o) => Ok(done + [o])
  }

  /** The observation's id is built from its own fields. */
  ghost predicate Identified(o: Observation, session: Text) {
    o.id == ObservationId(ObservationKey(o.device, o.path, o.sequence, session))
  }

  /** A batch's observations are the device's, numbered upwards within the batch's own range. */
  ghost predicate InRange(obs: seq<Observation>, device: Text, session: Text, start: nat, count: nat) {
    && (forall i :: 0 <= i < |obs| ==>
          Identified(obs[i], session) && obs[i].device == device && start <= obs[i].sequence < start + count)
    && (forall i, j :: 0 <= i < j < |obs| ==> obs[i].sequence < obs[j].sequence)
  }

  lemma {:induction false} MappedInRange(instance: Instance, readings: seq<Reading>, start: nat, session: Text)
    requires Mapped(instance, readings, start, session).Ok?
    ensures InRange(Mapped(instance, readings, start, session).value, instance.device, session, start, |readings|)
  {
    if readings != [] {
      MappedInRange(instance, readings[..|readings| - 1], start, session);
    }
  }

  /** Up to the first dot, or all of it. */
  lemma {:induction false} FirstSegmentEnds(path: Text)
    ensures var segment := FirstSegment(path);
            && |segment| <= |path|
            && (forall k :: 0 <= k < |segment| ==> segment[k] == path[k] && path[k] != DOT)
            && (|segment| < |path| ==> path[|segment|] == DOT)
  {
    if path != [] && path[0] != DOT {
      FirstSegmentEnds(path[1..]);
    }
  }

  /** How many of the readings are of items the device has. */
  function KnownCount(instance: Instance, readings: seq<Reading>): nat {
    if readings == [] then 0
    else
      var n := |readings| - 1;
      KnownCount(instance, readings[..n]) + if readings[n].item < |instance.items| then 1 else 0
  }

  /** Every reading of a known item yields one observation, in order, with the item's path, the reading's own
      number and the value that was read; other readings yield none. */
  lemma {:induction false} MappedKeepsReadings(
    instance: Instance, readings: seq<Reading>, start: nat, session: Text, n: nat)
    requires Mapped(instance, readings, start, session).Ok? && n < |readings|
    ensures |Mapped(instance, readings, start, session).value| == KnownCount(instance, readings)
    ensures readings[n].item < |instance.items| ==>
              var k := KnownCount(instance, readings[..n]);
              && k < KnownCount(instance, readings)
              && var o := Mapped(instance, readings, start, session).value[k];
              && o.device == instance.device && o.path == instance.items[readings[n].item]
              && o.sequence == start + n && o.value == readings[n].value
  {
    var last := |readings| - 1;
    var before := readings[..last];
    if n < last {
      MappedKeepsReadings(instance, before, start, session, n);
      assert before[..n] == readings[..n];
    } else if last > 0 {
      MappedKeepsReadings(instance, before, start, session, 0);
    }
  }

  /** The reading cannot become an observation. */
  predicate Spoils(instance: Instance, r: Reading, session: Text) {
    r.item < |instance.items| && (session == [] || FirstSegment(instance.items[r.item]) != instance.prefix)
  }

  /** A batch fails exactly if a reading of a known item has no session to belong to or a path outside the
      device's domain, and the first such reading decides the error. */
  lemma {:induction false} MappedFailsIff(instance: Instance, readings: seq<Reading>, start: nat, session: Text)
    ensures Mapped(instance, readings, start, session).Ok? <==>
              forall n :: 0 <= n < |readings| ==> !Spoils(instance, readings[n], session)
    ensures Mapped(instance, readings, start, session).Err? ==>
              exists n ::
                && 0 <= n < |readings| && Spoils(instance, readings[n], session)
                && (forall m :: 0 <= m < n ==> !Spoils(instance, readings[m], session))
                && Mapped(instance, readings, start, session).error
                   == if session == [] then EmptySession else PathPrefix(instance.items[readings[n].item])
  {
    if readings != [] {
      var last := |readings| - 1;
      var before := readings[..last];
      MappedFailsIff(instance, before, start, session);
      assert forall n :: 0 <= n < last ==> before[n] == readings[n];
    }
  }

  lemma {:induction false} ErrorStays(instance: Instance, readings: seq<Reading>, n: nat, start: nat, session: Text)
    requires n <= |readings| && Mapped(instance, readings[..n], start, session).Err?
    ensures Mapped(instance, readings, start, session) == Mapped(instance, readings[..n], start, session)
  {
    if n < |readings| {
      assert readings[..|readings| - 1][..n] == readings[..n];
      ErrorStays(instance, readings[..|readings| - 1], n, start, session);
    } else {
      assert readings[..n] == readings;
    }
  }

  class SequenceAllocator {
    var next: map<Text, nat>

    constructor ()
      ensures next == map[]
    {
      next := map[];
    }

    function Current(device: Text): nat
      reads this
    {
      if device in next then next[device] else 0
    }

    /** Hands out `count` consecutive numbers. */
    method Allocate(device: Text, count: nat) returns (start: nat)
      modifies this
      ensures start == old(Current(device)) && Current(device) == start + count
      ensures forall d :: d != device ==> Current(d) == old(Current(d))
    {
      start := if device in next then next[device] else 0;
      next := next[device := start + count];
    }

    method Reset(device: Text)
      modifies this
      ensures Current(device) == 0 && forall d :: d != device ==> Current(d) == old(Current(d))
    {
      next := next[device := 0];
    }
  }

  method MapBatch(instance: Instance, readings: seq<Reading>, session: Text, allocator: SequenceAllocator)
    returns (r: Result<seq<Observation>>)
    modifies allocator
    ensures r == Mapped(instance, readings, old(allocator.Current(instance.device)), session)
    ensures allocator.Current(instance.device) == old(allocator.Current(instance.device)) + |readings|
    ensures forall d :: d != instance.device ==> allocator.Current(d) == old(allocator.Current(d))
  {
    var start := allocator.Allocate(instance.device, |readings|);
    var observations: seq<Observation> := [];
    var n := 0;
    while n < |readings|
      invariant 0 <= n <= |readings|
      invariant Mapped(instance, readings[..n], start, session) == Ok(observations)
    {
      assert readings[..n + 1][..n] == readings[..n];
      if readings[n].item < |instance.items| {
        var built := Build(instance, readings[n], start + n, session);
        if built.Err? {
          ErrorStays(instance, readings, n + 1, start, session);
          return Err(built.error);
        }
        observations := observations + [built.value];
      }
      n := n + 1;
    }
    assert readings[..n] == readings;
    return Ok(observations);
  }

  datatype Call = Call(instance: Instance, readings: seq<Reading>)

  ghost predicate DistinctIds(made: seq<Observation>) {
    forall i, j :: 0 <= i < j < |made| ==> made[i].id != made[j].id
  }

  /** How many numbers the calls have consumed for device `d`. */
  function Given(calls: seq<Call>, d: Text): nat {
    if calls == [] then 0
    else
      var last := calls[|calls| - 1];
      Given(calls[..|calls| - 1], d) + if last.instance.device == d then |last.readings| else 0
  }

  /** What the calls of a session yield; a batch with an error yields nothing and still consumes. */
  function AllMapped(calls: seq<Call>, session: Text): seq<Observation> {
    if calls == [] then []
    else
      var before, last := calls[..|calls| - 1], calls[|calls| - 1];
      match Mapped(last.instance, last.readings, Given(before, last.instance.device), session)
      case Err(_) => AllMapped(before, session)
      case Ok(obs) => AllMapped(before, session) + obs
  }

  /** Everything made so far carries a number its device has already given out, each only once. */
  ghost predicate Spent(made: seq<Observation>, session: Text, calls: seq<Call>) {
    && (forall i :: 0 <= i < |made| ==> Identified(made[i], session) && made[i].sequence < Given(calls, made[i].device))
    && (forall i, j :: 0 <= i < j < |made| ==> made[i].device != made[j].device || made[i].sequence != made[j].sequence)
  }

  lemma SpentMore(made: seq<Observation>, session: Text, calls: seq<Call>, c: Call, obs: seq<Observation>)
    requires Spent(made, session, calls)
    requires InRange(obs, c.instance.device, session, Given(calls, c.instance.device), |c.readings|)
    ensures Spent(made + obs, session, calls + [c])
  {
  }

  lemma {:induction false} AllMappedSpent(calls: seq<Call>, session: Text)
    ensures Spent(AllMapped(calls, session), session, calls)
  {
    if calls != [] {
      var before, last := calls[..|calls| - 1], calls[|calls| - 1];
      var start := Given(before, last.instance.device);
      AllMappedSpent(before, session);
      assert before + [last] == calls;
      if Mapped(last.instance, last.readings, start, session).Ok? {
        MappedInRange(last.instance, last.readings, start, session);
        SpentMore(AllMapped(before, session), session, before, last,
                  Mapped(last.instance, last.readings, start, session).value);
      } else {
        SpentMore(AllMapped(before, session), session, before, last, []);
        assert AllMapped(before, session) + [] == AllMapped(before, session);
      }
    }
  }

  /** All observations of a session that goes through one allocator which is never reset have
      different ids, across successful, failed and abandoned batches of any devices. */
  lemma SessionIdsDistinct(calls: seq<Call>, session: Text)
    ensures DistinctIds(AllMapped(calls, session))
  {
    AllMappedSpent(calls, session);
    var made := AllMapped(calls, session);
    forall i, j | 0 <= i < j < |made| ensures made[i].id != made[j].id {
      if made[i].id == made[j].id {
        ObservationIdInjective(
          ObservationKey(made[i].device, made[i].path, made[i].sequence, session),
          ObservationKey(made[j].device, made[j].path, made[j].sequence, session));
      }
    }
  }

  /** A session, batch by batch through the allocator. */
  method RunSession(calls: seq<Call>, session: Text) returns (made: seq<Observation>)
    ensures made == AllMapped(calls, session) && DistinctIds(made)
  {
    made := [];
    var allocator := new SequenceAllocator();
    var n := 0;
    while n < |calls|
      invariant 0 <= n <= |calls| && fresh(allocator)
      invariant forall d :: allocator.Current(d) == Given(calls[..n], d)
      invariant made == AllMapped(calls[..n], session)
    {
      assert calls[..n + 1][..n] == calls[..n];
      var r := MapBatch(calls[n].instance, calls[n].readings, session, allocator);
      if r.Ok? {
        made := made + r.value;
      }
      n := n + 1;
    }
    assert calls[..n] == calls;
    SessionIdsDistinct(calls, session);
  }
}
