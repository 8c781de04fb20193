/** The batching loop: observations arrive from many devices, are gathered per device, leave as
    numbered batches, and are accounted for when the loop stops. */
module Pipelines {
  datatype Observation = Observation(device: string, body: string)

  datatype Batch = Batch(device: string, sequence: nat, observations: seq<Observation>)

  /** A device's unfinished batch. */
  datatype Partial = Partial(sequence: nat, observations: seq<Observation>)

  datatype Stats = Stats(
    batchesEmitted: nat, observationsEmitted: nat, batchesDropped: nat, observationsDropped: nat)

  /** How many full batches' worth of observations the loop buffers at most. */
  const BUFFER_BATCH_MULTIPLIER := 16

  // ---------- reading a device's history off the batches ----------

  /** What the batches carry for device `d`, in order. */
  function Carried(batches: seq<Batch>, d: string): seq<Observation> {
    if batches == [] then []
    else
      var last := batches[|batches| - 1];
      Carried(batches[..|batches| - 1], d) + if last.device == d then last.observations else []
  }

  function Count(batches: seq<Batch>, d: string): nat {
    if batches == [] then 0
    else Count(batches[..|batches| - 1], d) + if batches[|batches| - 1].device == d then 1 else 0
  }

  function Size(batches: seq<Batch>): nat {
    if batches == [] then 0 else Size(batches[..|batches| - 1]) + |batches[|batches| - 1].observations|
  }

  /** What arrived from device `d`, in order. */
  function Arrivals(received: seq<Observation>, d: string): seq<Observation> {
    if received == [] then []
    else
      var last := received[|received| - 1];
      Arrivals(received[..|received| - 1], d) + if last.device == d then [last] else []
  }

  /** Non-empty, within the limit, of one device, and the device's next number. */
  ghost predicate GoodBatch(max: nat, before: seq<Batch>, b: Batch) {
    && 0 < |b.observations| <= max
    && (forall k :: 0 <= k < |b.observations| ==> b.observations[k].device == b.device)
    && b.sequence == Count(before, b.device)
  }

  ghost predicate GoodBatches(max: nat, batches: seq<Batch>) {
    forall i :: 0 <= i < |batches| ==> GoodBatch(max, batches[..i], batches[i])
  }

  lemma {:induction false} CarriedAppend(a: seq<Batch>, b: seq<Batch>, d: string)
    ensures Carried(a + b, d) == Carried(a, d) + Carried(b, d)
    ensures Count(a + b, d) == Count(a, d) + Count(b, d)
  {
    if b == [] {
      assert a + b == a;
    } else {
      assert (a + b)[..|a + b| - 1] == a + b[..|b| - 1];
      CarriedAppend(a, b[..|b| - 1], d);
    }
  }

  lemma {:induction false} SizeAppend(a: seq<Batch>, b: seq<Batch>)
    ensures Size(a + b) == Size(a) + Size(b)
  {
    if b == [] {
      assert a + b == a;
    } else {
      assert (a + b)[..|a + b| - 1] == a + b[..|b| - 1];
      SizeAppend(a, b[..|b| - 1]);
    }
  }

  lemma GoodAppend(max: nat, batches: seq<Batch>, b: Batch)
    requires GoodBatches(max, batches) && GoodBatch(max, batches, b)
    ensures GoodBatches(max, batches + [b])
  {
    var more := batches + [b];
    forall i | 0 <= i < |more| ensures GoodBatch(max, more[..i], more[i]) {
      assert more[..i] == batches[..i];
    }
  }

  /** A device's batches are numbered 0, 1, 2, ... in the order they were made. */
  lemma {:induction false} NumberedFromZero(max: nat, batches: seq<Batch>, i: nat, j: nat)
    requires GoodBatches(max, batches) && i < j < |batches| && batches[i].device == batches[j].device
    ensures batches[i].sequence < batches[j].sequence
    ensures batches[j].sequence == batches[i].sequence + 1 <==>
              forall k :: i < k < j ==> batches[k].device != batches[i].device
  {
    var d := batches[i].device;
    assert GoodBatch(max, batches[..i], batches[i]) && GoodBatch(max, batches[..j], batches[j]);
    CountBetween(batches, i, j, d);
  }

  lemma {:induction false} CountBetween(batches: seq<Batch>, i: nat, j: nat, d: string)
    requires i < j <= |batches| && batches[i].device == d
    ensures Count(batches[..j], d) > Count(batches[..i], d)
    ensures Count(batches[..j], d) == Count(batches[..i], d) + 1 <==> forall k :: i < k < j ==> batches[k].device != d
  {
    assert batches[..j][..j - 1] == batches[..j - 1];
    if i + 1 < j {
      CountBetween(batches, i, j - 1, d);
    }
  }

  // ---------- chunks ----------

  function Min(a: nat, b: nat): nat { if a < b then a else b }

  /** The reference: cut greedily, number from `s` on. */
  function Chunks(d: string, s: nat, obs: seq<Observation>, max: nat): seq<Batch>
    requires max > 0
    decreases |obs|
  {
    if obs == [] then []
    else
      var k := Min(|obs|, max);
      [Batch(d, s, obs[..k])] + Chunks(d, s + 1, obs[k..], max)
  }

  lemma NextGood(max: nat, batches: seq<Batch>, b: Batch)
    requires GoodBatches(max, batches) && GoodBatch(max, batches, b)
    ensures GoodBatches(max, batches + [b]) && Count(batches + [b], b.device) == Count(batches, b.device) + 1
  {
    GoodAppend(max, batches, b);
    assert (batches + [b])[..|batches|] == batches;
  }

  lemma {:induction false} ChunksGood(max: nat, batches: seq<Batch>, d: string, s: nat, obs: seq<Observation>)
    requires max > 0 && GoodBatches(max, batches) && s == Count(batches, d)
    requires forall k :: 0 <= k < |obs| ==> obs[k].device == d
    ensures GoodBatches(max, batches + Chunks(d, s, obs, max))
    decreases |obs|
  {
    if obs == [] {
      assert batches + Chunks(d, s, obs, max) == batches;
    } else {
      var k := Min(|obs|, max);
      var b, rest := Batch(d, s, obs[..k]), Chunks(d, s + 1, obs[k..], max);
      NextGood(max, batches, b);
      ChunksGood(max, batches + [b], d, s + 1, obs[k..]);
      assert Chunks(d, s, obs, max) == [b] + rest;
      Regroup(batches, [b], rest);
    }
  }

  lemma OneBatch(b: Batch, e: string)
    ensures Carried([b], e) == if e == b.device then b.observations else []
    ensures Count([b], e) == if e == b.device then 1 else 0
    ensures Size([b]) == |b.observations|
  {
  }

  lemma FirstBatch(b: Batch, rest: seq<Batch>, e: string)
    ensures Carried([b] + rest, e) == (if e == b.device then b.observations else []) + Carried(rest, e)
    ensures Count([b] + rest, e) == (if e == b.device then 1 else 0) + Count(rest, e)
    ensures Size([b] + rest) == |b.observations| + Size(rest)
  {
    CarriedAppend([b], rest, e);
    SizeAppend([b], rest);
    OneBatch(b, e);
  }

  /** `made` carries `obs` for device `d` and nothing else. */
  ghost predicate Carries(made: seq<Batch>, d: string, obs: seq<Observation>) {
    && (forall e :: Carried(made, e) == if e == d then obs else [])
    && (forall e :: Count(made, e) == if e == d then |made| else 0)
    && Size(made) == |obs|
  }

  lemma CarriesFirst(b: Batch, rest: seq<Batch>, obs: seq<Observation>)
    requires Carries(rest, b.device, obs)
    ensures Carries([b] + rest, b.device, b.observations + obs)
  {
    FirstBatch(b, rest, b.device);
    forall e
      ensures Carried([b] + rest, e) == if e == b.device then b.observations + obs else []
      ensures Count([b] + rest, e) == if e == b.device then |[b] + rest| else 0
    {
      FirstBatch(b, rest, e);
    }
  }

  /** Chunks carry exactly what was cut. */
  lemma {:induction false} ChunksCarry(d: string, s: nat, obs: seq<Observation>, max: nat)
    requires max > 0
    ensures Carries(Chunks(d, s, obs, max), d, obs)
    decreases |obs|
  {
    if obs != [] {
      var k := Min(|obs|, max);
      ChunksCarry(d, s + 1, obs[k..], max);
      CarriesFirst(Batch(d, s, obs[..k]), Chunks(d, s + 1, obs[k..], max), obs[k..]);
      assert obs[..k] + obs[k..] == obs;
    }
  }

  /** The cut is greedy: every batch but the last is full. */
  lemma {:induction false} ChunksFull(d: string, s: nat, obs: seq<Observation>, max: nat, i: nat)
    requires max > 0 && i + 1 < |Chunks(d, s, obs, max)|
    ensures |Chunks(d, s, obs, max)[i].observations| == max
    decreases |obs|
  {
    if i > 0 {
      ChunksFull(d, s + 1, obs[Min(|obs|, max)..], max, i - 1);
    }
  }

  lemma OneChunk(d: string, s: nat, obs: seq<Observation>, max: nat)
    requires 0 < |obs| <= max
    ensures Chunks(d, s, obs, max) == [Batch(d, s, obs)]
  {
    assert obs[..|obs|] == obs;
  }

  // ---------- partial batches ----------

  ghost function Total(pending: map<string, Partial>): nat {
    if pending == map[] then 0
    else
      var d :| d in pending;
      |pending[d].observations| + Total(pending - {d})
  }

  lemma {:induction false} TotalRemove(pending: map<string, Partial>, d: string)
    requires d in pending
    ensures Total(pending) == |pending[d].observations| + Total(pending - {d})
    decreases |pending|
  {
    var e :| e in pending && Total(pending) == |pending[e].observations| + Total(pending - {e});
    if e != d {
      TotalRemove(pending - {e}, d);
      TotalRemove(pending - {d}, e);
      assert pending - {e} - {d} == pending - {d} - {e};
    }
  }

  function Gathered(pending: map<string, Partial>, d: string): seq<Observation> {
    if d in pending then pending[d].observations else []
  }

  function Next(sequences: map<string, nat>, d: string): nat {
    if d in sequences then sequences[d] else 0
  }

  // ---------- the books ----------

  /** What arrived from `d` is what its batches and its partial batch hold, in order, and its
      partial batch carries its next number. */
  ghost predicate DeviceBooks(
    received: seq<Observation>, produced: seq<Batch>, pending: map<string, Partial>, sequences: map<string, nat>,
    d: string)
  {
    && Next(sequences, d) == Count(produced, d)
    && Carried(produced, d) + Gathered(pending, d) == Arrivals(received, d)
    && (d in pending ==>
          && d in sequences && pending[d].sequence == sequences[d]
          && forall k :: 0 <= k < |pending[d].observations| ==> pending[d].observations[k].device == d)
  }

  ghost predicate Books(
    max: nat, received: seq<Observation>, produced: seq<Batch>, pending: map<string, Partial>,
    sequences: map<string, nat>)
  {
    && GoodBatches(max, produced)
    && (forall d :: DeviceBooks(received, produced, pending, sequences, d))
    && |received| == Size(produced) + Total(pending)
  }

  /** `pending` after one more observation. */
  function Gather(pending: map<string, Partial>, sequences: map<string, nat>, o: Observation): map<string, Partial> {
    var s := if o.device in pending then pending[o.device].sequence else Next(sequences, o.device);
    pending[o.device := Partial(s, Gathered(pending, o.device) + [o])]
  }

  function Known(sequences: map<string, nat>, pending: map<string, Partial>, d: string): map<string, nat> {
    if d in pending then sequences else sequences[d := Next(sequences, d)]
  }

  lemma DeviceGather(
    received: seq<Observation>, produced: seq<Batch>, pending: map<string, Partial>, sequences: map<string, nat>,
    o: Observation, e: string)
    requires DeviceBooks(received, produced, pending, sequences, e)
    ensures DeviceBooks(received + [o], produced, Gather(pending, sequences, o),
                        Known(sequences, pending, o.device), e)
  {
    var pending' := Gather(pending, sequences, o);
    assert Carried(produced, e) + Gathered(pending', e) == Arrivals(received + [o], e) by {
      ArrivalsOne(received, o, e);
      GatheredOne(pending, sequences, o, e);
      OneAfter(Carried(produced, e), Gathered(pending, e), o);
    }
  }

  lemma GatheredOne(pending: map<string, Partial>, sequences: map<string, nat>, o: Observation, d: string)
    ensures Gathered(Gather(pending, sequences, o), d)
         == if o.device == d then Gathered(pending, d) + [o] else Gathered(pending, d)
  {
  }

  lemma ArrivalsOne(received: seq<Observation>, o: Observation, d: string)
    ensures Arrivals(received + [o], d) == if o.device == d then Arrivals(received, d) + [o] else Arrivals(received, d)
  {
    assert (received + [o])[..|received|] == received;
  }

  lemma OneAfter(a: seq<Observation>, b: seq<Observation>, o: Observation)
    ensures a + (b + [o]) == a + b + [o]
  {
  }

  lemma BooksGather(
    max: nat, received: seq<Observation>, produced: seq<Batch>, pending: map<string, Partial>,
    sequences: map<string, nat>, o: Observation)
    requires Books(max, received, produced, pending, sequences)
    ensures Books(max, received + [o], produced, Gather(pending, sequences, o), Known(sequences, pending, o.device))
    ensures Total(Gather(pending, sequences, o)) == Total(pending) + 1
  {
    var pending', sequences' := Gather(pending, sequences, o), Known(sequences, pending, o.device);
    forall e ensures DeviceBooks(received + [o], produced, pending', sequences', e) {
      assert DeviceBooks(received, produced, pending, sequences, e);
      DeviceGather(received, produced, pending, sequences, o, e);
    }
    TotalGather(pending, sequences, o);
  }

  lemma TotalGather(pending: map<string, Partial>, sequences: map<string, nat>, o: Observation)
    ensures Total(Gather(pending, sequences, o)) == Total(pending) + 1
  {
    var d, pending' := o.device, Gather(pending, sequences, o);
    TotalRemove(pending', d);
    assert pending' - {d} == pending - {d};
    if d in pending {
      TotalRemove(pending, d);
    } else {
      assert pending - {d} == pending;
    }
  }

  lemma DeviceMade(
    received: seq<Observation>, produced: seq<Batch>, pending: map<string, Partial>, sequences: map<string, nat>,
    d: string, made: seq<Batch>, e: string)
    requires DeviceBooks(received, produced, pending, sequences, d) && d in pending
    requires DeviceBooks(received, produced, pending, sequences, e)
    requires Carries(made, d, pending[d].observations)
    ensures DeviceBooks(received, produced + made, pending - {d}, sequences[d := pending[d].sequence + |made|], e)
  {
    var before, more := Carried(produced, e), Carried(made, e);
    assert Count(made, e) == if e == d then |made| else 0;
    assert Carried(produced + made, e) == before + more
      && Count(produced + made, e) == Count(produced, e) + Count(made, e) by {
      CarriedAppend(produced, made, e);
    }
    if e == d {
      assert more == pending[d].observations;
      assert before + more + [] == before + more;
    } else {
      assert more == [];
      assert before + [] == before;
    }
  }

  /** Turning a device's partial batch into batches. */
  lemma BooksMade(
    max: nat, received: seq<Observation>, produced: seq<Batch>, pending: map<string, Partial>,
    sequences: map<string, nat>, d: string, made: seq<Batch>)
    requires Books(max, received, produced, pending, sequences) && d in pending
    requires Carries(made, d, pending[d].observations) && GoodBatches(max, produced + made)
    ensures Books(max, received, produced + made, pending - {d}, sequences[d := pending[d].sequence + |made|])
  {
    var sequences' := sequences[d := pending[d].sequence + |made|];
    SizeAppend(produced, made);
    TotalRemove(pending, d);
    forall e ensures DeviceBooks(received, produced + made, pending - {d}, sequences', e) {
      DeviceMade(received, produced, pending, sequences, d, made, e);
    }
  }

  lemma TotalFlush(pending: map<string, Partial>, d: string, outbox: seq<Batch>, made: seq<Batch>)
    requires d in pending && Carries(made, d, pending[d].observations)
    ensures Total(pending - {d}) + Size(outbox + made) == Total(pending) + Size(outbox)
  {
    TotalRemove(pending, d);
    SizeAppend(outbox, made);
  }

  lemma SameBooks(
    max: nat, received: seq<Observation>, produced: seq<Batch>, produced': seq<Batch>,
    pending: map<string, Partial>, pending': map<string, Partial>,
    sequences: map<string, nat>, sequences': map<string, nat>)
    requires Books(max, received, produced, pending, sequences)
    requires produced' == produced && pending' == pending && sequences' == sequences
    ensures Books(max, received, produced', pending', sequences')
  {
  }

  lemma Regroup(a: seq<Batch>, b: seq<Batch>, c: seq<Batch>)
    ensures a + b + c == a + (b + c)
  {
  }

  /** The same where the batches in `gone` have left the outbox. */
  lemma OutboxMade(
    max: nat, received: seq<Observation>, gone: seq<Batch>, outbox: seq<Batch>, pending: map<string, Partial>,
    sequences: map<string, nat>, d: string, made: seq<Batch>)
    requires Books(max, received, gone + outbox, pending, sequences) && d in pending
    requires Carries(made, d, pending[d].observations) && GoodBatches(max, gone + outbox + made)
    ensures Total(pending - {d}) + Size(outbox + made) == Total(pending) + Size(outbox)
    ensures Books(max, received, gone + (outbox + made), pending - {d}, sequences[d := pending[d].sequence + |made|])
  {
    BooksMade(max, received, gone + outbox, pending, sequences, d, made);
    TotalFlush(pending, d, outbox, made);
    Regroup(gone, outbox, made);
  }

  lemma OutboxFlush(
    max: nat, received: seq<Observation>, gone: seq<Batch>, outbox: seq<Batch>, pending: map<string, Partial>,
    sequences: map<string, nat>, d: string, made: seq<Batch>)
    requires max > 0 && Books(max, received, gone + outbox, pending, sequences) && d in pending
    requires made == Chunks(d, pending[d].sequence, pending[d].observations, max)
    ensures Total(pending - {d}) + Size(outbox + made) == Total(pending) + Size(outbox)
    ensures Books(max, received, gone + (outbox + made), pending - {d}, sequences[d := pending[d].sequence + |made|])
  {
    assert DeviceBooks(received, gone + outbox, pending, sequences, d);
    ChunksGood(max, gone + outbox, d, pending[d].sequence, pending[d].observations);
    ChunksCarry(d, pending[d].sequence, pending[d].observations, max);
    OutboxMade(max, received, gone, outbox, pending, sequences, d, made);
  }

  lemma TakeOne(before: seq<Observation>, input: seq<Observation>, n: nat)
    requires n < |input|
    ensures before + input[..n + 1] == before + input[..n] + [input[n]]
  {
  }

  /** What the loop can be woken by. The last three end it; `input` is what the input channel still
      delivers, `budget` the number of batches the output accepts before the drain deadline or
      before it closes. */
  datatype Event =
    | FlushTick
    | Ingest(o: Observation)
    | Permit
    | Cancelled
    | OutputClosed(input: seq<Observation>)
    | Shutdown(input: seq<Observation>, budget: nat)

  // ---------- what each event does, without saying how ----------

  /** What the loop holds and what has passed through it. */
  datatype View = View(
    received: seq<Observation>, pending: map<string, Partial>, outbox: seq<Batch>, emitted: seq<Batch>,
    dropped: seq<Batch>)

  ghost function Load(v: View): nat {
    Total(v.pending) + Size(v.outbox)
  }

  /** An ingested observation is taken unless 16 full batches are held; it joins its device's partial batch,
      which moves to the back of the outbox exactly when it is full. */
  ghost predicate Ingests(max: nat, o: Observation, v: View, w: View) {
    if Load(v) >= BUFFER_BATCH_MULTIPLIER * max then w == v
    else
      var batch := Gathered(v.pending, o.device) + [o];
      && w.received == v.received + [o] && w.emitted == v.emitted && w.dropped == v.dropped
      && (forall d :: d != o.device ==> Gathered(w.pending, d) == Gathered(v.pending, d))
      && if |batch| < max then w.outbox == v.outbox && Gathered(w.pending, o.device) == batch
         else
           && o.device !in w.pending && |w.outbox| == |v.outbox| + 1 && v.outbox <= w.outbox
           && w.outbox[|v.outbox|].device == o.device && w.outbox[|v.outbox|].observations == batch
  }

  lemma Ingested(max: nat, o: Observation, v: View, sequences: map<string, nat>, w: View)
    requires Load(v) < BUFFER_BATCH_MULTIPLIER * max && |Gathered(v.pending, o.device)| < max
    requires w.received == v.received + [o] && w.emitted == v.emitted && w.dropped == v.dropped
    requires var gathered := Gather(v.pending, sequences, o);
             var part := gathered[o.device];
             if |part.observations| < max then w.pending == gathered && w.outbox == v.outbox
             else
               && w.pending == gathered - {o.device}
               && w.outbox == v.outbox + Chunks(o.device, part.sequence, part.observations, max)
    ensures Ingests(max, o, v, w)
  {
    var part := Gather(v.pending, sequences, o)[o.device];
    if |part.observations| >= max {
      OneChunk(o.device, part.sequence, part.observations, max);
    }
  }

  /** A device's partial batch as one batch. */
  function Whole(d: string, part: Partial): Batch {
    Batch(d, part.sequence, part.observations)
  }

  /** A flush leaves nothing pending: every partial batch stands, whole, behind what the outbox held. */
  ghost predicate Flushes(v: View, w: View) {
    && w.received == v.received && w.emitted == v.emitted && w.dropped == v.dropped
    && w.pending == map[] && v.outbox <= w.outbox
    && forall d :: d in v.pending ==>
         Whole(d, v.pending[d]) in w.outbox[|v.outbox|..]
  }

  /** Part way through a flush: what is no longer pending stands behind what the outbox held. */
  ghost predicate PartFlushed(max: nat, v: View, pending: map<string, Partial>, outbox: seq<Batch>) {
    && v.outbox <= outbox
    && (forall d :: d in pending ==> d in v.pending && pending[d] == v.pending[d])
    && forall d :: d in v.pending && d !in pending && 0 < |v.pending[d].observations| <= max ==>
         Whole(d, v.pending[d]) in outbox[|v.outbox|..]
  }

  lemma PartFlushedOn(max: nat, v: View, pending: map<string, Partial>, outbox: seq<Batch>, d: string)
    requires max > 0 && PartFlushed(max, v, pending, outbox) && d in pending
    ensures PartFlushed(max, v, pending - {d},
                        outbox + Chunks(d, pending[d].sequence, pending[d].observations, max))
  {
    var made := Chunks(d, pending[d].sequence, pending[d].observations, max);
    assert (outbox + made)[|v.outbox|..] == outbox[|v.outbox|..] + made;
    if 0 < |pending[d].observations| <= max {
      OneChunk(d, pending[d].sequence, pending[d].observations, max);
    }
  }

  /** A permit takes the front of the outbox. */
  ghost predicate Emits(v: View, w: View) {
    if v.outbox == [] then w == v
    else w == v.(emitted := v.emitted + [v.outbox[0]], outbox := v.outbox[1..])
  }

  /** A final event takes the rest of the input and leaves nothing held: at most `budget` batches go out, in
      order, and the others are dropped only after that many went out. */
  ghost predicate Finishes(input: seq<Observation>, budget: nat, v: View, w: View) {
    && w.received == v.received + input && w.pending == map[] && w.outbox == []
    && v.emitted <= w.emitted && v.emitted + v.outbox <= w.emitted + w.dropped
    && |w.emitted| <= |v.emitted| + budget
    && (w.dropped != [] ==> |w.emitted| == |v.emitted| + budget)
  }

  ghost predicate Stepped(max: nat, e: Event, v: View, w: View) {
    match e
    case FlushTick => Flushes(v, w)
    case Ingest(o) => Ingests(max, o, v, w)
    case Permit => Emits(v, w)
    case Cancelled => w == v
    case OutputClosed(input) => Finishes(input, 0, v, w)
    case Shutdown(input, budget) => Finishes(input, budget, v, w)
  }

  predicate Settles(e: Event) {
    e.OutputClosed? || e.Shutdown?
  }

  predicate Ends(e: Event) {
    e.Cancelled? || Settles(e)
  }

  /** All observations the events hold, in order. */
  function Offered(events: seq<Event>): seq<Observation> {
    if events == [] then []
    else
      Offered(events[..|events| - 1]) +
      match events[|events| - 1]
      case Ingest(o) => [o]
      case OutputClosed(input) => input
      case Shutdown(input, _) => input
      case _ => []
  }

  function Ingestions(events: seq<Event>): nat {
    if events == [] then 0
    else Ingestions(events[..|events| - 1]) + if events[|events| - 1].Ingest? then 1 else 0
  }

  lemma {:induction false} FewerIngestions(events: seq<Event>, n: nat)
    requires n <= |events|
    ensures Ingestions(events[..n]) <= Ingestions(events)
  {
    if n < |events| {
      FewerIngestions(events[..|events| - 1], n);
      assert events[..|events| - 1][..n] == events[..n];
    } else {
      assert events[..n] == events;
    }
  }

  lemma OneMore(events: seq<Event>, n: nat)
    requires n < |events|
    ensures Offered(events[..n + 1]) == Offered(events[..n]) + Offered([events[n]])
    ensures Ingestions(events[..n + 1]) == Ingestions(events[..n]) + Ingestions([events[n]])
  {
    assert events[..n + 1][..n] == events[..n];
    assert [events[n]][..0] == [];
  }

  class Pipeline {
    const max: nat
    var pending: map<string, Partial>
    var sequences: map<string, nat>
    var outbox: seq<Batch>
    var buffered: nat
    var stats: Stats
    ghost var received: seq<Observation>   // taken from the input channel
    ghost var emitted: seq<Batch>
    ghost var dropped: seq<Batch>

    /** The books are right, emitted batches come before dropped ones, and the counters count. */
    ghost predicate Valid()
      reads this
    {
      && max > 0
      && Books(max, received, emitted + dropped + outbox, pending, sequences)
      && stats == Stats(|emitted|, Size(emitted), |dropped|, Size(dropped))
    }

    /** While the loop runs nothing is dropped and the buffer is counted and bounded. */
    ghost predicate Looping()
      reads this
    {
      && Valid() && dropped == []
      && buffered == Total(pending) + Size(outbox) <= BUFFER_BATCH_MULTIPLIER * max
      && forall d :: d in pending ==> 0 < |pending[d].observations| < max
    }

    ghost function AsView(): View
      reads this
    {
      View(received, pending, outbox, emitted, dropped)
    }

    constructor (max: nat)
      requires max > 0
      ensures Looping() && this.max == max && AsView() == View([], map[], [], [], [])
    {
      this.max := max;
      pending, sequences, outbox, buffered := map[], map[], [], 0;
      stats := Stats(0, 0, 0, 0);
      received, emitted, dropped := [], [], [];
    }

    /** Adds an observation to its device's partial batch. */
    method Push(o: Observation)
      requires o.device in pending ==> o.device in sequences
      modifies this`pending, this`sequences
      ensures pending == Gather(old(pending), old(sequences), o)
      ensures sequences == Known(old(sequences), old(pending), o.device)
    {
      if o.device !in pending {
        if o.device !in sequences {
          sequences := sequences[o.device := 0];
        }
        pending := pending[o.device := Partial(sequences[o.device], [])];
      }
      pending := pending[o.device := pending[o.device].(observations := pending[o.device].observations + [o])];
    }

    method Aggregate(o: Observation)
      requires Valid()
      modifies this`pending, this`sequences, this`received
      ensures Valid() && received == old(received) + [o]
      ensures pending == Gather(old(pending), old(sequences), o)
      ensures Total(pending) == old(Total(pending)) + 1
    {
      assert DeviceBooks(received, emitted + dropped + outbox, pending, sequences, o.device);
      BooksGather(max, received, emitted + dropped + outbox, pending, sequences, o);
      Push(o);
      received := received + [o];
    }

    /** Cuts a device's partial batch into batches of at most `max`. */
    method Cut(d: string) returns (ghost made: seq<Batch>)
      requires max > 0 && d in pending && d in sequences
      modifies this`pending, this`sequences, this`outbox
      ensures made == Chunks(d, old(pending)[d].sequence, old(pending)[d].observations, max)
      ensures pending == old(pending) - {d} && outbox == old(outbox) + made
      ensures sequences == old(sequences)[d := old(pending)[d].sequence + |made|]
    {
      var entry := pending[d];
      pending := pending - {d};
      var rest := entry.observations;
      var sequence: nat := entry.sequence;
      made := Chunks(d, sequence, rest, max);
      while rest != []
        invariant old(outbox) + made == outbox + Chunks(d, sequence, rest, max)
        invariant |made| == sequence - entry.sequence + |Chunks(d, sequence, rest, max)|
        decreases |rest|
        modifies this`outbox
      {
        var take := Min(|rest|, max);
        outbox := outbox + [Batch(d, sequence, rest[..take])];
        rest := rest[take..];
        sequence := sequence + 1;
      }
      sequences := sequences[d := sequence];
    }

    method FlushDevice(d: string)
      requires Valid() && d in pending
      modifies this`pending, this`sequences, this`outbox
      ensures Valid() && pending == old(pending) - {d}
      ensures outbox == old(outbox) + Chunks(d, old(pending)[d].sequence, old(pending)[d].observations, max)
      ensures Total(pending) + Size(outbox) == old(Total(pending)) + Size(old(outbox))
    {
      ghost var gone, kept, rest, numbers := emitted + dropped, outbox, pending, sequences;
      assert DeviceBooks(received, gone + outbox, pending, sequences, d);
      ghost var made := Cut(d);
      OutboxFlush(max, received, gone, kept, rest, numbers, d, made);
      SameBooks(max, received, gone + (kept + made), emitted + dropped + outbox,
                rest - {d}, pending, numbers[d := rest[d].sequence + |made|], sequences);
    }

    /** Cuts all partial batches, in whatever order the devices come. */
    method Flush()
      requires Valid()
      modifies this`pending, this`sequences, this`outbox
      ensures Valid() && pending == map[] && PartFlushed(max, old(AsView()), pending, outbox)
      ensures Size(outbox) == old(Total(pending)) + Size(old(outbox))
    {
      while pending != map[]
        invariant Valid() && PartFlushed(max, old(AsView()), pending, outbox)
        invariant Total(pending) + Size(outbox) == old(Total(pending)) + Size(old(outbox))
        decreases |pending|
      {
        var d :| d in pending;
        PartFlushedOn(max, old(AsView()), pending, outbox, d);
        FlushDevice(d);
      }
    }

    /** The flush timer fired. */
    method Tick()
      requires Looping()
      modifies this`pending, this`sequences, this`outbox
      ensures Looping() && Flushes(old(AsView()), AsView())
    {
      Flush();
    }

    /** Takes one observation; a batch that is full moves on at once. */
    method Receive(o: Observation)
      requires Looping() && buffered < BUFFER_BATCH_MULTIPLIER * max
      modifies this`pending, this`sequences, this`outbox, this`buffered, this`received
      ensures Looping() && Ingests(max, o, old(AsView()), AsView())
    {
      ghost var before, numbers := AsView(), sequences;
      buffered := buffered + 1;
      Aggregate(o);
      if |pending[o.device].observations| >= max {
        FlushDevice(o.device);
      }
      Ingested(max, o, before, numbers, AsView());
    }

    /** The output took the oldest batch. */
    method Emit()
      requires Looping() && outbox != []
      modifies this`outbox, this`buffered, this`stats, this`emitted
      ensures Looping() && Emits(old(AsView()), AsView())
    {
      FirstBatch(outbox[0], outbox[1..], "");
      assert [outbox[0]] + outbox[1..] == outbox;
      buffered := buffered - |outbox[0].observations|;
      SendFront();
    }

    /** Takes what the input still holds. */
    method TakeAll(input: seq<Observation>)
      requires Valid()
      modifies this`pending, this`sequences, this`received
      ensures Valid() && received == old(received) + input
    {
      var n := 0;
      while n < |input|
        invariant 0 <= n <= |input| && Valid() && received == old(received) + input[..n]
      {
        TakeOne(old(received), input, n);
        Aggregate(input[n]);
        n := n + 1;
      }
      assert input[..n] == input;
    }

    method Collect(input: seq<Observation>)
      requires Valid()
      modifies this`pending, this`sequences, this`outbox, this`received
      ensures Valid() && pending == map[] && received == old(received) + input && old(outbox) <= outbox
    {
      TakeAll(input);
      Flush();
    }

    /** Gives up what is left in the outbox, counting it. */
    method DropRest()
      requires Valid() && dropped == []
      modifies this`outbox, this`stats, this`dropped
      ensures Valid() && outbox == [] && dropped == old(outbox)
    {
      var count := 0;
      var n := 0;
      while n < |outbox|
        invariant 0 <= n <= |outbox| && count == Size(outbox[..n])
      {
        assert outbox[..n + 1][..n] == outbox[..n];
        count := count + |outbox[n].observations|;
        n := n + 1;
      }
      assert outbox[..n] == outbox;
      assert emitted + [] + outbox == emitted + outbox + [];
      stats := stats.(batchesDropped := stats.batchesDropped + |outbox|,
                      observationsDropped := stats.observationsDropped + count);
      dropped, outbox := outbox, [];
    }

    /** The output is gone for good: everything not yet emitted is dropped. */
    method Terminate(input: seq<Observation>)
      requires Looping()
      modifies this
      ensures Valid() && Closed() && Finishes(input, 0, old(AsView()), AsView())
    {
      Collect(input);
      DropRest();
    }

    /** The output takes up to `budget` batches. */
    method SendSome(budget: nat)
      requires Valid() && dropped == [] && pending == map[]
      modifies this`outbox, this`stats, this`emitted
      ensures Valid() && old(emitted) <= emitted && emitted + outbox == old(emitted) + old(outbox)
      ensures |emitted| <= |old(emitted)| + budget && (outbox != [] ==> |emitted| == |old(emitted)| + budget)
    {
      var sent := 0;
      while outbox != [] && sent < budget
        invariant Valid() && dropped == [] && pending == map[]
        invariant sent <= budget && |emitted| == |old(emitted)| + sent
        invariant old(emitted) <= emitted && emitted + outbox == old(emitted) + old(outbox)
        decreases budget - sent
      {
        SendFront();
        sent := sent + 1;
      }
    }

    /** Graceful stop: the output takes `budget` batches more at most, the rest is dropped. */
    method Drain(input: seq<Observation>, budget: nat)
      requires Looping()
      modifies this
      ensures Valid() && Closed() && Finishes(input, budget, old(AsView()), AsView())
    {
      Collect(input);
      ghost var all := emitted + outbox;
      assert old(emitted) + old(outbox) <= all;
      SendSome(budget);
      assert emitted + outbox == all;
      DropRest();
    }

    method SendFront()
      requires Valid() && dropped == [] && outbox != []
      modifies this`outbox, this`stats, this`emitted
      ensures Valid() && emitted == old(emitted) + [old(outbox)[0]] && outbox == old(outbox)[1..]
    {
      var batch := outbox[0];
      SizeAppend(emitted, [batch]);
      OneBatch(batch, "");
      SameBooks(max, received, emitted + dropped + outbox, emitted + [batch] + [] + outbox[1..],
                pending, pending, sequences, sequences);
      outbox := outbox[1..];
      stats := stats.(batchesEmitted := stats.batchesEmitted + 1,
                      observationsEmitted := stats.observationsEmitted + |batch.observations|);
      emitted := emitted + [batch];
    }

    /** What the loop does when an event wakes it. */
    method Wake(e: Event)
      requires Looping()
      modifies this
      ensures Valid() && Stepped(max, e, old(AsView()), AsView())
      ensures if Settles(e) then Closed() else Looping()
    {
      match e {
        case FlushTick => Tick();
        case Ingest(o) =>
          if buffered < BUFFER_BATCH_MULTIPLIER * max {
            Receive(o);
          }
        case Permit =>
          if outbox != [] {
            Emit();
          }
        case Cancelled =>
        case OutputClosed(input) => Terminate(input);
        case Shutdown(input, budget) => Drain(input, budget);
      }
    }

    /** Goes on until an event ends the loop. */
    method Follow(events: seq<Event>) returns (settled: bool, ghost trace: seq<View>)
      requires Looping() && AsView() == View([], map[], [], [], [])
      modifies this
      ensures Valid() && Traced(max, events, trace) && trace[|trace| - 1] == AsView()
      ensures |trace| <= |events| ==> |trace| > 1 && Ends(events[|trace| - 2])
      ensures settled <==> |trace| > 1 && Settles(events[|trace| - 2])
      ensures if settled then Closed() else Looping()
    {
      settled := false;
      var n, ended := 0, false;
      trace := [AsView()];
      LoadBound(max, AsView(), sequences);
      while n < |events| && !ended
        invariant 0 <= n <= |events| && Valid()
        invariant |trace| == n + 1 && Traced(max, events, trace) && trace[n] == AsView()
        invariant ended <==> n > 0 && Ends(events[n - 1])
        invariant settled <==> n > 0 && Settles(events[n - 1])
        invariant if settled then Closed() else Looping()
      {
        Wake(events[n]);
        LoadBound(max, AsView(), sequences);
        TracedOn(max, events, trace, AsView());
        trace := trace + [AsView()];
        settled := Settles(events[n]);
        ended := Ends(events[n]);
        n := n + 1;
      }
    }

    /** Nothing is held back: all that was received left in an emitted or a dropped batch. */
    ghost predicate Closed()
      reads this
    {
      pending == map[] && outbox == []
    }
  }

  /** Once nothing is held back, what arrived from each device is exactly what its emitted batches
      and then its dropped ones carry, and the two counters add up to all that was received. */
  lemma Conserved(
    max: nat, received: seq<Observation>, emitted: seq<Batch>, dropped: seq<Batch>, sequences: map<string, nat>,
    d: string)
    requires Books(max, received, emitted + dropped + [], map[], sequences)
    ensures Carried(emitted, d) + Carried(dropped, d) == Arrivals(received, d)
    ensures |received| == Size(emitted) + Size(dropped)
    ensures Count(emitted, d) + Count(dropped, d) == Next(sequences, d)
  {
    var all := emitted + dropped;
    assert all + [] == all;
    assert DeviceBooks(received, all + [], map[], sequences, d);
    assert Carried(all, d) + [] == Carried(all, d);
    assert Carried(all, d) == Carried(emitted, d) + Carried(dropped, d)
      && Count(all, d) == Count(emitted, d) + Count(dropped, d) by {
      CarriedAppend(emitted, dropped, d);
    }
    assert Size(all) == Size(emitted) + Size(dropped) by {
      SizeAppend(emitted, dropped);
    }
  }

  /** The loop holds no more than what it took. */
  lemma LoadBound(max: nat, v: View, sequences: map<string, nat>)
    requires Books(max, v.received, v.emitted + v.dropped + v.outbox, v.pending, sequences)
    ensures Load(v) <= |v.received|
  {
    SizeAppend(v.emitted + v.dropped, v.outbox);
  }

  /** Everything the first `n` events held was taken. */
  ghost predicate Taking(events: seq<Event>, n: nat, settled: bool, received: seq<Observation>) {
    && n <= |events| && received == Offered(events[..n])
    && (!settled ==> |received| == Ingestions(events[..n]))
  }

  /** The views before and after every event the loop sees: none after the first that ends it. */
  ghost predicate Traced(max: nat, events: seq<Event>, trace: seq<View>) {
    && 0 < |trace| <= |events| + 1 && trace[0] == View([], map[], [], [], [])
    && (forall n :: 0 <= n < |trace| - 1 ==> Stepped(max, events[n], trace[n], trace[n + 1]))
    && (forall n :: 0 <= n < |trace| ==> Load(trace[n]) <= |trace[n].received|)
    && forall n :: 0 <= n < |trace| - 2 ==> !Ends(events[n])
  }

  lemma TracedOn(max: nat, events: seq<Event>, trace: seq<View>, v: View)
    requires Traced(max, events, trace) && |trace| <= |events|
    requires Stepped(max, events[|trace| - 1], trace[|trace| - 1], v)
    requires |trace| > 1 ==> !Ends(events[|trace| - 2])
    requires Load(v) <= |v.received|
    ensures Traced(max, events, trace + [v])
  {
  }

  /** While everything ingested fits into the buffer nothing is passed over. */
  lemma NonePassedOver(max: nat, events: seq<Event>, n: nat, v: View, w: View)
    requires n < |events| && Load(v) <= |v.received| && Stepped(max, events[n], v, w)
    requires Taking(events, n, false, v.received) && Ingestions(events) <= BUFFER_BATCH_MULTIPLIER * max
    ensures Taking(events, n + 1, Settles(events[n]), w.received)
  {
    OneMore(events, n);
    FewerIngestions(events, n + 1);
    assert [events[n]][..0] == [];
  }

  lemma {:induction false} TraceTakes(max: nat, events: seq<Event>, trace: seq<View>, n: nat)
    requires Traced(max, events, trace) && n < |trace| && Ingestions(events) <= BUFFER_BATCH_MULTIPLIER * max
    ensures Taking(events, n, n > 0 && Settles(events[n - 1]), trace[n].received)
  {
    if n > 0 {
      TraceTakes(max, events, trace, n - 1);
      NonePassedOver(max, events, n - 1, trace[n - 1], trace[n]);
    }
  }

  lemma Accounted(p: Pipeline)
    requires p.Valid() && p.Closed()
    ensures |p.received| == p.stats.observationsEmitted + p.stats.observationsDropped
    ensures forall d :: Carried(p.emitted, d) + Carried(p.dropped, d) == Arrivals(p.received, d)
  {
    forall d ensures Carried(p.emitted, d) + Carried(p.dropped, d) == Arrivals(p.received, d) {
      Conserved(p.max, p.received, p.emitted, p.dropped, p.sequences, d);
    }
    Conserved(p.max, p.received, p.emitted, p.dropped, p.sequences, "");
  }

  /** The whole loop over the events that wake it: `trace` shows what it held before and after each. It sees
      every event up to the first that ends it; with no more ingestions than the buffer holds, it takes exactly
      what they bring, in order, and then what the final event still delivers. `settled` says that it ended
      with an account of everything. */
  method Run(max: nat, events: seq<Event>) returns (p: Pipeline, settled: bool, ghost trace: seq<View>)
    requires max > 0
    ensures fresh(p) && p.max == max && p.Valid()
    ensures Traced(max, events, trace) && trace[|trace| - 1] == p.AsView()
    ensures |trace| <= |events| ==> |trace| > 1 && Ends(events[|trace| - 2])
    ensures settled <==> |trace| > 1 && Settles(events[|trace| - 2])
    ensures Ingestions(events) <= BUFFER_BATCH_MULTIPLIER * max ==> p.received == Offered(events[..|trace| - 1])
    ensures !settled ==> p.Looping()
    ensures settled ==>
              && |p.received| == p.stats.observationsEmitted + p.stats.observationsDropped
              && forall d :: Carried(p.emitted, d) + Carried(p.dropped, d) == Arrivals(p.received, d)
  {
    p := new Pipeline(max);
    settled, trace := p.Follow(events);
    if Ingestions(events) <= BUFFER_BATCH_MULTIPLIER * max {
      TraceTakes(max, events, trace, |trace| - 1);
    }
    if settled {
      Accounted(p);
    }
  }
}
