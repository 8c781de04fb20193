/** One device's bounded queue: four priority levels, first in first out within a level, aging
    between levels, cancellation by key, and the drain at a stop. */
module DeviceQueues {
  import opened ControlTypes

  const LEVELS := 4
  const NS_PER_MS := 1_000_000
  const I64_MIN := -0x8000_0000_0000_0000
  const I64_MAX := 0x7FFF_FFFF_FFFF_FFFF

  /** A queued request; `id` names its cancellation token and its receipt. */
  datatype Entry = Entry(id: nat, key: Key, deadline: int, queuedAtNs: int)

  datatype Kind = Ready | WasCancelled | Expired

  datatype Picked = Picked(entry: Entry, kind: Kind)

  datatype EnqueueOutcome = Taken | Full(capacity: nat) | Closed

  datatype CancelOutcome = Marked | NotFound | CancelClosed

  // ---------- aging ----------

  /** Division of machine integers truncates toward zero. */
  function TruncDiv(x: int, y: int): int
    requires y != 0
  {
    if (x >= 0) == (y > 0) then Abs(x) / Abs(y) else -(Abs(x) / Abs(y))
  }

  function Abs(x: int): nat { if x < 0 then -x else x }

  function Saturate(x: int): int {
    if x < I64_MIN then I64_MIN else if x > I64_MAX then I64_MAX else x
  }

  /** An unsigned 64-bit value reinterpreted as signed. */
  function AsSigned(x: nat): int {
    if x <= I64_MAX then x else x - 0x1_0000_0000_0000_0000
  }

  function SaturatingSub(x: nat, y: nat): nat {
    if x >= y then x - y else 0
  }

  function Clamp(x: int, low: int, high: int): int {
    if x < low then low else if x > high then high else x
  }

  /** What the worker reads while it looks for an entry: the aging step of the policy, the wall
      clock once, and the monotone clock once per level. */
  datatype Scan = Scan(agingMs: nat, nowNs: int, instants: seq<int>) {
    ghost predicate Valid() {
      agingMs < 0x1_0000_0000_0000_0000 && |instants| == LEVELS
    }
  }

  predicate IsReady(e: Entry, cancelled: set<nat>, at: int) {
    e.id !in cancelled && at < e.deadline
  }

  function WaitedMs(e: Entry, nowNs: int): int {
    TruncDiv(Saturate(nowNs - e.queuedAtNs), NS_PER_MS)
  }

  /** Effective priority of `e` at the head of level `base`. */
  function Effective(e: Entry, base: nat, scan: Scan, cancelled: set<nat>): (eff: int)
    requires scan.Valid() && base < LEVELS
    ensures base <= eff <= 3
  {
    if scan.agingMs > 0 && IsReady(e, cancelled, scan.instants[base])
    then base + Clamp(TruncDiv(WaitedMs(e, scan.nowNs), AsSigned(scan.agingMs)), 0, 3 - base)
    else base
  }

  /** Level `l` has a head, no other head has a larger effective priority, and no higher level has
      an equal one. */
  ghost predicate Chosen(levels: seq<seq<Entry>>, l: nat, scan: Scan, cancelled: set<nat>)
    requires |levels| == LEVELS && scan.Valid()
  {
    && l < LEVELS && levels[l] != []
    && forall m :: 0 <= m < LEVELS && levels[m] != [] && m != l ==>
         var mine, other := Effective(levels[l][0], l, scan, cancelled), Effective(levels[m][0], m, scan, cancelled);
         other <= mine && (m > l ==> other < mine)
  }

  lemma ChoiceUnique(levels: seq<seq<Entry>>, l: nat, m: nat, scan: Scan, cancelled: set<nat>)
    requires |levels| == LEVELS && scan.Valid()
    requires Chosen(levels, l, scan, cancelled) && Chosen(levels, m, scan, cancelled)
    ensures l == m
  {
  }

  lemma QuotientIff(x: nat, y: nat, k: nat)
    requires y > 0
    ensures x / y >= k <==> x >= k * y
  {
    var q, r := x / y, x % y;
    assert x == q * y + r && 0 <= r < y;
    if q >= k {
      assert q * y >= k * y;
    } else {
      assert (q + 1) * y <= k * y;
    }
  }

  /** A truncated quotient reaches a positive `k` exactly if both have the sign of each other and the
      dividend is at least as far from zero as `k` divisors. */
  lemma TruncIff(x: int, y: int, k: nat)
    requires y != 0 && k >= 1
    ensures TruncDiv(x, y) >= k <==> if y > 0 then x >= k * y else x <= k * y
  {
    QuotientIff(Abs(x), Abs(y), k);
    assert k * Abs(y) == if y > 0 then k * y else -(k * y);
    assert y > 0 ==> k * y > 0;
    assert y < 0 ==> k * y < 0;
  }

  /** Milliseconds are counted in full, from the nanoseconds the clocks give; more than an i64 of them
      are never seen. */
  lemma WaitedIff(e: Entry, nowNs: int, ms: int)
    requires ms >= 1
    ensures WaitedMs(e, nowNs) >= ms
            <==> nowNs - e.queuedAtNs >= ms * NS_PER_MS && ms * NS_PER_MS <= I64_MAX
    ensures WaitedMs(e, nowNs) <= -ms
            <==> nowNs - e.queuedAtNs <= -(ms * NS_PER_MS) && -(ms * NS_PER_MS) >= I64_MIN
  {
    var ns := Saturate(nowNs - e.queuedAtNs);
    QuotientIff(Abs(ns), NS_PER_MS, ms);
  }

  /** One level for every full aging step the head has been waiting, up to the top, if it is ready; none
      without a policy or for a head that is cancelled or past its deadline. An aging step beyond an i64
      wraps to a negative one, and then only a clock that went back raises the head. */
  lemma EffectiveIff(e: Entry, base: nat, scan: Scan, cancelled: set<nat>, k: nat)
    requires scan.Valid() && base < LEVELS && 1 <= k <= 3 - base
    ensures var ready := e.id !in cancelled && scan.instants[base] < e.deadline;
            var waited := scan.nowNs - e.queuedAtNs;
            && (scan.agingMs == 0 || !ready ==> Effective(e, base, scan, cancelled) == base)
            && (0 < scan.agingMs <= I64_MAX ==>
                  var due := k * scan.agingMs * NS_PER_MS;
                  (Effective(e, base, scan, cancelled) >= base + k <==> ready && waited >= due && due <= I64_MAX))
            && (scan.agingMs > I64_MAX ==>
                  var due := k * (0x1_0000_0000_0000_0000 - scan.agingMs) * NS_PER_MS;
                  (Effective(e, base, scan, cancelled) >= base + k <==> ready && waited <= -due && -due >= I64_MIN))
  {
    var step := AsSigned(scan.agingMs);
    if scan.agingMs > 0 {
      TruncIff(WaitedMs(e, scan.nowNs), step, k);
      StepsPositive(k, Abs(step));
      WaitedIff(e, scan.nowNs, k * Abs(step));
    }
  }

  lemma StepsPositive(k: nat, step: nat)
    requires k >= 1 && step >= 1
    ensures k * step >= 1
  {
  }

  lemma AgedIsTop(e: Entry, base: nat, scan: Scan, cancelled: set<nat>)
    requires scan.Valid() && base < LEVELS
    requires 0 < scan.agingMs <= I64_MAX && IsReady(e, cancelled, scan.instants[base])
    requires WaitedMs(e, scan.nowNs) >= (3 - base) * scan.agingMs
    ensures Effective(e, base, scan, cancelled) == 3
  {
    if base < 3 {
      TruncIff(WaitedMs(e, scan.nowNs), scan.agingMs, 3 - base);
    }
  }

  /** A ready head that has waited long enough to have aged to the top is passed over only for a
      head of a higher level that has effective priority 3 as well. */
  lemma AgedBypass(levels: seq<seq<Entry>>, base: nat, l: nat, scan: Scan, cancelled: set<nat>)
    requires |levels| == LEVELS && scan.Valid() && Chosen(levels, l, scan, cancelled)
    requires base < LEVELS && levels[base] != [] && base != l
    requires 0 < scan.agingMs <= I64_MAX && IsReady(levels[base][0], cancelled, scan.instants[base])
    requires WaitedMs(levels[base][0], scan.nowNs) >= (3 - base) * scan.agingMs
    ensures l > base && Effective(levels[l][0], l, scan, cancelled) == 3
  {
    AgedIsTop(levels[base][0], base, scan, cancelled);
  }

  // ---------- the entries of all levels ----------

  /** All entries, lowest level first. */
  function Flat(levels: seq<seq<Entry>>): seq<Entry> {
    if levels == [] then [] else levels[0] + Flat(levels[1..])
  }

  lemma {:induction false} FlatSplit(levels: seq<seq<Entry>>, l: nat)
    requires l < |levels|
    ensures Flat(levels) == Flat(levels[..l]) + levels[l] + Flat(levels[l + 1..])
  {
    if l == 0 {
      assert levels[..0] == [];
    } else {
      FlatSplit(levels[1..], l - 1);
      assert levels[1..][..l - 1] == levels[..l][1..] && levels[1..][l..] == levels[l + 1..];
    }
  }

  /** Replacing level `l` replaces exactly its part of the flattened queue. */
  lemma FlatUpdate(levels: seq<seq<Entry>>, l: nat, level: seq<Entry>)
    requires l < |levels|
    ensures Flat(levels[l := level]) == Flat(levels[..l]) + level + Flat(levels[l + 1..])
  {
    FlatSplit(levels[l := level], l);
    assert levels[l := level][..l] == levels[..l] && levels[l := level][l + 1..] == levels[l + 1..];
  }

  lemma FlatNext(levels: seq<seq<Entry>>, l: nat)
    requires l < |levels|
    ensures Flat(levels[l..]) == levels[l] + Flat(levels[l + 1..])
  {
  }

  lemma {:induction false} FlatEmpty(levels: seq<seq<Entry>>)
    requires forall l :: 0 <= l < |levels| ==> levels[l] == []
    ensures Flat(levels) == []
  {
    if levels != [] {
      FlatEmpty(levels[1..]);
    }
  }

  lemma {:induction false} FlatMember(levels: seq<seq<Entry>>, e: Entry)
    ensures e in Flat(levels) <==> exists l :: 0 <= l < |levels| && e in levels[l]
  {
    if levels != [] {
      FlatMember(levels[1..], e);
      assert forall l :: 0 <= l < |levels| - 1 ==> levels[1..][l] == levels[l + 1];
      assert (exists l :: 0 <= l < |levels[1..]| && e in levels[1..][l]) ==>
               exists l :: 1 <= l < |levels| && e in levels[l] by {
        if l :| 0 <= l < |levels[1..]| && e in levels[1..][l] {
          assert e in levels[l + 1];
        }
      }
      if l :| 1 <= l < |levels| && e in levels[l] {
        assert e in levels[1..][l - 1];
      }
    }
  }

  function Ids(entries: seq<Entry>): set<nat> {
    set e | e in entries :: e.id
  }

  predicate Matches(e: Entry, namespace: string, request: string) {
    e.key.namespace == namespace && e.key.request == request
  }

  /** Entry `n` of level `l` is the first with this name, from the lowest level up and from the head back. */
  ghost predicate FirstMatch(levels: seq<seq<Entry>>, l: int, n: int, namespace: string, request: string) {
    && 0 <= l < |levels| && 0 <= n < |levels[l]| && Matches(levels[l][n], namespace, request)
    && forall m, k :: 0 <= m <= l && 0 <= k < |levels[m]| && (m < l || k < n) ==>
         !Matches(levels[m][k], namespace, request)
  }

  /** What taking the head off level `l` does to the whole. */
  lemma FlatPop(levels: seq<seq<Entry>>, l: nat)
    requires l < |levels| && levels[l] != []
    ensures var rest := Flat(levels[l := levels[l][1..]]);
            |Flat(levels)| == |rest| + 1 && Ids(Flat(levels)) == Ids(rest) + {levels[l][0].id}
  {
    FlatSplit(levels, l);
    FlatUpdate(levels, l, levels[l][1..]);
    assert levels[l] == [levels[l][0]] + levels[l][1..];
    var rest := Flat(levels[l := levels[l][1..]]);
    assert forall e :: e in Flat(levels) <==> e == levels[l][0] || e in rest;
  }

  lemma FlatPush(levels: seq<seq<Entry>>, l: nat, entry: Entry)
    requires l < |levels|
    ensures var more := Flat(levels[l := levels[l] + [entry]]);
            |more| == |Flat(levels)| + 1 && Ids(more) == Ids(Flat(levels)) + {entry.id}
  {
    FlatSplit(levels, l);
    FlatUpdate(levels, l, levels[l] + [entry]);
    var more := Flat(levels[l := levels[l] + [entry]]);
    assert forall e :: e in more <==> e == entry || e in Flat(levels);
  }

  /** Longest prefix of written receipts removed. */
  function Unwritten(draining: seq<Entry>, written: set<nat>): (rest: seq<Entry>)
    ensures rest == [] || rest[0].id !in written
    ensures Ids(rest) - written == Ids(draining) - written
  {
    if draining != [] && draining[0].id in written
    then
      assert Ids(draining) == {draining[0].id} + Ids(draining[1..]) by {
        assert forall e :: e in draining <==> e == draining[0] || e in draining[1..];
      }
      Unwritten(draining[1..], written)
    else draining
  }

  lemma IdsAppend(a: seq<Entry>, b: seq<Entry>)
    ensures Ids(a + b) == Ids(a) + Ids(b)
  {
  }

  /** Settling the front leaves exactly the other unsettled entries, and so one fewer. */
  lemma TrackedFacts(draining: seq<Entry>, entry: Entry, written: set<nat>)
    requires draining != [] && draining[0] == entry && entry.id !in written
    ensures var rest := Unwritten(draining + [entry], written + {entry.id});
            && Ids(rest) - (written + {entry.id}) == Ids(draining) - written - {entry.id}
            && |Ids(rest) - (written + {entry.id})| < |Ids(draining) - written|
    ensures entry.id in Ids(draining)
  {
  }

  /** Part way through a drain of the entries `all`, of which `before` had receipts at the start. */
  ghost predicate PartWay(all: set<nat>, before: set<nat>, settled: seq<nat>, left: set<nat>) {
    && (forall m, n :: 0 <= m < n < |settled| ==> settled[m] != settled[n])
    && (forall i :: i in settled ==> i in all && i !in before)
    && (forall i :: i in all ==> i in left || i in settled || i in before)
    && (forall i :: i in left && i !in before && i !in settled ==> i in all)
  }

  lemma PartWayOn(all: set<nat>, before: set<nat>, settled: seq<nat>, draining: seq<Entry>, written: set<nat>)
    requires PartWay(all, before, settled, Ids(draining)) && draining != [] && draining[0].id !in written
    requires forall i :: i in written <==> i in before || i in settled
    ensures var rest := Unwritten(draining + [draining[0]], written + {draining[0].id});
            && PartWay(all, before, settled + [draining[0].id], Ids(rest))
            && (rest != [] ==> rest[0].id !in written + {draining[0].id})
            && |Ids(rest) - (written + {draining[0].id})| < |Ids(draining) - written|
  {
    var id := draining[0].id;
    TrackedFacts(draining, draining[0], written);
    var left, rest := Ids(draining), Ids(Unwritten(draining + [draining[0]], written + {id}));
    PartWayStep(all, before, settled, left, rest, written, id);
  }

  lemma PartWayStep(
    all: set<nat>, before: set<nat>, settled: seq<nat>, left: set<nat>, rest: set<nat>, written: set<nat>, id: nat)
    requires PartWay(all, before, settled, left) && id in left && id !in written
    requires forall i :: i in written <==> i in before || i in settled
    requires rest - (written + {id}) == left - written - {id}
    ensures PartWay(all, before, settled + [id], rest)
  {
    forall i | i !in written && i != id ensures i in rest <==> i in left {
      assert i in rest - (written + {id}) <==> i in left - written - {id};
    }
  }

  class DeviceQueue {
    const capacity: nat
    var levels: seq<seq<Entry>>
    var len: nat
    var running: Option<Entry>
    var draining: seq<Entry>
    var closed: bool
    var cooldownUntil: Option<int>
    var cancelled: set<nat>
    ghost var arrived: seq<seq<Entry>>     // per level, all that was ever accepted
    ghost var departed: seq<seq<Entry>>    // per level, all that left it, in order

    /** The counter counts, the bound holds, and every level is first in first out. */
    ghost predicate Valid()
      reads this
    {
      && |levels| == LEVELS && |arrived| == LEVELS && |departed| == LEVELS
      && len == |Flat(levels)| <= capacity
      && forall l :: 0 <= l < LEVELS ==> arrived[l] == departed[l] + levels[l]
    }

    /** The names of the waiting entries. */
    ghost function Waiting(): set<nat>
      reads this
    {
      Ids(Flat(levels))
    }

    constructor (capacity: nat)
      ensures Valid() && this.capacity == capacity
      ensures len == 0 && Waiting() == {} && running.None? && draining == [] && !closed && cooldownUntil.None?
      ensures cancelled == {}
    {
      this.capacity := capacity;
      levels, arrived, departed := [[], [], [], []], [[], [], [], []], [[], [], [], []];
      len, running, draining, closed, cooldownUntil, cancelled := 0, None, [], false, None, {};
      new;
      assert Flat(levels) == [];
    }

    method Enqueue(entry: Entry, priority: nat, stop: bool) returns (r: EnqueueOutcome)
      requires Valid() && priority < LEVELS
      modifies this`levels, this`len, this`arrived
      ensures Valid()
      ensures r == if closed || stop then Closed else if old(len) >= capacity then Full(capacity) else Taken
      ensures r != Taken ==> levels == old(levels) && arrived == old(arrived)
      ensures r == Taken ==>
                && arrived == old(arrived)[priority := old(arrived)[priority] + [entry]]
                && len == old(len) + 1 && Waiting() == old(Waiting()) + {entry.id}
    {
      if closed || stop {
        return Closed;
      }
      if len >= capacity {
        return Full(capacity);
      }
      FlatPush(levels, priority, entry);
      levels := levels[priority := levels[priority] + [entry]];
      len := len + 1;
      arrived := arrived[priority := arrived[priority] + [entry]];
      return Taken;
    }

    /** Marks the first waiting request with this name, or else the running one; no other. */
    method Cancel(namespace: string, request: string) returns (r: CancelOutcome)
      requires Valid()
      modifies this`cancelled
      ensures Valid()
      ensures r.CancelClosed? <==> closed
      ensures r.NotFound? <==>
                && !closed
                && (forall e :: e in Flat(levels) ==> !Matches(e, namespace, request))
                && (running.Some? ==> !Matches(running.value, namespace, request))
      ensures !r.Marked? ==> cancelled == old(cancelled)
      ensures r.Marked? ==>
                || (exists l, n :: FirstMatch(levels, l, n, namespace, request)
                                   && cancelled == old(cancelled) + {levels[l][n].id})
                || (&& (forall e :: e in Flat(levels) ==> !Matches(e, namespace, request))
                    && running.Some? && Matches(running.value, namespace, request)
                    && cancelled == old(cancelled) + {running.value.id})
    {
      if closed {
        return CancelClosed;
      }
      var l := 0;
      while l < LEVELS
        invariant 0 <= l <= LEVELS && cancelled == old(cancelled)
        invariant forall m, n :: 0 <= m < l && 0 <= n < |levels[m]| ==> !Matches(levels[m][n], namespace, request)
      {
        var n := 0;
        while n < |levels[l]|
          invariant 0 <= n <= |levels[l]| && cancelled == old(cancelled)
          invariant forall k :: 0 <= k < n ==> !Matches(levels[l][k], namespace, request)
        {
          var e := levels[l][n];
          if Matches(e, namespace, request) {
            FlatMember(levels, e);
            assert FirstMatch(levels, l, n, namespace, request);
            cancelled := cancelled + {e.id};
            return Marked;
          }
          n := n + 1;
        }
        l := l + 1;
      }
      forall e | e in Flat(levels) ensures !Matches(e, namespace, request) {
        FlatMember(levels, e);
      }
      if running.Some? && Matches(running.value, namespace, request) {
        cancelled := cancelled + {running.value.id};
        return Marked;
      }
      return NotFound;
    }

    /** Takes the entry to handle next. `now` is read for the cooldown, `popAt` when the entry is
        taken off. */
    method Pick(now: int, scan: Scan, popAt: int) returns (r: Option<Picked>)
      requires Valid() && scan.Valid()
      modifies this`levels, this`len, this`departed
      ensures Valid()
      ensures r.None? <==> (cooldownUntil.Some? && cooldownUntil.value > now) || old(len) == 0
      ensures r.None? ==> levels == old(levels) && departed == old(departed)
      ensures r.Some? ==>
                exists l: nat :: && Chosen(old(levels), l, scan, cancelled)
                            && r.value.entry == old(levels)[l][0]
                            && levels == old(levels)[l := old(levels)[l][1..]]
                            && departed == old(departed)[l := old(departed)[l] + [r.value.entry]]
      ensures r.Some? ==>
                && r.value.kind == (if r.value.entry.id in cancelled then WasCancelled
                                    else if popAt >= r.value.entry.deadline then Expired else Kind.Ready)
      ensures r.Some? ==> len == old(len) - 1 && old(Waiting()) == Waiting() + {r.value.entry.id}
    {
      if cooldownUntil.Some? && cooldownUntil.value > now {
        return None;
      }
      var best := Scanned(scan);
      if best.None? {
        return None;
      }
      var l := best.value;
      var front := levels[l][0];
      var kind := if front.id in cancelled then WasCancelled
                  else if popAt >= front.deadline then Expired
                  else Kind.Ready;
      FlatPop(levels, l);
      levels := levels[l := levels[l][1..]];
      len := len - 1;
      departed := departed[l := departed[l] + [front]];
      return Some(Picked(front, kind));
    }

    /** The level of the best head: highest level first, replaced only by a strictly better one. */
    method Scanned(scan: Scan) returns (best: Option<nat>)
      requires Valid() && scan.Valid()
      ensures best.None? <==> len == 0
      ensures best.Some? ==> Chosen(levels, best.value, scan, cancelled)
    {
      best := None;
      var bestEff := 0;
      var l := LEVELS;
      while l > 0
        invariant 0 <= l <= LEVELS
        invariant best.None? <==> forall m :: l <= m < LEVELS ==> levels[m] == []
        invariant best.Some? ==> l <= best.value < LEVELS && levels[best.value] != []
        invariant best.Some? ==> bestEff == Effective(levels[best.value][0], best.value, scan, cancelled)
        invariant best.Some? ==>
                    forall m :: l <= m < LEVELS && levels[m] != [] && m != best.value ==>
                      var eff := Effective(levels[m][0], m, scan, cancelled);
                      eff <= bestEff && (m > best.value ==> eff < bestEff)
      {
        l := l - 1;
        if levels[l] != [] {
          var eff := Effective(levels[l][0], l, scan, cancelled);
          if best.None? || eff > bestEff {
            best, bestEff := Some(l), eff;
          }
        }
      }
      if best.Some? {
        FlatMember(levels, levels[best.value][0]);
      } else if len > 0 {
        FlatMember(levels, Flat(levels)[0]);
      }
    }

    method PopLevel(l: nat) returns (moved: seq<Entry>)
      requires l < LEVELS && |levels| == LEVELS && |departed| == LEVELS
      modifies this`levels, this`departed
      ensures moved == old(levels)[l] && levels == old(levels)[l := []]
      ensures departed == old(departed)[l := old(departed)[l] + moved]
    {
      moved := [];
      assert old(departed)[l] + [] == old(departed)[l];
      while levels[l] != []
        invariant |levels| == LEVELS && |departed| == LEVELS
        invariant moved + levels[l] == old(levels)[l] && levels == old(levels)[l := levels[l]]
        invariant departed == old(departed)[l := old(departed)[l] + moved]
        decreases |levels[l]|
      {
        var front := levels[l][0];
        assert old(departed)[l] + (moved + [front]) == old(departed)[l] + moved + [front];
        moved := moved + [front];
        levels, departed := levels[l := levels[l][1..]], departed[l := departed[l] + [front]];
      }
    }

    /** Empties the levels, lowest first and each from its front. */
    method PopAll() returns (moved: seq<Entry>)
      requires Valid()
      modifies this`levels, this`departed
      ensures moved == old(Flat(levels)) && |levels| == LEVELS && Flat(levels) == []
      ensures |departed| == LEVELS && forall l :: 0 <= l < LEVELS ==> levels[l] == [] && arrived[l] == departed[l]
    {
      moved := [];
      var l := 0;
      ghost var before := levels;
      assert before[0..] == before;
      while l < LEVELS
        invariant 0 <= l <= LEVELS && |levels| == LEVELS && |departed| == LEVELS
        invariant forall m :: 0 <= m < LEVELS ==> levels[m] == if m < l then [] else before[m]
        invariant forall m :: 0 <= m < LEVELS ==> arrived[m] == departed[m] + levels[m]
        invariant Flat(before) == moved + Flat(before[l..])
      {
        FlatNext(before, l);
        var level := PopLevel(l);
        moved := moved + level;
        l := l + 1;
      }
      assert before[LEVELS..] == [];
      FlatEmpty(levels);
    }

    /** The stop check: a closed queue moves what waits behind what is being settled and hands out
        the front of that; `exit` tells the worker that nothing is left. */
    method DrainFront(stop: bool) returns (front: Option<Entry>, exit: bool)
      requires Valid()
      modifies this`levels, this`len, this`draining, this`closed, this`departed
      ensures Valid() && closed == (old(closed) || stop)
      ensures !closed ==>
                && front.None? && !exit && levels == old(levels)
                && draining == old(draining) && departed == old(departed)
      ensures closed ==> len == 0 && draining == old(draining) + old(Flat(levels))
      ensures closed ==> front == (if draining == [] then None else Some(draining[0]))
      ensures closed ==> (exit <==> draining == [] && running.None?)
    {
      if stop {
        closed := true;
      }
      if !closed {
        return None, false;
      }
      if len > 0 {
        var moved := PopAll();
        draining := draining + moved;
        len := 0;
      } else {
        assert draining + Flat(levels) == draining;
      }
      if draining == [] {
        return None, running.None?;
      }
      return Some(draining[0]), false;
    }

    /** Drops finished entries off the front. */
    method Sweep(written: set<nat>)
      modifies this`draining
      ensures draining == Unwritten(old(draining), written)
    {
      while draining != [] && draining[0].id in written
        invariant Unwritten(draining, written) == Unwritten(old(draining), written)
        decreases |draining|
      {
        draining := draining[1..];
      }
    }

    /** Settles `entry`, which stays reachable through its copy at the back meanwhile. */
    method SettleTracked(entry: Entry, written: set<nat>)
      modifies this`draining
      ensures draining == Unwritten(old(draining) + [entry], written + {entry.id})
    {
      draining := draining + [entry];
      Sweep(written + {entry.id});
    }

    /** One round of the drain. */
    method SettleFront(stop: bool, entry: Entry, written: set<nat>) returns (front: Option<Entry>, exit: bool)
      requires Valid() && closed && running.None? && len == 0
      modifies this`levels, this`len, this`draining, this`closed, this`departed
      ensures Valid() && closed && running.None? && len == 0
      ensures draining == Unwritten(old(draining) + [entry], written + {entry.id})
      ensures front == (if draining == [] then None else Some(draining[0])) && (exit <==> front.None?)
    {
      SettleTracked(entry, written);
      front, exit := DrainFront(stop);
    }

    /** An orderly stop: settles the front until nothing is left. Every entry without a receipt is
        settled exactly once, although each gets a second copy at the back. */
    method Drain(stop: bool, before: set<nat>) returns (settled: seq<nat>)
      requires Valid() && (closed || stop) && running.None?
      requires draining == [] || draining[0].id !in before
      requires Waiting() !! before
      modifies this`levels, this`len, this`draining, this`closed, this`departed
      ensures Valid() && closed && len == 0 && draining == []
      ensures forall m, n :: 0 <= m < n < |settled| ==> settled[m] != settled[n]
      ensures forall i :: i in settled <==> i in old(Ids(draining)) + old(Waiting()) && i !in before
    {
      settled := [];
      ghost var all := Ids(draining) + Waiting();
      IdsAppend(draining, Flat(levels));
      var written := before;
      var front, exit := DrainFront(stop);
      while !exit
        invariant Valid() && closed && running.None? && len == 0
        invariant front == (if draining == [] then None else Some(draining[0])) && (exit <==> front.None?)
        invariant forall i :: i in written <==> i in before || i in settled
        invariant draining != [] ==> draining[0].id !in written
        invariant PartWay(all, before, settled, Ids(draining))
        decreases |Ids(draining) - written|
      {
        var id := front.value.id;
        PartWayOn(all, before, settled, draining, written);
        front, exit := SettleFront(stop, front.value, written);
        settled, written := settled + [id], written + {id};
      }
    }

    /** What shutdown takes from an aborted worker's queue. */
    method TakeAbandoned() returns (run: Option<Entry>, queued: seq<Entry>, unsettled: seq<Entry>)
      requires Valid()
      modifies this`levels, this`len, this`running, this`draining, this`closed, this`departed
      ensures Valid() && closed && running.None? && draining == [] && len == 0 && Waiting() == {}
      ensures run == old(running) && queued == old(Flat(levels)) && unsettled == old(draining)
    {
      closed := true;
      run := running;
      running := None;
      queued := PopAll();
      unsettled := [];
      while draining != []
        invariant unsettled + draining == old(draining)
        decreases |draining|
        modifies this`draining
      {
        unsettled, draining := unsettled + [draining[0]], draining[1..];
      }
      len := SaturatingSub(len, |queued|);
    }
  }
}
