/** The receiving side's ledger of one device: a watermark and a set of gaps instead of the set of
    all numbers received. */
module Ledgers {
  const I64_MAX := 0x7FFF_FFFF_FFFF_FFFF
  const U64_LIMIT := 0x1_0000_0000_0000_0000

  /** One delivery: batch number and how many observations the batch has. */
  datatype Call = Call(number: nat, observations: nat)

  datatype Ledger = Ledger(
    watermark: nat, gaps: set<nat>, received: nat, observations: nat, duplicates: nat, invalid: nat)

  // ---------- the plain account ----------

  /** Number zero lies at the initial watermark and so never counts as received. */
  predicate Countable(n: nat) {
    1 <= n <= I64_MAX
  }

  /** The numbers received. */
  function Numbers(calls: seq<Call>): set<nat> {
    set c | c in calls && Countable(c.number) :: c.number
  }

  function Overflows(calls: seq<Call>): nat {
    if calls == [] then 0
    else Overflows(calls[..|calls| - 1]) + if calls[|calls| - 1].number > I64_MAX then 1 else 0
  }

  /** Observations of the first delivery of each number not yet in `seen`. */
  function FirstFrom(calls: seq<Call>, seen: set<nat>): nat {
    if calls == [] then 0
    else
      var c := calls[0];
      if Countable(c.number) && c.number !in seen
      then c.observations + FirstFrom(calls[1..], seen + {c.number})
      else FirstFrom(calls[1..], seen)
  }

  function FirstObservations(calls: seq<Call>): nat {
    FirstFrom(calls, {})
  }

  /** The watermark is the largest number received, the gaps are the smaller ones missing. */
  ghost predicate Marks(watermark: nat, gaps: set<nat>, numbers: set<nat>) {
    && (forall n :: n in numbers ==> n <= watermark)
    && (watermark == 0 || watermark in numbers)
    && (forall n :: n in gaps <==> 1 <= n <= watermark && n !in numbers)
  }

  /** The ledger says what the plain account says. */
  ghost predicate Agrees(l: Ledger, calls: seq<Call>) {
    && Marks(l.watermark, l.gaps, Numbers(calls))
    && l.received == |Numbers(calls)|
    && l.invalid == Overflows(calls)
    && l.received + l.duplicates + l.invalid == |calls|
    && l.observations == FirstObservations(calls)
  }

  lemma NumbersAppend(calls: seq<Call>, c: Call)
    ensures Numbers(calls + [c]) == Numbers(calls) + if Countable(c.number) then {c.number} else {}
  {
  }

  lemma {:induction false} FirstAppend(calls: seq<Call>, seen: set<nat>, c: Call)
    ensures FirstFrom(calls + [c], seen)
         == FirstFrom(calls, seen)
            + if Countable(c.number) && c.number !in seen && c.number !in Numbers(calls) then c.observations else 0
  {
    if calls != [] {
      var seen' := if Countable(calls[0].number) then seen + {calls[0].number} else seen;
      assert (calls + [c])[1..] == calls[1..] + [c];
      FirstAppend(calls[1..], seen', c);
      assert forall x :: x in calls <==> x == calls[0] || x in calls[1..];
      assert Numbers(calls) == Numbers(calls[1..]) + if Countable(calls[0].number) then {calls[0].number} else {};
      if calls[0].number in seen {
        assert seen + {calls[0].number} == seen;
      }
    }
  }

  lemma AppendUnfold(calls: seq<Call>, c: Call)
    ensures Overflows(calls + [c]) == Overflows(calls) + if c.number > I64_MAX then 1 else 0
    ensures FirstObservations(calls + [c])
         == FirstObservations(calls)
            + if Countable(c.number) && c.number !in Numbers(calls) then c.observations else 0
  {
    assert (calls + [c])[..|calls|] == calls;
    FirstAppend(calls, {}, c);
  }

  function Range(n: nat): (r: set<nat>)
    ensures forall m: nat :: m in r <==> 1 <= m <= n
    ensures |r| == n
  {
    if n == 0 then {} else Range(n - 1) + {n}
  }

  /** Received numbers and loss candidates together are 1 up to the watermark. */
  lemma NothingUncounted(l: Ledger, calls: seq<Call>)
    requires Agrees(l, calls)
    ensures l.received + |l.gaps| == l.watermark
  {
    assert Numbers(calls) + l.gaps == Range(l.watermark);
    assert Numbers(calls) !! l.gaps;
  }

  // ---------- the order of delivery does not matter ----------

  lemma {:induction false} OverflowsRemove(calls: seq<Call>, i: nat)
    requires i < |calls|
    ensures Overflows(calls) == Overflows(calls[..i] + calls[i + 1..]) + if calls[i].number > I64_MAX then 1 else 0
    decreases |calls|
  {
    var before, last := calls[..|calls| - 1], calls[|calls| - 1];
    if i == |calls| - 1 {
      assert calls[..i] + calls[i + 1..] == before;
    } else {
      OverflowsRemove(before, i);
      assert calls[..i] + calls[i + 1..] == (before[..i] + before[i + 1..]) + [last];
      AppendUnfold(before[..i] + before[i + 1..], last);
    }
  }

  lemma WithoutOne(calls: seq<Call>, i: nat)
    requires i < |calls|
    ensures multiset(calls[..i] + calls[i + 1..]) == multiset(calls) - multiset{calls[i]}
  {
    assert calls == calls[..i] + [calls[i]] + calls[i + 1..];
  }

  lemma {:induction false} OverflowsPermute(a: seq<Call>, b: seq<Call>)
    requires multiset(a) == multiset(b)
    ensures Overflows(a) == Overflows(b) && |a| == |b|
    decreases |a|
  {
    if a == [] {
      assert |multiset(b)| == 0;
    } else {
      var before, last := a[..|a| - 1], a[|a| - 1];
      assert last in multiset(a) && last in multiset(b);
      var i :| 0 <= i < |b| && b[i] == last;
      WithoutOne(a, |a| - 1);
      WithoutOne(b, i);
      assert before + a[|a|..] == before;
      OverflowsPermute(before, b[..i] + b[i + 1..]);
      OverflowsRemove(b, i);
    }
  }

  lemma NumbersPermute(a: seq<Call>, b: seq<Call>)
    requires multiset(a) == multiset(b)
    ensures Numbers(a) == Numbers(b)
  {
    forall c ensures c in a <==> c in b {
      assert c in a <==> c in multiset(a);
      assert c in b <==> c in multiset(b);
    }
  }

  /** Watermark, gaps and all counts depend only on what was delivered how often. */
  lemma OrderIrrelevant(l: Ledger, m: Ledger, a: seq<Call>, b: seq<Call>)
    requires Agrees(l, a) && Agrees(m, b) && multiset(a) == multiset(b)
    ensures m == l.(observations := m.observations)
  {
    NumbersPermute(a, b);
    OverflowsPermute(a, b);
    assert l.gaps == m.gaps;
  }

  // ---------- observations ----------

  ghost function Sum(numbers: set<nat>, size: nat -> nat): nat {
    if numbers == {} then 0
    else
      var n :| n in numbers;
      size(n) + Sum(numbers - {n}, size)
  }

  lemma {:induction false} SumRemove(numbers: set<nat>, size: nat -> nat, n: nat)
    requires n in numbers
    ensures Sum(numbers, size) == size(n) + Sum(numbers - {n}, size)
    decreases |numbers|
  {
    var m :| m in numbers && Sum(numbers, size) == size(m) + Sum(numbers - {m}, size);
    if m != n {
      SumRemove(numbers - {m}, size, n);
      SumRemove(numbers - {n}, size, m);
      assert numbers - {m} - {n} == numbers - {n} - {m};
    }
  }

  /** Every two deliveries of a number have the same size. */
  ghost predicate Consistent(calls: seq<Call>) {
    forall i, j :: 0 <= i < |calls| && 0 <= j < |calls| ==>
      Countable(calls[i].number) && calls[i].number == calls[j].number ==>
        calls[i].observations == calls[j].observations
  }

  ghost predicate Sized(calls: seq<Call>, size: nat -> nat) {
    forall i :: 0 <= i < |calls| && Countable(calls[i].number) ==> calls[i].observations == size(calls[i].number)
  }

  ghost function SizeOf(calls: seq<Call>, n: nat): nat {
    if exists i :: 0 <= i < |calls| && calls[i].number == n
    then
      var i :| 0 <= i < |calls| && calls[i].number == n;
      calls[i].observations
    else 0
  }

  lemma {:induction false} ObservationsAreSum(calls: seq<Call>, size: nat -> nat)
    requires Sized(calls, size)
    ensures FirstObservations(calls) == Sum(Numbers(calls), size)
  {
    if calls != [] {
      var before, last := calls[..|calls| - 1], calls[|calls| - 1];
      assert calls == before + [last];
      ObservationsAreSum(before, size);
      NumbersAppend(before, last);
      AppendUnfold(before, last);
      if Countable(last.number) && last.number !in Numbers(before) {
        SumRemove(Numbers(calls), size, last.number);
        assert Numbers(calls) - {last.number} == Numbers(before);
      } else {
        assert Numbers(calls) == Numbers(before);
      }
    }
  }

  lemma SameSum(a: seq<Call>, b: seq<Call>)
    requires multiset(a) == multiset(b) && Consistent(a)
    ensures FirstObservations(a) == FirstObservations(b)
  {
    var size := n => SizeOf(a, n);
    assert Sized(a, size);
    forall i | 0 <= i < |b| && Countable(b[i].number) ensures b[i].observations == size(b[i].number) {
      assert b[i] in multiset(b);
      assert b[i] in a;
    }
    NumbersPermute(a, b);
    ObservationsAreSum(a, size);
    ObservationsAreSum(b, size);
  }

  lemma FirstTwo(c: Call, d: Call, rest: seq<Call>)
    requires Countable(c.number) && c.number == d.number
    ensures FirstObservations([c, d] + rest) == c.observations + FirstFrom(rest, {c.number})
  {
    var all, more := [c, d] + rest, [d] + rest;
    assert all[0] == c && all[1..] == more && more[0] == d && more[1..] == rest;
    assert {} + {c.number} == {c.number};
    assert FirstFrom(more, {c.number}) == FirstFrom(rest, {c.number});
    assert FirstFrom(all, {}) == c.observations + FirstFrom(more, {c.number});
  }

  /** Two deliveries of a number that differ in size can be ordered either way. */
  lemma Reordered(calls: seq<Call>, i: nat, j: nat) returns (x: seq<Call>, y: seq<Call>)
    requires i < j < |calls| && Countable(calls[i].number) && calls[i].number == calls[j].number
    requires calls[i].observations != calls[j].observations
    ensures multiset(x) == multiset(calls) == multiset(y)
    ensures FirstObservations(x) != FirstObservations(y)
  {
    var c, d, rest := calls[i], calls[j], calls[..i] + calls[i + 1..j] + calls[j + 1..];
    x, y := [c, d] + rest, [d, c] + rest;
    assert calls == calls[..i] + [c] + calls[i + 1..j] + [d] + calls[j + 1..];
    FirstTwo(c, d, rest);
    FirstTwo(d, c, rest);
  }

  /** The observation count is independent of the order exactly when deliveries are consistent. */
  lemma ObservationsOrderIrrelevantIff(calls: seq<Call>)
    ensures Consistent(calls) <==>
              forall x, y :: multiset(x) == multiset(calls) && multiset(y) == multiset(calls) ==>
                FirstObservations(x) == FirstObservations(y)
  {
    if Consistent(calls) {
      forall x, y | multiset(x) == multiset(calls) && multiset(y) == multiset(calls)
        ensures FirstObservations(x) == FirstObservations(y)
      {
        SameSum(calls, x);
        SameSum(calls, y);
      }
    } else {
      var i, j :| 0 <= i < |calls| && 0 <= j < |calls| && Countable(calls[i].number)
                  && calls[i].number == calls[j].number && calls[i].observations != calls[j].observations;
      var x, y := Reordered(calls, if i < j then i else j, if i < j then j else i);
    }
  }

  // ---------- the ledger itself ----------

  /** One delivery, as the ledger takes it. */
  function After(l: Ledger, c: Call): Ledger {
    if c.number > I64_MAX then l.(invalid := l.invalid + 1)
    else if c.number <= l.watermark && c.number !in l.gaps then l.(duplicates := l.duplicates + 1)
    else
      var gaps := if c.number <= l.watermark then l.gaps - {c.number}
                  else l.gaps + (Range(c.number - 1) - Range(l.watermark));
      Ledger(if c.number <= l.watermark then l.watermark else c.number, gaps, l.received + 1,
             l.observations + c.observations, l.duplicates, l.invalid)
  }

  lemma MarksAfter(l: Ledger, numbers: set<nat>, c: Call)
    requires Marks(l.watermark, l.gaps, numbers) && Countable(c.number)
    ensures Marks(After(l, c).watermark, After(l, c).gaps, numbers + {c.number})
    ensures c.number in numbers <==> c.number <= l.watermark && c.number !in l.gaps
    ensures |numbers + {c.number}| == |numbers| + if c.number in numbers then 0 else 1
  {
    if c.number in numbers {
      assert numbers + {c.number} == numbers;
    }
  }

  /** Which counters one delivery moves. */
  lemma CountsAfter(l: Ledger, numbers: set<nat>, c: Call)
    requires Marks(l.watermark, l.gaps, numbers)
    ensures var l', counted := After(l, c), Countable(c.number) && c.number !in numbers;
            && l'.received == l.received + (if counted then 1 else 0)
            && l'.observations == l.observations + (if counted then c.observations else 0)
            && l'.invalid == l.invalid + (if c.number > I64_MAX then 1 else 0)
            && l'.received + l'.duplicates + l'.invalid == l.received + l.duplicates + l.invalid + 1
  {
    if Countable(c.number) {
      MarksAfter(l, numbers, c);
    }
  }

  lemma AfterAgrees(l: Ledger, calls: seq<Call>, c: Call)
    requires Agrees(l, calls)
    ensures Agrees(After(l, c), calls + [c])
  {
    var numbers := Numbers(calls);
    NumbersAppend(calls, c);
    AppendUnfold(calls, c);
    CountsAfter(l, numbers, c);
    if Countable(c.number) {
      MarksAfter(l, numbers, c);
    } else {
      assert numbers + {} == numbers;
    }
  }

  class DeviceLedger {
    var watermark: nat
    var pendingGaps: set<nat>
    var receivedBatches: nat
    var receivedObservations: nat
    var duplicates: nat
    var invalid: nat
    ghost var calls: seq<Call>

    function Contents(): Ledger
      reads this
    {
      Ledger(watermark, pendingGaps, receivedBatches, receivedObservations, duplicates, invalid)
    }

    ghost predicate Valid()
      reads this
    {
      Agrees(Contents(), calls)
    }

    constructor ()
      ensures Valid() && calls == []
    {
      watermark, pendingGaps, receivedBatches, receivedObservations := 0, {}, 0, 0;
      duplicates, invalid, calls := 0, 0, [];
    }

    method Record(n: nat, observations: nat)
      requires Valid() && n < U64_LIMIT
      modifies this
      ensures Valid() && calls == old(calls) + [Call(n, observations)]
    {
      AfterAgrees(Contents(), calls, Call(n, observations));
      ghost var after := After(Contents(), Call(n, observations));
      Enter(n, observations);
      assert Contents() == after;
      calls := calls + [Call(n, observations)];
    }

    method Enter(n: nat, observations: nat)
      requires n < U64_LIMIT
      modifies `watermark, `pendingGaps, `receivedBatches, `receivedObservations, `duplicates, `invalid
      ensures Contents() == After(old(Contents()), Call(n, observations))
    {
      if n > I64_MAX {
        invalid := invalid + 1;
        return;
      }
      if n <= watermark {
        if n in pendingGaps {
          pendingGaps := pendingGaps - {n};
          receivedBatches := receivedBatches + 1;
          receivedObservations := receivedObservations + observations;
        } else {
          duplicates := duplicates + 1;
        }
        return;
      }
      OpenGaps(n);
      watermark := n;
      receivedBatches := receivedBatches + 1;
      receivedObservations := receivedObservations + observations;
    }

    /** Numbers skipped on the way to `n` become gaps. */
    method OpenGaps(n: nat)
      requires watermark < n
      modifies this`pendingGaps
      ensures pendingGaps == old(pendingGaps) + (Range(n - 1) - Range(watermark))
    {
      var missing := watermark + 1;
      while missing < n
        invariant watermark < missing <= n
        invariant forall m: nat :: m in pendingGaps <==> m in old(pendingGaps) || watermark < m < missing
      {
        pendingGaps := pendingGaps + {missing};
        missing := missing + 1;
      }
    }

    function LossCandidates(): nat
      reads this
    {
      |pendingGaps|
    }
  }

  /** A ledger fed with any deliveries. */
  method RecordAll(calls: seq<Call>) returns (l: DeviceLedger)
    requires forall i :: 0 <= i < |calls| ==> calls[i].number < U64_LIMIT
    ensures fresh(l) && l.calls == calls && Agrees(l.Contents(), calls)
    ensures l.receivedBatches + l.LossCandidates() == l.watermark
  {
    l := new DeviceLedger();
    var i := 0;
    while i < |calls|
      invariant 0 <= i <= |calls| && fresh(l) && l.Valid() && l.calls == calls[..i]
    {
      l.Record(calls[i].number, calls[i].observations);
      assert calls[..i + 1] == calls[..i] + [calls[i]];
      i := i + 1;
    }
    assert calls[..i] == calls;
    NothingUncounted(l.Contents(), calls);
  }
}
