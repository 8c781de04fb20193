/** Runs that show where the promises of the engine end. */
module EngineWitness {
  import opened ControlTypes
  import opened Engine
  import opened EngineOnce
  import opened EnginePlaces
  import opened EngineMatch
  import opened EngineRuns
  import J = Journal

  const DEVICE := "dev"
  const KEY := Key("ns", DEVICE, "req")
  const KEY2 := Key("ns", DEVICE, "other")

  // ---------- a record expires under the request that inserted it ----------

  const REJECTION := Rejection(KEY, "X", 0)

  /** The first request is rejected and about to settle its record, which has expired by then. A second
      one joins it and, once the first has left the registry, takes the expired record's place. */
  const EXPIRING: seq<Action> := [
    Arrives(KEY, "h", 0), BySubmit(0, Registers), BySubmit(0, Inserts(true)), BySubmit(0, Decides),
    BySubmit(0, Checks(Some("X"), 1)), Tick(1), Arrives(KEY, "h", 0), BySubmit(1, Registers),
    BySubmit(0, FinishSettles(true)), BySubmit(0, FinishRemoves), BySubmit(1, Inserts(true))]

  function FirstPc(n: nat): Pc {
    if n <= 1 then Register else if n == 2 then Insert else if n == 3 then Decided(Answered(J.Inserted))
    else if n == 4 then Check else if n <= 8 then FinishSettle(REJECTION, false)
    else if n == 9 then FinishRemove(REJECTION, false) else FinishWrite(REJECTION, false)
  }

  function SecondPc(n: nat): Pc {
    if n <= 7 then Register else if n <= 10 then Insert else Decided(Answered(J.Inserted))
  }

  function Requests(n: nat): seq<Submit> {
    if n == 0 then [] else
      var first := Submit(KEY, "h", 0, 0, 0, 0, FirstPc(n));
      if n <= 6 then [first] else [first, Submit(KEY, "h", 1, 1, 0, if n <= 7 then 1 else 0, SecondPc(n))]
  }

  function Record(n: nat): map<Key, J.Entry> {
    var first := J.NewEntry(KEY, "h", 0, 0);
    if n <= 2 then map[] else if n <= 8 then map[KEY := first]
    else if n <= 10 then map[KEY := J.Settled(first, REJECTION)] else map[KEY := J.NewEntry(KEY, "h", 1, 1)]
  }

  ghost predicate Expiring(n: nat, s: State) {
    && s.clock == (if n <= 5 then 0 else 1) && !s.closed && s.queues == map[]
    && s.active == (if 2 <= n <= 9 then map[KEY := 0] else map[])
    && s.submits == Requests(n) && s.journal == Record(n)
    && s.owner == (if n <= 2 then map[] else if n <= 10 then map[KEY := 0] else map[KEY := 1])
    && (n >= 3 ==> 0 in s.trace.inserters)
  }

  lemma InsertingSteps(n: nat, s: State)
    requires n < 3 && Expiring(n, s)
    ensures Next(s, EXPIRING[n]).Some? && Expiring(n + 1, Next(s, EXPIRING[n]).value)
  {
  }

  lemma ExpiringSteps(n: nat, s: State)
    requires 3 <= n < 6 && Expiring(n, s)
    ensures Next(s, EXPIRING[n]).Some? && Expiring(n + 1, Next(s, EXPIRING[n]).value)
  {
  }

  lemma JoiningSteps(n: nat, s: State)
    requires 6 <= n < 9 && Expiring(n, s)
    ensures Next(s, EXPIRING[n]).Some? && Expiring(n + 1, Next(s, EXPIRING[n]).value)
  {
  }

  lemma ReplacingSteps(n: nat, s: State)
    requires 9 <= n < 11 && Expiring(n, s)
    ensures Next(s, EXPIRING[n]).Some? && Expiring(n + 1, Next(s, EXPIRING[n]).value)
  {
  }

  /** After this run the first request's receipt claims a rejection that the journal does not store: the
      record of its key is another request's, and unsettled. */
  lemma ReceiptWithoutRecord(s0: State)
    requires Init(s0) && s0.clock == 0
    ensures Exec(s0, EXPIRING).Some?
    ensures var s, a := Exec(s0, EXPIRING).value, BySubmit(0, FinishWrites);
            && Enabled(s, a) && Posted(s, a) == Some((0, REJECTION)) && 0 in s.trace.inserters
            && |s.submits| == 2 && !Stores(s, 0, REJECTION)
            && KEY in s.journal && Holds(s.owner, KEY, 1) && s.journal[KEY].result.None?
  {
    var at := (n: nat, s: State) => n <= 11 && Expiring(n, s);
    forall n: nat, s | n < |EXPIRING| && at(n, s)
      ensures Next(s, EXPIRING[n]).Some? && at(n + 1, Next(s, EXPIRING[n]).value)
    {
      if n < 3 {
        InsertingSteps(n, s);
      } else if n < 6 {
        ExpiringSteps(n, s);
      } else if n < 9 {
        JoiningSteps(n, s);
      } else {
        ReplacingSteps(n, s);
      }
    }
    Follow(s0, EXPIRING, at, 11);
    assert EXPIRING[..11] == EXPIRING;
  }

  // ---------- shutdown reads the queue while the worker has an entry in its hands ----------

  const PICKING: seq<Action> := [
    ByQueue(DEVICE, Boots), ByQueue(DEVICE, Adopts), ByQueue(DEVICE, Tops([0])), ByQueue(DEVICE, Picks(0)),
    Stops, ByQueue(DEVICE, AbortAsks), ByQueue(DEVICE, Takes([]))]

  function PickingQueue(n: nat): Queue {
    var worker := if n == 0 then Boot else if n == 1 then Adopt([]) else if n == 2 then Top
                  else if n == 3 then Pick else Picked(0, IsReady);
    Queue(if n <= 3 then {0} else {}, None, [], n == 7, None, worker, if n == 7 then Abandoned([]) else NotYet, n >= 6)
  }

  ghost predicate Picking(n: nat, s: State) {
    && s.clock == 0 && s.closed == (n >= 5) && s.cells == map[] && s.cancelled == {}
    && DEVICE in s.queues && s.queues[DEVICE] == PickingQueue(n)
    && s.submits == [Submit(KEY, "h", 0, 10, 10, 0, Enqueued)]
  }

  lemma PickingSteps(n: nat, s: State)
    requires n < 4 && Picking(n, s)
    ensures Next(s, PICKING[n]).Some? && Picking(n + 1, Next(s, PICKING[n]).value)
  {
    assert Leftovers(None, []) == [];
    assert s.queues[DEVICE].waiting - {0} == {};
  }

  lemma MissingSteps(n: nat, s: State)
    requires 4 <= n < 7 && Picking(n, s)
    ensures Next(s, PICKING[n]).Some? && Picking(n + 1, Next(s, PICKING[n]).value)
  {
    assert Leftovers(None, [] + s.queues[DEVICE].draining) == [];
  }

  lemma PickingPlayed(s: State)
    requires Picking(0, s)
    ensures Exec(s, PICKING).Some? && Picking(7, Exec(s, PICKING).value)
  {
    var at := (n: nat, t: State) => n <= 7 && Picking(n, t);
    forall n: nat, t | n < |PICKING| && at(n, t)
      ensures Next(t, PICKING[n]).Some? && at(n + 1, Next(t, PICKING[n]).value)
    {
      if n < 4 {
        PickingSteps(n, t);
      } else {
        MissingSteps(n, t);
      }
    }
    Follow(s, PICKING, at, 7);
    assert PICKING[..7] == PICKING;
  }

  lemma FirstAdmitted(s0: State)
    requires Init(s0) && s0.clock == 0
    ensures var run := Admission(KEY, "h", 10, 10, 0);
            Exec(s0, run).Some? && Picking(0, Exec(s0, run).value)
  {
    RequestAdmitted(s0, KEY, "h", 10, 10);
    var admitted := Exec(s0, Admission(KEY, "h", 10, 10, 0)).value;
    assert admitted.submits == [Submit(KEY, "h", 0, 10, 10, 0, Enqueued)];
  }

  /** Shutdown of the device is complete, and an entry it accepted has no receipt. */
  lemma EntryLostAtStop(s0: State)
    requires Init(s0) && s0.clock == 0
    ensures var run := Admission(KEY, "h", 10, 10, 0) + PICKING;
            && Exec(s0, run).Some?
            && var s := Exec(s0, run).value;
               DEVICE in s.queues && Complete(s.queues[DEVICE]) && 0 in AcceptedBy(s.submits, DEVICE) && 0 !in s.cells
  {
    FirstAdmitted(s0);
    PickingPlayed(Exec(s0, Admission(KEY, "h", 10, 10, 0)).value);
    ExecBoth(s0, Admission(KEY, "h", 10, 10, 0), PICKING);
  }

  // ---------- a worker that dies takes the cooldown with it ----------

  /** The worker dies in the middle of a run, a new one settles that run's entry and picks the next. */
  function AfterDeath(d: string, order: seq<Sid>, next: Sid): seq<Action> {
    [Panics(d), ByQueue(d, Respawns), ByQueue(d, Boots), ByQueue(d, Adopts), ByQueue(d, Journals(TheWorker, Ok)),
     ByQueue(d, Removes(TheWorker)), ByQueue(d, Writes(TheWorker)), ByQueue(d, Cleans(TheWorker)),
     ByQueue(d, Adopts), ByQueue(d, Tops(order)), ByQueue(d, Picks(next)), ByQueue(d, Begins)]
  }

  const ABORTED := Unknown("QUEUE_WORKER_ABORTED")

  function DyingWorker(n: nat, e: Sid, result: ControlResult, next: Sid): Worker {
    if n == 0 then Executing(e, true) else if n == 1 then Absent else if n == 2 then Boot
    else if n == 3 then Adopt([(e, ABORTED)]) else if n == 4 then Adopting(Work(e, result, ToJournal), [])
    else if n == 5 then Adopting(Work(e, result, Journaled(true)), [])
    else if n == 6 then Adopting(Work(e, result, ToAudit), [])
    else if n == 7 then Adopting(Work(e, result, Written), [])
    else if n == 8 then Adopt([]) else if n == 9 then Top else if n == 10 then Pick
    else if n == 11 then Picked(next, IsReady) else Executing(next, false)
  }

  ghost predicate Dying(n: nat, s: State, t: State, d: string, e: Sid, next: Sid) {
    var result := ResultOf(ABORTED, Sub(s.submits, e).key, s.clock);
    && d in s.queues && d in t.queues
    && t.clock == s.clock && !t.closed && t.submits == s.submits && t.cancelled == s.cancelled
    && t.cells == (if n <= 6 then s.cells else s.cells[e := result])
    && (n >= 1 ==> d in t.doubts && t.doubts[d] == Doubt(s.clock, false))
    && t.queues[d] == s.queues[d].(
         running := if n <= 2 then Some(e) else if n == 12 then Some(next) else None,
         draining := if 4 <= n <= 7 then [e] else [],
         waiting := if n <= 10 then s.queues[d].waiting else s.queues[d].waiting - {next},
         worker := DyingWorker(n, e, result, next))
  }

  /** `e` runs on device `d`, whose worker has nothing else in hand, and `next` is ready to run. */
  ghost predicate RunsNext(s: State, d: string, e: Sid, next: Sid) {
    && !s.closed && d in s.queues
    && (var q := s.queues[d];
        && q.running == Some(e) && q.draining == [] && q.worker == Executing(e, true) && q.join.NotYet?
        && !q.closed && !q.aborting && next in q.waiting && !Cooling(q, s.clock))
    && Sub(s.submits, e).cell == e && e !in s.cells
    && next !in s.cancelled && !Expired(s, next)
  }

  lemma DeathStepGoes(n: nat, s: State, t: State, d: string, e: Sid, next: Sid, order: seq<Sid>)
    requires n == 0 && RunsNext(s, d, e, next) && Dying(n, s, t, d, e, next)
    ensures var a := AfterDeath(d, order, next)[n]; Next(t, a).Some? && Dying(n + 1, s, Next(t, a).value, d, e, next)
  {
    assert Enabled(t, Panics(d)) && !t.queues[d].join.Abandoned?;
  }

  lemma RespawnGoes(n: nat, s: State, t: State, d: string, e: Sid, next: Sid, order: seq<Sid>)
    requires n == 1 && RunsNext(s, d, e, next) && Dying(n, s, t, d, e, next)
    ensures var a := AfterDeath(d, order, next)[n]; Next(t, a).Some? && Dying(n + 1, s, Next(t, a).value, d, e, next)
  {
    assert AfterDeath(d, order, next)[1] == ByQueue(d, Respawns) && MayTurn(t, t.queues[d], Respawns);
  }

  lemma OrphanSteps(n: nat, s: State, t: State, d: string, e: Sid, next: Sid, order: seq<Sid>)
    requires 2 <= n < 4 && RunsNext(s, d, e, next) && Dying(n, s, t, d, e, next)
    ensures var a := AfterDeath(d, order, next)[n]; Next(t, a).Some? && Dying(n + 1, s, Next(t, a).value, d, e, next)
  {
    assert Leftovers(Some(e), []) == [(e, ABORTED)];
  }

  lemma JournalingStep(n: nat, s: State, t: State, d: string, e: Sid, next: Sid, order: seq<Sid>)
    requires n == 4 && RunsNext(s, d, e, next) && Dying(n, s, t, d, e, next)
    ensures var a := AfterDeath(d, order, next)[n]; Next(t, a).Some? && Dying(n + 1, s, Next(t, a).value, d, e, next)
  {
  }

  lemma ReleasingStep(n: nat, s: State, t: State, d: string, e: Sid, next: Sid, order: seq<Sid>)
    requires n == 5 && RunsNext(s, d, e, next) && Dying(n, s, t, d, e, next)
    ensures var a := AfterDeath(d, order, next)[n]; Next(t, a).Some? && Dying(n + 1, s, Next(t, a).value, d, e, next)
  {
  }

  lemma PostingStep(n: nat, s: State, t: State, d: string, e: Sid, next: Sid, order: seq<Sid>)
    requires n == 6 && RunsNext(s, d, e, next) && Dying(n, s, t, d, e, next)
    ensures var a := AfterDeath(d, order, next)[n]; Next(t, a).Some? && Dying(n + 1, s, Next(t, a).value, d, e, next)
  {
  }

  lemma AdoptedStep(n: nat, s: State, t: State, d: string, e: Sid, next: Sid, order: seq<Sid>)
    requires n == 7 && RunsNext(s, d, e, next) && Dying(n, s, t, d, e, next)
    ensures var a := AfterDeath(d, order, next)[n]; Next(t, a).Some? && Dying(n + 1, s, Next(t, a).value, d, e, next)
  {
    assert Swept([e], t.cells) == Swept([e][1..], t.cells) == [];
  }

  lemma NextSteps(n: nat, s: State, t: State, d: string, e: Sid, next: Sid, order: seq<Sid>)
    requires 8 <= n < 12 && RunsNext(s, d, e, next) && Dying(n, s, t, d, e, next)
    requires Orders(order, s.queues[d].waiting)
    ensures var a := AfterDeath(d, order, next)[n]; Next(t, a).Some? && Dying(n + 1, s, Next(t, a).value, d, e, next)
  {
  }

  lemma DeathPlayed(s: State, d: string, e: Sid, next: Sid, order: seq<Sid>)
    requires RunsNext(s, d, e, next) && Orders(order, s.queues[d].waiting)
    ensures Exec(s, AfterDeath(d, order, next)).Some?
    ensures Dying(12, s, Exec(s, AfterDeath(d, order, next)).value, d, e, next)
  {
    var run := AfterDeath(d, order, next);
    var at := (n: nat, t: State) => n <= 12 && Dying(n, s, t, d, e, next);
    forall n: nat, t | n < |run| && at(n, t) ensures Next(t, run[n]).Some? && at(n + 1, Next(t, run[n]).value) {
      if n == 0 {
        DeathStepGoes(n, s, t, d, e, next, order);
      } else if n == 1 {
        RespawnGoes(n, s, t, d, e, next, order);
      } else if n < 4 {
        OrphanSteps(n, s, t, d, e, next, order);
      } else if n == 4 {
        JournalingStep(n, s, t, d, e, next, order);
      } else if n == 5 {
        ReleasingStep(n, s, t, d, e, next, order);
      } else if n == 6 {
        PostingStep(n, s, t, d, e, next, order);
      } else if n == 7 {
        AdoptedStep(n, s, t, d, e, next, order);
      } else {
        NextSteps(n, s, t, d, e, next, order);
      }
    }
    Follow(s, run, at, 12);
    assert run[..12] == run;
  }

  /** In every such state: if the worker dies now, the device may start its next entry without any
      cooldown, however long the policy asks for, although the run that was cut off may have taken
      effect or not. */
  lemma DeathSkipsCooldown(s: State, d: string, e: Sid, next: Sid, order: seq<Sid>)
    requires RunsNext(s, d, e, next) && Orders(order, s.queues[d].waiting)
    ensures Exec(s, AfterDeath(d, order, next)).Some?
    ensures var t := Exec(s, AfterDeath(d, order, next)).value;
            && Enabled(t, ByQueue(d, Starts)) && t.queues[d].worker.entry == next
            && t.clock == s.clock && d in t.doubts && t.doubts[d] == Doubt(s.clock, false)
  {
    DeathPlayed(s, d, e, next, order);
  }

  const STARTING: seq<Action> := [
    ByQueue(DEVICE, Boots), ByQueue(DEVICE, Adopts), ByQueue(DEVICE, Tops([0, 1])), ByQueue(DEVICE, Picks(0)),
    ByQueue(DEVICE, Begins), ByQueue(DEVICE, Starts)]

  function StartingQueue(n: nat): Queue {
    var worker := if n == 0 then Boot else if n == 1 then Adopt([]) else if n == 2 then Top else if n == 3 then Pick
                  else if n == 4 then Picked(0, IsReady) else Executing(0, n == 6);
    Queue(if n <= 3 then {0, 1} else {1}, if n <= 4 then None else Some(0), [], false, None, worker, NotYet, false)
  }

  function Pair(): seq<Submit> {
    [Submit(KEY, "h", 0, 10, 10, 0, Enqueued), Submit(KEY2, "h", 0, 10, 10, 1, Enqueued)]
  }

  ghost predicate Starting(n: nat, s: State, cooldown: nat) {
    && s.clock == 0 && s.cooldown == cooldown && !s.closed && s.cells == map[] && s.cancelled == {}
    && DEVICE in s.queues && s.queues[DEVICE] == StartingQueue(n)
    && s.submits == Pair()
  }

  lemma StartingSteps(n: nat, s: State, cooldown: nat)
    requires n < 6 && Starting(n, s, cooldown)
    ensures Next(s, STARTING[n]).Some? && Starting(n + 1, Next(s, STARTING[n]).value, cooldown)
  {
    assert Leftovers(None, []) == [];
    assert {0, 1} - {0} == {1};
  }

  lemma BothAdmitted(s0: State)
    requires Init(s0) && s0.clock == 0
    ensures var run := Admission(KEY, "h", 10, 10, 0) + Admission(KEY2, "h", 10, 10, 1);
            Exec(s0, run).Some? && Starting(0, Exec(s0, run).value, s0.cooldown)
  {
    RequestAdmitted(s0, KEY, "h", 10, 10);
    var s1 := Exec(s0, Admission(KEY, "h", 10, 10, 0)).value;
    assert s1.submits == [Pair()[0]];
    RequestAdmitted(s1, KEY2, "h", 10, 10);
    var s2 := Exec(s1, Admission(KEY2, "h", 10, 10, 1)).value;
    assert s2.submits == Pair();
    ExecBoth(s0, Admission(KEY, "h", 10, 10, 0), Admission(KEY2, "h", 10, 10, 1));
  }

  /** And such a state is reached, under any cooldown policy. */
  lemma RunsNextReached(s0: State)
    requires Init(s0) && s0.clock == 0
    ensures var run := Admission(KEY, "h", 10, 10, 0) + Admission(KEY2, "h", 10, 10, 1) + STARTING;
            Exec(s0, run).Some? && RunsNext(Exec(s0, run).value, DEVICE, 0, 1)
            && Exec(s0, run).value.cooldown == s0.cooldown
  {
    BothAdmitted(s0);
    var both := Admission(KEY, "h", 10, 10, 0) + Admission(KEY2, "h", 10, 10, 1);
    var at := (n: nat, s: State) => n <= 6 && Starting(n, s, s0.cooldown);
    forall n: nat, s | n < |STARTING| && at(n, s)
      ensures Next(s, STARTING[n]).Some? && at(n + 1, Next(s, STARTING[n]).value)
    {
      StartingSteps(n, s, s0.cooldown);
    }
    Follow(Exec(s0, both).value, STARTING, at, 6);
    assert STARTING[..6] == STARTING;
    ExecBoth(s0, both, STARTING);
  }
}
