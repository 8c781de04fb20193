/** A run in which a waiter is never answered: a submit that joined a registrant overtakes it on the
    way to the journal, and the registrant then finds a finished record and drops its receipt. */
module EngineHang {
  import opened ControlTypes
  import opened Engine
  import opened EngineRuns
  import opened EngineWaiters
  import J = Journal

  const KEY := Key("ns", "dev", "req")

  /** Three submits of one request; the second and the third join the first. The second reaches the
      journal first; the third finds its record running and waits; the first finds it finished. */
  const RUN: seq<Action> := [
    Arrives(KEY, "h", 10), Arrives(KEY, "h", 10), Arrives(KEY, "h", 10),
    BySubmit(0, Registers), BySubmit(1, Registers), BySubmit(2, Registers),
    BySubmit(1, Inserts(true)), BySubmit(2, Inserts(true)), BySubmit(2, Decides),
    BySubmit(1, Decides), BySubmit(1, Orphans(true)),
    BySubmit(0, Inserts(true)), BySubmit(0, Decides)]

  const RECORD := J.NewEntry(KEY, "h", 0, 10)
  const OUTCOME := Rejection(KEY, "IDEMPOTENCY_RACE", 0)
  const FINISHED := J.Settled(RECORD, OUTCOME)
  const REJECTED := Returned(Ready(OUTCOME))

  function FirstPc(n: nat): Pc {
    if n <= 3 then Register else if n <= 11 then Insert
    else if n == 12 then Decided(Answered(J.Duplicate(FINISHED))) else REJECTED
  }

  function SecondPc(n: nat): Pc {
    if n <= 4 then Register else if n <= 6 then Insert else if n <= 9 then Decided(Answered(J.Inserted))
    else if n == 10 then Orphan else REJECTED
  }

  function ThirdPc(n: nat): Pc {
    if n <= 5 then Register else if n <= 7 then Insert
    else if n == 8 then Decided(Answered(J.Duplicate(RECORD))) else Returned(Waits(0))
  }

  function Request(i: Sid, pc: Pc): Submit {
    Submit(KEY, "h", 0, 10, 0, if pc.Register? then i else 0, pc)
  }

  /** The part of the state the rest of the run depends on, after `n` steps. */
  ghost predicate Hanging(n: nat, s: State) {
    && s.clock == 0 && !s.closed
    && s.active == (if 4 <= n <= 12 then map[KEY := 0] else map[])
    && s.journal == (if n <= 6 then map[] else if n <= 10 then map[KEY := RECORD] else map[KEY := FINISHED])
    && s.submits == [Request(0, FirstPc(n)), Request(1, SecondPc(n)), Request(2, ThirdPc(n))][..if n < 3 then n else 3]
    && (n == 13 ==> 0 in s.hist.dropped)
  }

  lemma FirstArrivals(n: nat, s: State)
    requires n < 2 && Hanging(n, s)
    ensures Next(s, RUN[n]).Some? && Hanging(n + 1, Next(s, RUN[n]).value)
  {
  }

  lemma LastArrival(n: nat, s: State)
    requires n == 2 && Hanging(n, s)
    ensures Next(s, RUN[n]).Some? && Hanging(n + 1, Next(s, RUN[n]).value)
  {
  }

  lemma RegisteringSteps(n: nat, s: State)
    requires 3 <= n < 6 && Hanging(n, s)
    ensures Next(s, RUN[n]).Some? && Hanging(n + 1, Next(s, RUN[n]).value)
  {
  }

  lemma RacingSteps(n: nat, s: State)
    requires 6 <= n < 8 && Hanging(n, s)
    ensures Next(s, RUN[n]).Some? && Hanging(n + 1, Next(s, RUN[n]).value)
  {
  }

  lemma WaitingStep(n: nat, s: State)
    requires 8 <= n < 9 && Hanging(n, s)
    ensures Next(s, RUN[n]).Some? && Hanging(n + 1, Next(s, RUN[n]).value)
  {
  }

  lemma OrphanDecides(n: nat, s: State)
    requires n == 9 && Hanging(n, s)
    ensures Next(s, RUN[n]).Some? && Hanging(n + 1, Next(s, RUN[n]).value)
  {
  }

  lemma OrphanSettles(n: nat, s: State)
    requires n == 10 && Hanging(n, s)
    ensures Next(s, RUN[n]).Some? && Hanging(n + 1, Next(s, RUN[n]).value)
  {
  }

  lemma LateAsk(n: nat, s: State)
    requires n == 11 && Hanging(n, s)
    ensures Next(s, RUN[n]).Some? && Hanging(n + 1, Next(s, RUN[n]).value)
  {
  }

  lemma LateDrop(n: nat, s: State)
    requires n == 12 && Hanging(n, s)
    ensures Next(s, RUN[n]).Some? && Hanging(n + 1, Next(s, RUN[n]).value)
  {
  }

  lemma Reached(s0: State)
    requires Init(s0) && s0.clock == 0
    ensures Exec(s0, RUN).Some? && Hanging(13, Exec(s0, RUN).value)
  {
    var at := (n: nat, s: State) => n <= 13 && Hanging(n, s);
    forall n: nat, s | n < |RUN| && at(n, s) ensures Next(s, RUN[n]).Some? && at(n + 1, Next(s, RUN[n]).value) {
      if n < 2 {
        FirstArrivals(n, s);
      } else if n == 2 {
        LastArrival(n, s);
      } else if n < 6 {
        RegisteringSteps(n, s);
      } else if n < 8 {
        RacingSteps(n, s);
      } else if n < 9 {
        WaitingStep(n, s);
      } else if n == 9 {
        OrphanDecides(n, s);
      } else if n == 10 {
        OrphanSettles(n, s);
      } else if n == 11 {
        LateAsk(n, s);
      } else {
        LateDrop(n, s);
      }
    }
    Follow(s0, RUN, at, 13);
    assert RUN[..13] == RUN;
  }

  /** After this run the third submit waits for the first one's receipt, which stays unwritten
      whatever happens next. */
  lemma WaiterHangs(s0: State, more: seq<Action>)
    requires Init(s0) && s0.clock == 0
    ensures Exec(s0, RUN).Some?
    ensures var s := Exec(s0, RUN).value;
            |s.submits| == 3 && s.submits[2].pc == Returned(Waits(0)) && !Answerable(s, 0)
    ensures Exec(s0, RUN + more).Some? ==> 0 !in Exec(s0, RUN + more).value.cells
  {
    Reached(s0);
    WaiterAnsweredIff(s0, RUN, 2);
    if Exec(s0, RUN + more).Some? {
      GivenUpNeverWritten(s0, RUN, more, 0);
    }
  }
}
