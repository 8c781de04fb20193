/** Runs in which an entry is settled a second time: by shutdown after an abort, which makes the engine's own
    file unreadable, and by the next worker after a death, which leaves receipt and record in disagreement. */
module EngineResettle {
  import opened ControlTypes
  import opened Engine
  import opened EngineOnce
  import opened EngineCells
  import opened EngineMatch
  import opened EngineRuns
  import opened EngineFile
  import opened EngineWitness
  import J = Journal

  // ---------- a record is settled twice ----------

  const ANSWER := ControlResult(KEY, Succeeded, None, None, None, None)
  const DONE := ANSWER.(completedAt := Some(0))
  const CUT_OFF := ResultOf(ABORTED, KEY, 0)

  /** The run succeeds and its settlement reaches the journal. Then the stop comes, the worker is aborted
      before it writes the receipt, and shutdown settles the entry, which is still the running one. */
  const SETTLING: seq<Action> := [
    ByQueue(DEVICE, Boots), ByQueue(DEVICE, Adopts), ByQueue(DEVICE, Tops([0])), ByQueue(DEVICE, Picks(0)),
    ByQueue(DEVICE, Begins), ByQueue(DEVICE, Starts), ByQueue(DEVICE, Returns(Done(ANSWER))), ByQueue(DEVICE, Cools),
    ByQueue(DEVICE, Journals(TheWorker, Ok)), Stops, ByQueue(DEVICE, AbortAsks), ByQueue(DEVICE, Removes(TheWorker)),
    ByQueue(DEVICE, Aborts), ByQueue(DEVICE, Takes([])), ByQueue(DEVICE, Abandons),
    ByQueue(DEVICE, Journals(TheJoin, Ok))]

  function SettlingWorker(n: nat): Worker {
    if n == 0 then Boot else if n == 1 then Adopt([]) else if n == 2 then Top else if n == 3 then Pick
    else if n == 4 then Picked(0, IsReady) else if n <= 6 then Executing(0, n == 6)
    else if n == 7 then Ran(0, Done(ANSWER)) else if n == 8 then SettlesRun(Work(0, DONE, ToJournal))
    else if n <= 11 then SettlesRun(Work(0, DONE, Journaled(true)))
    else if n == 12 then SettlesRun(Work(0, DONE, ToAudit)) else if n == 13 then Absent else Stopped
  }

  function SettlingJoin(n: nat): Join {
    if n <= 13 then NotYet else if n == 14 then Abandoned([(0, ABORTED)])
    else Abandoning(Work(0, CUT_OFF, if n == 15 then ToJournal else Journaled(true)), [])
  }

  function SettlingRecord(n: nat): J.Entry {
    var record := J.NewEntry(KEY, "h", 0, 10);
    if n <= 8 then record else if n <= 15 then J.Settled(record, DONE) else J.Settled(J.Settled(record, DONE), CUT_OFF)
  }

  ghost predicate Resettling(n: nat, s: State) {
    && s.clock == 0 && s.closed == (n >= 10) && s.cells == map[] && s.cancelled == {}
    && s.submits == [Submit(KEY, "h", 0, 10, 10, 0, Enqueued)]
    && s.journal == map[KEY := SettlingRecord(n)] && (KEY in s.marks.last <==> n >= 9)
    && DEVICE in s.queues
    && s.queues[DEVICE] == Queue(if n <= 3 then {0} else {}, if 5 <= n <= 13 then Some(0) else None, [], n >= 14, None,
                                 SettlingWorker(n), SettlingJoin(n), n >= 11)
  }

  lemma FirstSettlable(s0: State)
    requires Init(s0) && s0.clock == 0
    ensures var run := Admission(KEY, "h", 10, 10, 0);
            Exec(s0, run).Some? && Resettling(0, Exec(s0, run).value)
  {
    RequestAdmitted(s0, KEY, "h", 10, 10);
    var admitted := Exec(s0, Admission(KEY, "h", 10, 10, 0)).value;
    assert admitted.submits == [Submit(KEY, "h", 0, 10, 10, 0, Enqueued)];
  }

  lemma BootingSteps(n: nat, s: State)
    requires n < 2 && Resettling(n, s)
    ensures Next(s, SETTLING[n]).Some? && Resettling(n + 1, Next(s, SETTLING[n]).value)
  {
    assert Leftovers(None, []) == [];
  }

  lemma RunningSteps(n: nat, s: State)
    requires 2 <= n < 5 && Resettling(n, s)
    ensures Next(s, SETTLING[n]).Some? && Resettling(n + 1, Next(s, SETTLING[n]).value)
  {
    assert s.queues[DEVICE].waiting - {0} == {};
  }

  lemma StartingStep(n: nat, s: State)
    requires 5 <= n < 6 && Resettling(n, s)
    ensures Next(s, SETTLING[n]).Some? && Resettling(n + 1, Next(s, SETTLING[n]).value)
  {
  }

  lemma AnsweringStep(n: nat, s: State)
    requires 6 <= n < 7 && Resettling(n, s)
    ensures Next(s, SETTLING[n]).Some? && Resettling(n + 1, Next(s, SETTLING[n]).value)
  {
  }

  lemma CoolingStep(n: nat, s: State)
    requires 7 <= n < 8 && Resettling(n, s)
    ensures Next(s, SETTLING[n]).Some? && Resettling(n + 1, Next(s, SETTLING[n]).value)
  {
  }

  lemma SettlingStep(n: nat, s: State)
    requires 8 <= n < 9 && Resettling(n, s)
    ensures Next(s, SETTLING[n]).Some? && Resettling(n + 1, Next(s, SETTLING[n]).value)
  {
  }

  lemma StoppingSteps(n: nat, s: State)
    requires 9 <= n < 11 && Resettling(n, s)
    ensures Next(s, SETTLING[n]).Some? && Resettling(n + 1, Next(s, SETTLING[n]).value)
  {
  }

  lemma RemovingStep(n: nat, s: State)
    requires 11 <= n < 12 && Resettling(n, s)
    ensures Next(s, SETTLING[n]).Some? && Resettling(n + 1, Next(s, SETTLING[n]).value)
  {
  }

  lemma AbortingStep(n: nat, s: State)
    requires 12 <= n < 13 && Resettling(n, s)
    ensures Next(s, SETTLING[n]).Some? && Resettling(n + 1, Next(s, SETTLING[n]).value)
  {
  }

  lemma TakingStep(n: nat, s: State)
    requires 13 <= n < 14 && Resettling(n, s)
    ensures Next(s, SETTLING[n]).Some? && Resettling(n + 1, Next(s, SETTLING[n]).value)
  {
    assert Leftovers(Some(0), [] + s.queues[DEVICE].draining) == [(0, ABORTED)];
  }

  lemma AbandoningStep(n: nat, s: State)
    requires 14 <= n < 15 && Resettling(n, s)
    ensures Next(s, SETTLING[n]).Some? && Resettling(n + 1, Next(s, SETTLING[n]).value)
  {
    assert Leftovers(Some(0), [] + s.queues[DEVICE].draining) == [(0, ABORTED)];
  }

  lemma ResettlingStep(s: State)
    requires Resettling(15, s)
    ensures var a := ByQueue(DEVICE, Journals(TheJoin, Ok)); Next(s, a).Some? && Resettling(16, Next(s, a).value)
  {
  }

  lemma FirstHalf(n: nat, s: State)
    requires n < 9 && Resettling(n, s)
    ensures Next(s, SETTLING[n]).Some? && Resettling(n + 1, Next(s, SETTLING[n]).value)
  {
    if n < 2 {
      BootingSteps(n, s);
    } else if n < 5 {
      RunningSteps(n, s);
    } else if n == 5 {
      StartingStep(n, s);
    } else if n == 6 {
      AnsweringStep(n, s);
    } else if n < 8 {
      CoolingStep(n, s);
    } else {
      SettlingStep(n, s);
    }
  }

  lemma SecondHalf(n: nat, s: State)
    requires 9 <= n < 16 && Resettling(n, s)
    ensures Next(s, SETTLING[n]).Some? && Resettling(n + 1, Next(s, SETTLING[n]).value)
  {
    if n < 11 {
      StoppingSteps(n, s);
    } else if n == 11 {
      RemovingStep(n, s);
    } else if n == 12 {
      AbortingStep(n, s);
    } else if n == 13 {
      TakingStep(n, s);
    } else if n == 14 {
      AbandoningStep(n, s);
    } else {
      ResettlingStep(s);
    }
  }

  lemma ResettlingPlayed(s: State, n: nat)
    requires Resettling(0, s) && n <= 16
    ensures Exec(s, SETTLING[..n]).Some? && Resettling(n, Exec(s, SETTLING[..n]).value)
  {
    var at := (n: nat, t: State) => n <= 16 && Resettling(n, t);
    forall n: nat, t | n < |SETTLING| && at(n, t)
      ensures Next(t, SETTLING[n]).Some? && at(n + 1, Next(t, SETTLING[n]).value)
    {
      if n < 9 {
        FirstHalf(n, t);
      } else {
        SecondHalf(n, t);
      }
    }
    Follow(s, SETTLING, at, n);
  }

  /** A success that the journal has stored is overwritten by shutdown's settlement of the same entry:
      the record is settled twice. */
  lemma SettledTwice(s0: State)
    requires Init(s0) && s0.clock == 0
    ensures var run := Admission(KEY, "h", 10, 10, 0) + SETTLING[..15];
            && Exec(s0, run).Some?
            && var s, a := Exec(s0, run).value, ByQueue(DEVICE, Journals(TheJoin, Ok));
               && KEY in s.journal && s.journal[KEY].result == Some(DONE) && KEY in s.marks.last
               && s.clock == 0 && |s.submits| == 1 && s.submits[0].pc.Enqueued?
               && Enabled(s, a) && EffectOf(s, a) == Settle(KEY, CUT_OFF, true, 0)
               && KEY in Apply(s, a).journal && Apply(s, a).journal[KEY].result == Some(CUT_OFF)
  {
    FirstSettlable(s0);
    var admitted := Exec(s0, Admission(KEY, "h", 10, 10, 0)).value;
    ResettlingPlayed(admitted, 15);
    ResettlingStep(Exec(admitted, SETTLING[..15]).value);
    ExecBoth(s0, Admission(KEY, "h", 10, 10, 0), SETTLING[..15]);
  }

  // ---------- so the engine makes its own file unreadable ----------

  /** Steps of which none settles a record. */
  predicate Unsettling(a: Action) {
    && (a.BySubmit? ==> !a.move.Orphans? && !a.move.FinishSettles?)
    && (a.ByQueue? ==> !a.turn.Journals?)
  }

  lemma NothingSettled(s: State, a: Action)
    requires Enabled(s, a) && Unsettling(a)
    ensures !Resolves(s, a)
  {
    if a.ByQueue? {
      if Settling(a.turn) {
        SettlingEffect(s, a.d, a.turn);
      } else {
        QuietTurn(s, a.d, a.turn);
      }
    }
  }

  lemma SoleInserter(s: State, key: Key)
    requires AllTold(s) && AllBlank(s) && key in s.journal && |s.submits| == 1 && !s.submits[0].pc.Gone?
    ensures InsertedHere(s, key)
  {
    assert RecordTold(key, s.journal, s.owner, s.marks) && BlankUntilSettled(key, s.journal, s.submits, s.marks);
  }

  /** Only one step of the run settles a record: the worker's journal write. */
  lemma SettlesOnceOnly(run: seq<Action>, n: nat)
    requires run == Admission(KEY, "h", 10, 10, 0) + SETTLING[..15] && n < |run|
    ensures n != 14 ==> Unsettling(run[n])
    ensures n == 14 ==> run[n] == SETTLING[8]
  {
  }

  lemma FreshNext(s0: State, done: seq<Action>, a: Action)
    requires Exec(s0, done + [a]).Some? && Exec(s0, done).Some? && SettlesFresh(s0, done)
    requires var s := Exec(s0, done).value;
             && Enabled(s, a)
             && (Resolves(s, a) ==> InsertedHere(s, EffectOf(s, a).key) && EffectOf(s, a).key !in s.marks.last)
    ensures SettlesFresh(s0, done + [a])
  {
    assert (done + [a])[..|done|] == done;
  }

  lemma FirstSettlement(s0: State, done: seq<Action>)
    requires Init(s0) && Exec(s0, done).Some? && Resettling(8, Exec(s0, done).value) && SettlesFresh(s0, done)
    requires Exec(s0, done + [SETTLING[8]]).Some?
    ensures SettlesFresh(s0, done + [SETTLING[8]])
  {
    var s := Exec(s0, done).value;
    ExecTold(s0, done);
    ExecBlank(s0, done);
    SoleInserter(s, KEY);
    SettlesKey(s);
    FreshNext(s0, done, SETTLING[8]);
  }

  lemma QuietNext(s0: State, done: seq<Action>, a: Action)
    requires Exec(s0, done).Some? && SettlesFresh(s0, done) && Unsettling(a) && Exec(s0, done + [a]).Some?
    ensures SettlesFresh(s0, done + [a])
  {
    assert (done + [a])[..|done|] == done;
    NothingSettled(Exec(s0, done).value, a);
    FreshNext(s0, done, a);
  }

  lemma {:induction false} FreshSoFar(s0: State, run: seq<Action>, at: nat, n: nat)
    requires Init(s0) && Exec(s0, run).Some? && n <= |run| && at < |run| && run[at] == SETTLING[8]
    requires forall m :: 0 <= m < |run| && m != at ==> Unsettling(run[m])
    requires Exec(s0, run[..at]).Some? && Resettling(8, Exec(s0, run[..at]).value)
    ensures Exec(s0, run[..n]).Some? && SettlesFresh(s0, run[..n])
  {
    Prefixes(s0, run, n);
    if n > 0 {
      FreshSoFar(s0, run, at, n - 1);
      LastOf(run, n);
      if n - 1 == at {
        FirstSettlement(s0, run[..n - 1]);
      } else {
        QuietNext(s0, run[..n - 1], run[n - 1]);
      }
    }
  }

  lemma LastOf(run: seq<Action>, n: nat)
    requires 0 < n <= |run|
    ensures run[..n] == run[..n - 1] + [run[n - 1]]
  {
  }

  lemma SettlesKey(s: State)
    requires Resettling(8, s)
    ensures Enabled(s, SETTLING[8]) && EffectOf(s, SETTLING[8]).Settle? && EffectOf(s, SETTLING[8]).key == KEY
    ensures KEY !in s.marks.last
  {
  }

  lemma {:induction false} Prefixes(s0: State, run: seq<Action>, n: nat)
    requires Exec(s0, run).Some? && n <= |run|
    ensures Exec(s0, run[..n]).Some?
    decreases |run| - n
  {
    if n == |run| {
      assert run[..n] == run;
    } else {
      Prefixes(s0, run, n + 1);
      assert run[..n + 1][..n] == run[..n];
    }
  }

  lemma FreshUntilResettled(s0: State, run: seq<Action>)
    requires Init(s0) && s0.clock == 0 && run == Admission(KEY, "h", 10, 10, 0) + SETTLING[..15] && Exec(s0, run).Some?
    ensures SettlesFresh(s0, run)
  {
    var admission := Admission(KEY, "h", 10, 10, 0);
    FirstSettlable(s0);
    ResettlingPlayed(Exec(s0, admission).value, 8);
    ExecBoth(s0, admission, SETTLING[..8]);
    assert run[..14] == admission + SETTLING[..8];
    forall m | 0 <= m < |run| && m != 14 ensures Unsettling(run[m]) {
      SettlesOnceOnly(run, m);
    }
    FreshSoFar(s0, run, 14, |run|);
    assert run[..|run|] == run;
  }

  /** So whatever file journal the engine runs on, after this run and shutdown's settlement no restart can
      read the file once the record has expired. */
  lemma FileUnreadable(s0: State, run: seq<Action>, ops: seq<J.Op>)
    requires Init(s0) && s0.clock == 0 && run == Admission(KEY, "h", 10, 10, 0) + SETTLING[..15]
    requires Exec(s0, run).Some? && Files(s0, run, ops)
    ensures exists now :: now >= 0 && J.Replay(J.ApplySettle(J.Exec(0, ops).value, KEY, CUT_OFF).log, now).Corrupt?
  {
    var a := ByQueue(DEVICE, Journals(TheJoin, Ok));
    SettledTwice(s0);
    FreshUntilResettled(s0, run);
    FreshSettledOnce(s0, run, ops);
    ExecTold(s0, run);
    ExecBlank(s0, run);
    SoleInserter(Exec(s0, run).value, KEY);
    FileReadableIff(s0, run, ops, a);
  }

  // ---------- an Indeterminate receipt of a success the journal stores ----------

  /** The worker dies between journal and receipt; the next one adopts the entry and its write fails. */
  const ADOPTING: seq<Action> := [
    Panics(DEVICE), ByQueue(DEVICE, Respawns), ByQueue(DEVICE, Boots), ByQueue(DEVICE, Adopts),
    ByQueue(DEVICE, Journals(TheWorker, Fails)), ByQueue(DEVICE, Removes(TheWorker))]

  function AdoptingWorker(n: nat): Worker {
    if n == 0 then SettlesRun(Work(0, DONE, Journaled(true))) else if n == 1 then Absent else if n == 2 then Boot
    else if n == 3 then Adopt([(0, ABORTED)]) else if n == 4 then Adopting(Work(0, CUT_OFF, ToJournal), [])
    else if n == 5 then Adopting(Work(0, CUT_OFF, Journaled(false)), [])
    else Adopting(Work(0, Downgraded(CUT_OFF), ToAudit), [])
  }

  ghost predicate Adoption(n: nat, s: State) {
    && s.clock == 0 && !s.closed && s.cells == map[]
    && s.submits == [Submit(KEY, "h", 0, 10, 10, 0, Enqueued)] && s.journal == map[KEY := SettlingRecord(9)]
    && DEVICE in s.queues
    && s.queues[DEVICE] == Queue({}, if n <= 2 then Some(0) else None, if n <= 3 then [] else [0], false, None,
                                 AdoptingWorker(n), NotYet, false)
  }

  lemma OrphaningSteps(n: nat, s: State)
    requires n < 3 && Adoption(n, s)
    ensures Next(s, ADOPTING[n]).Some? && Adoption(n + 1, Next(s, ADOPTING[n]).value)
  {
    assert Leftovers(Some(0), []) == [(0, ABORTED)];
  }

  lemma AdoptingStep(n: nat, s: State)
    requires n == 3 && Adoption(n, s)
    ensures Next(s, ADOPTING[n]).Some? && Adoption(n + 1, Next(s, ADOPTING[n]).value)
  {
    assert [(0, ABORTED)][1..] == [] && [] + [0] == [0];
  }

  lemma MissingRecordSteps(n: nat, s: State)
    requires 4 <= n < 6 && Adoption(n, s)
    ensures Next(s, ADOPTING[n]).Some? && Adoption(n + 1, Next(s, ADOPTING[n]).value)
  {
  }

  lemma AdoptionPlayed(s: State)
    requires Adoption(0, s)
    ensures Exec(s, ADOPTING).Some? && Adoption(6, Exec(s, ADOPTING).value)
  {
    var at := (n: nat, t: State) => n <= 6 && Adoption(n, t);
    forall n: nat, t | n < |ADOPTING| && at(n, t)
      ensures Next(t, ADOPTING[n]).Some? && at(n + 1, Next(t, ADOPTING[n]).value)
    {
      if n < 3 {
        OrphaningSteps(n, t);
      } else if n == 3 {
        AdoptingStep(n, t);
      } else {
        MissingRecordSteps(n, t);
      }
    }
    Follow(s, ADOPTING, at, 6);
    assert ADOPTING[..6] == ADOPTING;
  }

  /** No shutdown is involved: the receipt that is written next claims nothing, while the record stores the
      success that the first worker wrote. */
  lemma IndeterminateOverSuccess(s0: State)
    requires Init(s0) && s0.clock == 0
    ensures var run := Admission(KEY, "h", 10, 10, 0) + SETTLING[..9] + ADOPTING;
            && Exec(s0, run).Some?
            && var s, a := Exec(s0, run).value, ByQueue(DEVICE, Writes(TheWorker));
               && Enabled(s, a) && Posted(s, a) == Some((0, Downgraded(CUT_OFF)))
               && KEY in s.journal && s.journal[KEY].result == Some(DONE) && DONE.status == Succeeded
  {
    var admission := Admission(KEY, "h", 10, 10, 0);
    FirstSettlable(s0);
    ResettlingPlayed(Exec(s0, admission).value, 9);
    ExecBoth(s0, admission, SETTLING[..9]);
    AdoptionPlayed(Exec(s0, admission + SETTLING[..9]).value);
    ExecBoth(s0, admission + SETTLING[..9], ADOPTING);
  }
}
