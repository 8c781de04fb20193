/** What a receipt and the journal say of the same request. Together with `EngineAgree` this covers every
    receipt: a definite one is what the journal stores; an Indeterminate one is that too, or the record is
    still running, unless an earlier try to settle had reached the record. */
module EngineOutcome {
  import opened ControlTypes
  import opened Engine
  import opened EngineOnce
  import opened EngineCells
  import opened EngineStop
  import opened EngineMatch
  import opened EngineAgree
  import opened EngineTries
  import opened EngineCodes
  import J = Journal

  /** The record of submit `e` is its own and has not been settled. */
  ghost predicate StillRuns(s: State, e: Sid)
    requires e < |s.submits|
  {
    var k := s.submits[e].key;
    k in s.journal && Holds(s.owner, k, e) && s.journal[k].result.None? && s.journal[k].status == Running
  }

  ghost predicate Reachable(s: State) {
    && Once(s) && Shaped(s) && AllTold(s) && AllBlank(s) && OpenRuns(s.journal)
    && Grounded(s) && Owned(s) && Tries(s) && AllCoded(s)
  }

  lemma ExecReachable(s0: State, actions: seq<Action>)
    requires Init(s0) && Exec(s0, actions).Some?
    ensures Reachable(Exec(s0, actions).value)
  {
    ExecOnce(s0, actions);
    ExecShaped(s0, actions);
    ExecTold(s0, actions);
    ExecBlank(s0, actions);
    ExecOpens(s0, actions);
    ExecGrounded(s0, actions);
    ExecOwned(s0, actions);
    ExecTries(s0, actions);
    ExecCoded(s0, actions);
  }

  /** What is known of a record whose owner is about to write its receipt. */
  lemma OwnRecord(s: State, e: Sid, r: ControlResult)
    requires Reachable(s) && e < |s.submits| && e in s.trace.inserters && s.submits[e].key !in s.marks.early
    requires s.submits[e].cell == e && Live(s.submits[e], HeldAt(s, e)) && !s.submits[e].pc.Gone?
    requires Told(e, r, s.submits[e].key, s.trace.inserters, s.marks)
    ensures var k := s.submits[e].key;
            && k in s.journal && Holds(s.owner, k, e)
            && (k in s.marks.last ==> s.marks.last[k].author == e && (Stores(s, e, r) <==> s.marks.last[k].result == r))
            && (k in s.marks.last <==> s.journal[k].result.Some?)
            && (StillRuns(s, e) <==> k !in s.marks.last)
            && (e !in s.marks.failed ==> Stores(s, e, r))
            && (e in s.marks.failed ==> r.status == Indeterminate || e in s.marks.gaveUp)
  {
    var k := s.submits[e].key;
    assert Footing(e, s.submits[e], HeldAt(s, e), SharedOf(s));
    assert SettledByOwner(e, s.submits[e], HeldAt(s, e), s.trace.inserters, s.marks);
    assert RecordTold(k, s.journal, s.owner, s.marks) && BlankUntilSettled(k, s.journal, s.submits, s.marks);
  }

  lemma PosterKnown(s: State, a: Action)
    requires Reachable(s) && Enabled(s, a) && Posted(s, a).Some? && Posted(s, a).value.0 in s.trace.inserters
    ensures var (e, r) := Posted(s, a).value;
            && e < |s.submits| && s.submits[e].cell == e && Live(s.submits[e], HeldAt(s, e)) && !s.submits[e].pc.Gone?
            && Told(e, r, s.submits[e].key, s.trace.inserters, s.marks)
            && (a.ByQueue? ==> Admits(e, r, s.marks))
            && (a.BySubmit? ==> FirstTry(s.marks, e))
  {
    PosterLives(s, a);
    if a.BySubmit? {
      SubmitPostsTold(s, a.i, a.move);
      assert SubmitTries(a.i, s.submits[a.i], s.marks) && SubmitTold(a.i, s.submits[a.i], s.trace.inserters, s.marks);
    } else {
      QueuePostsTold(s, a.d, a.turn);
    }
  }

  // ---------- theorems ----------

  /** The record is the request's own and stores this result, or the receipt claims nothing and the record
      is still running. */
  ghost predicate Agrees(s: State, e: Sid, r: ControlResult)
    requires e < |s.submits|
  {
    Stores(s, e, r) || (r.status == Indeterminate && StillRuns(s, e))
  }

  /** Whoever writes the receipt of a request that inserted a record (the submit, a worker, or shutdown on
      behalf of an aborted worker), with worker deaths and restarts anywhere: if no record of the key has
      expired under a live request since the start, the record is still that request's own.

      Receipt and record agree if and only if the last try to settle reached the record, or missed it and
      claims nothing while no try has reached it, or an earlier try happens to have written the same. That
      last case aside it depends on events alone: for a try that shutdown did not give up and an executor
      that does not answer with the engine's code of a failed write, they agree if and only if the try did
      not fail or no earlier try had reached the record. A definite outcome not given up is always stored. */
  lemma ReceiptMatchesJournal(s0: State, actions: seq<Action>, a: Action)
    requires Init(s0) && Exec(s0, actions).Some? && Enabled(Exec(s0, actions).value, a)
    requires var s := Exec(s0, actions).value;
             && Posted(s, a).Some? && Posted(s, a).value.0 in s.trace.inserters
             && Sub(s.submits, Posted(s, a).value.0).key !in s.marks.early
    ensures var s := Exec(s0, actions).value;
            var (e, r) := Posted(s, a).value;
            && e < |s.submits|
            && var k, m := s.submits[e].key, s.marks;
               && k in s.journal && Holds(s.owner, k, e)
               && (Agrees(s, e, r) <==>
                     || e !in m.failed
                     || (r.status == Indeterminate && k !in m.last)
                     || (k in m.last && m.last[k].result == r))
               && (e !in m.gaveUp && e !in s.hist.imitated ==> (Agrees(s, e, r) <==> e !in m.failed || k !in m.last))
               && (r.status != Indeterminate && e !in m.gaveUp ==> Stores(s, e, r))
  {
    ExecReachable(s0, actions);
    ReceiptMatches(Exec(s0, actions).value, a);
  }

  lemma ReceiptMatches(s: State, a: Action)
    requires Reachable(s) && Enabled(s, a)
    requires Posted(s, a).Some? && Posted(s, a).value.0 in s.trace.inserters
    requires Sub(s.submits, Posted(s, a).value.0).key !in s.marks.early
    ensures var (e, r) := Posted(s, a).value;
            && e < |s.submits|
            && var k, m := s.submits[e].key, s.marks;
               && k in s.journal && Holds(s.owner, k, e)
               && (Agrees(s, e, r) <==>
                     || e !in m.failed
                     || (r.status == Indeterminate && k !in m.last)
                     || (k in m.last && m.last[k].result == r))
               && (e !in m.gaveUp && e !in s.hist.imitated ==> (Agrees(s, e, r) <==> e !in m.failed || k !in m.last))
               && (r.status != Indeterminate && e !in m.gaveUp ==> Stores(s, e, r))
  {
    var (e, r) := Posted(s, a).value;
    PosterKnown(s, a);
    OwnRecord(s, e, r);
    var k := s.submits[e].key;
    if e in s.marks.failed && k in s.marks.last && e !in s.marks.gaveUp && s.marks.last[k].result == r {
      assert a.ByQueue?;
      assert Coded(r) && e in s.hist.imitated;
    }
  }

  /** A submit's own receipt and its record agree, in every run. */
  lemma SubmitReceiptAgrees(s0: State, actions: seq<Action>, i: Sid, move: SubmitAction)
    requires Init(s0) && Exec(s0, actions).Some? && Enabled(Exec(s0, actions).value, BySubmit(i, move))
    requires var s := Exec(s0, actions).value;
             && Posted(s, BySubmit(i, move)).Some? && Posted(s, BySubmit(i, move)).value.0 in s.trace.inserters
             && Sub(s.submits, Posted(s, BySubmit(i, move)).value.0).key !in s.marks.early
    ensures var s := Exec(s0, actions).value;
            var (e, r) := Posted(s, BySubmit(i, move)).value;
            e < |s.submits| && Agrees(s, e, r)
  {
    ExecReachable(s0, actions);
    var s := Exec(s0, actions).value;
    var (e, r) := Posted(s, BySubmit(i, move)).value;
    PosterKnown(s, BySubmit(i, move));
    OwnRecord(s, e, r);
  }

  /** In every run, the receipt a worker writes of an entry that it did not adopt from one that died agrees
      with its record: the record holds that same result, or the receipt is Indeterminate and the record
      still shows running. So no such receipt claims a success that a restart would forget. */
  lemma WorkerReceiptAgrees(s0: State, actions: seq<Action>, d: string)
    requires Init(s0) && Exec(s0, actions).Some?
    requires Enabled(Exec(s0, actions).value, ByQueue(d, Writes(TheWorker)))
    requires var s := Exec(s0, actions).value;
             && !s.queues[d].worker.Adopting?
             && Sub(s.submits, WorkOf(s.queues[d], TheWorker).entry).key !in s.marks.early
    ensures var s := Exec(s0, actions).value;
            var a := ByQueue(d, Writes(TheWorker));
            && Posted(s, a).Some?
            && var (e, r) := Posted(s, a).value;
               e == WorkOf(s.queues[d], TheWorker).entry && e < |s.submits| && Agrees(s, e, r)
  {
    ExecReachable(s0, actions);
    ExecQueuesTry(s0, actions);
    WorkerAgrees(Exec(s0, actions).value, d);
  }

  /** Where no worker dies by itself none adopts, so that this covers every receipt a worker writes. */
  lemma UndisturbedReceiptAgrees(s0: State, actions: seq<Action>, d: string)
    requires Init(s0) && Exec(s0, actions).Some? && NoPanics(actions)
    requires Enabled(Exec(s0, actions).value, ByQueue(d, Writes(TheWorker)))
    requires var s := Exec(s0, actions).value;
             Sub(s.submits, WorkOf(s.queues[d], TheWorker).entry).key !in s.marks.early
    ensures var s := Exec(s0, actions).value;
            var e, r := WorkOf(s.queues[d], TheWorker).entry, WorkOf(s.queues[d], TheWorker).result;
            Posted(s, ByQueue(d, Writes(TheWorker))) == Some((e, r)) && e < |s.submits| && Agrees(s, e, r)
  {
    ExecStops(s0, actions);
    assert Sound(ViewOf(Exec(s0, actions).value, d), QueueOf(Exec(s0, actions).value.queues, d));
    WorkerReceiptAgrees(s0, actions, d);
  }

  lemma WorkerAgrees(s: State, d: string)
    requires Reachable(s) && QueuesTry(s) && Enabled(s, ByQueue(d, Writes(TheWorker)))
    requires !s.queues[d].worker.Adopting?
    requires Sub(s.submits, WorkOf(s.queues[d], TheWorker).entry).key !in s.marks.early
    ensures var a := ByQueue(d, Writes(TheWorker));
            && Posted(s, a).Some?
            && var (e, r) := Posted(s, a).value;
               e == WorkOf(s.queues[d], TheWorker).entry && e < |s.submits| && Agrees(s, e, r)
  {
    var a := ByQueue(d, Writes(TheWorker));
    WorkerSilent(s, d, Writes(TheWorker));
    QueuePosts(s, d, Writes(TheWorker));
    WorkerOwns(s, d, TheWorker);
    var (e, r) := Posted(s, a).value;
    PosterKnown(s, a);
    OwnRecord(s, e, r);
    assert QueueTries(s.queues[d], s.cells, s.marks);
  }
}
