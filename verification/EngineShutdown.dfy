/** What a shutdown that does not wait for its abort to take effect can lose, exactly, and that its own
    steps come to an end. This holds with worker deaths. */
module EngineShutdown {
  import opened ControlTypes
  import opened Engine
  import opened EngineOnce
  import opened EngineRuns
  import opened EngineCells
  import opened EnginePlaces
  import opened EngineStop

  // ---------- who is stranded on a device is fixed when shutdown reads its queue ----------

  ghost predicate StrandedAt(s: State, d: string, i: Sid) {
    i in AcceptedBy(s.submits, d) && i in s.hist.stranded
  }

  predicate Read(s: State, d: string) {
    d in s.queues && !s.queues[d].join.NotYet?
  }

  lemma StaysRead(s: State, d: string, a: QueueAction)
    requires d in s.queues && MayTurn(s, s.queues[d], a) && !s.queues[d].join.NotYet?
    ensures !QueueStep(s, d, a).next.join.NotYet? && !QueueStep(s, d, a).eff.Strand?
  {
  }

  lemma TurningStrands(s: State, d': string, step: Step<Queue>, d: string)
    requires d' in s.queues && Read(s, d) && (d' == d ==> !step.next.join.NotYet? && !step.eff.Strand?)
    requires Losses(step.eff) <= AcceptedBy(s.submits, d')
    ensures var t := Turn(s, d', step);
            Read(t, d) && forall i :: StrandedAt(t, d, i) <==> StrandedAt(s, d, i)
  {
    StrandedAfter(s.hist, step.eff, s.closed);
    assert d' != d ==> AcceptedBy(s.submits, d') !! AcceptedBy(s.submits, d);
  }

  lemma TurnStrands(s: State, d': string, a: QueueAction, d: string)
    requires Once(s) && d' in s.queues && MayTurn(s, s.queues[d'], a) && Read(s, d)
    ensures var t := Turn(s, d', QueueStep(s, d', a));
            Read(t, d) && forall i :: StrandedAt(t, d, i) <==> StrandedAt(s, d, i)
  {
    TurnEffects(s, d', a);
    UnseenAccepted(s, d');
    if d' == d {
      StaysRead(s, d, a);
    }
    TurningStrands(s, d', QueueStep(s, d', a), d);
  }

  lemma PanicStrands(s: State, d': string, d: string)
    requires Once(s) && d' in s.queues && Read(s, d)
    ensures var t := Turn(s, d', DeathStep(s.queues[d'], d', s.cells));
            Read(t, d) && forall i :: StrandedAt(t, d, i) <==> StrandedAt(s, d, i)
  {
    UnseenAccepted(s, d');
    TurningStrands(s, d', DeathStep(s.queues[d'], d', s.cells), d);
  }

  lemma MoveStrands(s: State, i: Sid, a: SubmitAction, d: string)
    requires Once(s) && CellsShaped(s) && i < |s.submits| && MayMove(s, s.submits[i], a) && Read(s, d)
    ensures var t := Move(s, i, SubmitStep(s, i, a));
            Read(t, d) && forall j :: StrandedAt(t, d, j) <==> StrandedAt(s, d, j)
  {
    SubmitShaped(s, i, a);
    var step := SubmitStep(s, i, a);
    StrandedAfter(s.hist, step.eff, s.closed);
    var t := Move(s, i, step);
    assert forall j :: j in AcceptedBy(t.submits, d) <==> j in AcceptedBy(s.submits, d);
  }

  lemma GlobalStrands(s: State, a: Action, d: string)
    requires Shaped(s) && Enabled(s, a) && Read(s, d)
    requires !a.BySubmit? && !a.ByQueue? && !a.Crashes? && !a.Panics?
    ensures Read(Apply(s, a), d) && forall i :: StrandedAt(Apply(s, a), d, i) <==> StrandedAt(s, d, i)
  {
    var t := Apply(s, a);
    assert TakenOver(s.queues[d], s.closed);
    if !a.Enqueues? {
      assert forall j :: j in AcceptedBy(t.submits, d) <==> j in AcceptedBy(s.submits, d);
    }
  }

  lemma StepStrands(s: State, a: Action, d: string)
    requires Once(s) && Shaped(s) && Enabled(s, a) && Read(s, d) && !a.Crashes?
    ensures Read(Apply(s, a), d) && forall i :: StrandedAt(Apply(s, a), d, i) <==> StrandedAt(s, d, i)
  {
    if a.BySubmit? {
      MoveStrands(s, a.i, a.move, d);
    } else if a.ByQueue? {
      TurnStrands(s, a.d, a.turn, d);
    } else if a.Panics? {
      PanicStrands(s, a.d, d);
    } else {
      GlobalStrands(s, a, d);
    }
  }

  ghost predicate NoCrashes(actions: seq<Action>) {
    forall n :: 0 <= n < |actions| ==> !actions[n].Crashes?
  }

  lemma {:induction false} RunStrands(s0: State, before: seq<Action>, more: seq<Action>, d: string)
    requires Init(s0) && Exec(s0, before + more).Some? && NoCrashes(more)
    requires Exec(s0, before).Some? && Read(Exec(s0, before).value, d)
    ensures Read(Exec(s0, before + more).value, d)
    ensures forall i :: StrandedAt(Exec(s0, before + more).value, d, i) <==> StrandedAt(Exec(s0, before).value, d, i)
    decreases |more|
  {
    if more == [] {
      assert before + more == before;
    } else {
      var init := more[..|more| - 1];
      var all := before + more;
      assert all[..|all| - 1] == before + init;
      RunStrands(s0, before, init, d);
      ExecOnce(s0, before + init);
      ExecShaped(s0, before + init);
      StepStrands(Exec(s0, before + init).value, more[|more| - 1], d);
    }
  }

  /** What reading the queue strands: what only the worker knows of, and nothing else. */
  lemma TakesStrands(s: State, d: string, order: seq<Sid>, i: Sid)
    requires Once(s) && d in s.queues && MayTurn(s, s.queues[d], Takes(order))
    ensures StrandedAt(Turn(s, d, QueueStep(s, d, Takes(order))), d, i) <==>
              StrandedAt(s, d, i) || i in Unseen(s.queues[d], s.cells)
  {
    UnseenAccepted(s, d);
    StrandedAfter(s.hist, QueueStep(s, d, Takes(order)).eff, s.closed);
  }

  /** The exact condition, in every run: when shutdown has settled all it took, however the run went on
      since it read the queue, every entry the queue accepted has its receipt if and only if no dead
      worker had taken one with it before, and at that moment none was in the worker's hands alone. */
  lemma NothingLostIff(s0: State, before: seq<Action>, d: string, order: seq<Sid>, more: seq<Action>)
    requires Init(s0) && Exec(s0, before).Some? && Enabled(Exec(s0, before).value, ByQueue(d, Takes(order)))
    requires Exec(s0, before + [ByQueue(d, Takes(order))] + more).Some? && NoCrashes(more)
    requires var t := Exec(s0, before + [ByQueue(d, Takes(order))] + more).value;
             d in t.queues && t.queues[d].join == Abandoned([])
    ensures var s, t := Exec(s0, before).value, Exec(s0, before + [ByQueue(d, Takes(order))] + more).value;
            (forall i :: i in AcceptedBy(t.submits, d) ==> i in t.cells)
            <==> Unseen(s.queues[d], s.cells) == {} && AcceptedBy(s.submits, d) !! s.hist.stranded
  {
    var a := ByQueue(d, Takes(order));
    var took, all := before + [a], before + [a] + more;
    var s, t := Exec(s0, before).value, Exec(s0, all).value;
    assert took[..|took| - 1] == before;
    ExecOnce(s0, before);
    RunStrands(s0, took, more, d);
    var u := Exec(s0, took).value;
    assert u == Turn(s, d, QueueStep(s, d, Takes(order)));
    forall i ensures StrandedAt(t, d, i) <==> StrandedAt(s, d, i) || i in Unseen(s.queues[d], s.cells) {
      TakesStrands(s, d, order, i);
      assert StrandedAt(t, d, i) <==> StrandedAt(u, d, i);
    }
    forall i | i in AcceptedBy(t.submits, d) ensures i in t.cells <==> !StrandedAt(t, d, i) {
      WrittenAtStopIff(s0, all, d, i);
    }
    if i :| i in Unseen(s.queues[d], s.cells) {
      assert StrandedAt(t, d, i);
    }
    if i :| i in AcceptedBy(s.submits, d) && i in s.hist.stranded {
      assert StrandedAt(s, d, i) && StrandedAt(t, d, i);
    }
  }

  /** Where no worker dies by itself, that is: the worker was not between taking an entry off the queue
      and entering it as running when shutdown read the queue. */
  lemma UnseenIffPicked(s0: State, actions: seq<Action>, d: string)
    requires Init(s0) && Exec(s0, actions).Some? && NoPanics(actions)
    requires var s := Exec(s0, actions).value; d in s.queues && s.queues[d].join.NotYet?
    ensures var s := Exec(s0, actions).value;
            && (Unseen(s.queues[d], s.cells) == {} <==> !s.queues[d].worker.Picked?)
            && AcceptedBy(s.submits, d) !! s.hist.stranded
  {
    ExecStops(s0, actions);
    var s := Exec(s0, actions).value;
    var q := s.queues[d];
    assert Sound(ViewOf(s, d), QueueOf(s.queues, d));
    if q.worker.Picked? {
      assert q.worker.entry in Unseen(q, s.cells);
    } else {
      assert InHands(q.worker) == {};
    }
  }

  // ---------- shutdown's own steps come to an end ----------

  /** Steps shutdown still has to make for a device. */
  function Remaining(join: Join): nat {
    match join
    case NotYet => 0
    case Abandoned(todo) => 6 * |todo|
    case Abandoning(work, todo) =>
      6 * |todo| + match work.stage case ToJournal => 4 case Journaled(_) => 3 case ToAudit => 2 case Written => 1
  }

  /** What shutdown does next. */
  function NextTurn(join: Join): QueueAction
    requires !join.NotYet? && join != Abandoned([])
  {
    match join
    case Abandoned(_) => Abandons
    case Abandoning(work, _) =>
      match work.stage
      case ToJournal => Journals(TheJoin, Ok)
      case Journaled(_) => Removes(TheJoin)
      case ToAudit => Writes(TheJoin)
      case Written => Cleans(TheJoin)
  }

  /** Whatever the worker does, shutdown's next step is possible and brings it nearer to its end. */
  lemma ShutdownProceeds(s: State, d: string)
    requires Read(s, d) && s.queues[d].join != Abandoned([])
    ensures var a := ByQueue(d, NextTurn(s.queues[d].join));
            && Enabled(s, a) && Read(Apply(s, a), d)
            && Remaining(Apply(s, a).queues[d].join) < Remaining(s.queues[d].join)
  {
    JoinProceeds(s, d);
  }

  lemma JoinProceeds(s: State, d: string)
    requires Read(s, d) && s.queues[d].join != Abandoned([])
    ensures var q, a := s.queues[d], NextTurn(s.queues[d].join);
            && MayTurn(s, q, a) && !QueueStep(s, d, a).next.join.NotYet?
            && Remaining(QueueStep(s, d, a).next.join) < Remaining(q.join)
  {
    match s.queues[d].join
    case Abandoned(todo) => assert |todo[1..]| == |todo| - 1;
    case Abandoning(work, todo) =>
  }

  /** So a device's shutdown, once it has read the queue, can always be completed by its own steps. */
  lemma {:induction false} ShutdownCompletes(s: State, d: string) returns (actions: seq<Action>)
    requires Read(s, d)
    ensures Exec(s, actions).Some? && Read(Exec(s, actions).value, d)
    ensures Exec(s, actions).value.queues[d].join == Abandoned([])
    ensures |actions| <= Remaining(s.queues[d].join)
    ensures forall n :: 0 <= n < |actions| ==> actions[n].ByQueue? && actions[n].d == d
    decreases Remaining(s.queues[d].join)
  {
    if s.queues[d].join == Abandoned([]) {
      actions := [];
    } else {
      ShutdownProceeds(s, d);
      var a := ByQueue(d, NextTurn(s.queues[d].join));
      var rest := ShutdownCompletes(Apply(s, a), d);
      ExecThen(s, a, rest);
      actions := [a] + rest;
    }
  }
}
