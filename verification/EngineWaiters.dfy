/** Who will write the receipt somebody waits for. */
module EngineWaiters {
  import opened ControlTypes
  import opened Engine
  import opened EngineOnce
  import opened EngineCells
  import opened EnginePlaces
  import J = Journal

  // ---------- receipts and the submits that registered them ----------

  /** Submit `c` created the receipt `c` for `key`, in this process. */
  ghost predicate Registered(submits: seq<Submit>, c: Sid, key: Key) {
    && c < |submits|
    && submits[c].cell == c && submits[c].key == key
    && !submits[c].pc.Register? && !submits[c].pc.Gone?
  }

  ghost predicate PointsOk(s: State) {
    && (forall i :: 0 <= i < |s.submits| && !s.submits[i].pc.Register? && !s.submits[i].pc.Gone? ==>
          Registered(s.submits, s.submits[i].cell, s.submits[i].key))
    && (forall k :: k in s.active ==> Registered(s.submits, s.active[k], k))
  }

  /** An owner that returned a finished answer wrote its receipt, unless it dropped it. */
  ghost predicate DropShape(i: Sid, sub: Submit, cells: map<Sid, ControlResult>, dropped: set<Sid>) {
    && (i in dropped ==>
          i !in cells && (sub.pc.Gone? || (sub.cell == i && sub.pc.Returned? && !sub.pc.reply.Waits?)))
    && (sub.pc.Uninterrupt? ==> i in cells)
    && (sub.cell == i && sub.pc.Returned? && !sub.pc.reply.Waits? ==> i in cells || i in dropped)
    && (sub.pc.Orphan? ==> sub.cell != i)
  }

  ghost predicate DropsOk(s: State) {
    && (forall i :: i in s.hist.dropped ==> i < |s.submits|)
    && (forall i :: 0 <= i < |s.submits| ==> DropShape(i, s.submits[i], s.cells, s.hist.dropped))
  }

  ghost predicate Waiting(s: State) {
    PointsOk(s) && DropsOk(s)
  }

  // ---------- preservation ----------

  lemma SubmitPoints(s: State, i: Sid, a: SubmitAction)
    requires i < |s.submits| && MayMove(s, s.submits[i], a)
    ensures var step := SubmitStep(s, i, a);
            && step.next.key == s.submits[i].key
            && !step.next.pc.Register? && !step.next.pc.Gone?
            && (!a.Registers? ==> step.next.cell == s.submits[i].cell && !step.eff.Claim?)
            && (a.Registers? ==> step == RegisterStep(s.submits[i], i, s.active))
  {
  }

  lemma StillRegistered(s: State, t: State, i: Sid, c: Sid, key: Key)
    requires i < |s.submits| == |t.submits| && t.submits == s.submits[i := t.submits[i]]
    requires t.submits[i].key == s.submits[i].key && !t.submits[i].pc.Register? && !t.submits[i].pc.Gone?
    requires !s.submits[i].pc.Register? ==> t.submits[i].cell == s.submits[i].cell
    requires Registered(s.submits, c, key)
    ensures Registered(t.submits, c, key)
  {
  }

  lemma MovePoints(s: State, i: Sid, a: SubmitAction)
    requires PointsOk(s) && i < |s.submits| && MayMove(s, s.submits[i], a)
    ensures PointsOk(Move(s, i, SubmitStep(s, i, a)))
  {
    SubmitPoints(s, i, a);
    var t := Move(s, i, SubmitStep(s, i, a));
    forall c, key | Registered(s.submits, c, key) ensures Registered(t.submits, c, key) {
      StillRegistered(s, t, i, c, key);
    }
  }

  lemma DroppedAfter(h: History, eff: Effect, closed: bool)
    ensures HistoryAfter(h, eff, closed).dropped == if eff.Leave? then h.dropped + eff.dropped else h.dropped
  {
  }

  ghost predicate MoveDrops(i: Sid, cells: map<Sid, ControlResult>, dropped: set<Sid>, step: Step<Submit>) {
    && (step.eff.Leave? ==> step.eff.dropped <= {i})
    && DropShape(i, step.next, CellsAfter(cells, step.eff),
                 if step.eff.Leave? then dropped + step.eff.dropped else dropped)
    && (step.eff.Post? ==> step.eff.cell == i)
  }

  lemma SubmitDrops(s: State, i: Sid, a: SubmitAction)
    requires i < |s.submits| && MayMove(s, s.submits[i], a)
    requires CellShape(i, s.submits[i], s.cells) && DropShape(i, s.submits[i], s.cells, s.hist.dropped)
    ensures MoveDrops(i, s.cells, s.hist.dropped, SubmitStep(s, i, a))
  {
  }

  lemma MoveWaits(s: State, i: Sid, a: SubmitAction)
    requires Waiting(s) && CellsShaped(s) && i < |s.submits| && MayMove(s, s.submits[i], a)
    ensures Waiting(Move(s, i, SubmitStep(s, i, a)))
  {
    MovePoints(s, i, a);
    SubmitDrops(s, i, a);
    var step := SubmitStep(s, i, a);
    DroppedAfter(s.hist, step.eff, s.closed);
    var t := Move(s, i, step);
    forall j | 0 <= j < |t.submits| ensures DropShape(j, t.submits[j], t.cells, t.hist.dropped) {
      assert DropShape(j, s.submits[j], s.cells, s.hist.dropped);
    }
  }

  lemma QueueEffects(s: State, d: string, a: QueueAction)
    requires d in s.queues && MayTurn(s, s.queues[d], a)
    ensures !QueueStep(s, d, a).eff.Claim?
    ensures QueueStep(s, d, a).eff.Leave? ==> QueueStep(s, d, a).eff.dropped == {}
  {
  }

  lemma DropKept(j: Sid, sub: Submit, cells: map<Sid, ControlResult>, dropped: set<Sid>, eff: Effect)
    requires DropShape(j, sub, cells, dropped) && (eff.Post? && eff.cell == j ==> IsAccepted(j, sub))
    ensures DropShape(j, sub, CellsAfter(cells, eff), dropped)
  {
  }

  lemma TurnWaits(s: State, d: string, a: QueueAction)
    requires Waiting(s) && QueuesOk(s) && d in s.queues && MayTurn(s, s.queues[d], a)
    ensures Waiting(Turn(s, d, QueueStep(s, d, a)))
  {
    var step := QueueStep(s, d, a);
    var t := Turn(s, d, step);
    QueueEffects(s, d, a);
    DroppedAfter(s.hist, step.eff, s.closed);
    QueuePosts(s, d, a);
    forall j | 0 <= j < |t.submits| ensures DropShape(j, t.submits[j], t.cells, t.hist.dropped) {
      DropKept(j, s.submits[j], s.cells, s.hist.dropped, step.eff);
    }
  }

  lemma EnqueueWaits(s: State, i: Sid)
    requires Waiting(s) && i < |s.submits| && s.submits[i].pc.Enqueue?
    ensures Waiting(Enqueueing(s, i))
  {
  }

  lemma GlobalWaits(s: State, a: Action)
    requires Waiting(s) && CellsShaped(s) && Enabled(s, a)
    requires a.Tick? || a.Arrives? || a.Cancels? || a.Stops? || a.Purges? || a.Crashes?
    ensures Waiting(Apply(s, a))
  {
    var t := Apply(s, a);
    if a.Arrives? {
      assert |s.submits| !in s.hist.dropped;
      forall c, key | Registered(s.submits, c, key) ensures Registered(t.submits, c, key) {
      }
    }
    forall j | 0 <= j < |t.submits| ensures DropShape(j, t.submits[j], t.cells, t.hist.dropped) {
      if j < |s.submits| {
        assert DropShape(j, s.submits[j], s.cells, s.hist.dropped);
      }
    }
  }

  lemma StepWaits(s: State, a: Action)
    requires Waiting(s) && Once(s) && CellsShaped(s) && Enabled(s, a)
    ensures Waiting(Apply(s, a))
  {
    match a
    case BySubmit(i, move) => MoveWaits(s, i, move);
    case Enqueues(i) => EnqueueWaits(s, i);
    case ByQueue(d, turn) => TurnWaits(s, d, turn);
    case Panics(d) => DroppedAfter(s.hist, DeathStep(s.queues[d], d, s.cells).eff, s.closed);
    case _ => GlobalWaits(s, a);
  }

  lemma {:induction false} ExecWaits(s0: State, actions: seq<Action>)
    requires Init(s0) && Exec(s0, actions).Some?
    ensures Waiting(Exec(s0, actions).value)
  {
    if actions != [] {
      ExecWaits(s0, actions[..|actions| - 1]);
      ExecOnce(s0, actions[..|actions| - 1]);
      ExecShaped(s0, actions[..|actions| - 1]);
      StepWaits(Exec(s0, actions[..|actions| - 1]).value, actions[|actions| - 1]);
    }
  }

  // ---------- theorems ----------

  /** Receipt `c` has been written, or the submit that will write it has not handed its entry over, or
      the entry will be found by who is to settle it. */
  ghost predicate Answerable(s: State, c: Sid)
    requires c < |s.submits|
  {
    || c in s.cells
    || !(s.submits[c].pc.Returned? || s.submits[c].pc.Enqueued?)
    || Findable(QueueOf(s.queues, s.submits[c].key.device), c)
  }

  lemma HeldAccepted(acc: set<Sid>, started: set<Sid>, q: Queue, c: Sid)
    requires QueueOk(acc, started, q) && Held(q, c)
    ensures c in acc
  {
  }

  /** The exact condition: what a receipt waits for is answered, or going to be, if and only if
      the submit that registered it did not leave through one of the two branches that drop it and
      its entry was not lost with a worker that alone knew of it. Workers may die anywhere. */
  lemma WaiterAnsweredIff(s0: State, actions: seq<Action>, j: Sid)
    requires Init(s0) && Exec(s0, actions).Some?
    requires var s := Exec(s0, actions).value;
             j < |s.submits| && s.submits[j].pc.Returned? && s.submits[j].pc.reply.Waits?
    ensures var s := Exec(s0, actions).value;
            var c := s.submits[j].pc.reply.cell;
            c < |s.submits| && (Answerable(s, c) <==> c !in s.hist.dropped && c !in s.hist.stranded)
  {
    ExecWaits(s0, actions);
    ExecPlaced(s0, actions);
    ExecOnce(s0, actions);
    ExecShaped(s0, actions);
    var s := Exec(s0, actions).value;
    var c := s.submits[j].pc.reply.cell;
    assert SubmitOk(j, s.submits[j], s.trace);
    assert Registered(s.submits, c, s.submits[j].key);
    RegisteredAnswerable(s, c);
  }

  lemma RegisteredAnswerable(s: State, c: Sid)
    requires Waiting(s) && Once(s) && Shaped(s) && Places(s) && c < |s.submits| && s.submits[c].cell == c
    requires !s.submits[c].pc.Register? && !s.submits[c].pc.Gone?
    ensures Answerable(s, c) <==> c !in s.hist.dropped && c !in s.hist.stranded
  {
    var d := s.submits[c].key.device;
    assert DropShape(c, s.submits[c], s.cells, s.hist.dropped) && SubmitOk(c, s.submits[c], s.trace);
    assert CellShape(c, s.submits[c], s.cells);
    assert DevicePlaced(s, d);
    if IsAccepted(c, s.submits[c]) {
      assert c in AcceptedBy(s.submits, d);
    } else {
      assert c !in AcceptedBy(s.submits, d) && c !in s.hist.stranded;
      if Held(QueueOf(s.queues, d), c) {
        HeldAccepted(AcceptedBy(s.submits, d), s.trace.started, QueueOf(s.queues, d), c);
      }
    }
  }

  ghost function GivenUp(h: History): set<Sid> {
    h.dropped + h.stranded
  }

  lemma GivenUpGrows(s: State, a: Action)
    requires Enabled(s, a)
    ensures GivenUp(s.hist) <= GivenUp(Apply(s, a).hist)
  {
    match a
    case BySubmit(i, move) => EffectGivesUp(s.hist, SubmitStep(s, i, move).eff, s.closed);
    case ByQueue(d, turn) => EffectGivesUp(s.hist, QueueStep(s, d, turn).eff, s.closed);
    case Panics(d) => EffectGivesUp(s.hist, DeathStep(s.queues[d], d, s.cells).eff, s.closed);
    case _ =>
  }

  lemma EffectGivesUp(h: History, eff: Effect, closed: bool)
    ensures GivenUp(h) <= GivenUp(HistoryAfter(h, eff, closed))
  {
  }

  lemma {:induction false} GivenUpStays(s0: State, actions: seq<Action>, more: seq<Action>)
    requires Exec(s0, actions + more).Some?
    ensures Exec(s0, actions).Some?
    ensures GivenUp(Exec(s0, actions).value.hist) <= GivenUp(Exec(s0, actions + more).value.hist)
    decreases |more|
  {
    if more == [] {
      assert actions + more == actions;
    } else {
      var init := more[..|more| - 1];
      assert (actions + more)[..|actions + more| - 1] == actions + init;
      GivenUpStays(s0, actions, init);
      GivenUpGrows(Exec(s0, actions + init).value, more[|more| - 1]);
    }
  }

  lemma GivenUpUnwritten(s: State, c: Sid)
    requires Waiting(s) && Shaped(s) && Places(s) && c in GivenUp(s.hist)
    ensures c !in s.cells
  {
    if c in s.hist.dropped {
      assert DropShape(c, s.submits[c], s.cells, s.hist.dropped);
    } else {
      assert CellShape(c, s.submits[c], s.cells);
      assert DevicePlaced(s, s.submits[c].key.device);
    }
  }

  /** A receipt given up in one of these ways stays unwritten however the run goes on. */
  lemma GivenUpNeverWritten(s0: State, actions: seq<Action>, more: seq<Action>, c: Sid)
    requires Init(s0) && Exec(s0, actions + more).Some?
    requires Exec(s0, actions).Some? && c in GivenUp(Exec(s0, actions).value.hist)
    ensures c !in Exec(s0, actions + more).value.cells
  {
    GivenUpStays(s0, actions, more);
    ExecWaits(s0, actions + more);
    ExecPlaced(s0, actions + more);
    ExecShaped(s0, actions + more);
    GivenUpUnwritten(Exec(s0, actions + more).value, c);
  }
}
