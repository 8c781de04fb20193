/** The registry of active requests does not leak: a key leaves it before its request's receipt can be read
    and its submit has returned, so that a later request under the key starts afresh. */
module EngineRegistry {
  import opened ControlTypes
  import opened Engine
  import opened EngineOnce
  import opened EngineCells

  /** Where a submit stands while it is its key's active entry. */
  ghost predicate MayHold(i: Sid, sub: Submit, cells: map<Sid, ControlResult>) {
    sub.cell == i &&
    match sub.pc
    case Register => false
    case Orphan => false
    case FinishWrite(_, _) => false
    case Gone => false
    case Returned(reply) => reply == Waits(i) && i !in cells
    case _ => true
  }

  ghost predicate Leaves(i: Sid, sub: Submit, active: map<Key, Sid>, cells: map<Sid, ControlResult>) {
    Holds(active, sub.key, i) ==> MayHold(i, sub, cells)
  }

  /** Whoever is about to publish a result has taken the key off the registry. */
  predicate WorkLeft(submits: seq<Submit>, active: map<Key, Sid>, work: Work) {
    work.stage.ToAudit? || work.stage.Written? ==> !Holds(active, Sub(submits, work.entry).key, work.entry)
  }

  predicate QueueLeft(submits: seq<Submit>, active: map<Key, Sid>, q: Queue) {
    && (Works(q, TheWorker) ==> WorkLeft(submits, active, WorkOf(q, TheWorker)))
    && (Works(q, TheJoin) ==> WorkLeft(submits, active, WorkOf(q, TheJoin)))
  }

  ghost predicate Tidy(s: State) {
    && (forall i :: 0 <= i < |s.submits| ==> Leaves(i, s.submits[i], s.active, s.cells))
    && (forall d :: d in s.queues ==> QueueLeft(s.submits, s.active, s.queues[d]))
    && forall k :: k in s.active ==> s.active[k] < |s.submits| && s.submits[s.active[k]].key == k
  }

  // ---------- steps of a submit ----------

  ghost predicate MoveTidy(i: Sid, sub: Submit, s: State, step: Step<Submit>) {
    && Leaves(i, step.next, ActiveAfter(s.active, step.eff), CellsAfter(s.cells, step.eff))
    && step.next.key == sub.key
    && (step.eff.Claim? ==> step.eff.i == i && step.eff.key == sub.key && sub.pc.Register?)
    && (step.eff.Post? ==> step.eff.cell == i)
  }

  lemma SubmitTidy(s: State, i: Sid, a: SubmitAction)
    requires i < |s.submits| && MayMove(s, s.submits[i], a)
    requires SubmitOk(i, s.submits[i], s.trace) && CellShape(i, s.submits[i], s.cells)
    requires Leaves(i, s.submits[i], s.active, s.cells)
    ensures MoveTidy(i, s.submits[i], s, SubmitStep(s, i, a))
  {
  }

  /** A claim is made by a submit nobody works for yet. */
  lemma ClaimLeft(s: State, i: Sid, step: Step<Submit>, d: string)
    requires QueuesOk(s) && i < |s.submits| && d in s.queues && QueueLeft(s.submits, s.active, s.queues[d])
    requires MoveTidy(i, s.submits[i], s, step)
    ensures QueueLeft(s.submits[i := step.next], ActiveAfter(s.active, step.eff), s.queues[d])
  {
    if Works(s.queues[d], TheWorker) {
      WorksOnAccepted(s, d, TheWorker);
    }
    if Works(s.queues[d], TheJoin) {
      WorksOnAccepted(s, d, TheJoin);
    }
  }

  lemma MoveKeepsTidy(s: State, i: Sid, step: Step<Submit>)
    requires Tidy(s) && QueuesOk(s) && i < |s.submits| && MoveTidy(i, s.submits[i], s, step)
    ensures Tidy(Move(s, i, step))
  {
    var t := Move(s, i, step);
    forall d | d in t.queues ensures QueueLeft(t.submits, t.active, t.queues[d]) {
      ClaimLeft(s, i, step, d);
    }
    forall j | 0 <= j < |t.submits| ensures Leaves(j, t.submits[j], t.active, t.cells) {
      assert Leaves(j, s.submits[j], s.active, s.cells);
    }
  }

  // ---------- steps of a queue ----------

  ghost predicate TurnTidy(s: State, step: Step<Queue>) {
    && QueueLeft(s.submits, ActiveAfter(s.active, step.eff), step.next)
    && !step.eff.Claim?
    && (step.eff.Post? ==> step.eff.cell < |s.submits| && !Holds(s.active, s.submits[step.eff.cell].key, step.eff.cell))
  }

  lemma SettlingTidy(s: State, d: string, a: QueueAction)
    requires QueuesOk(s) && d in s.queues && MayTurn(s, s.queues[d], a) && Settling(a)
    requires QueueLeft(s.submits, s.active, s.queues[d])
    ensures TurnTidy(s, QueueStep(s, d, a))
  {
    SettlingEffect(s, d, a);
    QueuePosts(s, d, a);
  }

  lemma PlainTidy(s: State, d: string, a: QueueAction)
    requires d in s.queues && MayTurn(s, s.queues[d], a) && !Settling(a) && QueueLeft(s.submits, s.active, s.queues[d])
    ensures TurnTidy(s, QueueStep(s, d, a))
  {
    QuietTurn(s, d, a);
  }

  lemma TurnKeepsTidy(s: State, d: string, step: Step<Queue>)
    requires Tidy(s) && d in s.queues && TurnTidy(s, step)
    ensures Tidy(Turn(s, d, step))
  {
    var t := Turn(s, d, step);
    forall e | e in t.queues && e != d ensures QueueLeft(t.submits, t.active, t.queues[e]) {
      assert QueueLeft(s.submits, s.active, s.queues[e]);
    }
    forall j | 0 <= j < |t.submits| ensures Leaves(j, t.submits[j], t.active, t.cells) {
      assert Leaves(j, s.submits[j], s.active, s.cells);
    }
  }

  // ---------- whole runs ----------

  lemma EnqueueTidy(s: State, i: Sid)
    requires Tidy(s) && QueuesOk(s) && Enabled(s, Enqueues(i))
    ensures Tidy(Enqueueing(s, i))
  {
    var t := Enqueueing(s, i);
    forall d | d in s.queues ensures QueueLeft(t.submits, s.active, s.queues[d]) {
      ClaimLeft(s, i, Step(s.submits[i].(pc := Enqueued), Nothing), d);
    }
    forall j | 0 <= j < |t.submits| ensures Leaves(j, t.submits[j], t.active, t.cells) {
      assert Leaves(j, s.submits[j], s.active, s.cells);
    }
  }

  lemma PanicTidy(s: State, d: string)
    requires Tidy(s) && d in s.queues
    ensures Tidy(Turn(s, d, DeathStep(s.queues[d], d, s.cells)))
  {
    TurnKeepsTidy(s, d, DeathStep(s.queues[d], d, s.cells));
  }

  lemma GlobalTidy(s: State, a: Action)
    requires Tidy(s) && QueuesOk(s) && Enabled(s, a) && !a.BySubmit? && !a.ByQueue? && !a.Enqueues? && !a.Panics?
    ensures Tidy(Apply(s, a))
  {
    if a.Arrives? {
      forall d | d in s.queues ensures QueueLeft(Apply(s, a).submits, s.active, s.queues[d]) {
        ArriveLeft(s, Apply(s, a).submits, d);
      }
    }
  }

  lemma ArriveLeft(s: State, submits: seq<Submit>, d: string)
    requires QueuesOk(s) && d in s.queues && QueueLeft(s.submits, s.active, s.queues[d]) && s.submits <= submits
    ensures QueueLeft(submits, s.active, s.queues[d])
  {
    if Works(s.queues[d], TheWorker) {
      WorksOnAccepted(s, d, TheWorker);
    }
    if Works(s.queues[d], TheJoin) {
      WorksOnAccepted(s, d, TheJoin);
    }
  }

  lemma StepTidy(s: State, a: Action)
    requires Tidy(s) && Once(s) && CellsShaped(s) && Enabled(s, a)
    ensures Tidy(Apply(s, a))
  {
    if a.BySubmit? {
      SubmitTidy(s, a.i, a.move);
      MoveKeepsTidy(s, a.i, SubmitStep(s, a.i, a.move));
    } else if a.ByQueue? {
      if Settling(a.turn) {
        SettlingTidy(s, a.d, a.turn);
      } else {
        PlainTidy(s, a.d, a.turn);
      }
      TurnKeepsTidy(s, a.d, QueueStep(s, a.d, a.turn));
    } else if a.Enqueues? {
      EnqueueTidy(s, a.i);
    } else if a.Panics? {
      PanicTidy(s, a.d);
    } else {
      GlobalTidy(s, a);
    }
  }

  lemma {:induction false} ExecTidy(s0: State, actions: seq<Action>)
    requires Init(s0) && Exec(s0, actions).Some?
    ensures Tidy(Exec(s0, actions).value)
  {
    if actions != [] {
      var before := actions[..|actions| - 1];
      ExecTidy(s0, before);
      ExecOnce(s0, before);
      ExecShaped(s0, before);
      StepTidy(Exec(s0, before).value, actions[|actions| - 1]);
    }
  }

  /** In every run, the active entry of a key is a request of that key by a submit that registered it and
      either is still at work or has handed it to a queue where it is unsettled: once its receipt is written
      and its submit has returned, the key is free. */
  lemma RegistryHasOnlyLive(s0: State, actions: seq<Action>, k: Key)
    requires Init(s0) && Exec(s0, actions).Some? && k in Exec(s0, actions).value.active
    ensures var s := Exec(s0, actions).value;
            var i := s.active[k];
            && i < |s.submits| && s.submits[i].key == k && s.submits[i].cell == i
            && (s.submits[i].pc.Returned? ==> s.submits[i].pc.reply == Waits(i) && i !in s.cells)
            && !s.submits[i].pc.Gone?
  {
    ExecTidy(s0, actions);
    var s := Exec(s0, actions).value;
    assert Leaves(s.active[k], s.submits[s.active[k]], s.active, s.cells);
  }
}
