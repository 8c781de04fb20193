/** Whose receipts exist, and that shutdown takes a queue over only from a worker that is gone or told
    to go. These hold in every run, whatever workers do. */
module EngineCells {
  import opened ControlTypes
  import opened Engine
  import opened EngineOnce

  /** A receipt exists only for submits that registered it and are past writing it. */
  ghost predicate CellShape(i: Sid, sub: Submit, cells: map<Sid, ControlResult>) {
    && (i in cells ==> sub.cell == i && (sub.pc.Uninterrupt? || sub.pc.Enqueued? || sub.pc.Returned?))
    && (sub.pc.Interrupt? || sub.pc.FinishSettle? || sub.pc.FinishRemove? || sub.pc.FinishWrite? ==> sub.cell == i)
  }

  ghost predicate CellsShaped(s: State) {
    && (forall i :: i in s.cells ==> i < |s.submits|)
    && (forall i :: 0 <= i < |s.submits| ==> CellShape(i, s.submits[i], s.cells))
  }

  /** Shutdown has taken the queue over only after the stop, from a worker that is gone or on its way. */
  predicate TakenOver(q: Queue, closed: bool) {
    q.join.NotYet? || (closed && (q.aborting || q.worker.Stopped? || q.worker.Absent?))
  }

  ghost predicate Shaped(s: State) {
    && CellsShaped(s)
    && forall d :: d in s.queues ==> TakenOver(s.queues[d], s.closed)
  }

  // ---------- steps of a submit ----------

  ghost predicate MoveShaped(i: Sid, sub: Submit, cells: map<Sid, ControlResult>, step: Step<Submit>) {
    && step.next.key == sub.key
    && (IsAccepted(i, step.next) <==> IsAccepted(i, sub))
    && !step.eff.Begin? && !step.eff.Over? && !step.eff.Strand?
    && (step.eff.Post? ==> step.eff.cell == i && !IsAccepted(i, sub))
    && (step.eff.Post? ==> i !in cells && (sub.pc.Interrupt? || sub.pc.FinishWrite?))
    && CellShape(i, step.next, CellsAfter(cells, step.eff))
  }

  lemma SubmitShaped(s: State, i: Sid, a: SubmitAction)
    requires i < |s.submits| && MayMove(s, s.submits[i], a)
    requires CellShape(i, s.submits[i], s.cells) && SubmitOk(i, s.submits[i], s.trace)
    ensures MoveShaped(i, s.submits[i], s.cells, SubmitStep(s, i, a))
  {
  }

  lemma MoveKeepsShape(s: State, i: Sid, step: Step<Submit>)
    requires Shaped(s) && i < |s.submits| && MoveShaped(i, s.submits[i], s.cells, step)
    ensures Shaped(Move(s, i, step))
  {
  }

  // ---------- steps of a queue ----------

  /** The entry a settlement is about was accepted by this queue. */
  lemma WorksOnAccepted(s: State, d: string, who: Who)
    requires QueuesOk(s) && d in s.queues && Works(s.queues[d], who)
    ensures WorkOf(s.queues[d], who).entry in AcceptedBy(s.submits, d)
  {
    assert QueueOk(AcceptedBy(s.submits, d), s.trace.started, s.queues[d]);
  }

  /** The entry a worker has picked or runs was accepted by its queue. */
  lemma HandsAccepted(s: State, d: string)
    requires QueuesOk(s) && d in s.queues && (s.queues[d].worker.Picked? || s.queues[d].worker.Executing?)
    ensures s.queues[d].worker.entry in AcceptedBy(s.submits, d)
  {
    assert QueueOk(AcceptedBy(s.submits, d), s.trace.started, s.queues[d]);
  }

  /** Which of a queue's steps begin a run, end one, strand an entry or write a receipt. */
  lemma TurnEffects(s: State, d: string, a: QueueAction)
    requires d in s.queues && MayTurn(s, s.queues[d], a)
    ensures var eff, w := QueueStep(s, d, a).eff, s.queues[d].worker;
            && (eff.Begin? ==> a.Starts? && w.Executing? && eff.e == w.entry && eff.d == d)
            && (eff.Strand? ==> (a.Takes? || a.Aborts?) && eff.lost == Unseen(s.queues[d], s.cells))
            && (eff.Post? ==> a.Writes? && eff.cell == Sub(s.submits, WorkOf(s.queues[d], a.who).entry).cell)
  {
  }

  lemma QueuePosts(s: State, d: string, a: QueueAction)
    requires QueuesOk(s) && d in s.queues && MayTurn(s, s.queues[d], a)
    ensures QueueStep(s, d, a).eff.Post? ==>
              && a.Writes? && QueueStep(s, d, a).eff.cell == WorkOf(s.queues[d], a.who).entry
              && QueueStep(s, d, a).eff.cell in AcceptedBy(s.submits, d)
  {
    TurnEffects(s, d, a);
    if a.Writes? {
      WorksOnAccepted(s, d, a.who);
    }
  }

  /** Of a queue's steps only those of a settlement touch what the submits share. */
  lemma QuietTurn(s: State, d: string, a: QueueAction)
    requires d in s.queues && MayTurn(s, s.queues[d], a) && !Settling(a)
    ensures var eff := QueueStep(s, d, a).eff;
            && !eff.Claim? && !eff.Put? && !eff.PutFails? && !eff.Ask? && !eff.Leave? && !eff.Skip? && !eff.Settle?
            && !eff.Post?
  {
  }

  lemma SettlingEffect(s: State, d: string, a: QueueAction)
    requires d in s.queues && MayTurn(s, s.queues[d], a) && Settling(a)
    ensures var eff, e := QueueStep(s, d, a).eff, WorkOf(s.queues[d], a.who).entry;
            var key := Sub(s.submits, e).key;
            && !eff.Claim? && !eff.Put? && !eff.PutFails? && !eff.Ask?
            && (eff.Leave? ==> a.Removes? && eff.key == key && eff.dropped == {})
            && (eff.Skip? ==> a.Journals? && eff.key == key && eff.author == e)
            && (eff.Settle? ==> a.Journals? && eff.key == key && eff.author == e)
  {
  }

  /** Where the settlement in hand comes from after a step that is not itself part of settling. */
  lemma FreshWork(s: State, d: string, a: QueueAction, who: Who)
    requires d in s.queues && MayTurn(s, s.queues[d], a) && !Settling(a)
    requires Works(QueueStep(s, d, a).next, who)
    ensures var work := WorkOf(QueueStep(s, d, a).next, who);
            work.stage.ToJournal? || (Works(s.queues[d], who) && work == WorkOf(s.queues[d], who))
  {
  }

  /** The worker neither journals nor publishes once shutdown has read its queue. */
  lemma WorkerSilent(s: State, d: string, a: QueueAction)
    requires d in s.queues && MayTurn(s, s.queues[d], a) && TakenOver(s.queues[d], s.closed)
    requires (a.Journals? || a.Writes?) && a.who.TheWorker?
    ensures s.queues[d].join.NotYet?
  {
  }

  lemma TurnTakenOver(s: State, d: string, a: QueueAction)
    requires d in s.queues && MayTurn(s, s.queues[d], a) && TakenOver(s.queues[d], s.closed)
    ensures TakenOver(QueueStep(s, d, a).next, s.closed)
  {
  }

  lemma TurnKeepsShape(s: State, d: string, a: QueueAction)
    requires Shaped(s) && QueuesOk(s) && d in s.queues && MayTurn(s, s.queues[d], a)
    ensures Shaped(Turn(s, d, QueueStep(s, d, a)))
  {
    QueuePosts(s, d, a);
    TurnTakenOver(s, d, a);
  }

  // ---------- only `Enqueues` brings an entry into a queue ----------

  lemma LeftoversList(running: Option<Sid>, queued: seq<Sid>, i: Sid)
    ensures Listed(Leftovers(running, queued), i) <==> running == Some(i) || i in queued
  {
    var list := Leftovers(running, queued);
    if running == Some(i) {
      assert list[0].0 == i;
    } else if i in queued {
      var n :| 0 <= n < |queued| && queued[n] == i;
      assert list[|list| - |queued| + n].0 == i;
    }
  }

  lemma ListedRest(list: seq<Leftover>, i: Sid)
    requires list != []
    ensures Listed(list, i) <==> list[0].0 == i || Listed(list[1..], i)
  {
    if n :| 0 <= n < |list| && list[n].0 == i {
      assert n > 0 ==> list[1..][n - 1].0 == i;
    }
    if n :| 0 <= n < |list[1..]| && list[1..][n].0 == i {
      assert list[n + 1].0 == i;
    }
  }

  lemma SettlingHolds(s: State, d: string, a: QueueAction, i: Sid)
    requires d in s.queues && MayTurn(s, s.queues[d], a) && Settling(a)
    requires Held(QueueStep(s, d, a).next, i)
    ensures Held(s.queues[d], i)
  {
    var q := s.queues[d];
    if a.Cleans? {
      SweptWithin(q.draining, s.cells);
    }
  }

  lemma AdoptHolds(q: Queue, submits: seq<Submit>, cells: map<Sid, ControlResult>, now: int, i: Sid)
    requires q.worker.Adopt? && Held(AdoptStep(q, submits, cells, now).next, i)
    ensures Held(q, i)
  {
    if q.worker.orphans != [] {
      ListedRest(q.worker.orphans, i);
    }
  }

  lemma RegroupingHolds(s: State, d: string, a: QueueAction, i: Sid)
    requires d in s.queues && MayTurn(s, s.queues[d], a) && Regrouping(a)
    requires Held(QueueStep(s, d, a).next, i)
    ensures Held(s.queues[d], i)
  {
    var q := s.queues[d];
    match a
    case Boots => LeftoversList(q.running, q.draining, i);
    case Adopts => AdoptHolds(q, s.submits, s.cells, s.clock, i);
    case Tops(order) =>
    case Takes(order) => LeftoversList(q.running, order + q.draining, i);
    case Abandons => ListedRest(q.join.todo, i);
  }

  lemma TurnHolds(s: State, d: string, a: QueueAction, i: Sid)
    requires d in s.queues && MayTurn(s, s.queues[d], a)
    requires Held(QueueStep(s, d, a).next, i)
    ensures Held(s.queues[d], i)
  {
    if Settling(a) {
      SettlingHolds(s, d, a, i);
    } else if Regrouping(a) {
      RegroupingHolds(s, d, a, i);
    }
  }

  // ---------- whole runs ----------

  lemma EnqueueShaped(s: State, i: Sid)
    requires Shaped(s) && Once(s) && Enabled(s, Enqueues(i))
    ensures Shaped(Enqueueing(s, i))
  {
    assert SubmitOk(i, s.submits[i], s.trace) && CellShape(i, s.submits[i], s.cells);
  }

  lemma PanicShaped(s: State, d: string)
    requires Shaped(s) && d in s.queues
    ensures Shaped(Turn(s, d, DeathStep(s.queues[d], d, s.cells)))
  {
  }

  lemma GlobalShaped(s: State, a: Action)
    requires Shaped(s) && Enabled(s, a) && !a.BySubmit? && !a.ByQueue? && !a.Enqueues? && !a.Panics?
    ensures Shaped(Apply(s, a))
  {
  }

  lemma StepShaped(s: State, a: Action)
    requires Shaped(s) && Once(s) && Enabled(s, a)
    ensures Shaped(Apply(s, a))
  {
    if a.BySubmit? {
      SubmitShaped(s, a.i, a.move);
      MoveKeepsShape(s, a.i, SubmitStep(s, a.i, a.move));
    } else if a.ByQueue? {
      TurnKeepsShape(s, a.d, a.turn);
    } else if a.Enqueues? {
      EnqueueShaped(s, a.i);
    } else if a.Panics? {
      PanicShaped(s, a.d);
    } else {
      GlobalShaped(s, a);
    }
  }

  lemma {:induction false} ExecShaped(s0: State, actions: seq<Action>)
    requires Init(s0) && Exec(s0, actions).Some?
    ensures Shaped(Exec(s0, actions).value)
  {
    if actions != [] {
      ExecShaped(s0, actions[..|actions| - 1]);
      ExecOnce(s0, actions[..|actions| - 1]);
      StepShaped(Exec(s0, actions[..|actions| - 1]).value, actions[|actions| - 1]);
    }
  }
}
