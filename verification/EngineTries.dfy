/** Who has tried to settle a record before, in every run. A submit settles by itself only once. A worker is
    the first to settle its entries, unless it adopts those of a worker that died. */
module EngineTries {
  import opened ControlTypes
  import opened Engine
  import opened EngineOnce
  import opened EngineCells
  import opened EnginePlaces
  import opened EngineMatch
  import J = Journal

  // ---------- tries of a submit, in every run ----------

  ghost predicate MarksOk(m: Marks, submits: nat) {
    && (forall i :: i in m.tried ==> i < submits)
    && m.failed <= m.tried && m.gaveUp <= m.tried
    && (forall k :: k in m.last ==> m.last[k].author in m.tried)
  }

  /** If the try of `e` missed the record, no try of `e` has reached it, and it was not given up. */
  ghost predicate FirstTry(m: Marks, e: Sid) {
    e !in m.gaveUp && (e in m.failed ==> forall k :: k in m.last ==> m.last[k].author != e)
  }

  /** The submit has not come to settling yet, or settled by itself. */
  ghost predicate SubmitTries(i: Sid, sub: Submit, m: Marks) {
    && (!(sub.pc.FinishRemove? || sub.pc.FinishWrite? || sub.pc.Enqueued? || sub.pc.Returned? || sub.pc.Gone?) ==>
          i !in m.tried)
    && (sub.pc.FinishRemove? || sub.pc.FinishWrite? ==> FirstTry(m, i))
  }

  ghost predicate Tries(s: State) {
    MarksOk(s.marks, |s.submits|) && forall i :: 0 <= i < |s.submits| ==> SubmitTries(i, s.submits[i], s.marks)
  }

  lemma MarksStayOk(m: Marks, eff: Effect, journal: map<Key, J.Entry>, n: nat)
    requires MarksOk(m, n) && (eff.Settle? || eff.Skip? ==> eff.author < n)
    ensures MarksOk(MarksAfter(m, eff, journal), n)
  {
  }

  lemma OtherTries(j: Sid, sub: Submit, m: Marks, eff: Effect, journal: map<Key, J.Entry>)
    requires SubmitTries(j, sub, m) && Spares(eff, j)
    ensures SubmitTries(j, sub, MarksAfter(m, eff, journal))
  {
  }

  lemma OwnTries(s: State, i: Sid, a: SubmitAction)
    requires MarksOk(s.marks, |s.submits|) && i < |s.submits| && MayMove(s, s.submits[i], a)
    requires SubmitTries(i, s.submits[i], s.marks)
    ensures var step := SubmitStep(s, i, a);
            && SubmitTries(i, step.next, MarksAfter(s.marks, step.eff, s.journal))
            && (step.eff.Settle? || step.eff.Skip? ==> step.eff.author == i)
            && (step.eff.Put? ==> step.eff.i == i)
  {
  }

  lemma MoveTries(s: State, i: Sid, a: SubmitAction)
    requires Tries(s) && i < |s.submits| && MayMove(s, s.submits[i], a)
    ensures Tries(Move(s, i, SubmitStep(s, i, a)))
  {
    var step := SubmitStep(s, i, a);
    var t := Move(s, i, step);
    OwnTries(s, i, a);
    MarksStayOk(s.marks, step.eff, s.journal, |s.submits|);
    forall j | 0 <= j < |t.submits| ensures SubmitTries(j, t.submits[j], t.marks) {
      if j != i {
        OtherTries(j, s.submits[j], s.marks, step.eff, s.journal);
      }
    }
  }

  /** Who tries in a queue's step. */
  lemma TurnAuthor(s: State, d: string, a: QueueAction)
    requires QueuesOk(s) && d in s.queues && MayTurn(s, s.queues[d], a)
    ensures var eff := QueueStep(s, d, a).eff;
            && !eff.Put?
            && (eff.Settle? || eff.Skip? ==>
                  && a.Journals? && eff.author == WorkOf(s.queues[d], a.who).entry
                  && eff.author in AcceptedBy(s.submits, d))
  {
    if Settling(a) {
      SettlingEffect(s, d, a);
      WorksOnAccepted(s, d, a.who);
    } else {
      QuietTurn(s, d, a);
    }
  }

  lemma TurnTries(s: State, d: string, a: QueueAction)
    requires Tries(s) && QueuesOk(s) && d in s.queues && MayTurn(s, s.queues[d], a)
    ensures Tries(Turn(s, d, QueueStep(s, d, a)))
  {
    var step := QueueStep(s, d, a);
    var t := Turn(s, d, step);
    TurnAuthor(s, d, a);
    MarksStayOk(s.marks, step.eff, s.journal, |s.submits|);
    forall j | 0 <= j < |t.submits| ensures SubmitTries(j, t.submits[j], t.marks) {
      if !IsAccepted(j, s.submits[j]) {
        OtherTries(j, s.submits[j], s.marks, step.eff, s.journal);
      }
    }
  }

  lemma EnqueueTries(s: State, i: Sid)
    requires Tries(s) && i < |s.submits|
    ensures Tries(Enqueueing(s, i))
  {
  }

  /** Nobody tries, and records at most disappear. */
  lemma ShrinkTries(s: State, t: State)
    requires Tries(s) && |s.submits| <= |t.submits| && t.submits[..|s.submits|] == s.submits
    requires t.marks.tried == s.marks.tried && t.marks.failed == s.marks.failed && t.marks.gaveUp == s.marks.gaveUp
    requires forall k :: k in t.marks.last ==> k in s.marks.last && t.marks.last[k] == s.marks.last[k]
    ensures Tries(t)
  {
    forall j | 0 <= j < |t.submits| ensures SubmitTries(j, t.submits[j], t.marks) {
      if j < |s.submits| {
        assert t.submits[j] == t.submits[..|s.submits|][j] == s.submits[j];
        assert SubmitTries(j, s.submits[j], s.marks);
      }
    }
  }

  lemma SameTries(s: State, t: State)
    requires Tries(s) && t.submits == s.submits && t.marks == s.marks
    ensures Tries(t)
  {
  }

  lemma PanicTries(s: State, d: string)
    requires Tries(s) && d in s.queues
    ensures Tries(Turn(s, d, DeathStep(s.queues[d], d, s.cells)))
  {
  }

  lemma CrashTries(s: State)
    ensures Tries(Crashed(s))
  {
  }

  lemma StepTries(s: State, a: Action)
    requires Tries(s) && Once(s) && Enabled(s, a)
    ensures Tries(Apply(s, a))
  {
    match a
    case BySubmit(i, move) => MoveTries(s, i, move);
    case Enqueues(i) => EnqueueTries(s, i);
    case ByQueue(d, turn) => TurnTries(s, d, turn);
    case Crashes => CrashTries(s);
    case Panics(d) => PanicTries(s, d);
    case Purges(_) => ShrinkTries(s, Apply(s, a));
    case Arrives(_, _, _) => ShrinkTries(s, Apply(s, a));
    case Tick(_) => SameTries(s, Apply(s, a));
    case Cancels(_, _) => SameTries(s, Apply(s, a));
    case Stops => SameTries(s, Apply(s, a));
  }

  lemma {:induction false} ExecTries(s0: State, actions: seq<Action>)
    requires Init(s0) && Exec(s0, actions).Some?
    ensures Tries(Exec(s0, actions).value)
  {
    if actions != [] {
      ExecTries(s0, actions[..|actions| - 1]);
      ExecOnce(s0, actions[..|actions| - 1]);
      StepTries(Exec(s0, actions[..|actions| - 1]).value, actions[|actions| - 1]);
    }
  }

  // ---------- tries of a worker ----------

  ghost predicate WorkTries(work: Work, m: Marks) {
    if work.stage.ToJournal? then work.entry !in m.tried else FirstTry(m, work.entry)
  }

  /** Until shutdown reads the queue, nobody has tried to settle what the worker is still to settle. */
  ghost predicate QueueTries(q: Queue, cells: map<Sid, ControlResult>, m: Marks) {
    q.join.NotYet? ==>
      && q.waiting !! m.tried
      && match q.worker
         case Picked(e, _) => e !in m.tried
         case Executing(e, _) => e !in m.tried
         case Ran(e, _) => e !in m.tried
         case SettlesRun(work) => WorkTries(work, m)
         case SettlesTracked(work) =>
           WorkTries(work, m) && forall i :: i in q.draining && i !in cells && i != work.entry ==> i !in m.tried
         case Top => forall i :: i in q.draining && i !in cells ==> i !in m.tried
         case _ => true
  }

  /** Tries by others change nothing for a queue. */
  lemma ForeignTry(acc: set<Sid>, started: set<Sid>, q: Queue, cells: map<Sid, ControlResult>, m: Marks, eff: Effect,
                   journal: map<Key, J.Entry>)
    requires QueueOk(acc, started, q) && QueueTries(q, cells, m)
    requires (eff.Settle? || eff.Skip? ==> eff.author !in acc) && (eff.Post? ==> eff.cell !in acc)
    ensures QueueTries(q, CellsAfter(cells, eff), MarksAfter(m, eff, journal))
  {
  }

  lemma JournalTry(q: Queue, who: Who, key: Key, stored: bool, write: Write, cells: map<Sid, ControlResult>, m: Marks,
                   journal: map<Key, J.Entry>, n: nat)
    requires Works(q, who) && WorkOf(q, who).stage.ToJournal? && (who.TheWorker? ==> q.join.NotYet? && !write.GivenUp?)
    requires WellShaped(cells, q) && QueueTries(q, cells, m) && MarksOk(m, n)
    ensures var step := JournalStep(q, who, key, stored, write);
            QueueTries(step.next, cells, MarksAfter(m, step.eff, journal))
  {
  }

  lemma CleanTry(q: Queue, who: Who, cells: map<Sid, ControlResult>, m: Marks)
    requires Works(q, who) && WorkOf(q, who).stage.Written? && WellShaped(cells, q) && QueueTries(q, cells, m)
    ensures QueueTries(CleanStep(q, who, cells).next, cells, m)
  {
    SweptWithin(q.draining, cells);
  }

  lemma RemoveTry(q: Queue, who: Who, key: Key, cells: map<Sid, ControlResult>, m: Marks)
    requires Works(q, who) && WorkOf(q, who).stage.Journaled? && QueueTries(q, cells, m)
    ensures QueueTries(RemoveStep(q, who, key).next, cells, m)
  {
  }

  lemma WriteTry(q: Queue, who: Who, cell: Sid, cells: map<Sid, ControlResult>, m: Marks)
    requires Works(q, who) && WorkOf(q, who).stage.ToAudit? && QueueTries(q, cells, m)
    ensures QueueTries(WriteStep(q, who, cell).next, CellsAfter(cells, WriteStep(q, who, cell).eff), m)
  {
  }

  lemma TopTry(q: Queue, stop: bool, order: seq<Sid>, submits: seq<Submit>, now: int, cells: map<Sid, ControlResult>,
               m: Marks)
    requires q.worker.Top? && Orders(order, q.waiting) && WellShaped(cells, q) && QueueTries(q, cells, m)
    ensures QueueTries(TopStep(q, stop, order, submits, now).next, cells, m)
  {
    assert forall i :: i in q.draining + order <==> i in q.draining || i in q.waiting;
  }

  ghost predicate TurnTriesOk(s: State, step: Step<Queue>) {
    QueueTries(step.next, CellsAfter(s.cells, step.eff), MarksAfter(s.marks, step.eff, s.journal))
  }

  lemma JoinSettlingTries(s: State, d: string, a: QueueAction)
    requires d in s.queues && MayTurn(s, s.queues[d], a) && Settling(a) && a.who.TheJoin?
    ensures !QueueStep(s, d, a).next.join.NotYet?
  {
  }

  lemma WorkerJournalTries(s: State, d: string, write: Write)
    requires Tries(s) && d in s.queues && MayTurn(s, s.queues[d], Journals(TheWorker, write))
    requires TakenOver(s.queues[d], s.closed) && WellShaped(s.cells, s.queues[d])
    requires QueueTries(s.queues[d], s.cells, s.marks)
    ensures TurnTriesOk(s, QueueStep(s, d, Journals(TheWorker, write)))
  {
    var q := s.queues[d];
    var key := Sub(s.submits, WorkOf(q, TheWorker).entry).key;
    WorkerSilent(s, d, Journals(TheWorker, write));
    JournalTry(q, TheWorker, key, key in s.journal, write, s.cells, s.marks, s.journal, |s.submits|);
  }

  lemma WorkerSettlingTries(s: State, d: string, a: QueueAction)
    requires Tries(s) && d in s.queues && MayTurn(s, s.queues[d], a) && Settling(a) && a.who.TheWorker?
    requires TakenOver(s.queues[d], s.closed) && WellShaped(s.cells, s.queues[d])
    requires QueueTries(s.queues[d], s.cells, s.marks)
    ensures TurnTriesOk(s, QueueStep(s, d, a))
  {
    var q := s.queues[d];
    var e := WorkOf(q, a.who).entry;
    if a.Journals? {
      WorkerJournalTries(s, d, a.write);
    } else if a.Cleans? {
      CleanTry(q, a.who, s.cells, s.marks);
    } else if a.Writes? {
      WriteTry(q, a.who, Sub(s.submits, e).cell, s.cells, s.marks);
    } else {
      RemoveTry(q, a.who, Sub(s.submits, e).key, s.cells, s.marks);
    }
  }

  lemma SettlingQueueTries(s: State, d: string, a: QueueAction)
    requires Tries(s) && d in s.queues && MayTurn(s, s.queues[d], a) && Settling(a)
    requires TakenOver(s.queues[d], s.closed) && WellShaped(s.cells, s.queues[d])
    requires QueueTries(s.queues[d], s.cells, s.marks)
    ensures TurnTriesOk(s, QueueStep(s, d, a))
  {
    if a.who.TheJoin? {
      JoinSettlingTries(s, d, a);
    } else {
      WorkerSettlingTries(s, d, a);
    }
  }

  lemma OtherQueueTries(s: State, d: string, a: QueueAction)
    requires d in s.queues && MayTurn(s, s.queues[d], a) && !Settling(a)
    requires WellShaped(s.cells, s.queues[d]) && QueueTries(s.queues[d], s.cells, s.marks)
    ensures TurnTriesOk(s, QueueStep(s, d, a))
  {
    QuietTurn(s, d, a);
    if a.Tops? {
      TopTry(s.queues[d], s.closed, a.order, s.submits, s.clock, s.cells, s.marks);
    }
  }

  // ---------- whole runs ----------

  ghost predicate QueuesTry(s: State) {
    forall d :: d in s.queues ==> QueueTries(s.queues[d], s.cells, s.marks)
  }

  lemma TurnQueuesTry(s: State, d: string, a: QueueAction)
    requires Tries(s) && QueuesTry(s) && Once(s) && Shaped(s) && Places(s)
    requires d in s.queues && MayTurn(s, s.queues[d], a)
    ensures QueuesTry(Turn(s, d, QueueStep(s, d, a)))
  {
    var step := QueueStep(s, d, a);
    var t := Turn(s, d, step);
    assert DevicePlaced(s, d);
    if Settling(a) {
      SettlingQueueTries(s, d, a);
    } else {
      OtherQueueTries(s, d, a);
    }
    TurnAuthor(s, d, a);
    QueuePosts(s, d, a);
    forall d' | d' in t.queues ensures QueueTries(t.queues[d'], t.cells, t.marks) {
      if d' != d {
        assert AcceptedBy(s.submits, d) !! AcceptedBy(s.submits, d');
        ForeignTry(AcceptedBy(s.submits, d'), s.trace.started, s.queues[d'], s.cells, s.marks, step.eff, s.journal);
      }
    }
  }

  lemma MoveQueuesTry(s: State, i: Sid, a: SubmitAction)
    requires Tries(s) && QueuesTry(s) && Once(s) && Shaped(s) && i < |s.submits| && MayMove(s, s.submits[i], a)
    ensures QueuesTry(Move(s, i, SubmitStep(s, i, a)))
  {
    var step := SubmitStep(s, i, a);
    var t := Move(s, i, step);
    assert SubmitOk(i, s.submits[i], s.trace) && CellShape(i, s.submits[i], s.cells);
    SubmitShaped(s, i, a);
    MoveAuthor(s, i, a);
    forall d | d in t.queues ensures QueueTries(t.queues[d], t.cells, t.marks) {
      assert i in AcceptedBy(s.submits, d) ==> IsAccepted(i, s.submits[i]);
      ForeignTry(AcceptedBy(s.submits, d), s.trace.started, s.queues[d], s.cells, s.marks, step.eff, s.journal);
    }
  }

  lemma MoveAuthor(s: State, i: Sid, a: SubmitAction)
    requires i < |s.submits| && MayMove(s, s.submits[i], a)
    ensures var eff := SubmitStep(s, i, a).eff;
            eff.Settle? || eff.Skip? ==> eff.author == i && !IsAccepted(i, s.submits[i])
  {
  }

  lemma EnqueueQueuesTry(s: State, i: Sid)
    requires Tries(s) && QueuesTry(s) && i < |s.submits| && s.submits[i].pc.Enqueue?
    ensures QueuesTry(Enqueueing(s, i))
  {
    assert SubmitTries(i, s.submits[i], s.marks);
  }

  lemma StepQueuesTry(s: State, a: Action)
    requires Tries(s) && QueuesTry(s) && Once(s) && Shaped(s) && Places(s) && Enabled(s, a)
    ensures QueuesTry(Apply(s, a))
  {
    match a
    case BySubmit(i, move) => MoveQueuesTry(s, i, move);
    case Enqueues(i) => EnqueueQueuesTry(s, i);
    case ByQueue(d, turn) => TurnQueuesTry(s, d, turn);
    case Panics(d) => PanicQueuesTry(s, d);
    case Purges(now) => PurgeQueuesTry(s, now);
    case _ =>
  }

  lemma PanicQueuesTry(s: State, d: string)
    requires QueuesTry(s) && d in s.queues
    ensures QueuesTry(Turn(s, d, DeathStep(s.queues[d], d, s.cells)))
  {
  }

  lemma PurgeQueuesTry(s: State, now: int)
    requires QueuesTry(s)
    ensures QueuesTry(Purged(s, now))
  {
    var t := Purged(s, now);
    forall d | d in t.queues ensures QueueTries(t.queues[d], t.cells, t.marks) {
      assert QueueTries(s.queues[d], s.cells, s.marks);
    }
  }

  lemma {:induction false} ExecQueuesTry(s0: State, actions: seq<Action>)
    requires Init(s0) && Exec(s0, actions).Some?
    ensures QueuesTry(Exec(s0, actions).value)
  {
    if actions != [] {
      ExecQueuesTry(s0, actions[..|actions| - 1]);
      ExecTries(s0, actions[..|actions| - 1]);
      ExecOnce(s0, actions[..|actions| - 1]);
      ExecShaped(s0, actions[..|actions| - 1]);
      ExecPlaced(s0, actions[..|actions| - 1]);
      StepQueuesTry(Exec(s0, actions[..|actions| - 1]).value, actions[|actions| - 1]);
    }
  }
}
