/** Where every accepted entry is, in every run: it has its receipt, or somebody who is to settle it will
    find it, or it was lost with a worker that alone knew of it. And no receipt is written twice. */
module EnginePlaces {
  import opened ControlTypes
  import opened Engine
  import opened EngineOnce
  import opened EngineCells

  // ---------- one queue ----------

  ghost predicate WorkShape(work: Work, cells: map<Sid, ControlResult>) {
    work.entry in cells <==> work.stage.Written?
  }

  /** What waits is nowhere else and has no receipt. */
  ghost predicate WaitShape(cells: map<Sid, ControlResult>, q: Queue) {
    forall i :: i in q.waiting ==>
      i !in cells && i !in q.draining && q.running != Some(i) && i !in InHands(q.worker)
  }

  /** Where a worker stands fixes what its queue's structures hold, until shutdown reads them. */
  ghost predicate Stance(cells: map<Sid, ControlResult>, q: Queue) {
    match q.worker
    case Absent => true
    case Boot => true
    case Adopt(_) => q.running.None? && q.draining == []
    case Adopting(work, _) => q.running.None? && q.draining == [work.entry] && WorkShape(work, cells)
    case Top => q.running.None? && (q.draining == [] || (q.closed && q.draining[0] !in cells))
    case Pick => q.running.None? && q.draining == []
    case Idle => q.running.None? && q.draining == []
    case Picked(e, _) => q.running.None? && q.draining == [] && e !in cells
    case Executing(e, _) => q.running == Some(e) && q.draining == [] && e !in cells
    case Ran(e, _) => q.running == Some(e) && q.draining == [] && e !in cells
    case SettlesRun(work) => q.running == Some(work.entry) && q.draining == [] && WorkShape(work, cells)
    case SettlesTracked(work) =>
      && q.running.None? && q.draining != [] && q.draining[0] == work.entry && WorkShape(work, cells)
      && (q.closed || q.draining == [work.entry])
    case Stopped => q.closed && q.running.None? && q.draining == [] && q.waiting == {}
  }

  ghost predicate WellShaped(cells: map<Sid, ControlResult>, q: Queue) {
    && (q.join.NotYet? ==> WaitShape(cells, q) && Stance(cells, q))
    && (q.join.Abandoning? ==> WorkShape(q.join.work, cells))
  }

  /** The entry is where the worker, or shutdown once it has read the queue, will find it. */
  predicate Findable(q: Queue, i: Sid) {
    if q.join.NotYet? then Held(q, i) else JoinHolds(q.join, i)
  }

  /** An accepted entry is lost, or else it has its receipt or will be found. */
  ghost predicate Traced(acc: set<Sid>, cells: map<Sid, ControlResult>, stranded: set<Sid>, q: Queue) {
    forall i :: i in acc ==> (i in cells || Findable(q, i) <==> i !in stranded)
  }

  // ---------- a queue's step ----------

  function Losses(eff: Effect): set<Sid> {
    if eff.Strand? then eff.lost else {}
  }

  /** Before and after a step, an entry that is not lost in it is accounted for alike. */
  ghost predicate Accounted(cells: map<Sid, ControlResult>, q: Queue, step: Step<Queue>, i: Sid) {
    (i in CellsAfter(cells, step.eff) || Findable(step.next, i))
    <==> (i in cells || Findable(q, i)) && i !in Losses(step.eff)
  }

  lemma ListedEntries(list: seq<Leftover>, i: Sid)
    ensures Listed(list, i) <==> i in Entries(list)
  {
  }

  lemma {:induction false} SweptFacts(draining: seq<Sid>, cells: map<Sid, ControlResult>)
    ensures Swept(draining, cells) == [] || Swept(draining, cells)[0] !in cells
    ensures forall i :: i in draining && i !in cells ==> i in Swept(draining, cells)
  {
    if draining != [] && draining[0] in cells {
      SweptFacts(draining[1..], cells);
      assert forall i :: i in draining <==> i == draining[0] || i in draining[1..];
    }
  }

  lemma BootAccounts(q: Queue, cells: map<Sid, ControlResult>, i: Sid)
    requires q.worker.Boot? && WellShaped(cells, q)
    ensures Accounted(cells, q, BootStep(q), i)
  {
    LeftoversList(q.running, q.draining, i);
  }

  lemma AdoptAccounts(q: Queue, submits: seq<Submit>, cells: map<Sid, ControlResult>, now: int, i: Sid)
    requires q.worker.Adopt?
    ensures Accounted(cells, q, AdoptStep(q, submits, cells, now), i)
  {
    if q.worker.orphans != [] {
      ListedRest(q.worker.orphans, i);
    }
  }

  lemma TopAccounts(q: Queue, stop: bool, order: seq<Sid>, submits: seq<Submit>, cells: map<Sid, ControlResult>,
                    now: int, i: Sid)
    requires q.worker.Top? && Orders(order, q.waiting)
    ensures Accounted(cells, q, TopStep(q, stop, order, submits, now), i)
  {
    assert i in q.draining + order <==> i in q.draining || i in q.waiting;
  }

  /** What the worker holds is in a structure of the queue, or in its hands. */
  lemma HeldSeen(q: Queue, cells: map<Sid, ControlResult>, i: Sid)
    requires q.join.NotYet? && WellShaped(cells, q) && Held(q, i)
    ensures Visible(q, i) || i in InHands(q.worker)
  {
    match q.worker
    case Adopt(orphans) => ListedEntries(orphans, i);
    case Adopting(_, rest) => ListedEntries(rest, i);
    case _ =>
  }

  lemma HandsHeld(w: Worker, i: Sid)
    requires i in InHands(w)
    ensures WorkerHolds(w, i)
  {
    match w
    case Adopt(orphans) => ListedEntries(orphans, i);
    case Adopting(_, rest) => ListedEntries(rest, i);
    case Picked(_, _) =>
  }

  lemma TakeAccounts(q: Queue, order: seq<Sid>, cells: map<Sid, ControlResult>, i: Sid)
    requires q.join.NotYet? && Orders(order, q.waiting) && WellShaped(cells, q)
    ensures Accounted(cells, q, TakeStep(q, order, cells), i)
  {
    LeftoversList(q.running, order + q.draining, i);
    assert i in order + q.draining <==> i in q.waiting || i in q.draining;
    if Held(q, i) {
      HeldSeen(q, cells, i);
    }
    if i in InHands(q.worker) {
      HandsHeld(q.worker, i);
    }
  }

  lemma DeathAccounts(q: Queue, d: string, cells: map<Sid, ControlResult>, i: Sid)
    requires WellShaped(cells, q)
    ensures Accounted(cells, q, DeathStep(q, d, cells), i)
  {
    if q.join.NotYet? {
      if Held(q, i) {
        HeldSeen(q, cells, i);
      }
      if i in InHands(q.worker) {
        HandsHeld(q.worker, i);
      }
    }
  }

  lemma AbandonAccounts(q: Queue, submits: seq<Submit>, cells: map<Sid, ControlResult>, now: int, i: Sid)
    requires q.join.Abandoned? && q.join.todo != []
    ensures Accounted(cells, q, AbandonStep(q, submits, cells, now), i)
  {
    ListedRest(q.join.todo, i);
  }

  lemma CleanAccounts(q: Queue, who: Who, cells: map<Sid, ControlResult>, i: Sid)
    requires Works(q, who) && WorkOf(q, who).stage.Written? && WellShaped(cells, q)
    ensures Accounted(cells, q, CleanStep(q, who, cells), i)
  {
    SweptFacts(q.draining, cells);
    SweptWithin(q.draining, cells);
  }

  lemma WriteAccounts(q: Queue, who: Who, cells: map<Sid, ControlResult>, i: Sid)
    requires Works(q, who) && (who.TheWorker? ==> q.join.NotYet?)
    ensures Accounted(cells, q, WriteStep(q, who, WorkOf(q, who).entry), i)
  {
  }

  /** Rewriting the settlement in hand, short of its receipt. */
  lemma StageAccounts(q: Queue, who: Who, work: Work, eff: Effect, cells: map<Sid, ControlResult>, i: Sid)
    requires Works(q, who) && work.entry == WorkOf(q, who).entry && (eff.Settle? || eff.Skip? || eff.Leave?)
    ensures Accounted(cells, q, Step(WithWork(q, who, work), eff), i)
  {
  }

  lemma SettlingAccounts(s: State, d: string, a: QueueAction, i: Sid)
    requires d in s.queues && MayTurn(s, s.queues[d], a) && Settling(a)
    requires QueuesOk(s) && TakenOver(s.queues[d], s.closed) && WellShaped(s.cells, s.queues[d])
    ensures Accounted(s.cells, s.queues[d], QueueStep(s, d, a), i)
  {
    var q := s.queues[d];
    if a.Writes? {
      if a.who.TheWorker? {
        WorkerSilent(s, d, a);
      }
      WorksOnAccepted(s, d, a.who);
      WriteAccounts(q, a.who, s.cells, i);
    } else if a.Cleans? {
      CleanAccounts(q, a.who, s.cells, i);
    } else {
      var step := QueueStep(s, d, a);
      StageAccounts(q, a.who, WorkOf(step.next, a.who), step.eff, s.cells, i);
    }
  }

  lemma RegroupingAccounts(s: State, d: string, a: QueueAction, i: Sid)
    requires d in s.queues && MayTurn(s, s.queues[d], a) && Regrouping(a) && WellShaped(s.cells, s.queues[d])
    ensures Accounted(s.cells, s.queues[d], QueueStep(s, d, a), i)
  {
    var q := s.queues[d];
    match a
    case Boots => BootAccounts(q, s.cells, i);
    case Adopts => AdoptAccounts(q, s.submits, s.cells, s.clock, i);
    case Tops(order) => TopAccounts(q, s.closed, order, s.submits, s.cells, s.clock, i);
    case Takes(order) => TakeAccounts(q, order, s.cells, i);
    case Abandons => AbandonAccounts(q, s.submits, s.cells, s.clock, i);
  }

  lemma RunningAccounts(s: State, d: string, a: QueueAction, i: Sid)
    requires d in s.queues && MayTurn(s, s.queues[d], a) && !Settling(a) && !Regrouping(a)
    requires WellShaped(s.cells, s.queues[d])
    ensures Accounted(s.cells, s.queues[d], QueueStep(s, d, a), i)
  {
    if a.Aborts? {
      DeathAccounts(s.queues[d], d, s.cells, i);
    }
  }

  lemma TurnAccounts(s: State, d: string, a: QueueAction, i: Sid)
    requires d in s.queues && MayTurn(s, s.queues[d], a)
    requires QueuesOk(s) && TakenOver(s.queues[d], s.closed) && WellShaped(s.cells, s.queues[d])
    ensures Accounted(s.cells, s.queues[d], QueueStep(s, d, a), i)
  {
    if Settling(a) {
      SettlingAccounts(s, d, a, i);
    } else if Regrouping(a) {
      RegroupingAccounts(s, d, a, i);
    } else {
      RunningAccounts(s, d, a, i);
    }
  }

  // ---------- a queue's step keeps it orderly ----------

  ghost predicate StaysShaped(cells: map<Sid, ControlResult>, step: Step<Queue>) {
    WellShaped(CellsAfter(cells, step.eff), step.next)
  }

  lemma BootShapes(q: Queue, cells: map<Sid, ControlResult>)
    requires q.worker.Boot? && WellShaped(cells, q)
    ensures StaysShaped(cells, BootStep(q))
  {
    forall i | i in q.waiting && q.join.NotYet? ensures i !in InHands(BootStep(q).next.worker) {
      LeftoversList(q.running, q.draining, i);
      ListedEntries(Leftovers(q.running, q.draining), i);
    }
  }

  lemma AdoptShapes(q: Queue, submits: seq<Submit>, cells: map<Sid, ControlResult>, now: int)
    requires q.worker.Adopt? && WellShaped(cells, q)
    ensures StaysShaped(cells, AdoptStep(q, submits, cells, now))
  {
    var orphans := q.worker.orphans;
    if orphans != [] {
      assert Entries(orphans[1..]) <= Entries(orphans) && orphans[0].0 in Entries(orphans);
    }
  }

  lemma TopShapes(q: Queue, stop: bool, order: seq<Sid>, submits: seq<Submit>, cells: map<Sid, ControlResult>, now: int)
    requires q.worker.Top? && Orders(order, q.waiting) && WellShaped(cells, q)
    ensures StaysShaped(cells, TopStep(q, stop, order, submits, now))
  {
    if (q.closed || stop) && q.draining + order != [] {
      DrainShapes(q, stop, order, submits, cells, now);
    }
  }

  lemma DrainShapes(
    q: Queue, stop: bool, order: seq<Sid>, submits: seq<Submit>, cells: map<Sid, ControlResult>, now: int)
    requires q.worker.Top? && Orders(order, q.waiting) && WellShaped(cells, q)
    requires (q.closed || stop) && q.draining + order != []
    ensures StaysShaped(cells, TopStep(q, stop, order, submits, now))
  {
    var all := q.draining + order;
    assert q.draining == [] ==> all[0] == order[0] && order[0] in q.waiting;
  }

  lemma CleanShapes(q: Queue, who: Who, cells: map<Sid, ControlResult>)
    requires Works(q, who) && WorkOf(q, who).stage.Written? && WellShaped(cells, q)
    ensures StaysShaped(cells, CleanStep(q, who, cells))
  {
    SweptFacts(q.draining, cells);
    SweptWithin(q.draining, cells);
  }

  lemma WriteShapes(q: Queue, who: Who, cells: map<Sid, ControlResult>)
    requires Works(q, who) && WorkOf(q, who).stage.ToAudit? && (who.TheWorker? ==> q.join.NotYet?)
    requires WellShaped(cells, q)
    ensures StaysShaped(cells, WriteStep(q, who, WorkOf(q, who).entry))
    ensures WorkOf(q, who).entry !in cells
  {
  }

  lemma StageShapes(q: Queue, who: Who, work: Work, eff: Effect, cells: map<Sid, ControlResult>)
    requires Works(q, who) && work.entry == WorkOf(q, who).entry && (eff.Settle? || eff.Skip? || eff.Leave?)
    requires !WorkOf(q, who).stage.Written? && !work.stage.Written? && WellShaped(cells, q)
    ensures StaysShaped(cells, Step(WithWork(q, who, work), eff))
  {
  }

  lemma WritingShapes(s: State, d: string, who: Who)
    requires d in s.queues && MayTurn(s, s.queues[d], Writes(who))
    requires QueuesOk(s) && TakenOver(s.queues[d], s.closed) && WellShaped(s.cells, s.queues[d])
    ensures StaysShaped(s.cells, QueueStep(s, d, Writes(who)))
    ensures QueueStep(s, d, Writes(who)).eff.cell !in s.cells
  {
    if who.TheWorker? {
      WorkerSilent(s, d, Writes(who));
    }
    WorksOnAccepted(s, d, who);
    WriteShapes(s.queues[d], who, s.cells);
  }

  lemma SettlingShapes(s: State, d: string, a: QueueAction)
    requires d in s.queues && MayTurn(s, s.queues[d], a) && Settling(a)
    requires QueuesOk(s) && TakenOver(s.queues[d], s.closed) && WellShaped(s.cells, s.queues[d])
    ensures StaysShaped(s.cells, QueueStep(s, d, a))
    ensures QueueStep(s, d, a).eff.Post? ==> QueueStep(s, d, a).eff.cell !in s.cells
  {
    var q := s.queues[d];
    if a.Writes? {
      WritingShapes(s, d, a.who);
    } else if a.Cleans? {
      CleanShapes(q, a.who, s.cells);
    } else {
      var step := QueueStep(s, d, a);
      StageShapes(q, a.who, WorkOf(step.next, a.who), step.eff, s.cells);
    }
  }

  lemma RegroupingShapes(s: State, d: string, a: QueueAction)
    requires d in s.queues && MayTurn(s, s.queues[d], a) && Regrouping(a) && WellShaped(s.cells, s.queues[d])
    ensures StaysShaped(s.cells, QueueStep(s, d, a))
  {
    var q := s.queues[d];
    match a
    case Boots => BootShapes(q, s.cells);
    case Adopts => AdoptShapes(q, s.submits, s.cells, s.clock);
    case Tops(order) => TopShapes(q, s.closed, order, s.submits, s.cells, s.clock);
    case Takes(order) =>
    case Abandons =>
  }

  lemma PickShapes(q: Queue, entry: Sid, cancelled: bool, expired: bool, cells: map<Sid, ControlResult>)
    requires q.worker.Pick? && entry in q.waiting && WellShaped(cells, q)
    ensures StaysShaped(cells, PickStep(q, entry, cancelled, expired))
  {
  }

  lemma BeginShapes(q: Queue, submits: seq<Submit>, now: int, cells: map<Sid, ControlResult>)
    requires q.worker.Picked? && q.worker.entry !in q.waiting && WellShaped(cells, q)
    ensures StaysShaped(cells, BeginStep(q, submits, now))
  {
  }

  /** Other steps change only where the worker stands, and flags. */
  lemma PlainShapes(q: Queue, next: Queue, cells: map<Sid, ControlResult>)
    requires WellShaped(cells, q) && next.join == q.join
    requires next.waiting == q.waiting && next.running == q.running && next.draining == q.draining
    requires (q.closed ==> next.closed) && InHands(next.worker) <= InHands(q.worker)
    requires next.worker == q.worker || Moves(q.worker, next.worker)
    ensures WellShaped(cells, next)
  {
  }

  predicate Moves(w: Worker, w': Worker) {
    || w'.Absent? || w'.Boot?
    || (w.Pick? && w'.Idle?) || (w.Idle? && w'.Top?)
    || (w.Executing? && (w'.Executing? || w'.Ran?) && w'.entry == w.entry)
    || (w.Ran? && w'.SettlesRun? && w'.work.entry == w.entry && w'.work.stage.ToJournal?)
  }

  lemma RunningShapes(s: State, d: string, a: QueueAction)
    requires d in s.queues && MayTurn(s, s.queues[d], a) && !Settling(a) && !Regrouping(a)
    requires QueuesOk(s) && WellShaped(s.cells, s.queues[d])
    ensures StaysShaped(s.cells, QueueStep(s, d, a))
  {
    var q := s.queues[d];
    if a.Picks? {
      PickShapes(q, a.entry, a.entry in s.cancelled, Expired(s, a.entry), s.cells);
    } else if a.Begins? {
      assert QueueOk(AcceptedBy(s.submits, d), s.trace.started, q);
      BeginShapes(q, s.submits, s.clock, s.cells);
    } else {
      PlainShapes(q, QueueStep(s, d, a).next, s.cells);
    }
  }

  lemma TurnShapes(s: State, d: string, a: QueueAction)
    requires d in s.queues && MayTurn(s, s.queues[d], a)
    requires QueuesOk(s) && TakenOver(s.queues[d], s.closed) && WellShaped(s.cells, s.queues[d])
    ensures StaysShaped(s.cells, QueueStep(s, d, a))
    ensures QueueStep(s, d, a).eff.Post? ==> QueueStep(s, d, a).eff.cell !in s.cells
  {
    if Settling(a) {
      SettlingShapes(s, d, a);
    } else {
      QuietTurn(s, d, a);
      if Regrouping(a) {
        RegroupingShapes(s, d, a);
      } else {
        RunningShapes(s, d, a);
      }
    }
  }

  // ---------- the whole state ----------

  ghost predicate DevicePlaced(s: State, d: string) {
    && WellShaped(s.cells, QueueOf(s.queues, d))
    && Traced(AcceptedBy(s.submits, d), s.cells, s.hist.stranded, QueueOf(s.queues, d))
  }

  /** Only accepted entries get lost, and a restart forgets them. */
  ghost predicate StrandedOk(s: State) {
    forall i :: i in s.hist.stranded ==> i < |s.submits| && (IsAccepted(i, s.submits[i]) || s.submits[i].pc.Gone?)
  }

  ghost predicate Places(s: State) {
    StrandedOk(s) && forall d :: DevicePlaced(s, d)
  }

  lemma StrandedAfter(h: History, eff: Effect, closed: bool)
    ensures HistoryAfter(h, eff, closed).stranded == h.stranded + Losses(eff)
  {
  }

  /** A step that posts and loses nothing of this device's leaves it placed. */
  lemma ElsewhereAccounts(
    acc: set<Sid>, started: set<Sid>, cells: map<Sid, ControlResult>, stranded: set<Sid>, q: Queue, eff: Effect)
    requires QueueOk(acc, started, q) && WellShaped(cells, q) && Traced(acc, cells, stranded, q)
    requires (eff.Post? ==> eff.cell !in acc) && Losses(eff) !! acc
    ensures WellShaped(CellsAfter(cells, eff), q) && Traced(acc, CellsAfter(cells, eff), stranded + Losses(eff), q)
  {
  }

  lemma OtherDevice(s: State, t: State, d: string, eff: Effect)
    requires QueuesOk(s) && DevicePlaced(s, d) && AcceptedBy(t.submits, d) == AcceptedBy(s.submits, d)
    requires QueueOf(t.queues, d) == QueueOf(s.queues, d)
    requires t.cells == CellsAfter(s.cells, eff) && t.hist.stranded == s.hist.stranded + Losses(eff)
    requires (eff.Post? ==> eff.cell !in AcceptedBy(s.submits, d)) && Losses(eff) !! AcceptedBy(s.submits, d)
    ensures DevicePlaced(t, d)
  {
    assert QueueOk(AcceptedBy(s.submits, d), s.trace.started, QueueOf(s.queues, d));
    ElsewhereAccounts(AcceptedBy(s.submits, d), s.trace.started, s.cells, s.hist.stranded, QueueOf(s.queues, d), eff);
  }

  /** A queue's step keeps every device placed. */
  lemma QueuePlaced(s: State, d: string, step: Step<Queue>)
    requires Once(s) && Places(s) && d in s.queues && StaysShaped(s.cells, step)
    requires (step.eff.Post? ==> step.eff.cell in AcceptedBy(s.submits, d))
    requires Losses(step.eff) <= AcceptedBy(s.submits, d)
    requires forall i :: i in AcceptedBy(s.submits, d) ==> Accounted(s.cells, s.queues[d], step, i)
    ensures Places(Turn(s, d, step))
  {
    var t := Turn(s, d, step);
    StrandedAfter(s.hist, step.eff, s.closed);
    forall d' ensures DevicePlaced(t, d') {
      assert DevicePlaced(s, d');
      if d' != d {
        assert AcceptedBy(s.submits, d) !! AcceptedBy(s.submits, d');
        OtherDevice(s, t, d', step.eff);
      } else {
        forall i | i in AcceptedBy(t.submits, d)
          ensures i in t.cells || Findable(step.next, i) <==> i !in t.hist.stranded
        {
          assert Accounted(s.cells, s.queues[d], step, i);
        }
      }
    }
  }

  lemma UnseenAccepted(s: State, d: string)
    requires QueuesOk(s) && d in s.queues
    ensures Unseen(s.queues[d], s.cells) <= AcceptedBy(s.submits, d)
  {
    assert QueueOk(AcceptedBy(s.submits, d), s.trace.started, s.queues[d]);
  }

  lemma TurnPlaced(s: State, d: string, a: QueueAction)
    requires Once(s) && Shaped(s) && Places(s) && d in s.queues && MayTurn(s, s.queues[d], a)
    ensures Places(Turn(s, d, QueueStep(s, d, a)))
  {
    assert DevicePlaced(s, d);
    TurnShapes(s, d, a);
    TurnEffects(s, d, a);
    QueuePosts(s, d, a);
    UnseenAccepted(s, d);
    forall i | i in AcceptedBy(s.submits, d) ensures Accounted(s.cells, s.queues[d], QueueStep(s, d, a), i) {
      TurnAccounts(s, d, a, i);
    }
    QueuePlaced(s, d, QueueStep(s, d, a));
  }

  lemma PanicPlaced(s: State, d: string)
    requires Once(s) && Places(s) && d in s.queues
    ensures Places(Turn(s, d, DeathStep(s.queues[d], d, s.cells)))
  {
    var q := s.queues[d];
    assert DevicePlaced(s, d);
    UnseenAccepted(s, d);
    PlainShapes(q, DeathStep(q, d, s.cells).next, s.cells);
    forall i | i in AcceptedBy(s.submits, d) ensures Accounted(s.cells, q, DeathStep(q, d, s.cells), i) {
      DeathAccounts(q, d, s.cells, i);
    }
    QueuePlaced(s, d, DeathStep(q, d, s.cells));
  }

  lemma MovePlaced(s: State, i: Sid, step: Step<Submit>)
    requires Once(s) && Places(s) && i < |s.submits| && !s.submits[i].pc.Gone?
    requires MoveShaped(i, s.submits[i], s.cells, step)
    ensures Places(Move(s, i, step))
  {
    var t := Move(s, i, step);
    StrandedAfter(s.hist, step.eff, s.closed);
    forall d ensures DevicePlaced(t, d) {
      assert DevicePlaced(s, d);
      assert AcceptedBy(t.submits, d) == AcceptedBy(s.submits, d);
      assert i in AcceptedBy(s.submits, d) ==> IsAccepted(i, s.submits[i]);
      OtherDevice(s, t, d, step.eff);
    }
  }

  lemma TakenPlaced(acc: set<Sid>, started: set<Sid>, cells: map<Sid, ControlResult>, stranded: set<Sid>, q: Queue,
                    i: Sid)
    requires QueueOk(acc, started, q) && WellShaped(cells, q) && Traced(acc, cells, stranded, q)
    requires q.join.NotYet? && !q.closed && i !in acc && i !in cells && i !in stranded
    ensures WellShaped(cells, Taken(q, i)) && Traced(acc + {i}, cells, stranded, Taken(q, i))
  {
  }

  lemma EnqueuePlaced(s: State, i: Sid)
    requires Once(s) && Shaped(s) && Places(s) && i < |s.submits| && s.submits[i].pc.Enqueue?
    requires !s.closed && !QueueOf(s.queues, s.submits[i].key.device).closed
    ensures Places(Enqueueing(s, i))
  {
    var t := Enqueueing(s, i);
    assert SubmitOk(i, s.submits[i], s.trace) && CellShape(i, s.submits[i], s.cells);
    forall d ensures DevicePlaced(t, d) {
      assert DevicePlaced(s, d);
      var q, acc := QueueOf(s.queues, d), AcceptedBy(s.submits, d);
      if d == s.submits[i].key.device {
        assert AcceptedBy(t.submits, d) == acc + {i} && i !in acc;
        assert QueueOk(acc, s.trace.started, q);
        TakenPlaced(acc, s.trace.started, s.cells, s.hist.stranded, q, i);
      } else {
        assert AcceptedBy(t.submits, d) == acc;
      }
    }
  }

  /** Steps that touch neither queues nor receipts. */
  lemma SamePlaced(s: State, t: State)
    requires Places(s) && t.queues == s.queues && t.cells == s.cells && t.hist.stranded == s.hist.stranded
    requires |s.submits| <= |t.submits| && t.submits[..|s.submits|] == s.submits
    requires forall j :: |s.submits| <= j < |t.submits| ==> !IsAccepted(j, t.submits[j])
    ensures Places(t)
  {
    assert forall j :: 0 <= j < |s.submits| ==> t.submits[j] == t.submits[..|s.submits|][j] == s.submits[j];
    forall d ensures DevicePlaced(t, d) {
      assert DevicePlaced(s, d) && AcceptedBy(t.submits, d) == AcceptedBy(s.submits, d);
    }
  }

  lemma CrashPlaced(s: State)
    requires StrandedOk(s)
    ensures Places(Crashed(s))
  {
    var t := Crashed(s);
    forall d ensures DevicePlaced(t, d) {
      assert AcceptedBy(t.submits, d) == {};
    }
  }

  lemma StepPlaced(s: State, a: Action)
    requires Once(s) && Shaped(s) && Places(s) && Enabled(s, a)
    ensures Places(Apply(s, a))
  {
    match a
    case BySubmit(i, move) =>
      SubmitShaped(s, i, move);
      MovePlaced(s, i, SubmitStep(s, i, move));
    case Enqueues(i) => EnqueuePlaced(s, i);
    case ByQueue(d, turn) => TurnPlaced(s, d, turn);
    case Panics(d) => PanicPlaced(s, d);
    case Crashes => CrashPlaced(s);
    case Arrives(_, _, _) => SamePlaced(s, Apply(s, a));
    case Tick(_) => SamePlaced(s, Apply(s, a));
    case Cancels(_, _) => SamePlaced(s, Apply(s, a));
    case Stops => SamePlaced(s, Apply(s, a));
    case Purges(_) => SamePlaced(s, Apply(s, a));
  }

  lemma {:induction false} ExecPlaced(s0: State, actions: seq<Action>)
    requires Init(s0) && Exec(s0, actions).Some?
    ensures Places(Exec(s0, actions).value)
  {
    if actions == [] {
      forall d ensures DevicePlaced(s0, d) {
      }
    } else {
      ExecPlaced(s0, actions[..|actions| - 1]);
      ExecOnce(s0, actions[..|actions| - 1]);
      ExecShaped(s0, actions[..|actions| - 1]);
      StepPlaced(Exec(s0, actions[..|actions| - 1]).value, actions[|actions| - 1]);
    }
  }

  // ---------- theorems ----------

  /** A device's stop is complete: its worker stopped by itself, or shutdown has settled all it took. */
  predicate Complete(q: Queue) {
    (q.worker.Stopped? && q.join.NotYet?) || q.join == Abandoned([])
  }

  /** When a device's stop is complete, an entry the queue ever accepted has its receipt if and only if it
      was not lost with a worker that alone knew of it: one that died, or whose queue shutdown read,
      while the entry was in its hands and in no structure. */
  lemma WrittenAtStopIff(s0: State, actions: seq<Action>, d: string, i: Sid)
    requires Init(s0) && Exec(s0, actions).Some?
    requires var s := Exec(s0, actions).value;
             d in s.queues && i in AcceptedBy(s.submits, d) && Complete(s.queues[d])
    ensures var s := Exec(s0, actions).value;
            i in s.cells <==> i !in s.hist.stranded
  {
    ExecPlaced(s0, actions);
    var s := Exec(s0, actions).value;
    assert DevicePlaced(s, d);
    assert !Findable(s.queues[d], i);
  }

  ghost predicate CellsKept(before: map<Sid, ControlResult>, after: map<Sid, ControlResult>) {
    forall i :: i in before ==> i in after && after[i] == before[i]
  }

  lemma WritesOnce(s: State, a: Action)
    requires Once(s) && Shaped(s) && Places(s) && Enabled(s, a) && !a.Crashes?
    ensures CellsKept(s.cells, Apply(s, a).cells)
  {
    if a.BySubmit? {
      SubmitShaped(s, a.i, a.move);
    } else if a.ByQueue? {
      assert DevicePlaced(s, a.d);
      TurnShapes(s, a.d, a.turn);
    }
  }

  /** No receipt is ever written a second time, whoever writes and whoever dies. */
  lemma ReceiptsWrittenOnce(s0: State, actions: seq<Action>, a: Action)
    requires Init(s0) && Exec(s0, actions).Some?
    requires Enabled(Exec(s0, actions).value, a) && !a.Crashes?
    ensures var s := Exec(s0, actions).value;
            CellsKept(s.cells, Apply(s, a).cells)
  {
    ExecPlaced(s0, actions);
    ExecOnce(s0, actions);
    ExecShaped(s0, actions);
    WritesOnce(Exec(s0, actions).value, a);
  }
}
