/** When every waiter is answered: as long as the registrants of a key reach the journal before those
    who joined them, its journal writes succeed, no record of it expires under a live request and
    shutdown misses none of its entries, nobody waits for a receipt its registrant gave up. */
module EngineOwners {
  import opened ControlTypes
  import opened Engine
  import opened EngineOnce
  import opened EngineCells
  import opened EnginePlaces
  import opened EngineAgree
  import opened EngineMatch
  import opened EngineWaiters
  import J = Journal

  predicate Unmarked(m: Marks, key: Key) {
    key !in m.early && key !in m.ioFailed && key !in m.skipped && key !in m.disordered
  }

  /** Nothing out of the ordinary happened to `key` since the process started. */
  ghost predicate Calm(s: State, key: Key) {
    && Unmarked(s.marks, key)
    && forall e :: e in s.hist.stranded && e < |s.submits| && s.submits[e].key == key ==> s.submits[e].pc.Gone?
  }

  // ---------- what every reachable state keeps of its calm keys ----------

  predicate HasResult(journal: map<Key, J.Entry>, key: Key) {
    key in journal && journal[key].result.Some?
  }

  /** An unsettled record belongs to the submit that holds the key. */
  ghost predicate RecordOk(key: Key, b: Shared) {
    key in b.journal && b.journal[key].result.None? ==>
      && b.journal[key].status == Running
      && key in b.owner && b.owner[key] in b.inserters && Holds(b.active, key, b.owner[key])
  }

  /** The submit waits for its `cell`, or is about to. */
  predicate Follows(sub: Submit) {
    || (sub.pc.Returned? && sub.pc.reply.Waits?)
    || (sub.pc.Decided? && sub.pc.verdict.Answered? && sub.pc.verdict.decision.Duplicate?
        && sub.pc.verdict.decision.entry.result.None?)
  }

  ghost predicate Placed(j: Sid, sub: Submit, b: Shared) {
    && (sub.pc.Insert? ==> Holds(b.active, sub.key, sub.cell) || HasResult(b.journal, sub.key))
    && !sub.pc.Orphan? && !sub.pc.Interrupt? && !sub.pc.Uninterrupt? && sub.pc != Decided(WriteFailed)
    && (sub.pc == Decided(Answered(J.Inserted)) ==> sub.cell == j)
    && (sub.pc.FinishSettle? || sub.pc.FinishRemove? || sub.pc.FinishWrite? ==> j in b.inserters)
    && (sub.cell != j && Follows(sub) ==> sub.cell in b.inserters)
    && (sub.cell == j && sub.pc.Decided? ==> !Follows(sub))
  }

  /** Whoever may take the key out of the registry has seen its record settled. */
  ghost predicate Settles(j: Sid, sub: Submit, b: Shared, cells: map<Sid, ControlResult>) {
    && (sub.cell == j && sub.pc.Decided? && Saw(sub.pc) ==> HasResult(b.journal, sub.key))
    && (sub.pc.FinishRemove? ==> HasResult(b.journal, sub.key))
    && (sub.pc.Enqueued? && j in cells ==> HasResult(b.journal, sub.key))
  }

  /** Who holds a key is still going to release it. */
  ghost predicate Releases(j: Sid, sub: Submit, b: Shared, cells: map<Sid, ControlResult>) {
    Holds(b.active, sub.key, j) ==>
      && sub.cell == j && (sub.pc.Insert? || sub.key in b.journal) && j !in cells
      && !sub.pc.Register? && !sub.pc.FinishWrite? && !sub.pc.Gone? && (sub.pc.Returned? ==> sub.pc.reply.Waits?)
  }

  ghost predicate Standing(j: Sid, sub: Submit, b: Shared, cells: map<Sid, ControlResult>) {
    Placed(j, sub, b) && Settles(j, sub, b, cells) && Releases(j, sub, b, cells)
  }

  ghost predicate WorkStanding(work: Work, key: Key, b: Shared) {
    && (!work.stage.ToJournal? ==> HasResult(b.journal, key))
    && (work.stage.ToAudit? || work.stage.Written? ==> !Holds(b.active, key, work.entry))
  }

  ghost predicate QueueStanding(s: State, d: string)
    requires d in s.queues
  {
    forall who :: Works(s.queues[d], who) ==>
      var work := WorkOf(s.queues[d], who);
      Calm(s, Sub(s.submits, work.entry).key) ==> WorkStanding(work, Sub(s.submits, work.entry).key, SharedOf(s))
  }

  ghost predicate Settled(s: State) {
    && (forall k :: Calm(s, k) ==> RecordOk(k, SharedOf(s)))
    && (forall j :: 0 <= j < |s.submits| && Calm(s, s.submits[j].key) ==>
          Standing(j, s.submits[j], SharedOf(s), s.cells))
    && (forall d :: d in s.queues ==> QueueStanding(s, d))
  }

  // ---------- other keys ----------

  /** Nothing about `key` is different. */
  ghost predicate SameAt(key: Key, b: Shared, b': Shared) {
    && b.inserters <= b'.inserters
    && (key in b.active <==> key in b'.active) && (key in b.active ==> b'.active[key] == b.active[key])
    && (key in b.journal <==> key in b'.journal) && (key in b.journal ==> b'.journal[key] == b.journal[key])
    && (key in b.owner <==> key in b'.owner) && (key in b.owner ==> b'.owner[key] == b.owner[key])
  }

  lemma OtherKeys(eff: Effect, key: Key, k: Key, b: Shared)
    requires About(eff, key) && k != key
    ensures SameAt(k, b, SharedAfter(b, eff))
  {
  }

  lemma SameRecord(k: Key, b: Shared, b': Shared)
    requires RecordOk(k, b) && SameAt(k, b, b')
    ensures RecordOk(k, b')
  {
  }

  lemma SameStanding(
    j: Sid, sub: Submit, b: Shared, b': Shared, cells: map<Sid, ControlResult>, cells': map<Sid, ControlResult>)
    requires Standing(j, sub, b, cells) && SameAt(sub.key, b, b') && (j in cells <==> j in cells')
    ensures Standing(j, sub, b', cells')
  {
  }

  lemma SameWork(work: Work, key: Key, b: Shared, b': Shared)
    requires WorkStanding(work, key, b) && SameAt(key, b, b')
    ensures WorkStanding(work, key, b')
  {
  }

  // ---------- effects ----------

  /** What a calm effect of submit `i` keeps to. */
  ghost predicate Orderly(i: Sid, eff: Effect, b: Shared) {
    && (eff.Claim? ==> eff.key !in b.active && eff.i == i)
    && (eff.Leave? ==> HasResult(b.journal, eff.key))
    && (eff.Put? ==> eff.i == i && Holds(b.active, eff.sub.key, i))
    && (eff.Settle? ==> eff.ok)
  }

  lemma RecordStays(i: Sid, eff: Effect, b: Shared, k: Key)
    requires RecordOk(k, b) && Orderly(i, eff, b)
    ensures RecordOk(k, SharedAfter(b, eff))
  {
  }

  lemma StandingKept(i: Sid, eff: Effect, j: Sid, sub: Submit, held: bool, b: Shared, cells: map<Sid, ControlResult>)
    requires i != j && Standing(j, sub, b, cells) && Orderly(i, eff, b) && (eff.Post? ==> eff.cell != j)
    requires eff.Put? && sub.key == eff.sub.key && sub.key in b.journal ==>
               !Live(sub, held) && (sub.pc.Insert? ==> sub.cell == i)
    ensures Standing(j, sub, SharedAfter(b, eff), CellsAfter(cells, eff))
  {
  }

  lemma WorkKept(i: Sid, eff: Effect, work: Work, key: Key, b: Shared)
    requires i != work.entry && WorkStanding(work, key, b) && Orderly(i, eff, b)
    requires eff.Put? ==> eff.sub.key != key
    ensures WorkStanding(work, key, SharedAfter(b, eff))
  {
  }

  lemma UnmarkedAfter(m: Marks, eff: Effect, journal: map<Key, J.Entry>, key: Key)
    requires Unmarked(MarksAfter(m, eff, journal), key)
    ensures Unmarked(m, key)
    ensures About(eff, key) ==>
              && !eff.Skip? && !eff.PutFails?
              && (eff.Put? ==> !eff.early && !eff.disordered) && (eff.Ask? ==> !eff.disordered)
              && (eff.Settle? && eff.key in journal ==> eff.ok)
  {
  }

  lemma StrandedGrows(h: History, eff: Effect, closed: bool)
    ensures h.stranded <= HistoryAfter(h, eff, closed).stranded
  {
  }

  /** A key that is calm after a step was calm before. */
  lemma CalmBefore(s: State, eff: Effect, submits': seq<Submit>, queues': map<string, Queue>, key: Key)
    requires |submits'| == |s.submits|
    requires forall i :: 0 <= i < |s.submits| ==>
               submits'[i].key == s.submits[i].key && (submits'[i].pc.Gone? ==> s.submits[i].pc.Gone?)
    requires Calm(Effected(s, eff).(submits := submits', queues := queues'), key)
    ensures Calm(s, key)
  {
    UnmarkedAfter(s.marks, eff, s.journal, key);
    StrandedGrows(s.hist, eff, s.closed);
  }

  // ---------- steps of a submit ----------

  ghost predicate KeepsStanding(i: Sid, b: Shared, cells: map<Sid, ControlResult>, step: Step<Submit>) {
    Standing(i, step.next, SharedAfter(b, step.eff), CellsAfter(cells, step.eff)) && Orderly(i, step.eff, b)
  }

  lemma RegisterStands(i: Sid, sub: Submit, b: Shared, cells: map<Sid, ControlResult>)
    requires sub.pc.Register? && i !in cells && Standing(i, sub, b, cells)
    ensures KeepsStanding(i, b, cells, RegisterStep(sub, i, b.active))
  {
  }

  lemma InsertStands(
    i: Sid, sub: Submit, b: Shared, cells: map<Sid, ControlResult>, writable: bool, disordered: bool, early: bool)
    requires sub.pc.Insert? && Standing(i, sub, b, cells) && RecordOk(sub.key, b) && i !in b.inserters && i !in cells
    requires var eff := InsertStep(sub, i, b.journal, writable, disordered, early).eff;
             !eff.PutFails? && (eff.Put? ==> sub.cell == i && Holds(b.active, sub.key, i))
    ensures KeepsStanding(i, b, cells, InsertStep(sub, i, b.journal, writable, disordered, early))
  {
  }

  lemma DecideStands(i: Sid, sub: Submit, b: Shared, cells: map<Sid, ControlResult>, now: int)
    requires sub.pc.Decided? && Standing(i, sub, b, cells)
    requires i in b.inserters <==> sub.pc.verdict == Answered(J.Inserted)
    ensures KeepsStanding(i, b, cells, DecideStep(sub, i, now))
  {
  }

  lemma FinishStands(i: Sid, sub: Submit, b: Shared, cells: map<Sid, ControlResult>)
    requires Standing(i, sub, b, cells) && (sub.pc.FinishSettle? ==> sub.key in b.journal)
    ensures sub.pc.FinishSettle? ==> KeepsStanding(i, b, cells, FinishSettleStep(sub, i, true, true))
    ensures sub.pc.FinishRemove? ==> KeepsStanding(i, b, cells, FinishRemoveStep(sub))
    ensures sub.pc.FinishWrite? ==> KeepsStanding(i, b, cells, FinishWriteStep(sub))
  {
  }

  lemma CheckStands(
    i: Sid, sub: Submit, b: Shared, cells: map<Sid, ControlResult>, reject: Option<string>, timeout: nat,
    closed: bool, now: int)
    requires Standing(i, sub, b, cells) && i in b.inserters && sub.key in b.journal
    ensures sub.pc.Check? ==> KeepsStanding(i, b, cells, CheckStep(sub, reject, timeout, now))
    ensures sub.pc.Enqueue? ==> KeepsStanding(i, b, cells, RefusedStep(sub, closed, now))
    ensures sub.pc.Enqueued? && sub.cell == i ==> KeepsStanding(i, b, cells, AcceptStep(sub, i in cells))
  {
  }

  /** Only the registrant of a calm key puts a record into the journal. */
  lemma InserterHolds(s: State, i: Sid, a: SubmitAction)
    requires i < |s.submits| && Standing(i, s.submits[i], SharedOf(s), s.cells)
    requires PointsOk(s) && MayMove(s, s.submits[i], a) && a.Inserts?
    requires Holds(s.active, s.submits[i].key, s.submits[i].cell) ==>
               Standing(s.submits[i].cell, s.submits[s.submits[i].cell], SharedOf(s), s.cells)
    requires var eff := SubmitStep(s, i, a).eff; eff.Put? && !eff.early && !eff.disordered
    ensures s.submits[i].cell == i && Holds(s.active, s.submits[i].key, i)
  {
  }

  lemma CalmMove(s: State, i: Sid, a: SubmitAction, key: Key)
    requires i < |s.submits| && MayMove(s, s.submits[i], a)
    requires Calm(Move(s, i, SubmitStep(s, i, a)), key)
    ensures Calm(s, key) && Unmarked(MarksAfter(s.marks, SubmitStep(s, i, a).eff, s.journal), key)
  {
    var step := SubmitStep(s, i, a);
    SubmitPoints(s, i, a);
    CalmBefore(s, step.eff, s.submits[i := step.next], s.queues, key);
  }

  lemma InsertingStands(s: State, i: Sid, writable: bool)
    requires Settled(s) && PointsOk(s) && i < |s.submits| && s.submits[i].pc.Insert? && Calm(s, s.submits[i].key)
    requires i !in s.trace.inserters && i !in s.cells
    requires var eff := SubmitStep(s, i, Inserts(writable)).eff;
             !eff.PutFails? && (eff.Put? ==> !eff.early && !eff.disordered)
    ensures KeepsStanding(i, SharedOf(s), s.cells, SubmitStep(s, i, Inserts(writable)))
  {
    var sub, eff := s.submits[i], SubmitStep(s, i, Inserts(writable)).eff;
    assert Standing(i, sub, SharedOf(s), s.cells) && RecordOk(sub.key, SharedOf(s));
    if eff.Put? {
      InserterHolds(s, i, Inserts(writable));
    }
    InsertStands(i, sub, SharedOf(s), s.cells, writable, eff.disordered,
                 sub.key in s.journal && !(Holds(s.active, sub.key, i) && sub.cell == i && Quiet(s, sub.key, i)));
  }

  lemma SubmitStands(s: State, i: Sid, a: SubmitAction)
    requires Settled(s) && Grounded(s) && Once(s) && Shaped(s) && PointsOk(s)
    requires i < |s.submits| && MayMove(s, s.submits[i], a)
    requires Calm(Move(s, i, SubmitStep(s, i, a)), s.submits[i].key)
    ensures KeepsStanding(i, SharedOf(s), s.cells, SubmitStep(s, i, a))
  {
    var sub, b, eff := s.submits[i], SharedOf(s), SubmitStep(s, i, a).eff;
    CalmMove(s, i, a, sub.key);
    SubmitApproach(s, i, a);
    UnmarkedAfter(s.marks, eff, s.journal, sub.key);
    assert Standing(i, sub, b, s.cells) && Footing(i, sub, HeldAt(s, i), b);
    assert SubmitOk(i, sub, s.trace) && CellShape(i, sub, s.cells);
    match a
    case Registers => RegisterStands(i, sub, b, s.cells);
    case Inserts(writable) => InsertingStands(s, i, writable);
    case Decides => DecideStands(i, sub, b, s.cells, s.clock);
    case Checks(reject, timeout) => CheckStands(i, sub, b, s.cells, reject, timeout, false, s.clock);
    case TurnedAway(_) =>
      CheckStands(i, sub, b, s.cells, None, 0, s.closed || QueueOf(s.queues, sub.key.device).closed, s.clock);
    case Accepts => CheckStands(i, sub, b, s.cells, None, 0, false, s.clock);
    case FinishSettles(_) => FinishStands(i, sub, b, s.cells);
    case FinishRemoves => FinishStands(i, sub, b, s.cells);
    case FinishWrites => FinishStands(i, sub, b, s.cells);
    case Orphans(_) =>
    case Interrupts =>
    case Uninterrupts =>
  }

  lemma MoveRecord(s: State, i: Sid, a: SubmitAction, k: Key)
    requires Settled(s) && Grounded(s) && Once(s) && Shaped(s) && PointsOk(s)
    requires i < |s.submits| && MayMove(s, s.submits[i], a) && Calm(Move(s, i, SubmitStep(s, i, a)), k)
    ensures RecordOk(k, SharedAfter(SharedOf(s), SubmitStep(s, i, a).eff))
  {
    var b, eff := SharedOf(s), SubmitStep(s, i, a).eff;
    CalmMove(s, i, a, k);
    if k == s.submits[i].key {
      SubmitStands(s, i, a);
      RecordStays(i, eff, b, k);
    } else {
      SubmitApproach(s, i, a);
      OtherKeys(eff, s.submits[i].key, k, b);
      SameRecord(k, b, SharedAfter(b, eff));
    }
  }

  lemma MoveStanding(s: State, i: Sid, a: SubmitAction, j: Sid)
    requires Settled(s) && Grounded(s) && Once(s) && Shaped(s) && PointsOk(s)
    requires i < |s.submits| && MayMove(s, s.submits[i], a) && j < |s.submits| && j != i
    requires Calm(Move(s, i, SubmitStep(s, i, a)), s.submits[j].key)
    ensures var eff := SubmitStep(s, i, a).eff;
            Standing(j, s.submits[j], SharedAfter(SharedOf(s), eff), CellsAfter(s.cells, eff))
  {
    var b, eff := SharedOf(s), SubmitStep(s, i, a).eff;
    CalmMove(s, i, a, s.submits[j].key);
    SubmitApproach(s, i, a);
    assert CellShape(i, s.submits[i], s.cells) && SubmitOk(i, s.submits[i], s.trace);
    SubmitShaped(s, i, a);
    if s.submits[j].key == s.submits[i].key {
      SubmitStands(s, i, a);
      UnmarkedAfter(s.marks, eff, s.journal, s.submits[j].key);
      if eff.Put? && s.submits[j].key in s.journal {
        NotEarly(s, i, a, j);
      }
      StandingKept(i, eff, j, s.submits[j], HeldAt(s, j), b, s.cells);
    } else {
      OtherKeys(eff, s.submits[i].key, s.submits[j].key, b);
      SameStanding(j, s.submits[j], b, SharedAfter(b, eff), s.cells, CellsAfter(s.cells, eff));
    }
  }

  lemma OwnWorkStanding(s: State, i: Sid, a: SubmitAction, d: string, who: Who)
    requires Settled(s) && Grounded(s) && Once(s) && Shaped(s) && PointsOk(s)
    requires i < |s.submits| && MayMove(s, s.submits[i], a) && d in s.queues && Works(s.queues[d], who)
    requires Calm(Move(s, i, SubmitStep(s, i, a)), s.submits[i].key)
    requires s.submits[i].key == Sub(s.submits, WorkOf(s.queues[d], who).entry).key
    ensures WorkStanding(WorkOf(s.queues[d], who), s.submits[i].key, SharedAfter(SharedOf(s), SubmitStep(s, i, a).eff))
  {
    WorkerOwns(s, d, who);
    var work, eff, key := WorkOf(s.queues[d], who), SubmitStep(s, i, a).eff, s.submits[i].key;
    CalmMove(s, i, a, key);
    assert QueueStanding(s, d);
    SubmitStands(s, i, a);
    if work.entry == i {
      assert a.Accepts?;
    } else {
      SubmitApproach(s, i, a);
      UnmarkedAfter(s.marks, eff, s.journal, key);
      if eff.Put? {
        NotEarly(s, i, a, work.entry);
      }
      WorkKept(i, eff, work, key, SharedOf(s));
    }
  }

  lemma MoveWorkStanding(s: State, i: Sid, a: SubmitAction, d: string, who: Who)
    requires Settled(s) && Grounded(s) && Once(s) && Shaped(s) && PointsOk(s)
    requires i < |s.submits| && MayMove(s, s.submits[i], a) && d in s.queues && Works(s.queues[d], who)
    requires Calm(Move(s, i, SubmitStep(s, i, a)), Sub(s.submits, WorkOf(s.queues[d], who).entry).key)
    ensures var work := WorkOf(s.queues[d], who);
            WorkStanding(work, Sub(s.submits, work.entry).key, SharedAfter(SharedOf(s), SubmitStep(s, i, a).eff))
  {
    var work, b, eff := WorkOf(s.queues[d], who), SharedOf(s), SubmitStep(s, i, a).eff;
    var key := Sub(s.submits, work.entry).key;
    if s.submits[i].key == key {
      OwnWorkStanding(s, i, a, d, who);
    } else {
      CalmMove(s, i, a, key);
      assert QueueStanding(s, d);
      SubmitApproach(s, i, a);
      OtherKeys(eff, s.submits[i].key, key, b);
      SameWork(work, key, b, SharedAfter(b, eff));
    }
  }

  lemma MovedKey(s: State, i: Sid, a: SubmitAction, e: Sid)
    requires i < |s.submits| && MayMove(s, s.submits[i], a)
    ensures Sub(Move(s, i, SubmitStep(s, i, a)).submits, e).key == Sub(s.submits, e).key
  {
    SubmitPoints(s, i, a);
  }

  lemma MoveQueueStanding(s: State, i: Sid, a: SubmitAction, d: string)
    requires Settled(s) && Grounded(s) && Once(s) && Shaped(s) && PointsOk(s)
    requires i < |s.submits| && MayMove(s, s.submits[i], a) && d in s.queues
    ensures QueueStanding(Move(s, i, SubmitStep(s, i, a)), d)
  {
    var t := Move(s, i, SubmitStep(s, i, a));
    MovedShares(s, i, SubmitStep(s, i, a));
    forall who | Works(t.queues[d], who) && Calm(t, Sub(t.submits, WorkOf(t.queues[d], who).entry).key)
      ensures WorkStanding(WorkOf(t.queues[d], who), Sub(t.submits, WorkOf(t.queues[d], who).entry).key, SharedOf(t))
    {
      MovedKey(s, i, a, WorkOf(s.queues[d], who).entry);
      MoveWorkStanding(s, i, a, d, who);
    }
  }

  lemma MoveStandings(s: State, i: Sid, a: SubmitAction, j: Sid)
    requires Settled(s) && Grounded(s) && Once(s) && Shaped(s) && PointsOk(s)
    requires i < |s.submits| && MayMove(s, s.submits[i], a) && j < |s.submits|
    requires Calm(Move(s, i, SubmitStep(s, i, a)), s.submits[j].key)
    ensures var t := Move(s, i, SubmitStep(s, i, a));
            Standing(j, t.submits[j], SharedAfter(SharedOf(s), SubmitStep(s, i, a).eff), t.cells)
  {
    if j == i {
      SubmitStands(s, i, a);
    } else {
      MoveStanding(s, i, a, j);
    }
  }

  lemma MoveSettled(s: State, i: Sid, a: SubmitAction)
    requires Settled(s) && Grounded(s) && Once(s) && Shaped(s) && PointsOk(s)
    requires i < |s.submits| && MayMove(s, s.submits[i], a)
    ensures Settled(Move(s, i, SubmitStep(s, i, a)))
  {
    var step := SubmitStep(s, i, a);
    var t := Move(s, i, step);
    SubmitPoints(s, i, a);
    MovedShares(s, i, step);
    forall k | Calm(t, k) ensures RecordOk(k, SharedOf(t)) {
      MoveRecord(s, i, a, k);
    }
    forall j | 0 <= j < |t.submits| && Calm(t, t.submits[j].key)
      ensures Standing(j, t.submits[j], SharedOf(t), t.cells)
    {
      MoveStandings(s, i, a, j);
    }
    forall d | d in t.queues ensures QueueStanding(t, d) {
      MoveQueueStanding(s, i, a, d);
    }
  }

  // ---------- steps of a queue ----------

  /** What a calm effect of a queue keeps to. */
  ghost predicate Disciplined(eff: Effect, b: Shared, submits: seq<Submit>) {
    && !eff.Claim? && !eff.Put?
    && (eff.Leave? ==> HasResult(b.journal, eff.key))
    && (eff.Settle? ==> eff.ok)
    && (eff.Post? ==>
          && HasResult(b.journal, Sub(submits, eff.cell).key)
          && !Holds(b.active, Sub(submits, eff.cell).key, eff.cell))
  }

  lemma TurnStanding(eff: Effect, j: Sid, b: Shared, cells: map<Sid, ControlResult>, submits: seq<Submit>)
    requires j < |submits| && Standing(j, submits[j], b, cells) && Disciplined(eff, b, submits)
    ensures Standing(j, submits[j], SharedAfter(b, eff), CellsAfter(cells, eff))
  {
  }

  lemma TurnRecord(eff: Effect, b: Shared, submits: seq<Submit>, k: Key)
    requires RecordOk(k, b) && Disciplined(eff, b, submits)
    ensures RecordOk(k, SharedAfter(b, eff))
  {
  }

  lemma TurnWork(eff: Effect, work: Work, key: Key, b: Shared, submits: seq<Submit>)
    requires WorkStanding(work, key, b) && Disciplined(eff, b, submits)
    ensures WorkStanding(work, key, SharedAfter(b, eff))
  {
  }

  lemma SettlingDisciplined(s: State, d: string, a: QueueAction)
    requires Settled(s) && Grounded(s) && Once(s) && d in s.queues && MayTurn(s, s.queues[d], a) && Settling(a)
    requires var key := Sub(s.submits, WorkOf(s.queues[d], a.who).entry).key;
             Calm(s, key) && Unmarked(MarksAfter(s.marks, QueueStep(s, d, a).eff, s.journal), key)
    ensures Disciplined(QueueStep(s, d, a).eff, SharedOf(s), s.submits)
  {
    var work := WorkOf(s.queues[d], a.who);
    SettlingEffect(s, d, a);
    WorkerOwns(s, d, a.who);
    UnmarkedAfter(s.marks, QueueStep(s, d, a).eff, s.journal, s.submits[work.entry].key);
    assert QueueStanding(s, d);
    assert WorkStanding(work, s.submits[work.entry].key, SharedOf(s));
  }

  /** A queue's step on a calm key keeps to the rules; on another key it does not touch this one. */
  lemma TurnTouches(s: State, d: string, a: QueueAction, k: Key)
    requires Settled(s) && Grounded(s) && Once(s) && d in s.queues && MayTurn(s, s.queues[d], a)
    requires Calm(Turn(s, d, QueueStep(s, d, a)), k)
    ensures var eff, b := QueueStep(s, d, a).eff, SharedOf(s);
            || Disciplined(eff, b, s.submits)
            || (SameAt(k, b, SharedAfter(b, eff)) && (eff.Post? ==> Sub(s.submits, eff.cell).key != k))
  {
    var step := QueueStep(s, d, a);
    CalmBefore(s, step.eff, s.submits, s.queues[d := step.next], k);
    if !Settling(a) {
      QuietTurn(s, d, a);
    } else {
      SettlingEffect(s, d, a);
      QueuePosts(s, d, a);
      var key := Sub(s.submits, WorkOf(s.queues[d], a.who).entry).key;
      if key == k {
        SettlingDisciplined(s, d, a);
      } else {
        OtherKeys(step.eff, key, k, SharedOf(s));
      }
    }
  }

  lemma CalmTurn(s: State, d: string, step: Step<Queue>, k: Key)
    requires Calm(Turn(s, d, step), k)
    ensures Calm(s, k)
  {
    CalmBefore(s, step.eff, s.submits, s.queues[d := step.next], k);
  }

  lemma SettlingStands(q: Queue, who: Who, key: Key, b: Shared)
    requires Works(q, who) && key in b.journal && WorkStanding(WorkOf(q, who), key, b)
    ensures var step := JournalStep(q, who, key, true, Ok);
            WorkStanding(WorkOf(step.next, who), key, SharedAfter(b, step.eff))
    ensures WorkOf(q, who).stage.Journaled? ==>
              var step := RemoveStep(q, who, key);
              WorkStanding(WorkOf(step.next, who), key, SharedAfter(b, step.eff))
    ensures WorkOf(q, who).stage.ToAudit? ==>
              forall cell :: var step := WriteStep(q, who, cell);
                WorkStanding(WorkOf(step.next, who), key, SharedAfter(b, step.eff))
  {
  }

  /** The settlement whose step this is. */
  lemma SettlingWorkStands(s: State, d: string, a: QueueAction)
    requires Settled(s) && Grounded(s) && Once(s) && d in s.queues && MayTurn(s, s.queues[d], a) && Settling(a)
    requires Works(QueueStep(s, d, a).next, a.who)
    requires Calm(Turn(s, d, QueueStep(s, d, a)), Sub(s.submits, WorkOf(s.queues[d], a.who).entry).key)
    ensures WorkStanding(WorkOf(QueueStep(s, d, a).next, a.who), Sub(s.submits, WorkOf(s.queues[d], a.who).entry).key,
                         SharedAfter(SharedOf(s), QueueStep(s, d, a).eff))
  {
    var q := s.queues[d];
    var key := Sub(s.submits, WorkOf(q, a.who).entry).key;
    CalmTurn(s, d, QueueStep(s, d, a), key);
    WorkerOwns(s, d, a.who);
    assert QueueStanding(s, d);
    CalmJournal(s, d, a);
    SettlingStands(q, a.who, key, SharedOf(s));
  }

  /** On a calm key the journal write succeeds. */
  lemma CalmJournal(s: State, d: string, a: QueueAction)
    requires d in s.queues && MayTurn(s, s.queues[d], a) && Settling(a)
    requires Calm(Turn(s, d, QueueStep(s, d, a)), Sub(s.submits, WorkOf(s.queues[d], a.who).entry).key)
    requires Sub(s.submits, WorkOf(s.queues[d], a.who).entry).key in s.journal
    ensures a.Journals? ==> a.write.Ok?
  {
    SettlingEffect(s, d, a);
    UnmarkedAfter(s.marks, QueueStep(s, d, a).eff, s.journal, Sub(s.submits, WorkOf(s.queues[d], a.who).entry).key);
  }

  /** A settlement in hand that this step is not part of. */
  lemma OtherWorkStands(s: State, d: string, a: QueueAction, d': string, who: Who)
    requires Settled(s) && Grounded(s) && Once(s) && d in s.queues && MayTurn(s, s.queues[d], a)
    requires d' in s.queues && Works(s.queues[d'], who)
    requires Calm(Turn(s, d, QueueStep(s, d, a)), Sub(s.submits, WorkOf(s.queues[d'], who).entry).key)
    ensures var work := WorkOf(s.queues[d'], who);
            WorkStanding(work, Sub(s.submits, work.entry).key, SharedAfter(SharedOf(s), QueueStep(s, d, a).eff))
  {
    var eff, work := QueueStep(s, d, a).eff, WorkOf(s.queues[d'], who);
    var key := Sub(s.submits, work.entry).key;
    CalmTurn(s, d, QueueStep(s, d, a), key);
    assert QueueStanding(s, d');
    TurnTouches(s, d, a, key);
    if Disciplined(eff, SharedOf(s), s.submits) {
      TurnWork(eff, work, key, SharedOf(s), s.submits);
    } else {
      SameWork(work, key, SharedOf(s), SharedAfter(SharedOf(s), eff));
    }
  }

  /** Where a settlement in hand after the step was before it. */
  lemma WorkFrom(s: State, d: string, a: QueueAction, d': string, who: Who)
    requires d in s.queues && MayTurn(s, s.queues[d], a)
    requires var t := Turn(s, d, QueueStep(s, d, a)); d' in t.queues && Works(t.queues[d'], who)
    ensures var work := WorkOf(Turn(s, d, QueueStep(s, d, a)).queues[d'], who);
            || (work.stage.ToJournal? && !Settling(a))
            || (d' == d && Settling(a) && a.who == who && Works(s.queues[d], who))
            || (d' in s.queues && Works(s.queues[d'], who) && work == WorkOf(s.queues[d'], who))
  {
    if d' == d && !Settling(a) {
      FreshWork(s, d, a, who);
    }
  }

  lemma TurnWorkStands(s: State, d: string, a: QueueAction, d': string, who: Who)
    requires Settled(s) && Grounded(s) && Once(s) && d in s.queues && MayTurn(s, s.queues[d], a)
    requires var t := Turn(s, d, QueueStep(s, d, a));
             && d' in t.queues && Works(t.queues[d'], who)
             && Calm(t, Sub(s.submits, WorkOf(t.queues[d'], who).entry).key)
    ensures var t := Turn(s, d, QueueStep(s, d, a));
            var work := WorkOf(t.queues[d'], who);
            WorkStanding(work, Sub(s.submits, work.entry).key, SharedAfter(SharedOf(s), QueueStep(s, d, a).eff))
  {
    WorkFrom(s, d, a, d', who);
    var work := WorkOf(Turn(s, d, QueueStep(s, d, a)).queues[d'], who);
    if d' in s.queues && Works(s.queues[d'], who) && work == WorkOf(s.queues[d'], who) {
      OtherWorkStands(s, d, a, d', who);
    } else if Settling(a) {
      SettlingWorkEntry(s, d, a);
      SettlingWorkStands(s, d, a);
    }
  }

  lemma SettlingWorkEntry(s: State, d: string, a: QueueAction)
    requires d in s.queues && MayTurn(s, s.queues[d], a) && Settling(a) && Works(QueueStep(s, d, a).next, a.who)
    ensures WorkOf(QueueStep(s, d, a).next, a.who).entry == WorkOf(s.queues[d], a.who).entry
  {
  }

  lemma TurnRecordOk(s: State, d: string, a: QueueAction, k: Key)
    requires Settled(s) && Grounded(s) && Once(s) && d in s.queues && MayTurn(s, s.queues[d], a)
    requires Calm(Turn(s, d, QueueStep(s, d, a)), k)
    ensures RecordOk(k, SharedAfter(SharedOf(s), QueueStep(s, d, a).eff))
  {
    var step, b := QueueStep(s, d, a), SharedOf(s);
    CalmTurn(s, d, step, k);
    TurnTouches(s, d, a, k);
    if Disciplined(step.eff, b, s.submits) {
      TurnRecord(step.eff, b, s.submits, k);
    } else {
      SameRecord(k, b, SharedAfter(b, step.eff));
    }
  }

  lemma TurnStandingOk(s: State, d: string, a: QueueAction, j: Sid)
    requires Settled(s) && Grounded(s) && Once(s) && d in s.queues && MayTurn(s, s.queues[d], a) && j < |s.submits|
    requires Calm(Turn(s, d, QueueStep(s, d, a)), s.submits[j].key)
    ensures var eff := QueueStep(s, d, a).eff;
            Standing(j, s.submits[j], SharedAfter(SharedOf(s), eff), CellsAfter(s.cells, eff))
  {
    var step, b := QueueStep(s, d, a), SharedOf(s);
    CalmTurn(s, d, step, s.submits[j].key);
    TurnTouches(s, d, a, s.submits[j].key);
    if Disciplined(step.eff, b, s.submits) {
      TurnStanding(step.eff, j, b, s.cells, s.submits);
    } else {
      SameStanding(j, s.submits[j], b, SharedAfter(b, step.eff), s.cells, CellsAfter(s.cells, step.eff));
    }
  }

  lemma TurnSettled(s: State, d: string, a: QueueAction)
    requires Settled(s) && Grounded(s) && Once(s) && d in s.queues && MayTurn(s, s.queues[d], a)
    ensures Settled(Turn(s, d, QueueStep(s, d, a)))
  {
    var t := Turn(s, d, QueueStep(s, d, a));
    assert SharedOf(t) == SharedAfter(SharedOf(s), QueueStep(s, d, a).eff);
    forall k | Calm(t, k) ensures RecordOk(k, SharedOf(t)) {
      TurnRecordOk(s, d, a, k);
    }
    forall j | 0 <= j < |t.submits| && Calm(t, t.submits[j].key)
      ensures Standing(j, t.submits[j], SharedOf(t), t.cells)
    {
      TurnStandingOk(s, d, a, j);
    }
    forall d', who | d' in t.queues && Works(t.queues[d'], who)
      && Calm(t, Sub(t.submits, WorkOf(t.queues[d'], who).entry).key)
      ensures WorkStanding(WorkOf(t.queues[d'], who), Sub(t.submits, WorkOf(t.queues[d'], who).entry).key, SharedOf(t))
    {
      TurnWorkStands(s, d, a, d', who);
    }
  }

  /** A worker's death publishes nothing. */
  lemma PanicSettled(s: State, d: string)
    requires Settled(s) && d in s.queues
    ensures Settled(Turn(s, d, DeathStep(s.queues[d], d, s.cells)))
  {
    var step := DeathStep(s.queues[d], d, s.cells);
    var t := Turn(s, d, step);
    assert SharedOf(t) == SharedOf(s) && t.cells == s.cells;
    forall k | Calm(t, k) ensures Calm(s, k) {
      CalmTurn(s, d, step, k);
    }
    forall d', who | d' in t.queues && Works(t.queues[d'], who)
      && Calm(t, Sub(t.submits, WorkOf(t.queues[d'], who).entry).key)
      ensures WorkStanding(WorkOf(t.queues[d'], who), Sub(t.submits, WorkOf(t.queues[d'], who).entry).key, SharedOf(t))
    {
      assert Works(s.queues[d'], who) && WorkOf(s.queues[d'], who) == WorkOf(t.queues[d'], who);
      assert QueueStanding(s, d');
    }
  }

  // ---------- everything else ----------

  lemma EnqueueSettled(s: State, i: Sid)
    requires Settled(s) && CellsShaped(s) && i < |s.submits| && s.submits[i].pc.Enqueue?
    ensures Settled(Enqueueing(s, i))
  {
    var t := Enqueueing(s, i);
    assert CellShape(i, s.submits[i], s.cells) && SharedOf(t) == SharedOf(s);
    forall k | Calm(t, k) ensures Calm(s, k) {
      EnqueueCalm(s, i, k);
    }
    forall j | 0 <= j < |t.submits| && Calm(t, t.submits[j].key)
      ensures Standing(j, t.submits[j], SharedOf(t), t.cells)
    {
      assert Standing(j, s.submits[j], SharedOf(s), s.cells);
    }
    forall d, who | d in t.queues && Works(t.queues[d], who)
      && Calm(t, Sub(t.submits, WorkOf(t.queues[d], who).entry).key)
      ensures WorkStanding(WorkOf(t.queues[d], who), Sub(t.submits, WorkOf(t.queues[d], who).entry).key, SharedOf(t))
    {
      assert d in s.queues && Works(s.queues[d], who) && WorkOf(s.queues[d], who) == WorkOf(t.queues[d], who);
      assert QueueStanding(s, d);
    }
  }

  lemma EnqueueCalm(s: State, i: Sid, k: Key)
    requires i < |s.submits| && s.submits[i].pc.Enqueue? && Calm(Enqueueing(s, i), k)
    ensures Calm(s, k)
  {
    var t := Enqueueing(s, i);
    assert Effected(s, Nothing).(submits := t.submits, queues := t.queues) == t;
    CalmBefore(s, Nothing, t.submits, t.queues, k);
  }

  /** An entry of a calm key is in its queue until its receipt is written. */
  lemma AcceptedHeld(s: State, j: Sid)
    requires Places(s) && j < |s.submits| && IsAccepted(j, s.submits[j]) && j !in s.cells && j !in s.hist.stranded
    ensures HeldAt(s, j)
  {
    var d := s.submits[j].key.device;
    assert DevicePlaced(s, d) && j in AcceptedBy(s.submits, d);
  }

  /** Who holds a calm key is live, or about to ask the journal. */
  lemma HolderLive(s: State, j: Sid)
    requires Settled(s) && SubmitsOk(s) && Places(s) && j < |s.submits| && Holds(s.active, s.submits[j].key, j)
    requires Calm(s, s.submits[j].key)
    ensures s.submits[j].pc.Insert? || Live(s.submits[j], HeldAt(s, j))
  {
    assert Standing(j, s.submits[j], SharedOf(s), s.cells) && SubmitOk(j, s.submits[j], s.trace);
    if IsAccepted(j, s.submits[j]) {
      AcceptedHeld(s, j);
    }
  }

  /** A calm key whose record is purged is held by nobody. */
  lemma PurgedUnheld(s: State, now: int, j: Sid)
    requires Settled(s) && SubmitsOk(s) && PointsOk(s) && Places(s) && j < |s.submits|
    requires Calm(s, s.submits[j].key) && s.submits[j].key !in PurgedEarly(s, now)
    requires s.submits[j].key in s.journal && s.journal[s.submits[j].key].expiresAt < now
    ensures !Live(s.submits[j], HeldAt(s, j)) && !s.submits[j].pc.Insert? && !Holds(s.active, s.submits[j].key, j)
  {
    assert !Busy(s, j, |s.submits|);
    if Holds(s.active, s.submits[j].key, j) {
      HolderLive(s, j);
    }
  }

  lemma NotPurged(s: State, now: int, e: Sid)
    requires e < |s.submits| && s.submits[e].key !in PurgedEarly(s, now) && Busy(s, e, |s.submits|)
    ensures s.submits[e].key in s.journal ==> s.journal[s.submits[e].key].expiresAt >= now
  {
    assert !Quiet(s, s.submits[e].key, |s.submits|);
  }

  /** A purge that is not early keeps the record of every live inserter. */
  lemma PurgeKeeps(s: State, now: int, e: Sid)
    requires e < |s.submits| && s.submits[e].key !in PurgedEarly(s, now) && Live(s.submits[e], HeldAt(s, e))
    ensures SameAt(s.submits[e].key, SharedOf(s), SharedOf(Purged(s, now)))
  {
    NotPurged(s, now, e);
    assert SharedOf(Purged(s, now)) == SharedOf(s).(journal := J.Unexpired(s.journal, now));
  }

  lemma PurgeWork(s: State, now: int, d: string, who: Who)
    requires Settled(s) && Grounded(s) && Once(s) && d in s.queues && Works(s.queues[d], who)
    requires var k := Sub(s.submits, WorkOf(s.queues[d], who).entry).key; Calm(s, k) && k !in PurgedEarly(s, now)
    ensures var work := WorkOf(s.queues[d], who);
            WorkStanding(work, Sub(s.submits, work.entry).key, SharedOf(Purged(s, now)))
  {
    var work := WorkOf(s.queues[d], who);
    WorkerOwns(s, d, who);
    PurgeKeeps(s, now, work.entry);
    assert QueueStanding(s, d);
    SameWork(work, s.submits[work.entry].key, SharedOf(s), SharedOf(Purged(s, now)));
  }

  lemma PurgeCalm(s: State, now: int, k: Key)
    requires Calm(Purged(s, now), k)
    ensures Calm(s, k) && k !in PurgedEarly(s, now)
  {
  }

  lemma PurgeStanding(s: State, now: int, j: Sid)
    requires Settled(s) && SubmitsOk(s) && PointsOk(s) && Places(s) && j < |s.submits|
    requires Calm(s, s.submits[j].key) && s.submits[j].key !in PurgedEarly(s, now)
    ensures Standing(j, s.submits[j], SharedOf(Purged(s, now)), s.cells)
  {
    var sub, b, b' := s.submits[j], SharedOf(s), SharedOf(Purged(s, now));
    assert b' == b.(journal := J.Unexpired(s.journal, now));
    if sub.key in s.journal && s.journal[sub.key].expiresAt < now {
      PurgedUnheld(s, now, j);
      IdleStanding(j, sub, HeldAt(s, j), b, b', s.cells);
    } else {
      SameStanding(j, sub, b, b', s.cells, s.cells);
    }
  }

  /** Nothing depends on the record of who is done with it. */
  lemma IdleStanding(j: Sid, sub: Submit, held: bool, b: Shared, b': Shared, cells: map<Sid, ControlResult>)
    requires Standing(j, sub, b, cells) && !Live(sub, held) && !sub.pc.Insert? && !Holds(b.active, sub.key, j)
    requires b'.active == b.active && b'.inserters == b.inserters
    ensures Standing(j, sub, b', cells)
  {
  }

  lemma PurgeSettled(s: State, now: int)
    requires Settled(s) && Grounded(s) && Once(s) && PointsOk(s) && Places(s)
    ensures Settled(Purged(s, now))
  {
    var t := Purged(s, now);
    forall k | Calm(t, k) ensures RecordOk(k, SharedOf(t)) {
      PurgeCalm(s, now, k);
      assert RecordOk(k, SharedOf(s));
    }
    forall j | 0 <= j < |t.submits| && Calm(t, t.submits[j].key)
      ensures Standing(j, t.submits[j], SharedOf(t), t.cells)
    {
      PurgeCalm(s, now, s.submits[j].key);
      PurgeStanding(s, now, j);
    }
    forall d, who | d in t.queues && Works(t.queues[d], who)
      && Calm(t, Sub(t.submits, WorkOf(t.queues[d], who).entry).key)
      ensures WorkStanding(WorkOf(t.queues[d], who), Sub(t.submits, WorkOf(t.queues[d], who).entry).key, SharedOf(t))
    {
      PurgeCalm(s, now, Sub(s.submits, WorkOf(s.queues[d], who).entry).key);
      PurgeWork(s, now, d, who);
    }
  }

  lemma ArriveSettled(s: State, sub: Submit)
    requires Settled(s) && Grounded(s) && Once(s) && PointsOk(s) && StrandedOk(s) && sub.pc.Register?
    ensures Settled(s.(submits := s.submits + [sub]))
  {
    var t := s.(submits := s.submits + [sub]);
    assert SharedOf(t) == SharedOf(s);
    forall k | Calm(t, k) ensures Calm(s, k) {
      assert forall e :: e in s.hist.stranded && e < |s.submits| ==> t.submits[e] == s.submits[e];
    }
    forall j | 0 <= j < |t.submits| && Calm(t, t.submits[j].key)
      ensures Standing(j, t.submits[j], SharedOf(t), t.cells)
    {
      if j < |s.submits| {
        assert Standing(j, s.submits[j], SharedOf(s), s.cells);
      }
    }
    forall d, who | d in t.queues && Works(t.queues[d], who)
      && Calm(t, Sub(t.submits, WorkOf(t.queues[d], who).entry).key)
      ensures WorkStanding(WorkOf(t.queues[d], who), Sub(t.submits, WorkOf(t.queues[d], who).entry).key, SharedOf(t))
    {
      WorksOnAccepted(s, d, who);
      assert QueueStanding(s, d);
    }
  }

  lemma SameSettled(s: State, t: State)
    requires Settled(s) && t.submits == s.submits && t.queues == s.queues && t.cells == s.cells
    requires t.marks == s.marks && t.hist == s.hist && SharedOf(t) == SharedOf(s)
    ensures Settled(t)
  {
    forall k ensures Calm(t, k) <==> Calm(s, k) {
    }
    forall d | d in t.queues ensures QueueStanding(t, d) {
      assert QueueStanding(s, d);
    }
  }

  // ---------- restarts ----------

  /** A restart settles every record it finds open. */
  lemma CrashSettled(s: State)
    requires OpenRuns(s.journal)
    ensures Settled(Crashed(s))
  {
    var t := Crashed(s);
    forall k ensures RecordOk(k, SharedOf(t)) {
    }
    forall j | 0 <= j < |t.submits| ensures Standing(j, t.submits[j], SharedOf(t), t.cells) {
      assert t.submits[j].pc.Gone?;
    }
  }

  // ---------- whole runs ----------

  lemma StepSettled(s: State, a: Action)
    requires Settled(s) && OpenRuns(s.journal) && Grounded(s) && Once(s) && Shaped(s) && Places(s) && PointsOk(s)
    requires Enabled(s, a)
    ensures Settled(Apply(s, a))
  {
    match a
    case BySubmit(i, move) => MoveSettled(s, i, move);
    case Enqueues(i) => EnqueueSettled(s, i);
    case ByQueue(d, turn) => TurnSettled(s, d, turn);
    case Panics(d) => PanicSettled(s, d);
    case Purges(now) => PurgeSettled(s, now);
    case Arrives(key, hash, retention) => ArriveSettled(s, NewSubmit(key, hash, s.clock, retention, |s.submits|));
    case Crashes => CrashSettled(s);
    case Tick(_) => SameSettled(s, Apply(s, a));
    case Cancels(_, _) => SameSettled(s, Apply(s, a));
    case Stops => SameSettled(s, Apply(s, a));
  }

  lemma {:induction false} ExecSettled(s0: State, actions: seq<Action>)
    requires Init(s0) && Exec(s0, actions).Some?
    ensures Settled(Exec(s0, actions).value)
  {
    if actions != [] {
      var before, a := actions[..|actions| - 1], actions[|actions| - 1];
      ExecSettled(s0, before);
      ExecOpens(s0, before);
      ExecGrounded(s0, before);
      ExecShaped(s0, before);
      ExecPlaced(s0, before);
      ExecOnce(s0, before);
      ExecWaits(s0, before);
      StepSettled(Exec(s0, before).value, a);
    }
  }

  // ---------- who drops did not insert ----------

  ghost predicate DropsNoRecord(s: State) {
    forall i :: i in s.hist.dropped ==> i !in s.trace.inserters
  }

  lemma StepDrops(s: State, a: Action)
    requires DropsNoRecord(s) && Once(s) && DropsOk(s) && Enabled(s, a)
    ensures DropsNoRecord(Apply(s, a))
  {
    match a
    case BySubmit(i, move) =>
      SubmitStepOk(s, i, move);
      DroppedAfter(s.hist, SubmitStep(s, i, move).eff, s.closed);
      DropsUninserted(s, i, move);
    case ByQueue(d, turn) =>
      QueuePutsNothing(s, d, turn);
      QueueEffects(s, d, turn);
      DroppedAfter(s.hist, QueueStep(s, d, turn).eff, s.closed);
    case Panics(d) => DroppedAfter(s.hist, DeathStep(s.queues[d], d, s.cells).eff, s.closed);
    case _ =>
  }

  lemma DropsUninserted(s: State, i: Sid, a: SubmitAction)
    requires Once(s) && DropsOk(s) && i < |s.submits| && MayMove(s, s.submits[i], a)
    ensures var eff := SubmitStep(s, i, a).eff;
            && (eff.Leave? ==> forall x :: x in eff.dropped ==> x == i && i !in s.trace.inserters)
            && (eff.Put? ==> eff.i == i && i !in s.hist.dropped)
  {
  }

  lemma {:induction false} ExecDrops(s0: State, actions: seq<Action>)
    requires Init(s0) && Exec(s0, actions).Some?
    ensures DropsNoRecord(Exec(s0, actions).value)
  {
    if actions != [] {
      var before := actions[..|actions| - 1];
      ExecDrops(s0, before);
      ExecOnce(s0, before);
      ExecWaits(s0, before);
      StepDrops(Exec(s0, before).value, actions[|actions| - 1]);
    }
  }

  // ---------- theorem ----------

  /** Every receipt somebody waits for under a calm key has been written, or the submit or the queue
      entry that will write it is alive. */
  lemma WaitersHaveAnOwner(s0: State, actions: seq<Action>, j: Sid)
    requires Init(s0) && Exec(s0, actions).Some?
    requires var s := Exec(s0, actions).value;
             && j < |s.submits| && s.submits[j].pc.Returned? && s.submits[j].pc.reply.Waits?
             && Calm(s, s.submits[j].key)
    ensures var s := Exec(s0, actions).value;
            var c := s.submits[j].pc.reply.cell;
            c < |s.submits| && Answerable(s, c)
  {
    ExecSettled(s0, actions);
    ExecDrops(s0, actions);
    ExecOnce(s0, actions);
    ExecWaits(s0, actions);
    var s := Exec(s0, actions).value;
    assert Standing(j, s.submits[j], SharedOf(s), s.cells) && SubmitOk(j, s.submits[j], s.trace);
    assert Registered(s.submits, s.submits[j].cell, s.submits[j].key);
    WaiterAnsweredIff(s0, actions, j);
  }
}
