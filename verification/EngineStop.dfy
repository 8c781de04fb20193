/** A receipt never claims less than what happened: an entry said to have timed out or been cancelled was
    never started. Workers do not die by themselves here. An abort takes effect where the worker waits;
    shutdown does not wait for that and may read the queue first. */
module EngineStop {
  import opened ControlTypes
  import opened Engine
  import opened EngineOnce
  import opened EngineCells
  import opened EnginePlaces
  import J = Journal

  // ---------- receipts against runs ----------

  /** `r` is the executor's answer with envelope and completion time filled in. */
  predicate Echoes(r: ControlResult, answer: ControlResult) {
    r == answer.(key := r.key, completedAt := r.completedAt)
  }

  predicate Honest(e: Sid, r: ControlResult, started: set<Sid>, ended: map<Sid, ControlResult>) {
    e in started ==> r.status == Indeterminate || (e in ended && Echoes(r, ended[e]))
  }

  /** The executor answers with success, failure or uncertainty. */
  ghost predicate AnswersOk(ended: map<Sid, ControlResult>) {
    forall e :: e in ended ==>
      ended[e].status == Succeeded || ended[e].status == Failed || ended[e].status == Indeterminate
  }

  // ---------- one queue ----------

  /** Until shutdown reads the queue, a worker has nobody's entries to adopt. */
  ghost predicate Undisturbed(stop: bool, q: Queue) {
    match q.worker
    case Absent => stop || (q.running.None? && q.draining == [])
    case Boot => q.running.None? && q.draining == []
    case Adopt(orphans) => orphans == []
    case Adopting(_, _) => false
    case _ => true
  }

  /** After that: the worker, if it is not gone, runs on to where the abort takes effect. It has
      nothing to take any more. */
  ghost predicate Aftermath(cells: map<Sid, ControlResult>, q: Queue) {
    && q.closed && q.waiting == {}
    && (q.aborting || q.worker.Stopped? || q.worker.Absent?)
    && match q.worker
       case Boot => q.running.None? && q.draining == []
       case Adopt(orphans) => q.running.None? && q.draining == [] && orphans == []
       case Adopting(_, _) => false
       case Top => q.running.None? && q.draining == []
       case Pick => q.running.None? && q.draining == []
       case Picked(e, _) => q.running.None? && q.draining == []
       case Executing(e, _) => q.draining == []
       case Ran(e, _) => q.draining == []
       case SettlesRun(work) => q.draining == [] && (work.stage.Written? ==> work.entry in cells)
       case SettlesTracked(work) => q.running.None? && (work.stage.Written? ==> work.entry in cells && q.draining == [])
       case _ => true
  }

  ghost predicate TodoHonest(started: set<Sid>, todo: seq<Leftover>) {
    forall n :: 0 <= n < |todo| ==>
      todo[n].1.Unknown? || (todo[n].1.Cancelled? && todo[n].0 !in started)
  }

  predicate MayStart(w: Worker, e: Sid) {
    (w.Picked? || (w.Executing? && !w.started)) && w.entry == e
  }

  /** Of an entry the worker may yet start, shutdown claims nothing. */
  ghost predicate Reserved(cells: map<Sid, ControlResult>, q: Queue) {
    && (forall e :: MayStart(q.worker, e) && e in cells ==> cells[e].status == Indeterminate)
    && (match q.join
        case NotYet => true
        case Abandoned(todo) => TodoReserved(q.worker, todo)
        case Abandoning(work, todo) =>
          && TodoReserved(q.worker, todo)
          && (MayStart(q.worker, work.entry) ==> work.result.status == Indeterminate))
  }

  ghost predicate TodoReserved(w: Worker, todo: seq<Leftover>) {
    forall n :: 0 <= n < |todo| && MayStart(w, todo[n].0) ==> todo[n].1.Unknown?
  }

  ghost predicate HonestQueue(started: set<Sid>, ended: map<Sid, ControlResult>, q: Queue) {
    && (forall i :: i in q.draining ==> i !in started)
    && (match q.worker
        case Executing(e, begun) => begun ==> e in started
        case Ran(e, run) => e in started ==> run.Unknown? || (run.Done? && e in ended && ended[e] == run.result)
        case SettlesRun(work) => Honest(work.entry, work.result, started, ended)
        case SettlesTracked(work) => Honest(work.entry, work.result, started, ended)
        case _ => true)
    && (match q.join
        case NotYet => true
        case Abandoned(todo) => TodoHonest(started, todo)
        case Abandoning(work, todo) =>
          Honest(work.entry, work.result, started, ended) && TodoHonest(started, todo))
  }

  /** The part of the state a queue's soundness is about. */
  datatype View = View(
    stop: bool, acc: set<Sid>, cells: map<Sid, ControlResult>, started: set<Sid>, ended: map<Sid, ControlResult>,
    stranded: set<Sid>)

  ghost predicate Sound(v: View, q: Queue) {
    && QueueOk(v.acc, v.started, q)
    && WellShaped(v.cells, q)
    && (if q.join.NotYet? then Undisturbed(v.stop, q) else v.stop && Aftermath(v.cells, q))
    && HonestQueue(v.started, v.ended, q)
    && Reserved(v.cells, q)
    && (q.aborting ==> v.stop)
    && (q.join.NotYet? ==> v.acc !! v.stranded)
  }

  // ---------- steps of a queue ----------

  lemma LeftoversHonest(running: Option<Sid>, queued: seq<Sid>, started: set<Sid>)
    requires forall i :: i in queued ==> i !in started
    ensures TodoHonest(started, Leftovers(running, queued))
  {
  }

  lemma BootSound(v: View, q: Queue)
    requires Sound(v, q) && q.worker.Boot?
    ensures Sound(v, BootStep(q).next)
  {
  }

  lemma AdoptSound(v: View, q: Queue, submits: seq<Submit>, now: int)
    requires Sound(v, q) && q.worker.Adopt?
    ensures Sound(v, AdoptStep(q, submits, v.cells, now).next)
  {
  }

  lemma TopSound(v: View, q: Queue, order: seq<Sid>, submits: seq<Submit>, now: int)
    requires Sound(v, q) && q.worker.Top? && Orders(order, q.waiting)
    ensures Sound(v, TopStep(q, v.stop, order, submits, now).next)
  {
    if q.closed || v.stop {
      DrainSound(v, q, q.draining + order, submits, now);
    }
  }

  lemma DrainSound(v: View, q: Queue, all: seq<Sid>, submits: seq<Submit>, now: int)
    requires Sound(v, q) && q.worker.Top? && (q.closed || v.stop)
    requires forall i :: i in all <==> i in q.draining || i in q.waiting
    requires q.draining != [] ==> all != [] && all[0] == q.draining[0]
    ensures all == [] ==> Sound(v, q.(closed := true, waiting := {}, draining := [], worker := Stopped))
    ensures all != [] ==> Sound(v, q.(closed := true, waiting := {}, draining := all + [all[0]],
                                      worker := SettlesTracked(NewWork(submits, all[0], Run.Cancelled, now))))
  {
  }

  lemma TakeSound(v: View, q: Queue, order: seq<Sid>)
    requires Sound(v, q) && v.stop && (q.worker.Absent? || q.aborting) && q.join.NotYet? && Orders(order, q.waiting)
    ensures Sound(v.(stranded := v.stranded + Unseen(q, v.cells)), TakeStep(q, order, v.cells).next)
  {
    var all := order + q.draining;
    assert forall i :: i in all <==> i in q.waiting || i in q.draining;
    LeftoversHonest(q.running, all, v.started);
    LeftoversOk(v.acc, q.running, all);
  }

  lemma AbandonSound(v: View, q: Queue, submits: seq<Submit>, now: int)
    requires Sound(v, q) && q.join.Abandoned? && q.join.todo != []
    ensures Sound(v, AbandonStep(q, submits, v.cells, now).next)
  {
  }

  lemma CleanSound(v: View, q: Queue, who: Who)
    requires Sound(v, q) && Works(q, who) && WorkOf(q, who).stage.Written?
    ensures Sound(v, CleanStep(q, who, v.cells).next)
  {
    SweptFacts(q.draining, v.cells);
    SweptWithin(q.draining, v.cells);
  }

  /** Rewriting the settlement in hand, short of its receipt. */
  lemma WorkSound(v: View, q: Queue, who: Who, work: Work)
    requires Sound(v, q) && Works(q, who) && !WorkOf(q, who).stage.Written?
    requires work.entry == WorkOf(q, who).entry && !work.stage.Written?
    requires work.result == WorkOf(q, who).result || work.result.status == Indeterminate
    ensures Sound(v, WithWork(q, who, work))
  {
  }

  lemma WriteSound(v: View, q: Queue, who: Who, work: Work)
    requires Sound(v, q) && Works(q, who) && !WorkOf(q, who).stage.Written?
    requires who.TheWorker? ==> q.join.NotYet?
    requires work == WorkOf(q, who).(stage := Written)
    ensures work.entry in v.acc && work.entry !in v.cells
    ensures Honest(work.entry, work.result, v.started, v.ended)
    ensures Sound(v.(cells := v.cells[work.entry := work.result]), WithWork(q, who, work))
  {
  }

  lemma PickSound(v: View, q: Queue, e: Sid, cancelled: bool, expired: bool)
    requires Sound(v, q) && q.worker.Pick? && e in q.waiting
    ensures Sound(v, PickStep(q, e, cancelled, expired).next)
  {
  }

  lemma BeginSound(v: View, q: Queue, submits: seq<Submit>, now: int)
    requires Sound(v, q) && q.worker.Picked?
    ensures Sound(v, BeginStep(q, submits, now).next)
  {
  }

  lemma StartSound(v: View, q: Queue, d: string)
    requires Sound(v, q) && q.worker.Executing? && !q.worker.started
    ensures var e := q.worker.entry;
            e in v.acc && e !in v.started && Unclaimed(v, e)
            && Sound(v.(started := v.started + {e}), StartStep(q, d).next)
  {
  }

  lemma ReturnSound(v: View, q: Queue, d: string, run: Run, cancelled: bool, expired: bool)
    requires Sound(v, q) && q.worker.Executing? && !Frozen(q) && MayReturn(run, q.worker.started, cancelled, expired)
    ensures var e := q.worker.entry;
            && e in v.acc && (run.Done? ==> e !in v.cells)
            && Sound(if run.Done? then v.(ended := v.ended[e := run.result]) else v, ReturnStep(q, d, run).next)
  {
  }

  lemma CoolSound(v: View, q: Queue, submits: seq<Submit>, cooldown: nat, now: int)
    requires Sound(v, q) && q.worker.Ran?
    ensures Sound(v, CooldownStep(q, submits, cooldown, now).next)
  {
  }

  lemma RestSound(v: View, q: Queue, now: int)
    requires Sound(v, q)
    ensures q.worker.Pick? ==> Sound(v, q.(worker := Idle))
    ensures q.worker.Idle? && !Frozen(q) ==> Sound(v, q.(worker := Top))
    ensures !v.stop && q.worker.Absent? ==> Sound(v, q.(worker := Boot))
  {
  }

  lemma StopSound(v: View, q: Queue)
    requires Sound(v, q) && v.stop
    ensures Sound(v, q.(closed := true))
    ensures Frozen(q) ==> Sound(v, q.(worker := Absent))
    ensures q.join.NotYet? ==> Sound(v, q.(aborting := true))
  {
  }

  // ---------- a queue's step seen from any device ----------

  function ViewOf(s: State, d: string): View {
    View(s.closed, AcceptedBy(s.submits, d), s.cells, s.trace.started, s.hist.ended, s.hist.stranded)
  }

  function ViewAfter(v: View, eff: Effect): View {
    match eff
    case Post(cell, r) => v.(cells := v.cells[cell := r])
    case Begin(e, _) => v.(started := v.started + {e})
    case Over(e, _, answer, _) => if answer.Some? then v.(ended := v.ended[e := answer.value]) else v
    case Strand(lost) => v.(stranded := v.stranded + lost)
    case _ => v
  }

  predicate Answers(status: Status) {
    status == Succeeded || status == Failed || status == Indeterminate
  }

  /** The entry has no receipt, or one that claims nothing. */
  predicate Unclaimed(v: View, e: Sid) {
    e in v.cells ==> v.cells[e].status == Indeterminate
  }

  /** What the effect touches belongs to the acting device and is not claimed by a receipt yet. */
  ghost predicate EffectOk(v: View, eff: Effect) {
    match eff
    case Post(cell, r) => cell in v.acc && cell !in v.cells && Honest(cell, r, v.started, v.ended)
    case Begin(e, _) => e in v.acc && Unclaimed(v, e)
    case Over(e, _, answer, _) => e in v.acc && (answer.Some? ==> e !in v.cells && Answers(answer.value.status))
    case Strand(lost) => lost <= v.acc
    case _ => true
  }

  ghost predicate TurnSound(v: View, step: Step<Queue>) {
    Sound(ViewAfter(v, step.eff), step.next) && EffectOk(v, step.eff)
  }

  lemma Elsewhere(v: View, q: Queue, eff: Effect)
    requires Sound(v, q)
    requires (eff.Post? ==> eff.cell !in v.acc) && (eff.Begin? || eff.Over? ==> eff.e !in v.acc)
    requires Losses(eff) !! v.acc
    ensures Sound(ViewAfter(v, eff), q)
  {
  }

  /** A step that changes the queue alone. */
  lemma PlainTurn(v: View, step: Step<Queue>)
    requires Sound(v, step.next) && (step.eff.Nothing? || step.eff.Leave? || step.eff.Cut?)
    ensures TurnSound(v, step)
  {
  }

  lemma TakeTurn(v: View, q: Queue, order: seq<Sid>)
    requires Sound(v, q) && v.stop && (q.worker.Absent? || q.aborting) && q.join.NotYet? && Orders(order, q.waiting)
    ensures TurnSound(v, TakeStep(q, order, v.cells))
  {
    TakeSound(v, q, order);
  }

  lemma StartTurn(v: View, q: Queue, d: string)
    requires Sound(v, q) && q.worker.Executing? && !q.worker.started
    ensures TurnSound(v, StartStep(q, d))
  {
    StartSound(v, q, d);
  }

  lemma ReturnTurn(v: View, q: Queue, d: string, run: Run, cancelled: bool, expired: bool)
    requires Sound(v, q) && q.worker.Executing? && !Frozen(q) && MayReturn(run, q.worker.started, cancelled, expired)
    ensures TurnSound(v, ReturnStep(q, d, run))
  {
    ReturnSound(v, q, d, run, cancelled, expired);
  }

  lemma JournalTurn(v: View, q: Queue, who: Who, key: Key, stored: bool, write: Write)
    requires Sound(v, q) && Works(q, who) && WorkOf(q, who).stage.ToJournal?
    ensures TurnSound(v, JournalStep(q, who, key, stored, write))
  {
    WorkSound(v, q, who, WorkOf(q, who).(stage := Journaled(true)));
    WorkSound(v, q, who, WorkOf(q, who).(stage := Journaled(false)));
  }

  lemma RemoveTurn(v: View, q: Queue, who: Who, key: Key)
    requires Sound(v, q) && Works(q, who) && WorkOf(q, who).stage.Journaled?
    ensures TurnSound(v, RemoveStep(q, who, key))
  {
  }

  lemma WriteTurn(v: View, q: Queue, who: Who)
    requires Sound(v, q) && Works(q, who) && WorkOf(q, who).stage.ToAudit? && (who.TheWorker? ==> !Frozen(q))
    ensures TurnSound(v, WriteStep(q, who, WorkOf(q, who).entry))
  {
    WriteSound(v, q, who, WorkOf(q, who).(stage := Written));
  }

  lemma WritingTurn(s: State, d: string, who: Who)
    requires d in s.queues && MayTurn(s, s.queues[d], Writes(who)) && Sound(ViewOf(s, d), s.queues[d])
    ensures TurnSound(ViewOf(s, d), QueueStep(s, d, Writes(who)))
  {
    WriteTurn(ViewOf(s, d), s.queues[d], who);
    assert WorkOf(s.queues[d], who).entry in AcceptedBy(s.submits, d);
  }

  lemma SettlingTurn(s: State, d: string, a: QueueAction)
    requires d in s.queues && MayTurn(s, s.queues[d], a) && Settling(a) && Sound(ViewOf(s, d), s.queues[d])
    ensures TurnSound(ViewOf(s, d), QueueStep(s, d, a))
  {
    var v, q := ViewOf(s, d), s.queues[d];
    match a
    case Journals(who, write) =>
      var key := Sub(s.submits, WorkOf(q, who).entry).key;
      JournalTurn(v, q, who, key, key in s.journal, write);
    case Removes(who) => RemoveTurn(v, q, who, Sub(s.submits, WorkOf(q, who).entry).key);
    case Writes(who) => WritingTurn(s, d, who);
    case Cleans(who) =>
      CleanSound(v, q, who);
      PlainTurn(v, CleanStep(q, who, v.cells));
  }

  lemma RegroupingTurn(s: State, d: string, a: QueueAction)
    requires d in s.queues && MayTurn(s, s.queues[d], a) && Regrouping(a) && Sound(ViewOf(s, d), s.queues[d])
    ensures TurnSound(ViewOf(s, d), QueueStep(s, d, a))
  {
    var v, q := ViewOf(s, d), s.queues[d];
    match a
    case Boots =>
      BootSound(v, q);
      PlainTurn(v, BootStep(q));
    case Adopts =>
      AdoptSound(v, q, s.submits, s.clock);
      PlainTurn(v, AdoptStep(q, s.submits, s.cells, s.clock));
    case Tops(order) =>
      TopSound(v, q, order, s.submits, s.clock);
      PlainTurn(v, TopStep(q, s.closed, order, s.submits, s.clock));
    case Takes(order) => TakeTurn(v, q, order);
    case Abandons =>
      AbandonSound(v, q, s.submits, s.clock);
      PlainTurn(v, AbandonStep(q, s.submits, s.cells, s.clock));
  }

  /** Steps around one executor call. */
  predicate Calling(a: QueueAction) {
    a.Starts? || a.Returns? || a.Cools?
  }

  lemma CallingTurn(s: State, d: string, a: QueueAction)
    requires d in s.queues && MayTurn(s, s.queues[d], a) && Calling(a) && Sound(ViewOf(s, d), s.queues[d])
    ensures TurnSound(ViewOf(s, d), QueueStep(s, d, a))
  {
    var v, q := ViewOf(s, d), s.queues[d];
    match a
    case Starts => StartTurn(v, q, d);
    case Returns(run) => ReturnTurn(v, q, d, run, q.worker.entry in s.cancelled, Expired(s, q.worker.entry));
    case Cools =>
      CoolSound(v, q, s.submits, s.cooldown, s.clock);
      PlainTurn(v, CooldownStep(q, s.submits, s.cooldown, s.clock));
  }

  lemma RunningTurn(s: State, d: string, a: QueueAction)
    requires d in s.queues && MayTurn(s, s.queues[d], a) && !Regrouping(a) && !Settling(a) && !Calling(a)
    requires Sound(ViewOf(s, d), s.queues[d])
    ensures TurnSound(ViewOf(s, d), QueueStep(s, d, a))
  {
    var v, q := ViewOf(s, d), s.queues[d];
    if a.Picks? {
      PickSound(v, q, a.entry, a.entry in s.cancelled, Expired(s, a.entry));
    } else if a.Begins? {
      BeginSound(v, q, s.submits, s.clock);
    } else if a.Closes? || a.AbortAsks? || a.Aborts? {
      StopSound(v, q);
    } else {
      RestSound(v, q, s.clock);
    }
  }

  // ---------- the whole state ----------

  ghost predicate CellsOk(s: State) {
    CellsShaped(s) && forall i :: i in s.cells ==> Honest(i, s.cells[i], s.trace.started, s.hist.ended)
  }

  ghost predicate QueuesSound(s: State) {
    forall d :: Sound(ViewOf(s, d), QueueOf(s.queues, d))
  }

  ghost predicate Stopping(s: State) {
    QueuesSound(s) && CellsOk(s) && AnswersOk(s.hist.ended) && StrandedOk(s)
  }

  lemma EndedAfter(h: History, eff: Effect, closed: bool)
    ensures HistoryAfter(h, eff, closed).ended
         == if eff.Over? && eff.answer.Some? then h.ended[eff.e := eff.answer.value] else h.ended
    ensures HistoryAfter(h, eff, closed).stranded == h.stranded + Losses(eff)
  {
  }

  lemma TurnView(s: State, d: string, step: Step<Queue>, d': string)
    requires !step.eff.Put?
    ensures ViewOf(Turn(s, d, step), d') == ViewAfter(ViewOf(s, d'), step.eff)
  {
    EndedAfter(s.hist, step.eff, s.closed);
  }

  lemma TurnCells(s: State, d: string, step: Step<Queue>)
    requires CellsOk(s) && AnswersOk(s.hist.ended) && EffectOk(ViewOf(s, d), step.eff) && !step.eff.Put?
    ensures CellsOk(Turn(s, d, step)) && AnswersOk(Turn(s, d, step).hist.ended)
  {
    EndedAfter(s.hist, step.eff, s.closed);
  }

  lemma TurnStops(s: State, d: string, step: Step<Queue>)
    requires Stopping(s) && d in s.queues && TurnSound(ViewOf(s, d), step) && !step.eff.Put?
    ensures Stopping(Turn(s, d, step))
  {
    var t := Turn(s, d, step);
    TurnCells(s, d, step);
    forall d' ensures Sound(ViewOf(t, d'), QueueOf(t.queues, d')) {
      TurnView(s, d, step, d');
      if d' != d {
        assert AcceptedBy(s.submits, d) !! AcceptedBy(s.submits, d');
        Elsewhere(ViewOf(s, d'), QueueOf(s.queues, d'), step.eff);
      }
    }
  }

  lemma ByQueueStops(s: State, d: string, a: QueueAction)
    requires Stopping(s) && d in s.queues && MayTurn(s, s.queues[d], a)
    ensures Stopping(Turn(s, d, QueueStep(s, d, a)))
  {
    assert Sound(ViewOf(s, d), s.queues[d]);
    QueuePutsNothing(s, d, a);
    if Settling(a) {
      SettlingTurn(s, d, a);
    } else if Regrouping(a) {
      RegroupingTurn(s, d, a);
    } else if Calling(a) {
      CallingTurn(s, d, a);
    } else {
      RunningTurn(s, d, a);
    }
    TurnStops(s, d, QueueStep(s, d, a));
  }

  // ---------- steps of a submit ----------

  lemma MoveCells(s: State, i: Sid, step: Step<Submit>)
    requires CellsOk(s) && i < |s.submits| && SubmitOk(i, s.submits[i], s.trace)
    requires MoveShaped(i, s.submits[i], s.cells, step)
    ensures CellsOk(Move(s, i, step))
  {
    EndedAfter(s.hist, step.eff, s.closed);
  }

  lemma MoveStops(s: State, i: Sid, step: Step<Submit>)
    requires Stopping(s) && i < |s.submits| && SubmitOk(i, s.submits[i], s.trace) && !s.submits[i].pc.Gone?
    requires MoveShaped(i, s.submits[i], s.cells, step)
    ensures Stopping(Move(s, i, step))
  {
    var t := Move(s, i, step);
    MoveCells(s, i, step);
    EndedAfter(s.hist, step.eff, s.closed);
    forall d ensures Sound(ViewOf(t, d), QueueOf(t.queues, d)) {
      assert AcceptedBy(t.submits, d) == AcceptedBy(s.submits, d);
      assert i in AcceptedBy(s.submits, d) ==> IsAccepted(i, s.submits[i]);
      Elsewhere(ViewOf(s, d), QueueOf(s.queues, d), step.eff);
      assert ViewOf(t, d) == ViewAfter(ViewOf(s, d), step.eff);
    }
  }

  lemma TakenSound(v: View, q: Queue, i: Sid)
    requires Sound(v, q) && !q.closed && !v.stop && i !in v.acc && i !in v.cells && i !in v.started && i !in v.stranded
    ensures Sound(v.(acc := v.acc + {i}), Taken(q, i))
  {
  }

  lemma EnqueueStops(s: State, i: Sid)
    requires Once(s) && Stopping(s) && i < |s.submits| && s.submits[i].pc.Enqueue?
    requires !s.closed && !QueueOf(s.queues, s.submits[i].key.device).closed
    ensures Stopping(Enqueueing(s, i))
  {
    var t := Enqueueing(s, i);
    assert SubmitOk(i, s.submits[i], s.trace) && CellShape(i, s.submits[i], s.cells);
    forall d ensures Sound(ViewOf(t, d), QueueOf(t.queues, d)) {
      assert Sound(ViewOf(s, d), QueueOf(s.queues, d));
      if d == s.submits[i].key.device {
        assert i !in AcceptedBy(s.submits, d);
        assert AcceptedBy(t.submits, d) == AcceptedBy(s.submits, d) + {i};
        TakenSound(ViewOf(s, d), QueueOf(s.queues, d), i);
      } else {
        assert AcceptedBy(t.submits, d) == AcceptedBy(s.submits, d);
      }
    }
  }

  // ---------- the rest ----------

  lemma ArriveStops(s: State, sub: Submit)
    requires Once(s) && Stopping(s) && sub.pc.Register?
    ensures Stopping(s.(submits := s.submits + [sub]))
  {
    var t := s.(submits := s.submits + [sub]);
    forall d ensures Sound(ViewOf(t, d), QueueOf(t.queues, d)) {
      assert Sound(ViewOf(s, d), QueueOf(s.queues, d));
      assert AcceptedBy(t.submits, d) == AcceptedBy(s.submits, d);
    }
  }

  lemma StopsStop(s: State)
    requires Stopping(s)
    ensures Stopping(s.(closed := true))
  {
    var t := s.(closed := true);
    forall d ensures Sound(ViewOf(t, d), QueueOf(t.queues, d)) {
      assert Sound(ViewOf(s, d), QueueOf(s.queues, d));
      assert AcceptedBy(t.submits, d) == AcceptedBy(s.submits, d);
    }
  }

  lemma SameStops(s: State, t: State)
    requires Stopping(s) && t.submits == s.submits && t.queues == s.queues && t.cells == s.cells
    requires t.trace == s.trace && t.hist == s.hist && t.closed == s.closed
    ensures Stopping(t)
  {
    forall d ensures Sound(ViewOf(t, d), QueueOf(t.queues, d)) {
      assert Sound(ViewOf(s, d), QueueOf(s.queues, d));
    }
  }

  lemma GlobalStops(s: State, a: Action)
    requires Once(s) && Stopping(s) && Enabled(s, a)
    requires a.Tick? || a.Arrives? || a.Cancels? || a.Stops? || a.Purges?
    ensures Stopping(Apply(s, a))
  {
    if a.Arrives? {
      ArriveStops(s, NewSubmit(a.key, a.hash, s.clock, a.retention, |s.submits|));
    } else if a.Stops? {
      StopsStop(s);
    } else {
      SameStops(s, Apply(s, a));
    }
  }

  lemma CrashStops(s: State)
    requires AnswersOk(s.hist.ended) && StrandedOk(s)
    ensures Stopping(Crashed(s))
  {
  }

  lemma StepStops(s: State, a: Action)
    requires Once(s) && Stopping(s) && Enabled(s, a) && !a.Panics?
    ensures Stopping(Apply(s, a))
  {
    match a
    case BySubmit(i, move) =>
      SubmitShaped(s, i, move);
      MoveStops(s, i, SubmitStep(s, i, move));
    case Enqueues(i) => EnqueueStops(s, i);
    case ByQueue(d, turn) => ByQueueStops(s, d, turn);
    case Crashes => CrashStops(s);
    case _ => GlobalStops(s, a);
  }

  ghost predicate NoPanics(actions: seq<Action>) {
    forall n :: 0 <= n < |actions| ==> !actions[n].Panics?
  }

  lemma {:induction false} ExecStops(s0: State, actions: seq<Action>)
    requires Init(s0) && Exec(s0, actions).Some? && NoPanics(actions)
    ensures Stopping(Exec(s0, actions).value)
  {
    if actions == [] {
      forall d ensures Sound(ViewOf(s0, d), QueueOf(s0.queues, d)) {
      }
    } else {
      ExecStops(s0, actions[..|actions| - 1]);
      ExecOnce(s0, actions[..|actions| - 1]);
      StepStops(Exec(s0, actions[..|actions| - 1]).value, actions[|actions| - 1]);
    }
  }

  // ---------- theorems ----------

  /** Until shutdown reads the queue: wherever a worker can be aborted, each entry its queue accepted
      has its receipt or is in `waiting`, `running` or `draining`. */
  lemma AcceptedEntriesStayVisible(s0: State, actions: seq<Action>, d: string, i: Sid)
    requires Init(s0) && Exec(s0, actions).Some? && NoPanics(actions)
    requires var s := Exec(s0, actions).value;
             && d in s.queues && Awaits(s.queues[d].worker) && s.queues[d].join.NotYet?
             && i in AcceptedBy(s.submits, d)
    ensures var s := Exec(s0, actions).value;
            i in s.cells || Visible(s.queues[d], i)
  {
    ExecStops(s0, actions);
    ExecPlaced(s0, actions);
    var s := Exec(s0, actions).value;
    assert Sound(ViewOf(s, d), QueueOf(s.queues, d)) && DevicePlaced(s, d);
  }

  /** A receipt that says Timeout or Cancelled belongs to an entry whose executor was never started;
      a started entry's receipt carries the executor's own answer or says Indeterminate, and always
      the latter if the run was cut off before the executor answered. */
  lemma HonestReceipts(s0: State, actions: seq<Action>, i: Sid)
    requires Init(s0) && Exec(s0, actions).Some? && NoPanics(actions)
    requires i in Exec(s0, actions).value.cells
    ensures var s := Exec(s0, actions).value;
            var r := s.cells[i];
            && (r.status == Timeout || r.status == Status.Cancelled ==> i !in s.trace.started)
            && (i in s.trace.started && i !in s.hist.ended ==> r.status == Indeterminate)
            && (i in s.trace.started && r.status != Indeterminate ==> Echoes(r, s.hist.ended[i]))
  {
    ExecStops(s0, actions);
  }
}
