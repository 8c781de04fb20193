/** Why a receipt says that a request timed out or was cancelled, in every run: its deadline had passed, or
    it had been cancelled, or a stop (or the death of a worker) put an end to it. And what a restart makes
    of the records it finds. */
module EngineReasons {
  import opened ControlTypes
  import opened Engine
  import opened EngineOnce
  import opened EngineCells
  import opened EngineReplies
  import opened EngineStop
  import J = Journal

  /** The submit has its deadline. */
  predicate Dated(sub: Submit) {
    sub.pc.Enqueued? || sub.pc.Returned? || sub.pc.Gone?
  }

  function Overdue(s: State): set<Sid> {
    set i | 0 <= i < |s.submits| && Dated(s.submits[i]) && s.clock >= s.submits[i].deadline
  }

  /** What may justify a result: whose run began, what executors answered, who is past the deadline, who was
      cancelled, and whether everybody may be told so because of a stop or a death. */
  datatype Grounds = Grounds(
    started: set<Sid>, ended: map<Sid, ControlResult>, overdue: set<Sid>, cancelled: set<Sid>, free: bool)

  ghost predicate Within(g: Grounds, g': Grounds) {
    && g.started <= g'.started && g.overdue <= g'.overdue && g.cancelled <= g'.cancelled && (g.free ==> g'.free)
    && forall e :: e in g.ended ==> e in g'.ended && g'.ended[e] == g.ended[e]
  }

  function GroundsOf(s: State, died: bool): Grounds {
    Grounds(s.trace.started, s.hist.ended, Overdue(s), s.cancelled, s.closed || died)
  }

  /** Why nobody knows how the run of `e` ended: its worker was gone, or it was cut short after it began. */
  predicate CutShort(g: Grounds, e: Sid, code: string) {
    || (g.free && code == "QUEUE_WORKER_ABORTED")
    || (e in g.started && code == "TIMEOUT" && e in g.overdue)
    || (e in g.started && code == "CANCELLED" && e in g.cancelled)
  }

  /** The executor answered so. */
  predicate Answered(g: Grounds, e: Sid, r: ControlResult) {
    e in g.ended && Echoes(r, g.ended[e])
  }

  /** The result of a request that was handed to a queue. */
  predicate Reasoned(g: Grounds, e: Sid, r: ControlResult) {
    match r.status
    case Succeeded => Answered(g, e, r)
    case Failed => Answered(g, e, r)
    case Timeout => e in g.overdue && r.error == Some("TIMEOUT")
    case Cancelled => (g.free || e in g.cancelled) && r.error == Some("CANCELLED")
    case Indeterminate =>
      r.error == SETTLE_FAILED || Answered(g, e, r) || (r.error.Some? && CutShort(g, e, r.error.value))
    case _ => false
  }

  predicate RunReasoned(g: Grounds, e: Sid, run: Run) {
    match run
    case Done(r) =>
      && e in g.ended && g.ended[e] == r
      && (r.status == Succeeded || r.status == Failed || r.status == Indeterminate)
    case TimedOut => e in g.overdue
    case Cancelled => g.free || e in g.cancelled
    case Unknown(code) => CutShort(g, e, code)
  }

  ghost predicate ListReasoned(g: Grounds, list: seq<Leftover>) {
    forall n :: 0 <= n < |list| ==> RunReasoned(g, list[n].0, list[n].1)
  }

  predicate WorkReasoned(g: Grounds, work: Work) {
    Reasoned(g, work.entry, work.result)
  }

  ghost predicate QueueReasoned(g: Grounds, q: Queue) {
    && (match q.worker
        case Adopt(orphans) => ListReasoned(g, orphans)
        case Adopting(work, rest) => WorkReasoned(g, work) && ListReasoned(g, rest)
        case Picked(e, kind) => (kind.IsCancelled? ==> e in g.cancelled) && (kind.IsExpired? ==> e in g.overdue)
        case Executing(e, begun) => begun ==> e in g.started
        case Ran(e, run) => RunReasoned(g, e, run)
        case SettlesRun(work) => WorkReasoned(g, work)
        case SettlesTracked(work) => WorkReasoned(g, work)
        case _ => true)
    && (match q.join
        case NotYet => true
        case Abandoned(todo) => ListReasoned(g, todo)
        case Abandoning(work, todo) => WorkReasoned(g, work) && ListReasoned(g, todo))
  }

  /** A record is running until it has a result, and has a final status from then on. */
  ghost predicate Definite(journal: map<Key, J.Entry>) {
    forall k :: k in journal ==>
      if journal[k].result.None? then journal[k].status == Running
      else journal[k].status != Accepted && journal[k].status != Running
  }

  predicate CellReasoned(g: Grounds, i: Sid, sub: Submit, r: ControlResult) {
    if IsAccepted(i, sub) then Reasoned(g, i, r) else r.status == Rejected || r.status == Indeterminate
  }

  ghost predicate AllReasoned(s: State, died: bool) {
    && Definite(s.journal)
    && (forall i :: i in s.cells ==> CellReasoned(GroundsOf(s, died), i, Sub(s.submits, i), s.cells[i]))
    && (forall d :: d in s.queues ==> QueueReasoned(GroundsOf(s, died), s.queues[d]))
  }

  /** Only what began has an answer, and what an executor is still busy with has none. */
  ghost predicate Unanswered(s: State) {
    && (forall e :: e in s.hist.ended ==> e in s.trace.started)
    && forall d :: d in s.queues && s.queues[d].worker.Executing? ==> s.queues[d].worker.entry !in s.hist.ended
  }

  // ---------- steps of a queue ----------

  lemma MoreGrounds(g: Grounds, g': Grounds, q: Queue)
    requires QueueReasoned(g, q) && Within(g, g')
    ensures QueueReasoned(g', q)
  {
  }

  lemma ResultReasoned(g: Grounds, submits: seq<Submit>, e: Sid, run: Run, now: int)
    requires RunReasoned(g, e, run)
    ensures WorkReasoned(g, NewWork(submits, e, run, now))
  {
  }

  lemma LeftoversReasoned(g: Grounds, running: Option<Sid>, queued: seq<Sid>)
    requires g.free || (running.None? && queued == [])
    ensures ListReasoned(g, Leftovers(running, queued))
  {
  }

  lemma AdoptReasoned(q: Queue, submits: seq<Submit>, cells: map<Sid, ControlResult>, now: int, g: Grounds)
    requires q.worker.Adopt? && QueueReasoned(g, q)
    ensures QueueReasoned(g, AdoptStep(q, submits, cells, now).next)
  {
    if q.worker.orphans != [] {
      ResultReasoned(g, submits, q.worker.orphans[0].0, q.worker.orphans[0].1, now);
    }
  }

  lemma AbandonReasoned(q: Queue, submits: seq<Submit>, cells: map<Sid, ControlResult>, now: int, g: Grounds)
    requires q.join.Abandoned? && q.join.todo != [] && QueueReasoned(g, q)
    ensures QueueReasoned(g, AbandonStep(q, submits, cells, now).next)
  {
    ResultReasoned(g, submits, q.join.todo[0].0, q.join.todo[0].1, now);
  }

  lemma TakeReasoned(q: Queue, order: seq<Sid>, cells: map<Sid, ControlResult>, g: Grounds)
    requires QueueReasoned(g, q) && g.free
    ensures QueueReasoned(g, TakeStep(q, order, cells).next)
  {
    LeftoversReasoned(g, q.running, order + q.draining);
  }

  lemma RegroupingReasoned(s: State, d: string, a: QueueAction, g: Grounds)
    requires d in s.queues && MayTurn(s, s.queues[d], a) && Regrouping(a) && QueueReasoned(g, s.queues[d])
    requires s.closed || s.queues[d].closed ==> g.free
    requires g.free || Undisturbed(s.closed, s.queues[d])
    ensures QueueReasoned(g, QueueStep(s, d, a).next)
  {
    var q := s.queues[d];
    match a
    case Boots => LeftoversReasoned(g, q.running, q.draining);
    case Takes(order) => TakeReasoned(q, order, s.cells, g);
    case Adopts => AdoptReasoned(q, s.submits, s.cells, s.clock, g);
    case Tops(order) =>
    case Abandons => AbandonReasoned(q, s.submits, s.cells, s.clock, g);
  }

  lemma SettlingReasoned(s: State, d: string, a: QueueAction, g: Grounds)
    requires d in s.queues && MayTurn(s, s.queues[d], a) && Settling(a) && QueueReasoned(g, s.queues[d])
    ensures QueueReasoned(g, QueueStep(s, d, a).next)
  {
  }

  lemma RunningReasoned(s: State, d: string, a: QueueAction, g: Grounds)
    requires d in s.queues && MayTurn(s, s.queues[d], a) && !Regrouping(a) && QueueReasoned(g, s.queues[d])
    requires g.cancelled == s.cancelled
    requires a.Starts? ==> s.queues[d].worker.entry in g.started
    requires a.Returns? && a.run.Done? ==>
               s.queues[d].worker.entry in g.ended && g.ended[s.queues[d].worker.entry] == a.run.result
    requires a.Picks? && Expired(s, a.entry) ==> a.entry in g.overdue
    requires a.Returns? && Expired(s, s.queues[d].worker.entry) ==> s.queues[d].worker.entry in g.overdue
    ensures QueueReasoned(g, QueueStep(s, d, a).next)
  {
    if Settling(a) {
      SettlingReasoned(s, d, a, g);
    } else if a.Cools? {
      ResultReasoned(g, s.submits, s.queues[d].worker.entry, s.queues[d].worker.run, s.clock);
    }
  }

  /** The grounds after a queue's step: a run's begin and its answer add to them. */
  function GroundsAfter(g: Grounds, eff: Effect): Grounds {
    if eff.Begin? then g.(started := g.started + {eff.e})
    else if eff.Over? && eff.answer.Some? then g.(ended := g.ended[eff.e := eff.answer.value])
    else g
  }

  lemma TurnGrounds(s: State, d: string, step: Step<Queue>, died: bool)
    ensures GroundsOf(Turn(s, d, step), died) == GroundsAfter(GroundsOf(s, died), step.eff)
  {
    assert Overdue(Turn(s, d, step)) == Overdue(s);
    EndedAfter(s.hist, step.eff, s.closed);
  }

  /** Which run a queue's step ends, and with what answer. */
  lemma TurnAnswers(s: State, d: string, a: QueueAction)
    requires d in s.queues && MayTurn(s, s.queues[d], a)
    ensures var eff, w := QueueStep(s, d, a).eff, s.queues[d].worker;
            && (eff.Over? ==> a.Returns? && eff.e == w.entry && (eff.answer.Some? ==> w.started))
            && (a.Returns? && a.run.Done? ==> eff.Over? && eff.answer == Some(a.run.result))
  {
  }

  lemma TurnWithin(s: State, d: string, a: QueueAction, g: Grounds)
    requires d in s.queues && MayTurn(s, s.queues[d], a)
    requires s.queues[d].worker.Executing? ==> s.queues[d].worker.entry !in g.ended
    ensures Within(g, GroundsAfter(g, QueueStep(s, d, a).eff))
    ensures Regrouping(a) ==> GroundsAfter(g, QueueStep(s, d, a).eff) == g
  {
    TurnEffects(s, d, a);
    TurnAnswers(s, d, a);
  }

  lemma RunTurnReasoned(s: State, d: string, a: QueueAction, died: bool, g': Grounds)
    requires QueuesOk(s) && d in s.queues && MayTurn(s, s.queues[d], a) && !Regrouping(a)
    requires QueueReasoned(g', s.queues[d]) && g' == GroundsAfter(GroundsOf(s, died), QueueStep(s, d, a).eff)
    ensures QueueReasoned(g', QueueStep(s, d, a).next)
  {
    TurnAnswers(s, d, a);
    if a.Picks? {
      assert QueueOk(AcceptedBy(s.submits, d), s.trace.started, s.queues[d]);
    } else if a.Returns? {
      HandsAccepted(s, d);
    }
    RunningReasoned(s, d, a, g');
  }

  lemma TurnReasoned(s: State, d: string, a: QueueAction, died: bool)
    requires AllReasoned(s, died) && QueuesOk(s) && Closing(s) && d in s.queues && MayTurn(s, s.queues[d], a)
    requires (died || s.closed || Undisturbed(s.closed, s.queues[d])) && Unanswered(s)
    ensures QueueReasoned(GroundsAfter(GroundsOf(s, died), QueueStep(s, d, a).eff), QueueStep(s, d, a).next)
    ensures Within(GroundsOf(s, died), GroundsAfter(GroundsOf(s, died), QueueStep(s, d, a).eff))
  {
    var g := GroundsOf(s, died);
    var g' := GroundsAfter(g, QueueStep(s, d, a).eff);
    TurnWithin(s, d, a, g);
    if Regrouping(a) {
      RegroupingReasoned(s, d, a, g);
    } else {
      MoreGrounds(g, g', s.queues[d]);
      RunTurnReasoned(s, d, a, died, g');
    }
  }

  /** What a queue's step writes into a receipt or a record is the result it was settling. */
  lemma PostReasoned(s: State, d: string, a: QueueAction, g: Grounds)
    requires QueuesOk(s) && d in s.queues && MayTurn(s, s.queues[d], a) && QueueReasoned(g, s.queues[d])
    ensures var eff := QueueStep(s, d, a).eff;
            && (eff.Post? ==> Reasoned(g, eff.cell, eff.result))
            && (eff.Settle? ==> Reasoned(g, eff.author, eff.result)) && !eff.Put?
  {
    QueuePosts(s, d, a);
    if Settling(a) {
      SettlingEffect(s, d, a);
    } else {
      QuietTurn(s, d, a);
    }
  }

  lemma EffectDefinite(journal: map<Key, J.Entry>, eff: Effect)
    requires Definite(journal)
    requires eff.Settle? ==> eff.result.status != Accepted && eff.result.status != Running
    ensures Definite(JournalAfter(journal, eff))
  {
  }

  lemma TurnKeepsReasons(s: State, d: string, a: QueueAction, died: bool)
    requires AllReasoned(s, died) && QueuesOk(s) && Closing(s) && d in s.queues && MayTurn(s, s.queues[d], a)
    requires (died || s.closed || Undisturbed(s.closed, s.queues[d])) && Unanswered(s)
    ensures AllReasoned(Turn(s, d, QueueStep(s, d, a)), died)
  {
    var step := QueueStep(s, d, a);
    TurnReasoned(s, d, a, died);
    QueuePosts(s, d, a);
    PostReasoned(s, d, a, GroundsOf(s, died));
    TurnedKeepsReasons(s, d, step, died);
  }

  lemma CellMoreGrounds(g: Grounds, g': Grounds, i: Sid, sub: Submit, r: ControlResult)
    requires CellReasoned(g, i, sub, r) && Within(g, g')
    ensures CellReasoned(g', i, sub, r)
  {
  }

  lemma TurnedKeepsReasons(s: State, d: string, step: Step<Queue>, died: bool)
    requires AllReasoned(s, died) && d in s.queues
    requires Within(GroundsOf(s, died), GroundsAfter(GroundsOf(s, died), step.eff))
    requires QueueReasoned(GroundsAfter(GroundsOf(s, died), step.eff), step.next)
    requires step.eff.Post? ==>
               step.eff.cell in AcceptedBy(s.submits, d) && Reasoned(GroundsOf(s, died), step.eff.cell, step.eff.result)
    requires step.eff.Settle? ==> step.eff.result.status != Accepted && step.eff.result.status != Running
    ensures AllReasoned(Turn(s, d, step), died)
  {
    var t, g := Turn(s, d, step), GroundsOf(s, died);
    TurnGrounds(s, d, step, died);
    EffectDefinite(s.journal, step.eff);
    forall i | i in t.cells ensures CellReasoned(GroundsOf(t, died), i, Sub(t.submits, i), t.cells[i]) {
      CellMoreGrounds(g, GroundsOf(t, died), i, Sub(s.submits, i), t.cells[i]);
    }
    forall e | e in t.queues && e != d ensures QueueReasoned(GroundsOf(t, died), t.queues[e]) {
      MoreGrounds(g, GroundsOf(t, died), s.queues[e]);
    }
  }

  lemma PanicKeepsReasons(s: State, d: string)
    requires AllReasoned(s, true) && d in s.queues
    ensures AllReasoned(Turn(s, d, DeathStep(s.queues[d], d, s.cells)), true)
  {
    TurnGrounds(s, d, DeathStep(s.queues[d], d, s.cells), true);
  }

  // ---------- steps of a submit ----------

  /** A submit writes only rejections and unknown outcomes, and does not touch a deadline it has. */
  lemma SubmitReasoned(s: State, i: Sid, a: SubmitAction)
    requires i < |s.submits| && MayMove(s, s.submits[i], a) && Informed(i, s.submits[i], s.hist.met)
    requires SubmitOk(i, s.submits[i], s.trace) && CellShape(i, s.submits[i], s.cells)
    ensures var step := SubmitStep(s, i, a);
            && (step.eff.Post? || step.eff.Settle? ==>
                  step.eff.result.status == Rejected || step.eff.result.status == Indeterminate)
            && (Dated(s.submits[i]) ==> Dated(step.next) && step.next.deadline == s.submits[i].deadline)
            && (IsAccepted(i, step.next) <==> IsAccepted(i, s.submits[i]))
            && (step.eff.Post? ==> step.eff.cell == i && !IsAccepted(i, s.submits[i]))
            && !step.eff.Begin? && !step.eff.Over?
  {
  }

  /** More time, more cancellations, a stop: whatever was justified stays so. */
  lemma KeepReasons(s: State, t: State, died: bool)
    requires AllReasoned(s, died) && Within(GroundsOf(s, died), GroundsOf(t, died)) && Definite(t.journal)
    requires t.queues == s.queues && t.cells == s.cells
    requires forall i :: i in s.cells ==> (IsAccepted(i, Sub(t.submits, i)) <==> IsAccepted(i, Sub(s.submits, i)))
    ensures AllReasoned(t, died)
  {
    forall d | d in t.queues ensures QueueReasoned(GroundsOf(t, died), t.queues[d]) {
      MoreGrounds(GroundsOf(s, died), GroundsOf(t, died), s.queues[d]);
    }
  }

  lemma MovedKeepsReasons(s: State, i: Sid, step: Step<Submit>, died: bool)
    requires AllReasoned(s, died) && i < |s.submits|
    requires step.eff.Post? || step.eff.Settle? ==>
               step.eff.result.status == Rejected || step.eff.result.status == Indeterminate
    requires Dated(s.submits[i]) ==> Dated(step.next) && step.next.deadline == s.submits[i].deadline
    requires IsAccepted(i, step.next) <==> IsAccepted(i, s.submits[i])
    requires step.eff.Post? ==> step.eff.cell == i && !IsAccepted(i, s.submits[i])
    requires !step.eff.Begin? && !step.eff.Over?
    ensures AllReasoned(Move(s, i, step), died)
  {
    var t := s.(submits := s.submits[i := step.next]);
    KeepReasons(s, t, died);
    EffectDefinite(s.journal, step.eff);
    EndedAfter(s.hist, step.eff, s.closed);
    assert GroundsOf(Move(s, i, step), died) == GroundsOf(t, died);
  }

  lemma MoveKeepsReasons(s: State, i: Sid, a: SubmitAction, died: bool)
    requires AllReasoned(s, died) && i < |s.submits| && MayMove(s, s.submits[i], a)
    requires Informed(i, s.submits[i], s.hist.met)
    requires SubmitOk(i, s.submits[i], s.trace) && CellShape(i, s.submits[i], s.cells)
    ensures AllReasoned(Move(s, i, SubmitStep(s, i, a)), died)
  {
    SubmitReasoned(s, i, a);
    MovedKeepsReasons(s, i, SubmitStep(s, i, a), died);
  }

  lemma EnqueueKeepsReasons(s: State, i: Sid, died: bool)
    requires AllReasoned(s, died) && Enabled(s, Enqueues(i)) && CellShape(i, s.submits[i], s.cells)
    ensures AllReasoned(Enqueueing(s, i), died)
  {
    var t := s.(submits := s.submits[i := s.submits[i].(pc := Enqueued)]);
    KeepReasons(s, t, died);
    assert GroundsOf(Enqueueing(s, i), died) == GroundsOf(t, died);
  }

  /** Before a stop a worker has nobody's entries to adopt. */
  lemma NobodyElse(s: State, d: string)
    requires QueuesSound(s) && d in s.queues
    ensures s.closed || Undisturbed(s.closed, s.queues[d])
  {
    assert Sound(ViewOf(s, d), QueueOf(s.queues, d));
  }

  lemma GlobalReasoned(s: State, a: Action, died: bool)
    requires AllReasoned(s, died) && Enabled(s, a) && !a.BySubmit? && !a.ByQueue? && !a.Enqueues? && !a.Panics?
    requires CellsShaped(s)
    ensures AllReasoned(Apply(s, a), died)
  {
    if !a.Crashes? {
      KeepReasons(s, Apply(s, a), died);
    }
  }

  lemma StepReasoned(s: State, a: Action, died: bool)
    requires AllReasoned(s, died) && Unanswered(s)
    requires Once(s) && CellsShaped(s) && Closing(s) && Replies(s) && Enabled(s, a)
    requires died || (QueuesSound(s) && !a.Panics?)
    ensures AllReasoned(Apply(s, a), died)
  {
    if a.BySubmit? {
      MoveKeepsReasons(s, a.i, a.move, died);
    } else if a.ByQueue? {
      if !died {
        NobodyElse(s, a.d);
      }
      TurnKeepsReasons(s, a.d, a.turn, died);
    } else if a.Enqueues? {
      EnqueueKeepsReasons(s, a.i, died);
    } else if a.Panics? {
      PanicKeepsReasons(s, a.d);
    } else {
      GlobalReasoned(s, a, died);
    }
  }

  // ---------- one answer per run ----------

  /** Two queues never hold the same entry. */
  lemma OtherEntry(s: State, d: string, d': string)
    requires QueuesOk(s) && d in s.queues && d' in s.queues && d != d'
    requires s.queues[d].worker.Executing? && s.queues[d'].worker.Executing?
    ensures s.queues[d].worker.entry != s.queues[d'].worker.entry
  {
    HandsAccepted(s, d);
    HandsAccepted(s, d');
  }

  lemma TurnOneAnswer(s: State, d: string, a: QueueAction, g: Grounds)
    requires QueuesOk(s) && d in s.queues && MayTurn(s, s.queues[d], a) && Unanswered(s)
    requires QueueReasoned(g, s.queues[d]) && g.started == s.trace.started
    ensures var step := QueueStep(s, d, a);
            && (step.next.worker.Executing? ==> step.next.worker.entry !in s.hist.ended && !step.eff.Over?)
            && (step.eff.Over? && step.eff.answer.Some? ==> step.eff.e in s.trace.started)
  {
    assert QueueOk(AcceptedBy(s.submits, d), s.trace.started, s.queues[d]);
  }

  lemma TurnUnanswered(s: State, d: string, a: QueueAction, died: bool)
    requires AllReasoned(s, died) && Unanswered(s) && QueuesOk(s) && d in s.queues && MayTurn(s, s.queues[d], a)
    ensures Unanswered(Turn(s, d, QueueStep(s, d, a)))
  {
    var step := QueueStep(s, d, a);
    var t := Turn(s, d, step);
    TurnOneAnswer(s, d, a, GroundsOf(s, died));
    TurnAnswers(s, d, a);
    EndedAfter(s.hist, step.eff, s.closed);
    forall d' | d' in t.queues && t.queues[d'].worker.Executing?
      ensures t.queues[d'].worker.entry !in t.hist.ended
    {
      if d' != d && step.eff.Over? {
        OtherEntry(s, d, d');
      }
    }
  }

  lemma StepUnanswered(s: State, a: Action, died: bool)
    requires AllReasoned(s, died) && Unanswered(s) && Once(s) && Enabled(s, a)
    ensures Unanswered(Apply(s, a))
  {
    if a.ByQueue? {
      TurnUnanswered(s, a.d, a.turn, died);
    } else if a.BySubmit? {
      MoveUnanswered(s, a.i, a.move);
    } else if a.Enqueues? {
      EnqueueUnanswered(s, a.i);
    } else if a.Panics? {
      PanicUnanswered(s, a.d);
    }
  }

  lemma MoveUnanswered(s: State, i: Sid, a: SubmitAction)
    requires Unanswered(s) && i < |s.submits| && MayMove(s, s.submits[i], a)
    ensures Unanswered(Move(s, i, SubmitStep(s, i, a)))
  {
    EndedAfter(s.hist, SubmitStep(s, i, a).eff, s.closed);
    SubmitAnswersNothing(s, i, a);
  }

  lemma SubmitAnswersNothing(s: State, i: Sid, a: SubmitAction)
    requires i < |s.submits| && MayMove(s, s.submits[i], a)
    ensures !SubmitStep(s, i, a).eff.Over? && !SubmitStep(s, i, a).eff.Begin?
  {
  }

  lemma EnqueueUnanswered(s: State, i: Sid)
    requires Unanswered(s) && i < |s.submits|
    ensures Unanswered(Enqueueing(s, i))
  {
  }

  lemma PanicUnanswered(s: State, d: string)
    requires Unanswered(s) && d in s.queues
    ensures Unanswered(Turn(s, d, DeathStep(s.queues[d], d, s.cells)))
  {
  }

  lemma {:induction false} ExecReasoned(s0: State, actions: seq<Action>, died: bool)
    requires Init(s0) && Exec(s0, actions).Some? && (died || NoPanics(actions))
    ensures AllReasoned(Exec(s0, actions).value, died) && Unanswered(Exec(s0, actions).value)
  {
    if actions != [] {
      var before := actions[..|actions| - 1];
      ExecReasoned(s0, before, died);
      ExecOnce(s0, before);
      ExecReplies(s0, before);
      ExecShaped(s0, before);
      ExecClosing(s0, before);
      if !died {
        ExecStops(s0, before);
      }
      StepReasoned(Exec(s0, before).value, actions[|actions| - 1], died);
      StepUnanswered(Exec(s0, before).value, actions[|actions| - 1], died);
    }
  }

  // ---------- where a deadline comes from ----------

  /** Step `n` of the run gave submit `i` this long from then on. */
  ghost predicate CheckedAt(s0: State, actions: seq<Action>, n: nat, i: Sid, timeout: nat) {
    n < |actions| && actions[n] == BySubmit(i, Checks(None, timeout)) && Exec(s0, actions[..n]).Some?
  }

  /** The submit's deadline lies as far after one of its checks as that check allowed. */
  ghost predicate Timed(s0: State, actions: seq<Action>, i: Sid, sub: Submit) {
    exists n: nat, timeout: nat :: CheckedAt(s0, actions, n, i, timeout)
                                   && sub.deadline == Exec(s0, actions[..n]).value.clock + timeout
  }

  predicate HasDeadline(i: Sid, sub: Submit) {
    sub.pc.Enqueue? || IsAccepted(i, sub)
  }

  lemma TimedLater(s0: State, before: seq<Action>, actions: seq<Action>, i: Sid, sub: Submit, sub': Submit)
    requires actions != [] && before == actions[..|actions| - 1] && Timed(s0, before, i, sub)
    requires sub'.deadline == sub.deadline
    ensures Timed(s0, actions, i, sub')
  {
    var n: nat, timeout: nat :| CheckedAt(s0, before, n, i, timeout)
                                && sub.deadline == Exec(s0, before[..n]).value.clock + timeout;
    assert before[..n] == actions[..n];
    assert CheckedAt(s0, actions, n, i, timeout);
  }

  /** Only a check that passes gives a submit its deadline. */
  lemma StepDeadline(s: State, a: Action, i: Sid)
    requires Enabled(s, a) && i < |Apply(s, a).submits| && HasDeadline(i, Apply(s, a).submits[i])
    requires i < |s.submits| ==> SubmitOk(i, s.submits[i], s.trace)
    ensures i < |s.submits|
    ensures var sub, sub' := s.submits[i], Apply(s, a).submits[i];
            || (HasDeadline(i, sub) && sub'.deadline == sub.deadline)
            || exists timeout: nat ::
                 a == BySubmit(i, Checks(None, timeout)) && sub'.deadline == s.clock + timeout
  {
    if a.BySubmit? && a.i == i {
      MoveDeadline(s, i, a.move);
    }
  }

  lemma MoveDeadline(s: State, i: Sid, a: SubmitAction)
    requires i < |s.submits| && MayMove(s, s.submits[i], a) && SubmitOk(i, s.submits[i], s.trace)
    requires HasDeadline(i, SubmitStep(s, i, a).next)
    ensures var sub, sub' := s.submits[i], SubmitStep(s, i, a).next;
            || (HasDeadline(i, sub) && sub'.deadline == sub.deadline)
            || (a.Checks? && a.reject.None? && sub'.deadline == s.clock + a.timeout)
  {
  }

  lemma {:induction false} ExecTimed(s0: State, actions: seq<Action>, i: Sid)
    requires Init(s0) && Exec(s0, actions).Some? && i < |Exec(s0, actions).value.submits|
    requires HasDeadline(i, Exec(s0, actions).value.submits[i])
    ensures Timed(s0, actions, i, Exec(s0, actions).value.submits[i])
    decreases |actions|
  {
    var before, last := actions[..|actions| - 1], actions[|actions| - 1];
    var s, t := Exec(s0, before).value, Exec(s0, actions).value;
    ExecOnce(s0, before);
    StepDeadline(s, last, i);
    if HasDeadline(i, s.submits[i]) && t.submits[i].deadline == s.submits[i].deadline {
      ExecTimed(s0, before, i);
      TimedLater(s0, before, actions, i, s.submits[i], t.submits[i]);
    } else {
      var timeout: nat :| last == BySubmit(i, Checks(None, timeout)) && t.submits[i].deadline == s.clock + timeout;
      assert CheckedAt(s0, actions, |actions| - 1, i, timeout);
    }
  }

  /** In every run, a request that timed out had been given its time: as much as its check allowed has passed
      since that check. */
  lemma TimeoutsWait(s0: State, actions: seq<Action>, i: Sid)
    requires Init(s0) && Exec(s0, actions).Some? && i in Exec(s0, actions).value.cells
    requires Exec(s0, actions).value.cells[i].status == Timeout
    ensures exists n: nat, timeout: nat ::
              && CheckedAt(s0, actions, n, i, timeout)
              && Exec(s0, actions).value.clock >= Exec(s0, actions[..n]).value.clock + timeout
  {
    var s := Exec(s0, actions).value;
    ReasonForReceipt(s0, actions, i);
    ExecShaped(s0, actions);
    ExecTimed(s0, actions, i);
    var n: nat, timeout: nat :| CheckedAt(s0, actions, n, i, timeout)
                                && s.submits[i].deadline == Exec(s0, actions[..n]).value.clock + timeout;
    assert CheckedAt(s0, actions, n, i, timeout);
  }

  /** In every run, why the receipt of a request that was handed to a queue says what it says: success and
      failure only if the executor answered exactly so; a timeout only after its deadline; an unknown outcome
      only if the executor said so, its run was cut short by a timeout or a cancellation after it began, its
      settlement did not reach the disk, or its worker was gone; and, where no worker dies by itself, a
      cancellation only if it was cancelled or after a stop. Requests that were not handed on have no other
      receipts than rejections and unknown outcomes. */
  lemma ReasonForReceipt(s0: State, actions: seq<Action>, i: Sid)
    requires Init(s0) && Exec(s0, actions).Some? && i in Exec(s0, actions).value.cells
    ensures i < |Exec(s0, actions).value.submits|
    ensures var s := Exec(s0, actions).value;
            var sub, r := s.submits[i], s.cells[i];
            var echo := i in s.hist.ended && r == s.hist.ended[i].(key := r.key, completedAt := r.completedAt);
            if !(sub.pc.Enqueued? || sub.pc == Returned(Waits(i)))
            then r.status == Rejected || r.status == Indeterminate
            else
              && (r.status == Succeeded || r.status == Failed ==> echo)
              && (r.status == Timeout ==> s.clock >= sub.deadline && r.error == Some("TIMEOUT"))
              && (r.status == Indeterminate ==>
                    || echo || r.error == SETTLE_FAILED || r.error == Some("QUEUE_WORKER_ABORTED")
                    || (r.error == Some("TIMEOUT") && i in s.trace.started && s.clock >= sub.deadline)
                    || (r.error == Some("CANCELLED") && i in s.trace.started && i in s.cancelled))
              && (r.status == Status.Cancelled ==> r.error == Some("CANCELLED"))
              && r.status != Rejected && r.status != Accepted && r.status != Running
    ensures var s := Exec(s0, actions).value;
            NoPanics(actions) && s.cells[i].status == Status.Cancelled ==> i in s.cancelled || s.closed
  {
    ExecShaped(s0, actions);
    assert CellShape(i, Exec(s0, actions).value.submits[i], Exec(s0, actions).value.cells);
    ExecReasoned(s0, actions, true);
    if NoPanics(actions) {
      ExecReasoned(s0, actions, false);
    }
  }

  /** A restart, at any point of any run: it keeps exactly the records that have not expired; those that were
      not settled end as interrupted, with an unknown outcome, no payload and the time of the restart; the
      settled ones are what they were. */
  lemma RestartReports(s0: State, actions: seq<Action>, k: Key)
    requires Init(s0) && Exec(s0, actions).Some?
    ensures var s := Exec(s0, actions).value;
            var found := Apply(s, Crashes).journal;
            && (k in found <==> k in s.journal && s.journal[k].expiresAt >= s.clock)
            && (k in found && s.journal[k].result.Some? ==> found[k] == s.journal[k])
            && (k in found && s.journal[k].result.None? ==>
                  && found[k].hash == s.journal[k].hash && found[k].expiresAt == s.journal[k].expiresAt
                  && found[k].key == k && found[k].status == Indeterminate
                  && found[k].result == Some(ControlResult(k, Indeterminate, None, Some(s.clock), None,
                                                           Some("EXECUTION_INTERRUPTED"))))
  {
    ExecReasoned(s0, actions, true);
    ExecReplies(s0, actions);
  }
}
