/** A result with the code of a failed journal write is one, unless the executor answered with that code. */
module EngineCodes {
  import opened ControlTypes
  import opened Engine
  import opened EngineOnce
  import opened EngineCells

  /** The result looks like one whose journal write failed. */
  predicate Coded(r: ControlResult) {
    r.status == Indeterminate && r.error == SETTLE_FAILED
  }

  predicate RunCoded(e: Sid, run: Run, imitated: set<Sid>) {
    && (run.Done? && run.result.error == SETTLE_FAILED ==> e in imitated)
    && (run.Unknown? ==> Some(run.code) != SETTLE_FAILED)
  }

  ghost predicate ListCoded(list: seq<Leftover>, imitated: set<Sid>) {
    forall n :: 0 <= n < |list| ==> RunCoded(list[n].0, list[n].1, imitated)
  }

  /** Before its try a settlement has that code only from the executor; after a try that failed it has it. */
  ghost predicate WorkCoded(work: Work, imitated: set<Sid>) {
    work.stage.ToJournal? && Coded(work.result) ==> work.entry in imitated
  }

  ghost predicate QueueCoded(q: Queue, imitated: set<Sid>) {
    && (match q.worker
        case Adopt(orphans) => ListCoded(orphans, imitated)
        case Adopting(work, rest) => WorkCoded(work, imitated) && ListCoded(rest, imitated)
        case Ran(e, run) => RunCoded(e, run, imitated)
        case SettlesRun(work) => WorkCoded(work, imitated)
        case SettlesTracked(work) => WorkCoded(work, imitated)
        case _ => true)
    && (match q.join
        case NotYet => true
        case Abandoned(todo) => ListCoded(todo, imitated)
        case Abandoning(work, todo) => WorkCoded(work, imitated) && ListCoded(todo, imitated))
  }

  ghost predicate MarksCoded(m: Marks, imitated: set<Sid>) {
    forall k :: k in m.last && Coded(m.last[k].result) ==> m.last[k].author in imitated
  }

  ghost predicate AllCoded(s: State) {
    && MarksCoded(s.marks, s.hist.imitated)
    && (forall d :: d in s.queues ==> QueueCoded(s.queues[d], s.hist.imitated))
    && (forall i :: 0 <= i < |s.submits| && s.submits[i].pc.FinishSettle? ==> !Coded(s.submits[i].pc.result))
  }

  lemma ResultCoded(submits: seq<Submit>, e: Sid, run: Run, now: int, imitated: set<Sid>)
    requires RunCoded(e, run, imitated)
    ensures WorkCoded(NewWork(submits, e, run, now), imitated)
  {
  }

  lemma LeftoversCoded(running: Option<Sid>, queued: seq<Sid>, imitated: set<Sid>)
    ensures ListCoded(Leftovers(running, queued), imitated)
  {
  }

  lemma MoreImitated(q: Queue, imitated: set<Sid>, more: set<Sid>)
    requires QueueCoded(q, imitated) && imitated <= more
    ensures QueueCoded(q, more)
  {
  }

  function ImitatedAfter(imitated: set<Sid>, eff: Effect): set<Sid> {
    if eff.Over? && eff.answer.Some? && eff.answer.value.error == SETTLE_FAILED then imitated + {eff.e} else imitated
  }

  lemma ImitatedGrows(h: History, eff: Effect, closed: bool)
    ensures HistoryAfter(h, eff, closed).imitated == ImitatedAfter(h.imitated, eff)
  {
  }

  lemma RegroupingCoded(s: State, d: string, a: QueueAction, imitated: set<Sid>)
    requires d in s.queues && MayTurn(s, s.queues[d], a) && Regrouping(a) && QueueCoded(s.queues[d], imitated)
    ensures QueueCoded(QueueStep(s, d, a).next, imitated)
  {
    var q := s.queues[d];
    match a
    case Boots => LeftoversCoded(q.running, q.draining, imitated);
    case Takes(order) => LeftoversCoded(q.running, order + q.draining, imitated);
    case Adopts =>
      if q.worker.orphans != [] {
        ResultCoded(s.submits, q.worker.orphans[0].0, q.worker.orphans[0].1, s.clock, imitated);
      }
    case Tops(order) =>
    case Abandons => ResultCoded(s.submits, q.join.todo[0].0, q.join.todo[0].1, s.clock, imitated);
  }

  lemma SettlingCoded(s: State, d: string, a: QueueAction, imitated: set<Sid>)
    requires d in s.queues && MayTurn(s, s.queues[d], a) && Settling(a) && QueueCoded(s.queues[d], imitated)
    ensures QueueCoded(QueueStep(s, d, a).next, imitated) && !QueueStep(s, d, a).eff.Over?
  {
  }

  lemma RunningCoded(s: State, d: string, a: QueueAction, imitated: set<Sid>)
    requires d in s.queues && MayTurn(s, s.queues[d], a) && !Regrouping(a) && QueueCoded(s.queues[d], imitated)
    ensures QueueCoded(QueueStep(s, d, a).next, ImitatedAfter(imitated, QueueStep(s, d, a).eff))
  {
    if Settling(a) {
      SettlingCoded(s, d, a, imitated);
    } else if a.Cools? {
      ResultCoded(s.submits, s.queues[d].worker.entry, s.queues[d].worker.run, s.clock, imitated);
    }
  }

  /** A settlement that reaches its record carries the code only if the executor answered with it. */
  lemma SettleCoded(s: State, d: string, a: QueueAction)
    requires d in s.queues && MayTurn(s, s.queues[d], a) && QueueCoded(s.queues[d], s.hist.imitated)
    ensures var eff := QueueStep(s, d, a).eff;
            eff.Settle? && Coded(eff.result) ==> eff.author in s.hist.imitated
  {
    if !Settling(a) {
      QuietTurn(s, d, a);
    }
  }

  lemma EffectCoded(s: State, eff: Effect)
    requires MarksCoded(s.marks, s.hist.imitated)
    requires eff.Settle? && Coded(eff.result) ==> eff.author in s.hist.imitated
    ensures MarksCoded(MarksAfter(s.marks, eff, s.journal), ImitatedAfter(s.hist.imitated, eff))
  {
  }

  lemma TurnCoded(s: State, d: string, a: QueueAction)
    requires AllCoded(s) && d in s.queues && MayTurn(s, s.queues[d], a)
    ensures AllCoded(Turn(s, d, QueueStep(s, d, a)))
  {
    var step := QueueStep(s, d, a);
    var t := Turn(s, d, step);
    ImitatedGrows(s.hist, step.eff, s.closed);
    SettleCoded(s, d, a);
    EffectCoded(s, step.eff);
    if Regrouping(a) {
      RegroupingCoded(s, d, a, s.hist.imitated);
      MoreImitated(step.next, s.hist.imitated, t.hist.imitated);
    } else {
      RunningCoded(s, d, a, s.hist.imitated);
    }
    forall d' | d' in t.queues && d' != d ensures QueueCoded(t.queues[d'], t.hist.imitated) {
      MoreImitated(s.queues[d'], s.hist.imitated, t.hist.imitated);
    }
  }

  lemma PanicCoded(s: State, d: string)
    requires AllCoded(s) && d in s.queues
    ensures AllCoded(Turn(s, d, DeathStep(s.queues[d], d, s.cells)))
  {
  }

  lemma MoveCoded(s: State, i: Sid, a: SubmitAction)
    requires AllCoded(s) && i < |s.submits| && MayMove(s, s.submits[i], a)
    ensures AllCoded(Move(s, i, SubmitStep(s, i, a)))
  {
    var step := SubmitStep(s, i, a);
    ImitatedGrows(s.hist, step.eff, s.closed);
    SubmitCoded(s, i, a);
    EffectCoded(s, step.eff);
  }

  lemma SubmitCoded(s: State, i: Sid, a: SubmitAction)
    requires i < |s.submits| && MayMove(s, s.submits[i], a)
    requires s.submits[i].pc.FinishSettle? ==> !Coded(s.submits[i].pc.result)
    ensures var step := SubmitStep(s, i, a);
            && (step.next.pc.FinishSettle? ==> !Coded(step.next.pc.result))
            && (step.eff.Settle? ==> !Coded(step.eff.result)) && !step.eff.Over?
  {
  }

  lemma StepCoded(s: State, a: Action)
    requires AllCoded(s) && Enabled(s, a)
    ensures AllCoded(Apply(s, a))
  {
    match a
    case BySubmit(i, move) => MoveCoded(s, i, move);
    case ByQueue(d, turn) => TurnCoded(s, d, turn);
    case Panics(d) => PanicCoded(s, d);
    case _ =>
  }

  lemma {:induction false} ExecCoded(s0: State, actions: seq<Action>)
    requires Init(s0) && Exec(s0, actions).Some?
    ensures AllCoded(Exec(s0, actions).value)
  {
    if actions != [] {
      ExecCoded(s0, actions[..|actions| - 1]);
      StepCoded(Exec(s0, actions[..|actions| - 1]).value, actions[|actions| - 1]);
    }
  }
}
