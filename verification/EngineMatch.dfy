/** When exactly a receipt with a definite outcome is what the journal stores. This holds in every run,
    with worker deaths, early expiry and failing writes. */
module EngineMatch {
  import opened ControlTypes
  import opened Engine
  import opened EngineOnce
  import opened EngineCells
  import J = Journal

  // ---------- records against their history ----------

  /** The record of `key` is the one last inserted, and its result the one last written. */
  ghost predicate RecordTold(key: Key, journal: map<Key, J.Entry>, owner: map<Key, Sid>, m: Marks) {
    && (key in m.latest <==> key in journal)
    && (key in m.latest ==> Holds(owner, key, m.latest[key]))
    && (key in m.last ==> key in journal && journal[key].result == Some(m.last[key].result))
  }

  /** Submit `e` is about to publish `r`, and its record is still the last one inserted. If its try to
      settle reached the record, a settlement has, and if the last one was its own, it wrote `r`. If
      the try missed the record, `r` claims nothing, or shutdown gave the try up. */
  ghost predicate Told(e: Sid, r: ControlResult, key: Key, inserters: set<Sid>, m: Marks) {
    e in inserters && Holds(m.latest, key, e) ==>
      if e !in m.failed then key in m.last && (m.last[key].author == e ==> m.last[key].result == r)
      else r.status == Indeterminate || e in m.gaveUp
  }

  ghost predicate SubmitTold(i: Sid, sub: Submit, inserters: set<Sid>, m: Marks) {
    && (sub.pc.FinishRemove? || sub.pc.FinishWrite? ==> Told(i, sub.pc.result, sub.key, inserters, m))
    && (sub.pc.FinishSettle? && sub.pc.closing ==> sub.pc.result.status == Indeterminate)
    && (sub.pc.Interrupt? ==> i !in inserters)
  }

  /** A result whose try failed says so. */
  predicate Admits(e: Sid, r: ControlResult, m: Marks) {
    e in m.failed && e !in m.gaveUp ==> r.error == SETTLE_FAILED
  }

  ghost predicate WorkTold(work: Work, key: Key, inserters: set<Sid>, m: Marks) {
    match work.stage
    case Journaled(true) =>
      Told(work.entry, work.result, key, inserters, m) && (work.entry in m.failed ==> work.entry in m.gaveUp)
    case Journaled(false) => work.entry in m.failed
    case ToAudit => Told(work.entry, work.result, key, inserters, m) && Admits(work.entry, work.result, m)
    case _ => true
  }

  /** Once shutdown has read the queue the worker publishes nothing any more. */
  predicate Publishes(q: Queue, who: Who) {
    Works(q, who) && (who.TheWorker? ==> q.join.NotYet?)
  }

  ghost predicate QueueTold(q: Queue, submits: seq<Submit>, inserters: set<Sid>, m: Marks) {
    forall who :: Publishes(q, who) ==>
      WorkTold(WorkOf(q, who), Sub(submits, WorkOf(q, who).entry).key, inserters, m)
  }

  ghost predicate AllTold(s: State) {
    && (forall k :: RecordTold(k, s.journal, s.owner, s.marks))
    && (forall i :: 0 <= i < |s.submits| ==> SubmitTold(i, s.submits[i], s.trace.inserters, s.marks))
    && (forall d :: d in s.queues ==> QueueTold(s.queues[d], s.submits, s.trace.inserters, s.marks))
  }

  // ---------- effects ----------

  function InsertersAfter(inserters: set<Sid>, eff: Effect): set<Sid> {
    if eff.Put? then inserters + {eff.i} else inserters
  }

  lemma RecordKept(key: Key, journal: map<Key, J.Entry>, owner: map<Key, Sid>, m: Marks, eff: Effect)
    requires RecordTold(key, journal, owner, m)
    ensures RecordTold(key, JournalAfter(journal, eff), OwnerAfter(owner, eff), MarksAfter(m, eff, journal))
  {
  }

  /** The effect is no insertion of submit `e` and no try of its to settle. */
  predicate Spares(eff: Effect, e: Sid) {
    (eff.Settle? || eff.Skip? ==> eff.author != e) && (eff.Put? ==> eff.i != e)
  }

  /** What others do leaves a submit's receipt told. */
  lemma ToldKept(
    e: Sid, r: ControlResult, key: Key, inserters: set<Sid>, m: Marks, eff: Effect, journal: map<Key, J.Entry>)
    requires Told(e, r, key, inserters, m) && Spares(eff, e)
    ensures Told(e, r, key, InsertersAfter(inserters, eff), MarksAfter(m, eff, journal))
  {
  }

  lemma WorkStaysTold(work: Work, key: Key, inserters: set<Sid>, m: Marks, eff: Effect, journal: map<Key, J.Entry>)
    requires WorkTold(work, key, inserters, m) && Spares(eff, work.entry)
    ensures WorkTold(work, key, InsertersAfter(inserters, eff), MarksAfter(m, eff, journal))
  {
    if work.stage == Journaled(true) || work.stage == ToAudit {
      ToldKept(work.entry, work.result, key, inserters, m, eff, journal);
    }
  }

  // ---------- steps of a submit ----------

  lemma SubmitTells(s: State, i: Sid, a: SubmitAction)
    requires i < |s.submits| && MayMove(s, s.submits[i], a) && SubmitOk(i, s.submits[i], s.trace)
    requires SubmitTold(i, s.submits[i], s.trace.inserters, s.marks)
    requires RecordTold(s.submits[i].key, s.journal, s.owner, s.marks)
    ensures var step := SubmitStep(s, i, a);
            && SubmitTold(i, step.next, InsertersAfter(s.trace.inserters, step.eff),
                          MarksAfter(s.marks, step.eff, s.journal))
            && step.next.key == s.submits[i].key
            && (step.eff.Settle? || step.eff.Skip? ==> step.eff.author == i && !IsAccepted(i, s.submits[i]))
            && (step.eff.Put? ==> step.eff.i == i && s.submits[i].pc.Insert?)
  {
  }

  lemma MoveQueueTold(s: State, i: Sid, step: Step<Submit>, d: string)
    requires QueuesOk(s) && i < |s.submits| && d in s.queues && step.next.key == s.submits[i].key
    requires QueueTold(s.queues[d], s.submits, s.trace.inserters, s.marks)
    requires step.eff.Settle? || step.eff.Skip? ==> step.eff.author == i && !IsAccepted(i, s.submits[i])
    requires step.eff.Put? ==> step.eff.i == i && s.submits[i].pc.Insert?
    ensures QueueTold(s.queues[d], s.submits[i := step.next], InsertersAfter(s.trace.inserters, step.eff),
                      MarksAfter(s.marks, step.eff, s.journal))
  {
    forall who | Publishes(s.queues[d], who)
      ensures WorkTold(WorkOf(s.queues[d], who), Sub(s.submits[i := step.next], WorkOf(s.queues[d], who).entry).key,
                       InsertersAfter(s.trace.inserters, step.eff), MarksAfter(s.marks, step.eff, s.journal))
    {
      WorksOnAccepted(s, d, who);
      var work := WorkOf(s.queues[d], who);
      assert WorkTold(work, Sub(s.submits, work.entry).key, s.trace.inserters, s.marks);
      WorkStaysTold(work, Sub(s.submits, work.entry).key, s.trace.inserters, s.marks, step.eff, s.journal);
    }
  }

  lemma OtherTold(j: Sid, sub: Submit, inserters: set<Sid>, m: Marks, eff: Effect, journal: map<Key, J.Entry>)
    requires SubmitTold(j, sub, inserters, m) && Spares(eff, j)
    ensures SubmitTold(j, sub, InsertersAfter(inserters, eff), MarksAfter(m, eff, journal))
  {
    if sub.pc.FinishRemove? || sub.pc.FinishWrite? {
      ToldKept(j, sub.pc.result, sub.key, inserters, m, eff, journal);
    }
  }

  lemma MoveTold(s: State, i: Sid, a: SubmitAction)
    requires AllTold(s) && Once(s) && i < |s.submits| && MayMove(s, s.submits[i], a)
    ensures AllTold(Move(s, i, SubmitStep(s, i, a)))
  {
    var step := SubmitStep(s, i, a);
    var t := Move(s, i, step);
    assert RecordTold(s.submits[i].key, s.journal, s.owner, s.marks);
    SubmitTells(s, i, a);
    forall k ensures RecordTold(k, t.journal, t.owner, t.marks) {
      RecordKept(k, s.journal, s.owner, s.marks, step.eff);
    }
    forall j | 0 <= j < |t.submits| ensures SubmitTold(j, t.submits[j], t.trace.inserters, t.marks) {
      if j != i {
        OtherTold(j, s.submits[j], s.trace.inserters, s.marks, step.eff, s.journal);
      }
    }
    forall d | d in t.queues ensures QueueTold(t.queues[d], t.submits, t.trace.inserters, t.marks) {
      MoveQueueTold(s, i, step, d);
    }
  }

  // ---------- steps of a queue ----------

  lemma JournalTells(q: Queue, who: Who, key: Key, write: Write, inserters: set<Sid>, m: Marks,
                     journal: map<Key, J.Entry>, owner: map<Key, Sid>)
    requires Works(q, who) && RecordTold(key, journal, owner, m)
    ensures var step := JournalStep(q, who, key, key in journal, write);
            WorkTold(WorkOf(step.next, who), key, inserters, MarksAfter(m, step.eff, journal))
  {
  }

  lemma RemoveTells(q: Queue, who: Who, key: Key, inserters: set<Sid>, m: Marks)
    requires Works(q, who) && WorkOf(q, who).stage.Journaled? && WorkTold(WorkOf(q, who), key, inserters, m)
    ensures WorkTold(WorkOf(RemoveStep(q, who, key).next, who), key, inserters, m)
  {
  }

  /** Worker and shutdown do not settle side by side. */
  lemma BesideSettling(s: State, d: string, a: QueueAction, who: Who)
    requires d in s.queues && TakenOver(s.queues[d], s.closed)
    requires MayTurn(s, s.queues[d], a) && Settling(a) && a.who != who && Publishes(QueueStep(s, d, a).next, who)
    ensures Publishes(s.queues[d], who) && WorkOf(QueueStep(s, d, a).next, who) == WorkOf(s.queues[d], who)
    ensures !a.Journals?
  {
    if a.Journals? && a.who.TheWorker? {
      WorkerSilent(s, d, a);
    }
  }

  /** The settlement in hand, after a step of that settlement. */
  lemma SettlingTells(s: State, d: string, a: QueueAction, who: Who)
    requires AllTold(s) && d in s.queues && TakenOver(s.queues[d], s.closed)
    requires MayTurn(s, s.queues[d], a) && Settling(a) && Publishes(QueueStep(s, d, a).next, who)
    ensures var step := QueueStep(s, d, a);
            var work := WorkOf(step.next, who);
            WorkTold(work, Sub(s.submits, work.entry).key, s.trace.inserters, MarksAfter(s.marks, step.eff, s.journal))
  {
    var q := s.queues[d];
    assert QueueTold(q, s.submits, s.trace.inserters, s.marks);
    if a.who != who {
      BesideSettling(s, d, a, who);
      SettlingEffect(s, d, a);
    } else {
      var key := Sub(s.submits, WorkOf(q, who).entry).key;
      if a.Journals? {
        assert RecordTold(key, s.journal, s.owner, s.marks);
        JournalTells(q, who, key, a.write, s.trace.inserters, s.marks, s.journal, s.owner);
      } else if a.Removes? {
        assert Publishes(q, who);
        RemoveTells(q, who, key, s.trace.inserters, s.marks);
      }
    }
  }

  lemma TurnWorkTold(s: State, d: string, a: QueueAction, d': string, who: Who)
    requires AllTold(s) && QueuesOk(s) && d in s.queues && TakenOver(s.queues[d], s.closed)
    requires MayTurn(s, s.queues[d], a)
    requires var t := Turn(s, d, QueueStep(s, d, a)); d' in t.queues && Publishes(t.queues[d'], who)
    ensures var t := Turn(s, d, QueueStep(s, d, a));
            var work := WorkOf(t.queues[d'], who);
            WorkTold(work, Sub(s.submits, work.entry).key, s.trace.inserters,
                     MarksAfter(s.marks, QueueStep(s, d, a).eff, s.journal))
  {
    var step := QueueStep(s, d, a);
    if d' == d && Settling(a) {
      SettlingTells(s, d, a, who);
    } else {
      var work := WorkOf(Turn(s, d, step).queues[d'], who);
      if d' == d {
        FreshWork(s, d, a, who);
        QuietTurn(s, d, a);
      } else {
        ForeignTurn(s, d, a, d', who);
      }
      if !work.stage.ToJournal? {
        assert QueueTold(s.queues[d'], s.submits, s.trace.inserters, s.marks);
        WorkStaysTold(work, Sub(s.submits, work.entry).key, s.trace.inserters, s.marks, step.eff, s.journal);
      }
    }
  }

  /** A device's settlements are not about another device's entries. */
  lemma ForeignTurn(s: State, d: string, a: QueueAction, d': string, who: Who)
    requires QueuesOk(s) && d in s.queues && MayTurn(s, s.queues[d], a)
    requires d' in s.queues && d' != d && Works(s.queues[d'], who)
    ensures var eff := QueueStep(s, d, a).eff;
            !eff.Put? && Spares(eff, WorkOf(s.queues[d'], who).entry)
  {
    WorksOnAccepted(s, d', who);
    if Settling(a) {
      SettlingEffect(s, d, a);
      WorksOnAccepted(s, d, a.who);
    } else {
      QuietTurn(s, d, a);
    }
  }

  lemma TurnSubmitTold(s: State, d: string, a: QueueAction, j: Sid)
    requires AllTold(s) && QueuesOk(s) && d in s.queues && MayTurn(s, s.queues[d], a) && j < |s.submits|
    ensures SubmitTold(j, s.submits[j], s.trace.inserters, MarksAfter(s.marks, QueueStep(s, d, a).eff, s.journal))
  {
    var eff := QueueStep(s, d, a).eff;
    if Settling(a) {
      SettlingEffect(s, d, a);
      WorksOnAccepted(s, d, a.who);
    } else {
      QuietTurn(s, d, a);
    }
    if s.submits[j].pc.FinishRemove? || s.submits[j].pc.FinishWrite? {
      OtherTold(j, s.submits[j], s.trace.inserters, s.marks, eff, s.journal);
    }
  }

  lemma TurnTold(s: State, d: string, a: QueueAction)
    requires AllTold(s) && QueuesOk(s) && d in s.queues && TakenOver(s.queues[d], s.closed)
    requires MayTurn(s, s.queues[d], a)
    ensures AllTold(Turn(s, d, QueueStep(s, d, a)))
  {
    var step := QueueStep(s, d, a);
    var t := Turn(s, d, step);
    QueuePutsNothing(s, d, a);
    forall k ensures RecordTold(k, t.journal, t.owner, t.marks) {
      RecordKept(k, s.journal, s.owner, s.marks, step.eff);
    }
    forall j | 0 <= j < |t.submits| ensures SubmitTold(j, t.submits[j], t.trace.inserters, t.marks) {
      TurnSubmitTold(s, d, a, j);
    }
    forall d', who | d' in t.queues && Publishes(t.queues[d'], who)
      ensures WorkTold(WorkOf(t.queues[d'], who), Sub(t.submits, WorkOf(t.queues[d'], who).entry).key,
                       t.trace.inserters, t.marks)
    {
      TurnWorkTold(s, d, a, d', who);
    }
  }

  // ---------- everything else ----------

  lemma PanicTold(s: State, d: string)
    requires AllTold(s) && d in s.queues
    ensures AllTold(Turn(s, d, DeathStep(s.queues[d], d, s.cells)))
  {
    var t := Turn(s, d, DeathStep(s.queues[d], d, s.cells));
    assert t.journal == s.journal && t.owner == s.owner && t.marks == s.marks && t.trace == s.trace;
    forall d', who | d' in t.queues && Publishes(t.queues[d'], who)
      ensures WorkTold(WorkOf(t.queues[d'], who), Sub(t.submits, WorkOf(t.queues[d'], who).entry).key,
                       t.trace.inserters, t.marks)
    {
      assert Publishes(s.queues[d'], who) && WorkOf(s.queues[d'], who) == WorkOf(t.queues[d'], who);
      assert QueueTold(s.queues[d'], s.submits, s.trace.inserters, s.marks);
    }
  }

  lemma EnqueueTold(s: State, i: Sid)
    requires AllTold(s) && i < |s.submits| && s.submits[i].pc.Enqueue?
    ensures AllTold(Enqueueing(s, i))
  {
    var t := Enqueueing(s, i);
    forall d', who | d' in t.queues && Publishes(t.queues[d'], who)
      ensures WorkTold(WorkOf(t.queues[d'], who), Sub(t.submits, WorkOf(t.queues[d'], who).entry).key,
                       t.trace.inserters, t.marks)
    {
      assert d' in s.queues && Publishes(s.queues[d'], who) && WorkOf(s.queues[d'], who) == WorkOf(t.queues[d'], who);
      assert QueueTold(s.queues[d'], s.submits, s.trace.inserters, s.marks);
    }
  }

  lemma ArriveTold(s: State, sub: Submit)
    requires AllTold(s) && QueuesOk(s) && sub.pc.Register?
    ensures AllTold(s.(submits := s.submits + [sub]))
  {
    var t := s.(submits := s.submits + [sub]);
    forall d, who | d in t.queues && Publishes(t.queues[d], who)
      ensures WorkTold(WorkOf(t.queues[d], who), Sub(t.submits, WorkOf(t.queues[d], who).entry).key,
                       t.trace.inserters, t.marks)
    {
      WorksOnAccepted(s, d, who);
      assert QueueTold(s.queues[d], s.submits, s.trace.inserters, s.marks);
    }
  }

  lemma PurgeTold(s: State, now: int)
    requires AllTold(s)
    ensures AllTold(Purged(s, now))
  {
    var t := Purged(s, now);
    forall k ensures RecordTold(k, t.journal, t.owner, t.marks) {
      assert RecordTold(k, s.journal, s.owner, s.marks);
    }
    forall j | 0 <= j < |t.submits| ensures SubmitTold(j, t.submits[j], t.trace.inserters, t.marks) {
      assert SubmitTold(j, s.submits[j], s.trace.inserters, s.marks);
      assert RecordTold(s.submits[j].key, s.journal, s.owner, s.marks);
    }
    forall d, who | d in t.queues && Publishes(t.queues[d], who)
      ensures WorkTold(WorkOf(t.queues[d], who), Sub(t.submits, WorkOf(t.queues[d], who).entry).key,
                       t.trace.inserters, t.marks)
    {
      assert QueueTold(s.queues[d], s.submits, s.trace.inserters, s.marks);
      assert RecordTold(Sub(s.submits, WorkOf(s.queues[d], who).entry).key, s.journal, s.owner, s.marks);
    }
  }

  lemma CrashTold(s: State)
    requires AllTold(s)
    ensures AllTold(Crashed(s))
  {
    var t := Crashed(s);
    forall k ensures RecordTold(k, t.journal, t.owner, t.marks) {
      assert RecordTold(k, s.journal, s.owner, s.marks);
    }
  }

  lemma SameTold(s: State, t: State)
    requires AllTold(s)
    requires t.submits == s.submits && t.queues == s.queues && t.trace == s.trace && t.journal == s.journal
    requires t.owner == s.owner && t.marks == s.marks
    ensures AllTold(t)
  {
  }

  lemma StepTold(s: State, a: Action)
    requires AllTold(s) && Once(s) && Shaped(s) && Enabled(s, a)
    ensures AllTold(Apply(s, a))
  {
    match a
    case BySubmit(i, move) => MoveTold(s, i, move);
    case Enqueues(i) => EnqueueTold(s, i);
    case ByQueue(d, turn) => TurnTold(s, d, turn);
    case Panics(d) => PanicTold(s, d);
    case Arrives(key, hash, retention) => ArriveTold(s, NewSubmit(key, hash, s.clock, retention, |s.submits|));
    case Purges(now) => PurgeTold(s, now);
    case Crashes => CrashTold(s);
    case Tick(_) => SameTold(s, Apply(s, a));
    case Cancels(_, _) => SameTold(s, Apply(s, a));
    case Stops => SameTold(s, Apply(s, a));
  }

  lemma {:induction false} ExecTold(s0: State, actions: seq<Action>)
    requires Init(s0) && Exec(s0, actions).Some?
    ensures AllTold(Exec(s0, actions).value)
  {
    if actions != [] {
      ExecTold(s0, actions[..|actions| - 1]);
      ExecOnce(s0, actions[..|actions| - 1]);
      ExecShaped(s0, actions[..|actions| - 1]);
      StepTold(Exec(s0, actions[..|actions| - 1]).value, actions[|actions| - 1]);
    }
  }

  // ---------- records nobody has settled yet ----------

  /** A record has a result only by a settlement since the last restart, or from before it. */
  ghost predicate BlankUntilSettled(key: Key, journal: map<Key, J.Entry>, submits: seq<Submit>, m: Marks) {
    key in m.latest ==>
      && m.latest[key] < |submits|
      && (key in journal && key !in m.last && !submits[m.latest[key]].pc.Gone? ==> journal[key].result.None?)
  }

  ghost predicate AllBlank(s: State) {
    forall k :: BlankUntilSettled(k, s.journal, s.submits, s.marks)
  }

  /** Nobody comes back. */
  ghost predicate GoneStays(submits: seq<Submit>, submits': seq<Submit>) {
    |submits| <= |submits'| && forall i :: 0 <= i < |submits| && submits[i].pc.Gone? ==> submits'[i].pc.Gone?
  }

  lemma EffectBlank(s: State, eff: Effect, submits': seq<Submit>)
    requires AllTold(s) && AllBlank(s) && GoneStays(s.submits, submits') && (eff.Put? ==> eff.i < |s.submits|)
    ensures forall k :: BlankUntilSettled(k, JournalAfter(s.journal, eff), submits',
                                          MarksAfter(s.marks, eff, s.journal))
  {
    forall k ensures BlankUntilSettled(k, JournalAfter(s.journal, eff), submits', MarksAfter(s.marks, eff, s.journal)) {
      assert BlankUntilSettled(k, s.journal, s.submits, s.marks) && RecordTold(k, s.journal, s.owner, s.marks);
    }
  }

  lemma StepBlank(s: State, a: Action)
    requires AllTold(s) && AllBlank(s) && SubmitsOk(s) && Enabled(s, a)
    ensures AllBlank(Apply(s, a))
  {
    match a
    case BySubmit(i, move) =>
      SubmitStepOk(s, i, move);
      EffectBlank(s, SubmitStep(s, i, move).eff, Apply(s, a).submits);
    case ByQueue(d, turn) =>
      QueuePutsNothing(s, d, turn);
      EffectBlank(s, QueueStep(s, d, turn).eff, s.submits);
    case Panics(d) => EffectBlank(s, DeathStep(s.queues[d], d, s.cells).eff, s.submits);
    case Purges(now) => PurgeBlank(s, now);
    case Crashes => CrashBlank(s);
    case _ => SameBlank(s, Apply(s, a));
  }

  lemma SameBlank(s: State, t: State)
    requires AllBlank(s) && GoneStays(s.submits, t.submits) && t.journal == s.journal && t.marks == s.marks
    ensures AllBlank(t)
  {
    forall k ensures BlankUntilSettled(k, t.journal, t.submits, t.marks) {
      assert BlankUntilSettled(k, s.journal, s.submits, s.marks);
    }
  }

  lemma PurgeBlank(s: State, now: int)
    requires AllTold(s) && AllBlank(s)
    ensures AllBlank(Purged(s, now))
  {
    var t := Purged(s, now);
    forall k ensures BlankUntilSettled(k, t.journal, t.submits, t.marks) {
      assert BlankUntilSettled(k, s.journal, s.submits, s.marks);
    }
  }

  lemma CrashBlank(s: State)
    requires AllBlank(s)
    ensures AllBlank(Crashed(s))
  {
    var t := Crashed(s);
    forall k ensures BlankUntilSettled(k, t.journal, t.submits, t.marks) {
      assert BlankUntilSettled(k, s.journal, s.submits, s.marks);
    }
  }

  lemma {:induction false} ExecBlank(s0: State, actions: seq<Action>)
    requires Init(s0) && Exec(s0, actions).Some?
    ensures AllBlank(Exec(s0, actions).value)
  {
    if actions != [] {
      ExecBlank(s0, actions[..|actions| - 1]);
      ExecTold(s0, actions[..|actions| - 1]);
      ExecOnce(s0, actions[..|actions| - 1]);
      StepBlank(Exec(s0, actions[..|actions| - 1]).value, actions[|actions| - 1]);
    }
  }

  /** A record without a result is marked as running, so that a restart settles it. */
  ghost predicate OpenRuns(journal: map<Key, J.Entry>) {
    forall k :: k in journal && journal[k].result.None? ==> journal[k].status == Running
  }

  lemma EffectOpens(journal: map<Key, J.Entry>, eff: Effect)
    requires OpenRuns(journal)
    ensures OpenRuns(JournalAfter(journal, eff))
  {
  }

  lemma StepOpens(s: State, a: Action)
    requires OpenRuns(s.journal) && Enabled(s, a)
    ensures OpenRuns(Apply(s, a).journal)
  {
    match a
    case BySubmit(i, move) => EffectOpens(s.journal, SubmitStep(s, i, move).eff);
    case ByQueue(d, turn) => EffectOpens(s.journal, QueueStep(s, d, turn).eff);
    case Panics(d) => EffectOpens(s.journal, DeathStep(s.queues[d], d, s.cells).eff);
    case _ =>
  }

  lemma {:induction false} ExecOpens(s0: State, actions: seq<Action>)
    requires Init(s0) && Exec(s0, actions).Some?
    ensures OpenRuns(Exec(s0, actions).value.journal)
  {
    if actions != [] {
      ExecOpens(s0, actions[..|actions| - 1]);
      StepOpens(Exec(s0, actions[..|actions| - 1]).value, actions[|actions| - 1]);
    }
  }

  // ---------- theorem ----------

  /** The receipt this step writes, if it writes one. */
  ghost function Posted(s: State, a: Action): Option<(Sid, ControlResult)>
    requires Enabled(s, a)
  {
    match a
    case BySubmit(i, move) =>
      var eff := SubmitStep(s, i, move).eff;
      if eff.Post? then Some((eff.cell, eff.result)) else None
    case ByQueue(d, turn) =>
      var eff := QueueStep(s, d, turn).eff;
      if eff.Post? then Some((eff.cell, eff.result)) else None
    case _ => None
  }

  lemma QueuePostsTold(s: State, d: string, a: QueueAction)
    requires AllTold(s) && QueuesOk(s) && d in s.queues && TakenOver(s.queues[d], s.closed)
    requires MayTurn(s, s.queues[d], a)
    requires QueueStep(s, d, a).eff.Post?
    ensures var eff := QueueStep(s, d, a).eff;
            && eff.cell < |s.submits| && !s.submits[eff.cell].pc.Gone?
            && Told(eff.cell, eff.result, s.submits[eff.cell].key, s.trace.inserters, s.marks)
            && Admits(eff.cell, eff.result, s.marks)
  {
    QueuePosts(s, d, a);
    if a.who.TheWorker? {
      WorkerSilent(s, d, a);
    }
    assert QueueTold(s.queues[d], s.submits, s.trace.inserters, s.marks);
  }

  lemma SubmitPostsTold(s: State, i: Sid, a: SubmitAction)
    requires AllTold(s) && CellsShaped(s) && i < |s.submits| && MayMove(s, s.submits[i], a)
    requires SubmitStep(s, i, a).eff.Post?
    ensures var eff := SubmitStep(s, i, a).eff;
            eff.cell == i && !s.submits[i].pc.Gone? && Told(i, eff.result, s.submits[i].key, s.trace.inserters, s.marks)
  {
    assert CellShape(i, s.submits[i], s.cells) && SubmitTold(i, s.submits[i], s.trace.inserters, s.marks);
  }

  /** The record is submit `e`'s own and stores `r`. */
  ghost predicate Stores(s: State, e: Sid, r: ControlResult)
    requires e < |s.submits|
  {
    var k := s.submits[e].key;
    k in s.journal && Holds(s.owner, k, e) && s.journal[k].result == Some(r)
  }

  /** Submit `e`'s record has been neither purged nor inserted again, and the last settlement that
      reached it was `e`'s own, its last try having reached it, or wrote `r` anyhow. */
  predicate Kept(m: Marks, key: Key, e: Sid, r: ControlResult) {
    && Holds(m.latest, key, e)
    && key in m.last
    && ((m.last[key].author == e && e !in m.failed) || m.last[key].result == r)
  }

  lemma ToldMatches(s: State, e: Sid, r: ControlResult)
    requires e < |s.submits| && e in s.trace.inserters && !s.submits[e].pc.Gone?
    requires BlankUntilSettled(s.submits[e].key, s.journal, s.submits, s.marks)
    requires RecordTold(s.submits[e].key, s.journal, s.owner, s.marks)
    requires Told(e, r, s.submits[e].key, s.trace.inserters, s.marks)
    ensures Stores(s, e, r) <==> Kept(s.marks, s.submits[e].key, e, r)
  {
  }

  /** Whoever writes a receipt for a request that inserted a record (the submit, the worker, or
      shutdown): the record is the request's own and stores this very result if and only if what
      happened to the record since then says so. */
  lemma ReceiptMatchesIff(s0: State, actions: seq<Action>, a: Action)
    requires Init(s0) && Exec(s0, actions).Some? && Enabled(Exec(s0, actions).value, a)
    requires var s := Exec(s0, actions).value;
             Posted(s, a).Some? && Posted(s, a).value.0 in s.trace.inserters
    ensures var s := Exec(s0, actions).value;
            var (e, r) := Posted(s, a).value;
            && e < |s.submits|
            && (Stores(s, e, r) <==> Kept(s.marks, s.submits[e].key, e, r))
  {
    ExecTold(s0, actions);
    ExecOnce(s0, actions);
    ExecShaped(s0, actions);
    ExecBlank(s0, actions);
    PostedTold(Exec(s0, actions).value, a);
  }

  lemma PostedTold(s: State, a: Action)
    requires AllTold(s) && AllBlank(s) && Once(s) && Shaped(s) && Enabled(s, a)
    requires Posted(s, a).Some? && Posted(s, a).value.0 in s.trace.inserters
    ensures var (e, r) := Posted(s, a).value;
            && e < |s.submits|
            && Told(e, r, s.submits[e].key, s.trace.inserters, s.marks)
            && (Stores(s, e, r) <==> Kept(s.marks, s.submits[e].key, e, r))
  {
    if a.BySubmit? {
      SubmitPostsTold(s, a.i, a.move);
    } else {
      QueuePostsTold(s, a.d, a.turn);
    }
    ToldMatches(s, Posted(s, a).value.0, Posted(s, a).value.1);
  }
}
