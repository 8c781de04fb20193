/** While no record of its key expires under a live request, a request that inserted a record keeps
    it, nobody else settles it, and so a receipt with a definite outcome is what the journal stores: a
    repeated request reads the same answer the first one got. */
module EngineAgree {
  import opened ControlTypes
  import opened Engine
  import opened EngineOnce
  import opened EngineCells
  import opened EngineMatch
  import J = Journal

  // ---------- what a submit knows about its key ----------

  /** What the tasks share about keys. */
  datatype Shared = Shared(
    active: map<Key, Sid>, journal: map<Key, J.Entry>, owner: map<Key, Sid>, inserters: set<Sid>)

  function SharedOf(s: State): Shared {
    Shared(s.active, s.journal, s.owner, s.trace.inserters)
  }

  function SharedAfter(b: Shared, eff: Effect): Shared {
    Shared(ActiveAfter(b.active, eff), JournalAfter(b.journal, eff), OwnerAfter(b.owner, eff),
           if eff.Put? then b.inserters + {eff.i} else b.inserters)
  }

  /** The submit is past the journal's verdict and not done, or its entry is in its queue. */
  predicate Live(sub: Submit, held: bool) {
    held || !(sub.pc.Register? || sub.pc.Insert? || sub.pc.Returned? || sub.pc.Gone?)
  }

  predicate HeldAt(s: State, i: Sid)
    requires i < |s.submits|
  {
    Held(QueueOf(s.queues, s.submits[i].key.device), i)
  }

  /** A live inserter's record is still the one it inserted. */
  ghost predicate Keeps(i: Sid, sub: Submit, held: bool, b: Shared) {
    i in b.inserters && Live(sub, held) ==> sub.key in b.journal && Holds(b.owner, sub.key, i)
  }

  predicate Unrecorded(pc: Pc) {
    pc.Insert? || pc == Decided(WriteFailed) || pc.FinishSettle? || pc.FinishRemove?
  }

  /** An owner that has put nothing into the journal keeps its claim while the journal has no record. */
  ghost predicate Claims(i: Sid, sub: Submit, b: Shared) {
    sub.cell == i && i !in b.inserters && Unrecorded(sub.pc) && sub.key !in b.journal ==> Holds(b.active, sub.key, i)
  }

  predicate Saw(pc: Pc) {
    (pc.Decided? && pc.verdict.Answered? && !pc.verdict.decision.Inserted?) || pc.Interrupt? || pc.Uninterrupt?
  }

  /** A record that a submit was shown stays while the submit acts on it. */
  ghost predicate Seen(sub: Submit, b: Shared) {
    Saw(sub.pc) ==> sub.key in b.journal
  }

  ghost predicate Role(i: Sid, sub: Submit, b: Shared) {
    && (sub.pc.Orphan? ==> i in b.inserters && sub.cell != i)
    && (sub.pc.FinishSettle? || sub.pc.FinishRemove? || sub.pc.FinishWrite? ==> sub.cell == i)
  }

  ghost predicate Footing(i: Sid, sub: Submit, held: bool, b: Shared) {
    Keeps(i, sub, held, b) && Claims(i, sub, b) && Seen(sub, b) && Role(i, sub, b)
  }

  /** Submit `x`, whose insertion failed, is not going to settle the record of a live `e`. */
  ghost predicate Aside(x: Sid, subx: Submit, e: Sid, sube: Submit, held: bool, inserters: set<Sid>) {
    !( && x != e && subx.key == sube.key
       && x !in inserters && (subx.pc == Decided(WriteFailed) || subx.pc.FinishSettle?) && subx.cell == x
       && e in inserters && sube.cell == e && Live(sube, held))
  }

  /** All of this for the keys no record of which has expired under a live request. */
  ghost predicate Grounded(s: State) {
    && (forall i :: 0 <= i < |s.submits| && s.submits[i].key !in s.marks.early ==>
          Footing(i, s.submits[i], HeldAt(s, i), SharedOf(s)))
    && (forall x, e :: 0 <= x < |s.submits| && 0 <= e < |s.submits| && s.submits[e].key !in s.marks.early ==>
          Aside(x, s.submits[x], e, s.submits[e], HeldAt(s, e), s.trace.inserters))
  }

  // ---------- steps of a submit ----------

  /** What an effect of submit `i` owes to the other submits of its key. */
  ghost predicate Courteous(i: Sid, eff: Effect, b: Shared) {
    && (eff.Claim? ==> eff.key !in b.active)
    && (eff.Leave? ==> eff.key in b.journal || Holds(b.active, eff.key, i))
    && (eff.Put? ==> eff.i == i)
  }

  /** The effect changes nothing about keys other than `key`. */
  predicate About(eff: Effect, key: Key) {
    match eff
    case Claim(k, _) => k == key
    case Leave(k, _) => k == key
    case Put(_, sub, _, _) => sub.key == key
    case PutFails(k, _, _) => k == key
    case Ask(_, k, _, _) => k == key
    case Settle(k, _, _, _) => k == key
    case Skip(k, _) => k == key
    case _ => true
  }

  lemma ForeignKeepsFooting(i: Sid, eff: Effect, key: Key, j: Sid, sub: Submit, held: bool, b: Shared)
    requires i != j && Footing(j, sub, held, b) && About(eff, key) && key != sub.key && (eff.Put? ==> eff.i == i)
    ensures Footing(j, sub, held, SharedAfter(b, eff))
  {
  }

  lemma OtherKeepsFooting(i: Sid, eff: Effect, j: Sid, sub: Submit, held: bool, b: Shared)
    requires i != j && Footing(j, sub, held, b) && Courteous(i, eff, b)
    requires eff.Put? && sub.key == eff.sub.key && sub.key in b.journal ==> !Live(sub, held)
    ensures Footing(j, sub, held, SharedAfter(b, eff))
  {
  }

  ghost predicate KeepsFooting(i: Sid, held: bool, b: Shared, step: Step<Submit>) {
    Footing(i, step.next, held, SharedAfter(b, step.eff)) && Courteous(i, step.eff, b)
  }

  lemma DecideFooting(i: Sid, sub: Submit, held: bool, b: Shared, now: int)
    requires sub.pc.Decided? && (i in b.inserters <==> sub.pc.verdict == Answered(J.Inserted))
    requires Footing(i, sub, held, b)
    ensures KeepsFooting(i, held, b, DecideStep(sub, i, now))
  {
  }

  lemma FinishFooting(i: Sid, sub: Submit, held: bool, b: Shared, ok: bool)
    requires Footing(i, sub, held, b)
    ensures sub.pc.FinishSettle? ==> KeepsFooting(i, held, b, FinishSettleStep(sub, i, sub.key in b.journal, ok))
    ensures sub.pc.FinishRemove? ==> KeepsFooting(i, held, b, FinishRemoveStep(sub))
    ensures sub.pc.FinishWrite? ==> KeepsFooting(i, held, b, FinishWriteStep(sub))
  {
  }

  lemma EntryFooting(i: Sid, sub: Submit, held: bool, b: Shared, writable: bool, disordered: bool, early: bool)
    requires Footing(i, sub, held, b)
    requires sub.pc.Register? || sub.pc.Insert? ==> i !in b.inserters
    ensures sub.pc.Register? ==> KeepsFooting(i, held, b, RegisterStep(sub, i, b.active))
    ensures sub.pc.Insert? ==> KeepsFooting(i, held, b, InsertStep(sub, i, b.journal, writable, disordered, early))
  {
  }

  lemma SubmitFooting(s: State, i: Sid, a: SubmitAction)
    requires i < |s.submits| && MayMove(s, s.submits[i], a)
    requires SubmitOk(i, s.submits[i], s.trace) && CellShape(i, s.submits[i], s.cells)
    requires Footing(i, s.submits[i], HeldAt(s, i), SharedOf(s))
    ensures KeepsFooting(i, HeldAt(s, i), SharedOf(s), SubmitStep(s, i, a))
  {
    var sub, held, b := s.submits[i], HeldAt(s, i), SharedOf(s);
    match a
    case Registers => EntryFooting(i, sub, held, b, true, false, false);
    case Inserts(writable) =>
      EntryFooting(i, sub, held, b, writable, SubmitStep(s, i, a).eff.disordered,
                   sub.key in s.journal && !(Holds(s.active, sub.key, i) && sub.cell == i && Quiet(s, sub.key, i)));
    case Decides => DecideFooting(i, sub, held, b, s.clock);
    case FinishSettles(ok) => FinishFooting(i, sub, held, b, ok);
    case FinishRemoves => FinishFooting(i, sub, held, b, true);
    case FinishWrites => FinishFooting(i, sub, held, b, true);
    case _ =>
  }

  /** An insertion that finds an expired record, and is not early, finds nobody else live. */
  lemma NotEarly(s: State, i: Sid, a: SubmitAction, j: Sid)
    requires i < |s.submits| && j < |s.submits| && i != j && MayMove(s, s.submits[i], a) && a.Inserts?
    requires var eff := SubmitStep(s, i, a).eff; (eff.Put? || eff.PutFails?) && !eff.early
    requires s.submits[j].key == s.submits[i].key && s.submits[i].key in s.journal
    ensures !Live(s.submits[j], HeldAt(s, j))
    ensures s.submits[i].cell == i && Holds(s.active, s.submits[i].key, i)
    ensures s.submits[j].pc.Insert? ==> s.submits[j].cell == i
  {
  }

  lemma MovedShares(s: State, i: Sid, step: Step<Submit>)
    requires i < |s.submits|
    ensures SharedOf(Move(s, i, step)) == SharedAfter(SharedOf(s), step.eff)
    ensures step.next.key == s.submits[i].key ==>
              forall j :: 0 <= j < |s.submits| ==> HeldAt(Move(s, i, step), j) == HeldAt(s, j)
  {
  }

  lemma EarlyAfter(m: Marks, eff: Effect, journal: map<Key, J.Entry>, key: Key)
    ensures m.early <= MarksAfter(m, eff, journal).early
    ensures key !in MarksAfter(m, eff, journal).early && About(eff, key) && (eff.Put? || eff.PutFails?) ==> !eff.early
  {
  }

  /** How a move can bring a submit to where `Aside` speaks of it. */
  ghost predicate Approach(i: Sid, sub: Submit, held: bool, inserters: set<Sid>, step: Step<Submit>) {
    && step.next.key == sub.key
    && (!sub.pc.Register? ==> step.next.cell == sub.cell)
    && (step.eff.Put? || step.eff.PutFails? ==> sub.pc.Insert?)
    && (step.eff.Put? ==> step.eff.i == i && step.eff.sub == sub)
    && About(step.eff, sub.key)
    && (i !in inserters && (step.next.pc == Decided(WriteFailed) || step.next.pc.FinishSettle?) ==>
          sub.pc == Decided(WriteFailed) || sub.pc.FinishSettle? || step.eff.PutFails?)
    && (i in inserters && Live(step.next, held) ==> Live(sub, held))
  }

  lemma SubmitApproach(s: State, i: Sid, a: SubmitAction)
    requires i < |s.submits| && MayMove(s, s.submits[i], a) && SubmitOk(i, s.submits[i], s.trace)
    ensures Approach(i, s.submits[i], HeldAt(s, i), s.trace.inserters, SubmitStep(s, i, a))
  {
  }

  lemma AsideAsFailed(
    i: Sid, sub: Submit, e: Sid, sube: Submit, heldi: bool, held: bool, b: Shared, step: Step<Submit>)
    requires Approach(i, sub, heldi, b.inserters, step) && Aside(i, sub, e, sube, held, b.inserters)
    requires Footing(e, sube, held, b) && (sub.pc.Register? || sub.pc.Insert? ==> i !in b.inserters)
    requires step.eff.PutFails? && sube.key == sub.key && i != e && sub.key in b.journal ==> !Live(sube, held)
    ensures Aside(i, step.next, e, sube, held, InsertersAfter(b.inserters, step.eff))
  {
  }

  lemma AsideAsOwner(
    i: Sid, sub: Submit, x: Sid, subx: Submit, held: bool, heldx: bool, b: Shared, step: Step<Submit>)
    requires Approach(i, sub, held, b.inserters, step) && Aside(x, subx, i, sub, held, b.inserters)
    requires Footing(i, sub, held, b) && Footing(x, subx, heldx, b)
    requires sub.pc.Register? || sub.pc.Insert? ==> i !in b.inserters
    requires step.eff.Put? && subx.key == sub.key && x != i && sub.key in b.journal ==> !Live(subx, heldx)
    ensures Aside(x, subx, i, step.next, held, InsertersAfter(b.inserters, step.eff))
  {
  }

  lemma MoveAside(s: State, i: Sid, a: SubmitAction, j: Sid)
    requires Grounded(s) && i < |s.submits| && j < |s.submits| && i != j && MayMove(s, s.submits[i], a)
    requires SubmitOk(i, s.submits[i], s.trace) && s.submits[j].key == s.submits[i].key
    requires s.submits[i].key !in MarksAfter(s.marks, SubmitStep(s, i, a).eff, s.journal).early
    ensures var step := SubmitStep(s, i, a);
            && Aside(i, step.next, j, s.submits[j], HeldAt(s, j), InsertersAfter(s.trace.inserters, step.eff))
            && Aside(j, s.submits[j], i, step.next, HeldAt(s, i), InsertersAfter(s.trace.inserters, step.eff))
  {
    var step := SubmitStep(s, i, a);
    SubmitApproach(s, i, a);
    EarlyAfter(s.marks, step.eff, s.journal, s.submits[i].key);
    if (step.eff.Put? || step.eff.PutFails?) && s.submits[i].key in s.journal {
      NotEarly(s, i, a, j);
    }
    AsideAsFailed(i, s.submits[i], j, s.submits[j], HeldAt(s, i), HeldAt(s, j), SharedOf(s), step);
    AsideAsOwner(i, s.submits[i], j, s.submits[j], HeldAt(s, i), HeldAt(s, j), SharedOf(s), step);
  }

  lemma MoveFooting(s: State, i: Sid, a: SubmitAction, j: Sid)
    requires Grounded(s) && Once(s) && Shaped(s)
    requires i < |s.submits| && j < |s.submits| && i != j && MayMove(s, s.submits[i], a)
    requires s.submits[j].key !in MarksAfter(s.marks, SubmitStep(s, i, a).eff, s.journal).early
    ensures Footing(j, s.submits[j], HeldAt(s, j), SharedAfter(SharedOf(s), SubmitStep(s, i, a).eff))
  {
    var step := SubmitStep(s, i, a);
    SubmitApproach(s, i, a);
    EarlyAfter(s.marks, step.eff, s.journal, s.submits[j].key);
    if s.submits[j].key == s.submits[i].key {
      SubmitFooting(s, i, a);
      if step.eff.Put? && s.submits[i].key in s.journal {
        NotEarly(s, i, a, j);
      }
      OtherKeepsFooting(i, step.eff, j, s.submits[j], HeldAt(s, j), SharedOf(s));
    } else {
      ForeignKeepsFooting(i, step.eff, s.submits[i].key, j, s.submits[j], HeldAt(s, j), SharedOf(s));
    }
  }

  lemma MoveFootings(s: State, i: Sid, a: SubmitAction, j: Sid)
    requires Grounded(s) && Once(s) && Shaped(s) && i < |s.submits| && MayMove(s, s.submits[i], a)
    requires var t := Move(s, i, SubmitStep(s, i, a)); j < |t.submits| && t.submits[j].key !in t.marks.early
    ensures var t := Move(s, i, SubmitStep(s, i, a)); Footing(j, t.submits[j], HeldAt(t, j), SharedOf(t))
  {
    var step := SubmitStep(s, i, a);
    SubmitApproach(s, i, a);
    MovedShares(s, i, step);
    EarlyAfter(s.marks, step.eff, s.journal, s.submits[j].key);
    if j == i {
      SubmitFooting(s, i, a);
    } else {
      MoveFooting(s, i, a, j);
    }
  }

  lemma MoveAsides(s: State, i: Sid, a: SubmitAction, x: Sid, e: Sid)
    requires Grounded(s) && Once(s) && i < |s.submits| && MayMove(s, s.submits[i], a)
    requires var t := Move(s, i, SubmitStep(s, i, a));
             x < |t.submits| && e < |t.submits| && t.submits[e].key !in t.marks.early
    ensures var t := Move(s, i, SubmitStep(s, i, a));
            Aside(x, t.submits[x], e, t.submits[e], HeldAt(t, e), t.trace.inserters)
  {
    var step := SubmitStep(s, i, a);
    SubmitApproach(s, i, a);
    MovedShares(s, i, step);
    EarlyAfter(s.marks, step.eff, s.journal, s.submits[e].key);
    if s.submits[x].key == s.submits[e].key && x != e {
      if x == i {
        MoveAside(s, i, a, e);
      } else if e == i {
        MoveAside(s, i, a, x);
      } else {
        assert Aside(x, s.submits[x], e, s.submits[e], HeldAt(s, e), s.trace.inserters);
      }
    }
  }

  lemma MoveGrounded(s: State, i: Sid, a: SubmitAction)
    requires Grounded(s) && Once(s) && Shaped(s) && i < |s.submits| && MayMove(s, s.submits[i], a)
    ensures Grounded(Move(s, i, SubmitStep(s, i, a)))
  {
    var t := Move(s, i, SubmitStep(s, i, a));
    forall j | 0 <= j < |t.submits| && t.submits[j].key !in t.marks.early
      ensures Footing(j, t.submits[j], HeldAt(t, j), SharedOf(t))
    {
      MoveFootings(s, i, a, j);
    }
    forall x, e | 0 <= x < |t.submits| && 0 <= e < |t.submits| && t.submits[e].key !in t.marks.early
      ensures Aside(x, t.submits[x], e, t.submits[e], HeldAt(t, e), t.trace.inserters)
    {
      MoveAsides(s, i, a, x, e);
    }
  }

  // ---------- steps of a queue ----------

  lemma TurnKeepsFooting(j: Sid, sub: Submit, held: bool, held': bool, b: Shared, eff: Effect)
    requires Footing(j, sub, held, b) && (held' ==> held)
    requires !eff.Claim? && !eff.Put? && (eff.Leave? && eff.key == sub.key ==> eff.key in b.journal)
    ensures Footing(j, sub, held', SharedAfter(b, eff))
  {
  }

  /** The entry a settlement is about belongs to a live inserter. */
  lemma WorkerOwns(s: State, d: string, who: Who)
    requires Grounded(s) && Once(s) && d in s.queues && Works(s.queues[d], who)
    ensures var e := WorkOf(s.queues[d], who).entry;
            && e < |s.submits| && s.submits[e].key.device == d && IsAccepted(e, s.submits[e])
            && e in s.trace.inserters && HeldAt(s, e)
            && (s.submits[e].key !in s.marks.early ==>
                  s.submits[e].key in s.journal && Holds(s.owner, s.submits[e].key, e))
  {
    WorksOnAccepted(s, d, who);
    var e := WorkOf(s.queues[d], who).entry;
    assert SubmitOk(e, s.submits[e], s.trace);
    assert s.submits[e].key !in s.marks.early ==> Footing(e, s.submits[e], HeldAt(s, e), SharedOf(s));
  }

  lemma TurnCourteous(s: State, d: string, a: QueueAction)
    requires Grounded(s) && Once(s) && d in s.queues && MayTurn(s, s.queues[d], a)
    ensures var eff := QueueStep(s, d, a).eff;
            && !eff.Claim? && !eff.Put? && !eff.PutFails?
            && (eff.Leave? && eff.key !in s.marks.early ==> eff.key in s.journal)
  {
    if Settling(a) {
      WorkerOwns(s, d, a.who);
      SettlingEffect(s, d, a);
    } else {
      QuietTurn(s, d, a);
    }
  }

  lemma TurnHeld(s: State, d: string, a: QueueAction, j: Sid)
    requires d in s.queues && MayTurn(s, s.queues[d], a) && j < |s.submits|
    requires HeldAt(Turn(s, d, QueueStep(s, d, a)), j)
    ensures HeldAt(s, j)
  {
    if s.submits[j].key.device == d {
      TurnHolds(s, d, a, j);
    }
  }

  /** Nothing enters a queue, and its effect is courteous. */
  lemma QueueGrounded(s: State, d: string, step: Step<Queue>)
    requires Grounded(s) && d in s.queues
    requires var eff := step.eff; !eff.Claim? && !eff.Put? && !eff.PutFails?
    requires step.eff.Leave? && step.eff.key !in s.marks.early ==> step.eff.key in s.journal
    requires forall j :: 0 <= j < |s.submits| && HeldAt(Turn(s, d, step), j) ==> HeldAt(s, j)
    ensures Grounded(Turn(s, d, step))
  {
    var t := Turn(s, d, step);
    assert t.marks.early == s.marks.early && t.trace.inserters == s.trace.inserters;
    forall j | 0 <= j < |t.submits| && t.submits[j].key !in t.marks.early
      ensures Footing(j, t.submits[j], HeldAt(t, j), SharedOf(t))
    {
      TurnKeepsFooting(j, s.submits[j], HeldAt(s, j), HeldAt(t, j), SharedOf(s), step.eff);
    }
    forall x, e | 0 <= x < |t.submits| && 0 <= e < |t.submits| && t.submits[e].key !in t.marks.early
      ensures Aside(x, t.submits[x], e, t.submits[e], HeldAt(t, e), t.trace.inserters)
    {
      assert Aside(x, s.submits[x], e, s.submits[e], HeldAt(s, e), s.trace.inserters);
    }
  }

  lemma TurnGrounded(s: State, d: string, a: QueueAction)
    requires Grounded(s) && Once(s) && d in s.queues && MayTurn(s, s.queues[d], a)
    ensures Grounded(Turn(s, d, QueueStep(s, d, a)))
  {
    TurnCourteous(s, d, a);
    forall j | 0 <= j < |s.submits| && HeldAt(Turn(s, d, QueueStep(s, d, a)), j) ensures HeldAt(s, j) {
      TurnHeld(s, d, a, j);
    }
    QueueGrounded(s, d, QueueStep(s, d, a));
  }

  lemma PanicGrounded(s: State, d: string)
    requires Grounded(s) && d in s.queues
    ensures Grounded(Turn(s, d, DeathStep(s.queues[d], d, s.cells)))
  {
    QueueGrounded(s, d, DeathStep(s.queues[d], d, s.cells));
  }

  // ---------- everything else ----------

  lemma EnqueueGrounded(s: State, i: Sid)
    requires Grounded(s) && Once(s) && i < |s.submits| && s.submits[i].pc.Enqueue?
    ensures Grounded(Enqueueing(s, i))
  {
    var t := Enqueueing(s, i);
    assert SubmitOk(i, s.submits[i], s.trace);
    forall j | 0 <= j < |t.submits| && t.submits[j].key !in t.marks.early
      ensures Footing(j, t.submits[j], HeldAt(t, j), SharedOf(t))
    {
      assert Footing(j, s.submits[j], HeldAt(s, j), SharedOf(s));
      if j != i && HeldAt(t, j) {
        EnqueueHolds(s, i, j);
      }
    }
    forall x, e | 0 <= x < |t.submits| && 0 <= e < |t.submits| && t.submits[e].key !in t.marks.early
      ensures Aside(x, t.submits[x], e, t.submits[e], HeldAt(t, e), t.trace.inserters)
    {
      assert Aside(x, s.submits[x], e, s.submits[e], HeldAt(s, e), s.trace.inserters);
      if e != i && HeldAt(t, e) {
        EnqueueHolds(s, i, e);
      }
    }
  }

  lemma EnqueueHolds(s: State, i: Sid, j: Sid)
    requires i < |s.submits| && j < |s.submits| && j != i && HeldAt(Enqueueing(s, i), j)
    ensures HeldAt(s, j)
  {
  }

  /** A key the purge is not early for keeps its record, or nobody is busy with it. */
  lemma PurgeFooting(s: State, now: int, j: Sid)
    requires j < |s.submits| && s.submits[j].key !in s.marks.early + PurgedEarly(s, now)
    requires Footing(j, s.submits[j], HeldAt(s, j), SharedOf(s))
    ensures Footing(j, s.submits[j], HeldAt(s, j), SharedOf(Purged(s, now)))
  {
    var k := s.submits[j].key;
    if k in s.journal && s.journal[k].expiresAt < now {
      assert Quiet(s, k, |s.submits|) && !Busy(s, j, |s.submits|);
    }
  }

  lemma PurgeGrounded(s: State, now: int)
    requires Grounded(s)
    ensures Grounded(Purged(s, now))
  {
    var t := Purged(s, now);
    forall j | 0 <= j < |t.submits| && t.submits[j].key !in t.marks.early
      ensures Footing(j, t.submits[j], HeldAt(t, j), SharedOf(t))
    {
      PurgeFooting(s, now, j);
    }
    forall x, e | 0 <= x < |t.submits| && 0 <= e < |t.submits| && t.submits[e].key !in t.marks.early
      ensures Aside(x, t.submits[x], e, t.submits[e], HeldAt(t, e), t.trace.inserters)
    {
      assert Aside(x, s.submits[x], e, s.submits[e], HeldAt(s, e), s.trace.inserters);
    }
  }

  lemma ArriveGrounded(s: State, sub: Submit)
    requires Grounded(s) && sub.pc.Register? && |s.submits| !in s.trace.inserters
    ensures Grounded(s.(submits := s.submits + [sub]))
  {
    var t := s.(submits := s.submits + [sub]);
    forall j | 0 <= j < |t.submits| && t.submits[j].key !in t.marks.early
      ensures Footing(j, t.submits[j], HeldAt(t, j), SharedOf(t))
    {
      if j < |s.submits| {
        assert Footing(j, s.submits[j], HeldAt(s, j), SharedOf(s)) && HeldAt(t, j) == HeldAt(s, j);
      }
    }
    forall x, e | 0 <= x < |t.submits| && 0 <= e < |t.submits| && t.submits[e].key !in t.marks.early
      ensures Aside(x, t.submits[x], e, t.submits[e], HeldAt(t, e), t.trace.inserters)
    {
      if x < |s.submits| && e < |s.submits| {
        assert Aside(x, s.submits[x], e, s.submits[e], HeldAt(s, e), s.trace.inserters);
      }
    }
  }

  lemma CrashGrounded(s: State)
    ensures Grounded(Crashed(s))
  {
    var t := Crashed(s);
    forall j | 0 <= j < |t.submits| ensures t.submits[j].pc.Gone? && !HeldAt(t, j) {
    }
  }

  lemma SameGrounded(s: State, t: State)
    requires Grounded(s)
    requires t.submits == s.submits && t.queues == s.queues && t.trace == s.trace && t.marks == s.marks
    requires SharedOf(t) == SharedOf(s)
    ensures Grounded(t)
  {
  }

  lemma StepGrounded(s: State, a: Action)
    requires Grounded(s) && Once(s) && Shaped(s) && Enabled(s, a)
    ensures Grounded(Apply(s, a))
  {
    match a
    case BySubmit(i, move) => MoveGrounded(s, i, move);
    case Enqueues(i) => EnqueueGrounded(s, i);
    case ByQueue(d, turn) => TurnGrounded(s, d, turn);
    case Panics(d) => PanicGrounded(s, d);
    case Arrives(key, hash, retention) => ArriveGrounded(s, NewSubmit(key, hash, s.clock, retention, |s.submits|));
    case Purges(now) => PurgeGrounded(s, now);
    case Crashes => CrashGrounded(s);
    case Tick(_) => SameGrounded(s, Apply(s, a));
    case Cancels(_, _) => SameGrounded(s, Apply(s, a));
    case Stops => SameGrounded(s, Apply(s, a));
  }

  lemma {:induction false} ExecGrounded(s0: State, actions: seq<Action>)
    requires Init(s0) && Exec(s0, actions).Some?
    ensures Grounded(Exec(s0, actions).value)
  {
    if actions != [] {
      ExecGrounded(s0, actions[..|actions| - 1]);
      ExecOnce(s0, actions[..|actions| - 1]);
      ExecShaped(s0, actions[..|actions| - 1]);
      StepGrounded(Exec(s0, actions[..|actions| - 1]).value, actions[|actions| - 1]);
    }
  }

  // ---------- nobody else settles a live owner's record ----------

  ghost predicate SettledByOwner(e: Sid, sub: Submit, held: bool, inserters: set<Sid>, m: Marks) {
    && e in inserters && sub.cell == e && Live(sub, held) && sub.key !in m.early
    && sub.key in m.last && Holds(m.latest, sub.key, e)
    ==> m.last[sub.key].author == e
  }

  ghost predicate Owned(s: State) {
    forall e :: 0 <= e < |s.submits| ==>
      SettledByOwner(e, s.submits[e], HeldAt(s, e), s.trace.inserters, s.marks)
  }

  /** Of the submits of a key, the one that settles the record of a live owner is that owner. */
  lemma SettlerOwns(s: State, i: Sid, e: Sid)
    requires Grounded(s) && i < |s.submits| && e < |s.submits| && s.submits[i].key == s.submits[e].key
    requires s.submits[i].pc.Orphan? || s.submits[i].pc.FinishSettle?
    requires e in s.trace.inserters && s.submits[e].cell == e && Live(s.submits[e], HeldAt(s, e))
    requires s.submits[e].key !in s.marks.early
    ensures i == e
  {
    assert Footing(i, s.submits[i], HeldAt(s, i), SharedOf(s)) && Footing(e, s.submits[e], HeldAt(s, e), SharedOf(s));
    assert Aside(i, s.submits[i], e, s.submits[e], HeldAt(s, e), s.trace.inserters);
  }

  /** An effect that is not a foreign settlement of the record leaves its author. */
  lemma OwnedKept(
    e: Sid, sub: Submit, held: bool, held': bool, inserters: set<Sid>, m: Marks, eff: Effect,
    journal: map<Key, J.Entry>)
    requires SettledByOwner(e, sub, held, inserters, m) && (held' ==> held) && (eff.Put? ==> eff.i != e)
    requires eff.Settle? && eff.key == sub.key && eff.author != e ==>
               !(e in inserters && sub.cell == e && Live(sub, held) && sub.key !in m.early
                 && Holds(m.latest, sub.key, e))
    ensures SettledByOwner(e, sub, held', InsertersAfter(inserters, eff), MarksAfter(m, eff, journal))
  {
  }

  lemma MoverOwned(i: Sid, sub: Submit, held: bool, inserters: set<Sid>, m: Marks, step: Step<Submit>,
                   journal: map<Key, J.Entry>)
    requires SettledByOwner(i, sub, held, inserters, m) && Approach(i, sub, held, inserters, step)
    requires sub.pc.Register? || sub.pc.Insert? ==> i !in inserters
    requires step.eff.Settle? ==> step.eff.author == i
    ensures SettledByOwner(i, step.next, held, InsertersAfter(inserters, step.eff), MarksAfter(m, step.eff, journal))
  {
  }

  lemma MoveSettles(s: State, i: Sid, a: SubmitAction)
    requires i < |s.submits| && MayMove(s, s.submits[i], a)
    ensures var eff := SubmitStep(s, i, a).eff;
            eff.Settle? ==> eff.author == i && (s.submits[i].pc.Orphan? || s.submits[i].pc.FinishSettle?)
  {
  }

  lemma MoveOwned(s: State, i: Sid, a: SubmitAction)
    requires Owned(s) && Grounded(s) && Once(s) && i < |s.submits| && MayMove(s, s.submits[i], a)
    ensures Owned(Move(s, i, SubmitStep(s, i, a)))
  {
    var step := SubmitStep(s, i, a);
    var t := Move(s, i, step);
    SubmitApproach(s, i, a);
    MovedShares(s, i, step);
    MoveSettles(s, i, a);
    forall e | 0 <= e < |t.submits| ensures SettledByOwner(e, t.submits[e], HeldAt(t, e), t.trace.inserters, t.marks) {
      if e == i {
        MoverOwned(i, s.submits[i], HeldAt(s, i), s.trace.inserters, s.marks, step, s.journal);
      } else {
        var sub := s.submits[e];
        if step.eff.Settle? && step.eff.key == sub.key && e in s.trace.inserters && sub.cell == e
           && Live(sub, HeldAt(s, e)) && sub.key !in s.marks.early {
          SettlerOwns(s, i, e);
        }
        OwnedKept(e, sub, HeldAt(s, e), HeldAt(s, e), s.trace.inserters, s.marks, step.eff, s.journal);
      }
    }
  }

  lemma QueueOwned(s: State, d: string, step: Step<Queue>, e: Sid)
    requires Owned(s) && AllTold(s) && d in s.queues && e < |s.submits| && !step.eff.Put?
    requires HeldAt(Turn(s, d, step), e) ==> HeldAt(s, e)
    requires step.eff.Settle? && step.eff.key !in s.marks.early ==> Holds(s.owner, step.eff.key, step.eff.author)
    ensures var t := Turn(s, d, step); SettledByOwner(e, t.submits[e], HeldAt(t, e), t.trace.inserters, t.marks)
  {
    assert RecordTold(s.submits[e].key, s.journal, s.owner, s.marks);
    OwnedKept(e, s.submits[e], HeldAt(s, e), HeldAt(Turn(s, d, step), e), s.trace.inserters, s.marks, step.eff,
              s.journal);
  }

  lemma TurnOwned(s: State, d: string, a: QueueAction)
    requires Owned(s) && AllTold(s) && Grounded(s) && Once(s) && d in s.queues && MayTurn(s, s.queues[d], a)
    ensures Owned(Turn(s, d, QueueStep(s, d, a)))
  {
    var t := Turn(s, d, QueueStep(s, d, a));
    if Settling(a) {
      WorkerOwns(s, d, a.who);
      SettlingEffect(s, d, a);
    } else {
      QuietTurn(s, d, a);
    }
    forall e | 0 <= e < |t.submits| ensures SettledByOwner(e, t.submits[e], HeldAt(t, e), t.trace.inserters, t.marks) {
      if HeldAt(t, e) {
        TurnHeld(s, d, a, e);
      }
      QueueOwned(s, d, QueueStep(s, d, a), e);
    }
  }

  lemma PanicOwned(s: State, d: string)
    requires Owned(s) && AllTold(s) && d in s.queues
    ensures Owned(Turn(s, d, DeathStep(s.queues[d], d, s.cells)))
  {
    var t := Turn(s, d, DeathStep(s.queues[d], d, s.cells));
    forall e | 0 <= e < |t.submits| ensures SettledByOwner(e, t.submits[e], HeldAt(t, e), t.trace.inserters, t.marks) {
      QueueOwned(s, d, DeathStep(s.queues[d], d, s.cells), e);
    }
  }

  lemma EnqueueOwned(s: State, i: Sid)
    requires Owned(s) && i < |s.submits| && s.submits[i].pc.Enqueue?
    ensures Owned(Enqueueing(s, i))
  {
    var t := Enqueueing(s, i);
    forall e | 0 <= e < |t.submits| ensures SettledByOwner(e, t.submits[e], HeldAt(t, e), t.trace.inserters, t.marks) {
      assert SettledByOwner(e, s.submits[e], HeldAt(s, e), s.trace.inserters, s.marks);
      assert e != i && HeldAt(t, e) ==> HeldAt(s, e);
    }
  }

  /** Whatever else happens adds no settlement and revives nobody. */
  lemma ShrinkOwned(s: State, t: State)
    requires Owned(s) && t.trace == s.trace && t.queues == s.queues && |s.submits| <= |t.submits|
    requires t.submits[..|s.submits|] == s.submits
    requires forall e :: |s.submits| <= e < |t.submits| ==> e !in s.trace.inserters
    requires s.marks.early <= t.marks.early
    requires forall k :: k in t.marks.last ==> k in s.marks.last && t.marks.last[k] == s.marks.last[k]
    requires forall k :: k in t.marks.latest ==> k in s.marks.latest && t.marks.latest[k] == s.marks.latest[k]
    ensures Owned(t)
  {
    forall e | 0 <= e < |t.submits| ensures SettledByOwner(e, t.submits[e], HeldAt(t, e), t.trace.inserters, t.marks) {
      if e < |s.submits| {
        assert t.submits[e] == t.submits[..|s.submits|][e] == s.submits[e] && HeldAt(t, e) == HeldAt(s, e);
        assert SettledByOwner(e, s.submits[e], HeldAt(s, e), s.trace.inserters, s.marks);
      }
    }
  }

  lemma StepOwned(s: State, a: Action)
    requires Owned(s) && AllTold(s) && Grounded(s) && Once(s) && Enabled(s, a)
    ensures Owned(Apply(s, a))
  {
    match a
    case BySubmit(i, move) => MoveOwned(s, i, move);
    case Enqueues(i) => EnqueueOwned(s, i);
    case ByQueue(d, turn) => TurnOwned(s, d, turn);
    case Panics(d) => PanicOwned(s, d);
    case Crashes =>
    case Arrives(_, _, _) => ShrinkOwned(s, Apply(s, a));
    case Purges(_) => ShrinkOwned(s, Apply(s, a));
    case Tick(_) => ShrinkOwned(s, Apply(s, a));
    case Cancels(_, _) => ShrinkOwned(s, Apply(s, a));
    case Stops => ShrinkOwned(s, Apply(s, a));
  }

  lemma {:induction false} ExecOwned(s0: State, actions: seq<Action>)
    requires Init(s0) && Exec(s0, actions).Some?
    ensures Owned(Exec(s0, actions).value)
  {
    if actions != [] {
      ExecOwned(s0, actions[..|actions| - 1]);
      ExecTold(s0, actions[..|actions| - 1]);
      ExecGrounded(s0, actions[..|actions| - 1]);
      ExecOnce(s0, actions[..|actions| - 1]);
      StepOwned(Exec(s0, actions[..|actions| - 1]).value, actions[|actions| - 1]);
    }
  }

  lemma PosterLives(s: State, a: Action)
    requires Grounded(s) && Once(s) && Shaped(s) && Enabled(s, a)
    requires Posted(s, a).Some? && Posted(s, a).value.0 in s.trace.inserters
    ensures var e := Posted(s, a).value.0;
            e < |s.submits| && s.submits[e].cell == e && Live(s.submits[e], HeldAt(s, e))
  {
    match a
    case BySubmit(i, move) => assert CellShape(i, s.submits[i], s.cells);
    case ByQueue(d, turn) =>
      QueuePosts(s, d, turn);
      WorkerOwns(s, d, turn.who);
  }
}
