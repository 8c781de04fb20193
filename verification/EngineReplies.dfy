/** What a submit answers, in every run: a request that found a record of its own kind answers with that
    record's result, one that found another request under its key is refused, and no submit answers with a
    success that it did not find in the journal. */
module EngineReplies {
  import opened ControlTypes
  import opened Engine
  import opened EngineOnce
  import opened EngineCells
  import J = Journal

  /** A result that says only that an earlier run of the request was interrupted. */
  predicate SaysInterrupted(r: ControlResult, key: Key) {
    r.key == key && r.status == Indeterminate && r.payload.None? && r.error == Some("EXECUTION_INTERRUPTED")
  }

  /** A result the engine makes up for a request it did not run. */
  predicate Declines(r: ControlResult, key: Key) {
    r.key == key && (r.status == Rejected || r.status == Indeterminate) && r.payload.None?
  }

  /** The answer to a request that found record `e`. */
  ghost predicate FoundReply(i: Sid, sub: Submit, e: J.Entry, reply: Reply) {
    if e.hash != sub.hash then reply == Refused
    else if e.result.Some? then reply == Ready(e.result.value)
    else if sub.cell != i && e.status == Running then reply == Waits(sub.cell)
    else reply.Ready? && SaysInterrupted(reply.result, sub.key)
  }

  /** The answer to a request that found none. */
  ghost predicate OwnReply(i: Sid, sub: Submit, reply: Reply) {
    match reply
    case Ready(r) => Declines(r, sub.key)
    case Waits(c) => c == i && sub.cell == i
    case Refused => sub.cell == i
  }

  /** How far a submit got, against the record it found. */
  ghost predicate Informed(i: Sid, sub: Submit, met: map<Sid, J.Entry>) {
    && (i in met ==> met[i].expiresAt >= sub.created && met[i].key == sub.key)
    && match sub.pc
       case Decided(Answered(Duplicate(e))) => i in met && met[i] == e && e.hash == sub.hash
       case Decided(Answered(Conflict(e))) => i in met && met[i] == e && e.hash != sub.hash
       case Interrupt => i in met && sub.cell == i && met[i].hash == sub.hash && met[i].result.None?
       case Uninterrupt(r) =>
         i in met && sub.cell == i && met[i].hash == sub.hash && met[i].result.None? && SaysInterrupted(r, sub.key)
       case FinishSettle(r, _) => i !in met && sub.cell == i && Declines(r, sub.key)
       case FinishRemove(r, _) => i !in met && sub.cell == i && Declines(r, sub.key)
       case FinishWrite(r, _) => i !in met && sub.cell == i && Declines(r, sub.key)
       case Check => i !in met && sub.cell == i
       case Enqueue => i !in met && sub.cell == i
       case Enqueued => i !in met && sub.cell == i
       case Returned(reply) => if i in met then FoundReply(i, sub, met[i], reply) else OwnReply(i, sub, reply)
       case Gone => true
       case _ => i !in met
  }

  /** What a submit answered is what its receipt says. */
  ghost predicate Repeats(i: Sid, sub: Submit, cells: map<Sid, ControlResult>) {
    && (sub.pc.Uninterrupt? && i in cells ==> cells[i] == sub.pc.result)
    && (sub.pc.Returned? && sub.pc.reply.Ready? && sub.cell == i && i in cells ==> cells[i] == sub.pc.reply.result)
  }

  /** Every record is filed under its own key. */
  ghost predicate Filed(journal: map<Key, J.Entry>) {
    forall k :: k in journal ==> journal[k].key == k
  }

  ghost predicate Replies(s: State) {
    && Filed(s.journal)
    && (forall i :: i in s.hist.met ==> i < |s.submits|)
    && forall i :: 0 <= i < |s.submits| ==>
         Informed(i, s.submits[i], s.hist.met) && Repeats(i, s.submits[i], s.cells)
  }

  function MetAfter(met: map<Sid, J.Entry>, eff: Effect): map<Sid, J.Entry> {
    if eff.Ask? then met[eff.i := eff.met] else met
  }

  lemma MetGrows(h: History, eff: Effect, closed: bool)
    ensures HistoryAfter(h, eff, closed).met == MetAfter(h.met, eff)
  {
  }

  lemma FiledStays(journal: map<Key, J.Entry>, eff: Effect)
    requires Filed(journal)
    ensures Filed(JournalAfter(journal, eff))
  {
  }

  // ---------- steps ----------

  ghost predicate MoveInformed(i: Sid, met: map<Sid, J.Entry>, cells: map<Sid, ControlResult>, step: Step<Submit>) {
    && Informed(i, step.next, MetAfter(met, step.eff)) && Repeats(i, step.next, CellsAfter(cells, step.eff))
    && (step.eff.Ask? ==> step.eff.i == i)
  }

  lemma InsertInforms(s: State, i: Sid, writable: bool)
    requires i < |s.submits| && s.submits[i].pc.Insert? && Filed(s.journal)
    requires Informed(i, s.submits[i], s.hist.met)
    ensures MoveInformed(i, s.hist.met, s.cells, SubmitStep(s, i, Inserts(writable)))
  {
  }

  lemma DecideInforms(s: State, i: Sid)
    requires i < |s.submits| && s.submits[i].pc.Decided?
    requires SubmitOk(i, s.submits[i], s.trace) && CellShape(i, s.submits[i], s.cells)
    requires Informed(i, s.submits[i], s.hist.met)
    ensures MoveInformed(i, s.hist.met, s.cells, SubmitStep(s, i, Decides))
  {
  }

  lemma SubmitInforms(s: State, i: Sid, a: SubmitAction)
    requires i < |s.submits| && MayMove(s, s.submits[i], a) && Filed(s.journal)
    requires SubmitOk(i, s.submits[i], s.trace) && CellShape(i, s.submits[i], s.cells)
    requires Informed(i, s.submits[i], s.hist.met) && Repeats(i, s.submits[i], s.cells)
    ensures MoveInformed(i, s.hist.met, s.cells, SubmitStep(s, i, a))
  {
    if a.Inserts? {
      InsertInforms(s, i, a.writable);
    } else if a.Decides? {
      DecideInforms(s, i);
    }
  }

  lemma MoveReplies(s: State, i: Sid, a: SubmitAction)
    requires Replies(s) && Once(s) && CellsShaped(s) && i < |s.submits| && MayMove(s, s.submits[i], a)
    ensures Replies(Move(s, i, SubmitStep(s, i, a)))
  {
    var step := SubmitStep(s, i, a);
    SubmitShaped(s, i, a);
    SubmitInforms(s, i, a);
    MetGrows(s.hist, step.eff, s.closed);
    FiledStays(s.journal, step.eff);
  }

  lemma TurnReplies(s: State, d: string, a: QueueAction)
    requires Replies(s) && QueuesOk(s) && d in s.queues && MayTurn(s, s.queues[d], a)
    ensures Replies(Turn(s, d, QueueStep(s, d, a)))
  {
    var step := QueueStep(s, d, a);
    QueuePosts(s, d, a);
    if Settling(a) {
      SettlingEffect(s, d, a);
    } else {
      QuietTurn(s, d, a);
    }
    MetGrows(s.hist, step.eff, s.closed);
    FiledStays(s.journal, step.eff);
  }

  lemma PanicReplies(s: State, d: string)
    requires Replies(s) && d in s.queues
    ensures Replies(Turn(s, d, DeathStep(s.queues[d], d, s.cells)))
  {
  }

  lemma EnqueueReplies(s: State, i: Sid)
    requires Replies(s) && Enabled(s, Enqueues(i))
    ensures Replies(Enqueueing(s, i))
  {
  }

  lemma CrashReplies(s: State)
    requires Replies(s)
    ensures Replies(Crashed(s))
  {
    forall i | 0 <= i < |s.submits|
      ensures Informed(i, Crashed(s).submits[i], s.hist.met)
    {
      assert Informed(i, s.submits[i], s.hist.met);
    }
  }

  lemma StepReplies(s: State, a: Action)
    requires Replies(s) && Once(s) && CellsShaped(s) && Enabled(s, a)
    ensures Replies(Apply(s, a))
  {
    if a.BySubmit? {
      MoveReplies(s, a.i, a.move);
    } else if a.ByQueue? {
      TurnReplies(s, a.d, a.turn);
    } else if a.Enqueues? {
      EnqueueReplies(s, a.i);
    } else if a.Panics? {
      PanicReplies(s, a.d);
    } else if a.Crashes? {
      CrashReplies(s);
    }
  }

  lemma {:induction false} ExecReplies(s0: State, actions: seq<Action>)
    requires Init(s0) && Exec(s0, actions).Some?
    ensures Replies(Exec(s0, actions).value)
  {
    if actions != [] {
      var before := actions[..|actions| - 1];
      ExecReplies(s0, before);
      ExecOnce(s0, before);
      ExecShaped(s0, before);
      StepReplies(Exec(s0, before).value, actions[|actions| - 1]);
    }
  }

  // ---------- only a stop closes a queue ----------

  ghost predicate SubmitClosing(i: Sid, sub: Submit, met: map<Sid, J.Entry>, closed: bool) {
    && (sub.pc.FinishSettle? || sub.pc.FinishRemove? || sub.pc.FinishWrite? ==> (sub.pc.closing ==> closed))
    && (sub.pc == Returned(Refused) && i !in met ==> closed)
  }

  ghost predicate Closing(s: State) {
    && (forall d :: d in s.queues && s.queues[d].closed ==> s.closed)
    && forall i :: 0 <= i < |s.submits| ==> SubmitClosing(i, s.submits[i], s.hist.met, s.closed)
  }

  lemma SubmitStaysClosing(s: State, i: Sid, a: SubmitAction)
    requires i < |s.submits| && MayMove(s, s.submits[i], a) && Informed(i, s.submits[i], s.hist.met)
    requires SubmitClosing(i, s.submits[i], s.hist.met, s.closed)
    requires QueueOf(s.queues, s.submits[i].key.device).closed ==> s.closed
    ensures SubmitClosing(i, SubmitStep(s, i, a).next, MetAfter(s.hist.met, SubmitStep(s, i, a).eff), s.closed)
  {
  }

  lemma TurnStaysClosing(s: State, d: string, a: QueueAction)
    requires Closing(s) && d in s.queues && MayTurn(s, s.queues[d], a)
    ensures Closing(Turn(s, d, QueueStep(s, d, a)))
  {
    var step := QueueStep(s, d, a);
    if Settling(a) {
      SettlingEffect(s, d, a);
    } else {
      QuietTurn(s, d, a);
    }
    MetGrows(s.hist, step.eff, s.closed);
  }

  lemma MoveStaysClosing(s: State, i: Sid, a: SubmitAction)
    requires Closing(s) && Replies(s) && i < |s.submits| && MayMove(s, s.submits[i], a)
    requires MoveInformed(i, s.hist.met, s.cells, SubmitStep(s, i, a))
    ensures Closing(Move(s, i, SubmitStep(s, i, a)))
  {
    SubmitStaysClosing(s, i, a);
    MetGrows(s.hist, SubmitStep(s, i, a).eff, s.closed);
  }

  lemma PanicStaysClosing(s: State, d: string)
    requires Closing(s) && d in s.queues
    ensures Closing(Turn(s, d, DeathStep(s.queues[d], d, s.cells)))
  {
  }

  lemma GlobalClosing(s: State, a: Action)
    requires Closing(s) && Enabled(s, a) && !a.BySubmit? && !a.ByQueue? && !a.Panics?
    ensures Closing(Apply(s, a))
  {
  }

  lemma StepClosing(s: State, a: Action)
    requires Closing(s) && Replies(s) && Once(s) && CellsShaped(s) && Enabled(s, a)
    ensures Closing(Apply(s, a))
  {
    if a.BySubmit? {
      SubmitInforms(s, a.i, a.move);
      MoveStaysClosing(s, a.i, a.move);
    } else if a.ByQueue? {
      TurnStaysClosing(s, a.d, a.turn);
    } else if a.Panics? {
      PanicStaysClosing(s, a.d);
    } else {
      GlobalClosing(s, a);
    }
  }

  lemma {:induction false} ExecClosing(s0: State, actions: seq<Action>)
    requires Init(s0) && Exec(s0, actions).Some?
    ensures Closing(Exec(s0, actions).value)
  {
    if actions != [] {
      var before := actions[..|actions| - 1];
      ExecClosing(s0, before);
      ExecReplies(s0, before);
      ExecOnce(s0, before);
      ExecShaped(s0, before);
      StepClosing(Exec(s0, before).value, actions[|actions| - 1]);
    }
  }

  // ---------- which refusal it is ----------

  /** The result has this code, or that of a settlement that did not reach the disk. */
  predicate Says(r: ControlResult, code: string) {
    r.error == Some(code) || r.error == SETTLE_FAILED
  }

  predicate SaysClosed(r: ControlResult) {
    r.status == Indeterminate && r.error == Some("QUEUE_CLOSED")
  }

  ghost predicate Named(i: Sid, sub: Submit, met: map<Sid, J.Entry>, inserters: set<Sid>) {
    match sub.pc
    case Orphan => i in inserters && sub.cell != i
    case FinishSettle(r, closing) =>
      if closing then i in inserters && SaysClosed(r)
      else i !in inserters ==> r.error == Some("JOURNAL_UNAVAILABLE")
    case FinishRemove(r, closing) =>
      if closing then i in inserters && SaysClosed(r) else i !in inserters ==> Says(r, "JOURNAL_UNAVAILABLE")
    case FinishWrite(r, closing) =>
      if closing then i in inserters && SaysClosed(r) else i !in inserters ==> Says(r, "JOURNAL_UNAVAILABLE")
    case Returned(Ready(r)) =>
      i !in met ==>
        && (i !in inserters ==> Says(r, "JOURNAL_UNAVAILABLE"))
        && (i in inserters && sub.cell != i ==> Says(r, "IDEMPOTENCY_RACE"))
    case _ => true
  }

  /** The receipt of a request that was refused says that its queue had closed. */
  ghost predicate RefusalNamed(i: Sid, sub: Submit, cells: map<Sid, ControlResult>) {
    sub.pc == Returned(Refused) && i in cells ==> SaysClosed(cells[i])
  }

  ghost predicate AllNamed(s: State) {
    forall i :: 0 <= i < |s.submits| ==>
      Named(i, s.submits[i], s.hist.met, s.trace.inserters) && RefusalNamed(i, s.submits[i], s.cells)
  }

  function InsertersAfter(inserters: set<Sid>, eff: Effect): set<Sid> {
    if eff.Put? then inserters + {eff.i} else inserters
  }

  ghost predicate MoveNamed(i: Sid, s: State, step: Step<Submit>) {
    && Named(i, step.next, MetAfter(s.hist.met, step.eff), InsertersAfter(s.trace.inserters, step.eff))
    && RefusalNamed(i, step.next, CellsAfter(s.cells, step.eff))
    && (step.eff.Ask? || step.eff.Put? ==> step.eff.i == i)
    && (step.eff.Post? ==> step.eff.cell == i)
  }

  lemma SubmitNamed(s: State, i: Sid, a: SubmitAction)
    requires i < |s.submits| && MayMove(s, s.submits[i], a)
    requires SubmitOk(i, s.submits[i], s.trace) && CellShape(i, s.submits[i], s.cells)
    requires Informed(i, s.submits[i], s.hist.met)
    requires Named(i, s.submits[i], s.hist.met, s.trace.inserters)
    ensures MoveNamed(i, s, SubmitStep(s, i, a))
  {
  }

  lemma MoveKeepsNames(s: State, i: Sid, step: Step<Submit>)
    requires AllNamed(s) && i < |s.submits| && MoveNamed(i, s, step)
    ensures AllNamed(Move(s, i, step))
  {
    MetGrows(s.hist, step.eff, s.closed);
  }

  lemma TurnNamed(s: State, d: string, a: QueueAction)
    requires AllNamed(s) && QueuesOk(s) && d in s.queues && MayTurn(s, s.queues[d], a)
    ensures AllNamed(Turn(s, d, QueueStep(s, d, a)))
  {
    QueuePosts(s, d, a);
    if Settling(a) {
      SettlingEffect(s, d, a);
    } else {
      QuietTurn(s, d, a);
    }
    MetGrows(s.hist, QueueStep(s, d, a).eff, s.closed);
  }

  lemma GlobalNamed(s: State, a: Action)
    requires AllNamed(s) && Enabled(s, a) && !a.BySubmit? && !a.ByQueue?
    ensures AllNamed(Apply(s, a))
  {
  }

  lemma StepNamed(s: State, a: Action)
    requires AllNamed(s) && Replies(s) && Once(s) && CellsShaped(s) && Enabled(s, a)
    ensures AllNamed(Apply(s, a))
  {
    if a.BySubmit? {
      SubmitNamed(s, a.i, a.move);
      MoveKeepsNames(s, a.i, SubmitStep(s, a.i, a.move));
    } else if a.ByQueue? {
      TurnNamed(s, a.d, a.turn);
    } else {
      GlobalNamed(s, a);
    }
  }

  lemma {:induction false} ExecNamed(s0: State, actions: seq<Action>)
    requires Init(s0) && Exec(s0, actions).Some?
    ensures AllNamed(Exec(s0, actions).value)
  {
    if actions != [] {
      var before := actions[..|actions| - 1];
      ExecNamed(s0, before);
      ExecReplies(s0, before);
      ExecOnce(s0, before);
      ExecShaped(s0, before);
      StepNamed(Exec(s0, before).value, actions[|actions| - 1]);
    }
  }

  // ---------- what the journal answers, and what a submit answers after it ----------

  /** The insert step meets a record exactly when the journal has one under the key that has not expired
      when the request was made; it puts a new record, open and of the request's own hash, exactly when it
      met none and the file could be written. */
  lemma InsertMeets(s: State, i: Sid, writable: bool)
    requires Enabled(s, BySubmit(i, Inserts(writable))) && i !in s.hist.met
    ensures var sub, t := s.submits[i], Apply(s, BySubmit(i, Inserts(writable)));
            var known := sub.key in s.journal && s.journal[sub.key].expiresAt >= sub.created;
            && (i in t.hist.met <==> known)
            && (known ==> t.hist.met[i] == s.journal[sub.key])
            && t.journal == if known || !writable then s.journal
                            else s.journal[sub.key :=
                              J.Entry(sub.key, sub.hash, Running, sub.created, sub.expires, None)]
  {
  }

  /** In every run: a submit that found a record answers with that record's result if the record is of its
      own request and has one, is refused if the record is of another, and says that the outcome is unknown
      or waits for the receipt if the record has none yet. */
  lemma FoundIsAnswered(s0: State, actions: seq<Action>, i: Sid)
    requires Init(s0) && Exec(s0, actions).Some?
    requires i < |Exec(s0, actions).value.submits| && Exec(s0, actions).value.submits[i].pc.Returned?
    requires i in Exec(s0, actions).value.hist.met
    ensures var s := Exec(s0, actions).value;
            var sub, e := s.submits[i], s.hist.met[i];
            && e.key == sub.key && e.expiresAt >= sub.created
            && (e.hash != sub.hash <==> sub.pc.reply == Refused)
            && (e.hash == sub.hash && e.result.Some? ==> sub.pc.reply == Ready(e.result.value))
            && (e.hash == sub.hash && e.result.None? && sub.cell != i && e.status == Running ==>
                  sub.pc.reply == Waits(sub.cell))
            && (e.hash == sub.hash && e.result.None? && !(sub.cell != i && e.status == Running) ==>
                  sub.pc.reply.Ready? && SaysInterrupted(sub.pc.reply.result, sub.key))
  {
    ExecReplies(s0, actions);
  }

  lemma OwnAnswer(s: State, i: Sid)
    requires i < |s.submits| && s.submits[i].pc.Returned? && i !in s.hist.met
    requires Informed(i, s.submits[i], s.hist.met) && SubmitClosing(i, s.submits[i], s.hist.met, s.closed)
    requires SubmitOk(i, s.submits[i], s.trace) && RefusalNamed(i, s.submits[i], s.cells)
    requires Named(i, s.submits[i], s.hist.met, s.trace.inserters)
    ensures var sub, reply := s.submits[i], s.submits[i].pc.reply;
            && (reply.Ready? ==>
                  && Declines(reply.result, sub.key)
                  && (i !in s.trace.inserters ==> Says(reply.result, "JOURNAL_UNAVAILABLE"))
                  && (i in s.trace.inserters && sub.cell != i ==> Says(reply.result, "IDEMPOTENCY_RACE")))
            && (reply.Waits? ==> reply.cell == i && i in s.trace.inserters)
            && (reply.Refused? ==> s.closed && (i in s.cells ==> SaysClosed(s.cells[i])))
  {
  }

  /** In every run: a submit that found no record and did not hand its request to a queue answers with a
      rejection or an unknown outcome of its own key, never with a success. It says that the journal is
      unavailable if its record was not written, and that it lost a race if another request owned the key; it
      is refused only after a stop, and its receipt then says that the queue had closed. */
  lemma NothingMadeUp(s0: State, actions: seq<Action>, i: Sid)
    requires Init(s0) && Exec(s0, actions).Some?
    requires i < |Exec(s0, actions).value.submits| && Exec(s0, actions).value.submits[i].pc.Returned?
    requires i !in Exec(s0, actions).value.hist.met
    ensures var s := Exec(s0, actions).value;
            var sub, reply := s.submits[i], s.submits[i].pc.reply;
            && (reply.Ready? ==>
                  && reply.result.key == sub.key && reply.result.payload.None?
                  && (reply.result.status == Rejected || reply.result.status == Indeterminate)
                  && (i !in s.trace.inserters ==> Says(reply.result, "JOURNAL_UNAVAILABLE"))
                  && (i in s.trace.inserters && sub.cell != i ==> Says(reply.result, "IDEMPOTENCY_RACE")))
            && (reply.Waits? ==> reply.cell == i && i in s.trace.inserters)
            && (reply.Refused? ==> s.closed && (i in s.cells ==> SaysClosed(s.cells[i])))
  {
    ExecReplies(s0, actions);
    ExecClosing(s0, actions);
    ExecNamed(s0, actions);
    ExecOnce(s0, actions);
    OwnAnswer(Exec(s0, actions).value, i);
  }

  /** In every run: what a submit answered at once is what the receipt it wrote says. */
  lemma AnswerIsReceipt(s0: State, actions: seq<Action>, i: Sid)
    requires Init(s0) && Exec(s0, actions).Some?
    requires i < |Exec(s0, actions).value.submits| && i in Exec(s0, actions).value.cells
    ensures var s := Exec(s0, actions).value;
            s.submits[i].pc.Returned? && s.submits[i].pc.reply.Ready? ==>
              s.submits[i].pc.reply.result == s.cells[i]
  {
    ExecReplies(s0, actions);
    ExecShaped(s0, actions);
    assert CellShape(i, Exec(s0, actions).value.submits[i], Exec(s0, actions).value.cells);
  }
}
