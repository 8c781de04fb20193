/** At most one execution per insertion, and insertions of a key spaced by its expiry. */
module EngineOnce {
  import opened ControlTypes
  import opened Engine
  import J = Journal

  // ---------- what every reachable state keeps ----------

  /** Submit `i` built an entry that its device's queue accepted. */
  predicate IsAccepted(i: Sid, sub: Submit) {
    sub.cell == i && (sub.pc.Enqueued? || sub.pc == Returned(Waits(i)))
  }

  function AcceptedBy(submits: seq<Submit>, d: string): set<Sid> {
    set i | 0 <= i < |submits| && submits[i].key.device == d && IsAccepted(i, submits[i])
  }

  ghost predicate ListOk(acc: set<Sid>, list: seq<(Sid, Run)>) {
    forall n :: 0 <= n < |list| ==> list[n].0 in acc
  }

  ghost predicate WorkerOk(acc: set<Sid>, started: set<Sid>, waiting: set<Sid>, w: Worker) {
    match w
    case Adopt(orphans) => ListOk(acc, orphans)
    case Adopting(work, rest) => work.entry in acc && ListOk(acc, rest)
    case Picked(e, _) => e in acc && e !in started && e !in waiting
    case Executing(e, begun) => e in acc && e !in waiting && (!begun ==> e !in started)
    case Ran(e, _) => e in acc
    case SettlesRun(work) => work.entry in acc
    case SettlesTracked(work) => work.entry in acc
    case _ => true
  }

  ghost predicate JoinOk(acc: set<Sid>, j: Join) {
    match j
    case NotYet => true
    case Abandoned(todo) => ListOk(acc, todo)
    case Abandoning(work, todo) => work.entry in acc && ListOk(acc, todo)
  }

  /** Only accepted entries are in the queue, and what waits has not been started. */
  ghost predicate QueueOk(acc: set<Sid>, started: set<Sid>, q: Queue) {
    && q.waiting <= acc && q.waiting !! started
    && (q.running.Some? ==> q.running.value in acc)
    && (forall i :: i in q.draining ==> i in acc)
    && WorkerOk(acc, started, q.waiting, q.worker)
    && JoinOk(acc, q.join)
  }

  /** How far a submit got, against what it inserted and started. */
  ghost predicate SubmitOk(i: Sid, sub: Submit, h: Trace) {
    && (sub.pc.Register? || sub.pc.Insert? ==> i !in h.inserters)
    && (sub.pc.Decided? ==> (i in h.inserters <==> sub.pc.verdict == Answered(J.Inserted)))
    && (sub.pc.Check? || sub.pc.Enqueue? || sub.pc.Enqueued? ==> sub.cell == i && i in h.inserters)
    && (sub.pc.Returned? && sub.pc.reply.Waits? ==>
          sub.pc.reply.cell == sub.cell && (sub.cell == i ==> i in h.inserters))
    && (i in h.started ==>
          && sub.cell == i && i in h.inserters
          && (sub.pc.Enqueued? || sub.pc == Returned(Waits(i)) || sub.pc.Gone?))
  }

  ghost predicate TraceOk(h: Trace, submits: nat) {
    && (forall i :: i in h.inserters ==> i < submits)
    && (forall i :: i in h.started ==> i < submits)
    && (forall m, n :: 0 <= m < n < |h.starts| ==> h.starts[m] != h.starts[n])
    && (forall n :: 0 <= n < |h.starts| ==> h.starts[n] in h.started)
    && (forall n :: 0 <= n < |h.inserted| ==> h.inserted[n].sid in h.inserters)
    && (forall i :: i in h.inserters ==> exists n :: 0 <= n < |h.inserted| && h.inserted[n].sid == i)
    && (forall m, n :: 0 <= m < n < |h.inserted| ==> h.inserted[m].sid != h.inserted[n].sid)
  }

  ghost predicate SubmitsOk(s: State) {
    forall i :: 0 <= i < |s.submits| ==> SubmitOk(i, s.submits[i], s.trace)
  }

  ghost predicate QueuesOk(s: State) {
    forall d :: d in s.queues ==> QueueOk(AcceptedBy(s.submits, d), s.trace.started, s.queues[d])
  }

  ghost predicate Once(s: State) {
    TraceOk(s.trace, |s.submits|) && SubmitsOk(s) && QueuesOk(s)
  }

  // ---------- steps of a submit ----------

  /** A submit's step keeps its key and, once its entry is accepted, leaves it so. */
  ghost predicate Onward(i: Sid, sub: Submit, next: Submit) {
    next.key == sub.key && (IsAccepted(i, sub) ==> IsAccepted(i, next))
  }

  ghost predicate StepOk(i: Sid, sub: Submit, step: Step<Submit>, h: Trace) {
    && Onward(i, sub, step.next)
    && !step.eff.Begin?
    && (step.eff.Put? ==> step.eff.i == i && i !in h.inserters)
    && SubmitOk(i, step.next, TraceAfter(h, step.eff, 0))
  }

  lemma VerdictOk(i: Sid, sub: Submit, h: Trace, now: int)
    requires sub.pc.Decided? && SubmitOk(i, sub, h)
    ensures StepOk(i, sub, DecideStep(sub, i, now), h)
  {
  }

  lemma SubmitStepOk(s: State, i: Sid, a: SubmitAction)
    requires i < |s.submits| && MayMove(s, s.submits[i], a)
    requires SubmitOk(i, s.submits[i], s.trace)
    ensures StepOk(i, s.submits[i], SubmitStep(s, i, a), s.trace)
  {
    if a.Decides? {
      VerdictOk(i, s.submits[i], s.trace, s.clock);
    }
  }

  lemma PutTraced(h: Trace, eff: Effect, n: nat, now: int)
    requires TraceOk(h, n) && !eff.Begin? && (eff.Put? ==> eff.i < n && eff.i !in h.inserters)
    ensures TraceOk(TraceAfter(h, eff, now), n)
  {
    var h' := TraceAfter(h, eff, now);
    forall i | i in h'.inserters ensures exists m :: 0 <= m < |h'.inserted| && h'.inserted[m].sid == i {
      if i in h.inserters {
        var m :| 0 <= m < |h.inserted| && h.inserted[m].sid == i;
        assert h'.inserted[m].sid == i;
      } else {
        assert h'.inserted[|h.inserted|].sid == i;
      }
    }
  }

  lemma MoreAccepted(acc: set<Sid>, acc': set<Sid>, started: set<Sid>, q: Queue)
    requires QueueOk(acc, started, q) && acc <= acc'
    ensures QueueOk(acc', started, q)
  {
  }

  lemma MoveOnce(s: State, i: Sid, step: Step<Submit>)
    requires Once(s) && i < |s.submits| && StepOk(i, s.submits[i], step, s.trace)
    ensures Once(Move(s, i, step))
  {
    var t := Move(s, i, step);
    PutTraced(s.trace, step.eff, |s.submits|, s.clock);
    forall j | 0 <= j < |t.submits| ensures SubmitOk(j, t.submits[j], t.trace) {
      assert SubmitOk(j, s.submits[j], s.trace);
    }
    forall d | d in t.queues ensures QueueOk(AcceptedBy(t.submits, d), t.trace.started, t.queues[d]) {
      assert AcceptedBy(s.submits, d) <= AcceptedBy(t.submits, d);
      MoreAccepted(AcceptedBy(s.submits, d), AcceptedBy(t.submits, d), s.trace.started, s.queues[d]);
    }
  }

  lemma EnqueueOnce(s: State, i: Sid)
    requires Once(s) && i < |s.submits| && s.submits[i].pc.Enqueue?
    ensures Once(Enqueueing(s, i))
  {
    var t := Enqueueing(s, i);
    assert SubmitOk(i, s.submits[i], s.trace);
    forall d | d in t.queues ensures QueueOk(AcceptedBy(t.submits, d), t.trace.started, t.queues[d]) {
      assert AcceptedBy(s.submits, d) <= AcceptedBy(t.submits, d);
      if d in s.queues {
        MoreAccepted(AcceptedBy(s.submits, d), AcceptedBy(t.submits, d), s.trace.started, s.queues[d]);
      }
      if d == s.submits[i].key.device {
        var q := QueueOf(s.queues, d);
        assert i in AcceptedBy(t.submits, d) && i !in AcceptedBy(s.submits, d);
        assert QueueOk(AcceptedBy(t.submits, d), t.trace.started, q);
      }
    }
  }

  // ---------- steps of a queue ----------

  ghost predicate TurnOk(acc: set<Sid>, started: set<Sid>, step: Step<Queue>) {
    && QueueOk(acc, started + (if step.eff.Begin? then {step.eff.e} else {}), step.next)
    && (step.eff.Begin? ==> step.eff.e in acc && step.eff.e !in started)
    && !step.eff.Put?
  }

  lemma {:induction false} SweptWithin(draining: seq<Sid>, cells: map<Sid, ControlResult>)
    ensures forall i :: i in Swept(draining, cells) ==> i in draining
  {
    if draining != [] && draining[0] in cells {
      SweptWithin(draining[1..], cells);
    }
  }

  lemma LeftoversOk(acc: set<Sid>, running: Option<Sid>, queued: seq<Sid>)
    requires running.Some? ==> running.value in acc
    requires forall i :: i in queued ==> i in acc
    ensures ListOk(acc, Leftovers(running, queued))
  {
  }

  lemma CleanOk(q: Queue, who: Who, cells: map<Sid, ControlResult>, acc: set<Sid>, started: set<Sid>)
    requires Works(q, who) && QueueOk(acc, started, q)
    ensures TurnOk(acc, started, CleanStep(q, who, cells))
  {
    SweptWithin(q.draining, cells);
  }

  lemma WorkOk(q: Queue, who: Who, work: Work, acc: set<Sid>, started: set<Sid>)
    requires Works(q, who) && QueueOk(acc, started, q) && work.entry == WorkOf(q, who).entry
    ensures QueueOk(acc, started, WithWork(q, who, work))
  {
  }

  lemma SettlingOk(s: State, d: string, a: QueueAction, acc: set<Sid>, started: set<Sid>)
    requires d in s.queues && MayTurn(s, s.queues[d], a) && Settling(a)
    requires QueueOk(acc, started, s.queues[d])
    ensures TurnOk(acc, started, QueueStep(s, d, a))
  {
    var q, step := s.queues[d], QueueStep(s, d, a);
    assert started + {} == started;
    if a.Cleans? {
      CleanOk(q, a.who, s.cells, acc, started);
    } else {
      WorkOk(q, a.who, WorkOf(step.next, a.who), acc, started);
    }
  }

  lemma RegroupingOk(s: State, d: string, a: QueueAction, acc: set<Sid>, started: set<Sid>)
    requires d in s.queues && MayTurn(s, s.queues[d], a) && Regrouping(a)
    requires QueueOk(acc, started, s.queues[d])
    ensures TurnOk(acc, started, QueueStep(s, d, a))
  {
    var q := s.queues[d];
    match a
    case Boots => LeftoversOk(acc, q.running, q.draining);
    case Takes(order) => LeftoversOk(acc, q.running, order + q.draining);
    case Adopts => AdoptOk(q, s.submits, s.cells, s.clock, acc, started);
    case Tops(order) => TopOk(q, s.closed, order, s.submits, s.clock, acc, started);
    case Abandons =>
  }

  lemma AdoptOk(
    q: Queue, submits: seq<Submit>, cells: map<Sid, ControlResult>, now: int, acc: set<Sid>, started: set<Sid>)
    requires q.worker.Adopt? && QueueOk(acc, started, q)
    ensures TurnOk(acc, started, AdoptStep(q, submits, cells, now))
  {
    assert started + {} == started;
  }

  lemma TopOk(
    q: Queue, stop: bool, order: seq<Sid>, submits: seq<Submit>, now: int, acc: set<Sid>, started: set<Sid>)
    requires q.worker.Top? && Orders(order, q.waiting) && QueueOk(acc, started, q)
    ensures TurnOk(acc, started, TopStep(q, stop, order, submits, now))
  {
    assert started + {} == started;
  }

  lemma RunningOk(s: State, d: string, a: QueueAction, acc: set<Sid>, started: set<Sid>)
    requires d in s.queues && MayTurn(s, s.queues[d], a) && !Settling(a) && !Regrouping(a)
    requires QueueOk(acc, started, s.queues[d])
    ensures TurnOk(acc, started, QueueStep(s, d, a))
  {
  }

  lemma BeginTraced(h: Trace, eff: Effect, n: nat, now: int)
    requires TraceOk(h, n) && !eff.Put? && (eff.Begin? ==> eff.e < n && eff.e !in h.started)
    ensures TraceOk(TraceAfter(h, eff, now), n)
  {
  }

  /** The entry a device starts is not held by another device's queue. */
  lemma OtherQueues(s: State, d: string, e: Sid, d': string)
    requires QueuesOk(s) && e in AcceptedBy(s.submits, d) && d' in s.queues && d' != d
    ensures QueueOk(AcceptedBy(s.submits, d'), s.trace.started + {e}, s.queues[d'])
  {
  }

  lemma TurnOnce(s: State, d: string, step: Step<Queue>)
    requires Once(s) && d in s.queues && TurnOk(AcceptedBy(s.submits, d), s.trace.started, step)
    ensures Once(Turn(s, d, step))
  {
    var t := Turn(s, d, step);
    BeginTraced(s.trace, step.eff, |s.submits|, s.clock);
    forall i | 0 <= i < |t.submits| ensures SubmitOk(i, t.submits[i], t.trace) {
      assert SubmitOk(i, s.submits[i], s.trace);
    }
    forall d' | d' in t.queues ensures QueueOk(AcceptedBy(t.submits, d'), t.trace.started, t.queues[d']) {
      if d' != d && step.eff.Begin? {
        OtherQueues(s, d, step.eff.e, d');
      }
    }
  }

  lemma ByQueueOnce(s: State, d: string, a: QueueAction)
    requires Once(s) && d in s.queues && MayTurn(s, s.queues[d], a)
    ensures Once(Turn(s, d, QueueStep(s, d, a)))
  {
    var acc := AcceptedBy(s.submits, d);
    if Settling(a) {
      SettlingOk(s, d, a, acc, s.trace.started);
    } else if Regrouping(a) {
      RegroupingOk(s, d, a, acc, s.trace.started);
    } else {
      RunningOk(s, d, a, acc, s.trace.started);
    }
    TurnOnce(s, d, QueueStep(s, d, a));
  }

  // ---------- the rest ----------

  lemma PanicOnce(s: State, d: string)
    requires Once(s) && d in s.queues
    ensures Once(Turn(s, d, DeathStep(s.queues[d], d, s.cells)))
  {
  }

  lemma ArriveOnce(s: State, sub: Submit)
    requires Once(s) && sub.pc.Register?
    ensures Once(s.(submits := s.submits + [sub]))
  {
    var t := s.(submits := s.submits + [sub]);
    forall d | d in t.queues ensures QueueOk(AcceptedBy(t.submits, d), t.trace.started, t.queues[d]) {
      assert AcceptedBy(s.submits, d) <= AcceptedBy(t.submits, d);
      MoreAccepted(AcceptedBy(s.submits, d), AcceptedBy(t.submits, d), s.trace.started, s.queues[d]);
    }
  }

  lemma CrashOnce(s: State)
    requires Once(s)
    ensures Once(Crashed(s))
  {
  }

  lemma StepOnce(s: State, a: Action)
    requires Once(s) && Enabled(s, a)
    ensures Once(Apply(s, a))
  {
    match a
    case Tick(until) =>
    case Arrives(key, hash, retention) => ArriveOnce(s, NewSubmit(key, hash, s.clock, retention, |s.submits|));
    case BySubmit(i, move) =>
      SubmitStepOk(s, i, move);
      MoveOnce(s, i, SubmitStep(s, i, move));
    case Enqueues(i) => EnqueueOnce(s, i);
    case ByQueue(d, turn) => ByQueueOnce(s, d, turn);
    case Cancels(_, _) =>
    case Panics(d) => PanicOnce(s, d);
    case Stops =>
    case Purges(_) =>
    case Crashes => CrashOnce(s);
  }

  lemma {:induction false} ExecOnce(s0: State, actions: seq<Action>)
    requires Init(s0) && Exec(s0, actions).Some?
    ensures Once(Exec(s0, actions).value)
  {
    if actions != [] {
      ExecOnce(s0, actions[..|actions| - 1]);
      StepOnce(Exec(s0, actions[..|actions| - 1]).value, actions[|actions| - 1]);
    }
  }

  /** In every interleaving, with failing writes, cancellations, aborts, worker deaths and crashes:
      no insertion of a key starts the executor twice, and whoever starts it both inserted the
      record and registered the active entry. */
  lemma AtMostOneExecution(s0: State, actions: seq<Action>)
    requires Init(s0) && Exec(s0, actions).Some?
    ensures var s := Exec(s0, actions).value;
            && (forall m, n :: 0 <= m < n < |s.trace.starts| ==> s.trace.starts[m] != s.trace.starts[n])
            && (forall m, n :: 0 <= m < n < |s.trace.inserted| ==>
                  s.trace.inserted[m].sid != s.trace.inserted[n].sid)
            && (forall n :: 0 <= n < |s.trace.starts| ==>
                  var i := s.trace.starts[n];
                  i < |s.submits| && s.submits[i].cell == i && i in s.trace.inserters)
  {
    ExecOnce(s0, actions);
    var s := Exec(s0, actions).value;
    forall n | 0 <= n < |s.trace.starts|
      ensures s.trace.starts[n] < |s.submits|
      ensures s.submits[s.trace.starts[n]].cell == s.trace.starts[n] && s.trace.starts[n] in s.trace.inserters
    {
      assert SubmitOk(s.trace.starts[n], s.submits[s.trace.starts[n]], s.trace);
    }
  }

  // ---------- insertions of one key are spaced by its expiry ----------

  /** An insertion that has not expired yet is the live record of its key. */
  ghost predicate Remembers(journal: map<Key, J.Entry>, inserted: seq<Insertion>, now: int) {
    forall n :: 0 <= n < |inserted| && inserted[n].expiresAt >= now ==>
      inserted[n].key in journal && journal[inserted[n].key].expiresAt == inserted[n].expiresAt
  }

  ghost predicate Apart(inserted: seq<Insertion>) {
    forall m, n :: 0 <= m < n < |inserted| && inserted[m].key == inserted[n].key ==>
      inserted[m].expiresAt < inserted[n].at
  }

  /** Clock readings a submit carries lie in the past. */
  ghost predicate Timely(submits: seq<Submit>, now: int) {
    forall i :: 0 <= i < |submits| ==> submits[i].created <= now
  }

  ghost predicate Spaced(s: State) {
    && Remembers(s.journal, s.trace.inserted, s.clock)
    && Apart(s.trace.inserted)
    && Timely(s.submits, s.clock)
  }

  lemma SubmitTimely(s: State, i: Sid, a: SubmitAction)
    requires i < |s.submits| && MayMove(s, s.submits[i], a)
    ensures SubmitStep(s, i, a).next.created == s.submits[i].created
    ensures var eff := SubmitStep(s, i, a).eff;
            eff.Put? ==> eff.sub == s.submits[i]
                         && J.Decide(s.journal, eff.sub.key, eff.sub.hash, eff.sub.created).Inserted?
  {
  }

  lemma EffectSpaced(s: State, eff: Effect)
    requires Spaced(s)
    requires eff.Put? ==> eff.sub.created <= s.clock
                          && J.Decide(s.journal, eff.sub.key, eff.sub.hash, eff.sub.created).Inserted?
    ensures Spaced(Effected(s, eff))
  {
  }

  lemma QueuePutsNothing(s: State, d: string, a: QueueAction)
    requires d in s.queues && MayTurn(s, s.queues[d], a)
    ensures !QueueStep(s, d, a).eff.Put?
  {
  }

  lemma StepSpaced(s: State, a: Action)
    requires Spaced(s) && Enabled(s, a)
    ensures Spaced(Apply(s, a))
  {
    match a
    case BySubmit(i, move) =>
      SubmitTimely(s, i, move);
      EffectSpaced(s, SubmitStep(s, i, move).eff);
    case ByQueue(d, turn) =>
      QueuePutsNothing(s, d, turn);
      EffectSpaced(s, QueueStep(s, d, turn).eff);
    case Panics(d) => EffectSpaced(s, DeathStep(s.queues[d], d, s.cells).eff);
    case _ =>
  }

  lemma {:induction false} ExecSpaced(s0: State, actions: seq<Action>)
    requires Init(s0) && Exec(s0, actions).Some?
    ensures Spaced(Exec(s0, actions).value)
  {
    if actions != [] {
      ExecSpaced(s0, actions[..|actions| - 1]);
      StepSpaced(Exec(s0, actions[..|actions| - 1]).value, actions[|actions| - 1]);
    }
  }

  /** With a clock that does not go back and a crash and restart at any step, the insertion behind
      a second execution of a key took effect strictly after the first one's record expired. */
  lemma NoReexecutionBeforeExpiry(s0: State, actions: seq<Action>, i: Sid, j: Sid)
    requires Init(s0) && Exec(s0, actions).Some?
    requires var s := Exec(s0, actions).value;
             && i in s.trace.starts && j in s.trace.starts && i != j
             && i < |s.submits| && j < |s.submits| && s.submits[i].key == s.submits[j].key
    ensures var ins := Exec(s0, actions).value.trace.inserted;
            exists m, n :: 0 <= m < n < |ins| && {ins[m].sid, ins[n].sid} == {i, j}
                           && ins[m].expiresAt < ins[n].at
  {
    ExecOnce(s0, actions);
    ExecSpaced(s0, actions);
    ExecKeyed(s0, actions);
    var s := Exec(s0, actions).value;
    var ins := s.trace.inserted;
    assert SubmitOk(i, s.submits[i], s.trace) && SubmitOk(j, s.submits[j], s.trace);
    var m :| 0 <= m < |ins| && ins[m].sid == i;
    var n :| 0 <= n < |ins| && ins[n].sid == j;
    assert ins[m].key == ins[n].key;
    if m < n {
      EitherOrder(s, ins, m, n);
    } else {
      EitherOrder(s, ins, n, m);
    }
  }

  lemma EitherOrder(s: State, ins: seq<Insertion>, m: nat, n: nat)
    requires Spaced(s) && ins == s.trace.inserted && m < n < |ins| && ins[m].key == ins[n].key
    ensures ins[m].expiresAt < ins[n].at
    ensures {ins[m].sid, ins[n].sid} == {ins[n].sid, ins[m].sid}
  {
  }

  /** An insertion is recorded under its submit's key. */
  ghost predicate Keyed(s: State) {
    forall n :: 0 <= n < |s.trace.inserted| ==>
      var ins := s.trace.inserted[n];
      ins.sid < |s.submits| && s.submits[ins.sid].key == ins.key
  }

  lemma KeyedKept(s: State, t: State)
    requires Keyed(s) && t.trace.inserted == s.trace.inserted && |s.submits| <= |t.submits|
    requires forall i :: 0 <= i < |s.submits| ==> t.submits[i].key == s.submits[i].key
    ensures Keyed(t)
  {
  }

  lemma MoveKeyed(s: State, i: Sid, a: SubmitAction)
    requires SubmitsOk(s) && Keyed(s) && i < |s.submits| && MayMove(s, s.submits[i], a)
    ensures Keyed(Move(s, i, SubmitStep(s, i, a)))
  {
    SubmitStepOk(s, i, a);
    SubmitTimely(s, i, a);
  }

  lemma StepKeyed(s: State, a: Action)
    requires Once(s) && Keyed(s) && Enabled(s, a)
    ensures Keyed(Apply(s, a))
  {
    if a.BySubmit? {
      MoveKeyed(s, a.i, a.move);
    } else {
      if a.ByQueue? {
        QueuePutsNothing(s, a.d, a.turn);
      }
      KeyedKept(s, Apply(s, a));
    }
  }

  lemma {:induction false} ExecKeyed(s0: State, actions: seq<Action>)
    requires Init(s0) && Exec(s0, actions).Some?
    ensures Keyed(Exec(s0, actions).value)
  {
    if actions != [] {
      ExecKeyed(s0, actions[..|actions| - 1]);
      ExecOnce(s0, actions[..|actions| - 1]);
      StepKeyed(Exec(s0, actions[..|actions| - 1]).value, actions[|actions| - 1]);
    }
  }
}
