/** A request that had been cancelled, or whose deadline had passed, when its worker took it off the queue is
    never executed, whatever happens afterwards. */
module EngineBarred {
  import opened ControlTypes
  import opened Engine
  import opened EngineOnce
  import opened EngineCells

  /** Nothing in this queue leads to a run of `e`. */
  predicate BarredIn(q: Queue, e: Sid) {
    && e !in q.waiting
    && (q.worker.Picked? && q.worker.entry == e ==> !q.worker.kind.IsReady?)
    && !(q.worker.Executing? && q.worker.entry == e)
  }

  /** The submit is past the point where it hands its request to a queue. */
  predicate HandedOn(sub: Submit) {
    sub.pc.Enqueued? || sub.pc.Returned? || sub.pc.Gone?
  }

  ghost predicate Barred(s: State, e: Sid) {
    && e < |s.submits| && HandedOn(s.submits[e]) && e !in s.trace.started
    && forall d :: d in s.queues ==> BarredIn(s.queues[d], e)
  }

  /** A queue looks after its own device's requests only. */
  lemma Elsewhere(s: State, d: string, e: Sid)
    requires QueuesOk(s) && d in s.queues && e < |s.submits| && s.submits[e].key.device != d
    ensures BarredIn(s.queues[d], e)
  {
    assert QueueOk(AcceptedBy(s.submits, d), s.trace.started, s.queues[d]);
  }

  lemma PickBars(s: State, d: string, e: Sid)
    requires Once(s) && Enabled(s, ByQueue(d, Picks(e)))
    requires e in s.cancelled || Expired(s, e)
    ensures Barred(Apply(s, ByQueue(d, Picks(e))), e)
  {
    assert QueueOk(AcceptedBy(s.submits, d), s.trace.started, s.queues[d]);
    forall d' | d' in s.queues && d' != d ensures BarredIn(s.queues[d'], e) {
      Elsewhere(s, d', e);
    }
  }

  lemma TurnBarred(s: State, d: string, a: QueueAction, e: Sid)
    requires d in s.queues && MayTurn(s, s.queues[d], a) && BarredIn(s.queues[d], e)
    ensures BarredIn(QueueStep(s, d, a).next, e)
    ensures QueueStep(s, d, a).eff.Begin? ==> QueueStep(s, d, a).eff.e != e
  {
    TurnEffects(s, d, a);
  }

  lemma MoveBarred(s: State, i: Sid, a: SubmitAction)
    requires i < |s.submits| && MayMove(s, s.submits[i], a)
    ensures HandedOn(s.submits[i]) ==> HandedOn(SubmitStep(s, i, a).next)
    ensures !SubmitStep(s, i, a).eff.Begin?
  {
  }

  lemma StepBarred(s: State, a: Action, e: Sid)
    requires Barred(s, e) && Enabled(s, a)
    ensures Barred(Apply(s, a), e)
  {
    if a.BySubmit? {
      MoveBarred(s, a.i, a.move);
    } else if a.ByQueue? {
      TurnBarred(s, a.d, a.turn, e);
    }
  }

  lemma {:induction false} ExecBarred(s0: State, actions: seq<Action>, n: nat, e: Sid)
    requires n <= |actions| && Exec(s0, actions).Some? && Exec(s0, actions[..n]).Some?
    requires Barred(Exec(s0, actions[..n]).value, e)
    ensures Barred(Exec(s0, actions).value, e)
    decreases |actions|
  {
    if n == |actions| {
      assert actions[..n] == actions;
    } else {
      var before := actions[..|actions| - 1];
      assert before[..n] == actions[..n];
      ExecBarred(s0, before, n, e);
      StepBarred(Exec(s0, before).value, actions[|actions| - 1], e);
    }
  }

  lemma {:induction false} ExecPrefix(s0: State, actions: seq<Action>, n: nat)
    requires n <= |actions| && Exec(s0, actions).Some?
    ensures Exec(s0, actions[..n]).Some?
    decreases |actions|
  {
    if n < |actions| {
      assert actions[..|actions| - 1][..n] == actions[..n];
      ExecPrefix(s0, actions[..|actions| - 1], n);
    } else {
      assert actions[..n] == actions;
    }
  }

  /** In every run: a request that a worker picks after it was cancelled, or at or after its deadline, is
      never executed. */
  lemma PickedTooLateNeverRuns(s0: State, actions: seq<Action>, n: nat, d: string, e: Sid)
    requires Init(s0) && Exec(s0, actions).Some? && n < |actions| && actions[n] == ByQueue(d, Picks(e))
    requires Exec(s0, actions[..n]).Some? ==>
               var s := Exec(s0, actions[..n]).value;
               e in s.cancelled || (e < |s.submits| && s.clock >= s.submits[e].deadline)
    ensures e !in Exec(s0, actions).value.trace.started
  {
    ExecPrefix(s0, actions, n);
    ExecPrefix(s0, actions, n + 1);
    var s := Exec(s0, actions[..n]).value;
    ExecOnce(s0, actions[..n]);
    assert actions[..n + 1][..n] == actions[..n];
    PickBars(s, d, e);
    ExecBarred(s0, actions, n + 1, e);
  }
}
