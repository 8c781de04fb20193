/** Every result stays with its request: a receipt and a stored result carry the key of the request
    they belong to, in every run. */
module EngineKeys {
  import opened ControlTypes
  import opened Engine
  import opened EngineOnce
  import opened EngineCells
  import opened EngineReplies
  import J = Journal

  predicate WorkKeyed(submits: seq<Submit>, work: Work) {
    work.result.key == Sub(submits, work.entry).key
  }

  predicate QueueKeyed(submits: seq<Submit>, q: Queue) {
    && (Works(q, TheWorker) ==> WorkKeyed(submits, WorkOf(q, TheWorker)))
    && (Works(q, TheJoin) ==> WorkKeyed(submits, WorkOf(q, TheJoin)))
  }

  ghost predicate ResultsKeyed(journal: map<Key, J.Entry>) {
    forall k :: k in journal && journal[k].result.Some? ==> journal[k].result.value.key == k
  }

  ghost predicate AllKeyed(s: State) {
    && ResultsKeyed(s.journal)
    && (forall i :: i in s.cells ==> s.cells[i].key == Sub(s.submits, i).key)
    && (forall d :: d in s.queues ==> QueueKeyed(s.submits, s.queues[d]))
  }

  /** An effect that settles or posts does so under the right key. */
  predicate EffectKeyed(submits: seq<Submit>, eff: Effect) {
    && (eff.Settle? ==> eff.result.key == eff.key)
    && (eff.Post? ==> eff.result.key == Sub(submits, eff.cell).key)
  }

  lemma EffectKeepsKeys(s: State, eff: Effect)
    requires ResultsKeyed(s.journal) && EffectKeyed(s.submits, eff)
    requires forall i :: i in s.cells ==> s.cells[i].key == Sub(s.submits, i).key
    ensures ResultsKeyed(Effected(s, eff).journal)
    ensures forall i :: i in Effected(s, eff).cells ==> Effected(s, eff).cells[i].key == Sub(s.submits, i).key
  {
  }

  // ---------- steps of a queue ----------

  lemma SettlingKeyed(s: State, d: string, a: QueueAction)
    requires QueuesOk(s) && d in s.queues && MayTurn(s, s.queues[d], a) && Settling(a)
    requires QueueKeyed(s.submits, s.queues[d])
    ensures QueueKeyed(s.submits, QueueStep(s, d, a).next) && EffectKeyed(s.submits, QueueStep(s, d, a).eff)
  {
    QueuePosts(s, d, a);
  }

  lemma TurnKeyed(s: State, d: string, a: QueueAction)
    requires d in s.queues && MayTurn(s, s.queues[d], a) && !Settling(a) && QueueKeyed(s.submits, s.queues[d])
    ensures QueueKeyed(s.submits, QueueStep(s, d, a).next) && EffectKeyed(s.submits, QueueStep(s, d, a).eff)
  {
    QuietTurn(s, d, a);
  }

  lemma TurnKeepsKeys(s: State, d: string, step: Step<Queue>)
    requires AllKeyed(s) && QueueKeyed(s.submits, step.next) && EffectKeyed(s.submits, step.eff)
    ensures AllKeyed(Turn(s, d, step))
  {
    EffectKeepsKeys(s, step.eff);
  }

  // ---------- steps of a submit ----------

  lemma SubmitKeyed(s: State, i: Sid, a: SubmitAction)
    requires i < |s.submits| && MayMove(s, s.submits[i], a) && Informed(i, s.submits[i], s.hist.met)
    requires CellShape(i, s.submits[i], s.cells)
    ensures SubmitStep(s, i, a).next.key == s.submits[i].key && EffectKeyed(s.submits, SubmitStep(s, i, a).eff)
  {
  }

  ghost predicate SameKeys(submits: seq<Submit>, submits': seq<Submit>) {
    |submits| <= |submits'| && forall i :: 0 <= i < |submits| ==> submits'[i].key == submits[i].key
  }

  /** A queue works on entries that exist. */
  lemma KeysStay(s: State, submits: seq<Submit>, d: string)
    requires QueuesOk(s) && d in s.queues && QueueKeyed(s.submits, s.queues[d]) && SameKeys(s.submits, submits)
    ensures QueueKeyed(submits, s.queues[d])
  {
    if Works(s.queues[d], TheWorker) {
      WorksOnAccepted(s, d, TheWorker);
    }
    if Works(s.queues[d], TheJoin) {
      WorksOnAccepted(s, d, TheJoin);
    }
  }

  lemma KeepKeys(s: State, t: State)
    requires AllKeyed(s) && QueuesOk(s) && CellsShaped(s) && SameKeys(s.submits, t.submits)
    requires t.queues == s.queues && t.cells == s.cells && ResultsKeyed(t.journal)
    ensures AllKeyed(t)
  {
    forall d | d in t.queues ensures QueueKeyed(t.submits, t.queues[d]) {
      KeysStay(s, t.submits, d);
    }
  }

  lemma MoveKeepsKeys(s: State, i: Sid, step: Step<Submit>)
    requires AllKeyed(s) && QueuesOk(s) && CellsShaped(s) && i < |s.submits|
    requires step.next.key == s.submits[i].key && EffectKeyed(s.submits, step.eff)
    ensures AllKeyed(Move(s, i, step))
  {
    EffectKeepsKeys(s, step.eff);
    var submits := s.submits[i := step.next];
    forall d | d in s.queues ensures QueueKeyed(submits, s.queues[d]) {
      KeysStay(s, submits, d);
    }
    assert forall j :: Sub(submits, j).key == Sub(s.submits, j).key;
  }

  lemma EnqueueKeepsKeys(s: State, i: Sid)
    requires AllKeyed(s) && QueuesOk(s) && CellsShaped(s) && i < |s.submits|
    ensures AllKeyed(Enqueueing(s, i))
  {
    var t := s.(submits := s.submits[i := s.submits[i].(pc := Enqueued)]);
    KeepKeys(s, t);
  }

  lemma StepKeysKept(s: State, a: Action)
    requires AllKeyed(s) && Once(s) && CellsShaped(s) && Replies(s) && Enabled(s, a)
    ensures AllKeyed(Apply(s, a))
  {
    if a.BySubmit? {
      SubmitKeyed(s, a.i, a.move);
      MoveKeepsKeys(s, a.i, SubmitStep(s, a.i, a.move));
    } else if a.ByQueue? {
      if Settling(a.turn) {
        SettlingKeyed(s, a.d, a.turn);
      } else {
        TurnKeyed(s, a.d, a.turn);
      }
      TurnKeepsKeys(s, a.d, QueueStep(s, a.d, a.turn));
    } else if a.Enqueues? {
      EnqueueKeepsKeys(s, a.i);
    } else if a.Panics? {
      TurnKeepsKeys(s, a.d, DeathStep(s.queues[a.d], a.d, s.cells));
    } else {
      GlobalKeyed(s, a);
    }
  }

  lemma GlobalKeyed(s: State, a: Action)
    requires AllKeyed(s) && QueuesOk(s) && CellsShaped(s) && Filed(s.journal) && Enabled(s, a)
    requires !a.BySubmit? && !a.ByQueue? && !a.Enqueues? && !a.Panics?
    ensures AllKeyed(Apply(s, a))
  {
    if !a.Crashes? {
      KeepKeys(s, Apply(s, a));
    }
  }

  lemma {:induction false} ExecKeysKept(s0: State, actions: seq<Action>)
    requires Init(s0) && Exec(s0, actions).Some?
    ensures AllKeyed(Exec(s0, actions).value)
  {
    if actions != [] {
      var before := actions[..|actions| - 1];
      ExecKeysKept(s0, before);
      ExecOnce(s0, before);
      ExecShaped(s0, before);
      ExecReplies(s0, before);
      StepKeysKept(Exec(s0, before).value, actions[|actions| - 1]);
    }
  }

  /** In every run, receipts and stored results carry the key of their own request. */
  lemma ResultsStayHome(s0: State, actions: seq<Action>, i: Sid, k: Key)
    requires Init(s0) && Exec(s0, actions).Some?
    ensures var s := Exec(s0, actions).value;
            && (i in s.cells ==> i < |s.submits| && s.cells[i].key == s.submits[i].key)
            && (k in s.journal && s.journal[k].result.Some? ==> s.journal[k].result.value.key == k)
  {
    ExecKeysKept(s0, actions);
    ExecShaped(s0, actions);
  }
}
