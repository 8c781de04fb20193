/** One run at a time per device, one more at most after the stop, and none before the cooldown has
    passed since a run of unknown outcome that a living worker saw end. This holds with worker deaths
    and aborts as well. */
module EngineSerial {
  import opened ControlTypes
  import opened Engine
  import EngineOnce
  import EngineCells
  import J = Journal

  /** The started entries of device `d`. */
  function StartedBy(submits: seq<Submit>, started: set<Sid>, d: string): set<Sid> {
    set i | i in started && Sub(submits, i).key.device == d
  }

  predicate AboutToStart(w: Worker) {
    w.Pick? || w.Picked? || (w.Executing? && !w.started)
  }

  /** `late`: the device has started an entry after the stop. */
  ghost predicate SerialOk(mine: set<Sid>, over: set<Sid>, late: bool, now: int, q: Queue) {
    && (q.running.Some? ==>
          q.worker.Absent? || q.worker.Boot? || q.worker.Executing? || q.worker.Ran? || q.worker.SettlesRun?)
    && (forall i :: i in mine && i !in over ==> q.worker == Executing(i, true))
    && (q.worker.Picked? || (q.worker.Executing? && !q.worker.started) ==> !Cooling(q, now))
    && (late ==> !AboutToStart(q.worker))
  }

  ghost predicate Serial(s: State) {
    && (!s.closed ==> s.hist.late == {})
    && forall d :: DeviceSerial(s, d)
  }

  ghost predicate DeviceSerial(s: State, d: string) {
    SerialOk(StartedBy(s.submits, s.trace.started, d), s.hist.over, d in s.hist.late, s.clock, QueueOf(s.queues, d))
  }

  /** A queue's step, on the sets its effect changes. */
  ghost predicate TurnSerial(mine: set<Sid>, over: set<Sid>, late: bool, now: int, stop: bool, step: Step<Queue>) {
    var mine' := if step.eff.Begin? then mine + {step.eff.e} else mine;
    var over' := if step.eff.Over? || step.eff.Cut? then over + {step.eff.e} else over;
    SerialOk(mine', over', late || (step.eff.Begin? && stop), now, step.next)
  }

  lemma RunningSerial(s: State, d: string, a: QueueAction, mine: set<Sid>, over: set<Sid>, late: bool)
    requires d in s.queues && MayTurn(s, s.queues[d], a) && !Settling(a) && !Regrouping(a)
    requires SerialOk(mine, over, late, s.clock, s.queues[d]) && (late ==> s.closed)
    ensures TurnSerial(mine, over, late, s.clock, s.closed, QueueStep(s, d, a))
  {
  }

  lemma RegroupingSerial(s: State, d: string, a: QueueAction, mine: set<Sid>, over: set<Sid>, late: bool)
    requires d in s.queues && MayTurn(s, s.queues[d], a) && Regrouping(a)
    requires SerialOk(mine, over, late, s.clock, s.queues[d]) && (late ==> s.closed)
    ensures TurnSerial(mine, over, late, s.clock, s.closed, QueueStep(s, d, a))
  {
  }

  lemma SettlingSerial(s: State, d: string, a: QueueAction, mine: set<Sid>, over: set<Sid>, late: bool)
    requires d in s.queues && MayTurn(s, s.queues[d], a) && Settling(a)
    requires SerialOk(mine, over, late, s.clock, s.queues[d]) && (late ==> s.closed)
    ensures TurnSerial(mine, over, late, s.clock, s.closed, QueueStep(s, d, a))
  {
  }

  lemma OverAfter(h: History, eff: Effect, closed: bool)
    ensures var h' := HistoryAfter(h, eff, closed);
            && h'.over == (if eff.Over? || eff.Cut? then h.over + {eff.e} else h.over)
            && h'.late == (if eff.Begin? && closed then h.late + {eff.d} else h.late)
  {
  }

  lemma StartedAfter(submits: seq<Submit>, h: Trace, eff: Effect, now: int, d: string)
    ensures StartedBy(submits, TraceAfter(h, eff, now).started, d)
         == StartedBy(submits, h.started, d)
            + if eff.Begin? && Sub(submits, eff.e).key.device == d then {eff.e} else {}
  {
  }

  lemma MoreOver(mine: set<Sid>, over: set<Sid>, over': set<Sid>, late: bool, now: int, q: Queue)
    requires SerialOk(mine, over, late, now, q) && over <= over'
    ensures SerialOk(mine, over', late, now, q)
  {
  }

  lemma TurnKeepsSerial(s: State, d: string, step: Step<Queue>)
    requires Serial(s) && d in s.queues
    requires step.eff.Begin? ==> step.eff.d == d && Sub(s.submits, step.eff.e).key.device == d
    requires TurnSerial(StartedBy(s.submits, s.trace.started, d), s.hist.over, d in s.hist.late, s.clock, s.closed,
                        step)
    ensures Serial(Turn(s, d, step))
  {
    var t := Turn(s, d, step);
    OverAfter(s.hist, step.eff, s.closed);
    forall d' ensures DeviceSerial(t, d') {
      assert DeviceSerial(s, d');
      StartedAfter(s.submits, s.trace, step.eff, s.clock, d');
      if d' != d {
        MoreOver(StartedBy(s.submits, s.trace.started, d'), s.hist.over, t.hist.over, d' in s.hist.late, s.clock,
                 QueueOf(s.queues, d'));
      }
    }
  }

  lemma BeginsOwn(s: State, d: string, a: QueueAction)
    requires EngineOnce.Once(s) && d in s.queues && MayTurn(s, s.queues[d], a)
    ensures var eff := QueueStep(s, d, a).eff;
            eff.Begin? ==> eff.d == d && Sub(s.submits, eff.e).key.device == d
  {
    EngineCells.TurnEffects(s, d, a);
    if a.Starts? {
      EngineCells.HandsAccepted(s, d);
    }
  }

  lemma ByQueueSerial(s: State, d: string, a: QueueAction)
    requires EngineOnce.Once(s) && Serial(s) && d in s.queues && MayTurn(s, s.queues[d], a)
    ensures Serial(Turn(s, d, QueueStep(s, d, a)))
  {
    var mine := StartedBy(s.submits, s.trace.started, d);
    assert DeviceSerial(s, d);
    if Settling(a) {
      SettlingSerial(s, d, a, mine, s.hist.over, d in s.hist.late);
    } else if Regrouping(a) {
      RegroupingSerial(s, d, a, mine, s.hist.over, d in s.hist.late);
    } else {
      RunningSerial(s, d, a, mine, s.hist.over, d in s.hist.late);
    }
    BeginsOwn(s, d, a);
    TurnKeepsSerial(s, d, QueueStep(s, d, a));
  }

  lemma SubmitSerial(s: State, t: State, i: Sid)
    requires Serial(s) && i < |s.submits| == |t.submits|
    requires t.submits == s.submits[i := t.submits[i]] && t.submits[i].key == s.submits[i].key
    requires t.queues == s.queues && t.trace.started == s.trace.started && t.clock == s.clock
    requires t.closed == s.closed && t.hist.over == s.hist.over && t.hist.late == s.hist.late
    ensures Serial(t)
  {
    forall d ensures DeviceSerial(t, d) {
      assert DeviceSerial(s, d);
      assert StartedBy(t.submits, t.trace.started, d) == StartedBy(s.submits, s.trace.started, d);
    }
  }

  lemma SubmitKeepsSerial(s: State, i: Sid, a: SubmitAction)
    requires Serial(s) && i < |s.submits| && MayMove(s, s.submits[i], a)
    requires EngineOnce.SubmitOk(i, s.submits[i], s.trace)
    ensures Serial(Move(s, i, SubmitStep(s, i, a)))
  {
    EngineOnce.SubmitStepOk(s, i, a);
    var step := SubmitStep(s, i, a);
    OverAfter(s.hist, step.eff, s.closed);
    SubmitSerial(s, Move(s, i, step), i);
  }

  lemma EnqueueSerial(s: State, i: Sid)
    requires Serial(s) && i < |s.submits|
    ensures Serial(Enqueueing(s, i))
  {
    var t := Enqueueing(s, i);
    forall d ensures DeviceSerial(t, d) {
      assert DeviceSerial(s, d);
      assert StartedBy(t.submits, t.trace.started, d) == StartedBy(s.submits, s.trace.started, d);
    }
  }

  lemma GlobalSerial(s: State, a: Action)
    requires EngineOnce.Once(s) && Serial(s) && Enabled(s, a)
    requires a.Tick? || a.Arrives? || a.Cancels? || a.Stops? || a.Purges? || a.Crashes?
    ensures Serial(Apply(s, a))
  {
    var t := Apply(s, a);
    forall d ensures DeviceSerial(t, d) {
      assert DeviceSerial(s, d);
      if !a.Crashes? {
        assert StartedBy(t.submits, t.trace.started, d) == StartedBy(s.submits, s.trace.started, d);
      }
    }
  }

  lemma PanicSerial(s: State, d: string)
    requires Serial(s) && d in s.queues
    ensures Serial(Turn(s, d, DeathStep(s.queues[d], d, s.cells)))
  {
    assert DeviceSerial(s, d);
    TurnKeepsSerial(s, d, DeathStep(s.queues[d], d, s.cells));
  }

  lemma StepSerial(s: State, a: Action)
    requires EngineOnce.Once(s) && Serial(s) && Enabled(s, a)
    ensures Serial(Apply(s, a))
  {
    match a
    case BySubmit(i, move) => SubmitKeepsSerial(s, i, move);
    case Enqueues(i) => EnqueueSerial(s, i);
    case ByQueue(d, turn) => ByQueueSerial(s, d, turn);
    case Panics(d) => PanicSerial(s, d);
    case _ => GlobalSerial(s, a);
  }

  lemma {:induction false} ExecSerial(s0: State, actions: seq<Action>)
    requires Init(s0) && Exec(s0, actions).Some?
    ensures Serial(Exec(s0, actions).value)
  {
    if actions != [] {
      ExecSerial(s0, actions[..|actions| - 1]);
      EngineOnce.ExecOnce(s0, actions[..|actions| - 1]);
      StepSerial(Exec(s0, actions[..|actions| - 1]).value, actions[|actions| - 1]);
    }
  }

  // ---------- cooldown ----------

  /** A doubt that was kept is on its way to the cooldown, or covered by it. */
  predicate Promised(doubt: Doubt, q: Queue, cooldown: nat, now: int) {
    && doubt.at <= now
    && (doubt.kept ==>
          || cooldown == 0
          || (q.worker.Ran? && Uncertain(q.worker.run))
          || (q.cooldownUntil.Some? && q.cooldownUntil.value >= doubt.at + cooldown))
  }

  ghost predicate Cooled(s: State) {
    forall d :: d in s.doubts ==> Promised(s.doubts[d], QueueOf(s.queues, d), s.cooldown, s.clock)
  }

  lemma TurnPromised(s: State, d: string, a: QueueAction, doubt: Doubt)
    requires d in s.queues && MayTurn(s, s.queues[d], a) && Promised(doubt, s.queues[d], s.cooldown, s.clock)
    requires !QueueStep(s, d, a).eff.Cut? && (QueueStep(s, d, a).eff.Over? ==> !QueueStep(s, d, a).eff.uncertain)
    ensures Promised(doubt, QueueStep(s, d, a).next, s.cooldown, s.clock)
  {
  }

  lemma TurnDoubts(s: State, d: string, a: QueueAction)
    requires d in s.queues && MayTurn(s, s.queues[d], a)
    ensures var eff := QueueStep(s, d, a).eff;
            && (eff.Over? ==>
                  && eff.d == d
                  && (eff.uncertain ==> Promised(Doubt(s.clock, true), QueueStep(s, d, a).next, s.cooldown, s.clock)))
            && (eff.Cut? ==> eff.d == d && a.Aborts?)
  {
  }

  /** A worker that dies loses a doubt only where it has it in its own hands. */
  lemma DeathPromised(q: Queue, d: string, cells: map<Sid, ControlResult>, doubt: Doubt, cooldown: nat, now: int)
    requires Promised(doubt, q, cooldown, now)
    ensures var step := DeathStep(q, d, cells);
            (step.eff.Cut? && step.eff.uncertain) || Promised(doubt, step.next, cooldown, now)
  {
  }

  lemma TurnCooled(s: State, d: string, a: QueueAction)
    requires Cooled(s) && d in s.queues && MayTurn(s, s.queues[d], a)
    ensures Cooled(Turn(s, d, QueueStep(s, d, a)))
  {
    TurnDoubts(s, d, a);
    if d in s.doubts {
      TurnKeepsPromise(s, d, a);
    }
    KeepsCooled(s, d, QueueStep(s, d, a));
  }

  lemma TurnKeepsPromise(s: State, d: string, a: QueueAction)
    requires d in s.queues && MayTurn(s, s.queues[d], a) && d in s.doubts
    requires Promised(s.doubts[d], s.queues[d], s.cooldown, s.clock)
    ensures Doubtful(QueueStep(s, d, a).eff) || Promised(s.doubts[d], QueueStep(s, d, a).next, s.cooldown, s.clock)
  {
    if a.Aborts? {
      DeathPromised(s.queues[d], d, s.cells, s.doubts[d], s.cooldown, s.clock);
    } else if !Doubtful(QueueStep(s, d, a).eff) {
      TurnDoubts(s, d, a);
      TurnPromised(s, d, a, s.doubts[d]);
    }
  }

  predicate Doubtful(eff: Effect) {
    (eff.Over? || eff.Cut?) && eff.uncertain
  }

  /** A step on one device keeps the promises of all. */
  lemma KeepsCooled(s: State, d: string, step: Step<Queue>)
    requires Cooled(s) && d in s.queues && (step.eff.Over? || step.eff.Cut? ==> step.eff.d == d)
    requires step.eff.Over? && step.eff.uncertain ==> Promised(Doubt(s.clock, true), step.next, s.cooldown, s.clock)
    requires d in s.doubts ==> Doubtful(step.eff) || Promised(s.doubts[d], step.next, s.cooldown, s.clock)
    ensures Cooled(Turn(s, d, step))
  {
  }

  lemma PanicCooled(s: State, d: string)
    requires Cooled(s) && d in s.queues
    ensures Cooled(Turn(s, d, DeathStep(s.queues[d], d, s.cells)))
  {
    if d in s.doubts {
      DeathPromised(s.queues[d], d, s.cells, s.doubts[d], s.cooldown, s.clock);
    }
    KeepsCooled(s, d, DeathStep(s.queues[d], d, s.cells));
  }

  lemma StepCooled(s: State, a: Action)
    requires Cooled(s) && Enabled(s, a)
    ensures Cooled(Apply(s, a))
  {
    match a
    case ByQueue(d, turn) => TurnCooled(s, d, turn);
    case Panics(d) => PanicCooled(s, d);
    case BySubmit(i, move) => MoveCooled(s, i, move);
    case _ => GlobalCooled(s, a);
  }

  lemma MoveCooled(s: State, i: Sid, a: SubmitAction)
    requires Cooled(s) && i < |s.submits| && MayMove(s, s.submits[i], a)
    ensures Cooled(Move(s, i, SubmitStep(s, i, a)))
  {
  }

  lemma GlobalCooled(s: State, a: Action)
    requires Cooled(s) && Enabled(s, a) && !a.ByQueue? && !a.Panics? && !a.BySubmit?
    ensures Cooled(Apply(s, a))
  {
  }

  lemma {:induction false} ExecCooled(s0: State, actions: seq<Action>)
    requires Init(s0) && Exec(s0, actions).Some?
    ensures Cooled(Exec(s0, actions).value)
  {
    if actions != [] {
      ExecCooled(s0, actions[..|actions| - 1]);
      StepCooled(Exec(s0, actions[..|actions| - 1]).value, actions[|actions| - 1]);
    }
  }

  // ---------- theorem ----------

  /** Whenever a device may start an entry, every run it started before is over, it has started no
      other entry since the stop, and if its last run without a definite answer ended in the hands of
      a worker that lived to record it, the whole cooldown has passed since. */
  lemma StartsAreSerial(s0: State, actions: seq<Action>, d: string)
    requires Init(s0) && Exec(s0, actions).Some?
    requires Enabled(Exec(s0, actions).value, ByQueue(d, Starts))
    ensures var s := Exec(s0, actions).value;
            && (forall i :: i in s.trace.started && i < |s.submits| && s.submits[i].key.device == d ==>
                  i in s.hist.over)
            && (d in s.doubts && s.doubts[d].kept ==> s.doubts[d].at + s.cooldown <= s.clock)
            && d !in s.hist.late
  {
    ExecSerial(s0, actions);
    ExecCooled(s0, actions);
    var s := Exec(s0, actions).value;
    assert DeviceSerial(s, d);
    forall i | i in s.trace.started && i < |s.submits| && s.submits[i].key.device == d ensures i in s.hist.over {
      assert i in StartedBy(s.submits, s.trace.started, d);
    }
  }
}
