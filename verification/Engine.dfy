/** The control engine as a transition system.

    Concurrent submits race over the active registry, the journal and the device queues; one worker
    per device runs entries and settles them; shutdown aborts a worker that does not stop and
    settles what it left. A step is what one task does between two points where another task can
    be seen to act: an await, or the release of a lock. It changes the task's own part of the state
    and has at most one effect on what the tasks share.

    A submit is named by its index. The receipt a submit creates and the queue entry it builds carry
    the submit's name, so `cell == i` says that submit `i` registered the active entry itself. */
module Engine {
  import opened ControlTypes
  import J = Journal

  type Sid = nat

  // ---------- submits ----------

  datatype Verdict = WriteFailed | Answered(decision: J.Decision)

  /** What a submit returned: a finished result, a receipt that waits, or an error. */
  datatype Reply = Ready(result: ControlResult) | Waits(cell: Sid) | Refused

  /** Program counter of a submit, one value per point where others can act. */
  datatype Pc =
    | Register                                        // about to look the key up in `active`
    | Insert                                          // journal insertion outstanding
    | Decided(verdict: Verdict)                       // journal has answered
    | Interrupt                                       // found an unsettled record nobody runs
    | Uninterrupt(result: ControlResult)              // wrote that result, registry entry remains
    | Orphan                                          // settles a record it may not execute
    | Check                                           // validation and preconditions
    | Enqueue                                         // about to lock the device queue
    | Enqueued                                        // accepted, about to look at the receipt
    | FinishSettle(result: ControlResult, closing: bool)
    | FinishRemove(result: ControlResult, closing: bool)
    | FinishWrite(result: ControlResult, closing: bool)
    | Returned(reply: Reply)
    | Gone                                            // the process died

  datatype Submit = Submit(
    key: Key, hash: string, created: int, expires: int, deadline: int, cell: Sid, pc: Pc)

  // ---------- device queue, worker, shutdown ----------

  datatype Run = Done(result: ControlResult) | TimedOut | Cancelled | Unknown(code: string)

  datatype Kind = IsReady | IsCancelled | IsExpired

  /** Where a settlement stands: journal write outstanding, journal answered, registry entry
      removed and audit outstanding, receipt written. */
  datatype Stage = ToJournal | Journaled(ok: bool) | ToAudit | Written

  datatype Work = Work(entry: Sid, result: ControlResult, stage: Stage)

  /** Entries a dead or aborted worker left, with the way each is to be settled. */
  type Leftover = (Sid, Run)

  datatype Worker =
    | Absent
    | Boot
    | Adopt(orphans: seq<Leftover>)                   // between two entries of a dead worker
    | Adopting(work: Work, rest: seq<Leftover>)
    | Top                                             // about to check for a stop
    | Pick                                            // about to take an entry
    | Idle
    | Picked(entry: Sid, kind: Kind)
    | Executing(entry: Sid, started: bool)
    | Ran(entry: Sid, run: Run)
    | SettlesRun(work: Work)
    | SettlesTracked(work: Work)
    | Stopped

  datatype Join = NotYet | Abandoned(todo: seq<Leftover>) | Abandoning(work: Work, todo: seq<Leftover>)

  datatype Queue = Queue(
    waiting: set<Sid>, running: Option<Sid>, draining: seq<Sid>, closed: bool,
    cooldownUntil: Option<int>, worker: Worker, join: Join,
    aborting: bool)                                   // shutdown has asked for the worker's abort

  const NEW_QUEUE := Queue({}, None, [], false, None, Absent, NotYet, false)

  // ---------- the whole state ----------

  datatype Insertion = Insertion(sid: Sid, key: Key, expiresAt: int, at: int)

  /** History: insertions that succeeded and executor futures begun, in order and as sets. */
  datatype Trace = Trace(
    inserted: seq<Insertion>, inserters: set<Sid>, starts: seq<Sid>, started: set<Sid>)

  /** More facts about the run so far that the program does not store. */
  datatype History = History(
    over: set<Sid>,                                   // runs that returned or were cut off
    ended: map<Sid, ControlResult>,                   // runs whose executor answered
    late: set<string>,                                // devices that began an entry after the stop
    dropped: set<Sid>,                                // gave up a registered receipt unwritten
    stranded: set<Sid>,                               // lost with the worker that alone knew of them
    imitated: set<Sid>,                               // executor answered with the code of a failed write
    met: map<Sid, J.Entry>)                           // the record a submit found in the journal

  /** When a device's last run ended without a definite answer; `kept` if it ended in the hands of a
      worker that lives to set the cooldown. */
  datatype Doubt = Doubt(at: int, kept: bool)

  datatype Settlement = Settlement(author: Sid, result: ControlResult)

  /** What happened to the records, key by key, since the process started. */
  datatype Marks = Marks(
    latest: map<Key, Sid>,                            // who inserted the record, unless it was purged
    last: map<Key, Settlement>,                       // the last settlement that reached the record
    tried: set<Sid>,                                  // who has tried to settle
    failed: set<Sid>,                                 // whose last try missed the record: failed or given up
    gaveUp: set<Sid>,                                 // whose last try shutdown gave up
    early: set<Key>,                                  // a record expired under a live request
    ioFailed: set<Key>,                               // a journal write failed
    skipped: set<Key>,                                // shutdown ran out of budget for the journal
    disordered: set<Key>)                             // a holder overtook the registrant

  const NO_MARKS := Marks(map[], map[], {}, {}, {}, {}, {}, {}, {})

  datatype State = State(
    clock: int,
    cooldown: nat,                                    // policy: how long an uncertain run blocks
    closed: bool,
    active: map<Key, Sid>,
    journal: map<Key, J.Entry>,
    owner: map<Key, Sid>,                             // history: who inserted the record
    cells: map<Sid, ControlResult>,                   // receipts written
    submits: seq<Submit>,
    queues: map<string, Queue>,
    cancelled: set<Sid>,
    trace: Trace,
    hist: History,
    doubts: map<string, Doubt>,
    marks: Marks)

  ghost predicate Init(s: State) {
    && s.active == map[] && s.journal == map[] && s.owner == map[] && s.cells == map[]
    && s.submits == [] && s.queues == map[] && s.cancelled == {} && !s.closed
    && s.trace == Trace([], {}, [], {})
    && s.hist == History({}, map[], {}, {}, {}, {}, map[]) && s.doubts == map[] && s.marks == NO_MARKS
  }

  /** The submit called `i`; the default is never met, every name in use belongs to a submit. */
  function Sub(submits: seq<Submit>, i: Sid): Submit {
    if i < |submits| then submits[i] else Submit(Key("", "", ""), "", 0, 0, 0, i, Gone)
  }

  function QueueOf(queues: map<string, Queue>, d: string): Queue {
    if d in queues then queues[d] else NEW_QUEUE
  }

  // ---------- effects on what the tasks share ----------

  datatype Effect =
    | Nothing
    | Claim(key: Key, i: Sid)                         // becomes the active entry
    | Leave(key: Key, dropped: set<Sid>)              // the key leaves the registry
    | Put(i: Sid, sub: Submit, disordered: bool, early: bool)
    | PutFails(missed: Key, disordered: bool, early: bool)
    | Ask(i: Sid, asked: Key, met: J.Entry, disordered: bool)   // the journal had a record already
    | Settle(key: Key, result: ControlResult, ok: bool, author: Sid)
    | Skip(key: Key, author: Sid)                         // the journal write is given up
    | Post(cell: Sid, result: ControlResult)          // writes a receipt
    | Begin(e: Sid, d: string)                        // first poll of the executor
    | Over(e: Sid, d: string, answer: Option<ControlResult>, uncertain: bool)   // the run returned
    | Cut(e: Sid, d: string, uncertain: bool)         // the worker died with the run in its hands
    | Strand(lost: set<Sid>)                          // only the worker knew of these, and nobody asks it

  function ActiveAfter(active: map<Key, Sid>, eff: Effect): map<Key, Sid> {
    match eff
    case Claim(key, i) => active[key := i]
    case Leave(key, _) => active - {key}
    case _ => active
  }

  function JournalAfter(journal: map<Key, J.Entry>, eff: Effect): map<Key, J.Entry> {
    match eff
    case Put(_, sub, _, _) =>
      journal[sub.key := J.NewEntry(sub.key, sub.hash, sub.created, sub.expires)]
    case Settle(key, r, ok, _) =>
      if key in journal && ok then journal[key := J.Settled(journal[key], r)] else journal
    case _ => journal
  }

  function OwnerAfter(owner: map<Key, Sid>, eff: Effect): map<Key, Sid> {
    if eff.Put? then owner[eff.sub.key := eff.i] else owner
  }

  function CellsAfter(cells: map<Sid, ControlResult>, eff: Effect): map<Sid, ControlResult> {
    if eff.Post? then cells[eff.cell := eff.result] else cells
  }

  function TraceAfter(trace: Trace, eff: Effect, now: int): Trace {
    match eff
    case Put(i, sub, _, _) =>
      trace.(inserted := trace.inserted + [Insertion(i, sub.key, sub.expires, now)],
             inserters := trace.inserters + {i})
    case Begin(e, _) => trace.(starts := trace.starts + [e], started := trace.started + {e})
    case _ => trace
  }

  function HistoryAfter(h: History, eff: Effect, closed: bool): History {
    match eff
    case Leave(_, dropped) => h.(dropped := h.dropped + dropped)
    case Ask(i, _, met, _) => h.(met := h.met[i := met])
    case Begin(_, d) => if closed then h.(late := h.late + {d}) else h
    case Over(e, _, answer, _) =>
      h.(over := h.over + {e}, ended := if answer.Some? then h.ended[e := answer.value] else h.ended,
         imitated := if answer.Some? && answer.value.error == SETTLE_FAILED then h.imitated + {e} else h.imitated)
    case Cut(e, _, _) => h.(over := h.over + {e})
    case Strand(lost) => h.(stranded := h.stranded + lost)
    case _ => h
  }

  function DoubtsAfter(doubts: map<string, Doubt>, eff: Effect, now: int): map<string, Doubt> {
    match eff
    case Over(_, d, _, uncertain) => if uncertain then doubts[d := Doubt(now, true)] else doubts
    case Cut(_, d, uncertain) => if uncertain then doubts[d := Doubt(now, false)] else doubts
    case _ => doubts
  }

  function Including(keys: set<Key>, key: Key, yes: bool): set<Key> {
    if yes then keys + {key} else keys
  }

  function MarksAfter(m: Marks, eff: Effect, journal: map<Key, J.Entry>): Marks {
    match eff
    case Put(i, sub, disordered, early) =>
      m.(latest := m.latest[sub.key := i], last := m.last - {sub.key},
         disordered := Including(m.disordered, sub.key, disordered), early := Including(m.early, sub.key, early))
    case PutFails(key, disordered, early) =>
      m.(disordered := Including(m.disordered, key, disordered), early := Including(m.early, key, early),
         ioFailed := m.ioFailed + {key})
    case Ask(_, key, _, disordered) => m.(disordered := Including(m.disordered, key, disordered))
    case Settle(key, r, ok, author) =>
      var m' := m.(tried := m.tried + {author}, failed := m.failed - {author}, gaveUp := m.gaveUp - {author});
      if key !in journal then m'
      else if ok then m'.(last := m.last[key := Settlement(author, r)])
      else m'.(failed := m.failed + {author}, ioFailed := m.ioFailed + {key})
    case Skip(key, author) =>
      m.(tried := m.tried + {author}, failed := m.failed + {author}, gaveUp := m.gaveUp + {author},
         skipped := m.skipped + {key})
    case _ => m
  }

  function Effected(s: State, eff: Effect): State {
    s.(active := ActiveAfter(s.active, eff),
       journal := JournalAfter(s.journal, eff),
       owner := OwnerAfter(s.owner, eff),
       cells := CellsAfter(s.cells, eff),
       trace := TraceAfter(s.trace, eff, s.clock),
       hist := HistoryAfter(s.hist, eff, s.closed),
       doubts := DoubtsAfter(s.doubts, eff, s.clock),
       marks := MarksAfter(s.marks, eff, s.journal))
  }

  /** A task's step: its own new value and the effect it has on the rest. */
  datatype Step<T> = Step(next: T, eff: Effect)

  function Move(s: State, i: Sid, step: Step<Submit>): State
    requires i < |s.submits|
  {
    Effected(s, step.eff).(submits := s.submits[i := step.next])
  }

  function Turn(s: State, d: string, step: Step<Queue>): State {
    Effected(s, step.eff).(queues := s.queues[d := step.next])
  }

  // ---------- results ----------

  function Rejection(key: Key, code: string, now: int): ControlResult {
    ControlResult(key, Rejected, None, Some(now), None, Some(code))
  }

  function Interruption(key: Key, code: string, now: int): ControlResult {
    ControlResult(key, Indeterminate, None, Some(now), None, Some(code))
  }

  function ResultOf(run: Run, key: Key, now: int): ControlResult {
    match run
    case Done(r) => r.(key := key, completedAt := Some(now))
    case TimedOut => ControlResult(key, Timeout, None, Some(now), None, Some("TIMEOUT"))
    case Cancelled => ControlResult(key, Status.Cancelled, None, Some(now), None, Some("CANCELLED"))
    case Unknown(code) => ControlResult(key, Indeterminate, Some(now), Some(now), None, Some(code))
  }

  const SETTLE_FAILED := Some("JOURNAL_SETTLE_FAILED")

  /** A result whose settlement did not reach the disk must not claim anything. */
  function Downgraded(r: ControlResult): ControlResult {
    r.(status := Indeterminate, error := SETTLE_FAILED)
  }

  predicate Uncertain(run: Run) {
    run.Unknown? || (run.Done? && run.result.status == Indeterminate)
  }

  // ---------- who is still busy with a key ----------

  predicate Listed(list: seq<Leftover>, i: Sid) {
    exists n :: 0 <= n < |list| && list[n].0 == i
  }

  predicate WorkerHolds(w: Worker, i: Sid) {
    match w
    case Adopt(orphans) => Listed(orphans, i)
    case Adopting(work, rest) => work.entry == i || Listed(rest, i)
    case Picked(e, _) => e == i
    case Executing(e, _) => e == i
    case Ran(e, _) => e == i
    case SettlesRun(work) => work.entry == i
    case SettlesTracked(work) => work.entry == i
    case _ => false
  }

  predicate JoinHolds(j: Join, i: Sid) {
    match j
    case NotYet => false
    case Abandoned(todo) => Listed(todo, i)
    case Abandoning(work, todo) => work.entry == i || Listed(todo, i)
  }

  /** The entry is in a structure every task can reach. */
  predicate Visible(q: Queue, i: Sid) {
    i in q.waiting || q.running == Some(i) || i in q.draining
  }

  predicate Held(q: Queue, i: Sid) {
    Visible(q, i) || WorkerHolds(q.worker, i) || JoinHolds(q.join, i)
  }

  /** Submit `j` still works on its key, other than by waiting to reach the journal behind `i`. */
  predicate Busy(s: State, j: Sid, i: Sid)
    requires j < |s.submits|
  {
    var sub := s.submits[j];
    || !(sub.pc.Register? || sub.pc.Returned? || sub.pc.Gone? || (sub.pc.Insert? && sub.cell == i))
    || Held(QueueOf(s.queues, sub.key.device), j)
  }

  /** Nobody but `i` is busy with `key`. */
  ghost predicate Quiet(s: State, key: Key, i: Sid) {
    forall j :: 0 <= j < |s.submits| && j != i && s.submits[j].key == key ==> !Busy(s, j, i)
  }

  predicate Holds(active: map<Key, Sid>, key: Key, i: Sid) {
    key in active && active[key] == i
  }

  // ---------- steps of a submit ----------

  function NewSubmit(key: Key, hash: string, now: int, retention: nat, i: Sid): Submit {
    Submit(key, hash, now, now + retention, 0, i, Register)
  }

  function RegisterStep(sub: Submit, i: Sid, active: map<Key, Sid>): Step<Submit> {
    if sub.key in active
    then Step(sub.(cell := active[sub.key], pc := Insert), Nothing)
    else Step(sub.(cell := i, pc := Insert), Claim(sub.key, i))
  }

  /** `disordered` and `early` describe the moment; they do not influence the step. */
  function InsertStep(
    sub: Submit, i: Sid, journal: map<Key, J.Entry>, writable: bool, disordered: bool, early: bool): Step<Submit>
  {
    var d := J.Decide(journal, sub.key, sub.hash, sub.created);
    if !d.Inserted? then Step(sub.(pc := Decided(Answered(d))), Ask(i, sub.key, journal[sub.key], disordered))
    else if !writable then Step(sub.(pc := Decided(WriteFailed)), PutFails(sub.key, disordered, early))
    else Step(sub.(pc := Decided(Answered(d))), Put(i, sub, disordered, early))
  }

  /** Where the journal's verdict takes a submit that does or does not own the active entry. */
  function AfterVerdict(sub: Submit, verdict: Verdict, own: bool, now: int): Pc {
    match verdict
    case WriteFailed =>
      var r := Rejection(sub.key, "JOURNAL_UNAVAILABLE", now);
      if own then FinishSettle(r, false) else Returned(Ready(r))
    case Answered(Duplicate(e)) =>
      if e.result.Some? then Returned(Ready(e.result.value))
      else if own then Interrupt
      else if e.status == Running then Returned(Waits(sub.cell))
      else Returned(Ready(Interruption(sub.key, "EXECUTION_INTERRUPTED", now)))
    case Answered(Conflict(_)) => Returned(Refused)
    case Answered(Inserted) => if own then Check else Orphan
  }

  /** The verdict makes an owner leave the registry without writing its receipt. */
  predicate Drops(verdict: Verdict) {
    verdict.Answered? &&
    match verdict.decision
    case Duplicate(e) => e.result.Some?
    case Conflict(_) => true
    case Inserted => false
  }

  function DecideStep(sub: Submit, i: Sid, now: int): Step<Submit>
    requires sub.pc.Decided?
  {
    var own := sub.cell == i;
    Step(sub.(pc := AfterVerdict(sub, sub.pc.verdict, own, now)),
         if own && Drops(sub.pc.verdict) then Leave(sub.key, {i}) else Nothing)
  }

  function InterruptStep(sub: Submit, now: int): Step<Submit> {
    var r := Interruption(sub.key, "EXECUTION_INTERRUPTED", now);
    Step(sub.(pc := Uninterrupt(r)), Post(sub.cell, r))
  }

  function UninterruptStep(sub: Submit): Step<Submit>
    requires sub.pc.Uninterrupt?
  {
    Step(sub.(pc := Returned(Ready(sub.pc.result))), Leave(sub.key, {}))
  }

  function OrphanStep(sub: Submit, i: Sid, stored: bool, ok: bool, now: int): Step<Submit> {
    var r := Rejection(sub.key, "IDEMPOTENCY_RACE", now);
    Step(sub.(pc := Returned(Ready(if stored && !ok then Downgraded(r) else r))), Settle(sub.key, r, ok, i))
  }

  /** Validation, preconditions and the cooldown check: a rejection code, or a deadline. */
  function CheckStep(sub: Submit, reject: Option<string>, timeout: nat, now: int): Step<Submit> {
    if reject.Some?
    then Step(sub.(pc := FinishSettle(Rejection(sub.key, reject.value, now), false)), Nothing)
    else Step(sub.(deadline := now + timeout, pc := Enqueue), Nothing)
  }

  /** The queue did not take the entry: it is closed, or full. */
  function RefusedStep(sub: Submit, closed: bool, now: int): Step<Submit> {
    if closed
    then Step(sub.(pc := FinishSettle(Interruption(sub.key, "QUEUE_CLOSED", now), true)), Nothing)
    else Step(sub.(pc := FinishSettle(Rejection(sub.key, "QUEUE_FULL", now), false)), Nothing)
  }

  /** Taking an entry spawns a worker if none is alive. */
  function Taken(q: Queue, i: Sid): Queue {
    q.(waiting := q.waiting + {i}, worker := if q.worker.Absent? then Boot else q.worker)
  }

  function AcceptStep(sub: Submit, written: bool): Step<Submit> {
    Step(sub.(pc := Returned(Waits(sub.cell))), if written then Leave(sub.key, {}) else Nothing)
  }

  function FinishSettleStep(sub: Submit, i: Sid, stored: bool, ok: bool): Step<Submit>
    requires sub.pc.FinishSettle?
  {
    var r := sub.pc.result;
    var shown := if stored && !ok && !sub.pc.closing then Downgraded(r) else r;
    Step(sub.(pc := FinishRemove(shown, sub.pc.closing)), Settle(sub.key, r, ok, i))
  }

  function FinishRemoveStep(sub: Submit): Step<Submit>
    requires sub.pc.FinishRemove?
  {
    Step(sub.(pc := FinishWrite(sub.pc.result, sub.pc.closing)), Leave(sub.key, {}))
  }

  function FinishWriteStep(sub: Submit): Step<Submit>
    requires sub.pc.FinishWrite?
  {
    Step(sub.(pc := Returned(if sub.pc.closing then Refused else Ready(sub.pc.result))),
         Post(sub.cell, sub.pc.result))
  }

  // ---------- steps of a worker ----------

  function Leftovers(running: Option<Sid>, queued: seq<Sid>): seq<Leftover> {
    (if running.Some? then [(running.value, Unknown("QUEUE_WORKER_ABORTED"))] else [])
    + seq(|queued|, n requires 0 <= n < |queued| => (queued[n], Run.Cancelled))
  }

  function BootStep(q: Queue): Step<Queue> {
    Step(q.(running := None, draining := [], worker := Adopt(Leftovers(q.running, q.draining))), Nothing)
  }

  function NewWork(submits: seq<Submit>, i: Sid, run: Run, now: int): Work {
    Work(i, ResultOf(run, Sub(submits, i).key, now), ToJournal)
  }

  function AdoptStep(q: Queue, submits: seq<Submit>, cells: map<Sid, ControlResult>, now: int): Step<Queue>
    requires q.worker.Adopt?
  {
    var orphans := q.worker.orphans;
    if orphans == [] then Step(q.(worker := Top), Nothing)
    else if orphans[0].0 in cells then Step(q.(worker := Adopt(orphans[1..])), Nothing)
    else
      Step(q.(draining := q.draining + [orphans[0].0],
              worker := Adopting(NewWork(submits, orphans[0].0, orphans[0].1, now), orphans[1..])), Nothing)
  }

  /** `order` lists what waits, in the order a drain moves it. */
  ghost predicate Orders(order: seq<Sid>, waiting: set<Sid>) {
    && (forall i :: i in order <==> i in waiting)
    && forall m, n :: 0 <= m < n < |order| ==> order[m] != order[n]
  }

  /** The stop check. On a stop everything that waits moves to `draining` and the front of that is
      settled as cancelled, a second copy of it standing at the back meanwhile. */
  function TopStep(q: Queue, stop: bool, order: seq<Sid>, submits: seq<Submit>, now: int): Step<Queue> {
    if !q.closed && !stop then
      Step(q.(worker := Pick), Nothing)
    else
      var draining := q.draining + order;
      var q' := q.(closed := true, waiting := {}, draining := draining);
      if draining == [] then
        Step(q'.(worker := if q.running.None? then Stopped else Pick), Nothing)
      else
        Step(q'.(draining := draining + [draining[0]],
                 worker := SettlesTracked(NewWork(submits, draining[0], Run.Cancelled, now))), Nothing)
  }

  predicate Cooling(q: Queue, now: int) {
    q.cooldownUntil.Some? && q.cooldownUntil.value > now
  }

  /** Takes `entry` off the queue; which one is the scheduling policy's business. */
  function PickStep(q: Queue, entry: Sid, cancelled: bool, expired: bool): Step<Queue> {
    var kind := if cancelled then IsCancelled else if expired then IsExpired else IsReady;
    Step(q.(waiting := q.waiting - {entry}, worker := Picked(entry, kind)), Nothing)
  }

  function BeginStep(q: Queue, submits: seq<Submit>, now: int): Step<Queue>
    requires q.worker.Picked?
  {
    var e := q.worker.entry;
    if q.worker.kind.IsReady? then
      Step(q.(running := Some(e), worker := Executing(e, false)), Nothing)
    else
      var run := if q.worker.kind.IsCancelled? then Run.Cancelled else TimedOut;
      Step(q.(draining := q.draining + [e], worker := SettlesTracked(NewWork(submits, e, run, now))), Nothing)
  }

  /** The executor future is polled for the first time. */
  function StartStep(q: Queue, d: string): Step<Queue>
    requires q.worker.Executing?
  {
    Step(q.(worker := Executing(q.worker.entry, true)), Begin(q.worker.entry, d))
  }

  /** The run is over: the executor answered, or time or a cancellation cut it short. */
  function ReturnStep(q: Queue, d: string, run: Run): Step<Queue>
    requires q.worker.Executing?
  {
    var e := q.worker.entry;
    Step(q.(worker := Ran(e, run)), Over(e, d, if run.Done? then Some(run.result) else None, Uncertain(run)))
  }

  function CooldownStep(q: Queue, submits: seq<Submit>, cooldown: nat, now: int): Step<Queue>
    requires q.worker.Ran?
  {
    var until := if Uncertain(q.worker.run) && cooldown > 0 then Some(now + cooldown) else q.cooldownUntil;
    Step(q.(cooldownUntil := until,
            worker := SettlesRun(NewWork(submits, q.worker.entry, q.worker.run, now))), Nothing)
  }

  // ---------- settling, by the worker or by shutdown ----------

  datatype Who = TheWorker | TheJoin

  predicate Works(q: Queue, who: Who) {
    match who
    case TheWorker => q.worker.Adopting? || q.worker.SettlesRun? || q.worker.SettlesTracked?
    case TheJoin => q.join.Abandoning?
  }

  function WorkOf(q: Queue, who: Who): Work
    requires Works(q, who)
  {
    if who.TheWorker? then q.worker.work else q.join.work
  }

  function WithWork(q: Queue, who: Who, work: Work): Queue
    requires Works(q, who)
  {
    match who
    case TheWorker => q.(worker := q.worker.(work := work))
    case TheJoin => q.(join := q.join.(work := work))
  }

  /** Journal write of a settlement: it succeeds, fails, or, in shutdown only, is given up. */
  datatype Write = Ok | Fails | GivenUp

  function JournalStep(q: Queue, who: Who, key: Key, stored: bool, write: Write): Step<Queue>
    requires Works(q, who)
  {
    var work := WorkOf(q, who);
    if write.GivenUp? then
      Step(WithWork(q, who, work.(stage := Journaled(true))), Skip(key, work.entry))
    else
      Step(WithWork(q, who, work.(stage := Journaled(!stored || write.Ok?))),
           Settle(key, work.result, write.Ok?, work.entry))
  }

  function RemoveStep(q: Queue, who: Who, key: Key): Step<Queue>
    requires Works(q, who) && WorkOf(q, who).stage.Journaled?
  {
    var work := WorkOf(q, who);
    var r := if work.stage.ok then work.result else Downgraded(work.result);
    Step(WithWork(q, who, work.(result := r, stage := ToAudit)), Leave(key, {}))
  }

  function WriteStep(q: Queue, who: Who, cell: Sid): Step<Queue>
    requires Works(q, who)
  {
    var work := WorkOf(q, who);
    Step(WithWork(q, who, work.(stage := Written)), Post(cell, work.result))
  }

  /** Drops finished entries off the front. */
  function Swept(draining: seq<Sid>, cells: map<Sid, ControlResult>): seq<Sid> {
    if draining != [] && draining[0] in cells then Swept(draining[1..], cells) else draining
  }

  function CleanStep(q: Queue, who: Who, cells: map<Sid, ControlResult>): Step<Queue>
    requires Works(q, who)
  {
    match who
    case TheJoin => Step(q.(join := Abandoned(q.join.todo)), Nothing)
    case TheWorker =>
      (match q.worker
       case SettlesRun(_) => Step(q.(running := None, worker := Top), Nothing)
       case SettlesTracked(_) => Step(q.(draining := Swept(q.draining, cells), worker := Top), Nothing)
       case Adopting(_, rest) =>
         Step(q.(draining := Swept(q.draining, cells), worker := Adopt(rest)), Nothing))
  }

  // ---------- stop, abort, death ----------

  /** The worker waits for something, so that an abort takes effect. */
  predicate Awaits(w: Worker) {
    || w.Idle? || (w.Executing? && w.started)
    || ((w.Adopting? || w.SettlesRun? || w.SettlesTracked?) && (w.work.stage.ToJournal? || w.work.stage.ToAudit?))
  }

  /** From where it waits an aborted worker does not go on. */
  predicate Frozen(q: Queue) {
    q.aborting && Awaits(q.worker)
  }

  function Entries(list: seq<Leftover>): set<Sid> {
    set n | 0 <= n < |list| :: list[n].0
  }

  /** Entries the worker has taken off the queue's structures. */
  function InHands(w: Worker): set<Sid> {
    match w
    case Picked(e, _) => {e}
    case Adopt(orphans) => Entries(orphans)
    case Adopting(_, rest) => Entries(rest)
    case _ => {}
  }

  /** Unsettled entries that only the worker knows of. */
  function Unseen(q: Queue, cells: map<Sid, ControlResult>): set<Sid> {
    set i | i in InHands(q.worker) && i !in cells && !Visible(q, i)
  }

  /** The worker task ends where it stands. */
  function DeathStep(q: Queue, d: string, cells: map<Sid, ControlResult>): Step<Queue> {
    Step(q.(worker := Absent),
         if q.worker.Executing? then Cut(q.worker.entry, d, q.worker.started)
         else if q.worker.Ran? then Cut(q.worker.entry, d, Uncertain(q.worker.run))
         else if q.join.NotYet? then Strand(Unseen(q, cells))
         else Nothing)
  }

  /** Shutdown takes everything the queue holds: the worker is dead, or its abort has been asked for
      and may not have taken effect yet. */
  function TakeStep(q: Queue, order: seq<Sid>, cells: map<Sid, ControlResult>): Step<Queue> {
    Step(q.(closed := true, waiting := {}, running := None, draining := [],
            worker := if q.worker.Absent? then Stopped else q.worker,
            join := Abandoned(Leftovers(q.running, order + q.draining))),
         Strand(Unseen(q, cells)))
  }

  function AbandonStep(q: Queue, submits: seq<Submit>, cells: map<Sid, ControlResult>, now: int): Step<Queue>
    requires q.join.Abandoned? && q.join.todo != []
  {
    var todo := q.join.todo;
    Step(q.(join := if todo[0].0 in cells then Abandoned(todo[1..])
                    else Abandoning(NewWork(submits, todo[0].0, todo[0].1, now), todo[1..])), Nothing)
  }

  /** A dead process leaves no cooldown behind. */
  function Forgotten(doubts: map<string, Doubt>, queues: map<string, Queue>, now: int): map<string, Doubt> {
    map d | d in doubts.Keys + queues.Keys
          && (d in doubts || (queues[d].worker.Executing? && queues[d].worker.started)) ::
      if d in queues && queues[d].worker.Executing? && queues[d].worker.started then Doubt(now, false)
      else doubts[d].(kept := false)
  }

  /** The process dies and starts again on the same journal. */
  function Crashed(s: State): State {
    var found := J.Unexpired(s.journal, s.clock);
    s.(closed := false, active := map[], cells := map[], queues := map[], cancelled := {},
       journal := J.Recover(found, s.clock),
       submits := seq(|s.submits|, i requires 0 <= i < |s.submits| => s.submits[i].(pc := Gone)),
       hist := s.hist.(over := s.hist.over + s.trace.started, late := {}),
       doubts := Forgotten(s.doubts, s.queues, s.clock),
       marks := NO_MARKS.(latest := map k | k in s.marks.latest && k in found :: s.marks.latest[k]))
  }

  // ---------- the transition relation ----------

  datatype SubmitAction =
    | Registers
    | Inserts(writable: bool)
    | Decides
    | Interrupts
    | Uninterrupts
    | Orphans(ok: bool)
    | Checks(reject: Option<string>, timeout: nat)
    | TurnedAway(full: bool)
    | Accepts
    | FinishSettles(ok: bool)
    | FinishRemoves
    | FinishWrites

  datatype QueueAction =
    | Boots
    | Adopts
    | Tops(order: seq<Sid>)
    | Picks(entry: Sid)
    | Sleeps
    | Wakes
    | Begins
    | Starts
    | Returns(run: Run)
    | Cools
    | Journals(who: Who, write: Write)
    | Removes(who: Who)
    | Writes(who: Who)
    | Cleans(who: Who)
    | Closes
    | AbortAsks
    | Aborts
    | Takes(order: seq<Sid>)
    | Abandons
    | Respawns

  predicate Settling(a: QueueAction) {
    a.Journals? || a.Removes? || a.Writes? || a.Cleans?
  }

  /** Steps that move several entries between the queue's structures at once. */
  predicate Regrouping(a: QueueAction) {
    a.Boots? || a.Adopts? || a.Tops? || a.Takes? || a.Abandons?
  }

  datatype Action =
    | Tick(until: int)
    | Arrives(key: Key, hash: string, retention: nat)
    | BySubmit(i: Sid, move: SubmitAction)
    | Enqueues(i: Sid)
    | ByQueue(d: string, turn: QueueAction)
    | Cancels(d: string, entry: Sid)
    | Panics(d: string)
    | Stops
    | Purges(now: int)
    | Crashes

  predicate MayMove(s: State, sub: Submit, a: SubmitAction) {
    match a
    case Registers => sub.pc.Register?
    case Inserts(_) => sub.pc.Insert?
    case Decides => sub.pc.Decided?
    case Interrupts => sub.pc.Interrupt?
    case Uninterrupts => sub.pc.Uninterrupt?
    case Orphans(_) => sub.pc.Orphan?
    case Checks(_, _) => sub.pc.Check?
    case TurnedAway(full) =>
      sub.pc.Enqueue? && (full || s.closed || QueueOf(s.queues, sub.key.device).closed)
    case Accepts => sub.pc.Enqueued?
    case FinishSettles(_) => sub.pc.FinishSettle?
    case FinishRemoves => sub.pc.FinishRemove?
    case FinishWrites => sub.pc.FinishWrite?
  }

  ghost function SubmitStep(s: State, i: Sid, a: SubmitAction): Step<Submit>
    requires i < |s.submits| && MayMove(s, s.submits[i], a)
  {
    var sub := s.submits[i];
    match a
    case Registers => RegisterStep(sub, i, s.active)
    case Inserts(writable) =>
      InsertStep(sub, i, s.journal, writable,
                 sub.cell != i && Sub(s.submits, sub.cell).pc.Insert?,
                 sub.key in s.journal && !(Holds(s.active, sub.key, i) && sub.cell == i && Quiet(s, sub.key, i)))
    case Decides => DecideStep(sub, i, s.clock)
    case Interrupts => InterruptStep(sub, s.clock)
    case Uninterrupts => UninterruptStep(sub)
    case Orphans(ok) => OrphanStep(sub, i, sub.key in s.journal, ok, s.clock)
    case Checks(reject, timeout) => CheckStep(sub, reject, timeout, s.clock)
    case TurnedAway(_) => RefusedStep(sub, s.closed || QueueOf(s.queues, sub.key.device).closed, s.clock)
    case Accepts => AcceptStep(sub, sub.cell in s.cells)
    case FinishSettles(ok) => FinishSettleStep(sub, i, sub.key in s.journal, ok)
    case FinishRemoves => FinishRemoveStep(sub)
    case FinishWrites => FinishWriteStep(sub)
  }

  /** Why a run may come back the way it does. */
  predicate MayReturn(run: Run, started: bool, cancelled: bool, expired: bool) {
    match run
    case Done(r) => started && (r.status == Succeeded || r.status == Failed || r.status == Indeterminate)
    case TimedOut => !started && expired
    case Cancelled => !started && cancelled
    case Unknown(code) => started && ((code == "TIMEOUT" && expired) || (code == "CANCELLED" && cancelled))
  }

  predicate Expired(s: State, e: Sid) {
    s.clock >= Sub(s.submits, e).deadline
  }

  ghost predicate MayTurn(s: State, q: Queue, a: QueueAction) {
    match a
    case Boots => q.worker.Boot?
    case Adopts => q.worker.Adopt?
    case Tops(order) => q.worker.Top? && Orders(order, q.waiting)
    case Picks(entry) => q.worker.Pick? && !Cooling(q, s.clock) && entry in q.waiting
    case Sleeps => q.worker.Pick? && (Cooling(q, s.clock) || q.waiting == {})
    case Wakes => q.worker.Idle? && !Frozen(q)
    case Begins => q.worker.Picked?
    case Starts => q.worker.Executing? && !q.worker.started
    case Returns(run) =>
      q.worker.Executing? && !Frozen(q)
      && MayReturn(run, q.worker.started, q.worker.entry in s.cancelled, Expired(s, q.worker.entry))
    case Cools => q.worker.Ran?
    case Journals(who, write) =>
      Works(q, who) && WorkOf(q, who).stage.ToJournal?
        && (if who.TheWorker? then !write.GivenUp? && !Frozen(q) else true)
    case Removes(who) => Works(q, who) && WorkOf(q, who).stage.Journaled?
    case Writes(who) => Works(q, who) && WorkOf(q, who).stage.ToAudit? && (who.TheWorker? ==> !Frozen(q))
    case Cleans(who) => Works(q, who) && WorkOf(q, who).stage.Written?
    case Closes => s.closed
    case AbortAsks => s.closed && !q.worker.Absent? && q.join.NotYet?
    case Aborts => Frozen(q)
    case Takes(order) => s.closed && q.join.NotYet? && (q.worker.Absent? || q.aborting) && Orders(order, q.waiting)
    case Abandons => q.join.Abandoned? && q.join.todo != []
    case Respawns => !s.closed && q.worker.Absent?
  }

  ghost function QueueStep(s: State, d: string, a: QueueAction): Step<Queue>
    requires d in s.queues && MayTurn(s, s.queues[d], a)
  {
    var q := s.queues[d];
    match a
    case Boots => BootStep(q)
    case Adopts => AdoptStep(q, s.submits, s.cells, s.clock)
    case Tops(order) => TopStep(q, s.closed, order, s.submits, s.clock)
    case Picks(entry) => PickStep(q, entry, entry in s.cancelled, Expired(s, entry))
    case Sleeps => Step(q.(worker := Idle), Nothing)
    case Wakes => Step(q.(worker := Top), Nothing)
    case Begins => BeginStep(q, s.submits, s.clock)
    case Starts => StartStep(q, d)
    case Returns(run) => ReturnStep(q, d, run)
    case Cools => CooldownStep(q, s.submits, s.cooldown, s.clock)
    case Journals(who, write) =>
      var key := Sub(s.submits, WorkOf(q, who).entry).key;
      JournalStep(q, who, key, key in s.journal, write)
    case Removes(who) => RemoveStep(q, who, Sub(s.submits, WorkOf(q, who).entry).key)
    case Writes(who) => WriteStep(q, who, Sub(s.submits, WorkOf(q, who).entry).cell)
    case Cleans(who) => CleanStep(q, who, s.cells)
    case Closes => Step(q.(closed := true), Nothing)
    case AbortAsks => Step(q.(aborting := true), Nothing)
    case Aborts => DeathStep(q, d, s.cells)
    case Takes(order) => TakeStep(q, order, s.cells)
    case Abandons => AbandonStep(q, s.submits, s.cells, s.clock)
    case Respawns => Step(q.(worker := Boot), Nothing)
  }

  ghost predicate Enabled(s: State, a: Action) {
    match a
    case Tick(until) => until >= s.clock
    case Arrives(_, _, _) => !s.closed
    case BySubmit(i, move) => i < |s.submits| && MayMove(s, s.submits[i], move)
    case Enqueues(i) =>
      i < |s.submits| && s.submits[i].pc.Enqueue?
      && !s.closed && !QueueOf(s.queues, s.submits[i].key.device).closed
    case ByQueue(d, turn) => d in s.queues && MayTurn(s, s.queues[d], turn)
    case Cancels(d, entry) =>
      d in s.queues && !s.queues[d].closed
      && (entry in s.queues[d].waiting || s.queues[d].running == Some(entry))
    case Panics(d) => d in s.queues && !s.queues[d].worker.Absent? && !s.queues[d].worker.Stopped?
    case Stops => true
    case Purges(now) => now <= s.clock
    case Crashes => true
  }

  /** Keys somebody is busy with whose record a purge at `now` removes. */
  ghost function PurgedEarly(s: State, now: int): set<Key> {
    set k | k in s.journal && s.journal[k].expiresAt < now && !Quiet(s, k, |s.submits|)
  }

  ghost function Purged(s: State, now: int): State {
    var kept := J.Unexpired(s.journal, now);
    s.(journal := kept,
       marks := s.marks.(latest := map k | k in s.marks.latest && k in kept :: s.marks.latest[k],
                         last := map k | k in s.marks.last && k in kept :: s.marks.last[k],
                         early := s.marks.early + PurgedEarly(s, now)))
  }

  function Enqueueing(s: State, i: Sid): State
    requires i < |s.submits|
  {
    var d := s.submits[i].key.device;
    s.(submits := s.submits[i := s.submits[i].(pc := Enqueued)],
       queues := s.queues[d := Taken(QueueOf(s.queues, d), i)])
  }

  ghost function Apply(s: State, a: Action): State
    requires Enabled(s, a)
  {
    match a
    case Tick(until) => s.(clock := until)
    case Arrives(key, hash, retention) =>
      s.(submits := s.submits + [NewSubmit(key, hash, s.clock, retention, |s.submits|)])
    case BySubmit(i, move) => Move(s, i, SubmitStep(s, i, move))
    case Enqueues(i) => Enqueueing(s, i)
    case ByQueue(d, turn) => Turn(s, d, QueueStep(s, d, turn))
    case Cancels(_, entry) => s.(cancelled := s.cancelled + {entry})
    case Panics(d) => Turn(s, d, DeathStep(s.queues[d], d, s.cells))
    case Stops => s.(closed := true)
    case Purges(now) => Purged(s, now)
    case Crashes => Crashed(s)
  }

  /** The state after a run, or None if a step was not enabled. */
  ghost function Exec(s0: State, actions: seq<Action>): Option<State> {
    if actions == [] then Some(s0)
    else
      match Exec(s0, actions[..|actions| - 1])
      case None => None
      case Some(s) =>
        if Enabled(s, actions[|actions| - 1]) then Some(Apply(s, actions[|actions| - 1])) else None
  }
}
