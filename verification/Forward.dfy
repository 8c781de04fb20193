/** The forward loop: batches from the pipeline go to a write-ahead log, the oldest record is
    published, and a record is deleted once the broker has acknowledged it.

    A batch is its number in order of arrival, records found in the log at start counting first.
    Message ids are distinct, so comparing them is comparing these numbers. */
module Forwarding {
  import opened ControlTypes

  // ---------- the local buffer, as far as the loop relies on it ----------

  /** `stored` lists the batches of all records ever written, so a record's local sequence number is
      its index; `live` are the records not deleted. Pushes whose caller has given up stay `queued` in
      the command channel. A push that found no room is `waiting` in the buffer, which may write it
      later. `late` (history) are the batches that were written when nobody waited for the answer. */
  datatype Buffer = Buffer(
    stored: seq<nat>, live: set<nat>, inflight: set<nat>, waiting: Option<nat>, queued: seq<nat>, late: set<nat>)

  /** What the disk and the capacity limit do to a push. */
  datatype Fate = Lands | Stalls | DiskError | Refuses

  datatype PushReply = Stored | TimedOut | Transient | Permanent

  /** How a push looks to its caller: answered in time, or not, in which case the command may or may
      not have entered the channel. */
  datatype Wait = Answered(fate: Fate) | Late(sent: bool)

  /** What the buffer does by itself: serve the next queued push, or flush the one that waits. */
  datatype Chore = Serve(fate: Fate) | Flush(fate: Fate)

  predicate Recorded(buf: Buffer, b: nat) {
    b in buf.stored
  }

  predicate Present(buf: Buffer, b: nat) {
    exists n :: 0 <= n < |buf.stored| && n in buf.live && buf.stored[n] == b
  }

  predicate Flying(buf: Buffer, b: nat) {
    exists n :: 0 <= n < |buf.stored| && n in buf.inflight && buf.stored[n] == b
  }

  function Append(buf: Buffer, b: nat): Buffer {
    buf.(stored := buf.stored + [b], live := buf.live + {|buf.stored|}, waiting := None)
  }

  /** The buffer meets a push. Idempotent by id; a batch that already waits shares its fate. */
  function Push(buf: Buffer, b: nat, fate: Fate): (Buffer, PushReply) {
    if buf.waiting.None? && Present(buf, b) then
      (buf, if fate.DiskError? && !Flying(buf, b) then Transient else Stored)
    else
      match fate
      case Lands => (Append(buf, b), Stored)
      case Stalls => (buf.(waiting := Some(b)), TimedOut)
      case DiskError => (buf.(waiting := None), Transient)
      case Refuses => (buf, Permanent)
  }

  /** A write that happened without anybody to be told. */
  function Unheard(before: Buffer, after: Buffer, b: nat): Buffer {
    if |after.stored| > |before.stored| then after.(late := after.late + {b}) else after
  }

  function Served(buf: Buffer, fate: Fate): Buffer {
    if buf.queued == [] then buf
    else Unheard(buf, Push(buf.(queued := buf.queued[1..]), buf.queued[0], fate).0, buf.queued[0])
  }

  function Flushed(buf: Buffer, fate: Fate): Buffer {
    if buf.waiting.None? then buf
    else
      match fate
      case Lands => Unheard(buf, Append(buf, buf.waiting.value), buf.waiting.value)
      case DiskError => buf.(waiting := None)
      case _ => buf
  }

  function Worked(buf: Buffer, chores: seq<Chore>): Buffer
    decreases |chores|
  {
    if chores == [] then buf
    else
      Worked(match chores[0] case Serve(fate) => Served(buf, fate) case Flush(fate) => Flushed(buf, fate), chores[1..])
  }

  function WaitAt(waits: seq<Wait>, n: nat): Wait {
    if n < |waits| then waits[n] else Answered(Lands)
  }

  /** The loop pushes a batch and waits a limited time. Commands are answered in order, so an answer in
      time takes that nothing is queued any more. */
  function PushCall(buf: Buffer, b: nat, wait: Wait): (Buffer, PushReply) {
    if wait.Answered? && buf.queued == [] then Push(buf, b, wait.fate)
    else (if wait.Answered? || wait.sent then buf.(queued := buf.queued + [b]) else buf, TimedOut)
  }

  function UpTo(n: nat): (r: set<nat>)
    ensures forall m: nat :: m in r <==> m < n
  {
    if n == 0 then {} else UpTo(n - 1) + {n - 1}
  }

  /** The oldest record not in flight. */
  predicate IsHead(buf: Buffer, n: nat) {
    n in buf.live - buf.inflight && forall m :: m in buf.live - buf.inflight ==> n <= m
  }

  lemma {:induction false} HasHead(buf: Buffer, n: nat)
    requires n in buf.live - buf.inflight
    ensures exists h :: IsHead(buf, h)
  {
    if m :| m in buf.live - buf.inflight && m < n {
      HasHead(buf, m);
    } else {
      assert IsHead(buf, n);
    }
  }

  ghost function Head(buf: Buffer): (h: Option<nat>)
    ensures h.None? <==> buf.live - buf.inflight == {}
    ensures h.Some? ==> IsHead(buf, h.value)
  {
    if buf.live - buf.inflight == {} then None
    else
      var some :| some in buf.live - buf.inflight;
      HasHead(buf, some);
      var n :| IsHead(buf, n);
      Some(n)
  }

  /** Deletes record `n`; the room may let a waiting push land. */
  function Ack(buf: Buffer, n: nat, flush: Fate): Buffer {
    Flushed(buf.(live := buf.live - {n}, inflight := buf.inflight - {n}), flush)
  }

  function Requeue(buf: Buffer, n: nat): Buffer {
    buf.(inflight := buf.inflight - {n})
  }

  // ---------- the loop ----------

  /** How waiting for the broker ends. A publish the broker refuses, or whose connection breaks,
      is put back; a stop or the drain deadline leaves it in flight. */
  datatype Publish =
    | Acknowledged(deleted: bool, flush: Fate)
    | Failed(restored: bool)
    | Interrupted

  datatype Pick = Signal | FromPipeline | FromBuffer(idle: bool)

  /** What one turn of the loop meets: what the buffer does before it, the stop signal, the drain
      deadline, the outcome of every call it may make, and what the buffer does before it answers the
      call for the next record. */
  datatype Round = Round(
    chores: seq<Chore>, stop: bool, expired: bool, retryWait: Wait, pushes: seq<Wait>, nextChores: seq<Chore>,
    nextFails: bool, publish: Publish, pick: Pick)

  const PUSH_TRANSIENT_RETRIES := 3

  datatype PushResult = PushStored | PushFatal | PushOverflow

  /** The loop's variables. `next` is the number of the next batch to come and `end` the one at which the
      pipeline closes; `retries` is how often a disk error is repeated. `pubacked` (history) are the
      records the broker has acknowledged, `undercut` the batches of which a record was deleted while the
      retry slot still held them, and `interrupted` tells that a stop has cut a publish short. */
  datatype Loop = Loop(
    next: nat, end: nat, retries: nat, buf: Buffer,
    draining: bool, outClosed: bool, suspended: bool, exited: bool,
    retry: Option<nat>, lost: seq<nat>, room: nat, dropped: seq<nat>,
    pubacked: set<nat>, undercut: set<nat>, interrupted: bool)

  function Started(start: nat, end: nat, room: nat): Loop
    requires start <= end
  {
    Loop(start, end, PUSH_TRANSIENT_RETRIES, Buffer(seq(start, n => n), UpTo(start), {}, None, [], {}),
         false, false, false, false, None, [], room, [], {}, {}, false)
  }

  /** Into the lost queue, or dropped if that is full. */
  function SettledLost(l: Loop, b: nat): Loop {
    if l.room > 0 then l.(lost := l.lost + [b], room := l.room - 1) else l.(dropped := l.dropped + [b])
  }

  /** Writes a newly taken batch, repeating after a disk error while `left` allows. */
  function PushedBatch(buf: Buffer, b: nat, r: Round, left: nat): (Buffer, PushResult)
    decreases left
  {
    var (buf', reply) := PushCall(buf, b, WaitAt(r.pushes, left));
    match reply
    case Stored => (buf', PushStored)
    case TimedOut => (buf', PushOverflow)
    case Transient => if left > 0 then PushedBatch(buf', b, r, left - 1) else (buf', PushFatal)
    case Permanent => (buf', PushFatal)
  }

  /** Takes a batch from the pipeline, or learns that it has closed. */
  function Received(l: Loop, r: Round): Loop {
    if l.next >= l.end then l.(outClosed := true)
    else
      var pushed := PushedBatch(l.buf, l.next, r, l.retries);
      Taken(l, pushed.0, pushed.1)
  }

  /** Batch `b` was pushed with this result. */
  function Pushed(l: Loop, b: nat, buf: Buffer, result: PushResult): Loop {
    var l' := l.(buf := buf);
    if result.PushFatal? then SettledLost(l', b) else l'
  }

  /** The next batch was taken and pushed with this result. */
  function Taken(l: Loop, buf: Buffer, result: PushResult): Loop {
    var l' := Pushed(l.(next := l.next + 1), l.next, buf, result);
    match result
    case PushStored => l'
    case PushFatal => l'.(exited := true)
    case PushOverflow => l'.(retry := Some(l.next))
  }

  function Exited(l: Loop): Loop {
    (if l.retry.Some? then SettledLost(l, l.retry.value).(retry := None) else l).(exited := true)
  }

  /** What became of asking the buffer for a record and publishing it. */
  datatype Outcome = NoRecord | Went | StopTaking | NotRead

  function Released(l: Loop, n: nat, flush: Fate): Loop {
    var held := n < |l.buf.stored| && l.retry == Some(l.buf.stored[n]);
    l.(buf := Ack(l.buf, n, flush), undercut := if held then l.undercut + {l.buf.stored[n]} else l.undercut)
  }

  function Published(l: Loop, n: nat, publish: Publish): (Loop, Outcome) {
    var l' := l.(buf := l.buf.(inflight := l.buf.inflight + {n}));
    match publish
    case Acknowledged(deleted, flush) =>
      var acked := l'.(pubacked := l'.pubacked + {n});
      (if deleted then Released(acked, n, flush) else acked, Went)
    case Failed(restored) => (if restored then l'.(buf := Requeue(l'.buf, n)) else l', Went)
    case Interrupted => (l'.(interrupted := true), StopTaking)
  }

  /** The loop asks for the next record; a call the buffer has not got to yet counts as failed. */
  ghost function PublishedHead(l: Loop, r: Round): (Loop, Outcome) {
    var l' := l.(buf := Worked(l.buf, r.nextChores));
    if r.nextFails || l'.buf.queued != [] then (l', NotRead)
    else
      match Head(l'.buf)
      case None => (l', NoRecord)
      case Some(n) => Published(l', n, r.publish)
  }

  /** The slot holds a batch: write it before anything else, publish to free room. */
  ghost function Retried(l: Loop, r: Round): Loop
    requires l.retry.Some?
  {
    var (buf, reply) := PushCall(l.buf, l.retry.value, r.retryWait);
    var l' := l.(buf := buf);
    match reply
    case Stored => l'.(retry := None)
    case TimedOut =>
      if l.suspended then l'
      else
        var (after, outcome) := PublishedHead(l', r);
        if outcome.StopTaking? then after.(suspended := true) else after
    case _ => Exited(l')
  }

  /** Nothing is held back: receive or publish. */
  ghost function Activated(l: Loop, r: Round): Loop {
    if l.outClosed then
      var (after, outcome) := PublishedHead(l, r);
      if outcome.StopTaking? || (outcome.NoRecord? && l.draining) then Exited(after) else after
    else
      match r.pick
      case Signal => l
      case FromPipeline => Received(l, r)
      case FromBuffer(idle) =>
        var (after, outcome) := PublishedHead(l, r);
        if outcome.StopTaking? then after.(suspended := true)
        else if outcome.NoRecord? && !l.draining && idle then Received(after, r)
        else after
  }

  /** One turn of the loop. */
  ghost function Turned(l: Loop, r: Round): Loop {
    var l' := l.(buf := Worked(l.buf, r.chores), draining := l.draining || r.stop);
    if l'.draining && r.expired then Exited(l')
    else if l'.retry.Some? then Retried(l', r)
    else if l'.suspended then (if l'.next >= l'.end then Exited(l') else Received(l', r))
    else Activated(l', r)
  }

  ghost function Ran(l: Loop, rounds: seq<Round>): Loop {
    if rounds == [] then l
    else
      var before := Ran(l, rounds[..|rounds| - 1]);
      if before.exited then before.(buf := Worked(before.buf, rounds[|rounds| - 1].chores))
      else Turned(before, rounds[|rounds| - 1])
  }

  // ---------- accounts ----------

  /** Where the loop's own hands may hold a batch. */
  datatype Hands = Hands(retry: Option<nat>, lost: seq<nat>, dropped: seq<nat>)

  const EMPTY := Hands(None, [], [])

  function HandsOf(l: Loop): Hands {
    Hands(l.retry, l.lost, l.dropped)
  }

  predicate InHands(h: Hands, b: nat) {
    h.retry == Some(b) || b in h.lost || b in h.dropped
  }

  predicate Free(h: Hands) {
    h.retry.None? && |h.lost| == 0 && |h.dropped| == 0
  }

  predicate InSlot(h: Hands, b: nat) {
    h.retry == Some(b) && |h.lost| == 0 && |h.dropped| == 0
  }

  /** Only `b` is in hand, in one place. */
  predicate Only(h: Hands, b: nat) {
    || InSlot(h, b)
    || (h.retry.None? && |h.lost| == 1 && h.lost[0] == b && |h.dropped| == 0)
    || (h.retry.None? && |h.lost| == 0 && |h.dropped| == 1 && h.dropped[0] == b)
  }

  /** The batch of the last record, or -1. */
  function Last(buf: Buffer): int {
    if buf.stored == [] then -1 else buf.stored[|buf.stored| - 1]
  }

  ghost predicate BufferOk(buf: Buffer) {
    && buf.inflight <= buf.live
    && (forall n :: n in buf.live ==> n < |buf.stored|)
  }

  /** After record `n` comes one of the next batch, or of the same if record `n` has been deleted. */
  predicate Follows(buf: Buffer, n: nat) {
    n + 1 < |buf.stored| ==>
      || buf.stored[n + 1] == buf.stored[n] + 1
      || (buf.stored[n + 1] == buf.stored[n] && n !in buf.live)
  }

  /** The records are those found at start and then the batches taken, in order of arrival, none
      skipped; a batch written again follows its own earlier record, which has been deleted. */
  ghost predicate Ordered(start: nat, buf: Buffer) {
    && start <= |buf.stored|
    && (forall n :: 0 <= n < start ==> buf.stored[n] == n)
    && (start < |buf.stored| ==> buf.stored[start] == start)
    && (forall n: nat :: start <= n ==> Follows(buf, n))
  }

  /** A batch whose push is still on its way, or waits for room, has no record that is not deleted. */
  ghost predicate PendingOk(buf: Buffer, b: nat) {
    && (forall n :: 0 <= n < |buf.queued| ==> buf.queued[n] == b)
    && (buf.waiting.Some? ==> buf.waiting.value == b && !Present(buf, b))
  }

  predicate Twice(buf: Buffer, n: nat, b: nat) {
    n + 1 < |buf.stored| && buf.stored[n] == b && buf.stored[n + 1] == b
  }

  /** A batch was written more than once. */
  ghost predicate Repeated(buf: Buffer, b: nat) {
    exists n: nat :: Twice(buf, n, b)
  }

  /** The accounts: only the newest batch may be missing from the log, and only it may be in hand, in one
      place. In hand and recorded at once it is exactly if it was written late. It was written again
      exactly if a record of it was deleted while the loop held it. */
  ghost predicate Books(start: nat, next: nat, buf: Buffer, h: Hands, undercut: set<nat>) {
    && BufferOk(buf) && Ordered(start, buf) && start <= next && next - 2 <= Last(buf) <= next - 1
    && (Free(h) || (next > start && Only(h, next - 1)))
    && (if Free(h) then Last(buf) == next - 1 && buf.queued == [] && buf.waiting.None? else PendingOk(buf, next - 1))
    && (!Free(h) ==> (Last(buf) == next - 1 <==> next - 1 in buf.late))
    && (!Free(h) && Gone(buf, next - 1) ==> next - 1 in undercut)
    && (forall b: nat :: Account(next, buf, h, undercut, b))
  }

  ghost predicate Account(next: nat, buf: Buffer, h: Hands, undercut: set<nat>, b: nat) {
    && (b in buf.late || b in undercut ==> b < next)
    && (Repeated(buf, b) ==> b in undercut)
    && (b in undercut ==> Repeated(buf, b) || (!Free(h) && b == next - 1 && Gone(buf, b)))
  }

  /** The last record is batch `b`'s, and has been deleted. */
  predicate Gone(buf: Buffer, b: nat) {
    Last(buf) == b && |buf.stored| - 1 !in buf.live
  }

  // ---------- what the buffer does to the accounts ----------

  lemma {:induction false} Rising(start: nat, buf: Buffer, m: nat, n: nat)
    requires Ordered(start, buf) && m < n < |buf.stored|
    ensures buf.stored[m] <= buf.stored[n]
    ensures buf.stored[m] == buf.stored[n] ==> m !in buf.live && Twice(buf, m, buf.stored[m])
    decreases n - m
  {
    if n < start {
    } else if n == m + 1 {
      assert n > start ==> Follows(buf, m);
    } else {
      Rising(start, buf, m, n - 1);
      assert n > start ==> Follows(buf, n - 1);
    }
  }

  lemma PresentIsLast(start: nat, buf: Buffer, b: nat)
    requires BufferOk(buf) && Ordered(start, buf) && Last(buf) <= b
    ensures Present(buf, b) <==> Last(buf) == b && |buf.stored| - 1 in buf.live
  {
    if Present(buf, b) {
      var n :| 0 <= n < |buf.stored| && n in buf.live && buf.stored[n] == b;
      if n < |buf.stored| - 1 {
        Rising(start, buf, n, |buf.stored| - 1);
      }
    }
  }

  lemma AppendOrdered(start: nat, buf: Buffer, b: nat)
    requires BufferOk(buf) && Ordered(start, buf) && start <= b && (Gone(buf, b) || Last(buf) == b - 1)
    ensures BufferOk(Append(buf, b)) && Ordered(start, Append(buf, b)) && Last(Append(buf, b)) == b
  {
    var buf' := Append(buf, b);
    forall n: nat | start <= n ensures Follows(buf', n) {
      assert Follows(buf, n);
    }
  }

  lemma AppendRepeats(buf: Buffer, b: nat, c: nat)
    ensures Repeated(Append(buf, b), c) <==> Repeated(buf, c) || (c == b && Last(buf) == b)
  {
    var buf' := Append(buf, b);
    if n: nat :| Twice(buf, n, c) {
      assert Twice(buf', n, c);
    }
    if c == b && Last(buf) == b {
      assert Twice(buf', |buf.stored| - 1, c);
    }
    if n: nat :| Twice(buf', n, c) {
      assert n + 1 < |buf.stored| ==> Twice(buf, n, c);
    }
  }

  /** A batch in hand that has no live record is written; whether the loop hears of it shows in `h'`. */
  lemma AppendBooks(start: nat, next: nat, buf: Buffer, h: Hands, undercut: set<nat>)
    requires Books(start, next, buf, h, undercut) && !Free(h) && !Present(buf, next - 1)
    ensures var b := next - 1;
            && Books(start, next, Append(buf, b).(late := buf.late + {b}), h, undercut)
            && (buf.queued == [] ==> Books(start, next, Append(buf, b), EMPTY, undercut))
  {
    var b := next - 1;
    PresentIsLast(start, buf, b);
    AppendOrdered(start, buf, b);
    var late := Append(buf, b).(late := buf.late + {b});
    SameRecords(start, Append(buf, b), late);
    PresentIsLast(start, late, b);
    forall c: nat ensures Account(next, late, h, undercut, c) && Account(next, Append(buf, b), EMPTY, undercut, c) {
      assert Account(next, buf, h, undercut, c);
      AppendRepeats(buf, b, c);
    }
  }

  /** Two buffers with the same records. */
  lemma SameRecords(start: nat, buf: Buffer, buf': Buffer)
    requires buf'.stored == buf.stored && buf'.live == buf.live && buf'.inflight <= buf.live
    ensures BufferOk(buf) ==> BufferOk(buf')
    ensures Ordered(start, buf) ==> Ordered(start, buf')
    ensures Last(buf') == Last(buf) && (forall b :: Repeated(buf', b) <==> Repeated(buf, b))
    ensures forall b :: (Present(buf', b) <==> Present(buf, b)) && (Gone(buf', b) <==> Gone(buf, b))
  {
    forall n: nat ensures Follows(buf', n) == Follows(buf, n) {
    }
    forall n: nat, b: nat ensures Twice(buf', n, b) == Twice(buf, n, b) {
    }
  }

  lemma PendingBooks(start: nat, next: nat, buf: Buffer, buf': Buffer, h: Hands, undercut: set<nat>)
    requires Books(start, next, buf, h, undercut) && !Free(h)
    requires buf'.stored == buf.stored && buf'.live == buf.live && buf'.inflight <= buf.live && buf'.late == buf.late
    requires PendingOk(buf', next - 1)
    ensures Books(start, next, buf', h, undercut)
  {
    SameRecords(start, buf, buf');
    forall c: nat ensures Account(next, buf', h, undercut, c) {
      assert Account(next, buf, h, undercut, c);
    }
  }

  /** The buffer meets a push of the batch in hand. */
  lemma PushBooks(start: nat, next: nat, buf: Buffer, h: Hands, undercut: set<nat>, fate: Fate)
    requires Books(start, next, buf, h, undercut) && !Free(h)
    ensures var (buf', reply) := Push(buf, next - 1, fate);
            && Books(start, next, Unheard(buf, buf', next - 1), h, undercut)
            && (!reply.Stored? ==> Books(start, next, buf', h, undercut))
            && (reply.Stored? && buf.queued == [] ==> Books(start, next, buf', EMPTY, undercut))
  {
    var b := next - 1;
    PresentIsLast(start, buf, b);
    if buf.waiting.None? && Present(buf, b) {
      forall c: nat ensures Account(next, buf, EMPTY, undercut, c) {
        assert Account(next, buf, h, undercut, c);
      }
    } else if fate.Lands? {
      AppendBooks(start, next, buf, h, undercut);
    } else {
      var buf' := Push(buf, b, fate).0;
      SameRecords(start, buf, buf');
      PendingBooks(start, next, buf, buf', h, undercut);
    }
  }

  lemma ServeBooks(start: nat, next: nat, buf: Buffer, h: Hands, undercut: set<nat>, fate: Fate)
    requires Books(start, next, buf, h, undercut)
    ensures Books(start, next, Served(buf, fate), h, undercut)
  {
    if buf.queued != [] {
      var rest := buf.(queued := buf.queued[1..]);
      assert buf.queued[0] == next - 1;
      RestBooks(start, next, buf, h, undercut);
      PushBooks(start, next, rest, h, undercut, fate);
    }
  }

  lemma RestBooks(start: nat, next: nat, buf: Buffer, h: Hands, undercut: set<nat>)
    requires Books(start, next, buf, h, undercut) && buf.queued != []
    ensures Books(start, next, buf.(queued := buf.queued[1..]), h, undercut)
  {
    var rest := buf.(queued := buf.queued[1..]);
    SameRecords(start, buf, rest);
    PendingBooks(start, next, buf, rest, h, undercut);
  }

  lemma FlushBooks(start: nat, next: nat, buf: Buffer, h: Hands, undercut: set<nat>, fate: Fate)
    requires Books(start, next, buf, h, undercut)
    ensures Books(start, next, Flushed(buf, fate), h, undercut)
  {
    if buf.waiting.Some? {
      if fate.Lands? {
        AppendBooks(start, next, buf, h, undercut);
      } else if fate.DiskError? {
        PendingBooks(start, next, buf, buf.(waiting := None), h, undercut);
      }
    }
  }

  lemma {:induction false} WorkBooks(start: nat, next: nat, buf: Buffer, h: Hands, undercut: set<nat>,
                                     chores: seq<Chore>)
    requires Books(start, next, buf, h, undercut)
    ensures Books(start, next, Worked(buf, chores), h, undercut)
    decreases |chores|
  {
    if chores != [] {
      match chores[0]
      case Serve(fate) =>
        ServeBooks(start, next, buf, h, undercut, fate);
        WorkBooks(start, next, Served(buf, fate), h, undercut, chores[1..]);
      case Flush(fate) =>
        FlushBooks(start, next, buf, h, undercut, fate);
        WorkBooks(start, next, Flushed(buf, fate), h, undercut, chores[1..]);
    }
  }

  /** The loop pushes the batch it holds: told that it is stored it lets go of it. */
  lemma PushCallBooks(start: nat, next: nat, buf: Buffer, h: Hands, undercut: set<nat>, wait: Wait)
    requires Books(start, next, buf, h, undercut) && !Free(h)
    ensures var (buf', reply) := PushCall(buf, next - 1, wait);
            Books(start, next, buf', if reply.Stored? then EMPTY else h, undercut)
  {
    if wait.Answered? && buf.queued == [] {
      PushBooks(start, next, buf, h, undercut, wait.fate);
    } else {
      var buf' := buf.(queued := buf.queued + [next - 1]);
      SameRecords(start, buf, buf');
      PendingBooks(start, next, buf, buf', h, undercut);
    }
  }

  /** A batch that is taken is in hand until the loop knows that it is stored. */
  lemma TakeBooks(start: nat, next: nat, buf: Buffer, undercut: set<nat>)
    requires Books(start, next, buf, EMPTY, undercut)
    ensures Books(start, next + 1, buf, Hands(Some(next), [], []), undercut)
  {
    var next' := next + 1;
    forall c: nat ensures Account(next', buf, Hands(Some(next), [], []), undercut, c) {
      assert Account(next, buf, EMPTY, undercut, c);
    }
    assert Account(next, buf, EMPTY, undercut, next);
  }

  lemma HandOver(start: nat, next: nat, buf: Buffer, h: Hands, h': Hands, undercut: set<nat>)
    requires Books(start, next, buf, h, undercut) && !Free(h) && Only(h', next - 1)
    ensures Books(start, next, buf, h', undercut)
  {
    forall c: nat ensures Account(next, buf, h', undercut, c) {
      assert Account(next, buf, h, undercut, c);
    }
  }

  lemma FlightBooks(start: nat, next: nat, buf: Buffer, h: Hands, undercut: set<nat>, inflight: set<nat>)
    requires Books(start, next, buf, h, undercut) && inflight <= buf.live
    ensures Books(start, next, buf.(inflight := inflight), h, undercut)
  {
    SameRecords(start, buf, buf.(inflight := inflight));
    forall c: nat ensures Account(next, buf.(inflight := inflight), h, undercut, c) {
      assert Account(next, buf, h, undercut, c);
    }
  }

  /** Deleting a record, of the batch in hand or of another. */
  lemma DeleteBooks(start: nat, next: nat, buf: Buffer, h: Hands, undercut: set<nat>, n: nat)
    requires Books(start, next, buf, h, undercut) && n in buf.live && (Free(h) || InSlot(h, next - 1))
    ensures var rest := buf.(live := buf.live - {n}, inflight := buf.inflight - {n});
            Books(start, next, rest, h, if h.retry == Some(buf.stored[n]) then undercut + {buf.stored[n]} else undercut)
  {
    var rest := buf.(live := buf.live - {n}, inflight := buf.inflight - {n});
    forall m: nat | start <= m ensures Follows(rest, m) {
      assert Follows(buf, m);
    }
    forall m: nat, b: nat ensures Twice(rest, m, b) == Twice(buf, m, b) {
    }
    if n < |buf.stored| - 1 {
      Rising(start, buf, n, |buf.stored| - 1);
    }
    assert Present(rest, next - 1) ==> Present(buf, next - 1);
    var undercut' := if h.retry == Some(buf.stored[n]) then undercut + {buf.stored[n]} else undercut;
    forall c: nat ensures Account(next, rest, h, undercut', c) {
      assert Account(next, buf, h, undercut, c);
    }
  }

  // ---------- what the buffer does by itself takes and deletes nothing ----------

  /** No record was handed out or deleted. */
  ghost predicate NoneTaken(before: Buffer, after: Buffer) {
    && after.inflight == before.inflight && before.live <= after.live && |before.stored| <= |after.stored|
    && forall n :: 0 <= n < |after.stored| && n !in after.live ==> n < |before.stored| && n !in before.live
  }

  lemma PushTakesNone(buf: Buffer, b: nat, fate: Fate)
    ensures NoneTaken(buf, Push(buf, b, fate).0)
  {
  }

  lemma ServeTakesNone(buf: Buffer, fate: Fate)
    ensures NoneTaken(buf, Served(buf, fate))
  {
    if buf.queued != [] {
      PushTakesNone(buf.(queued := buf.queued[1..]), buf.queued[0], fate);
    }
  }

  lemma FlushTakesNone(buf: Buffer, fate: Fate)
    ensures NoneTaken(buf, Flushed(buf, fate))
  {
  }

  lemma {:induction false} WorkTakesNone(buf: Buffer, chores: seq<Chore>)
    ensures NoneTaken(buf, Worked(buf, chores))
    decreases |chores|
  {
    if chores != [] {
      match chores[0]
      case Serve(fate) =>
        ServeTakesNone(buf, fate);
        WorkTakesNone(Served(buf, fate), chores[1..]);
      case Flush(fate) =>
        FlushTakesNone(buf, fate);
        WorkTakesNone(Flushed(buf, fate), chores[1..]);
    }
  }

  lemma PushCallTakesNone(buf: Buffer, b: nat, wait: Wait)
    ensures NoneTaken(buf, PushCall(buf, b, wait).0)
  {
    if wait.Answered? {
      PushTakesNone(buf, b, wait.fate);
    }
  }

  // ---------- every turn keeps the accounts ----------

  /** Accounts are right, and nothing was deleted that was not acknowledged. */
  ghost predicate Sound(start: nat, l: Loop) {
    && l.next <= l.end && Books(start, l.next, l.buf, HandsOf(l), l.undercut)
    && (forall n :: 0 <= n < |l.buf.stored| && n !in l.buf.live ==> n in l.pubacked)
    && (if l.exited then l.retry.None? else |l.lost| == 0 && |l.dropped| == 0)
  }

  /** Besides, after an interrupted publish the loop takes no further record. */
  ghost predicate Valid(start: nat, l: Loop) {
    Sound(start, l) && (l.interrupted ==> l.suspended || l.exited)
  }

  lemma StartedValid(start: nat, end: nat, room: nat)
    requires start <= end
    ensures Valid(start, Started(start, end, room))
  {
  }

  lemma WorkSound(start: nat, l: Loop, chores: seq<Chore>, draining: bool)
    requires Valid(start, l)
    ensures Valid(start, l.(buf := Worked(l.buf, chores), draining := draining))
  {
    WorkBooks(start, l.next, l.buf, HandsOf(l), l.undercut, chores);
    WorkTakesNone(l.buf, chores);
  }

  lemma ExitSound(start: nat, l: Loop)
    requires Sound(start, l) && !l.exited
    ensures Valid(start, Exited(l)) && Exited(l).buf == l.buf && Exited(l).exited
    ensures Exited(l).interrupted == l.interrupted
  {
    if l.retry.Some? {
      HandOver(start, l.next, l.buf, HandsOf(l), HandsOf(Exited(l)), l.undercut);
    }
  }

  lemma StaysSound(start: nat, l: Loop, buf: Buffer, retry: Option<nat>)
    requires Sound(start, l) && !l.exited && NoneTaken(l.buf, buf)
    requires Books(start, l.next, buf, Hands(retry, [], []), l.undercut)
    ensures Sound(start, l.(buf := buf, retry := retry))
  {
    var l' := l.(buf := buf, retry := retry);
    assert HandsOf(l') == Hands(retry, [], []);
  }

  /** The loop pushes the batch in its slot. */
  lemma PushSound(start: nat, l: Loop, wait: Wait)
    requires Sound(start, l) && !l.exited && l.retry.Some?
    ensures var (buf, reply) := PushCall(l.buf, l.retry.value, wait);
            && NoneTaken(l.buf, buf)
            && Sound(start, l.(buf := buf, retry := if reply.Stored? then None else l.retry))
  {
    PushCallBooks(start, l.next, l.buf, HandsOf(l), l.undercut, wait);
    PushCallTakesNone(l.buf, l.retry.value, wait);
    var (buf, reply) := PushCall(l.buf, l.retry.value, wait);
    StaysSound(start, l, buf, if reply.Stored? then None else l.retry);
  }

  lemma {:induction false} PushedBatchBooks(start: nat, next: nat, buf: Buffer, h: Hands, undercut: set<nat>,
                                            r: Round, left: nat)
    requires Books(start, next, buf, h, undercut) && !Free(h)
    ensures var (buf', result) := PushedBatch(buf, next - 1, r, left);
            Books(start, next, buf', if result.PushStored? then EMPTY else h, undercut)
    decreases left
  {
    PushCallBooks(start, next, buf, h, undercut, WaitAt(r.pushes, left));
    var (buf', reply) := PushCall(buf, next - 1, WaitAt(r.pushes, left));
    if reply.Transient? && left > 0 {
      PushedBatchBooks(start, next, buf', h, undercut, r, left - 1);
    }
  }

  lemma {:induction false} PushedBatchTakesNone(buf: Buffer, b: nat, r: Round, left: nat)
    ensures NoneTaken(buf, PushedBatch(buf, b, r, left).0)
    decreases left
  {
    PushCallTakesNone(buf, b, WaitAt(r.pushes, left));
    var (buf', reply) := PushCall(buf, b, WaitAt(r.pushes, left));
    if reply.Transient? && left > 0 {
      PushedBatchTakesNone(buf', b, r, left - 1);
    }
  }

  lemma TakeSound(start: nat, l: Loop)
    requires Sound(start, l) && !l.exited && l.retry.None? && l.next < l.end
    ensures Sound(start, l.(next := l.next + 1, retry := Some(l.next)))
  {
    TakeBooks(start, l.next, l.buf, l.undercut);
  }

  /** Letting go of a batch that cannot be written, and leaving. */
  lemma LostSound(start: nat, l: Loop, b: nat)
    requires Sound(start, l.(retry := Some(b))) && !l.exited && l.retry.None?
    ensures Valid(start, SettledLost(l, b).(exited := true))
  {
    var held := l.(retry := Some(b));
    ExitSound(start, held);
    LeavingHeld(l, held, b);
  }

  lemma LeavingHeld(l: Loop, held: Loop, b: nat)
    requires held == l.(retry := Some(b)) && l.retry.None?
    ensures Exited(held) == SettledLost(l, b).(exited := true)
  {
  }

  lemma TakenSound(start: nat, l: Loop, buf: Buffer, result: PushResult)
    requires Valid(start, l) && !l.exited && l.retry.None? && l.next < l.end && NoneTaken(l.buf, buf)
    requires Books(start, l.next + 1, buf, if result.PushStored? then EMPTY else Hands(Some(l.next), [], []),
                   l.undercut)
    ensures Valid(start, Taken(l, buf, result))
  {
    TakeSound(start, l);
    var held := l.(next := l.next + 1, retry := Some(l.next));
    if result.PushStored? {
      StaysSound(start, held, buf, None);
      assert Taken(l, buf, result) == held.(buf := buf, retry := None);
    } else {
      StaysSound(start, held, buf, Some(l.next));
      HeldSound(start, l, buf, result, held.(buf := buf, retry := Some(l.next)));
    }
  }

  lemma FatalSound(start: nat, l: Loop, buf: Buffer, held: Loop)
    requires l.retry.None? && !l.exited
    requires held == l.(next := l.next + 1, buf := buf, retry := Some(l.next)) && Sound(start, held)
    ensures Valid(start, Taken(l, buf, PushFatal))
  {
    var pushed := l.(next := l.next + 1, buf := buf);
    assert pushed.(retry := Some(l.next)) == held;
    LostSound(start, pushed, l.next);
  }

  lemma HeldSound(start: nat, l: Loop, buf: Buffer, result: PushResult, held: Loop)
    requires !result.PushStored? && l.retry.None? && !l.exited && (l.interrupted ==> l.suspended)
    requires held == l.(next := l.next + 1, buf := buf, retry := Some(l.next)) && Sound(start, held)
    ensures Valid(start, Taken(l, buf, result))
  {
    if result.PushFatal? {
      FatalSound(start, l, buf, held);
    } else {
      assert Taken(l, buf, result) == held;
    }
  }

  lemma TakenKeeps(l: Loop, buf: Buffer, result: PushResult)
    ensures var t := Taken(l, buf, result);
            t.buf == buf && t.interrupted == l.interrupted && t.suspended == l.suspended
  {
  }

  lemma ReceiveWith(start: nat, l: Loop, r: Round, left: nat)
    requires Valid(start, l) && !l.exited && l.retry.None? && l.next < l.end
    ensures var (buf, result) := PushedBatch(l.buf, l.next, r, left);
            NoneTaken(l.buf, buf) && Valid(start, Taken(l, buf, result))
  {
    var (buf, result) := PushedBatch(l.buf, l.next, r, left);
    TakeBooks(start, l.next, l.buf, l.undercut);
    PushedBatchBooks(start, l.next + 1, l.buf, Hands(Some(l.next), [], []), l.undercut, r, left);
    PushedBatchTakesNone(l.buf, l.next, r, left);
    TakenSound(start, l, buf, result);
  }

  lemma ReceiveSound(start: nat, l: Loop, r: Round)
    requires Valid(start, l) && !l.exited && l.retry.None?
    ensures Valid(start, Received(l, r)) && NoneTaken(l.buf, Received(l, r).buf)
    ensures Received(l, r).interrupted == l.interrupted && Received(l, r).suspended == l.suspended
  {
    if l.next < l.end {
      ReceiveWith(start, l, r, l.retries);
      var (buf, result) := PushedBatch(l.buf, l.next, r, l.retries);
      ReceivedByPushing(l, r, buf, result);
      TakenKeeps(l, buf, result);
    }
  }

  lemma ReleaseSound(start: nat, l: Loop, n: nat, flush: Fate)
    requires Sound(start, l) && !l.exited && n in l.buf.live && n in l.pubacked
    ensures Sound(start, Released(l, n, flush))
  {
    var rest := l.buf.(live := l.buf.live - {n}, inflight := l.buf.inflight - {n});
    DeleteBooks(start, l.next, l.buf, HandsOf(l), l.undercut, n);
    FlushBooks(start, l.next, rest, HandsOf(l), Released(l, n, flush).undercut, flush);
    FlushTakesNone(rest, flush);
  }

  lemma PublishSound(start: nat, l: Loop, n: nat, publish: Publish)
    requires Sound(start, l) && !l.exited && !l.interrupted && n in l.buf.live
    ensures var (l', outcome) := Published(l, n, publish);
            Sound(start, l') && l'.interrupted == outcome.StopTaking? && !l'.exited && l'.retry == l.retry
  {
    FlightBooks(start, l.next, l.buf, HandsOf(l), l.undercut, l.buf.inflight + {n});
    var flying := l.(buf := l.buf.(inflight := l.buf.inflight + {n}));
    match publish
    case Acknowledged(deleted, flush) =>
      if deleted {
        ReleaseSound(start, flying.(pubacked := flying.pubacked + {n}), n, flush);
      }
    case Failed(restored) =>
      if restored {
        FlightBooks(start, l.next, flying.buf, HandsOf(l), l.undercut, flying.buf.inflight - {n});
      }
    case Interrupted =>
  }

  lemma PublishHeadSound(start: nat, l: Loop, r: Round)
    requires Sound(start, l) && !l.exited && !l.interrupted
    ensures var (l', outcome) := PublishedHead(l, r);
            Sound(start, l') && l'.interrupted == outcome.StopTaking? && !l'.exited && l'.retry == l.retry
  {
    var l' := l.(buf := Worked(l.buf, r.nextChores));
    WorkBooks(start, l.next, l.buf, HandsOf(l), l.undercut, r.nextChores);
    WorkTakesNone(l.buf, r.nextChores);
    if !r.nextFails && l'.buf.queued == [] && Head(l'.buf).Some? {
      PublishSound(start, l', Head(l'.buf).value, r.publish);
    }
  }

  lemma RetrySound(start: nat, l: Loop, r: Round)
    requires Valid(start, l) && !l.exited && l.retry.Some?
    ensures Valid(start, Retried(l, r))
    ensures l.interrupted ==> Retried(l, r).interrupted && NoneTaken(l.buf, Retried(l, r).buf)
  {
    PushSound(start, l, r.retryWait);
    var (buf, reply) := PushCall(l.buf, l.retry.value, r.retryWait);
    var l' := l.(buf := buf);
    if reply.TimedOut? {
      if !l.suspended {
        PublishHeadSound(start, l', r);
      }
    } else if !reply.Stored? {
      ExitSound(start, l');
    }
  }

  lemma ActiveSound(start: nat, l: Loop, r: Round)
    requires Valid(start, l) && !l.exited && l.retry.None? && !l.suspended
    ensures Valid(start, Activated(l, r))
  {
    if !l.outClosed && r.pick.FromPipeline? {
      ReceiveSound(start, l, r);
    } else if l.outClosed || r.pick.FromBuffer? {
      PublishHeadSound(start, l, r);
      var (after, outcome) := PublishedHead(l, r);
      if l.outClosed {
        ExitSound(start, after);
      } else if !outcome.StopTaking? {
        ReceiveSound(start, after, r);
      }
    }
  }

  /** Every turn keeps the accounts; once a publish has been interrupted no turn hands out or deletes a
      record any more. */
  lemma TurnValid(start: nat, l: Loop, r: Round)
    requires Valid(start, l) && !l.exited
    ensures Valid(start, Turned(l, r))
    ensures l.interrupted ==> Turned(l, r).interrupted && NoneTaken(l.buf, Turned(l, r).buf)
  {
    var l' := l.(buf := Worked(l.buf, r.chores), draining := l.draining || r.stop);
    WorkSound(start, l, r.chores, l.draining || r.stop);
    WorkTakesNone(l.buf, r.chores);
    if l'.draining && r.expired {
      ExitSound(start, l');
    } else if l'.retry.Some? {
      RetrySound(start, l', r);
    } else if l'.suspended {
      if l'.next >= l'.end {
        ExitSound(start, l');
      } else {
        ReceiveSound(start, l', r);
      }
    } else {
      ActiveSound(start, l', r);
    }
  }

  lemma {:induction false} RunValid(start: nat, end: nat, room: nat, rounds: seq<Round>)
    requires start <= end
    ensures Valid(start, Ran(Started(start, end, room), rounds))
  {
    if rounds == [] {
      StartedValid(start, end, room);
    } else {
      RunValid(start, end, room, rounds[..|rounds| - 1]);
      var before := Ran(Started(start, end, room), rounds[..|rounds| - 1]);
      if before.exited {
        WorkSound(start, before, rounds[|rounds| - 1].chores, before.draining);
      } else {
        TurnValid(start, before, rounds[|rounds| - 1]);
      }
    }
  }

  // ---------- theorems ----------

  /** Two records of one batch. */
  ghost predicate TwoRecords(buf: Buffer, b: nat) {
    exists m, n :: 0 <= m < n < |buf.stored| && buf.stored[m] == b && buf.stored[n] == b
  }

  lemma RepeatedIff(start: nat, buf: Buffer, b: nat)
    requires Ordered(start, buf)
    ensures Repeated(buf, b) <==> TwoRecords(buf, b)
  {
    if m, n :| 0 <= m < n < |buf.stored| && buf.stored[m] == b && buf.stored[n] == b {
      Rising(start, buf, m, n);
    }
    if n: nat :| Twice(buf, n, b) {
      assert buf.stored[n] == b && buf.stored[n + 1] == b;
    }
  }

  lemma {:induction false} NoneSkipped(start: nat, buf: Buffer, b: nat, n: nat)
    requires Ordered(start, buf) && n < |buf.stored| && b <= buf.stored[n]
    ensures Recorded(buf, b)
  {
    if buf.stored[n] != b {
      if n <= start {
        assert buf.stored[b] == b;
      } else {
        assert Follows(buf, n - 1);
        NoneSkipped(start, buf, b, n - 1);
      }
    }
  }

  lemma {:induction false} Known(start: nat, buf: Buffer, b: nat)
    requires Ordered(start, buf)
    ensures Recorded(buf, b) <==> b <= Last(buf)
  {
    if b <= Last(buf) {
      NoneSkipped(start, buf, b, |buf.stored| - 1);
    }
    if Recorded(buf, b) {
      var n :| 0 <= n < |buf.stored| && buf.stored[n] == b;
      if n < |buf.stored| - 1 {
        Rising(start, buf, n, |buf.stored| - 1);
      }
    }
  }

  /** Where batch `b` is. */
  ghost predicate Placed(l: Loop, b: nat) {
    var held := InHands(HandsOf(l), b);
    && (Recorded(l.buf, b) || held)
    && (held ==> b == l.next - 1 && (Recorded(l.buf, b) <==> b in l.buf.late))
    && (TwoRecords(l.buf, b) ==> b in l.undercut)
    && (b in l.undercut && !held ==> TwoRecords(l.buf, b))
    && (forall m, n :: 0 <= m < n < |l.buf.stored| && l.buf.stored[m] == l.buf.stored[n] == b ==> m !in l.buf.live)
  }

  lemma SoundPlaced(start: nat, l: Loop, b: nat)
    requires Sound(start, l) && b < l.next
    ensures Placed(l, b)
  {
    assert Account(l.next, l.buf, HandsOf(l), l.undercut, b);
    RepeatedIff(start, l.buf, b);
    Known(start, l.buf, b);
    forall m, n | 0 <= m < n < |l.buf.stored| && l.buf.stored[m] == l.buf.stored[n] == b ensures m !in l.buf.live {
      Rising(start, l.buf, m, n);
    }
  }

  /** After any rounds, every batch taken has a record in the log or is in the retry slot, the lost queue
      or dropped, and only the newest one can be in hand. It is both in hand and recorded exactly if a
      push the loop had given up waiting for was written. A batch no longer in hand has more than one
      record exactly if the loop deleted a record of it, on the broker's acknowledgement, while its slot
      held the batch. Only the last record of a batch can be undeleted. */
  lemma InOnePlace(start: nat, end: nat, room: nat, rounds: seq<Round>, b: nat)
    requires start <= end && b < Ran(Started(start, end, room), rounds).next
    ensures Placed(Ran(Started(start, end, room), rounds), b)
  {
    RunValid(start, end, room, rounds);
    SoundPlaced(start, Ran(Started(start, end, room), rounds), b);
  }

  /** The log holds the records found at start and then the batches in order of arrival, none skipped and
      all but the newest for certain; what was deleted was acknowledged. */
  ghost predicate InOrder(start: nat, l: Loop) {
    && start <= |l.buf.stored| && (forall n :: 0 <= n < start ==> l.buf.stored[n] == n)
    && (forall m, n :: 0 <= m <= n < |l.buf.stored| ==> l.buf.stored[m] <= l.buf.stored[n] < l.next)
    && (forall b: nat :: b < l.next - 1 ==> Recorded(l.buf, b))
    && (forall n :: 0 <= n < |l.buf.stored| && n !in l.buf.live ==> n in l.pubacked)
  }

  lemma SoundInOrder(start: nat, l: Loop)
    requires Sound(start, l)
    ensures InOrder(start, l)
  {
    forall m, n | 0 <= m <= n < |l.buf.stored| ensures l.buf.stored[m] <= l.buf.stored[n] < l.next {
      if m < n {
        Rising(start, l.buf, m, n);
      }
      if n < |l.buf.stored| - 1 {
        Rising(start, l.buf, n, |l.buf.stored| - 1);
      }
    }
    forall b: nat | b < l.next - 1 ensures Recorded(l.buf, b) {
      Known(start, l.buf, b);
    }
  }

  lemma LogInOrder(start: nat, end: nat, room: nat, rounds: seq<Round>)
    requires start <= end
    ensures InOrder(start, Ran(Started(start, end, room), rounds))
  {
    RunValid(start, end, room, rounds);
    SoundInOrder(start, Ran(Started(start, end, room), rounds));
  }

  // ---------- a run that writes a batch twice ----------

  const TAKES := Round(
    [], false, false, Late(true), seq(PUSH_TRANSIENT_RETRIES + 1, n => Late(true)), [], false, Interrupted,
    FromPipeline)
  const HANDS_OUT := TAKES.(nextChores := [Serve(Lands), Serve(Lands)], publish := Acknowledged(true, Stalls))
  const PUSHES_AGAIN := TAKES.(retryWait := Answered(Lands))

  lemma BothServed()
    ensures Worked(Buffer([], {}, {}, None, [0, 0], {}), [Serve(Lands), Serve(Lands)])
         == Buffer([0], {0}, {}, None, [], {0})
  {
    var pushed := Buffer([], {}, {}, None, [0, 0], {});
    var once := Buffer([0], {0}, {}, None, [0], {0});
    assert Served(pushed, Lands) == once;
    assert once.stored[0] == 0 && Present(once.(queued := []), 0);
    assert Served(once, Lands) == once.(queued := []);
    var chores := [Serve(Lands), Serve(Lands)];
    assert chores[1..] == [Serve(Lands)] && chores[1..][1..] == [];
    assert Worked(once, chores[1..]) == once.(queued := []);
  }

  function HoldingFirst(room: nat): Loop {
    Started(0, 1, room).(next := 1, retry := Some(0), buf := Buffer([], {}, {}, None, [0], {}))
  }

  lemma FirstHeld(room: nat)
    ensures Turned(Started(0, 1, room), TAKES) == HoldingFirst(room)
  {
    var l0, l1 := Started(0, 1, room), HoldingFirst(room);
    assert l0.buf.stored == [] && l0.buf.live == {};
    assert WaitAt(TAKES.pushes, 3) == Late(true) && l0.buf.queued + [0] == [0];
    assert PushCall(l0.buf, 0, Late(true)) == (l1.buf, TimedOut);
    assert PushedBatch(l0.buf, 0, TAKES, 3) == (l1.buf, PushOverflow);
  }

  lemma HandedOut(l: Loop)
    requires l.buf == Buffer([], {}, {}, None, [0, 0], {}) && l.retry == Some(0) && l.undercut == {}
    ensures var (after, outcome) := PublishedHead(l, HANDS_OUT);
            && outcome == Went && after.retry == Some(0) && after.exited == l.exited
            && after.buf == Buffer([0], {}, {}, None, [], {0}) && after.undercut == {0}
  {
    BothServed();
    var served := l.(buf := Buffer([0], {0}, {}, None, [], {0}));
    assert served.buf.live - served.buf.inflight == {0};
    assert Published(served, 0, Acknowledged(true, Stalls)).0.buf == Buffer([0], {}, {}, None, [], {0});
  }

  /** The disk stalls. The first batch's push times out and so does its retry. The call for the next
      record is served behind both, so it hands out this batch; the broker acknowledges it. */
  lemma DeletedInSlot(room: nat)
    ensures var l := Turned(HoldingFirst(room), HANDS_OUT);
            l.retry == Some(0) && l.buf == Buffer([0], {}, {}, None, [], {0}) && l.undercut == {0} && !l.exited
  {
    var l1 := HoldingFirst(room);
    var pushed := l1.(buf := Buffer([], {}, {}, None, [0, 0], {}));
    assert l1.buf.queued + [0] == [0, 0];
    assert PushCall(l1.buf, 0, Late(true)) == (pushed.buf, TimedOut);
    HandedOut(pushed);
    assert Retried(l1, HANDS_OUT) == PublishedHead(pushed, HANDS_OUT).0;
  }

  lemma SecondWrite(l: Loop)
    requires l.retry == Some(0) && l.buf == Buffer([0], {}, {}, None, [], {0}) && !l.exited
    ensures Turned(l, PUSHES_AGAIN).buf == Buffer([0, 0], {1}, {}, None, [], {0}) && Turned(l, PUSHES_AGAIN).retry.None?
  {
    assert Worked(l.buf, []) == l.buf;
    assert !Present(l.buf, 0);
    assert l.buf.stored + [0] == [0, 0] && l.buf.live + {1} == {1};
    assert Push(l.buf, 0, Lands) == (Buffer([0, 0], {1}, {}, None, [], {0}), Stored);
  }

  lemma RanThrice(l: Loop, a: Round, b: Round, c: Round)
    requires !l.exited && !Turned(l, a).exited && !Turned(Turned(l, a), b).exited
    ensures Ran(l, [a, b, c]) == Turned(Turned(Turned(l, a), b), c)
  {
    var rounds := [a, b, c];
    assert rounds[..2] == [a, b] && [a, b][..1] == [a] && [a][..0] == [];
    assert Ran(l, [a]) == Turned(l, a);
    assert Ran(l, [a, b]) == Turned(Turned(l, a), b);
  }

  /** The loop then writes it a second time. */
  lemma WrittenTwice(room: nat)
    ensures var l := Ran(Started(0, 1, room), [TAKES, HANDS_OUT, PUSHES_AGAIN]);
            l.buf.stored == [0, 0] && l.buf.live == {1} && l.retry.None?
  {
    FirstHeld(room);
    DeletedInSlot(room);
    SecondWrite(Turned(HoldingFirst(room), HANDS_OUT));
    RanThrice(Started(0, 1, room), TAKES, HANDS_OUT, PUSHES_AGAIN);
  }

  // ---------- the loop as it runs ----------

  lemma ReceivedByPushing(l: Loop, r: Round, buf: Buffer, result: PushResult)
    requires l.next < l.end && (buf, result) == PushedBatch(l.buf, l.next, r, l.retries)
    ensures Received(l, r) == Taken(l, buf, result)
  {
  }

  /** The loop's variables, changed in place; `Now` is their value. */
  class Forwarder {
    const end: nat
    const retries: nat
    var next: nat
    var buf: Buffer
    var draining: bool
    var outClosed: bool
    var suspended: bool
    var exited: bool
    var retry: Option<nat>
    var lost: seq<nat>
    var room: nat
    var dropped: seq<nat>
    ghost var pubacked: set<nat>
    ghost var undercut: set<nat>
    ghost var interrupted: bool

    ghost function Now(): Loop
      reads this
    {
      Loop(next, end, retries, buf, draining, outClosed, suspended, exited, retry, lost, room, dropped,
           pubacked, undercut, interrupted)
    }

    constructor (start: nat, end: nat, room: nat)
      requires start <= end
      ensures Now() == Started(start, end, room)
    {
      this.next, this.end, this.retries, this.room := start, end, PUSH_TRANSIENT_RETRIES, room;
      buf := Buffer(seq(start, n => n), UpTo(start), {}, None, [], {});
      draining, outClosed, suspended, exited := false, false, false, false;
      retry, lost, dropped := None, [], [];
      pubacked, undercut, interrupted := {}, {}, false;
    }

    method SettleLost(b: nat)
      modifies this`lost, this`room, this`dropped
      ensures Now() == SettledLost(old(Now()), b)
    {
      if room > 0 {
        lost, room := lost + [b], room - 1;
      } else {
        dropped := dropped + [b];
      }
    }

    /** Repeats disk errors a few times; a batch that cannot be written goes to the lost queue. */
    method PushBatch(b: nat, r: Round) returns (result: PushResult)
      modifies this`buf, this`lost, this`room, this`dropped
      ensures (buf, result) == PushedBatch(old(buf), b, r, retries)
      ensures Now() == Pushed(old(Now()), b, buf, result)
    {
      var left := retries;
      while true
        invariant left >= 0 && PushedBatch(buf, b, r, left) == PushedBatch(old(buf), b, r, retries)
        decreases left
        modifies this`buf
      {
        var (buf', reply) := PushCall(buf, b, WaitAt(r.pushes, left));
        buf := buf';
        match reply {
          case Stored => return PushStored;
          case TimedOut => return PushOverflow;
          case Transient =>
            if left == 0 {
              break;
            }
            left := left - 1;
          case Permanent => break;
        }
      }
      SettleLost(b);
      return PushFatal;
    }

    method Receive(r: Round)
      modifies this`next, this`buf, this`outClosed, this`retry, this`lost, this`room, this`dropped, this`exited
      ensures Now() == Received(old(Now()), r)
    {
      if next >= end {
        outClosed := true;
      } else {
        var result := Take(r);
        ReceivedByPushing(old(Now()), r, buf, result);
      }
    }

    /** Takes the next batch; one that has to wait goes into the slot. */
    method Take(r: Round) returns (result: PushResult)
      modifies this`next, this`buf, this`retry, this`lost, this`room, this`dropped, this`exited
      ensures (buf, result) == PushedBatch(old(buf), old(next), r, retries)
      ensures Now() == Taken(old(Now()), buf, result)
    {
      var b := next;
      next := next + 1;
      result := PushBatch(b, r);
      match result
      case PushStored =>
      case PushFatal => exited := true;
      case PushOverflow => retry := Some(b);
    }

    method Exit()
      modifies this`retry, this`lost, this`room, this`dropped, this`exited
      ensures Now() == Exited(old(Now()))
    {
      if retry.Some? {
        SettleLost(retry.value);
        retry := None;
      }
      exited := true;
    }

    method Ask() returns (head: Option<nat>)
      ensures head == Head(buf)
    {
      if buf.live - buf.inflight == {} {
        return None;
      }
      ghost var some :| some in buf.live - buf.inflight;
      HasHead(buf, some);
      var n :| n in buf.live - buf.inflight && IsHead(buf, n);
      return Some(n);
    }

    /** Asks for the oldest record not in flight, and publishes it. */
    method PublishHead(r: Round) returns (outcome: Outcome)
      modifies this`buf, this`pubacked, this`undercut, this`interrupted
      ensures (Now(), outcome) == PublishedHead(old(Now()), r)
    {
      buf := Worked(buf, r.nextChores);
      if r.nextFails || buf.queued != [] {
        return NotRead;
      }
      var head := Ask();
      if head.None? {
        return NoRecord;
      }
      var n := head.value;
      buf := buf.(inflight := buf.inflight + {n});
      match r.publish {
        case Acknowledged(deleted, flush) =>
          pubacked := pubacked + {n};
          if deleted {
            if n < |buf.stored| && retry == Some(buf.stored[n]) {
              undercut := undercut + {buf.stored[n]};
            }
            buf := Ack(buf, n, flush);
          }
          return Went;
        case Failed(restored) =>
          if restored {
            buf := Requeue(buf, n);
          }
          return Went;
        case Interrupted =>
          interrupted := true;
          return StopTaking;
      }
    }

    method RetryRound(r: Round)
      requires retry.Some?
      modifies this
      ensures Now() == Retried(old(Now()), r)
    {
      var (buf', reply) := PushCall(buf, retry.value, r.retryWait);
      buf := buf';
      if reply.Stored? {
        retry := None;
      } else if !reply.TimedOut? {
        Exit();
      } else if !suspended {
        var outcome := PublishHead(r);
        if outcome.StopTaking? {
          suspended := true;
        }
      }
    }

    method ActiveRound(r: Round)
      modifies this
      ensures Now() == Activated(old(Now()), r)
    {
      if outClosed {
        var outcome := PublishHead(r);
        if outcome.StopTaking? || (outcome.NoRecord? && draining) {
          Exit();
        }
        return;
      }
      match r.pick {
        case Signal =>
        case FromPipeline =>
          Receive(r);
        case FromBuffer(idle) =>
          var outcome := PublishHead(r);
          if outcome.StopTaking? {
            suspended := true;
          } else if outcome.NoRecord? && !draining && idle {
            Receive(r);
          }
      }
    }

    method Turn(r: Round)
      modifies this
      ensures Now() == Turned(old(Now()), r)
    {
      buf := Worked(buf, r.chores);
      if !draining && r.stop {
        draining := true;
      }
      if draining && r.expired {
        Exit();
      } else if retry.Some? {
        RetryRound(r);
      } else if suspended {
        if next >= end {
          Exit();
        } else {
          Receive(r);
        }
      } else {
        ActiveRound(r);
      }
    }
  }

  /** A whole run of the loop over any rounds is the run of the specification, so that its accounts and
      the order of its log are right at the end. */
  method Run(start: nat, end: nat, room: nat, rounds: seq<Round>) returns (f: Forwarder)
    requires start <= end
    ensures fresh(f) && f.Now() == Ran(Started(start, end, room), rounds)
    ensures Valid(start, f.Now()) && InOrder(start, f.Now()) && forall b: nat :: b < f.next ==> Placed(f.Now(), b)
  {
    f := new Forwarder(start, end, room);
    var n := 0;
    while n < |rounds|
      invariant 0 <= n <= |rounds| && fresh(f) && f.Now() == Ran(Started(start, end, room), rounds[..n])
    {
      assert rounds[..n + 1][..n] == rounds[..n];
      if f.exited {
        f.buf := Worked(f.buf, rounds[n].chores);
      } else {
        f.Turn(rounds[n]);
      }
      n := n + 1;
    }
    assert rounds[..n] == rounds;
    RunValid(start, end, room, rounds);
    LogInOrder(start, end, room, rounds);
    forall b: nat | b < f.next ensures Placed(f.Now(), b) {
      InOnePlace(start, end, room, rounds, b);
    }
  }
}
