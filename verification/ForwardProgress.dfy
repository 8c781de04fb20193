/** What a turn of the forward loop gets done: which record it publishes, which batch it takes or writes, and
    that a drain with a willing broker ends with everything acknowledged. */
module ForwardProgress {
  import opened ControlTypes
  import opened Forwarding

  /** The turn goes on past the drain deadline. */
  predicate Proceeds(l: Loop, r: Round) {
    !l.exited && !((l.draining || r.stop) && r.expired)
  }

  /** Nothing is in the retry slot and publishing is not suspended. */
  predicate Active(l: Loop) {
    l.retry.None? && !l.suspended
  }

  /** Records that were not deleted and are not in flight. */
  function Unsent(buf: Buffer): set<nat> {
    buf.live - buf.inflight
  }

  // ---------- publishing ----------

  /** Record `n` was published with this outcome: on an acknowledgement it counts as acknowledged, and is
      deleted if the buffer managed that; a failed publish leaves it, ready to be sent again if it was put
      back; an interrupted one leaves it in flight and the loop takes no more. */
  predicate Sent(before: Loop, n: nat, publish: Publish, after: Loop) {
    match publish
    case Acknowledged(deleted, _) =>
      && after.pubacked == before.pubacked + {n}
      && if deleted then n !in after.buf.live else n in after.buf.live && n in after.buf.inflight
    case Failed(restored) =>
      && after.pubacked == before.pubacked && n in after.buf.live
      && (n in after.buf.inflight <==> !restored)
    case Interrupted =>
      && after.pubacked == before.pubacked && n in after.buf.live && n in after.buf.inflight
      && (after.suspended || after.exited)
  }

  /** The buffer has nothing queued and `n` is the oldest record it may hand out. */
  ghost predicate Oldest(buf: Buffer, n: nat) {
    buf.queued == [] && n < |buf.stored| && n in Unsent(buf) && forall m :: m in Unsent(buf) ==> n <= m
  }

  lemma OldestIsHead(buf: Buffer, n: nat)
    requires Oldest(buf, n)
    ensures Head(buf) == Some(n)
  {
    assert IsHead(buf, n);
  }

  /** A turn that asks the buffer, and is answered, publishes the oldest record not in flight. */
  lemma TurnPublishes(l: Loop, r: Round, n: nat)
    requires Proceeds(l, r) && Active(l) && (l.outClosed || r.pick.FromBuffer?) && !r.nextFails
    requires Oldest(Worked(Worked(l.buf, r.chores), r.nextChores), n)
    ensures Sent(l, n, r.publish, Turned(l, r)) && Turned(l, r).next == l.next
  {
    OldestIsHead(Worked(Worked(l.buf, r.chores), r.nextChores), n);
  }

  /** A turn that asks and finds nothing ends the loop if it drains a closed pipeline, and otherwise waits. */
  lemma TurnFindsNothing(l: Loop, r: Round)
    requires Proceeds(l, r) && Active(l) && l.outClosed && !r.nextFails
    requires var buf := Worked(Worked(l.buf, r.chores), r.nextChores);
             buf.queued == [] && Unsent(buf) == {}
    ensures Turned(l, r).pubacked == l.pubacked && Turned(l, r).next == l.next
    ensures Turned(l, r).exited <==> l.draining || r.stop
  {
  }

  // ---------- taking a batch ----------

  /** The buffer can answer, and does not know batch `b` yet. */
  predicate Unknown(buf: Buffer, b: nat) {
    buf.queued == [] && (buf.waiting.Some? || !Present(buf, b))
  }

  predicate Timely(buf: Buffer, wait: Wait) {
    wait.Answered? && buf.queued == []
  }

  /** Batch `b` has the log's next record. */
  predicate Written(buf: Buffer, b: nat, after: Loop) {
    after.buf.stored == buf.stored + [b] && |buf.stored| in after.buf.live && after.retry.None?
  }

  /** Batch `b` is in the lost queue, or dropped if that had no room, and the loop is over. */
  predicate Lost(room: nat, b: nat, after: Loop) {
    after.exited && b in if room > 0 then after.lost else after.dropped
  }

  lemma FirstPush(buf: Buffer, b: nat, r: Round, left: nat)
    ensures var wait, pushed := WaitAt(r.pushes, left), PushedBatch(buf, b, r, left);
            && (!Timely(buf, wait) ==> pushed.1 == PushOverflow)
            && (wait == Answered(Stalls) && Unknown(buf, b) ==> pushed.1 == PushOverflow)
            && (wait == Answered(Lands) && Unknown(buf, b) ==> pushed == (Append(buf, b), PushStored))
            && (wait == Answered(Refuses) && Unknown(buf, b) ==> pushed.1 == PushFatal)
  {
  }

  lemma TakesNext(l: Loop, r: Round)
    requires l.next < l.end && l.retry.None?
    ensures var wait, after := WaitAt(r.pushes, l.retries), Received(l, r);
            && after.next == l.next + 1 && after.pubacked == l.pubacked
            && (!Timely(l.buf, wait) ==> after.retry == Some(l.next))
            && (wait == Answered(Stalls) && Unknown(l.buf, l.next) ==> after.retry == Some(l.next))
            && (wait == Answered(Lands) && Unknown(l.buf, l.next) ==> Written(l.buf, l.next, after))
            && (wait == Answered(Refuses) && Unknown(l.buf, l.next) ==> Lost(l.room, l.next, after))
  {
    FirstPush(l.buf, l.next, r, l.retries);
    var pushed := PushedBatch(l.buf, l.next, r, l.retries);
    assert Received(l, r) == Taken(l, pushed.0, pushed.1);
  }

  /** A turn that listens to the pipeline takes the next batch and offers it to the buffer, or learns that
      there is none. */
  lemma TurnTakes(l: Loop, r: Round)
    requires Proceeds(l, r) && l.retry.None?
    requires (l.suspended && l.next < l.end) || (!l.suspended && !l.outClosed && r.pick.FromPipeline?)
    ensures Turned(l, r).pubacked == l.pubacked
    ensures l.next >= l.end ==> Turned(l, r).next == l.next && Turned(l, r).outClosed && !Turned(l, r).exited
    ensures l.next < l.end ==>
              var buf, wait := Worked(l.buf, r.chores), WaitAt(r.pushes, l.retries);
              && Turned(l, r).next == l.next + 1
              && (!Timely(buf, wait) ==> Turned(l, r).retry == Some(l.next))
              && (wait == Answered(Stalls) && Unknown(buf, l.next) ==> Turned(l, r).retry == Some(l.next))
              && (wait == Answered(Lands) && Unknown(buf, l.next) ==> Written(buf, l.next, Turned(l, r)))
              && (wait == Answered(Refuses) && Unknown(buf, l.next) ==> Lost(l.room, l.next, Turned(l, r)))
  {
    var l' := l.(buf := Worked(l.buf, r.chores), draining := l.draining || r.stop);
    assert Turned(l, r) == Received(l', r);
    if l.next < l.end {
      TakesNext(l', r);
    }
  }

  /** After a disk error the batch is offered again, `retries` times, and then given up. */
  lemma {:induction false} DiskErrors(buf: Buffer, b: nat, r: Round, left: nat)
    requires buf.queued == [] && buf.waiting.None? && !Present(buf, b)
    requires forall n :: 0 <= n <= left ==> WaitAt(r.pushes, n) == Answered(DiskError)
    ensures PushedBatch(buf, b, r, left) == (buf, PushFatal)
  {
    if left > 0 {
      DiskErrors(buf, b, r, left - 1);
    }
  }

  /** A turn with a batch in the slot offers that batch before anything else. The slot is free once it is
      written; while it is not, the batch stays and the oldest record is published to make room. */
  lemma TurnRetries(l: Loop, r: Round)
    requires Proceeds(l, r) && l.retry.Some?
    ensures Turned(l, r).next == l.next
    ensures var buf, b := Worked(l.buf, r.chores), l.retry.value;
            && (r.retryWait == Answered(Lands) && Unknown(buf, b) ==> Written(buf, b, Turned(l, r)))
            && (r.retryWait == Answered(Refuses) && Unknown(buf, b) ==> Lost(l.room, b, Turned(l, r)))
            && (!Timely(buf, r.retryWait) || (r.retryWait == Answered(Stalls) && Unknown(buf, b)) ==>
                  Turned(l, r).retry == Some(b) && !Turned(l, r).exited)
  {
    var buf := Worked(l.buf, r.chores);
    var l' := l.(buf := buf, draining := l.draining || r.stop);
    assert Turned(l, r) == Retried(l', r);
    var pushed := PushCall(buf, l.retry.value, r.retryWait);
    if pushed.1.TimedOut? {
      PublishKeeps(l'.(buf := pushed.0), r);
    }
  }

  lemma PublishKeeps(l: Loop, r: Round)
    ensures var after := PublishedHead(l, r).0;
            after.retry == l.retry && after.next == l.next && after.exited == l.exited
  {
    var l' := l.(buf := Worked(l.buf, r.nextChores));
    var head := Head(l'.buf);
    if head.Some? {
      SendKeeps(l', head.value, r.publish);
    }
  }

  lemma SendKeeps(l: Loop, n: nat, publish: Publish)
    ensures var after := Published(l, n, publish).0;
            after.retry == l.retry && after.next == l.next && after.exited == l.exited
  {
  }

  lemma RetryPublishes(l: Loop, r: Round, n: nat)
    requires Proceeds(l, r) && l.retry.Some? && !l.suspended && !r.nextFails
    requires PushCall(Worked(l.buf, r.chores), l.retry.value, r.retryWait).1.TimedOut?
    requires Oldest(Worked(PushCall(Worked(l.buf, r.chores), l.retry.value, r.retryWait).0, r.nextChores), n)
    ensures Sent(l, n, r.publish, Turned(l, r)) && Turned(l, r).next == l.next && Turned(l, r).retry == l.retry
  {
    OldestIsHead(Worked(PushCall(Worked(l.buf, r.chores), l.retry.value, r.retryWait).0, r.nextChores), n);
  }

  /** Past the drain deadline the loop ends, and what it held in the slot is in the lost queue, or
      dropped if that is full. */
  lemma TurnExpires(l: Loop, r: Round)
    requires (l.draining || r.stop) && r.expired
    ensures Turned(l, r).exited && Turned(l, r).retry.None? && Turned(l, r).next == l.next
    ensures l.retry.Some? ==> l.retry.value in if l.room > 0 then Turned(l, r).lost else Turned(l, r).dropped
  {
  }

  /** A push the loop has given up waiting for is still written: by the buffer's turn to serve it, if it is
      not there yet, or once there is room for it. */
  lemma BufferWrites(buf: Buffer)
    ensures buf.queued != [] && (buf.waiting.Some? || !Present(buf, buf.queued[0])) ==>
              var after := Served(buf, Lands);
              && after.stored == buf.stored + [buf.queued[0]] && |buf.stored| in after.live
              && after.queued == buf.queued[1..] && buf.queued[0] in after.late
    ensures buf.waiting.Some? ==>
              var after := Flushed(buf, Lands);
              && after.stored == buf.stored + [buf.waiting.value] && |buf.stored| in after.live
              && after.waiting.None? && buf.waiting.value in after.late
  {
    if buf.queued != [] && buf.waiting.None? {
      SamePresence(buf, buf.queued[0]);
    }
  }

  lemma SamePresence(buf: Buffer, b: nat)
    requires buf.queued != []
    ensures Present(buf.(queued := buf.queued[1..]), b) <==> Present(buf, b)
  {
    var popped := buf.(queued := buf.queued[1..]);
    assert popped.stored == buf.stored && popped.live == buf.live;
  }

  // ---------- a drain with a willing broker ----------

  /** The buffer is idle, nothing fails, and the broker acknowledges. */
  predicate Willing(r: Round) {
    && r.chores == [] && r.nextChores == [] && !r.nextFails && !r.expired
    && r.publish.Acknowledged? && r.publish.deleted
  }

  /** The pipeline has closed, a stop was asked for, and nothing holds the loop up. */
  predicate Draining(l: Loop) {
    l.draining && l.outClosed && Active(l) && l.buf.queued == []
  }

  predicate Placed(buf: Buffer) {
    forall n :: n in buf.live ==> n < |buf.stored|
  }

  /** What is left to publish: the unsent records and perhaps a push that waits for room. */
  function Left(buf: Buffer): nat {
    |Unsent(buf)| + if buf.waiting.Some? then 1 else 0
  }

  lemma FlushLeft(buf: Buffer, fate: Fate)
    requires Placed(buf)
    ensures Left(Flushed(buf, fate)) <= Left(buf) && Unsent(buf) <= Unsent(Flushed(buf, fate))
    ensures Placed(Flushed(buf, fate)) && Flushed(buf, fate).queued == buf.queued
  {
    var next := Flushed(buf, fate);
    if next != buf && fate.Lands? {
      assert Unsent(next) <= Unsent(buf) + {|buf.stored|};
      SubsetSize(Unsent(next), Unsent(buf) + {|buf.stored|});
    }
  }

  lemma SubsetSize(a: set<nat>, b: set<nat>)
    requires a <= b
    ensures |a| <= |b|
  {
    assert b == a + (b - a);
  }

  /** Of the records unsent in `before` each is still unsent, or acknowledged, in `after`. */
  ghost predicate Moved(before: Loop, after: Loop) {
    && before.pubacked <= after.pubacked
    && forall n :: n in Unsent(before.buf) ==> n in Unsent(after.buf) || n in after.pubacked
  }

  /** A willing round publishes one record, or ends the loop if there is none. */
  lemma DrainTurn(l: Loop, r: Round)
    requires Draining(l) && Willing(r) && !l.exited && Placed(l.buf)
    ensures Moved(l, Turned(l, r))
    ensures Unsent(l.buf) == {} ==> Turned(l, r).exited && Unsent(Turned(l, r).buf) == {}
    ensures Unsent(l.buf) != {} ==>
              && Draining(Turned(l, r)) && !Turned(l, r).exited && Placed(Turned(l, r).buf)
              && Left(Turned(l, r).buf) < Left(l.buf)
  {
    if Unsent(l.buf) != {} {
      var n := Head(l.buf).value;
      var flying := l.buf.(inflight := l.buf.inflight + {n});
      var gone := flying.(live := flying.live - {n}, inflight := flying.inflight - {n});
      assert Unsent(gone) == Unsent(l.buf) - {n};
      assert Turned(l, r).buf == Flushed(gone, r.publish.flush);
      FlushLeft(gone, r.publish.flush);
    }
  }

  lemma {:induction false} DrainRounds(l: Loop, rounds: seq<Round>)
    requires Draining(l) && !l.exited && Placed(l.buf)
    requires forall k :: 0 <= k < |rounds| ==> Willing(rounds[k])
    ensures var m := Ran(l, rounds);
            && Moved(l, m)
            && if m.exited then Unsent(m.buf) == {}
               else Draining(m) && Placed(m.buf) && Left(m.buf) + |rounds| <= Left(l.buf)
  {
    if rounds != [] {
      var before, last := rounds[..|rounds| - 1], rounds[|rounds| - 1];
      DrainRounds(l, before);
      var m := Ran(l, before);
      if !m.exited {
        DrainTurn(m, last);
      }
    }
  }

  /** Once the pipeline has closed and a stop was asked for, more willing rounds than there are records left
      end the loop with every record of the log acknowledged or still in flight from before. */
  lemma DrainCompletes(start: nat, l: Loop, rounds: seq<Round>)
    requires Valid(start, l) && Draining(l) && !l.exited
    requires |rounds| > Left(l.buf) && forall k :: 0 <= k < |rounds| ==> Willing(rounds[k])
    ensures var m := Ran(l, rounds);
            && m.exited && Unsent(m.buf) == {}
            && forall n :: n in Unsent(l.buf) ==> n in m.pubacked
  {
    DrainRounds(l, rounds);
  }
}
