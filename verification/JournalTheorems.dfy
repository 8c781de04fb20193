/** Why a restart can trust the journal file. */
module JournalTheorems {
  import opened ControlTypes
  import opened Journal

  // ---------- a compacted file, in any order, replays to the map it was written from ----------

  ghost predicate CompactScan(entries: map<Key, Entry>, order: seq<Key>, now: int)
    requires forall k :: k in order ==> k in entries
  {
    var scan := Replay(CompactLog(entries, order), now);
    && scan.Scanning?
    && (forall k :: k in scan.entries <==> k in order && entries[k].expiresAt >= now)
    && (forall k :: k in scan.entries ==> scan.entries[k] == entries[k])
    && (forall k :: k in scan.expired
                    <==> k in order && entries[k].expiresAt < now && entries[k].result.None?)
  }

  /** What the lines of one entry do to a scan that has not met its key. */
  function Entered(scan: Scan, e: Entry, now: int): Scan
    requires scan.Scanning?
  {
    if e.expiresAt >= now then scan.(entries := scan.entries[e.key := e])
    else if e.result.None? then scan.(expired := scan.expired + {e.key}, stale := true)
    else scan.(expired := scan.expired - {e.key}, stale := true)
  }

  lemma EntryScans(log: seq<Line>, e: Entry, now: int)
    requires Replay(log, now).Scanning? && e.key !in Replay(log, now).entries
    requires e.result.Some? ==> e.status == e.result.value.status
    ensures Replay(log + EntryLines(e), now) == Entered(Replay(log, now), e, now)
  {
    var scan := Replay(log, now);
    var insert := Rec(InsertRec(e.key, e.hash, e.status, e.createdAt, e.expiresAt));
    ReplayAppend(log, insert, now);
    if e.result.Some? {
      var settle := Rec(SettleRec(e.key, e.result.value));
      ReplayAppend(log + [insert], settle, now);
      assert EntryLines(e) == [insert] + [settle];
      assert log + EntryLines(e) == log + [insert] + [settle];
      assert scan.expired + {e.key} - {e.key} == scan.expired - {e.key};
    } else {
      assert EntryLines(e) == [insert];
    }
  }

  /** Each entry's lines do to the scan what the entry says. */
  lemma CompactEntry(entries: map<Key, Entry>, order: seq<Key>, k: Key, now: int)
    requires WellFormed(entries) && k in entries && k !in order && forall x :: x in order ==> x in entries
    requires CompactScan(entries, order, now)
    ensures CompactScan(entries, order + [k], now)
  {
    CompactLogAppend(entries, order, k);
    EntryScans(CompactLog(entries, order), entries[k], now);
    assert forall x :: x in order + [k] <==> x in order || x == k;
  }

  lemma {:induction false} CompactReplays(entries: map<Key, Entry>, order: seq<Key>, now: int)
    requires WellFormed(entries)
    requires forall k :: k in order ==> k in entries
    requires forall i, j :: 0 <= i < j < |order| ==> order[i] != order[j]
    ensures CompactScan(entries, order, now)
  {
    if order != [] {
      var init, k := order[..|order| - 1], order[|order| - 1];
      assert order == init + [k];
      CompactReplays(entries, init, now);
      CompactEntry(entries, init, k, now);
    }
  }

  lemma CompactFaithful(entries: map<Key, Entry>, order: seq<Key>, now: int)
    requires WellFormed(entries)
    requires Lists(order, entries.Keys)
    ensures Replay(CompactLog(entries, order), now).Scanning?
    ensures Replay(CompactLog(entries, order), now).entries == Unexpired(entries, now)
  {
    CompactReplays(entries, order, now);
  }

  // ---------- every operation keeps the file faithful ----------

  lemma InsertFaithful(s: Store, key: Key, hash: string, created: int, expires: int)
    requires Faithful(s) && created <= s.clock
    ensures Faithful(ApplyInsert(s, key, hash, created, expires))
  {
    var t := ApplyInsert(s, key, hash, created, expires);
    if Decide(s.entries, key, hash, created).Inserted? {
      forall now | now >= t.clock ensures ReplaysAt(t, now) {
        assert ReplaysAt(s, now);
        ReplayAppend(s.log, Rec(InsertRec(key, hash, Running, created, expires)), now);
        assert key !in Unexpired(s.entries, now);
      }
    }
  }

  lemma SettleFaithful(s: Store, key: Key, r: ControlResult)
    requires Faithful(s)
    ensures Faithful(ApplySettle(s, key, r))
  {
    var t := ApplySettle(s, key, r);
    if key in s.entries {
      forall now | now >= t.clock ensures ReplaysAt(t, now) {
        assert ReplaysAt(s, now);
        ReplayAppend(s.log, Rec(SettleRec(key, r)), now);
        var scan := Replay(s.log, now);
        assert scan.Scanning? ==> (key in scan.entries <==> key in Unexpired(s.entries, now));
      }
    }
  }

  lemma PurgeFaithful(s: Store, at: int, rewrite: Option<seq<Key>>)
    requires Faithful(s) && Enabled(s, Purge(at, rewrite))
    ensures Faithful(ApplyPurge(s, at, rewrite))
  {
    var t := ApplyPurge(s, at, rewrite);
    var kept := Unexpired(s.entries, at);
    forall now | now >= t.clock ensures ReplaysAt(t, now) {
      assert ReplaysAt(s, now);
      assert Unexpired(kept, now) == Unexpired(s.entries, now);
      if rewrite.Some? && kept != s.entries {
        assert kept.Keys == Live(s.entries, at);
        CompactFaithful(kept, rewrite.value, now);
      }
    }
  }

  lemma RecoverAlike(e: Entry, f: Entry, at: int)
    requires Alike(e, f)
    ensures Alike(RecoverEntry(e, at), f)
  {
  }

  lemma RecoveredAlike(
    old_: map<Key, Entry>, then_: map<Key, Entry>, at: int, later: map<Key, Entry>, now: int)
    requires at <= now
    requires AllAlike(then_, Unexpired(old_, at))
    requires AllAlike(later, Unexpired(old_, now))
    ensures AllAlike(later, Unexpired(Recover(then_, at), now))
  {
    var kept := Recover(then_, at);
    forall k | k in then_ ensures Alike(kept[k], old_[k]) {
      RecoverAlike(then_[k], old_[k], at);
    }
    assert forall k :: k in later <==> k in Unexpired(kept, now);
  }

  lemma ReopenFaithful(s: Store, order: seq<Key>)
    requires Faithful(s) && Enabled(s, Reopen(order))
    ensures Faithful(ApplyReopen(s, order))
  {
    var t := ApplyReopen(s, order);
    var scan := Replay(s.log, s.clock);
    ReplayShape(s.log, s.clock);
    assert ReplaysAt(s, s.clock);
    forall now | now >= t.clock ensures ReplaysAt(t, now) {
      if scan.stale {
        CompactFaithful(t.entries, order, now);
      } else {
        assert ReplaysAt(s, now);
        if Replay(s.log, now).Scanning? {
          RecoveredAlike(s.entries, scan.entries, s.clock, Replay(s.log, now).entries, now);
        }
      }
    }
  }

  /** Whatever the file holds, a replayed entry carries its own key and a status that agrees
      with its result. */
  lemma {:induction false} ReplayShape(log: seq<Line>, now: int)
    ensures Replay(log, now).Scanning? ==> WellFormed(Replay(log, now).entries)
  {
    if log != [] {
      ReplayShape(log[..|log| - 1], now);
    }
  }

  // ---------- no request is inserted again before it expired ----------

  /** An insertion that has not expired yet is the live record of its key. */
  ghost predicate Remembers(s: Store) {
    forall i :: 0 <= i < |s.inserted| ==>
      var ins := s.inserted[i];
      ins.expiresAt >= s.clock ==>
        ins.key in s.entries && s.entries[ins.key].expiresAt == ins.expiresAt
  }

  /** Of two insertions of one key, the later took effect strictly after the earlier expired. */
  ghost predicate Spaced(inserted: seq<Insertion>) {
    forall i, j :: 0 <= i < j < |inserted| && inserted[i].key == inserted[j].key ==>
      inserted[i].expiresAt < inserted[j].at
  }

  ghost predicate Sound(s: Store) {
    Faithful(s) && Remembers(s) && Spaced(s.inserted)
  }

  lemma ReopenRemembers(s: Store, order: seq<Key>)
    requires Faithful(s) && Remembers(s) && Enabled(s, Reopen(order))
    ensures Remembers(ApplyReopen(s, order))
  {
    var t := ApplyReopen(s, order);
    assert ReplaysAt(s, s.clock);
    forall i | 0 <= i < |t.inserted| && t.inserted[i].expiresAt >= t.clock
      ensures t.inserted[i].key in t.entries
      ensures t.entries[t.inserted[i].key].expiresAt == t.inserted[i].expiresAt
    {
      var key := s.inserted[i].key;
      assert key in Unexpired(s.entries, s.clock);
      assert Alike(Replay(s.log, s.clock).entries[key], s.entries[key]);
    }
  }

  lemma StepSound(s: Store, op: Op)
    requires Sound(s) && Enabled(s, op)
    ensures Sound(Apply(s, op))
  {
    match op
    case Wait(until) =>
      forall now | now >= until ensures ReplaysAt(Apply(s, op), now) {
        assert ReplaysAt(s, now);
      }
    case Insert(key, hash, created, expires) => InsertFaithful(s, key, hash, created, expires);
    case Settle(key, r) => SettleFaithful(s, key, r);
    case WriteFails =>
    case Purge(now, rewrite) => PurgeFaithful(s, now, rewrite);
    case Reopen(order) =>
      ReopenFaithful(s, order);
      ReopenRemembers(s, order);
  }

  lemma {:induction false} ExecSound(start: int, ops: seq<Op>)
    requires Exec(start, ops).Some?
    ensures Sound(Exec(start, ops).value)
  {
    if ops == [] {
      var s := Exec(start, ops).value;
      assert forall now :: ReplaysAt(s, now);
    } else {
      ExecSound(start, ops[..|ops| - 1]);
      StepSound(Exec(start, ops[..|ops| - 1]).value, ops[|ops| - 1]);
    }
  }

  /** Across any operations, failed writes, compactions and restarts, a key is never inserted
      again while an earlier insertion of it has not expired. Settling twice does not matter. */
  lemma ReinsertedOnlyAfterExpiry(start: int, ops: seq<Op>, i: nat, j: nat)
    requires Exec(start, ops).Some?
    requires i < j < |Exec(start, ops).value.inserted|
    requires Exec(start, ops).value.inserted[i].key == Exec(start, ops).value.inserted[j].key
    ensures Exec(start, ops).value.inserted[i].expiresAt < Exec(start, ops).value.inserted[j].at
  {
    ExecSound(start, ops);
  }

  // ---------- when a replay can fail ----------

  /** The file's last line about `key` is an insertion. */
  ghost predicate Pending(log: seq<Line>, key: Key) {
    log != [] &&
    var last := log[|log| - 1];
    if last.Rec? && last.record.key == key then last.record.InsertRec?
    else Pending(log[..|log| - 1], key)
  }

  /** Replaying at `now` succeeds, and forgives one settlement exactly for the expired records
      whose settlement the file does not hold yet. */
  ghost predicate CleanAt(s: Store, now: int) {
    var scan := Replay(s.log, now);
    && scan.Scanning?
    && forall k :: k in s.entries && s.entries[k].expiresAt < now ==>
         (k in scan.expired <==> Pending(s.log, k))
  }

  ghost predicate Clean(s: Store) {
    forall now :: now >= s.clock ==> CleanAt(s, now)
  }

  /** The caller's side of it: never settle a record the file already holds a settlement for. */
  ghost predicate SettlesOnce(s: Store, op: Op) {
    op.Settle? && op.key in s.entries ==> Pending(s.log, op.key)
  }

  lemma PendingAppend(log: seq<Line>, line: Line, key: Key)
    requires line.Rec?
    ensures Pending(log + [line], key)
         == if line.record.key == key then line.record.InsertRec? else Pending(log, key)
  {
  }

  /** The file has a record of `key` that has not expired. */
  ghost predicate Alive(log: seq<Line>, key: Key, now: int) {
    exists n :: 0 <= n < |log| && Enters(log[n], key, now)
  }

  predicate Enters(line: Line, key: Key, now: int) {
    line.Rec? && line.record.InsertRec? && line.record.key == key && line.record.expiresAt >= now
  }

  /** Line `n` cannot be replayed: it does not parse, or it settles a key of which there is neither an
      unexpired record before it nor an expired one that waits for its settlement. */
  ghost predicate Offends(log: seq<Line>, n: nat, now: int)
    requires n < |log|
  {
    || log[n].Garbled?
    || (log[n].Rec? && log[n].record.SettleRec?
        && !Alive(log[..n], log[n].record.key, now) && !Pending(log[..n], log[n].record.key))
  }

  ghost predicate ScansWell(log: seq<Line>, now: int) {
    var scan := Replay(log, now);
    scan.Scanning? ==>
      && (forall k :: k in scan.entries <==> Alive(log, k, now))
      && (forall k :: k !in scan.entries ==> (k in scan.expired <==> Pending(log, k)))
  }

  lemma AliveAppend(log: seq<Line>, line: Line, key: Key, now: int)
    ensures Alive(log + [line], key, now) <==> Alive(log, key, now) || Enters(line, key, now)
  {
    var more := log + [line];
    if n :| 0 <= n < |log| && Enters(log[n], key, now) {
      assert more[n] == log[n];
    }
    assert more[|log|] == line;
  }

  lemma LineScansWell(log: seq<Line>, line: Line, now: int)
    requires ScansWell(log, now) && Replay(log, now).Scanning?
    ensures ScansWell(log + [line], now)
    ensures Replay(log + [line], now).Corrupt? <==> Offends(log + [line], |log|, now)
    ensures Replay(log + [line], now).Corrupt? ==> Replay(log + [line], now).line == |log| + 1
  {
    var more := log + [line];
    assert more[..|log|] == log && more[|log|] == line;
    ReplayAppend(log, line, now);
    forall k ensures Alive(more, k, now) <==> Alive(log, k, now) || Enters(line, k, now) {
      AliveAppend(log, line, k, now);
    }
  }

  /** Replaying fails exactly at the first line that offends, and names it. */
  lemma {:induction false} ReplayFailsIff(log: seq<Line>, now: int)
    ensures ScansWell(log, now)
    ensures Replay(log, now).Scanning? <==> forall n :: 0 <= n < |log| ==> !Offends(log, n, now)
    ensures Replay(log, now).Corrupt? ==>
              var n := Replay(log, now).line - 1;
              && 0 <= n < |log| && Offends(log, n, now)
              && forall m :: 0 <= m < n ==> !Offends(log, m, now)
  {
    if log == [] {
      assert forall k :: !Alive(log, k, now);
    } else {
      var before, line := log[..|log| - 1], log[|log| - 1];
      ReplayFailsIff(before, now);
      assert log == before + [line];
      forall n | 0 <= n < |before| ensures Offends(log, n, now) <==> Offends(before, n, now) {
        assert log[..n] == before[..n];
      }
      if Replay(before, now).Scanning? {
        LineScansWell(before, line, now);
      }
    }
  }

  lemma {:induction false} CompactPending(entries: map<Key, Entry>, order: seq<Key>, key: Key)
    requires WellFormed(entries)
    requires forall k :: k in order ==> k in entries
    requires forall i, j :: 0 <= i < j < |order| ==> order[i] != order[j]
    ensures Pending(CompactLog(entries, order), key) <==> key in order && entries[key].result.None?
  {
    if order != [] {
      var init, k := order[..|order| - 1], order[|order| - 1];
      CompactPending(entries, init, key);
      assert order == init + [k];
      var e := entries[k];
      var log := CompactLog(entries, init);
      var insert := Rec(InsertRec(e.key, e.hash, e.status, e.createdAt, e.expiresAt));
      PendingAppend(log, insert, key);
      if e.result.Some? {
        var settle := Rec(SettleRec(e.key, e.result.value));
        PendingAppend(log + [insert], settle, key);
        assert CompactLog(entries, order) == log + [insert] + [settle];
      } else {
        assert CompactLog(entries, order) == log + [insert];
      }
    }
  }

  lemma CompactClean(s: Store, order: seq<Key>, now: int)
    requires WellFormed(s.entries) && Lists(order, s.entries.Keys)
    requires s.log == CompactLog(s.entries, order)
    ensures CleanAt(s, now)
  {
    CompactReplays(s.entries, order, now);
    forall k | k in s.entries ensures Pending(s.log, k) <==> s.entries[k].result.None? {
      CompactPending(s.entries, order, k);
    }
  }

  lemma InsertClean(s: Store, key: Key, hash: string, created: int, expires: int)
    requires Faithful(s) && Clean(s) && created <= s.clock
    ensures Clean(ApplyInsert(s, key, hash, created, expires))
  {
    var t := ApplyInsert(s, key, hash, created, expires);
    if Decide(s.entries, key, hash, created).Inserted? {
      var line := Rec(InsertRec(key, hash, Running, created, expires));
      forall now | now >= t.clock ensures CleanAt(t, now) {
        assert CleanAt(s, now);
        ReplayAppend(s.log, line, now);
        forall k ensures Pending(t.log, k) == (k == key || Pending(s.log, k)) {
          PendingAppend(s.log, line, k);
        }
      }
    }
  }

  /** A settlement leaves the file replayable at every later time if and only if the file did
      not already hold one for the record: only one is forgiven once the record has expired. */
  lemma SettleReplayableIff(s: Store, key: Key, r: ControlResult)
    requires Faithful(s) && Clean(s) && key in s.entries
    ensures (forall now :: now >= s.clock ==> Replay(ApplySettle(s, key, r).log, now).Scanning?)
            <==> Pending(s.log, key)
    ensures Pending(s.log, key) ==> Clean(ApplySettle(s, key, r))
  {
    var t := ApplySettle(s, key, r);
    var line := Rec(SettleRec(key, r));
    if Pending(s.log, key) {
      forall now | now >= s.clock ensures CleanAt(t, now) {
        assert CleanAt(s, now) && ReplaysAt(s, now);
        ReplayAppend(s.log, line, now);
        var scan := Replay(s.log, now);
        assert key in scan.entries <==> key in Unexpired(s.entries, now);
        forall k ensures Pending(t.log, k) == (k != key && Pending(s.log, k)) {
          PendingAppend(s.log, line, k);
        }
      }
      forall now | now >= s.clock ensures Replay(t.log, now).Scanning? {
        assert CleanAt(t, now);
      }
    } else {
      var late := if s.clock > s.entries[key].expiresAt then s.clock else s.entries[key].expiresAt + 1;
      assert CleanAt(s, late) && ReplaysAt(s, late);
      ReplayAppend(s.log, line, late);
      assert key !in Unexpired(s.entries, late);
      assert Replay(t.log, late).Corrupt?;
    }
  }

  lemma ReopenClean(s: Store, order: seq<Key>)
    requires Faithful(s) && Clean(s) && Enabled(s, Reopen(order))
    ensures Clean(ApplyReopen(s, order))
  {
    var t := ApplyReopen(s, order);
    var scan := Replay(s.log, s.clock);
    ReplayShape(s.log, s.clock);
    assert ReplaysAt(s, s.clock);
    forall now | now >= t.clock ensures CleanAt(t, now) {
      if scan.stale {
        CompactClean(t, order, now);
      } else {
        assert CleanAt(s, now);
        forall k | k in t.entries ensures k in s.entries && t.entries[k].expiresAt == s.entries[k].expiresAt {
          assert k in Unexpired(s.entries, s.clock);
          assert Alike(scan.entries[k], s.entries[k]);
        }
      }
    }
  }

  lemma StepClean(s: Store, op: Op)
    requires Faithful(s) && Clean(s) && Enabled(s, op) && SettlesOnce(s, op)
    ensures Clean(Apply(s, op))
  {
    match op
    case Wait(until) =>
      forall now | now >= until ensures CleanAt(Apply(s, op), now) {
        assert CleanAt(s, now);
      }
    case Insert(key, hash, created, expires) => InsertClean(s, key, hash, created, expires);
    case Settle(key, r) =>
      if key in s.entries {
        SettleReplayableIff(s, key, r);
      }
    case WriteFails =>
    case Purge(at, rewrite) =>
      var t := ApplyPurge(s, at, rewrite);
      var kept := Unexpired(s.entries, at);
      forall now | now >= t.clock ensures CleanAt(t, now) {
        assert CleanAt(s, now);
        if rewrite.Some? && kept != s.entries {
          assert kept.Keys == Live(s.entries, at);
          CompactClean(t, rewrite.value, now);
        }
      }
    case Reopen(order) => ReopenClean(s, order);
  }

  /** Every settlement of the run met `SettlesOnce` when it was made. */
  ghost predicate SettledOnce(start: int, ops: seq<Op>)
    requires Exec(start, ops).Some?
  {
    ops == [] ||
    var init := ops[..|ops| - 1];
    SettledOnce(start, init) && SettlesOnce(Exec(start, init).value, ops[|ops| - 1])
  }

  // ---------- which records the file holds a settlement for, by what was done ----------

  function Finished(entries: map<Key, Entry>): set<Key> {
    set k | k in entries && entries[k].result.Some?
  }

  /** A settlement adds the key and an insertion takes it away; rewriting the file, in a purge or a
      reopening, writes down the results the map has, also those a reopening made up. */
  ghost function HeldAfter(s: Store, held: set<Key>, op: Op): set<Key>
    requires Enabled(s, op)
  {
    match op
    case Insert(key, hash, created, _) => if Decide(s.entries, key, hash, created).Inserted? then held - {key} else held
    case Settle(key, _) => if key in s.entries then held + {key} else held
    case Purge(now, rewrite) =>
      var kept := Unexpired(s.entries, now);
      if rewrite.Some? && kept != s.entries then Finished(kept) else held
    case Reopen(_) =>
      var scan := Replay(s.log, s.clock);
      if scan.stale then Finished(Recover(scan.entries, s.clock)) else held
    case _ => held
  }

  ghost function Held(start: int, ops: seq<Op>): set<Key>
    requires Exec(start, ops).Some?
  {
    if ops == [] then {}
    else
      var init := ops[..|ops| - 1];
      HeldAfter(Exec(start, init).value, Held(start, init), ops[|ops| - 1])
  }

  ghost predicate HeldOk(s: Store, held: set<Key>) {
    forall k :: k in s.entries ==> (Pending(s.log, k) <==> k !in held)
  }

  lemma AppendHeld(s: Store, held: set<Key>, op: Op)
    requires HeldOk(s, held) && Enabled(s, op) && (op.Insert? || op.Settle?)
    ensures HeldOk(Apply(s, op), HeldAfter(s, held, op))
  {
    var t := Apply(s, op);
    if t.log != s.log {
      forall k | k in t.entries ensures Pending(t.log, k) <==> k !in HeldAfter(s, held, op) {
        PendingAppend(s.log, t.log[|s.log|], k);
      }
    }
  }

  lemma RewriteHeld(entries: map<Key, Entry>, order: seq<Key>)
    requires WellFormed(entries) && Lists(order, entries.Keys)
    ensures forall k :: k in entries ==> (Pending(CompactLog(entries, order), k) <==> k !in Finished(entries))
  {
    forall k | k in entries ensures Pending(CompactLog(entries, order), k) <==> k !in Finished(entries) {
      CompactPending(entries, order, k);
    }
  }

  lemma StepHeld(s: Store, held: set<Key>, op: Op)
    requires Faithful(s) && HeldOk(s, held) && Enabled(s, op)
    ensures HeldOk(Apply(s, op), HeldAfter(s, held, op))
  {
    match op
    case Wait(_) =>
    case Insert(_, _, _, _) => AppendHeld(s, held, op);
    case Settle(_, _) => AppendHeld(s, held, op);
    case WriteFails =>
    case Purge(now, rewrite) =>
      var kept := Unexpired(s.entries, now);
      if rewrite.Some? && kept != s.entries {
        assert kept.Keys == Live(s.entries, now);
        RewriteHeld(kept, rewrite.value);
      }
    case Reopen(order) =>
      var scan := Replay(s.log, s.clock);
      ReplayShape(s.log, s.clock);
      assert ReplaysAt(s, s.clock);
      if scan.stale {
        RewriteHeld(Recover(scan.entries, s.clock), order);
      } else {
        assert forall k :: k in scan.entries ==> k in Unexpired(s.entries, s.clock);
      }
  }

  /** The file holds a settlement for a record exactly if what was done says so. */
  lemma {:induction false} ExecHeld(start: int, ops: seq<Op>)
    requires Exec(start, ops).Some?
    ensures HeldOk(Exec(start, ops).value, Held(start, ops))
  {
    if ops != [] {
      var init := ops[..|ops| - 1];
      ExecHeld(start, init);
      ExecSound(start, init);
      StepHeld(Exec(start, init).value, Held(start, init), ops[|ops| - 1]);
    }
  }

  lemma {:induction false} ExecClean(start: int, ops: seq<Op>)
    requires Exec(start, ops).Some? && SettledOnce(start, ops)
    ensures Clean(Exec(start, ops).value)
  {
    if ops == [] {
      var s := Exec(start, ops).value;
      assert forall now :: CleanAt(s, now);
    } else {
      var init := ops[..|ops| - 1];
      ExecClean(start, init);
      ExecSound(start, init);
      StepClean(Exec(start, init).value, ops[|ops| - 1]);
    }
  }

  // ---------- what opening the file reports ----------

  /** A record without a result is a running one. */
  ghost predicate UnsettledRun(entries: map<Key, Entry>) {
    forall k :: k in entries && entries[k].result.None? ==> entries[k].status == Running
  }

  lemma ReopenUnsettledRun(s: Store, order: seq<Key>)
    requires Faithful(s) && UnsettledRun(s.entries) && Enabled(s, Reopen(order))
    ensures UnsettledRun(ApplyReopen(s, order).entries)
  {
    assert ReplaysAt(s, s.clock);
    var scan := Replay(s.log, s.clock);
    forall k | k in scan.entries
      ensures RecoverEntry(scan.entries[k], s.clock).result.Some?
    {
      assert Alike(scan.entries[k], Unexpired(s.entries, s.clock)[k]);
    }
  }

  lemma {:induction false} ExecUnsettledRun(start: int, ops: seq<Op>)
    requires Exec(start, ops).Some?
    ensures UnsettledRun(Exec(start, ops).value.entries)
  {
    if ops != [] {
      var init, op := ops[..|ops| - 1], ops[|ops| - 1];
      ExecUnsettledRun(start, init);
      if op.Reopen? {
        ExecSound(start, init);
        ReopenUnsettledRun(Exec(start, init).value, op.order);
      }
    }
  }

  /** `found` is what a restart reports of the record `live`: the same request; if it was not settled, or
      only by an earlier restart, nobody knows how it ended; if it was, exactly what was settled. */
  predicate Reports(live: Entry, found: Entry) {
    && found.key == live.key && found.hash == live.hash
    && found.createdAt == live.createdAt && found.expiresAt == live.expiresAt
    && if live.result.None? || Open(live) then ReportsInterrupted(found) else found == live
  }

  /** The refinement: after any run in which no record is settled twice, opening the file at any
      later time succeeds and reports exactly the unexpired live records: the settled ones as they
      are, the unsettled ones as interrupted, with an unknown outcome and no payload. */
  lemma ReplayRefinesMap(start: int, ops: seq<Op>, now: int)
    requires Exec(start, ops).Some? && SettledOnce(start, ops)
    requires now >= Exec(start, ops).value.clock
    ensures var s := Exec(start, ops).value;
            var scan := Replay(s.log, now);
            && scan.Scanning?
            && (forall k :: k in scan.entries <==> k in s.entries && s.entries[k].expiresAt >= now)
            && forall k :: k in scan.entries ==> Reports(s.entries[k], Recover(scan.entries, now)[k])
  {
    ExecClean(start, ops);
    ExecSound(start, ops);
    ExecUnsettledRun(start, ops);
    var s := Exec(start, ops).value;
    assert CleanAt(s, now) && ReplaysAt(s, now);
    var scan := Replay(s.log, now);
    assert forall k :: k in Unexpired(s.entries, now) ==> k in scan.entries;
    forall k | k in scan.entries ensures Reports(s.entries[k], Recover(scan.entries, now)[k]) {
      assert Alike(scan.entries[k], Unexpired(s.entries, now)[k]);
    }
  }

  lemma ExecAppend(start: int, ops: seq<Op>, op: Op)
    requires Exec(start, ops).Some? && Enabled(Exec(start, ops).value, op)
    ensures Exec(start, ops + [op]) == Some(Apply(Exec(start, ops).value, op))
  {
  }

  /** Settling one record twice does make the file unreadable once the record has expired. */
  lemma SettledTwiceCorrupts(key: Key, r: ControlResult)
    ensures var ops := [Insert(key, "h", 0, 10), Settle(key, r), Settle(key, r), Wait(11)];
            && Exec(0, ops).Some?
            && Replay(Exec(0, ops).value.log, 11) == Corrupt(3)
  {
    var insert, settle := Insert(key, "h", 0, 10), Settle(key, r);
    ExecAppend(0, [], insert);
    assert [] + [insert] == [insert];
    ExecAppend(0, [insert], settle);
    assert [insert] + [settle] == [insert, settle];
    ExecAppend(0, [insert, settle], settle);
    assert [insert, settle] + [settle] == [insert, settle, settle];
    ExecAppend(0, [insert, settle, settle], Wait(11));
    assert [insert, settle, settle] + [Wait(11)] == [insert, settle, settle, Wait(11)];
    var lines := [Rec(InsertRec(key, "h", Running, 0, 10)), Rec(SettleRec(key, r)), Rec(SettleRec(key, r))];
    assert Exec(0, [insert, settle, settle]).value.log == lines;
    ReplayAppend([], lines[0], 11);
    ReplayAppend(lines[..1], lines[1], 11);
    ReplayAppend(lines[..2], lines[2], 11);
    assert lines[..2] + [lines[2]] == lines && lines[..1] + [lines[1]] == lines[..2];
  }
}
