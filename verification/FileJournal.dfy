/** The journal as an object: a file appended to in place and the map kept beside it.

    Each method is tied to the operation it performs on a `Store`. Whether a write or a rewrite
    reaches the disk is an argument. */
module FileJournals {
  import opened ControlTypes
  import opened Journal

  class FileJournal {
    var file: seq<Line>
    var entries: map<Key, Entry>

    /** This journal as a store; the clock and the history belong to whoever asks. */
    ghost function AsStore(clock: int, inserted: seq<Insertion>): (s: Store)
      reads this
    {
      Store(entries, file, clock, inserted)
    }

    constructor (file: seq<Line>, entries: map<Key, Entry>)
      ensures this.file == file && this.entries == entries
    {
      this.file := file;
      this.entries := entries;
    }

    /** Inserts a record unless the key has an unexpired one. The line is written before the map
        changes, and a failed write reports failure and changes nothing. */
    method TryInsert(key: Key, hash: string, created: int, expires: int, writable: bool)
      returns (decision: Option<Decision>)
      modifies this
      ensures var known := key in old(entries) && old(entries)[key].expiresAt >= created;
              && (decision == Some(Inserted) <==> !known && writable)
              && (decision == None <==> !known && !writable)
              && (known && old(entries)[key].hash == hash ==> decision == Some(Duplicate(old(entries)[key])))
              && (known && old(entries)[key].hash != hash ==> decision == Some(Conflict(old(entries)[key])))
      ensures decision == Some(Inserted) ==>
                && entries == old(entries)[key := Entry(key, hash, Running, created, expires, None)]
                && file == old(file) + [Rec(InsertRec(key, hash, Running, created, expires))]
      ensures decision != Some(Inserted) ==> entries == old(entries) && file == old(file)
      ensures forall clock, inserted :: decision.Some? ==>
                AsStore(clock, ApplyInsert(old(AsStore(clock, inserted)), key, hash, created, expires).inserted)
                == ApplyInsert(old(AsStore(clock, inserted)), key, hash, created, expires)
    {
      if key in entries && entries[key].expiresAt >= created {
        var existing := entries[key];
        if existing.hash == hash {
          return Some(Duplicate(existing));
        }
        return Some(Conflict(existing));
      }
      if !writable {
        return None;
      }
      file := file + [Rec(InsertRec(key, hash, Running, created, expires))];
      entries := entries[key := NewEntry(key, hash, created, expires)];
      return Some(Inserted);
    }

    /** Settles a record the map holds: the line first, the map after. An unknown key is ignored. */
    method Settle(key: Key, result: ControlResult, writable: bool) returns (ok: bool)
      modifies this
      ensures ok <==> key !in old(entries) || writable
      ensures ok && key in old(entries) ==>
                && entries == old(entries)[key := old(entries)[key].(status := result.status, result := Some(result))]
                && file == old(file) + [Rec(SettleRec(key, result))]
      ensures !ok || key !in old(entries) ==> entries == old(entries) && file == old(file)
      ensures forall clock, inserted ::
                AsStore(clock, inserted)
                == if ok then ApplySettle(old(AsStore(clock, inserted)), key, result)
                   else old(AsStore(clock, inserted))
    {
      if key !in entries {
        return true;
      }
      if !writable {
        return false;
      }
      file := file + [Rec(SettleRec(key, result))];
      var entry := entries[key];
      entries := entries[key := entry.(status := result.status, result := Some(result))];
      return true;
    }

    /** Rewrites the file from the unexpired part of the map, in whatever order the map yields. */
    method Compact(now: int) returns (ghost order: seq<Key>)
      modifies `file
      ensures Lists(order, Live(entries, now))
      ensures file == CompactLog(entries, order)
    {
      var out: seq<Line> := [];
      var remaining := entries.Keys;
      order := [];
      while remaining != {}
        invariant remaining <= entries.Keys
        invariant forall k :: k in order <==> k in entries && k !in remaining && entries[k].expiresAt >= now
        invariant forall i, j :: 0 <= i < j < |order| ==> order[i] != order[j]
        invariant out == CompactLog(entries, order)
        decreases |remaining|
      {
        var key :| key in remaining;
        remaining := remaining - {key};
        var entry := entries[key];
        if entry.expiresAt >= now {
          ghost var written := out;
          out := out + [Rec(InsertRec(entry.key, entry.hash, entry.status, entry.createdAt, entry.expiresAt))];
          if entry.result.Some? {
            out := out + [Rec(SettleRec(entry.key, entry.result.value))];
          }
          assert out == written + EntryLines(entry);
          CompactLogAppend(entries, order, key);
          order := order + [key];
        }
      }
      file := out;
    }

    /** Drops what expired before `now`; if anything went, the file is rewritten as well, unless
        the rewrite fails. */
    method PurgeExpired(now: int, writable: bool) returns (removed: nat, ghost rewrite: Option<seq<Key>>)
      modifies this
      ensures removed == |old(entries)| - |entries|
      ensures forall k :: k in entries <==> k in old(entries) && old(entries)[k].expiresAt >= now
      ensures forall k :: k in entries ==> entries[k] == old(entries)[k]
      ensures rewrite.Some? ==> Lists(rewrite.value, Live(old(entries), now))
      ensures rewrite.Some? <==> writable && Unexpired(old(entries), now) != old(entries)
      ensures forall clock, inserted ::
                AsStore(clock, inserted) == ApplyPurge(old(AsStore(clock, inserted)), now, rewrite)
    {
      var before := entries;
      var kept := map k | k in entries && entries[k].expiresAt >= now :: entries[k];
      KeptFewer(before, kept);
      removed := |before| - |kept|;
      entries := kept;
      rewrite := None;
      if removed > 0 && writable {
        var order := Compact(now);
        assert Live(kept, now) == Live(before, now);
        rewrite := Some(order);
      }
    }

    /** Gives every unsettled entry the result of an interrupted run. */
    static method SettleInterrupted(scanned: map<Key, Entry>, now: int) returns (entries: map<Key, Entry>)
      ensures entries == Recover(scanned, now)
      ensures forall k :: k in entries ==> Recovered(scanned[k], entries[k], now)
    {
      entries := scanned;
      var remaining := entries.Keys;
      while remaining != {}
        invariant remaining <= scanned.Keys == entries.Keys
        invariant forall k :: k in remaining ==> entries[k] == scanned[k]
        invariant forall k :: k in scanned && k !in remaining ==> entries[k] == RecoverEntry(scanned[k], now)
        decreases |remaining|
      {
        var key :| key in remaining;
        remaining := remaining - {key};
        var entry := entries[key];
        if entry.status == Accepted || entry.status == Running {
          entries := entries[key := entry.(status := Indeterminate, result := Some(Interrupted(entry.key, now)))];
        }
      }
    }

    /** Opens a file: replays its lines, turns unsettled records Indeterminate, and rewrites the
        file if an expired record was skipped. Answers the line number when the file is corrupt. */
    static method Open(file: seq<Line>, now: int)
      returns (journal: FileJournal?, badLine: nat, ghost order: seq<Key>)
      ensures journal == null <==> Replay(file, now).Corrupt?
      ensures journal == null ==> Replay(file, now) == Corrupt(badLine)
      ensures journal != null ==> fresh(journal)
      ensures journal != null ==> Lists(order, Replay(file, now).entries.Keys)
      ensures journal != null ==>
                && journal.entries.Keys == Replay(file, now).entries.Keys
                && forall k :: k in journal.entries ==>
                     Recovered(Replay(file, now).entries[k], journal.entries[k], now)
      ensures journal != null ==> forall inserted, before: map<Key, Entry> ::
                journal.AsStore(now, inserted) == ApplyReopen(Store(before, file, now, inserted), order)
    {
      var entries: map<Key, Entry>, expired: set<Key>, needCompact := map[], {}, false;
      for i := 0 to |file|
        invariant Replay(file[..i], now) == Scanning(entries, expired, needCompact)
      {
        assert file[..i + 1][..i] == file[..i];
        if file[i].Garbled? {
          CorruptStays(file, i + 1, now);
          return null, i + 1, [];
        }
        if file[i].Rec? {
          match file[i].record {
            case InsertRec(key, hash, status, created, expires) =>
              if expires < now {
                expired := expired + {key};
                needCompact := true;
              } else {
                entries := entries[key := Entry(key, hash, status, created, expires, None)];
              }
            case SettleRec(key, result) =>
              if key in entries {
                var entry := entries[key];
                entries := entries[key := entry.(status := result.status, result := Some(result))];
              } else if key in expired {
                expired := expired - {key};
              } else {
                CorruptStays(file, i + 1, now);
                return null, i + 1, [];
              }
          }
        }
      }
      assert file[..|file|] == file;
      var scanned := entries;
      entries := SettleInterrupted(scanned, now);
      journal := new FileJournal(file, entries);
      badLine := 0;
      if needCompact {
        NoneExpired(file, now);
        order := journal.Compact(now);
        assert Live(entries, now) == scanned.Keys;
      } else {
        order := Enumerate(scanned.Keys);
      }
    }
  }

  lemma KeptFewer(all: map<Key, Entry>, kept: map<Key, Entry>)
    requires forall k :: k in kept ==> k in all && kept[k] == all[k]
    ensures |kept| <= |all|
    ensures |kept| == |all| ==> kept == all
  {
    var gone := all.Keys - kept.Keys;
    assert all.Keys == kept.Keys + gone && |all.Keys| == |kept.Keys| + |gone|;
    if |kept| == |all| {
      assert gone == {};
    }
  }

  /** A corrupt line decides the outcome: the lines after it are not looked at. */
  lemma {:induction false} CorruptStays(file: seq<Line>, n: nat, now: int)
    requires n <= |file| && Replay(file[..n], now).Corrupt?
    ensures Replay(file, now) == Replay(file[..n], now)
    decreases |file| - n
  {
    if n == |file| {
      assert file[..n] == file;
    } else {
      assert file[..n + 1][..n] == file[..n];
      CorruptStays(file, n + 1, now);
    }
  }

  lemma {:induction false} NoneExpired(file: seq<Line>, now: int)
    ensures Replay(file, now).Scanning? ==>
              forall k :: k in Replay(file, now).entries ==> Replay(file, now).entries[k].expiresAt >= now
  {
    if file != [] {
      NoneExpired(file[..|file| - 1], now);
    }
  }

  ghost function Enumerate(keys: set<Key>): (order: seq<Key>)
    ensures Lists(order, keys)
  {
    if keys == {} then [] else
      var k :| k in keys;
      Enumerate(keys - {k}) + [k]
  }
}
