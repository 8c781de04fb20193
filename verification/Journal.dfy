/** The idempotency journal: an append-only file of lines, and the map it stands for.

    `Replay` is what opening the file computes. A `Store` pairs the live map with the file and
    the wall clock; `Apply` is one journal operation, including failed writes, purges, compaction
    in any order and a restart. */
module Journal {
  import opened ControlTypes

  datatype Entry = Entry(
    key: Key, hash: string, status: Status, createdAt: int, expiresAt: int,
    result: Option<ControlResult>)

  datatype Decision = Inserted | Duplicate(entry: Entry) | Conflict(existing: Entry)

  datatype Record =
    | InsertRec(key: Key, hash: string, status: Status, createdAt: int, expiresAt: int)
    | SettleRec(key: Key, result: ControlResult)

  /** A line of the file: blank, not parseable, or a record. */
  datatype Line = Blank | Garbled | Rec(record: Record)

  // ---------- the live map ----------

  function NewEntry(key: Key, hash: string, created: int, expires: int): Entry {
    Entry(key, hash, Running, created, expires, None)
  }

  /** The verdict on an insertion; a record that expired before `created` counts as absent. */
  function Decide(entries: map<Key, Entry>, key: Key, hash: string, created: int): Decision {
    if key in entries && entries[key].expiresAt >= created then
      if entries[key].hash == hash then Duplicate(entries[key]) else Conflict(entries[key])
    else
      Inserted
  }

  function Settled(e: Entry, r: ControlResult): Entry {
    e.(status := r.status, result := Some(r))
  }

  function Unexpired(entries: map<Key, Entry>, now: int): map<Key, Entry> {
    map k | k in entries && entries[k].expiresAt >= now :: entries[k]
  }

  // ---------- replay ----------

  datatype Scan =
    | Scanning(entries: map<Key, Entry>, expired: set<Key>, stale: bool)
    | Corrupt(line: nat)

  function ScanRecord(s: Scan, r: Record, no: nat, now: int): Scan
    requires s.Scanning?
  {
    match r
    case InsertRec(key, hash, status, created, expires) =>
      if expires < now then
        s.(expired := s.expired + {key}, stale := true)
      else
        s.(entries := s.entries[key := Entry(key, hash, status, created, expires, None)])
    case SettleRec(key, result) =>
      if key in s.entries then
        s.(entries := s.entries[key := Settled(s.entries[key], result)])
      else if key in s.expired then
        s.(expired := s.expired - {key})
      else
        Corrupt(no)
  }

  function ScanLine(s: Scan, line: Line, no: nat, now: int): Scan {
    if s.Corrupt? then s else
      match line
      case Blank => s
      case Garbled => Corrupt(no)
      case Rec(r) => ScanRecord(s, r, no, now)
  }

  function Replay(log: seq<Line>, now: int): Scan {
    if log == [] then Scanning(map[], {}, false)
    else ScanLine(Replay(log[..|log| - 1], now), log[|log| - 1], |log|, now)
  }

  /** The result a restarted process makes up for a request it finds unsettled. */
  function Interrupted(key: Key, now: int): ControlResult {
    ControlResult(key, Indeterminate, None, Some(now), None, Some("EXECUTION_INTERRUPTED"))
  }

  function RecoverEntry(e: Entry, now: int): Entry {
    if Unfinished(e.status)
    then e.(status := Indeterminate, result := Some(Interrupted(e.key, now)))
    else e
  }

  function Recover(entries: map<Key, Entry>, now: int): map<Key, Entry> {
    map k | k in entries :: RecoverEntry(entries[k], now)
  }

  // ---------- compaction ----------

  function Live(entries: map<Key, Entry>, now: int): set<Key> {
    set k | k in entries && entries[k].expiresAt >= now
  }

  /** `order` lists every key of `keys` once: one of the orders a hash map may iterate in. */
  ghost predicate Lists(order: seq<Key>, keys: set<Key>) {
    && (forall k :: k in order <==> k in keys)
    && forall i, j :: 0 <= i < j < |order| ==> order[i] != order[j]
  }

  function EntryLines(e: Entry): seq<Line> {
    [Rec(InsertRec(e.key, e.hash, e.status, e.createdAt, e.expiresAt))]
    + if e.result.Some? then [Rec(SettleRec(e.key, e.result.value))] else []
  }

  function CompactLog(entries: map<Key, Entry>, order: seq<Key>): seq<Line>
    requires forall k :: k in order ==> k in entries
  {
    if order == [] then []
    else CompactLog(entries, order[..|order| - 1]) + EntryLines(entries[order[|order| - 1]])
  }

  // ---------- operations on the store ----------

  datatype Insertion = Insertion(key: Key, expiresAt: int, at: int)

  /** `inserted` is history: every insertion that ever succeeded, with the time it took effect. */
  datatype Store = Store(
    entries: map<Key, Entry>, log: seq<Line>, clock: int, inserted: seq<Insertion>)

  /** One operation. `created` and `now` are clock readings the caller took earlier, so they lie at
      or before the clock. A failed write changes nothing. A purge rewrites the file when it removed
      something and the rewrite succeeded; a reopening does when it skipped an expired record. */
  datatype Op =
    | Wait(until: int)
    | Insert(key: Key, hash: string, created: int, expires: int)
    | Settle(key: Key, result: ControlResult)
    | WriteFails
    | Purge(now: int, rewrite: Option<seq<Key>>)
    | Reopen(order: seq<Key>)

  ghost predicate Enabled(s: Store, op: Op) {
    match op
    case Wait(until) => until >= s.clock
    case Insert(_, _, created, _) => created <= s.clock
    case Settle(_, _) => true
    case WriteFails => true
    case Purge(now, rewrite) =>
      now <= s.clock && (rewrite.Some? ==> Lists(rewrite.value, Live(s.entries, now)))
    case Reopen(order) =>
      var scan := Replay(s.log, s.clock);
      scan.Scanning? && Lists(order, scan.entries.Keys)
  }

  function ApplyInsert(s: Store, key: Key, hash: string, created: int, expires: int): Store {
    if Decide(s.entries, key, hash, created).Inserted? then
      s.(entries := s.entries[key := NewEntry(key, hash, created, expires)],
         log := s.log + [Rec(InsertRec(key, hash, Running, created, expires))],
         inserted := s.inserted + [Insertion(key, expires, s.clock)])
    else s
  }

  function ApplySettle(s: Store, key: Key, r: ControlResult): Store {
    if key in s.entries then
      s.(entries := s.entries[key := Settled(s.entries[key], r)],
         log := s.log + [Rec(SettleRec(key, r))])
    else s
  }

  ghost function ApplyPurge(s: Store, now: int, rewrite: Option<seq<Key>>): Store
    requires rewrite.Some? ==> Lists(rewrite.value, Live(s.entries, now))
  {
    var kept := Unexpired(s.entries, now);
    if rewrite.Some? && kept != s.entries
    then s.(entries := kept, log := CompactLog(kept, rewrite.value))
    else s.(entries := kept)
  }

  ghost function ApplyReopen(s: Store, order: seq<Key>): Store
    requires Enabled(s, Reopen(order))
  {
    var scan := Replay(s.log, s.clock);
    var kept := Recover(scan.entries, s.clock);
    s.(entries := kept, log := if scan.stale then CompactLog(kept, order) else s.log)
  }

  ghost function Apply(s: Store, op: Op): Store
    requires Enabled(s, op)
  {
    match op
    case Wait(until) => s.(clock := until)
    case Insert(key, hash, created, expires) => ApplyInsert(s, key, hash, created, expires)
    case Settle(key, r) => ApplySettle(s, key, r)
    case WriteFails => s
    case Purge(now, rewrite) => ApplyPurge(s, now, rewrite)
    case Reopen(order) => ApplyReopen(s, order)
  }

  /** The store after a run of operations from a new file, or None if one was not enabled. */
  ghost function Exec(start: int, ops: seq<Op>): Option<Store> {
    if ops == [] then Some(Store(map[], [], start, []))
    else
      match Exec(start, ops[..|ops| - 1])
      case None => None
      case Some(s) => if Enabled(s, ops[|ops| - 1]) then Some(Apply(s, ops[|ops| - 1])) else None
  }

  // ---------- what a restart would report ----------

  /** The entry tells its caller that nobody knows how its run ended. */
  predicate ReportsInterrupted(e: Entry) {
    && e.status == Indeterminate && e.result.Some?
    && e.result.value.key == e.key && e.result.value.status == Indeterminate
    && e.result.value.startedAt.None? && e.result.value.completedAt.Some?
    && e.result.value.payload.None? && e.result.value.error == Some("EXECUTION_INTERRUPTED")
  }

  /** A restart reports this entry as interrupted, or already did. */
  predicate Open(e: Entry) {
    e.status == Accepted || e.status == Running || ReportsInterrupted(e)
  }

  /** `after` is `before` as a restart at `now` leaves it: an unfinished entry has the result of an
      interrupted run, every other one is untouched. */
  predicate Recovered(before: Entry, after: Entry, now: int) {
    if before.status == Accepted || before.status == Running then
      && after.key == before.key && after.hash == before.hash
      && after.createdAt == before.createdAt && after.expiresAt == before.expiresAt
      && ReportsInterrupted(after) && after.result.value.completedAt == Some(now)
    else
      after == before
  }

  /** The two entries look the same to a restart, leaving out the made-up completion time. */
  ghost predicate Alike(a: Entry, b: Entry) {
    && a.key == b.key && a.hash == b.hash
    && a.createdAt == b.createdAt && a.expiresAt == b.expiresAt
    && (Open(a) <==> Open(b))
    && (!Open(a) ==> a == b)
  }

  ghost predicate AllAlike(a: map<Key, Entry>, b: map<Key, Entry>) {
    && (forall k :: k in a <==> k in b)
    && forall k :: k in a && k in b ==> Alike(a[k], b[k])
  }

  ghost predicate WellFormed(entries: map<Key, Entry>) {
    forall k :: k in entries ==>
      && entries[k].key == k
      && (entries[k].result.Some? ==> entries[k].status == entries[k].result.value.status)
  }

  /** A replay at any later time that succeeds at all reports exactly the unexpired live map. */
  ghost predicate ReplaysAt(s: Store, now: int) {
    var scan := Replay(s.log, now);
    scan.Scanning? ==> AllAlike(scan.entries, Unexpired(s.entries, now))
  }

  ghost predicate Faithful(s: Store) {
    && WellFormed(s.entries)
    && forall now :: now >= s.clock ==> ReplaysAt(s, now)
  }

  // ---------- small facts ----------

  lemma CompactLogAppend(entries: map<Key, Entry>, order: seq<Key>, key: Key)
    requires key in entries && forall k :: k in order ==> k in entries
    ensures CompactLog(entries, order + [key]) == CompactLog(entries, order) + EntryLines(entries[key])
  {
  }

  lemma ReplayAppend(log: seq<Line>, line: Line, now: int)
    ensures Replay(log + [line], now) == ScanLine(Replay(log, now), line, |log| + 1, now)
  {
  }
}
