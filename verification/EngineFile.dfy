/** The engine on its journal file. The engine's steps treat the journal as a map; here every step is
    paired with what the file journal does, and a restart reads the file. */
module EngineFile {
  import opened ControlTypes
  import opened Engine
  import opened EngineOnce
  import opened EngineCells
  import opened EngineMatch
  import J = Journal
  import T = JournalTheorems

  // ---------- the file that goes with a run ----------

  /** What an effect asks of the file; a failed write, and anything that is no write, leaves it alone. */
  ghost predicate Asks(eff: Effect, journal: map<Key, J.Entry>, op: J.Op) {
    if eff.Put? then op == J.Insert(eff.sub.key, eff.sub.hash, eff.sub.created, eff.sub.expires)
    else if eff.Settle? && eff.ok && eff.key in journal then op == J.Settle(eff.key, eff.result)
    else op == J.WriteFails
  }

  ghost function EffectOf(s: State, a: Action): Effect
    requires Enabled(s, a)
  {
    match a
    case BySubmit(i, move) => SubmitStep(s, i, move).eff
    case ByQueue(d, turn) => QueueStep(s, d, turn).eff
    case Panics(d) => DeathStep(s.queues[d], d, s.cells).eff
    case _ => Nothing
  }

  ghost predicate Does(s: State, a: Action, op: J.Op)
    requires Enabled(s, a)
  {
    match a
    case Tick(until) => op == J.Wait(until)
    case Purges(now) => op.Purge? && op.now == now
    case Crashes => op.Reopen?
    case _ => Asks(EffectOf(s, a), s.journal, op)
  }

  /** `ops` is what a file journal that was empty at the start may have done in the run, one operation a
      step: in whatever order it writes its entries when it rewrites the file. */
  ghost predicate Files(s0: State, actions: seq<Action>, ops: seq<J.Op>)
    requires Exec(s0, actions).Some?
    decreases |actions|
  {
    && |ops| == |actions| && J.Exec(s0.clock, ops).Some?
    && (actions != [] ==>
          var before := actions[..|actions| - 1];
          && Files(s0, before, ops[..|ops| - 1])
          && Does(Exec(s0, before).value, actions[|actions| - 1], ops[|ops| - 1]))
  }

  // ---------- the map the engine sees is the map of the file ----------

  predicate InsertedHere(s: State, k: Key) {
    k in s.marks.latest && s.marks.latest[k] < |s.submits| && !s.submits[s.marks.latest[k]].pc.Gone?
  }

  /** Records inserted since the last restart are the same; of older ones a restart may have made up
      different completion times. */
  ghost predicate MirrorsAt(s: State, store: J.Store, k: Key) {
    && (k in s.journal <==> k in store.entries)
    && (k in s.journal && k in store.entries ==>
          J.Alike(s.journal[k], store.entries[k])
          && (InsertedHere(s, k) ==> s.journal[k] == store.entries[k]))
  }

  ghost predicate Mirrors(s: State, store: J.Store) {
    s.clock == store.clock && forall k :: MirrorsAt(s, store, k)
  }

  lemma AlikeBoth(a: J.Entry, b: J.Entry, c: J.Entry)
    requires J.Alike(a, b) && J.Alike(b, c)
    ensures J.Alike(a, c)
  {
  }

  lemma RecoverBoth(a: J.Entry, b: J.Entry, now: int)
    requires J.Alike(a, b)
    ensures J.Alike(J.RecoverEntry(a, now), J.RecoverEntry(b, now))
  {
    T.RecoverAlike(a, b, now);
    AlikeBack(J.RecoverEntry(a, now), b);
    T.RecoverAlike(b, J.RecoverEntry(a, now), now);
    AlikeBack(J.RecoverEntry(b, now), J.RecoverEntry(a, now));
  }

  lemma AlikeBack(a: J.Entry, b: J.Entry)
    requires J.Alike(a, b)
    ensures J.Alike(b, a)
  {
  }

  lemma EffectMirrors(s: State, t: State, store: J.Store, eff: Effect, op: J.Op, k: Key)
    requires MirrorsAt(s, store, k) && RecordTold(k, s.journal, s.owner, s.marks)
    requires Asks(eff, s.journal, op) && J.Enabled(store, op)
    requires t.journal == JournalAfter(s.journal, eff) && t.marks == MarksAfter(s.marks, eff, s.journal)
    requires InsertedHere(t, k) ==> InsertedHere(s, k) || (eff.Put? && eff.sub.key == k)
    requires eff.Put? ==> J.Decide(s.journal, eff.sub.key, eff.sub.hash, eff.sub.created).Inserted?
                          && MirrorsAt(s, store, eff.sub.key)
    ensures MirrorsAt(t, J.Apply(store, op), k)
  {
  }

  /** A step that acts on the journal through its effect alone. */
  predicate ByEffect(a: Action) {
    !a.Tick? && !a.Purges? && !a.Crashes?
  }

  lemma EffectApplies(s: State, a: Action)
    requires Enabled(s, a) && ByEffect(a)
    ensures var t, eff := Apply(s, a), EffectOf(s, a);
            && t.clock == s.clock && t.journal == JournalAfter(s.journal, eff)
            && t.marks == MarksAfter(s.marks, eff, s.journal)
  {
  }

  lemma EffectInserts(s: State, a: Action)
    requires Enabled(s, a) && EffectOf(s, a).Put?
    ensures var sub := EffectOf(s, a).sub; J.Decide(s.journal, sub.key, sub.hash, sub.created).Inserted?
    ensures a.BySubmit?
  {
    match a
    case BySubmit(i, move) => SubmitTimely(s, i, move);
    case ByQueue(d, turn) => QueuePutsNothing(s, d, turn);
    case Panics(_) =>
    case _ =>
  }

  /** Nobody comes back. */
  lemma StepGone(s: State, a: Action)
    requires Enabled(s, a)
    ensures GoneStays(s.submits, Apply(s, a).submits)
  {
  }

  lemma EffectStep(s: State, a: Action)
    requires AllBlank(s) && Enabled(s, a) && ByEffect(a)
    ensures var t, eff := Apply(s, a), EffectOf(s, a);
            && t.clock == s.clock && t.journal == JournalAfter(s.journal, eff)
            && t.marks == MarksAfter(s.marks, eff, s.journal)
            && (eff.Put? ==> J.Decide(s.journal, eff.sub.key, eff.sub.hash, eff.sub.created).Inserted?)
            && forall k :: InsertedHere(t, k) ==> InsertedHere(s, k) || (eff.Put? && eff.sub.key == k)
  {
    var t, eff := Apply(s, a), EffectOf(s, a);
    EffectApplies(s, a);
    StepGone(s, a);
    if eff.Put? {
      EffectInserts(s, a);
    }
    forall k | InsertedHere(t, k) ensures InsertedHere(s, k) || (eff.Put? && eff.sub.key == k) {
      assert BlankUntilSettled(k, s.journal, s.submits, s.marks);
    }
  }

  lemma ActMirrors(s: State, store: J.Store, a: Action, op: J.Op)
    requires Mirrors(s, store) && AllTold(s) && AllBlank(s) && SubmitsOk(s) && Enabled(s, a) && ByEffect(a)
    requires Does(s, a, op) && J.Enabled(store, op)
    ensures Mirrors(Apply(s, a), J.Apply(store, op))
  {
    EffectStep(s, a);
    var eff := EffectOf(s, a);
    forall k ensures MirrorsAt(Apply(s, a), J.Apply(store, op), k) {
      assert MirrorsAt(s, store, k) && RecordTold(k, s.journal, s.owner, s.marks);
      assert eff.Put? ==> MirrorsAt(s, store, eff.sub.key);
      EffectMirrors(s, Apply(s, a), store, eff, op, k);
    }
  }

  lemma TickMirrors(s: State, store: J.Store, until: int)
    requires Mirrors(s, store) && until >= s.clock
    ensures Mirrors(s.(clock := until), J.Apply(store, J.Wait(until)))
  {
    forall k ensures MirrorsAt(s.(clock := until), J.Apply(store, J.Wait(until)), k) {
      assert MirrorsAt(s, store, k);
    }
  }

  lemma PurgeMirrors(s: State, store: J.Store, now: int, op: J.Op)
    requires Mirrors(s, store) && op.Purge? && op.now == now && J.Enabled(store, op)
    ensures Mirrors(Purged(s, now), J.Apply(store, op))
  {
    forall k ensures MirrorsAt(Purged(s, now), J.Apply(store, op), k) {
      assert MirrorsAt(s, store, k);
    }
  }

  lemma RestartMirrors(s: State, store: J.Store, op: J.Op)
    requires Mirrors(s, store) && J.Faithful(store) && op.Reopen? && J.Enabled(store, op)
    ensures Mirrors(Crashed(s), J.Apply(store, op))
  {
    var t := Crashed(s);
    var scan := J.Replay(store.log, store.clock);
    assert J.ReplaysAt(store, store.clock);
    forall k ensures MirrorsAt(t, J.Apply(store, op), k) {
      assert MirrorsAt(s, store, k);
      assert k in scan.entries <==> k in J.Unexpired(store.entries, store.clock);
      if k in scan.entries {
        AlikeBack(scan.entries[k], store.entries[k]);
        AlikeBoth(s.journal[k], store.entries[k], scan.entries[k]);
        RecoverBoth(s.journal[k], scan.entries[k], s.clock);
      }
    }
  }

  lemma StepMirrors(s: State, store: J.Store, a: Action, op: J.Op)
    requires Mirrors(s, store) && J.Faithful(store) && AllTold(s) && AllBlank(s) && SubmitsOk(s)
    requires Enabled(s, a) && Does(s, a, op) && J.Enabled(store, op)
    ensures Mirrors(Apply(s, a), J.Apply(store, op))
  {
    match a
    case Tick(until) => TickMirrors(s, store, until);
    case Purges(now) => PurgeMirrors(s, store, now, op);
    case Crashes => RestartMirrors(s, store, op);
    case _ => ActMirrors(s, store, a, op);
  }

  // ---------- what the file says about settlements ----------

  /** Of a record inserted since the last restart, the file holds a settlement exactly if one reached it. */
  ghost predicate PendsAt(s: State, store: J.Store, k: Key) {
    InsertedHere(s, k) && k in s.journal ==> (T.Pending(store.log, k) <==> k !in s.marks.last)
  }

  lemma EffectPends(s: State, t: State, store: J.Store, eff: Effect, op: J.Op, k: Key)
    requires PendsAt(s, store, k) && MirrorsAt(s, store, k) && Asks(eff, s.journal, op) && J.Enabled(store, op)
    requires RecordTold(k, s.journal, s.owner, s.marks)
    requires t.journal == JournalAfter(s.journal, eff) && t.marks == MarksAfter(s.marks, eff, s.journal)
    requires InsertedHere(t, k) ==> InsertedHere(s, k) || (eff.Put? && eff.sub.key == k)
    requires eff.Put? ==> J.Decide(s.journal, eff.sub.key, eff.sub.hash, eff.sub.created).Inserted?
                          && MirrorsAt(s, store, eff.sub.key)
    requires eff.Settle? ==> MirrorsAt(s, store, eff.key)
    ensures PendsAt(t, J.Apply(store, op), k)
  {
    if eff.Put? {
      var line := J.Rec(J.InsertRec(op.key, op.hash, Running, op.created, op.expires));
      assert J.Apply(store, op).log == store.log + [line];
      T.PendingAppend(store.log, line, k);
    } else if eff.Settle? && eff.ok && eff.key in s.journal {
      var line := J.Rec(J.SettleRec(op.key, op.result));
      assert J.Apply(store, op).log == store.log + [line];
      T.PendingAppend(store.log, line, k);
    }
  }

  lemma ActPends(s: State, store: J.Store, a: Action, op: J.Op)
    requires Mirrors(s, store) && AllTold(s) && AllBlank(s) && SubmitsOk(s) && Enabled(s, a) && ByEffect(a)
    requires Does(s, a, op) && J.Enabled(store, op) && forall k :: PendsAt(s, store, k)
    ensures forall k :: PendsAt(Apply(s, a), J.Apply(store, op), k)
  {
    EffectStep(s, a);
    var eff := EffectOf(s, a);
    forall k ensures PendsAt(Apply(s, a), J.Apply(store, op), k) {
      assert PendsAt(s, store, k) && MirrorsAt(s, store, k) && RecordTold(k, s.journal, s.owner, s.marks);
      assert (eff.Put? ==> MirrorsAt(s, store, eff.sub.key)) && (eff.Settle? ==> MirrorsAt(s, store, eff.key));
      EffectPends(s, Apply(s, a), store, eff, op, k);
    }
  }

  lemma PurgePends(s: State, store: J.Store, now: int, op: J.Op)
    requires Mirrors(s, store) && AllTold(s) && AllBlank(s) && J.WellFormed(store.entries)
    requires op.Purge? && op.now == now && J.Enabled(store, op) && forall k :: PendsAt(s, store, k)
    ensures forall k :: PendsAt(Purged(s, now), J.Apply(store, op), k)
  {
    forall k ensures PendsAt(Purged(s, now), J.Apply(store, op), k) {
      assert PendsAt(s, store, k) && MirrorsAt(s, store, k) && RecordTold(k, s.journal, s.owner, s.marks);
      assert BlankUntilSettled(k, s.journal, s.submits, s.marks);
      PurgePendsAt(s, store, now, op, k);
    }
  }

  lemma PurgePendsAt(s: State, store: J.Store, now: int, op: J.Op, k: Key)
    requires PendsAt(s, store, k) && MirrorsAt(s, store, k) && RecordTold(k, s.journal, s.owner, s.marks)
    requires BlankUntilSettled(k, s.journal, s.submits, s.marks) && J.WellFormed(store.entries)
    requires op.Purge? && op.now == now && J.Enabled(store, op)
    ensures PendsAt(Purged(s, now), J.Apply(store, op), k)
  {
    if k in Purged(s, now).journal && InsertedHere(s, k) {
      assert s.journal[k] == store.entries[k];
      PurgedLog(store, op, k);
    }
  }

  /** A purge that rewrites the file writes down the settlements the map knows. */
  lemma PurgedLog(store: J.Store, op: J.Op, k: Key)
    requires J.WellFormed(store.entries) && op.Purge? && J.Enabled(store, op) && k in J.Unexpired(store.entries, op.now)
    ensures var log := J.Apply(store, op).log;
            log == store.log || (T.Pending(log, k) <==> store.entries[k].result.None?)
  {
    var kept := J.Unexpired(store.entries, op.now);
    if op.rewrite.Some? && kept != store.entries {
      assert kept.Keys == J.Live(store.entries, op.now);
      T.CompactPending(kept, op.rewrite.value, k);
    }
  }

  lemma StepPends(s: State, store: J.Store, a: Action, op: J.Op)
    requires Mirrors(s, store) && J.Faithful(store) && AllTold(s) && AllBlank(s) && SubmitsOk(s)
    requires Enabled(s, a) && Does(s, a, op) && J.Enabled(store, op) && forall k :: PendsAt(s, store, k)
    ensures forall k :: PendsAt(Apply(s, a), J.Apply(store, op), k)
  {
    match a
    case Tick(until) =>
      forall k ensures PendsAt(Apply(s, a), J.Apply(store, op), k) {
        assert PendsAt(s, store, k);
      }
    case Purges(now) => PurgePends(s, store, now, op);
    case Crashes =>
    case _ => ActPends(s, store, a, op);
  }

  // ---------- whole runs ----------

  /** The file of every run keeps to the engine's map, across restarts that read it. */
  lemma {:induction false} FileFollows(s0: State, actions: seq<Action>, ops: seq<J.Op>)
    requires Init(s0) && Exec(s0, actions).Some? && Files(s0, actions, ops)
    ensures var store := J.Exec(s0.clock, ops).value;
            && Mirrors(Exec(s0, actions).value, store) && T.Sound(store)
            && forall k :: PendsAt(Exec(s0, actions).value, store, k)
    decreases |actions|
  {
    T.ExecSound(s0.clock, ops);
    if actions != [] {
      var before, a := actions[..|actions| - 1], actions[|actions| - 1];
      var did, op := ops[..|ops| - 1], ops[|ops| - 1];
      var s, was := Exec(s0, before).value, J.Exec(s0.clock, did).value;
      FileFollows(s0, before, did);
      ExecTold(s0, before);
      ExecBlank(s0, before);
      ExecOnce(s0, before);
      StepMirrors(s, was, a, op);
      StepPends(s, was, a, op);
    }
  }

  /** A restart that reads the file finds what the model of the restart says, leaving out the made-up
      completion times. */
  lemma RestartReadsFile(s0: State, actions: seq<Action>, ops: seq<J.Op>, order: seq<Key>)
    requires Init(s0) && Exec(s0, actions).Some? && Files(s0, actions, ops)
    requires J.Enabled(J.Exec(s0.clock, ops).value, J.Reopen(order))
    ensures J.AllAlike(Crashed(Exec(s0, actions).value).journal,
                       J.ApplyReopen(J.Exec(s0.clock, ops).value, order).entries)
  {
    var s, store := Exec(s0, actions).value, J.Exec(s0.clock, ops).value;
    FileFollows(s0, actions, ops);
    RestartMirrors(s, store, J.Reopen(order));
    MirrorsAlike(Crashed(s), J.Apply(store, J.Reopen(order)));
  }

  lemma MirrorsAlike(s: State, store: J.Store)
    requires Mirrors(s, store)
    ensures J.AllAlike(s.journal, store.entries)
  {
    forall k
      ensures k in s.journal <==> k in store.entries
      ensures k in s.journal ==> J.Alike(s.journal[k], store.entries[k])
    {
      assert MirrorsAt(s, store, k);
    }
  }

  // ---------- which settlements keep the file readable ----------

  /** The step settles a record. */
  ghost predicate Resolves(s: State, a: Action)
    requires Enabled(s, a)
  {
    var eff := EffectOf(s, a);
    eff.Settle? && eff.ok && eff.key in s.journal
  }

  /** The exact condition, also for records found by a restart: after a run in which the file journal
      settled no record twice, a further settlement leaves the file readable at all later times if and
      only if the file holds none for that record yet. For a record inserted since the last restart that
      is: no settlement has reached it. */
  lemma FileReadableIff(s0: State, actions: seq<Action>, ops: seq<J.Op>, a: Action)
    requires Init(s0) && Exec(s0, actions).Some? && Files(s0, actions, ops) && T.SettledOnce(s0.clock, ops)
    requires Enabled(Exec(s0, actions).value, a) && Resolves(Exec(s0, actions).value, a)
    ensures var s, store := Exec(s0, actions).value, J.Exec(s0.clock, ops).value;
            var eff := EffectOf(s, a);
            && ((forall now :: now >= s.clock ==>
                   J.Replay(J.ApplySettle(store, eff.key, eff.result).log, now).Scanning?)
                <==> eff.key !in T.Held(s0.clock, ops))
            && (InsertedHere(s, eff.key) ==> (eff.key in T.Held(s0.clock, ops) <==> eff.key in s.marks.last))
  {
    var s, store := Exec(s0, actions).value, J.Exec(s0.clock, ops).value;
    var eff := EffectOf(s, a);
    FileFollows(s0, actions, ops);
    assert PendsAt(s, store, eff.key) && MirrorsAt(s, store, eff.key);
    T.ExecHeld(s0.clock, ops);
    T.ExecClean(s0.clock, ops);
    T.SettleReplayableIff(store, eff.key, eff.result);
  }

  /** Every settlement of the run is the first to reach its record, inserted since the last restart. */
  ghost predicate SettlesFresh(s0: State, actions: seq<Action>)
    requires Exec(s0, actions).Some?
    decreases |actions|
  {
    actions == [] ||
    var before, a := actions[..|actions| - 1], actions[|actions| - 1];
    var s := Exec(s0, before).value;
    && SettlesFresh(s0, before)
    && (Resolves(s, a) ==> InsertedHere(s, EffectOf(s, a).key) && EffectOf(s, a).key !in s.marks.last)
  }

  lemma {:induction false} FreshSettledOnce(s0: State, actions: seq<Action>, ops: seq<J.Op>)
    requires Init(s0) && Exec(s0, actions).Some? && Files(s0, actions, ops) && SettlesFresh(s0, actions)
    ensures T.SettledOnce(s0.clock, ops)
    decreases |actions|
  {
    if actions != [] {
      var before, did := actions[..|actions| - 1], ops[..|ops| - 1];
      FreshSettledOnce(s0, before, did);
      FileFollows(s0, before, did);
      FreshSettlement(Exec(s0, before).value, J.Exec(s0.clock, did).value, actions[|actions| - 1], ops[|ops| - 1]);
    }
  }

  lemma FreshSettlement(s: State, store: J.Store, a: Action, op: J.Op)
    requires Enabled(s, a) && Does(s, a, op) && forall k :: PendsAt(s, store, k)
    requires Resolves(s, a) ==> InsertedHere(s, EffectOf(s, a).key) && EffectOf(s, a).key !in s.marks.last
    ensures T.SettlesOnce(store, op)
  {
    if op.Settle? {
      assert PendsAt(s, store, op.key);
    }
  }

  lemma ReportsAcross(mine: J.Entry, stored: J.Entry, found: J.Entry)
    requires J.Alike(mine, stored) && T.Reports(stored, found) && (stored.result.None? ==> stored.status == Running)
    ensures T.Reports(mine, found)
  {
  }

  /** A run whose settlements are fresh, with restarts anywhere, leaves a file that can be opened at any later
      time and then reports exactly the engine's unexpired records: the settled ones as they are, the unsettled
      ones as interrupted, with an unknown outcome and no payload. */
  lemma FreshRunReadable(s0: State, actions: seq<Action>, ops: seq<J.Op>, now: int)
    requires Init(s0) && Exec(s0, actions).Some? && Files(s0, actions, ops) && SettlesFresh(s0, actions)
    requires now >= Exec(s0, actions).value.clock
    ensures var store := J.Exec(s0.clock, ops).value;
            var mine, scan := Exec(s0, actions).value.journal, J.Replay(store.log, now);
            && scan.Scanning?
            && (forall k :: k in scan.entries <==> k in mine && mine[k].expiresAt >= now)
            && forall k :: k in scan.entries ==> T.Reports(mine[k], J.Recover(scan.entries, now)[k])
  {
    FreshSettledOnce(s0, actions, ops);
    FileFollows(s0, actions, ops);
    var s, store := Exec(s0, actions).value, J.Exec(s0.clock, ops).value;
    MirrorsAlike(s, store);
    T.ReplayRefinesMap(s0.clock, ops, now);
    T.ExecUnsettledRun(s0.clock, ops);
    var scan := J.Replay(store.log, now);
    forall k | k in scan.entries ensures k in s.journal && T.Reports(s.journal[k], J.Recover(scan.entries, now)[k]) {
      ReportsAcross(s.journal[k], store.entries[k], J.Recover(scan.entries, now)[k]);
    }
  }

  // ---------- such a file exists ----------

  lemma CreatedBefore(s: State, a: Action)
    requires Timely(s.submits, s.clock) && Enabled(s, a) && EffectOf(s, a).Put?
    ensures EffectOf(s, a).sub.created <= s.clock
  {
    match a
    case BySubmit(i, move) => SubmitTimely(s, i, move);
    case ByQueue(d, turn) => QueuePutsNothing(s, d, turn);
    case Panics(_) =>
    case _ =>
  }

  /** What the file journal does in a step; only a restart can find that it cannot be done. */
  ghost function OpOf(s: State, a: Action): (op: J.Op)
    requires Enabled(s, a) && !a.Crashes?
    ensures Does(s, a, op)
  {
    if a.Tick? then J.Wait(a.until)
    else if a.Purges? then J.Purge(a.now, None)
    else
      var eff := EffectOf(s, a);
      if eff.Put? then J.Insert(eff.sub.key, eff.sub.hash, eff.sub.created, eff.sub.expires)
      else if eff.Settle? && eff.ok && eff.key in s.journal then J.Settle(eff.key, eff.result)
      else J.WriteFails
  }

  lemma {:induction false} Listing(keys: set<Key>) returns (order: seq<Key>)
    ensures J.Lists(order, keys)
    decreases |keys|
  {
    if keys == {} {
      order := [];
    } else {
      var k :| k in keys;
      var rest := Listing(keys - {k});
      order := rest + [k];
    }
  }

  lemma FileGoesOn(s0: State, actions: seq<Action>, ops: seq<J.Op>, a: Action) returns (op: J.Op)
    requires Init(s0) && Exec(s0, actions).Some? && Files(s0, actions, ops) && Enabled(Exec(s0, actions).value, a)
    requires a.Crashes? ==> SettlesFresh(s0, actions)
    ensures Does(Exec(s0, actions).value, a, op) && J.Enabled(J.Exec(s0.clock, ops).value, op)
  {
    var s, store := Exec(s0, actions).value, J.Exec(s0.clock, ops).value;
    FileFollows(s0, actions, ops);
    if a.Crashes? {
      FreshRunReadable(s0, actions, ops, s.clock);
      var order := Listing(J.Replay(store.log, store.clock).entries.Keys);
      op := J.Reopen(order);
    } else {
      ExecSpaced(s0, actions);
      if EffectOf(s, a).Put? {
        CreatedBefore(s, a);
      }
      op := OpOf(s, a);
    }
  }

  /** Every run whose settlements are fresh has a file, restarts included; so has every run without one. */
  lemma {:induction false} FileExists(s0: State, actions: seq<Action>) returns (ops: seq<J.Op>)
    requires Init(s0) && Exec(s0, actions).Some?
    requires SettlesFresh(s0, actions) || forall n :: 0 <= n < |actions| ==> !actions[n].Crashes?
    ensures Files(s0, actions, ops)
    decreases |actions|
  {
    if actions == [] {
      ops := [];
    } else {
      var before, a := actions[..|actions| - 1], actions[|actions| - 1];
      var did := FileExists(s0, before);
      var op := FileGoesOn(s0, before, did, a);
      ops := did + [op];
      assert ops[..|ops| - 1] == did;
    }
  }
}
