/** Putting runs together, and the run that takes a fresh request into its device's queue. */
module EngineRuns {
  import opened ControlTypes
  import opened Engine
  import J = Journal

  lemma ExecOne(s: State, a: Action)
    requires Enabled(s, a)
    ensures Exec(s, [a]) == Some(Apply(s, a))
  {
    assert [a][..0] == [];
  }

  lemma ExecThen(s: State, a: Action, rest: seq<Action>)
    requires Enabled(s, a) && Exec(Apply(s, a), rest).Some?
    ensures Exec(s, [a] + rest) == Exec(Apply(s, a), rest)
  {
    ExecOne(s, a);
    ExecBoth(s, [a], rest);
  }

  lemma {:induction false} ExecBoth(s: State, first: seq<Action>, second: seq<Action>)
    requires Exec(s, first).Some? && Exec(Exec(s, first).value, second).Some?
    ensures Exec(s, first + second) == Exec(Exec(s, first).value, second)
    decreases |second|
  {
    if second == [] {
      assert first + second == first;
    } else {
      var init := second[..|second| - 1];
      assert (first + second)[..|first| + |init|] == first + init;
      ExecBoth(s, first, init);
    }
  }

  /** The state after a step, or None if it is not enabled. */
  ghost function Next(s: State, a: Action): Option<State> {
    if Enabled(s, a) then Some(Apply(s, a)) else None
  }

  /** If every step of `run` takes a state that is as it should be to the next such state, the run exists. */
  lemma {:induction false} Follow(s: State, run: seq<Action>, at: (nat, State) -> bool, n: nat)
    requires n <= |run| && at(0, s)
    requires forall k: nat, t :: k < |run| && at(k, t) ==> Next(t, run[k]).Some? && at(k + 1, Next(t, run[k]).value)
    ensures Exec(s, run[..n]).Some? && at(n, Exec(s, run[..n]).value)
  {
    if n > 0 {
      Follow(s, run, at, n - 1);
      assert run[..n][..n - 1] == run[..n - 1];
    }
  }

  // ---------- admission ----------

  /** A request comes in and goes all the way to its device's queue. */
  function Admission(key: Key, hash: string, retention: nat, timeout: nat, i: Sid): seq<Action> {
    [Arrives(key, hash, retention), BySubmit(i, Registers), BySubmit(i, Inserts(true)), BySubmit(i, Decides),
     BySubmit(i, Checks(None, timeout)), Enqueues(i)]
  }

  predicate Admissible(s: State, key: Key) {
    !s.closed && key !in s.active && key !in s.journal && !QueueOf(s.queues, key.device).closed
  }

  /** What an admission leaves alone. */
  predicate Alongside(s: State, t: State) {
    && t.clock == s.clock && t.cooldown == s.cooldown && !t.closed && t.cells == s.cells
    && t.cancelled == s.cancelled && t.hist == s.hist && t.doubts == s.doubts
  }

  ghost predicate Admitted(s: State, t: State, key: Key, hash: string, retention: nat, timeout: nat) {
    var i := |s.submits|;
    && Alongside(s, t)
    && t.submits == s.submits + [Submit(key, hash, s.clock, s.clock + retention, s.clock + timeout, i, Enqueued)]
    && t.active == s.active[key := i]
    && t.journal == s.journal[key := J.NewEntry(key, hash, s.clock, s.clock + retention)]
    && t.queues == s.queues[key.device := Taken(QueueOf(s.queues, key.device), i)]
    && key !in t.marks.last
  }

  /** Where the request stands after `n` steps of its admission. */
  ghost predicate OnTheWay(
    n: nat, s: State, t: State, key: Key, hash: string, retention: nat, timeout: nat)
  {
    var i := |s.submits|;
    var record := J.NewEntry(key, hash, s.clock, s.clock + retention);
    var pc := if n == 1 then Register else if n == 2 then Insert else if n == 3 then Decided(Answered(J.Inserted))
              else if n == 4 then Check else Enqueue;
    if n == 6 then Admitted(s, t, key, hash, retention, timeout)
    else
      && Admissible(s, key) && Alongside(s, t) && t.queues == s.queues
      && t.active == (if n >= 2 then s.active[key := i] else s.active)
      && t.journal == (if n >= 3 then s.journal[key := record] else s.journal)
      && (n >= 3 ==> key !in t.marks.last)
      && t.submits == (if n == 0 then s.submits
                       else s.submits + [Submit(key, hash, s.clock, s.clock + retention,
                                                if n == 5 then s.clock + timeout else 0, i, pc)])
  }

  lemma EdgeStep(n: nat, s: State, t: State, key: Key, hash: string, retention: nat, timeout: nat)
    requires (n == 0 || n == 5) && OnTheWay(n, s, t, key, hash, retention, timeout)
    ensures var a := Admission(key, hash, retention, timeout, |s.submits|)[n];
            Next(t, a).Some? && OnTheWay(n + 1, s, Next(t, a).value, key, hash, retention, timeout)
  {
  }

  lemma RecordingStep(n: nat, s: State, t: State, key: Key, hash: string, retention: nat, timeout: nat)
    requires (n == 1 || n == 2) && OnTheWay(n, s, t, key, hash, retention, timeout)
    ensures var a := Admission(key, hash, retention, timeout, |s.submits|)[n];
            Next(t, a).Some? && OnTheWay(n + 1, s, Next(t, a).value, key, hash, retention, timeout)
  {
  }

  lemma DecidingStep(n: nat, s: State, t: State, key: Key, hash: string, retention: nat, timeout: nat)
    requires n == 3 && OnTheWay(n, s, t, key, hash, retention, timeout)
    ensures var a := Admission(key, hash, retention, timeout, |s.submits|)[n];
            Next(t, a).Some? && OnTheWay(n + 1, s, Next(t, a).value, key, hash, retention, timeout)
  {
  }

  lemma CheckingStep(n: nat, s: State, t: State, key: Key, hash: string, retention: nat, timeout: nat)
    requires n == 4 && OnTheWay(n, s, t, key, hash, retention, timeout)
    ensures var a := Admission(key, hash, retention, timeout, |s.submits|)[n];
            Next(t, a).Some? && OnTheWay(n + 1, s, Next(t, a).value, key, hash, retention, timeout)
  {
  }

  lemma RequestAdmitted(s: State, key: Key, hash: string, retention: nat, timeout: nat)
    requires Admissible(s, key)
    ensures var run := Admission(key, hash, retention, timeout, |s.submits|);
            Exec(s, run).Some? && Admitted(s, Exec(s, run).value, key, hash, retention, timeout)
  {
    var run := Admission(key, hash, retention, timeout, |s.submits|);
    var at := (n: nat, t: State) => n <= 6 && OnTheWay(n, s, t, key, hash, retention, timeout);
    forall n: nat, t | n < |run| && at(n, t) ensures Next(t, run[n]).Some? && at(n + 1, Next(t, run[n]).value) {
      if n == 0 || n == 5 {
        EdgeStep(n, s, t, key, hash, retention, timeout);
      } else if n <= 2 {
        RecordingStep(n, s, t, key, hash, retention, timeout);
      } else if n == 3 {
        DecidingStep(n, s, t, key, hash, retention, timeout);
      } else {
        CheckingStep(n, s, t, key, hash, retention, timeout);
      }
    }
    Follow(s, run, at, 6);
    assert run[..6] == run;
  }
}
