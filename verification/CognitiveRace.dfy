/** The tenth attempt: what a slow read loop costs the retry bound, and when the bound of nine holds. */
module CognitiveRace {
  import opened CognitiveStream
  import opened CognitiveExclusion
  import opened CognitiveRuns
  import opened CognitiveOverlap

  // The goroutine the read loop started late: hanging in its attempt with the one slot it took, or, if there is no
  // second slot, waiting for its turn.
  function Hung(slots: nat): map<nat, Task> {
    map[0 := Task(0, 0, if slots == 0 then Queued else Running)]
  }

  lemma {:induction false} NoStartNoAttempt(cap: nat, s: State, run: seq<Action>)
    requires Valid(cap, s, run) && forall i | 0 <= i < |run| :: !run[i].Acquire? && !run[i].Start?
    ensures Attempts(cap, s, run, 0) == 0
    decreases |run|
  {
    if run != [] {
      NoStartNoAttempt(cap, Apply(cap, s, run[0]), run[1..]);
    }
  }

  // The race won by the reclaim loop.
  lemma ReachRace(cap: nat, lag: nat)
    requires lag > RETRY_IDLE
    ensures Leads(cap, lag, INIT, SLOW_READ[..3] + [Snapshot([Seen(0, 1)]), Check, Dispatch], RACED, 0)
  {
    var tail := [Snapshot([Seen(0, 1)]), Check, Dispatch];
    ReachLate(cap, lag);
    ReachRaced(cap, lag);
    NoStartNoAttempt(cap, INIT, SLOW_READ[..3]);
    NoStartNoAttempt(cap, LATE, tail);
    Join(cap, lag, INIT, SLOW_READ[..3], LATE, 0, tail, RACED, 0);
  }

  // It leaves the read loop's goroutine behind the reclaimed one, in its attempt if there are two slots.
  lemma LeaveHung(cap: nat, lag: nat, slots: nat) returns (run: seq<Action>)
    requires slots < cap && slots <= 1
    ensures Leads(cap, lag, RACED, run, Resting(2, 2, RETRY_IDLE, Hung(slots), slots), 1 + slots)
    ensures slots == 1 ==> run != [] && run[0] == Acquire(0)
  {
    var hanging := Sole(1, 0, RETRY_IDLE, Process([], {0}, Hung(slots), 1, slots, Checked(Seen(0, 1), [])));
    run := Reclaim(cap, lag, slots);
    if slots == 1 {
      One(cap, lag, RACED, Acquire(0), hanging);
      Join(cap, lag, RACED, [Acquire(0)], hanging, 1, run, Resting(2, 2, RETRY_IDLE, Hung(slots), slots), 1);
      run := [Acquire(0)] + run;
    } else {
      assert RACED == hanging;
    }
  }

  lemma Reclaim(cap: nat, lag: nat, slots: nat) returns (run: seq<Action>)
    requires slots < cap
    ensures Leads(cap, lag, Sole(1, 0, RETRY_IDLE, Process([], {0}, Hung(slots), 1, slots, Checked(Seen(0, 1), []))),
                  run, Resting(2, 2, RETRY_IDLE, Hung(slots), slots), 1)
  {
    var now, live := RETRY_IDLE, Hung(slots);
    var s0 := Sole(1, 0, now, Process([], {0}, live, 1, slots, Checked(Seen(0, 1), [])));
    ClaimTurn(cap, lag, 1, 1, 0, now, {0}, live, slots);
    var fail := FailedAttempt(cap, lag, 1, 1, now, live, slots);
    run := ([Claim] + [Store]) + fail;
    Join(cap, lag, s0, [Claim] + [Store], Reclaimed(1, 1, now, live, slots), 0,
         fail, Resting(2, 2, now, live, slots), 1);
  }

  // The eighth delivery has failed; the ninth is announced while the hung goroutine has its slot.
  lemma NinthAnnounced(cap: nat, lag: nat, k: nat, now: nat, slots: nat) returns (run: seq<Action>)
    requires slots < cap && slots <= 1 && k >= 1
    ensures Leads(cap, lag, Resting(8, k, now, Hung(slots), slots), run,
                  Reclaimed(8, k, now + RETRY_IDLE, Hung(1), 1), 1 - slots)
  {
    var s0, s1 := Resting(8, k, now, Hung(slots), slots), Resting(8, k, now, Hung(1), 1);
    run := ReclaimTurn(cap, lag, 8, k, now, Hung(1), 1);
    if slots == 0 {
      One(cap, lag, s0, Acquire(0), s1);
      Join(cap, lag, s0, [Acquire(0)], s1, 1, run, Reclaimed(8, k, now + RETRY_IDLE, Hung(1), 1), 0);
      run := [Acquire(0)] + run;
    }
  }

  // The hung goroutine fails and releases the id, and the ninth delivery runs unseen by the in-flight check.
  lemma NinthUnseen(cap: nat, lag: nat, k: nat, now: nat) returns (run: seq<Action>)
    requires cap >= 1 && k >= 1
    ensures Leads(cap, lag, Reclaimed(8, k, now, Hung(1), 1), run,
                  Resting(9, k + 1, now, map[k := Task(0, 7, Running)], 1), 1)
  {
    var live: map<nat, Task> := map[];
    var s0 := Reclaimed(8, k, now, live[0 := Task(0, 0, Running)], 1);
    var s2 := Sole(9, now, now, Process([], {}, live, k, 0, Stored(0, 7, [])));
    var s3 := Sole(9, now, now, Process([], {}, map[k := Task(0, 7, Running)], k + 1, 1, Scanning([])));
    var fail := [Finish(0, Transient)] + [Release(0)];
    FailRunning(cap, lag, 9, k, 0, 0, live, 0, Stored(0, 7, []), now);
    One(cap, lag, s2, Start, s3);
    One(cap, lag, s3, Check, Resting(9, k + 1, now, map[k := Task(0, 7, Running)], 1));
    assert live[0 := Task(0, 0, Running)] == Hung(1);
    Join(cap, lag, s0, fail, s2, 0, [Start], s3, 1);
    Join(cap, lag, s0, fail + [Start], s3, 1, [Check], Resting(9, k + 1, now, map[k := Task(0, 7, Running)], 1), 0);
    run := fail + [Start] + [Check];
  }

  // The entry acknowledged and in the dead-letter queue; a tenth delivery, claimed before, waits for a slot.
  function TenthAnnounced(k: nat, now: nat): State {
    State(Redis([0], 1, map[], {0}, [0], now), Process([], {}, map[], k + 1, 0, Stored(0, 8, [])), {}, 0)
  }

  // The ninth goroutine on its way out.
  function Ninth(r: Redis, k: nat, phase: Phase): State {
    State(r, Process([], {0}, map[k := Task(0, 7, phase)], k + 1, 1, Stored(0, 8, [])), {}, 0)
  }

  lemma NinthFails(cap: nat, lag: nat, k: nat, now: nat)
    ensures Leads(cap, lag, Reclaimed(9, k + 1, now, map[k := Task(0, 7, Running)], 1),
                  [Finish(k, Transient)] + [DeadLetter(k)],
                  Ninth(Redis([0], 1, map[0 := Entry(10, now)], {}, [0], now), k, Acking), 0)
  {
    var r := Redis([0], 1, map[0 := Entry(10, now)], {}, [], now);
    var s0, s2 := Ninth(r, k, Running), Ninth(r.(dlq := [0]), k, Acking);
    assert s0 == Reclaimed(9, k + 1, now, map[k := Task(0, 7, Running)], 1);
    One(cap, lag, s0, Finish(k, Transient), Ninth(r, k, DeadLettering));
    One(cap, lag, Ninth(r, k, DeadLettering), DeadLetter(k), s2);
    Join(cap, lag, s0, [Finish(k, Transient)], Ninth(r, k, DeadLettering), 0, [DeadLetter(k)], s2, 0);
  }

  lemma NinthLeaves(cap: nat, lag: nat, k: nat, now: nat)
    ensures Leads(cap, lag, Ninth(Redis([0], 1, map[0 := Entry(10, now)], {}, [0], now), k, Acking),
                  [Ack(k)] + [Release(k)],
                  TenthAnnounced(k, now), 0)
  {
    var r, r' := Redis([0], 1, map[0 := Entry(10, now)], {}, [0], now), Redis([0], 1, map[], {0}, [0], now);
    assert r.pending - {0} == map[];
    assert Ninth(r', k, Returning).p.live - {k} == map[];
    One(cap, lag, Ninth(r, k, Acking), Ack(k), Ninth(r', k, Returning));
    One(cap, lag, Ninth(r', k, Returning), Release(k), TenthAnnounced(k, now));
    Join(cap, lag, Ninth(r, k, Acking), [Ack(k)], Ninth(r', k, Returning), 0, [Release(k)], TenthAnnounced(k, now), 0);
  }

  lemma TenthDies(cap: nat, lag: nat, k: nat, now: nat) returns (run: seq<Action>, s': State)
    requires cap >= 1
    ensures Leads(cap, lag, TenthAnnounced(k, now), run, s', 1) && s'.r.dlq == [0, 0] && s'.crashes == 0
  {
    var s0 := TenthAnnounced(k, now);
    var s1 := s0.(p := Process([], {}, map[k + 1 := Task(0, 8, Running)], k + 2, 1, Scanning([])));
    var s2 := s0.(p := s1.p.(live := map[k + 1 := Task(0, 8, DeadLettering)]));
    s' := s0.(r := s0.r.(dlq := [0, 0]), p := s1.p.(live := map[k + 1 := Task(0, 8, Acking)]));
    One(cap, lag, s0, Start, s1);
    One(cap, lag, s1, Finish(k + 1, Transient), s2);
    assert [0] + [0] == [0, 0];
    One(cap, lag, s2, DeadLetter(k + 1), s');
    Join(cap, lag, s0, [Start], s1, 1, [Finish(k + 1, Transient)], s2, 0);
    Join(cap, lag, s0, [Start] + [Finish(k + 1, Transient)], s2, 1, [DeadLetter(k + 1)], s', 0);
    run := [Start] + [Finish(k + 1, Transient)] + [DeadLetter(k + 1)];
  }

  // The ninth attempt is dead-lettered, but a tenth was claimed before: it starts, fails too, and is dead-lettered
  // again.
  lemma TenthStarts(cap: nat, lag: nat, k: nat, now: nat) returns (run: seq<Action>, s': State)
    requires cap >= 1
    ensures Leads(cap, lag, Reclaimed(9, k + 1, now, map[k := Task(0, 7, Running)], 1), run, s', 1)
    ensures s'.r.dlq == [0, 0] && s'.crashes == 0
  {
    var s0 := Reclaimed(9, k + 1, now, map[k := Task(0, 7, Running)], 1);
    var s2 := Ninth(Redis([0], 1, map[0 := Entry(10, now)], {}, [0], now), k, Acking);
    var fails, leaves := [Finish(k, Transient)] + [DeadLetter(k)], [Ack(k)] + [Release(k)];
    NinthFails(cap, lag, k, now);
    NinthLeaves(cap, lag, k, now);
    Join(cap, lag, s0, fails, s2, 0, leaves, TenthAnnounced(k, now), 0);
    var ten, last := TenthDies(cap, lag, k, now);
    Join(cap, lag, s0, fails + leaves, TenthAnnounced(k, now), 0, ten, last, 1);
    run, s' := fails + leaves + ten, last;
  }

  // From the race to the ninth delivery, announced: eight attempts.
  lemma EightFail(cap: nat, lag: nat, slots: nat) returns (run: seq<Action>, now: nat)
    requires slots < cap && slots <= 1
    ensures Leads(cap, lag, RACED, run, Reclaimed(8, 8, now, Hung(1), 1), 8)
    ensures slots == 1 ==> run != [] && run[0] == Acquire(0)
  {
    var first := LeaveHung(cap, lag, slots);
    var more, t := FailingAttempts(cap, lag, 2, 8, 2, RETRY_IDLE, Hung(slots), slots);
    var last := NinthAnnounced(cap, lag, 8, t, slots);
    now := t + RETRY_IDLE;
    Join(cap, lag, RACED, first, Resting(2, 2, RETRY_IDLE, Hung(slots), slots), 1 + slots,
         more, Resting(8, 8, t, Hung(slots), slots), 6);
    Join(cap, lag, RACED, first + more, Resting(8, 8, t, Hung(slots), slots), 7 + slots,
         last, Reclaimed(8, 8, now, Hung(1), 1), 1 - slots);
    run := first + more + last;
  }

  // The other two, and both dead letters.
  lemma TwoMore(cap: nat, lag: nat, now: nat) returns (run: seq<Action>, s': State)
    requires cap >= 1
    ensures Leads(cap, lag, Reclaimed(8, 8, now, Hung(1), 1), run, s', 2) && s'.r.dlq == [0, 0] && s'.crashes == 0
  {
    var s0, live := Reclaimed(8, 8, now, Hung(1), 1), map[8 := Task(0, 7, Running)];
    var ninth := NinthUnseen(cap, lag, 8, now);
    var claim := ReclaimTurn(cap, lag, 9, 9, now, live, 1);
    var tenth;
    tenth, s' := TenthStarts(cap, lag, 8, now + RETRY_IDLE);
    Join(cap, lag, s0, ninth, Resting(9, 9, now, live, 1), 1, claim, Reclaimed(9, 9, now + RETRY_IDLE, live, 1), 0);
    Join(cap, lag, s0, ninth + claim, Reclaimed(9, 9, now + RETRY_IDLE, live, 1), 1, tenth, s', 1);
    run := ninth + claim + tenth;
  }

  /** The tenth attempt is real once the read loop can be slow: some crash-free run starts ten attempts on one entry,
      and dead-letters it twice. With two slots the goroutine that is dispatched late takes one at once and hangs
      in its attempt. */
  lemma TenAttemptsHappen(cap: nat, lag: nat) returns (run: seq<Action>)
    requires cap >= 1 && lag > 120
    ensures Valid(cap, INIT, run) && LagBelowIn(cap, lag, INIT, run) && CountCrashes(run) == 0
    ensures Attempts(cap, INIT, run, 0) == 10 && Exec(cap, INIT, run).r.dlq == [0, 0]
    ensures cap >= 2 ==> |run| > 6 && run[5..7] == [Dispatch, Acquire(0)]
  {
    var race := SLOW_READ[..3] + [Snapshot([Seen(0, 1)]), Check, Dispatch];
    var eight, now := EightFail(cap, lag, if cap >= 2 then 1 else 0);
    var two, s' := TwoMore(cap, lag, now);
    ReachRace(cap, lag);
    Join(cap, lag, INIT, race, RACED, 0, eight, Reclaimed(8, 8, now, Hung(1), 1), 8);
    Join(cap, lag, INIT, race + eight, Reclaimed(8, 8, now, Hung(1), 1), 8, two, s', 2);
    run := race + eight + two;
    SameCrashes(cap, INIT, run);
    assert race[5] == Dispatch;
  }

  /** When the bounds hold. Nine attempts, and one more for each crash, are the most in all runs whose read-loop lag
      stays below `lag`, and one dead letter and one more for each crash, exactly if `lag` is at most the idle
      threshold. Beyond it ten attempts and two dead letters are reached, and never exceeded
      (EveryRunBound, EveryRunLetters). */
  lemma RetryBoundIffPromptReadLoop(cap: nat, lag: nat)
    requires cap >= 1
    ensures lag <= 120 <==>
      forall run, id :: Valid(cap, INIT, run) && LagBelowIn(cap, lag, INIT, run) ==>
        Attempts(cap, INIT, run, id) <= 9 + CountCrashes(run)
    ensures lag <= 120 <==>
      forall run, id :: Valid(cap, INIT, run) && LagBelowIn(cap, lag, INIT, run) ==>
        multiset(Exec(cap, INIT, run).r.dlq)[id] <= 1 + CountCrashes(run)
  {
    if lag <= RETRY_IDLE {
      forall run, id | Valid(cap, INIT, run) && LagBelowIn(cap, lag, INIT, run)
        ensures Attempts(cap, INIT, run, id) <= 9 + CountCrashes(run)
        ensures multiset(Exec(cap, INIT, run).r.dlq)[id] <= 1 + CountCrashes(run)
      {
        LagMonotone(cap, lag, RETRY_IDLE, INIT, run);
        RetryBound(cap, run, id);
      }
    } else {
      var run := TenAttemptsHappen(cap, lag);
      assert multiset([0, 0])[0] == 2;
    }
  }
}
