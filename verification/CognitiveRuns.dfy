/** The bounds of CognitiveBounds over whole runs, and a run that reaches the retry bound. */
module CognitiveRuns {
  import opened CognitiveStream
  import opened CognitiveExclusion
  import opened CognitiveBounds

  function CountCrashes(run: seq<Action>): nat {
    if run == [] then 0 else (if run[0].Crash? then 1 else 0) + CountCrashes(run[1..])
  }

  // Attempts started for `id` in a run.
  function Attempts(cap: nat, s: State, run: seq<Action>, id: MsgId): nat
    requires Valid(cap, s, run)
    decreases |run|
  {
    if run == [] then 0
    else (if StartsAttempt(s, run[0], id) then 1 else 0) + Attempts(cap, Apply(cap, s, run[0]), run[1..], id)
  }

  // Actions of a run that make progress on `id`.
  function Work(cap: nat, s: State, run: seq<Action>, id: MsgId): nat
    requires Valid(cap, s, run)
    decreases |run|
  {
    if run == [] then 0
    else (if ActsOn(s, run[0], id) then 1 else 0) + Work(cap, Apply(cap, s, run[0]), run[1..], id)
  }

  // Dead letters owed to crashes, or to the one time `id` settles.
  ghost predicate DeadLettersWithin(s: State, id: MsgId) {
    multiset(s.r.dlq)[id] <= s.crashes + (if Settled(s, id) then 1 else 0)
  }

  lemma {:induction false} RunEffect(cap: nat, s: State, run: seq<Action>, id: MsgId)
    requires Inv(s) && Within(s, id) && Valid(cap, s, run) && LagBelowIn(cap, RETRY_IDLE, s, run)
    ensures var s' := Exec(cap, s, run);
      && Inv(s') && Within(s', id)
      && s'.crashes == s.crashes + CountCrashes(run)
      && Attempts(cap, s, run, id) + Tickets(s', id) <= Tickets(s, id) + CountCrashes(run)
      && (CountCrashes(run) == 0 ==> Work(cap, s, run, id) + Rank(s', id) <= Rank(s, id))
      && (DeadLettersWithin(s, id) ==> DeadLettersWithin(s', id))
    decreases |run|
  {
    if run != [] {
      InvStep(cap, s, run[0]);
      StepEffect(cap, s, run[0], id);
      RunEffect(cap, Apply(cap, s, run[0]), run[1..], id);
    }
  }

  lemma InitialRank(id: MsgId)
    ensures Inv(INIT) && Within(INIT, id) && DeadLettersWithin(INIT, id)
    ensures Tickets(INIT, id) == MAX_RETRIES + 1 && Rank(INIT, id) == 63
  {
  }

  /** The retry bound. An entry gets at most nine attempts, one more than the configured eight because the first
      reclaim passes the retries count of the first delivery again; a crash costs at most one more. It is
      dead-lettered at most once, and again at most once for each crash between the dead letter and its
      acknowledgement. */
  lemma RetryBound(cap: nat, run: seq<Action>, id: MsgId)
    requires Valid(cap, INIT, run) && LagBelowIn(cap, 120, INIT, run)
    ensures Attempts(cap, INIT, run, id) <= 9 + CountCrashes(run)
    ensures multiset(Exec(cap, INIT, run).r.dlq)[id] <= 1 + CountCrashes(run)
  {
    InitialRank(id);
    RunEffect(cap, INIT, run, id);
  }

  /** Without a crash, the group spends at most 63 productive actions on an entry over its whole life, so only
      ticks, replies and failed checks can go on for ever. */
  lemma WorkBound(cap: nat, run: seq<Action>, id: MsgId)
    requires Valid(cap, INIT, run) && LagBelowIn(cap, 120, INIT, run) && CountCrashes(run) == 0
    ensures Work(cap, INIT, run, id) <= 63
  {
    InitialRank(id);
    RunEffect(cap, INIT, run, id);
  }

  /* ---- Nine attempts do happen ---- */

  // A run from s to s', with a read-loop lag below `lag`, that starts n attempts on entry 0.
  ghost predicate Leads(cap: nat, lag: nat, s: State, run: seq<Action>, s': State, n: nat) {
    && Valid(cap, s, run) && LagBelowIn(cap, lag, s, run)
    && Exec(cap, s, run) == s' && Attempts(cap, s, run, 0) == n
  }

  lemma One(cap: nat, lag: nat, s: State, a: Action, s': State)
    requires Enabled(cap, s, a) && Apply(cap, s, a) == s' && LagBelow(lag, s) && LagBelow(lag, s')
    ensures Leads(cap, lag, s, [a], s', if StartsAttempt(s, a, 0) then 1 else 0)
  {
    assert [a][1..] == [];
  }

  lemma Join(cap: nat, lag: nat, s: State, run: seq<Action>, s': State, n: nat, more: seq<Action>, s'': State, m: nat)
    requires Leads(cap, lag, s, run, s', n) && Leads(cap, lag, s', more, s'', m)
    ensures Leads(cap, lag, s, run + more, s'', n + m)
    decreases |run|
  {
    if run == [] {
      assert run + more == more;
    } else {
      assert (run + more)[1..] == run[1..] + more;
      var t := Apply(cap, s, run[0]);
      Join(cap, lag, t, run[1..], s', Attempts(cap, t, run[1..], 0), more, s'', m);
    }
  }

  // The one entry of the log, delivered d times.
  function Sole(d: nat, last: nat, now: nat, p: Process): State {
    State(Redis([0], 1, map[0 := Entry(d, last)], {}, [], now), p, {}, 0)
  }

  // ... and not in flight, whatever goroutines there are.
  function Resting(d: nat, k: nat, now: nat, live: map<nat, Task>, slots: nat): State {
    Sole(d, now, now, Process([], {}, live, k, slots, Sleeping))
  }

  // ... and reclaimed, its next attempt waiting for a slot.
  function Reclaimed(d: nat, k: nat, now: nat, live: map<nat, Task>, slots: nat): State {
    Sole(d + 1, now, now, Process([], {0}, live, k, slots, Stored(0, d - 1, [])))
  }

  lemma ReclaimTurn(cap: nat, lag: nat, d: nat, k: nat, now: nat, live: map<nat, Task>, slots: nat)
    returns (run: seq<Action>)
    requires d >= 1
    ensures Leads(cap, lag, Resting(d, k, now, live, slots), run, Reclaimed(d, k, now + RETRY_IDLE, live, slots), 0)
  {
    var later := now + RETRY_IDLE;
    var s0 := Resting(d, k, now, live, slots);
    var s1 := Sole(d, now, later, s0.p);
    var s2 := Sole(d, now, later, s0.p.(reclaimer := Scanning([Seen(0, d)])));
    var s3 := Sole(d, now, later, s0.p.(reclaimer := Checked(Seen(0, d), [])));
    One(cap, lag, s0, Tick(RETRY_IDLE), s1);
    One(cap, lag, s1, Snapshot([Seen(0, d)]), s2);
    assert [Seen(0, d)][1..] == [];
    One(cap, lag, s2, Check, s3);
    Join(cap, lag, s0, [Tick(RETRY_IDLE)], s1, 0, [Snapshot([Seen(0, d)])], s2, 0);
    run := [Tick(RETRY_IDLE)] + [Snapshot([Seen(0, d)])];
    Join(cap, lag, s0, run, s2, 0, [Check], s3, 0);
    run := run + [Check];
    ClaimTurn(cap, lag, d, k, now, later, {}, live, slots);
    Join(cap, lag, s0, run, s3, 0, [Claim] + [Store], Reclaimed(d, k, later, live, slots), 0);
    run := run + ([Claim] + [Store]);
  }

  lemma ClaimTurn(cap: nat, lag: nat, d: nat, k: nat, last: nat, now: nat, inFlight: set<MsgId>, live: map<nat, Task>,
                  slots: nat)
    requires now - last >= RETRY_IDLE && d >= 1 && inFlight <= {0}
    ensures Leads(cap, lag, Sole(d, last, now, Process([], inFlight, live, k, slots, Checked(Seen(0, d), []))),
                  [Claim] + [Store], Reclaimed(d, k, now, live, slots), 0)
  {
    var s3 := Sole(d, last, now, Process([], inFlight, live, k, slots, Checked(Seen(0, d), [])));
    var s4 := Sole(d + 1, now, now, s3.p.(reclaimer := Claimed(0, d - 1, [])));
    assert inFlight + {0} == {0};
    One(cap, lag, s3, Claim, s4);
    One(cap, lag, s4, Store, Reclaimed(d, k, now, live, slots));
    Join(cap, lag, s3, [Claim], s4, 0, [Store], Reclaimed(d, k, now, live, slots), 0);
  }

  // A started attempt that fails for now, up to its release, while `slots` other slots are taken.
  lemma FailRunning(cap: nat, lag: nat, d: nat, k: nat, t: nat, retries: int, live: map<nat, Task>, slots: nat,
                    reclaimer: Reclaimer, now: nat)
    requires retries + 1 < MAX_RETRIES && t !in live
    ensures Leads(cap, lag,
                  Sole(d, now, now, Process([], {0}, live[t := Task(0, retries, Running)], k, slots + 1, reclaimer)),
                  [Finish(t, Transient)] + [Release(t)],
                  Sole(d, now, now, Process([], {}, live, k, slots, reclaimer)), 0)
  {
    var s0 := Sole(d, now, now, Process([], {0}, live[t := Task(0, retries, Running)], k, slots + 1, reclaimer));
    var s1 := Sole(d, now, now, s0.p.(live := live[t := Task(0, retries, Returning)]));
    var s2 := Sole(d, now, now, Process([], {}, live, k, slots, reclaimer));
    assert s1.p.live - {t} == live;
    One(cap, lag, s0, Finish(t, Transient), s1);
    One(cap, lag, s1, Release(t), s2);
    Join(cap, lag, s0, [Finish(t, Transient)], s1, 0, [Release(t)], s2, 0);
  }

  lemma FailedAttempt(cap: nat, lag: nat, d: nat, k: nat, now: nat, live: map<nat, Task>, slots: nat)
    returns (run: seq<Action>)
    requires slots < cap && 1 <= d < MAX_RETRIES && k !in live
    ensures Leads(cap, lag, Reclaimed(d, k, now, live, slots), run, Resting(d + 1, k + 1, now, live, slots), 1)
  {
    var s0 := Reclaimed(d, k, now, live, slots);
    var s1 :=
      Sole(d + 1, now, now, Process([], {0}, live[k := Task(0, d - 1, Running)], k + 1, slots + 1, Scanning([])));
    var s2 := Sole(d + 1, now, now, Process([], {}, live, k + 1, slots, Scanning([])));
    var fail := [Finish(k, Transient)] + [Release(k)];
    One(cap, lag, s0, Start, s1);
    FailRunning(cap, lag, d + 1, k + 1, k, d - 1, live, slots, Scanning([]), now);
    One(cap, lag, s2, Check, Resting(d + 1, k + 1, now, live, slots));
    Join(cap, lag, s0, [Start], s1, 1, fail, s2, 0);
    Join(cap, lag, s0, [Start] + fail, s2, 1, [Check], Resting(d + 1, k + 1, now, live, slots), 0);
    run := [Start] + fail + [Check];
  }

  // From d deliveries to e, every attempt failing for now.
  lemma {:induction false} FailingAttempts(cap: nat, lag: nat, d: nat, e: nat, k: nat, now: nat, live: map<nat, Task>,
                                           slots: nat)
    returns (run: seq<Action>, later: nat)
    requires slots < cap && 1 <= d <= e <= MAX_RETRIES && forall t | t in live :: t < k
    ensures Leads(cap, lag, Resting(d, k, now, live, slots), run, Resting(e, k + (e - d), later, live, slots), e - d)
    decreases e - d
  {
    if d == e {
      run, later := [], now;
    } else {
      var claim := ReclaimTurn(cap, lag, d, k, now, live, slots);
      var fail := FailedAttempt(cap, lag, d, k, now + RETRY_IDLE, live, slots);
      var rest;
      rest, later := FailingAttempts(cap, lag, d + 1, e, k + 1, now + RETRY_IDLE, live, slots);
      Join(cap, lag, Resting(d, k, now, live, slots), claim, Reclaimed(d, k, now + RETRY_IDLE, live, slots), 0,
           fail, Resting(d + 1, k + 1, now + RETRY_IDLE, live, slots), 1);
      Join(cap, lag, Resting(d, k, now, live, slots), claim + fail,
           Resting(d + 1, k + 1, now + RETRY_IDLE, live, slots), 1,
           rest, Resting(e, k + (e - d), later, live, slots), e - d - 1);
      run := claim + fail + rest;
    }
  }

  lemma FirstDelivery(cap: nat) returns (run: seq<Action>)
    ensures Leads(cap, RETRY_IDLE, INIT, run,
                  Sole(1, 0, 0, Process([], {0}, map[0 := Task(0, 0, Queued)], 1, 0, Sleeping)), 0)
  {
    var s1 := INIT.(r := XAdd(INIT.r, 0));
    var s2 := Sole(1, 0, 0, FRESH.(fetched := [0]));
    var s3 := Sole(1, 0, 0, Process([], {0}, map[0 := Task(0, 0, Queued)], 1, 0, Sleeping));
    One(cap, RETRY_IDLE, INIT, Add(0), s1);
    FirstRead(cap, s1, s2);
    FirstDispatch(cap, s2, s3);
    Join(cap, RETRY_IDLE, INIT, [Add(0)], s1, 0, [ReadGroup([0])], s2, 0);
    Join(cap, RETRY_IDLE, INIT, [Add(0)] + [ReadGroup([0])], s2, 0, [Dispatch], s3, 0);
    run := [Add(0)] + [ReadGroup([0])] + [Dispatch];
  }

  lemma FirstDispatch(cap: nat, s2: State, s3: State)
    requires s2 == Sole(1, 0, 0, FRESH.(fetched := [0]))
    requires s3 == Sole(1, 0, 0, Process([], {0}, map[0 := Task(0, 0, Queued)], 1, 0, Sleeping))
    ensures Leads(cap, RETRY_IDLE, s2, [Dispatch], s3, 0)
  {
    assert [0][1..] == [];
    One(cap, RETRY_IDLE, s2, Dispatch, s3);
  }

  lemma FirstRead(cap: nat, s1: State, s2: State)
    requires s1 == INIT.(r := XAdd(INIT.r, 0)) && s2 == Sole(1, 0, 0, FRESH.(fetched := [0]))
    ensures Leads(cap, RETRY_IDLE, s1, [ReadGroup([0])], s2, 0)
  {
    assert XReadGroup(s1.r, [0]) == s2.r by {
      assert XReadGroup(s1.r, [0]).pending == s2.r.pending;
    }
    One(cap, RETRY_IDLE, s1, ReadGroup([0]), s2);
  }

  lemma FirstAttempt(cap: nat) returns (run: seq<Action>)
    requires cap >= 1
    ensures Leads(cap, RETRY_IDLE, INIT, run, Resting(1, 1, 0, map[], 0), 1)
  {
    var s3 := Sole(1, 0, 0, Process([], {0}, map[0 := Task(0, 0, Queued)], 1, 0, Sleeping));
    var s4 := Sole(1, 0, 0, Process([], {0}, map[0 := Task(0, 0, Running)], 1, 1, Sleeping));
    var fail := [Finish(0, Transient)] + [Release(0)];
    run := FirstDelivery(cap);
    One(cap, RETRY_IDLE, s3, Acquire(0), s4);
    FailRunning(cap, RETRY_IDLE, 1, 1, 0, 0, map[], 0, Sleeping, 0);
    Join(cap, RETRY_IDLE, INIT, run, s3, 0, [Acquire(0)], s4, 1);
    Join(cap, RETRY_IDLE, INIT, run + [Acquire(0)], s4, 1, fail, Resting(1, 1, 0, map[], 0), 0);
    run := run + [Acquire(0)] + fail;
  }

  lemma {:induction false} SameCrashes(cap: nat, s: State, run: seq<Action>)
    requires Valid(cap, s, run)
    ensures Exec(cap, s, run).crashes == s.crashes + CountCrashes(run)
    decreases |run|
  {
    if run != [] {
      SameCrashes(cap, Apply(cap, s, run[0]), run[1..]);
    }
  }

  /** The ninth attempt is real: some prompt, crash-free run starts nine attempts on one entry. */
  lemma NineAttemptsHappen(cap: nat)
    requires cap >= 1
    ensures exists run ::
      && Valid(cap, INIT, run) && LagBelowIn(cap, 120, INIT, run) && CountCrashes(run) == 0
      && Attempts(cap, INIT, run, 0) == 9
  {
    var d: nat := MAX_RETRIES;
    var first := FirstAttempt(cap);
    var fails, t := FailingAttempts(cap, RETRY_IDLE, 1, d, 1, 0, map[], 0);
    var claim := ReclaimTurn(cap, RETRY_IDLE, d, d, t, map[], 0);
    var s := Reclaimed(d, d, t + RETRY_IDLE, map[], 0);
    Join(cap, RETRY_IDLE, INIT, first, Resting(1, 1, 0, map[], 0), 1, fails, Resting(d, d, t, map[], 0), d - 1);
    Join(cap, RETRY_IDLE, INIT, first + fails, Resting(d, d, t, map[], 0), d, claim, s, 0);
    One(cap, RETRY_IDLE, s, Start, Apply(cap, s, Start));
    Join(cap, RETRY_IDLE, INIT, first + fails + claim, s, d, [Start], Apply(cap, s, Start), 1);
    SameCrashes(cap, INIT, first + fails + claim + [Start]);
    assert Attempts(cap, INIT, first + fails + claim + [Start], 0) == MAX_RETRIES + 1;
  }
}
