/** Draining after slow read loops and crashes: from every reachable state the process can finish what it holds, and is
    then in a state that CognitiveDrain drains. */
module CognitiveSettle {
  import opened CognitiveStream
  import opened CognitiveExclusion
  import opened CognitiveBounds
  import opened CognitiveRuns
  import opened CognitiveOverlap
  import opened CognitiveDrain

  // What every run keeps, whatever its lag.
  ghost predicate Reached(cap: nat, s: State) {
    Base(s) && SlotsExact(cap, s.p) && forall id :: Overlap(s, id)
  }

  // A run from s to s' without new entries or crashes that obeys a policy.
  ghost predicate Trail(cap: nat, policy: Policy, s: State, run: seq<Action>, s': State) {
    Valid(cap, s, run) && NoNews(run) && Exec(cap, s, run) == s' && Obeys(cap, policy, s, run)
  }

  lemma {:induction false} ReachedStep(cap: nat, s: State, a: Action)
    requires Reached(cap, s) && Enabled(cap, s, a)
    ensures Reached(cap, Apply(cap, s, a))
  {
    BaseStep(cap, s, a);
    SlotsStep(cap, s, a);
    forall id ensures Overlap(Apply(cap, s, a), id) {
      KeptStep(cap, s, a, id);
      OverlapFollows(s, Apply(cap, s, a), a.Crash?, id);
    }
  }

  lemma {:induction false} ReachedRun(cap: nat, s: State, run: seq<Action>)
    requires Reached(cap, s) && Valid(cap, s, run)
    ensures Reached(cap, Exec(cap, s, run))
    decreases |run|
  {
    if run != [] {
      ReachedStep(cap, s, run[0]);
      ReachedRun(cap, Apply(cap, s, run[0]), run[1..]);
    }
  }

  lemma {:induction false} JoinTrails(cap: nat, policy: Policy, s: State, run: seq<Action>, s': State,
                                      more: seq<Action>, s'': State)
    requires Trail(cap, policy, s, run, s') && Trail(cap, policy, s', more, s'')
    ensures Trail(cap, policy, s, run + more, s'')
  {
    ExecConcat(cap, s, run, more);
    ObeysConcat(cap, policy, s, run, more);
  }

  // One action before a trail.
  lemma {:induction false} StepTrail(cap: nat, policy: Policy, s: State, a: Action, rest: seq<Action>, s': State)
    requires Enabled(cap, s, a) && !a.Add? && !a.Crash? && (a.Finish? ==> a.outcome == policy(s, a.t))
    requires Trail(cap, policy, Apply(cap, s, a), rest, s')
    ensures Trail(cap, policy, s, [a] + rest, s')
  {
    assert ([a] + rest)[1..] == rest;
  }

  /* ---- The process finishes what it holds ---- */

  lemma {:induction false} DispatchAll(cap: nat, policy: Policy, s: State) returns (run: seq<Action>, s': State)
    requires Reached(cap, s)
    ensures Trail(cap, policy, s, run, s') && Reached(cap, s') && s'.p.fetched == []
    decreases |s.p.fetched|
  {
    if s.p.fetched == [] {
      run, s' := [], s;
    } else {
      ReachedStep(cap, s, Dispatch);
      run, s' := DispatchAll(cap, policy, Apply(cap, s, Dispatch));
      StepTrail(cap, policy, s, Dispatch, run, s');
      run := [Dispatch] + run;
    }
  }

  // The next action of a goroutine.
  function NextOf(policy: Policy, s: State, t: nat): Action
    requires t in s.p.live
  {
    match s.p.live[t].phase
    case Queued => Acquire(t)
    case Running => Finish(t, policy(s, t))
    case DeadLettering => DeadLetter(t)
    case Acking => Ack(t)
    case Returning => Release(t)
  }

  lemma {:induction false} TaskMoves(cap: nat, policy: Policy, s: State, t: nat)
    requires t in s.p.live && (s.p.live[t].phase == Queued ==> s.p.slots < cap)
    ensures var a := NextOf(policy, s, t);
      && Enabled(cap, s, a)
      && var p' := Apply(cap, s, a).p;
      && p'.live - {t} == s.p.live - {t} && p'.fetched == s.p.fetched && p'.reclaimer == s.p.reclaimer
      && (if a.Release? then t !in p'.live
          else t in p'.live && p'.live[t].phase != Queued && StageOf(p'.live[t].phase) < StageOf(s.p.live[t].phase))
  {
  }

  lemma {:induction false} FinishTask(cap: nat, policy: Policy, s: State, t: nat) returns (run: seq<Action>, s': State)
    requires Reached(cap, s) && t in s.p.live && (s.p.live[t].phase == Queued ==> s.p.slots < cap)
    ensures Trail(cap, policy, s, run, s') && Reached(cap, s')
    ensures s'.p.live == s.p.live - {t} && s'.p.fetched == s.p.fetched && s'.p.reclaimer == s.p.reclaimer
    decreases StageOf(s.p.live[t].phase)
  {
    var a := NextOf(policy, s, t);
    TaskMoves(cap, policy, s, t);
    ReachedStep(cap, s, a);
    if a.Release? {
      run, s' := [], Apply(cap, s, a);
      assert s'.p.live - {t} == s'.p.live;
    } else {
      run, s' := FinishTask(cap, policy, Apply(cap, s, a), t);
    }
    StepTrail(cap, policy, s, a, run, s');
    run := [a] + run;
  }

  lemma {:induction false} FinishAll(cap: nat, policy: Policy, s: State) returns (run: seq<Action>, s': State)
    requires Reached(cap, s) && s.p.fetched == [] && cap >= 1
    ensures Trail(cap, policy, s, run, s') && Reached(cap, s') && s'.p.fetched == [] && s'.p.live == map[]
    decreases |s.p.live|
  {
    if s.p.live == map[] {
      run, s' := [], s;
    } else {
      var t := Movable(cap, s);
      var first, mid := FinishTask(cap, policy, s, t);
      assert mid.p.live.Keys == s.p.live.Keys - {t};
      var rest;
      rest, s' := FinishAll(cap, policy, mid);
      JoinTrails(cap, policy, s, first, mid, rest, s');
      run := first + rest;
    }
  }

  // A goroutine past the semaphore, or one that can pass it because none is.
  lemma Movable(cap: nat, s: State) returns (t: nat)
    requires SlotsExact(cap, s.p) && s.p.live != map[] && cap >= 1
    ensures t in s.p.live && (s.p.live[t].phase == Queued ==> s.p.slots < cap)
  {
    if u :| u in s.p.live && s.p.live[u].phase != Queued {
      t := u;
    } else {
      assert Holders(s.p.live) == {};
      t :| t in s.p.live;
    }
  }

  function StepsOf(rec: Reclaimer): nat {
    match rec
    case Sleeping => 0
    case Scanning(reply) => 5 * |reply| + 1
    case Checked(_, reply) => 5 * |reply| + 5
    case Claimed(_, _, reply) => 5 * |reply| + 4
    case Stored(_, _, reply) => 5 * |reply| + 3
  }

  function NextOfReclaimer(rec: Reclaimer): Action
    requires !rec.Sleeping?
  {
    match rec
    case Scanning(_) => Check
    case Checked(_, _) => Claim
    case Claimed(_, _, _) => Store
    case Stored(_, _, _) => Start
  }

  lemma {:induction false} FinishReclaim(cap: nat, policy: Policy, s: State) returns (run: seq<Action>, s': State)
    requires Reached(cap, s) && s.p.fetched == [] && s.p.live == map[] && cap >= 1
    ensures Trail(cap, policy, s, run, s') && Reached(cap, s')
    ensures s'.p.fetched == [] && s'.p.live == map[] && s'.p.reclaimer.Sleeping?
    decreases StepsOf(s.p.reclaimer)
  {
    if s.p.reclaimer.Sleeping? {
      run, s' := [], s;
    } else {
      var a := NextOfReclaimer(s.p.reclaimer);
      assert Holders(s.p.live) == {};
      var mid := Apply(cap, s, a);
      ReachedStep(cap, s, a);
      if a.Start? {
        assert mid.p.live - {s.p.nextTask} == map[];
        var first, idle := FinishTask(cap, policy, mid, s.p.nextTask);
        run, s' := FinishReclaim(cap, policy, idle);
        JoinTrails(cap, policy, mid, first, idle, run, s');
        run := first + run;
      } else {
        run, s' := FinishReclaim(cap, policy, mid);
      }
      StepTrail(cap, policy, s, a, run, s');
      run := [a] + run;
    }
  }

  predicate Idling(p: Process) {
    p.fetched == [] && p.live == map[] && p.reclaimer.Sleeping?
  }

  lemma {:induction false} Settle(cap: nat, policy: Policy, s: State) returns (run: seq<Action>, s': State)
    requires Reached(cap, s) && cap >= 1
    ensures Trail(cap, policy, s, run, s') && Reached(cap, s') && Idling(s'.p)
  {
    var one, s1 := DispatchAll(cap, policy, s);
    var two, s2 := FinishAll(cap, policy, s1);
    var three;
    three, s' := FinishReclaim(cap, policy, s2);
    JoinTrails(cap, policy, s, one, s1, two, s2);
    JoinTrails(cap, policy, s, one + two, s2, three, s');
    run := one + two + three;
  }

  /* ---- ... and is then steady, up to one more crash in the history ---- */

  function OneMore(s: State): State {
    s.(crashes := s.crashes + 1)
  }

  lemma {:induction false} IdlingIsSteady(cap: nat, s: State)
    requires Reached(cap, s) && Idling(s.p)
    ensures Steady(cap, OneMore(s))
  {
    forall id ensures id !in s.p.inFlight && Within(OneMore(s), id) {
      NothingHeld(s.p, id);
      assert Overlap(s, id);
    }
  }

  lemma {:induction false} SameStep(cap: nat, s: State, a: Action)
    requires Enabled(cap, OneMore(s), a) && !a.Crash?
    ensures Enabled(cap, s, a) && Apply(cap, OneMore(s), a) == OneMore(Apply(cap, s, a))
  {
  }

  // The policy as it is for the state with the one crash less.
  function OneLess(policy: Policy): Policy {
    (x: State, t: nat) => policy(if x.crashes > 0 then x.(crashes := x.crashes - 1) else x, t)
  }

  lemma {:induction false} HistoryDoesNotMatter(cap: nat, policy: Policy, s: State, run: seq<Action>)
    requires Valid(cap, OneMore(s), run) && NoNews(run) && Obeys(cap, OneLess(policy), OneMore(s), run)
    ensures Valid(cap, s, run) && Trail(cap, policy, s, run, Exec(cap, s, run))
    ensures Exec(cap, OneMore(s), run) == OneMore(Exec(cap, s, run))
    decreases |run|
  {
    if run != [] {
      SameStep(cap, s, run[0]);
      assert OneMore(s).(crashes := OneMore(s).crashes - 1) == s;
      assert NoNews(run[1..]);
      HistoryDoesNotMatter(cap, policy, Apply(cap, s, run[0]), run[1..]);
    }
  }

  /** Draining whatever came before: after any run, slow read loops and crashes included, and for every policy, some run
      without new entries or crashes that obeys it ends with every entry acknowledged and nothing in progress; and if no
      attempt of it succeeds, every entry not processed before is then in the dead-letter queue. */
  lemma {:induction false} EveryStateDrains(cap: nat, before: seq<Action>, policy: Policy)
    returns (run: seq<Action>, s': State)
    requires Valid(cap, INIT, before) && cap >= 1
    ensures var s := Exec(cap, INIT, before);
      && Trail(cap, policy, s, run, s') && Drained(s') && s'.r.log == s.r.log
      && (forall id | id in s.r.log :: id in s'.r.acked)
      && ((forall x, t :: policy(x, t) != Success) ==> forall id | id in s.r.log :: id in s.done || id in s'.r.dlq)
  {
    var s := Exec(cap, INIT, before);
    assert Holders(INIT.p.live) == {};
    ReachedRun(cap, INIT, before);
    var first, mid := Settle(cap, policy, s);
    var rest := DrainIdling(cap, policy, mid);
    s' := Exec(cap, mid, rest);
    JoinTrails(cap, policy, s, first, mid, rest, s');
    run := first + rest;
    SameLog(cap, s, run);
    NothingLostRun(cap, INIT, before);
    NothingLostRun(cap, s, run);
    if forall x, t :: policy(x, t) != Success {
      NoSuccessNoDone(cap, policy, s, run);
    }
  }

  lemma {:induction false} DrainIdling(cap: nat, policy: Policy, s: State) returns (run: seq<Action>)
    requires Reached(cap, s) && Idling(s.p) && cap >= 1
    ensures Valid(cap, s, run) && Trail(cap, policy, s, run, Exec(cap, s, run)) && Drained(Exec(cap, s, run))
    ensures forall id | id in s.r.log :: id in Exec(cap, s, run).r.acked
  {
    IdlingIsSteady(cap, s);
    var s';
    run, s' := Drain(cap, OneLess(policy), OneMore(s));
    HistoryDoesNotMatter(cap, policy, s, run);
  }
}
