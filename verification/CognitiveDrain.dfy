/** With no new entries and no crash, the cognitive consumer group works from every steady state until nothing is
    undelivered, pending or in progress: whatever becomes of the attempts, it is never stuck before, and it cannot
    take more productive steps than the measure of the state. */
module CognitiveDrain {
  import opened CognitiveStream
  import opened CognitiveExclusion
  import opened CognitiveBounds
  import opened CognitiveRuns

  predicate NoNews(run: seq<Action>) {
    forall i | 0 <= i < |run| :: !run[i].Add? && !run[i].Crash?
  }

  // What becomes of the attempt of a goroutine in a state.
  type Policy = (State, nat) -> Outcome

  // The attempts of a run come out as the policy has it.
  predicate Obeys(cap: nat, policy: Policy, s: State, run: seq<Action>)
    requires Valid(cap, s, run)
    decreases |run|
  {
    run == [] ||
    ((run[0].Finish? ==> run[0].outcome == policy(s, run[0].t)) && Obeys(cap, policy, Apply(cap, s, run[0]), run[1..]))
  }

  // A prompt run from s to s' without new entries or crashes.
  ghost predicate Quiet(cap: nat, s: State, run: seq<Action>, s': State) {
    Valid(cap, s, run) && LagBelowIn(cap, RETRY_IDLE, s, run) && NoNews(run) && Exec(cap, s, run) == s'
  }

  // ... that obeys a policy.
  ghost predicate Path(cap: nat, policy: Policy, s: State, run: seq<Action>, s': State) {
    Quiet(cap, s, run, s') && Obeys(cap, policy, s, run)
  }

  // What every prompt run keeps.
  ghost predicate Steady(cap: nat, s: State) {
    Inv(s) && SlotsExact(cap, s.p) && LagBelow(RETRY_IDLE, s) && forall id :: Within(s, id)
  }

  ghost predicate Drained(s: State) {
    s.r.pos == |s.r.log| && s.r.pending == map[] && s.p.live == map[] && s.p.fetched == []
  }

  // Some action of the run makes progress on an entry of the log.
  ghost predicate Advances(cap: nat, s: State, run: seq<Action>)
    requires Valid(cap, s, run)
  {
    exists id :: id in s.r.log && Work(cap, s, run, id) >= 1
  }

  lemma StepPath(cap: nat, policy: Policy, s: State, a: Action)
    requires Enabled(cap, s, a) && LagBelow(RETRY_IDLE, s) && !a.Add? && !a.Crash? && (a.Tick? ==> s.p.fetched == [])
    requires a.Finish? ==> a.outcome == policy(s, a.t)
    ensures Path(cap, policy, s, [a], Apply(cap, s, a))
  {
    assert [a][1..] == [];
    assert LagBelow(RETRY_IDLE, Apply(cap, s, a));
  }

  lemma StepAdvances(cap: nat, s: State, a: Action, id: MsgId)
    requires Inv(s) && Enabled(cap, s, a) && ActsOn(s, a, id)
    ensures Advances(cap, s, [a])
  {
    assert [a][1..] == [];
    assert Work(cap, s, [a], id) == 1;
    if !a.ReadGroup? {
      assert WasDelivered(s.r, id) by {
        if a.Dispatch? {
          assert id in s.p.fetched;
        }
      }
    }
    assert id in s.r.log;
  }

  lemma JoinPaths(cap: nat, policy: Policy, s: State, run: seq<Action>, s': State, more: seq<Action>, s'': State)
    requires Path(cap, policy, s, run, s') && Path(cap, policy, s', more, s'')
    ensures Path(cap, policy, s, run + more, s'') && s'.r.log == s.r.log
    ensures Advances(cap, s', more) ==> Advances(cap, s, run + more)
  {
    ExecConcat(cap, s, run, more);
    LagConcat(cap, RETRY_IDLE, s, run, more);
    ObeysConcat(cap, policy, s, run, more);
    SameLog(cap, s, run);
    if Advances(cap, s', more) {
      var id :| id in s'.r.log && Work(cap, s', more, id) >= 1;
      WorkConcat(cap, s, run, more, id);
    }
  }

  lemma {:induction false} ObeysConcat(cap: nat, policy: Policy, s: State, run: seq<Action>, more: seq<Action>)
    requires Valid(cap, s, run) && Valid(cap, Exec(cap, s, run), more)
    requires Obeys(cap, policy, s, run) && Obeys(cap, policy, Exec(cap, s, run), more)
    ensures Valid(cap, s, run + more) && Obeys(cap, policy, s, run + more)
    decreases |run|
  {
    if run == [] {
      assert run + more == more;
    } else {
      assert (run + more)[1..] == run[1..] + more;
      ObeysConcat(cap, policy, Apply(cap, s, run[0]), run[1..], more);
    }
  }

  lemma {:induction false} SameLog(cap: nat, s: State, run: seq<Action>)
    requires Valid(cap, s, run) && NoNews(run)
    ensures Exec(cap, s, run).r.log == s.r.log && CountCrashes(run) == 0
    decreases |run|
  {
    if run != [] {
      assert NoNews(run[1..]);
      SameLog(cap, Apply(cap, s, run[0]), run[1..]);
    }
  }

  lemma {:induction false} WorkConcat(cap: nat, s: State, run: seq<Action>, more: seq<Action>, id: MsgId)
    requires Valid(cap, s, run) && Valid(cap, Exec(cap, s, run), more)
    ensures Valid(cap, s, run + more)
    ensures Work(cap, s, run + more, id) == Work(cap, s, run, id) + Work(cap, Exec(cap, s, run), more, id)
    decreases |run|
  {
    if run == [] {
      assert run + more == more;
    } else {
      assert (run + more)[1..] == run[1..] + more;
      WorkConcat(cap, Apply(cap, s, run[0]), run[1..], more, id);
    }
  }

  /* ---- There is always a next productive step ---- */

  // One action, when the process has anything at all in hand.
  lemma ProcessCanMove(cap: nat, policy: Policy, s: State) returns (a: Action)
    requires Steady(cap, s) && cap >= 1
    requires s.p.fetched != [] || s.p.live != map[] || s.p.reclaimer.Claimed? || s.p.reclaimer.Stored?
    ensures Enabled(cap, s, a) && !a.Add? && !a.Crash? && !a.Tick? && (a.Finish? ==> a.outcome == policy(s, a.t))
    ensures Advances(cap, s, [a])
  {
    if s.p.fetched != [] {
      a := Dispatch;
      StepAdvances(cap, s, a, s.p.fetched[0]);
    } else if t :| t in s.p.live && s.p.live[t].phase != Queued {
      a := match s.p.live[t].phase
        case Running => Finish(t, policy(s, t))
        case DeadLettering => DeadLetter(t)
        case Acking => Ack(t)
        case _ => Release(t);
      StepAdvances(cap, s, a, s.p.live[t].id);
    } else {
      assert Holders(s.p.live) == {};
      if t :| t in s.p.live {
        a := Acquire(t);
        StepAdvances(cap, s, a, s.p.live[t].id);
      } else {
        a := if s.p.reclaimer.Claimed? then Store else Start;
        StepAdvances(cap, s, a, s.p.reclaimer.id);
      }
    }
  }

  // The process holds nothing, and everything in the log was delivered.
  predicate OnlyPending(s: State) {
    && s.p.fetched == [] && s.p.live == map[] && s.p.inFlight == {} && s.r.pos == |s.r.log|
    && !s.p.reclaimer.Claimed? && !s.p.reclaimer.Stored?
  }

  // The reclaim loop goes through the rest of its reply, and finds something to claim or goes back to sleep.
  lemma {:induction false} FinishReply(cap: nat, policy: Policy, s: State) returns (run: seq<Action>, s': State)
    requires Steady(cap, s) && OnlyPending(s)
    ensures Path(cap, policy, s, run, s')
    ensures Advances(cap, s, run) || (OnlyPending(s') && s'.r == s.r && s'.p.reclaimer.Sleeping?)
    decreases if s.p.reclaimer.Sleeping? then 0 else 2 * |s.p.reclaimer.reply| + if s.p.reclaimer.Checked? then 2 else 1
  {
    if s.p.reclaimer.Sleeping? {
      run, s' := [], s;
    } else {
      var a := if s.p.reclaimer.Scanning? then Check else Claim;
      var mid := Apply(cap, s, a);
      StepPath(cap, policy, s, a);
      if a.Claim? && Idle(s.r, s.p.reclaimer.head.id) {
        StepAdvances(cap, s, a, s.p.reclaimer.head.id);
        run, s' := [a], mid;
      } else {
        SteadyStep(cap, s, a);
        var rest;
        rest, s' := FinishReply(cap, policy, mid);
        run := [a] + rest;
        JoinPaths(cap, policy, s, [a], mid, rest, s');
      }
    }
  }

  lemma SteadyStep(cap: nat, s: State, a: Action)
    requires Steady(cap, s) && Enabled(cap, s, a) && LagBelow(RETRY_IDLE, Apply(cap, s, a))
    ensures Steady(cap, Apply(cap, s, a))
  {
    InvStep(cap, s, a);
    SlotsStep(cap, s, a);
    forall id ensures Within(Apply(cap, s, a), id) {
      StepEffect(cap, s, a, id);
    }
  }

  lemma ReclaimOne(cap: nat, policy: Policy, s: State, id: MsgId) returns (run: seq<Action>, s': State)
    requires Steady(cap, s) && OnlyPending(s) && s.p.reclaimer.Sleeping? && id in s.r.pending
    ensures Path(cap, policy, s, run, s') && Advances(cap, s, run)
  {
    var seen := Seen(id, s.r.pending[id].deliveries);
    var tick := Tick(RETRY_IDLE + s.r.pending[id].last);
    var s1 := Apply(cap, s, tick);
    var s2 := Apply(cap, s1, Snapshot([seen]));
    var s3 := Apply(cap, s2, Check);
    assert s3 == s2.(p := s2.p.(reclaimer := Checked(seen, [])));
    StepPath(cap, policy, s, tick);
    StepPath(cap, policy, s1, Snapshot([seen]));
    StepPath(cap, policy, s2, Check);
    StepPath(cap, policy, s3, Claim);
    s' := Apply(cap, s3, Claim);
    SteadyStep(cap, s, tick);
    SteadyStep(cap, s1, Snapshot([seen]));
    SteadyStep(cap, s2, Check);
    StepAdvances(cap, s3, Claim, id);
    JoinPaths(cap, policy, s2, [Check], s3, [Claim], s');
    JoinPaths(cap, policy, s1, [Snapshot([seen])], s2, [Check] + [Claim], s');
    JoinPaths(cap, policy, s, [tick], s1, [Snapshot([seen])] + ([Check] + [Claim]), s');
    run := [tick] + ([Snapshot([seen])] + ([Check] + [Claim]));
  }

  /** No deadlock: whatever is left and whatever becomes of the attempts, some run makes progress on an entry. */
  lemma Progress(cap: nat, policy: Policy, s: State) returns (run: seq<Action>, s': State)
    requires Steady(cap, s) && cap >= 1 && !Drained(s)
    ensures Path(cap, policy, s, run, s') && Advances(cap, s, run)
  {
    if s.p.fetched != [] || s.p.live != map[] || s.p.reclaimer.Claimed? || s.p.reclaimer.Stored? {
      var a := ProcessCanMove(cap, policy, s);
      StepPath(cap, policy, s, a);
      run, s' := [a], Apply(cap, s, a);
    } else if s.r.pos < |s.r.log| {
      var a := ReadGroup([s.r.log[s.r.pos]]);
      StepPath(cap, policy, s, a);
      StepAdvances(cap, s, a, s.r.log[s.r.pos]);
      run, s' := [a], Apply(cap, s, a);
    } else {
      assert s.p.inFlight == {} by {
        assert forall id | id in s.p.inFlight :: HasTask(s.p, id);
      }
      run, s' := FinishReply(cap, policy, s);
      if !Advances(cap, s, run) {
        var id :| id in s'.r.pending;
        SteadyPath(cap, s, run);
        var more, s'' := ReclaimOne(cap, policy, s', id);
        JoinPaths(cap, policy, s, run, s', more, s'');
        run, s' := run + more, s'';
      }
    }
  }

  lemma {:induction false} SteadyPath(cap: nat, s: State, run: seq<Action>)
    requires Steady(cap, s) && Valid(cap, s, run) && LagBelowIn(cap, RETRY_IDLE, s, run)
    ensures Steady(cap, Exec(cap, s, run))
    decreases |run|
  {
    if run != [] {
      SteadyStep(cap, s, run[0]);
      SteadyPath(cap, Apply(cap, s, run[0]), run[1..]);
    }
  }

  /* ---- The measure ---- */

  ghost function TotalRank(s: State, n: nat): int
    requires n <= |s.r.log|
  {
    if n == 0 then 0 else TotalRank(s, n - 1) + Rank(s, s.r.log[n - 1])
  }

  lemma RankNonNegative(s: State, id: MsgId)
    requires Within(s, id)
    ensures Rank(s, id) >= 0
  {
  }

  lemma {:induction false} TotalNonNegative(s: State, n: nat)
    requires n <= |s.r.log| && forall id :: Within(s, id)
    ensures TotalRank(s, n) >= 0
  {
    if n > 0 {
      TotalNonNegative(s, n - 1);
      RankNonNegative(s, s.r.log[n - 1]);
    }
  }

  // The productive steps of a run, over the first n entries of the log.
  function TotalWork(cap: nat, s: State, run: seq<Action>, n: nat): nat
    requires Valid(cap, s, run) && n <= |s.r.log|
  {
    if n == 0 then 0 else TotalWork(cap, s, run, n - 1) + Work(cap, s, run, s.r.log[n - 1])
  }

  lemma {:induction false} TotalsAddUp(cap: nat, s: State, run: seq<Action>, s': State, n: nat)
    requires Valid(cap, s, run) && s'.r.log == s.r.log && n <= |s.r.log|
    requires forall i | 0 <= i < n :: Work(cap, s, run, s.r.log[i]) + Rank(s', s.r.log[i]) <= Rank(s, s.r.log[i])
    ensures TotalWork(cap, s, run, n) + TotalRank(s', n) <= TotalRank(s, n)
  {
    if n > 0 {
      TotalsAddUp(cap, s, run, s', n - 1);
    }
  }

  lemma {:induction false} WorkCounts(cap: nat, s: State, run: seq<Action>, n: nat, i: nat)
    requires Valid(cap, s, run) && i < n <= |s.r.log|
    ensures Work(cap, s, run, s.r.log[i]) <= TotalWork(cap, s, run, n)
  {
    if i < n - 1 {
      WorkCounts(cap, s, run, n - 1, i);
    }
  }

  /** The measure. In every prompt run without new entries or crashes, the productive steps and the measure that is
      left make up no more than the measure at the start. */
  lemma {:induction false} WorkIsPaidFor(cap: nat, s: State, run: seq<Action>, s': State)
    requires Steady(cap, s) && Quiet(cap, s, run, s')
    ensures s'.r.log == s.r.log
    ensures TotalWork(cap, s, run, |s.r.log|) + TotalRank(s', |s.r.log|) <= TotalRank(s, |s.r.log|)
  {
    SameLog(cap, s, run);
    forall i | 0 <= i < |s.r.log|
      ensures Work(cap, s, run, s.r.log[i]) + Rank(s', s.r.log[i]) <= Rank(s, s.r.log[i])
    {
      RunEffect(cap, s, run, s.r.log[i]);
    }
    TotalsAddUp(cap, s, run, s', |s.r.log|);
  }

  lemma {:induction false} PathLowersRank(cap: nat, s: State, run: seq<Action>, s': State)
    requires Steady(cap, s) && Quiet(cap, s, run, s') && Advances(cap, s, run)
    ensures s'.r.log == s.r.log && TotalRank(s', |s.r.log|) < TotalRank(s, |s.r.log|)
  {
    WorkIsPaidFor(cap, s, run, s');
    var id :| id in s.r.log && Work(cap, s, run, id) >= 1;
    var i :| 0 <= i < |s.r.log| && s.r.log[i] == id;
    WorkCounts(cap, s, run, |s.r.log|, i);
  }

  /* ---- Where the measure is zero ---- */

  // Nothing is left to do for an entry: it is acknowledged, and no goroutine has it.
  lemma {:induction false} RankZeroIff(s: State, id: MsgId)
    requires Inv(s) && Within(s, id)
    ensures Rank(s, id) == 0 <==> id in s.r.acked && Stage(s.p, id) == 0
  {
    OnlyOne(s.r, id);
  }

  lemma {:induction false} DrainedIff(cap: nat, s: State)
    requires Steady(cap, s)
    ensures Drained(s) <==> forall i | 0 <= i < |s.r.log| :: s.r.log[i] in s.r.acked && Stage(s.p, s.r.log[i]) == 0
  {
    if Drained(s) {
      forall i | 0 <= i < |s.r.log| ensures s.r.log[i] in s.r.acked && Stage(s.p, s.r.log[i]) == 0 {
        StageOfNone(s.p, s.r.log[i]);
      }
    } else {
      var id := SomethingLeft(s);
      var i :| 0 <= i < |s.r.log| && s.r.log[i] == id;
    }
  }

  lemma {:induction false} SomethingLeft(s: State) returns (id: MsgId)
    requires Inv(s) && !Drained(s)
    ensures id in s.r.log && !(id in s.r.acked && Stage(s.p, id) == 0)
  {
    if s.p.fetched != [] {
      id := s.p.fetched[0];
      assert id in s.p.fetched;
      OnlyOne(s.r, id);
    } else if s.r.pos < |s.r.log| {
      id := s.r.log[s.r.pos];
    } else if s.r.pending != map[] {
      id :| id in s.r.pending;
      OnlyOne(s.r, id);
    } else {
      var t :| t in s.p.live;
      id := s.p.live[t].id;
      TaskFacts(s, t);
    }
  }

  lemma {:induction false} TotalZeroIff(s: State, n: nat)
    requires n <= |s.r.log| && forall id :: Within(s, id)
    ensures TotalRank(s, n) == 0 <==> forall i | 0 <= i < n :: Rank(s, s.r.log[i]) == 0
  {
    if n > 0 {
      TotalZeroIff(s, n - 1);
      TotalNonNegative(s, n - 1);
      RankNonNegative(s, s.r.log[n - 1]);
    }
  }

  /** The measure is zero exactly when the group is drained: so a run that has spent it is drained, and one that has
      not can go on. */
  lemma {:induction false} NoMeasureLeftIff(cap: nat, s: State)
    requires Steady(cap, s)
    ensures TotalRank(s, |s.r.log|) == 0 <==> Drained(s)
  {
    TotalZeroIff(s, |s.r.log|);
    DrainedIff(cap, s);
    forall i | 0 <= i < |s.r.log|
      ensures Rank(s, s.r.log[i]) == 0 <==> s.r.log[i] in s.r.acked && Stage(s.p, s.r.log[i]) == 0
    {
      RankZeroIff(s, s.r.log[i]);
    }
  }

  /** Draining. Let a policy decide what becomes of every attempt, success, failure for good or failure for now, from
      the state and the goroutine: from every state a prompt run can reach, some run that obeys it, without new
      entries or crashes, ends with every entry acknowledged and the process empty. By WorkIsPaidFor every run that
      keeps taking productive steps gets there, and by Progress none is stuck before. */
  lemma {:induction false} Drain(cap: nat, policy: Policy, s: State) returns (run: seq<Action>, s': State)
    requires Steady(cap, s) && cap >= 1
    ensures Path(cap, policy, s, run, s') && Drained(s') && s'.r.log == s.r.log
    ensures forall id | id in s.r.log :: id in s'.r.acked
    decreases TotalRank(s, |s.r.log|)
  {
    TotalNonNegative(s, |s.r.log|);
    if Drained(s) {
      assert Obeys(cap, policy, s, []);
      run, s' := [], s;
    } else {
      var first, mid := Progress(cap, policy, s);
      PathLowersRank(cap, s, first, mid);
      SteadyPath(cap, s, first);
      var rest;
      rest, s' := Drain(cap, policy, mid);
      JoinPaths(cap, policy, s, first, mid, rest, s');
      run := first + rest;
    }
  }

  lemma {:induction false} NoSuccessNoDone(cap: nat, policy: Policy, s: State, run: seq<Action>)
    requires Valid(cap, s, run) && Obeys(cap, policy, s, run)
    requires forall x, t :: policy(x, t) != Success
    ensures Exec(cap, s, run).done == s.done
    decreases |run|
  {
    if run != [] {
      NoSuccessNoDone(cap, policy, Apply(cap, s, run[0]), run[1..]);
    }
  }

  /** Poison drains too: when no further attempt succeeds, for good or for now, the group still empties its pending
      list, and every entry that was not processed before is then in the dead-letter queue. */
  lemma {:induction false} PoisonIsDeadLettered(cap: nat, policy: Policy, s: State)
    returns (run: seq<Action>, s': State)
    requires Steady(cap, s) && NothingLost(s) && cap >= 1
    requires forall x, t :: policy(x, t) != Success
    ensures Path(cap, policy, s, run, s') && Drained(s')
    ensures forall id | id in s.r.log :: id in s'.r.acked && (id in s.done || id in s'.r.dlq)
  {
    run, s' := Drain(cap, policy, s);
    NoSuccessNoDone(cap, policy, s, run);
    NothingLostRun(cap, s, run);
  }

  lemma ReachableIsSteady(cap: nat, run: seq<Action>)
    requires Valid(cap, INIT, run) && LagBelowIn(cap, RETRY_IDLE, INIT, run)
    ensures Steady(cap, Exec(cap, INIT, run)) && NothingLost(Exec(cap, INIT, run))
  {
    assert Holders(INIT.p.live) == {};
    SteadyPath(cap, INIT, run);
    NothingLostRun(cap, INIT, run);
  }
}
