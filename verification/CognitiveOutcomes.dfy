/** What becomes of an entry by how its attempts end: success and unrecoverable failures end it at the first attempt,
    failures for now after the ninth. */
module CognitiveOutcomes {
  import opened CognitiveStream
  import opened CognitiveExclusion
  import opened CognitiveBounds
  import opened CognitiveRuns

  // Every attempt at `id` in the run ends in one of these ways.
  predicate EndsIn(cap: nat, s: State, run: seq<Action>, id: MsgId, outcomes: set<Outcome>)
    requires Valid(cap, s, run)
    decreases |run|
  {
    run == [] ||
    (EndsStep(s, run[0], id, outcomes) && EndsIn(cap, Apply(cap, s, run[0]), run[1..], id, outcomes))
  }

  predicate EndsStep(s: State, a: Action, id: MsgId, outcomes: set<Outcome>) {
    a.Finish? && a.t in s.p.live && s.p.live[a.t].id == id ==> a.outcome in outcomes
  }

  // A prompt run without a crash from the empty stream.
  predicate Prompt(cap: nat, run: seq<Action>) {
    Valid(cap, INIT, run) && LagBelowIn(cap, 120, INIT, run) && CountCrashes(run) == 0
  }

  /* ---- How the stage of an entry moves ---- */

  // The stage an action finds the entry it works on at, and the one it leaves it at.
  function StageBefore(a: Action): nat {
    match a
    case Dispatch => 6
    case Store => 6
    case Acquire(_) => 5
    case Start => 5
    case Finish(_, _) => 4
    case DeadLetter(_) => 3
    case Ack(_) => 2
    case Release(_) => 1
    case _ => 0
  }

  function StageAfter(s: State, a: Action): nat {
    match a
    case ReadGroup(_) => 6
    case Claim => 6
    case Dispatch => 5
    case Store => 5
    case Acquire(_) => 4
    case Start => 4
    case Finish(t, outcome) => if t in s.p.live then StageOf(AfterProcessing(s.p.live[t].retries, outcome)) else 0
    case DeadLetter(_) => 2
    case Ack(_) => 1
    case _ => 0
  }

  ghost predicate StageMoves(cap: nat, s: State, a: Action, id: MsgId)
    requires Enabled(cap, s, a)
  {
    var p' := Apply(cap, s, a).p;
    if ActsOn(s, a, id) then Stage(s.p, id) == StageBefore(a) && Stage(p', id) == StageAfter(s, a)
    else Stage(p', id) == Stage(s.p, id)
  }

  lemma {:induction false} StageOfTaskMoves(cap: nat, s: State, a: Action, id: MsgId)
    requires Inv(s) && Enabled(cap, s, a) && (a.Acquire? || a.Finish? || a.DeadLetter? || a.Ack?)
    ensures StageMoves(cap, s, a, id)
  {
    TaskStage(cap, s, a, id);
    TaskFacts(s, a.t);
  }

  lemma {:induction false} StageOfReclaimMoves(cap: nat, s: State, a: Action, id: MsgId)
    requires Inv(s) && Enabled(cap, s, a) && (a.Snapshot? || a.Check? || a.Claim? || a.Store?)
    ensures StageMoves(cap, s, a, id)
  {
    ReclaimStage(s, a, id);
    assert Apply(cap, s, a) == Apply(0, s, a);
  }

  lemma {:induction false} StageOfRelease(cap: nat, s: State, t: nat, id: MsgId)
    requires Inv(s) && Enabled(cap, s, Release(t))
    ensures StageMoves(cap, s, Release(t), id)
  {
    var p' := ReleaseTask(s.p, t);
    TaskFacts(s, t);
    if id == s.p.live[t].id {
      assert !HasTask(p', id);
      StageOfNone(p', id);
    } else {
      OthersKeepTheirStage(s.p, p', t, id);
    }
  }

  lemma {:induction false} StageOfNew(cap: nat, s: State, a: Action, id: MsgId)
    requires Inv(s) && Enabled(cap, s, a) && (a.Dispatch? || a.Start?)
    ensures StageMoves(cap, s, a, id)
  {
    var s' := Apply(cap, s, a);
    var owner := if a.Dispatch? then s.p.fetched[0] else s.p.reclaimer.id;
    assert a.Dispatch? ==> owner in s.p.fetched && s.p.fetched == [owner] + s'.p.fetched;
    NoTaskAt(s);
    if id == owner {
      InvStep(cap, s, a);
      TaskFacts(s', s.p.nextTask);
    } else {
      OthersKeepTheirStage(s.p, s'.p, s.p.nextTask, id);
    }
  }

  lemma {:induction false} StageOfRead(cap: nat, s: State, batch: seq<MsgId>, id: MsgId)
    requires Inv(s) && Enabled(cap, s, ReadGroup(batch))
    ensures StageMoves(cap, s, ReadGroup(batch), id)
  {
    ReadGroupDelivers(s.r, batch);
    ReadStage(s, XReadGroup(s.r, batch), batch, id);
  }

  lemma {:induction false} StageStep(cap: nat, s: State, a: Action, id: MsgId)
    requires Inv(s) && Enabled(cap, s, a) && !a.Crash?
    ensures StageMoves(cap, s, a, id)
  {
    if a.ReadGroup? {
      StageOfRead(cap, s, a.batch, id);
    } else if a.Dispatch? || a.Start? {
      StageOfNew(cap, s, a, id);
    } else if a.Release? {
      StageOfRelease(cap, s, a.t, id);
    } else if a.Snapshot? || a.Check? || a.Claim? || a.Store? {
      StageOfReclaimMoves(cap, s, a, id);
    } else if a.Acquire? || a.Finish? || a.DeadLetter? || a.Ack? {
      StageOfTaskMoves(cap, s, a, id);
    }
  }

  /* ---- Attempts that end for good ---- */

  // A pending entry is still at its first delivery, in hand.
  ghost predicate InFirst(s: State, id: MsgId) {
    s.crashes == 0 && (id in s.r.pending ==> s.r.pending[id].deliveries == 1 && Stage(s.p, id) >= 2)
  }

  // Attempts it can still get.
  ghost function FirstLeft(s: State, id: MsgId): int {
    if id in s.r.acked then 0 else Tickets(s, id) - 8
  }

  lemma {:induction false} FirstStep(cap: nat, s: State, a: Action, id: MsgId)
    requires Inv(s) && Within(s, id) && InFirst(s, id) && Enabled(cap, s, a) && !a.Crash?
    requires EndsStep(s, a, id, {Success, Unrecoverable})
    ensures var s' := Apply(cap, s, a);
      InFirst(s', id) && FirstLeft(s', id) + (if StartsAttempt(s, a, id) then 1 else 0) <= FirstLeft(s, id)
  {
    StepEffect(cap, s, a, id);
    StageStep(cap, s, a, id);
    OnlyOne(s.r, id);
    if a.ReadGroup? {
      ReadGroupDelivers(s.r, a.batch);
    }
  }

  lemma {:induction false} FirstRun(cap: nat, s: State, run: seq<Action>, id: MsgId)
    requires Inv(s) && Within(s, id) && InFirst(s, id)
    requires Valid(cap, s, run) && LagBelowIn(cap, RETRY_IDLE, s, run) && CountCrashes(run) == 0
    requires EndsIn(cap, s, run, id, {Success, Unrecoverable})
    ensures Attempts(cap, s, run, id) + FirstLeft(Exec(cap, s, run), id) <= FirstLeft(s, id)
    ensures Inv(Exec(cap, s, run)) && InFirst(Exec(cap, s, run), id)
    decreases |run|
  {
    if run != [] {
      FirstStep(cap, s, run[0], id);
      InvStep(cap, s, run[0]);
      StepEffect(cap, s, run[0], id);
      FirstRun(cap, Apply(cap, s, run[0]), run[1..], id);
    }
  }

  // If no attempt succeeds the entry is not done, and if each does it is not dead-lettered.
  lemma {:induction false} NeverDone(cap: nat, s: State, run: seq<Action>, id: MsgId, outcomes: set<Outcome>)
    requires Valid(cap, s, run) && EndsIn(cap, s, run, id, outcomes) && Success !in outcomes && id !in s.done
    ensures id !in Exec(cap, s, run).done
    decreases |run|
  {
    if run != [] {
      NeverDone(cap, Apply(cap, s, run[0]), run[1..], id, outcomes);
    }
  }

  ghost predicate NoLetter(s: State, id: MsgId) {
    id !in s.r.dlq && forall t | InPhase(s.p, t, DeadLettering) :: s.p.live[t].id != id
  }

  lemma {:induction false} NeverLettered(cap: nat, s: State, run: seq<Action>, id: MsgId)
    requires Valid(cap, s, run) && EndsIn(cap, s, run, id, {Success}) && NoLetter(s, id)
    ensures NoLetter(Exec(cap, s, run), id)
    decreases |run|
  {
    if run != [] {
      assert NoLetter(Apply(cap, s, run[0]), id);
      NeverLettered(cap, Apply(cap, s, run[0]), run[1..], id);
    }
  }

  lemma {:induction false} EndsInMore(cap: nat, s: State, run: seq<Action>, id: MsgId, some: set<Outcome>,
                                      all: set<Outcome>)
    requires Valid(cap, s, run) && EndsIn(cap, s, run, id, some) && some <= all
    ensures EndsIn(cap, s, run, id, all)
    decreases |run|
  {
    if run != [] {
      EndsInMore(cap, Apply(cap, s, run[0]), run[1..], id, some, all);
    }
  }

  lemma {:induction false} AtMostOneAttempt(cap: nat, run: seq<Action>, id: MsgId, outcomes: set<Outcome>)
    requires Prompt(cap, run) && EndsIn(cap, INIT, run, id, outcomes) && Transient !in outcomes
    ensures Attempts(cap, INIT, run, id) <= 1
    ensures var s := Exec(cap, INIT, run); id in s.r.pending ==> s.r.pending[id].deliveries == 1
  {
    InitialRank(id);
    forall o | o in outcomes ensures o in {Success, Unrecoverable} {
      assert o != Transient;
    }
    EndsInMore(cap, INIT, run, id, outcomes, {Success, Unrecoverable});
    FirstRun(cap, INIT, run, id);
    FirstLeftNotNegative(Exec(cap, INIT, run), id);
  }

  lemma {:induction false} FirstLeftNotNegative(s: State, id: MsgId)
    requires InFirst(s, id)
    ensures FirstLeft(s, id) >= 0
  {
  }

  /** An entry that cannot be processed is not tried again: if its attempts end in an unrecoverable failure, it gets one
      at most, however many retries are left, and once acknowledged it is in the dead-letter queue, once. */
  lemma {:induction false} UnrecoverableEndsIt(cap: nat, run: seq<Action>, id: MsgId)
    requires Prompt(cap, run) && EndsIn(cap, INIT, run, id, {Unrecoverable})
    ensures Attempts(cap, INIT, run, id) <= 1
    ensures var s := Exec(cap, INIT, run); id !in s.done && (id in s.r.acked ==> multiset(s.r.dlq)[id] == 1)
  {
    AtMostOneAttempt(cap, run, id, {Unrecoverable});
    NeverDone(cap, INIT, run, id, {Unrecoverable});
    NothingLostRun(cap, INIT, run);
    RetryBound(cap, run, id);
  }

  /** Nor is one that was processed, and it is never dead-lettered. */
  lemma {:induction false} SuccessEndsIt(cap: nat, run: seq<Action>, id: MsgId)
    requires Prompt(cap, run) && EndsIn(cap, INIT, run, id, {Success})
    ensures Attempts(cap, INIT, run, id) <= 1
    ensures var s := Exec(cap, INIT, run); id !in s.r.dlq && (id in s.r.acked ==> id in s.done)
  {
    AtMostOneAttempt(cap, run, id, {Success});
    NeverLettered(cap, INIT, run, id);
    NothingLostRun(cap, INIT, run);
  }

  /* ---- Attempts that fail for now ---- */

  // An entry about to be dead-lettered or acknowledged has used its nine deliveries.
  ghost predicate LastOnly(s: State, id: MsgId) {
    s.crashes == 0 && (id in s.r.pending && 2 <= Stage(s.p, id) <= 3 ==> s.r.pending[id].deliveries == 9)
  }

  lemma {:induction false} TransientStep(cap: nat, s: State, a: Action, id: MsgId)
    requires Inv(s) && Within(s, id) && LastOnly(s, id) && Enabled(cap, s, a) && !a.Crash?
    requires EndsStep(s, a, id, {Transient})
    ensures var s' := Apply(cap, s, a);
      LastOnly(s', id) && Tickets(s', id) + (if StartsAttempt(s, a, id) then 1 else 0) == Tickets(s, id)
  {
    StepEffect(cap, s, a, id);
    StageStep(cap, s, a, id);
    OnlyOne(s.r, id);
    if a.ReadGroup? {
      ReadGroupDelivers(s.r, a.batch);
    }
    if (a.Finish? || a.Ack? || a.DeadLetter?) && ActsOn(s, a, id) {
      TaskFacts(s, a.t);
    }
  }

  lemma {:induction false} TransientRun(cap: nat, s: State, run: seq<Action>, id: MsgId)
    requires Inv(s) && Within(s, id) && LastOnly(s, id)
    requires Valid(cap, s, run) && LagBelowIn(cap, RETRY_IDLE, s, run) && CountCrashes(run) == 0
    requires EndsIn(cap, s, run, id, {Transient})
    ensures Attempts(cap, s, run, id) + Tickets(Exec(cap, s, run), id) == Tickets(s, id)
    decreases |run|
  {
    if run != [] {
      TransientStep(cap, s, run[0], id);
      InvStep(cap, s, run[0]);
      StepEffect(cap, s, run[0], id);
      TransientRun(cap, Apply(cap, s, run[0]), run[1..], id);
    }
  }

  /** An entry that only ever fails for now is given up after exactly nine attempts: it is acknowledged not before, and
      is then in the dead-letter queue, once. */
  lemma {:induction false} TransientTakesNine(cap: nat, run: seq<Action>, id: MsgId)
    requires Prompt(cap, run) && EndsIn(cap, INIT, run, id, {Transient})
    ensures var s := Exec(cap, INIT, run);
      && (id in s.r.acked ==> Attempts(cap, INIT, run, id) == 9 && multiset(s.r.dlq)[id] == 1)
      && (Attempts(cap, INIT, run, id) < 9 ==> id !in s.r.acked)
  {
    InitialRank(id);
    TransientRun(cap, INIT, run, id);
    NeverDone(cap, INIT, run, id, {Transient});
    NothingLostRun(cap, INIT, run);
    RetryBound(cap, run, id);
  }
}
