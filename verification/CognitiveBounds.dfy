/** What each action does to an entry: the attempts, dead letters and steps it has left. */
module CognitiveBounds {
  import opened CognitiveStream
  import opened CognitiveExclusion

  ghost predicate HasTaskIn(p: Process, id: MsgId, phase: Phase) {
    exists t :: InPhase(p, t, phase) && p.live[t].id == id
  }

  // Steps left in the current delivery of `id`. From 5 up its attempt has not started; from 2 up it is not over.
  ghost function Stage(p: Process, id: MsgId): nat {
    if id in p.fetched || (p.reclaimer.Claimed? && p.reclaimer.id == id) then 6
    else if WaitingForSlot(p, id) || HasTaskIn(p, id, Queued) then 5
    else if HasTaskIn(p, id, Running) then 4
    else if HasTaskIn(p, id, DeadLettering) then 3
    else if HasTaskIn(p, id, Acking) then 2
    else if HasTaskIn(p, id, Returning) then 1
    else 0
  }

  const STAGES := 7

  // At most nine deliveries, plus one for each crash; the last of them is never left idle without a crash.
  ghost predicate Within(s: State, id: MsgId) {
    id in s.r.pending ==>
      s.r.pending[id].deliveries <= MAX_RETRIES + s.crashes + (if Stage(s.p, id) >= 2 then 1 else 0)
  }

  // Attempts the group can still start for `id`.
  ghost function Tickets(s: State, id: MsgId): int {
    var all := MAX_RETRIES + 1 + s.crashes;
    if id in s.r.acked then 0
    else if id in s.r.pending then all - s.r.pending[id].deliveries + (if Stage(s.p, id) >= 5 then 1 else 0)
    else all
  }

  // Steps left for `id`, over all deliveries it can still get.
  ghost function Rank(s: State, id: MsgId): int {
    var all := MAX_RETRIES + 1 + s.crashes;
    if id in s.r.acked then Stage(s.p, id)
    else if id in s.r.pending then (all - s.r.pending[id].deliveries) * STAGES + Stage(s.p, id)
    else all * STAGES
  }

  // The attempt an action starts: a goroutine passing the semaphore.
  predicate StartsAttempt(s: State, a: Action, id: MsgId) {
    || (a.Acquire? && a.t in s.p.live && s.p.live[a.t].id == id)
    || (a.Start? && s.p.reclaimer.Stored? && s.p.reclaimer.id == id)
  }

  // The actions that make progress on `id`; ticks, replies and checks make none.
  predicate ActsOn(s: State, a: Action, id: MsgId) {
    match a
    case ReadGroup(batch) => id in batch
    case Dispatch => s.p.fetched != [] && s.p.fetched[0] == id
    case Acquire(t) => t in s.p.live && s.p.live[t].id == id
    case Finish(t, _) => t in s.p.live && s.p.live[t].id == id
    case DeadLetter(t) => t in s.p.live && s.p.live[t].id == id
    case Ack(t) => t in s.p.live && s.p.live[t].id == id
    case Release(t) => t in s.p.live && s.p.live[t].id == id
    case Claim => s.p.reclaimer.Checked? && s.p.reclaimer.head.id == id && Idle(s.r, id)
    case Store => s.p.reclaimer.Claimed? && s.p.reclaimer.id == id
    case Start => s.p.reclaimer.Stored? && s.p.reclaimer.id == id
    case _ => false
  }

  // The last attempt at `id` is over but for its acknowledgement.
  ghost predicate Settled(s: State, id: MsgId) {
    id in s.r.acked || Stage(s.p, id) == 2
  }

  ghost predicate Effect(cap: nat, s: State, a: Action, id: MsgId)
    requires Enabled(cap, s, a)
  {
    var s' := Apply(cap, s, a);
    && Within(s', id)
    && Tickets(s', id) + (if StartsAttempt(s, a, id) then 1 else 0) <= Tickets(s, id) + (if a.Crash? then 1 else 0)
    && (!a.Crash? && !(a.Ack? && ActsOn(s, a, id)) ==>
          Tickets(s', id) + (if StartsAttempt(s, a, id) then 1 else 0) == Tickets(s, id))
    && (!a.Crash? ==> Rank(s', id) + (if ActsOn(s, a, id) then 1 else 0) <= Rank(s, id))
    && (Settled(s, id) && !a.Crash? ==> Settled(s', id))
    && (if a.DeadLetter? && ActsOn(s, a, id) then
          !Settled(s, id) && Settled(s', id) && multiset(s'.r.dlq)[id] == multiset(s.r.dlq)[id] + 1
        else multiset(s'.r.dlq)[id] == multiset(s.r.dlq)[id])
  }

  /* ---- How each step moves the stage of an id ---- */

  // p' has the goroutines of p, except that goroutine t may be new, changed or gone.
  ghost predicate SameBut(p: Process, p': Process, t: nat) {
    forall u | u != t :: (u in p.live <==> u in p'.live) && (u in p.live ==> p.live[u] == p'.live[u])
  }

  lemma OthersKeepTheirTasks(p: Process, p': Process, t: nat, id: MsgId, q: Phase)
    requires SameBut(p, p', t)
    requires t in p.live ==> p.live[t].id != id
    requires t in p'.live ==> p'.live[t].id != id
    ensures HasTaskIn(p', id, q) <==> HasTaskIn(p, id, q)
  {
    if HasTaskIn(p, id, q) {
      var u :| InPhase(p, u, q) && p.live[u].id == id;
      assert InPhase(p', u, q) && p'.live[u].id == id;
    }
    if HasTaskIn(p', id, q) {
      var u :| InPhase(p', u, q) && p'.live[u].id == id;
      assert InPhase(p, u, q) && p.live[u].id == id;
    }
  }

  lemma OthersKeepTheirStage(p: Process, p': Process, t: nat, id: MsgId)
    requires SameBut(p, p', t)
    requires t in p.live ==> p.live[t].id != id
    requires t in p'.live ==> p'.live[t].id != id
    requires id in p.fetched <==> id in p'.fetched
    requires p.reclaimer == p'.reclaimer || (!Reclaiming(p, id) && !Reclaiming(p', id))
    ensures Stage(p', id) == Stage(p, id)
  {
    OthersKeepTheirTasks(p, p', t, id, Queued);
    OthersKeepTheirTasks(p, p', t, id, Running);
    OthersKeepTheirTasks(p, p', t, id, DeadLettering);
    OthersKeepTheirTasks(p, p', t, id, Acking);
    OthersKeepTheirTasks(p, p', t, id, Returning);
  }

  predicate Reclaiming(p: Process, id: MsgId) {
    (p.reclaimer.Claimed? || p.reclaimer.Stored?) && p.reclaimer.id == id
  }

  function StageOf(phase: Phase): nat {
    match phase
    case Queued => 5
    case Running => 4
    case DeadLettering => 3
    case Acking => 2
    case Returning => 1
  }

  // A goroutine's phase is the only one its id has.
  lemma StageOfTask(p: Process, t: nat)
    requires Exclusive(p) && t in p.live && p.live[t].id !in p.fetched && !Reclaiming(p, p.live[t].id)
    ensures Stage(p, p.live[t].id) == StageOf(p.live[t].phase)
  {
    assert InPhase(p, t, p.live[t].phase);
  }

  lemma StageOfNone(p: Process, id: MsgId)
    requires !HasTask(p, id) && id !in p.fetched && !Reclaiming(p, id)
    ensures Stage(p, id) == 0
  {
    assert forall t | t in p.live :: p.live[t].id != id;
  }

  /* ---- The effect of every step on an id ---- */

  // What the invariant says about a goroutine.
  lemma TaskFacts(s: State, t: nat)
    requires Inv(s) && t in s.p.live
    ensures var id := s.p.live[t].id;
      && Stage(s.p, id) == StageOf(s.p.live[t].phase)
      && id !in s.p.fetched && !Reclaiming(s.p, id) && (id in s.r.pending <==> id !in s.r.acked)
      && (s.p.live[t].phase != Returning ==>
            id in s.r.pending && s.p.live[t].retries == RetriesAt(s.r.pending[id].deliveries))
  {
    StageOfTask(s.p, t);
    OnlyOne(s.r, s.p.live[t].id);
  }

  lemma RedisEffect(cap: nat, s: State, a: Action, id: MsgId)
    requires Inv(s) && Within(s, id) && Enabled(cap, s, a) && (a.Add? || a.Tick? || a.Crash?)
    ensures Effect(cap, s, a, id)
  {
    OnlyOne(s.r, id);
    if a.Crash? {
      StageOfNone(FRESH, id);
    }
  }

  lemma ReadGroupEffect(cap: nat, s: State, batch: seq<MsgId>, id: MsgId)
    requires Inv(s) && Within(s, id) && Enabled(cap, s, ReadGroup(batch))
    ensures Effect(cap, s, ReadGroup(batch), id)
  {
    ReadGroupDelivers(s.r, batch);
    ReadStage(s, XReadGroup(s.r, batch), batch, id);
    ReadArithmetic(cap, s, batch, id);
  }

  lemma ReadStage(s: State, r': Redis, batch: seq<MsgId>, id: MsgId)
    requires Inv(s) && s.p.fetched == [] && Delivers(s.r, r', batch)
    ensures Stage(s.p.(fetched := batch), id) == if id in batch then 6 else Stage(s.p, id)
    ensures id in batch ==>
              Stage(s.p, id) == 0 && id !in s.r.pending && id !in s.r.acked &&
              id in r'.pending && r'.pending[id].deliveries == 1
    ensures id !in batch ==>
              (id in r'.pending <==> id in s.r.pending) && (id in s.r.pending ==> r'.pending[id] == s.r.pending[id])
  {
    if id in batch {
      assert !WasDelivered(s.r, id);
      StageOfNone(s.p, id);
    } else {
      NoTaskAt(s);
      OthersKeepTheirStage(s.p, s.p.(fetched := batch), s.p.nextTask, id);
    }
  }

  lemma ReadArithmetic(cap: nat, s: State, batch: seq<MsgId>, id: MsgId)
    requires Within(s, id) && Enabled(cap, s, ReadGroup(batch))
    requires var r' := XReadGroup(s.r, batch);
      && Stage(s.p.(fetched := batch), id) == (if id in batch then 6 else Stage(s.p, id))
      && (id in batch ==>
            Stage(s.p, id) == 0 && id !in s.r.pending && id !in s.r.acked &&
            id in r'.pending && r'.pending[id].deliveries == 1)
      && (id !in batch ==>
            (id in r'.pending <==> id in s.r.pending) && (id in s.r.pending ==> r'.pending[id] == s.r.pending[id]))
    ensures Effect(cap, s, ReadGroup(batch), id)
  {
  }

  lemma NoTaskAt(s: State)
    requires Inv(s)
    ensures s.p.nextTask !in s.p.live
  {
  }

  lemma DispatchEffect(cap: nat, s: State, id: MsgId)
    requires Inv(s) && Within(s, id) && Enabled(cap, s, Dispatch)
    ensures Effect(cap, s, Dispatch, id)
  {
    var owner := s.p.fetched[0];
    assert owner in s.p.fetched;
    var s' := Apply(cap, s, Dispatch);
    assert s.p.fetched == [owner] + s'.p.fetched;
    NoTaskAt(s);
    if id == owner {
      DispatchKeepsInv(s);
      TaskFacts(s', s.p.nextTask);
    } else {
      assert id in s.p.fetched <==> id in s'.p.fetched;
      OthersKeepTheirStage(s.p, s'.p, s.p.nextTask, id);
    }
  }

  lemma TaskStage(cap: nat, s: State, a: Action, id: MsgId)
    requires Inv(s) && Enabled(cap, s, a)
    requires a.Acquire? || a.Finish? || a.DeadLetter? || a.Ack?
    ensures var p' := Apply(cap, s, a).p;
      a.t in p'.live && Stage(p', id) == if id == s.p.live[a.t].id then StageOf(p'.live[a.t].phase) else Stage(s.p, id)
  {
    var s' := Apply(cap, s, a);
    if id == s.p.live[a.t].id {
      TaskFacts(s, a.t);
      assert Exclusive(s'.p);
      StageOfTask(s'.p, a.t);
    } else {
      OthersKeepTheirStage(s.p, s'.p, a.t, id);
    }
  }

  lemma TaskEffect(cap: nat, s: State, a: Action, id: MsgId)
    requires Inv(s) && Within(s, id) && Enabled(cap, s, a)
    requires a.Acquire? || a.Finish? || a.DeadLetter? || a.Ack?
    ensures Effect(cap, s, a, id)
  {
    TaskStage(cap, s, a, id);
    TaskFacts(s, a.t);
    TaskArithmetic(cap, s, a, id);
  }

  lemma TaskArithmetic(cap: nat, s: State, a: Action, id: MsgId)
    requires Within(s, id) && Enabled(cap, s, a)
    requires a.Acquire? || a.Finish? || a.DeadLetter? || a.Ack?
    requires var owner := s.p.live[a.t].id;
      && Stage(s.p, owner) == StageOf(s.p.live[a.t].phase)
      && owner in s.r.pending && owner !in s.r.acked
      && s.p.live[a.t].retries == RetriesAt(s.r.pending[owner].deliveries)
    requires var p' := Apply(cap, s, a).p;
      a.t in p'.live && Stage(p', id) == if id == s.p.live[a.t].id then StageOf(p'.live[a.t].phase) else Stage(s.p, id)
    ensures Effect(cap, s, a, id)
  {
  }

  lemma ReleaseEffect(cap: nat, s: State, t: nat, id: MsgId)
    requires Inv(s) && Within(s, id) && Enabled(cap, s, Release(t))
    ensures Effect(cap, s, Release(t), id)
  {
    var p' := ReleaseTask(s.p, t);
    TaskFacts(s, t);
    if id == s.p.live[t].id {
      assert !HasTask(p', id);
      StageOfNone(p', id);
    } else {
      OthersKeepTheirStage(s.p, p', t, id);
    }
  }

  lemma ReclaimStage(s: State, a: Action, id: MsgId)
    requires Inv(s) && Enabled(0, s, a)
    requires a.Snapshot? || a.Check? || a.Claim? || a.Store?
    ensures !a.Store? && !ActsOn(s, a, id) ==> Stage(Apply(0, s, a).p, id) == Stage(s.p, id)
    ensures a.Claim? && ActsOn(s, a, id) ==> Stage(s.p, id) == 0 && Stage(Apply(0, s, a).p, id) == 6
    ensures a.Store? ==>
      if ActsOn(s, a, id) then Stage(s.p, id) == 6 && Stage(Apply(0, s, a).p, id) == 5
      else Stage(Apply(0, s, a).p, id) == Stage(s.p, id)
  {
    var p' := Apply(0, s, a).p;
    NoTaskAt(s);
    if !ActsOn(s, a, id) {
      OthersKeepTheirStage(s.p, p', s.p.nextTask, id);
    } else if a.Claim? {
      assert !HasTask(s.p, id);
      StageOfNone(s.p, id);
    }
  }

  lemma ReclaimEffect(cap: nat, s: State, a: Action, id: MsgId)
    requires Inv(s) && Within(s, id) && Enabled(cap, s, a)
    requires a.Snapshot? || a.Check? || a.Claim? || a.Store?
    ensures Effect(cap, s, a, id)
  {
    ReclaimStage(s, a, id);
    OnlyOne(s.r, id);
    assert Apply(cap, s, a) == Apply(0, s, a);
    if a.Store? && ActsOn(s, a, id) {
      assert id in s.r.pending;
    }
    ReclaimArithmetic(cap, s, a, id);
  }

  lemma ReclaimArithmetic(cap: nat, s: State, a: Action, id: MsgId)
    requires Within(s, id) && Enabled(cap, s, a)
    requires a.Snapshot? || a.Check? || a.Claim? || a.Store?
    requires id in s.r.pending ==> id !in s.r.acked
    requires ActsOn(s, a, id) ==> id in s.r.pending
    requires !ActsOn(s, a, id) ==> Stage(Apply(cap, s, a).p, id) == Stage(s.p, id)
    requires a.Claim? && ActsOn(s, a, id) ==> Stage(s.p, id) == 0 && Stage(Apply(cap, s, a).p, id) == 6
    requires a.Store? && ActsOn(s, a, id) ==> Stage(s.p, id) == 6 && Stage(Apply(cap, s, a).p, id) == 5
    ensures Effect(cap, s, a, id)
  {
  }

  lemma StartEffect(cap: nat, s: State, id: MsgId)
    requires Inv(s) && Within(s, id) && Enabled(cap, s, Start)
    ensures Effect(cap, s, Start, id)
  {
    var s' := Apply(cap, s, Start);
    NoTaskAt(s);
    if id == s.p.reclaimer.id {
      StartKeepsInv(s);
      TaskFacts(s', s.p.nextTask);
    } else {
      OthersKeepTheirStage(s.p, s'.p, s.p.nextTask, id);
    }
  }

  lemma {:induction false} StepEffect(cap: nat, s: State, a: Action, id: MsgId)
    requires Inv(s) && Within(s, id) && Enabled(cap, s, a)
    ensures Effect(cap, s, a, id)
  {
    if a.Add? || a.Tick? || a.Crash? {
      RedisEffect(cap, s, a, id);
    } else if a.Acquire? || a.Finish? || a.DeadLetter? || a.Ack? {
      TaskEffect(cap, s, a, id);
    } else if a.Snapshot? || a.Check? || a.Claim? || a.Store? {
      ReclaimEffect(cap, s, a, id);
    } else {
      HandlesEffect(cap, s, a, id);
    }
  }

  // The steps by which goroutines come and go.
  lemma {:induction false} HandlesEffect(cap: nat, s: State, a: Action, id: MsgId)
    requires Inv(s) && Within(s, id) && Enabled(cap, s, a) && (a.ReadGroup? || a.Dispatch? || a.Release? || a.Start?)
    ensures Effect(cap, s, a, id)
  {
    match a
    case ReadGroup(batch) => ReadGroupEffect(cap, s, batch, id);
    case Dispatch => DispatchEffect(cap, s, id);
    case Release(t) => ReleaseEffect(cap, s, t, id);
    case Start => StartEffect(cap, s, id);
  }
}
