/** Single-process exclusion in the cognitive consumer group, and when it fails. */
module CognitiveExclusion {
  import opened CognitiveStream

  // No two goroutines work on the same entry.
  ghost predicate Exclusive(p: Process) {
    forall t, u | t in p.live && u in p.live && t != u :: p.live[t].id != p.live[u].id
  }

  ghost predicate HasTask(p: Process, id: MsgId) {
    exists t :: t in p.live && p.live[t].id == id
  }

  predicate WaitingForSlot(p: Process, id: MsgId) {
    p.reclaimer.Stored? && p.reclaimer.id == id
  }

  // `inFlight` holds exactly the ids of the goroutines, and the id the reclaim loop is about to start.
  ghost predicate InFlightExact(p: Process) {
    && (forall t | t in p.live :: p.live[t].id in p.inFlight && !WaitingForSlot(p, p.live[t].id))
    && (p.reclaimer.Stored? ==> p.reclaimer.id in p.inFlight)
    && (forall id | id in p.inFlight :: HasTask(p, id) || WaitingForSlot(p, id))
  }

  // The retries argument a delivery gets: none for the first two, then one less than the earlier deliveries.
  function RetriesAt(deliveries: nat): int {
    if deliveries <= 1 then 0 else deliveries - 2
  }

  ghost predicate ReaderOk(r: Redis, p: Process) {
    && (forall i, j | 0 <= i < j < |p.fetched| :: p.fetched[i] != p.fetched[j])
    && (forall id | id in p.fetched :: id in r.pending && r.pending[id].deliveries == 1 && id !in p.inFlight)
  }

  ghost predicate TasksOk(r: Redis, p: Process) {
    forall t | t in p.live ::
      && WasDelivered(r, p.live[t].id)
      && (p.live[t].phase != Returning ==>
            p.live[t].id in r.pending && p.live[t].retries == RetriesAt(r.pending[p.live[t].id].deliveries))
  }

  // An entry of an XPENDING reply that the loop has yet to reach.
  ghost predicate SeenOk(r: Redis, p: Process, seen: Seen) {
    SeenKnown(r, seen) && seen.id !in p.fetched
  }

  ghost predicate ReplyOk(r: Redis, p: Process, reply: seq<Seen>) {
    && (forall i | 0 <= i < |reply| :: SeenOk(r, p, reply[i]))
    && (forall i, j | 0 <= i < j < |reply| :: reply[i].id != reply[j].id)
  }

  ghost predicate Outside(id: MsgId, reply: seq<Seen>) {
    forall i | 0 <= i < |reply| :: reply[i].id != id
  }

  ghost predicate ClaimOk(r: Redis, p: Process, id: MsgId, retries: int, reply: seq<Seen>) {
    && id in r.pending && id !in p.fetched && Outside(id, reply)
    && retries == RetriesAt(r.pending[id].deliveries)
  }

  ghost predicate ReclaimerOk(r: Redis, p: Process) {
    match p.reclaimer
    case Sleeping => true
    case Scanning(reply) => ReplyOk(r, p, reply)
    case Checked(head, reply) =>
      ReplyOk(r, p, reply) && SeenOk(r, p, head) && Outside(head.id, reply) && head.id !in p.inFlight
    case Claimed(id, retries, reply) =>
      ReplyOk(r, p, reply) && ClaimOk(r, p, id, retries, reply) && id !in p.inFlight
    case Stored(id, retries, reply) =>
      ReplyOk(r, p, reply) && ClaimOk(r, p, id, retries, reply)
  }

  ghost predicate Inv(s: State) {
    && Partitioned(s.r)
    && (forall id | id in s.r.pending :: s.r.pending[id].deliveries >= 1)
    && (forall t | t in s.p.live :: t < s.p.nextTask)
    && Exclusive(s.p)
    && InFlightExact(s.p)
    && ReaderOk(s.r, s.p)
    && TasksOk(s.r, s.p)
    && ReclaimerOk(s.r, s.p)
  }

  // A batch is distinct, was not delivered before, and leaves every other pending entry as it was.
  lemma {:induction false} BatchIsFresh(r: Redis, batch: seq<MsgId>)
    requires Partitioned(r) && Next(r, batch)
    ensures forall i, j | 0 <= i < j < |batch| :: batch[i] != batch[j]
    ensures forall id | id in batch :: !WasDelivered(r, id)
  {
    forall i, j | 0 <= i < j < |batch| ensures batch[i] != batch[j] {
      assert r.log[r.pos + i] != r.log[r.pos + j];
    }
    forall id | id in batch ensures !WasDelivered(r, id) {
      var k :| 0 <= k < |batch| && batch[k] == id;
      assert r.log[r.pos + k] == id;
    }
  }

  // `r'` is `r` with a batch delivered that was not delivered before.
  ghost predicate Delivers(r: Redis, r': Redis, batch: seq<MsgId>) {
    && (forall i, j | 0 <= i < j < |batch| :: batch[i] != batch[j])
    && (forall id | id in batch :: !WasDelivered(r, id) && id in r'.pending && r'.pending[id].deliveries == 1)
    && (forall id | WasDelivered(r, id) ::
          && WasDelivered(r', id)
          && (id in r.pending <==> id in r'.pending)
          && (id in r.pending ==> r'.pending[id] == r.pending[id]))
    && (forall id | id in r'.pending :: id in r.pending || id in batch)
  }

  lemma ReadGroupDelivers(r: Redis, batch: seq<MsgId>)
    requires Partitioned(r) && Next(r, batch)
    ensures Delivers(r, XReadGroup(r, batch), batch)
  {
    BatchIsFresh(r, batch);
  }

  lemma ReadGroupKeepsInv(s: State, batch: seq<MsgId>)
    requires Inv(s) && s.p.fetched == [] && Next(s.r, batch)
    ensures Inv(FetchBatch(s, batch))
  {
    ReadGroupDelivers(s.r, batch);
    ReadGroupPartitions(s.r, batch);
    ReadBatch(s, XReadGroup(s.r, batch), batch);
  }

  lemma ReadBatch(s: State, r': Redis, batch: seq<MsgId>)
    requires Inv(s) && Partitioned(r') && s.p.fetched == [] && Delivers(s.r, r', batch)
    ensures Inv(s.(r := r', p := s.p.(fetched := batch)))
  {
    var p, p' := s.p, s.p.(fetched := batch);
    forall id | id in p.inFlight ensures (HasTask(p', id) || WaitingForSlot(p', id)) && WasDelivered(s.r, id) {
      if HasTask(p, id) {
        var t :| t in p.live && p.live[t].id == id;
        assert p'.live[t].id == id;
      }
    }
    ReadKeepsReply(s.r, r', p, batch);
  }

  lemma ReadKeepsReply(r: Redis, r': Redis, p: Process, batch: seq<MsgId>)
    requires ReclaimerOk(r, p) && p.fetched == [] && Delivers(r, r', batch)
    ensures ReclaimerOk(r', p.(fetched := batch))
  {
  }

  lemma DispatchKeepsInv(s: State)
    requires Inv(s) && s.p.fetched != []
    ensures Inv(s.(p := DispatchHead(s.p)))
  {
    var id := s.p.fetched[0];
    assert id in s.p.fetched;
    assert id in s.r.pending && id !in s.p.inFlight;
    var p' := DispatchHead(s.p);
    var rest := s.p.fetched[1..];
    forall x | x in rest ensures x in s.p.fetched && x != id {
      var k :| 0 <= k < |rest| && rest[k] == x;
      assert s.p.fetched[k + 1] == x;
    }
    assert p'.live[s.p.nextTask].id == id;
    assert HasTask(p', id);
    forall x | x in s.p.inFlight && HasTask(s.p, x) ensures HasTask(p', x) {
      var t :| t in s.p.live && s.p.live[t].id == x;
      assert p'.live[t].id == x;
    }
  }

  lemma PhaseKeepsInv(s: State, t: nat, phase: Phase)
    requires Inv(s) && t in s.p.live && (s.p.live[t].phase != Returning || phase == Returning)
    ensures Inv(s.(p := WithPhase(s.p, t, phase)))
  {
    var p' := WithPhase(s.p, t, phase);
    forall x | HasTask(s.p, x) ensures HasTask(p', x) {
      var u :| u in s.p.live && s.p.live[u].id == x;
      assert p'.live[u].id == x;
    }
  }

  lemma AckKeepsInv(s: State, t: nat)
    requires Inv(s) && InPhase(s.p, t, Acking)
    ensures Inv(s.(r := XAck(s.r, s.p.live[t].id), p := WithPhase(s.p, t, Returning)))
  {
    PhaseKeepsInv(s, t, Returning);
    AckedKeepsInv(s.(p := WithPhase(s.p, t, Returning)), s.p.live[t].id);
  }

  lemma AckedKeepsInv(s: State, id: MsgId)
    requires Inv(s) && HasTask(s.p, id)
    requires forall t | t in s.p.live && s.p.live[t].id == id :: s.p.live[t].phase == Returning
    ensures Inv(s.(r := XAck(s.r, id)))
  {
  }

  lemma ReleaseKeepsInv(s: State, t: nat)
    requires Inv(s) && InPhase(s.p, t, Returning)
    ensures Inv(s.(p := ReleaseTask(s.p, t)))
  {
    var p' := ReleaseTask(s.p, t);
    forall x | x in p'.inFlight ensures HasTask(p', x) || WaitingForSlot(p', x) {
      if HasTask(s.p, x) {
        var u :| u in s.p.live && s.p.live[u].id == x;
        assert p'.live[u].id == x;
      }
    }
  }

  lemma SnapshotKeepsInv(s: State, reply: seq<Seen>)
    requires Inv(s) && LagBelow(RETRY_IDLE, s) && s.p.reclaimer.Sleeping? && Reply(s.r, reply)
    ensures Inv(s.(p := s.p.(reclaimer := Scanning(reply))))
  {
  }

  lemma CheckKeepsInv(s: State)
    requires Inv(s) && s.p.reclaimer.Scanning?
    ensures Inv(s.(p := CheckHead(s.p)))
  {
  }

  lemma ClaimKeepsInv(s: State)
    requires Inv(s) && s.p.reclaimer.Checked?
    ensures Inv(ClaimHead(s))
  {
    var Checked(head, reply) := s.p.reclaimer;
    if Idle(s.r, head.id) {
      var p' := s.p.(reclaimer := Claimed(head.id, head.deliveries - 1, reply));
      ClaimKeepsTasks(s, head.id);
      forall i | 0 <= i < |reply| ensures SeenOk(XClaim(s.r, head.id), p', reply[i]) {
        assert SeenOk(s.r, s.p, reply[i]);
      }
    }
  }

  // An entry not in flight has no goroutine that a further delivery could concern.
  lemma ClaimKeepsTasks(s: State, id: MsgId)
    requires Inv(s) && id in s.r.pending && id !in s.p.inFlight && id !in s.p.fetched
    ensures var r' := XClaim(s.r, id); Partitioned(r') && ReaderOk(r', s.p) && TasksOk(r', s.p)
  {
  }

  lemma StoreKeepsInv(s: State)
    requires Inv(s) && s.p.reclaimer.Claimed?
    ensures Inv(s.(p := StoreClaimed(s.p)))
  {
    var p' := StoreClaimed(s.p);
    forall x | HasTask(s.p, x) ensures HasTask(p', x) {
      var u :| u in s.p.live && s.p.live[u].id == x;
      assert p'.live[u].id == x;
    }
  }

  lemma StartKeepsInv(s: State)
    requires Inv(s) && s.p.reclaimer.Stored?
    ensures Inv(s.(p := StartStored(s.p)))
  {
    var p' := StartStored(s.p);
    assert p'.live[s.p.nextTask].id == s.p.reclaimer.id;
    forall x | HasTask(s.p, x) ensures HasTask(p', x) {
      var u :| u in s.p.live && s.p.live[u].id == x;
      assert p'.live[u].id == x;
    }
  }

  lemma SlotsAreFree(s: State, slots: nat)
    requires Inv(s)
    ensures Inv(s.(p := s.p.(slots := slots)))
  {
    var p' := s.p.(slots := slots);
    forall x | HasTask(s.p, x) ensures HasTask(p', x) {
      var u :| u in s.p.live && s.p.live[u].id == x;
      assert p'.live[u].id == x;
    }
  }

  lemma AddKeepsInv(s: State, id: MsgId)
    requires Inv(s) && id !in s.r.log
    ensures Inv(s.(r := XAdd(s.r, id)))
  {
  }

  lemma TickKeepsInv(s: State, d: nat)
    requires Inv(s)
    ensures Inv(s.(r := s.r.(now := s.r.now + d)))
  {
  }

  lemma RedisStepKeepsInv(cap: nat, s: State, a: Action)
    requires Inv(s) && Enabled(cap, s, a)
    requires a.Add? || a.Tick? || a.Crash?
    ensures Inv(Apply(cap, s, a))
  {
    match a
    case Add(id) => AddKeepsInv(s, id);
    case Tick(d) => TickKeepsInv(s, d);
    case Crash =>
  }

  lemma ReaderStepKeepsInv(cap: nat, s: State, a: Action)
    requires Inv(s) && Enabled(cap, s, a)
    requires a.ReadGroup? || a.Dispatch?
    ensures Inv(Apply(cap, s, a))
  {
    match a
    case ReadGroup(batch) => ReadGroupKeepsInv(s, batch);
    case Dispatch => DispatchKeepsInv(s);
  }

  lemma TaskStepKeepsInv(cap: nat, s: State, a: Action)
    requires Inv(s) && Enabled(cap, s, a)
    requires a.Acquire? || a.Finish? || a.DeadLetter? || a.Ack? || a.Release?
    ensures Inv(Apply(cap, s, a))
  {
    if a.Acquire? {
      AcquireKeepsInv(s, a.t);
    } else if a.Release? {
      ReleaseKeepsInv(s, a.t);
    } else {
      HandlerStepKeepsInv(cap, s, a);
    }
  }

  lemma HandlerStepKeepsInv(cap: nat, s: State, a: Action)
    requires Inv(s) && Enabled(cap, s, a)
    requires a.Finish? || a.DeadLetter? || a.Ack?
    ensures Inv(Apply(cap, s, a))
  {
    match a
    case Finish(t, outcome) => FinishKeepsInv(s, t, outcome);
    case DeadLetter(t) => DeadLetterKeepsInv(s, t);
    case Ack(t) => AckKeepsInv(s, t);
  }

  lemma ReclaimStepKeepsInv(cap: nat, s: State, a: Action)
    requires Inv(s) && Enabled(cap, s, a)
    requires (a.Snapshot? && LagBelow(RETRY_IDLE, s)) || a.Check? || a.Claim? || a.Store? || a.Start?
    ensures Inv(Apply(cap, s, a))
  {
    match a
    case Snapshot(reply) => SnapshotKeepsInv(s, reply);
    case Check => CheckKeepsInv(s);
    case Claim => ClaimKeepsInv(s);
    case Store => StoreKeepsInv(s);
    case Start => StartKeepsInv(s);
  }

  lemma {:induction false} InvStep(cap: nat, s: State, a: Action)
    requires Inv(s) && Enabled(cap, s, a) && (a.Snapshot? ==> LagBelow(RETRY_IDLE, s))
    ensures Inv(Apply(cap, s, a))
  {
    if a.Add? || a.Tick? || a.Crash? {
      RedisStepKeepsInv(cap, s, a);
    } else if a.ReadGroup? || a.Dispatch? {
      ReaderStepKeepsInv(cap, s, a);
    } else if a.Snapshot? || a.Check? || a.Claim? || a.Store? || a.Start? {
      ReclaimStepKeepsInv(cap, s, a);
    } else {
      TaskStepKeepsInv(cap, s, a);
    }
  }

  lemma AcquireKeepsInv(s: State, t: nat)
    requires Inv(s) && InPhase(s.p, t, Queued)
    ensures Inv(s.(p := WithPhase(s.p, t, Running).(slots := s.p.slots + 1)))
  {
    PhaseKeepsInv(s, t, Running);
    SlotsAreFree(s.(p := WithPhase(s.p, t, Running)), s.p.slots + 1);
  }

  lemma FinishKeepsInv(s: State, t: nat, outcome: Outcome)
    requires Inv(s) && InPhase(s.p, t, Running)
    ensures Inv(s.(p := WithPhase(s.p, t, AfterProcessing(s.p.live[t].retries, outcome)),
                   done := if outcome == Success then s.done + {s.p.live[t].id} else s.done))
  {
    PhaseKeepsInv(s, t, AfterProcessing(s.p.live[t].retries, outcome));
  }

  lemma DeadLetterKeepsInv(s: State, t: nat)
    requires Inv(s) && InPhase(s.p, t, DeadLettering)
    ensures Inv(s.(r := s.r.(dlq := s.r.dlq + [s.p.live[t].id]), p := WithPhase(s.p, t, Acking)))
  {
    PhaseKeepsInv(s, t, Acking);
    LettersKeepInv(s.(p := WithPhase(s.p, t, Acking)), s.p.live[t].id);
  }

  lemma LettersKeepInv(s: State, id: MsgId)
    requires Inv(s)
    ensures Inv(s.(r := s.r.(dlq := s.r.dlq + [id])))
  {
  }

  /* ---- Exclusion over runs ---- */

  lemma {:induction false} InvRun(cap: nat, s: State, run: seq<Action>)
    requires Inv(s) && Valid(cap, s, run) && LagBelowIn(cap, RETRY_IDLE, s, run)
    ensures Inv(Exec(cap, s, run))
    decreases |run|
  {
    if run != [] {
      InvStep(cap, s, run[0]);
      InvRun(cap, Apply(cap, s, run[0]), run[1..]);
    }
  }

  lemma {:induction false} LagMonotone(cap: nat, lag: nat, more: nat, s: State, run: seq<Action>)
    requires lag <= more && Valid(cap, s, run) && LagBelowIn(cap, lag, s, run)
    ensures LagBelowIn(cap, more, s, run)
    decreases |run|
  {
    if run != [] {
      LagMonotone(cap, lag, more, Apply(cap, s, run[0]), run[1..]);
    }
  }

  // A read loop that sits on a fetched entry for two minutes, between the reclaim loop's check and its claim.
  const SLOW_READ :=
    [Add(0), ReadGroup([0]), Tick(RETRY_IDLE), Snapshot([Seen(0, 1)]), Check, Dispatch, Claim, Store, Start]

  // One more action at the end of a run.
  lemma {:induction false} Extend(cap: nat, lag: nat, s: State, run: seq<Action>, a: Action)
    requires Valid(cap, s, run) && LagBelowIn(cap, lag, s, run)
    requires Enabled(cap, Exec(cap, s, run), a) && LagBelow(lag, Apply(cap, Exec(cap, s, run), a))
    ensures Valid(cap, s, run + [a]) && LagBelowIn(cap, lag, s, run + [a])
    ensures Exec(cap, s, run + [a]) == Apply(cap, Exec(cap, s, run), a)
  {
    var s' := Exec(cap, s, run);
    assert [a][1..] == [];
    LagAtEnd(cap, lag, s, run);
    ExecSnoc(cap, s, run, a);
    LagConcat(cap, lag, s, run, [a]);
  }

  lemma {:induction false} LagAtEnd(cap: nat, lag: nat, s: State, run: seq<Action>)
    requires Valid(cap, s, run) && LagBelowIn(cap, lag, s, run)
    ensures LagBelow(lag, Exec(cap, s, run))
    decreases |run|
  {
    if run != [] {
      LagAtEnd(cap, lag, Apply(cap, s, run[0]), run[1..]);
    }
  }

  // The state after the first three actions: fetched two minutes ago, and not dispatched.
  const LATE :=
    State(Redis([0], 1, map[0 := Entry(1, 0)], {}, [], RETRY_IDLE), Process([0], {}, map[], 0, 0, Sleeping), {}, 0)

  lemma {:induction false} ReachLate(cap: nat, lag: nat)
    requires lag > RETRY_IDLE
    ensures Valid(cap, INIT, SLOW_READ[..3]) && LagBelowIn(cap, lag, INIT, SLOW_READ[..3])
    ensures Exec(cap, INIT, SLOW_READ[..3]) == LATE
  {
    var s1 := INIT.(r := XAdd(INIT.r, 0));
    var s2 := LATE.(r := LATE.r.(now := 0));
    assert XReadGroup(s1.r, [0]).pending == s2.r.pending;
    Extend(cap, lag, INIT, [], Add(0));
    Extend(cap, lag, INIT, [] + [Add(0)], ReadGroup([0]));
    Extend(cap, lag, INIT, [] + [Add(0)] + [ReadGroup([0])], Tick(RETRY_IDLE));
    assert SLOW_READ[..3] == [] + [Add(0)] + [ReadGroup([0])] + [Tick(RETRY_IDLE)];
  }

  // The reclaim loop passes its check before the read loop stores the id.
  const RACED :=
    State(Redis([0], 1, map[0 := Entry(1, 0)], {}, [], RETRY_IDLE),
          Process([], {0}, map[0 := Task(0, 0, Queued)], 1, 0, Checked(Seen(0, 1), [])), {}, 0)

  lemma {:induction false} ReachChecked(cap: nat, lag: nat, passed: State)
    requires lag > RETRY_IDLE && passed == LATE.(p := LATE.p.(reclaimer := Checked(Seen(0, 1), [])))
    ensures var tail := [Snapshot([Seen(0, 1)])] + [Check];
      Valid(cap, LATE, tail) && LagBelowIn(cap, lag, LATE, tail) && Exec(cap, LATE, tail) == passed
  {
    var run := [Snapshot([Seen(0, 1)])];
    var listed := LATE.(p := LATE.p.(reclaimer := Scanning([Seen(0, 1)])));
    Extend(cap, lag, LATE, [], run[0]);
    assert [] + run == run && Exec(cap, LATE, run) == listed;
    assert [Seen(0, 1)][1..] == [] && Apply(cap, listed, Check) == passed;
    Extend(cap, lag, LATE, run, Check);
  }

  lemma {:induction false} ReachRaced(cap: nat, lag: nat)
    requires lag > RETRY_IDLE
    ensures var tail := [Snapshot([Seen(0, 1)]), Check, Dispatch];
      Valid(cap, LATE, tail) && LagBelowIn(cap, lag, LATE, tail) && Exec(cap, LATE, tail) == RACED
  {
    var passed := LATE.(p := LATE.p.(reclaimer := Checked(Seen(0, 1), [])));
    var run := [Snapshot([Seen(0, 1)])] + [Check];
    ReachChecked(cap, lag, passed);
    assert [0][1..] == [] && Apply(cap, passed, Dispatch) == RACED;
    Extend(cap, lag, LATE, run, Dispatch);
    assert run + [Dispatch] == [Snapshot([Seen(0, 1)]), Check, Dispatch];
  }

  lemma {:induction false} RacedBreaksExclusion(cap: nat, lag: nat)
    requires cap >= 1
    ensures var tail := [Claim, Store, Start];
      Valid(cap, RACED, tail) && LagBelowIn(cap, lag, RACED, tail) && !Exclusive(Exec(cap, RACED, tail).p)
  {
    Extend(cap, lag, RACED, [], Claim);
    Extend(cap, lag, RACED, [] + [Claim], Store);
    Extend(cap, lag, RACED, [] + [Claim] + [Store], Start);
    assert [] + [Claim] + [Store] + [Start] == [Claim, Store, Start];
    var p := Exec(cap, RACED, [Claim, Store, Start]).p;
    assert p.live[0].id == 0 && p.live[1].id == 0;
  }

  lemma {:induction false} LagConcat(cap: nat, lag: nat, s: State, run: seq<Action>, more: seq<Action>)
    requires Valid(cap, s, run) && LagBelowIn(cap, lag, s, run)
    requires Valid(cap, Exec(cap, s, run), more) && LagBelowIn(cap, lag, Exec(cap, s, run), more)
    ensures Valid(cap, s, run + more) && LagBelowIn(cap, lag, s, run + more)
    decreases |run|
  {
    if run == [] {
      assert run + more == more;
    } else {
      assert (run + more)[1..] == run[1..] + more;
      LagConcat(cap, lag, Apply(cap, s, run[0]), run[1..], more);
    }
  }

  lemma {:induction false} SlowReadBreaksExclusion(cap: nat, lag: nat)
    requires cap >= 1 && lag > 120
    ensures Valid(cap, INIT, SLOW_READ) && LagBelowIn(cap, lag, INIT, SLOW_READ)
    ensures !Exclusive(Exec(cap, INIT, SLOW_READ).p)
  {
    var one, two, three := SLOW_READ[..3], [Snapshot([Seen(0, 1)]), Check, Dispatch], [Claim, Store, Start];
    assert SLOW_READ == one + (two + three);
    ReachLate(cap, lag);
    ReachRaced(cap, lag);
    RacedBreaksExclusion(cap, lag);
    ExecConcat(cap, LATE, two, three);
    LagConcat(cap, lag, LATE, two, three);
    ExecConcat(cap, INIT, one, two + three);
    LagConcat(cap, lag, INIT, one, two + three);
  }

  /** Exclusion holds in every reachable state exactly when the read loop dispatches what it fetched no later
      than the reclaim loop's idle threshold: the in-flight check alone does not give it. */
  lemma ExclusionIffPromptReadLoop(cap: nat, lag: nat)
    requires cap >= 1
    ensures lag <= 120 <==>
      forall run :: Valid(cap, INIT, run) && LagBelowIn(cap, lag, INIT, run) ==> Exclusive(Exec(cap, INIT, run).p)
  {
    if lag <= RETRY_IDLE {
      forall run | Valid(cap, INIT, run) && LagBelowIn(cap, lag, INIT, run)
        ensures Exclusive(Exec(cap, INIT, run).p)
      {
        LagMonotone(cap, lag, RETRY_IDLE, INIT, run);
        InvRun(cap, INIT, run);
      }
    } else {
      SlowReadBreaksExclusion(cap, lag);
    }
  }

  /** With a prompt read loop, `inFlight` is exactly the set of ids being worked on, every goroutine has its own
      id, and no more than `cap` of them run. */
  lemma SingleProcessExclusion(cap: nat, run: seq<Action>)
    requires Valid(cap, INIT, run) && LagBelowIn(cap, 120, INIT, run)
    ensures var p := Exec(cap, INIT, run).p;
      Exclusive(p) && InFlightExact(p) && p.slots == |Holders(p.live)| <= cap
  {
    InvRun(cap, INIT, run);
    ConcurrencyBounded(cap, run);
  }
}
