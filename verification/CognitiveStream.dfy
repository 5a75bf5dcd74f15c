/** The cognitive consumer group as a state machine.

  One tenant stream, its consumer group "workers", and one worker process. Redis keeps the log, the
  last-delivered position, the pending entry list and the dead-letter queue; the process keeps the
  `inFlight` map, its goroutines, the semaphore and the position of the reclaim loop. Every Redis command
  and every step of a goroutine between two of them is one action, so a run is any interleaving of the
  read loop, the reclaim loop and the handlers. A crash wipes the process and leaves Redis alone.
*/
module CognitiveStream {

  const MAX_RETRIES := 8
  const RETRY_IDLE := 120 // seconds an entry must rest before it can be reclaimed
  const READ_COUNT := 10

  type MsgId = nat

  datatype Outcome = Success | Unrecoverable | Transient

  // A pending-list entry: how often it was delivered, and when it was last delivered.
  datatype Entry = Entry(deliveries: nat, last: nat)

  // A goroutine is waiting for a semaphore slot, processing its payload, about to write to the dead-letter
  // queue, about to acknowledge, or about to run its deferred release.
  datatype Phase = Queued | Running | DeadLettering | Acking | Returning

  datatype Task = Task(id: MsgId, retries: int, phase: Phase)

  // One line of an XPENDING reply.
  datatype Seen = Seen(id: MsgId, deliveries: nat)

  // Where the reclaim loop stands: between ticks, going through a reply, past the in-flight check for the
  // head of the reply, past XCLAIM, or past the in-flight store and waiting for a slot.
  datatype Reclaimer =
    | Sleeping
    | Scanning(reply: seq<Seen>)
    | Checked(head: Seen, reply: seq<Seen>)
    | Claimed(id: MsgId, retries: int, reply: seq<Seen>)
    | Stored(id: MsgId, retries: int, reply: seq<Seen>)

  datatype Redis = Redis(
    log: seq<MsgId>,
    pos: nat,
    pending: map<MsgId, Entry>,
    acked: set<MsgId>,
    dlq: seq<MsgId>,
    now: nat)

  datatype Process = Process(
    fetched: seq<MsgId>,
    inFlight: set<MsgId>,
    live: map<nat, Task>,
    nextTask: nat,
    slots: nat,
    reclaimer: Reclaimer)

  // `done` and `crashes` are history: the ids processed successfully, and the crashes so far. No step reads them.
  datatype State = State(r: Redis, p: Process, done: set<MsgId>, crashes: nat)

  const FRESH := Process([], {}, map[], 0, 0, Sleeping)
  const INIT := State(Redis([], 0, map[], {}, [], 0), FRESH, {}, 0)

  datatype Action =
    | Add(id: MsgId)
    | ReadGroup(batch: seq<MsgId>)
    | Dispatch
    | Acquire(t: nat)
    | Finish(t: nat, outcome: Outcome)
    | DeadLetter(t: nat)
    | Ack(t: nat)
    | Release(t: nat)
    | Snapshot(reply: seq<Seen>)
    | Check
    | Claim
    | Store
    | Start
    | Tick(d: nat)
    | Crash

  /* ---- Redis commands ---- */

  // Pending, and not delivered for `rest` seconds.
  predicate IdleFor(r: Redis, id: MsgId, rest: nat) {
    id in r.pending && r.now - r.pending[id].last >= rest
  }

  predicate Idle(r: Redis, id: MsgId) {
    IdleFor(r, id, RETRY_IDLE)
  }

  // What an XPENDING reply may hold: at most ten distinct idle entries with their delivery counts.
  predicate PendingReply(r: Redis, reply: seq<Seen>, rest: nat) {
    && |reply| <= READ_COUNT
    && (forall i | 0 <= i < |reply| ::
          IdleFor(r, reply[i].id, rest) && reply[i].deliveries == r.pending[reply[i].id].deliveries)
    && (forall i, j | 0 <= i < j < |reply| :: reply[i].id != reply[j].id)
  }

  predicate Reply(r: Redis, reply: seq<Seen>) {
    PendingReply(r, reply, RETRY_IDLE)
  }

  function XAdd(r: Redis, id: MsgId): Redis {
    r.(log := r.log + [id])
  }

  // Every entry of a batch gets a first delivery.
  function Deliver(pending: map<MsgId, Entry>, batch: seq<MsgId>, now: nat): (d: map<MsgId, Entry>)
    ensures forall id :: id in d <==> id in pending || id in batch
    ensures forall id | id in d :: d[id] == if id in batch then Entry(1, now) else pending[id]
  {
    if batch == [] then pending
    else
      var last := |batch| - 1;
      assert batch == batch[..last] + [batch[last]];
      Deliver(pending, batch[..last], now)[batch[last] := Entry(1, now)]
  }

  // What an XREADGROUP reply may hold: at most ten of the entries right after the last-delivered position.
  predicate Next(r: Redis, batch: seq<MsgId>) {
    && |batch| <= READ_COUNT
    && r.pos + |batch| <= |r.log|
    && forall i | 0 <= i < |batch| :: batch[i] == r.log[r.pos + i]
  }

  function XReadGroup(r: Redis, batch: seq<MsgId>): Redis {
    r.(pending := Deliver(r.pending, batch, r.now), pos := r.pos + |batch|)
  }

  function XAck(r: Redis, id: MsgId): Redis {
    if id in r.pending then r.(pending := r.pending - {id}, acked := r.acked + {id}) else r
  }

  // XCLAIM with a minimum idle time counts one more delivery and resets the idle clock.
  function XClaim(r: Redis, id: MsgId): Redis
    requires id in r.pending
  {
    r.(pending := r.pending[id := Entry(r.pending[id].deliveries + 1, r.now)])
  }

  /* ---- Steps of the process ---- */

  predicate InPhase(p: Process, t: nat, phase: Phase) {
    t in p.live && p.live[t].phase == phase
  }

  function WithPhase(p: Process, t: nat, phase: Phase): Process
    requires t in p.live
  {
    p.(live := p.live[t := p.live[t].(phase := phase)])
  }

  function Spawn(p: Process, id: MsgId, retries: int, phase: Phase): Process {
    p.(live := p.live[p.nextTask := Task(id, retries, phase)], nextTask := p.nextTask + 1)
  }

  // The three-way branch at the end of a handler.
  function AfterProcessing(retries: int, outcome: Outcome): Phase {
    if outcome == Success then Acking
    else if outcome == Unrecoverable || retries + 1 >= MAX_RETRIES then DeadLettering
    else Returning
  }

  function FetchBatch(s: State, batch: seq<MsgId>): State {
    s.(r := XReadGroup(s.r, batch), p := s.p.(fetched := batch))
  }

  // The read loop's turn for one fetched entry.
  function DispatchHead(p: Process): Process
    requires p.fetched != []
  {
    var id := p.fetched[0];
    var p' := p.(fetched := p.fetched[1..]);
    if id in p.inFlight then p' else Spawn(p'.(inFlight := p.inFlight + {id}), id, 0, Queued)
  }

  function ReleaseTask(p: Process, t: nat): Process
    requires t in p.live
  {
    p.(live := p.live - {t}, slots := if p.slots > 0 then p.slots - 1 else 0, inFlight := p.inFlight - {p.live[t].id})
  }

  function CheckHead(p: Process): Process
    requires p.reclaimer.Scanning?
  {
    var reply := p.reclaimer.reply;
    p.(reclaimer :=
         if reply == [] then Sleeping
         else if reply[0].id in p.inFlight then Scanning(reply[1..])
         else Checked(reply[0], reply[1..]))
  }

  // The retries argument is the delivery count of the earlier reply, minus one.
  function ClaimHead(s: State): State
    requires s.p.reclaimer.Checked?
  {
    var Checked(head, reply) := s.p.reclaimer;
    if Idle(s.r, head.id) then
      s.(r := XClaim(s.r, head.id), p := s.p.(reclaimer := Claimed(head.id, head.deliveries - 1, reply)))
    else
      s.(p := s.p.(reclaimer := Scanning(reply)))
  }

  function StoreClaimed(p: Process): Process
    requires p.reclaimer.Claimed?
  {
    var Claimed(id, retries, reply) := p.reclaimer;
    p.(inFlight := p.inFlight + {id}, reclaimer := Stored(id, retries, reply))
  }

  function StartStored(p: Process): Process
    requires p.reclaimer.Stored?
  {
    var Stored(id, retries, reply) := p.reclaimer;
    Spawn(p.(slots := p.slots + 1, reclaimer := Scanning(reply)), id, retries, Running)
  }

  /* ---- Actions ---- */

  // When each action can happen. `cap` is the capacity of the semaphore channel.
  predicate Enabled(cap: nat, s: State, a: Action) {
    match a
    case Add(id) => id !in s.r.log
    case ReadGroup(batch) => s.p.fetched == [] && Next(s.r, batch)
    case Dispatch => s.p.fetched != []
    case Acquire(t) => InPhase(s.p, t, Queued) && s.p.slots < cap
    case Finish(t, _) => InPhase(s.p, t, Running)
    case DeadLetter(t) => InPhase(s.p, t, DeadLettering)
    case Ack(t) => InPhase(s.p, t, Acking)
    case Release(t) => InPhase(s.p, t, Returning)
    case Snapshot(reply) => s.p.reclaimer.Sleeping? && Reply(s.r, reply)
    case Check => s.p.reclaimer.Scanning?
    case Claim => s.p.reclaimer.Checked?
    case Store => s.p.reclaimer.Claimed?
    case Start => s.p.reclaimer.Stored? && s.p.slots < cap
    case Tick(_) => true
    case Crash => true
  }

  function Apply(cap: nat, s: State, a: Action): State
    requires Enabled(cap, s, a)
  {
    match a
    case Add(id) => s.(r := XAdd(s.r, id))
    case ReadGroup(batch) => FetchBatch(s, batch)
    case Dispatch => s.(p := DispatchHead(s.p))
    case Acquire(t) => s.(p := WithPhase(s.p, t, Running).(slots := s.p.slots + 1))
    case Finish(t, outcome) =>
      s.(p := WithPhase(s.p, t, AfterProcessing(s.p.live[t].retries, outcome)),
         done := if outcome == Success then s.done + {s.p.live[t].id} else s.done)
    case DeadLetter(t) =>
      s.(r := s.r.(dlq := s.r.dlq + [s.p.live[t].id]), p := WithPhase(s.p, t, Acking))
    case Ack(t) => s.(r := XAck(s.r, s.p.live[t].id), p := WithPhase(s.p, t, Returning))
    case Release(t) => s.(p := ReleaseTask(s.p, t))
    case Snapshot(reply) => s.(p := s.p.(reclaimer := Scanning(reply)))
    case Check => s.(p := CheckHead(s.p))
    case Claim => ClaimHead(s)
    case Store => s.(p := StoreClaimed(s.p))
    case Start => s.(p := StartStored(s.p))
    case Tick(d) => s.(r := s.r.(now := s.r.now + d))
    case Crash => s.(p := FRESH, crashes := s.crashes + 1)
  }

  /* ---- Runs ---- */

  predicate Valid(cap: nat, s: State, run: seq<Action>)
    decreases |run|
  {
    run == [] || (Enabled(cap, s, run[0]) && Valid(cap, Apply(cap, s, run[0]), run[1..]))
  }

  function Exec(cap: nat, s: State, run: seq<Action>): State
    requires Valid(cap, s, run)
    decreases |run|
  {
    if run == [] then s else Exec(cap, Apply(cap, s, run[0]), run[1..])
  }

  lemma {:induction false} ExecConcat(cap: nat, s: State, run: seq<Action>, more: seq<Action>)
    requires Valid(cap, s, run) && Valid(cap, Exec(cap, s, run), more)
    ensures Valid(cap, s, run + more) && Exec(cap, s, run + more) == Exec(cap, Exec(cap, s, run), more)
    decreases |run|
  {
    if run == [] {
      assert run + more == more;
    } else {
      assert (run + more)[1..] == run[1..] + more;
      ExecConcat(cap, Apply(cap, s, run[0]), run[1..], more);
    }
  }

  lemma {:induction false} ExecSnoc(cap: nat, s: State, run: seq<Action>, a: Action)
    requires Valid(cap, s, run) && Enabled(cap, Exec(cap, s, run), a)
    ensures Valid(cap, s, run + [a]) && Exec(cap, s, run + [a]) == Apply(cap, Exec(cap, s, run), a)
    decreases |run|
  {
    if run == [] {
      assert [a][1..] == [];
      assert run + [a] == [a];
    } else {
      assert (run + [a])[1..] == run[1..] + [a];
      ExecSnoc(cap, Apply(cap, s, run[0]), run[1..], a);
    }
  }

  // The read loop has kept every fetched entry waiting for less than `lag` seconds.
  predicate LagBelow(lag: nat, s: State) {
    forall i | 0 <= i < |s.p.fetched| ::
      s.p.fetched[i] in s.r.pending ==> s.r.now - s.r.pending[s.p.fetched[i]].last < lag
  }

  // ... in every state of the run.
  predicate LagBelowIn(cap: nat, lag: nat, s: State, run: seq<Action>)
    requires Valid(cap, s, run)
    decreases |run|
  {
    LagBelow(lag, s) && (run == [] || LagBelowIn(cap, lag, Apply(cap, s, run[0]), run[1..]))
  }

  /* ---- Nothing is lost: every run, crashes and slow read loops included ---- */

  ghost predicate Distinct(log: seq<MsgId>) {
    forall i, j | 0 <= i < j < |log| :: log[i] != log[j]
  }

  // Each entry is in exactly one of undelivered, pending, acknowledged.
  ghost predicate Partitioned(r: Redis) {
    && r.pos <= |r.log|
    && Distinct(r.log)
    && (forall i | 0 <= i < r.pos :: r.log[i] in r.pending <==> r.log[i] !in r.acked)
    && (forall i | r.pos <= i < |r.log| :: r.log[i] !in r.pending && r.log[i] !in r.acked)
    && (forall id | id in r.pending :: id in r.log)
    && (forall id | id in r.acked :: id in r.log)
  }

  ghost predicate WasDelivered(r: Redis, id: MsgId) {
    id in r.pending || id in r.acked
  }

  // The lines of a reply are about different delivered entries, and right about those still pending.
  ghost predicate SeenKnown(r: Redis, seen: Seen) {
    WasDelivered(r, seen.id) && (seen.id in r.pending ==> seen.deliveries == r.pending[seen.id].deliveries)
  }

  ghost predicate ReplyKnown(r: Redis, reply: seq<Seen>) {
    && (forall i | 0 <= i < |reply| :: SeenKnown(r, reply[i]))
    && (forall i, j | 0 <= i < j < |reply| :: reply[i].id != reply[j].id)
  }

  lemma OnlyOne(r: Redis, id: MsgId)
    requires Partitioned(r)
    ensures id in r.pending ==> id !in r.acked
  {
    if id in r.pending {
      var i :| 0 <= i < |r.log| && r.log[i] == id;
    }
  }

  ghost predicate Accounted(s: State) {
    && (forall id | id in s.r.acked :: id in s.done || id in s.r.dlq)
    && (forall t | InPhase(s.p, t, Acking) :: s.p.live[t].id in s.done || s.p.live[t].id in s.r.dlq)
  }

  ghost predicate NothingLost(s: State) {
    Partitioned(s.r) && Accounted(s)
  }

  lemma InBatch(r: Redis, batch: seq<MsgId>, i: nat)
    requires Distinct(r.log) && Next(r, batch) && i < |r.log|
    ensures r.log[i] in batch <==> r.pos <= i < r.pos + |batch|
  {
    if r.pos <= i < r.pos + |batch| {
      assert batch[i - r.pos] == r.log[i];
    }
  }

  lemma ReadGroupPartitions(r: Redis, batch: seq<MsgId>)
    requires Partitioned(r) && Next(r, batch)
    ensures Partitioned(XReadGroup(r, batch))
  {
    var r' := XReadGroup(r, batch);
    forall i | 0 <= i < |r.log|
      ensures r.log[i] in r'.pending <==> r.log[i] in r.pending || r.pos <= i < r.pos + |batch|
    {
      InBatch(r, batch, i);
    }
  }

  lemma NothingLostStep(cap: nat, s: State, a: Action)
    requires NothingLost(s) && Enabled(cap, s, a)
    ensures NothingLost(Apply(cap, s, a))
  {
    if a.ReadGroup? {
      ReadGroupPartitions(s.r, a.batch);
    }
  }

  lemma {:induction false} NothingLostRun(cap: nat, s: State, run: seq<Action>)
    requires NothingLost(s) && Valid(cap, s, run)
    ensures NothingLost(Exec(cap, s, run))
    decreases |run|
  {
    if run != [] {
      NothingLostStep(cap, s, run[0]);
      NothingLostRun(cap, Apply(cap, s, run[0]), run[1..]);
    }
  }

  /** Over every run from the empty stream, slow read loops and crashes included, each entry is undelivered, pending
      or acknowledged and never two of these, and an acknowledged entry was processed successfully or is in the
      dead-letter queue. */
  lemma NoMessageLost(cap: nat, run: seq<Action>)
    requires Valid(cap, INIT, run)
    ensures var s := Exec(cap, INIT, run);
      && (forall i | 0 <= i < |s.r.log| ::
            (if i >= s.r.pos then 1 else 0) + (if s.r.log[i] in s.r.pending then 1 else 0) +
            (if s.r.log[i] in s.r.acked then 1 else 0) == 1)
      && (forall id | id in s.r.acked :: id in s.done || id in s.r.dlq)
  {
    NothingLostRun(cap, INIT, run);
  }

  /* ---- The semaphore: every run ---- */

  function Holders(live: map<nat, Task>): set<nat> {
    set t | t in live && live[t].phase != Queued
  }

  ghost predicate SlotsExact(cap: nat, p: Process) {
    && p.slots == |Holders(p.live)| <= cap
    && (forall t | t in p.live :: t < p.nextTask)
  }

  lemma PhaseKeepsHolders(p: Process, t: nat, phase: Phase)
    requires t in p.live
    ensures Holders(WithPhase(p, t, phase).live) ==
      if phase == Queued then Holders(p.live) - {t} else Holders(p.live) + {t}
  {
  }

  // A goroutine that keeps its slot.
  lemma PhaseKeepsSlots(cap: nat, p: Process, t: nat, phase: Phase)
    requires SlotsExact(cap, p) && t in p.live && p.live[t].phase != Queued && phase != Queued
    ensures SlotsExact(cap, WithPhase(p, t, phase))
  {
    PhaseKeepsHolders(p, t, phase);
    assert Holders(WithPhase(p, t, phase).live) == Holders(p.live);
  }

  lemma ReleaseKeepsSlots(cap: nat, p: Process, t: nat)
    requires SlotsExact(cap, p) && InPhase(p, t, Returning)
    ensures SlotsExact(cap, ReleaseTask(p, t))
  {
    assert t in Holders(p.live);
    assert Holders(ReleaseTask(p, t).live) == Holders(p.live) - {t};
  }

  lemma SlotsStep(cap: nat, s: State, a: Action)
    requires SlotsExact(cap, s.p) && Enabled(cap, s, a)
    ensures SlotsExact(cap, Apply(cap, s, a).p)
  {
    match a
    case Dispatch => assert Holders(DispatchHead(s.p).live) == Holders(s.p.live);
    case Acquire(t) => PhaseKeepsHolders(s.p, t, Running);
    case Finish(t, outcome) => PhaseKeepsSlots(cap, s.p, t, AfterProcessing(s.p.live[t].retries, outcome));
    case DeadLetter(t) => PhaseKeepsSlots(cap, s.p, t, Acking);
    case Ack(t) => PhaseKeepsSlots(cap, s.p, t, Returning);
    case Release(t) => ReleaseKeepsSlots(cap, s.p, t);
    case Start => assert Holders(StartStored(s.p).live) == Holders(s.p.live) + {s.p.nextTask};
    case Crash => assert Holders(FRESH.live) == {};
    case _ =>
  }

  lemma {:induction false} SlotsRun(cap: nat, s: State, run: seq<Action>)
    requires SlotsExact(cap, s.p) && Valid(cap, s, run)
    ensures SlotsExact(cap, Exec(cap, s, run).p)
    decreases |run|
  {
    if run != [] {
      SlotsStep(cap, s, run[0]);
      SlotsRun(cap, Apply(cap, s, run[0]), run[1..]);
    }
  }

  /** In every run the slot counter is the number of goroutines past the semaphore, and never exceeds its capacity. */
  lemma ConcurrencyBounded(cap: nat, run: seq<Action>)
    requires Valid(cap, INIT, run)
    ensures var p := Exec(cap, INIT, run).p; p.slots == |Holders(p.live)| <= cap
  {
    assert Holders(INIT.p.live) == {};
    SlotsRun(cap, INIT, run);
  }
}
