/** Slow read loops included: how far attempts at one entry can overlap, and the retry bound of every run. A read loop
    that sits on a fetched entry can race the reclaim loop, and then a goroutine that releases the entry's id hides the
    other from the in-flight check; but never are there more than two, and the last two that the retry count allows
    both end in an acknowledgement. */
module CognitiveOverlap {
  import opened CognitiveStream
  import opened CognitiveExclusion
  import opened CognitiveBounds
  import opened CognitiveRuns

  const LAST_RETRY := MAX_RETRIES - 1 // a goroutine with this many retries behind it acknowledges whatever happens
  const MOST_DELIVERIES := MAX_RETRIES + 2

  /* ---- What the process holds of an entry ---- */

  function Copies(p: Process, id: MsgId): set<nat> {
    set t | t in p.live && p.live[t].id == id
  }

  function Waiting(p: Process, id: MsgId): set<nat> {
    set t | t in p.live && p.live[t].id == id && p.live[t].phase == Queued
  }

  function Last(p: Process, id: MsgId): set<nat> {
    set t | t in p.live && p.live[t].id == id && p.live[t].retries >= LAST_RETRY
  }

  predicate Checking(p: Process, id: MsgId) {
    p.reclaimer.Checked? && p.reclaimer.head.id == id
  }

  function Bit(b: bool): nat {
    if b then 1 else 0
  }

  // Goroutines on the entry, and the one the reclaim loop has announced.
  function Held(p: Process, id: MsgId): nat {
    |Copies(p, id)| + Bit(WaitingForSlot(p, id))
  }

  // Those among them, claimed or started, that will acknowledge the entry.
  function Finals(p: Process, id: MsgId): nat {
    |Last(p, id)| + Bit(Reclaiming(p, id) && p.reclaimer.retries >= LAST_RETRY)
  }

  // Deliveries of the entry whose attempt has not started.
  function Unstarted(p: Process, id: MsgId): nat {
    |Waiting(p, id)| + Bit(id in p.fetched) + Bit(Reclaiming(p, id))
  }

  /* ---- Invariants ---- */

  ghost predicate ReclaimerKnown(r: Redis, rec: Reclaimer) {
    match rec
    case Sleeping => true
    case Scanning(reply) => ReplyKnown(r, reply)
    case Checked(head, reply) => ReplyKnown(r, reply) && SeenKnown(r, head) && Outside(head.id, reply)
    case Claimed(id, _, reply) => ReplyKnown(r, reply) && WasDelivered(r, id) && Outside(id, reply)
    case Stored(id, _, reply) => ReplyKnown(r, reply) && WasDelivered(r, id) && Outside(id, reply)
  }

  // The process only knows delivered entries, and a last attempt returns after its acknowledgement.
  ghost predicate Known(r: Redis, p: Process) {
    && (forall i, j | 0 <= i < j < |p.fetched| :: p.fetched[i] != p.fetched[j])
    && (forall id | id in p.fetched || id in p.inFlight :: WasDelivered(r, id))
    && (forall t | t in p.live :: t < p.nextTask && WasDelivered(r, p.live[t].id))
    && (forall t | t in p.live && p.live[t].retries >= LAST_RETRY && p.live[t].phase == Returning ::
          p.live[t].id !in r.pending)
  }

  ghost predicate Base(s: State) {
    && Partitioned(s.r) && Known(s.r, s.p) && ReclaimerKnown(s.r, s.p.reclaimer)
    && forall id | id in s.r.pending :: s.r.pending[id].deliveries >= 1
  }

  // The read loop still is, or was, in the same process as the first delivery: at most two goroutines, and one at
  // most that the in-flight map does not show.
  ghost predicate Pair(p: Process, id: MsgId) {
    && Bit(id in p.inFlight) <= Held(p, id) <= 1 + Bit(id in p.inFlight)
    && (id in p.fetched ==> Held(p, id) == Bit(id in p.inFlight))
    && (Checking(p, id) || (Reclaiming(p, id) && !WaitingForSlot(p, id)) ==> Bit(id in p.fetched) + Held(p, id) <= 1)
  }

  // Only the reclaim loop hands the entry out, one goroutine at a time.
  ghost predicate Single(p: Process, id: MsgId) {
    && id !in p.fetched
    && Held(p, id) == Bit(id in p.inFlight)
    && (Checking(p, id) || (Reclaiming(p, id) && !WaitingForSlot(p, id)) ==> Held(p, id) == 0)
  }

  // A delivered entry before the first crash after its delivery ...
  ghost predicate Together(s: State, id: MsgId) {
    Pair(s.p, id) && (id in s.r.pending ==> s.r.pending[id].deliveries <= MAX_RETRIES + s.crashes + Finals(s.p, id))
  }

  // ... and after it.
  ghost predicate Alone(s: State, id: MsgId) {
    && Single(s.p, id)
    && (id in s.r.pending ==> s.r.pending[id].deliveries <= MAX_RETRIES + 1 + s.crashes + Finals(s.p, id))
  }

  ghost predicate Overlap(s: State, id: MsgId) {
    WasDelivered(s.r, id) ==> Together(s, id) || Alone(s, id)
  }

  // A crash leaves the entry to the reclaim loop for good.
  ghost predicate Follows(s: State, s': State, crash: bool, id: MsgId) {
    && (WasDelivered(s.r, id) && Together(s, id) && !crash ==> Together(s', id))
    && (WasDelivered(s.r, id) && (Alone(s, id) || (Together(s, id) && crash)) ==> Alone(s', id))
    && (WasDelivered(s'.r, id) && !WasDelivered(s.r, id) ==> Together(s', id))
  }

  // Attempts the group can still start for an entry.
  ghost function Left(s: State, id: MsgId): int {
    if id in s.r.acked then Unstarted(s.p, id)
    else if id in s.r.pending then MOST_DELIVERIES + s.crashes - s.r.pending[id].deliveries + Unstarted(s.p, id)
    else MOST_DELIVERIES + s.crashes
  }

  /* ---- How the sets of goroutines move ---- */

  lemma {:induction false} LastAreCopies(p: Process, id: MsgId)
    ensures |Last(p, id)| <= |Copies(p, id)|
  {
    assert Copies(p, id) == Last(p, id) + (Copies(p, id) - Last(p, id));
  }

  lemma {:induction false} Started(p: Process, p': Process, t: nat, task: Task, id: MsgId)
    requires t !in p.live && p'.live == p.live[t := task]
    ensures |Copies(p', id)| == |Copies(p, id)| + Bit(task.id == id)
    ensures |Waiting(p', id)| == |Waiting(p, id)| + Bit(task.id == id && task.phase == Queued)
    ensures |Last(p', id)| == |Last(p, id)| + Bit(task.id == id && task.retries >= LAST_RETRY)
  {
    StartedSets(p, p', t, task, id);
    Plus(Copies(p, id), t);
    Plus(Waiting(p, id), t);
    Plus(Last(p, id), t);
  }

  lemma Plus(a: set<nat>, t: nat)
    ensures t !in a ==> |a + {t}| == |a| + 1
  {
  }

  lemma {:induction false} StartedSets(p: Process, p': Process, t: nat, task: Task, id: MsgId)
    requires t !in p.live && p'.live == p.live[t := task]
    ensures Copies(p', id) == if task.id == id then Copies(p, id) + {t} else Copies(p, id)
    ensures Waiting(p', id) == if task.id == id && task.phase == Queued then Waiting(p, id) + {t} else Waiting(p, id)
    ensures Last(p', id) == if task.id == id && task.retries >= LAST_RETRY then Last(p, id) + {t} else Last(p, id)
  {
  }

  lemma {:induction false} Moved(p: Process, t: nat, phase: Phase, id: MsgId)
    requires t in p.live && phase != Queued
    ensures Copies(WithPhase(p, t, phase), id) == Copies(p, id) && Last(WithPhase(p, t, phase), id) == Last(p, id)
    ensures |Waiting(WithPhase(p, t, phase), id)| == |Waiting(p, id)| - Bit(t in Waiting(p, id))
  {
    assert Waiting(WithPhase(p, t, phase), id) == Waiting(p, id) - {t};
  }

  lemma Minus(a: set<nat>, t: nat)
    ensures |a - {t}| == |a| - Bit(t in a)
  {
  }

  lemma {:induction false} Gone(p: Process, t: nat, id: MsgId)
    requires InPhase(p, t, Returning)
    ensures |Copies(ReleaseTask(p, t), id)| == |Copies(p, id)| - Bit(p.live[t].id == id)
    ensures Waiting(ReleaseTask(p, t), id) == Waiting(p, id)
    ensures |Last(ReleaseTask(p, t), id)| == |Last(p, id)| - Bit(p.live[t].id == id && p.live[t].retries >= LAST_RETRY)
  {
    GoneSets(p, t, id);
    Minus(Copies(p, id), t);
    Minus(Last(p, id), t);
  }

  lemma {:induction false} GoneSets(p: Process, t: nat, id: MsgId)
    requires InPhase(p, t, Returning)
    ensures Copies(ReleaseTask(p, t), id) == Copies(p, id) - {t}
    ensures Waiting(ReleaseTask(p, t), id) == Waiting(p, id)
    ensures Last(ReleaseTask(p, t), id) == Last(p, id) - {t}
  {
  }

  /* ---- Every action keeps the base ---- */

  lemma {:induction false} BaseRead(cap: nat, s: State, batch: seq<MsgId>)
    requires Base(s) && Enabled(cap, s, ReadGroup(batch))
    ensures Base(FetchBatch(s, batch))
  {
    ReadGroupDelivers(s.r, batch);
    ReadGroupPartitions(s.r, batch);
    BaseGrows(s, XReadGroup(s.r, batch), batch);
  }

  lemma {:induction false} BaseGrows(s: State, r': Redis, batch: seq<MsgId>)
    requires Base(s) && Partitioned(r') && Delivers(s.r, r', batch)
    ensures Base(s.(r := r', p := s.p.(fetched := batch)))
  {
    forall id | id in batch ensures WasDelivered(r', id) {
    }
  }

  lemma {:induction false} BaseDispatch(s: State)
    requires Base(s) && s.p.fetched != []
    ensures Base(s.(p := DispatchHead(s.p)))
  {
    assert s.p.fetched == [s.p.fetched[0]] + s.p.fetched[1..];
    assert s.p.fetched[0] in s.p.fetched;
  }

  lemma {:induction false} BaseMoved(s: State, t: nat, phase: Phase)
    requires Base(s) && t in s.p.live
    requires phase == Returning && s.p.live[t].retries >= LAST_RETRY ==> s.p.live[t].id !in s.r.pending
    ensures Base(s.(p := WithPhase(s.p, t, phase)))
  {
  }

  lemma {:induction false} BaseAck(s: State, t: nat)
    requires Base(s) && InPhase(s.p, t, Acking)
    ensures Base(s.(r := XAck(s.r, s.p.live[t].id), p := WithPhase(s.p, t, Returning)))
  {
    var id := s.p.live[t].id;
    AckKeeps(s, id);
    BaseMoved(s.(r := XAck(s.r, id)), t, Returning);
  }

  lemma {:induction false} AckKeeps(s: State, id: MsgId)
    requires Base(s) && WasDelivered(s.r, id)
    ensures Base(s.(r := XAck(s.r, id)))
  {
  }

  lemma {:induction false} BaseReclaim(cap: nat, s: State, a: Action)
    requires Base(s) && Enabled(cap, s, a) && (a.Check? || a.Store? || a.Start?)
    ensures Base(Apply(cap, s, a))
  {
  }

  lemma {:induction false} BaseClaim(cap: nat, s: State)
    requires Base(s) && Enabled(cap, s, Claim)
    ensures Base(ClaimHead(s))
  {
    var Checked(head, reply) := s.p.reclaimer;
    if Idle(s.r, head.id) {
      ClaimPartitions(s.r, head.id);
    }
  }

  lemma {:induction false} ClaimPartitions(r: Redis, id: MsgId)
    requires Partitioned(r) && id in r.pending
    ensures Partitioned(XClaim(r, id))
  {
  }

  lemma {:induction false} BaseTask(cap: nat, s: State, a: Action)
    requires Base(s) && Enabled(cap, s, a) && (a.Acquire? || a.Finish? || a.DeadLetter? || a.Ack? || a.Release?)
    ensures Base(Apply(cap, s, a))
  {
    match a
    case Acquire(t) => BaseMoved(s, t, Running);
    case Finish(t, outcome) => BaseMoved(s, t, AfterProcessing(s.p.live[t].retries, outcome));
    case DeadLetter(t) => BaseMoved(s, t, Acking);
    case Ack(t) => BaseAck(s, t);
    case Release(t) =>
  }

  lemma {:induction false} BaseOutside(cap: nat, s: State, a: Action)
    requires Base(s) && Enabled(cap, s, a) && (a.Add? || a.Snapshot? || a.Tick? || a.Crash?)
    ensures Base(Apply(cap, s, a))
  {
  }

  lemma {:induction false} BaseStep(cap: nat, s: State, a: Action)
    requires Base(s) && Enabled(cap, s, a)
    ensures Base(Apply(cap, s, a))
  {
    if a.ReadGroup? {
      BaseRead(cap, s, a.batch);
    } else if a.Dispatch? {
      BaseDispatch(s);
    } else if a.Claim? {
      BaseClaim(cap, s);
    } else if a.Check? || a.Store? || a.Start? {
      BaseReclaim(cap, s, a);
    } else if a.Add? || a.Snapshot? || a.Tick? || a.Crash? {
      BaseOutside(cap, s, a);
    } else {
      BaseTask(cap, s, a);
    }
  }

  /* ---- Every action keeps an entry's overlap, and uses up its attempts ---- */

  ghost predicate Kept(cap: nat, s: State, a: Action, id: MsgId)
    requires Enabled(cap, s, a)
  {
    var s' := Apply(cap, s, a);
    && Follows(s, s', a.Crash?, id)
    && Left(s', id) + Bit(StartsAttempt(s, a, id)) <= Left(s, id) + Bit(a.Crash?)
  }

  lemma {:induction false} SameLive(p: Process, p': Process, id: MsgId)
    requires p'.live == p.live
    ensures Copies(p', id) == Copies(p, id) && Waiting(p', id) == Waiting(p, id) && Last(p', id) == Last(p, id)
  {
  }

  // A step that leaves what is held of an entry as it is.
  ghost predicate SameHold(s: State, s': State, id: MsgId) {
    && (id in s'.r.acked <==> id in s.r.acked) && (id in s'.r.pending <==> id in s.r.pending)
    && (id in s.r.pending ==> s'.r.pending[id].deliveries == s.r.pending[id].deliveries) && s'.crashes == s.crashes
    && (id in s'.p.fetched <==> id in s.p.fetched) && (id in s'.p.inFlight <==> id in s.p.inFlight)
    && (s'.p.reclaimer == s.p.reclaimer || (s.p.reclaimer.Sleeping? && s'.p.reclaimer.Scanning?))
    && |Copies(s'.p, id)| == |Copies(s.p, id)| && |Last(s'.p, id)| == |Last(s.p, id)|
  }

  lemma {:induction false} SameHoldFollows(s: State, s': State, id: MsgId)
    requires SameHold(s, s', id)
    ensures Follows(s, s', false, id)
  {
  }

  lemma {:induction false} KeptOutside(cap: nat, s: State, a: Action, id: MsgId)
    requires Base(s) && Overlap(s, id) && Enabled(cap, s, a) && (a.Add? || a.Tick? || a.Snapshot?)
    ensures Kept(cap, s, a, id)
  {
    SameLive(s.p, Apply(cap, s, a).p, id);
    SameHoldFollows(s, Apply(cap, s, a), id);
  }

  lemma {:induction false} NothingHeld(p: Process, id: MsgId)
    requires (forall t | t in p.live :: p.live[t].id != id) && !Reclaiming(p, id)
    ensures Held(p, id) == 0 && Finals(p, id) == 0 && |Waiting(p, id)| == 0
  {
    assert Copies(p, id) == {} && Waiting(p, id) == {} && Last(p, id) == {};
  }

  lemma {:induction false} KeptCrash(cap: nat, s: State, id: MsgId)
    requires Base(s) && Overlap(s, id)
    ensures Kept(cap, s, Crash, id)
  {
    NothingHeld(FRESH, id);
    LastAreCopies(s.p, id);
    OnlyOne(s.r, id);
  }

  lemma {:induction false} KeptRead(cap: nat, s: State, batch: seq<MsgId>, id: MsgId)
    requires Base(s) && Overlap(s, id) && Enabled(cap, s, ReadGroup(batch))
    ensures Kept(cap, s, ReadGroup(batch), id)
  {
    ReadGroupDelivers(s.r, batch);
    SameLive(s.p, FetchBatch(s, batch).p, id);
    if id in batch {
      KeptNew(cap, s, batch, id);
    } else {
      KeptOld(cap, s, batch, id);
    }
  }

  lemma {:induction false} KeptNew(cap: nat, s: State, batch: seq<MsgId>, id: MsgId)
    requires Base(s) && Enabled(cap, s, ReadGroup(batch)) && id in batch && !WasDelivered(s.r, id)
    ensures Kept(cap, s, ReadGroup(batch), id)
  {
    NothingHeld(FetchBatch(s, batch).p, id);
  }

  lemma {:induction false} KeptOld(cap: nat, s: State, batch: seq<MsgId>, id: MsgId)
    requires Enabled(cap, s, ReadGroup(batch)) && id !in batch
    requires |Copies(FetchBatch(s, batch).p, id)| == |Copies(s.p, id)|
    requires |Waiting(FetchBatch(s, batch).p, id)| == |Waiting(s.p, id)|
    requires |Last(FetchBatch(s, batch).p, id)| == |Last(s.p, id)|
    ensures Kept(cap, s, ReadGroup(batch), id)
  {
    SameHoldFollows(s, FetchBatch(s, batch), id);
  }

  lemma {:induction false} KeptDispatch(cap: nat, s: State, id: MsgId)
    requires Base(s) && Overlap(s, id) && Enabled(cap, s, Dispatch)
    ensures Kept(cap, s, Dispatch, id)
  {
    var head, p' := s.p.fetched[0], DispatchHead(s.p);
    HeadGoes(s.p, id);
    OnlyOne(s.r, id);
    if head in s.p.inFlight {
      SameLive(s.p, p', id);
    } else {
      Started(s.p, p', s.p.nextTask, Task(head, 0, Queued), id);
    }
    Dispatched(cap, s, id);
  }

  lemma {:induction false} HeadGoes(p: Process, id: MsgId)
    requires p.fetched != [] && forall i, j | 0 <= i < j < |p.fetched| :: p.fetched[i] != p.fetched[j]
    ensures id in DispatchHead(p).fetched <==> id in p.fetched && id != p.fetched[0]
  {
    assert p.fetched == [p.fetched[0]] + DispatchHead(p).fetched;
  }

  lemma {:induction false} Dispatched(cap: nat, s: State, id: MsgId)
    requires s.p.fetched != [] && (id in s.r.pending ==> id !in s.r.acked) && Overlap(s, id)
    requires var head, p' := s.p.fetched[0], DispatchHead(s.p);
      && (id in p'.fetched <==> id in s.p.fetched && id != head)
      && |Copies(p', id)| == |Copies(s.p, id)| + Bit(head == id && id !in s.p.inFlight)
      && |Waiting(p', id)| == |Waiting(s.p, id)| + Bit(head == id && id !in s.p.inFlight)
      && |Last(p', id)| == |Last(s.p, id)|
    ensures Kept(cap, s, Dispatch, id)
  {
  }

  lemma {:induction false} KeptMoved(cap: nat, s: State, a: Action, id: MsgId)
    requires Base(s) && Overlap(s, id) && Enabled(cap, s, a) && (a.Acquire? || a.Finish? || a.DeadLetter?)
    ensures Kept(cap, s, a, id)
  {
    var p' := Apply(cap, s, a).p;
    Moved(s.p, a.t, p'.live[a.t].phase, id);
    SameLive(WithPhase(s.p, a.t, p'.live[a.t].phase), p', id);
    SameHoldFollows(s, Apply(cap, s, a), id);
    OnlyOne(s.r, id);
    MovedLeft(cap, s, a, id);
  }

  lemma {:induction false} MovedLeft(cap: nat, s: State, a: Action, id: MsgId)
    requires Enabled(cap, s, a) && (a.Acquire? || a.Finish? || a.DeadLetter?)
    requires WasDelivered(s.r, s.p.live[a.t].id) && (id in s.r.pending ==> id !in s.r.acked)
    requires |Waiting(Apply(cap, s, a).p, id)| == |Waiting(s.p, id)| - Bit(a.t in Waiting(s.p, id))
    ensures Left(Apply(cap, s, a), id) + Bit(StartsAttempt(s, a, id)) <= Left(s, id)
  {
  }

  lemma {:induction false} KeptAck(cap: nat, s: State, t: nat, id: MsgId)
    requires Base(s) && Overlap(s, id) && Enabled(cap, s, Ack(t))
    ensures Kept(cap, s, Ack(t), id)
  {
    Moved(s.p, t, Returning, id);
    OnlyOne(s.r, id);
    if id in s.r.pending {
      LeftInHand(s, id);
    }
    if id == s.p.live[t].id {
      AckedFollows(s, Apply(cap, s, Ack(t)), id);
    } else {
      SameHoldFollows(s, Apply(cap, s, Ack(t)), id);
    }
  }

  // The deliveries a pending entry can still get are not used up.
  lemma {:induction false} LeftInHand(s: State, id: MsgId)
    requires Overlap(s, id) && id in s.r.pending
    ensures s.r.pending[id].deliveries <= MOST_DELIVERIES + s.crashes
  {
    LastAreCopies(s.p, id);
  }

  lemma {:induction false} AckedFollows(s: State, s': State, id: MsgId)
    requires WasDelivered(s.r, id) && id !in s'.r.pending
    requires s'.p.fetched == s.p.fetched && s'.p.inFlight == s.p.inFlight && s'.p.reclaimer == s.p.reclaimer
    requires |Copies(s'.p, id)| == |Copies(s.p, id)|
    ensures Follows(s, s', false, id)
  {
  }

  lemma {:induction false} KeptRelease(cap: nat, s: State, t: nat, id: MsgId)
    requires Base(s) && Overlap(s, id) && Enabled(cap, s, Release(t))
    ensures Kept(cap, s, Release(t), id)
  {
    Gone(s.p, t, id);
    if s.p.live[t].id == id {
      assert t in Copies(s.p, id);
    } else {
      SameHoldFollows(s, Apply(cap, s, Release(t)), id);
    }
  }

  lemma {:induction false} KeptCheck(cap: nat, s: State, id: MsgId)
    requires Base(s) && Overlap(s, id) && Enabled(cap, s, Check)
    ensures Kept(cap, s, Check, id)
  {
    SameLive(s.p, CheckHead(s.p), id);
  }

  lemma {:induction false} KeptClaim(cap: nat, s: State, id: MsgId)
    requires Base(s) && Overlap(s, id) && Enabled(cap, s, Claim)
    ensures Kept(cap, s, Claim, id)
  {
    SameLive(s.p, ClaimHead(s).p, id);
    LastAreCopies(s.p, id);
    OnlyOne(s.r, id);
    if Idle(s.r, s.p.reclaimer.head.id) && s.p.reclaimer.head.id == id {
      Claimed(cap, s, id);
    }
  }

  lemma {:induction false} Claimed(cap: nat, s: State, id: MsgId)
    requires Overlap(s, id) && Enabled(cap, s, Claim) && id in s.r.pending && id !in s.r.acked
    requires Idle(s.r, id) && s.p.reclaimer.head.id == id
    requires s.p.reclaimer.head.deliveries == s.r.pending[id].deliveries
    requires var p' := ClaimHead(s).p;
      && |Copies(p', id)| == |Copies(s.p, id)| && |Waiting(p', id)| == |Waiting(s.p, id)|
      && |Last(p', id)| == |Last(s.p, id)| <= |Copies(s.p, id)|
    ensures Kept(cap, s, Claim, id)
  {
  }

  lemma {:induction false} KeptStore(cap: nat, s: State, id: MsgId)
    requires Base(s) && Overlap(s, id) && Enabled(cap, s, Store)
    ensures Kept(cap, s, Store, id)
  {
    SameLive(s.p, StoreClaimed(s.p), id);
  }

  lemma {:induction false} KeptStart(cap: nat, s: State, id: MsgId)
    requires Base(s) && Overlap(s, id) && Enabled(cap, s, Start)
    ensures Kept(cap, s, Start, id)
  {
    var Stored(owner, retries, reply) := s.p.reclaimer;
    Started(s.p, StartStored(s.p), s.p.nextTask, Task(owner, retries, Running), id);
  }

  lemma {:induction false} KeptStep(cap: nat, s: State, a: Action, id: MsgId)
    requires Base(s) && Overlap(s, id) && Enabled(cap, s, a)
    ensures Kept(cap, s, a, id)
  {
    match a
    case ReadGroup(batch) => KeptRead(cap, s, batch, id);
    case Dispatch => KeptDispatch(cap, s, id);
    case Ack(t) => KeptAck(cap, s, t, id);
    case Release(t) => KeptRelease(cap, s, t, id);
    case Check => KeptCheck(cap, s, id);
    case Claim => KeptClaim(cap, s, id);
    case Store => KeptStore(cap, s, id);
    case Start => KeptStart(cap, s, id);
    case Crash => KeptCrash(cap, s, id);
    case _ =>
      if a.Acquire? || a.Finish? || a.DeadLetter? {
        KeptMoved(cap, s, a, id);
      } else {
        KeptOutside(cap, s, a, id);
      }
  }

  lemma {:induction false} OverlapFollows(s: State, s': State, crash: bool, id: MsgId)
    requires Overlap(s, id) && Follows(s, s', crash, id)
    ensures Overlap(s', id)
  {
  }

  /* ---- Every run ---- */

  lemma {:induction false} LeftNotNegative(s: State, id: MsgId)
    requires Overlap(s, id)
    ensures Left(s, id) >= 0
  {
    LastAreCopies(s.p, id);
  }

  lemma {:induction false} KeptRun(cap: nat, s: State, run: seq<Action>, id: MsgId)
    requires Base(s) && Overlap(s, id) && Valid(cap, s, run)
    ensures var s' := Exec(cap, s, run);
      && Base(s') && Overlap(s', id)
      && Attempts(cap, s, run, id) + Left(s', id) <= Left(s, id) + CountCrashes(run)
    decreases |run|
  {
    if run != [] {
      BaseStep(cap, s, run[0]);
      KeptStep(cap, s, run[0], id);
      OverlapFollows(s, Apply(cap, s, run[0]), run[0].Crash?, id);
      KeptRun(cap, Apply(cap, s, run[0]), run[1..], id);
    }
  }

  /** The retry bound of every run, however slow the read loop is: ten attempts, and one more for each crash. */
  lemma EveryRunBound(cap: nat, run: seq<Action>, id: MsgId)
    requires Valid(cap, INIT, run)
    ensures Attempts(cap, INIT, run, id) <= 10 + CountCrashes(run)
  {
    KeptRun(cap, INIT, run, id);
    LeftNotNegative(Exec(cap, INIT, run), id);
  }

  /** However slow the read loop is, at most two goroutines ever work on one entry, acknowledged or not, and at most one
      that the in-flight map does not show. */
  lemma AtMostTwo(cap: nat, run: seq<Action>, id: MsgId)
    requires Valid(cap, INIT, run)
    ensures var p := Exec(cap, INIT, run).p; |Copies(p, id)| <= if id in p.inFlight then 2 else 1
  {
    var s := Exec(cap, INIT, run);
    KeptRun(cap, INIT, run, id);
    if !WasDelivered(s.r, id) {
      assert Copies(s.p, id) == {};
    }
  }
}
