/** The experience consumer group: a second group on the same stream, with no in-flight map and a skip rule.
    An entry whose delivery count has passed the limit is acknowledged without being processed. */
module ExperienceStream {
  import opened CognitiveStream
  import Exclusion = CognitiveExclusion

  const SKIP_AFTER := 3 // deliveries after which the next visit skips
  const IDLE := 60

  // `skipped` and `done` are history: the ids acknowledged by the skip rule, and those processed without error.
  datatype Group = Group(
    r: Redis,
    fetched: seq<MsgId>,
    live: map<nat, MsgId>,
    next: nat,
    reply: seq<Seen>,
    done: set<MsgId>,
    skipped: set<MsgId>)

  const START := Group(CognitiveStream.INIT.r, [], map[], 0, [], {}, {})

  datatype Move =
    | Arrive(id: MsgId)
    | Fetch(batch: seq<MsgId>)
    | Begin
    | Processed(t: nat)
    | Failed(t: nat)
    | List(reply: seq<Seen>)
    | Visit
    | Wait(d: nat)
    | Crashed

  predicate Rested(r: Redis, id: MsgId) {
    IdleFor(r, id, IDLE)
  }

  predicate Allowed(g: Group, m: Move) {
    match m
    case Arrive(id) => id !in g.r.log
    case Fetch(batch) => g.fetched == [] && Next(g.r, batch)
    case Begin => g.fetched != []
    case Processed(t) => t in g.live
    case Failed(t) => t in g.live
    case List(reply) => g.reply == [] && PendingReply(g.r, reply, IDLE)
    case Visit => g.reply != []
    case Wait(_) => true
    case Crashed => true
  }

  function FetchNext(g: Group, batch: seq<MsgId>): Group {
    g.(r := XReadGroup(g.r, batch), fetched := batch)
  }

  // One entry of the reply: skip it, reclaim it and start another attempt, or find it gone.
  function VisitHead(g: Group): Group
    requires g.reply != []
  {
    var Seen(id, deliveries) := g.reply[0];
    var g' := g.(reply := g.reply[1..]);
    if deliveries > SKIP_AFTER then
      if id in g.r.pending then g'.(r := XAck(g.r, id), skipped := g.skipped + {id}) else g'
    else if Rested(g.r, id) then
      g'.(r := XClaim(g.r, id), live := g.live[g.next := id], next := g.next + 1)
    else g'
  }

  function Do(g: Group, m: Move): Group
    requires Allowed(g, m)
  {
    match m
    case Arrive(id) => g.(r := XAdd(g.r, id))
    case Fetch(batch) => FetchNext(g, batch)
    case Begin => g.(fetched := g.fetched[1..], live := g.live[g.next := g.fetched[0]], next := g.next + 1)
    case Processed(t) => g.(r := XAck(g.r, g.live[t]), live := g.live - {t}, done := g.done + {g.live[t]})
    case Failed(t) => g.(live := g.live - {t})
    case List(reply) => g.(reply := reply)
    case Visit => VisitHead(g)
    case Wait(d) => g.(r := g.r.(now := g.r.now + d))
    case Crashed => g.(fetched := [], live := map[], reply := [])
  }

  predicate Legal(g: Group, run: seq<Move>)
    decreases |run|
  {
    run == [] || (Allowed(g, run[0]) && Legal(Do(g, run[0]), run[1..]))
  }

  function After(g: Group, run: seq<Move>): Group
    requires Legal(g, run)
    decreases |run|
  {
    if run == [] then g else After(Do(g, run[0]), run[1..])
  }

  // The attempt a move starts.
  predicate Attempted(g: Group, m: Move, id: MsgId) {
    || (m.Begin? && g.fetched != [] && g.fetched[0] == id)
    || (m.Visit? && g.reply != [] && g.reply[0].id == id && g.reply[0].deliveries <= SKIP_AFTER && Rested(g.r, id))
  }

  function AttemptsIn(g: Group, run: seq<Move>, id: MsgId): nat
    requires Legal(g, run)
    decreases |run|
  {
    if run == [] then 0
    else (if Attempted(g, run[0], id) then 1 else 0) + AttemptsIn(Do(g, run[0]), run[1..], id)
  }

  /* ---- Invariant ---- */

  ghost predicate Counted(r: Redis) {
    forall id | id in r.pending :: 1 <= r.pending[id].deliveries <= SKIP_AFTER + 1
  }

  ghost predicate ReaderOk(r: Redis, fetched: seq<MsgId>) {
    && (forall i, j | 0 <= i < j < |fetched| :: fetched[i] != fetched[j])
    && (forall id | id in fetched :: WasDelivered(r, id))
  }

  ghost predicate LiveOk(r: Redis, live: map<nat, MsgId>) {
    forall t | t in live :: WasDelivered(r, live[t])
  }

  ghost predicate Inv(g: Group) {
    && Partitioned(g.r) && Counted(g.r) && ReaderOk(g.r, g.fetched) && ReplyKnown(g.r, g.reply) && LiveOk(g.r, g.live)
    && (forall id | id in g.r.acked :: id in g.done || id in g.skipped)
  }

  // Deliveries `id` can still get, and the one it got and has not begun.
  ghost function Left(g: Group, id: MsgId): int {
    var all := SKIP_AFTER + 1;
    (if id in g.r.pending then all - g.r.pending[id].deliveries else if id in g.r.acked then 0 else all)
    + (if id in g.fetched then 1 else 0)
  }

  // Delivering entries nobody knew keeps what is said about the known ones.
  lemma KnownStay(g: Group, r': Redis, batch: seq<MsgId>)
    requires ReplyKnown(g.r, g.reply) && LiveOk(g.r, g.live)
    requires forall id | WasDelivered(g.r, id) ::
      && WasDelivered(r', id) && (id in g.r.pending <==> id in r'.pending)
      && (id in g.r.pending ==> r'.pending[id] == g.r.pending[id])
    ensures ReplyKnown(r', g.reply) && LiveOk(r', g.live)
  {
    forall i | 0 <= i < |g.reply| ensures SeenKnown(r', g.reply[i]) {
      assert SeenKnown(g.r, g.reply[i]);
    }
  }

  lemma FetchKeepsInv(g: Group, batch: seq<MsgId>, id: MsgId)
    requires Inv(g) && Allowed(g, Fetch(batch))
    ensures Inv(FetchNext(g, batch)) && Left(FetchNext(g, batch), id) <= Left(g, id)
  {
    Exclusion.ReadGroupDelivers(g.r, batch);
    ReadGroupPartitions(g.r, batch);
    BatchJoins(g, XReadGroup(g.r, batch), batch, id);
  }

  lemma BatchJoins(g: Group, r': Redis, batch: seq<MsgId>, id: MsgId)
    requires Inv(g) && g.fetched == [] && Partitioned(r') && r'.acked == g.r.acked && Exclusion.Delivers(g.r, r', batch)
    ensures var g' := g.(r := r', fetched := batch); Inv(g') && Left(g', id) <= Left(g, id)
  {
    KnownStay(g, r', batch);
    if id in g.r.pending {
      OnlyOne(g.r, id);
    }
  }

  lemma ProcessedKeepsInv(g: Group, t: nat, id: MsgId)
    requires Inv(g) && t in g.live
    ensures Inv(Do(g, Processed(t))) && Left(Do(g, Processed(t)), id) <= Left(g, id)
  {
    if id in g.r.pending {
      OnlyOne(g.r, id);
    }
    forall i | 0 <= i < |g.reply| ensures SeenKnown(XAck(g.r, g.live[t]), g.reply[i]) {
      assert SeenKnown(g.r, g.reply[i]);
    }
  }

  // Acknowledging or claiming the head changes no other entry of the reply.
  lemma RestOfReply(r: Redis, r': Redis, reply: seq<Seen>)
    requires ReplyKnown(r, reply) && reply != []
    requires forall id | WasDelivered(r, id) :: WasDelivered(r', id)
    requires forall id | id in r'.pending && id != reply[0].id :: id in r.pending && r'.pending[id] == r.pending[id]
    ensures ReplyKnown(r', reply[1..])
  {
    forall i | 0 <= i < |reply[1..]| ensures SeenKnown(r', reply[1..][i]) {
      assert SeenKnown(r, reply[i + 1]);
    }
  }

  lemma AckKeepsRedis(r: Redis, id: MsgId)
    requires Partitioned(r) && Counted(r)
    ensures Partitioned(XAck(r, id)) && Counted(XAck(r, id))
  {
  }

  lemma ClaimKeepsRedis(r: Redis, id: MsgId)
    requires Partitioned(r) && Counted(r) && id in r.pending && r.pending[id].deliveries <= SKIP_AFTER
    ensures Partitioned(XClaim(r, id)) && Counted(XClaim(r, id))
  {
  }

  lemma VisitKeepsInv(g: Group, id: MsgId)
    requires Inv(g) && g.reply != []
    ensures Inv(VisitHead(g))
    ensures Left(VisitHead(g), id) + (if Attempted(g, Visit, id) then 1 else 0) <= Left(g, id)
  {
    var head := g.reply[0].id;
    var g' := VisitHead(g);
    assert SeenKnown(g.r, g.reply[0]);
    assert Partitioned(g'.r) && Counted(g'.r) by {
      AckKeepsRedis(g.r, head);
      if head in g.r.pending && g.r.pending[head].deliveries <= SKIP_AFTER {
        ClaimKeepsRedis(g.r, head);
      }
    }
    if head in g.r.pending {
      OnlyOne(g.r, head);
    }
    VisitReply(g, head, id);
  }

  lemma VisitReply(g: Group, head: MsgId, id: MsgId)
    requires g.reply != [] && ReaderOk(g.r, g.fetched) && ReplyKnown(g.r, g.reply) && LiveOk(g.r, g.live)
    requires Counted(g.r) && head == g.reply[0].id && SeenKnown(g.r, g.reply[0])
    requires head in g.r.pending ==> head !in g.r.acked
    requires forall x | x in g.r.acked :: x in g.done || x in g.skipped
    ensures var g' := VisitHead(g);
      && ReaderOk(g'.r, g'.fetched) && ReplyKnown(g'.r, g'.reply) && LiveOk(g'.r, g'.live)
      && (forall x | x in g'.r.acked :: x in g'.done || x in g'.skipped)
      && Left(g', id) + (if Attempted(g, Visit, id) then 1 else 0) <= Left(g, id)
  {
    var g' := VisitHead(g);
    RestOfReply(g.r, g'.r, g.reply);
    forall t | t in g'.live ensures WasDelivered(g'.r, g'.live[t]) {
      assert t in g.live ==> WasDelivered(g.r, g.live[t]);
    }
  }

  lemma BeginKeepsInv(g: Group, id: MsgId)
    requires Inv(g) && g.fetched != []
    ensures Inv(Do(g, Begin))
    ensures Left(Do(g, Begin), id) + (if Attempted(g, Begin, id) then 1 else 0) <= Left(g, id)
  {
    assert g.fetched == [g.fetched[0]] + g.fetched[1..];
    if id == g.fetched[0] {
      assert id in g.fetched;
    }
  }

  lemma OtherKeepsInv(g: Group, m: Move, id: MsgId)
    requires Inv(g) && Allowed(g, m) && (m.Arrive? || m.Failed? || m.List? || m.Wait? || m.Crashed?)
    ensures Inv(Do(g, m)) && Left(Do(g, m), id) <= Left(g, id)
  {
    if m.List? {
      forall i | 0 <= i < |m.reply| ensures SeenKnown(g.r, m.reply[i]) {
        assert Rested(g.r, m.reply[i].id);
      }
    }
  }

  lemma {:induction false} MoveKeepsInv(g: Group, m: Move, id: MsgId)
    requires Inv(g) && Allowed(g, m)
    ensures Inv(Do(g, m)) && Left(Do(g, m), id) + (if Attempted(g, m, id) then 1 else 0) <= Left(g, id)
  {
    match m
    case Fetch(batch) => FetchKeepsInv(g, batch, id);
    case Visit => VisitKeepsInv(g, id);
    case Begin => BeginKeepsInv(g, id);
    case Processed(t) => ProcessedKeepsInv(g, t, id);
    case _ => OtherKeepsInv(g, m, id);
  }

  // Every run uses up the attempts left to an entry.
  lemma {:induction false} SkipBound(g: Group, run: seq<Move>, id: MsgId)
    requires Inv(g) && Legal(g, run)
    ensures Inv(After(g, run))
    ensures AttemptsIn(g, run, id) + Left(After(g, run), id) <= Left(g, id)
    decreases |run|
  {
    if run != [] {
      MoveKeepsInv(g, run[0], id);
      SkipBound(Do(g, run[0]), run[1..], id);
    }
  }

  /** In every run, crashes and overlapping attempts included, an entry gets at most four attempts; no entry is
      lost from the group, and an acknowledged one was processed or was skipped. */
  lemma FourAttempts(run: seq<Move>, id: MsgId)
    requires Legal(START, run)
    ensures AttemptsIn(START, run, id) <= 4
    ensures var g := After(START, run);
      Partitioned(g.r) && forall x | x in g.r.acked :: x in g.done || x in g.skipped
  {
    SkipBound(START, run, id);
  }

  /** A skip is never early: the entry had been delivered four times. */
  lemma SkippedWasDeliveredFourTimes(g: Group)
    requires Inv(g) && g.reply != [] && g.reply[0].id !in g.skipped
    ensures g.reply[0].id in VisitHead(g).skipped <==>
      g.reply[0].id in g.r.pending && g.r.pending[g.reply[0].id].deliveries == 4
  {
  }

  lemma {:induction false} AfterSnoc(g: Group, run: seq<Move>, m: Move)
    requires Legal(g, run) && Allowed(After(g, run), m)
    ensures Legal(g, run + [m]) && After(g, run + [m]) == Do(After(g, run), m)
    decreases |run|
  {
    if run == [] {
      assert [m][1..] == [];
      assert run + [m] == [m];
    } else {
      assert (run + [m])[1..] == run[1..] + [m];
      AfterSnoc(Do(g, run[0]), run[1..], m);
    }
  }

  lemma {:induction false} AfterConcat(g: Group, run: seq<Move>, more: seq<Move>)
    requires Legal(g, run) && Legal(After(g, run), more)
    ensures Legal(g, run + more) && After(g, run + more) == After(After(g, run), more)
    decreases |run|
  {
    if run == [] {
      assert run + more == more;
    } else {
      assert (run + more)[1..] == run[1..] + more;
      AfterConcat(Do(g, run[0]), run[1..], more);
    }
  }
}
