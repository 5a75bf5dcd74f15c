/** All sessions of a tenant: message tables, batch counters, the sorted set of active sessions and the cognitive
    stream, with the append handler and both flush paths working on them in place. Each step is, for the session
    it works on, a step of Batching, and leaves every other session alone. */
module SessionServer {
  import opened History
  import opened Wrappers
  import B = Batching

  type Sid = nat

  const FLUSH_LIMIT := 100

  function Max(a: int, b: int): int {
    if a >= b then a else b
  }

  // An absent counter is zero. `lastTurn` is history: when each session's latest user turn was counted.
  datatype Store = Store(
    tables: map<Sid, seq<Message>>,
    counts: map<Sid, nat>,
    active: map<Sid, nat>,
    stream: seq<(Sid, B.Batch)>,
    now: nat,
    lastTurn: map<Sid, nat>)

  const EMPTY := Store(map[], map[], map[], [], 0, map[])

  function Table(st: Store, sid: Sid): seq<Message> {
    if sid in st.tables then st.tables[sid] else []
  }

  function Count(st: Store, sid: Sid): nat {
    if sid in st.counts then st.counts[sid] else 0
  }

  function PublishedFor(stream: seq<(Sid, B.Batch)>, sid: Sid): seq<B.Batch> {
    if stream == [] then []
    else
      var rest := PublishedFor(stream[..|stream| - 1], sid);
      if stream[|stream| - 1].0 == sid then rest + [stream[|stream| - 1].1] else rest
  }

  // One session, as Batching sees it.
  function Project(st: Store, sid: Sid): B.Session {
    B.Session(Table(st, sid), Count(st, sid), PublishedFor(st.stream, sid))
  }

  /* ---- The steps ---- */

  function Insert(st: Store, sid: Sid, m: Message): Store {
    st.(tables := st.tables[sid := Table(st, sid) + [m]])
  }

  function Increment(st: Store, sid: Sid): Store {
    st.(counts := st.counts[sid := Count(st, sid) + 1],
        active := st.active[sid := st.now],
        lastTurn := st.lastTurn[sid := st.now])
  }

  function Reset(st: Store, sid: Sid): Store {
    st.(counts := st.counts - {sid}, active := st.active - {sid})
  }

  function PublishBatch(st: Store, sid: Sid, count: nat, anchor: nat): Store {
    st.(stream := st.stream + [(sid, B.Batch(count * 2, anchor))])
  }

  function HandleAppend(limit: nat, st: Store, sid: Sid, m: Message): Store {
    var st1 := Insert(st, sid, m);
    if m.role != User then st1
    else
      var st2 := Increment(st1, sid);
      var count := Count(st2, sid);
      if count >= limit then PublishBatch(Reset(st2, sid), sid, count, m.id) else st2
  }

  // Flush a session that has pending turns and messages; `orElse` is what the path does otherwise.
  function FlushPending(st: Store, sid: Sid, orElse: Store): Store {
    var count, h := Count(st, sid), Table(st, sid);
    if count == 0 || h == [] then orElse
    else PublishBatch(Reset(st, sid), sid, count, h[|h| - 1].id)
  }

  // The timeout flusher's turn for one inactive member: with nothing to flush it only stops tracking it.
  function FlushMember(st: Store, sid: Sid): Store {
    FlushPending(st, sid, st.(active := st.active - {sid}))
  }

  function FlushMembers(st: Store, members: seq<Sid>): Store {
    if members == [] then st
    else FlushMember(FlushMembers(st, members[..|members| - 1]), members[|members| - 1])
  }

  // Creating a session flushes the user's other recent sessions.
  function FlushPrevious(st: Store, sessions: seq<Sid>, exclude: Sid): Store {
    if sessions == [] then st
    else
      var before := FlushPrevious(st, sessions[..|sessions| - 1], exclude);
      var sid := sessions[|sessions| - 1];
      if sid == exclude then before else FlushPending(before, sid, before)
  }

  class Server {
    const limit: nat
    var tables: map<Sid, seq<Message>>
    var counts: map<Sid, nat>
    var active: map<Sid, nat>
    var stream: seq<(Sid, B.Batch)>
    var now: nat
    ghost var lastTurn: map<Sid, nat>

    ghost function Model(): Store
      reads this
    {
      Store(tables, counts, active, stream, now, lastTurn)
    }

    constructor (limit: nat)
      ensures Model() == EMPTY && this.limit == limit
    {
      this.limit := limit;
      tables, counts, active, stream, now, lastTurn := map[], map[], map[], [], 0, map[];
    }

    method ResetBatch(sid: Sid)
      modifies this
      ensures Model() == Reset(old(Model()), sid)
      ensures Model() == old(Model()).(counts := old(counts) - {sid}, active := old(active) - {sid})
    {
      counts, active := counts - {sid}, active - {sid};
    }

    method Publish(sid: Sid, count: nat, anchor: nat)
      modifies this
      ensures Model() == PublishBatch(old(Model()), sid, count, anchor)
      ensures Model() == old(Model()).(stream := old(stream) + [(sid, B.Batch(2 * count, anchor))])
    {
      stream := stream + [(sid, B.Batch(count * 2, anchor))];
    }

    method IncrementBatch(sid: Sid) returns (count: nat)
      modifies this
      ensures Model() == Increment(old(Model()), sid)
      ensures count == 1 + if sid in old(counts) then old(counts[sid]) else 0
      ensures counts == old(counts)[sid := count] && active == old(active)[sid := now]
      ensures Model() == old(Model()).(counts := counts, active := active, lastTurn := lastTurn)
    {
      count := (if sid in counts then counts[sid] else 0) + 1;
      counts, active := counts[sid := count], active[sid := now];
      lastTurn := lastTurn[sid := now];
    }

    // The handler without the cache update, which MessageCache models.
    method HandleAppendMessage(sid: Sid, m: Message)
      modifies this
      ensures Model() == HandleAppend(limit, old(Model()), sid, m)
      ensures tables == old(tables)[sid := (if sid in old(tables) then old(tables[sid]) else []) + [m]]
      ensures now == old(now)
      ensures var n := 1 + if sid in old(counts) then old(counts[sid]) else 0;
        if m.role != User then
          counts == old(counts) && active == old(active) && stream == old(stream)
        else if n < limit then
          counts == old(counts)[sid := n] && active == old(active)[sid := now] && stream == old(stream)
        else
          && counts == old(counts) - {sid} && active == old(active) - {sid}
          && stream == old(stream) + [(sid, B.Batch(2 * n, m.id))]
    {
      tables := tables[sid := (if sid in tables then tables[sid] else []) + [m]];
      if m.role == User {
        var count := IncrementBatch(sid);
        if count >= limit {
          ResetBatch(sid);
          Publish(sid, count, m.id);
        }
      }
    }

    method FlushPreviousUserSessions(sessions: seq<Sid>, exclude: Sid)
      modifies this
      ensures Model() == FlushPrevious(old(Model()), sessions, exclude)
      ensures FlushesThose(old(Model()), Elements(sessions) - {exclude}, Model())
    {
      PreviousFlushes(Model(), sessions, exclude);
      var i := 0;
      while i < |sessions|
        invariant i <= |sessions| && Model() == FlushPrevious(old(Model()), sessions[..i], exclude)
      {
        assert sessions[..i + 1][..i] == sessions[..i];
        var sid := sessions[i];
        i := i + 1;
        if sid == exclude || sid !in counts || counts[sid] == 0 {
          continue;
        }
        if sid !in tables || tables[sid] == [] {
          continue;
        }
        var count, h := counts[sid], tables[sid];
        ResetBatch(sid);
        Publish(sid, count, h[|h| - 1].id);
      }
      assert sessions[..i] == sessions;
    }

    // One cycle over the members the range query returned.
    method RunFlushCycle(members: seq<Sid>)
      modifies this
      ensures Model() == FlushMembers(old(Model()), members)
      ensures FlushesThose(old(Model()), Elements(members), Model())
      ensures active == old(active) - Elements(members)
    {
      CycleFlushes(Model(), members);
      CycleUntracks(Model(), members);
      var i := 0;
      while i < |members|
        invariant i <= |members| && Model() == FlushMembers(old(Model()), members[..i])
      {
        assert members[..i + 1][..i] == members[..i];
        var sid := members[i];
        i := i + 1;
        if sid !in counts || counts[sid] == 0 {
          active := active - {sid};
          continue;
        }
        if sid !in tables || tables[sid] == [] {
          active := active - {sid};
          continue;
        }
        var count, h := counts[sid], tables[sid];
        ResetBatch(sid);
        Publish(sid, count, h[|h| - 1].id);
      }
      assert members[..i] == members;
    }
  }

  /* ---- Each step is a step of Batching ---- */

  lemma PublishedSnoc(stream: seq<(Sid, B.Batch)>, e: (Sid, B.Batch), sid: Sid)
    ensures PublishedFor(stream + [e], sid) == PublishedFor(stream, sid) + (if e.0 == sid then [e.1] else [])
  {
    assert (stream + [e])[..|stream|] == stream;
  }

  lemma {:induction false} InsertProjects(st: Store, sid: Sid, m: Message, x: Sid)
    ensures Project(Insert(st, sid, m), x) ==
      if x == sid then Project(st, x).(h := Project(st, x).h + [m]) else Project(st, x)
  {
  }

  lemma {:induction false} IncrementProjects(st: Store, sid: Sid, x: Sid)
    ensures Project(Increment(st, sid), x) ==
      if x == sid then Project(st, x).(count := Project(st, x).count + 1) else Project(st, x)
  {
  }

  lemma {:induction false} PublishProjects(st: Store, sid: Sid, count: nat, anchor: nat, x: Sid)
    ensures Project(PublishBatch(Reset(st, sid), sid, count, anchor), x) ==
      var s := Project(st, x);
      if x == sid then s.(count := 0, published := s.published + [B.Batch(count * 2, anchor)]) else s
  {
    PublishedSnoc(st.stream, (sid, B.Batch(count * 2, anchor)), x);
  }

  function Counted(st: Store, sid: Sid, m: Message): Store {
    if m.role == User then Increment(Insert(st, sid, m), sid) else Insert(st, sid, m)
  }

  lemma {:induction false} CountedProjects(st: Store, sid: Sid, m: Message, x: Sid)
    ensures Project(Counted(st, sid, m), x) == if x == sid then B.Counting(Project(st, x), m) else Project(st, x)
  {
    InsertProjects(st, sid, m, x);
    IncrementProjects(Insert(st, sid, m), sid, x);
  }

  lemma {:induction false} AppendProjects(limit: nat, st: Store, sid: Sid, m: Message, x: Sid)
    ensures Project(HandleAppend(limit, st, sid, m), x) ==
      if x == sid then B.AppendMessage(limit, Project(st, x), m) else Project(st, x)
  {
    var st', s' := Counted(st, sid, m), B.Counting(Project(st, sid), m);
    CountedProjects(st, sid, m, x);
    CountedProjects(st, sid, m, sid);
    assert Count(st', sid) == s'.count;
    if m.role == User && s'.count >= limit {
      PublishProjects(st', sid, s'.count, m.id, x);
      assert s'.h[|s'.h| - 1] == m;
    }
  }

  /** The append handler is Batching's append on its session ... */
  lemma AppendRefines(limit: nat, st: Store, sid: Sid, m: Message)
    ensures Project(HandleAppend(limit, st, sid, m), sid) == B.Step(limit, Project(st, sid), B.Append(m))
  {
    AppendProjects(limit, st, sid, m, sid);
  }

  /** ... and changes no other. */
  lemma AppendIsLocal(limit: nat, st: Store, sid: Sid, m: Message, other: Sid)
    requires other != sid
    ensures Project(HandleAppend(limit, st, sid, m), other) == Project(st, other)
  {
    AppendProjects(limit, st, sid, m, other);
  }

  lemma FlushRefines(st: Store, sid: Sid, orElse: Store, limit: nat, other: Sid)
    requires Project(orElse, sid) == Project(st, sid) && Project(orElse, other) == Project(st, other)
    ensures Project(FlushPending(st, sid, orElse), sid) == B.Step(limit, Project(st, sid), B.Flush)
    ensures other != sid ==> Project(FlushPending(st, sid, orElse), other) == Project(st, other)
  {
    var count, h := Count(st, sid), Table(st, sid);
    if count > 0 && h != [] {
      PublishProjects(st, sid, count, h[|h| - 1].id, sid);
      PublishProjects(st, sid, count, h[|h| - 1].id, other);
    }
  }

  // Flushing again what was just flushed changes nothing for the session.
  lemma FlushTwice(limit: nat, s: B.Session)
    ensures B.Step(limit, B.Step(limit, s, B.Flush), B.Flush) == B.Step(limit, s, B.Flush)
  {
  }

  /** A flush cycle is one flush of every member, whatever the order or repetition, and leaves the others. */
  lemma {:induction false} CycleRefines(limit: nat, st: Store, members: seq<Sid>, sid: Sid)
    ensures Project(FlushMembers(st, members), sid) ==
      if sid in members then B.Step(limit, Project(st, sid), B.Flush) else Project(st, sid)
  {
    if members != [] {
      var before, last := FlushMembers(st, members[..|members| - 1]), members[|members| - 1];
      CycleRefines(limit, st, members[..|members| - 1], sid);
      assert members == members[..|members| - 1] + [last];
      FlushRefines(before, last, before.(active := before.active - {last}), limit, sid);
      FlushTwice(limit, Project(st, sid));
    }
  }

  /** So is a new session's flush, for the listed sessions but the excluded one. */
  lemma {:induction false} PreviousRefines(limit: nat, st: Store, sessions: seq<Sid>, exclude: Sid, sid: Sid)
    ensures Project(FlushPrevious(st, sessions, exclude), sid) ==
      if sid in sessions && sid != exclude then B.Step(limit, Project(st, sid), B.Flush) else Project(st, sid)
  {
    if sessions != [] {
      var before, last := FlushPrevious(st, sessions[..|sessions| - 1], exclude), sessions[|sessions| - 1];
      PreviousRefines(limit, st, sessions[..|sessions| - 1], exclude, sid);
      assert sessions == sessions[..|sessions| - 1] + [last];
      if last != exclude {
        FlushRefines(before, last, before, limit, sid);
      }
      FlushTwice(limit, Project(st, sid));
    }
  }

  /* ---- What a flush of several sessions publishes ---- */

  // Each of these sessions that has pending turns and messages has lost its counter and published twice its value,
  // anchored at its newest message. Tables, and all other counters and batches, are as before.
  ghost predicate FlushesThose(st: Store, those: set<Sid>, st': Store) {
    && st'.tables == st.tables && st'.now == st.now
    && forall sid ::
         if sid in those && Pending(st, sid) then
           && sid !in st'.counts
           && PublishedFor(st'.stream, sid) ==
                PublishedFor(st.stream, sid) + [B.Batch(2 * st.counts[sid], st.tables[sid][|st.tables[sid]| - 1].id)]
         else
           && (sid in st'.counts <==> sid in st.counts) && (sid in st.counts ==> st'.counts[sid] == st.counts[sid])
           && PublishedFor(st'.stream, sid) == PublishedFor(st.stream, sid)
  }

  predicate Pending(st: Store, sid: Sid) {
    sid in st.counts && st.counts[sid] > 0 && sid in st.tables && st.tables[sid] != []
  }

  lemma {:induction false} FlushOneMore(st: Store, those: set<Sid>, before: Store, sid: Sid, orElse: Store)
    requires FlushesThose(st, those, before)
    requires orElse == before || orElse == before.(active := before.active - {sid})
    ensures FlushesThose(st, those + {sid}, FlushPending(before, sid, orElse))
  {
    var after := FlushPending(before, sid, orElse);
    if Count(before, sid) > 0 && Table(before, sid) != [] {
      var h := Table(before, sid);
      forall x ensures PublishedFor(after.stream, x) ==
        PublishedFor(before.stream, x) + (if x == sid then [B.Batch(2 * before.counts[sid], h[|h| - 1].id)] else [])
      {
        PublishedSnoc(before.stream, (sid, B.Batch(before.counts[sid] * 2, h[|h| - 1].id)), x);
      }
    }
  }

  lemma {:induction false} CycleFlushes(st: Store, members: seq<Sid>)
    ensures FlushesThose(st, Elements(members), FlushMembers(st, members))
  {
    if members != [] {
      var init, last := members[..|members| - 1], members[|members| - 1];
      var before := FlushMembers(st, init);
      CycleFlushes(st, init);
      assert members == init + [last];
      assert Elements(members) == Elements(init) + {last};
      FlushOneMore(st, Elements(init), before, last, before.(active := before.active - {last}));
    }
  }

  lemma {:induction false} PreviousFlushes(st: Store, sessions: seq<Sid>, exclude: Sid)
    ensures FlushesThose(st, Elements(sessions) - {exclude}, FlushPrevious(st, sessions, exclude))
  {
    if sessions != [] {
      var init, last := sessions[..|sessions| - 1], sessions[|sessions| - 1];
      var before, some := FlushPrevious(st, init, exclude), Elements(init) - {exclude};
      PreviousFlushes(st, init, exclude);
      assert sessions == init + [last];
      assert Elements(sessions) - {exclude} == if last == exclude then some else some + {last};
      FlushOneMore(st, some, before, last, before);
    }
  }

  /* ---- Whole runs ---- */

  datatype Event =
    | Append(sid: Sid, m: Message)
    | NewSession(sessions: seq<Sid>, created: Sid)
    | FlushCycle(members: seq<Sid>)
    | Tick(d: nat)

  function Step(limit: nat, st: Store, e: Event): Store {
    match e
    case Append(sid, m) => HandleAppend(limit, st, sid, m)
    case NewSession(sessions, created) => FlushPrevious(st, sessions, created)
    case FlushCycle(members) => FlushMembers(st, members)
    case Tick(d) => st.(now := st.now + d)
  }

  function Run(limit: nat, events: seq<Event>): Store {
    if events == [] then EMPTY
    else Step(limit, Run(limit, events[..|events| - 1]), events[|events| - 1])
  }

  // What an event means to one session.
  function For(e: Event, sid: Sid): seq<B.Event> {
    match e
    case Append(s, m) => if s == sid then [B.Append(m)] else []
    case NewSession(sessions, created) => if sid in sessions && sid != created then [B.Flush] else []
    case FlushCycle(members) => if sid in members then [B.Flush] else []
    case Tick(_) => []
  }

  function AllFor(events: seq<Event>, sid: Sid): seq<B.Event> {
    if events == [] then []
    else AllFor(events[..|events| - 1], sid) + For(events[|events| - 1], sid)
  }

  lemma {:induction false} RunRefines(limit: nat, events: seq<Event>, sid: Sid)
    ensures Project(Run(limit, events), sid) == B.After(limit, AllFor(events, sid))
  {
    if events != [] {
      var st, e := Run(limit, events[..|events| - 1]), events[|events| - 1];
      var before := AllFor(events[..|events| - 1], sid);
      RunRefines(limit, events[..|events| - 1], sid);
      StepRefines(limit, st, e, sid);
      if For(e, sid) != [] {
        assert (before + For(e, sid))[..|before|] == before;
      } else {
        assert before + For(e, sid) == before;
      }
    }
  }

  lemma StepRefines(limit: nat, st: Store, e: Event, sid: Sid)
    ensures Project(Step(limit, st, e), sid) ==
      if For(e, sid) == [] then Project(st, sid) else B.Step(limit, Project(st, sid), For(e, sid)[0])
  {
    match e
    case Append(s, m) =>
      if s == sid {
        AppendRefines(limit, st, sid, m);
      } else {
        AppendIsLocal(limit, st, s, m, sid);
      }
    case NewSession(sessions, created) => PreviousRefines(limit, st, sessions, created, sid);
    case FlushCycle(members) => CycleRefines(limit, st, members, sid);
    case Tick(_) =>
  }

  /** Whole-run coverage for every session of the server: in any interleaving of appends to any sessions, new
      sessions and flush cycles, each user turn of a disciplined session lies in a published window of that
      session or among its pending turns, and its accepted turns are the published and the pending ones. */
  lemma EverySessionCovered(limit: nat, events: seq<Event>, sid: Sid)
    requires var s := Project(Run(limit, events), sid); DistinctIds(s.h) && B.Disciplined(s.h)
    ensures var s := Project(Run(limit, events), sid);
      && (forall i | 0 <= i < |s.h| && s.h[i].role == User :: B.Users(s.h[i..]) <= s.count || B.InSomeWindow(s, i))
      && 2 * B.Users(s.h) == B.Counted(s.published) + 2 * s.count
  {
    RunRefines(limit, events, sid);
    B.EveryTurnCovered(limit, AllFor(events, sid));
  }

  /** No session of the server is ever left with a full batch. */
  lemma EveryCounterBelow(limit: nat, events: seq<Event>, sid: Sid)
    requires limit >= 1
    ensures Count(Run(limit, events), sid) < limit
  {
    RunRefines(limit, events, sid);
    B.CounterStaysBelow(limit, AllFor(events, sid));
  }

  /** A session that nobody flushes has its user turns published in batches of exactly `limit`. */
  lemma UnflushedInBatches(limit: nat, events: seq<Event>, sid: Sid)
    requires limit >= 1 && B.Flush !in AllFor(events, sid)
    ensures B.InBatches(limit, Project(Run(limit, events), sid))
  {
    RunRefines(limit, events, sid);
    B.TurnsComeInBatches(limit, AllFor(events, sid));
  }

  /* ---- Tracking ---- */

  // A session with pending turns has messages, and is tracked at the time of its latest counted turn.
  ghost predicate Tracked(st: Store) {
    forall sid :: Count(st, sid) > 0 ==>
      Table(st, sid) != [] && sid in st.active && sid in st.lastTurn && st.active[sid] == st.lastTurn[sid] <= st.now
  }

  lemma AppendTracks(limit: nat, st: Store, sid: Sid, m: Message)
    requires Tracked(st)
    ensures Tracked(HandleAppend(limit, st, sid, m))
  {
    var st' := HandleAppend(limit, st, sid, m);
    forall x | Count(st', x) > 0
      ensures Table(st', x) != [] && x in st'.active && x in st'.lastTurn && st'.active[x] == st'.lastTurn[x] <= st'.now
    {
      assert x != sid ==> Count(st, x) > 0;
      assert m.role != User ==> Count(st, x) > 0;
    }
  }

  lemma {:induction false} CycleTracks(st: Store, members: seq<Sid>)
    requires Tracked(st)
    ensures Tracked(FlushMembers(st, members)) && FlushMembers(st, members).lastTurn == st.lastTurn
    ensures forall sid | sid in members :: Count(FlushMembers(st, members), sid) == 0
    ensures forall sid :: Count(FlushMembers(st, members), sid) <= Count(st, sid)
  {
    if members != [] {
      var before, last := FlushMembers(st, members[..|members| - 1]), members[|members| - 1];
      CycleTracks(st, members[..|members| - 1]);
      assert members == members[..|members| - 1] + [last];
      forall x ensures Count(FlushMembers(st, members), x) == if x == last then 0 else Count(before, x) {
      }
      forall x | Count(FlushMembers(st, members), x) > 0 ensures Count(before, x) > 0 && x != last {
      }
    }
  }

  lemma {:induction false} PreviousTracks(st: Store, sessions: seq<Sid>, exclude: Sid)
    requires Tracked(st)
    ensures Tracked(FlushPrevious(st, sessions, exclude))
  {
    if sessions != [] {
      var before, last := FlushPrevious(st, sessions[..|sessions| - 1], exclude), sessions[|sessions| - 1];
      PreviousTracks(st, sessions[..|sessions| - 1], exclude);
      var after := FlushPrevious(st, sessions, exclude);
      forall x | Count(after, x) > 0 ensures Count(before, x) > 0 && (after == before || x != last) {
      }
    }
  }

  /** In every run, a session with pending turns is tracked for the timeout flush at the time of its latest
      counted turn, and has messages to anchor the flush. */
  lemma {:induction false} PendingIsTracked(limit: nat, events: seq<Event>)
    ensures Tracked(Run(limit, events))
  {
    if events != [] {
      var st, e := Run(limit, events[..|events| - 1]), events[|events| - 1];
      PendingIsTracked(limit, events[..|events| - 1]);
      match e
      case Append(sid, m) => AppendTracks(limit, st, sid, m);
      case NewSession(sessions, created) => PreviousTracks(st, sessions, created);
      case FlushCycle(members) => CycleTracks(st, members);
      case Tick(d) =>
        forall x | Count(Run(limit, events), x) > 0 ensures Count(st, x) > 0 {
        }
    }
  }

  // The time a run takes, and when it last counted a user turn of a session.
  function Clock(events: seq<Event>): nat {
    if events == [] then 0
    else Clock(events[..|events| - 1]) + match events[|events| - 1] case Tick(d) => d case _ => 0
  }

  function LatestTurn(events: seq<Event>, sid: Sid): Option<nat> {
    if events == [] then None
    else
      match events[|events| - 1]
      case Append(x, m) =>
        if x == sid && m.role == User then Some(Clock(events)) else LatestTurn(events[..|events| - 1], sid)
      case _ => LatestTurn(events[..|events| - 1], sid)
  }

  lemma {:induction false} FlushKeepsTurns(st: Store, sids: seq<Sid>, exclude: Sid)
    ensures var st' := FlushPrevious(st, sids, exclude); st'.now == st.now && st'.lastTurn == st.lastTurn
    ensures var st' := FlushMembers(st, sids); st'.now == st.now && st'.lastTurn == st.lastTurn
  {
    if sids != [] {
      FlushKeepsTurns(st, sids[..|sids| - 1], exclude);
    }
  }

  lemma {:induction false} TurnsAreTimed(limit: nat, events: seq<Event>, sid: Sid)
    ensures var st := Run(limit, events);
      st.now == Clock(events) && LatestTurn(events, sid) == if sid in st.lastTurn then Some(st.lastTurn[sid]) else None
  {
    if events != [] {
      TurnsAreTimed(limit, events[..|events| - 1], sid);
      match events[|events| - 1]
      case NewSession(sessions, created) => FlushKeepsTurns(Run(limit, events[..|events| - 1]), sessions, created);
      case FlushCycle(members) => FlushKeepsTurns(Run(limit, events[..|events| - 1]), members, 0);
      case _ =>
    }
  }

  /** The score a pending session is tracked with is the time of its latest user turn. */
  lemma {:induction false} TrackedAtLatestTurn(limit: nat, events: seq<Event>, sid: Sid)
    requires Count(Run(limit, events), sid) > 0
    ensures var st := Run(limit, events); sid in st.active && LatestTurn(events, sid) == Some(st.active[sid])
  {
    PendingIsTracked(limit, events);
    TurnsAreTimed(limit, events, sid);
  }

  /* ---- Clearing the inactive sessions ---- */

  // ZRANGEBYSCORE up to the threshold.
  function Inactive(active: map<Sid, nat>, threshold: int): set<Sid> {
    set sid | sid in active && active[sid] <= threshold
  }

  // A reply of the range query: the inactive members of lowest score, at most a hundred.
  predicate RangeReply(active: map<Sid, nat>, threshold: int, members: seq<Sid>) {
    && (forall i, j | 0 <= i < j < |members| :: members[i] != members[j])
    && (forall sid | sid in members :: sid in Inactive(active, threshold))
    && (|members| == FLUSH_LIMIT || forall sid | sid in Inactive(active, threshold) :: sid in members)
    && |members| <= FLUSH_LIMIT
    && (forall sid, x | sid in members && x in Inactive(active, threshold) && x !in members :: active[sid] <= active[x])
  }

  function Elements(members: seq<Sid>): set<Sid> {
    set sid | sid in members
  }

  lemma {:induction false} CycleUntracks(st: Store, members: seq<Sid>)
    ensures FlushMembers(st, members).active == st.active - Elements(members)
    ensures FlushMembers(st, members).now == st.now
  {
    if members != [] {
      CycleUntracks(st, members[..|members| - 1]);
      assert members == members[..|members| - 1] + [members[|members| - 1]];
    } else {
      assert Elements(members) == {};
    }
  }

  lemma {:induction false} DistinctCount(members: seq<Sid>)
    requires forall i, j | 0 <= i < j < |members| :: members[i] != members[j]
    ensures |Elements(members)| == |members|
  {
    if members == [] {
      assert Elements(members) == {};
    } else {
      var init, last := members[..|members| - 1], members[|members| - 1];
      DistinctCount(init);
      assert last !in Elements(init);
      assert Elements(members) == Elements(init) + {last} by {
        assert members == init + [last];
      }
    }
  }

  // What one cycle leaves of the sessions that were inactive by an earlier threshold: it takes the oldest first, so
  // sessions that fell inactive since do not hold it up.
  lemma {:induction false} CycleClears(st: Store, low: int, threshold: int, members: seq<Sid>)
    requires low <= threshold && RangeReply(st.active, threshold, members)
    ensures |Inactive(FlushMembers(st, members).active, low)| == Max(0, |Inactive(st.active, low)| - FLUSH_LIMIT)
  {
    var stale, done := Inactive(st.active, low), Elements(members);
    InactiveLeft(st, low, members);
    DistinctCount(members);
    OldestFirst(st, low, threshold, members);
    if done <= stale {
      DifferenceSize(stale, done);
    } else {
      SubsetSize(stale, done);
    }
  }

  // Either the reply is all stale and full, or it holds all that is stale.
  lemma {:induction false} OldestFirst(st: Store, low: int, threshold: int, members: seq<Sid>)
    requires low <= threshold && RangeReply(st.active, threshold, members)
    ensures (Elements(members) <= Inactive(st.active, low) && |members| == FLUSH_LIMIT)
         || Inactive(st.active, low) <= Elements(members)
  {
    if x :| x in Inactive(st.active, low) && x !in members {
      assert x in Inactive(st.active, threshold);
      forall sid | sid in members ensures sid in Inactive(st.active, low) {
        assert st.active[sid] <= st.active[x];
      }
    }
  }

  lemma {:induction false} InactiveLeft(st: Store, low: int, members: seq<Sid>)
    ensures Inactive(FlushMembers(st, members).active, low) == Inactive(st.active, low) - Elements(members)
  {
    CycleUntracks(st, members);
  }

  lemma DifferenceSize(all: set<Sid>, done: set<Sid>)
    requires done <= all
    ensures |all - done| == |all| - |done|
  {
    assert all == (all - done) + done && (all - done) !! done;
  }

  lemma SubsetSize(some: set<Sid>, all: set<Sid>)
    requires some <= all
    ensures |some| <= |all| && some - all == {}
  {
    DifferenceSize(all, some);
  }

  // A flush cycle: the threshold of its time, and the reply it got.
  datatype Cycle = Cycle(threshold: int, members: seq<Sid>)

  // Successive cycles, each with its own threshold, none earlier than `low`, and with the reply the store gives at
  // its turn.
  predicate Successive(st: Store, low: int, cycles: seq<Cycle>) {
    cycles == [] ||
    var k := |cycles| - 1;
    && Successive(st, low, cycles[..k]) && low <= cycles[k].threshold
    && RangeReply(Cycles(st, cycles[..k]).active, cycles[k].threshold, cycles[k].members)
  }

  function Cycles(st: Store, cycles: seq<Cycle>): Store {
    if cycles == [] then st
    else FlushMembers(Cycles(st, cycles[..|cycles| - 1]), cycles[|cycles| - 1].members)
  }

  /** With no new activity in them, of m sessions inactive by `low`, k later cycles leave all but 100 k: they are gone
      after exactly ceil(m / 100) cycles, and in no fewer, although the threshold moves with the clock and further
      sessions fall inactive in between. */
  lemma {:induction false} CyclesClear(st: Store, low: int, cycles: seq<Cycle>)
    requires Successive(st, low, cycles)
    ensures var m := |Inactive(st.active, low)|;
      && |Inactive(Cycles(st, cycles).active, low)| == Max(0, m - 100 * |cycles|)
      && (Inactive(Cycles(st, cycles).active, low) == {} <==> |cycles| >= (m + 99) / 100)
  {
    if cycles != [] {
      var k := |cycles| - 1;
      CyclesClear(st, low, cycles[..k]);
      CycleClears(Cycles(st, cycles[..k]), low, cycles[k].threshold, cycles[k].members);
    }
  }

  /** A tracked session whose last turn is no later than `low` is flushed once the cycles have cleared the sessions
      inactive by then: its pending turns are published. */
  lemma {:induction false} InactiveSessionIsFlushed(limit: nat, st: Store, low: int, cycles: seq<Cycle>, sid: Sid)
    requires Tracked(st) && Successive(st, low, cycles) && Count(st, sid) > 0 && st.lastTurn[sid] <= low
    requires |cycles| >= (|Inactive(st.active, low)| + 99) / 100
    ensures Project(Cycles(st, cycles), sid) == B.Step(limit, Project(st, sid), B.Flush)
    ensures Project(Cycles(st, cycles), sid).count == 0
  {
    CyclesClear(st, low, cycles);
    UntouchedOrFlushed(limit, st, low, cycles, sid);
  }

  lemma {:induction false} UntouchedOrFlushed(limit: nat, st: Store, low: int, cycles: seq<Cycle>, sid: Sid)
    requires Tracked(st) && Successive(st, low, cycles) && Count(st, sid) > 0 && st.lastTurn[sid] <= low
    ensures Tracked(Cycles(st, cycles)) && Cycles(st, cycles).lastTurn == st.lastTurn
    ensures var st' := Cycles(st, cycles);
      if sid in Inactive(st'.active, low) then Project(st', sid) == Project(st, sid)
      else Project(st', sid) == B.Step(limit, Project(st, sid), B.Flush)
  {
    if cycles != [] {
      var k := |cycles| - 1;
      var before, members := Cycles(st, cycles[..k]), cycles[k].members;
      UntouchedOrFlushed(limit, st, low, cycles[..k], sid);
      CycleTracks(before, members);
      CycleRefines(limit, before, members, sid);
      CycleUntracks(before, members);
      FlushTwice(limit, Project(st, sid));
    }
  }
}
