/** One session from its appends to the worker's reads: the table and its batch counter together with the cached
    list, over whole runs. */
module Pipeline {
  import opened History
  import opened MessageCache
  import opened BatchWindow
  import Batching

  // The session, the cached list, and which reload loaded the list.
  datatype State = State(s: Batching.Session, list: seq<Message>, shape: Shape)

  // A message arrives, and a reload it causes may fail; the list is lost; the session is flushed.
  datatype Event = Arrive(m: Message, dbOk: bool) | Lose | Flush

  const EMPTY := State(Batching.EMPTY, [], Doubled(0))

  // The message is inserted, pushed onto the list, and counted.
  function Step(limit: nat, x: State, e: Event): State {
    match e
    case Arrive(m, dbOk) =>
      State(Batching.AppendMessage(limit, x.s, m), Appended(x.list, x.s.h + [m], dbOk, [m]),
            NextShape(x.list, x.shape, dbOk))
    case Lose => x.(list := [])
    case Flush => x.(s := Batching.FlushSession(x.s))
  }

  function Run(limit: nat, events: seq<Event>): State {
    if events == [] then EMPTY
    else Step(limit, Run(limit, events[..|events| - 1]), events[|events| - 1])
  }

  /* ---- The run is a run of its parts ---- */

  function SessionPart(events: seq<Event>): seq<Batching.Event> {
    if events == [] then []
    else
      SessionPart(events[..|events| - 1]) +
      match events[|events| - 1]
      case Arrive(m, _) => [Batching.Append(m)]
      case Lose => []
      case Flush => [Batching.Flush]
  }

  function CachePart(events: seq<Event>): seq<CacheEvent> {
    if events == [] then []
    else
      CachePart(events[..|events| - 1]) +
      match events[|events| - 1]
      case Arrive(m, dbOk) => [CacheEvent.Append(m, dbOk)]
      case Lose => [Expire]
      case Flush => []
  }

  lemma {:induction false} SessionProjection(limit: nat, events: seq<Event>)
    ensures Run(limit, events).s == Batching.After(limit, SessionPart(events))
  {
    if events != [] {
      SessionProjection(limit, events[..|events| - 1]);
      var part := SessionPart(events[..|events| - 1]);
      match events[|events| - 1]
      case Arrive(m, _) => assert (part + [Batching.Append(m)])[..|part|] == part;
      case Lose => assert part + [] == part;
      case Flush => assert (part + [Batching.Flush])[..|part|] == part;
    }
  }

  lemma {:induction false} CacheProjection(limit: nat, events: seq<Event>)
    ensures var x := Run(limit, events); CacheRun(CachePart(events)) == Mirrored(x.s.h, x.list, x.shape)
  {
    if events != [] {
      CacheProjection(limit, events[..|events| - 1]);
      var part := CachePart(events[..|events| - 1]);
      match events[|events| - 1]
      case Arrive(m, dbOk) => assert (part + [CacheEvent.Append(m, dbOk)])[..|part|] == part;
      case Lose => assert (part + [Expire])[..|part|] == part;
      case Flush => assert part + [] == part;
    }
  }

  /** Every run of the pipeline is a run of the session and a run of the cache over one and the same history, so
      what is proved of each holds of both together. */
  lemma RunProjects(limit: nat, events: seq<Event>)
    ensures var x := Run(limit, events);
      && x.s == Batching.After(limit, SessionPart(events))
      && CacheRun(CachePart(events)) == Mirrored(x.s.h, x.list, x.shape)
      && Batching.Balanced(x.s)
      && (x.list != [] ==> Mirrors(x.list, Newest(x.s.h), x.shape))
  {
    SessionProjection(limit, events);
    CacheProjection(limit, events);
    Batching.NoTurnLeftUncounted(limit, SessionPart(events));
    CacheMirrorsHistory(CachePart(events));
  }

  /* ---- The published batches ---- */

  // The history when the batch was published, the messages since, and the number of turns it counted.
  function Published(h: seq<Message>, b: Batching.Batch): seq<Message> {
    Until(h, b.anchor)
  }

  lemma {:induction false} UntilIsPrefix(h: seq<Message>, id: nat)
    ensures |Until(h, id)| <= |h| && h == Until(h, id) + h[|Until(h, id)|..]
  {
    if h != [] && h[|h| - 1].id != id {
      var init := h[..|h| - 1];
      UntilIsPrefix(init, id);
      var rest := Until(init, id);
      assert init + [h[|h| - 1]] == h;
      assert h[|rest|..] == init[|rest|..] + [h[|h| - 1]];
    }
  }

  function Later(h: seq<Message>, b: Batching.Batch): (later: seq<Message>)
    ensures h == Published(h, b) + later
  {
    UntilIsPrefix(h, b.anchor);
    h[|Published(h, b)|..]
  }

  // A batch is anchored at the last message of the history as it was, and counts some of its turns.
  ghost predicate Sound(h: seq<Message>, b: Batching.Batch) {
    var pub := Published(h, b);
    && pub != [] && pub[|pub| - 1].id == b.anchor
    && b.size % 2 == 0 && 0 < b.size <= 2 * Batching.Users(pub)
  }

  lemma AnchoredLast(h: seq<Message>, id: nat)
    requires h != [] && h[|h| - 1].id == id
    ensures Until(h, id) == h
  {
  }

  // Messages appended later belong to no batch published before.
  lemma PublishedStays(h: seq<Message>, b: Batching.Batch, m: Message)
    requires DistinctIds(h + [m]) && Sound(h, b)
    ensures Published(h + [m], b) == Published(h, b)
  {
    UntilIsPrefix(h, b.anchor);
    var a := |Published(h, b)| - 1;
    assert h[a] == Published(h, b)[a] && (h + [m])[a] == h[a];
    UntilPrefix(h + [m], b.anchor, a);
    assert (h + [m])[..a + 1] == Published(h, b);
  }

  ghost predicate AllSound(s: Batching.Session) {
    forall k | 0 <= k < |s.published| :: Sound(s.h, s.published[k])
  }

  lemma CountingKeepsSound(s: Batching.Session, m: Message)
    requires DistinctIds(s.h + [m]) && AllSound(s)
    ensures AllSound(Batching.Counting(s, m))
  {
    forall k | 0 <= k < |s.published| ensures Sound(s.h + [m], s.published[k]) {
      PublishedStays(s.h, s.published[k], m);
    }
  }

  lemma PublishKeepsSound(s: Batching.Session)
    requires s.h != [] && 0 < s.count <= Batching.Users(s.h) && AllSound(s)
    ensures AllSound(Batching.Publish(s))
  {
    AnchoredLast(s.h, s.h[|s.h| - 1].id);
  }

  lemma StepKeepsSound(limit: nat, s: Batching.Session, e: Batching.Event)
    requires Batching.Balanced(s) && DistinctIds(Batching.Step(limit, s, e).h) && AllSound(s)
    ensures AllSound(Batching.Step(limit, s, e))
  {
    match e
    case Append(m) =>
      CountingKeepsSound(s, m);
      Batching.AppendBalances(s, m);
      if m.role == User && s.count + 1 >= limit {
        PublishKeepsSound(Batching.Counting(s, m));
      }
    case Flush =>
      if s.count > 0 && s.h != [] {
        PublishKeepsSound(s);
      }
  }

  lemma StepExtends(limit: nat, s: Batching.Session, e: Batching.Event)
    requires DistinctIds(Batching.Step(limit, s, e).h)
    ensures DistinctIds(s.h)
  {
    if e.Append? {
      DistinctPrefix(s.h, [e.m]);
    }
  }

  lemma {:induction false} BatchesAreSound(limit: nat, events: seq<Batching.Event>)
    requires DistinctIds(Batching.After(limit, events).h)
    ensures AllSound(Batching.After(limit, events))
  {
    if events != [] {
      var init := events[..|events| - 1];
      StepExtends(limit, Batching.After(limit, init), events[|events| - 1]);
      BatchesAreSound(limit, init);
      Batching.NoTurnLeftUncounted(limit, init);
      StepKeepsSound(limit, Batching.After(limit, init), events[|events| - 1]);
    }
  }

  /* ---- What the worker finds, over whole runs ---- */

  // The worker finds every turn a batch counted, when it reads in state x.
  ghost predicate Found(x: State, b: Batching.Batch)
    requires Sound(x.s.h, b)
  {
    FindsEveryTurn(x.list, Published(x.s.h, b), Later(x.s.h, b), b.size / 2)
  }

  predicate Listed(x: State, b: Batching.Batch)
    requires x.list != [] ==> Fits(Newest(x.s.h), x.shape)
  {
    x.list != [] && Reach(Newest(x.s.h), x.shape, |Later(x.s.h, b)|) > 0
  }

  /** Whatever the run of appends, losses of the list, failed reloads and flushes, and whenever the worker reads:
      it finds every turn of a published batch exactly when, the anchor being listed, the oldest turn and a double
      between it and the anchor fit the window and the list; or else, when the counted turns have at most one
      other message each. */
  lemma {:induction false} WorkerFindsTurnsIff(limit: nat, events: seq<Event>, k: nat)
    requires var x := Run(limit, events); DistinctIds(x.s.h) && k < |x.s.published|
    ensures var x := Run(limit, events);
      var b := x.s.published[k];
      var c, pub, p := b.size / 2, Published(x.s.h, b), |Later(x.s.h, b)|;
      && Sound(x.s.h, b)
      && (x.list != [] ==> Fits(Newest(x.s.h), x.shape))
      && (Found(x, b) <==>
          if Listed(x, b) then CachedDepth(pub, c, x.shape, p) < Min(b.size, Reach(Newest(x.s.h), x.shape, p))
          else Batching.Replies(pub, c) <= c)
  {
    var x := Run(limit, events);
    RunProjects(limit, events);
    BatchesAreSound(limit, SessionPart(events));
    FoundIff(x, x.s.published[k]);
  }

  lemma {:induction false} FoundIff(x: State, b: Batching.Batch)
    requires DistinctIds(x.s.h) && Sound(x.s.h, b) && (x.list != [] ==> Mirrors(x.list, Newest(x.s.h), x.shape))
    ensures var c, pub, p := b.size / 2, Published(x.s.h, b), |Later(x.s.h, b)|;
      Found(x, b) <==>
        if Listed(x, b) then CachedDepth(pub, c, x.shape, p) < Min(b.size, Reach(Newest(x.s.h), x.shape, p))
        else Batching.Replies(pub, c) <= c
  {
    var pub, later := Published(x.s.h, b), Later(x.s.h, b);
    if Listed(x, b) {
      CachedReadFindsTurnsIff(x.list, pub, later, x.shape, b.size / 2);
    } else {
      TableReadFindsTurnsIff(x.list, pub, later, x.shape, b.size / 2);
    }
  }

  /* ---- Sessions that lose their list only between batches ---- */

  // Reloads succeed, and the list is lost only when no turn is pending.
  ghost predicate Calm(limit: nat, events: seq<Event>) {
    forall i | 0 <= i < |events| ::
      match events[i]
      case Arrive(_, dbOk) => dbOk
      case Lose => Run(limit, events[..i]).s.count == 0
      case Flush => true
  }

  lemma CalmPrefix(limit: nat, events: seq<Event>)
    requires Calm(limit, events) && events != []
    ensures Calm(limit, events[..|events| - 1])
  {
    var init := events[..|events| - 1];
    forall i | 0 <= i < |init| && init[i].Lose? ensures Run(limit, init[..i]).s.count == 0 {
      assert events[i].Lose? && events[..i] == init[..i];
    }
    forall i | 0 <= i < |init| && init[i].Arrive? ensures init[i].dbOk {
      assert events[i].Arrive?;
    }
  }

  // No double strictly between the anchor of a batch and its oldest turn.
  ghost predicate Clear(h: seq<Message>, shape: Shape, b: Batching.Batch)
    requires Sound(h, b)
  {
    var pub, c := Published(h, b), b.size / 2;
    shape.Doubled? && CachedDepth(pub, c, shape, |Later(h, b)|) == Depth(pub, c)
  }

  // The same will hold of the batch that the pending turns end up in.
  ghost predicate Settled(x: State) {
    && AllSound(x.s) && x.shape.Doubled? && x.s.count <= Batching.Users(x.s.h)
    && (x.s.count > 0 ==> x.list != [] && Depth(x.s.h, x.s.count) <= x.shape.j)
    && forall k | 0 <= k < |x.s.published| :: Clear(x.s.h, x.shape, x.s.published[k])
  }

  lemma ClearStays(h: seq<Message>, shape: Shape, b: Batching.Batch, m: Message, list: seq<Message>)
    requires DistinctIds(h + [m]) && Sound(h, b) && Sound(h + [m], b) && Clear(h, shape, b)
    ensures Clear(h + [m], NextShape(list, shape, true), b)
  {
    PublishedStays(h, b, m);
    assert |Later(h + [m], b)| == |Later(h, b)| + 1;
  }

  lemma DepthGrows(h: seq<Message>, c: nat, m: Message)
    requires c <= Batching.Users(h)
    ensures var c' := if m.role == User then c + 1 else c;
      && c' <= Batching.Users(h + [m])
      && (c > 0 ==> Depth(h + [m], c') == Depth(h, c) + 1)
      && (c == 0 < c' ==> Depth(h + [m], c') == 0)
  {
    assert (h + [m])[..|h|] == h;
    assert Batching.Since(h, 0) == |h|;
  }

  // A message inserted, pushed and counted.
  function Arrived(x: State, m: Message): State {
    State(Batching.Counting(x.s, m), Appended(x.list, x.s.h + [m], true, [m]), NextShape(x.list, x.shape, true))
  }

  lemma AppendSettles(x: State, m: Message)
    requires DistinctIds(x.s.h + [m]) && Settled(x)
    ensures Settled(Arrived(x, m))
  {
    CountingKeepsSound(x.s, m);
    DepthGrows(x.s.h, x.s.count, m);
    forall k | 0 <= k < |x.s.published| ensures Clear(x.s.h + [m], NextShape(x.list, x.shape, true), x.s.published[k]) {
      assert Sound(Batching.Counting(x.s, m).h, x.s.published[k]);
      ClearStays(x.s.h, x.shape, x.s.published[k], m, x.list);
    }
  }

  lemma PublishSettles(x: State)
    requires x.s.h != [] && x.s.count > 0 && Settled(x)
    ensures Settled(x.(s := Batching.Publish(x.s)))
  {
    PublishKeepsSound(x.s);
    AnchoredLast(x.s.h, x.s.h[|x.s.h| - 1].id);
  }

  lemma StepSettles(limit: nat, x: State, e: Event)
    requires DistinctIds(Step(limit, x, e).s.h) && Settled(x)
    requires (e.Arrive? ==> e.dbOk) && (e.Lose? ==> x.s.count == 0)
    ensures Settled(Step(limit, x, e))
  {
    match e
    case Arrive(m, _) =>
      AppendSettles(x, m);
      if m.role == User && x.s.count + 1 >= limit {
        PublishSettles(Arrived(x, m));
      }
    case Lose =>
    case Flush =>
      if x.s.count > 0 && x.s.h != [] {
        PublishSettles(x);
      }
  }

  lemma {:induction false} CalmRunsSettle(limit: nat, events: seq<Event>)
    requires Calm(limit, events) && DistinctIds(Run(limit, events).s.h)
    ensures Settled(Run(limit, events))
  {
    if events != [] {
      var init, e := events[..|events| - 1], events[|events| - 1];
      CalmPrefix(limit, events);
      if e.Arrive? {
        DistinctPrefix(Run(limit, init).s.h, [e.m]);
      }
      CalmRunsSettle(limit, init);
      StepSettles(limit, Run(limit, init), e);
    }
  }

  lemma {:induction false} DisciplinedPrefix(h: seq<Message>, later: seq<Message>)
    requires Batching.Disciplined(h + later)
    ensures Batching.Disciplined(h)
  {
    forall i | 0 <= i && i + 2 < |h| && h[i].role == User ensures h[i + 1].role == User || h[i + 2].role == User {
      assert forall k | i <= k <= i + 2 :: (h + later)[k] == h[k];
      assert (h + later)[i + 1].role == User || (h + later)[i + 2].role == User;
    }
  }

  /** In a disciplined session whose reloads succeed and whose list is lost only while no turn is pending, the
      worker finds every turn of every published batch, flushed or not, whenever it reads while twice the count
      and the entries ahead of the anchor fit the list, or when the list has lost the anchor. */
  lemma {:induction false} CalmSessionIsSafe(limit: nat, events: seq<Event>, k: nat)
    requires Calm(limit, events)
    requires var x := Run(limit, events);
      && DistinctIds(x.s.h) && Batching.Disciplined(x.s.h) && k < |x.s.published|
      && (x.list != [] ==>
          && Fits(Newest(x.s.h), x.shape)
          && InReach(Newest(x.s.h), x.shape, |Later(x.s.h, x.s.published[k])|, x.s.published[k].size / 2))
    ensures var x := Run(limit, events);
      Sound(x.s.h, x.s.published[k]) && Found(x, x.s.published[k])
  {
    var x := Run(limit, events);
    RunProjects(limit, events);
    CalmRunsSettle(limit, events);
    ClearIsFound(x, x.s.published[k]);
  }

  lemma {:induction false} ClearIsFound(x: State, b: Batching.Batch)
    requires DistinctIds(x.s.h) && Batching.Disciplined(x.s.h) && Sound(x.s.h, b) && Clear(x.s.h, x.shape, b)
    requires x.list != [] ==>
      Mirrors(x.list, Newest(x.s.h), x.shape) && InReach(Newest(x.s.h), x.shape, |Later(x.s.h, b)|, b.size / 2)
    ensures Found(x, b)
  {
    var pub, later, c := Published(x.s.h, b), Later(x.s.h, b), b.size / 2;
    DisciplinedPrefix(pub, later);
    Batching.DisciplineBoundsReplies(pub, c);
    FoundInReach(x.list, pub, later, x.shape, c);
  }

  /* ---- A list lost while a turn is pending ---- */

  /** The calm is needed. User, reply, then a cold user turn that the reload doubles, then a reply: the flush
      publishes a window of four, and the worker reads the reply, the second user turn twice and the first reply.
      The first user turn was counted, is no longer pending, and is not read, though the history is disciplined
      and the table still holds it. (The list lives two hours and an idle session is flushed after thirty minutes,
      so either Redis lost the list early or the flusher was down or behind.) */
  lemma {:induction false} FlushedBatchCanMissATurn()
    ensures var u0, a1, u2, a3 := Message(0, User), Message(1, Assistant), Message(2, User), Message(3, Assistant);
      var x := Run(10, [Arrive(u0, true), Arrive(a1, true), Lose, Arrive(u2, true), Arrive(a3, true), Flush]);
      && x.s == Batching.Session([u0, a1, u2, a3], 0, [Batching.Batch(4, 3)]) && Batching.Disciplined(x.s.h)
      && WorkerRead(x.list, x.s.h, 3, 4) == [a3, u2, u2, a1]
  {
    var u0, a1, u2, a3 := Message(0, User), Message(1, Assistant), Message(2, User), Message(3, Assistant);
    UpToTheLoss(u0, a1);
    AfterTheLoss(u0, a1, u2, a3);
    MissedRead([a3, u2, u2, a1, u0], [u0, a1, u2, a3], u0, a1, u2, a3);
  }

  lemma {:induction false} Next(before: seq<Event>, e: Event)
    ensures Run(10, before + [e]) == Step(10, Run(10, before), e)
  {
    assert (before + [e])[..|before|] == before;
  }

  lemma {:induction false} Counted(x: State, m: Message)
    requires x.s.count + 1 < 10
    ensures Step(10, x, Arrive(m, true)).s ==
      Batching.Session(x.s.h + [m], if m.role == User then x.s.count + 1 else x.s.count, x.s.published)
  {
  }

  lemma {:induction false} UpToTheLoss(u0: Message, a1: Message)
    requires u0.role == User && a1.role == Assistant
    ensures var x := Run(10, [Arrive(u0, true), Arrive(a1, true), Lose]);
      x.s == Batching.Session([u0, a1], 1, []) && x.list == []
  {
    var one: seq<Event>, two: seq<Event> := [Arrive(u0, true)], [Arrive(u0, true), Arrive(a1, true)];
    var three := [Arrive(u0, true), Arrive(a1, true), Lose];
    assert one == [] + [Arrive(u0, true)] && two == one + [Arrive(a1, true)] && three == two + [Lose];
    TwoThenLoss(one, two, three, u0, a1);
  }

  lemma {:induction false} TwoThenLoss(one: seq<Event>, two: seq<Event>, three: seq<Event>, u0: Message, a1: Message)
    requires one == [] + [Arrive(u0, true)] && two == one + [Arrive(a1, true)] && three == two + [Lose]
    requires u0.role == User && a1.role == Assistant
    ensures Run(10, three).s == Batching.Session([u0, a1], 1, []) && Run(10, three).list == []
  {
    Next([], Arrive(u0, true));
    Next(one, Arrive(a1, true));
    Next(two, Lose);
    TwoCounted(u0, a1);
  }

  lemma {:induction false} TwoCounted(u0: Message, a1: Message)
    requires u0.role == User && a1.role == Assistant
    ensures Step(10, Step(10, EMPTY, Arrive(u0, true)), Arrive(a1, true)).s == Batching.Session([u0, a1], 1, [])
  {
    Counted(EMPTY, u0);
    Counted(Step(10, EMPTY, Arrive(u0, true)), a1);
  }

  lemma {:induction false} AfterTheLoss(u0: Message, a1: Message, u2: Message, a3: Message)
    requires u2.role == User && a3.role == Assistant
    requires var x := Run(10, [Arrive(u0, true), Arrive(a1, true), Lose]);
      x.s == Batching.Session([u0, a1], 1, []) && x.list == []
    ensures var x := Run(10, [Arrive(u0, true), Arrive(a1, true), Lose, Arrive(u2, true), Arrive(a3, true), Flush]);
      x.s == Batching.Session([u0, a1, u2, a3], 0, [Batching.Batch(4, a3.id)]) && x.list == [a3, u2, u2, a1, u0]
  {
    var e3 := [Arrive(u0, true), Arrive(a1, true), Lose];
    Next(e3, Arrive(u2, true));
    Next(e3 + [Arrive(u2, true)], Arrive(a3, true));
    Next(e3 + [Arrive(u2, true)] + [Arrive(a3, true)], Flush);
    assert e3 + [Arrive(u2, true)] + [Arrive(a3, true)] + [Flush]
        == [Arrive(u0, true), Arrive(a1, true), Lose, Arrive(u2, true), Arrive(a3, true), Flush];
    Reloaded(Run(10, e3), u0, a1, u2, a3);
  }

  lemma {:induction false} Reloaded(x: State, u0: Message, a1: Message, u2: Message, a3: Message)
    requires x.s == Batching.Session([u0, a1], 1, []) && x.list == []
    requires u2.role == User && a3.role == Assistant
    ensures var x' := Step(10, Step(10, Step(10, x, Arrive(u2, true)), Arrive(a3, true)), Flush);
      x'.s == Batching.Session([u0, a1, u2, a3], 0, [Batching.Batch(4, a3.id)]) && x'.list == [a3, u2, u2, a1, u0]
  {
    ColdArrival(x, u0, a1, u2);
    WarmArrival(Step(10, x, Arrive(u2, true)), u0, a1, u2, a3);
  }

  lemma {:induction false} ColdArrival(x: State, u0: Message, a1: Message, m: Message)
    requires x.s == Batching.Session([u0, a1], 1, []) && x.list == [] && m.role == User
    ensures var x' := Step(10, x, Arrive(m, true));
      x'.s == Batching.Session([u0, a1, m], 2, []) && x'.list == [m, m, a1, u0]
  {
    NewestPush(x.s.h, m);
    assert Newest(x.s.h) == [a1, u0];
    assert Newest([m]) == [m];
  }

  lemma {:induction false} WarmArrival(x: State, u0: Message, a1: Message, u2: Message, m: Message)
    requires x.s == Batching.Session([u0, a1, u2], 2, []) && x.list == [u2, u2, a1, u0] && m.role == Assistant
    ensures var x' := Step(10, x, Arrive(m, true));
      x'.s == Batching.Session([u0, a1, u2, m], 2, []) && x'.list == [m, u2, u2, a1, u0]
  {
    assert Newest([m]) == [m];
  }

  lemma {:induction false} MissedRead(list: seq<Message>, h: seq<Message>, u0: Message, a1: Message, u2: Message,
                                      a3: Message)
    requires list == [a3, u2, u2, a1, u0] && h == [u0, a1, u2, a3]
    requires u0.id == 0 && a1.id == 1 && u2.id == 2 && a3.id == 3
    ensures WorkerRead(list, h, 3, 4) == [a3, u2, u2, a1]
  {
    LastIndexIs(list, 3, 0);
    assert list[0..] == list;
    assert Take(4, list) == [a3, u2, u2, a1];
  }
}
