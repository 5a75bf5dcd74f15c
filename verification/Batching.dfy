/** The batch counter of a session, its three reset-and-publish paths, and the claim that no user turn escapes
    extraction. */
module Batching {
  import opened History

  // A published event: the window size (two messages for each counted user turn) and the anchor message.
  datatype Batch = Batch(size: nat, anchor: nat)

  datatype Session = Session(h: seq<Message>, count: nat, published: seq<Batch>)

  const EMPTY := Session([], 0, [])

  datatype Event = Append(m: Message) | Flush

  // Reset the counter and publish it with the newest message as the anchor.
  function Publish(s: Session): Session
    requires s.h != []
  {
    s.(count := 0, published := s.published + [Batch(s.count * 2, s.h[|s.h| - 1].id)])
  }

  // The insert and the counter: only user turns drive it.
  function Counting(s: Session, m: Message): Session {
    s.(h := s.h + [m], count := if m.role == User then s.count + 1 else s.count)
  }

  // handleAppendMessages.
  function AppendMessage(limit: nat, s: Session, m: Message): Session {
    var s' := Counting(s, m);
    if m.role == User && s'.count >= limit then Publish(s') else s'
  }

  // flushPreviousUserSessions and the timeout flusher: nothing to do without a count or without messages.
  function FlushSession(s: Session): Session {
    if s.count == 0 || s.h == [] then s else Publish(s)
  }

  // `limit` is the configured batch size.
  function Step(limit: nat, s: Session, e: Event): Session {
    match e
    case Append(m) => AppendMessage(limit, s, m)
    case Flush => FlushSession(s)
  }

  // The state after the first n events.
  function After(limit: nat, events: seq<Event>): Session {
    if events == [] then EMPTY
    else Step(limit, After(limit, events[..|events| - 1]), events[|events| - 1])
  }

  /* ---- Counting user turns ---- */

  function Users(h: seq<Message>): nat {
    if h == [] then 0
    else Users(h[..|h| - 1]) + (if h[|h| - 1].role == User then 1 else 0)
  }

  function Counted(published: seq<Batch>): nat {
    if published == [] then 0
    else Counted(published[..|published| - 1]) + published[|published| - 1].size
  }

  // Where the last c user turns of the history begin.
  function Since(h: seq<Message>, c: nat): (q: nat)
    requires c <= Users(h)
    ensures q <= |h|
  {
    if c == 0 then |h|
    else if h[|h| - 1].role == User then Since(h[..|h| - 1], c - 1)
    else Since(h[..|h| - 1], c)
  }

  lemma {:induction false} UsersSplit(h: seq<Message>, q: nat)
    requires q <= |h|
    ensures Users(h) == Users(h[..q]) + Users(h[q..])
  {
    if q == |h| {
      assert h[..q] == h && h[q..] == [];
    } else {
      UsersSplit(h[..|h| - 1], q);
      assert h[..|h| - 1][..q] == h[..q];
      assert h[q..][..|h| - q - 1] == h[..|h| - 1][q..];
    }
  }

  lemma {:induction false} UsersAtMost(h: seq<Message>)
    ensures Users(h) <= |h|
  {
    if h != [] {
      UsersAtMost(h[..|h| - 1]);
    }
  }

  // `Since` cuts off exactly c user turns, and cuts at a user turn.
  lemma {:induction false} SinceCounts(h: seq<Message>, c: nat)
    requires c <= Users(h)
    ensures Users(h[Since(h, c)..]) == c
    ensures c > 0 ==> Since(h, c) < |h| && h[Since(h, c)].role == User
  {
    if c > 0 {
      var init, last := h[..|h| - 1], h[|h| - 1];
      var c' := if last.role == User then c - 1 else c;
      var q := Since(h, c);
      SinceCounts(init, c');
      assert q == Since(init, c');
      assert h[q..] == init[q..] + [last];
      UsersSnoc(init[q..], last);
    }
  }

  lemma UsersSnoc(h: seq<Message>, m: Message)
    ensures Users(h + [m]) == Users(h) + if m.role == User then 1 else 0
  {
    assert (h + [m])[..|h|] == h;
  }

  // The two ways of saying "one of the last c user turns".
  lemma SinceIff(h: seq<Message>, c: nat, i: nat)
    requires c <= Users(h) && i < |h| && h[i].role == User
    ensures i >= Since(h, c) <==> Users(h[i..]) <= c
  {
    var q := Since(h, c);
    SinceCounts(h, c);
    if i >= q {
      UsersSplit(h[q..], i - q);
      assert h[q..][i - q..] == h[i..];
    } else {
      UsersSplit(h[i..], q - i);
      assert h[i..][q - i..] == h[q..];
      UserInPrefix(h[i..q]);
      assert h[i..][..q - i] == h[i..q];
    }
  }

  lemma {:induction false} UserInPrefix(h: seq<Message>)
    requires h != [] && h[0].role == User
    ensures Users(h) >= 1
  {
    if |h| > 1 {
      UserInPrefix(h[..|h| - 1]);
    }
  }

  /* ---- When a published window holds the turns it counted ---- */

  // The messages among the last c turns that are not user turns.
  function Replies(h: seq<Message>, c: nat): int
    requires c <= Users(h)
  {
    |h| - Since(h, c) - c
  }

  /** A batch published now holds every user turn it counted exactly when no more than one message per counted
      turn, from the first counted turn on, came from someone else. */
  lemma BatchHoldsItsTurnsIff(h: seq<Message>, c: nat)
    requires DistinctIds(h) && 0 < c <= Users(h)
    ensures (forall i | Since(h, c) <= i < |h| && h[i].role == User :: h[i] in RecentUntil(h, h[|h| - 1].id, c * 2))
      <==> Replies(h, c) <= c
  {
    var q, a := Since(h, c), |h| - 1;
    SinceCounts(h, c);
    InWindow(h, a, c * 2, q);
    forall i | q <= i < |h| && Replies(h, c) <= c ensures h[i] in RecentUntil(h, h[a].id, c * 2) {
      InWindow(h, a, c * 2, i);
    }
  }

  // At most one other message follows each user turn before the next.
  ghost predicate Disciplined(h: seq<Message>) {
    forall i | 0 <= i && i + 2 < |h| && h[i].role == User :: h[i + 1].role == User || h[i + 2].role == User
  }

  lemma DisciplinedTail(h: seq<Message>)
    requires Disciplined(h) && h != []
    ensures Disciplined(h[..|h| - 1])
  {
    var init := h[..|h| - 1];
    forall i | 0 <= i && i + 2 < |init| && init[i].role == User
      ensures init[i + 1].role == User || init[i + 2].role == User
    {
      assert h[i].role == User;
    }
  }

  lemma RepliesOfFront(h: seq<Message>, c: nat)
    requires 0 < c <= Users(h)
    ensures var init := h[..|h| - 1];
      if h[|h| - 1].role == User then c - 1 <= Users(init) && Replies(h, c) == Replies(init, c - 1)
      else c <= Users(init) && Replies(h, c) == Replies(init, c) + 1
  {
  }

  // In a disciplined history the last c turns bring at most c replies, and at most c - 1 if the last message
  // is itself a user turn.
  lemma {:induction false} DisciplineBoundsReplies(h: seq<Message>, c: nat)
    requires Disciplined(h) && 0 < c <= Users(h)
    ensures Replies(h, c) <= if h[|h| - 1].role == User then c - 1 else c
  {
    var init := h[..|h| - 1];
    DisciplinedTail(h);
    RepliesOfFront(h, c);
    if h[|h| - 1].role == User {
      if c > 1 {
        DisciplineBoundsReplies(init, c - 1);
      }
    } else {
      DisciplineBoundsReplies(init, c);
      if |init| >= 2 && init[|init| - 1].role != User {
        SinceCounts(init, c);
        assert h[Since(init, c)] == init[Since(init, c)];
        DisciplineEndsInUser(h, Since(init, c));
      }
    }
  }

  // Two other messages at the end of a disciplined history: no user turn before them.
  lemma {:induction false} DisciplineEndsInUser(h: seq<Message>, q: nat)
    requires Disciplined(h) && |h| >= 2 && h[|h| - 1].role != User && h[|h| - 2].role != User
    requires q < |h| && h[q].role == User
    ensures false
  {
    if |h| == 2 {
      assert false;
    } else if h[|h| - 3].role == User {
      assert false;
    } else {
      DisciplinedTail(h);
      DisciplineEndsInUser(h[..|h| - 1], q);
    }
  }

  /* ---- Whole runs ---- */

  // Every user turn lies in a published window, or is one of the last `count`.
  ghost predicate Covered(s: Session) {
    s.count <= Users(s.h) && forall i | 0 <= i < |s.h| && s.h[i].role == User ::
      i >= Since(s.h, s.count) || InSomeWindow(s, i)
  }

  ghost predicate InSomeWindow(s: Session, i: nat)
    requires i < |s.h|
  {
    exists k :: 0 <= k < |s.published| && s.h[i] in RecentUntil(s.h, s.published[k].anchor, s.published[k].size)
  }

  // Accepted user turns are the published ones and the pending ones; every anchor is a message of the session.
  ghost predicate Balanced(s: Session) {
    && 2 * Users(s.h) == Counted(s.published) + 2 * s.count
    && s.count <= Users(s.h)
    && (forall k | 0 <= k < |s.published| :: HasId(s.h, s.published[k].anchor))
  }

  lemma AppendGrows(h: seq<Message>, m: Message, id: nat)
    ensures Users(h + [m]) == Users(h) + (if m.role == User then 1 else 0)
    ensures HasId(h, id) ==> HasId(h + [m], id)
  {
    UsersSnoc(h, m);
    if HasId(h, id) {
      var i :| 0 <= i < |h| && h[i].id == id;
      assert (h + [m])[i].id == id;
    }
  }

  lemma PublishBalances(s: Session)
    requires Balanced(s) && s.h != []
    ensures Balanced(Publish(s))
  {
    var s' := Publish(s);
    assert s'.published[..|s.published|] == s.published;
    assert s'.h[|s'.h| - 1].id == s'.published[|s.published|].anchor;
  }

  lemma AppendBalances(s: Session, m: Message)
    requires Balanced(s)
    ensures Balanced(Counting(s, m))
  {
    AppendGrows(s.h, m, 0);
    forall k | 0 <= k < |s.published| ensures HasId(s.h + [m], s.published[k].anchor) {
      AppendGrows(s.h, m, s.published[k].anchor);
    }
  }

  lemma StepBalances(limit: nat, s: Session, e: Event)
    requires Balanced(s)
    ensures Balanced(Step(limit, s, e))
  {
    match e
    case Append(m) =>
      AppendBalances(s, m);
      PublishBalances(Counting(s, m));
    case Flush =>
      if s.h != [] {
        PublishBalances(s);
      }
  }

  /** Flush bookkeeping over every run, disciplined or not: accepted user turns are the published counts plus
      the pending counter. */
  lemma {:induction false} NoTurnLeftUncounted(limit: nat, events: seq<Event>)
    ensures Balanced(After(limit, events))
    ensures After(limit, events).count > 0 ==> After(limit, events).h != []
  {
    if events != [] {
      NoTurnLeftUncounted(limit, events[..|events| - 1]);
      StepBalances(limit, After(limit, events[..|events| - 1]), events[|events| - 1]);
    }
    UsersAtMost(After(limit, events).h);
  }

  /* ---- When a batch is published ---- */

  /** An append publishes exactly when it is a user turn that brings the counter to the limit: twice the counter, at
      this message, and the counter starts again. */
  lemma AppendPublishesIff(limit: nat, s: Session, m: Message)
    ensures var s' := Step(limit, s, Append(m));
      && s'.h == s.h + [m]
      && (if m.role == User && s.count + 1 >= limit
          then s'.count == 0 && s'.published == s.published + [Batch(2 * (s.count + 1), m.id)]
          else s'.published == s.published && s'.count == s.count + if m.role == User then 1 else 0)
  {
  }

  /** A flush publishes exactly what is pending, at the newest message. */
  lemma FlushPublishesIff(limit: nat, s: Session)
    ensures var s' := Step(limit, s, Flush);
      if s.count > 0 && s.h != []
      then s' == Session(s.h, 0, s.published + [Batch(2 * s.count, s.h[|s.h| - 1].id)])
      else s' == s
  {
  }

  /** The counter never stays at the limit. */
  lemma {:induction false} CounterStaysBelow(limit: nat, events: seq<Event>)
    requires limit >= 1
    ensures After(limit, events).count < limit
  {
    if events != [] {
      CounterStaysBelow(limit, events[..|events| - 1]);
      var s, e := After(limit, events[..|events| - 1]), events[|events| - 1];
      match e
      case Append(m) => AppendPublishesIff(limit, s, m);
      case Flush => FlushPublishesIff(limit, s);
    }
  }

  // The k-th batch is full, and anchored at the user turn that filled it.
  ghost predicate FullBatch(limit: nat, h: seq<Message>, b: Batch, k: nat) {
    && b.size == 2 * limit
    && exists a :: 0 <= a < |h| && h[a] == Message(b.anchor, User) && Users(h[..a + 1]) == limit * (k + 1)
  }

  lemma FullBatchStays(limit: nat, h: seq<Message>, m: Message, b: Batch, k: nat)
    requires FullBatch(limit, h, b, k)
    ensures FullBatch(limit, h + [m], b, k)
  {
    var a :| 0 <= a < |h| && h[a] == Message(b.anchor, User) && Users(h[..a + 1]) == limit * (k + 1);
    assert (h + [m])[..a + 1] == h[..a + 1];
  }

  // Without flushes: so many full batches, and a remainder below the limit.
  ghost predicate InBatches(limit: nat, s: Session) {
    && Users(s.h) == limit * |s.published| + s.count && s.count < limit
    && forall k | 0 <= k < |s.published| :: FullBatch(limit, s.h, s.published[k], k)
  }

  lemma {:induction false} AppendInBatches(limit: nat, s: Session, m: Message)
    requires InBatches(limit, s)
    ensures InBatches(limit, Step(limit, s, Append(m)))
  {
    var s' := Step(limit, s, Append(m));
    AppendPublishesIff(limit, s, m);
    UsersSnoc(s.h, m);
    forall k | 0 <= k < |s.published| ensures FullBatch(limit, s'.h, s'.published[k], k) {
      FullBatchStays(limit, s.h, m, s.published[k], k);
    }
    if m.role == User && s.count + 1 >= limit {
      var n := |s.published|;
      assert s'.h[..|s.h| + 1] == s'.h && s'.h[|s.h|] == m;
      assert limit * (n + 1) == limit * n + limit;
      assert FullBatch(limit, s'.h, s'.published[n], n);
    }
  }

  /** Without flushes the user turns are published in batches of exactly `limit`, each anchored at the turn that fills
      it, and the counter holds the remainder. */
  lemma {:induction false} TurnsComeInBatches(limit: nat, events: seq<Event>)
    requires limit >= 1 && Flush !in events
    ensures InBatches(limit, After(limit, events))
  {
    if events != [] {
      var init, e := events[..|events| - 1], events[|events| - 1];
      assert e in events;
      assert forall x | x in init :: x in events;
      TurnsComeInBatches(limit, init);
      AppendInBatches(limit, After(limit, init), e.m);
    }
  }

  // The history only grows, and a covered turn stays covered.
  lemma CoverageSurvives(s: Session, m: Message, i: nat)
    requires DistinctIds(s.h + [m]) && Balanced(s) && i < |s.h| && InSomeWindow(s, i)
    ensures InSomeWindow(s.(h := s.h + [m]), i)
  {
    var k :| 0 <= k < |s.published| && s.h[i] in RecentUntil(s.h, s.published[k].anchor, s.published[k].size);
    var a :| 0 <= a < |s.h| && s.h[a].id == s.published[k].anchor;
    WindowIsStable(s.h, [m], a, s.published[k].size);
    assert (s.h + [m])[i] == s.h[i];
  }

  lemma PublishCovers(s: Session)
    requires DistinctIds(s.h) && Disciplined(s.h) && Balanced(s) && Covered(s) && s.count > 0 && s.h != []
    ensures Covered(Publish(s))
  {
    var s' := Publish(s);
    DisciplineBoundsReplies(s.h, s.count);
    BatchHoldsItsTurnsIff(s.h, s.count);
    forall i | 0 <= i < |s.h| && s.h[i].role == User ensures InSomeWindow(s', i) {
      if i >= Since(s.h, s.count) {
        assert s'.published[|s.published|] == Batch(s.count * 2, s.h[|s.h| - 1].id);
      } else {
        StaysInWindow(s, i);
      }
    }
  }

  // Publishing adds windows and takes none away.
  lemma StaysInWindow(s: Session, i: nat)
    requires s.h != [] && i < |s.h| && InSomeWindow(s, i)
    ensures InSomeWindow(Publish(s), i)
  {
    var k :| 0 <= k < |s.published| && s.h[i] in RecentUntil(s.h, s.published[k].anchor, s.published[k].size);
    assert Publish(s).published[k] == s.published[k];
  }

  lemma AppendCovers(s: Session, m: Message)
    requires DistinctIds(s.h + [m]) && Balanced(s) && Covered(s)
    ensures Balanced(Counting(s, m)) && Covered(Counting(s, m))
  {
    var s' := Counting(s, m);
    AppendBalances(s, m);
    assert s'.h[..|s.h|] == s.h;
    forall i | 0 <= i < |s'.h| && s'.h[i].role == User ensures i >= Since(s'.h, s'.count) || InSomeWindow(s', i) {
      if i < |s.h| && i < Since(s.h, s.count) {
        assert s.h[i] == s'.h[i];
        CoverageSurvives(s, m, i);
        CountDoesNotMatter(s.(h := s.h + [m]), s', i);
      }
    }
  }

  lemma CountDoesNotMatter(s: Session, s': Session, i: nat)
    requires s.h == s'.h && s.published == s'.published && i < |s.h| && InSomeWindow(s, i)
    ensures InSomeWindow(s', i)
  {
  }

  lemma StepCovers(limit: nat, s: Session, e: Event)
    requires DistinctIds(Step(limit, s, e).h) && Disciplined(Step(limit, s, e).h) && Balanced(s) && Covered(s)
    ensures Covered(Step(limit, s, e))
  {
    match e
    case Append(m) =>
      AppendCovers(s, m);
      if m.role == User && s.count + 1 >= limit {
        PublishCovers(Counting(s, m));
      }
    case Flush =>
      if s.count > 0 && s.h != [] {
        PublishCovers(s);
      }
  }

  lemma StepExtends(limit: nat, s: Session, e: Event)
    requires DistinctIds(Step(limit, s, e).h) && Disciplined(Step(limit, s, e).h)
    ensures DistinctIds(s.h) && Disciplined(s.h)
  {
    if e.Append? {
      var h := s.h + [e.m];
      assert Step(limit, s, e).h == h;
      assert h[..|h| - 1] == s.h;
      DisciplinedTail(h);
      forall i, j | 0 <= i < j < |s.h| ensures s.h[i].id != s.h[j].id {
        assert h[i].id != h[j].id;
      }
    }
  }

  /** Whole-run coverage. In any interleaving of user turns, other messages and flushes whose history is
      disciplined, no user turn escapes: each lies in the window of a published batch, or is one of the last
      `count` user turns, still pending. */
  lemma {:induction false} EveryTurnCovered(limit: nat, events: seq<Event>)
    requires DistinctIds(After(limit, events).h) && Disciplined(After(limit, events).h)
    ensures var s := After(limit, events);
      Balanced(s) && forall i | 0 <= i < |s.h| && s.h[i].role == User ::
        Users(s.h[i..]) <= s.count || InSomeWindow(s, i)
    ensures Covered(After(limit, events))
  {
    var s := After(limit, events);
    NoTurnLeftUncounted(limit, events);
    if events != [] {
      var before := After(limit, events[..|events| - 1]);
      StepExtends(limit, before, events[|events| - 1]);
      EveryTurnCovered(limit, events[..|events| - 1]);
      StepCovers(limit, before, events[|events| - 1]);
    }
    forall i | 0 <= i < |s.h| && s.h[i].role == User ensures Users(s.h[i..]) <= s.count || InSomeWindow(s, i) {
      SinceIff(s.h, s.count, i);
    }
  }

  /** Without the discipline a turn can escape: a user turn, two replies, and a flush publish a window of two
      messages that ends past the turn, and nothing is pending any more. */
  lemma {:induction false} UndisciplinedTurnEscapes(limit: nat)
    requires limit >= 2
    ensures var s := After(limit,
        [Append(Message(0, User)), Append(Message(1, Assistant)), Append(Message(2, Assistant)), Flush]);
      DistinctIds(s.h) && s.count == 0 && |s.h| == 3 && s.h[0].role == User && !InSomeWindow(s, 0)
  {
    var e := [Append(Message(0, User)), Append(Message(1, Assistant)), Append(Message(2, Assistant)), Flush];
    assert e[..3] == [e[0], e[1], e[2]] && e[..3][..2] == [e[0], e[1]] && e[..3][..2][..1] == [e[0]];
    assert After(limit, [e[0]]) == Session([e[0].m], 1, []) by {
      assert [e[0]][..0] == [];
    }
    assert After(limit, [e[0], e[1]]) == Session([e[0].m, e[1].m], 1, []);
    assert After(limit, e[..3]) == Session([e[0].m, e[1].m, e[2].m], 1, []);
    var s := After(limit, e);
    assert s == Session([e[0].m, e[1].m, e[2].m], 0, [Batch(2, 2)]);
    InWindow(s.h, 2, 2, 0);
  }
}
