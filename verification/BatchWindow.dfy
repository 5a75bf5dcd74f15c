/** End to end: what the cognitive worker reads for a published batch, from the cache or from the table, and
    which of the user turns the batch counted it finds there. */
module BatchWindow {
  import opened History
  import opened Batching
  import opened MessageCache

  // The worker tries the cache and falls back to the query when it gets nothing.
  function WorkerRead(list: seq<Message>, h: seq<Message>, anchor: nat, count: nat): seq<Message> {
    var cached := ReadUntil(list, anchor, count);
    if cached != [] then cached else RecentUntil(h, anchor, count)
  }

  // The history h when the worker reads is `pub` at publication, followed by later messages. The batch counted
  // c user turns and is anchored at the last message of `pub`.
  ghost predicate FindsEveryTurn(list: seq<Message>, pub: seq<Message>, later: seq<Message>, c: nat)
    requires 0 < c <= Users(pub) && pub != []
  {
    forall i | Since(pub, c) <= i < |pub| && pub[i].role == User ::
      pub[i] in WorkerRead(list, pub + later, pub[|pub| - 1].id, c * 2)
  }

  // How many entries below the anchor the oldest counted turn lies.
  function Depth(h: seq<Message>, c: nat): int
    requires c <= Users(h)
  {
    |h| - 1 - Since(h, c)
  }

  // One more when a doubled message lies strictly between the anchor and that turn.
  function CachedDepth(h: seq<Message>, c: nat, shape: Shape, p: nat): int
    requires c <= Users(h)
  {
    Depth(h, c) + if shape.Doubled? && p < shape.j < p + Depth(h, c) then 1 else 0
  }

  // Where an entry of the window ends up once a message is doubled.
  lemma DoubledPosition(w: seq<Message>, j: nat, r: nat, m: nat)
    requires DistinctIds(w) && j < |w| && r < |w|
    ensures w[r] in Take(m, DoubleAt(w, j)) <==> r + (if j < r then 1 else 0) < m
  {
    var d := DoubleAt(w, j);
    var first := r + if j < r then 1 else 0;
    assert d[first] == w[r];
    if first < m {
      assert Take(m, d)[first] == w[r];
    } else {
      forall k | 0 <= k < m && k <= |w| ensures d[k] != w[r] {
        var source := if k <= j then k else k - 1;
        assert d[k] == w[source];
        assert source < r;
        assert w[source].id != w[r].id;
      }
    }
  }

  lemma PlainPosition(w: seq<Message>, r: nat, m: nat)
    requires DistinctIds(w) && r < |w|
    ensures w[r] in Take(m, w) <==> r < m
  {
    if r < m {
      assert Take(m, w)[r] == w[r];
    } else {
      forall k | 0 <= k < m && k < |w| ensures w[k] != w[r] {
        assert w[k].id != w[r].id;
      }
    }
  }

  lemma PartialPosition(w: seq<Message>, k: nat, r: nat, m: nat)
    requires DistinctIds(w) && r < |w| && k <= |w| && m <= k
    ensures w[r] in Take(m, w[..k]) <==> r < m
  {
    assert Take(m, w[..k]) == Take(m, w);
    PlainPosition(w, r, m);
  }

  // Whether the entry r below the anchor is in a cached read cut at m.
  lemma InCachedWindow(n: seq<Message>, shape: Shape, p: nat, r: nat, m: nat)
    requires DistinctIds(n) && Fits(n, shape) && p < |n| && p + r < |n| && m <= |FromAnchor(n, shape, p)|
    ensures n[p + r] in Take(m, FromAnchor(n, shape, p)) <==>
      r + (if shape.Doubled? && p < shape.j < p + r then 1 else 0) < m
  {
    if shape.Doubled? {
      InDoubledWindow(n, shape.j, p, r, m);
    } else {
      InPartialWindow(n, shape.k, p, r, m);
    }
  }

  lemma InDoubledWindow(n: seq<Message>, j: nat, p: nat, r: nat, m: nat)
    requires DistinctIds(n) && j < |n| && p < |n| && p + r < |n|
    ensures n[p + r] in Take(m, FromAnchor(n, Doubled(j), p)) <==> r + (if p < j < p + r then 1 else 0) < m
  {
    var w := n[p..];
    assert w[r] == n[p + r];
    assert DistinctIds(w) by { DistinctTail(n, p); }
    if j <= p {
      PlainPosition(w, r, m);
    } else {
      DoubledPosition(w, j - p, r, m);
    }
  }

  lemma InPartialWindow(n: seq<Message>, k: nat, p: nat, r: nat, m: nat)
    requires DistinctIds(n) && 0 < k <= |n| && p < |n| && p + r < |n| && m <= |FromAnchor(n, Partial(k), p)|
    ensures n[p + r] in Take(m, FromAnchor(n, Partial(k), p)) <==> r < m
  {
    var w := n[p..];
    assert w[r] == n[p + r];
    if k > p {
      assert n[p..k] == w[..k - p];
      assert DistinctIds(w) by { DistinctTail(n, p); }
      PartialPosition(w, k - p, r, m);
    }
  }

  lemma {:induction false} InCachedRead(list: seq<Message>, n: seq<Message>, shape: Shape, p: nat, r: nat, count: nat)
    requires DistinctIds(n) && p + r < |n| && Mirrors(list, n, shape) && Reach(n, shape, p) > 0 && count > 0
    ensures ReadUntil(list, n[p].id, count) != []
    ensures n[p + r] in ReadUntil(list, n[p].id, count) <==>
      r + (if shape.Doubled? && p < shape.j < p + r then 1 else 0) < Min(count, Reach(n, shape, p))
  {
    AnchoredRead(list, n, shape, p, count);
    FromSlot(list, n, shape, p);
    InCachedWindow(n, shape, p, r, Min(count, Reach(n, shape, p)));
  }

  // The same, for turn i of a batch.
  lemma {:induction false} TurnInCachedRead(list: seq<Message>, pub: seq<Message>, later: seq<Message>, shape: Shape,
                                            c: nat, i: nat)
    requires DistinctIds(pub + later) && i < |pub|
    requires Mirrors(list, Newest(pub + later), shape) && Reach(Newest(pub + later), shape, |later|) > 0 && c > 0
    ensures pub[i] in WorkerRead(list, pub + later, pub[|pub| - 1].id, c * 2) <==>
      |pub| - 1 - i + (if shape.Doubled? && |later| < shape.j < |later| + |pub| - 1 - i then 1 else 0)
        < Min(c * 2, Reach(Newest(pub + later), shape, |later|))
  {
    var n, p, r := Newest(pub + later), |later|, |pub| - 1 - i;
    assert n[p] == pub[|pub| - 1] && n[p + r] == pub[i];
    NewestDistinct(pub + later);
    InCachedRead(list, n, shape, p, r, c * 2);
  }

  /** What the worker finds. From the cache it finds every turn the batch counted exactly when the oldest one,
      pushed one entry down by a doubled message between it and the anchor, still lies within both the window and
      the list. */
  lemma {:induction false} CachedReadFindsTurnsIff(list: seq<Message>, pub: seq<Message>, later: seq<Message>,
                                                   shape: Shape, c: nat)
    requires DistinctIds(pub + later) && pub != [] && 0 < c <= Users(pub)
    requires Mirrors(list, Newest(pub + later), shape) && Reach(Newest(pub + later), shape, |later|) > 0
    ensures FindsEveryTurn(list, pub, later, c) <==>
      CachedDepth(pub, c, shape, |later|) < Min(c * 2, Reach(Newest(pub + later), shape, |later|))
  {
    var q := Since(pub, c);
    SinceCounts(pub, c);
    forall i | q <= i < |pub| {
      TurnInCachedRead(list, pub, later, shape, c, i);
    }
    TurnInCachedRead(list, pub, later, shape, c, q);
  }

  /** From the table it finds them exactly when the batch's own window holds them. */
  lemma TableReadFindsTurnsIff(list: seq<Message>, pub: seq<Message>, later: seq<Message>, shape: Shape, c: nat)
    requires DistinctIds(pub + later) && pub != [] && 0 < c <= Users(pub)
    requires list == [] ||
      (Mirrors(list, Newest(pub + later), shape) && Reach(Newest(pub + later), shape, |later|) <= 0)
    ensures FindsEveryTurn(list, pub, later, c) <==> Replies(pub, c) <= c
  {
    TableRead(list, pub, later, shape, c * 2);
    DistinctPrefix(pub, later);
    BatchHoldsItsTurnsIff(pub, c);
  }

  // A cache that does not list the anchor leaves the worker the window as it was at publication.
  lemma TableRead(list: seq<Message>, pub: seq<Message>, later: seq<Message>, shape: Shape, count: nat)
    requires DistinctIds(pub + later) && pub != []
    requires list == [] ||
      (Mirrors(list, Newest(pub + later), shape) && Reach(Newest(pub + later), shape, |later|) <= 0)
    ensures WorkerRead(list, pub + later, pub[|pub| - 1].id, count) == RecentUntil(pub, pub[|pub| - 1].id, count)
  {
    NothingCached(list, pub, later, shape, count);
    WindowIsStable(pub, later, |pub| - 1, count);
  }

  lemma NothingCached(list: seq<Message>, pub: seq<Message>, later: seq<Message>, shape: Shape, count: nat)
    requires DistinctIds(pub + later) && pub != []
    requires list == [] ||
      (Mirrors(list, Newest(pub + later), shape) && Reach(Newest(pub + later), shape, |later|) <= 0)
    ensures ReadUntil(list, pub[|pub| - 1].id, count) == []
  {
    if list != [] {
      NewestDistinct(pub + later);
      assert Newest(pub + later)[|later|] == pub[|pub| - 1];
      AnchoredRead(list, Newest(pub + later), shape, |later|, count);
    }
  }

  // The anchor was trimmed, or the window of c turns ends within the list's fifty places. A list that was loaded
  // without the table must hold the whole window.
  predicate InReach(n: seq<Message>, shape: Shape, p: nat, c: nat)
    requires Fits(n, shape)
  {
    || Reach(n, shape, p) <= 0
    || (if shape.Doubled? then AnchorSlot(shape, p) + c * 2 <= WINDOW else c * 2 <= Reach(n, shape, p))
  }

  /** A batch triggered by a user turn in a disciplined history: if twice the count and the entries ahead of the
      anchor fit the list, or the list has lost the anchor, the worker finds every counted turn, double or no
      double. */
  lemma UserTriggeredBatchIsSafe(list: seq<Message>, pub: seq<Message>, later: seq<Message>, shape: Shape, c: nat)
    requires DistinctIds(pub + later) && pub != [] && 0 < c <= Users(pub)
    requires Disciplined(pub) && pub[|pub| - 1].role == User
    requires list != [] ==> Mirrors(list, Newest(pub + later), shape) && InReach(Newest(pub + later), shape, |later|, c)
    ensures FindsEveryTurn(list, pub, later, c)
  {
    DisciplineBoundsReplies(pub, c);
    FoundInReach(list, pub, later, shape, c);
  }

  // In reach, it is enough that the turns and the double between them, if any, fit the window.
  lemma FoundInReach(list: seq<Message>, pub: seq<Message>, later: seq<Message>, shape: Shape, c: nat)
    requires DistinctIds(pub + later) && pub != [] && 0 < c <= Users(pub) && Replies(pub, c) <= c
    requires list != [] ==> Mirrors(list, Newest(pub + later), shape) && InReach(Newest(pub + later), shape, |later|, c)
    requires list != [] ==> CachedDepth(pub, c, shape, |later|) < c * 2
    ensures FindsEveryTurn(list, pub, later, c)
  {
    if list != [] && Reach(Newest(pub + later), shape, |later|) > 0 {
      CachedReadFindsTurnsIff(list, pub, later, shape, c);
      DepthIsInReach(pub, later, shape, c);
    } else {
      TableReadFindsTurnsIff(list, pub, later, shape, c);
    }
  }

  lemma DepthIsInReach(pub: seq<Message>, later: seq<Message>, shape: Shape, c: nat)
    requires pub != [] && 0 < c <= Users(pub) && CachedDepth(pub, c, shape, |later|) < c * 2
    requires Fits(Newest(pub + later), shape) && Reach(Newest(pub + later), shape, |later|) > 0
    requires InReach(Newest(pub + later), shape, |later|, c)
    ensures CachedDepth(pub, c, shape, |later|) < Min(c * 2, Reach(Newest(pub + later), shape, |later|))
  {
    if shape.Doubled? && |pub + later| + 1 <= WINDOW {
      ShortListsHoldAll(pub, later, shape, c);
    }
  }

  // An untrimmed list holds the whole history.
  lemma ShortListsHoldAll(pub: seq<Message>, later: seq<Message>, shape: Shape, c: nat)
    requires pub != [] && c <= Users(pub) && shape.Doubled? && Fits(Newest(pub + later), shape)
    requires |pub + later| + 1 <= WINDOW
    ensures CachedDepth(pub, c, shape, |later|) < Reach(Newest(pub + later), shape, |later|)
  {
  }
}
