/** The Redis list that caches the newest messages of a session, against the message table it speeds up. */
module MessageCache {
  import opened History
  import opened Wrappers
  import Pagination

  const WINDOW := 50

  /* ---- The list and its commands; an absent key is the empty list ---- */

  // AppendMessages: push onto a live list, or reload an absent one from the table and push on top of that.
  function Appended(list: seq<Message>, h: seq<Message>, dbOk: bool, msgs: seq<Message>): seq<Message> {
    var below := if list != [] then list else if dbOk then Take(WINDOW, Newest(h)) else [];
    Take(WINDOW, Newest(msgs) + below)
  }

  // The last position of a message in the list.
  function LastIndex(list: seq<Message>, id: nat): (k: int)
    ensures -1 <= k < |list|
    ensures k >= 0 ==> list[k].id == id
    ensures forall i {:trigger list[i].id} | k < i < |list| :: list[i].id != id
  {
    if list == [] then -1
    else if list[|list| - 1].id == id then |list| - 1
    else LastIndex(list[..|list| - 1], id)
  }

  // The anchored read: the anchor and up to count - 1 entries after it, or nothing when it is not listed.
  function ReadUntil(list: seq<Message>, anchor: nat, count: nat): seq<Message> {
    var k := LastIndex(list, anchor);
    if k < 0 then [] else Take(count, list[k..])
  }

  // The read without an anchor: the list's newest entries, all of them for a count of zero, or a page of the table.
  function ReadNewest(list: seq<Message>, h: seq<Message>, count: nat): seq<Message> {
    if list == [] then Take(Pagination.PageSize(count), Newest(h))
    else if count == 0 then list
    else Take(count, list)
  }

  // LPUSH, one message at a time.
  method PushEach(below: seq<Message>, msgs: seq<Message>) returns (next: seq<Message>)
    ensures next == Newest(msgs) + below
  {
    next := below;
    var j := 0;
    while j < |msgs|
      invariant j <= |msgs| && next == Newest(msgs[..j]) + below
    {
      assert Newest(msgs[..j + 1]) == [msgs[j]] + Newest(msgs[..j]);
      next := [msgs[j]] + next;
      j := j + 1;
    }
    assert msgs[..j] == msgs;
  }

  // RPUSH onto an absent list, one message at a time.
  method RestoreEach(existing: seq<Message>) returns (next: seq<Message>)
    ensures next == existing
  {
    next := [];
    var i := 0;
    while i < |existing|
      invariant i <= |existing| && next == existing[..i]
    {
      next := next + [existing[i]];
      i := i + 1;
    }
  }

  class Cache {
    var list: seq<Message>

    constructor ()
      ensures list == []
    {
      list := [];
    }

    // The key expires, or Redis restarts.
    method Expire()
      modifies this
      ensures list == []
    {
      list := [];
    }

    // `h` is the session's table, which already holds `msgs`; `dbOk` says whether a reload can read it.
    method AppendMessages(h: seq<Message>, dbOk: bool, msgs: seq<Message>)
      modifies this
      ensures list == Appended(old(list), h, dbOk, msgs)
      ensures old(list) != [] ==> list == Take(50, Newest(msgs) + old(list))
      ensures old(list) == [] ==> list == Take(50, Newest(msgs) + if dbOk then Take(50, Newest(h)) else [])
    {
      var next := list;
      if list == [] {
        var existing := if dbOk then Take(WINDOW, Newest(h)) else [];
        next := RestoreEach(existing);
      }
      next := PushEach(next, msgs);
      list := Take(WINDOW, next); // LTRIM 0 49
    }

    // LRANGE 0 count - 1, where -1 stands for the last entry.
    method GetRawMessages(h: seq<Message>, count: nat) returns (r: seq<Message>)
      ensures r == ReadNewest(list, h, count)
      ensures list != [] && count == 0 ==> r == list
      ensures list != [] && count > 0 ==> |r| == Min(count, |list|) && forall i | 0 <= i < |r| :: r[i] == list[i]
      ensures list == [] ==>
        && |r| == Min(if 0 < count <= 100 then count else 50, |h|)
        && forall i | 0 <= i < |r| :: r[i] == h[|h| - 1 - i]
    {
      var stop := if count as int - 1 < 0 then |list| else count;
      r := list[..if stop < |list| then stop else |list|];
      if |r| == 0 {
        r := Take(Pagination.PageSize(count), Newest(h));
      }
    }

    // The scan keeps overwriting the anchor index, so the last occurrence wins.
    method GetRawMessagesUntil(h: seq<Message>, anchorId: Option<nat>, count: nat) returns (r: seq<Message>)
      requires |list| <= WINDOW
      ensures r == if anchorId.None? then ReadNewest(list, h, count) else ReadUntil(list, anchorId.value, count)
      ensures anchorId.Some? ==> FromLast(list, anchorId.value, count, r)
    {
      if anchorId.None? {
        r := GetRawMessages(h, count);
        return;
      }
      var anchor := anchorId.value;
      var all: seq<Message> := [];
      var anchorIdx := -1;
      var i := 0;
      while i < |list|
        invariant i <= |list| && all == list[..i]
        invariant anchorIdx == LastIndex(list[..i], anchor)
      {
        assert list[..i + 1][..i] == list[..i];
        if list[i].id == anchor {
          anchorIdx := |all|;
        }
        all := all + [list[i]];
        i := i + 1;
      }
      assert all == list;
      if anchorIdx < 0 {
        SliceFromLast(list, anchor, count, []);
        return [];
      }
      var end := anchorIdx + count;
      if end > |all| {
        end := |all|;
      }
      r := all[anchorIdx..end];
      SliceFromLast(list, anchor, count, r);
    }
  }

  // The entries from the last occurrence of the anchor on, at most `count`; none if there is no occurrence.
  ghost predicate FromLast(list: seq<Message>, anchor: nat, count: nat, r: seq<Message>) {
    if exists i :: 0 <= i < |list| && list[i].id == anchor then
      exists k ::
        IsLast(list, anchor, k) && |r| == Min(count, |list| - k) && forall i | 0 <= i < |r| :: r[i] == list[k + i]
    else r == []
  }

  predicate IsLast(list: seq<Message>, anchor: nat, k: int) {
    0 <= k < |list| && list[k].id == anchor && forall i | k < i < |list| :: list[i].id != anchor
  }

  lemma {:induction false} SliceFromLast(list: seq<Message>, anchor: nat, count: nat, r: seq<Message>)
    requires var k := LastIndex(list, anchor); r == if k < 0 then [] else list[k..Min(k + count, |list|)]
    ensures FromLast(list, anchor, count, r)
  {
    var k := LastIndex(list, anchor);
    if k < 0 {
      assert forall i | 0 <= i < |list| :: list[i].id != anchor;
    } else {
      assert IsLast(list, anchor, k);
    }
  }

  /* ---- What a live list holds ---- */

  // The sequence with its element at j repeated.
  function DoubleAt(s: seq<Message>, j: nat): (d: seq<Message>)
    requires j < |s|
    ensures |d| == |s| + 1
    ensures forall i {:trigger d[i]} | 0 <= i <= |s| :: d[i] == if i <= j then s[i] else s[i - 1]
  {
    seq(|s| + 1, i requires 0 <= i <= |s| => if i <= j then s[i] else s[i - 1])
  }

  // A list loaded by a successful reload has one message doubled, j messages from the newest. A list loaded
  // when the table could not be read holds the newest k messages only.
  datatype Shape = Doubled(j: nat) | Partial(k: nat)

  // Below, `n` is a history newest first.
  predicate Fits(n: seq<Message>, shape: Shape) {
    match shape
    case Doubled(j) => j < |n|
    case Partial(k) => 0 < k <= |n|
  }

  // The list before trimming.
  function Untrimmed(n: seq<Message>, shape: Shape): seq<Message>
    requires Fits(n, shape)
  {
    match shape
    case Doubled(j) => DoubleAt(n, j)
    case Partial(k) => n[..k]
  }

  ghost predicate Mirrors(list: seq<Message>, n: seq<Message>, shape: Shape) {
    Fits(n, shape) && list == Take(WINDOW, Untrimmed(n, shape))
  }

  // A push onto a live list shifts the shape.
  function Shifted(shape: Shape, steps: nat): Shape {
    match shape
    case Doubled(j) => Doubled(j + steps)
    case Partial(k) => Partial(k + steps)
  }

  // A push onto an absent one starts it anew.
  function NextShape(list: seq<Message>, shape: Shape, dbOk: bool): Shape {
    if list != [] then Shifted(shape, 1) else if dbOk then Doubled(0) else Partial(1)
  }

  lemma TakePush(m: Message, s: seq<Message>)
    ensures Take(WINDOW, [m] + Take(WINDOW, s)) == Take(WINDOW, [m] + s)
  {
  }

  lemma NewestPush(h: seq<Message>, m: Message)
    ensures Newest(h + [m]) == [m] + Newest(h)
  {
  }

  lemma UntrimmedPush(n: seq<Message>, m: Message, shape: Shape)
    requires Fits(n, shape)
    ensures Fits([m] + n, Shifted(shape, 1))
    ensures Untrimmed([m] + n, Shifted(shape, 1)) == [m] + Untrimmed(n, shape)
  {
    if shape.Doubled? {
      var pushed := [m] + n;
      var d := DoubleAt(pushed, shape.j + 1);
      forall i | 0 < i < |d| ensures d[i] == DoubleAt(n, shape.j)[i - 1] {
        assert i <= |n| ==> pushed[i] == n[i - 1];
      }
    }
  }

  /** The cache step. A message is inserted in the table before it is pushed, so a cold push reads it back and
      pushes it again: the newest message is doubled. Every warm push moves the doubled message one down. */
  lemma AppendKeepsMirror(list: seq<Message>, h: seq<Message>, shape: Shape, dbOk: bool, m: Message)
    requires list != [] ==> Mirrors(list, Newest(h), shape)
    ensures Mirrors(Appended(list, h + [m], dbOk, [m]), Newest(h + [m]), NextShape(list, shape, dbOk))
  {
    var n := Newest(h);
    NewestPush(h, m);
    assert Newest([m]) == [m];
    if list != [] {
      UntrimmedPush(n, m, shape);
      TakePush(m, Untrimmed(n, shape));
    } else if dbOk {
      TakePush(m, [m] + n);
      assert DoubleAt([m] + n, 0) == [m] + ([m] + n);
    } else {
      assert ([m] + n)[..1] == [m];
    }
  }

  /* ---- Whole runs ---- */

  datatype CacheEvent = Append(m: Message, dbOk: bool) | Expire

  datatype Mirrored = Mirrored(h: seq<Message>, list: seq<Message>, shape: Shape)

  function CacheStep(c: Mirrored, e: CacheEvent): Mirrored {
    match e
    case Append(m, dbOk) =>
      Mirrored(c.h + [m], Appended(c.list, c.h + [m], dbOk, [m]), NextShape(c.list, c.shape, dbOk))
    case Expire => c.(list := [])
  }

  function CacheRun(events: seq<CacheEvent>): Mirrored {
    if events == [] then Mirrored([], [], Doubled(0))
    else CacheStep(CacheRun(events[..|events| - 1]), events[|events| - 1])
  }

  /** The cache invariant over every run of appends, expiries and reloads: a live list is the first fifty of the
      newest-first history with exactly one position doubled, or, after a reload that could not read the table,
      the first fifty of its newest k messages. */
  lemma {:induction false} CacheMirrorsHistory(events: seq<CacheEvent>)
    ensures var c := CacheRun(events); c.list != [] ==> Mirrors(c.list, Newest(c.h), c.shape)
  {
    if events != [] {
      var c, e := CacheRun(events[..|events| - 1]), events[|events| - 1];
      CacheMirrorsHistory(events[..|events| - 1]);
      if e.Append? {
        AppendKeepsMirror(c.list, c.h, c.shape, e.dbOk, e.m);
      }
    }
  }

  /** Pushing several messages is pushing them one after the other. */
  lemma {:induction false} PushesOneByOne(list: seq<Message>, h: seq<Message>, msgs: seq<Message>, m: Message,
                                          dbOk: bool)
    requires msgs != []
    ensures Appended(list, h, dbOk, msgs + [m]) == Appended(Appended(list, h, dbOk, msgs), h, dbOk, [m])
  {
    var below := if list != [] then list else if dbOk then Take(WINDOW, Newest(h)) else [];
    NewestPush(msgs, m);
    assert Newest([m]) == [m];
    TakePush(m, Newest(msgs) + below);
    assert [m] + Newest(msgs) + below == [m] + (Newest(msgs) + below);
  }

  /* ---- The read without an anchor ---- */

  // Place i shows the i-th newest message, or the one before it when the double comes first.
  predicate Shows(h: seq<Message>, shape: Shape, i: nat, m: Message) {
    var place := if shape.Doubled? && i > shape.j then i - 1 else i;
    place < |h| && m == h[|h| - 1 - place]
  }

  // The newest messages of the history, beginning with the newest of all, with the one double among them if the read
  // goes that far, or no more than the newest k.
  ghost predicate ReadsNewest(h: seq<Message>, shape: Shape, count: nat, r: seq<Message>) {
    && |r| == Min(count, Min(50, match shape case Doubled(_) => |h| + 1 case Partial(k) => k))
    && (forall i | 0 <= i < |r| :: Shows(h, shape, i, r[i]))
    && h != [] && r != [] && r[0] == h[|h| - 1]
  }

  lemma {:induction false} PlaceInHistory(list: seq<Message>, n: seq<Message>, h: seq<Message>, shape: Shape, i: nat)
    requires n == Newest(h) && Mirrors(list, n, shape) && i < |list|
    ensures Shows(h, shape, i, list[i])
  {
    ListShows(list, n, shape, i);
  }

  lemma {:induction false} ListInHistory(list: seq<Message>, h: seq<Message>, shape: Shape)
    requires Mirrors(list, Newest(h), shape)
    ensures list != [] && |list| == Min(50, match shape case Doubled(_) => |h| + 1 case Partial(k) => k)
    ensures forall i | 0 <= i < |list| :: Shows(h, shape, i, list[i])
  {
    forall i | 0 <= i < |list| ensures Shows(h, shape, i, list[i]) {
      PlaceInHistory(list, Newest(h), h, shape, i);
    }
    MirrorsAreLive(list, Newest(h), shape);
  }

  lemma {:induction false} FirstOfHistory(h: seq<Message>, shape: Shape, m: Message)
    requires Shows(h, shape, 0, m)
    ensures h != [] && m == h[|h| - 1]
  {
  }

  lemma {:induction false} ListReadsNewest(list: seq<Message>, h: seq<Message>, shape: Shape, count: nat,
                                           r: seq<Message>)
    requires list != [] && |list| == Min(50, match shape case Doubled(_) => |h| + 1 case Partial(k) => k)
    requires forall i | 0 <= i < |list| :: Shows(h, shape, i, list[i])
    requires count > 0 && r == Take(count, list)
    ensures ReadsNewest(h, shape, count, r)
  {
    assert r[0] == list[0];
    FirstOfHistory(h, shape, list[0]);
  }

  /** Over every run of appends, expiries and reloads, the read of a live list gives the newest messages. */
  lemma {:induction false} NewestReadOfRun(events: seq<CacheEvent>, count: nat)
    requires CacheRun(events).list != [] && count > 0
    ensures var c := CacheRun(events); ReadsNewest(c.h, c.shape, count, ReadNewest(c.list, c.h, count))
  {
    var c := CacheRun(events);
    CacheMirrorsHistory(events);
    ListInHistory(c.list, c.h, c.shape);
    ListReadsNewest(c.list, c.h, c.shape, count, ReadNewest(c.list, c.h, count));
  }

  predicate IsPage(length: nat, shape: Shape, count: nat) {
    match shape
    case Doubled(j) => Min(count, 50) <= j + 1 && (count <= 50 || length <= 50)
    case Partial(k) => count <= Min(50, k) || length <= Min(50, k)
  }

  lemma {:induction false} ListIsPageIff(list: seq<Message>, n: seq<Message>, shape: Shape, count: nat)
    requires Mirrors(list, n, shape) && DistinctIds(n) && count > 0
    ensures Take(count, list) == Take(count, n) <==> IsPage(|n|, shape, count)
  {
    match shape
    case Doubled(j) =>
      assert Take(count, list) == Take(Min(count, 50), DoubleAt(n, j));
      CutDoubleMatches(n, j, count, Min(count, 50));
    case Partial(k) =>
      assert Take(count, list) == Take(Min(count, Min(50, k)), n);
      CutMatches(n, count, Min(count, Min(50, k)));
  }

  /** It is the page the database would give exactly if it ends before the double's second copy and within the list, or
      the list holds the whole history plainly. */
  lemma {:induction false} NewestReadIsPageIff(events: seq<CacheEvent>, count: nat)
    requires var c := CacheRun(events); c.list != [] && DistinctIds(c.h) && 0 < count <= 100
    ensures var c := CacheRun(events);
      ReadNewest(c.list, c.h, count) == ReadNewest([], c.h, count) <==> IsPage(|c.h|, c.shape, count)
  {
    var c := CacheRun(events);
    CacheMirrorsHistory(events);
    NewestDistinct(c.h);
    ListIsPageIff(c.list, Newest(c.h), c.shape, count);
  }

  /* ---- The anchored read against the table ---- */

  // The history position a list position shows.
  function Source(shape: Shape, i: nat): nat {
    if shape.Doubled? && i > shape.j then i - 1 else i
  }

  // Where the anchor, at history position p, is found in a list of this shape. Of its two copies the scan keeps
  // the older one, unless that one was trimmed.
  function AnchorSlot(shape: Shape, p: nat): nat {
    if shape.Doubled? && (shape.j < p || (shape.j == p && p + 1 < WINDOW)) then p + 1 else p
  }

  // How many entries the list holds from that slot on; none if the anchor is not listed.
  function Reach(n: seq<Message>, shape: Shape, p: nat): int
    requires Fits(n, shape)
  {
    Min(WINDOW, |Untrimmed(n, shape)|) - AnchorSlot(shape, p)
  }

  // The messages from the anchor down, as the list would have them untrimmed.
  function FromAnchor(n: seq<Message>, shape: Shape, p: nat): seq<Message>
    requires p < |n| && Fits(n, shape)
  {
    match shape
    case Doubled(j) => if j <= p then n[p..] else DoubleAt(n[p..], j - p)
    case Partial(k) => if k <= p then [] else n[p..k]
  }

  function Min(a: int, b: int): int {
    if a <= b then a else b
  }

  lemma ListShows(list: seq<Message>, n: seq<Message>, shape: Shape, i: nat)
    requires Mirrors(list, n, shape) && i < |list|
    ensures Source(shape, i) < |n| && list[i] == n[Source(shape, i)]
  {
  }

  lemma {:induction false} LastIndexIs(list: seq<Message>, id: nat, k: nat)
    requires k < |list| && list[k].id == id && forall i | k < i < |list| :: list[i].id != id
    ensures LastIndex(list, id) == k
  {
  }

  lemma AnchorIndex(list: seq<Message>, n: seq<Message>, shape: Shape, p: nat)
    requires DistinctIds(n) && Mirrors(list, n, shape) && p < |n|
    ensures LastIndex(list, n[p].id) == if Reach(n, shape, p) > 0 then AnchorSlot(shape, p) else -1
  {
    var k := AnchorSlot(shape, p);
    forall i | 0 <= i < |list| ensures list[i].id == n[p].id <==> Source(shape, i) == p {
      ListShows(list, n, shape, i);
      assert Source(shape, i) < p || Source(shape, i) == p || p < Source(shape, i);
    }
    if Reach(n, shape, p) > 0 {
      LastIndexIs(list, n[p].id, k);
    }
  }

  /** The anchored read, exactly: nothing when the anchor was trimmed, and otherwise the messages from the anchor
      down, cut at `count` or at the end of the list, with the reload's double among them only when the doubled
      message is older than the anchor. */
  lemma {:induction false} AnchoredRead(list: seq<Message>, n: seq<Message>, shape: Shape, p: nat, count: nat)
    requires DistinctIds(n) && Mirrors(list, n, shape) && p < |n|
    ensures var reach := Reach(n, shape, p);
      ReadUntil(list, n[p].id, count) ==
        if reach <= 0 then [] else Take(Min(count, reach), FromAnchor(n, shape, p))
  {
    var reach := Reach(n, shape, p);
    AnchorIndex(list, n, shape, p);
    if reach > 0 {
      FromSlot(list, n, shape, p);
      TakeTwice(FromAnchor(n, shape, p), count, reach);
    }
  }

  lemma {:induction false} TakeTwice(s: seq<Message>, count: nat, reach: nat)
    requires reach <= |s|
    ensures Take(count, s[..reach]) == Take(Min(count, reach), s)
  {
  }

  // Where the untrimmed list goes on from the slot as the history does from the anchor.
  lemma {:induction false} AfterDouble(n: seq<Message>, j: nat, p: nat)
    requires j <= p < |n|
    ensures DoubleAt(n, j)[p + 1..] == n[p..]
  {
    var d := DoubleAt(n, j);
    forall i | 0 <= i < |n| - p ensures d[p + 1..][i] == n[p..][i] {
      assert d[p + 1..][i] == d[p + 1 + i];
    }
  }

  lemma {:induction false} BeforeDouble(n: seq<Message>, j: nat, p: nat)
    requires p < j < |n|
    ensures DoubleAt(n, j)[p..] == DoubleAt(n[p..], j - p)
  {
    var d, e := DoubleAt(n, j), DoubleAt(n[p..], j - p);
    forall i | 0 <= i < |n| + 1 - p ensures d[p..][i] == e[i] {
      assert d[p..][i] == d[p + i];
    }
  }

  lemma {:induction false} CutFromSlot(list: seq<Message>, u: seq<Message>, k: nat)
    requires list == Take(WINDOW, u) && k <= |list|
    ensures |list| == Min(WINDOW, |u|) && list[k..] == u[k..][..|list| - k]
  {
  }

  lemma {:induction false} UntrimmedFromSlot(n: seq<Message>, shape: Shape, p: nat)
    requires Fits(n, shape) && p < |n| && Reach(n, shape, p) > 0
    ensures AnchorSlot(shape, p) < |Untrimmed(n, shape)| && Reach(n, shape, p) <= |FromAnchor(n, shape, p)|
    ensures Untrimmed(n, shape)[AnchorSlot(shape, p)..][..Reach(n, shape, p)] ==
      FromAnchor(n, shape, p)[..Reach(n, shape, p)]
  {
    match shape
    case Partial(k) =>
    case Doubled(j) =>
      if p < j {
        BeforeDouble(n, j, p);
      } else if AnchorSlot(shape, p) == p + 1 {
        AfterDouble(n, j, p);
      } else {
        assert Reach(n, shape, p) == 1 && DoubleAt(n, j)[p] == n[p];
      }
  }

  lemma {:induction false} FromSlot(list: seq<Message>, n: seq<Message>, shape: Shape, p: nat)
    requires Mirrors(list, n, shape) && p < |n| && Reach(n, shape, p) > 0
    ensures Reach(n, shape, p) <= |FromAnchor(n, shape, p)|
    ensures list[AnchorSlot(shape, p)..] == FromAnchor(n, shape, p)[..Reach(n, shape, p)]
  {
    UntrimmedFromSlot(n, shape, p);
    CutFromSlot(list, Untrimmed(n, shape), AnchorSlot(shape, p));
  }

  lemma NewestDistinct(h: seq<Message>)
    requires DistinctIds(h)
    ensures DistinctIds(Newest(h))
  {
    forall i, j | 0 <= i < j < |h| ensures Newest(h)[i].id != Newest(h)[j].id {
      assert h[|h| - 1 - j].id != h[|h| - 1 - i].id;
    }
  }

  lemma {:induction false} NewestOfPrefix(h: seq<Message>, p: nat)
    requires p < |h|
    ensures Newest(h[..|h| - p]) == Newest(h)[p..]
  {
    var older, w := h[..|h| - p], Newest(h)[p..];
    forall i | 0 <= i < |w| ensures Newest(older)[i] == w[i] {
      assert w[i] == Newest(h)[p + i];
    }
  }

  lemma {:induction false} UntilAnchor(h: seq<Message>, p: nat)
    requires DistinctIds(h) && p < |h|
    ensures Until(h, Newest(h)[p].id) == h[..|h| - p]
  {
    var a := |h| - 1 - p;
    UntilPrefix(h, h[a].id, a);
  }

  lemma {:induction false} TableWindow(h: seq<Message>, p: nat, count: nat)
    requires DistinctIds(h) && p < |h|
    ensures RecentUntil(h, Newest(h)[p].id, count) == Take(count, Newest(h)[p..])
  {
    UntilAnchor(h, p);
    NewestOfPrefix(h, p);
  }

  // A window that reaches past both copies of a doubled message differs from the plain one.
  lemma DoubleShows(w: seq<Message>, j: nat, count: nat)
    requires DistinctIds(w) && j < |w|
    ensures Take(count, DoubleAt(w, j)) == Take(count, w) <==> count <= j + 1
  {
    var d := DoubleAt(w, j);
    if count <= j + 1 {
      assert Take(count, d) == Take(count, w);
    } else if j + 1 < |w| {
      assert Take(count, d)[j + 1] == w[j];
      assert Take(count, w)[j + 1] == w[j + 1];
      assert w[j].id != w[j + 1].id;
    } else {
      assert |Take(count, d)| > |w| >= |Take(count, w)|;
    }
  }

  /** The anchored read is the database query exactly when the list reaches as far from the anchor as the window, or
      the history, and the read does not show both copies of a doubled message older than the anchor. When it shows
      both, the second stands in the window and pushes its oldest entry out (DoubledWindow). */
  lemma {:induction false} CachedReadIsQueryIff(list: seq<Message>, h: seq<Message>, shape: Shape, p: nat, count: nat)
    requires DistinctIds(h) && p < |h| && Mirrors(list, Newest(h), shape) && count > 0
    ensures var reach := Reach(Newest(h), shape, p);
      ReadUntil(list, Newest(h)[p].id, count) == RecentUntil(h, Newest(h)[p].id, count)
      <==>
      (count <= reach || |h| - p <= reach) && !(shape.Doubled? && p < shape.j && shape.j + 1 < p + Min(count, reach))
  {
    var n := Newest(h);
    NewestDistinct(h);
    TableWindow(h, p, count);
    AnchoredRead(list, n, shape, p, count);
    if Reach(n, shape, p) > 0 {
      WindowMatches(n, shape, p, count);
    }
  }

  lemma {:induction false} DoubledWindow(list: seq<Message>, n: seq<Message>, j: nat, p: nat, count: nat)
    requires DistinctIds(n) && p < j < |n| && Mirrors(list, n, Doubled(j)) && p + count <= WINDOW && count > 0
    ensures ReadUntil(list, n[p].id, count) == Take(count, DoubleAt(n[p..], j - p))
  {
    FittingRead(list, n, Doubled(j), p, count);
  }

  // What a read cut at m shows of a window of `count` messages.
  lemma {:induction false} CutMatches(w: seq<Message>, count: nat, m: nat)
    requires m <= count
    ensures Take(m, w) == Take(count, w) <==> m == count || |w| <= m
  {
    if m < |w| && m < count {
      assert |Take(m, w)| < |Take(count, w)|;
    }
  }

  lemma {:induction false} CutDoubleMatches(w: seq<Message>, j: nat, count: nat, m: nat)
    requires DistinctIds(w) && j < |w| && 0 < m <= count
    ensures Take(m, DoubleAt(w, j)) == Take(count, w) <==> (m == count || |w| <= m) && m <= j + 1
  {
    DoubleShows(w, j, m);
    CutMatches(w, count, m);
    assert |Take(m, DoubleAt(w, j))| == |Take(count, w)| ==> Take(m, w) == Take(count, w);
  }

  lemma {:induction false} WindowMatches(n: seq<Message>, shape: Shape, p: nat, count: nat)
    requires DistinctIds(n) && p < |n| && Fits(n, shape) && count > 0 && Reach(n, shape, p) > 0
    ensures var reach := Reach(n, shape, p);
      Take(Min(count, reach), FromAnchor(n, shape, p)) == Take(count, n[p..])
      <==>
      (count <= reach || |n| - p <= reach) && !(shape.Doubled? && p < shape.j && shape.j + 1 < p + Min(count, reach))
  {
    var w, m := n[p..], Min(count, Reach(n, shape, p));
    if shape.Doubled? && p < shape.j {
      DistinctTail(n, p);
      CutDoubleMatches(w, shape.j - p, count, m);
    } else {
      CutMatches(w, count, m);
      if shape.Partial? {
        assert n[p..shape.k] == w[..shape.k - p];
      }
    }
  }

  // A window that ends within the list's fifty places is all there, or all there is.
  lemma {:induction false} FittingRead(list: seq<Message>, n: seq<Message>, shape: Shape, p: nat, count: nat)
    requires DistinctIds(n) && Mirrors(list, n, shape) && p < |n|
    requires Reach(n, shape, p) > 0 && AnchorSlot(shape, p) + count <= WINDOW
    ensures ReadUntil(list, n[p].id, count) == Take(count, FromAnchor(n, shape, p))
  {
    AnchoredRead(list, n, shape, p, count);
    TakeMin(FromAnchor(n, shape, p), count, Reach(n, shape, p));
  }

  lemma TakeMin(s: seq<Message>, count: nat, reach: nat)
    requires count <= reach || |s| <= reach
    ensures Take(Min(count, reach), s) == Take(count, s)
  {
  }

  lemma DistinctTail(n: seq<Message>, p: nat)
    requires DistinctIds(n) && p <= |n|
    ensures DistinctIds(n[p..])
  {
  }

  /** No window drift: the anchored read holds no message newer than the anchor. */
  lemma {:induction false} NothingNewer(list: seq<Message>, n: seq<Message>, shape: Shape, p: nat, count: nat,
                                        m: Message)
    requires DistinctIds(n) && Mirrors(list, n, shape) && p < |n|
    requires m in ReadUntil(list, n[p].id, count)
    ensures m in n[p..]
  {
    AnchoredRead(list, n, shape, p, count);
    var r := ReadUntil(list, n[p].id, count);
    var i :| 0 <= i < |r| && r[i] == m;
    assert r[i] == FromAnchor(n, shape, p)[i];
    FromAnchorIsOlder(n, shape, p, i);
  }

  lemma FromAnchorIsOlder(n: seq<Message>, shape: Shape, p: nat, i: nat)
    requires Fits(n, shape) && p < |n| && i < |FromAnchor(n, shape, p)|
    ensures FromAnchor(n, shape, p)[i] in n[p..]
  {
    var at := if shape.Doubled? && p < shape.j < p + i then i - 1 else i;
    assert FromAnchor(n, shape, p)[i] == n[p..][at];
  }

  /* ---- Later appends ---- */

  function Pushed(list: seq<Message>, h: seq<Message>, later: seq<Message>): seq<Message> {
    if later == [] then list
    else
      var before := later[..|later| - 1];
      Appended(Pushed(list, h, before), h + later, true, [later[|later| - 1]])
  }

  lemma {:induction false} PushedMirrors(list: seq<Message>, h: seq<Message>, shape: Shape, later: seq<Message>)
    requires Mirrors(list, Newest(h), shape)
    ensures Mirrors(Pushed(list, h, later), Newest(h + later), Shifted(shape, |later|))
  {
    if later == [] {
      assert h + later == h;
    } else {
      var before := later[..|later| - 1];
      PushedMirrors(list, h, shape, before);
      PushOneMore(list, h, shape, later);
    }
  }

  lemma {:induction false} PushOneMore(list: seq<Message>, h: seq<Message>, shape: Shape, later: seq<Message>)
    requires later != []
    requires var before := later[..|later| - 1];
      Mirrors(Pushed(list, h, before), Newest(h + before), Shifted(shape, |before|))
    ensures Mirrors(Pushed(list, h, later), Newest(h + later), Shifted(shape, |later|))
  {
    var before, m := later[..|later| - 1], later[|later| - 1];
    PushedLast(list, h, later);
    PushOn(Pushed(list, h, before), h + before, Shifted(shape, |before|), m);
    assert Shifted(Shifted(shape, |before|), 1) == Shifted(shape, |later|);
  }

  lemma {:induction false} PushedLast(list: seq<Message>, h: seq<Message>, later: seq<Message>)
    requires later != []
    ensures var before, m := later[..|later| - 1], later[|later| - 1];
      && h + later == (h + before) + [m]
      && Pushed(list, h, later) == Appended(Pushed(list, h, before), (h + before) + [m], true, [m])
  {
    assert h + later == (h + later[..|later| - 1]) + [later[|later| - 1]];
  }

  lemma {:induction false} PushOn(live: seq<Message>, h: seq<Message>, shape: Shape, m: Message)
    requires Mirrors(live, Newest(h), shape)
    ensures Mirrors(Appended(live, h + [m], true, [m]), Newest(h + [m]), Shifted(shape, 1))
  {
    MirrorsAreLive(live, Newest(h), shape);
    AppendKeepsMirror(live, h, shape, true, m);
  }

  lemma MirrorsAreLive(list: seq<Message>, n: seq<Message>, shape: Shape)
    requires Mirrors(list, n, shape)
    ensures list != []
  {
    assert |Untrimmed(n, shape)| > 0;
  }

  // Later appends move the anchor down by their number, less one if they push the newer copy's twin off the list.
  lemma {:induction false} SlotShifts(shape: Shape, p: nat, steps: nat, count: nat)
    requires count > 0 && AnchorSlot(Shifted(shape, steps), p + steps) + count <= WINDOW
    ensures AnchorSlot(shape, p) + count <= WINDOW
  {
  }

  // What an anchored read gives when the anchor's index and `count` stay within the fifty places: w is the history of
  // `length` messages from the anchor down. Its distance to the double, or to the end of the list, is all that matters.
  function ReadInPlace(length: nat, w: seq<Message>, shape: Shape, p: nat, count: nat): seq<Message>
    requires p + |w| == length && w != [] && (if shape.Doubled? then shape.j < length else shape.k <= length)
  {
    match shape
    case Doubled(j) =>
      if AnchorSlot(shape, p) >= Min(WINDOW, length + 1) then []
      else Take(count, if j <= p then w else DoubleAt(w, j - p))
    case Partial(k) =>
      if p >= Min(WINDOW, k) then [] else Take(count, w[..k - p])
  }

  lemma {:induction false} ReadIsInPlace(list: seq<Message>, n: seq<Message>, shape: Shape, p: nat, count: nat,
                                         id: nat, w: seq<Message>)
    requires DistinctIds(n) && p < |n| && Mirrors(list, n, shape) && AnchorSlot(shape, p) + count <= WINDOW
    requires n[p].id == id && n[p..] == w
    ensures ReadUntil(list, id, count) == ReadInPlace(|n|, w, shape, p, count)
  {
    if Reach(n, shape, p) > 0 {
      FittingRead(list, n, shape, p, count);
      if shape.Partial? {
        assert n[p..shape.k] == w[..shape.k - p];
      }
    } else {
      AnchoredRead(list, n, shape, p, count);
    }
  }

  // Later messages move the anchor and the double together.
  lemma {:induction false} ReadStays(length: nat, w: seq<Message>, shape: Shape, p: nat, count: nat,
                                     length': nat, shape': Shape, p': nat)
    requires p + |w| == length && w != [] && (if shape.Doubled? then shape.j < length else shape.k <= length)
    requires p <= p' && length' == length + (p' - p) && shape' == Shifted(shape, p' - p)
    requires 0 < count && AnchorSlot(shape', p') + count <= WINDOW
    ensures ReadInPlace(length', w, shape', p', count) == ReadInPlace(length, w, shape, p, count)
  {
  }

  lemma NewestUpTo(h: seq<Message>, a: nat)
    requires a < |h|
    ensures Newest(h)[|h| - 1 - a] == h[a] && Newest(h)[|h| - 1 - a..] == Newest(h[..a + 1])
  {
    NewestOfPrefix(h, |h| - 1 - a);
  }

  // The anchor at place a of the table.
  lemma {:induction false} ReadOfHistory(list: seq<Message>, h: seq<Message>, shape: Shape, a: nat, count: nat)
    requires DistinctIds(h) && a < |h|
    requires Mirrors(list, Newest(h), shape) && AnchorSlot(shape, |h| - 1 - a) + count <= WINDOW
    ensures ReadUntil(list, h[a].id, count) == ReadInPlace(|h|, Newest(h[..a + 1]), shape, |h| - 1 - a, count)
  {
    NewestDistinct(h);
    NewestUpTo(h, a);
    ReadIsInPlace(list, Newest(h), shape, |h| - 1 - a, count, h[a].id, Newest(h[..a + 1]));
  }

  // What every list of this shape gives for the anchor.
  ghost predicate AllRead(h: seq<Message>, shape: Shape, a: nat, count: nat, r: seq<Message>)
    requires a < |h|
  {
    forall list | Mirrors(list, Newest(h), shape) :: ReadUntil(list, h[a].id, count) == r
  }

  lemma {:induction false} AllReadInPlace(h: seq<Message>, shape: Shape, a: nat, count: nat, w: seq<Message>,
                                          r: seq<Message>)
    requires DistinctIds(h) && a < |h| && Fits(Newest(h), shape) && AnchorSlot(shape, |h| - 1 - a) + count <= WINDOW
    requires w == Newest(h[..a + 1]) && r == ReadInPlace(|h|, w, shape, |h| - 1 - a, count)
    ensures AllRead(h, shape, a, count, r)
  {
    forall list | Mirrors(list, Newest(h), shape) ensures ReadUntil(list, h[a].id, count) == r {
      ReadOfHistory(list, h, shape, a, count);
    }
  }

  // Histories that agree up to the anchor give the same for it.
  lemma {:induction false} CommonRead(h: seq<Message>, shape: Shape, a: nat, count: nat, h': seq<Message>,
                                      shape': Shape)
    returns (r: seq<Message>)
    requires DistinctIds(h) && DistinctIds(h') && a < |h| <= |h'| && h'[..a + 1] == h[..a + 1]
    requires Fits(Newest(h), shape) && shape' == Shifted(shape, |h'| - |h|)
    requires 0 < count && AnchorSlot(shape', |h'| - 1 - a) + count <= WINDOW
    ensures AllRead(h, shape, a, count, r) && AllRead(h', shape', a, count, r)
  {
    var w := Newest(h[..a + 1]);
    r := ReadInPlace(|h|, w, shape, |h| - 1 - a, count);
    SlotShifts(shape, |h| - 1 - a, |h'| - |h|, count);
    ReadStays(|h|, w, shape, |h| - 1 - a, count, |h'|, shape', |h'| - 1 - a);
    AllReadInPlace(h, shape, a, count, w, r);
    AllReadInPlace(h', shape', a, count, w, r);
  }

  lemma {:induction false} LaterRead(h: seq<Message>, shape: Shape, a: nat, count: nat, later: seq<Message>)
    returns (r: seq<Message>)
    requires DistinctIds(h + later) && a < |h| && Fits(Newest(h), shape)
    requires 0 < count && AnchorSlot(Shifted(shape, |later|), |h| + |later| - 1 - a) + count <= WINDOW
    ensures AllRead(h, shape, a, count, r)
    ensures (h + later)[a] == h[a] && AllRead(h + later, Shifted(shape, |later|), a, count, r)
  {
    DistinctPrefix(h, later);
    assert (h + later)[..a + 1] == h[..a + 1];
    r := CommonRead(h, shape, a, count, h + later, Shifted(shape, |later|));
  }

  // One list of this shape.
  lemma {:induction false} OneRead(list: seq<Message>, h: seq<Message>, shape: Shape, a: nat, count: nat, id: nat,
                                   r: seq<Message>)
    requires a < |h| && AllRead(h, shape, a, count, r) && Mirrors(list, Newest(h), shape) && h[a].id == id
    ensures ReadUntil(list, id, count) == r
  {
  }

  /** No window drift. As long as the anchor's index and `count` stay within the fifty places, any number of later
      warm appends leaves the read for the anchor as it was: the whole window, all there is of it, or nothing. */
  lemma {:induction false} ReadSurvivesAppends(list: seq<Message>, h: seq<Message>, shape: Shape, p: nat, count: nat,
                                              later: seq<Message>)
    requires DistinctIds(h + later) && p < |h| && Mirrors(list, Newest(h), shape)
    requires 0 < count && AnchorSlot(Shifted(shape, |later|), p + |later|) + count <= WINDOW
    ensures ReadUntil(Pushed(list, h, later), Newest(h)[p].id, count) == ReadUntil(list, Newest(h)[p].id, count)
  {
    var a, id := |h| - 1 - p, Newest(h)[p].id;
    var r := LaterRead(h, shape, a, count, later);
    OneRead(list, h, shape, a, count, id, r);
    PushedMirrors(list, h, shape, later);
    OneRead(Pushed(list, h, later), h + later, Shifted(shape, |later|), a, count, id, r);
  }
}
