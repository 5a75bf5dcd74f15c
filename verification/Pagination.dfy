/** Reading a session's history page by page, newest first, while messages keep arriving. */
module Pagination {
  import opened History
  import opened Wrappers

  const DEFAULT_LIMIT := 50
  const MAX_LIMIT := 100

  datatype Row = Row(session: nat, message: Message)

  // A tenant's messages of all sessions in the order of their creation times.
  type Table = seq<Row>

  predicate UniqueIds(t: Table) {
    forall i, j | 0 <= i < j < |t| :: t[i].message.id != t[j].message.id
  }

  // A session's messages, newest first.
  function SessionHistory(t: Table, s: nat): (h: seq<Message>) {
    if t == [] then []
    else (if t[|t| - 1].session == s then [t[|t| - 1].message] else []) + SessionHistory(t[..|t| - 1], s)
  }

  /* ---- One page ---- */

  function PageSize(limit: int): (n: nat)
    ensures 1 <= n <= MAX_LIMIT
  {
    if limit <= 0 || limit > MAX_LIMIT then DEFAULT_LIMIT else limit
  }

  // How many rows are older than the cursor: none are older than an unknown one.
  function OlderThan(t: Table, id: nat): (p: nat)
    ensures p <= |t|
    ensures (exists i :: 0 <= i < |t| && t[i].message.id == id) ==> p < |t| && t[p].message.id == id
    ensures (forall i | 0 <= i < |t| :: t[i].message.id != id) ==> p == 0
  {
    if t == [] then 0
    else if t[|t| - 1].message.id == id then |t| - 1
    else OlderThan(t[..|t| - 1], id)
  }

  function Bound(t: Table, before: Option<nat>): (p: nat)
    ensures p <= |t|
  {
    match before
    case None => |t|
    case Some(id) => OlderThan(t, id)
  }

  function Least(a: int, b: int): int {
    if a <= b then a else b
  }

  function Page(t: Table, s: nat, limit: int, before: Option<nat>): seq<Message> {
    Take(PageSize(limit), SessionHistory(t[..Bound(t, before)], s))
  }

  method GetSessionHistory(t: Table, s: nat, limit: int, before: Option<nat>) returns (msgs: seq<Message>)
    ensures msgs == Page(t, s, limit, before)
    ensures var all := SessionHistory(t[..Bound(t, before)], s);
      msgs == all[..Least(if 1 <= limit <= 100 then limit else 50, |all|)]
  {
    var size := limit;
    if size <= 0 || size > MAX_LIMIT {
      size := DEFAULT_LIMIT;
    }
    msgs := [];
    var p := Bound(t, before);
    ghost var all := SessionHistory(t[..p], s);
    while p > 0 && |msgs| < size
      invariant 0 <= p <= |t| && |msgs| <= size && all == msgs + SessionHistory(t[..p], s)
    {
      p := p - 1;
      OneRowLess(t, p, s, msgs);
      if t[p].session == s {
        msgs := msgs + [t[p].message];
      }
    }
    assert t[..0] == [];
    assert all == msgs + SessionHistory(t[..p], s);
  }

  lemma OneRowLess(t: Table, p: nat, s: nat, msgs: seq<Message>)
    requires p < |t|
    ensures msgs + SessionHistory(t[..p + 1], s) ==
      (if t[p].session == s then msgs + [t[p].message] else msgs) + SessionHistory(t[..p], s)
  {
    assert t[..p + 1][..p] == t[..p];
  }

  datatype Reply = Reply(messages: seq<Message>, next: Option<nat>)

  // The limit a request asks for, absent or unparsable as none.
  function Requested(limit: Option<int>): (n: nat)
    ensures n > 0
  {
    if limit.Some? && limit.value > 0 then limit.value else DEFAULT_LIMIT
  }

  function Serve(t: Table, s: nat, limit: Option<int>, before: Option<nat>): Reply {
    var msgs := Page(t, s, Requested(limit), before);
    Reply(msgs, if |msgs| == Requested(limit) then Some(msgs[|msgs| - 1].id) else None)
  }

  method HandleGetSessionHistory(t: Table, s: nat, limit: Option<int>, before: Option<nat>) returns (r: Reply)
    ensures r == Serve(t, s, limit, before)
    ensures var n := if limit.Some? && limit.value > 0 then limit.value else 50;
      var all := SessionHistory(t[..Bound(t, before)], s);
      && r.messages == all[..Least(if n <= 100 then n else 50, |all|)]
      && r.next == if |r.messages| == n then Some(r.messages[n - 1].id) else None
  {
    var n := DEFAULT_LIMIT;
    if limit.Some? && limit.value > 0 {
      n := limit.value;
    }
    var msgs := GetSessionHistory(t, s, n, before);
    var next := None;
    if |msgs| == n {
      next := Some(msgs[|msgs| - 1].id);
    }
    r := Reply(msgs, next);
  }

  /* ---- Following the cursor ---- */

  // The tables successive requests find: messages are only ever appended.
  ghost predicate Growing(ts: seq<Table>) {
    forall i | 0 < i < |ts| :: ts[i - 1] <= ts[i]
  }

  // All messages read by a client that follows next_cursor until it is empty.
  function Crawl(ts: seq<Table>, s: nat, limit: Option<int>, before: Option<nat>): seq<Message> {
    if ts == [] then []
    else
      var r := Serve(ts[0], s, limit, before);
      r.messages + if r.next.Some? then Crawl(ts[1..], s, limit, r.next) else []
  }

  // How many requests that takes; one too many for the tables given if it does not end.
  function Requests(ts: seq<Table>, s: nat, limit: Option<int>, before: Option<nat>): nat {
    if ts == [] then 1
    else
      var r := Serve(ts[0], s, limit, before);
      1 + if r.next.Some? then Requests(ts[1..], s, limit, r.next) else 0
  }

  // A message of the history has the rest of the history below it in the table.
  lemma {:induction false} RestIsOlder(t: Table, s: nat, k: nat)
    requires UniqueIds(t) && k < |SessionHistory(t, s)|
    ensures var h := SessionHistory(t, s);
      var p := OlderThan(t, h[k].id);
      p < |t| && t[p] == Row(s, h[k]) && SessionHistory(t[..p], s) == h[k + 1..]
  {
    var n := |t| - 1;
    var h, rest := SessionHistory(t, s), SessionHistory(t[..n], s);
    if t[n].session == s && k == 0 {
      assert h[1..] == rest;
    } else {
      var j := if t[n].session == s then k - 1 else k;
      RestIsOlder(t[..n], s, j);
      var p := OlderThan(t[..n], rest[j].id);
      assert t[..n][p] == t[p] && t[..n][..p] == t[..p];
    }
  }

  /** A session's history is its own messages, and all of them. */
  lemma {:induction false} HistoryIsTheSessions(t: Table, s: nat)
    ensures forall m :: m in SessionHistory(t, s) <==> Row(s, m) in t
  {
    if t != [] {
      var init, last := t[..|t| - 1], t[|t| - 1];
      HistoryIsTheSessions(init, s);
      assert t == init + [last];
    }
  }

  // The rows below a bound are the same in every table that has grown from this one.
  lemma BoundIsKept(t: Table, t': Table, p: nat, id: nat)
    requires t <= t' && UniqueIds(t') && p < |t| && t[p].message.id == id
    ensures OlderThan(t', id) == p && t'[..p] == t[..p]
  {
    assert t'[p].message.id == id;
  }

  // A full page leaves the rest of the rows for the next request.
  lemma FullPage(t: Table, t': Table, s: nat, limit: Option<int>, before: Option<nat>)
    requires t <= t' && UniqueIds(t) && UniqueIds(t') && Requested(limit) <= MAX_LIMIT
    requires |SessionHistory(t[..Bound(t, before)], s)| >= Requested(limit)
    ensures var n := Requested(limit);
      var rest, r := SessionHistory(t[..Bound(t, before)], s), Serve(t, s, limit, before);
      && r.messages == rest[..n] && r.next.Some?
      && SessionHistory(t'[..Bound(t', r.next)], s) == rest[n..]
  {
    var n := Requested(limit);
    var below := t[..Bound(t, before)];
    var rest := SessionHistory(below, s);
    var id := rest[n - 1].id;
    RestIsOlder(below, s, n - 1);
    var p := OlderThan(below, id);
    assert below[..p] == t[..p];
    BoundIsKept(t, t', p, id);
    assert Serve(t, s, limit, before) == Reply(rest[..n], Some(id));
  }

  function FullPages(m: nat, n: nat): nat
    requires n > 0
  {
    if m < n then 0 else FullPages(m - n, n) + 1
  }

  lemma {:induction false} FullPagesFill(m: nat, n: nat)
    requires n > 0
    ensures FullPages(m, n) * n <= m < FullPages(m, n) * n + n
  {
    if m >= n {
      FullPagesFill(m - n, n);
      assert FullPages(m, n) * n == FullPages(m - n, n) * n + n;
    }
  }

  lemma FullPagesDivide(m: nat, n: nat)
    requires n > 0
    ensures FullPages(m, n) == m / n
  {
    var q, d := FullPages(m, n), m / n;
    FullPagesFill(m, n);
    assert d * n <= m < d * n + n;
    if q < d {
      Times(q + 1, d, n);
    } else {
      if d < q {
        Times(d + 1, q, n);
      }
    }
  }

  lemma Times(a: nat, b: nat, n: nat)
    requires a <= b
    ensures a * n <= b * n && (a > 0 ==> a * n == (a - 1) * n + n)
  {
    assert b * n == a * n + (b - a) * n;
  }

  // The tables a crawl meets.
  ghost predicate Sound(ts: seq<Table>) {
    Growing(ts) && forall i | 0 <= i < |ts| :: UniqueIds(ts[i])
  }

  lemma SoundTail(ts: seq<Table>)
    requires Sound(ts) && |ts| > 1
    ensures Sound(ts[1..]) && ts[0] <= ts[1] && UniqueIds(ts[0]) && UniqueIds(ts[1])
  {
  }

  lemma {:induction false} CrawlFrom(ts: seq<Table>, s: nat, limit: Option<int>, before: Option<nat>,
                                     rest: seq<Message>)
    requires Sound(ts) && Requested(limit) <= MAX_LIMIT && |ts| > FullPages(|rest|, Requested(limit))
    requires rest == SessionHistory(ts[0][..Bound(ts[0], before)], s)
    ensures Crawl(ts, s, limit, before) == rest
    ensures Requests(ts, s, limit, before) == FullPages(|rest|, Requested(limit)) + 1
    decreases |ts|
  {
    var n := Requested(limit);
    if |rest| >= n {
      SoundTail(ts);
      FullPage(ts[0], ts[1], s, limit, before);
      CrawlFrom(ts[1..], s, limit, Serve(ts[0], s, limit, before).next, rest[n..]);
      assert rest == rest[..n] + rest[n..];
    }
  }

  /** A client that follows next_cursor while messages keep arriving, in this session and others, ends after
      n / limit + 1 requests, where n messages were there at the first, and has read exactly those, newest first and
      each once: for every limit up to 100. Above that it gets one page of 50 and no cursor, and so the whole
      history exactly if that is no longer. */
  lemma {:induction false} CrawlIsCompleteIff(ts: seq<Table>, s: nat, limit: Option<int>)
    requires Sound(ts) && |ts| > 0
    requires |ts| > |SessionHistory(ts[0], s)| / if limit.Some? && limit.value > 0 then limit.value else 50
    ensures var h, n := SessionHistory(ts[0], s), if limit.Some? && limit.value > 0 then limit.value else 50;
      && (Crawl(ts, s, limit, None) == h <==> n <= 100 || |h| <= 50)
      && Requests(ts, s, limit, None) == if n <= 100 then |h| / n + 1 else 1
  {
    var h := SessionHistory(ts[0], s);
    assert ts[0][..|ts[0]|] == ts[0];
    if Requested(limit) <= MAX_LIMIT {
      FullPagesDivide(|h|, Requested(limit));
      CrawlFrom(ts, s, limit, None, h);
    } else {
      OnePage(ts, s, limit);
    }
  }

  lemma OnePage(ts: seq<Table>, s: nat, limit: Option<int>)
    requires ts != [] && Requested(limit) > MAX_LIMIT
    ensures Crawl(ts, s, limit, None) == Take(DEFAULT_LIMIT, SessionHistory(ts[0], s))
    ensures Requests(ts, s, limit, None) == 1
  {
    assert ts[0][..|ts[0]|] == ts[0];
    assert Serve(ts[0], s, limit, None).next == None;
  }
}
