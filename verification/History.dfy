/** The message table of one session, oldest message first, and the queries over it. */
module History {

  datatype Role = User | Assistant | System

  datatype Message = Message(id: nat, role: Role)

  function Take<T>(n: nat, s: seq<T>): seq<T> {
    if |s| <= n then s else s[..n]
  }

  // ORDER BY created_at DESC: creation times are distinct and increase along the table.
  function Newest(h: seq<Message>): (n: seq<Message>)
    ensures |n| == |h| && forall i | 0 <= i < |h| :: n[i] == h[|h| - 1 - i]
  {
    seq(|h|, i requires 0 <= i < |h| => h[|h| - 1 - i])
  }

  ghost predicate DistinctIds(h: seq<Message>) {
    forall i, j {:trigger h[i].id, h[j].id} | 0 <= i < j < |h| :: h[i].id != h[j].id
  }

  lemma DistinctPrefix(h: seq<Message>, later: seq<Message>)
    requires DistinctIds(h + later)
    ensures DistinctIds(h)
  {
    forall i, j | 0 <= i < j < |h| ensures h[i].id != h[j].id {
      assert (h + later)[i].id != (h + later)[j].id;
    }
  }

  predicate HasId(h: seq<Message>, id: nat) {
    exists i :: 0 <= i < |h| && h[i].id == id
  }

  // The rows created no later than the message `id`; all rows when there is no such message.
  function Until(h: seq<Message>, id: nat): seq<Message> {
    if h == [] || h[|h| - 1].id == id then h
    else
      var rest := Until(h[..|h| - 1], id);
      if rest == [] || rest[|rest| - 1].id != id then h else rest
  }

  // The database query a worker falls back to: up to `limit` messages no newer than the anchor, newest first.
  function RecentUntil(h: seq<Message>, anchor: nat, limit: nat): seq<Message> {
    Take(limit, Newest(Until(h, anchor)))
  }

  lemma {:induction false} UntilPrefix(h: seq<Message>, id: nat, a: nat)
    requires DistinctIds(h) && a < |h| && h[a].id == id
    ensures Until(h, id) == h[..a + 1]
  {
    if a + 1 < |h| {
      UntilPrefix(h[..|h| - 1], id, a);
      assert h[..|h| - 1][..a + 1] == h[..a + 1];
    }
  }

  lemma {:induction false} UntilMissing(h: seq<Message>, id: nat)
    requires !HasId(h, id)
    ensures Until(h, id) == h
  {
    if h != [] {
      assert !HasId(h[..|h| - 1], id);
      UntilMissing(h[..|h| - 1], id);
    }
  }

  /** No window drift: once the anchor is in the table, later messages never change the window it ends. */
  lemma WindowIsStable(h: seq<Message>, later: seq<Message>, a: nat, limit: nat)
    requires DistinctIds(h + later) && a < |h|
    ensures RecentUntil(h + later, h[a].id, limit) == RecentUntil(h, h[a].id, limit) == Take(limit, Newest(h[..a + 1]))
  {
    DistinctPrefix(h, later);
    assert (h + later)[a] == h[a];
    UntilPrefix(h + later, h[a].id, a);
    UntilPrefix(h, h[a].id, a);
    assert (h + later)[..a + 1] == h[..a + 1];
  }

  // Which rows a window holds.
  lemma InWindow(h: seq<Message>, a: nat, limit: nat, i: nat)
    requires DistinctIds(h) && a < |h| && i < |h|
    ensures h[i] in RecentUntil(h, h[a].id, limit) <==> i <= a && a < i + limit
  {
    UntilPrefix(h, h[a].id, a);
    var window := RecentUntil(h, h[a].id, limit);
    if i <= a && a < i + limit {
      assert window[a - i] == h[i];
    } else {
      forall k | 0 <= k < |window| ensures window[k] != h[i] {
        assert h[a - k].id != h[i].id by {
          assert a - k < i || i < a - k;
        }
      }
    }
  }
}
