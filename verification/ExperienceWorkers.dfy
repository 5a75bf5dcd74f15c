/** The experience worker's loops, updating Redis and the process in place, as moves of ExperienceStream. */
module ExperienceWorkers {
  import opened CognitiveStream
  import opened ExperienceStream
  import Workers = CognitiveWorkers

  // `run` leads from g to g'.
  predicate Takes(g: Group, run: seq<Move>, g': Group) {
    Legal(g, run) && After(g, run) == g'
  }

  // A goroutine on this entry that was not there before.
  predicate Started(before: map<nat, MsgId>, live: map<nat, MsgId>, id: MsgId) {
    exists t :: t in live && t !in before && live[t] == id
  }

  class ExperienceWorker {
    const server: Workers.StreamServer
    var fetched: seq<MsgId>
    var live: map<nat, MsgId>
    var next: nat
    var reply: seq<Seen>
    ghost var done: set<MsgId>
    ghost var skipped: set<MsgId>

    ghost function Model(): Group
      reads this, server
    {
      Group(server.Model(), fetched, live, next, reply, done, skipped)
    }

    // Goroutines are numbered as they start.
    ghost predicate Numbered()
      reads this
    {
      forall t | t in live :: t < next
    }

    constructor (server: Workers.StreamServer)
      ensures this.server == server && Model() == Group(server.Model(), [], map[], 0, [], {}, {}) && Numbered()
    {
      this.server := server;
      fetched, live, next, reply, done, skipped := [], map[], 0, [], {}, {};
    }

    // One turn of the read loop: every fetched entry gets a goroutine.
    method ReadTurn() returns (ghost run: seq<Move>)
      requires Numbered() && fetched == [] && server.pos <= |server.log|
      modifies this, server
      ensures Numbered() && Takes(old(Model()), run, Model())
      ensures fetched == [] && server.log == old(server.log)
      ensures server.pos == (if |server.log| - old(server.pos) <= 10 then |server.log| else old(server.pos) + 10)
      ensures next == old(next) + (server.pos - old(server.pos))
      ensures forall i | old(server.pos) <= i < server.pos :: FirstDelivered(old(Model()), server.log[i], Model())
    {
      ghost var g := Model();
      fetched := server.ReadGroup();
      ghost var batch := fetched;
      AfterSnoc(g, [], Fetch(batch));
      ghost var more := BeginAll();
      run := [Fetch(batch)] + more;
      AfterConcat(g, [Fetch(batch)], more);
      AllDelivered(g, batch, Model());
    }

    method BeginAll() returns (ghost run: seq<Move>)
      requires Numbered()
      modifies this
      ensures Numbered() && Takes(old(Model()), run, Model())
      ensures fetched == [] && next == old(next) + |old(fetched)|
      ensures forall id | id in old(fetched) :: Started(old(live), live, id)
    {
      ghost var g := Model();
      run := [];
      while fetched != []
        invariant Numbered() && Takes(g, run, Model())
        invariant next + |fetched| == old(next) + |old(fetched)|
        invariant forall t | t in g.live :: t in live && live[t] == g.live[t]
        invariant forall id | id in g.fetched :: id in fetched || Started(g.live, live, id)
        decreases |fetched|
      {
        AfterSnoc(g, run, Begin);
        run := run + [Begin];
        assert fetched == [fetched[0]] + fetched[1..];
        BeginStarts(g.live, live, next, fetched[0]);
        live, next, fetched := live[next := fetched[0]], next + 1, fetched[1..];
      }
    }

    // A goroutine: acknowledge on success, and leave the entry pending on an error.
    method Process(t: nat, ok: bool) returns (ghost m: Move)
      requires t in live
      modifies this, server
      ensures m == if ok then Processed(t) else Failed(t)
      ensures Takes(old(Model()), [m], Model())
      ensures !ok ==> Model() == old(Model()).(live := live)
      ensures ok ==> Acknowledges(old(server.Model()), old(live[t]), server.Model())
      ensures ok ==> done == old(done) + {old(live[t])}
      ensures live == old(live) - {t} && skipped == old(skipped)
    {
      m := if ok then Processed(t) else Failed(t);
      AfterSnoc(Model(), [], m);
      assert [] + [m] == [m];
      if ok {
        server.Ack(live[t]);
        done := done + {live[t]};
      }
      live := live - {t};
    }

    // One tick of the reclaim loop.
    method ReclaimTurn() returns (ghost run: seq<Move>, ghost entries: seq<Seen>)
      requires Numbered() && reply == []
      requires forall i, j | 0 <= i < j < |server.log| :: server.log[i] != server.log[j]
      modifies this, server
      ensures Numbered() && Takes(old(Model()), run, Model())
      ensures reply == [] && |run| == 1 + |entries| && Ticks(run, entries)
      ensures GoneThrough(old(Model()), entries, |entries|, Model())
    {
      ghost var g := Model();
      run, entries := ListPending();
      ghost var visits := VisitAll(g, entries);
      AfterConcat(g, run, visits);
      run := run + visits;
    }

    // Go through the reply.
    method VisitAll(ghost g: Group, ghost entries: seq<Seen>) returns (ghost run: seq<Move>)
      requires Numbered() && GoneThrough(g, entries, 0, Model())
      modifies this, server
      ensures Numbered() && Takes(old(Model()), run, Model()) && GoneThrough(g, entries, |entries|, Model())
      ensures |run| == |entries| && forall i | 0 <= i < |run| :: run[i].Visit?
    {
      ghost var start := Model();
      run := [];
      while reply != []
        invariant Numbered() && Takes(start, run, Model()) && GoneThrough(g, entries, |run|, Model())
        invariant forall i | 0 <= i < |run| :: run[i].Visit?
        decreases |reply|
      {
        ghost var before := Model();
        AfterSnoc(start, run, Visit);
        VisitOne();
        OneMoreVisited(g, entries, |run|, before, Model());
        run := run + [Visit];
      }
    }

    method ListPending() returns (ghost run: seq<Move>, ghost entries: seq<Seen>)
      requires Numbered() && reply == []
      requires forall i, j | 0 <= i < j < |server.log| :: server.log[i] != server.log[j]
      modifies this`reply
      ensures run == [List(entries)] && Takes(old(Model()), run, Model())
      ensures Model() == old(Model()).(reply := entries) && GoneThrough(old(Model()), entries, 0, Model())
    {
      reply := server.Pending(IDLE);
      entries := reply;
      AfterSnoc(old(Model()), [], List(reply));
      run := [] + [List(reply)];
    }

    // Skip an entry delivered too often; otherwise claim it and start a goroutine.
    method VisitOne()
      requires Numbered() && reply != []
      modifies this, server
      ensures Numbered() && Model() == VisitHead(old(Model())) && Visited(old(Model()), Model())
    {
      var Seen(id, deliveries) := reply[0];
      reply := reply[1..];
      if deliveries > SKIP_AFTER {
        skipped := if id in server.pending then skipped + {id} else skipped;
        server.Ack(id);
        return;
      }
      var claimed := server.Claim(id, IDLE);
      if claimed {
        live, next := live[next := id], next + 1;
      }
    }
  }

  /* ---- What the loops come to ---- */

  // A first delivery, and a goroutine for it.
  predicate FirstDelivered(g: Group, id: MsgId, g': Group) {
    id in g'.r.pending && g'.r.pending[id] == Entry(1, g'.r.now) && Started(g.live, g'.live, id)
  }

  lemma AllDelivered(g: Group, batch: seq<MsgId>, g': Group)
    requires g.r.pos + |batch| == g'.r.pos <= |g'.r.log| && batch == g'.r.log[g.r.pos..g'.r.pos]
    requires forall id | id in batch :: FirstDelivered(g, id, g')
    ensures forall i | g.r.pos <= i < g'.r.pos :: FirstDelivered(g, g'.r.log[i], g')
  {
    forall i | g.r.pos <= i < g'.r.pos ensures g'.r.log[i] in batch {
      assert batch[i - g.r.pos] == g'.r.log[i];
    }
  }

  lemma BeginStarts(before: map<nat, MsgId>, live: map<nat, MsgId>, next: nat, id: MsgId)
    requires next !in live && forall t | t in before :: t in live
    ensures Started(before, live[next := id], id)
    ensures forall x | Started(before, live, x) :: Started(before, live[next := id], x)
  {
    assert live[next := id][next] == id;
    forall x | Started(before, live, x) ensures Started(before, live[next := id], x) {
      var t :| t in live && t !in before && live[t] == x;
      assert live[next := id][t] == x;
    }
  }

  // The entry has left the pending list for the acknowledged ones; nothing else has changed.
  predicate Acknowledges(r: Redis, id: MsgId, r': Redis) {
    r' == r.(pending := r.pending - {id}, acked := r.acked + if id in r.pending then {id} else {})
  }

  // At most ten entries that have rested for a minute, with their delivery counts; all of them if they are fewer.
  predicate FullReply(r: Redis, reply: seq<Seen>) {
    && |reply| <= 10
    && (forall i | 0 <= i < |reply| :: reply[i].id in r.pending && r.now - r.pending[reply[i].id].last >= 60)
    && (forall i | 0 <= i < |reply| :: reply[i].deliveries == r.pending[reply[i].id].deliveries)
    && (forall i, j | 0 <= i < j < |reply| :: reply[i].id != reply[j].id)
    && (|reply| < 10 ==>
          forall id | id in r.log && id in r.pending && r.now - r.pending[id].last >= 60 :: Workers.Lists(reply, id))
  }

  // The head is skipped after four deliveries, or else, if it has rested for a minute, delivered once more.
  predicate Visited(g: Group, g': Group)
    requires g.reply != []
  {
    var Seen(id, deliveries) := g.reply[0];
    if deliveries > 3 then
      && Acknowledges(g.r, id, g'.r) && g'.live == g.live
      && g'.skipped == g.skipped + (if id in g.r.pending then {id} else {})
    else if id in g.r.pending && g.r.now - g.r.pending[id].last >= 60 then
      && g'.r == g.r.(pending := g.r.pending[id := Entry(g.r.pending[id].deliveries + 1, g.r.now)])
      && g'.live == g.live[g.next := id] && g'.skipped == g.skipped
    else g'.r == g.r && g'.live == g.live && g'.skipped == g.skipped
  }

  // Of the first n entries listed, those delivered four times are acknowledged as skipped, and the others have one
  // more delivery and a goroutine; no other pending entry has changed.
  ghost predicate VisitedFirst(g: Group, entries: seq<Seen>, n: nat, g': Group)
    requires n <= |entries|
  {
    && g'.r.log == g.r.log && g'.r.now == g.r.now && g'.r.dlq == g.r.dlq && g'.done == g.done && g'.fetched == g.fetched
    && (forall t | t in g.live :: t in g'.live && g'.live[t] == g.live[t])
    && (forall id | !Workers.Lists(entries[..n], id) ::
          && (id in g'.r.pending <==> id in g.r.pending) && (id in g.r.pending ==> g'.r.pending[id] == g.r.pending[id])
          && (id in g'.r.acked <==> id in g.r.acked) && (id in g'.skipped <==> id in g.skipped))
    && (forall i | 0 <= i < n :: Done(g, entries[i], g'))
  }

  // A listing, and visits only.
  predicate Ticks(run: seq<Move>, entries: seq<Seen>) {
    run != [] && run[0] == List(entries) && forall i | 0 < i < |run| :: run[i].Visit?
  }

  predicate Skipped(id: MsgId, g': Group) {
    id !in g'.r.pending && id in g'.r.acked && id in g'.skipped
  }

  predicate Again(g: Group, seen: Seen, g': Group) {
    && seen.id in g'.r.pending && g'.r.pending[seen.id] == Entry(seen.deliveries + 1, g.r.now)
    && Started(g.live, g'.live, seen.id)
  }

  // The loop has visited n entries of a full reply.
  ghost predicate GoneThrough(g: Group, entries: seq<Seen>, n: nat, g': Group) {
    && n <= |entries| && FullReply(g.r, entries) && g'.reply == entries[n..]
    && VisitedFirst(g, entries, n, g')
  }

  predicate Done(g: Group, seen: Seen, g': Group) {
    if seen.deliveries > 3 then Skipped(seen.id, g') else Again(g, seen, g')
  }

  lemma {:induction false} DoneStays(g: Group, seen: Seen, before: Group, g': Group)
    requires Done(g, seen, before) && before.reply != [] && before.reply[0].id != seen.id
    requires before.next !in before.live && (forall t | t in g.live :: t in before.live) && Visited(before, g')
    ensures Done(g, seen, g')
  {
    BeginStarts(g.live, before.live, before.next, before.reply[0].id);
  }

  lemma {:induction false} JustDone(g: Group, seen: Seen, before: Group, g': Group)
    requires before.reply != [] && before.reply[0] == seen && seen.id in before.r.pending && before.r.now == g.r.now
    requires before.r.now - before.r.pending[seen.id].last >= 60
    requires before.r.pending[seen.id].deliveries == seen.deliveries
    requires before.next !in before.live && (forall t | t in g.live :: t in before.live)
    requires g' == VisitHead(before) && Visited(before, g')
    ensures Done(g, seen, g')
  {
    BeginStarts(g.live, before.live, before.next, seen.id);
  }

  lemma {:induction false} OneMoreVisited(g: Group, entries: seq<Seen>, n: nat, before: Group, g': Group)
    requires GoneThrough(g, entries, n, before) && before.reply != [] && before.next !in before.live
    requires g' == VisitHead(before) && Visited(before, g')
    ensures GoneThrough(g, entries, n + 1, g')
  {
    var seen := entries[n];
    Workers.ListsNext(entries, n);
    Workers.NotListedYet(entries, n);
    assert entries[n..][0] == seen && before.r.pending[seen.id] == g.r.pending[seen.id];
    forall i | 0 <= i < n + 1 ensures Done(g, entries[i], g') {
      if i < n {
        DoneStays(g, entries[i], before, g');
      } else {
        JustDone(g, seen, before, g');
      }
    }
  }
}
