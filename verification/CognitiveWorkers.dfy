/** The worker's loops, updating Redis and the process in place. Every method is proved to be a sequence of
    actions of CognitiveStream, so what holds of every run holds of these loops. */
module CognitiveWorkers {
  import opened CognitiveStream

  // `run` leads from s to s'.
  predicate Does(cap: nat, s: State, run: seq<Action>, s': State) {
    Valid(cap, s, run) && Exec(cap, s, run) == s'
  }

  class StreamServer {
    var log: seq<MsgId>
    var pos: nat
    var pending: map<MsgId, Entry>
    var acked: set<MsgId>
    var dlq: seq<MsgId>
    var now: nat

    function Model(): Redis
      reads this
    {
      Redis(log, pos, pending, acked, dlq, now)
    }

    constructor ()
      ensures Model() == INIT.r
    {
      log, pos, pending, acked, dlq, now := [], 0, map[], {}, [], 0;
    }

    method Add(id: MsgId)
      modifies this
      ensures Model() == XAdd(old(Model()), id)
      ensures log == old(log) + [id] && Model() == old(Model()).(log := log)
    {
      log := log + [id];
    }

    // XREADGROUP with ">": the next ten entries after the last-delivered position, or as many as there are.
    method ReadGroup() returns (batch: seq<MsgId>)
      requires pos <= |log|
      modifies this
      ensures Model() == old(Model()).(pos := pos, pending := pending)
      ensures pos == (if |log| - old(pos) <= 10 then |log| else old(pos) + 10) && batch == log[old(pos)..pos]
      ensures forall id :: id in pending <==> id in old(pending) || id in batch
      ensures forall id | id in pending :: pending[id] == if id in batch then Entry(1, now) else old(pending[id])
      ensures Next(old(Model()), batch) && Model() == XReadGroup(old(Model()), batch)
    {
      var n := if |log| - pos <= READ_COUNT then |log| - pos else READ_COUNT;
      batch := log[pos..pos + n];
      pending := Deliver(pending, batch, now);
      pos := pos + n;
    }

    method Ack(id: MsgId)
      modifies this
      ensures Model() == XAck(old(Model()), id)
      ensures pending == old(pending) - {id} && acked == old(acked) + (if id in old(pending) then {id} else {})
      ensures Model() == old(Model()).(pending := pending, acked := acked)
    {
      if id in pending {
        pending, acked := pending - {id}, acked + {id};
      }
    }

    // XCLAIM with a minimum idle time: no reply when the entry is gone or was delivered too recently.
    method Claim(id: MsgId, rest: nat) returns (claimed: bool)
      modifies this
      ensures claimed <==> id in old(pending) && now - old(pending[id].last) >= rest
      ensures claimed ==> pending == old(pending)[id := Entry(old(pending[id].deliveries) + 1, now)]
      ensures Model() == if claimed then old(Model()).(pending := pending) else old(Model())
      ensures claimed <==> old(IdleFor(Model(), id, rest))
      ensures claimed ==> Model() == XClaim(old(Model()), id)
    {
      claimed := id in pending && now - pending[id].last >= rest;
      if claimed {
        pending := pending[id := Entry(pending[id].deliveries + 1, now)];
      }
    }

    // XPENDING with an idle filter: the first idle entries in id order.
    method Pending(rest: nat) returns (reply: seq<Seen>)
      requires forall i, j | 0 <= i < j < |log| :: log[i] != log[j]
      ensures PendingReply(Model(), reply, rest)
      ensures |reply| <= 10 && forall i | 0 <= i < |reply| :: reply[i].id in pending
      ensures forall i | 0 <= i < |reply| :: now - pending[reply[i].id].last >= rest
      ensures forall i | 0 <= i < |reply| :: reply[i].deliveries == pending[reply[i].id].deliveries
      ensures |reply| < 10 ==>
        forall id | id in log && id in pending && now - pending[id].last >= rest :: Lists(reply, id)
    {
      reply := [];
      var i := 0;
      while i < |log| && |reply| < READ_COUNT
        invariant i <= |log| && PendingReply(Model(), reply, rest)
        invariant forall j | i <= j < |log| :: !Lists(reply, log[j])
        invariant |reply| == READ_COUNT ||
          forall j | 0 <= j < i && IdleFor(Model(), log[j], rest) :: Lists(reply, log[j])
      {
        if log[i] in pending && now - pending[log[i]].last >= rest {
          ListNext(Model(), reply, Seen(log[i], pending[log[i]].deliveries), rest);
          reply := reply + [Seen(log[i], pending[log[i]].deliveries)];
        }
        i := i + 1;
      }
    }
  }

  function Max(a: int, b: int): int {
    if a >= b then a else b
  }

  predicate Lists(reply: seq<Seen>, id: MsgId) {
    exists k :: 0 <= k < |reply| && reply[k].id == id
  }

  lemma ListNext(r: Redis, reply: seq<Seen>, seen: Seen, rest: nat)
    requires PendingReply(r, reply, rest) && |reply| < READ_COUNT && !Lists(reply, seen.id)
    requires IdleFor(r, seen.id, rest) && seen.deliveries == r.pending[seen.id].deliveries
    ensures PendingReply(r, reply + [seen], rest)
    ensures forall id :: Lists(reply + [seen], id) <==> Lists(reply, id) || id == seen.id
  {
    var longer := reply + [seen];
    assert longer[|reply|] == seen;
    forall id | Lists(reply, id) ensures Lists(longer, id) {
      var k :| 0 <= k < |reply| && reply[k].id == id;
      assert longer[k].id == id;
    }
  }

  // A goroutine for this task that was not there before.
  predicate Started(before: map<nat, Task>, live: map<nat, Task>, task: Task) {
    exists t :: t in live && t !in before && live[t] == task
  }

  // A first delivery, and a goroutine that waits for its slot, unless the id was in flight.
  predicate FirstDelivered(s: State, id: MsgId, s': State) {
    && id in s'.r.pending && s'.r.pending[id] == Entry(1, s'.r.now) && id in s'.p.inFlight
    && (id in s.p.inFlight || Started(s.p.live, s'.p.live, Task(id, 0, Queued)))
  }

  lemma AllStarted(s: State, batch: seq<MsgId>, s': State)
    requires s.r.pos + |batch| == s'.r.pos <= |s'.r.log| && batch == s'.r.log[s.r.pos..s'.r.pos]
    requires forall id | id in batch :: FirstDelivered(s, id, s')
    ensures forall i | s.r.pos <= i < s'.r.pos :: FirstDelivered(s, s'.r.log[i], s')
  {
    forall i | s.r.pos <= i < s'.r.pos ensures s'.r.log[i] in batch {
      assert batch[i - s.r.pos] == s'.r.log[i];
    }
  }

  // The entry of goroutine t has left the pending list for the acknowledged ones; no other entry has moved.
  predicate Settles(s: State, t: nat, s': State)
    requires t in s.p.live
  {
    var id := s.p.live[t].id;
    && s'.r.pending == s.r.pending - {id}
    && s'.r.acked == s.r.acked + (if id in s.r.pending then {id} else {})
    && s'.r == s.r.(pending := s'.r.pending, acked := s'.r.acked, dlq := s'.r.dlq)
  }

  class CognitiveWorker {
    const server: StreamServer
    const cap: nat
    var fetched: seq<MsgId>
    var inFlight: set<MsgId>
    var live: map<nat, Task>
    var nextTask: nat
    var slots: nat
    var reclaimer: Reclaimer
    ghost var done: set<MsgId>
    ghost var crashes: nat

    ghost function Model(): State
      reads this, server
    {
      State(server.Model(), Process(fetched, inFlight, live, nextTask, slots, reclaimer), done, crashes)
    }

    // Goroutines are numbered as they start.
    ghost predicate Numbered()
      reads this
    {
      forall t | t in live :: t < nextTask
    }

    constructor (server: StreamServer, cap: nat)
      ensures this.server == server && this.cap == cap
      ensures Model() == State(server.Model(), FRESH, {}, 0) && Numbered()
    {
      this.server, this.cap := server, cap;
      fetched, inFlight, live, nextTask, slots, reclaimer := [], {}, map[], 0, 0, Sleeping;
      done, crashes := {}, 0;
    }

    // The body of the read loop for one fetched entry: start a goroutine unless the id is in flight.
    method DispatchOne()
      requires Numbered() && fetched != []
      modifies this
      ensures Model() == old(Model()).(p := DispatchHead(old(Model()).p))
      ensures Numbered() && fetched == old(fetched)[1..] && inFlight == old(inFlight) + {old(fetched[0])}
      ensures forall t | t in old(live) :: t in live && live[t] == old(live[t])
      ensures old(fetched[0]) in old(inFlight) || Started(old(live), live, Task(old(fetched[0]), 0, Queued))
      ensures |live| == |old(live)| + if old(fetched[0]) in old(inFlight) then 0 else 1
    {
      var id := fetched[0];
      assert fetched == [id] + fetched[1..];
      fetched := fetched[1..];
      if id !in inFlight {
        inFlight := inFlight + {id};
        live, nextTask := live[nextTask := Task(id, 0, Queued)], nextTask + 1;
      }
    }

    // One turn of the read loop: fetch a batch and go through it.
    method ReadTurn() returns (ghost run: seq<Action>)
      requires Numbered() && fetched == [] && server.pos <= |server.log|
      modifies this, server
      ensures Numbered() && Does(cap, old(Model()), run, Model())
      ensures fetched == [] && server.log == old(server.log)
      ensures server.pos == (if |server.log| - old(server.pos) <= 10 then |server.log| else old(server.pos) + 10)
      ensures forall i | old(server.pos) <= i < server.pos :: FirstDelivered(old(Model()), server.log[i], Model())
    {
      ghost var s := Model();
      fetched := server.ReadGroup();
      ghost var batch := fetched;
      ExecSnoc(cap, s, [], ReadGroup(batch));
      ghost var more := DispatchAll();
      run := [ReadGroup(batch)] + more;
      ExecConcat(cap, s, [ReadGroup(batch)], more);
      AllStarted(s, batch, Model());
    }

    // Go through the fetched entries.
    method DispatchAll() returns (ghost run: seq<Action>)
      requires Numbered()
      modifies this
      ensures Numbered() && Does(cap, old(Model()), run, Model())
      ensures fetched == []
      ensures forall id | id in old(fetched) ::
        id in inFlight && (id in old(inFlight) || Started(old(live), live, Task(id, 0, Queued)))
    {
      ghost var s, batch := Model(), fetched;
      run := [];
      while fetched != []
        invariant Does(cap, s, run, Model())
        invariant Numbered() && forall t | t in s.p.live :: t in live && live[t] == s.p.live[t]
        invariant forall id | id in batch :: id in fetched || id in inFlight
        invariant forall id | id in inFlight :: id in s.p.inFlight || Started(s.p.live, live, Task(id, 0, Queued))
        decreases |fetched|
      {
        ExecSnoc(cap, s, run, Dispatch);
        run := run + [Dispatch];
        DispatchOne();
      }
    }

    method SetPhase(t: nat, phase: Phase)
      requires t in live
      modifies this`live
      ensures Model() == old(Model()).(p := WithPhase(old(Model()).p, t, phase))
    {
      live := live[t := live[t].(phase := phase)];
    }

    // The handler of a goroutine that holds its slot. `outcome` is what processing the payload comes to.
    method HandleStreamMessage(t: nat, outcome: Outcome) returns (ghost run: seq<Action>)
      requires InPhase(Model().p, t, Running)
      modifies this`live, this`done, server
      ensures Does(cap, old(Model()), run, Model()) && InPhase(Model().p, t, Returning)
      ensures run == match AfterProcessing(old(live[t]).retries, outcome)
        case Acking => [Finish(t, outcome)] + [Ack(t)]
        case DeadLettering => [Finish(t, outcome)] + [DeadLetter(t)] + [Ack(t)]
        case _ => [Finish(t, outcome)]
      ensures outcome == Success ==> server.dlq == old(server.dlq) && done == old(done) + {old(live[t].id)}
      ensures outcome != Success ==> done == old(done)
      ensures outcome == Unrecoverable ==> server.dlq == old(server.dlq) + [old(live[t].id)]
      ensures outcome == Transient && old(live[t].retries) + 1 >= 8 ==>
        server.dlq == old(server.dlq) + [old(live[t].id)]
      ensures outcome == Transient && old(live[t].retries) + 1 < 8 ==> server.Model() == old(server.Model())
      ensures !(outcome == Transient && old(live[t].retries) + 1 < 8) ==> Settles(old(Model()), t, Model())
      ensures live == old(live)[t := old(live[t]).(phase := Returning)]
    {
      ghost var s := Model();
      var task := live[t];
      ExecSnoc(cap, s, [], Finish(t, outcome));
      run := [Finish(t, outcome)];
      assert [] + run == run;
      if outcome == Success {
        SetPhase(t, Acking);
        done := done + {task.id};
        AckTask(t, s, run);
        run := run + [Ack(t)];
      } else if outcome == Unrecoverable || task.retries + 1 >= MAX_RETRIES {
        SetPhase(t, DeadLettering);
        ExecSnoc(cap, s, run, DeadLetter(t));
        run := run + [DeadLetter(t)];
        server.dlq := server.dlq + [task.id];
        SetPhase(t, Acking);
        AckTask(t, s, run);
        run := run + [Ack(t)];
      } else {
        SetPhase(t, Returning);
      }
    }

    method AckTask(t: nat, ghost s: State, ghost run: seq<Action>)
      requires Does(cap, s, run, Model()) && InPhase(Model().p, t, Acking)
      modifies this`live, server
      ensures Does(cap, s, run + [Ack(t)], Model()) && InPhase(Model().p, t, Returning)
      ensures Settles(old(Model()), t, Model()) && server.dlq == old(server.dlq)
      ensures live == old(live)[t := old(live[t]).(phase := Returning)]
    {
      ExecSnoc(cap, s, run, Ack(t));
      server.Ack(live[t].id);
      SetPhase(t, Returning);
    }

    // The deferred function of a goroutine: give the slot back, then take the id out of `inFlight`.
    method Release(t: nat)
      requires InPhase(Model().p, t, Returning)
      modifies this`live, this`inFlight, this`slots
      ensures live == old(live) - {t} && inFlight == old(inFlight) - {old(live[t].id)}
      ensures slots == Max(0, old(slots) - 1)
      ensures Does(cap, old(Model()), [Action.Release(t)], Model())
    {
      ghost var s := Model();
      ExecSnoc(cap, s, [], Action.Release(t));
      assert [] + [Action.Release(t)] == [Action.Release(t)];
      slots := if slots > 0 then slots - 1 else 0;
      live, inFlight := live - {t}, inFlight - {live[t].id};
    }

    // One tick of the reclaim loop. It goes through the reply until it is done, or until it has to wait for a
    // semaphore slot. `n` is how many entries of the reply it has dealt with.
    method ReclaimTurn() returns (ghost run: seq<Action>, ghost reply: seq<Seen>, ghost n: nat)
      requires Numbered() && reclaimer == Sleeping
      requires forall i, j | 0 <= i < j < |server.log| :: server.log[i] != server.log[j]
      modifies this, server
      ensures Numbered() && Does(cap, old(Model()), run, Model())
      ensures old(FullReply(Model().r, reply))
      ensures !reclaimer.Scanning? && GoneThrough(cap, old(Model()), reply, n, Model())
      ensures run != [] && run[0] == Snapshot(reply) && forall i | 0 < i < |run| :: OfReclaimer(run[i])
    {
      ghost var s := Model();
      run, reply := ListPending();
      n := 0;
      assert GoneThrough(cap, s, reply, n, Model());
      while reclaimer.Scanning?
        invariant Numbered() && Does(cap, s, run, Model()) && GoneThrough(cap, s, reply, n, Model())
        invariant run != [] && run[0] == Snapshot(reply) && forall i | 0 < i < |run| :: OfReclaimer(run[i])
        decreases StepsLeft(reclaimer)
      {
        ghost var before := Model();
        ghost var more := ReclaimHead();
        ExecConcat(cap, s, run, more);
        run := run + more;
        NextGone(cap, s, reply, n, before, Model());
        n := if n < |reply| then n + 1 else n;
      }
    }

    method ListPending() returns (ghost run: seq<Action>, ghost reply: seq<Seen>)
      requires Numbered() && reclaimer == Sleeping
      requires forall i, j | 0 <= i < j < |server.log| :: server.log[i] != server.log[j]
      modifies this`reclaimer
      ensures run == [Snapshot(reply)] && Does(cap, old(Model()), run, Model()) && old(FullReply(Model().r, reply))
      ensures Model() == old(Model()).(p := old(Model()).p.(reclaimer := Scanning(reply)))
    {
      var entries := server.Pending(RETRY_IDLE);
      reply := entries;
      ExecSnoc(cap, Model(), [], Snapshot(reply));
      run := [] + [Snapshot(reply)];
      reclaimer := Scanning(entries);
    }

    // One iteration over the reply.
    method ReclaimHead() returns (ghost run: seq<Action>)
      requires Numbered() && reclaimer.Scanning?
      modifies this, server
      ensures Numbered() && Does(cap, old(Model()), run, Model())
      ensures HeadDone(cap, old(Model()), Model()) && forall i | 0 <= i < |run| :: OfReclaimer(run[i])
    {
      ghost var s := Model();
      ExecSnoc(cap, s, [], Check);
      run := [] + [Check];
      var reply := reclaimer.reply;
      if reply == [] {
        reclaimer := Sleeping;
      } else if reply[0].id in inFlight {
        reclaimer := Scanning(reply[1..]);
      } else {
        var head := reply[0];
        reclaimer := Checked(head, reply[1..]);
        ExecSnoc(cap, s, run, Claim);
        run := run + [Claim];
        var claimed := server.Claim(head.id, RETRY_IDLE);
        if !claimed {
          reclaimer := Scanning(reply[1..]);
        } else {
          reclaimer := Claimed(head.id, head.deliveries - 1, reply[1..]);
          assert Does(cap, s, run, Model());
          ghost var more := StartClaimed();
          ExecConcat(cap, s, run, more);
          run := run + more;
        }
      }
    }

    method StartClaimed() returns (ghost run: seq<Action>)
      requires Numbered() && reclaimer.Claimed?
      modifies this
      ensures forall i | 0 <= i < |run| :: OfReclaimer(run[i])
      ensures Numbered() && Does(cap, old(Model()), run, Model())
      ensures old(reclaimer) == Claimed(old(reclaimer.id), old(reclaimer.retries), old(reclaimer.reply))
      ensures Model() == old(Model()).(
        p := InHand(cap, old(Model()).p, old(reclaimer.id), old(reclaimer.retries), old(reclaimer.reply)))
    {
      ghost var s := Model();
      var Claimed(id, retries, reply) := reclaimer;
      ExecSnoc(cap, s, [], Store);
      run := [] + [Store];
      inFlight := inFlight + {id};
      reclaimer := Stored(id, retries, reply);
      if slots < cap {
        ExecSnoc(cap, s, run, Start);
        run := run + [Start];
        slots := slots + 1;
        live, nextTask := live[nextTask := Task(id, retries, Running)], nextTask + 1;
        reclaimer := Scanning(reply);
      }
    }
  }

  /* ---- What a tick of the reclaim loop comes to ---- */

  // At most ten entries that have rested for two minutes, with their delivery counts; all of them if they are fewer.
  predicate FullReply(r: Redis, reply: seq<Seen>) {
    && |reply| <= 10
    && (forall i | 0 <= i < |reply| :: reply[i].id in r.pending && r.now - r.pending[reply[i].id].last >= 120)
    && (forall i | 0 <= i < |reply| :: reply[i].deliveries == r.pending[reply[i].id].deliveries)
    && (forall i, j | 0 <= i < j < |reply| :: reply[i].id != reply[j].id)
    && (|reply| < 10 ==>
          forall id | id in r.log && id in r.pending && r.now - r.pending[id].last >= 120 :: Lists(reply, id))
  }

  // The entry dealt with last waits for its slot.
  predicate Awaits(p: Process, reply: seq<Seen>, n: nat)
    requires 0 < n <= |reply|
  {
    p.reclaimer == Stored(reply[n - 1].id, reply[n - 1].deliveries - 1, reply[n..])
  }

  // The id goes into the map, and its goroutine starts if there is a slot for it.
  function InHand(cap: nat, p: Process, id: MsgId, retries: int, rest: seq<Seen>): Process {
    var p' := p.(inFlight := p.inFlight + {id});
    if p.slots < cap then
      p'.(slots := p.slots + 1, live := p.live[p.nextTask := Task(id, retries, Running)], nextTask := p.nextTask + 1,
          reclaimer := Scanning(rest))
    else p'.(reclaimer := Stored(id, retries, rest))
  }

  // The head is in hand, with one more delivery, unless it was in flight, is gone, or has not rested for long enough.
  ghost predicate HeadTaken(cap: nat, s: State, s': State)
    requires s.p.reclaimer.Scanning? && s.p.reclaimer.reply != []
  {
    var Seen(id, deliveries), rest := s.p.reclaimer.reply[0], s.p.reclaimer.reply[1..];
    if id in s.p.inFlight || id !in s.r.pending || s.r.now - s.r.pending[id].last < 120 then
      s' == s.(p := s.p.(reclaimer := Scanning(rest)))
    else
      s' == s.(r := s.r.(pending := s.r.pending[id := Entry(s.r.pending[id].deliveries + 1, s.r.now)]),
               p := InHand(cap, s.p, id, deliveries - 1, rest))
  }

  // Of the first n entries of the reply, those that were not in flight have one more delivery, are in flight, and have
  // a goroutine, or are about to get one, that knows of the deliveries before. Nothing else happened to the stream.
  ghost predicate ReclaimedFirst(s: State, reply: seq<Seen>, n: nat, s': State)
    requires n <= |reply|
  {
    && s'.r == s.r.(pending := s'.r.pending) && s'.r.pending.Keys == s.r.pending.Keys && s'.p.fetched == s.p.fetched
    && (forall id | id in s.r.pending && (id in s.p.inFlight || !Lists(reply[..n], id)) ::
          s'.r.pending[id] == s.r.pending[id])
    && (forall id | id in s.p.inFlight :: id in s'.p.inFlight)
    && (forall id | id in s'.p.inFlight :: id in s.p.inFlight || Lists(reply[..n], id))
    && (forall t | t in s.p.live :: t in s'.p.live && s'.p.live[t] == s.p.live[t])
    && (forall i | 0 <= i < n && reply[i].id !in s.p.inFlight :: InHandNow(s, reply[i], s'))
  }

  // The loop has dealt with n entries: it is done, at the next entry, or waiting for a slot for the last of them.
  ghost predicate GoneThrough(cap: nat, s: State, reply: seq<Seen>, n: nat, s': State) {
    && n <= |reply| && ReclaimedFirst(s, reply, n, s')
    && match s'.p.reclaimer
       case Sleeping => n == |reply|
       case Scanning(rest) => rest == reply[n..]
       case _ => n > 0 && s'.p.slots >= cap && Awaits(s'.p, reply, n)
  }

  predicate OfReclaimer(a: Action) {
    a.Check? || a.Claim? || a.Store? || a.Start?
  }

  function StepsLeft(rec: Reclaimer): nat {
    if rec.Scanning? then 1 + |rec.reply| else 0
  }

  // One iteration over the reply.
  ghost predicate HeadDone(cap: nat, s: State, s': State)
    requires s.p.reclaimer.Scanning?
  {
    if s.p.reclaimer.reply == [] then s' == s.(p := s.p.(reclaimer := Sleeping)) else HeadTaken(cap, s, s')
  }

  lemma {:induction false} NextGone(cap: nat, s: State, reply: seq<Seen>, n: nat, before: State, s': State)
    requires FullReply(s.r, reply) && GoneThrough(cap, s, reply, n, before)
    requires before.p.reclaimer.Scanning? && before.p.nextTask !in before.p.live && HeadDone(cap, before, s')
    ensures GoneThrough(cap, s, reply, if n < |reply| then n + 1 else n, s')
    ensures StepsLeft(s'.p.reclaimer) < StepsLeft(before.p.reclaimer)
  {
    if n < |reply| {
      assert reply[n..][0] == reply[n] && reply[n..][1..] == reply[n + 1..];
      OneMoreReclaimed(cap, s, reply, n, before, s');
    } else {
      SameReclaimed(s, reply, n, before, s');
    }
  }

  lemma SameReclaimed(s: State, reply: seq<Seen>, n: nat, before: State, s': State)
    requires n <= |reply| && ReclaimedFirst(s, reply, n, before) && before.p.reclaimer.Scanning?
    requires s' == before.(p := before.p.(reclaimer := Sleeping))
    ensures ReclaimedFirst(s, reply, n, s')
  {
    forall i | 0 <= i < n && reply[i].id !in s.p.inFlight ensures InHandNow(s, reply[i], s') {
      assert InHandNow(s, reply[i], before);
    }
  }

  predicate InHandNow(s: State, seen: Seen, s': State) {
    && seen.id in s'.p.inFlight && seen.id in s'.r.pending
    && s'.r.pending[seen.id] == Entry(seen.deliveries + 1, s.r.now)
    && (|| Started(s.p.live, s'.p.live, Task(seen.id, seen.deliveries - 1, Running))
        || (s'.p.reclaimer.Stored? && s'.p.reclaimer.id == seen.id && s'.p.reclaimer.retries == seen.deliveries - 1))
  }

  lemma {:induction false} OneMoreReclaimed(cap: nat, s: State, reply: seq<Seen>, n: nat, before: State, s': State)
    requires n < |reply| && FullReply(s.r, reply) && ReclaimedFirst(s, reply, n, before)
    requires before.p.reclaimer == Scanning(reply[n..]) && before.p.nextTask !in before.p.live
    requires HeadTaken(cap, before, s')
    ensures ReclaimedFirst(s, reply, n + 1, s')
  {
    var id := reply[n].id;
    ListsNext(reply, n);
    NotListedYet(reply, n);
    assert reply[n..][0] == reply[n];
    assert id in before.p.inFlight ==> id in s.p.inFlight;
    assert before.r.pending[id] == s.r.pending[id];
    forall i | 0 <= i < n && reply[i].id !in s.p.inFlight ensures InHandNow(s, reply[i], s') {
      InHandStays(cap, s, reply[i], reply[n], before, s');
    }
    if id !in s.p.inFlight {
      JustInHand(cap, s, reply[n], before, s');
    }
  }

  lemma ListsNext(reply: seq<Seen>, n: nat)
    requires n < |reply|
    ensures forall id :: Lists(reply[..n + 1], id) <==> Lists(reply[..n], id) || id == reply[n].id
  {
    assert reply[..n + 1][n] == reply[n];
    forall id | Lists(reply[..n], id) ensures Lists(reply[..n + 1], id) {
      var k :| 0 <= k < n && reply[..n][k].id == id;
      assert reply[..n + 1][k].id == id;
    }
    forall id | Lists(reply[..n + 1], id) ensures Lists(reply[..n], id) || id == reply[n].id {
      var k :| 0 <= k < n + 1 && reply[..n + 1][k].id == id;
      assert k < n ==> reply[..n][k].id == id;
    }
  }

  lemma NotListedYet(reply: seq<Seen>, n: nat)
    requires n < |reply| && forall i, j | 0 <= i < j < |reply| :: reply[i].id != reply[j].id
    ensures !Lists(reply[..n], reply[n].id)
  {
  }

  lemma {:induction false} InHandStays(cap: nat, s: State, seen: Seen, head: Seen, before: State, s': State)
    requires InHandNow(s, seen, before) && head.id != seen.id && before.r.now == s.r.now
    requires before.p.reclaimer.Scanning? && before.p.reclaimer.reply != [] && before.p.reclaimer.reply[0] == head
    requires before.p.nextTask !in before.p.live && HeadTaken(cap, before, s')
    ensures InHandNow(s, seen, s')
  {
    var t :| t in before.p.live && t !in s.p.live && before.p.live[t] == Task(seen.id, seen.deliveries - 1, Running);
    assert t in s'.p.live && s'.p.live[t] == before.p.live[t];
  }

  lemma {:induction false} JustInHand(cap: nat, s: State, seen: Seen, before: State, s': State)
    requires seen.id !in before.p.inFlight && seen.id in before.r.pending && before.r.now == s.r.now
    requires s.r.now - before.r.pending[seen.id].last >= 120 && seen.deliveries == before.r.pending[seen.id].deliveries
    requires before.p.reclaimer.Scanning? && before.p.reclaimer.reply != [] && before.p.reclaimer.reply[0] == seen
    requires before.p.nextTask !in before.p.live && (forall t | t in s.p.live :: t in before.p.live)
    requires HeadTaken(cap, before, s')
    ensures InHandNow(s, seen, s')
  {
    if before.p.slots < cap {
      assert s'.p.live[before.p.nextTask] == Task(seen.id, seen.deliveries - 1, Running);
    }
  }
}
