/** The second group reaches its bound of four attempts, and its skip rule drains it from every state a run reaches. */
module ExperienceDrain {
  import opened CognitiveStream
  import opened ExperienceStream

  /* ---- Four attempts do happen ---- */

  predicate NoCrash(run: seq<Move>) {
    forall i | 0 <= i < |run| :: !run[i].Crashed?
  }

  // A run from g to g' with n attempts on entry 0.
  ghost predicate Leads(g: Group, run: seq<Move>, g': Group, n: nat) {
    Legal(g, run) && After(g, run) == g' && AttemptsIn(g, run, 0) == n && NoCrash(run)
  }

  lemma One(g: Group, m: Move, g': Group)
    requires Allowed(g, m) && Do(g, m) == g' && !m.Crashed?
    ensures Leads(g, [m], g', if Attempted(g, m, 0) then 1 else 0)
  {
    assert [m][1..] == [];
  }

  lemma {:induction false} Join(g: Group, run: seq<Move>, g': Group, n: nat, more: seq<Move>, g'': Group, m: nat)
    requires Leads(g, run, g', n) && Leads(g', more, g'', m)
    ensures Leads(g, run + more, g'', n + m)
    decreases |run|
  {
    if run == [] {
      assert run + more == more;
    } else {
      assert (run + more)[1..] == run[1..] + more;
      var h := Do(g, run[0]);
      Join(h, run[1..], g', AttemptsIn(h, run[1..], 0), more, g'', m);
    }
  }

  // One entry, delivered d times; nothing is in progress.
  function Resting(d: nat, now: nat, next: nat): Group {
    Group(Redis([0], 1, map[0 := Entry(d, now)], {}, [], now), [], map[], next, [], {}, {})
  }

  lemma FirstFails() returns (run: seq<Move>)
    ensures Leads(START, run, Resting(1, 0, 1), 1)
  {
    var g1 := START.(r := XAdd(START.r, 0));
    var g2 := Resting(1, 0, 0).(fetched := [0]);
    var g3 := Resting(1, 0, 1).(live := map[0 := 0]);
    assert XReadGroup(g1.r, [0]).pending == g2.r.pending;
    assert [0][1..] == [] && g3.live - {0} == map[];
    One(START, Arrive(0), g1);
    One(g1, Fetch([0]), g2);
    One(g2, Begin, g3);
    One(g3, Failed(0), Resting(1, 0, 1));
    Join(START, [Arrive(0)], g1, 0, [Fetch([0])], g2, 0);
    Join(START, [Arrive(0)] + [Fetch([0])], g2, 0, [Begin], g3, 1);
    Join(START, [Arrive(0)] + [Fetch([0])] + [Begin], g3, 1, [Failed(0)], Resting(1, 0, 1), 0);
    run := [Arrive(0)] + [Fetch([0])] + [Begin] + [Failed(0)];
  }

  lemma NextFails(d: nat, now: nat, next: nat) returns (run: seq<Move>)
    requires 1 <= d <= SKIP_AFTER
    ensures Leads(Resting(d, now, next), run, Resting(d + 1, now + IDLE, next + 1), 1)
  {
    var later := now + IDLE;
    var g0, g4 := Resting(d, now, next), Resting(d + 1, later, next + 1);
    var g1 := g0.(r := g0.r.(now := later));
    var g2 := g1.(reply := [Seen(0, d)]);
    var g3 := g4.(live := map[next := 0]);
    assert [Seen(0, d)][1..] == [] && g3.live - {next} == map[];
    One(g0, Wait(IDLE), g1);
    One(g1, List([Seen(0, d)]), g2);
    One(g2, Visit, g3);
    One(g3, Failed(next), g4);
    Join(g0, [Wait(IDLE)], g1, 0, [List([Seen(0, d)])], g2, 0);
    Join(g0, [Wait(IDLE)] + [List([Seen(0, d)])], g2, 0, [Visit], g3, 1);
    Join(g0, [Wait(IDLE)] + [List([Seen(0, d)])] + [Visit], g3, 1, [Failed(next)], g4, 0);
    run := [Wait(IDLE)] + [List([Seen(0, d)])] + [Visit] + [Failed(next)];
  }

  /** The bound of four is sharp. */
  lemma FourAttemptsHappen() returns (run: seq<Move>)
    ensures Legal(START, run) && AttemptsIn(START, run, 0) == 4 && NoCrash(run)
  {
    var one := FirstFails();
    var two := NextFails(1, 0, 1);
    var three := NextFails(2, IDLE, 2);
    var four := NextFails(3, 2 * IDLE, 3);
    Join(START, one, Resting(1, 0, 1), 1, two, Resting(2, IDLE, 2), 1);
    Join(START, one + two, Resting(2, IDLE, 2), 2, three, Resting(3, 2 * IDLE, 3), 1);
    Join(START, one + two + three, Resting(3, 2 * IDLE, 3), 3, four, Resting(4, 3 * IDLE, 4), 1);
    run := one + two + three + four;
  }

  /* ---- The skip rule drains the group ---- */

  // Whether the attempt of a goroutine in a state succeeds.
  type Policy = (Group, nat) -> bool

  predicate Fitting(policy: Policy, g: Group, m: Move) {
    match m
    case Processed(t) => policy(g, t)
    case Failed(t) => !policy(g, t)
    case Arrive(_) => false
    case Crashed => false
    case _ => true
  }

  predicate Obeys(policy: Policy, g: Group, run: seq<Move>)
    requires Legal(g, run)
    decreases |run|
  {
    run == [] || (Fitting(policy, g, run[0]) && Obeys(policy, Do(g, run[0]), run[1..]))
  }

  // A run from g to g' without new entries or crashes that obeys a policy; a group's invariant holds at its end.
  ghost predicate Trail(policy: Policy, g: Group, run: seq<Move>, g': Group) {
    Legal(g, run) && After(g, run) == g' && Obeys(policy, g, run) && Inv(g')
  }

  lemma {:induction false} StepTrail(policy: Policy, g: Group, m: Move, rest: seq<Move>, g': Group)
    requires Allowed(g, m) && Fitting(policy, g, m) && Trail(policy, Do(g, m), rest, g')
    ensures Trail(policy, g, [m] + rest, g')
  {
    assert ([m] + rest)[1..] == rest;
  }

  lemma {:induction false} JoinTrails(policy: Policy, g: Group, run: seq<Move>, g': Group, more: seq<Move>, g'': Group)
    requires Trail(policy, g, run, g') && Trail(policy, g', more, g'')
    ensures Trail(policy, g, run + more, g'')
    decreases |run|
  {
    if run == [] {
      assert run + more == more;
    } else {
      assert (run + more)[1..] == run[1..] + more;
      JoinTrails(policy, Do(g, run[0]), run[1..], g', more, g'');
    }
  }

  lemma {:induction false} InvAfter(g: Group, m: Move)
    requires Inv(g) && Allowed(g, m)
    ensures Inv(Do(g, m))
  {
    MoveKeepsInv(g, m, 0);
  }

  // What is left once the loops and the goroutines have finished what they hold.
  predicate Quiet(g: Group) {
    g.fetched == [] && g.live == map[] && g.reply == []
  }

  function Outcome(policy: Policy, g: Group, t: nat): Move {
    if policy(g, t) then Processed(t) else Failed(t)
  }

  // Goroutines finish; an entry whose attempts all fail keeps its deliveries.
  lemma {:induction false} FinishLive(policy: Policy, g: Group) returns (run: seq<Move>, g': Group)
    requires Inv(g)
    ensures Trail(policy, g, run, g') && g'.live == map[]
    ensures g'.fetched == g.fetched && g'.reply == g.reply && g'.r.log == g.r.log && g'.r.pos == g.r.pos
    ensures forall id | id in g'.r.pending :: id in g.r.pending && g'.r.pending[id] == g.r.pending[id]
    decreases |g.live|
  {
    if g.live == map[] {
      run, g' := [], g;
    } else {
      var t :| t in g.live;
      var m := Outcome(policy, g, t);
      InvAfter(g, m);
      assert Do(g, m).live.Keys == g.live.Keys - {t};
      run, g' := FinishLive(policy, Do(g, m));
      StepTrail(policy, g, m, run, g');
      run := [m] + run;
    }
  }

  lemma {:induction false} VisitAll(policy: Policy, g: Group) returns (run: seq<Move>, g': Group)
    requires Inv(g)
    ensures Trail(policy, g, run, g') && g'.reply == [] && g'.r.log == g.r.log
    decreases |g.reply|
  {
    if g.reply == [] {
      run, g' := [], g;
    } else {
      InvAfter(g, Visit);
      run, g' := VisitAll(policy, Do(g, Visit));
      StepTrail(policy, g, Visit, run, g');
      run := [Visit] + run;
    }
  }

  // The read loop starts what it fetched, and fetches the rest of the log one by one.
  lemma {:induction false} ReadAll(policy: Policy, g: Group) returns (run: seq<Move>, g': Group)
    requires Inv(g) && g.reply == []
    ensures Trail(policy, g, run, g') && g'.fetched == [] && g'.reply == []
    ensures g'.r.pos == |g'.r.log| && g'.r.log == g.r.log
    decreases |g.r.log| - g.r.pos, |g.fetched|
  {
    if g.fetched == [] && g.r.pos == |g.r.log| {
      run, g' := [], g;
    } else {
      var m := if g.fetched != [] then Begin else Fetch([g.r.log[g.r.pos]]);
      InvAfter(g, m);
      run, g' := ReadAll(policy, Do(g, m));
      StepTrail(policy, g, m, run, g');
      run := [m] + run;
    }
  }

  // An entry rests, is listed and visited: one more attempt, or the skip.
  lemma {:induction false} VisitOne(policy: Policy, g: Group, id: MsgId) returns (run: seq<Move>, g': Group)
    requires Inv(g) && Quiet(g) && id in g.r.pending
    ensures Trail(policy, g, run, g') && Quiet(g') && g'.r.log == g.r.log && g'.r.pos == g.r.pos
    ensures forall x | x in g'.r.pending && x != id :: x in g.r.pending
    ensures id in g'.r.pending ==> g'.r.pending[id].deliveries == g.r.pending[id].deliveries + 1
  {
    var rest, list := Wait(IDLE + g.r.pending[id].last), List([Seen(id, g.r.pending[id].deliveries)]);
    var g1 := Do(g, rest);
    var g2 := Do(g1, list);
    var g3 := Do(g2, Visit);
    InvAfter(g, rest);
    InvAfter(g1, list);
    InvAfter(g2, Visit);
    run, g' := FinishLive(policy, g3);
    StepTrail(policy, g2, Visit, run, g');
    StepTrail(policy, g1, list, [Visit] + run, g');
    StepTrail(policy, g, rest, [list] + ([Visit] + run), g');
    run := [rest] + ([list] + ([Visit] + run));
  }

  // After five visits at most the entry is processed or skipped.
  lemma {:induction false} DrainOne(policy: Policy, g: Group, id: MsgId) returns (run: seq<Move>, g': Group)
    requires Inv(g) && Quiet(g) && id in g.r.pending
    ensures Trail(policy, g, run, g') && Quiet(g') && g'.r.log == g.r.log && g'.r.pos == g.r.pos
    ensures g'.r.pending.Keys <= g.r.pending.Keys - {id}
    decreases SKIP_AFTER + 1 - g.r.pending[id].deliveries
  {
    run, g' := VisitOne(policy, g, id);
    if id in g'.r.pending {
      var mid, more := g', [];
      more, g' := DrainOne(policy, mid, id);
      JoinTrails(policy, g, run, mid, more, g');
      run := run + more;
    }
  }

  lemma {:induction false} DrainAll(policy: Policy, g: Group) returns (run: seq<Move>, g': Group)
    requires Inv(g) && Quiet(g)
    ensures Trail(policy, g, run, g') && Quiet(g') && g'.r.pending == map[]
    ensures g'.r.log == g.r.log && g'.r.pos == g.r.pos
    decreases |g.r.pending|
  {
    if g.r.pending == map[] {
      run, g' := [], g;
    } else {
      var id :| id in g.r.pending;
      var mid, more;
      run, mid := DrainOne(policy, g, id);
      Fewer(mid.r.pending, g.r.pending, id);
      more, g' := DrainAll(policy, mid);
      JoinTrails(policy, g, run, mid, more, g');
      run := run + more;
    }
  }

  lemma Fewer(a: map<MsgId, Entry>, b: map<MsgId, Entry>, id: MsgId)
    requires id in b && a.Keys <= b.Keys - {id}
    ensures |a| < |b|
  {
    SubsetSize(a.Keys, b.Keys - {id});
    assert |a| == |a.Keys| && |b| == |b.Keys|;
  }

  lemma {:induction false} SubsetSize(a: set<MsgId>, b: set<MsgId>)
    requires a <= b
    ensures |a| <= |b|
  {
    assert b == a + (b - a);
  }

  lemma {:induction false} NoSuccessNoDone(policy: Policy, g: Group, run: seq<Move>)
    requires Legal(g, run) && Obeys(policy, g, run) && forall x, t :: !policy(x, t)
    ensures After(g, run).done == g.done
    decreases |run|
  {
    if run != [] {
      NoSuccessNoDone(policy, Do(g, run[0]), run[1..]);
    }
  }

  /** After any run, crashes and overlapping attempts included, and whatever becomes of the attempts, some run without
      new entries or crashes ends with every entry acknowledged and nothing in progress; and if no attempt succeeds,
      every entry not processed before was skipped. */
  lemma {:induction false} SkipRuleDrains(before: seq<Move>, policy: Policy) returns (run: seq<Move>, g': Group)
    requires Legal(START, before)
    ensures var g := After(START, before);
      && Trail(policy, g, run, g') && Quiet(g') && g'.r.log == g.r.log && g'.r.pending == map[]
      && (forall id | id in g.r.log :: id in g'.r.acked)
      && ((forall x, t :: !policy(x, t)) ==> forall id | id in g.r.log :: id in g.done || id in g'.skipped)
  {
    var g := After(START, before);
    SkipBound(START, before, 0);
    var one, g1 := VisitAll(policy, g);
    var two, g2 := ReadAll(policy, g1);
    var three, g3 := FinishLive(policy, g2);
    var four;
    four, g' := DrainAll(policy, g3);
    JoinTrails(policy, g, one, g1, two, g2);
    JoinTrails(policy, g, one + two, g2, three, g3);
    JoinTrails(policy, g, one + two + three, g3, four, g');
    run := one + two + three + four;
    if forall x, t :: !policy(x, t) {
      NoSuccessNoDone(policy, g, run);
    }
  }
}
