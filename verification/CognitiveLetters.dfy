/** How often an entry can be dead-lettered when the read loop may be slow. */
module CognitiveLetters {
  import opened CognitiveStream
  import opened CognitiveExclusion
  import opened CognitiveBounds
  import opened CognitiveRuns
  import opened CognitiveOverlap

  // Goroutines on the entry that are about to acknowledge it ...
  function Acks(p: Process, id: MsgId): set<nat> {
    set t | t in p.live && p.live[t].id == id && p.live[t].phase == Acking
  }

  // ... and those that may still dead-letter it.
  function Early(p: Process, id: MsgId): set<nat> {
    set t | t in p.live && p.live[t].id == id && IsEarly(p.live[t].phase)
  }

  predicate IsEarly(phase: Phase) {
    phase == Queued || phase == Running || phase == DeadLettering
  }

  // Deliveries of the entry that may still end in the dead-letter queue.
  function Undecided(p: Process, id: MsgId): nat {
    |Early(p, id)| + Bit(id in p.fetched) + Bit(Reclaiming(p, id))
  }

  function Letters(s: State, id: MsgId): nat {
    multiset(s.r.dlq)[id]
  }

  // While the entry is pending, a dead letter is owed to a crash or to a goroutine about to acknowledge.
  ghost predicate LettersKept(s: State, id: MsgId) {
    if id in s.r.acked then Letters(s, id) + Undecided(s.p, id) <= 2 + s.crashes
    else if id in s.r.pending then
      || (Together(s, id) && Letters(s, id) <= s.crashes + |Acks(s.p, id)|)
      || (Alone(s, id) && Letters(s, id) <= s.crashes + 1 + |Acks(s.p, id)|)
    else Letters(s, id) == 0
  }

  lemma {:induction false} Disjoint(p: Process, id: MsgId)
    ensures |Acks(p, id)| + |Early(p, id)| <= |Copies(p, id)|
  {
    assert |Acks(p, id) + Early(p, id)| == |Acks(p, id)| + |Early(p, id)|;
    assert Copies(p, id) == Acks(p, id) + Early(p, id) + (Copies(p, id) - Acks(p, id) - Early(p, id));
  }

  /* ---- What each step costs ---- */

  ghost predicate Paid(s: State, s': State, id: MsgId) {
    && s'.crashes == s.crashes
    && (id in s.r.acked ==>
          id in s'.r.acked && Letters(s', id) + Undecided(s'.p, id) <= Letters(s, id) + Undecided(s.p, id))
    && (id in s.r.pending ==> WasDelivered(s'.r, id))
    && (id in s.r.pending && id in s'.r.acked ==>
          Letters(s', id) == Letters(s, id) && Undecided(s'.p, id) == Undecided(s.p, id))
    && (id in s.r.pending && id !in s'.r.acked ==>
          Letters(s', id) + |Acks(s.p, id)| <= Letters(s, id) + |Acks(s'.p, id)|)
    && (!WasDelivered(s.r, id) ==> id !in s'.r.acked && Letters(s', id) == Letters(s, id))
  }

  lemma {:induction false} PaidKeeps(s: State, s': State, id: MsgId)
    requires LettersKept(s, id) && Paid(s, s', id) && Follows(s, s', false, id)
    requires (id in s.r.pending ==> id !in s.r.acked) && (id in s'.r.pending ==> id !in s'.r.acked)
    ensures LettersKept(s', id)
  {
    Disjoint(s.p, id);
  }

  lemma {:induction false} CrashKeeps(s: State, id: MsgId)
    requires LettersKept(s, id) && (id in s.r.pending ==> id !in s.r.acked)
    requires Follows(s, s.(p := FRESH, crashes := s.crashes + 1), true, id)
    ensures LettersKept(s.(p := FRESH, crashes := s.crashes + 1), id)
  {
    assert Acks(FRESH, id) == {} && Early(FRESH, id) == {};
    Disjoint(s.p, id);
  }

  lemma {:induction false} SameTasks(p: Process, p': Process, id: MsgId)
    requires p'.live == p.live
    ensures Acks(p', id) == Acks(p, id) && Early(p', id) == Early(p, id)
  {
  }

  lemma {:induction false} NewTask(p: Process, p': Process, t: nat, task: Task, id: MsgId)
    requires t !in p.live && p'.live == p.live[t := task] && IsEarly(task.phase)
    ensures Acks(p', id) == Acks(p, id) && |Early(p', id)| == |Early(p, id)| + Bit(task.id == id)
  {
    assert Acks(p', id) == Acks(p, id);
    assert Early(p', id) == if task.id == id then Early(p, id) + {t} else Early(p, id);
    Plus(Early(p, id), t);
  }

  lemma {:induction false} NewPhase(p: Process, t: nat, phase: Phase, id: MsgId)
    requires t in p.live
    ensures var p' := WithPhase(p, t, phase);
      && |Acks(p', id)| == |Acks(p, id)| + Bit(p.live[t].id == id && phase == Acking) - Bit(t in Acks(p, id))
      && |Early(p', id)| == |Early(p, id)| + Bit(p.live[t].id == id && IsEarly(phase)) - Bit(t in Early(p, id))
  {
    var p' := WithPhase(p, t, phase);
    OthersStay(p, t, phase, id);
    OneChanges(Acks(p, id), Acks(p', id), t);
    OneChanges(Early(p, id), Early(p', id), t);
  }

  lemma {:induction false} OthersStay(p: Process, t: nat, phase: Phase, id: MsgId)
    requires t in p.live
    ensures Acks(WithPhase(p, t, phase), id) - {t} == Acks(p, id) - {t}
    ensures Early(WithPhase(p, t, phase), id) - {t} == Early(p, id) - {t}
  {
  }

  lemma OneChanges(a: set<nat>, b: set<nat>, t: nat)
    requires a - {t} == b - {t}
    ensures |b| == |a| + Bit(t in b) - Bit(t in a)
  {
    Minus(a, t);
    Minus(b, t);
  }

  lemma {:induction false} Left(p: Process, t: nat, id: MsgId)
    requires InPhase(p, t, Returning)
    ensures Acks(ReleaseTask(p, t), id) == Acks(p, id) && Early(ReleaseTask(p, t), id) == Early(p, id)
  {
  }

  lemma {:induction false} PaidOutside(cap: nat, s: State, a: Action, id: MsgId)
    requires Base(s) && Enabled(cap, s, a) && (a.Add? || a.Tick? || a.Snapshot? || a.Check? || a.Store?)
    ensures Paid(s, Apply(cap, s, a), id)
  {
    OnlyOne(s.r, id);
    SameTasks(s.p, Apply(cap, s, a).p, id);
  }

  lemma {:induction false} PaidClaim(cap: nat, s: State, id: MsgId)
    requires Base(s) && Enabled(cap, s, Claim)
    ensures Paid(s, ClaimHead(s), id)
  {
    OnlyOne(s.r, s.p.reclaimer.head.id);
    OnlyOne(s.r, id);
    SameTasks(s.p, ClaimHead(s).p, id);
  }

  lemma {:induction false} PaidRead(cap: nat, s: State, batch: seq<MsgId>, id: MsgId)
    requires Base(s) && Enabled(cap, s, ReadGroup(batch))
    ensures Paid(s, FetchBatch(s, batch), id)
  {
    ReadGroupDelivers(s.r, batch);
    OnlyOne(s.r, id);
    SameTasks(s.p, FetchBatch(s, batch).p, id);
  }

  lemma {:induction false} PaidDispatch(cap: nat, s: State, id: MsgId)
    requires Base(s) && Enabled(cap, s, Dispatch)
    ensures Paid(s, Apply(cap, s, Dispatch), id)
  {
    var head, p' := s.p.fetched[0], DispatchHead(s.p);
    HeadGoes(s.p, id);
    OnlyOne(s.r, id);
    if head in s.p.inFlight {
      SameTasks(s.p, p', id);
    } else {
      NewTask(s.p, p', s.p.nextTask, Task(head, 0, Queued), id);
    }
  }

  lemma {:induction false} PaidStart(cap: nat, s: State, id: MsgId)
    requires Base(s) && Enabled(cap, s, Start)
    ensures Paid(s, Apply(cap, s, Start), id)
  {
    var Stored(owner, retries, _) := s.p.reclaimer;
    OnlyOne(s.r, id);
    NewTask(s.p, StartStored(s.p), s.p.nextTask, Task(owner, retries, Running), id);
  }

  lemma {:induction false} PaidTask(cap: nat, s: State, a: Action, id: MsgId)
    requires Base(s) && Enabled(cap, s, a) && (a.Acquire? || a.Finish? || a.DeadLetter?)
    ensures Paid(s, Apply(cap, s, a), id)
  {
    var p' := Apply(cap, s, a).p;
    OnlyOne(s.r, id);
    NewPhase(s.p, a.t, p'.live[a.t].phase, id);
    SameTasks(WithPhase(s.p, a.t, p'.live[a.t].phase), p', id);
  }

  lemma {:induction false} PaidAck(cap: nat, s: State, t: nat, id: MsgId)
    requires Base(s) && Enabled(cap, s, Ack(t))
    ensures Paid(s, Apply(cap, s, Ack(t)), id)
  {
    OnlyOne(s.r, id);
    NewPhase(s.p, t, Returning, id);
  }

  lemma {:induction false} PaidRelease(cap: nat, s: State, t: nat, id: MsgId)
    requires Base(s) && Enabled(cap, s, Release(t))
    ensures Paid(s, Apply(cap, s, Release(t)), id)
  {
    OnlyOne(s.r, id);
    Left(s.p, t, id);
  }

  lemma {:induction false} PaidStep(cap: nat, s: State, a: Action, id: MsgId)
    requires Base(s) && Enabled(cap, s, a) && !a.Crash?
    ensures Paid(s, Apply(cap, s, a), id)
  {
    match a
    case ReadGroup(batch) => PaidRead(cap, s, batch, id);
    case Dispatch => PaidDispatch(cap, s, id);
    case Ack(t) => PaidAck(cap, s, t, id);
    case Release(t) => PaidRelease(cap, s, t, id);
    case Claim => PaidClaim(cap, s, id);
    case Start => PaidStart(cap, s, id);
    case _ =>
      if a.Acquire? || a.Finish? || a.DeadLetter? {
        PaidTask(cap, s, a, id);
      } else {
        PaidOutside(cap, s, a, id);
      }
  }

  lemma {:induction false} LettersStep(cap: nat, s: State, a: Action, id: MsgId)
    requires Base(s) && Overlap(s, id) && LettersKept(s, id) && Enabled(cap, s, a)
    ensures LettersKept(Apply(cap, s, a), id)
  {
    KeptStep(cap, s, a, id);
    BaseStep(cap, s, a);
    OnlyOne(s.r, id);
    OnlyOne(Apply(cap, s, a).r, id);
    if a.Crash? {
      CrashKeeps(s, id);
    } else {
      PaidStep(cap, s, a, id);
      PaidKeeps(s, Apply(cap, s, a), id);
    }
  }

  lemma {:induction false} LettersRun(cap: nat, s: State, run: seq<Action>, id: MsgId)
    requires Base(s) && Overlap(s, id) && LettersKept(s, id) && Valid(cap, s, run)
    ensures var s' := Exec(cap, s, run); Base(s') && Overlap(s', id) && LettersKept(s', id)
    decreases |run|
  {
    if run != [] {
      BaseStep(cap, s, run[0]);
      KeptStep(cap, s, run[0], id);
      OverlapFollows(s, Apply(cap, s, run[0]), run[0].Crash?, id);
      LettersStep(cap, s, run[0], id);
      LettersRun(cap, Apply(cap, s, run[0]), run[1..], id);
    }
  }

  /** The dead-letter bound of every run, however slow the read loop is: two, and one more for each crash. */
  lemma EveryRunLetters(cap: nat, run: seq<Action>, id: MsgId)
    requires Valid(cap, INIT, run)
    ensures multiset(Exec(cap, INIT, run).r.dlq)[id] <= 2 + CountCrashes(run)
  {
    LettersRun(cap, INIT, run, id);
    SameCrashes(cap, INIT, run);
    Disjoint(Exec(cap, INIT, run).p, id);
  }
}
