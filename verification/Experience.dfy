/** The life of one stored experience: merges, uses, feedback and deactivation. */
module Experience {

  datatype Exp = Exp(confidence: real, usageCount: nat, successCount: nat, active: bool)

  datatype Signal = Merge | Use | Positive | Negative | Deactivation

  const FRESH := Exp(0.5, 0, 0, true)

  function Least(x: real, y: real): real {
    if x <= y then x else y
  }

  function Greatest(x: real, y: real): real {
    if x >= y then x else y
  }

  function After(e: Exp, s: Signal): Exp {
    match s
    case Merge => e.(confidence := Least(1.0, e.confidence + 0.05))
    case Use => e.(usageCount := e.usageCount + 1)
    case Positive =>
      e.(successCount := e.successCount + 1,
         confidence := Least(1.0, (e.successCount + 1) as real / (e.usageCount + 1) as real))
    case Negative =>
      e.(confidence := Greatest(0.01, e.confidence - 0.15), active := e.active && e.confidence - 0.15 >= 0.1)
    case Deactivation => e.(active := false)
  }

  function Run(e: Exp, ss: seq<Signal>): Exp {
    if ss == [] then e else After(Run(e, ss[..|ss| - 1]), ss[|ss| - 1])
  }

  class Record {
    var confidence: real
    var usageCount: nat
    var successCount: nat
    var active: bool
    ghost var past: seq<Signal> // all signals so far

    function Model(): Exp
      reads this
    {
      Exp(confidence, usageCount, successCount, active)
    }

    // The record is what the run of its signals makes of a fresh one.
    ghost predicate Valid()
      reads this
    {
      Model() == Run(FRESH, past)
    }

    constructor ()
      ensures Valid() && past == [] && Model() == FRESH
    {
      confidence, usageCount, successCount, active, past := 0.5, 0, 0, true, [];
    }

    ghost method Remember(s: Signal)
      requires Model() == After(Run(FRESH, past), s)
      modifies this`past
      ensures Valid() && past == old(past) + [s]
    {
      assert (past + [s])[..|past|] == past;
      past := past + [s];
    }

    // A similar experience was extracted.
    method MergeInto()
      requires Valid()
      modifies this
      ensures Valid() && past == old(past) + [Merge] && Model() == After(old(Model()), Merge)
      ensures confidence == if old(confidence) > 0.95 then 1.0 else old(confidence) + 0.05
      ensures usageCount == old(usageCount) && successCount == old(successCount) && active == old(active)
    {
      confidence := Least(1.0, confidence + 0.05);
      Remember(Merge);
    }

    method RecordUsage()
      requires Valid()
      modifies this
      ensures Valid() && past == old(past) + [Use] && Model() == After(old(Model()), Use)
      ensures usageCount == old(usageCount) + 1
      ensures confidence == old(confidence) && successCount == old(successCount) && active == old(active)
    {
      usageCount := usageCount + 1;
      Remember(Use);
    }

    // Right-hand sides read the row before the update.
    method RecordFeedback(positive: bool)
      requires Valid()
      modifies this
      ensures Valid() && past == old(past) + [if positive then Positive else Negative]
      ensures Model() == After(old(Model()), if positive then Positive else Negative)
      ensures usageCount == old(usageCount) && successCount == old(successCount) + if positive then 1 else 0
      ensures positive ==> active == old(active)
      ensures positive && old(successCount) < old(usageCount) ==>
        confidence == (old(successCount) + 1) as real / (old(usageCount) + 1) as real
      ensures positive && old(successCount) >= old(usageCount) ==> confidence == 1.0
      ensures !positive ==> active == (old(active) && old(confidence) >= 0.25)
      ensures !positive ==> confidence == if old(confidence) < 0.16 then 0.01 else old(confidence) - 0.15
    {
      CappedShare(successCount, usageCount);
      if positive {
        successCount, confidence :=
          successCount + 1, Least(1.0, (successCount + 1) as real / (usageCount + 1) as real);
      } else {
        confidence, active :=
          Greatest(0.01, confidence - 0.15), if confidence - 0.15 < 0.1 then false else active;
      }
      Remember(if positive then Positive else Negative);
    }

    method Deactivate()
      requires Valid()
      modifies this
      ensures Valid() && past == old(past) + [Deactivation] && Model() == After(old(Model()), Deactivation)
      ensures !active
      ensures confidence == old(confidence) && usageCount == old(usageCount) && successCount == old(successCount)
    {
      active := false;
      Remember(Deactivation);
    }
  }

  /* ---- Over every interleaving ---- */

  predicate Sane(e: Exp) {
    0.0 < e.confidence <= 1.0
  }

  function Count(ss: seq<Signal>, s: Signal): (n: nat)
    ensures n <= |ss|
  {
    if ss == [] then 0 else Count(ss[..|ss| - 1], s) + if ss[|ss| - 1] == s then 1 else 0
  }

  lemma CappedShare(a: nat, b: nat)
    ensures Least(1.0, (a + 1) as real / (b + 1) as real) == if a < b then (a + 1) as real / (b + 1) as real else 1.0
  {
    var x, y := (a + 1) as real, (b + 1) as real;
    assert x / y <= 1.0 <==> x <= y;
  }

  lemma ShareIsPositive(a: nat, b: nat)
    ensures 0.0 < (a + 1) as real / (b + 1) as real
  {
  }

  /** Confidence stays in (0, 1], and an experience that was deactivated stays so: in a run the rest never turns
      it on again. */
  lemma {:induction false} RunsStaySane(e: Exp, ss: seq<Signal>)
    requires Sane(e)
    ensures Sane(Run(e, ss))
    ensures Run(e, ss).active ==> forall k | 0 <= k <= |ss| :: Run(e, ss[..k]).active
  {
    if ss == [] {
      assert ss[..0] == ss;
    } else {
      var front := ss[..|ss| - 1];
      RunsStaySane(e, front);
      ShareIsPositive(Run(e, front).successCount, Run(e, front).usageCount);
      forall k | 0 <= k <= |ss| && Run(e, ss).active ensures Run(e, ss[..k]).active {
        if k < |ss| {
          assert front[..k] == ss[..k];
        } else {
          assert ss[..k] == ss;
        }
      }
    }
  }

  /** Without praise, every complaint costs 0.15 and every merge gives back at most 0.05 as long as the experience is
      active, however they are interleaved with uses: so it is deactivated at the latest when 0.15 for each
      complaint eats up what it had, what merges gave, and the threshold. */
  lemma {:induction false} ComplaintsAddUp(e: Exp, ss: seq<Signal>)
    requires Sane(e) && Count(ss, Positive) == 0 && Run(e, ss).active
    ensures Run(e, ss).confidence <= e.confidence + 0.05 * Count(ss, Merge) as real - 0.15 * Count(ss, Negative) as real
    ensures Count(ss, Negative) > 0 ==>
              0.1 <= e.confidence + 0.05 * Count(ss, Merge) as real - 0.15 * Count(ss, Negative) as real
  {
    if ss != [] {
      ComplaintsAddUp(e, ss[..|ss| - 1]);
    }
  }

  /** What keeps an experience active: it was so, nobody deactivated it, and no complaint found it with a confidence
      below 0.25. Merges, uses and praise have no part in it but through the confidence. */
  lemma {:induction false} ActiveIff(e: Exp, ss: seq<Signal>)
    ensures Run(e, ss).active <==>
      e.active && forall k | 0 <= k < |ss| ::
        ss[k] != Deactivation && (ss[k] == Negative ==> Run(e, ss[..k]).confidence >= 0.25)
  {
    if ss != [] {
      var n := |ss| - 1;
      ActiveIff(e, ss[..n]);
      assert forall k | 0 <= k < n :: ss[..n][k] == ss[k] && ss[..n][..k] == ss[..k];
    }
  }

  function Negatives(n: nat): (ss: seq<Signal>)
    ensures |ss| == n
  {
    seq(n, _ => Negative)
  }

  /** What n complaints in a row leave, for every experience and every n. */
  lemma {:induction false} NegativesInARow(e: Exp, n: nat)
    ensures var e', rest := Run(e, Negatives(n)), e.confidence - 0.15 * n as real;
      && e' == e.(confidence := e'.confidence, active := e'.active)
      && e'.confidence == (if n == 0 then e.confidence else Greatest(0.01, rest))
      && (e'.active <==> e.active && (n == 0 || rest >= 0.1))
  {
    if n > 0 {
      NegativesInARow(e, n - 1);
      assert Negatives(n)[..n - 1] == Negatives(n - 1);
    }
  }

  /** Seven complaints in a row deactivate every experience, and no fewer do. */
  lemma SevenDeactivate(n: nat)
    ensures (forall e | Sane(e) :: !Run(e, Negatives(n)).active) <==> n >= 7
  {
    forall e | Sane(e) && n >= 7 ensures !Run(e, Negatives(n)).active {
      NegativesInARow(e, n);
    }
    if n < 7 {
      var best := FRESH.(confidence := 1.0);
      NegativesInARow(best, n);
      assert Sane(best) && Run(best, Negatives(n)).active;
    }
  }

  /** The third complaint in a row deactivates a fresh experience; in general three do exactly if confidence is
      below 0.55. */
  lemma ThreeDeactivateIff(e: Exp, n: nat)
    ensures Run(FRESH, Negatives(n)).active <==> n < 3
    ensures e.active ==> (Run(e, Negatives(3)).active <==> e.confidence >= 0.55)
  {
    NegativesInARow(FRESH, n);
    NegativesInARow(e, 3);
  }

  function Merges(n: nat): (ss: seq<Signal>)
    ensures |ss| == n
  {
    seq(n, _ => Merge)
  }

  // What n merges in a row give back.
  lemma {:induction false} MergesInARow(e: Exp, n: nat)
    requires Sane(e)
    ensures Run(e, Merges(n)) == e.(confidence := Least(1.0, e.confidence + 0.05 * n as real))
  {
    if n > 0 {
      MergesInARow(e, n - 1);
      assert Merges(n)[..n - 1] == Merges(n - 1);
    }
  }

  lemma {:induction false} RunConcat(e: Exp, ss: seq<Signal>, more: seq<Signal>)
    ensures Run(e, ss + more) == Run(Run(e, ss), more)
  {
    if more == [] {
      assert ss + more == ss;
    } else {
      var init := more[..|more| - 1];
      assert (ss + more)[..|ss + more| - 1] == ss + init;
      RunConcat(e, ss, init);
    }
  }

  /** Three merges make up for one complaint: after n complaints and three merges for each, an experience is as
      confident as before, exactly if the complaints did not pass the floor or it was at the cap. But it is active
      only if it was, and they had not met the threshold: no merge brings back what complaints deactivated. */
  lemma {:induction false} MergesMakeUp(e: Exp, n: nat)
    requires Sane(e)
    ensures var e' := Run(e, Negatives(n) + Merges(3 * n));
      && (e'.confidence == e.confidence <==> n == 0 || e.confidence - 0.15 * n as real >= 0.01 || e.confidence == 1.0)
      && (e'.active <==> e.active && (n == 0 || e.confidence - 0.15 * n as real >= 0.1))
  {
    RunConcat(e, Negatives(n), Merges(3 * n));
    NegativesInARow(e, n);
    MergesInARow(Run(e, Negatives(n)), 3 * n);
  }

  /** Praise forgets what came before: right after it, confidence is the praises so far over the uses and one more. */
  lemma {:induction false} PraiseCounts(ss: seq<Signal>)
    ensures Run(FRESH, ss).usageCount == Count(ss, Use) && Run(FRESH, ss).successCount == Count(ss, Positive)
    ensures ss != [] && ss[|ss| - 1] == Positive ==>
              Run(FRESH, ss).confidence == Least(1.0, Count(ss, Positive) as real / (Count(ss, Use) + 1) as real)
  {
    if ss != [] {
      PraiseCounts(ss[..|ss| - 1]);
    }
  }
}
