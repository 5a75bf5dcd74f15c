/** The importance of stored memory records under feedback and periodic decay. */
module Importance {

  import opened Wrappers

  datatype Kind = LifeEvent | UserCharacter | Persona | PersonaContext | RagChunk

  // Times are days.
  datatype Memory = Memory(kind: Kind, importance: real, accessCount: nat, lastAccessed: Option<int>)

  const FLOOR := 0.01

  function Floored(x: real): real {
    if x < FLOOR then FLOOR else x
  }

  function Capped(x: real): real {
    if x > 1.0 then 1.0 else x
  }

  function Delta(positive: bool): real {
    if positive then 0.1 else -0.1
  }

  predicate Stale(m: Memory, now: int, days: nat) {
    m.kind != RagChunk && (m.lastAccessed.None? || m.lastAccessed.value < now - days)
  }

  function Rated(m: Memory, positive: bool, now: int): Memory {
    m.(accessCount := m.accessCount + 1, lastAccessed := Some(now),
       importance := Capped(Floored(m.importance + Delta(positive))))
  }

  function Decayed(x: real, rate: real): real {
    Floored(x * (1.0 - rate))
  }

  function Faded(m: Memory, rate: real, now: int, days: nat): Memory {
    if Stale(m, now, days) then m.(importance := Decayed(m.importance, rate)) else m
  }

  class MemoryTable {
    var rows: seq<Memory>
    ghost var initial: seq<Memory> // the rows at the start
    ghost var past: seq<Event>     // all updates since

    // The rows are what the run of the updates makes of the rows at the start.
    ghost predicate Valid()
      reads this
    {
      rows == Run(initial, past)
    }

    constructor (initial: seq<Memory>)
      ensures Valid() && this.initial == initial == rows && past == []
    {
      rows, this.initial, past := initial, initial, [];
    }

    ghost method Remember(e: Event)
      requires rows == After(Run(initial, past), e)
      modifies this`past
      ensures Valid() && past == old(past) + [e]
    {
      assert (past + [e])[..|past|] == past;
      past := past + [e];
    }

    // An update of no row when the record is missing.
    method RecordFeedback(i: nat, positive: bool, now: int)
      requires Valid()
      modifies this
      ensures Valid() && initial == old(initial) && past == old(past) + [Feedback(i, positive, now)]
      ensures rows == After(old(rows), Feedback(i, positive, now))
      ensures i >= |rows| ==> rows == old(rows)
      ensures i < |rows| ==>
        var m := old(rows)[i];
        var x := m.importance + if positive then 0.1 else -0.1;
        var clamped := if x < 0.01 then 0.01 else if x > 1.0 then 1.0 else x;
        rows == old(rows)[i := Memory(m.kind, clamped, m.accessCount + 1, Some(now))]
    {
      var delta := if positive then 0.1 else -0.1;
      if i < |rows| {
        var m := rows[i];
        rows := rows[i := Memory(m.kind, Capped(Floored(m.importance + delta)), m.accessCount + 1, Some(now))];
      }
      Remember(Feedback(i, positive, now));
    }

    // One statement over all rows.
    method DecayImportance(rate: real, now: int, days: nat) returns (affected: nat)
      requires Valid()
      modifies this
      ensures Valid() && initial == old(initial) && past == old(past) + [Decay(rate, now, days)]
      ensures rows == After(old(rows), Decay(rate, now, days))
      ensures affected == |StaleRows(old(rows), |rows|, now, days)|
      ensures |rows| == |old(rows)| && forall i | 0 <= i < |rows| ::
        var m := old(rows)[i];
        var y := m.importance * (1.0 - rate);
        rows[i] ==
          if m.kind != RagChunk && (m.lastAccessed.None? || m.lastAccessed.value < now - days)
          then m.(importance := if y < 0.01 then 0.01 else y)
          else m
      ensures affected == |set i | 0 <= i < |rows| && IsStale(old(rows)[i], now, days)|
    {
      assert StaleRows(rows, |rows|, now, days) == set i | 0 <= i < |rows| && IsStale(rows[i], now, days);
      affected := FadeRows(rate, now, days);
      Remember(Decay(rate, now, days));
    }

    method FadeRows(rate: real, now: int, days: nat) returns (affected: nat)
      modifies this`rows
      ensures rows == After(old(rows), Decay(rate, now, days))
      ensures affected == |StaleRows(old(rows), |rows|, now, days)|
    {
      affected := 0;
      var i := 0;
      ghost var was := rows;
      while i < |rows|
        invariant i <= |rows| == |was|
        invariant forall j | 0 <= j < i :: rows[j] == Faded(was[j], rate, now, days)
        invariant forall j | i <= j < |was| :: rows[j] == was[j]
        invariant affected == |StaleRows(was, i, now, days)|
      {
        NextStale(was, i, now, days);
        if Stale(rows[i], now, days) {
          rows := rows[i := rows[i].(importance := Decayed(rows[i].importance, rate))];
          affected := affected + 1;
        }
        i := i + 1;
      }
    }
  }

  // Not a chunk of a document, and not accessed for so many days or never.
  predicate IsStale(m: Memory, now: int, days: nat) {
    && m.kind in {LifeEvent, UserCharacter, Persona, PersonaContext}
    && (m.lastAccessed == None || m.lastAccessed.value < now - days)
  }

  // The stale ones among the first n rows.
  function StaleRows(rows: seq<Memory>, n: nat, now: int, days: nat): set<int>
    requires n <= |rows|
  {
    set i | 0 <= i < n && Stale(rows[i], now, days)
  }

  lemma NextStale(rows: seq<Memory>, i: nat, now: int, days: nat)
    requires i < |rows|
    ensures |StaleRows(rows, i + 1, now, days)| ==
      |StaleRows(rows, i, now, days)| + if Stale(rows[i], now, days) then 1 else 0
  {
    var before := StaleRows(rows, i, now, days);
    assert StaleRows(rows, i + 1, now, days) == if Stale(rows[i], now, days) then before + {i} else before;
  }

  /* ---- Over every interleaving ---- */

  datatype Event = Feedback(i: nat, positive: bool, at: int) | Decay(rate: real, now: int, days: nat)

  // Feedback on a missing row changes nothing.
  function After(rows: seq<Memory>, e: Event): (r: seq<Memory>)
    ensures |r| == |rows|
  {
    match e
    case Feedback(i, positive, at) => if i < |rows| then rows[i := Rated(rows[i], positive, at)] else rows
    case Decay(rate, now, days) => seq(|rows|, i requires 0 <= i < |rows| => Faded(rows[i], rate, now, days))
  }

  function Run(rows: seq<Memory>, es: seq<Event>): (r: seq<Memory>)
    ensures |r| == |rows|
  {
    if es == [] then rows else After(Run(rows, es[..|es| - 1]), es[|es| - 1])
  }

  predicate Fraction(rate: real) {
    0.0 <= rate <= 1.0
  }

  predicate InRange(x: real) {
    FLOOR <= x <= 1.0
  }

  lemma ScaleDown(y: real, keep: real)
    requires Fraction(keep) && y >= 0.0
    ensures 0.0 <= y * keep <= y
  {
    NotNegative(y, keep);
    NotNegative(y, 1.0 - keep);
    assert y * (1.0 - keep) == y - y * keep;
  }

  lemma NotNegative(a: real, b: real)
    requires a >= 0.0 && b >= 0.0
    ensures a * b >= 0.0
  {
  }

  lemma DecayInRange(x: real, rate: real)
    requires Fraction(rate) && InRange(x)
    ensures InRange(Decayed(x, rate)) && Decayed(x, rate) <= x
  {
    ScaleDown(x, 1.0 - rate);
  }

  /** Any mix of feedback and decay, over any number of records, keeps every importance in [0.01, 1]. */
  lemma {:induction false} ImportanceStaysInRange(rows: seq<Memory>, es: seq<Event>)
    requires forall i | 0 <= i < |rows| :: InRange(rows[i].importance)
    requires forall k | 0 <= k < |es| && es[k].Decay? :: Fraction(es[k].rate)
    ensures forall i | 0 <= i < |rows| :: InRange(Run(rows, es)[i].importance)
  {
    if es != [] {
      var front, e := Run(rows, es[..|es| - 1]), es[|es| - 1];
      ImportanceStaysInRange(rows, es[..|es| - 1]);
      forall i | 0 <= i < |rows| ensures InRange(After(front, e)[i].importance) {
        if e.Decay? {
          DecayInRange(front[i].importance, e.rate);
        }
      }
    }
  }

  /* ---- Feedback in a row ---- */

  // n signals about one row, one at each time from `at` on.
  function Signals(i: nat, positive: bool, at: int, n: nat): (es: seq<Event>)
    ensures |es| == n
  {
    seq(n, k requires 0 <= k < n => Feedback(i, positive, at + k))
  }

  /** Praise raises and complaints lower: n in a row move the importance by 0.1 each, up to 1 or down to 0.01, count n
      accesses, and leave every other row alone. */
  lemma {:induction false} SignalsInARow(rows: seq<Memory>, i: nat, positive: bool, at: int, n: nat)
    requires i < |rows| && InRange(rows[i].importance)
    ensures var m, m' := rows[i], Run(rows, Signals(i, positive, at, n))[i];
      && (positive ==> m'.importance == Capped(m.importance + 0.1 * n as real))
      && (!positive ==> m'.importance == Floored(m.importance - 0.1 * n as real))
      && m'.accessCount == m.accessCount + n && m'.kind == m.kind
      && m'.lastAccessed == if n == 0 then m.lastAccessed else Some(at + n - 1)
    ensures forall j | 0 <= j < |rows| && j != i :: Run(rows, Signals(i, positive, at, n))[j] == rows[j]
  {
    if n > 0 {
      SignalsInARow(rows, i, positive, at, n - 1);
      assert Signals(i, positive, at, n)[..n - 1] == Signals(i, positive, at, n - 1);
    }
  }

  /* ---- Uninterrupted decay ---- */

  function Power(x: real, n: nat): real {
    if n == 0 then 1.0 else x * Power(x, n - 1)
  }

  function Decays(x: real, rate: real, n: nat): real {
    if n == 0 then x else Decayed(Decays(x, rate, n - 1), rate)
  }

  lemma {:induction false} PowerInRange(x: real, n: nat)
    requires Fraction(x)
    ensures Fraction(Power(x, n))
  {
    if n > 0 {
      PowerInRange(x, n - 1);
      ScaleDown(Power(x, n - 1), x);
    }
  }

  // Decay without the floor.
  function Unfloored(x: real, rate: real, n: nat): real {
    if n == 0 then x else Unfloored(x, rate, n - 1) * (1.0 - rate)
  }

  lemma {:induction false} UnflooredIsPower(x: real, rate: real, n: nat)
    ensures Unfloored(x, rate, n) == x * Power(1.0 - rate, n)
  {
    if n > 0 {
      UnflooredIsPower(x, rate, n - 1);
      Regroup(x, 1.0 - rate, Power(1.0 - rate, n - 1));
    }
  }

  lemma Regroup(a: real, b: real, c: real)
    ensures (a * c) * b == a * (b * c)
  {
  }

  lemma {:induction false} FloorOnce(x: real, rate: real, n: nat)
    requires Fraction(rate) && InRange(x)
    ensures Unfloored(x, rate, n) >= 0.0 && Decays(x, rate, n) == Floored(Unfloored(x, rate, n))
  {
    if n > 0 {
      FloorOnce(x, rate, n - 1);
      ScaleDown(Unfloored(x, rate, n - 1), 1.0 - rate);
      ScaleDown(FLOOR, 1.0 - rate);
    }
  }

  // The importance x scaled n times, with the floor applied once.
  function ClosedForm(x: real, rate: real, n: nat): real {
    Floored(x * Power(1.0 - rate, n))
  }

  lemma DecaysInClosedForm(x: real, rate: real, n: nat)
    requires Fraction(rate) && InRange(x)
    ensures Decays(x, rate, n) == ClosedForm(x, rate, n)
  {
    FloorOnce(x, rate, n);
    UnflooredIsPower(x, rate, n);
  }

  /* ---- A row that nobody touches ---- */

  predicate Untouched(es: seq<Event>, i: nat) {
    forall k | 0 <= k < |es| && es[k].Feedback? :: es[k].i != i
  }

  function Rounds(es: seq<Event>): nat {
    if es == [] then 0 else Rounds(es[..|es| - 1]) + if es[|es| - 1].Decay? then 1 else 0
  }

  // Every decay of a run has the same rate and finds the row stale.
  predicate FindsStale(m: Memory, es: seq<Event>, rate: real) {
    forall k | 0 <= k < |es| && es[k].Decay? :: es[k].rate == rate && Stale(m, es[k].now, es[k].days)
  }

  lemma {:induction false} UntouchedRowDecays(rows: seq<Memory>, es: seq<Event>, i: nat, rate: real)
    requires i < |rows| && Untouched(es, i) && FindsStale(rows[i], es, rate)
    ensures Run(rows, es)[i] == rows[i].(importance := Decays(rows[i].importance, rate, Rounds(es)))
  {
    if es != [] {
      UntouchedRowDecays(rows, es[..|es| - 1], i, rate);
    }
  }

  /** Decay has a closed form. In every run, whatever happens to other rows, a row that gets no feedback and that every
      decay finds stale ends with its importance scaled once for each decay; the floor is applied as if only once. */
  lemma {:induction false} UninterruptedDecay(rows: seq<Memory>, es: seq<Event>, i: nat, rate: real)
    requires i < |rows| && Untouched(es, i) && FindsStale(rows[i], es, rate)
    requires Fraction(rate) && InRange(rows[i].importance)
    ensures Run(rows, es)[i].importance == ClosedForm(rows[i].importance, rate, Rounds(es))
  {
    UntouchedRowDecays(rows, es, i, rate);
    DecaysInClosedForm(rows[i].importance, rate, Rounds(es));
  }

  // The decay worker's runs: one rate, one age, and time that only goes on.
  predicate Regular(es: seq<Event>, rate: real, days: nat) {
    && (forall k | 0 <= k < |es| && es[k].Decay? :: es[k].rate == rate && es[k].days == days)
    && (forall j, k | 0 <= j < k < |es| && es[j].Decay? && es[k].Decay? :: es[j].now <= es[k].now)
  }

  /** What the first decay finds stale, every later one does: a row is picked up again only by feedback. */
  lemma {:induction false} StaleStaysStale(m: Memory, es: seq<Event>, rate: real, days: nat, first: nat)
    requires Regular(es, rate, days) && first < |es| && es[first].Decay? && forall k | 0 <= k < first :: !es[k].Decay?
    ensures FindsStale(m, es, rate) <==> Stale(m, es[first].now, days)
  {
  }

  lemma {:induction false} PowerIsSmall(rate: real, n: nat)
    requires Fraction(rate)
    ensures Power(1.0 - rate, n) * (1.0 + n as real * rate) <= 1.0
  {
    if n > 0 {
      PowerIsSmall(rate, n - 1);
      PowerInRange(1.0 - rate, n - 1);
      var p, k := Power(1.0 - rate, n - 1), (n - 1) as real;
      calc {
        Power(1.0 - rate, n) * (1.0 + n as real * rate);
        ==
        p * ((1.0 - rate) * (1.0 + (k + 1.0) * rate));
        == { assert (1.0 - rate) * (1.0 + (k + 1.0) * rate) == 1.0 + k * rate - (k + 1.0) * (rate * rate); }
        p * (1.0 + k * rate - (k + 1.0) * (rate * rate));
        ==
        p * (1.0 + k * rate) - p * ((k + 1.0) * (rate * rate));
        <= { assert p * ((k + 1.0) * (rate * rate)) >= 0.0; }
        p * (1.0 + k * rate);
      }
    }
  }

  /** A record nobody touches sinks to the floor: as soon as the rounds that found it stale, times the rate, reach
      99. */
  lemma {:induction false} UntouchedRecordsSink(rows: seq<Memory>, es: seq<Event>, i: nat, rate: real)
    requires i < |rows| && Untouched(es, i) && FindsStale(rows[i], es, rate)
    requires Fraction(rate) && InRange(rows[i].importance) && Rounds(es) as real * rate >= 99.0
    ensures Run(rows, es)[i].importance == FLOOR
  {
    var x, n := rows[i].importance, Rounds(es);
    UntouchedRowDecays(rows, es, i, rate);
    FloorOnce(x, rate, n);
    SunkProduct(x, rate, n);
  }

  lemma SunkProduct(x: real, rate: real, n: nat)
    requires Fraction(rate) && InRange(x) && n as real * rate >= 99.0
    ensures Unfloored(x, rate, n) <= FLOOR
  {
    UnflooredIsPower(x, rate, n);
    PowerIsSmall(rate, n);
    PowerInRange(1.0 - rate, n);
    SmallProduct(Power(1.0 - rate, n), 1.0 + n as real * rate, x);
  }

  lemma SmallProduct(p: real, large: real, x: real)
    requires Fraction(p) && large >= 100.0 && p * large <= 1.0 && InRange(x)
    ensures x * p <= FLOOR
  {
    NotNegative(p, large - 100.0);
    assert p * (large - 100.0) == p * large - p * 100.0;
    ScaleDown(p, x);
  }

  /* ---- Order ---- */

  /** Decay keeps the order of two records, whatever their importances, exactly if the more important one is not
      stale alone. */
  lemma DecayKeepsOrderIff(m: Memory, m': Memory, rate: real, now: int, days: nat)
    requires 0.0 < rate <= 1.0
    ensures (forall x, y | InRange(x) && InRange(y) && x <= y ::
              Faded(m.(importance := x), rate, now, days).importance <=
              Faded(m'.(importance := y), rate, now, days).importance)
            <==> (Stale(m', now, days) ==> Stale(m, now, days))
  {
    if Stale(m', now, days) && !Stale(m, now, days) {
      assert InRange(1.0);
      assert Faded(m.(importance := 1.0), rate, now, days).importance >
          Faded(m'.(importance := 1.0), rate, now, days).importance;
    } else {
      forall x, y | InRange(x) && InRange(y) && x <= y
        ensures Faded(m.(importance := x), rate, now, days).importance <=
          Faded(m'.(importance := y), rate, now, days).importance
      {
        DecayInRange(x, rate);
        DecayIsMonotone(x, y, rate);
      }
    }
  }

  lemma DecayIsMonotone(x: real, y: real, rate: real)
    requires Fraction(rate) && x <= y
    ensures Decayed(x, rate) <= Decayed(y, rate)
  {
    assert y * (1.0 - rate) - x * (1.0 - rate) == (y - x) * (1.0 - rate);
  }
}
