/** Retrieving entity facts: the fallback cascade over the fact table and the in-place passes over its result. */
module Retrieval {
  import opened FactTable
  import opened Wrappers
  import FactBatch

  const MIN_CONFIDENCE := 0.25
  const CHAR_BUDGET := 4000

  datatype EntityFact = EntityFact(entity: string, entityType: string, attribute: string, value: string,
                                   quote: string, confidence: real)

  function FromRow(r: Row): EntityFact {
    EntityFact(r.fact.key.entity, r.fact.entityType, r.fact.key.attribute, r.fact.value, r.fact.quote, r.confidence)
  }

  /* ---- Passes over a list of facts ---- */

  // What the dedup pass tells facts apart by.
  function SubjectKey(f: EntityFact): string {
    FactBatch.Joined(f.entity, '\0', f.attribute)
  }

  predicate Mentions(fs: seq<EntityFact>, key: string) {
    exists i :: 0 <= i < |fs| && SubjectKey(fs[i]) == key
  }

  // Keep the first fact about each subject.
  function Dedup(fs: seq<EntityFact>): (r: seq<EntityFact>)
    ensures |r| <= |fs|
  {
    if fs == [] then []
    else
      var r := Dedup(fs[..|fs| - 1]);
      if Mentions(fs[..|fs| - 1], SubjectKey(fs[|fs| - 1])) then r else r + [fs[|fs| - 1]]
  }

  function Confident(fs: seq<EntityFact>, minConf: real): (r: seq<EntityFact>)
    ensures |r| <= |fs|
  {
    if fs == [] then []
    else
      var r := Confident(fs[..|fs| - 1], minConf);
      if fs[|fs| - 1].confidence >= minConf then r + [fs[|fs| - 1]] else r
  }

  function Chars(f: EntityFact): nat {
    |f.entity| + |f.attribute| + |f.value| + |f.quote|
  }

  function TotalChars(fs: seq<EntityFact>): nat {
    if fs == [] then 0 else TotalChars(fs[..|fs| - 1]) + Chars(fs[|fs| - 1])
  }

  // Everything the facts put into the prompt.
  function Text(fs: seq<EntityFact>): string {
    if fs == [] then ""
    else
      var f := fs[|fs| - 1];
      Text(fs[..|fs| - 1]) + f.entity + f.attribute + f.value + f.quote
  }

  /** The budget is about the length of that. */
  lemma {:induction false} TextLength(fs: seq<EntityFact>)
    ensures TotalChars(fs) == |Text(fs)|
  {
    if fs != [] {
      TextLength(fs[..|fs| - 1]);
    }
  }

  lemma TextsLength(fs: seq<EntityFact>)
    ensures forall k | 0 <= k <= |fs| :: TotalChars(fs[..k]) == |Text(fs[..k])|
  {
    forall k | 0 <= k <= |fs| ensures TotalChars(fs[..k]) == |Text(fs[..k])| {
      TextLength(fs[..k]);
    }
  }

  // n facts are the longest prefix within the budget, or a lone first fact that exceeds it.
  ghost predicate WithinBudget(fs: seq<EntityFact>, budget: int, n: nat) {
    n <= |fs| &&
    if budget <= 0 || fs == [] then n == 0
    else
      && n > 0
      && (TotalChars(fs[..n]) <= budget || n == 1)
      && (n < |fs| ==> TotalChars(fs[..n + 1]) > budget)
  }

  /* ---- The passes as the source runs them: compaction in the same array ---- */

  function SeenKeys(fs: seq<EntityFact>): set<string> {
    if fs == [] then {} else SeenKeys(fs[..|fs| - 1]) + {SubjectKey(fs[|fs| - 1])}
  }

  lemma {:induction false} SeenIffMentioned(fs: seq<EntityFact>, key: string)
    ensures key in SeenKeys(fs) <==> Mentions(fs, key)
  {
    if fs != [] {
      SeenIffMentioned(fs[..|fs| - 1], key);
      assert fs == fs[..|fs| - 1] + [fs[|fs| - 1]];
      if Mentions(fs[..|fs| - 1], key) {
        var i :| 0 <= i < |fs| - 1 && SubjectKey(fs[..|fs| - 1][i]) == key;
        assert SubjectKey(fs[i]) == key;
      }
    }
  }

  method DeduplicateByAttribute(a: array<EntityFact>, n: nat) returns (k: nat)
    requires n <= a.Length
    modifies a
    ensures k <= n && a[..k] == Dedup(old(a[..n])) && a[n..] == old(a[n..])
  {
    ghost var was := a[..];
    ghost var fs := was[..n];
    var seen: set<string> := {};
    var i := 0;
    k := 0;
    while i < n
      invariant k <= i <= n && Deduplicated(fs, i, seen, a[..k])
      invariant forall j | i <= j < a.Length :: a[j] == was[j]
    {
      var f := a[i];
      var key := SubjectKey(f);
      DedupNext(fs, i, seen, a[..k]);
      if key !in seen {
        seen := seen + {key};
        k := Append(a, k, f);
      }
      i := i + 1;
    }
    assert fs[..n] == fs;
  }

  // Appending to a slice over the first k places of the array.
  method Append(a: array<EntityFact>, k: nat, f: EntityFact) returns (k': nat)
    requires k < a.Length
    modifies a
    ensures k' == k + 1 && a[..k'] == old(a[..k]) + [f]
    ensures forall j | k' <= j < a.Length :: a[j] == old(a[j])
  {
    a[k] := f;
    k' := k + 1;
  }

  // The pass over the first i facts.
  ghost predicate Deduplicated(fs: seq<EntityFact>, i: nat, seen: set<string>, kept: seq<EntityFact>) {
    i <= |fs| && kept == Dedup(fs[..i]) && seen == SeenKeys(fs[..i])
  }

  lemma {:induction false} DedupNext(fs: seq<EntityFact>, i: nat, seen: set<string>, kept: seq<EntityFact>)
    requires i < |fs| && Deduplicated(fs, i, seen, kept)
    ensures var key := SubjectKey(fs[i]);
      if key in seen then Deduplicated(fs, i + 1, seen, kept)
      else Deduplicated(fs, i + 1, seen + {key}, kept + [fs[i]])
  {
    assert fs[..i + 1][..i] == fs[..i];
    SeenIffMentioned(fs[..i], SubjectKey(fs[i]));
  }

  method FilterByConfidence(a: array<EntityFact>, n: nat, minConf: real) returns (k: nat)
    requires n <= a.Length
    modifies a
    ensures k <= n && a[..k] == Confident(old(a[..n]), minConf) && a[n..] == old(a[n..])
  {
    ghost var fs := a[..n];
    var i := 0;
    k := 0;
    while i < n
      invariant k <= i <= n && a[..k] == Confident(fs[..i], minConf)
      invariant forall j | i <= j < a.Length :: a[j] == old(a[j])
    {
      var f := a[i];
      assert f == fs[i];
      assert fs[..i + 1][..i] == fs[..i];
      if f.confidence >= minConf {
        k := Append(a, k, f);
      }
      i := i + 1;
    }
    assert fs[..n] == fs;
  }

  method TruncateFactsToBudget(a: array<EntityFact>, n: nat, budget: int) returns (k: nat)
    requires n <= a.Length
    ensures WithinBudget(a[..n], budget, k)
    ensures k == 0 <==> budget <= 0 || n == 0
    ensures k > 0 ==> k == 1 || |Text(a[..k])| <= budget
    ensures 0 < k < n ==> |Text(a[..k + 1])| > budget
  {
    TextsLength(a[..n]);
    if budget <= 0 || n == 0 {
      return 0;
    }
    var total := 0;
    var i := 0;
    while i < n
      invariant i <= n && total == TotalChars(a[..i]) <= budget
    {
      assert a[..i + 1][..i] == a[..i];
      total := total + Chars(a[i]);
      if total > budget {
        assert forall j | 0 <= j <= n :: a[..n][..j] == a[..j];
        if i == 0 {
          MoreIsMore(a[..n], 1, 2);
          return 1;
        }
        return i;
      }
      i := i + 1;
    }
    assert a[..n][..n] == a[..n];
    return n;
  }

  lemma {:induction false} MoreIsMore(fs: seq<EntityFact>, i: nat, j: nat)
    ensures i <= j <= |fs| ==> TotalChars(fs[..i]) <= TotalChars(fs[..j])
  {
    if i < j <= |fs| {
      MoreIsMore(fs, i, j - 1);
      assert fs[..j][..j - 1] == fs[..j - 1];
    }
  }

  /* ---- What the passes mean ---- */

  predicate OnePerSubject(fs: seq<EntityFact>) {
    forall i, j | 0 <= i < j < |fs| :: SubjectKey(fs[i]) != SubjectKey(fs[j])
  }

  predicate First(fs: seq<EntityFact>, i: int) {
    0 <= i < |fs| && !Mentions(fs[..i], SubjectKey(fs[i]))
  }

  /** A joined key stands for one entity and attribute: text columns hold no NUL. */
  lemma KeyIsSubject(f: EntityFact, g: EntityFact)
    requires '\0' !in f.attribute && '\0' !in g.attribute
    ensures SubjectKey(f) == SubjectKey(g) <==> f.entity == g.entity && f.attribute == g.attribute
  {
    if SubjectKey(f) == SubjectKey(g) {
      FactBatch.JoinedInjective(f.entity, f.attribute, g.entity, g.attribute, '\0');
    }
  }

  /** The dedup pass keeps the first fact about each subject, whatever the confidences, and nothing else. */
  lemma {:induction false} DedupKeepsFirsts(fs: seq<EntityFact>)
    ensures OnePerSubject(Dedup(fs))
    ensures forall f :: f in Dedup(fs) <==> exists i :: First(fs, i) && fs[i] == f
  {
    if fs != [] {
      var n := |fs| - 1;
      var before := fs[..n];
      DedupKeepsFirsts(before);
      forall i | 0 <= i < n ensures First(fs, i) <==> First(before, i) {
        assert before[..i] == fs[..i];
      }
      forall f ensures f in Dedup(fs) <==> exists i :: First(fs, i) && fs[i] == f {
        if f in Dedup(before) {
          var i :| First(before, i) && before[i] == f;
          assert First(fs, i);
        }
        if First(fs, n) && fs[n] == f {
          assert f in Dedup(fs);
        }
        if i :| First(fs, i) && fs[i] == f && i < n {
          assert First(before, i) && before[i] == f;
        }
      }
      forall i | 0 <= i < |Dedup(before)| ensures SubjectKey(Dedup(before)[i]) != SubjectKey(fs[n]) || !First(fs, n) {
        assert Dedup(before)[i] in Dedup(before);
        var k :| First(before, k) && before[k] == Dedup(before)[i];
      }
    }
  }

  /** It is the identity exactly on lists without two facts about one subject. */
  lemma {:induction false} DedupIsIdentityIff(fs: seq<EntityFact>)
    ensures Dedup(fs) == fs <==> OnePerSubject(fs)
  {
    DedupKeepsFirsts(fs);
    if OnePerSubject(fs) && fs != [] {
      DedupIsIdentityIff(fs[..|fs| - 1]);
    }
  }

  // Whether the dedup pass keeps, of every subject, a fact of the highest confidence in the list.
  ghost predicate KeepsBest(fs: seq<EntityFact>) {
    forall f, g | f in Dedup(fs) && g in fs && SubjectKey(g) == SubjectKey(f) :: g.confidence <= f.confidence
  }

  // No fact is more confident than the first about its subject.
  ghost predicate FirstIsBest(fs: seq<EntityFact>) {
    forall i, j | First(fs, i) && i < j < |fs| && SubjectKey(fs[j]) == SubjectKey(fs[i]) ::
      fs[j].confidence <= fs[i].confidence
  }

  lemma {:induction false} FirstOfItsSubject(fs: seq<EntityFact>, i: nat)
    requires First(fs, i)
    ensures forall j | 0 <= j < i :: SubjectKey(fs[j]) != SubjectKey(fs[i])
  {
    assert forall j | 0 <= j < i :: fs[..i][j] == fs[j];
  }

  /** The most confident fact of every subject is kept exactly if none comes after a less confident first one. */
  lemma {:induction false} DedupKeepsBestIff(fs: seq<EntityFact>)
    ensures KeepsBest(fs) <==> FirstIsBest(fs)
  {
    DedupKeepsFirsts(fs);
    if FirstIsBest(fs) {
      forall f, g | f in Dedup(fs) && g in fs && SubjectKey(g) == SubjectKey(f) ensures g.confidence <= f.confidence {
        var i :| First(fs, i) && fs[i] == f;
        var j :| 0 <= j < |fs| && fs[j] == g;
        FirstOfItsSubject(fs, i);
      }
    }
    if KeepsBest(fs) {
      forall i, j | First(fs, i) && i < j < |fs| && SubjectKey(fs[j]) == SubjectKey(fs[i])
        ensures fs[j].confidence <= fs[i].confidence
      {
        assert fs[i] in Dedup(fs) && fs[j] in fs;
      }
    }
  }

  /** They are if the query ordered the facts about each entity by confidence, highest first, as the text search and the
      fallback do ... */
  lemma {:induction false} OrderedKeepsBest(fs: seq<EntityFact>)
    requires forall i | 0 <= i < |fs| :: '\0' !in fs[i].attribute
    requires forall i, j | 0 <= i < j < |fs| && fs[i].entity == fs[j].entity :: fs[i].confidence >= fs[j].confidence
    ensures KeepsBest(fs)
  {
    forall i, j | First(fs, i) && i < j < |fs| && SubjectKey(fs[j]) == SubjectKey(fs[i])
      ensures fs[j].confidence <= fs[i].confidence
    {
      KeyIsSubject(fs[i], fs[j]);
    }
    DedupKeepsBestIff(fs);
  }

  /** ... and not of a list ordered by distance that has the doubtful fact first. */
  lemma {:induction false} DedupCanDropTheBest(f: EntityFact, g: EntityFact)
    requires SubjectKey(f) == SubjectKey(g) && f.confidence < g.confidence
    ensures Dedup([f, g]) == [f] && !KeepsBest([f, g])
  {
    assert [f, g][..1] == [f] && [f][..0] == [];
    assert Mentions([f], SubjectKey(g)) by {
      assert SubjectKey([f][0]) == SubjectKey(g);
    }
    assert !Mentions([], SubjectKey(f));
    assert Dedup([f]) == [f];
    assert f in Dedup([f, g]) && g in [f, g];
  }

  lemma {:induction false} ConfidentKeeps(fs: seq<EntityFact>, minConf: real)
    ensures forall f :: f in Confident(fs, minConf) <==> f in fs && f.confidence >= minConf
  {
    if fs != [] {
      ConfidentKeeps(fs[..|fs| - 1], minConf);
      assert fs == fs[..|fs| - 1] + [fs[|fs| - 1]];
    }
  }

  lemma {:induction false} ConfidentIsIdentityIff(fs: seq<EntityFact>, minConf: real)
    ensures Confident(fs, minConf) == fs <==> forall i | 0 <= i < |fs| :: fs[i].confidence >= minConf
  {
    if fs != [] {
      var n := |fs| - 1;
      ConfidentIsIdentityIff(fs[..n], minConf);
      assert fs == fs[..n] + [fs[n]];
      assert |Confident(fs[..n], minConf)| <= n;
    }
  }

  lemma {:induction false} ConfidentKeepsSubjects(fs: seq<EntityFact>, minConf: real)
    requires OnePerSubject(fs)
    ensures OnePerSubject(Confident(fs, minConf))
  {
    if fs != [] {
      var n := |fs| - 1;
      ConfidentKeepsSubjects(fs[..n], minConf);
      ConfidentKeeps(fs[..n], minConf);
      var r := Confident(fs[..n], minConf);
      forall i | 0 <= i < |r| ensures SubjectKey(r[i]) != SubjectKey(fs[n]) {
        assert r[i] in r;
        var j :| 0 <= j < n && fs[..n][j] == r[i];
        assert fs[j] == r[i];
      }
    }
  }

  // What the passes turn `raw` into.
  ghost predicate Processed(raw: seq<EntityFact>, out: seq<EntityFact>) {
    var kept := Confident(Dedup(raw), MIN_CONFIDENCE);
    WithinBudget(kept, CHAR_BUDGET, |out|) && out == kept[..|out|]
  }

  // fs without some of its facts.
  predicate Subsequence(some: seq<EntityFact>, fs: seq<EntityFact>) {
    some == [] ||
    (fs != [] && if some[|some| - 1] == fs[|fs| - 1] && Subsequence(some[..|some| - 1], fs[..|fs| - 1]) then true
                 else Subsequence(some, fs[..|fs| - 1]))
  }

  /** Neither pass changes the order. */
  lemma {:induction false} PassesKeepOrder(fs: seq<EntityFact>, minConf: real)
    ensures Subsequence(Dedup(fs), fs) && Subsequence(Confident(fs, minConf), fs)
  {
    if fs != [] {
      PassesKeepOrder(fs[..|fs| - 1], minConf);
      var d, c := Dedup(fs), Confident(fs, minConf);
      assert d != Dedup(fs[..|fs| - 1]) ==> d[..|d| - 1] == Dedup(fs[..|fs| - 1]);
      assert c != Confident(fs[..|fs| - 1], minConf) ==> c[..|c| - 1] == Confident(fs[..|fs| - 1], minConf);
    }
  }

  lemma KeptFacts(raw: seq<EntityFact>, minConf: real)
    ensures var kept := Confident(Dedup(raw), minConf);
      && OnePerSubject(kept)
      && (forall f :: f in kept <==> f.confidence >= minConf && exists i :: First(raw, i) && raw[i] == f)
  {
    DedupKeepsFirsts(raw);
    ConfidentKeeps(Dedup(raw), minConf);
    ConfidentKeepsSubjects(Dedup(raw), minConf);
  }

  /** Whatever was fetched, processed facts are about distinct subjects, confident enough and each the first about
      its subject; they fit the budget, or one does not and is alone. Nothing comes of a list only if no first fact
      about a subject in it is confident enough. */
  lemma {:induction false} PassesKeepTheirPromise(raw: seq<EntityFact>, out: seq<EntityFact>)
    requires Processed(raw, out)
    ensures OnePerSubject(out)
    ensures forall f | f in out :: f.confidence >= 0.25 && exists i :: First(raw, i) && raw[i] == f
    ensures |Text(out)| <= 4000 || |out| == 1
    ensures out == [] <==> forall i | First(raw, i) :: raw[i].confidence < 0.25
  {
    TextLength(out);
    KeptFacts(raw, MIN_CONFIDENCE);
    PrefixKeeps(Confident(Dedup(raw), MIN_CONFIDENCE), out);
    if out == [] {
      forall i | First(raw, i) ensures raw[i].confidence < MIN_CONFIDENCE {
        assert raw[i] !in Confident(Dedup(raw), MIN_CONFIDENCE);
      }
    } else {
      assert out[0] in out;
    }
  }

  lemma PrefixKeeps(kept: seq<EntityFact>, out: seq<EntityFact>)
    requires WithinBudget(kept, CHAR_BUDGET, |out|) && out == kept[..|out|]
    ensures OnePerSubject(kept) ==> OnePerSubject(out)
    ensures forall f | f in out :: f in kept
    ensures TotalChars(out) <= CHAR_BUDGET || |out| == 1
    ensures out == [] <==> kept == []
  {
  }

  /* ---- The cascade ---- */

  // A query's rows, by their places in the table.
  datatype Reply = Rows(rows: seq<nat>) | Failed

  // What a request meets: its query may be empty or not embedded, and every query may fail.
  datatype Request = Request(hasQuery: bool, names: seq<string>, embedded: bool,
                             byVector: Reply, byFTS: Reply, allByVector: Reply, fallback: Reply)

  // The rows of a current-fact query: about one user's third parties, or about the user.
  ghost predicate Selected(t: Table, tenant: nat, user: nat, self: bool, rows: seq<nat>) {
    && (forall i | 0 <= i < |rows| :: rows[i] < |t| && Wanted(t[rows[i]], tenant, user, self))
    && (forall i, j | 0 <= i < j < |rows| :: rows[i] != rows[j])
  }

  predicate Wanted(r: Row, tenant: nat, user: nat, self: bool) {
    r.current && r.fact.key.tenant == tenant && r.fact.key.user == user && (r.fact.entityType == "self") == self
  }

  ghost predicate Answers(t: Table, tenant: nat, user: nat, r: Reply) {
    r.Rows? ==> Selected(t, tenant, user, false, r.rows)
  }

  ghost predicate Served(t: Table, tenant: nat, user: nat, q: Request) {
    && Answers(t, tenant, user, q.byVector) && Answers(t, tenant, user, q.byFTS)
    && Answers(t, tenant, user, q.allByVector) && Answers(t, tenant, user, q.fallback)
  }

  function Found(r: Reply): seq<nat> {
    if r.Rows? then r.rows else []
  }

  // Which queries the cascade comes to.
  predicate AsksVector(q: Request) {
    q.hasQuery && q.names != [] && q.embedded
  }

  predicate AsksFTS(q: Request) {
    q.hasQuery && q.names != [] && (q.embedded ==> Found(q.byVector) == [])
  }

  predicate AsksAll(q: Request) {
    && q.hasQuery && q.embedded
    && (AsksVector(q) ==> Found(q.byVector) == []) && (AsksFTS(q) ==> Found(q.byFTS) == [])
  }

  predicate AsksFallback(q: Request) {
    && (AsksVector(q) ==> Found(q.byVector) == []) && (AsksFTS(q) ==> Found(q.byFTS) == [])
    && (AsksAll(q) ==> Found(q.allByVector) == [])
  }

  // Some query is behind the rows the cascade ends with.
  ghost predicate Source(q: Request, rows: seq<nat>) {
    || (AsksVector(q) && rows != [] && rows == Found(q.byVector))
    || (AsksFTS(q) && rows != [] && rows == Found(q.byFTS))
    || (AsksAll(q) && rows != [] && rows == Found(q.allByVector))
    || (AsksFallback(q) && rows == Found(q.fallback))
  }

  /** An error outlives the cascade if the text search failed and the search over all facts did not fail after it,
      even though a later query was served, or if the last fallback failed. */
  predicate Stale(q: Request) {
    || (AsksFTS(q) && q.byFTS.Failed? && !(AsksAll(q) && q.allByVector.Failed?))
    || (AsksFallback(q) && q.fallback.Failed?)
  }

  function Facts(t: Table, rows: seq<nat>): (fs: seq<EntityFact>)
    requires forall i | 0 <= i < |rows| :: rows[i] < |t|
    ensures |fs| == |rows| && forall i | 0 <= i < |rows| :: fs[i] == FromRow(t[rows[i]])
  {
    seq(|rows|, i requires 0 <= i < |rows| => FromRow(t[rows[i]]))
  }

  predicate Finds(r: Reply) {
    r.Rows? && r.rows != []
  }

  // The vector search among the facts about the entities named, with a query and its embedding.
  predicate ByVectorAnswers(q: Request) {
    q.hasQuery && q.names != [] && q.embedded && Finds(q.byVector)
  }

  // The text search among them, when that found nothing or could not be made.
  predicate ByTextAnswers(q: Request) {
    q.hasQuery && q.names != [] && !(q.embedded && Finds(q.byVector)) && Finds(q.byFTS)
  }

  // The vector search over all facts, when no search by name found anything.
  predicate AllByVectorAnswers(q: Request) {
    && q.hasQuery && q.embedded && Finds(q.allByVector)
    && (q.names != [] ==> !Finds(q.byVector) && !Finds(q.byFTS))
  }

  // The facts of highest confidence, in all other cases.
  predicate FallbackAnswers(q: Request) {
    !ByVectorAnswers(q) && !ByTextAnswers(q) && !AllByVectorAnswers(q)
  }

  // The text search failed, and the search over all facts did not fail after it.
  predicate TextErrorStays(q: Request) {
    q.hasQuery && q.names != [] && q.byFTS.Failed? && !(q.embedded && q.allByVector.Failed?)
  }

  /** Which replies answer, and when an error is left over. */
  lemma {:induction false} CascadeAnswers(q: Request, rows: seq<nat>)
    ensures Source(q, rows) <==>
      rows == if ByVectorAnswers(q) then q.byVector.rows
              else if ByTextAnswers(q) then q.byFTS.rows
              else if AllByVectorAnswers(q) then q.allByVector.rows
              else if q.fallback.Rows? then q.fallback.rows else []
    ensures ByVectorAnswers(q) || ByTextAnswers(q) ==> !Stale(q)
    ensures AllByVectorAnswers(q) ==> (Stale(q) <==> q.names != [] && q.byFTS.Failed?)
    ensures FallbackAnswers(q) ==> (Stale(q) <==> q.fallback.Failed? || TextErrorStays(q))
  {
  }

  /** The cascade ends with the rows of the first query that was asked and found some, or those of the last. */
  method Cascade(q: Request) returns (rows: seq<nat>, err: bool)
    ensures Source(q, rows)
    ensures err <==> Stale(q)
    ensures ByVectorAnswers(q) ==> rows == q.byVector.rows && !err
    ensures ByTextAnswers(q) ==> rows == q.byFTS.rows && !err
    ensures AllByVectorAnswers(q) ==> rows == q.allByVector.rows && (err <==> q.names != [] && q.byFTS.Failed?)
    ensures FallbackAnswers(q) ==> rows == if q.fallback.Rows? then q.fallback.rows else []
    ensures FallbackAnswers(q) ==> (err <==> q.fallback.Failed? || TextErrorStays(q))
  {
    rows, err := [], false;
    if q.hasQuery {
      if |q.names| > 0 {
        if q.embedded {
          rows, err := Found(q.byVector), q.byVector.Failed?;
          if err {
            err := false;
          }
        }
        if |rows| == 0 {
          rows, err := Found(q.byFTS), q.byFTS.Failed?;
        }
      }
    }
    if |rows| == 0 {
      if q.hasQuery {
        if q.embedded {
          rows := Found(q.allByVector);
          if q.allByVector.Failed? {
            err := false;
          }
        }
      }
      if |rows| == 0 {
        rows := Found(q.fallback);
        if q.fallback.Failed? {
          err := true;
        }
      }
    }
  }

  // What becomes of the rows found: with an error left, they are not processed.
  ghost predicate HandedOn(q: Request, raw: seq<EntityFact>, out: seq<EntityFact>) {
    if Stale(q) then out == raw else Processed(raw, out)
  }

  /** The goroutine for third-party facts: the cascade, then the three passes unless an error is left. */
  method EntityFacts(t: Table, tenant: nat, user: nat, q: Request) returns (out: seq<EntityFact>, rows: seq<nat>)
    requires Served(t, tenant, user, q)
    ensures Source(q, rows) && Selected(t, tenant, user, false, rows)
    ensures forall i | 0 <= i < |rows| :: rows[i] < |t| && t[rows[i]].current && t[rows[i]].fact.entityType != "self"
    ensures forall i | 0 <= i < |rows| :: t[rows[i]].fact.key.tenant == tenant && t[rows[i]].fact.key.user == user
    ensures HandedOn(q, Facts(t, rows), out)
    ensures forall f | f in out :: exists i :: 0 <= i < |rows| && IsFactOf(t[rows[i]], f)
  {
    var err;
    rows, err := Cascade(q);
    SourceIsSelected(t, tenant, user, q, rows);
    var facts, n := Scan(t, rows);
    if !err {
      n := Passes(facts, n);
    }
    out := facts[..n];
    HandedOnAreFacts(t, rows, q, out);
  }

  // A fact as its row has it.
  predicate IsFactOf(r: Row, f: EntityFact) {
    && f.entity == r.fact.key.entity && f.attribute == r.fact.key.attribute && f.entityType == r.fact.entityType
    && f.value == r.fact.value && f.quote == r.fact.quote && f.confidence == r.confidence
  }

  lemma {:induction false} HandedOnAreFacts(t: Table, rows: seq<nat>, q: Request, out: seq<EntityFact>)
    requires (forall i | 0 <= i < |rows| :: rows[i] < |t|) && HandedOn(q, Facts(t, rows), out)
    ensures forall f | f in out :: exists i :: 0 <= i < |rows| && IsFactOf(t[rows[i]], f)
  {
    var raw := Facts(t, rows);
    if !Stale(q) {
      PassesKeepTheirPromise(raw, out);
    }
    forall f | f in out ensures exists i :: 0 <= i < |rows| && IsFactOf(t[rows[i]], f) {
      var i :| 0 <= i < |raw| && raw[i] == f;
      assert IsFactOf(t[rows[i]], f);
    }
  }

  lemma SourceIsSelected(t: Table, tenant: nat, user: nat, q: Request, rows: seq<nat>)
    requires Served(t, tenant, user, q) && Source(q, rows)
    ensures Selected(t, tenant, user, false, rows)
  {
  }

  method Scan(t: Table, rows: seq<nat>) returns (facts: array<EntityFact>, n: nat)
    requires forall i | 0 <= i < |rows| :: rows[i] < |t|
    ensures fresh(facts) && n == facts.Length && facts[..n] == Facts(t, rows)
  {
    n := |rows|;
    facts := new EntityFact[n](i requires 0 <= i < n => FromRow(t[rows[i]]));
  }

  method Passes(facts: array<EntityFact>, n: nat) returns (k: nat)
    requires n <= facts.Length
    modifies facts
    ensures k <= n && Processed(old(facts[..n]), facts[..k])
  {
    k := DeduplicateByAttribute(facts, n);
    k := FilterByConfidence(facts, k, MIN_CONFIDENCE);
    ghost var kept := facts[..k];
    k := TruncateFactsToBudget(facts, k, CHAR_BUDGET);
    assert kept[..k] == facts[..k];
  }

  /* ---- On tables that upserts reach ---- */

  ghost predicate NoNul(fs: seq<Fact>) {
    forall i | 0 <= i < |fs| :: '\0' !in fs[i].key.attribute
  }

  lemma {:induction false} FactsAreUpserted(fs: seq<Fact>)
    requires NoNul(fs)
    ensures forall i | 0 <= i < |UpsertAll([], fs)| :: '\0' !in UpsertAll([], fs)[i].fact.key.attribute
  {
    if fs != [] {
      FactsAreUpserted(fs[..|fs| - 1]);
    }
  }

  // One current row for each key makes one fact for each subject.
  lemma SelectedFactsAreClean(t: Table, tenant: nat, user: nat, self: bool, rows: seq<nat>)
    requires Chained(t) && Selected(t, tenant, user, self, rows)
    requires forall i | 0 <= i < |t| :: '\0' !in t[i].fact.key.attribute
    ensures OnePerSubject(Facts(t, rows))
    ensures forall f | f in Facts(t, rows) :: f.confidence == DEFAULT_CONFIDENCE
  {
    var fs := Facts(t, rows);
    forall i, j | 0 <= i < j < |fs| ensures SubjectKey(fs[i]) != SubjectKey(fs[j]) {
      var r, s := t[rows[i]], t[rows[j]];
      KeyIsSubject(fs[i], fs[j]);
      if r.fact.key == s.fact.key {
        OneCurrentRow(t, r.fact.key, rows[i], rows[j]);
      }
    }
    forall i | 0 <= i < |fs| ensures fs[i].confidence == DEFAULT_CONFIDENCE {
      assert Linked(t, rows[i]);
    }
  }

  lemma CleanFactsPass(raw: seq<EntityFact>, out: seq<EntityFact>)
    requires OnePerSubject(raw) && forall f | f in raw :: f.confidence == DEFAULT_CONFIDENCE
    ensures Processed(raw, out) <==> WithinBudget(raw, CHAR_BUDGET, |out|) && out == raw[..|out|]
  {
    DedupIsIdentityIff(raw);
    ConfidentIsIdentityIff(raw, MIN_CONFIDENCE);
    assert Confident(Dedup(raw), MIN_CONFIDENCE) == raw;
  }

  /** On every table that serial upserts reach, the dedup and confidence passes change nothing: whatever path the
      cascade took, the processed facts are a prefix of the rows it found, the longest within the budget or a lone
      first one, all current and none about the user. */
  lemma {:induction false} PassesAreIdentityOnUpserts(ups: seq<Fact>, tenant: nat, user: nat, q: Request,
                                                      rows: seq<nat>, out: seq<EntityFact>)
    requires NoNul(ups) && Served(UpsertAll([], ups), tenant, user, q) && Source(q, rows)
    ensures var t := UpsertAll([], ups);
      && Selected(t, tenant, user, false, rows)
      && (Processed(Facts(t, rows), out) <==>
            |out| <= |rows| && out == Facts(t, rows[..|out|]) && WithinBudget(Facts(t, rows), CHAR_BUDGET, |out|))
  {
    var t := UpsertAll([], ups);
    SourceIsSelected(t, tenant, user, q, rows);
    UpsertAllChains([], ups);
    FactsAreUpserted(ups);
    SelectedFactsAreClean(t, tenant, user, false, rows);
    CleanFactsPass(Facts(t, rows), out);
    if |out| <= |rows| {
      assert Facts(t, rows)[..|out|] == Facts(t, rows[..|out|]);
    }
  }

  /** The pinned facts about the user and the third-party facts never speak of the same subject: a subject has one
      current row, of one type. */
  lemma SelfAndOthersApart(ups: seq<Fact>, tenant: nat, user: nat, selfRows: seq<nat>, rows: seq<nat>, i: nat, j: nat)
    requires Selected(UpsertAll([], ups), tenant, user, true, selfRows)
    requires Selected(UpsertAll([], ups), tenant, user, false, rows)
    requires i < |selfRows| && j < |rows|
    ensures UpsertAll([], ups)[selfRows[i]].fact.key != UpsertAll([], ups)[rows[j]].fact.key
  {
    var t := UpsertAll([], ups);
    UpsertAllChains([], ups);
    if t[selfRows[i]].fact.key == t[rows[j]].fact.key {
      OneCurrentRow(t, t[rows[j]].fact.key, selfRows[i], rows[j]);
    }
  }

  /* ---- When a left-over error matters ---- */

  predicate DistinctRows(rows: seq<nat>) {
    forall i, j | 0 <= i < j < |rows| :: rows[i] != rows[j]
  }

  // Replies without repeated rows, as queries give them.
  predicate WellFormed(q: Request) {
    && DistinctRows(Found(q.byVector)) && DistinctRows(Found(q.byFTS))
    && DistinctRows(Found(q.allByVector)) && DistinctRows(Found(q.fallback))
  }

  function Above(rows: seq<nat>): (n: nat)
    ensures forall i | 0 <= i < |rows| :: rows[i] < n
  {
    if rows == [] then 0
    else
      var n := Above(rows[..|rows| - 1]);
      if n > rows[|rows| - 1] then n else rows[|rows| - 1] + 1
  }

  // Places in a table of that many rows.
  function Enough(q: Request): nat {
    Above(Found(q.byVector)) + Above(Found(q.byFTS)) + Above(Found(q.allByVector)) + Above(Found(q.fallback))
  }

  // Facts about different people, each with a quote of three thousand characters.
  function LongFact(i: nat): (f: Fact)
    ensures |f.key.entity| == i && f.key.attribute == "job" && f.entityType == "person" && |f.quote| == 3000
  {
    Fact(Key(0, 0, seq(i, _ => 'a'), "job"), "person", "", "", seq(3000, _ => 'q'))
  }

  function LongFacts(n: nat): (fs: seq<Fact>)
    ensures |fs| == n && forall i | 0 <= i < n :: fs[i] == LongFact(i)
  {
    seq(n, i requires 0 <= i < n => LongFact(i))
  }

  // Upserts of different keys fill an empty table one row each.
  lemma {:induction false} UpsertsOfEach(fs: seq<Fact>)
    requires FactBatch.OneEach(fs)
    ensures |UpsertAll([], fs)| == |fs| && forall i | 0 <= i < |fs| :: UpsertAll([], fs)[i] == NewRow(fs[i], None)
  {
    if fs != [] {
      var n := |fs| - 1;
      var t := UpsertAll([], fs[..n]);
      UpsertsOfEach(fs[..n]);
      forall i | 0 <= i < n ensures !IsCurrent(t, fs[n].key, i) {
        assert fs[i].key != fs[n].key;
      }
    }
  }

  lemma {:induction false} LongFactsFill(n: nat)
    ensures NoNul(LongFacts(n))
    ensures var t := UpsertAll([], LongFacts(n)); |t| == n && forall i | 0 <= i < n :: t[i] == NewRow(LongFact(i), None)
  {
    var fs := LongFacts(n);
    forall i, j | 0 <= i < j < n ensures fs[i].key != fs[j].key {
      assert |fs[i].key.entity| != |fs[j].key.entity|;
    }
    UpsertsOfEach(fs);
  }

  lemma {:induction false} LongFactsServe(q: Request)
    requires WellFormed(q)
    ensures Served(UpsertAll([], LongFacts(Enough(q))), 0, 0, q)
  {
    LongFactsAnswer(Enough(q), q.byVector);
    LongFactsAnswer(Enough(q), q.byFTS);
    LongFactsAnswer(Enough(q), q.allByVector);
    LongFactsAnswer(Enough(q), q.fallback);
  }

  lemma {:induction false} LongFactsAnswer(n: nat, r: Reply)
    requires DistinctRows(Found(r)) && Above(Found(r)) <= n
    ensures Answers(UpsertAll([], LongFacts(n)), 0, 0, r)
  {
    LongFactsFill(n);
  }

  lemma {:induction false} LongFactsAreLong(n: nat, rows: seq<nat>)
    requires |rows| >= 2 && forall i | 0 <= i < |rows| :: rows[i] < n == |UpsertAll([], LongFacts(n))|
    ensures TotalChars(Facts(UpsertAll([], LongFacts(n)), rows)) > CHAR_BUDGET
  {
    LongFactsFill(n);
    TwoLongQuotes(Facts(UpsertAll([], LongFacts(n)), rows));
  }

  lemma {:induction false} TwoLongQuotes(fs: seq<EntityFact>)
    requires |fs| >= 2 && |fs[0].quote| == 3000 && |fs[1].quote| == 3000
    ensures TotalChars(fs) > CHAR_BUDGET
  {
    assert fs[..|fs|] == fs;
    MoreIsMore(fs, 2, |fs|);
    assert fs[..2][..1] == fs[..1];
    assert TotalChars(fs[..2]) == TotalChars(fs[..1]) + Chars(fs[1]) >= Chars(fs[0]) + Chars(fs[1]);
  }

  /** On tables that upserts reach only the budget is at stake: there, what is handed on is what the passes would have
      left, exactly if no error is left, or the rows found are at most one or fit the budget. */
  lemma {:induction false} LeftoverErrorOnUpserts(ups: seq<Fact>, tenant: nat, user: nat, q: Request, rows: seq<nat>,
                                                  out: seq<EntityFact>)
    requires NoNul(ups) && Served(UpsertAll([], ups), tenant, user, q) && Source(q, rows)
    requires Selected(UpsertAll([], ups), tenant, user, false, rows)
    requires HandedOn(q, Facts(UpsertAll([], ups), rows), out)
    ensures var raw := Facts(UpsertAll([], ups), rows);
      Processed(raw, out) <==> !Stale(q) || |rows| <= 1 || TotalChars(raw) <= CHAR_BUDGET
  {
    var raw := Facts(UpsertAll([], ups), rows);
    PassesAreIdentityOnUpserts(ups, tenant, user, q, rows, out);
    assert rows[..|rows|] == rows && raw[..|raw|] == raw;
  }

  // What is handed on is what the passes leave, on every table upserts reach that the replies fit.
  ghost predicate AlwaysProcessed(q: Request, rows: seq<nat>) {
    forall ups, tenant, user, out |
      && NoNul(ups) && Served(UpsertAll([], ups), tenant, user, q)
      && Selected(UpsertAll([], ups), tenant, user, false, rows) && HandedOn(q, Facts(UpsertAll([], ups), rows), out) ::
        Processed(Facts(UpsertAll([], ups), rows), out)
  }

  /** Over all tables that upserts reach: whatever the replies, the facts handed on are what the passes leave exactly
      if no error is left over or fewer than two rows were found. */
  lemma {:induction false} LeftoverErrorIff(q: Request, rows: seq<nat>)
    requires WellFormed(q) && Source(q, rows)
    ensures AlwaysProcessed(q, rows) <==> !(Stale(q) && |rows| >= 2)
  {
    if Stale(q) && |rows| >= 2 {
      LongFactsEscape(q, rows);
    } else {
      forall ups, tenant, user, out |
        && NoNul(ups) && Served(UpsertAll([], ups), tenant, user, q)
        && Selected(UpsertAll([], ups), tenant, user, false, rows) && HandedOn(q, Facts(UpsertAll([], ups), rows), out)
        ensures Processed(Facts(UpsertAll([], ups), rows), out)
      {
        LeftoverErrorOnUpserts(ups, tenant, user, q, rows, out);
      }
    }
  }

  lemma {:induction false} LongFactsEscape(q: Request, rows: seq<nat>)
    requires WellFormed(q) && Source(q, rows) && Stale(q) && |rows| >= 2
    ensures !AlwaysProcessed(q, rows)
  {
    var ups := LongFacts(Enough(q));
    LongFactsServe(q);
    LongFactsFill(Enough(q));
    SourceIsSelected(UpsertAll([], ups), 0, 0, q, rows);
    var raw := Facts(UpsertAll([], ups), rows);
    LongFactsAreLong(Enough(q), rows);
    assert HandedOn(q, raw, raw);
    LeftoverErrorOnUpserts(ups, 0, 0, q, rows, raw);
  }

  /** A left-over error costs the budget, on facts that extraction lets through: the searches by name fail together,
      the query over all facts serves two facts with short values and quotes of three thousand characters, and both
      are handed on. */
  lemma {:induction false} StaleErrorBreaksBudget(quote: string, rules: FactBatch.Rules, hash: string -> string)
    requires |quote| == 3000
    requires rules.clean("an") && rules.bytes("an") == 2 && rules.clean("x") && rules.bytes("x") == 1
    ensures var x, y :=
        FactBatch.Extracted("an", "person", "job", "x", quote), FactBatch.Extracted("an", "person", "age", "x", quote);
      var t := UpsertAll([], [FactBatch.ToFact(0, 0, x, hash), FactBatch.ToFact(0, 0, y, hash)]);
      var q := Request(true, ["an"], true, Failed, Failed, Rows([0, 1]), Failed);
      && FactBatch.Validated(x, rules) && FactBatch.Validated(y, rules)
      && Served(t, 0, 0, q) && Source(q, [0, 1]) && Stale(q) && |t| == 2
      && TotalChars(Facts(t, [0, 1])) > CHAR_BUDGET && !Processed(Facts(t, [0, 1]), Facts(t, [0, 1]))
  {
    var x, y := FactBatch.Extracted("an", "person", "job", "x", quote),
      FactBatch.Extracted("an", "person", "age", "x", quote);
    AllowedWords();
    TwoFactsEscape(FactBatch.ToFact(0, 0, x, hash), FactBatch.ToFact(0, 0, y, hash));
  }

  lemma AllowedWords()
    ensures "person" in FactBatch.ALLOWED_TYPES
    ensures "job" in FactBatch.ALLOWED_ATTRIBUTES && "age" in FactBatch.ALLOWED_ATTRIBUTES
  {
    assert FactBatch.ALLOWED_TYPES[0] == "person";
    assert FactBatch.ALLOWED_ATTRIBUTES[2] == "job" && FactBatch.ALLOWED_ATTRIBUTES[9] == "age";
  }

  function ByNameFailed(): Request {
    Request(true, ["an"], true, Failed, Failed, Rows([0, 1]), Failed)
  }

  lemma {:induction false} TwoRows(f: Fact, g: Fact)
    requires f.key.attribute == "job" && g.key.attribute == "age"
    ensures NoNul([f, g]) && UpsertAll([], [f, g]) == [NewRow(f, None), NewRow(g, None)]
  {
    assert f.key.attribute[0] != g.key.attribute[0];
    UpsertsOfEach([f, g]);
  }

  lemma {:induction false} TwoAreServed(f: Fact, g: Fact)
    requires f.key == Key(0, 0, f.key.entity, "job") && g.key == Key(0, 0, g.key.entity, "age")
    requires f.entityType == g.entityType == "person"
    ensures Served([NewRow(f, None), NewRow(g, None)], 0, 0, ByNameFailed())
    ensures Source(ByNameFailed(), [0, 1]) && Stale(ByNameFailed())
  {
  }

  lemma {:induction false} TwoFactsEscape(f: Fact, g: Fact)
    requires f.key == Key(0, 0, f.key.entity, "job") && g.key == Key(0, 0, g.key.entity, "age")
    requires f.entityType == g.entityType == "person" && |f.quote| == |g.quote| == 3000
    ensures var t, q := UpsertAll([], [f, g]), ByNameFailed();
      && Served(t, 0, 0, q) && Source(q, [0, 1]) && Stale(q) && |t| == 2
      && TotalChars(Facts(t, [0, 1])) > CHAR_BUDGET && !Processed(Facts(t, [0, 1]), Facts(t, [0, 1]))
  {
    TwoRows(f, g);
    TwoAreServed(f, g);
    var raw := Facts(UpsertAll([], [f, g]), [0, 1]);
    TwoLongQuotes(raw);
    LeftoverErrorOnUpserts([f, g], 0, 0, ByNameFailed(), [0, 1], raw);
  }
}
