/** Reciprocal rank fusion of the vector and the full-text result lists. */
module RankFusion {

  const RRF_K := 60

  datatype Chunk = Chunk(id: nat, content: string, similarity: real)

  datatype Scored = Scored(chunk: Chunk, score: real)

  /* ---- Scores ---- */

  // What a list gives to the chunk at a rank, counting from 0.
  function Share(rank: nat): (r: real)
    ensures r > 0.0
  {
    1.0 / (RRF_K + rank + 1) as real
  }

  // What a list gives to an id, over all its occurrences.
  function ListScore(cs: seq<Chunk>, id: nat): real {
    if cs == [] then 0.0
    else ListScore(cs[..|cs| - 1], id) + if cs[|cs| - 1].id == id then Share(|cs| - 1) else 0.0
  }

  function Score(vec: seq<Chunk>, fts: seq<Chunk>, id: nat): real {
    ListScore(vec, id) + ListScore(fts, id)
  }

  function Ids(cs: seq<Chunk>): set<nat> {
    set c | c in cs :: c.id
  }

  function OutIds(out: seq<Scored>): set<nat> {
    set s | s in out :: s.chunk.id
  }

  predicate DistinctIds(cs: seq<Chunk>) {
    forall i, j | 0 <= i < j < |cs| :: cs[i].id != cs[j].id
  }

  predicate OneEach(out: seq<Scored>) {
    forall i, j | 0 <= i < j < |out| :: out[i].chunk.id != out[j].chunk.id
  }

  predicate Descending(out: seq<Scored>) {
    forall i, j | 0 <= i < j < |out| :: out[i].score >= out[j].score
  }

  // A chunk found by both searches is the vector search's.
  predicate Represents(vec: seq<Chunk>, fts: seq<Chunk>, c: Chunk) {
    c in vec || (c in fts && c.id !in Ids(vec))
  }

  ghost predicate Entry(vec: seq<Chunk>, fts: seq<Chunk>, s: Scored) {
    Represents(vec, fts, s.chunk) && s.score == Score(vec, fts, s.chunk.id)
  }

  ghost predicate Entries(vec: seq<Chunk>, fts: seq<Chunk>, out: seq<Scored>) {
    forall s | s in out :: Entry(vec, fts, s)
  }

  /** A fusion of two lists: the best scored chunks of both, best first, one for each id, and nothing that was left
      out beats anything kept. How ties are ordered, and which of them are kept, is open. */
  ghost predicate Fusion(vec: seq<Chunk>, fts: seq<Chunk>, topK: nat, out: seq<Scored>) {
    var all := |Ids(vec) + Ids(fts)|;
    && |out| == (if topK < all then topK else all)
    && Entries(vec, fts, out)
    && OneEach(out)
    && Descending(out)
    && (forall id, i | id in Ids(vec) + Ids(fts) - OutIds(out) && 0 <= i < |out| :: Score(vec, fts, id) <= out[i].score)
  }

  /* ---- The merge ---- */

  // Scores so far: an id has an entry once it was met, and zero before.
  function Get(scores: map<nat, real>, id: nat): real {
    if id in scores then scores[id] else 0.0
  }

  method AddShares(cs: seq<Chunk>, before: map<nat, real>) returns (scores: map<nat, real>)
    ensures forall id :: Get(scores, id) == Get(before, id) + ListScore(cs, id)
  {
    scores := before;
    var rank := 0;
    while rank < |cs|
      invariant rank <= |cs|
      invariant forall id :: Get(scores, id) == Get(before, id) + ListScore(cs[..rank], id)
    {
      var c := cs[rank];
      assert cs[..rank + 1][..rank] == cs[..rank];
      ghost var was := scores;
      scores := scores[c.id := Get(scores, c.id) + Share(rank)];
      assert forall id :: Get(scores, id) == Get(was, id) + if id == c.id then Share(rank) else 0.0;
      rank := rank + 1;
    }
    assert cs[..rank] == cs;
  }

  method Represent(vec: seq<Chunk>, fts: seq<Chunk>) returns (byID: map<nat, Chunk>)
    ensures byID.Keys == Ids(vec) + Ids(fts)
    ensures forall id | id in byID :: byID[id].id == id && Represents(vec, fts, byID[id])
  {
    byID := map[];
    var i := 0;
    while i < |vec|
      invariant i <= |vec|
      invariant byID.Keys == Ids(vec[..i])
      invariant forall id | id in byID :: byID[id].id == id && byID[id] in vec
    {
      assert vec[..i + 1] == vec[..i] + [vec[i]];
      byID := byID[vec[i].id := vec[i]];
      i := i + 1;
    }
    assert vec[..i] == vec;
    i := 0;
    while i < |fts|
      invariant i <= |fts|
      invariant byID.Keys == Ids(vec) + Ids(fts[..i])
      invariant forall id | id in byID :: byID[id].id == id && Represents(vec, fts, byID[id])
    {
      assert fts[..i + 1] == fts[..i] + [fts[i]];
      if fts[i].id !in byID {
        byID := byID[fts[i].id := fts[i]];
      }
      i := i + 1;
    }
    assert fts[..i] == fts;
  }

  method RRFMerge(vec: seq<Chunk>, fts: seq<Chunk>, topK: nat) returns (merged: seq<Scored>)
    ensures Fusion(vec, fts, topK, merged)
    ensures |merged| == (if topK < |Ids(vec) + Ids(fts)| then topK else |Ids(vec) + Ids(fts)|)
    ensures forall i, j | 0 <= i < j < |merged| ::
      merged[i].score >= merged[j].score && merged[i].chunk.id != merged[j].chunk.id
    ensures forall s | s in merged ::
      && s.score == Score(vec, fts, s.chunk.id)
      && if s.chunk.id in Ids(vec) then s.chunk in vec else s.chunk in fts
  {
    var scores := AddShares(vec, map[]);
    scores := AddShares(fts, scores);
    var byID := Represent(vec, fts);
    merged := Collect(vec, fts, scores, byID);
    ghost var collected := merged;
    merged := SortByScore(merged);
    PermutedEntries(collected, merged);
    ghost var all := merged;
    if |merged| > topK {
      merged := merged[..topK];
    }
    PrefixIsFusion(vec, fts, topK, all, merged);
  }

  // Iterates over the map in some order.
  method Collect(vec: seq<Chunk>, fts: seq<Chunk>, scores: map<nat, real>, byID: map<nat, Chunk>)
    returns (merged: seq<Scored>)
    requires forall id :: Get(scores, id) == Score(vec, fts, id)
    requires forall id | id in byID :: byID[id].id == id && Represents(vec, fts, byID[id])
    ensures OneEach(merged) && OutIds(merged) == byID.Keys
    ensures Entries(vec, fts, merged)
  {
    merged := [];
    var left := byID.Keys;
    while left != {}
      invariant left <= byID.Keys
      invariant OneEach(merged) && OutIds(merged) == byID.Keys - left
      invariant Entries(vec, fts, merged)
      decreases |left|
    {
      var id :| id in left;
      var entry := Scored(byID[id], Get(scores, id));
      OutIdsNext(vec, fts, merged, entry);
      merged, left := merged + [entry], left - {id};
    }
  }

  lemma OutIdsNext(vec: seq<Chunk>, fts: seq<Chunk>, out: seq<Scored>, s: Scored)
    requires Entries(vec, fts, out) && Entry(vec, fts, s)
    ensures Entries(vec, fts, out + [s])
    ensures OutIds(out + [s]) == OutIds(out) + {s.chunk.id}
    ensures OneEach(out) && s.chunk.id !in OutIds(out) ==> OneEach(out + [s])
  {
    assert forall x :: x in out + [s] <==> x in out || x == s;
    assert forall i | 0 <= i < |out| :: out[i].chunk.id in OutIds(out);
  }

  // Any sort by descending score will do; the order of equal scores is not relied on.
  method SortByScore(a: seq<Scored>) returns (b: seq<Scored>)
    ensures Descending(b) && multiset(b) == multiset(a)
  {
    b := [];
    var i := 0;
    while i < |a|
      invariant i <= |a| && Descending(b) && multiset(b) == multiset(a[..i])
    {
      var k := PlaceFor(b, a[i]);
      InsertSorted(b, a[i], k);
      Snoc(a, i);
      b := Inserted(b, a[i], k);
      i := i + 1;
    }
    assert a[..i] == a;
  }

  // After the last entry that scores no less.
  method PlaceFor(b: seq<Scored>, s: Scored) returns (k: nat)
    ensures k <= |b|
    ensures k > 0 ==> b[k - 1].score >= s.score
    ensures forall j | k <= j < |b| :: b[j].score < s.score
  {
    k := |b|;
    while k > 0 && b[k - 1].score < s.score
      invariant 0 <= k <= |b|
      invariant forall j | k <= j < |b| :: b[j].score < s.score
    {
      k := k - 1;
    }
  }

  function Inserted(b: seq<Scored>, s: Scored, k: nat): seq<Scored>
    requires k <= |b|
  {
    b[..k] + [s] + b[k..]
  }

  lemma Snoc(a: seq<Scored>, i: nat)
    requires i < |a|
    ensures multiset(a[..i + 1]) == multiset(a[..i]) + multiset{a[i]}
  {
    assert a[..i + 1] == a[..i] + [a[i]];
  }

  lemma InsertSorted(b: seq<Scored>, s: Scored, k: nat)
    requires Descending(b) && k <= |b|
    requires k > 0 ==> b[k - 1].score >= s.score
    requires forall j | k <= j < |b| :: b[j].score < s.score
    ensures Descending(Inserted(b, s, k))
    ensures multiset(Inserted(b, s, k)) == multiset(b) + multiset{s}
  {
    forall i | 0 <= i < k ensures b[i].score >= s.score {
      assert i < k - 1 ==> b[i].score >= b[k - 1].score;
    }
    DescendingConcat(b[..k], [s]);
    DescendingConcat(b[..k] + [s], b[k..]);
    InsertKeeps(b, s, k);
  }

  lemma DescendingConcat(x: seq<Scored>, y: seq<Scored>)
    requires Descending(x) && Descending(y)
    requires forall i, j | 0 <= i < |x| && 0 <= j < |y| :: x[i].score >= y[j].score
    ensures Descending(x + y)
  {
  }

  lemma InsertKeeps(b: seq<Scored>, s: Scored, k: nat)
    requires k <= |b|
    ensures multiset(Inserted(b, s, k)) == multiset(b) + multiset{s}
  {
    assert b == b[..k] + b[k..];
  }

  /* ---- Why the merge is a fusion ---- */

  lemma {:induction false} SizeOfOutIds(out: seq<Scored>)
    requires OneEach(out)
    ensures |OutIds(out)| == |out|
  {
    if out != [] {
      var n := |out| - 1;
      SizeOfOutIds(out[..n]);
      assert out == out[..n] + [out[n]];
      assert out[n].chunk.id !in OutIds(out[..n]);
      assert OutIds(out) == OutIds(out[..n]) + {out[n].chunk.id};
    }
  }

  lemma {:induction false} SizeAtMost(out: seq<Scored>)
    ensures |OutIds(out)| <= |out|
    ensures |OutIds(out)| == |out| ==> OneEach(out)
  {
    if out != [] {
      var n := |out| - 1;
      SizeAtMost(out[..n]);
      assert out == out[..n] + [out[n]];
      assert OutIds(out) == OutIds(out[..n]) + {out[n].chunk.id};
      assert forall i | 0 <= i < n :: out[i] in out[..n];
    }
  }

  // Sorting keeps the entries, and so one for each id.
  lemma PermutedEntries(a: seq<Scored>, b: seq<Scored>)
    requires OneEach(a) && multiset(b) == multiset(a)
    ensures OneEach(b) && OutIds(b) == OutIds(a)
    ensures forall s :: s in b <==> s in a
  {
    SameElements(a, b);
    assert OutIds(b) == OutIds(a);
    SizeOfOutIds(a);
    SizeAtMost(b);
  }

  lemma SameElements(a: seq<Scored>, b: seq<Scored>)
    requires multiset(b) == multiset(a)
    ensures |b| == |a| && forall s :: s in b <==> s in a
  {
    assert |multiset(a)| == |a| && |multiset(b)| == |b|;
    forall s ensures s in b <==> s in a {
      assert s in b <==> s in multiset(b);
      assert s in a <==> s in multiset(a);
    }
  }

  lemma PrefixIsFusion(vec: seq<Chunk>, fts: seq<Chunk>, topK: nat, all: seq<Scored>, out: seq<Scored>)
    requires OneEach(all) && Descending(all) && OutIds(all) == Ids(vec) + Ids(fts)
    requires Entries(vec, fts, all)
    requires out == if |all| > topK then all[..topK] else all
    ensures Fusion(vec, fts, topK, out)
  {
    SizeOfOutIds(all);
    forall id, i | id in Ids(vec) + Ids(fts) - OutIds(out) && 0 <= i < |out|
      ensures Score(vec, fts, id) <= out[i].score
    {
      assert id in OutIds(all);
      var j :| 0 <= j < |all| && all[j].chunk.id == id;
      assert Entry(vec, fts, all[j]);
      assert forall k | 0 <= k < |out| :: out[k] == all[k] && out[k] in out;
    }
  }

  /* ---- What any fusion is like ---- */

  /** Two fusions of the same lists may order and cut ties differently, but hold the same scores place by place. */
  lemma SameScores(vec: seq<Chunk>, fts: seq<Chunk>, topK: nat, out: seq<Scored>, out': seq<Scored>, i: nat)
    requires Fusion(vec, fts, topK, out) && Fusion(vec, fts, topK, out') && i < |out|
    ensures out[i].score == out'[i].score
  {
    NotAhead(vec, fts, topK, out, out', i);
    NotAhead(vec, fts, topK, out', out, i);
  }

  // Otherwise i + 1 ids would have to share the i places before place i of the other fusion.
  lemma NotAhead(vec: seq<Chunk>, fts: seq<Chunk>, topK: nat, out: seq<Scored>, out': seq<Scored>, i: nat)
    requires Fusion(vec, fts, topK, out) && Fusion(vec, fts, topK, out') && i < |out|
    ensures out[i].score <= out'[i].score
  {
    if out[i].score > out'[i].score {
      forall id | id in OutIds(out[..i + 1]) ensures id in OutIds(out'[..i]) {
        var j :| 0 <= j <= i && out[j].chunk.id == id;
        PlaceOfBetter(vec, fts, topK, out, out', i, j);
      }
      SizeOfOutIds(out[..i + 1]);
      SizeOfOutIds(out'[..i]);
      SubsetIsSmaller(OutIds(out[..i + 1]), OutIds(out'[..i]));
    }
  }

  lemma PlaceOfBetter(vec: seq<Chunk>, fts: seq<Chunk>, topK: nat, out: seq<Scored>, out': seq<Scored>, i: nat, j: nat)
    requires Fusion(vec, fts, topK, out) && Fusion(vec, fts, topK, out') && j <= i < |out|
    requires out[i].score > out'[i].score
    ensures out[j].chunk.id in OutIds(out'[..i])
  {
    var id := out[j].chunk.id;
    EntryIsFound(vec, fts, out[j]);
    assert Score(vec, fts, id) > out'[i].score;
    assert id in OutIds(out');
    var k :| 0 <= k < |out'| && out'[k].chunk.id == id;
    assert Entry(vec, fts, out'[k]);
    assert k < i;
    assert out'[..i][k] == out'[k];
  }

  lemma EntryIsFound(vec: seq<Chunk>, fts: seq<Chunk>, s: Scored)
    requires Entry(vec, fts, s)
    ensures s.chunk.id in Ids(vec) + Ids(fts)
  {
  }

  lemma {:induction false} SubsetIsSmaller(a: set<nat>, b: set<nat>)
    requires a <= b
    ensures |a| <= |b|
  {
    if a != {} {
      var x :| x in a;
      SubsetIsSmaller(a - {x}, b - {x});
    }
  }

  /* ---- Scores of distinct lists ---- */

  predicate At(cs: seq<Chunk>, rank: int, id: nat) {
    0 <= rank < |cs| && cs[rank].id == id
  }

  /** In a list without repeated ids, an id scores by its one rank, and an absent one not at all. */
  lemma {:induction false} ListScoreByRank(cs: seq<Chunk>, id: nat)
    requires DistinctIds(cs)
    ensures id !in Ids(cs) ==> ListScore(cs, id) == 0.0
    ensures forall rank | At(cs, rank, id) :: ListScore(cs, id) == 1.0 / (61 + rank) as real
  {
    if cs != [] {
      var n := |cs| - 1;
      assert cs == cs[..n] + [cs[n]];
      ListScoreByRank(cs[..n], id);
      if cs[n].id == id {
        assert id !in Ids(cs[..n]);
      }
      forall rank | At(cs, rank, id) ensures ListScore(cs, id) == 1.0 / (61 + rank) as real {
        if rank < n {
          assert At(cs[..n], rank, id) && cs[n].id != id;
        }
      }
    }
  }

  lemma EarlierShareIsLarger(i: nat, j: nat)
    ensures i < j <==> Share(i) > Share(j)
  {
    var x, y := (RRF_K + i + 1) as real, (RRF_K + j + 1) as real;
    Reciprocals(x, y);
    Reciprocals(y, x);
  }

  lemma Reciprocals(x: real, y: real)
    requires x > 0.0 && y > 0.0
    ensures x < y ==> 1.0 / x > 1.0 / y
  {
    assert 1.0 / x - 1.0 / y == (y - x) / (x * y);
  }

  lemma AgreedScores(vec: seq<Chunk>, fts: seq<Chunk>, a: nat, b: nat, va: nat, vb: nat, fa: nat, fb: nat)
    requires DistinctIds(vec) && DistinctIds(fts)
    requires At(vec, va, a) && At(vec, vb, b) && va < vb
    requires At(fts, fa, a) && At(fts, fb, b) && fa < fb
    ensures Score(vec, fts, a) > Score(vec, fts, b)
  {
    ListScoreByRank(vec, a);
    ListScoreByRank(vec, b);
    ListScoreByRank(fts, a);
    ListScoreByRank(fts, b);
    EarlierShareIsLarger(va, vb);
    EarlierShareIsLarger(fa, fb);
  }

  /** Fusion keeps the order both searches agree on: an id ahead of another in both lists scores strictly higher,
      and comes earlier in every fusion that has the other. */
  lemma AgreedOrderIsKept(vec: seq<Chunk>, fts: seq<Chunk>, topK: nat, out: seq<Scored>,
                          a: nat, b: nat, va: nat, vb: nat, fa: nat, fb: nat, j: nat)
    requires DistinctIds(vec) && DistinctIds(fts) && Fusion(vec, fts, topK, out)
    requires At(vec, va, a) && At(vec, vb, b) && va < vb
    requires At(fts, fa, a) && At(fts, fb, b) && fa < fb
    requires j < |out| && out[j].chunk.id == b
    ensures Score(vec, fts, a) > Score(vec, fts, b)
    ensures exists i :: 0 <= i < j && out[i].chunk.id == a
  {
    AgreedScores(vec, fts, a, b, va, vb, fa, fb);
    assert Entry(vec, fts, out[j]);
    HigherComesFirst(vec, fts, topK, out, a, j);
  }

  lemma HigherComesFirst(vec: seq<Chunk>, fts: seq<Chunk>, topK: nat, out: seq<Scored>, a: nat, j: nat)
    requires Fusion(vec, fts, topK, out) && a in Ids(vec) + Ids(fts) && j < |out|
    requires Score(vec, fts, a) > out[j].score
    ensures exists i :: 0 <= i < j && out[i].chunk.id == a
  {
    assert a in OutIds(out);
    var i :| 0 <= i < |out| && out[i].chunk.id == a;
    assert Entry(vec, fts, out[i]);
  }

  /** Agreement beats rank: with ids distinct in each list, an id that both searches found at ranks up to 60 comes
      before every id that only one found, wherever that is ranked. */
  lemma BothBeatOne(vec: seq<Chunk>, fts: seq<Chunk>, topK: nat, out: seq<Scored>, a: nat, va: nat, fa: nat, j: nat)
    requires DistinctIds(vec) && DistinctIds(fts) && Fusion(vec, fts, topK, out)
    requires At(vec, va, a) && At(fts, fa, a) && va <= 60 && fa <= 60
    requires j < |out| && !(out[j].chunk.id in Ids(vec) && out[j].chunk.id in Ids(fts))
    ensures exists i :: 0 <= i < j && out[i].chunk.id == a
  {
    var b := out[j].chunk.id;
    EntryIsFound(vec, fts, out[j]);
    SingleScore(vec, fts, b);
    ListScoreByRank(vec, a);
    ListScoreByRank(fts, a);
    EarlierShareIsLarger(va, RRF_K + 1);
    EarlierShareIsLarger(fa, RRF_K + 1);
    assert Share(RRF_K + 1) + Share(RRF_K + 1) == Share(0);
    HigherComesFirst(vec, fts, topK, out, a, j);
  }

  lemma SingleScore(vec: seq<Chunk>, fts: seq<Chunk>, b: nat)
    requires DistinctIds(vec) && DistinctIds(fts) && b in Ids(vec) + Ids(fts) && !(b in Ids(vec) && b in Ids(fts))
    ensures Score(vec, fts, b) <= Share(0)
  {
    ListScoreByRank(vec, b);
    ListScoreByRank(fts, b);
    var cs := if b in Ids(vec) then vec else fts;
    var c :| c in cs && c.id == b;
    var rank :| 0 <= rank < |cs| && cs[rank] == c;
    assert At(cs, rank, b);
    EarlierShareIsLarger(0, rank);
  }

  /** Rank 60 is the last that is enough: found by both searches one rank lower, an id only ties with one that leads
      one list alone, and a fusion may order the two either way. */
  lemma RankSixtyIsSharp(vec: seq<Chunk>, fts: seq<Chunk>, a: nat, b: nat)
    requires DistinctIds(vec) && DistinctIds(fts)
    requires At(vec, 61, a) && At(fts, 61, a) && At(vec, 0, b) && b !in Ids(fts)
    ensures Score(vec, fts, a) == Score(vec, fts, b)
  {
    ListScoreByRank(vec, a);
    ListScoreByRank(fts, a);
    ListScoreByRank(vec, b);
    ListScoreByRank(fts, b);
    assert Share(RRF_K + 1) + Share(RRF_K + 1) == Share(0);
  }
}
