/** The temporal fact table: the supersede-or-deduplicate upsert and the chains it builds. */
module FactTable {

  import opened Wrappers

  // A fact is current for one tenant, user, entity and attribute at a time.
  datatype Key = Key(tenant: nat, user: nat, entity: string, attribute: string)

  // What one upsert statement is given. The hash stands for the value: equal values have equal hashes.
  datatype Fact = Fact(key: Key, entityType: string, value: string, hash: string, quote: string)

  // A row is current while its valid_until is null.
  datatype Row = Row(fact: Fact, current: bool, supersededBy: Option<nat>, confidence: real)

  const DEFAULT_CONFIDENCE := 1.0 // the column default; no upsert sets it

  type Table = seq<Row>

  predicate IsCurrent(t: Table, key: Key, i: int) {
    0 <= i < |t| && t[i].fact.key == key && t[i].current
  }

  ghost predicate OnlyCurrent(t: Table, key: Key, e: nat) {
    IsCurrent(t, key, e) && forall i | IsCurrent(t, key, i) :: i == e
  }

  // The row an upsert finds.
  function Existing(t: Table, key: Key): (e: Option<nat>)
    ensures e.Some? ==> IsCurrent(t, key, e.value)
    ensures e.None? ==> forall i :: !IsCurrent(t, key, i)
  {
    CurrentBelow(t, key, |t|)
  }

  function CurrentBelow(t: Table, key: Key, n: nat): (e: Option<nat>)
    requires n <= |t|
    ensures e.Some? ==> e.value < n && IsCurrent(t, key, e.value)
    ensures e.None? ==> forall i | i < n :: !IsCurrent(t, key, i)
  {
    if n == 0 then None
    else if IsCurrent(t, key, n - 1) then Some(n - 1)
    else CurrentBelow(t, key, n - 1)
  }

  function NewRow(f: Fact, previous: Option<nat>): Row {
    Row(f, true, previous, DEFAULT_CONFIDENCE)
  }

  // The table after a row was appended, and the row e of its key retired.
  function Appended(t: Table, f: Fact, e: Option<nat>): Table
    requires e.Some? ==> e.value < |t|
  {
    (if e.Some? then t[e.value := t[e.value].(current := false)] else t) + [NewRow(f, e)]
  }

  // The three cases of the statement: insert, keep, supersede.
  function Upsert(t: Table, f: Fact): Table {
    match Existing(t, f.key)
    case None => Appended(t, f, None)
    case Some(e) => if t[e].fact.hash == f.hash then t else Appended(t, f, Some(e))
  }

  function UpsertAll(t: Table, fs: seq<Fact>): Table {
    if fs == [] then t else Upsert(UpsertAll(t, fs[..|fs| - 1]), fs[|fs| - 1])
  }

  class FactStore {
    var rows: Table

    constructor ()
      ensures rows == []
    {
      rows := [];
    }

    method UpsertFact(f: Fact)
      modifies this
      ensures rows == Upsert(old(rows), f)
      ensures (forall i :: !IsCurrent(old(rows), f.key, i)) ==> rows == old(rows) + [Row(f, true, None, 1.0)]
      ensures forall e: nat | OnlyCurrent(old(rows), f.key, e) ::
        rows == if old(rows[e].fact.hash) == f.hash then old(rows)
                else old(rows)[e := old(rows[e]).(current := false)] + [Row(f, true, Some(e), 1.0)]
    {
      var e := Existing(rows, f.key);
      if e.None? {
        rows := rows + [NewRow(f, None)];
      } else if rows[e.value].fact.hash != f.hash {
        rows := rows[e.value := rows[e.value].(current := false)];
        rows := rows + [NewRow(f, e)];
      }
    }

    // One statement for each fact, in order.
    method UpsertFactBatch(fs: seq<Fact>)
      modifies this
      ensures rows == UpsertAll(old(rows), fs)
    {
      var i := 0;
      while i < |fs|
        invariant i <= |fs| && rows == UpsertAll(old(rows), fs[..i])
      {
        assert fs[..i + 1][..i] == fs[..i];
        UpsertFact(fs[i]);
        i := i + 1;
      }
      assert fs[..i] == fs;
    }
  }

  /* ---- Chains ---- */

  // The row of the same key right before row i.
  function Previous(t: Table, key: Key, i: nat): (p: Option<nat>)
    requires i <= |t|
    ensures p.Some? ==> p.value < i && t[p.value].fact.key == key
    ensures forall j | (if p.Some? then p.value + 1 else 0) <= j < i :: t[j].fact.key != key
  {
    if i == 0 then None
    else if t[i - 1].fact.key == key then Some(i - 1)
    else Previous(t, key, i - 1)
  }

  /** The rows of each key form one chain: row by row, superseded_by points to the row of the key before it, whose
      hash differs, and only the last row of the chain is current. */
  ghost predicate Chained(t: Table) {
    forall i | 0 <= i < |t| :: Linked(t, i)
  }

  ghost predicate Linked(t: Table, i: nat)
    requires i < |t|
  {
    && t[i].supersededBy == Previous(t, t[i].fact.key, i)
    && (t[i].supersededBy.Some? ==> t[t[i].supersededBy.value].fact.hash != t[i].fact.hash)
    && (t[i].current <==> Previous(t, t[i].fact.key, |t|) == Some(i))
    && t[i].confidence == 1.0
  }

  lemma {:induction false} PreviousPrefix(t: Table, t': Table, key: Key, i: nat)
    requires i <= |t| && i <= |t'| && forall j | 0 <= j < i :: t[j].fact == t'[j].fact
    ensures Previous(t, key, i) == Previous(t', key, i)
  {
    if i > 0 {
      PreviousPrefix(t, t', key, i - 1);
    }
  }

  // In a chained table the row an upsert finds is the last one of its key.
  lemma ExistingIsLast(t: Table, key: Key)
    requires Chained(t)
    ensures Existing(t, key) == Previous(t, key, |t|)
  {
    var p, e := Previous(t, key, |t|), Existing(t, key);
    if e.Some? {
      assert Linked(t, e.value);
    }
    if p.Some? {
      assert Linked(t, p.value);
      assert IsCurrent(t, key, p.value);
    }
  }

  // Appending a row moves the end of its key's chain, and no other link.
  lemma PreviousAfterAppend(t: Table, t': Table, f: Fact, key: Key, i: nat)
    requires |t'| == |t| + 1 && t'[|t|].fact == f && i <= |t| && forall j | 0 <= j < |t| :: t'[j].fact == t[j].fact
    ensures Previous(t', key, i) == Previous(t, key, i)
    ensures Previous(t', key, |t'|) == if key == f.key then Some(|t|) else Previous(t, key, |t|)
  {
    PreviousPrefix(t, t', key, i);
    PreviousPrefix(t, t', key, |t|);
  }

  lemma AppendRow(t: Table, f: Fact, e: Option<nat>, i: nat)
    requires i < |t| && (e.Some? ==> e.value < |t|)
    ensures var t' := Appended(t, f, e);
      |t'| == |t| + 1 && t'[i] == t[i].(current := t[i].current && e != Some(i)) && t'[|t|] == NewRow(f, e)
  {
  }

  lemma AppendLinks(t: Table, f: Fact, e: Option<nat>, i: nat)
    requires e == Previous(t, f.key, |t|) && (e.Some? ==> t[e.value].fact.hash != f.hash)
    requires i <= |t| && (i < |t| ==> Linked(t, i))
    ensures Linked(Appended(t, f, e), i)
  {
    var t' := Appended(t, f, e);
    forall j | 0 <= j < |t| ensures t'[j] == t[j].(current := t[j].current && e != Some(j)) {
      AppendRow(t, f, e, j);
    }
    assert t'[|t|] == NewRow(f, e);
    PreviousAfterAppend(t, t', f, t'[i].fact.key, i);
  }

  lemma AppendChains(t: Table, f: Fact, e: Option<nat>)
    requires Chained(t) && e == Previous(t, f.key, |t|) && (e.Some? ==> t[e.value].fact.hash != f.hash)
    ensures Chained(Appended(t, f, e))
  {
    forall i | 0 <= i < |t| + 1 ensures Linked(Appended(t, f, e), i) {
      AppendLinks(t, f, e, i);
    }
  }

  lemma UpsertKeepsChains(t: Table, f: Fact)
    requires Chained(t)
    ensures Chained(Upsert(t, f))
  {
    ExistingIsLast(t, f.key);
    var e := Existing(t, f.key);
    if e.None? || t[e.value].fact.hash != f.hash {
      AppendChains(t, f, e);
    }
  }

  /* ---- The current view ---- */

  // The fact a query on current rows sees for a key, and its hash.
  function CurrentFact(t: Table, key: Key): Option<Fact> {
    match Existing(t, key)
    case None => None
    case Some(e) => Some(t[e].fact)
  }

  function View(t: Table, key: Key): Option<string> {
    match CurrentFact(t, key)
    case None => None
    case Some(f) => Some(f.hash)
  }

  // In a chained table the view is the hash at the end of the chain.
  lemma ViewIsLast(t: Table, key: Key)
    requires Chained(t)
    ensures View(t, key) == match Previous(t, key, |t|) case None => None case Some(e) => Some(t[e].fact.hash)
  {
    ExistingIsLast(t, key);
  }

  lemma UpsertView(t: Table, f: Fact, key: Key)
    requires Chained(t)
    ensures View(Upsert(t, f), key) == if key == f.key then Some(f.hash) else View(t, key)
  {
    var t', e := Upsert(t, f), Existing(t, f.key);
    UpsertKeepsChains(t, f);
    ViewIsLast(t, key);
    ViewIsLast(t', key);
    if e.None? || t[e.value].fact.hash != f.hash {
      PreviousAfterAppend(t, t', f, key, |t|);
    }
  }

  /** An upsert shows its own fact, type, value and quote, unless the hash is what the key already shows: then the older
      fact stays. */
  lemma {:induction false} UpsertFactView(t: Table, f: Fact, key: Key)
    requires Chained(t)
    ensures CurrentFact(Upsert(t, f), key) ==
      if key == f.key && View(t, key) != Some(f.hash) then Some(f) else CurrentFact(t, key)
  {
    var t', e := Upsert(t, f), Existing(t, f.key);
    UpsertKeepsChains(t, f);
    ExistingIsLast(t, key);
    ExistingIsLast(t', key);
    ExistingIsLast(t, f.key);
    if e.None? || t[e.value].fact.hash != f.hash {
      PreviousAfterAppend(t, t', f, key, |t|);
    }
  }

  // The hash last upserted for a key.
  function LastUpserted(fs: seq<Fact>, key: Key): Option<string> {
    if fs == [] then None
    else if fs[|fs| - 1].key == key then Some(fs[|fs| - 1].hash)
    else LastUpserted(fs[..|fs| - 1], key)
  }

  lemma {:induction false} UpsertAllChains(t: Table, fs: seq<Fact>)
    requires Chained(t)
    ensures Chained(UpsertAll(t, fs))
  {
    if fs != [] {
      UpsertAllChains(t, fs[..|fs| - 1]);
      UpsertKeepsChains(UpsertAll(t, fs[..|fs| - 1]), fs[|fs| - 1]);
    }
  }

  lemma {:induction false} UpsertAllView(t: Table, fs: seq<Fact>, key: Key)
    requires Chained(t)
    ensures View(UpsertAll(t, fs), key) == if LastUpserted(fs, key).Some? then LastUpserted(fs, key) else View(t, key)
  {
    if fs != [] {
      UpsertAllView(t, fs[..|fs| - 1], key);
      UpsertAllChains(t, fs[..|fs| - 1]);
      UpsertView(UpsertAll(t, fs[..|fs| - 1]), fs[|fs| - 1], key);
    }
  }

  lemma OneCurrentRow(t: Table, key: Key, i: int, j: int)
    requires Chained(t) && IsCurrent(t, key, i) && IsCurrent(t, key, j)
    ensures i == j
  {
    assert Linked(t, i) && Linked(t, j);
  }

  /** The temporal fact chain. From an empty table, after any serial sequence of upserts, a key has a current row
      exactly if it was ever upserted, has only one, and that row holds the last hash upserted for it; and the
      rows of every key form one chain. */
  lemma TemporalChain(fs: seq<Fact>, key: Key)
    ensures var t := UpsertAll([], fs);
      && Chained(t)
      && View(t, key) == LastUpserted(fs, key)
      && ((exists i :: IsCurrent(t, key, i)) <==> (exists k :: 0 <= k < |fs| && fs[k].key == key))
      && (forall i, j | IsCurrent(t, key, i) && IsCurrent(t, key, j) ::
            i == j && Some(t[i].fact.hash) == LastUpserted(fs, key))
  {
    var t := UpsertAll([], fs);
    UpsertAllChains([], fs);
    UpsertAllView([], fs, key);
    LastUpsertedSome(fs, key);
    forall i, j | IsCurrent(t, key, i) && IsCurrent(t, key, j) ensures i == j {
      OneCurrentRow(t, key, i, j);
    }
  }

  lemma {:induction false} LastUpsertedSome(fs: seq<Fact>, key: Key)
    ensures LastUpserted(fs, key).Some? <==> exists k :: 0 <= k < |fs| && fs[k].key == key
  {
    if fs != [] {
      LastUpsertedSome(fs[..|fs| - 1], key);
      if LastUpserted(fs[..|fs| - 1], key).Some? {
        var k :| 0 <= k < |fs| - 1 && fs[..|fs| - 1][k].key == key;
        assert fs[k].key == key;
      }
    }
  }

  /** History is never rewritten: an upsert leaves every row's fact and link as they were. */
  lemma {:induction false} RowsAreKept(t: Table, fs: seq<Fact>)
    ensures |t| <= |UpsertAll(t, fs)|
    ensures forall i | 0 <= i < |t| ::
      UpsertAll(t, fs)[i].fact == t[i].fact && UpsertAll(t, fs)[i].supersededBy == t[i].supersededBy
  {
    if fs != [] {
      RowsAreKept(t, fs[..|fs| - 1]);
    }
  }
}
