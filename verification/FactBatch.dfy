/** The extracted facts of one batch: validation, the last-wins map, and the batch upsert in whatever order the
    map is iterated. */
module FactBatch {
  import opened FactTable
  import opened Wrappers

  datatype Extracted = Extracted(entity: string, entityType: string, attribute: string, value: string, quote: string)

  const ALLOWED_TYPES := ["person", "place", "org", "contact", "thing", "self"]
  const ALLOWED_ATTRIBUTES :=
    ["email", "phone", "job", "birthday", "address", "likes", "owns", "works_at", "relationship", "age", "name"]

  // `clean` stands for the injection patterns, and `bytes` for the length of a string's encoding.
  datatype Rules = Rules(clean: string -> bool, bytes: string -> nat)

  predicate Validated(f: Extracted, rules: Rules) {
    && 0 < rules.bytes(f.entity) <= 100
    && f.entityType in ALLOWED_TYPES
    && f.attribute in ALLOWED_ATTRIBUTES
    && rules.bytes(f.value) <= 500
    && rules.clean(f.value) && rules.clean(f.entity)
  }

  method ValidateExtractedFact(f: Extracted, rules: Rules) returns (ok: bool)
    ensures ok <==> Validated(f, rules)
    ensures ok <==>
      && 1 <= rules.bytes(f.entity) <= 100 && rules.bytes(f.value) <= 500
      && rules.clean(f.entity) && rules.clean(f.value)
      && f.entityType in {"person", "place", "org", "contact", "thing", "self"}
      && f.attribute in {"email", "phone", "job", "birthday", "address", "likes", "owns", "works_at", "relationship",
                         "age", "name"}
  {
    if rules.bytes(f.entity) == 0 || rules.bytes(f.entity) > 100 {
      return false;
    }
    if f.entityType !in ALLOWED_TYPES {
      return false;
    }
    if f.attribute !in ALLOWED_ATTRIBUTES {
      return false;
    }
    if rules.bytes(f.value) > 500 {
      return false;
    }
    if !rules.clean(f.value) || !rules.clean(f.entity) {
      return false;
    }
    return true;
  }

  /* ---- Keys made of two strings and a separator ---- */

  function Joined(entity: string, sep: char, attribute: string): string {
    entity + [sep] + attribute
  }

  /** Joining is injective as long as the separator does not occur in the second part. */
  lemma JoinedInjective(e1: string, a1: string, e2: string, a2: string, sep: char)
    requires sep !in a1 && sep !in a2 && Joined(e1, sep, a1) == Joined(e2, sep, a2)
    ensures e1 == e2 && a1 == a2
  {
    var s := Joined(e1, sep, a1);
    assert s[|e1|] == sep == s[|e2|];
    assert |s| == |e1| + 1 + |a1| == |e2| + 1 + |a2|;
    assert forall i | |e1| < i < |s| :: s[i] == a1[i - |e1| - 1];
    assert forall i | |e2| < i < |s| :: s[i] == a2[i - |e2| - 1];
    assert e1 == s[..|e1|] && e2 == s[..|e2|];
    assert a1 == s[|e1| + 1..] && a2 == s[|e2| + 1..];
  }

  lemma NoBarInAttributes(a: string)
    requires a in ALLOWED_ATTRIBUTES
    ensures '|' !in a
  {
    var k :| 0 <= k < |ALLOWED_ATTRIBUTES| && ALLOWED_ATTRIBUTES[k] == a;
    assert '|' !in ALLOWED_ATTRIBUTES[0] && '|' !in ALLOWED_ATTRIBUTES[1] && '|' !in ALLOWED_ATTRIBUTES[2];
    assert '|' !in ALLOWED_ATTRIBUTES[3] && '|' !in ALLOWED_ATTRIBUTES[4] && '|' !in ALLOWED_ATTRIBUTES[5];
    assert '|' !in ALLOWED_ATTRIBUTES[6] && '|' !in ALLOWED_ATTRIBUTES[7] && '|' !in ALLOWED_ATTRIBUTES[8];
    assert '|' !in ALLOWED_ATTRIBUTES[9] && '|' !in ALLOWED_ATTRIBUTES[10];
  }

  function BatchKey(f: Extracted): string {
    Joined(f.entity, '|', f.attribute)
  }

  predicate SameSubject(f: Extracted, g: Extracted) {
    f.entity == g.entity && f.attribute == g.attribute
  }

  /* ---- The last-wins map ---- */

  // `last` is the last validated fact about its subject.
  ghost predicate LastAbout(facts: seq<Extracted>, rules: Rules, i: int) {
    && 0 <= i < |facts| && Validated(facts[i], rules)
    && forall j | i < j < |facts| && Validated(facts[j], rules) :: !SameSubject(facts[i], facts[j])
  }

  // An iteration over the map: each key once.
  ghost predicate Enumerates(order: seq<string>, unique: map<string, Extracted>) {
    && (forall i, j | 0 <= i < j < |order| :: order[i] != order[j])
    && (forall k :: k in order <==> k in unique)
  }

  ghost predicate OneSubjectEach(unique: map<string, Extracted>) {
    forall k, l | k in unique && l in unique && k != l :: !SameSubject(unique[k], unique[l])
  }

  /** The map holds, for each subject that a validated fact of the response is about, the last such fact, and
      nothing else; two of its keys never stand for the same subject. */
  method UniqueFacts(facts: seq<Extracted>, rules: Rules) returns (unique: map<string, Extracted>)
    ensures forall k | k in unique ::
      exists i :: LastAbout(facts, rules, i) && unique[k] == facts[i] && k == BatchKey(facts[i])
    ensures forall i | LastAbout(facts, rules, i) ::
      BatchKey(facts[i]) in unique && unique[BatchKey(facts[i])] == facts[i]
    ensures OneSubjectEach(unique)
  {
    unique := map[];
    var n := 0;
    while n < |facts|
      invariant n <= |facts| && LastWins(facts[..n], rules, unique)
    {
      var f := facts[n];
      assert facts[..n + 1] == facts[..n] + [f];
      NextFact(facts[..n], f, rules, unique);
      var ok := ValidateExtractedFact(f, rules);
      if ok {
        unique := unique[BatchKey(f) := f];
      }
      n := n + 1;
    }
    assert facts[..n] == facts;
    forall i | LastAbout(facts, rules, i)
      ensures BatchKey(facts[i]) in unique && unique[BatchKey(facts[i])] == facts[i]
    {
      var k := BatchKey(facts[i]);
      assert Holds(facts, rules, unique[k], k);
      var j :| LastAbout(facts, rules, j) && unique[k] == facts[j] && k == BatchKey(facts[j]);
      SameKeySameSubject(facts[i], facts[j]);
      assert i == j;
    }
  }

  ghost predicate Holds(facts: seq<Extracted>, rules: Rules, f: Extracted, k: string) {
    exists i :: LastAbout(facts, rules, i) && f == facts[i] && k == BatchKey(facts[i])
  }

  lemma SameKeySameSubject(f: Extracted, g: Extracted)
    requires f.attribute in ALLOWED_ATTRIBUTES && g.attribute in ALLOWED_ATTRIBUTES
    ensures BatchKey(f) == BatchKey(g) <==> SameSubject(f, g)
  {
    NoBarInAttributes(f.attribute);
    NoBarInAttributes(g.attribute);
    if BatchKey(f) == BatchKey(g) {
      JoinedInjective(f.entity, f.attribute, g.entity, g.attribute, '|');
    }
  }

  // What the map holds after some of the facts.
  ghost predicate LastWins(facts: seq<Extracted>, rules: Rules, unique: map<string, Extracted>) {
    && (forall k | k in unique :: Holds(facts, rules, unique[k], k))
    && (forall i | 0 <= i < |facts| && Validated(facts[i], rules) :: BatchKey(facts[i]) in unique)
  }

  lemma NextFact(facts: seq<Extracted>, f: Extracted, rules: Rules, unique: map<string, Extracted>)
    requires LastWins(facts, rules, unique)
    ensures LastWins(facts + [f], rules, if Validated(f, rules) then unique[BatchKey(f) := f] else unique)
  {
    assert (facts + [f])[|facts|] == f;
    if Validated(f, rules) {
      assert LastAbout(facts + [f], rules, |facts|);
    }
    forall k | k in unique && (Validated(f, rules) ==> k != BatchKey(f))
      ensures Holds(facts + [f], rules, unique[k], k)
    {
      HoldsOn(facts, f, rules, unique[k], k);
    }
  }

  lemma HoldsOn(facts: seq<Extracted>, f: Extracted, rules: Rules, g: Extracted, k: string)
    requires Holds(facts, rules, g, k) && (Validated(f, rules) ==> k != BatchKey(f))
    ensures Holds(facts + [f], rules, g, k)
  {
    var i :| LastAbout(facts, rules, i) && g == facts[i] && k == BatchKey(facts[i]);
    assert (facts + [f])[i] == g;
    if Validated(f, rules) {
      SameKeySameSubject(f, g);
    }
    assert LastAbout(facts + [f], rules, i);
  }

  /* ---- The batch upsert in any order ---- */

  // One order of the map's entries, as upserts for a tenant and user. `hash` is the value hash.
  function InOrder(tenant: nat, user: nat, unique: map<string, Extracted>, order: seq<string>,
                   hash: string -> string): seq<Fact>
    requires forall k | k in order :: k in unique
  {
    seq(|order|, i requires 0 <= i < |order| => ToFact(tenant, user, unique[order[i]], hash))
  }

  function ToFact(tenant: nat, user: nat, f: Extracted, hash: string -> string): Fact {
    Fact(Key(tenant, user, f.entity, f.attribute), f.entityType, f.value, hash(f.value), f.quote)
  }

  // Distinct subjects, as the map gives them.
  ghost predicate OneEach(fs: seq<Fact>) {
    forall i, j | 0 <= i < j < |fs| :: fs[i].key != fs[j].key
  }

  ghost predicate SameFacts(fs: seq<Fact>, gs: seq<Fact>) {
    forall f :: f in fs <==> f in gs
  }

  lemma {:induction false} LastIsOnly(fs: seq<Fact>, f: Fact)
    requires OneEach(fs) && f in fs
    ensures LastUpserted(fs, f.key) == Some(f.hash)
  {
    var init, last := fs[..|fs| - 1], fs[|fs| - 1];
    assert fs == init + [last];
    if f != last {
      var i :| 0 <= i < |fs| && fs[i] == f;
      assert fs[i].key != fs[|fs| - 1].key;
      LastIsOnly(init, f);
    }
  }

  // What a batch with one fact for each key leaves for a key: the batch's fact, if it has one and the hash is news, or
  // else what was there.
  lemma {:induction false} BatchLeaves(t: Table, fs: seq<Fact>, key: Key)
    requires Chained(t) && OneEach(fs)
    ensures (forall f | f in fs :: f.key != key) ==> CurrentFact(UpsertAll(t, fs), key) == CurrentFact(t, key)
    ensures forall f | f in fs && f.key == key ::
      CurrentFact(UpsertAll(t, fs), key) == if View(t, key) == Some(f.hash) then CurrentFact(t, key) else Some(f)
  {
    if fs != [] {
      var init, last := fs[..|fs| - 1], fs[|fs| - 1];
      assert fs == init + [last];
      BatchLeaves(t, init, key);
      UpsertAllChains(t, init);
      UpsertFactView(UpsertAll(t, init), last, key);
      forall f | f in init ensures f.key != last.key {
        var i :| 0 <= i < |init| && init[i] == f;
        assert fs[i].key != fs[|fs| - 1].key;
      }
    }
  }

  /** Any two orders of the same facts leave the same current facts, with their types, values and quotes. */
  lemma {:induction false} OrderDoesNotMatter(t: Table, fs: seq<Fact>, gs: seq<Fact>, key: Key)
    requires Chained(t) && OneEach(fs) && OneEach(gs) && SameFacts(fs, gs)
    ensures CurrentFact(UpsertAll(t, fs), key) == CurrentFact(UpsertAll(t, gs), key)
  {
    BatchLeaves(t, fs, key);
    BatchLeaves(t, gs, key);
    if f :| f in fs && f.key == key {
      assert f in gs;
    }
  }

  // Upserting what the view already shows changes no row.
  lemma {:induction false} NothingNew(t: Table, fs: seq<Fact>)
    requires forall f | f in fs :: View(t, f.key) == Some(f.hash)
    ensures UpsertAll(t, fs) == t
  {
    if fs != [] {
      assert fs[|fs| - 1] in fs;
      forall f | f in fs[..|fs| - 1] ensures f in fs {
      }
      NothingNew(t, fs[..|fs| - 1]);
    }
  }

  /** Redelivery is harmless: applying the batch again, in any order, changes no row of the table. */
  lemma BatchIsIdempotent(t: Table, fs: seq<Fact>, gs: seq<Fact>)
    requires Chained(t) && OneEach(fs) && SameFacts(fs, gs)
    ensures UpsertAll(UpsertAll(t, fs), gs) == UpsertAll(t, fs)
  {
    forall g | g in gs ensures View(UpsertAll(t, fs), g.key) == Some(g.hash) {
      LastIsOnly(fs, g);
      UpsertAllView(t, fs, g.key);
    }
    NothingNew(UpsertAll(t, fs), gs);
  }

  lemma OrdersAgree(tenant: nat, user: nat, unique: map<string, Extracted>, order: seq<string>, order': seq<string>,
                    hash: string -> string)
    requires OneSubjectEach(unique) && Enumerates(order, unique) && Enumerates(order', unique)
    ensures OneEach(InOrder(tenant, user, unique, order, hash))
    ensures SameFacts(InOrder(tenant, user, unique, order, hash), InOrder(tenant, user, unique, order', hash))
  {
    var fs, gs := InOrder(tenant, user, unique, order, hash), InOrder(tenant, user, unique, order', hash);
    forall i, j | 0 <= i < j < |fs| ensures fs[i].key != fs[j].key {
      assert !SameSubject(unique[order[i]], unique[order[j]]);
    }
    forall f ensures f in fs <==> f in gs {
      if f in fs {
        var i :| 0 <= i < |fs| && fs[i] == f;
        assert order[i] in order';
        var j :| 0 <= j < |order'| && order'[j] == order[i];
        assert gs[j] == f;
      }
      if f in gs {
        var i :| 0 <= i < |gs| && gs[i] == f;
        assert order'[i] in order;
        var j :| 0 <= j < |order| && order[j] == order'[i];
        assert fs[j] == f;
      }
    }
  }

  /** Whatever order Go iterates the map in, the batch leaves the same current facts, and applying it again in any
      order changes no row. */
  lemma {:induction false} AnyOrder(t: Table, tenant: nat, user: nat, unique: map<string, Extracted>,
                                    order: seq<string>, order': seq<string>,
                 hash: string -> string)
    requires Chained(t) && OneSubjectEach(unique) && Enumerates(order, unique) && Enumerates(order', unique)
    ensures var fs, gs := InOrder(tenant, user, unique, order, hash), InOrder(tenant, user, unique, order', hash);
      && (forall key :: CurrentFact(UpsertAll(t, fs), key) == CurrentFact(UpsertAll(t, gs), key))
      && UpsertAll(UpsertAll(t, fs), gs) == UpsertAll(t, fs)
  {
    var fs, gs := InOrder(tenant, user, unique, order, hash), InOrder(tenant, user, unique, order', hash);
    OrdersAgree(tenant, user, unique, order, order', hash);
    OrdersAgree(tenant, user, unique, order', order, hash);
    BatchIsIdempotent(t, fs, gs);
    forall key ensures CurrentFact(UpsertAll(t, fs), key) == CurrentFact(UpsertAll(t, gs), key) {
      OrderDoesNotMatter(t, fs, gs, key);
    }
  }

  /** The fact part of processing a response: validate, keep the last fact of each subject, and upsert them in the
      order the map happens to be iterated in. Afterwards the view shows exactly these facts for their subjects. */
  method ProcessFacts(store: FactStore, tenant: nat, user: nat, facts: seq<Extracted>, rules: Rules,
                      hash: string -> string)
    returns (unique: map<string, Extracted>, ghost order: seq<string>)
    requires Chained(store.rows)
    modifies store
    ensures OneSubjectEach(unique) && Enumerates(order, unique) && Chained(store.rows)
    ensures store.rows == UpsertAll(old(store.rows), InOrder(tenant, user, unique, order, hash))
    ensures forall i | LastAbout(facts, rules, i) ::
      View(store.rows, Key(tenant, user, facts[i].entity, facts[i].attribute)) == Some(hash(facts[i].value))
    ensures forall i | LastAbout(facts, rules, i) ::
      Stores(old(store.rows), tenant, user, facts[i], hash(facts[i].value), store.rows)
    ensures forall key | !About(facts, rules, tenant, user, key) ::
      CurrentFact(store.rows, key) == CurrentFact(old(store.rows), key)
  {
    unique := UniqueFacts(facts, rules);
    ghost var t := store.rows;
    var keys, batch := unique.Keys, [];
    order := [];
    while keys != {}
      invariant keys <= unique.Keys && (forall k :: k in order <==> k in unique && k !in keys)
      invariant forall i, j | 0 <= i < j < |order| :: order[i] != order[j]
      invariant batch == InOrder(tenant, user, unique, order, hash)
      decreases keys
    {
      var k :| k in keys;
      keys, order, batch := keys - {k}, order + [k], batch + [ToFact(tenant, user, unique[k], hash)];
    }
    store.UpsertFactBatch(batch);
    UpsertAllChains(t, batch);
    forall i | LastAbout(facts, rules, i)
      ensures View(store.rows, Key(tenant, user, facts[i].entity, facts[i].attribute)) == Some(hash(facts[i].value))
    {
      BatchShows(t, tenant, user, unique, order, hash, BatchKey(facts[i]));
    }
    forall i | LastAbout(facts, rules, i) ensures Stores(t, tenant, user, facts[i], hash(facts[i].value), store.rows) {
      BatchStores(t, tenant, user, unique, order, hash, BatchKey(facts[i]));
    }
    forall key | !About(facts, rules, tenant, user, key) ensures CurrentFact(store.rows, key) == CurrentFact(t, key) {
      OthersKeepTheirFact(t, tenant, user, facts, rules, unique, order, hash, key);
    }
  }

  // The fact is the current one about its subject, as it was extracted, unless the subject showed this value before:
  // then the older fact stays.
  predicate Stores(t: Table, tenant: nat, user: nat, x: Extracted, valueHash: string, t': Table) {
    var key := Key(tenant, user, x.entity, x.attribute);
    if View(t, key) == Some(valueHash) then CurrentFact(t', key) == CurrentFact(t, key)
    else
      match CurrentFact(t', key)
      case None => false
      case Some(f) =>
        && f.key == key && f.entityType == x.entityType && f.value == x.value && f.quote == x.quote
        && f.hash == valueHash
  }

  // Some validated fact of the response is about the key.
  ghost predicate About(facts: seq<Extracted>, rules: Rules, tenant: nat, user: nat, key: Key) {
    exists i :: LastAbout(facts, rules, i) && key == Key(tenant, user, facts[i].entity, facts[i].attribute)
  }

  lemma {:induction false} BatchStores(t: Table, tenant: nat, user: nat, unique: map<string, Extracted>,
                                       order: seq<string>, hash: string -> string, k: string)
    requires Chained(t) && OneSubjectEach(unique) && Enumerates(order, unique) && k in unique
    ensures var x := unique[k];
      Stores(t, tenant, user, x, hash(x.value), UpsertAll(t, InOrder(tenant, user, unique, order, hash)))
  {
    var batch := InOrder(tenant, user, unique, order, hash);
    OrdersAgree(tenant, user, unique, order, order, hash);
    var j :| 0 <= j < |order| && order[j] == k;
    assert batch[j] in batch;
    BatchLeaves(t, batch, batch[j].key);
  }

  lemma {:induction false} OthersKeepTheirFact(t: Table, tenant: nat, user: nat, facts: seq<Extracted>, rules: Rules,
                                               unique: map<string, Extracted>, order: seq<string>,
                                               hash: string -> string, key: Key)
    requires Chained(t) && OneSubjectEach(unique) && Enumerates(order, unique)
    requires forall k | k in unique :: exists i :: LastAbout(facts, rules, i) && unique[k] == facts[i]
    requires !About(facts, rules, tenant, user, key)
    ensures CurrentFact(UpsertAll(t, InOrder(tenant, user, unique, order, hash)), key) == CurrentFact(t, key)
  {
    var batch := InOrder(tenant, user, unique, order, hash);
    OrdersAgree(tenant, user, unique, order, order, hash);
    forall f | f in batch ensures f.key != key {
      var j :| 0 <= j < |batch| && batch[j] == f;
      assert order[j] in order;
      var i :| LastAbout(facts, rules, i) && unique[order[j]] == facts[i];
    }
    BatchLeaves(t, batch, key);
  }

  // After the batch, the view shows what the map holds.
  lemma BatchShows(t: Table, tenant: nat, user: nat, unique: map<string, Extracted>, order: seq<string>,
                   hash: string -> string, k: string)
    requires Chained(t) && OneSubjectEach(unique) && Enumerates(order, unique) && k in unique
    ensures var fact := ToFact(tenant, user, unique[k], hash);
      View(UpsertAll(t, InOrder(tenant, user, unique, order, hash)), fact.key) == Some(fact.hash)
  {
    var batch := InOrder(tenant, user, unique, order, hash);
    OrdersAgree(tenant, user, unique, order, order, hash);
    var j :| 0 <= j < |order| && order[j] == k;
    assert batch[j] in batch;
    LastIsOnly(batch, batch[j]);
    UpsertAllView(t, batch, batch[j].key);
  }
}
