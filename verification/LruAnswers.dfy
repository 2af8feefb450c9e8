/** What lookups and removals give, in terms of what was inserted, and what the counters count. */
module LruAnswers {
  import opened Wrappers
  import opened Lru
  import opened LruRuns

  // ---- One call ----

  ghost predicate Resident<V>(s: State<V>, key: string, generation: nat) {
    exists e :: e in s.entries && e.key == key && e.generation == generation
  }

  lemma IndexIsTheOne<V>(entries: seq<Entry<V>>, key: string, e: Entry<V>)
    requires DistinctKeys(entries) && e in entries && e.key == key
    ensures Has(entries, key) && entries[IndexOf(entries, key)] == e
  {
    var i :| 0 <= i < |entries| && entries[i] == e;
    assert Has(entries, key);
  }

  lemma WithoutDropsTheKey<V>(entries: seq<Entry<V>>, key: string)
    requires DistinctKeys(entries) && Has(entries, key)
    ensures forall e :: e in Without(entries, IndexOf(entries, key)) <==> e in entries && e.key != key
    ensures multiset(Without(entries, IndexOf(entries, key))) + multiset{entries[IndexOf(entries, key)]}
            == multiset(entries)
  {
    var i := IndexOf(entries, key);
    hide IndexOf, Has;
    WithoutKeepsRest(entries, i);
    WithoutOne(entries, i);
  }

  lemma WithoutOne<V>(entries: seq<Entry<V>>, i: nat)
    requires i < |entries|
    ensures multiset(Without(entries, i)) + multiset{entries[i]} == multiset(entries)
  {
    assert entries == entries[..i] + [entries[i]] + entries[i + 1..];
  }

  lemma WithoutKeepsRest<V>(entries: seq<Entry<V>>, i: nat)
    requires DistinctKeys(entries) && i < |entries|
    ensures forall e :: e in Without(entries, i) <==> e in entries && e.key != entries[i].key
  {
    var left := Without(entries, i);
    forall k | 0 <= k < |entries| && k != i ensures entries[k] in left && entries[k].key != entries[i].key {
      assert left[if k < i then k else k - 1] == entries[k];
    }
    hide DistinctKeys;
    forall k | 0 <= k < |left| ensures left[k] in entries && left[k].key != entries[i].key {
      assert left[k] == entries[if k < i then k else k + 1];
    }
  }

  /** A lookup finds exactly the resident of its key and generation and gives its value; it moves it to the front and
      loses nothing. Otherwise whatever was under the key is gone and the rest stays. */
  lemma RetrieveOutcome<V>(s: State<V>, key: string, generation: nat)
    requires DistinctKeys(s.entries)
    ensures
      var (s', found) := Retrieve(s, key, generation);
      && (found.Some? <==> Resident(s, key, generation))
      && (forall e :: e in s.entries && e.key == key && e.generation == generation ==>
            found == Some(e.value) && s'.entries != [] && s'.entries[0] == e)
      && (found.Some? ==>
            && multiset(s'.entries) == multiset(s.entries)
            && s'.hits == s.hits + 1 && s'.misses == s.misses && s'.evictions == s.evictions)
      && (found.None? ==>
            && (forall e :: e in s'.entries <==> e in s.entries && e.key != key)
            && s'.hits == s.hits && s'.misses == s.misses + 1
            && s'.evictions == s.evictions + if Has(s.entries, key) then 1 else 0)
      && s'.budget == s.budget
  {
    hide DistinctKeys, Without, IndexOf, Has;
    forall e | e in s.entries && e.key == key ensures Has(s.entries, key) && s.entries[IndexOf(s.entries, key)] == e {
      IndexIsTheOne(s.entries, key, e);
    }
    if Has(s.entries, key) {
      WithoutDropsTheKey(s.entries, key);
      FrontAndRest(s.entries, IndexOf(s.entries, key));
    }
  }

  lemma FrontAndRest<V>(entries: seq<Entry<V>>, i: nat)
    requires i < |entries|
    ensures entries[i] in entries
    ensures multiset([entries[i]] + Without(entries, i)) == multiset{entries[i]} + multiset(Without(entries, i))
  {
  }

  /** A removal gives the value of exactly the resident of its key, whatever its generation, and takes only that. */
  lemma RemoveOutcome<V>(s: State<V>, key: string)
    requires DistinctKeys(s.entries)
    ensures
      var (s', found) := Remove(s, key);
      && (forall e :: e in s.entries && e.key == key ==> found == Some(e.value))
      && (found.Some? ==> exists e :: e in s.entries && e.key == key && e.value == found.value)
      && (forall e :: e in s'.entries <==> e in s.entries && e.key != key)
      && s'.evictions == s.evictions + (if found.Some? then 1 else 0)
      && s'.hits == s.hits && s'.misses == s.misses && s'.budget == s.budget
  {
    forall e | e in s.entries && e.key == key ensures Has(s.entries, key) && s.entries[IndexOf(s.entries, key)] == e {
      IndexIsTheOne(s.entries, key, e);
    }
    if Has(s.entries, key) {
      WithoutDropsTheKey(s.entries, key);
      assert s.entries[IndexOf(s.entries, key)] in s.entries;
    }
  }

  /** What fits the budget stays, in front; what does not goes at once and takes everything else with it. */
  lemma InsertOutcome<V>(s: State<V>, e: Entry<V>)
    requires s.budget >= 0
    ensures e.weight <= s.budget ==> Insert(s, e).entries != [] && Insert(s, e).entries[0] == e
    ensures e.weight > s.budget ==>
              Insert(s, e).entries == [] && Insert(s, e).evictions == s.evictions + |s.entries| + 1
  {
    var grown := [e] + s.entries;
    var kept := Keep(grown, s.budget);
    assert grown[..1] == [e];
    WeightOfOne(e);
    if kept != [] {
      assert kept == [e] + kept[1..];
      WeightWithFront(e, kept[1..]);
    }
  }

  /** An invalidation takes exactly the entries of its namespace that are of another generation. */
  lemma InvalidateOutcome<V>(s: State<V>, namespace: string, generation: nat, e: Entry<V>)
    ensures
      var s' := Invalidate(s, namespace, generation);
      && multiset(s'.entries)[e] == (if e.namespace == namespace && e.generation != generation then 0
                                     else multiset(s.entries)[e])
      && |s'.entries| + s'.evictions == |s.entries| + s.evictions
      && s'.budget == s.budget && s'.hits == s.hits && s'.misses == s.misses
  {
    CurrentKeepsFresh(s.entries, namespace, generation, e);
    CurrentIsLighter(s.entries, namespace, generation);
  }

  /** A new budget holds from then on and takes only what no longer fits; clearing takes everything and leaves the
      budget and the counts of lookups. */
  lemma ResizeAndClearOutcome<V>(s: State<V>, budget: int)
    ensures
      var s' := Resize(s, budget);
      && s'.budget == budget && s'.entries <= s.entries && (s'.entries == [] || Weight(s'.entries) <= budget)
      && (|s'.entries| < |s.entries| ==> Weight(s.entries[..|s'.entries| + 1]) > budget)
      && |s'.entries| + s'.evictions == |s.entries| + s.evictions && s'.hits == s.hits && s'.misses == s.misses
    ensures
      var s' := Lru.Clear(s);
      && s'.entries == [] && s'.evictions == s.evictions + |s.entries|
      && s'.budget == s.budget && s'.hits == s.hits && s'.misses == s.misses
  {
  }

  // ---- Over runs ----

  /** The p-th operation inserted an entry and was accepted. */
  predicate AcceptedPut<V>(budget: int, ops: seq<Op<V>>, p: nat)
    requires p < |ops|
  {
    ops[p].Put? && !Has(Run(New(budget), ops[..p]).entries, ops[p].entry.key)
  }

  /** The p-th operation inserted `e`, and nothing was inserted under its key since. */
  ghost predicate LastPut<V>(budget: int, ops: seq<Op<V>>, p: nat, e: Entry<V>)
    requires p < |ops|
  {
    && AcceptedPut(budget, ops, p) && ops[p] == Put(e)
    && forall q :: p < q < |ops| && AcceptedPut(budget, ops, q) ==> ops[q].entry.key != e.key
  }

  lemma StaysOrComes<V>(s: State<V>, op: Op<V>, e: Entry<V>)
    requires e in Apply(s, op).entries
    ensures e in s.entries || (op == Put(e) && !Has(s.entries, e.key))
  {
    match op
    case Put(x) =>
      if !Has(s.entries, x.key) {
        assert Keep([x] + s.entries, s.budget) <= [x] + s.entries;
        assert e in [x] + s.entries;
      }
    case Advance(namespace, generation) => CurrentKeepsFresh(s.entries, namespace, generation, e);
    case Budget(budget) =>
    case Get(key, generation) =>
    case Drop(key) =>
    case Empty =>
  }

  lemma {:induction false} ResidentWasPut<V>(budget: int, ops: seq<Op<V>>, e: Entry<V>)
    requires e in Run(New<V>(budget), ops).entries
    ensures exists p :: 0 <= p < |ops| && LastPut(budget, ops, p, e)
  {
    var n := |ops| - 1;
    var before := Run(New<V>(budget), ops[..n]);
    StaysOrComes(before, ops[n], e);
    hide Apply, LastPut, AcceptedPut;
    if e in before.entries {
      ResidentWasPut(budget, ops[..n], e);
      var p :| 0 <= p < n && LastPut(budget, ops[..n], p, e);
      ResidentHas(before.entries, e);
      LastPutStays(budget, ops, p, e);
    } else {
      LastPutNow(budget, ops, e);
    }
  }

  lemma ResidentHas<V>(entries: seq<Entry<V>>, e: Entry<V>)
    requires e in entries
    ensures Has(entries, e.key)
  {
    var i :| 0 <= i < |entries| && entries[i] == e;
  }

  lemma LastPutStays<V>(budget: int, ops: seq<Op<V>>, p: nat, e: Entry<V>)
    requires ops != [] && p < |ops| - 1 && LastPut(budget, ops[..|ops| - 1], p, e)
    requires Has(Run(New<V>(budget), ops[..|ops| - 1]).entries, e.key)
    ensures LastPut(budget, ops, p, e)
  {
    hide Run, Has;
    var n := |ops| - 1;
    forall q | 0 <= q < n ensures AcceptedPut(budget, ops[..n], q) <==> AcceptedPut(budget, ops, q) {
      assert ops[..n][..q] == ops[..q];
    }
  }

  lemma LastPutNow<V>(budget: int, ops: seq<Op<V>>, e: Entry<V>)
    requires ops != [] && ops[|ops| - 1] == Put(e)
    requires !Has(Run(New<V>(budget), ops[..|ops| - 1]).entries, e.key)
    ensures LastPut(budget, ops, |ops| - 1, e)
  {
  }

  /** Over every run, a lookup gives the value that was last inserted under its key, in the generation asked for; and a
      removal the value that was last inserted under its key. */
  lemma ValuesWerePut<V>(budget: int, ops: seq<Op<V>>, key: string, generation: nat, v: V)
    ensures Retrieve(Run(New(budget), ops), key, generation).1 == Some(v) ==>
              exists p, e :: 0 <= p < |ops| && LastPut(budget, ops, p, e)
                             && e.key == key && e.value == v && e.generation == generation
    ensures Remove(Run(New(budget), ops), key).1 == Some(v) ==>
              exists p, e :: 0 <= p < |ops| && LastPut(budget, ops, p, e) && e.key == key && e.value == v
  {
    var s := Run(New<V>(budget), ops);
    RunConserves(budget, ops);
    RetrieveOutcome(s, key, generation);
    RemoveOutcome(s, key);
    hide Retrieve, Remove, Run, LastPut;
    if Retrieve(s, key, generation).1 == Some(v) {
      var e :| e in s.entries && e.key == key && e.generation == generation;
      ResidentWasPut(budget, ops, e);
    }
    if Remove(s, key).1 == Some(v) {
      var e :| e in s.entries && e.key == key && e.value == v;
      ResidentWasPut(budget, ops, e);
    }
  }

  /** The lookups of a run, and those of them that found something. */
  function Lookups<V>(s: State<V>, ops: seq<Op<V>>, found: bool): nat {
    if ops == [] then 0
    else
      var before, op := ops[..|ops| - 1], ops[|ops| - 1];
      Lookups(s, before, found)
      + if op.Get? && (Retrieve(Run(s, before), op.key, op.generation).1.Some? == found) then 1 else 0
  }

  lemma {:induction false} CountersCount<V>(budget: int, ops: seq<Op<V>>)
    ensures Run(New<V>(budget), ops).hits == Lookups(New(budget), ops, true)
    ensures Run(New<V>(budget), ops).misses == Lookups(New(budget), ops, false)
  {
    if ops != [] {
      var before, op := ops[..|ops| - 1], ops[|ops| - 1];
      CountersCount(budget, before);
      if op.Get? {
        RunConserves(budget, before);
        RetrieveOutcome(Run(New<V>(budget), before), op.key, op.generation);
        hide Retrieve;
      }
    }
  }

  /** Serving from the cache is serving from the catalog. */
  lemma ServeGivesCatalogValue<V>(s: State<V>, c: Catalog<V>, key: string)
    requires LruRuns.Ok(s) && FromCatalog(s, c)
    ensures Retrieve(s, StorageKey("", key), 0).1 == if Hits(s, Access(key)) then Some(c.value(key)) else None
  {
    var k := StorageKey("", key);
    RetrieveOutcome(s, k, 0);
    if Hits(s, Access(key)) {
      var i := IndexOf(s.entries, k);
      ResidentIsEntry(s, c, key, i);
      assert s.entries[i] in s.entries;
    }
  }
}
