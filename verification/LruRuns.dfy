/** Runs of the cache: what every operation keeps, and the comparison of two caches fed the same trace. */
module LruRuns {
  import opened Wrappers
  import opened Lru

  datatype Op<V> =
    | Put(entry: Entry<V>)
    | Get(key: string, generation: nat)
    | Drop(key: string)
    | Advance(namespace: string, generation: nat)
    | Budget(budget: int)
    | Empty

  /** An insertion under a resident key is refused; every other operation takes effect. */
  function Apply<V>(s: State<V>, op: Op<V>): State<V> {
    match op
    case Put(e) => if Has(s.entries, e.key) then s else Insert(s, e)
    case Get(key, generation) => Retrieve(s, key, generation).0
    case Drop(key) => Remove(s, key).0
    case Advance(namespace, generation) => Invalidate(s, namespace, generation)
    case Budget(budget) => if budget < 0 then s else Resize(s, budget)
    case Empty => Clear(s)
  }

  function Run<V>(s: State<V>, ops: seq<Op<V>>): State<V> {
    if ops == [] then s else Apply(Run(s, ops[..|ops| - 1]), ops[|ops| - 1])
  }

  /** How many insertions of the run were accepted. */
  function Accepted<V>(s: State<V>, ops: seq<Op<V>>): nat {
    if ops == [] then 0
    else
      var before := ops[..|ops| - 1];
      var op := ops[|ops| - 1];
      Accepted(s, before) + if op.Put? && !Has(Run(s, before).entries, op.entry.key) then 1 else 0
  }

  /** Keys are distinct, and the total weight fits the budget unless nothing is resident. */
  ghost predicate Ok<V>(s: State<V>) {
    DistinctKeys(s.entries) && (s.entries == [] || Weight(s.entries) <= s.budget)
  }

  lemma {:induction false} CurrentIsLighter<V>(entries: seq<Entry<V>>, namespace: string, generation: nat)
    ensures |Current(entries, namespace, generation)| <= |entries|
    ensures Weight(Current(entries, namespace, generation)) <= Weight(entries)
  {
    if entries != [] {
      var rest, e := entries[..|entries| - 1], entries[|entries| - 1];
      CurrentIsLighter(rest, namespace, generation);
      var kept := Current(rest, namespace, generation);
      assert (kept + [e])[..|kept + [e]| - 1] == kept;
    }
  }

  lemma {:induction false} CurrentIsSublist<V>(entries: seq<Entry<V>>, namespace: string, generation: nat)
    ensures forall i :: 0 <= i < |Current(entries, namespace, generation)| ==>
              Current(entries, namespace, generation)[i] in entries
              && !Stale(Current(entries, namespace, generation)[i], namespace, generation)
    ensures DistinctKeys(entries) ==> DistinctKeys(Current(entries, namespace, generation))
  {
    hide Stale;
    if entries != [] {
      var rest, e := entries[..|entries| - 1], entries[|entries| - 1];
      CurrentIsSublist(rest, namespace, generation);
      var kept := Current(rest, namespace, generation);
      if DistinctKeys(entries) {
        forall i | 0 <= i < |kept| ensures kept[i].key != e.key {
          var k :| 0 <= k < |rest| && rest[k] == kept[i];
          assert rest[k] == entries[k];
        }
      }
    }
  }

  /** An invalidation keeps exactly the entries that are not stale, each as often as it occurs. */
  lemma {:induction false} CurrentKeepsFresh<V>(entries: seq<Entry<V>>, namespace: string, generation: nat, e: Entry<V>)
    ensures multiset(Current(entries, namespace, generation))[e] ==
            if Stale(e, namespace, generation) then 0 else multiset(entries)[e]
    ensures e in Current(entries, namespace, generation) <==> e in entries && !Stale(e, namespace, generation)
  {
    if entries != [] {
      var rest, last := entries[..|entries| - 1], entries[|entries| - 1];
      CurrentKeepsFresh(rest, namespace, generation, e);
      assert entries == rest + [last];
    }
  }

  lemma PutKeepsOk<V>(s: State<V>, e: Entry<V>)
    requires Ok(s) && !Has(s.entries, e.key)
    ensures Ok(Insert(s, e))
  {
    hide Weight;
    var grown := [e] + s.entries;
    assert DistinctKeys(grown);
    assert Keep(grown, s.budget) <= grown;
  }

  lemma WithoutKeepsDistinct<V>(entries: seq<Entry<V>>, i: nat)
    requires DistinctKeys(entries) && i < |entries|
    ensures DistinctKeys(Without(entries, i)) && DistinctKeys([entries[i]] + Without(entries, i))
    ensures !Has(Without(entries, i), entries[i].key)
  {
    var left := Without(entries, i);
    forall k | 0 <= k < |left| ensures left[k].key != entries[i].key {
      assert left[k] == if k < i then entries[k] else entries[k + 1];
    }
  }

  lemma GetKeepsOk<V>(s: State<V>, key: string, generation: nat)
    requires Ok(s)
    ensures Ok(Retrieve(s, key, generation).0)
  {
    hide Weight;
    if Has(s.entries, key) {
      var i := IndexOf(s.entries, key);
      WithoutKeepsDistinct(s.entries, i);
      WeightWithout(s.entries, i);
      WeightWithFront(s.entries[i], Without(s.entries, i));
    }
  }

  lemma DropKeepsOk<V>(s: State<V>, key: string)
    requires Ok(s)
    ensures Ok(Remove(s, key).0)
  {
    hide Weight;
    if Has(s.entries, key) {
      WithoutKeepsDistinct(s.entries, IndexOf(s.entries, key));
      WeightWithout(s.entries, IndexOf(s.entries, key));
    }
  }

  lemma OpKeepsOk<V>(s: State<V>, op: Op<V>)
    requires Ok(s)
    ensures Ok(Apply(s, op))
  {
    hide Weight, Insert, Retrieve, Remove;
    match op
    case Put(e) =>
      if !Has(s.entries, e.key) {
        PutKeepsOk(s, e);
      }
    case Get(key, generation) => GetKeepsOk(s, key, generation);
    case Drop(key) => DropKeepsOk(s, key);
    case Advance(namespace, generation) =>
      CurrentIsLighter(s.entries, namespace, generation);
      CurrentIsSublist(s.entries, namespace, generation);
    case Budget(budget) =>
    case Empty =>
  }

  /** What one operation does to residents and evictions together. */
  lemma OpConserves<V>(s: State<V>, op: Op<V>)
    ensures |Apply(s, op).entries| + Apply(s, op).evictions ==
            |s.entries| + s.evictions + if op.Put? && !Has(s.entries, op.entry.key) then 1 else 0
  {
    if op.Advance? {
      CurrentIsLighter(s.entries, op.namespace, op.generation);
    }
  }

  /** In every run from an empty cache, keys stay distinct, the weight fits the budget or nothing is resident, and
      accepted insertions equal residents plus evictions. */
  lemma {:induction false} RunConserves<V>(budget: int, ops: seq<Op<V>>)
    ensures
      var start := New<V>(budget);
      var end := Run(start, ops);
      && Ok(end)
      && Accepted(start, ops) == |end.entries| + end.evictions
  {
    if ops != [] {
      var start := New<V>(budget);
      var before := ops[..|ops| - 1];
      RunConserves(budget, before);
      OpKeepsOk(Run(start, before), ops[|ops| - 1]);
      OpConserves(Run(start, before), ops[|ops| - 1]);
    }
  }

  // ---- Two caches, one trace ----

  /** A client that looks a key up and inserts it on a miss, or removes it. */
  datatype Request = Access(key: string) | Discard(key: string)

  /** Every key has one weight and one value, in one generation. */
  datatype Catalog<V> = Catalog(weight: string -> nat, value: string -> V)

  function EntryFor<V>(c: Catalog<V>, key: string): Entry<V> {
    Entry(StorageKey("", key), c.value(key), c.weight(key), "", 0)
  }

  /** Did the request find its key? */
  predicate Hits<V>(s: State<V>, r: Request) {
    Has(s.entries, StorageKey("", r.key))
  }

  function Serve<V>(s: State<V>, c: Catalog<V>, r: Request): State<V> {
    var key := StorageKey("", r.key);
    match r
    case Access(_) =>
      var (looked, value) := Retrieve(s, key, 0);
      if value.Some? then looked
      else Apply(looked, Put(EntryFor(c, r.key)))
    case Discard(_) => Remove(s, key).0
  }

  function ServeAll<V>(s: State<V>, c: Catalog<V>, trace: seq<Request>): State<V> {
    if trace == [] then s else Serve(ServeAll(s, c, trace[..|trace| - 1]), c, trace[|trace| - 1])
  }

  /** Every resident is what the catalog says about its key. */
  ghost predicate FromCatalog<V>(s: State<V>, c: Catalog<V>) {
    forall i :: 0 <= i < |s.entries| ==> s.entries[i].key != "" && s.entries[i] == EntryFor(c, s.entries[i].key[1..])
  }

  /** The smaller cache holds the most recently used part of the larger one. */
  ghost predicate Included<V>(small: State<V>, large: State<V>, c: Catalog<V>) {
    && small.budget <= large.budget
    && small.entries <= large.entries
    && small.hits <= large.hits
    && Ok(small) && Ok(large)
    && FromCatalog(small, c) && FromCatalog(large, c)
  }

  /** The resident under a key is the entry the catalog gives it. */
  lemma ResidentIsEntry<V>(s: State<V>, c: Catalog<V>, key: string, i: nat)
    requires FromCatalog(s, c) && i < |s.entries| && s.entries[i].key == StorageKey("", key)
    ensures s.entries[i] == EntryFor(c, key)
  {
    assert StorageKey("", key)[1..] == key;
  }

  lemma PrefixHas<V>(a: seq<Entry<V>>, b: seq<Entry<V>>, key: string)
    requires a <= b && Has(a, key) && DistinctKeys(b)
    ensures Has(b, key) && IndexOf(a, key) == IndexOf(b, key)
  {
    var i := IndexOf(a, key);
    assert b[i].key == key;
  }

  /** Removing one key from both keeps the prefix. */
  lemma PrefixWithout<V>(a: seq<Entry<V>>, b: seq<Entry<V>>, key: string)
    requires a <= b && Has(b, key) && DistinctKeys(b)
    ensures Has(a, key) ==> Without(a, IndexOf(a, key)) <= Without(b, IndexOf(b, key))
    ensures !Has(a, key) ==> a <= Without(b, IndexOf(b, key))
  {
    var j := IndexOf(b, key);
    if Has(a, key) {
      PrefixHas(a, b, key);
      hide IndexOf, DistinctKeys, Has;
      PrefixWithoutAt(a, b, j);
    } else {
      forall k | 0 <= k < |a| ensures b[k].key != key {
        assert a[k] == b[k];
      }
      hide IndexOf, DistinctKeys, Has;
      assert |a| <= j;
      assert a == b[..|a|] <= b[..j];
    }
  }

  lemma PrefixWithoutAt<V>(a: seq<Entry<V>>, b: seq<Entry<V>>, i: nat)
    requires a <= b && i < |a|
    ensures Without(a, i) <= Without(b, i)
  {
    assert b == a + b[|a|..];
    assert Without(b, i) == Without(a, i) + b[|a|..];
  }

  /** A tighter budget keeps less of a shorter list. */
  lemma KeepIsMonotonic<V>(a: seq<Entry<V>>, b: seq<Entry<V>>, small: int, large: int)
    requires a <= b && small <= large
    ensures Keep(a, small) <= Keep(b, large)
  {
    var ka, kb := Keep(a, small), Keep(b, large);
    assert b[..|ka|] == ka;
  }

  /** What serving an access does to the residents. */
  function AccessEntries<V>(entries: seq<Entry<V>>, budget: int, e: Entry<V>): seq<Entry<V>> {
    if Has(entries, e.key) then [e] + Without(entries, IndexOf(entries, e.key)) else Keep([e] + entries, budget)
  }

  lemma AccessServes<V>(s: State<V>, c: Catalog<V>, key: string)
    requires Ok(s) && FromCatalog(s, c)
    ensures
      var served := Serve(s, c, Access(key));
      && served.entries == AccessEntries(s.entries, s.budget, EntryFor(c, key))
      && served.budget == s.budget && Ok(served) && FromCatalog(served, c)
      && served.hits == s.hits + (if Hits(s, Access(key)) then 1 else 0)
  {
    var e := EntryFor(c, key);
    assert e.key[1..] == key;
    GetKeepsOk(s, e.key, 0);
    if Has(s.entries, e.key) {
      ResidentIsEntry(s, c, key, IndexOf(s.entries, e.key));
    } else {
      PutKeepsOk(Retrieve(s, e.key, 0).0, e);
      assert Keep([e] + s.entries, s.budget) <= [e] + s.entries;
    }
    hide Weight, Ok;
  }

  lemma DiscardServes<V>(s: State<V>, c: Catalog<V>, key: string)
    requires Ok(s) && FromCatalog(s, c)
    ensures
      var served := Serve(s, c, Discard(key));
      && served.budget == s.budget && Ok(served) && FromCatalog(served, c) && served.hits == s.hits
  {
    DropKeepsOk(s, StorageKey("", key));
    hide Weight, Ok;
  }

  lemma ConsPrefix<T>(x: T, a: seq<T>, b: seq<T>)
    requires a <= b
    ensures [x] + a <= [x] + b
  {
  }

  lemma AccessKeepsPrefix<V>(a: seq<Entry<V>>, b: seq<Entry<V>>, small: int, large: int, e: Entry<V>)
    requires a <= b && DistinctKeys(b) && small <= large
    ensures AccessEntries(a, small, e) <= AccessEntries(b, large, e)
  {
    hide Weight, Keep, IndexOf, DistinctKeys, Without;
    ConsPrefix(e, a, b);
    KeepIsMonotonic([e] + a, [e] + b, small, large);
    if Has(a, e.key) {
      PrefixHas(a, b, e.key);
      PrefixWithout(a, b, e.key);
      ConsPrefix(e, Without(a, IndexOf(a, e.key)), Without(b, IndexOf(b, e.key)));
    } else if Has(b, e.key) {
      PrefixWithout(a, b, e.key);
      ConsPrefix(e, a, Without(b, IndexOf(b, e.key)));
    }
  }

  lemma ServeKeepsIncluded<V>(small: State<V>, large: State<V>, c: Catalog<V>, r: Request)
    requires Included(small, large, c)
    ensures Included(Serve(small, c, r), Serve(large, c, r), c)
    ensures Hits(small, r) ==> Hits(large, r)
  {
    hide Weight, FromCatalog, Serve, AccessEntries;
    var stored := StorageKey("", r.key);
    if Hits(small, r) {
      PrefixHas(small.entries, large.entries, stored);
    }
    match r
    case Access(key) =>
      AccessServes(small, c, key);
      AccessServes(large, c, key);
      AccessKeepsPrefix(small.entries, large.entries, small.budget, large.budget, EntryFor(c, key));
    case Discard(key) =>
      DiscardServes(small, c, key);
      DiscardServes(large, c, key);
      DiscardKeepsPrefix(small, large, c, key);
  }

  lemma DiscardKeepsPrefix<V>(small: State<V>, large: State<V>, c: Catalog<V>, key: string)
    requires small.entries <= large.entries && DistinctKeys(large.entries)
    ensures Serve(small, c, Discard(key)).entries <= Serve(large, c, Discard(key)).entries
  {
    var stored := StorageKey("", key);
    if Has(large.entries, stored) {
      PrefixWithout(small.entries, large.entries, stored);
    } else if Has(small.entries, stored) {
      PrefixHas(small.entries, large.entries, stored);
    }
  }

  /** A larger budget never hurts: fed the same trace, the smaller cache always holds a most recently used prefix of
      what the larger one holds, so it hits only where the larger one hits. */
  lemma {:induction false} LargerCacheIncludesSmaller<V>(c: Catalog<V>, small: int, large: int, trace: seq<Request>)
    requires small <= large
    ensures Included(ServeAll(New(small), c, trace), ServeAll(New(large), c, trace), c)
    ensures forall r :: Hits(ServeAll(New(small), c, trace), r) ==> Hits(ServeAll(New(large), c, trace), r)
  {
    hide Serve;
    if trace != [] {
      var before := trace[..|trace| - 1];
      LargerCacheIncludesSmaller(c, small, large, before);
      ServeKeepsIncluded(ServeAll(New(small), c, before), ServeAll(New(large), c, before), c, trace[|trace| - 1]);
    }
    forall r | Hits(ServeAll(New(small), c, trace), r) ensures Hits(ServeAll(New(large), c, trace), r) {
      ServeKeepsIncluded(ServeAll(New(small), c, trace), ServeAll(New(large), c, trace), c, r);
    }
  }
}
