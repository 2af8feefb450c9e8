/** The weighted LRU cache as a plain sequence of entries, most recently used first. */
module Lru {
  import opened Wrappers

  /** One resident entry. Its key is the composite storage key. */
  datatype Entry<V> = Entry(key: string, value: V, weight: nat, namespace: string, generation: nat)

  datatype State<V> = State(entries: seq<Entry<V>>, budget: int, hits: nat, misses: nat, evictions: nat)

  datatype CacheError = KeyRequired | NegativeWeight | KeyExists | NegativeBudget

  function StorageKey(namespace: string, key: string): string {
    namespace + ['\0'] + key
  }

  function Weight<V>(entries: seq<Entry<V>>): nat {
    if entries == [] then 0 else Weight(entries[..|entries| - 1]) + entries[|entries| - 1].weight
  }

  ghost predicate DistinctKeys<V>(entries: seq<Entry<V>>) {
    forall i, j :: 0 <= i < j < |entries| ==> entries[i].key != entries[j].key
  }

  predicate Has<V>(entries: seq<Entry<V>>, key: string) {
    exists i :: 0 <= i < |entries| && entries[i].key == key
  }

  /** Where the entry with a key is. */
  function IndexOf<V>(entries: seq<Entry<V>>, key: string): (i: nat)
    requires Has(entries, key)
    ensures i < |entries| && entries[i].key == key
    ensures forall k :: 0 <= k < i ==> entries[k].key != key
  {
    if entries[0].key == key then 0 else 1 + IndexOf(entries[1..], key)
  }

  function Without<V>(entries: seq<Entry<V>>, i: nat): seq<Entry<V>>
    requires i < |entries|
  {
    entries[..i] + entries[i + 1..]
  }

  /** What is left after dropping entries from the end until the rest fits or nothing is left. */
  function Keep<V>(entries: seq<Entry<V>>, budget: int): (kept: seq<Entry<V>>)
    ensures kept <= entries
    ensures kept == [] || Weight(kept) <= budget
    ensures forall k :: |kept| < k <= |entries| ==> Weight(entries[..k]) > budget
  {
    if entries == [] || Weight(entries) <= budget then entries
    else
      assert forall k :: 0 <= k < |entries| ==> entries[..|entries| - 1][..k] == entries[..k];
      assert entries[..|entries|] == entries;
      Keep(entries[..|entries| - 1], budget)
  }

  // ---- Operations ----

  function New<V>(budget: int): State<V> {
    State([], budget, 0, 0, 0)
  }

  predicate ValidRequest(key: string, weight: int) {
    key != "" && weight >= 0
  }

  function Insert<V>(s: State<V>, e: Entry<V>): State<V> {
    var grown := [e] + s.entries;
    var kept := Keep(grown, s.budget);
    s.(entries := kept, evictions := s.evictions + |grown| - |kept|)
  }

  /** A hit moves the entry to the front; an entry of another generation is dropped and counts as a miss. */
  function Retrieve<V>(s: State<V>, key: string, generation: nat): (State<V>, Option<V>) {
    if !Has(s.entries, key) then (s.(misses := s.misses + 1), None)
    else
      var i := IndexOf(s.entries, key);
      var e := s.entries[i];
      if e.generation != generation then
        (s.(entries := Without(s.entries, i), misses := s.misses + 1, evictions := s.evictions + 1), None)
      else
        (s.(entries := [e] + Without(s.entries, i), hits := s.hits + 1), Some(e.value))
  }

  function Remove<V>(s: State<V>, key: string): (State<V>, Option<V>) {
    if !Has(s.entries, key) then (s, None)
    else
      var i := IndexOf(s.entries, key);
      (s.(entries := Without(s.entries, i), evictions := s.evictions + 1), Some(s.entries[i].value))
  }

  predicate Stale<V>(e: Entry<V>, namespace: string, generation: nat) {
    e.namespace == namespace && e.generation != generation
  }

  /** The entries that a namespace invalidation leaves, in order. */
  function Current<V>(entries: seq<Entry<V>>, namespace: string, generation: nat): seq<Entry<V>> {
    if entries == [] then []
    else
      var rest := Current(entries[..|entries| - 1], namespace, generation);
      var e := entries[|entries| - 1];
      if Stale(e, namespace, generation) then rest else rest + [e]
  }

  function Invalidate<V>(s: State<V>, namespace: string, generation: nat): State<V> {
    var left := Current(s.entries, namespace, generation);
    s.(entries := left, evictions := s.evictions + if |left| <= |s.entries| then |s.entries| - |left| else 0)
  }

  function Resize<V>(s: State<V>, budget: int): State<V> {
    var kept := Keep(s.entries, budget);
    s.(entries := kept, budget := budget, evictions := s.evictions + |s.entries| - |kept|)
  }

  function Clear<V>(s: State<V>): State<V> {
    s.(entries := [], evictions := s.evictions + |s.entries|)
  }

  function CanInsert<V>(s: State<V>, key: string, weight: int): bool {
    if !ValidRequest(key, weight) then false
    else Has(s.entries, StorageKey("", key)) || weight <= s.budget - Weight(s.entries)
  }

  // ---- Weights ----

  lemma {:induction false} WeightOfConcat<V>(a: seq<Entry<V>>, b: seq<Entry<V>>)
    ensures Weight(a + b) == Weight(a) + Weight(b)
  {
    if b == [] {
      assert a + b == a;
    } else {
      WeightOfConcat(a, b[..|b| - 1]);
      assert (a + b)[..|a + b| - 1] == a + b[..|b| - 1];
    }
  }

  lemma WeightOfOne<V>(e: Entry<V>)
    ensures Weight([e]) == e.weight
  {
    assert [e][..|[e]| - 1] == [];
  }

  lemma WeightWithout<V>(entries: seq<Entry<V>>, i: nat)
    requires i < |entries|
    ensures Weight(Without(entries, i)) == Weight(entries) - entries[i].weight
  {
    hide Weight;
    var before, e, after := entries[..i], [entries[i]], entries[i + 1..];
    assert entries == (before + e) + after;
    WeightOfConcat(before + e, after);
    WeightOfConcat(before, e);
    WeightOfOne(entries[i]);
    WeightOfConcat(before, after);
  }

  lemma WeightWithFront<V>(e: Entry<V>, entries: seq<Entry<V>>)
    ensures Weight([e] + entries) == e.weight + Weight(entries)
  {
    WeightOfOne(e);
    WeightOfConcat([e], entries);
  }

  // ---- Properties ----

  /** A resident key needs no room, and an invalid request gets none. */
  lemma CanInsertResidents<V>(s: State<V>, key: string, weight: int)
    ensures CanInsert(s, key, weight) ==> key != "" && weight >= 0
    ensures key != "" && weight >= 0 && Has(s.entries, StorageKey("", key)) ==> CanInsert(s, key, weight)
  {
  }

  /** The admission check predicts exactly whether a valid unversioned insertion evicts anything. */
  lemma CanInsertPredictsEviction<V>(s: State<V>, key: string, value: V, weight: nat)
    requires key != "" && !Has(s.entries, StorageKey("", key))
    ensures CanInsert(s, key, weight) <==>
            Insert(s, Entry(StorageKey("", key), value, weight, "", 0)).evictions == s.evictions
  {
    var e := Entry(StorageKey("", key), value, weight, "", 0);
    WeightWithFront(e, s.entries);
    var grown := [e] + s.entries;
    assert grown[..|grown|] == grown;
  }

  /** A namespace that, followed by a NUL, begins another hides requests behind those of the other. */
  predicate Shadows(namespace: string, namespace': string) {
    namespace + ['\0'] <= namespace'
  }

  lemma ShadowedKey(namespace: string, key: string, namespace': string, key': string)
    requires StorageKey(namespace, key) == StorageKey(namespace', key') && |namespace| < |namespace'|
    ensures Shadows(namespace, namespace') && key == namespace'[|namespace| + 1..] + ['\0'] + key'
  {
    var s, cut := StorageKey(namespace, key), |namespace| + 1;
    assert namespace + ['\0'] == s[..cut] == namespace'[..cut];
    assert key == s[cut..] == (namespace' + ['\0'] + key')[cut..];
  }

  lemma KeyBehind(namespace: string, namespace': string, key': string)
    requires Shadows(namespace, namespace')
    ensures StorageKey(namespace, namespace'[|namespace| + 1..] + ['\0'] + key') == StorageKey(namespace', key')
  {
    assert namespace' == namespace + ['\0'] + namespace'[|namespace| + 1..];
  }

  /** Exactly when two requests share an entry: they are the same request, or one namespace shadows the other and the
      key makes up for the rest of it. */
  lemma StorageKeysAgree(namespace: string, key: string, namespace': string, key': string)
    ensures StorageKey(namespace, key) == StorageKey(namespace', key') <==>
            || (namespace == namespace' && key == key')
            || (Shadows(namespace, namespace') && key == namespace'[|namespace| + 1..] + ['\0'] + key')
            || (Shadows(namespace', namespace) && key' == namespace[|namespace'| + 1..] + ['\0'] + key)
  {
    if StorageKey(namespace, key) == StorageKey(namespace', key') {
      var s := StorageKey(namespace, key);
      if |namespace| < |namespace'| {
        ShadowedKey(namespace, key, namespace', key');
      } else if |namespace'| < |namespace| {
        ShadowedKey(namespace', key', namespace, key);
      } else {
        assert namespace == s[..|namespace|] == namespace';
        assert key == s[|namespace| + 1..] == key';
      }
    }
    if Shadows(namespace, namespace') {
      KeyBehind(namespace, namespace', key');
    }
    if Shadows(namespace', namespace) {
      KeyBehind(namespace', namespace, key);
    }
  }

  /** Some keys that the cache accepts share an entry across two namespaces. */
  ghost predicate Collide(namespace: string, namespace': string) {
    exists key, key' :: key != "" && key' != "" && StorageKey(namespace, key) == StorageKey(namespace', key')
  }

  /** Exactly which pairs of namespaces can collide on keys that the cache accepts. */
  lemma NamespacesCollide(namespace: string, namespace': string)
    requires namespace != namespace'
    ensures Collide(namespace, namespace') <==> Shadows(namespace, namespace') || Shadows(namespace', namespace)
  {
    if Shadows(namespace, namespace') {
      KeyBehind(namespace, namespace', "k");
      assert namespace'[|namespace| + 1..] + ['\0'] + "k" != "";
    }
    if Shadows(namespace', namespace) {
      KeyBehind(namespace', namespace, "k");
      assert namespace[|namespace'| + 1..] + ['\0'] + "k" != "";
    }
    forall key, key' | StorageKey(namespace, key) == StorageKey(namespace', key')
      ensures Shadows(namespace, namespace') || Shadows(namespace', namespace)
    {
      StorageKeysAgree(namespace, key, namespace', key');
    }
  }

  /** Without NUL in the namespaces, composite keys are the same exactly when the requests are. */
  lemma StorageKeyIsInjective(namespace: string, key: string, namespace': string, key': string)
    requires '\0' !in namespace && '\0' !in namespace'
    ensures StorageKey(namespace, key) == StorageKey(namespace', key') <==> namespace == namespace' && key == key'
  {
    StorageKeysAgree(namespace, key, namespace', key');
    assert '\0' in namespace + ['\0'] && '\0' in namespace' + ['\0'];
  }

  /** With a NUL in a namespace, different requests can share an entry. */
  lemma StorageKeyCollides()
    ensures StorageKey("a", ['b', '\0', 'c']) == StorageKey(['a', '\0', 'b'], "c")
  {
    assert StorageKey("a", ['b', '\0', 'c']) == ['a', '\0', 'b', '\0', 'c'];
    assert StorageKey(['a', '\0', 'b'], "c") == ['a', '\0', 'b', '\0', 'c'];
  }
}
