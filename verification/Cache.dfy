/** The cache as it is built: nodes linked both ways in recency order, a lookup table, and a running weight. Each
    method is proved to do to the plain sequence of entries what the operation in Lru does. */
module Caches {
  import opened Wrappers
  import opened Lru
  import opened LruRuns

  class Node<V> {
    var next: Node?<V>
    var prev: Node?<V>
    const key: string
    const value: V
    const weight: nat
    const namespace: string
    const generation: nat

    constructor (key: string, value: V, weight: nat, namespace: string, generation: nat)
      ensures this.key == key && this.value == value && this.weight == weight
      ensures this.namespace == namespace && this.generation == generation
      ensures next == null && prev == null
    {
      this.key, this.value, this.weight, this.namespace, this.generation := key, value, weight, namespace, generation;
      next, prev := null, null;
    }
  }

  function EntryOf<V>(node: Node<V>): Entry<V> {
    Entry(node.key, node.value, node.weight, node.namespace, node.generation)
  }

  function EntriesOf<V>(nodes: seq<Node<V>>): seq<Entry<V>> {
    seq(|nodes|, i requires 0 <= i < |nodes| => EntryOf(nodes[i]))
  }

  function Before<V>(nodes: seq<Node<V>>, i: nat): Node?<V>
    requires i < |nodes|
  {
    if i == 0 then null else nodes[i - 1]
  }

  function After<V>(nodes: seq<Node<V>>, i: nat): Node?<V>
    requires i < |nodes|
  {
    if i == |nodes| - 1 then null else nodes[i + 1]
  }

  /** The nodes form one chain from head to tail, linked both ways. */
  ghost predicate Linked<V>(nodes: seq<Node<V>>, head: Node?<V>, tail: Node?<V>)
    reads nodes
  {
    && (forall i, j :: 0 <= i < j < |nodes| ==> nodes[i] != nodes[j])
    && head == (if nodes == [] then null else nodes[0])
    && tail == (if nodes == [] then null else nodes[|nodes| - 1])
    && (forall i {:trigger Before(nodes, i)} :: 0 <= i < |nodes| ==> nodes[i].prev == Before(nodes, i))
    && (forall i {:trigger After(nodes, i)} :: 0 <= i < |nodes| ==> nodes[i].next == After(nodes, i))
  }

  /** The lookup table holds exactly the chained nodes, each under its key. */
  ghost predicate Indexed<V>(nodes: seq<Node<V>>, lookup: map<string, Node<V>>) {
    && (forall i :: 0 <= i < |nodes| ==> nodes[i].key in lookup && lookup[nodes[i].key] == nodes[i])
    && (forall key :: key in lookup ==> lookup[key] in nodes && lookup[key].key == key)
  }

  class Cache<V> {
    var head: Node?<V>
    var tail: Node?<V>
    var lookup: map<string, Node<V>>
    var weight: int
    var budget: int
    var hits: nat
    var misses: nat
    var evictions: nat
    ghost var nodes: seq<Node<V>>

    ghost predicate Valid()
      reads this, nodes
    {
      && Linked(nodes, head, tail)
      && Indexed(nodes, lookup)
      && weight == Weight(EntriesOf(nodes))
    }

    /** The plain sequence the structure stands for. */
    ghost function Contents(): State<V>
      reads this
    {
      State(EntriesOf(nodes), budget, hits, misses, evictions)
    }

    constructor (budget: int)
      ensures Valid() && Contents() == New(budget) && nodes == []
    {
      head, tail, lookup := null, null, map[];
      weight, this.budget := 0, budget;
      hits, misses, evictions := 0, 0, 0;
      nodes := [];
    }

    // ---- Links ----

    /** Links `node` as the most recently used entry. */
    method AddToFront(node: Node<V>)
      requires Linked(nodes, head, tail) && node !in nodes
      modifies this`head, this`tail, this`nodes, node, nodes
      ensures nodes == [node] + old(nodes) && Linked(nodes, head, tail)
    {
      ghost var was := nodes;
      node.prev := null;
      node.next := head;
      if head != null {
        head.prev := node;
      }
      head := node;
      if tail == null {
        tail := node;
      }
      nodes := [node] + nodes;
      forall k {:trigger Before(nodes, k)} | 0 <= k < |nodes|
        ensures nodes[k].prev == Before(nodes, k)
      {
        assert k > 0 ==> nodes[k] == was[k - 1] && old(was[k - 1].prev) == Before(was, k - 1);
      }
      forall k {:trigger After(nodes, k)} | 0 <= k < |nodes|
        ensures nodes[k].next == After(nodes, k)
      {
        assert k > 0 ==> nodes[k] == was[k - 1] && old(was[k - 1].next) == After(was, k - 1);
      }
    }

    /** Unlinks the node at position `i` of the chain. */
    method Detach(node: Node<V>, ghost i: nat)
      requires Linked(nodes, head, tail) && i < |nodes| && nodes[i] == node
      modifies this`head, this`tail, this`nodes, nodes
      ensures nodes == old(nodes[..i] + nodes[i + 1..]) && Linked(nodes, head, tail)
    {
      ghost var was := nodes;
      assert node.prev == Before(was, i) && node.next == After(was, i);
      if node.prev != null {
        node.prev.next := node.next;
      } else {
        head := node.next;
      }
      if node.next != null {
        node.next.prev := node.prev;
      } else {
        tail := node.prev;
      }
      nodes := was[..i] + was[i + 1..];
      forall k {:trigger Before(nodes, k)} | 0 <= k < |nodes|
        ensures nodes[k].prev == Before(nodes, k)
      {
        var at := if k < i then k else k + 1;
        assert nodes[k] == was[at] && old(was[at].prev) == Before(was, at);
      }
      forall k {:trigger After(nodes, k)} | 0 <= k < |nodes|
        ensures nodes[k].next == After(nodes, k)
      {
        var at := if k < i then k else k + 1;
        assert nodes[k] == was[at] && old(was[at].next) == After(was, at);
      }
    }

    /** Promotes a hit without changing who is resident. */
    method MoveToFront(node: Node<V>, ghost i: nat)
      requires Linked(nodes, head, tail) && i < |nodes| && nodes[i] == node
      modifies this`head, this`tail, this`nodes, nodes
      ensures nodes == [node] + old(nodes[..i] + nodes[i + 1..]) && Linked(nodes, head, tail)
    {
      HeadIsFirst(nodes, head, tail, i);
      hide Linked;
      if node == head {
        return;
      }
      Detach(node, i);
      AddToFront(node);
    }

    /** Removes a node from every index and returns its value. */
    method RemoveNode(node: Node<V>, ghost i: nat) returns (value: V)
      requires Valid() && i < |nodes| && nodes[i] == node
      modifies this`head, this`tail, this`nodes, this`lookup, this`weight, nodes
      ensures Valid() && nodes == old(nodes[..i] + nodes[i + 1..]) && value == node.value
      ensures lookup == old(lookup) - {node.key}
      ensures EntriesOf(nodes) == Without(old(EntriesOf(nodes)), i)
    {
      hide Linked, Indexed, Weight, EntriesOf, Without;
      Unlisted(nodes, head, tail, lookup, i);
      Detach(node, i);
      lookup := lookup - {node.key};
      weight := weight - node.weight;
      value := node.value;
    }

    // ---- Eviction ----

    /** Removes entries from the tail until the rest fits. */
    method EvictOverBudget() returns (evicted: seq<V>)
      requires Valid()
      modifies this`head, this`tail, this`nodes, this`lookup, this`weight, this`evictions, nodes
      ensures Valid() && nodes <= old(nodes)
      ensures EntriesOf(nodes) == Keep(old(EntriesOf(nodes)), budget)
      ensures evicted == Released(old(EntriesOf(nodes)), |nodes|)
      ensures evictions == old(evictions) + |evicted|
    {
      hide Linked, Indexed, EntriesOf, Keep, Weight;
      ghost var was := nodes;
      ghost var entries := EntriesOf(nodes);
      EntriesAgree(nodes);
      evicted := [];
      while tail != null && weight > budget
        invariant Valid() && nodes <= was
        invariant |nodes| <= |entries| && EntriesOf(nodes) == entries[..|nodes|]
        invariant Keep(EntriesOf(nodes), budget) == Keep(entries, budget)
        invariant evicted == Released(entries, |nodes|)
        invariant evictions == old(evictions) + |evicted|
        decreases |nodes|
      {
        LastIsTail(nodes, head, tail);
        KeepDropsLast(EntriesOf(nodes), budget);
        ghost var n := |nodes| - 1;
        var value := RemoveNode(tail, n);
        evicted := evicted + [value];
        evictions := evictions + 1;
      }
      LastIsTail(nodes, head, tail);
      KeepAll(EntriesOf(nodes), budget);
    }

    // ---- Entries ----

    method InsertVersioned(namespace: string, key: string, generation: nat, value: V, weight: int)
      returns (r: Result<seq<V>, CacheError>)
      requires Valid()
      modifies this, nodes
      ensures Valid() && forall n :: n in nodes ==> n in old(nodes) || fresh(n)
      ensures r.Err? <==> !ValidRequest(key, weight) || Has(old(Contents()).entries, StorageKey(namespace, key))
      ensures r.Err? ==> Contents() == old(Contents()) && nodes == old(nodes)
      ensures r.Err? ==> r.error == if key == "" then KeyRequired else if weight < 0 then NegativeWeight else KeyExists
      ensures r.Ok? ==> var e := Entry(StorageKey(namespace, key), value, weight, namespace, generation);
          && Contents() == Lru.Insert(old(Contents()), e)
          && r.value == Released([e] + old(Contents()).entries, |Contents().entries|)
    {
      hide Linked, Indexed, EntriesOf, Keep, Weight, Has;
      if key == "" {
        return Err(KeyRequired);
      }
      if weight < 0 {
        return Err(NegativeWeight);
      }
      var storageKey := StorageKey(namespace, key);
      LookupFinds(nodes, lookup, storageKey);
      if storageKey in lookup {
        return Err(KeyExists);
      }
      var node := new Node(storageKey, value, weight, namespace, generation);
      Listed(nodes, head, tail, lookup, node);
      AddToFront(node);
      lookup := lookup[storageKey := node];
      this.weight := this.weight + node.weight;
      EntriesAgree(nodes);
      var evicted := EvictOverBudget();
      EntriesAgree(nodes);
      r := Ok(evicted);
    }

    method Insert(key: string, value: V, weight: int) returns (r: Result<seq<V>, CacheError>)
      requires Valid()
      modifies this, nodes
      ensures Valid() && forall n :: n in nodes ==> n in old(nodes) || fresh(n)
      ensures r.Err? <==> !ValidRequest(key, weight) || Has(old(Contents()).entries, StorageKey("", key))
      ensures r.Err? ==> Contents() == old(Contents()) && nodes == old(nodes)
      ensures r.Err? ==> r.error == if key == "" then KeyRequired else if weight < 0 then NegativeWeight else KeyExists
      ensures r.Ok? ==> var e := Entry(StorageKey("", key), value, weight, "", 0);
          && Contents() == Lru.Insert(old(Contents()), e)
          && r.value == Released([e] + old(Contents()).entries, |Contents().entries|)
    {
      r := InsertVersioned("", key, 0, value, weight);
    }

    /** An entry of another generation is released rather than returned. */
    method RetrieveVersioned(namespace: string, key: string, generation: nat)
      returns (r: Option<V>, released: Option<V>)
      requires Valid()
      modifies this, nodes
      ensures Valid() && forall n :: n in nodes ==> n in old(nodes)
      ensures (Contents(), r) == Lru.Retrieve(old(Contents()), StorageKey(namespace, key), generation)
      ensures released == if r.None? then Lru.Remove(old(Contents()), StorageKey(namespace, key)).1 else None
    {
      hide Linked, Indexed, EntriesOf, Weight, Has;
      var storageKey := StorageKey(namespace, key);
      released := None;
      LookupFinds(nodes, lookup, storageKey);
      if storageKey !in lookup {
        misses := misses + 1;
        return None, None;
      }
      var node := lookup[storageKey];
      ghost var i := IndexOf(EntriesOf(nodes), storageKey);
      if node.generation != generation {
        misses := misses + 1;
        var stale := RemoveNode(node, i);
        evictions := evictions + 1;
        return None, Some(stale);
      }
      hits := hits + 1;
      Promoted(nodes, head, tail, lookup, i);
      MoveToFront(node, i);
      r := Some(node.value);
    }

    method Retrieve(key: string) returns (r: Option<V>, released: Option<V>)
      requires Valid()
      modifies this, nodes
      ensures Valid() && forall n :: n in nodes ==> n in old(nodes)
      ensures (Contents(), r) == Lru.Retrieve(old(Contents()), StorageKey("", key), 0)
      ensures released == if r.None? then Lru.Remove(old(Contents()), StorageKey("", key)).1 else None
    {
      r, released := RetrieveVersioned("", key, 0);
    }

    method RemoveVersioned(namespace: string, key: string) returns (r: Option<V>)
      requires Valid()
      modifies this, nodes
      ensures Valid() && forall n :: n in nodes ==> n in old(nodes)
      ensures (Contents(), r) == Lru.Remove(old(Contents()), StorageKey(namespace, key))
    {
      hide Linked, Indexed, EntriesOf, Weight, Has;
      var storageKey := StorageKey(namespace, key);
      LookupFinds(nodes, lookup, storageKey);
      if storageKey !in lookup {
        return None;
      }
      var value := RemoveNode(lookup[storageKey], IndexOf(EntriesOf(nodes), storageKey));
      evictions := evictions + 1;
      r := Some(value);
    }

    method Remove(key: string) returns (r: Option<V>)
      requires Valid()
      modifies this, nodes
      ensures Valid() && forall n :: n in nodes ==> n in old(nodes)
      ensures (Contents(), r) == Lru.Remove(old(Contents()), StorageKey("", key))
    {
      r := RemoveVersioned("", key);
    }

    // ---- Whole-cache operations ----

    /** Visits the table in any order; the released values come in that order. */
    method InvalidateNamespace(namespace: string, generation: nat) returns (values: seq<V>)
      requires Valid()
      modifies this, nodes
      ensures Valid() && forall n :: n in nodes ==> n in old(nodes)
      ensures Contents() == Lru.Invalidate(old(Contents()), namespace, generation)
      ensures multiset(values) + multiset(Values(Contents().entries)) == multiset(Values(old(Contents()).entries))
    {
      hide Linked, Indexed, EntriesOf, Weight, Current, Without, Values, IndexOf;
      ghost var was := EntriesOf(nodes);
      var pending := lookup.Keys;
      values := [];
      EntriesAgree(nodes);
      while pending != {}
        invariant Valid() && pending <= lookup.Keys
        invariant forall k :: 0 <= k < |nodes| ==> nodes[k] in old(nodes)
        invariant Current(EntriesOf(nodes), namespace, generation) == Current(was, namespace, generation)
        invariant forall key :: key in lookup && key !in pending ==> !Stale(EntryOf(lookup[key]), namespace, generation)
        invariant |values| + |nodes| == |was| && evictions == old(evictions) + |values|
        invariant multiset(values) + multiset(Values(EntriesOf(nodes))) == multiset(Values(was))
        invariant budget == old(budget) && hits == old(hits) && misses == old(misses)
      {
        var key :| key in pending;
        pending := pending - {key};
        var node := lookup[key];
        if node.namespace != namespace || node.generation == generation {
          continue;
        }
        ghost var i := StaleLeaves(nodes, lookup, key, namespace, generation);
        var value := RemoveNode(node, i);
        values := values + [value];
        evictions := evictions + 1;
      }
      AllCurrent(nodes, lookup, namespace, generation);
      EntriesAgree(nodes);
    }

    method SetBudget(budget: int) returns (r: Result<seq<V>, CacheError>)
      requires Valid()
      modifies this, nodes
      ensures Valid() && forall n :: n in nodes ==> n in old(nodes)
      ensures budget < 0 ==> r == Err(NegativeBudget) && Contents() == old(Contents())
      ensures budget >= 0 ==> r.Ok? && Contents() == Lru.Resize(old(Contents()), budget)
      ensures budget >= 0 ==> r.value == Released(old(Contents()).entries, |Contents().entries|)
    {
      hide Linked, Indexed, EntriesOf, Keep, Weight;
      if budget < 0 {
        return Err(NegativeBudget);
      }
      this.budget := budget;
      EntriesAgree(nodes);
      var evicted := EvictOverBudget();
      EntriesAgree(nodes);
      r := Ok(evicted);
    }

    method Clear() returns (values: seq<V>)
      requires Valid()
      modifies this
      ensures Valid() && nodes == []
      ensures Contents() == Lru.Clear(old(Contents()))
      ensures multiset(values) == multiset(Values(old(Contents()).entries))
    {
      hide Linked, EntriesOf, Weight, Indexed, Values;
      values := [];
      var table := lookup;
      ghost var entries := EntriesOf(nodes);
      ghost var rest := nodes;
      EntriesAgree(nodes);
      DistinctWhenLinked(nodes, head, tail);
      while table != map[]
        invariant unchanged(this) && Indexed(rest, table) && Distinct(rest)
        invariant |values| + |rest| == |entries|
        invariant multiset(values) + multiset(Values(EntriesOf(rest))) == multiset(Values(entries))
        decreases |rest|
      {
        var key :| key in table;
        values := values + [table[key].value];
        ghost var i := TableWithout(rest, table, key);
        rest := rest[..i] + rest[i + 1..];
        table := table - {key};
      }
      TableSize(rest, table);
      assert rest == [];
      NothingLinked<V>();
      assert |values| == |entries| && multiset(values) == multiset(Values(entries));
      head, tail, lookup, weight := null, null, map[], 0;
      evictions := evictions + |values|;
      nodes := [];
    }

    // ---- Queries ----

    method CanInsertWithoutEviction(key: string, weight: int) returns (fits: bool)
      requires Valid()
      ensures fits == CanInsert(Contents(), key, weight)
    {
      hide Linked, Indexed, EntriesOf, Weight, Has;
      if key == "" || weight < 0 {
        return false;
      }
      LookupFinds(nodes, lookup, StorageKey("", key));
      if StorageKey("", key) in lookup {
        return true;
      }
      fits := weight <= budget - this.weight;
    }

    method Diagnostics() returns (entries: nat, weight: int, budget: int, hits: nat, misses: nat, evictions: nat)
      requires Valid()
      ensures entries == |Contents().entries| && weight == Weight(Contents().entries)
      ensures budget == Contents().budget && hits == Contents().hits
      ensures misses == Contents().misses && evictions == Contents().evictions
    {
      TableSize(nodes, lookup);
      return |lookup|, this.weight, this.budget, this.hits, this.misses, this.evictions;
    }
  }

  /** What dropping one chained node does to the table, the entries and the weight. */
  lemma Unlisted<V>(nodes: seq<Node<V>>, head: Node?<V>, tail: Node?<V>, lookup: map<string, Node<V>>, i: nat)
    requires Linked(nodes, head, tail) && Indexed(nodes, lookup) && i < |nodes|
    ensures var left := nodes[..i] + nodes[i + 1..];
            && Indexed(left, lookup - {nodes[i].key})
            && EntriesOf(left) == Without(EntriesOf(nodes), i)
            && Weight(EntriesOf(left)) == Weight(EntriesOf(nodes)) - nodes[i].weight
  {
    EntriesWithout(nodes, i);
    WeightWithout(EntriesOf(nodes), i);
    IndexedWithout(nodes, lookup, i);
  }

  lemma EntriesWithout<V>(nodes: seq<Node<V>>, i: nat)
    requires i < |nodes|
    ensures EntriesOf(nodes[..i] + nodes[i + 1..]) == Without(EntriesOf(nodes), i)
  {
  }

  lemma IndexedWithout<V>(nodes: seq<Node<V>>, lookup: map<string, Node<V>>, i: nat)
    requires Indexed(nodes, lookup) && i < |nodes|
    requires forall j, k :: 0 <= j < k < |nodes| ==> nodes[j] != nodes[k]
    ensures Indexed(nodes[..i] + nodes[i + 1..], lookup - {nodes[i].key})
  {
    var left := nodes[..i] + nodes[i + 1..];
    var table := lookup - {nodes[i].key};
    forall k | 0 <= k < |left| ensures left[k].key in table && table[left[k].key] == left[k] {
      var at := if k < i then k else k + 1;
      assert left[k] == nodes[at] && nodes[at] != nodes[i];
      assert lookup[nodes[at].key] == nodes[at] && lookup[nodes[i].key] == nodes[i];
    }
    forall key | key in table ensures table[key] in left {
      var at :| 0 <= at < |nodes| && nodes[at] == lookup[key];
      assert at != i;
      assert left[if at < i then at else at - 1] == nodes[at];
    }
  }

  lemma IndexedWith<V>(nodes: seq<Node<V>>, lookup: map<string, Node<V>>, node: Node<V>)
    requires Indexed(nodes, lookup) && node.key !in lookup
    ensures Indexed([node] + nodes, lookup[node.key := node])
  {
    var grown := [node] + nodes;
    forall k | 0 <= k < |grown| ensures grown[k].key in lookup[node.key := node]
        && lookup[node.key := node][grown[k].key] == grown[k]
    {
      assert k > 0 ==> grown[k] == nodes[k - 1];
    }
  }

  /** The table answers for the sequence: a key is resident exactly when the table has it, and the node under it stands
      where the entry does. */
  lemma LookupFinds<V>(nodes: seq<Node<V>>, lookup: map<string, Node<V>>, key: string)
    requires Indexed(nodes, lookup)
    ensures key in lookup <==> Has(EntriesOf(nodes), key)
    ensures key in lookup ==>
              var i := IndexOf(EntriesOf(nodes), key);
              i < |nodes| && nodes[i] == lookup[key] && EntriesOf(nodes)[i] == EntryOf(lookup[key])
  {
    var entries := EntriesOf(nodes);
    forall i | 0 <= i < |nodes| && entries[i].key == key ensures key in lookup {
      assert nodes[i].key in lookup;
    }
    if key in lookup {
      var k :| 0 <= k < |nodes| && nodes[k] == lookup[key];
      assert entries[k].key == key;
      var i := IndexOf(entries, key);
      assert nodes[i].key == key;
    }
  }

  /** The values released when entries are dropped from the end until `n` are left, in the order they go. */
  function Released<V>(entries: seq<Entry<V>>, n: nat): seq<V>
    requires n <= |entries|
  {
    seq(|entries| - n, k requires 0 <= k < |entries| - n => entries[|entries| - 1 - k].value)
  }

  function Values<V>(entries: seq<Entry<V>>): seq<V> {
    seq(|entries|, k requires 0 <= k < |entries| => entries[k].value)
  }

  ghost predicate Distinct<V>(nodes: seq<Node<V>>) {
    forall j, k :: 0 <= j < k < |nodes| ==> nodes[j] != nodes[k]
  }

  lemma EntriesAgree<V>(nodes: seq<Node<V>>)
    ensures |EntriesOf(nodes)| == |nodes|
  {
  }

  lemma LastIsTail<V>(nodes: seq<Node<V>>, head: Node?<V>, tail: Node?<V>)
    requires Linked(nodes, head, tail)
    ensures tail == null <==> nodes == []
    ensures |EntriesOf(nodes)| == |nodes|
    ensures nodes != [] ==> tail == nodes[|nodes| - 1] && EntriesOf(nodes)[|nodes| - 1] == EntryOf(tail)
  {
  }

  /** Only the first node is the head, and it is where promoting would put it. */
  lemma HeadIsFirst<V>(nodes: seq<Node<V>>, head: Node?<V>, tail: Node?<V>, i: nat)
    requires Linked(nodes, head, tail) && i < |nodes|
    ensures nodes[i] == head <==> i == 0
    ensures i == 0 ==> nodes == [nodes[i]] + (nodes[..i] + nodes[i + 1..])
    ensures nodes[i] !in nodes[..i] + nodes[i + 1..]
  {
    assert nodes[0] == head;
  }

  lemma KeepDropsLast<V>(entries: seq<Entry<V>>, budget: int)
    requires entries != [] && Weight(entries) > budget
    ensures Keep(entries, budget) == Keep(entries[..|entries| - 1], budget)
    ensures Without(entries, |entries| - 1) == entries[..|entries| - 1]
  {
  }

  lemma KeepAll<V>(entries: seq<Entry<V>>, budget: int)
    requires entries == [] || Weight(entries) <= budget
    ensures Keep(entries, budget) == entries
  {
  }

  lemma Listed<V>(nodes: seq<Node<V>>, head: Node?<V>, tail: Node?<V>, lookup: map<string, Node<V>>, node: Node<V>)
    requires Linked(nodes, head, tail) && Indexed(nodes, lookup) && node.key !in lookup
    ensures node !in nodes
    ensures Indexed([node] + nodes, lookup[node.key := node])
    ensures EntriesOf([node] + nodes) == [EntryOf(node)] + EntriesOf(nodes)
    ensures Weight(EntriesOf([node] + nodes)) == Weight(EntriesOf(nodes)) + node.weight
  {
    IndexedWith(nodes, lookup, node);
    assert EntriesOf([node] + nodes) == [EntryOf(node)] + EntriesOf(nodes);
    WeightWithFront(EntryOf(node), EntriesOf(nodes));
  }

  lemma Promoted<V>(nodes: seq<Node<V>>, head: Node?<V>, tail: Node?<V>, lookup: map<string, Node<V>>, i: nat)
    requires Linked(nodes, head, tail) && Indexed(nodes, lookup) && i < |nodes|
    ensures var moved := [nodes[i]] + (nodes[..i] + nodes[i + 1..]);
            && Indexed(moved, lookup)
            && EntriesOf(moved) == [EntryOf(nodes[i])] + Without(EntriesOf(nodes), i)
            && Weight(EntriesOf(moved)) == Weight(EntriesOf(nodes))
  {
    hide Linked, Weight, Indexed;
    var left := nodes[..i] + nodes[i + 1..];
    var moved := [nodes[i]] + left;
    EntriesWithout(nodes, i);
    WeightWithout(EntriesOf(nodes), i);
    WeightWithFront(EntryOf(nodes[i]), EntriesOf(left));
    assert EntriesOf(moved) == [EntryOf(nodes[i])] + EntriesOf(left);
    IndexedPromoted(nodes, lookup, i);
  }

  lemma IndexedPromoted<V>(nodes: seq<Node<V>>, lookup: map<string, Node<V>>, i: nat)
    requires Indexed(nodes, lookup) && i < |nodes|
    ensures Indexed([nodes[i]] + (nodes[..i] + nodes[i + 1..]), lookup)
  {
    var left := nodes[..i] + nodes[i + 1..];
    var moved := [nodes[i]] + left;
    forall n | n in nodes ensures n in moved {
      var k :| 0 <= k < |nodes| && nodes[k] == n;
      assert k != i ==> left[if k < i then k else k - 1] == n;
    }
    forall n | n in moved ensures n in nodes {
    }
    forall k | 0 <= k < |moved| ensures moved[k].key in lookup && lookup[moved[k].key] == moved[k] {
      assert moved[k] in nodes;
    }
  }

  lemma ValuesWithout<V>(entries: seq<Entry<V>>, i: nat)
    requires i < |entries|
    ensures |Without(entries, i)| == |entries| - 1
    ensures multiset(Values(Without(entries, i))) + multiset{entries[i].value} == multiset(Values(entries))
  {
    var values := Values(entries);
    assert Values(Without(entries, i)) == values[..i] + values[i + 1..];
    assert values == values[..i] + [values[i]] + values[i + 1..];
  }

  lemma {:induction false} CurrentOfConcat<V>(a: seq<Entry<V>>, b: seq<Entry<V>>, namespace: string, generation: nat)
    ensures Current(a + b, namespace, generation) ==
            Current(a, namespace, generation) + Current(b, namespace, generation)
  {
    if b == [] {
      assert a + b == a;
    } else {
      CurrentOfConcat(a, b[..|b| - 1], namespace, generation);
      assert (a + b)[..|a + b| - 1] == a + b[..|b| - 1];
    }
  }

  lemma CurrentWithout<V>(entries: seq<Entry<V>>, i: nat, namespace: string, generation: nat)
    requires i < |entries| && Stale(entries[i], namespace, generation)
    ensures Current(Without(entries, i), namespace, generation) == Current(entries, namespace, generation)
  {
    assert entries == entries[..i + 1] + entries[i + 1..];
    assert entries[..i + 1][..i] == entries[..i];
    CurrentOfConcat(entries[..i + 1], entries[i + 1..], namespace, generation);
    CurrentOfConcat(entries[..i], entries[i + 1..], namespace, generation);
  }

  lemma {:induction false} AllKept<V>(entries: seq<Entry<V>>, namespace: string, generation: nat)
    requires forall k :: 0 <= k < |entries| ==> !Stale(entries[k], namespace, generation)
    ensures Current(entries, namespace, generation) == entries
  {
    if entries != [] {
      AllKept(entries[..|entries| - 1], namespace, generation);
    }
  }

  lemma AllCurrent<V>(nodes: seq<Node<V>>, lookup: map<string, Node<V>>, namespace: string, generation: nat)
    requires Indexed(nodes, lookup)
    requires forall key :: key in lookup ==> !Stale(EntryOf(lookup[key]), namespace, generation)
    ensures Current(EntriesOf(nodes), namespace, generation) == EntriesOf(nodes)
  {
    forall k | 0 <= k < |nodes| ensures !Stale(EntriesOf(nodes)[k], namespace, generation) {
      assert lookup[nodes[k].key] == nodes[k];
    }
    AllKept(EntriesOf(nodes), namespace, generation);
  }

  /** Dropping the node a key stands for when it is stale: what stays, and what the released value accounts for. */
  lemma StaleLeaves<V>(nodes: seq<Node<V>>, lookup: map<string, Node<V>>, key: string, namespace: string,
                       generation: nat)
    returns (i: nat)
    requires Indexed(nodes, lookup) && key in lookup && Stale(EntryOf(lookup[key]), namespace, generation)
    ensures i < |nodes| && nodes[i] == lookup[key] && nodes[i].key == key && |EntriesOf(nodes)| == |nodes|
    ensures var left := Without(EntriesOf(nodes), i);
            && Current(left, namespace, generation) == Current(EntriesOf(nodes), namespace, generation)
            && multiset(Values(left)) + multiset{nodes[i].value} == multiset(Values(EntriesOf(nodes)))
  {
    hide Current, Values;
    LookupFinds(nodes, lookup, key);
    i := IndexOf(EntriesOf(nodes), key);
    CurrentWithout(EntriesOf(nodes), i, namespace, generation);
    ValuesWithout(EntriesOf(nodes), i);
  }

  lemma TableWithout<V>(nodes: seq<Node<V>>, lookup: map<string, Node<V>>, key: string) returns (i: nat)
    requires Indexed(nodes, lookup) && Distinct(nodes) && key in lookup
    ensures i < |nodes|
    ensures var left := nodes[..i] + nodes[i + 1..];
            && Indexed(left, lookup - {key}) && Distinct(left)
            && multiset(Values(EntriesOf(left))) + multiset{lookup[key].value} == multiset(Values(EntriesOf(nodes)))
  {
    hide Values;
    LookupFinds(nodes, lookup, key);
    i := IndexOf(EntriesOf(nodes), key);
    IndexedWithout(nodes, lookup, i);
    EntriesWithout(nodes, i);
    ValuesWithout(EntriesOf(nodes), i);
  }

  lemma DistinctWhenLinked<V>(nodes: seq<Node<V>>, head: Node?<V>, tail: Node?<V>)
    requires Linked(nodes, head, tail)
    ensures Distinct(nodes)
  {
  }

  lemma NothingLinked<V>()
    ensures EntriesOf<V>([]) == [] && Values<V>([]) == [] && Weight<V>([]) == 0
    ensures Linked<V>([], null, null) && Indexed<V>([], map[])
  {
  }

  lemma {:induction false} TableSize<V>(nodes: seq<Node<V>>, lookup: map<string, Node<V>>)
    requires Indexed(nodes, lookup) && Distinct(nodes)
    ensures |lookup| == |nodes|
    decreases |nodes|
  {
    if nodes == [] {
      assert lookup == map[];
    } else {
      var key := nodes[0].key;
      RestIndexed(nodes, lookup);
      hide Indexed;
      TableSize(nodes[1..], lookup - {key});
      assert lookup.Keys == (lookup - {key}).Keys + {key};
    }
  }

  lemma FirstInTable<V>(nodes: seq<Node<V>>, lookup: map<string, Node<V>>)
    requires Indexed(nodes, lookup) && nodes != []
    ensures nodes[0].key in lookup
  {
  }

  lemma RestIndexed<V>(nodes: seq<Node<V>>, lookup: map<string, Node<V>>)
    requires Indexed(nodes, lookup) && Distinct(nodes) && nodes != []
    ensures nodes[0].key in lookup && Indexed(nodes[1..], lookup - {nodes[0].key}) && Distinct(nodes[1..])
  {
    hide Indexed;
    FirstInTable(nodes, lookup);
    IndexedWithout(nodes, lookup, 0);
    assert nodes[..0] + nodes[1..] == nodes[1..];
  }
}
