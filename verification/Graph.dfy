/** Dependency graphs, and what a depth-first search that emits nodes in postorder knows about them.

    A graph maps each node to its dependencies. A dependency that is not a key is missing, unless it is among the
    leaves, which need no entry. */
module Graphs {
  type Graph = map<string, seq<string>>

  predicate Distinct<T(==)>(s: seq<T>) {
    forall i, j :: 0 <= i < j < |s| ==> s[i] != s[j]
  }

  predicate Edge(g: Graph, a: string, b: string) {
    a in g && b in g[a]
  }

  predicate IsPath(g: Graph, p: seq<string>) {
    && |p| > 0
    && forall i :: 0 <= i < |p| - 1 ==> Edge(g, p[i], p[i + 1])
  }

  ghost predicate Reaches(g: Graph, a: string, b: string) {
    exists p :: IsPath(g, p) && p[0] == a && p[|p| - 1] == b
  }

  /** True when some root depends on `b`, directly or not, or is `b`. */
  ghost predicate Reached(g: Graph, roots: seq<string>, b: string) {
    exists r :: r in roots && Reaches(g, r, b)
  }

  /** A path that comes back to where it started. */
  predicate IsCycle(g: Graph, p: seq<string>) {
    IsPath(g, p) && |p| >= 2 && p[0] == p[|p| - 1]
  }

  ghost predicate CyclicFrom(g: Graph, roots: seq<string>) {
    exists p :: IsCycle(g, p) && Reached(g, roots, p[0])
  }

  ghost predicate Acyclic(g: Graph) {
    forall p :: !IsCycle(g, p)
  }

  /** Every node of `order` is in the graph, and comes after all its dependencies but the leaves. */
  predicate DependencyFirst(g: Graph, leaves: set<string>, order: seq<string>) {
    forall i :: 0 <= i < |order| ==>
      order[i] in g && forall d :: d in g[order[i]] ==> d in leaves || d in order[..i]
  }

  // ---- Dependency-first orders ----

  /** Where dependencies lead from an ordered node: to a leaf, or strictly back in the order. */
  lemma {:induction false} PathGoesBack(g: Graph, leaves: set<string>, order: seq<string>, p: seq<string>, i: nat)
    requires DependencyFirst(g, leaves, order) && leaves !! g.Keys
    requires IsPath(g, p) && i < |order| && p[0] == order[i]
    ensures p[|p| - 1] in leaves || p[|p| - 1] in order[..i + 1]
    ensures |p| >= 2 ==> p[|p| - 1] in leaves || p[|p| - 1] in order[..i]
  {
    if |p| >= 2 {
      assert Edge(g, p[0], p[1]);
      if p[1] in leaves {
        assert |p| > 2 ==> Edge(g, p[1], p[2]);
      } else {
        var j :| 0 <= j < i && order[j] == p[1];
        var rest := p[1..];
        forall k | 0 <= k < |rest| - 1 ensures Edge(g, rest[k], rest[k + 1]) {
          assert Edge(g, p[k + 1], p[k + 1 + 1]);
        }
        PathGoesBack(g, leaves, order, rest, j);
        assert order[..j + 1] <= order[..i];
      }
    }
  }

  /** Everything an ordered node depends on is ordered, or a leaf. */
  lemma OrderIsClosed(g: Graph, leaves: set<string>, order: seq<string>, a: string, b: string)
    requires DependencyFirst(g, leaves, order) && leaves !! g.Keys
    requires a in order && Reaches(g, a, b)
    ensures b in order || b in leaves
  {
    var p :| IsPath(g, p) && p[0] == a && p[|p| - 1] == b;
    var i :| 0 <= i < |order| && order[i] == a;
    PathGoesBack(g, leaves, order, p, i);
  }

  /** No cycle passes through an ordered node. */
  lemma OrderHasNoCycle(g: Graph, leaves: set<string>, order: seq<string>, p: seq<string>)
    requires DependencyFirst(g, leaves, order) && Distinct(order) && leaves !! g.Keys
    requires IsPath(g, p) && |p| >= 2 && p[0] in order
    ensures !IsCycle(g, p)
  {
    var i :| 0 <= i < |order| && order[i] == p[0];
    PathGoesBack(g, leaves, order, p, i);
    assert Edge(g, p[0], p[1]);
  }

  // ---- Reachability ----

  lemma RootIsReached(g: Graph, roots: seq<string>, r: string)
    requires r in roots
    ensures Reached(g, roots, r)
  {
    assert IsPath(g, [r]);
    assert Reaches(g, r, r);
  }

  lemma EdgeIsReached(g: Graph, roots: seq<string>, a: string, b: string)
    requires Reached(g, roots, a) && Edge(g, a, b)
    ensures Reached(g, roots, b)
  {
    var r :| r in roots && Reaches(g, r, a);
    var p :| IsPath(g, p) && p[0] == r && p[|p| - 1] == a;
    var q := p + [b];
    assert IsPath(g, q) && q[0] == r && q[|q| - 1] == b;
    assert Reaches(g, r, b);
  }

  // ---- Depth-first search ----

  /** What a search from `roots` knows while it is under way: the nodes it has emitted, and the path of nodes it has
      entered and not left. */
  ghost predicate Searching(g: Graph, leaves: set<string>, roots: seq<string>, done: seq<string>, stack: seq<string>) {
    && Distinct(done) && Distinct(stack)
    && (forall x :: x in stack ==> x !in done && x in g)
    && DependencyFirst(g, leaves, done)
    && (forall i :: 0 <= i < |stack| - 1 ==> Edge(g, stack[i], stack[i + 1]))
    && (forall x :: x in done || x in stack ==> Reached(g, roots, x))
  }

  /** A search may enter a node that a root or the node it entered last depends on. */
  ghost predicate MayEnter(g: Graph, roots: seq<string>, stack: seq<string>, id: string) {
    && Reached(g, roots, id)
    && (stack != [] ==> Edge(g, stack[|stack| - 1], id))
  }

  lemma MayStart(g: Graph, roots: seq<string>, r: string)
    requires r in roots
    ensures MayEnter(g, roots, [], r)
  {
    RootIsReached(g, roots, r);
  }

  lemma Enter(g: Graph, leaves: set<string>, roots: seq<string>, done: seq<string>, stack: seq<string>, id: string)
    requires Searching(g, leaves, roots, done, stack) && MayEnter(g, roots, stack, id)
    requires id in g && id !in done && id !in stack
    ensures Searching(g, leaves, roots, done, stack + [id])
  {
  }

  /** The node entered last may lead on to any of its dependencies. */
  lemma MayFollow(g: Graph, leaves: set<string>, roots: seq<string>, done: seq<string>, stack: seq<string>, d: string)
    requires Searching(g, leaves, roots, done, stack) && stack != [] && Edge(g, stack[|stack| - 1], d)
    ensures MayEnter(g, roots, stack, d)
  {
    EdgeIsReached(g, roots, stack[|stack| - 1], d);
  }

  /** A node whose dependencies have all been emitted may be emitted. */
  lemma Emit(g: Graph, leaves: set<string>, roots: seq<string>, done: seq<string>, stack: seq<string>, id: string)
    requires Searching(g, leaves, roots, done, stack + [id])
    requires forall d :: d in g[id] ==> d in leaves || d in done
    ensures Searching(g, leaves, roots, done + [id], stack)
  {
    var entered := stack + [id];
    assert entered[|stack|] == id && id in entered;
    assert forall i :: 0 <= i < |stack| ==> entered[i] == stack[i];
    assert forall x :: x in stack ==> x in entered;
    forall i | 0 <= i < |stack| - 1 ensures Edge(g, stack[i], stack[i + 1]) {
      assert Edge(g, entered[i], entered[i + 1]);
    }
    var done' := done + [id];
    forall i | 0 <= i < |done'|
      ensures done'[i] in g && forall d :: d in g[done'[i]] ==> d in leaves || d in done'[..i]
    {
      assert done'[..i] == done[..i];
      assert i == |done| ==> done[..i] == done;
    }
  }

  /** Meeting a node on the stack again closes a cycle. */
  lemma MeetAgain(g: Graph, leaves: set<string>, roots: seq<string>, done: seq<string>, stack: seq<string>, id: string)
    requires Searching(g, leaves, roots, done, stack) && MayEnter(g, roots, stack, id) && id in stack
    ensures CyclicFrom(g, roots)
  {
    var k :| 0 <= k < |stack| && stack[k] == id;
    var p := stack[k..] + [id];
    forall i | 0 <= i < |p| - 1 ensures Edge(g, p[i], p[i + 1]) {
      assert p[i] == stack[k + i];
      if i + 1 < |p| - 1 {
        assert p[i + 1] == stack[k + i + 1];
      }
    }
    assert IsCycle(g, p);
  }

  /** A finished search that entered every root has emitted exactly what the roots reach, apart from the leaves, and
      has met no cycle. */
  lemma Finished(g: Graph, leaves: set<string>, roots: seq<string>, done: seq<string>)
    requires Searching(g, leaves, roots, done, []) && leaves !! g.Keys
    requires forall r :: r in roots ==> r in done || r in leaves
    ensures forall x :: x in done <==> Reached(g, roots, x) && x !in leaves
    ensures !CyclicFrom(g, roots)
  {
    forall x | Reached(g, roots, x) ensures x in done || x in leaves {
      ReachedIsDone(g, leaves, roots, done, x);
    }
    assert forall x :: x in done ==> x in g;
    forall p | IsCycle(g, p) && Reached(g, roots, p[0]) ensures false {
      assert Edge(g, p[0], p[1]);
      OrderHasNoCycle(g, leaves, done, p);
    }
  }

  lemma ReachedIsDone(g: Graph, leaves: set<string>, roots: seq<string>, done: seq<string>, x: string)
    requires DependencyFirst(g, leaves, done) && leaves !! g.Keys
    requires (forall r :: r in roots ==> r in done || r in leaves) && Reached(g, roots, x)
    ensures x in done || x in leaves
  {
    var r :| r in roots && Reaches(g, r, x);
    if r in leaves {
      var p :| IsPath(g, p) && p[0] == r && p[|p| - 1] == x;
      assert |p| >= 2 ==> Edge(g, p[0], p[1]);
    } else {
      OrderIsClosed(g, leaves, done, r, x);
    }
  }
}
