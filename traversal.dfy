/**
 * The traversal engine: every iteration order over the node graph, each as a function of the
 * arena and of the stored child order. A filter is a predicate on node handles (or on edges
 * for the edge iterators); as in the source's generators, a filtered-out node is still
 * descended into, only not yielded.
 */
module Traversal {
  import opened Wrappers
  import opened Seqs
  import opened Arenas

  /** The three depth-first orders. */
  datatype DfsOrder = Pre | Post | In

  /** The filter that keeps everything (`filter_fn=None`). */
  const All: nat -> bool := (n: nat) => true

  /** Every handle in `cs` names a node after `lo`. */
  predicate After(a: Arena, lo: nat, cs: seq<nat>) {
    forall k :: 0 <= k < |cs| ==> lo < cs[k] < |a|
  }

  /**
   * The nodes of the subtree of `i` that satisfy `f`, in depth-first order `ord`:
   *  - pre-order: the node, then each child's subtree in child order;
   *  - post-order: each child's subtree in child order, then the node;
   *  - in-order: the first child's subtree, the node, then the remaining children's subtrees
   *    (a leaf yields itself).
   */
  function Visit(a: Arena, i: nat, ord: DfsOrder, f: nat -> bool): (r: seq<nat>)
    requires WellFormed(a) && i < |a|
    ensures forall k :: 0 <= k < |r| ==> i <= r[k] < |a|
    decreases |a| - i, |a[i].children| + 1
  {
    assert ChildrenLinked(a, i);
    var here := if f(i) then [i] else [];
    var ch := a[i].children;
    match ord
    case Pre =>
      var below := VisitAll(a, i, ch, ord, f);
      BoundedConcat(here, below, i, |a|);
      here + below
    case Post =>
      var below := VisitAll(a, i, ch, ord, f);
      BoundedConcat(below, here, i, |a|);
      below + here
    case In =>
      if ch == [] then here
      else
        var first, rest := Visit(a, ch[0], ord, f), VisitAll(a, i, ch[1..], ord, f);
        BoundedConcat(first, here, i, |a|);
        BoundedConcat(first + here, rest, i, |a|);
        first + here + rest
  }

  /** The concatenation of the traversals of the subtrees `cs` (children of `lo`), in order. */
  function VisitAll(a: Arena, lo: nat, cs: seq<nat>, ord: DfsOrder, f: nat -> bool): (r: seq<nat>)
    requires WellFormed(a) && After(a, lo, cs)
    ensures forall k :: 0 <= k < |r| ==> lo < r[k] < |a|
    decreases |a| - lo, |cs|
  {
    if cs == [] then []
    else
      var first, rest := Visit(a, cs[0], ord, f), VisitAll(a, lo, cs[1..], ord, f);
      BoundedConcat(first, rest, lo + 1, |a|);
      first + rest
  }

  /** Two sequences of handles within `[lo, hi)` concatenate to one. */
  lemma BoundedConcat(s: seq<nat>, t: seq<nat>, lo: nat, hi: nat)
    requires forall k :: 0 <= k < |s| ==> lo <= s[k] < hi
    requires forall k :: 0 <= k < |t| ==> lo <= t[k] < hi
    ensures forall k :: 0 <= k < |s + t| ==> lo <= (s + t)[k] < hi
  {
    forall k | 0 <= k < |s + t| ensures lo <= (s + t)[k] < hi {
      if k >= |s| {
        assert (s + t)[k] == t[k - |s|];
      }
    }
  }

  /** A filtered traversal yields exactly the unfiltered one's elements that pass the filter, in order. */
  lemma {:induction false} VisitFilter(a: Arena, i: nat, ord: DfsOrder, f: nat -> bool)
    requires WellFormed(a) && i < |a|
    ensures Visit(a, i, ord, f) == Filter(Visit(a, i, ord, All), f)
    decreases |a| - i, |a[i].children| + 2
  {
    assert ChildrenLinked(a, i);
    var ch := a[i].children;
    var here := if f(i) then [i] else [];
    assert Filter([i], f) == here;
    match ord
    case Pre =>
      VisitAllFilter(a, i, ch, ord, f);
      FilterConcat([i], VisitAll(a, i, ch, ord, All), f);
    case Post =>
      VisitAllFilter(a, i, ch, ord, f);
      FilterConcat(VisitAll(a, i, ch, ord, All), [i], f);
    case In =>
      if ch != [] {
        InorderFilter(a, i, f);
      }
  }

  /** The in-order case: filter the first child's part, the node and the rest separately. */
  lemma {:induction false} InorderFilter(a: Arena, i: nat, f: nat -> bool)
    requires WellFormed(a) && i < |a| && a[i].children != []
    ensures Visit(a, i, In, f) == Filter(Visit(a, i, In, All), f)
    decreases |a| - i, |a[i].children| + 1
  {
    assert ChildrenLinked(a, i);
    var ch := a[i].children;
    var first, rest := Visit(a, ch[0], In, All), VisitAll(a, i, ch[1..], In, All);
    assert Filter([i], f) == if f(i) then [i] else [];
    VisitFilter(a, ch[0], In, f);
    VisitAllFilter(a, i, ch[1..], In, f);
    FilterConcat(first + [i], rest, f);
    FilterConcat(first, [i], f);
  }

  lemma {:induction false} VisitAllFilter(a: Arena, lo: nat, cs: seq<nat>, ord: DfsOrder, f: nat -> bool)
    requires WellFormed(a) && After(a, lo, cs)
    ensures VisitAll(a, lo, cs, ord, f) == Filter(VisitAll(a, lo, cs, ord, All), f)
    decreases |a| - lo, |cs|
  {
    if cs != [] {
      VisitFilter(a, cs[0], ord, f);
      VisitAllFilter(a, lo, cs[1..], ord, f);
      FilterConcat(Visit(a, cs[0], ord, All), VisitAll(a, lo, cs[1..], ord, All), f);
    }
  }

  // ---------------------------------------------------------------------------------------
  // Descent, and which nodes a traversal reaches

  /** `x` lies in the subtree of `i` (is `i` or one of its descendants). */
  predicate Descends(a: Arena, x: nat, i: nat)
    requires WellFormed(a) && x < |a|
    decreases x
  {
    x == i || (x > i && ParentLinked(a, x) && Descends(a, a[x].parent.value, i))
  }

  lemma {:induction false} DescendsAtLeast(a: Arena, x: nat, i: nat)
    requires WellFormed(a) && x < |a| && Descends(a, x, i)
    ensures i <= x
  {
  }

  /** Every node descends from the seed. */
  lemma {:induction false} DescendsFromSeed(a: Arena, x: nat)
    requires WellFormed(a) && x < |a|
    ensures Descends(a, x, Seed)
    decreases x
  {
    if x != Seed {
      assert ParentLinked(a, x);
      DescendsFromSeed(a, a[x].parent.value);
    }
  }

  /** Descending from a child means descending from its parent. */
  lemma {:induction false} DescendsThroughChild(a: Arena, x: nat, c: nat, i: nat)
    requires WellFormed(a) && x < |a| && c < |a| && a[c].parent == Some(i)
    requires Descends(a, x, c)
    ensures Descends(a, x, i)
    decreases x
  {
    assert ParentLinked(a, c);
    if x != c {
      DescendsThroughChild(a, a[x].parent.value, c, i);
    }
  }

  /** A proper descendant of `i` descends from one of `i`'s children. */
  lemma {:induction false} DescendsViaSomeChild(a: Arena, x: nat, i: nat) returns (k: nat)
    requires WellFormed(a) && x < |a| && i < |a| && Descends(a, x, i) && x != i
    ensures k < |a[i].children| && a[i].children[k] < |a| && Descends(a, a[i].children[k], i)
    ensures Descends(a, x, a[i].children[k])
    decreases x
  {
    assert ParentLinked(a, x);
    assert ChildrenLinked(a, i);
    var p := a[x].parent.value;
    if p == i {
      k :| 0 <= k < |a[i].children| && a[i].children[k] == x;
    } else {
      k := DescendsViaSomeChild(a, p, i);
      DescendsAtLeast(a, p, a[i].children[k]);
    }
  }

  /** Two children of the same node have disjoint subtrees. */
  lemma {:induction false} SiblingsDisjoint(a: Arena, x: nat, c: nat, d: nat)
    requires WellFormed(a) && x < |a| && c < |a| && d < |a|
    requires c != Seed && d != Seed && a[c].parent == a[d].parent
    requires Descends(a, x, c) && Descends(a, x, d)
    ensures c == d
    decreases x
  {
    assert ParentLinked(a, c) && ParentLinked(a, d);
    if x != c && x != d {
      SiblingsDisjoint(a, a[x].parent.value, c, d);
    }
  }

  /** A depth-first traversal of `i`'s subtree reaches exactly the nodes descending from `i`. */
  lemma {:induction false} VisitMembers(a: Arena, i: nat, ord: DfsOrder, x: nat)
    requires WellFormed(a) && i < |a|
    ensures x in Visit(a, i, ord, All) <==> x < |a| && Descends(a, x, i)
    decreases |a| - i, |a[i].children| + 1, 1
  {
    if x in Visit(a, i, ord, All) && x != i {
      VisitReachesDescendants(a, i, ord, x);
    }
    if x < |a| && Descends(a, x, i) && x != i {
      DescendantsAreVisited(a, i, ord, x);
    }
  }

  lemma {:induction false} VisitReachesDescendants(a: Arena, i: nat, ord: DfsOrder, x: nat)
    requires WellFormed(a) && i < |a| && x in Visit(a, i, ord, All) && x != i
    ensures x < |a| && Descends(a, x, i)
    decreases |a| - i, |a[i].children| + 1, 0
  {
    assert ChildrenLinked(a, i);
    var ch := a[i].children;
    var k: nat;
    if ord == In && ch != [] && x in Visit(a, ch[0], ord, All) {
      VisitMembers(a, ch[0], ord, x);
      k := 0;
    } else if ord == In && ch != [] {
      k := VisitAllMembers(a, i, ch[1..], ord, x);
      k := k + 1;
    } else {
      k := VisitAllMembers(a, i, ch, ord, x);
    }
    DescendsThroughChild(a, x, ch[k], i);
  }

  lemma {:induction false} DescendantsAreVisited(a: Arena, i: nat, ord: DfsOrder, x: nat)
    requires WellFormed(a) && i < |a| && x < |a| && Descends(a, x, i) && x != i
    ensures x in Visit(a, i, ord, All)
    decreases |a| - i, |a[i].children| + 1, 0
  {
    assert ChildrenLinked(a, i);
    var ch := a[i].children;
    var k := DescendsViaSomeChild(a, x, i);
    if ord == In && k == 0 {
      VisitMembers(a, ch[0], ord, x);
    } else if ord == In {
      VisitAllContains(a, i, ch[1..], ord, k - 1, x);
    } else {
      VisitAllContains(a, i, ch, ord, k, x);
    }
  }

  /** A node reached by the traversal of the subtrees `cs` lies in one of them. */
  lemma {:induction false} VisitAllMembers(a: Arena, lo: nat, cs: seq<nat>, ord: DfsOrder, x: nat)
    returns (k: nat)
    requires WellFormed(a) && After(a, lo, cs) && x in VisitAll(a, lo, cs, ord, All)
    ensures k < |cs| && x < |a| && Descends(a, x, cs[k])
    decreases |a| - lo, |cs|
  {
    if x in Visit(a, cs[0], ord, All) {
      VisitMembers(a, cs[0], ord, x);
      k := 0;
    } else {
      k := VisitAllMembers(a, lo, cs[1..], ord, x);
      k := k + 1;
    }
  }

  /** The traversal of the subtrees `cs` reaches every node of each of them. */
  lemma {:induction false} VisitAllContains(a: Arena, lo: nat, cs: seq<nat>, ord: DfsOrder, k: nat, x: nat)
    requires WellFormed(a) && After(a, lo, cs) && k < |cs| && x < |a| && Descends(a, x, cs[k])
    ensures x in VisitAll(a, lo, cs, ord, All)
    decreases |a| - lo, |cs|
  {
    if k == 0 {
      VisitMembers(a, cs[0], ord, x);
    } else {
      VisitAllContains(a, lo, cs[1..], ord, k - 1, x);
    }
  }

  /** No depth-first traversal reaches a node twice. */
  lemma {:induction false} VisitDistinct(a: Arena, i: nat, ord: DfsOrder)
    requires WellFormed(a) && i < |a|
    ensures Distinct(Visit(a, i, ord, All))
    decreases |a| - i, |a[i].children| + 2
  {
    assert ChildrenLinked(a, i);
    var ch := a[i].children;
    if ord == In && ch != [] {
      InorderDistinct(a, i);
    } else {
      VisitAllDistinct(a, i, ch, ord);
      DistinctConcat([i], VisitAll(a, i, ch, ord, All));
      DistinctConcat(VisitAll(a, i, ch, ord, All), [i]);
    }
  }

  /** The in-order case: the first child's nodes, the node, the other children's nodes are disjoint. */
  lemma {:induction false} InorderDistinct(a: Arena, i: nat)
    requires WellFormed(a) && i < |a| && a[i].children != []
    ensures Distinct(Visit(a, i, In, All))
    decreases |a| - i, |a[i].children| + 1
  {
    assert ChildrenLinked(a, i);
    var ch := a[i].children;
    var s := Visit(a, ch[0], In, All);
    var t := VisitAll(a, i, ch[1..], In, All);
    VisitDistinct(a, ch[0], In);
    VisitAllDistinct(a, i, ch[1..], In);
    forall p, q | 0 <= p < |s| && 0 <= q < |t| ensures s[p] != t[q] {
      if s[p] == t[q] {
        VisitMembers(a, ch[0], In, s[p]);
        var k := VisitAllMembers(a, i, ch[1..], In, t[q]);
        assert ParentLinked(a, ch[0]) && ParentLinked(a, ch[k + 1]);
        SiblingsDisjoint(a, s[p], ch[0], ch[k + 1]);
      }
    }
    DistinctConcat(s, [i]);
    DistinctConcat(s + [i], t);
  }

  lemma {:induction false} VisitAllDistinct(a: Arena, lo: nat, cs: seq<nat>, ord: DfsOrder)
    requires WellFormed(a) && After(a, lo, cs) && Distinct(cs)
    requires forall k :: 0 <= k < |cs| ==> a[cs[k]].parent == Some(lo)
    ensures Distinct(VisitAll(a, lo, cs, ord, All))
    decreases |a| - lo, |cs|
  {
    if cs != [] {
      var s := Visit(a, cs[0], ord, All);
      var t := VisitAll(a, lo, cs[1..], ord, All);
      VisitDistinct(a, cs[0], ord);
      VisitAllDistinct(a, lo, cs[1..], ord);
      forall p, q | 0 <= p < |s| && 0 <= q < |t| ensures s[p] != t[q] {
        if s[p] == t[q] {
          VisitMembers(a, cs[0], ord, s[p]);
          var k := VisitAllMembers(a, lo, cs[1..], ord, t[q]);
          SiblingsDisjoint(a, s[p], cs[0], cs[k + 1]);
        }
      }
      DistinctConcat(s, t);
    }
  }

  /** Every depth-first order from the seed yields every node of the tree exactly once. */
  lemma {:induction false} VisitsEveryNodeOnce(a: Arena, ord: DfsOrder)
    requires WellFormed(a)
    ensures Distinct(Visit(a, Seed, ord, All))
    ensures forall x: nat :: x in Visit(a, Seed, ord, All) <==> x < |a|
    ensures |Visit(a, Seed, ord, All)| == |a|
  {
    VisitDistinct(a, Seed, ord);
    forall x: nat ensures x in Visit(a, Seed, ord, All) <==> x < |a| {
      VisitMembers(a, Seed, ord, x);
      if x < |a| {
        DescendsFromSeed(a, x);
      }
    }
    DistinctLength(Visit(a, Seed, ord, All), |a|);
  }

  /**
   * Leaves come out in the same relative order in every depth-first order: under a filter
   * that keeps only leaves, all three orders agree.
   */
  lemma {:induction false} LeavesSameInEveryOrder(a: Arena, i: nat, ord: DfsOrder, f: nat -> bool)
    requires WellFormed(a) && i < |a|
    requires forall n: nat :: f(n) ==> n < |a| && IsLeaf(a, n)
    ensures Visit(a, i, ord, f) == Visit(a, i, Pre, f)
    decreases |a| - i, |a[i].children| + 2
  {
    assert ChildrenLinked(a, i);
    var ch := a[i].children;
    if ch != [] {
      assert !f(i);
      if ord == Post {
        LeavesSameInEveryOrderAll(a, i, ch, ord, f);
        assert Visit(a, i, Pre, f) == [] + VisitAll(a, i, ch, Pre, f);
        assert Visit(a, i, Post, f) == VisitAll(a, i, ch, Pre, f) + [];
      } else if ord == In {
        LeavesSameInOrder(a, i, f);
      }
    }
  }

  /** The in-order case: above the leaves, the node itself is filtered out. */
  lemma {:induction false} LeavesSameInOrder(a: Arena, i: nat, f: nat -> bool)
    requires WellFormed(a) && i < |a| && a[i].children != []
    requires forall n: nat :: f(n) ==> n < |a| && IsLeaf(a, n)
    ensures Visit(a, i, In, f) == Visit(a, i, Pre, f)
    decreases |a| - i, |a[i].children| + 1
  {
    assert ChildrenLinked(a, i);
    var ch := a[i].children;
    assert !f(i);
    LeavesSameInEveryOrder(a, ch[0], In, f);
    LeavesSameInEveryOrderAll(a, i, ch[1..], In, f);
    var first, rest := Visit(a, ch[0], Pre, f), VisitAll(a, i, ch[1..], Pre, f);
    assert Visit(a, i, Pre, f) == [] + (first + rest);
    assert Visit(a, i, In, f) == first + [] + rest;
  }

  lemma {:induction false} LeavesSameInEveryOrderAll(a: Arena, lo: nat, cs: seq<nat>, ord: DfsOrder, f: nat -> bool)
    requires WellFormed(a) && After(a, lo, cs)
    requires forall n: nat :: f(n) ==> n < |a| && IsLeaf(a, n)
    ensures VisitAll(a, lo, cs, ord, f) == VisitAll(a, lo, cs, Pre, f)
    decreases |a| - lo, |cs|
  {
    if cs != [] {
      LeavesSameInEveryOrder(a, cs[0], ord, f);
      LeavesSameInEveryOrderAll(a, lo, cs[1..], ord, f);
    }
  }

  // ---------------------------------------------------------------------------------------
  // The node iterators

  /** The pre-order sequence of all nodes; the default iteration order of a tree. */
  function Preorder(a: Arena): seq<nat>
    requires WellFormed(a)
  {
    Visit(a, Seed, Pre, All)
  }

  function Postorder(a: Arena): seq<nat>
    requires WellFormed(a)
  {
    Visit(a, Seed, Post, All)
  }

  function Inorder(a: Arena): seq<nat>
    requires WellFormed(a)
  {
    Visit(a, Seed, In, All)
  }

  /** Keeps the leaves that pass `f`. */
  function LeafFilter(a: Arena, f: nat -> bool): nat -> bool {
    (n: nat) => n < |a| && IsLeaf(a, n) && f(n)
  }

  /** Keeps the internal nodes that pass `f`, and drops the seed when `excludeSeed` holds. */
  function InternalFilter(a: Arena, excludeSeed: bool, f: nat -> bool): nat -> bool {
    (n: nat) => n < |a| && IsInternal(a, n) && !(excludeSeed && n == Seed) && f(n)
  }

  /** Keeps the nodes whose incoming edge passes `g`. */
  function EdgeFilter(a: Arena, g: Edge -> bool): nat -> bool
    requires WellFormed(a)
  {
    (n: nat) => n < |a| && g(EdgeOf(a, n))
  }

  /** `preorder_node_iter(filter_fn)`. */
  function PreorderNodeIter(a: Arena, f: nat -> bool): (r: seq<nat>)
    requires WellFormed(a)
    ensures r == Filter(Preorder(a), f)
  {
    VisitFilter(a, Seed, Pre, f);
    Visit(a, Seed, Pre, f)
  }

  /** `postorder_node_iter(filter_fn)`. */
  function PostorderNodeIter(a: Arena, f: nat -> bool): (r: seq<nat>)
    requires WellFormed(a)
    ensures r == Filter(Postorder(a), f)
  {
    VisitFilter(a, Seed, Post, f);
    Visit(a, Seed, Post, f)
  }

  /** `inorder_node_iter(filter_fn)`, generalised to any number of children. */
  function InorderNodeIter(a: Arena, f: nat -> bool): (r: seq<nat>)
    requires WellFormed(a)
    ensures r == Filter(Inorder(a), f)
  {
    VisitFilter(a, Seed, In, f);
    Visit(a, Seed, In, f)
  }

  /**
   * `leaf_node_iter(filter_fn)`: the leaves that pass `f`. Leaves keep the same relative order
   * in every depth-first walk, so this is the pre-order, post-order and in-order sequence
   * restricted to leaves alike.
   */
  function LeafNodeIter(a: Arena, f: nat -> bool): (r: seq<nat>)
    requires WellFormed(a)
    ensures r == Filter(Preorder(a), LeafFilter(a, f))
    ensures r == Filter(Postorder(a), LeafFilter(a, f))
    ensures r == Filter(Inorder(a), LeafFilter(a, f))
  {
    VisitFilter(a, Seed, Pre, LeafFilter(a, f));
    VisitFilter(a, Seed, Post, LeafFilter(a, f));
    VisitFilter(a, Seed, In, LeafFilter(a, f));
    LeavesSameInEveryOrder(a, Seed, Post, LeafFilter(a, f));
    LeavesSameInEveryOrder(a, Seed, In, LeafFilter(a, f));
    Visit(a, Seed, Pre, LeafFilter(a, f))
  }

  /** `preorder_internal_node_iter(exclude_seed_node, filter_fn)`. */
  function PreorderInternalNodeIter(a: Arena, excludeSeed: bool, f: nat -> bool): (r: seq<nat>)
    requires WellFormed(a)
    ensures r == Filter(Preorder(a), InternalFilter(a, excludeSeed, f))
  {
    VisitFilter(a, Seed, Pre, InternalFilter(a, excludeSeed, f));
    Visit(a, Seed, Pre, InternalFilter(a, excludeSeed, f))
  }

  /** `postorder_internal_node_iter(exclude_seed_node, filter_fn)`. */
  function PostorderInternalNodeIter(a: Arena, excludeSeed: bool, f: nat -> bool): (r: seq<nat>)
    requires WellFormed(a)
    ensures r == Filter(Postorder(a), InternalFilter(a, excludeSeed, f))
  {
    VisitFilter(a, Seed, Post, InternalFilter(a, excludeSeed, f));
    Visit(a, Seed, Post, InternalFilter(a, excludeSeed, f))
  }

  /**
   * `exclude_seed_node` removes only the seed: it comes first in pre-order and, when it passes
   * the filter, the unexcluded sequence is the excluded one with the seed in front.
   */
  lemma PreorderSeedExclusion(a: Arena, f: nat -> bool)
    requires WellFormed(a)
    ensures PreorderInternalNodeIter(a, false, f)
         == (if InternalFilter(a, false, f)(Seed) then [Seed] else []) + PreorderInternalNodeIter(a, true, f)
  {
    assert ChildrenLinked(a, Seed);
    var rest := VisitAll(a, Seed, a[Seed].children, Pre, All);
    assert Preorder(a) == [Seed] + rest;
    FilterConcat([Seed], rest, InternalFilter(a, false, f));
    FilterConcat([Seed], rest, InternalFilter(a, true, f));
    FilterExt(rest, InternalFilter(a, false, f), InternalFilter(a, true, f));
  }

  /** In post-order the seed comes last, so `exclude_seed_node` removes the final element. */
  lemma PostorderSeedExclusion(a: Arena, f: nat -> bool)
    requires WellFormed(a)
    ensures PostorderInternalNodeIter(a, false, f)
         == PostorderInternalNodeIter(a, true, f) + (if InternalFilter(a, false, f)(Seed) then [Seed] else [])
  {
    assert ChildrenLinked(a, Seed);
    var rest := VisitAll(a, Seed, a[Seed].children, Post, All);
    assert Postorder(a) == rest + [Seed];
    FilterConcat(rest, [Seed], InternalFilter(a, false, f));
    FilterConcat(rest, [Seed], InternalFilter(a, true, f));
    FilterExt(rest, InternalFilter(a, false, f), InternalFilter(a, true, f));
  }

  // ---------------------------------------------------------------------------------------
  // Node and edge collections

  /** `nodes(filter_fn)`: each node that passes `f`, once. */
  function Nodes(a: Arena, f: nat -> bool): (r: seq<nat>)
    requires WellFormed(a)
    ensures Distinct(r)
    ensures forall x: nat :: x in r <==> x < |a| && f(x)
  {
    VisitsEveryNodeOnce(a, Pre);
    FilterDistinct(Preorder(a), f);
    FilterMembers(Preorder(a), f);
    PreorderNodeIter(a, f)
  }

  /** `leaf_nodes()`: each leaf, once. */
  function LeafNodes(a: Arena): (r: seq<nat>)
    requires WellFormed(a)
    ensures Distinct(r)
    ensures forall x: nat :: x in r <==> x < |a| && IsLeaf(a, x)
  {
    VisitsEveryNodeOnce(a, Pre);
    FilterDistinct(Preorder(a), LeafFilter(a, All));
    FilterMembers(Preorder(a), LeafFilter(a, All));
    LeafNodeIter(a, All)
  }

  /** `internal_nodes(exclude_seed_node)`: each internal node, once; the seed counts unless excluded. */
  function InternalNodes(a: Arena, excludeSeed: bool): (r: seq<nat>)
    requires WellFormed(a)
    ensures Distinct(r)
    ensures forall x: nat :: x in r <==> x < |a| && IsInternal(a, x) && !(excludeSeed && x == Seed)
  {
    VisitsEveryNodeOnce(a, Pre);
    FilterDistinct(Preorder(a), InternalFilter(a, excludeSeed, All));
    FilterMembers(Preorder(a), InternalFilter(a, excludeSeed, All));
    PreorderInternalNodeIter(a, excludeSeed, All)
  }

  /** There is one node per arena slot. */
  lemma NodeCount(a: Arena)
    requires WellFormed(a)
    ensures |Nodes(a, All)| == |a|
  {
    VisitsEveryNodeOnce(a, Pre);
  }

  /**
   * `nodes()` is the disjoint union of `leaf_nodes()` and `internal_nodes()`; the seed is
   * internal unless excluded, and excluding it removes nothing else.
   */
  lemma NodesPartition(a: Arena)
    requires WellFormed(a)
    ensures multiset(Nodes(a, All)) == multiset(LeafNodes(a)) + multiset(InternalNodes(a, false))
    ensures forall x: nat :: !(x in LeafNodes(a) && x in InternalNodes(a, false))
    ensures InternalNodes(a, false) == (if IsInternal(a, Seed) then [Seed] else []) + InternalNodes(a, true)
  {
    var s := Preorder(a);
    forall k | 0 <= k < |s| ensures InternalFilter(a, false, All)(s[k]) == !LeafFilter(a, All)(s[k]) {
      assert s[k] < |a|;
    }
    FilterPartition<nat>(s, LeafFilter(a, All), InternalFilter(a, false, All));
    PreorderSeedExclusion(a, All);
  }

  /** The filter that keeps every edge. */
  const AllEdges: Edge -> bool := (e: Edge) => true

  /** `edges(filter_fn)`: the incoming edge of each node, once, when it passes `g`. */
  function Edges(a: Arena, g: Edge -> bool): (r: seq<Edge>)
    requires WellFormed(a)
    ensures Distinct(Heads(r))
    ensures forall k :: 0 <= k < |r| ==> r[k].head < |a| && r[k] == EdgeOf(a, r[k].head) && g(r[k])
    ensures forall x: nat :: x < |a| && g(EdgeOf(a, x)) ==> EdgeOf(a, x) in r
  {
    var ns := Nodes(a, EdgeFilter(a, g));
    var r := EdgesOf(a, ns);
    assert Heads(r) == ns;
    forall k | 0 <= k < |r| ensures g(r[k]) {
      assert ns[k] in ns;
      assert EdgeFilter(a, g)(ns[k]);
    }
    forall x: nat | x < |a| && g(EdgeOf(a, x)) ensures EdgeOf(a, x) in r {
      assert EdgeFilter(a, g)(x);
      var k :| 0 <= k < |ns| && ns[k] == x;
      assert r[k] == EdgeOf(a, x);
    }
    r
  }

  /** `leaf_edges()`: the incoming edge of each leaf, once. */
  function LeafEdges(a: Arena): (r: seq<Edge>)
    requires WellFormed(a)
    ensures Distinct(Heads(r))
    ensures forall k :: 0 <= k < |r| ==> r[k].head < |a| && r[k] == EdgeOf(a, r[k].head) && IsLeaf(a, r[k].head)
    ensures forall x: nat :: x < |a| && IsLeaf(a, x) ==> EdgeOf(a, x) in r
  {
    var ns := LeafNodes(a);
    var r := EdgesOf(a, ns);
    assert Heads(r) == ns;
    forall x: nat | x < |a| && IsLeaf(a, x) ensures EdgeOf(a, x) in r {
      var k :| 0 <= k < |ns| && ns[k] == x;
      assert r[k] == EdgeOf(a, x);
    }
    r
  }

  /** `internal_edges(exclude_seed_edge)`: the incoming edge of each internal node, once. */
  function InternalEdges(a: Arena, excludeSeedEdge: bool): (r: seq<Edge>)
    requires WellFormed(a)
    ensures Distinct(Heads(r))
    ensures forall k :: 0 <= k < |r| ==> r[k].head < |a| && r[k] == EdgeOf(a, r[k].head) && IsInternal(a, r[k].head)
                                         && !(excludeSeedEdge && r[k].head == Seed)
    ensures forall x: nat :: x < |a| && IsInternal(a, x) && !(excludeSeedEdge && x == Seed) ==> EdgeOf(a, x) in r
  {
    var ns := InternalNodes(a, excludeSeedEdge);
    var r := EdgesOf(a, ns);
    assert Heads(r) == ns;
    forall x: nat | x < |a| && IsInternal(a, x) && !(excludeSeedEdge && x == Seed) ensures EdgeOf(a, x) in r {
      var k :| 0 <= k < |ns| && ns[k] == x;
      assert r[k] == EdgeOf(a, x);
    }
    r
  }

  /** `edges()` has one edge per node, the seed's edge included. */
  lemma EdgesOnePerNode(a: Arena)
    requires WellFormed(a)
    ensures |Edges(a, AllEdges)| == |a|
    ensures EdgeOf(a, Seed) in Edges(a, AllEdges)
    ensures Heads(Edges(a, AllEdges)) == Nodes(a, All)
  {
    NodeCount(a);
    var ns := Nodes(a, EdgeFilter(a, AllEdges));
    FilterKeepsAll(Preorder(a), EdgeFilter(a, AllEdges));
    FilterKeepsAll(Preorder(a), All);
    assert Heads(Edges(a, AllEdges)) == ns;
  }

  // ---------------------------------------------------------------------------------------
  // The edge iterators: the incoming edge of each node of the matching node order whose edge
  // passes `g`

  /** The incoming edges of `ns`, given as a sequence of edges that `Heads` maps back to `ns`. */
  predicate EdgesOver(a: Arena, r: seq<Edge>, ns: seq<nat>)
    requires WellFormed(a)
  {
    Heads(r) == ns && forall k :: 0 <= k < |r| ==> r[k].head < |a| && r[k] == EdgeOf(a, r[k].head)
  }

  /** `preorder_edge_iter(filter_fn)`. */
  function PreorderEdgeIter(a: Arena, g: Edge -> bool): (r: seq<Edge>)
    requires WellFormed(a)
    ensures EdgesOver(a, r, Filter(Preorder(a), EdgeFilter(a, g)))
  {
    EdgesOf(a, PreorderNodeIter(a, EdgeFilter(a, g)))
  }

  /** `postorder_edge_iter(filter_fn)`. */
  function PostorderEdgeIter(a: Arena, g: Edge -> bool): (r: seq<Edge>)
    requires WellFormed(a)
    ensures EdgesOver(a, r, Filter(Postorder(a), EdgeFilter(a, g)))
  {
    EdgesOf(a, PostorderNodeIter(a, EdgeFilter(a, g)))
  }

  /** `inorder_edge_iter(filter_fn)`. */
  function InorderEdgeIter(a: Arena, g: Edge -> bool): (r: seq<Edge>)
    requires WellFormed(a)
    ensures EdgesOver(a, r, Filter(Inorder(a), EdgeFilter(a, g)))
  {
    EdgesOf(a, InorderNodeIter(a, EdgeFilter(a, g)))
  }

  /** `leaf_edge_iter(filter_fn)`: the incoming edges of the leaves. */
  function LeafEdgeIter(a: Arena, g: Edge -> bool): (r: seq<Edge>)
    requires WellFormed(a)
    ensures EdgesOver(a, r, Filter(Preorder(a), LeafFilter(a, EdgeFilter(a, g))))
  {
    EdgesOf(a, LeafNodeIter(a, EdgeFilter(a, g)))
  }

  /** `preorder_internal_edge_iter(exclude_seed_edge, filter_fn)`. */
  function PreorderInternalEdgeIter(a: Arena, excludeSeedEdge: bool, g: Edge -> bool): (r: seq<Edge>)
    requires WellFormed(a)
    ensures EdgesOver(a, r, Filter(Preorder(a), InternalFilter(a, excludeSeedEdge, EdgeFilter(a, g))))
  {
    EdgesOf(a, PreorderInternalNodeIter(a, excludeSeedEdge, EdgeFilter(a, g)))
  }

  /** `postorder_internal_edge_iter(exclude_seed_edge, filter_fn)`. */
  function PostorderInternalEdgeIter(a: Arena, excludeSeedEdge: bool, g: Edge -> bool): (r: seq<Edge>)
    requires WellFormed(a)
    ensures EdgesOver(a, r, Filter(Postorder(a), InternalFilter(a, excludeSeedEdge, EdgeFilter(a, g))))
  {
    EdgesOf(a, PostorderInternalNodeIter(a, excludeSeedEdge, EdgeFilter(a, g)))
  }

  /** Unfiltered, the pre-order edge iterator starts with the seed's edge, which has no tail. */
  lemma PreorderEdgesStartAtSeed(a: Arena)
    requires WellFormed(a)
    ensures |PreorderEdgeIter(a, AllEdges)| == |a|
    ensures PreorderEdgeIter(a, AllEdges)[0] == EdgeOf(a, Seed)
    ensures PreorderEdgeIter(a, AllEdges)[0].tail.None?
  {
    VisitsEveryNodeOnce(a, Pre);
    FilterKeepsAll(Preorder(a), EdgeFilter(a, AllEdges));
    assert ChildrenLinked(a, Seed);
    assert Preorder(a)[0] == Seed;
  }

  // ---------------------------------------------------------------------------------------
  // Children, ancestors and node finders

  /** `child_iter(filter_fn)`: the children of `i` that pass `f`, in stored order. */
  function ChildIter(a: Arena, i: nat, f: nat -> bool): (r: seq<nat>)
    requires WellFormed(a) && i < |a|
    ensures r == Filter(a[i].children, f)
    ensures Distinct(r)
    ensures forall k :: 0 <= k < |r| ==> r[k] < |a| && a[r[k]].parent == Some(i) && f(r[k])
    ensures forall c :: c in a[i].children && f(c) ==> c in r
  {
    assert ChildrenLinked(a, i);
    FilterDistinct(a[i].children, f);
    FilterMembers(a[i].children, f);
    FilterBasics(a[i].children, f);
    Filter(a[i].children, f)
  }

  /** The chain of parents of `i`, nearest first, ending at the seed; empty for the seed. */
  function AncestorChain(a: Arena, i: nat): (r: seq<nat>)
    requires WellFormed(a) && i < |a|
    ensures (r == []) == (i == Seed)
    ensures r != [] ==> a[i].parent == Some(r[0]) && r[|r| - 1] == Seed
    ensures forall k :: 0 <= k < |r| ==> r[k] < i
    ensures forall k :: 0 <= k < |r| - 1 ==> a[r[k]].parent == Some(r[k + 1])
    decreases i
  {
    if i == Seed then []
    else
      assert ParentLinked(a, i);
      [a[i].parent.value] + AncestorChain(a, a[i].parent.value)
  }

  /** The ancestors of `i` are exactly the nodes it properly descends from. */
  lemma {:induction false} AncestorsAreWhatItDescendsFrom(a: Arena, i: nat, x: nat)
    requires WellFormed(a) && i < |a|
    ensures x in AncestorChain(a, i) <==> x != i && Descends(a, i, x)
    decreases i
  {
    if i != Seed {
      assert ParentLinked(a, i);
      var p := a[i].parent.value;
      AncestorsAreWhatItDescendsFrom(a, p, x);
      if x in AncestorChain(a, p) || (x != p && x != i && Descends(a, i, x)) {
        DescendsAtLeast(a, p, x);
      }
    }
  }

  /**
   * `ancestor_iter(inclusive, filter_fn)`: the node itself when `inclusive`, then its parent
   * chain nearest first, keeping what passes `f`.
   */
  function AncestorIter(a: Arena, i: nat, inclusive: bool, f: nat -> bool): (r: seq<nat>)
    requires WellFormed(a) && i < |a|
    ensures r == Filter((if inclusive then [i] else []) + AncestorChain(a, i), f)
    decreases i
  {
    var prefix := if inclusive then [i] else [];
    var here := if inclusive && f(i) then [i] else [];
    assert Filter(prefix, f) == here;
    if i == Seed then
      assert prefix + AncestorChain(a, i) == prefix;
      here
    else
      assert ParentLinked(a, i);
      var p := a[i].parent.value;
      assert AncestorChain(a, i) == [p] + AncestorChain(a, p);
      FilterConcat(prefix, AncestorChain(a, i), f);
      here + AncestorIter(a, p, true, f)
  }

  /**
   * `find_node(filter_fn)`: the first node in pre-order that satisfies `f`, or none when no node
   * does.
   */
  function FindNode(a: Arena, f: nat -> bool): (r: Option<nat>)
    requires WellFormed(a)
    ensures r.None? <==> forall x: nat :: x < |a| ==> !f(x)
    ensures r.Some? ==> r.value < |a| && f(r.value)
    ensures r.Some? ==> exists k :: 0 <= k < |Preorder(a)| && Preorder(a)[k] == r.value
                                   && forall j :: 0 <= j < k ==> !f(Preorder(a)[j])
  {
    var found := PreorderNodeIter(a, f);
    VisitsEveryNodeOnce(a, Pre);
    FilterMembers(Preorder(a), f);
    FilterBasics(Preorder(a), f);
    if found == [] then
      None
    else
      FilterFirst(Preorder(a), f);
      Some(found[0])
  }

  /** `find_node_with_label(label)`: the first node in pre-order carrying the label, if any. */
  function FindNodeWithLabel(a: Arena, name: string): (r: Option<nat>)
    requires WellFormed(a)
    ensures r.None? <==> forall x: nat :: x < |a| ==> a[x].name != Some(name)
    ensures r.Some? ==> r.value < |a| && a[r.value].name == Some(name)
    ensures r.Some? ==> exists k :: 0 <= k < |Preorder(a)| && Preorder(a)[k] == r.value
                                   && forall j :: 0 <= j < k ==> a[Preorder(a)[j]].name != Some(name)
  {
    var labelled := (n: nat) => n < |a| && a[n].name == Some(name);
    var r := FindNode(a, labelled);
    assert forall x: nat :: labelled(x) <==> x < |a| && a[x].name == Some(name);
    r
  }

  // ---------------------------------------------------------------------------------------
  // Level order

  /** The children of the nodes of `fr`, node by node in child order: the next level down. */
  function Kids(a: Arena, fr: seq<nat>): (r: seq<nat>)
    requires WellFormed(a) && AllIn(a, fr)
    ensures AllIn(a, r)
  {
    if fr == [] then []
    else
      assert ChildrenLinked(a, fr[0]);
      a[fr[0]].children + Kids(a, fr[1..])
  }

  lemma {:induction false} KidsConcat(a: Arena, s: seq<nat>, t: seq<nat>)
    requires WellFormed(a) && AllIn(a, s) && AllIn(a, t)
    ensures AllIn(a, s + t) && Kids(a, s + t) == Kids(a, s) + Kids(a, t)
  {
    if s == [] {
      assert s + t == t;
    } else {
      var h := a[s[0]].children;
      assert AllIn(a, s + t);
      assert (s + t)[0] == s[0] && (s + t)[1..] == s[1..] + t;
      KidsConcat(a, s[1..], t);
      assert Kids(a, s + t) == h + (Kids(a, s[1..]) + Kids(a, t));
      assert h + (Kids(a, s[1..]) + Kids(a, t)) == (h + Kids(a, s[1..])) + Kids(a, t);
    }
  }

  /** Every child lies after its parent, so the next level lies after the lowest node of this one. */
  lemma {:induction false} KidsAbove(a: Arena, fr: seq<nat>, lo: nat)
    requires WellFormed(a) && AllIn(a, fr)
    requires forall k :: 0 <= k < |fr| ==> lo <= fr[k]
    ensures forall k :: 0 <= k < |Kids(a, fr)| ==> lo < Kids(a, fr)[k]
  {
    if fr != [] {
      assert ChildrenLinked(a, fr[0]);
      KidsAbove(a, fr[1..], lo);
    }
  }

  /** The smallest handle in a non-empty frontier. */
  function Least(fr: seq<nat>): (m: nat)
    requires fr != []
    ensures m in fr && forall k :: 0 <= k < |fr| ==> m <= fr[k]
  {
    if |fr| == 1 then fr[0]
    else
      var m := Least(fr[1..]);
      if fr[0] <= m then fr[0] else m
  }

  /** The frontier `fr`, then the level below it, and so on until a level is empty. */
  function Levels(a: Arena, fr: seq<nat>): (r: seq<nat>)
    requires WellFormed(a) && AllIn(a, fr)
    ensures AllIn(a, r)
    decreases if fr == [] then 0 else |a| - Least(fr)
  {
    if fr == [] then []
    else
      KidsAbove(a, fr, Least(fr));
      var next := Kids(a, fr);
      assert next != [] ==> Least(next) > Least(fr);
      fr + Levels(a, next)
  }

  /** The level-order (breadth-first, child order within a level) sequence of all nodes. */
  function Levelorder(a: Arena): seq<nat>
    requires WellFormed(a)
  {
    Levels(a, [Seed])
  }

  /** The pre-order traversals of the subtrees `fr`, one after another. */
  function Forest(a: Arena, fr: seq<nat>): seq<nat>
    requires WellFormed(a) && AllIn(a, fr)
  {
    if fr == [] then [] else Visit(a, fr[0], Pre, All) + Forest(a, fr[1..])
  }

  lemma {:induction false} ForestConcat(a: Arena, s: seq<nat>, t: seq<nat>)
    requires WellFormed(a) && AllIn(a, s) && AllIn(a, t)
    ensures AllIn(a, s + t) && Forest(a, s + t) == Forest(a, s) + Forest(a, t)
  {
    if s == [] {
      assert s + t == t;
    } else {
      assert (s + t)[0] == s[0] && (s + t)[1..] == s[1..] + t;
      ForestConcat(a, s[1..], t);
      var h := Visit(a, s[0], Pre, All);
      assert Forest(a, s + t) == h + (Forest(a, s[1..]) + Forest(a, t));
      assert h + (Forest(a, s[1..]) + Forest(a, t)) == (h + Forest(a, s[1..])) + Forest(a, t);
    }
  }

  lemma {:induction false} ForestOfChildren(a: Arena, lo: nat, cs: seq<nat>)
    requires WellFormed(a) && After(a, lo, cs)
    ensures AllIn(a, cs) && Forest(a, cs) == VisitAll(a, lo, cs, Pre, All)
  {
    if cs != [] {
      ForestOfChildren(a, lo, cs[1..]);
    }
  }

  /** Taking a frontier's subtrees apart: the frontier itself, and the subtrees of the next level. */
  lemma {:induction false} ForestSplit(a: Arena, fr: seq<nat>)
    requires WellFormed(a) && AllIn(a, fr)
    ensures multiset(Forest(a, fr)) == multiset(fr) + multiset(Forest(a, Kids(a, fr)))
  {
    if fr != [] {
      var x, rest := fr[0], fr[1..];
      MultisetCons(fr);
      ForestSplit(a, rest);
      ForestHead(a, fr);
      KidsHead(a, fr);
      Regroup(multiset(Forest(a, fr)), multiset(fr), multiset(Forest(a, Kids(a, fr))), multiset{fr[0]},
        multiset(fr[1..]), multiset(Forest(a, a[fr[0]].children)), multiset(Forest(a, fr[1..])), multiset(Forest(a, Kids(a, fr[1..]))));
    }
  }

  lemma MultisetCons(s: seq<nat>)
    requires s != []
    ensures multiset(s) == multiset{s[0]} + multiset(s[1..])
  {
    assert s == [s[0]] + s[1..];
  }

  /** The bookkeeping of `ForestSplit`'s step, on multisets alone. */
  lemma Regroup(whole: multiset<nat>, nodes: multiset<nat>, next: multiset<nat>, x: multiset<nat>,
                rest: multiset<nat>, below: multiset<nat>, restWhole: multiset<nat>, restNext: multiset<nat>)
    requires whole == x + below + restWhole && restWhole == rest + restNext
    requires next == below + restNext && nodes == x + rest
    ensures whole == nodes + next
  {
  }

  /** The subtrees of a frontier: its first node, that node's children's subtrees, and the rest. */
  lemma ForestHead(a: Arena, fr: seq<nat>)
    requires WellFormed(a) && AllIn(a, fr) && fr != []
    ensures AllIn(a, a[fr[0]].children)
    ensures multiset(Forest(a, fr)) == multiset{fr[0]} + multiset(Forest(a, a[fr[0]].children)) + multiset(Forest(a, fr[1..]))
  {
    var x := fr[0];
    assert ChildrenLinked(a, x);
    var v := Visit(a, x, Pre, All);
    assert All(x);
    ForestOfChildren(a, x, a[x].children);
    assert v == [x] + Forest(a, a[x].children);
    assert Forest(a, fr) == v + Forest(a, fr[1..]);
  }

  /** The subtrees of a frontier's next level: those of its first node's children, then the rest's. */
  lemma KidsHead(a: Arena, fr: seq<nat>)
    requires WellFormed(a) && AllIn(a, fr) && fr != []
    ensures AllIn(a, a[fr[0]].children)
    ensures multiset(Forest(a, Kids(a, fr))) == multiset(Forest(a, a[fr[0]].children)) + multiset(Forest(a, Kids(a, fr[1..])))
  {
    assert ChildrenLinked(a, fr[0]);
    assert Kids(a, fr) == a[fr[0]].children + Kids(a, fr[1..]);
    ForestConcat(a, a[fr[0]].children, Kids(a, fr[1..]));
  }

  /** The levels below a frontier rearrange the pre-order traversals of its subtrees. */
  lemma {:induction false} LevelsRearrangeForest(a: Arena, fr: seq<nat>)
    requires WellFormed(a) && AllIn(a, fr)
    ensures multiset(Levels(a, fr)) == multiset(Forest(a, fr))
    decreases if fr == [] then 0 else |a| - Least(fr)
  {
    if fr != [] {
      KidsAbove(a, fr, Least(fr));
      LevelsRearrangeForest(a, Kids(a, fr));
      ForestSplit(a, fr);
    }
  }

  /** Level order is a rearrangement of pre-order, so it too yields every node exactly once. */
  lemma LevelorderRearrangesPreorder(a: Arena)
    requires WellFormed(a)
    ensures multiset(Levelorder(a)) == multiset(Preorder(a))
  {
    LevelsRearrangeForest(a, [Seed]);
    assert Forest(a, [Seed]) == Preorder(a) + Forest(a, []);
  }

  lemma LevelsUnfold(a: Arena, fr: seq<nat>)
    requires WellFormed(a) && AllIn(a, fr) && fr != []
    ensures Levels(a, fr) == fr + Levels(a, Kids(a, fr))
  {
  }

  /** Popping the front of the queue and appending its children keeps the queue in shape. */
  lemma QueueStep(a: Arena, level: seq<nat>, k: nat)
    requires WellFormed(a) && AllIn(a, level) && k < |level|
    ensures AllIn(a, level[..k]) && AllIn(a, level[..k + 1])
    ensures (level[k..] + Kids(a, level[..k]))[1..] + a[level[k]].children
         == level[k + 1..] + Kids(a, level[..k + 1])
  {
    var x, done, rest := level[k], level[..k], level[k + 1..];
    assert level[..k + 1] == done + [x];
    assert level[k..] == [x] + rest;
    KidsConcat(a, done, [x]);
    assert Kids(a, [x]) == a[x].children + Kids(a, []);
    PopPush(x, rest, Kids(a, done), a[x].children);
  }

  /** Dropping the front of a queue and appending at its back, as sequence algebra. */
  lemma PopPush<T>(x: T, rest: seq<T>, q: seq<T>, ch: seq<T>)
    ensures ([x] + rest + q)[1..] + ch == rest + (q + ch)
  {
    assert ([x] + rest + q)[1..] == rest + q;
  }

  /** What breadth-first search still has to yield: the rest of `level`, then the levels below it. */
  function Pending(a: Arena, level: seq<nat>, k: nat): seq<nat>
    requires WellFormed(a) && AllIn(a, level) && k <= |level|
  {
    level[k..] + Levels(a, Kids(a, level))
  }

  /**
   * When the current level is used up while the queue is not empty, the queue holds exactly the
   * next level, and moving on to it changes neither the queue nor what is left to yield.
   */
  lemma NextLevel(a: Arena, level: seq<nat>, k: nat) returns (level': seq<nat>, k': nat)
    requires WellFormed(a) && AllIn(a, level) && k <= |level|
    requires level[k..] + Kids(a, level[..k]) != []
    ensures AllIn(a, level') && k' < |level'|
    ensures level'[k'..] + Kids(a, level'[..k']) == level[k..] + Kids(a, level[..k])
    ensures Pending(a, level', k') == Pending(a, level, k)
  {
    if k < |level| {
      level', k' := level, k;
    } else {
      assert level[..k] == level && level[k..] == [];
      level', k' := Kids(a, level), 0;
      assert level'[..0] == [] && level'[0..] == level';
      LevelsUnfold(a, level');
    }
  }

  /** Popping the front of the current level. */
  lemma PopPending(a: Arena, level: seq<nat>, k: nat)
    requires WellFormed(a) && AllIn(a, level) && k < |level|
    ensures Pending(a, level, k) == [level[k]] + Pending(a, level, k + 1)
  {
    assert level[k..] == [level[k]] + level[k + 1..];
  }

  /** An empty queue means nothing is left to yield. */
  lemma NothingPending(a: Arena, level: seq<nat>, k: nat)
    requires WellFormed(a) && AllIn(a, level) && k <= |level|
    requires level[k..] + Kids(a, level[..k]) == []
    ensures Pending(a, level, k) == []
  {
    assert |level[k..]| == 0 && level[..k] == level;
  }

  /**
   * The breadth-first search invariant: the queue is the rest of the current level followed by
   * the children of its popped part, and the popped nodes followed by what is pending make up
   * the level order.
   */
  predicate Searching(a: Arena, queue: seq<nat>, level: seq<nat>, k: nat, done: seq<nat>)
    requires WellFormed(a)
  {
    AllIn(a, level) && k <= |level| && AllIn(a, level[..k])
    && queue == level[k..] + Kids(a, level[..k])
    && Levelorder(a) == done + Pending(a, level, k)
  }

  /** The search starts from the seed alone, with nothing popped. */
  lemma SearchStart(a: Arena)
    requires WellFormed(a)
    ensures Searching(a, [Seed], [Seed], 0, [])
  {
    LevelsUnfold(a, [Seed]);
    assert [Seed][..0] == [] && [Seed][0..] == [Seed];
    assert Pending(a, [Seed], 0) == [Seed] + Levels(a, Kids(a, [Seed]));
  }

  /** An empty queue: every node has been popped, in level order. */
  lemma SearchEnd(a: Arena, level: seq<nat>, k: nat, done: seq<nat>)
    requires WellFormed(a) && Searching(a, [], level, k, done)
    ensures Levelorder(a) == done
  {
    NothingPending(a, level, k);
    assert done + [] == done;
  }

  /** One step of the search: pop the front node and append its children. */
  lemma SearchStep(a: Arena, queue: seq<nat>, level: seq<nat>, k: nat, done: seq<nat>)
    returns (level': seq<nat>, k': nat)
    requires WellFormed(a) && Searching(a, queue, level, k, done) && queue != []
    ensures queue[0] < |a|
    ensures Searching(a, queue[1..] + a[queue[0]].children, level', k', done + [queue[0]])
    ensures |Pending(a, level', k')| < |Pending(a, level, k)|
  {
    var l, j := NextLevel(a, level, k);
    QueueStep(a, l, j);
    PopPending(a, l, j);
    level', k' := l, j + 1;
  }

  /**
   * `levelorder_node_iter(filter_fn)`: breadth-first with a queue, as the source's generator
   * does: pop the front node, yield it if it passes `f`, append its children to the queue.
   */
  method LevelorderNodeIter(a: Arena, f: nat -> bool) returns (r: seq<nat>)
    requires WellFormed(a)
    ensures r == Filter(Levelorder(a), f)
  {
    var queue: seq<nat> := [Seed];
    r := [];
    // The level being popped, how much of it has been popped, and every node popped so far.
    ghost var level: seq<nat> := [Seed];
    ghost var k: nat := 0;
    ghost var done: seq<nat> := [];
    SearchStart(a);
    while queue != []
      invariant Searching(a, queue, level, k, done)
      invariant r == Filter(done, f)
      decreases |Pending(a, level, k)|
    {
      var n := queue[0];
      level, k := SearchStep(a, queue, level, k, done);
      queue := queue[1..] + a[n].children;
      FilterSnoc(done, n, f);
      done := done + [n];
      if f(n) {
        r := r + [n];
      }
    }
    SearchEnd(a, level, k, done);
  }

  /** `levelorder_edge_iter(filter_fn)`. */
  method LevelorderEdgeIter(a: Arena, g: Edge -> bool) returns (r: seq<Edge>)
    requires WellFormed(a)
    ensures EdgesOver(a, r, Filter(Levelorder(a), EdgeFilter(a, g)))
  {
    var ns := LevelorderNodeIter(a, EdgeFilter(a, g));
    FilterBasics(Levelorder(a), EdgeFilter(a, g));
    r := EdgesOf(a, ns);
  }
}
