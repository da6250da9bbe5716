/**
 * The tree's node graph as an arena: a node is named by its handle, its index in the arena.
 * Each record holds the node's own data, the data of its incoming edge (its length; the
 * edge's head is the node, its tail the parent), the parent handle and the ordered child
 * handles. Handle 0 is the seed node.
 */
module Arenas {
  import opened Wrappers
  import opened Json
  import opened Phylo
  import opened Seqs

  datatype NodeRecord = NodeRecord(
    name: Option<string>,
    edgeLength: Option<real>,
    taxon: Option<Taxon>,
    annotations: Annotations,
    parent: Option<nat>,
    children: seq<nat>,
    age: Option<real>)

  type Arena = seq<NodeRecord>

  /** The handle of the seed node. */
  const Seed: nat := 0

  /** Every handle in `ns` names a node of `a`. */
  predicate AllIn(a: Arena, ns: seq<nat>) {
    forall k :: 0 <= k < |ns| ==> ns[k] < |a|
  }

  /** Node `i` (not the seed) has an earlier parent that lists it among its children. */
  predicate ParentLinked(a: Arena, i: nat)
    requires i < |a|
  {
    a[i].parent.Some? && a[i].parent.value < i && i in a[a[i].parent.value].children
  }

  /** Every child of `i` comes after it and names `i` as its parent; none is listed twice. */
  predicate ChildrenLinked(a: Arena, i: nat)
    requires i < |a|
  {
    && (forall k :: 0 <= k < |a[i].children| ==>
          i < a[i].children[k] < |a| && a[a[i].children[k]].parent == Some(i))
    && Distinct(a[i].children)
  }

  /**
   * The invariants of the node graph: the seed is the only node without a parent; every
   * other node's parent comes before it and lists it among its children; every child names
   * its parent (so `child.parent_node` and `child.edge.tail_node` are the owning node); no
   * child is listed twice.
   */
  predicate WellFormed(a: Arena) {
    && |a| > 0
    && a[Seed].parent.None?
    && (forall i :: 0 < i < |a| ==> ParentLinked(a, i))
    && (forall i :: 0 <= i < |a| ==> ChildrenLinked(a, i))
  }

  /** A record for a node that has just been created, with no parent and no children. */
  function FreshRecord(name: Option<string>, edgeLength: Option<real>, taxon: Option<Taxon>): NodeRecord {
    NodeRecord(name, edgeLength, taxon, map[], None, [], None)
  }

  predicate IsLeaf(a: Arena, i: nat)
    requires i < |a|
  {
    a[i].children == []
  }

  predicate IsInternal(a: Arena, i: nat)
    requires i < |a|
  {
    a[i].children != []
  }

  /**
   * `new_child`: the arena after creating a node with the given label, edge length and taxon
   * and appending it as the last child of `p`.
   */
  function WithNewChild(a: Arena, p: nat, name: Option<string>, edgeLength: Option<real>, taxon: Option<Taxon>): (r: Arena)
    requires WellFormed(a) && p < |a|
    ensures WellFormed(r)
    ensures |r| == |a| + 1
    ensures r[|a|] == FreshRecord(name, edgeLength, taxon).(parent := Some(p))
    ensures r[p] == a[p].(children := a[p].children + [|a|])
    ensures forall i :: 0 <= i < |a| && i != p ==> r[i] == a[i]
  {
    var c := |a|;
    var r := a[p := a[p].(children := a[p].children + [c])] + [FreshRecord(name, edgeLength, taxon).(parent := Some(p))];
    forall i | 0 < i < |r| ensures ParentLinked(r, i) {
      if i < c {
        assert ParentLinked(a, i);
        var q := a[i].parent.value;
        assert r[q].children == a[q].children || r[q].children == a[q].children + [c];
      }
    }
    forall i | 0 <= i < |r| ensures ChildrenLinked(r, i) {
      if i < c {
        assert ChildrenLinked(a, i);
        if i == p {
          assert r[i].children == a[i].children + [c];
        }
      }
    }
    r
  }

  /** Two arenas with the same parent and child handles everywhere. */
  predicate SameShape(a: Arena, r: Arena) {
    |a| == |r| && forall i :: 0 <= i < |a| ==> a[i].parent == r[i].parent && a[i].children == r[i].children
  }

  /** Changing only a node's own data (label, edge length, taxon, age) keeps the graph well formed. */
  lemma SameShapeWellFormed(a: Arena, r: Arena)
    requires WellFormed(a) && SameShape(a, r)
    ensures WellFormed(r)
  {
    forall i | 0 < i < |r| ensures ParentLinked(r, i) {
      assert ParentLinked(a, i);
    }
    forall i | 0 <= i < |r| ensures ChildrenLinked(r, i) {
      assert ChildrenLinked(a, i);
    }
  }

  /** Assigning a node's label (`node.label = ...`). */
  function WithName(a: Arena, i: nat, name: Option<string>): (r: Arena)
    requires WellFormed(a) && i < |a|
    ensures WellFormed(r) && |r| == |a|
    ensures r[i].name == name
    ensures forall j :: 0 <= j < |a| ==> r[j] == if j == i then a[j].(name := name) else a[j]
  {
    var r := a[i := a[i].(name := name)];
    SameShapeWellFormed(a, r);
    r
  }

  /** Assigning the length of a node's incoming edge (`node.edge.length = ...`). */
  function WithEdgeLength(a: Arena, i: nat, edgeLength: Option<real>): (r: Arena)
    requires WellFormed(a) && i < |a|
    ensures WellFormed(r) && |r| == |a|
    ensures r[i].edgeLength == edgeLength
    ensures forall j :: 0 <= j < |a| ==> r[j] == if j == i then a[j].(edgeLength := edgeLength) else a[j]
  {
    var r := a[i := a[i].(edgeLength := edgeLength)];
    SameShapeWellFormed(a, r);
    r
  }

  /** A node's incoming edge: its head is the node, its tail the parent (none for the seed). */
  datatype Edge = Edge(head: nat, tail: Option<nat>, length: Option<real>)

  function EdgeOf(a: Arena, i: nat): (e: Edge)
    requires WellFormed(a) && i < |a|
    ensures e.head == i && e.length == a[i].edgeLength
    ensures e.tail == a[i].parent
    ensures e.tail.None? <==> i == Seed
  {
    assert i != Seed ==> ParentLinked(a, i);
    Edge(i, a[i].parent, a[i].edgeLength)
  }

  /** The edges of the nodes `ns`, in the same order. */
  function EdgesOf(a: Arena, ns: seq<nat>): (es: seq<Edge>)
    requires WellFormed(a) && AllIn(a, ns)
    ensures |es| == |ns|
    ensures forall k :: 0 <= k < |ns| ==> es[k] == EdgeOf(a, ns[k])
  {
    if ns == [] then [] else [EdgeOf(a, ns[0])] + EdgesOf(a, ns[1..])
  }

  /** The head nodes of a sequence of edges. */
  function Heads(es: seq<Edge>): (ns: seq<nat>)
    ensures |ns| == |es|
    ensures forall k :: 0 <= k < |es| ==> ns[k] == es[k].head
  {
    if es == [] then [] else [es[0].head] + Heads(es[1..])
  }
}
