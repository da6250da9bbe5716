/**
 * A tree object: its label, weight and annotations, and its node graph as an arena whose
 * seed node is created with the tree. Nodes are added with `NewChild`; their own data is
 * assigned in place; `CalcNodeAges` stores every node's age in the node.
 */
module TreeModel {
  import opened Wrappers
  import opened Json
  import opened Phylo
  import opened Seqs
  import opened Arenas
  import opened Traversal
  import opened NodeAges

  class Tree {
    var nodes: Arena
    var name: Option<string>
    var weight: Option<real>
    var annotations: Annotations

    predicate Valid()
      reads this
    {
      WellFormed(nodes)
    }

    /** `Tree()`: an unlabelled tree holding only its seed node. */
    constructor ()
      ensures Valid()
      ensures nodes == [FreshRecord(None, None, None)]
      ensures name.None? && weight.None? && annotations == map[]
    {
      nodes := [FreshRecord(None, None, None)];
      name := None;
      weight := None;
      annotations := map[];
    }

    /**
     * `node.new_child(label=..., edge_length=..., taxon=...)`: creates a node and appends it
     * as the last child of `p`; the new node's parent (its edge's tail) is `p`.
     */
    method NewChild(p: nat, childName: Option<string>, edgeLength: Option<real>, taxon: Option<Taxon>) returns (c: nat)
      requires Valid() && p < |nodes|
      modifies this
      ensures Valid()
      ensures c == |old(nodes)| && c < |nodes|
      ensures nodes == WithNewChild(old(nodes), p, childName, edgeLength, taxon)
      ensures name == old(name) && weight == old(weight) && annotations == old(annotations)
    {
      c := |nodes|;
      nodes := WithNewChild(nodes, p, childName, edgeLength, taxon);
    }

    /** `node.label = ...` */
    method SetLabel(i: nat, nodeName: Option<string>)
      requires Valid() && i < |nodes|
      modifies this
      ensures Valid()
      ensures nodes == WithName(old(nodes), i, nodeName)
      ensures name == old(name) && weight == old(weight) && annotations == old(annotations)
    {
      nodes := WithName(nodes, i, nodeName);
    }

    /** `node.edge.length = ...` */
    method SetEdgeLength(i: nat, edgeLength: Option<real>)
      requires Valid() && i < |nodes|
      modifies this
      ensures Valid()
      ensures nodes == WithEdgeLength(old(nodes), i, edgeLength)
      ensures name == old(name) && weight == old(weight) && annotations == old(annotations)
    {
      nodes := WithEdgeLength(nodes, i, edgeLength);
    }

    /**
     * `calc_node_ages()`: stores every node's age. Each node is visited after all of its
     * children (handles in decreasing order; a child's handle is larger than its parent's).
     * Returns false, with `MissingEdgeLengthError` standing for the exception, when an edge
     * without a length is met; only ages have then been written.
     */
    method CalcNodeAges() returns (ok: bool)
      requires Valid()
      modifies this
      ensures Valid() && SameShape(old(nodes), nodes)
      ensures forall j :: 0 <= j < |nodes| ==> nodes[j] == old(nodes)[j].(age := nodes[j].age)
      ensures ok <==> Age(old(nodes), Seed).Ok?
      ensures ok ==> forall j :: 0 <= j < |nodes| ==> Age(old(nodes), j).Ok? && nodes[j].age == Some(Age(old(nodes), j).value)
      ensures name == old(name) && weight == old(weight) && annotations == old(annotations)
    {
      ghost var a0 := nodes;
      var i: nat := |nodes|;
      while i > 0
        invariant WellFormed(a0) && i <= |a0| && Swept(a0, nodes, i)
        invariant name == old(name) && weight == old(weight) && annotations == old(annotations)
        decreases i
      {
        i := i - 1;
        var found, v := ChildrenMax(a0, i);
        if !found {
          SweptShape(a0, nodes, i + 1);
          return false;
        }
        SweptStep(a0, nodes, i, v);
        nodes := nodes[i := nodes[i].(age := Some(v))];
      }
      SweptShape(a0, nodes, 0);
      ok := true;
    }

    /**
     * The age of node `i` from the ages already stored in its children: the largest child
     * age plus child edge length, or 0 for a leaf. False when a child has no edge length.
     */
    method ChildrenMax(ghost a0: Arena, i: nat) returns (found: bool, v: real)
      requires WellFormed(a0) && i < |a0| && Swept(a0, nodes, i + 1)
      ensures found ==> Age(a0, i) == Ok(v)
      ensures !found ==> Age(a0, Seed).Err?
    {
      assert ChildrenLinked(a0, i);
      var cs := nodes[i].children;
      v := 0.0;
      var k := 0;
      while k < |cs|
        invariant 0 <= k <= |cs| && cs == a0[i].children
        invariant forall m :: 0 <= m < k ==> Through(a0, cs[m]).Ok? && Through(a0, cs[m]).value <= v
        invariant k > 0 ==> exists m :: 0 <= m < k && Through(a0, cs[m]).value == v
        invariant cs == [] ==> v == 0.0
      {
        var c := cs[k];
        assert i < c < |a0| && nodes[c] == a0[c].(age := Some(Age(a0, c).value));
        if nodes[c].edgeLength.None? {
          MissingLengthStops(a0, i, k);
          return false, v;
        }
        var t := nodes[c].age.value + nodes[c].edgeLength.value;
        assert Through(a0, c) == Ok(t);
        if k == 0 || t > v {
          v := t;
        }
        k := k + 1;
      }
      AgeFromChildren(a0, i, v);
      found := true;
    }
  }

  /**
   * The state of the sweep over `a0`: nodes below handle `i` untouched; every node from
   * `i` on has a defined age, stored in it.
   */
  predicate Swept(a0: Arena, a: Arena, i: nat)
    requires WellFormed(a0)
  {
    && |a| == |a0| && i <= |a0|
    && (forall j :: 0 <= j < i ==> a[j] == a0[j])
    && (forall j :: i <= j < |a0| ==> Age(a0, j).Ok? && a[j] == a0[j].(age := Some(Age(a0, j).value)))
  }

  lemma SweptStep(a0: Arena, a: Arena, i: nat, v: real)
    requires WellFormed(a0) && i < |a0| && Swept(a0, a, i + 1) && Age(a0, i) == Ok(v)
    ensures Swept(a0, a[i := a[i].(age := Some(v))], i)
  {
  }

  /** During the sweep only ages change, so the node graph stays well formed. */
  lemma SweptShape(a0: Arena, a: Arena, i: nat)
    requires WellFormed(a0) && Swept(a0, a, i)
    ensures WellFormed(a) && SameShape(a0, a)
    ensures forall j :: 0 <= j < |a| ==> a[j] == a0[j].(age := a[j].age)
  {
    SameShapeWellFormed(a0, a);
  }

  /** A child without an edge length makes the seed's age undefined. */
  lemma MissingLengthStops(a: Arena, i: nat, k: nat)
    requires WellFormed(a) && i < |a| && k < |a[i].children|
    requires a[i].children[k] < |a| && a[a[i].children[k]].edgeLength.None?
    ensures Age(a, Seed).Err?
  {
    assert ChildrenLinked(a, i);
    AgeOfInternal(a, i);
    if Age(a, Seed).Ok? {
      AgeDefinedEverywhere(a, i);
    }
  }

  /** A value that bounds every child's contribution and is attained (0 for a leaf) is the node's age. */
  lemma AgeFromChildren(a: Arena, i: nat, v: real)
    requires WellFormed(a) && i < |a| && AllIn(a, a[i].children)
    requires a[i].children == [] ==> v == 0.0
    requires a[i].children != [] ==> IsMaxOver(a, a[i].children, v)
    ensures Age(a, i) == Ok(v)
  {
    assert ChildrenLinked(a, i);
    if a[i].children != [] {
      MaxOverIsMax(a, i, a[i].children);
      MaxUnique(a, a[i].children, v, MaxOver(a, i, a[i].children).value);
    }
  }

  // ---------------------------------------------------------------------------------------
  // The nested form of an arena tree

  /** The subtree of `i` as a nested node value. */
  function Nested(a: Arena, i: nat): (r: Node)
    requires WellFormed(a) && i < |a|
    ensures r.name == a[i].name && r.edgeLength == a[i].edgeLength && r.taxon == a[i].taxon
    ensures r.annotations == a[i].annotations
    ensures |r.children| == |a[i].children|
    decreases |a| - i, 1
  {
    assert ChildrenLinked(a, i);
    Node(a[i].name, a[i].edgeLength, a[i].taxon, a[i].annotations, NestedAll(a, i, a[i].children))
  }

  function NestedAll(a: Arena, lo: nat, cs: seq<nat>): (r: seq<Node>)
    requires WellFormed(a) && After(a, lo, cs)
    ensures |r| == |cs|
    decreases |a| - lo, 0, |cs|
  {
    if cs == [] then [] else [Nested(a, cs[0])] + NestedAll(a, lo, cs[1..])
  }

  /** The tree as a value: label, weight, annotations and the nested seed node. */
  function Snapshot(a: Arena, name: Option<string>, weight: Option<real>, annotations: Annotations): PhyloTree
    requires WellFormed(a)
  {
    PhyloTree(name, weight, annotations, Nested(a, Seed))
  }

  /** The labels of a nested node's subtree in pre-order. */
  function PreorderNames(n: Node): seq<Option<string>>
  {
    [n.name] + PreorderNamesAll(n.children)
  }

  function PreorderNamesAll(ns: seq<Node>): seq<Option<string>>
  {
    if ns == [] then [] else PreorderNames(ns[0]) + PreorderNamesAll(ns[1..])
  }

  /** The labels of the handles `ns`, in order. */
  function NamesOf(a: Arena, ns: seq<nat>): (r: seq<Option<string>>)
    requires AllIn(a, ns)
    ensures |r| == |ns| && forall k :: 0 <= k < |ns| ==> r[k] == a[ns[k]].name
  {
    if ns == [] then [] else [a[ns[0]].name] + NamesOf(a, ns[1..])
  }

  lemma NamesOfConcat(a: Arena, s: seq<nat>, t: seq<nat>)
    requires AllIn(a, s) && AllIn(a, t)
    ensures AllIn(a, s + t) && NamesOf(a, s + t) == NamesOf(a, s) + NamesOf(a, t)
  {
    assert AllIn(a, s + t);
  }

  /** The nested form keeps the pre-order of the arena: same labels, same order. */
  lemma {:induction false} NestedPreorder(a: Arena, i: nat)
    requires WellFormed(a) && i < |a|
    ensures AllIn(a, Visit(a, i, Pre, All))
    ensures PreorderNames(Nested(a, i)) == NamesOf(a, Visit(a, i, Pre, All))
    decreases |a| - i, 1
  {
    assert ChildrenLinked(a, i);
    var cs := a[i].children;
    NestedAllPreorder(a, i, cs);
    NamesOfConcat(a, [i], VisitAll(a, i, cs, Pre, All));
  }

  lemma {:induction false} NestedAllPreorder(a: Arena, lo: nat, cs: seq<nat>)
    requires WellFormed(a) && After(a, lo, cs)
    ensures AllIn(a, VisitAll(a, lo, cs, Pre, All))
    ensures PreorderNamesAll(NestedAll(a, lo, cs)) == NamesOf(a, VisitAll(a, lo, cs, Pre, All))
    decreases |a| - lo, 0, |cs|
  {
    if cs != [] {
      NestedPreorder(a, cs[0]);
      NestedAllPreorder(a, lo, cs[1..]);
      NamesOfConcat(a, Visit(a, cs[0], Pre, All), VisitAll(a, lo, cs[1..], Pre, All));
    }
  }
}
