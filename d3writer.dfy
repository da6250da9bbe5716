/**
 * The D3 tree writer. Every tree becomes one JSON mapping: the tree's annotations, its label
 * under "name" and the seed node's mapping under "tree". A node's mapping always holds
 * "length", "parent" (the parent's label), "children" and "name"; "annotations" only when
 * annotations are not suppressed. A leaf is shown by its taxon: its "name" and annotations
 * are the taxon's, so a leaf without a taxon cannot be written.
 */
module D3Writer {
  import opened Wrappers
  import opened Json
  import opened Phylo
  import opened Arenas
  import TreeModel

  /** `suppress_annotations` defaults to true. */
  const DefaultSuppressAnnotations := true

  /** `node.taxon.label` on a leaf without a taxon raises `AttributeError`. */
  datatype D3Error = LeafWithoutTaxon

  /** An edge length as JSON: the number, or null when the edge has no length. */
  function LengthJson(l: Option<real>): (j: Json)
    ensures j.JNull? <==> l.None?
    ensures l.Some? ==> j == JNumber(l.value)
  {
    match l
    case None => JNull
    case Some(x) => JNumber(x)
  }

  /** The keys of every node mapping. */
  function D3Keys(suppressAnnotations: bool): set<string> {
    if suppressAnnotations then {"length", "parent", "children", "name"}
    else {"length", "parent", "children", "name", "annotations"}
  }

  /** The object a node is shown by: its taxon for a leaf, the node itself otherwise. */
  function ShownName(n: Node): Option<string>
    requires !n.IsLeaf() || n.taxon.Some?
  {
    if n.IsLeaf() then n.taxon.value.name else n.name
  }

  function ShownAnnotations(n: Node): Annotations
    requires !n.IsLeaf() || n.taxon.Some?
  {
    if n.IsLeaf() then n.taxon.value.annotations else n.annotations
  }

  /**
   * `_add_node_metadata`: the mapping of node `n`, whose parent has label `parent` (`None`
   * for the seed). The children's mappings come first, so an error below `n` is met first.
   */
  function D3Fields(suppressAnnotations: bool, n: Node, parent: Option<string>): (r: Result<map<string, Json>, D3Error>)
    ensures r.Ok? ==> r.value.Keys == D3Keys(suppressAnnotations)
    ensures r.Ok? ==> r.value["children"].JArray? && |r.value["children"].items| == |n.children|
    decreases n, 1
  {
    match D3Children(suppressAnnotations, n, 0)
    case Err(e) => Err(e)
    case Ok(kids) =>
      if n.IsLeaf() && n.taxon.None? then Err(LeafWithoutTaxon)
      else
        var m := map["length" := LengthJson(n.edgeLength), "parent" := LabelJson(parent),
                     "children" := JArray(kids), "name" := LabelJson(ShownName(n))];
        Ok(if suppressAnnotations then m else m["annotations" := JObject(ShownAnnotations(n))])
  }

  /** The mappings of the children of `p` from position `k` on, each naming `p` as its parent. */
  function D3Children(suppressAnnotations: bool, p: Node, k: nat): (r: Result<seq<Json>, D3Error>)
    requires k <= |p.children|
    ensures r.Ok? ==> |r.value| == |p.children| - k
    decreases p, 0, |p.children| - k
  {
    if k == |p.children| then Ok([])
    else
      match D3Fields(suppressAnnotations, p.children[k], p.name)
      case Err(e) => Err(e)
      case Ok(m) => InFront([JObject(m)], D3Children(suppressAnnotations, p, k + 1))
  }

  /** Every leaf in the subtree of `n` has a taxon. */
  predicate LeavesHaveTaxa(n: Node)
    decreases n
  {
    && (n.IsLeaf() ==> n.taxon.Some?)
    && forall k :: 0 <= k < |n.children| ==> LeavesHaveTaxa(n.children[k])
  }

  /** A node can be written exactly when every leaf below it has a taxon. */
  lemma {:induction false} D3Defined(suppressAnnotations: bool, n: Node, parent: Option<string>)
    ensures D3Fields(suppressAnnotations, n, parent).Ok? <==> LeavesHaveTaxa(n)
    decreases n, 1
  {
    D3ChildrenDefined(suppressAnnotations, n, 0);
  }

  lemma {:induction false} D3ChildrenDefined(suppressAnnotations: bool, p: Node, k: nat)
    requires k <= |p.children|
    ensures D3Children(suppressAnnotations, p, k).Ok? <==> forall j :: k <= j < |p.children| ==> LeavesHaveTaxa(p.children[j])
    decreases p, 0, |p.children| - k
  {
    if k < |p.children| {
      D3Defined(suppressAnnotations, p.children[k], p.name);
      D3ChildrenDefined(suppressAnnotations, p, k + 1);
    }
  }

  /** Item `j` of the children's mappings from `k` on is the mapping of child `k + j`. */
  lemma {:induction false} D3ChildrenEntries(suppressAnnotations: bool, p: Node, k: nat, j: nat)
    requires k <= |p.children| && D3Children(suppressAnnotations, p, k).Ok?
    requires j < |p.children| - k
    ensures D3Fields(suppressAnnotations, p.children[k + j], p.name).Ok?
    ensures D3Children(suppressAnnotations, p, k).value[j] == JObject(D3Fields(suppressAnnotations, p.children[k + j], p.name).value)
    decreases |p.children| - k
  {
    if j > 0 {
      D3ChildrenEntries(suppressAnnotations, p, k + 1, j - 1);
    }
  }

  /**
   * The links of the D3 format: every child's mapping names as its "parent" the label under
   * the "name" of its parent's mapping (a node with children is shown by its own label).
   */
  lemma ParentLinks(suppressAnnotations: bool, n: Node, parent: Option<string>, k: nat)
    requires D3Fields(suppressAnnotations, n, parent).Ok?
    requires k < |n.children|
    ensures var m := D3Fields(suppressAnnotations, n, parent).value;
      var child := m["children"].items[k];
      child.JObject? && "parent" in child.fields && child.fields["parent"] == m["name"]
  {
    D3ChildrenEntries(suppressAnnotations, n, 0, k);
  }

  /** A leaf's mapping shows its taxon's label, and the seed's mapping has a null "parent". */
  lemma ShownByTaxon(suppressAnnotations: bool, n: Node, parent: Option<string>)
    requires D3Fields(suppressAnnotations, n, parent).Ok?
    ensures n.IsLeaf() ==> D3Fields(suppressAnnotations, n, parent).value["name"] == LabelJson(n.taxon.value.name)
    ensures !n.IsLeaf() ==> D3Fields(suppressAnnotations, n, parent).value["name"] == LabelJson(n.name)
    ensures parent.None? <==> D3Fields(suppressAnnotations, n, parent).value["parent"] == JNull
    ensures D3Fields(suppressAnnotations, n, parent).value["length"] == LengthJson(n.edgeLength)
    ensures !suppressAnnotations && n.IsLeaf() ==>
      D3Fields(suppressAnnotations, n, parent).value["annotations"] == JObject(n.taxon.value.annotations)
    ensures !suppressAnnotations && !n.IsLeaf() ==>
      D3Fields(suppressAnnotations, n, parent).value["annotations"] == JObject(n.annotations)
  {
  }

  /**
   * `_write_tree`: the tree's annotations, overridden by its label under "name" and by the
   * seed's mapping under "tree". The tree's own annotations are written whatever the flag.
   */
  function D3Tree(suppressAnnotations: bool, t: PhyloTree): Result<map<string, Json>, D3Error> {
    match D3Fields(suppressAnnotations, t.seed, None)
    case Err(e) => Err(e)
    case Ok(data) => Ok(t.annotations["name" := LabelJson(t.name)]["tree" := JObject(data)])
  }

  /**
   * A tree can be written exactly when its leaves have taxa; its document holds its
   * annotations, whatever the flag, except where "name" and "tree" override them.
   */
  lemma D3TreeEntries(suppressAnnotations: bool, t: PhyloTree)
    ensures var r := D3Tree(suppressAnnotations, t);
      && (r.Ok? <==> LeavesHaveTaxa(t.seed))
      && (r.Ok? ==> r.value.Keys == t.annotations.Keys + {"name", "tree"})
      && (r.Ok? ==> r.value["name"] == LabelJson(t.name))
      && (r.Ok? ==> r.value["tree"] == JObject(D3Fields(suppressAnnotations, t.seed, None).value))
      && (r.Ok? ==> forall key :: key in t.annotations && key != "name" && key != "tree" ==> r.value[key] == t.annotations[key])
  {
    D3Defined(suppressAnnotations, t.seed, None);
  }

  /**
   * `_write_tree_list`: the documents of the trees in order, up to the first tree that cannot
   * be written, and that tree's error.
   */
  function D3Docs(suppressAnnotations: bool, ts: seq<PhyloTree>): (r: (seq<Json>, Option<D3Error>))
    ensures |r.0| <= |ts|
  {
    if ts == [] then ([], None)
    else
      match D3Tree(suppressAnnotations, ts[0])
      case Err(e) => ([], Some(e))
      case Ok(m) =>
        var rest := D3Docs(suppressAnnotations, ts[1..]);
        ([JObject(m)] + rest.0, rest.1)
  }

  /** The documents written are those of the first trees, in order, each the document of its tree. */
  lemma {:induction false} D3DocsWritten(suppressAnnotations: bool, ts: seq<PhyloTree>, k: nat)
    requires k < |D3Docs(suppressAnnotations, ts).0|
    ensures D3Tree(suppressAnnotations, ts[k]).Ok?
    ensures D3Docs(suppressAnnotations, ts).0[k] == JObject(D3Tree(suppressAnnotations, ts[k]).value)
  {
    if k > 0 {
      D3DocsWritten(suppressAnnotations, ts[1..], k - 1);
      assert ts[1..][k - 1] == ts[k];
    }
  }

  /**
   * There is an error exactly when some tree cannot be written; then the trees before the
   * first such one are written and its error ends the list, otherwise every tree is written.
   */
  lemma {:induction false} D3DocsStop(suppressAnnotations: bool, ts: seq<PhyloTree>)
    ensures var r := D3Docs(suppressAnnotations, ts);
      && (r.1.None? <==> forall k :: 0 <= k < |ts| ==> D3Tree(suppressAnnotations, ts[k]).Ok?)
      && (r.1.None? ==> |r.0| == |ts|)
      && (r.1.Some? ==> |r.0| < |ts| && D3Tree(suppressAnnotations, ts[|r.0|]).Err?)
  {
    if ts != [] && D3Tree(suppressAnnotations, ts[0]).Ok? {
      var rest := D3Docs(suppressAnnotations, ts[1..]);
      D3DocsStop(suppressAnnotations, ts[1..]);
      assert forall k :: 1 <= k < |ts| ==> ts[k] == ts[1..][k - 1];
      assert rest.1.Some? ==> ts[1..][|rest.0|] == ts[|rest.0| + 1];
    }
  }

  // ---------------------------------------------------------------------------------------
  // The writer's methods

  /** `_add_node_metadata(node, out)`: builds the node's mapping and merges it into `out`. */
  method AddNodeMetadata(suppressAnnotations: bool, n: Node, parent: Option<string>, out: map<string, Json>)
      returns (r: Result<map<string, Json>, D3Error>)
    ensures r.Ok? <==> D3Fields(suppressAnnotations, n, parent).Ok?
    ensures r.Ok? ==> r.value == out + D3Fields(suppressAnnotations, n, parent).value
    decreases n, 1
  {
    var metadata := map["length" := LengthJson(n.edgeLength)];
    metadata := metadata["parent" := LabelJson(parent)];
    var withKids := GetChildrenMetadata(suppressAnnotations, n, metadata);
    if withKids.Err? {
      return Err(withKids.error);
    }
    metadata := withKids.value;
    if n.IsLeaf() && n.taxon.None? {
      return Err(LeafWithoutTaxon);
    }
    metadata := metadata["name" := LabelJson(ShownName(n))];
    if !suppressAnnotations {
      metadata := metadata["annotations" := JObject(ShownAnnotations(n))];
    }
    return Ok(out + metadata);
  }

  /** `_get_children_metadata(parent, out)`: the children's mappings in order, set under "children". */
  method GetChildrenMetadata(suppressAnnotations: bool, p: Node, out: map<string, Json>)
      returns (r: Result<map<string, Json>, D3Error>)
    ensures r.Ok? <==> D3Children(suppressAnnotations, p, 0).Ok?
    ensures r.Ok? ==> r.value == out["children" := JArray(D3Children(suppressAnnotations, p, 0).value)]
    decreases p, 0
  {
    var children: seq<Json> := [];
    var nodes := p.children;
    InFrontNothing(D3Children(suppressAnnotations, p, 0));
    for k := 0 to |nodes|
      invariant D3Children(suppressAnnotations, p, 0) == InFront(children, D3Children(suppressAnnotations, p, k))
    {
      var metadata := AddNodeMetadata(suppressAnnotations, nodes[k], p.name, map[]);
      if metadata.Err? {
        return Err(metadata.error);
      }
      assert map[] + D3Fields(suppressAnnotations, nodes[k], p.name).value == D3Fields(suppressAnnotations, nodes[k], p.name).value;
      assert D3Children(suppressAnnotations, p, k) == InFront([JObject(metadata.value)], D3Children(suppressAnnotations, p, k + 1));
      InFrontTwice(children, [JObject(metadata.value)], D3Children(suppressAnnotations, p, k + 1));
      children := children + [JObject(metadata.value)];
    }
    assert children + [] == children;
    return Ok(out["children" := JArray(children)]);
  }

  /** `_write_tree` on a tree object: the document of the tree's value. */
  method WriteTree(suppressAnnotations: bool, t: TreeModel.Tree) returns (r: Result<map<string, Json>, D3Error>)
    requires t.Valid()
    ensures r == D3Tree(suppressAnnotations, TreeModel.Snapshot(t.nodes, t.name, t.weight, t.annotations))
  {
    var treeMetadata := t.annotations["name" := LabelJson(t.name)];
    var data := SeedData(suppressAnnotations, t.nodes);
    if data.Err? {
      return Err(data.error);
    }
    treeMetadata := treeMetadata["tree" := JObject(data.value)];
    return Ok(treeMetadata);
  }

  /** The loop over `tree.nodes()`: every node without a parent, the seed alone, fills `data`. */
  method SeedData(suppressAnnotations: bool, nodes: Arena) returns (r: Result<map<string, Json>, D3Error>)
    requires WellFormed(nodes)
    ensures r == D3Fields(suppressAnnotations, TreeModel.Nested(nodes, Seed), None)
  {
    var data := map[];
    for i := 0 to |nodes|
      invariant i > 0 ==> D3Fields(suppressAnnotations, TreeModel.Nested(nodes, Seed), None) == Ok(data)
      invariant i == 0 ==> data == map[]
    {
      assert 0 < i ==> ParentLinked(nodes, i);
      if nodes[i].parent.None? {
        var added := AddNodeMetadata(suppressAnnotations, TreeModel.Nested(nodes, i), None, data);
        if added.Err? {
          assert i == Seed && D3Fields(suppressAnnotations, TreeModel.Nested(nodes, i), None).Err?;
          assert added.error.LeafWithoutTaxon? && D3Fields(suppressAnnotations, TreeModel.Nested(nodes, i), None).error.LeafWithoutTaxon?;
          return Err(added.error);
        }
        assert map[] + D3Fields(suppressAnnotations, TreeModel.Nested(nodes, i), None).value
            == D3Fields(suppressAnnotations, TreeModel.Nested(nodes, i), None).value;
        data := added.value;
      }
    }
    return Ok(data);
  }

  /** The label, weight and annotations of every tree, and its nested seed. */
  function Snapshots(ts: seq<TreeModel.Tree>): (r: seq<PhyloTree>)
    requires forall k :: 0 <= k < |ts| ==> ts[k].Valid()
    reads ts
    ensures |r| == |ts|
  {
    seq(|ts|, k requires 0 <= k < |ts| && ts[k].Valid() reads ts => TreeModel.Snapshot(ts[k].nodes, ts[k].name, ts[k].weight, ts[k].annotations))
  }

  /**
   * `_write_tree_list`: writes the trees one after another; the first tree that cannot be
   * written raises, after the documents of the trees before it.
   */
  method WriteTreeList(suppressAnnotations: bool, ts: seq<TreeModel.Tree>) returns (docs: seq<Json>, err: Option<D3Error>)
    requires forall k :: 0 <= k < |ts| ==> ts[k].Valid()
    ensures (docs, err) == D3Docs(suppressAnnotations, Snapshots(ts))
  {
    ghost var values := Snapshots(ts);
    docs, err := [], None;
    DocsFromStart(suppressAnnotations, values);
    for k := 0 to |ts|
      invariant DocsFrom(suppressAnnotations, values, docs, k) && err.None?
    {
      docs, err := WriteNext(suppressAnnotations, ts[k], values, docs, k);
      if err.Some? {
        return;
      }
    }
    DocsFromEnd(suppressAnnotations, values, docs);
  }

  /** One turn of the loop of `_write_tree_list`: the document of tree `k`, or its error. */
  method WriteNext(suppressAnnotations: bool, t: TreeModel.Tree, ghost ts: seq<PhyloTree>, docs: seq<Json>, k: nat)
      returns (docs': seq<Json>, err: Option<D3Error>)
    requires t.Valid() && k < |ts| && ts[k] == TreeModel.Snapshot(t.nodes, t.name, t.weight, t.annotations)
    requires DocsFrom(suppressAnnotations, ts, docs, k)
    ensures err.Some? ==> D3Docs(suppressAnnotations, ts) == (docs', err)
    ensures err.None? ==> DocsFrom(suppressAnnotations, ts, docs', k + 1)
  {
    var doc := WriteTree(suppressAnnotations, t);
    if doc.Err? {
      DocsFromStop(suppressAnnotations, ts, docs, k);
      return docs, Some(doc.error);
    }
    DocsFromStep(suppressAnnotations, ts, docs, k);
    return docs + [JObject(doc.value)], None;
  }

  /** The state of the loop over the trees: `docs` written, the rest to come from tree `k` on. */
  predicate DocsFrom(suppressAnnotations: bool, ts: seq<PhyloTree>, docs: seq<Json>, k: nat)
    requires k <= |ts|
  {
    var rest := D3Docs(suppressAnnotations, ts[k..]);
    D3Docs(suppressAnnotations, ts) == (docs + rest.0, rest.1)
  }

  lemma DocsFromStart(suppressAnnotations: bool, ts: seq<PhyloTree>)
    ensures DocsFrom(suppressAnnotations, ts, [], 0)
  {
    assert ts[0..] == ts && [] + D3Docs(suppressAnnotations, ts).0 == D3Docs(suppressAnnotations, ts).0;
  }

  lemma DocsFromStep(suppressAnnotations: bool, ts: seq<PhyloTree>, docs: seq<Json>, k: nat)
    requires k < |ts| && DocsFrom(suppressAnnotations, ts, docs, k) && D3Tree(suppressAnnotations, ts[k]).Ok?
    ensures DocsFrom(suppressAnnotations, ts, docs + [JObject(D3Tree(suppressAnnotations, ts[k]).value)], k + 1)
  {
    assert ts[k..][0] == ts[k] && ts[k..][1..] == ts[k + 1..];
    var d := [JObject(D3Tree(suppressAnnotations, ts[k]).value)];
    var rest := D3Docs(suppressAnnotations, ts[k + 1..]).0;
    assert docs + (d + rest) == (docs + d) + rest;
  }

  lemma DocsFromStop(suppressAnnotations: bool, ts: seq<PhyloTree>, docs: seq<Json>, k: nat)
    requires k < |ts| && DocsFrom(suppressAnnotations, ts, docs, k) && D3Tree(suppressAnnotations, ts[k]).Err?
    ensures D3Docs(suppressAnnotations, ts) == (docs, Some(D3Tree(suppressAnnotations, ts[k]).error))
  {
    assert ts[k..][0] == ts[k];
    assert docs + [] == docs;
  }

  lemma DocsFromEnd(suppressAnnotations: bool, ts: seq<PhyloTree>, docs: seq<Json>)
    requires DocsFrom(suppressAnnotations, ts, docs, |ts|)
    ensures D3Docs(suppressAnnotations, ts) == (docs, None)
  {
    assert ts[|ts|..] == [] && docs + [] == docs;
  }
}
