/**
 * The JSON tree writer. A node becomes a mapping, filled key by key as the writer visits
 * it: annotations, edge length, label, taxon and, for an internal node, the list of its
 * children's mappings, each of which also names its parent. A tree becomes a mapping with
 * its label, annotations, weight and the seed node's mapping under "data". Independent
 * suppress flags decide which keys are written.
 */
module JsonWriter {
  import opened Wrappers
  import opened Json
  import opened Phylo
  import opened Arenas
  import TreeModel

  /** The writer's flags as `JsonWriter.__init__` sets them from its keyword arguments. */
  datatype Options = Options(
    suppressLeafTaxonLabels: bool,
    suppressLeafNodeLabels: bool,
    suppressInternalTaxonLabels: bool,
    suppressInternalNodeLabels: bool,
    suppressEdgeLengths: bool,
    storeTreeWeights: bool,
    suppressAnnotations: bool)

  /** The defaults: leaf node labels and annotations are not written, everything else is. */
  const Defaults := Options(
    suppressLeafTaxonLabels := false,
    suppressLeafNodeLabels := true,
    suppressInternalTaxonLabels := false,
    suppressInternalNodeLabels := false,
    suppressEdgeLengths := false,
    storeTreeWeights := false,
    suppressAnnotations := true)

  /** Whether the label of a node is written: leaves and internal nodes have separate flags. */
  predicate WritesLabel(o: Options, n: Node) {
    if n.IsLeaf() then !o.suppressLeafNodeLabels else !o.suppressInternalNodeLabels
  }

  /** Whether the taxon of a node is written: it must have one, and it must not be suppressed. */
  predicate WritesTaxon(o: Options, n: Node) {
    n.taxon.Some? && if n.IsLeaf() then !o.suppressLeafTaxonLabels else !o.suppressInternalTaxonLabels
  }

  /** Annotations are written when not suppressed and there are some. */
  predicate WritesAnnotations(o: Options, ann: Annotations) {
    !o.suppressAnnotations && |ann| > 0
  }

  /** The keys the writers use are different strings. */
  lemma DistinctKeys()
    ensures "annotations" != "length" && "annotations" != "name" && "annotations" != "taxon"
    ensures "annotations" != "children" && "length" != "name" && "length" != "taxon"
    ensures "length" != "children" && "name" != "taxon" && "name" != "children" && "taxon" != "children"
  {
  }

  // ---------------------------------------------------------------------------------------
  // The mappings, as values. Like the writer, each function adds entries to a given mapping.

  /** `out` with the "annotations" entry added, when written. */
  function AddAnnotations(o: Options, ann: Annotations, out: map<string, Json>): map<string, Json> {
    if WritesAnnotations(o, ann) then out["annotations" := JObject(ann)] else out
  }

  /** `_get_taxon_metadata`: the taxon's label and, when written, its annotations. */
  function TaxonFields(o: Options, t: Taxon): (m: map<string, Json>)
    ensures m.Keys <= {"name", "annotations"}
    ensures "name" in m && m["name"] == LabelJson(t.name)
    ensures "annotations" in m <==> WritesAnnotations(o, t.annotations)
    ensures "annotations" in m ==> m["annotations"] == JObject(t.annotations)
  {
    AddAnnotations(o, t.annotations, map["name" := LabelJson(t.name)])
  }

  /** `out` with the edge length added, when written and the edge has one. */
  function AddLength(o: Options, n: Node, out: map<string, Json>): map<string, Json> {
    if !o.suppressEdgeLengths && n.edgeLength.Some? then out["length" := JNumber(n.edgeLength.value)] else out
  }

  /** `out` with the node's label added, when written. */
  function AddLabel(o: Options, n: Node, out: map<string, Json>): map<string, Json> {
    if WritesLabel(o, n) then out["name" := LabelJson(n.name)] else out
  }

  /** `out` with the node's taxon mapping added, when written. */
  function AddTaxon(o: Options, n: Node, out: map<string, Json>): map<string, Json> {
    if WritesTaxon(o, n) then out["taxon" := JObject(TaxonFields(o, n.taxon.value))] else out
  }

  /** `_get_node_metadata(n, out)`: `out` with the entries of node `n` (and its subtree) added. */
  function AddNodeFields(o: Options, n: Node, out: map<string, Json>): map<string, Json>
    decreases n, 1
  {
    var m := AddTaxon(o, n, AddLabel(o, n, AddLength(o, n, AddAnnotations(o, n.annotations, out))));
    if n.IsLeaf() then m else m["children" := JArray(ChildrenJson(o, n))]
  }

  /** The mapping of node `n` on its own. */
  function NodeFields(o: Options, n: Node): map<string, Json>
    decreases n, 2
  {
    AddNodeFields(o, n, map[])
  }

  /** A node mapping has no other keys than these five. */
  lemma NodeKeys(o: Options, n: Node)
    ensures NodeFields(o, n).Keys <= {"annotations", "length", "name", "taxon", "children"}
  {
  }

  /**
   * The entries of a node mapping: "length" iff lengths are written and the edge has one;
   * "name" and "taxon" by the leaf or internal flags; "children" exactly for internal nodes.
   */
  lemma NodeEntries(o: Options, n: Node)
    ensures var m := NodeFields(o, n);
      && ("annotations" in m <==> WritesAnnotations(o, n.annotations))
      && ("annotations" in m ==> m["annotations"] == JObject(n.annotations))
      && ("length" in m <==> !o.suppressEdgeLengths && n.edgeLength.Some?)
      && ("length" in m ==> m["length"] == JNumber(n.edgeLength.value))
      && ("name" in m <==> WritesLabel(o, n))
      && ("name" in m ==> m["name"] == LabelJson(n.name))
      && ("taxon" in m <==> WritesTaxon(o, n))
      && ("taxon" in m ==> m["taxon"] == JObject(TaxonFields(o, n.taxon.value)))
      && ("children" in m <==> !n.IsLeaf())
      && ("children" in m ==> m["children"] == JArray(ChildrenJson(o, n)))
  {
    OwnEntries(o, n);
    LabelEntries(o, n);
  }

  lemma OwnEntries(o: Options, n: Node)
    ensures var m := NodeFields(o, n);
      && ("annotations" in m <==> WritesAnnotations(o, n.annotations))
      && ("annotations" in m ==> m["annotations"] == JObject(n.annotations))
      && ("length" in m <==> !o.suppressEdgeLengths && n.edgeLength.Some?)
      && ("length" in m ==> m["length"] == JNumber(n.edgeLength.value))
  {
    DistinctKeys();
    var m1 := AddAnnotations(o, n.annotations, map[]);
    var m2 := AddLength(o, n, m1);
    var m4 := AddTaxon(o, n, AddLabel(o, n, m2));
    assert forall key :: key != "name" && key != "taxon" ==> (key in m4 <==> key in m2);
    assert forall key :: key != "name" && key != "taxon" && key in m4 ==> m4[key] == m2[key];
  }

  lemma LabelEntries(o: Options, n: Node)
    ensures var m := NodeFields(o, n);
      && ("name" in m <==> WritesLabel(o, n))
      && ("name" in m ==> m["name"] == LabelJson(n.name))
      && ("taxon" in m <==> WritesTaxon(o, n))
      && ("taxon" in m ==> m["taxon"] == JObject(TaxonFields(o, n.taxon.value)))
  {
  }

  /** `_get_children_metadata`: one mapping per child of `p`, in child order. */
  function ChildrenJson(o: Options, p: Node): seq<Json>
    decreases p, 0
  {
    seq(|p.children|, k requires 0 <= k < |p.children| => JObject(ChildFields(o, p, p.children[k])))
  }

  /** A child's mapping: its own node mapping, plus its parent's label unless internal labels are suppressed. */
  function ChildFields(o: Options, p: Node, c: Node): map<string, Json>
    requires c < p
    decreases c, 3
  {
    var m := NodeFields(o, c);
    if !o.suppressInternalNodeLabels then m["parent" := LabelJson(p.name)] else m
  }

  /**
   * The children list holds one mapping per child, in child order: the child's own node
   * mapping, with "parent" set to the parent's label exactly when internal labels are written.
   */
  lemma ChildEntries(o: Options, p: Node, k: nat)
    requires k < |p.children|
    ensures |ChildrenJson(o, p)| == |p.children|
    ensures ChildrenJson(o, p)[k].JObject?
    ensures var m := ChildrenJson(o, p)[k].fields;
      && m - {"parent"} == NodeFields(o, p.children[k])
      && ("parent" in m <==> !o.suppressInternalNodeLabels)
      && ("parent" in m ==> m["parent"] == LabelJson(p.name))
  {
    var c := p.children[k];
    NodeKeys(o, c);
    assert "parent" !in NodeFields(o, c);
    assert NodeFields(o, c) - {"parent"} == NodeFields(o, c);
  }

  /** `_get_tree_metadata(t, out)`: `out` with the tree's label, annotations and weight when written, and "data". */
  function AddTreeFields(o: Options, t: PhyloTree, out: map<string, Json>): map<string, Json> {
    var m := AddAnnotations(o, t.annotations, out["name" := LabelJson(t.name)]);
    var m := if o.storeTreeWeights && t.weight.Some? then m["weight" := JNumber(t.weight.value)] else m;
    m["data" := JObject(NodeFields(o, t.seed))]
  }

  /** The mapping of tree `t` on its own. */
  function TreeFields(o: Options, t: PhyloTree): map<string, Json> {
    AddTreeFields(o, t, map[])
  }

  /**
   * The entries of a tree mapping: "name" always, "annotations" and "weight" by their flags
   * when the tree has them, and the seed's mapping under "data".
   */
  lemma TreeEntries(o: Options, t: PhyloTree)
    ensures var m := TreeFields(o, t);
      && m.Keys <= {"name", "annotations", "weight", "data"}
      && "name" in m && m["name"] == LabelJson(t.name)
      && ("annotations" in m <==> WritesAnnotations(o, t.annotations))
      && ("annotations" in m ==> m["annotations"] == JObject(t.annotations))
      && ("weight" in m <==> o.storeTreeWeights && t.weight.Some?)
      && ("weight" in m ==> m["weight"] == JNumber(t.weight.value))
      && "data" in m && m["data"] == JObject(NodeFields(o, t.seed))
  {
  }

  /** One mapping per tree, in order. */
  function TreesJson(o: Options, ts: seq<PhyloTree>): (r: seq<Json>)
    ensures |r| == |ts| && forall k :: 0 <= k < |ts| ==> r[k] == JObject(TreeFields(o, ts[k]))
  {
    seq(|ts|, k requires 0 <= k < |ts| => JObject(TreeFields(o, ts[k])))
  }

  /** `tree_list[0]` on an empty list raises `IndexError`. */
  datatype WriteError = EmptyTreeList

  /**
   * `_write_tree_list` as written: a list of more than one tree is written as its label and
   * annotations only; the per-tree mappings are built but never attached.
   */
  function TreeListJsonAsWritten(o: Options, tl: TreeList): (r: Result<Json, WriteError>)
    ensures r.Err? <==> tl.trees == []
    ensures |tl.trees| == 1 ==> r == Ok(JObject(TreeFields(o, tl.trees[0])))
    ensures |tl.trees| > 1 ==> r.value.JObject? && r.value.fields.Keys <= {"name", "annotations"}
  {
    if |tl.trees| > 1 then Ok(JObject(AddAnnotations(o, tl.annotations, map["name" := LabelJson(tl.name)])))
    else if |tl.trees| == 1 then Ok(JObject(TreeFields(o, tl.trees[0])))
    else Err(EmptyTreeList)
  }

  /**
   * `_write_tree_list` with the per-tree mappings attached under "trees", as the list it
   * builds for that purpose evidently intends: a single tree is written bare.
   */
  function TreeListJson(o: Options, tl: TreeList): (r: Result<Json, WriteError>)
    ensures r.Err? <==> tl.trees == []
    ensures |tl.trees| == 1 ==> r == Ok(JObject(TreeFields(o, tl.trees[0])))
    ensures |tl.trees| > 1 ==> (r.value.JObject? && "trees" in r.value.fields && "name" in r.value.fields
      && r.value.fields["trees"] == JArray(TreesJson(o, tl.trees))
      && r.value.fields["name"] == LabelJson(tl.name))
  {
    if |tl.trees| > 1 then
      Ok(JObject((AddAnnotations(o, tl.annotations, map["name" := LabelJson(tl.name)]))["trees" := JArray(TreesJson(o, tl.trees))]))
    else if |tl.trees| == 1 then Ok(JObject(TreeFields(o, tl.trees[0])))
    else Err(EmptyTreeList)
  }

  /** As written, two lists of several trees with the same label and annotations are written alike. */
  lemma AsWrittenLosesTrees(o: Options, tl: TreeList, tl': TreeList)
    requires |tl.trees| > 1 && |tl'.trees| > 1
    requires tl.name == tl'.name && tl.annotations == tl'.annotations
    ensures TreeListJsonAsWritten(o, tl) == TreeListJsonAsWritten(o, tl')
  {
  }

  /** A concrete pair: two different lists of two trees whose written forms coincide. */
  lemma AsWrittenCounterexample()
    ensures var leaf := Node(None, None, None, map[], []);
      var t1 := PhyloTree(Some("t1"), None, map[], leaf);
      var t2 := PhyloTree(Some("t2"), None, map[], leaf);
      && TreeList(None, map[], [t1, t1]) != TreeList(None, map[], [t2, t2])
      && TreeListJsonAsWritten(Defaults, TreeList(None, map[], [t1, t1]))
         == TreeListJsonAsWritten(Defaults, TreeList(None, map[], [t2, t2]))
      && TreeListJson(Defaults, TreeList(None, map[], [t1, t1]))
         != TreeListJson(Defaults, TreeList(None, map[], [t2, t2]))
  {
    var leaf := Node(None, None, None, map[], []);
    var t1 := PhyloTree(Some("t1"), None, map[], leaf);
    var t2 := PhyloTree(Some("t2"), None, map[], leaf);
    assert TreeFields(Defaults, t1)["name"] != TreeFields(Defaults, t2)["name"];
    assert TreesJson(Defaults, [t1, t1])[0] != TreesJson(Defaults, [t2, t2])[0];
  }

  // ---------------------------------------------------------------------------------------
  // The writer's procedures: each fills a mapping in place

  /** `_get_taxon_metadata(taxon, out)`: sets "taxon" in `out`. */
  method GetTaxonMetadata(o: Options, t: Taxon, out: map<string, Json>) returns (out': map<string, Json>)
    ensures out' == out["taxon" := JObject(TaxonFields(o, t))]
  {
    var metadata := map["name" := LabelJson(t.name)];
    if !o.suppressAnnotations && |t.annotations| > 0 {
      metadata := metadata["annotations" := JObject(t.annotations)];
    }
    out' := out["taxon" := JObject(metadata)];
  }

  /** `_get_node_metadata(node, out)`: adds the node's entries to `out`. */
  method GetNodeMetadata(o: Options, n: Node, out: map<string, Json>) returns (out': map<string, Json>)
    ensures out' == AddNodeFields(o, n, out)
    decreases n, 1
  {
    out' := out;
    if !o.suppressAnnotations && |n.annotations| > 0 {
      out' := out'["annotations" := JObject(n.annotations)];
    }
    ghost var m1 := out';
    assert m1 == AddAnnotations(o, n.annotations, out);
    if !o.suppressEdgeLengths {
      if n.edgeLength.Some? {
        out' := out'["length" := JNumber(n.edgeLength.value)];
      }
    }
    ghost var m2 := out';
    assert m2 == AddLength(o, n, m1);
    if n.IsLeaf() {
      if !o.suppressLeafNodeLabels {
        out' := out'["name" := LabelJson(n.name)];
      }
      ghost var m3 := out';
      assert m3 == AddLabel(o, n, m2);
      if !o.suppressLeafTaxonLabels && n.taxon.Some? {
        out' := GetTaxonMetadata(o, n.taxon.value, out');
      }
      assert out' == AddTaxon(o, n, m3);
      NodeSteps(o, n, out, m1, m2, m3, out', out');
    } else {
      if !o.suppressInternalNodeLabels {
        out' := out'["name" := LabelJson(n.name)];
      }
      ghost var m3 := out';
      assert m3 == AddLabel(o, n, m2);
      if !o.suppressInternalTaxonLabels && n.taxon.Some? {
        out' := GetTaxonMetadata(o, n.taxon.value, out');
      }
      ghost var m4 := out';
      assert m4 == AddTaxon(o, n, m3);
      out' := GetChildrenMetadata(o, n, out');
      NodeSteps(o, n, out, m1, m2, m3, m4, out');
    }
  }

  /** The writer's steps on node `n`, one by one, compose to `AddNodeFields`. */
  lemma NodeSteps(o: Options, n: Node, out: map<string, Json>, m1: map<string, Json>, m2: map<string, Json>,
                  m3: map<string, Json>, m4: map<string, Json>, r: map<string, Json>)
    requires m1 == AddAnnotations(o, n.annotations, out) && m2 == AddLength(o, n, m1)
    requires m3 == AddLabel(o, n, m2) && m4 == AddTaxon(o, n, m3)
    requires r == if n.IsLeaf() then m4 else m4["children" := JArray(ChildrenJson(o, n))]
    ensures r == AddNodeFields(o, n, out)
  {
  }

  /** `_get_children_metadata(parent, out)`: builds the children list child by child and sets it in `out`. */
  method GetChildrenMetadata(o: Options, p: Node, out: map<string, Json>) returns (out': map<string, Json>)
    ensures out' == out["children" := JArray(ChildrenJson(o, p))]
    decreases p, 0
  {
    var children: seq<Json> := [];
    var nodes := p.children;
    for k := 0 to |nodes|
      invariant |children| == k
      invariant forall j :: 0 <= j < k ==> children[j] == JObject(ChildFields(o, p, nodes[j]))
    {
      var metadata := GetNodeMetadata(o, nodes[k], map[]);
      if !o.suppressInternalNodeLabels {
        metadata := metadata["parent" := LabelJson(p.name)];
      }
      children := children + [JObject(metadata)];
    }
    assert children == ChildrenJson(o, p);
    out' := out["children" := JArray(children)];
  }

  /**
   * `_get_tree_metadata(tree, out)` on a tree object: every node without a parent (the seed
   * alone) contributes its mapping to "data".
   */
  method GetTreeMetadata(o: Options, t: TreeModel.Tree, out: map<string, Json>) returns (out': map<string, Json>)
    requires t.Valid()
    ensures out' == AddTreeFields(o, TreeModel.Snapshot(t.nodes, t.name, t.weight, t.annotations), out)
  {
    out' := out["name" := LabelJson(t.name)];
    if !o.suppressAnnotations && |t.annotations| > 0 {
      out' := out'["annotations" := JObject(t.annotations)];
    }
    ghost var m1 := out';
    if o.storeTreeWeights && t.weight.Some? {
      out' := out'["weight" := JNumber(t.weight.value)];
    }
    ghost var m2 := out';
    var data := SeedMetadata(o, t.nodes);
    out' := out'["data" := JObject(data)];
    TreeSteps(o, TreeModel.Snapshot(t.nodes, t.name, t.weight, t.annotations), out, m1, m2, out');
  }

  /** The loop over `tree.nodes()`: every node without a parent, the seed alone, fills "data". */
  method SeedMetadata(o: Options, nodes: Arena) returns (data: map<string, Json>)
    requires WellFormed(nodes)
    ensures data == NodeFields(o, TreeModel.Nested(nodes, Seed))
  {
    data := map[];
    for i := 0 to |nodes|
      invariant data == if i == 0 then map[] else NodeFields(o, TreeModel.Nested(nodes, Seed))
    {
      assert 0 < i ==> ParentLinked(nodes, i);
      if nodes[i].parent.None? {
        data := GetNodeMetadata(o, TreeModel.Nested(nodes, i), data);
      }
    }
  }

  /** The writer's steps on tree `t` compose to `AddTreeFields`. */
  lemma TreeSteps(o: Options, t: PhyloTree, out: map<string, Json>, m1: map<string, Json>, m2: map<string, Json>,
                  r: map<string, Json>)
    requires m1 == AddAnnotations(o, t.annotations, out["name" := LabelJson(t.name)])
    requires m2 == if o.storeTreeWeights && t.weight.Some? then m1["weight" := JNumber(t.weight.value)] else m1
    requires r == m2["data" := JObject(NodeFields(o, t.seed))]
    ensures r == AddTreeFields(o, t, out)
  {
  }
}
