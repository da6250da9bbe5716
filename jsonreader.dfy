/**
 * The JSON tree reader: the inverse of the JSON writer. A node is built from the "name",
 * "length", "taxon", "children" and "annotations" entries of its mapping; a missing entry
 * and an entry holding null both mean "none". A tree is built from the "data", "name" and
 * "annotations" entries; a document that is not a list is read as a list of one tree.
 * A value of the wrong JSON type stops the reading with an error (the Python code raises).
 */
module JsonReader {
  import opened Wrappers
  import opened Json
  import opened Phylo
  import opened JsonWriter

  datatype ReadError =
    | NotAMapping     // `.get` on a value that is not a mapping raises AttributeError
    | IllTypedLabel   // a label that is neither a string nor null
    | IllTypedLength  // an edge length that is neither a number nor null
    | NotIterable     // "children" a number or a boolean: iterating it raises TypeError
    | NotAnnotations  // "annotations" not a mapping: `.items()` raises AttributeError

  /** `mapping.get(key)`: the entry, or null (`None`) when there is none. */
  function Get(f: map<string, Json>, key: string): Json {
    if key in f then f[key] else JNull
  }

  function ReadLabel(v: Json): (r: Result<Option<string>, ReadError>)
    ensures r.Ok? <==> v.JNull? || v.JString?
    ensures r == Ok(None) <==> v.JNull?
    ensures v.JString? ==> r == Ok(Some(v.s))
  {
    match v
    case JNull => Ok(None)
    case JString(s) => Ok(Some(s))
    case _ => Err(IllTypedLabel)
  }

  function ReadLength(v: Json): (r: Result<Option<real>, ReadError>)
    ensures r.Ok? <==> v.JNull? || v.JNumber?
    ensures r == Ok(None) <==> v.JNull?
    ensures v.JNumber? ==> r == Ok(Some(v.n))
  {
    match v
    case JNull => Ok(None)
    case JNumber(x) => Ok(Some(x))
    case _ => Err(IllTypedLength)
  }

  /** A taxon is attached iff "taxon" holds a value; it takes its label from that mapping's "name". */
  function ReadTaxon(v: Json): (r: Result<Option<Taxon>, ReadError>)
    ensures r == Ok(None) <==> v.JNull?
    ensures r.Ok? && r.value.Some? ==> v.JObject? && r.value.value.annotations == map[]
    ensures v.JObject? ==> (r.Ok? <==> ReadLabel(Get(v.fields, "name")).Ok?)
    ensures v.JObject? && r.Ok? ==> r.value.Some? && Ok(r.value.value.name) == ReadLabel(Get(v.fields, "name"))
  {
    match v
    case JNull => Ok(None)
    case JObject(g) =>
      (match ReadLabel(Get(g, "name"))
       case Ok(name) => Ok(Some(Taxon(name, map[])))
       case Err(e) => Err(e))
    case _ => Err(NotAMapping)
  }

  /** `_parse_annotations`: every entry of the mapping becomes one annotation. */
  function ReadAnnotations(v: Json): (r: Result<Annotations, ReadError>)
    ensures r.Ok? <==> v.JNull? || v.JObject?
    ensures v.JObject? ==> r == Ok(v.fields)
  {
    match v
    case JNull => Ok(map[])
    case JObject(g) => Ok(g)
    case _ => Err(NotAnnotations)
  }

  /** `_parse_node_metadata`: the node described by `j`, with its subtree. */
  function ReadNode(j: Json): Result<Node, ReadError>
    decreases j, 2
  {
    match j
    case JObject(f) =>
      var name := ReadLabel(Get(f, "name"));
      var len := ReadLength(Get(f, "length"));
      var tax := ReadTaxon(Get(f, "taxon"));
      if name.Err? then Err(name.error)
      else if len.Err? then Err(len.error)
      else if tax.Err? then Err(tax.error)
      else
        var kids := if "children" in f then ReadChildren(f["children"]) else Ok([]);
        var ann := ReadAnnotations(Get(f, "annotations"));
        if kids.Err? then Err(kids.error)
        else if ann.Err? then Err(ann.error)
        else Ok(Node(name.value, len.value, tax.value, ann.value, kids.value))
    case _ => Err(NotAMapping)
  }

  /**
   * What a node is read from: a mapping whose "name", "length", "taxon", "annotations" and
   * (when present) "children" entries all read; the node carries exactly those values.
   */
  lemma ReadNodeParts(j: Json)
    ensures ReadNode(j).Ok? <==>
      && j.JObject?
      && ReadLabel(Get(j.fields, "name")).Ok?
      && ReadLength(Get(j.fields, "length")).Ok?
      && ReadTaxon(Get(j.fields, "taxon")).Ok?
      && ReadAnnotations(Get(j.fields, "annotations")).Ok?
      && ("children" in j.fields ==> ReadChildren(j.fields["children"]).Ok?)
    ensures ReadNode(j).Ok? ==>
      && ReadNode(j).value.name == ReadLabel(Get(j.fields, "name")).value
      && ReadNode(j).value.edgeLength == ReadLength(Get(j.fields, "length")).value
      && ReadNode(j).value.taxon == ReadTaxon(Get(j.fields, "taxon")).value
      && ReadNode(j).value.annotations == ReadAnnotations(Get(j.fields, "annotations")).value
      && ReadNode(j).value.children == (if "children" in j.fields then ReadChildren(j.fields["children"]).value else [])
  {
  }

  /**
   * `_parse_children_metadata`: the nodes of a list, in list order. An empty string or an
   * empty mapping iterates over nothing; a non-empty one yields strings, which are not mappings.
   */
  function ReadChildren(v: Json): Result<seq<Node>, ReadError>
    decreases v, 1
  {
    match v
    case JNull => Ok([])
    case JArray(_) => ReadItems(v, 0)
    case JString(s) => if s == [] then Ok([]) else Err(NotAMapping)
    case JObject(g) => if g == map[] then Ok([]) else Err(NotAMapping)
    case JNumber(_) => Err(NotIterable)
    case JBool(_) => Err(NotIterable)
  }

  /** The nodes of the items of list `v` from position `k` on. */
  function ReadItems(v: Json, k: nat): Result<seq<Node>, ReadError>
    requires v.JArray? && k <= |v.items|
    decreases v, 0, |v.items| - k
  {
    if k == |v.items| then Ok([])
    else
      match ReadNode(v.items[k])
      case Err(e) => Err(e)
      case Ok(n) =>
        match ReadItems(v, k + 1)
        case Err(e) => Err(e)
        case Ok(ns) => Ok([n] + ns)
  }

  /**
   * A list of children is read item by item, in list order: it reads exactly when every item
   * reads as a node, and then the k-th node is the k-th item's.
   */
  lemma {:induction false} ReadItemsInOrder(v: Json, k: nat)
    requires v.JArray? && k <= |v.items|
    ensures ReadItems(v, k).Ok? <==> forall j :: k <= j < |v.items| ==> ReadNode(v.items[j]).Ok?
    ensures ReadItems(v, k).Ok? ==> |ReadItems(v, k).value| == |v.items| - k
    ensures ReadItems(v, k).Ok? ==>
      forall j :: k <= j < |v.items| ==> ReadItems(v, k).value[j - k] == ReadNode(v.items[j]).value
    decreases |v.items| - k
  {
    if k < |v.items| {
      ReadItemsInOrder(v, k + 1);
    }
  }

  /** `_parse_tree_metadata`: the seed from "data", the label from "name", then the annotations. */
  function ReadTree(j: Json): Result<PhyloTree, ReadError> {
    match j
    case JObject(f) =>
      var seed := ReadNode(Get(f, "data"));
      var name := ReadLabel(Get(f, "name"));
      var ann := ReadAnnotations(Get(f, "annotations"));
      if seed.Err? then Err(seed.error)
      else if name.Err? then Err(name.error)
      else if ann.Err? then Err(ann.error)
      else Ok(PhyloTree(name.value, None, ann.value, seed.value))
    case _ => Err(NotAMapping)
  }

  /** The trees of the list `items`, in order; the first error stops the reading. */
  function ReadTreeItems(items: seq<Json>): (r: Result<seq<PhyloTree>, ReadError>)
    ensures r.Ok? ==> |r.value| == |items|
    ensures r.Ok? <==> forall k :: 0 <= k < |items| ==> ReadTree(items[k]).Ok?
    ensures r.Ok? ==> forall k :: 0 <= k < |items| ==> r.value[k] == ReadTree(items[k]).value
  {
    if items == [] then Ok([])
    else
      match ReadTree(items[0])
      case Err(e) => Err(e)
      case Ok(t) =>
        match ReadTreeItems(items[1..])
        case Err(e) => Err(e)
        case Ok(ts) =>
          assert forall k :: 1 <= k < |items| ==> items[k] == items[1..][k - 1];
          Ok([t] + ts)
  }

  /** `tree_iter`: a document that is not a list is read as a list holding it alone. */
  function ReadTrees(doc: Json): Result<seq<PhyloTree>, ReadError> {
    ReadTreeItems(if doc.JArray? then doc.items else [doc])
  }

  // ---------------------------------------------------------------------------------------
  // The reader's methods, which build nodes and trees step by step

  /**
   * `_parse_node_metadata`: the node is created from its label, edge length and taxon; then
   * its children are parsed and added, then its annotations.
   */
  method ParseNodeMetadata(j: Json) returns (r: Result<Node, ReadError>)
    ensures r == ReadNode(j)
    decreases j, 2
  {
    if !j.JObject? {
      return Err(NotAMapping);
    }
    var f := j.fields;
    var name := ReadLabel(Get(f, "name"));
    var len := ReadLength(Get(f, "length"));
    var tax := ReadTaxon(Get(f, "taxon"));
    if name.Err? {
      return Err(name.error);
    } else if len.Err? {
      return Err(len.error);
    } else if tax.Err? {
      return Err(tax.error);
    }
    var node := Node(name.value, len.value, tax.value, map[], []);
    if Get(f, "children") != JNull {
      var withKids := ParseChildrenMetadata(node, f["children"]);
      if withKids.Err? {
        return Err(withKids.error);
      }
      assert [] + ReadChildren(f["children"]).value == ReadChildren(f["children"]).value;
      node := withKids.value;
    }
    var ann := Get(f, "annotations");
    if ann != JNull {
      if !ann.JObject? {
        return Err(NotAnnotations);
      }
      var all := ParseAnnotations(node.annotations, ann.fields);
      assert map[] + ann.fields == ann.fields;
      node := node.(annotations := all);
    }
    return Ok(node);
  }

  /**
   * `_parse_children_metadata`: parses every item of `v` in turn and appends it as the last
   * child of `parent`; the first item that fails stops the parsing.
   */
  method ParseChildrenMetadata(parent: Node, v: Json) returns (r: Result<Node, ReadError>)
    ensures r.Ok? <==> ReadChildren(v).Ok?
    ensures r.Err? ==> r.error == ReadChildren(v).error
    ensures r.Ok? ==> r.value == parent.(children := parent.children + ReadChildren(v).value)
    decreases v, 1
  {
    match v {
      case JArray(items) =>
        var node := parent;
        var done: seq<Node> := [];
        InFrontNothing(ReadItems(v, 0));
        assert parent.children + done == parent.children;
        for k := 0 to |items|
          invariant node == parent.(children := parent.children + done)
          invariant ReadItems(v, 0) == InFront(done, ReadItems(v, k))
        {
          var child := ParseNodeMetadata(items[k]);
          if child.Err? {
            return Err(child.error);
          }
          InFrontTwice(done, [child.value], ReadItems(v, k + 1));
          assert parent.children + done + [child.value] == parent.children + (done + [child.value]);
          node := node.(children := node.children + [child.value]);
          done := done + [child.value];
        }
        assert done + [] == done;
        return Ok(node);
      case JString(chars) =>
        if chars == [] {
          assert parent.children + [] == parent.children;
          return Ok(parent);
        }
        return Err(NotAMapping);
      case JObject(keys) =>
        if keys == map[] {
          assert parent.children + [] == parent.children;
          return Ok(parent);
        }
        return Err(NotAMapping);
      case JNull =>
        assert parent.children + [] == parent.children;
        return Ok(parent);
      case JNumber(_) =>
        return Err(NotIterable);
      case JBool(_) =>
        return Err(NotIterable);
    }
  }

  /** `_parse_annotations`: adds every entry of `g` to the annotations `ann`, one at a time. */
  method ParseAnnotations(ann: Annotations, g: map<string, Json>) returns (r: Annotations)
    ensures r == ann + g
  {
    r := ann;
    var todo := g.Keys;
    while todo != {}
      invariant todo <= g.Keys
      invariant forall key :: key in g && key !in todo ==> key in r && r[key] == g[key]
      invariant forall key :: key in ann && key !in g ==> key in r && r[key] == ann[key]
      invariant forall key :: key in r ==> key in ann || key in g
      decreases |todo|
    {
      var key :| key in todo;
      r := r[key := g[key]];
      todo := todo - {key};
    }
    assert r.Keys == (ann + g).Keys;
  }

  /** `_parse_tree_metadata`: the seed node, then the tree with its label, then its annotations. */
  method ParseTreeMetadata(j: Json) returns (r: Result<PhyloTree, ReadError>)
    ensures r == ReadTree(j)
  {
    if !j.JObject? {
      return Err(NotAMapping);
    }
    var f := j.fields;
    var seed := ParseNodeMetadata(Get(f, "data"));
    if seed.Err? {
      return Err(seed.error);
    }
    var name := ReadLabel(Get(f, "name"));
    if name.Err? {
      return Err(name.error);
    }
    var tree := PhyloTree(name.value, None, map[], seed.value);
    var ann := Get(f, "annotations");
    if ann != JNull {
      if !ann.JObject? {
        return Err(NotAnnotations);
      }
      var all := ParseAnnotations(tree.annotations, ann.fields);
      assert map[] + ann.fields == ann.fields;
      tree := tree.(annotations := all);
    }
    return Ok(tree);
  }

  /** `tree_iter` as `_read` drives it: every tree in document order; an error ends the reading. */
  method TreeIter(doc: Json) returns (r: Result<seq<PhyloTree>, ReadError>)
    ensures r == ReadTrees(doc)
  {
    var items := if doc.JArray? then doc.items else [doc];
    var trees: seq<PhyloTree> := [];
    assert items[0..] == items;
    InFrontNothing(ReadTreeItems(items));
    for k := 0 to |items|
      invariant ReadTreeItems(items) == InFront(trees, ReadTreeItems(items[k..]))
    {
      assert items[k..][0] == items[k] && items[k..][1..] == items[k + 1..];
      var t := ParseTreeMetadata(items[k]);
      if t.Err? {
        return Err(t.error);
      }
      InFrontTwice(trees, [t.value], ReadTreeItems(items[k + 1..]));
      trees := trees + [t.value];
    }
    assert items[|items|..] == [] && trees + [] == trees;
    return Ok(trees);
  }

  // ---------------------------------------------------------------------------------------
  // Reading back what the writer wrote

  /**
   * What of node `n` survives writing with options `o` and reading back: labels and taxa the
   * flags let through (a taxon without its annotations, which the reader does not read),
   * edge lengths unless suppressed, annotations when written, and every child in order.
   */
  function Project(o: Options, n: Node): (r: Node)
    ensures |r.children| == |n.children|
    decreases n
  {
    Node(
      if WritesLabel(o, n) then n.name else None,
      if o.suppressEdgeLengths then None else n.edgeLength,
      if WritesTaxon(o, n) then Some(Taxon(n.taxon.value.name, map[])) else None,
      if WritesAnnotations(o, n.annotations) then n.annotations else map[],
      seq(|n.children|, k requires 0 <= k < |n.children| => Project(o, n.children[k])))
  }

  function ProjectTree(o: Options, t: PhyloTree): PhyloTree {
    PhyloTree(t.name, None, if WritesAnnotations(o, t.annotations) then t.annotations else map[], Project(o, t.seed))
  }

  lemma LabelRoundTrip(name: Option<string>)
    ensures ReadLabel(LabelJson(name)) == Ok(name)
  {
  }

  /** Reading a written node gives back its projection. */
  lemma {:induction false} RoundTripNode(o: Options, n: Node)
    ensures ReadNode(JObject(NodeFields(o, n))) == Ok(Project(o, n))
    decreases n, 1
  {
    var f, pn := NodeFields(o, n), Project(o, n);
    NodeEntries(o, n);
    assert ReadLabel(Get(f, "name")) == Ok(pn.name) by {
      LabelRoundTrip(if WritesLabel(o, n) then n.name else None);
    }
    assert ReadLength(Get(f, "length")) == Ok(pn.edgeLength);
    assert ReadTaxon(Get(f, "taxon")) == Ok(pn.taxon) by {
      if WritesTaxon(o, n) {
        LabelRoundTrip(n.taxon.value.name);
      }
    }
    assert ReadAnnotations(Get(f, "annotations")) == Ok(pn.annotations);
    assert (if "children" in f then ReadChildren(f["children"]) else Ok([])) == Ok(pn.children) by {
      if !n.IsLeaf() {
        RoundTripItems(o, n, 0);
        assert pn.children[0..] == pn.children;
      }
    }
    ReadNodeOf(f, pn);
  }

  /** A mapping whose five entries read as the parts of `m` reads as `m`. */
  lemma ReadNodeOf(f: map<string, Json>, m: Node)
    requires ReadLabel(Get(f, "name")) == Ok(m.name)
    requires ReadLength(Get(f, "length")) == Ok(m.edgeLength)
    requires ReadTaxon(Get(f, "taxon")) == Ok(m.taxon)
    requires ReadAnnotations(Get(f, "annotations")) == Ok(m.annotations)
    requires (if "children" in f then ReadChildren(f["children"]) else Ok([])) == Ok(m.children)
    ensures ReadNode(JObject(f)) == Ok(m)
  {
  }

  /** Reading the written children of `p` from position `k` on gives their projections. */
  lemma {:induction false} RoundTripItems(o: Options, p: Node, k: nat)
    requires k <= |p.children|
    ensures ReadItems(JArray(ChildrenJson(o, p)), k) == Ok(Project(o, p).children[k..])
    decreases p, 0, |p.children| - k
  {
    var v := JArray(ChildrenJson(o, p));
    if k < |p.children| {
      var c := p.children[k];
      assert v.items[k] == JObject(ChildFields(o, p, c));
      ParentIgnored(o, p, c);
      RoundTripNode(o, c);
      RoundTripItems(o, p, k + 1);
      var ps := Project(o, p).children;
      assert ps[k] == Project(o, c);
      assert ps[k..] == [ps[k]] + ps[k + 1..];
    } else {
      assert |v.items| == k && |Project(o, p).children| == k;
      assert ReadItems(v, k) == Ok([]);
      assert Project(o, p).children[k..] == [];
    }
  }

  /** The reader ignores the "parent" entry of a child's mapping. */
  lemma ParentIgnored(o: Options, p: Node, c: Node)
    requires c < p
    ensures ReadNode(JObject(ChildFields(o, p, c))) == ReadNode(JObject(NodeFields(o, c)))
  {
    if !o.suppressInternalNodeLabels {
      OtherKeyIgnored(NodeFields(o, c), "parent", LabelJson(p.name));
    }
  }

  /** An entry under a key the reader does not look at changes nothing. */
  lemma OtherKeyIgnored(g: map<string, Json>, key: string, x: Json)
    requires key != "name" && key != "length" && key != "taxon" && key != "children" && key != "annotations"
    ensures ReadNode(JObject(g[key := x])) == ReadNode(JObject(g))
  {
    var f := g[key := x];
    assert Get(f, "name") == Get(g, "name") && Get(f, "length") == Get(g, "length");
    assert Get(f, "taxon") == Get(g, "taxon") && Get(f, "annotations") == Get(g, "annotations");
    assert ("children" in f <==> "children" in g) && ("children" in f ==> f["children"] == g["children"]);
  }

  /** Reading a written tree gives back its label, its annotations when written and its projected seed. */
  lemma RoundTripTree(o: Options, t: PhyloTree)
    ensures ReadTree(JObject(TreeFields(o, t))) == Ok(ProjectTree(o, t))
  {
    TreeEntries(o, t);
    RoundTripNode(o, t.seed);
    LabelRoundTrip(t.name);
  }

  /** A list of one tree is written bare and read back as that one tree. */
  lemma RoundTripSingleTree(o: Options, tl: TreeList)
    requires |tl.trees| == 1
    ensures TreeListJson(o, tl).Ok? && ReadTrees(TreeListJson(o, tl).value) == Ok([ProjectTree(o, tl.trees[0])])
  {
    var doc := JObject(TreeFields(o, tl.trees[0]));
    RoundTripTree(o, tl.trees[0]);
    assert ReadTree([doc][0]) == Ok(ProjectTree(o, tl.trees[0]));
    var r := ReadTreeItems([doc]);
    assert r.Ok? && |r.value| == 1 && r.value[0] == ProjectTree(o, tl.trees[0]);
    assert r.value == [ProjectTree(o, tl.trees[0])];
  }

  /** With several trees, every mapping under "trees" reads back as its tree, in order. */
  lemma RoundTripTreeList(o: Options, tl: TreeList)
    requires |tl.trees| > 1
    ensures TreeListJson(o, tl).Ok? && ReadTrees(TreeListJson(o, tl).value.fields["trees"])
         == Ok(seq(|tl.trees|, k requires 0 <= k < |tl.trees| => ProjectTree(o, tl.trees[k])))
  {
    var items := TreesJson(o, tl.trees);
    forall k | 0 <= k < |items| ensures ReadTree(items[k]) == Ok(ProjectTree(o, tl.trees[k])) {
      RoundTripTree(o, tl.trees[k]);
    }
    var r := ReadTreeItems(items);
    assert r.Ok?;
    assert r.value == seq(|tl.trees|, k requires 0 <= k < |tl.trees| => ProjectTree(o, tl.trees[k]));
  }

  // ---------------------------------------------------------------------------------------
  // Writing everything and reading it back gives the node itself

  /** The options under which every label, taxon, edge length and annotation is written. */
  const Verbose := Options(false, false, false, false, false, true, false)

  /** No taxon in the subtree of `n` carries annotations (the reader does not read them). */
  predicate NoTaxonAnnotations(n: Node)
    decreases n
  {
    && (n.taxon.Some? ==> n.taxon.value.annotations == map[])
    && forall k :: 0 <= k < |n.children| ==> NoTaxonAnnotations(n.children[k])
  }

  /** Under `Verbose`, reading the written node gives back the node itself. */
  lemma {:induction false} ReadInvertsWrite(n: Node)
    requires NoTaxonAnnotations(n)
    ensures ReadNode(JObject(NodeFields(Verbose, n))) == Ok(n)
    decreases n
  {
    RoundTripNode(Verbose, n);
    VerboseKeepsAll(n);
  }

  lemma {:induction false} VerboseKeepsAll(n: Node)
    requires NoTaxonAnnotations(n)
    ensures Project(Verbose, n) == n
    decreases n
  {
    forall k | 0 <= k < |n.children| ensures Project(Verbose, n.children[k]) == n.children[k] {
      VerboseKeepsAll(n.children[k]);
    }
    assert Project(Verbose, n).children == n.children;
    if n.taxon.Some? {
      assert n.taxon == Some(Taxon(n.taxon.value.name, map[]));
    }
  }

  /** Under the default options a leaf's label is lost, and so are all annotations. */
  lemma DefaultsLoseLeafLabels(n: Node)
    ensures Project(Defaults, n).annotations == map[]
    ensures n.IsLeaf() ==> Project(Defaults, n).name.None?
    ensures !n.IsLeaf() ==> Project(Defaults, n).name == n.name
    ensures Project(Defaults, n).edgeLength == n.edgeLength
  {
  }
}
