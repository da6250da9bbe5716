/**
 * The detached, nested form of the phylogenetic data: a taxon, a node that owns its ordered
 * children, a tree with its seed node, and a list of trees. Readers build these values and
 * writers consume them; `TreeModel.Nested` gives this form of an arena tree.
 */
module Phylo {
  import opened Wrappers
  import opened Json

  /** An annotation set as `values_as_dict()` presents it: name -> value. */
  type Annotations = map<string, Json>

  // Every `name` field below holds the `label` attribute of the corresponding object
  // (`label` is a reserved word in Dafny).

  /** An operational taxonomic unit. */
  datatype Taxon = Taxon(name: Option<string>, annotations: Annotations)

  /**
   * A node together with its subtree. `edgeLength` is the length of the node's incoming edge
   * (every node owns one); `children` are in insertion order.
   */
  datatype Node = Node(
    name: Option<string>,
    edgeLength: Option<real>,
    taxon: Option<Taxon>,
    annotations: Annotations,
    children: seq<Node>)
  {
    predicate IsLeaf() { children == [] }
  }

  datatype PhyloTree = PhyloTree(
    name: Option<string>,
    weight: Option<real>,
    annotations: Annotations,
    seed: Node)

  datatype TreeList = TreeList(name: Option<string>, annotations: Annotations, trees: seq<PhyloTree>)

  /** A label as JSON: the string, or null for `None`. */
  function LabelJson(name: Option<string>): (j: Json)
    ensures j.JNull? <==> name.None?
    ensures name.Some? ==> j == JString(name.value)
  {
    match name
    case None => JNull
    case Some(s) => JString(s)
  }
}
