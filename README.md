# DendroPy trees, JSON/D3 documents and GenBank relabelling in Dafny

This project models four parts of DendroPy, the Python library for phylogenetic computing.

- **The tree engine, as the tree-structure tests pin it down.** A tree is built from a seed node with `new_child`. It is walked in pre-, post-, in- and level order, with leaf-only and internal-only variants (with or without the seed) and with optional filters. It has node and edge collections, child and ancestor iterators and node finders. `calc_node_ages` gives each node an age: the greatest child age plus that child's edge length. The age-order iterator sorts nodes by age. The model keeps the nodes of a tree in an arena, a sequence of node records whose index is the node's handle. The seed is handle 0, and parent and child links are handles. The class `TreeModel.Tree` holds the arena and changes it in place. The fifteen-node calibration tree of the tests is built with the same method calls, and every expected sequence of the tests is proved about it.
- **The JSON tree writer.** Each node becomes a mapping with "name", "length", "taxon", "annotations", "children" and "parent" entries. The seven suppress/store flags decide which entries appear.
- **The JSON tree reader.** It inverts the writer: a document holding one tree or a list of trees is read back into nodes. The proofs show exactly what survives writing and reading back under each set of flags.
- **The D3 writer.** Each node becomes a mapping with exactly the keys "length", "parent", "children", "name" and, unless suppressed, "annotations". A leaf is shown by its taxon.
- **The NCBI defline relabeller.** It matches a GenBank FASTA defline `gi|<digits>|gb|<accession>.<version>|<description>` and composes a taxon label from the accession and the first description words.

Documents are JSON values (section 3 of RFC 8259), modelled as a datatype rather than as text. Annotations are modelled as a mapping from names to JSON values, which is what `values_as_dict` produces.

Modules:

| module | file | models |
|---|---|---|
| `Wrappers` | wrappers.dfy | `Option`, `Result` |
| `Json` | json.dfy | JSON values |
| `Phylo` | phylo.dfy | nested nodes, taxa, trees and tree lists as the reader and writers see them |
| `Seqs`, `Sorting` | seqs.dfy, sorting.dfy | filtering, and the stable sort by key behind `sorted(..., key=...)` |
| `Arenas` | arenas.dfy | node records, the arena invariant, `new_child`, edges |
| `TreeModel` | treemodel.dfy | the `Tree` class, `calc_node_ages`, arena to nested node |
| `Traversal` | traversal.dfy | every iterator and collection of the tree engine except age order |
| `NodeAges` | ages.dfy | node ages and the age-order iterator |
| `Calibration` | calibration.dfy | the calibration tree of the tests and its expected sequences |
| `JsonWriter`, `JsonReader`, `D3Writer` | jsonwriter.dfy, jsonreader.dfy, d3writer.dfy | the two writers and the reader |
| `Ncbi` | ncbi.dfy | defline matching and label composition |

Descending age order follows the test code (lines 570-577): a stable sort by age with `reverse=True`, so nodes of equal age stay in pre-order. The result is therefore not the ascending order reversed, and `NodeAges.DescendingIsNotReversed` proves this whenever two nodes share an age. A plain-language account of the iterator would call it "the reverse"; the model follows the code.

## Model

Source paths are relative to the repository root.

| member | source | states |
|---|---|---|
| Arenas.WithNewChild | dendropy/test/test_datamodel_tree_structure_and_iteration.py:188-271 | adding a child keeps the arena well formed; the new node is appended as the parent's last child and links back to it; no other node changes |
| Arenas.EdgeOf | dendropy/test/test_datamodel_tree_structure_and_iteration.py:316-321 | a node's edge has the node as head and carries its length; the tail is the parent, and a node has no tail exactly when it is the seed |
| TreeModel.Tree.NewChild | dendropy/test/test_datamodel_tree_structure_and_iteration.py:188-193 | `new_child` changes the tree's arena exactly as `WithNewChild` does, returns the new node's handle and keeps the tree valid |
| TreeModel.Tree.SetLabel | dendropy/test/test_datamodel_tree_structure_and_iteration.py:186 | setting a label changes that node's label only |
| TreeModel.Tree.SetEdgeLength | dendropy/test/test_datamodel_tree_structure_and_iteration.py:187 | setting an edge length changes that node's edge length only |
| TreeModel.Tree.CalcNodeAges | dendropy/test/test_datamodel_tree_structure_and_iteration.py:550-555 | succeeds exactly when the seed has an age; then every node stores its age; nothing but ages changes |
| TreeModel.NestedPreorder | dendropy/dataio/jsonwriter.py:232-245 | the nested node built from the arena lists its labels in the arena's pre-order |
| Calibration.GetTree | dendropy/test/test_datamodel_tree_structure_and_iteration.py:183-276 | `get_tree` builds the calibration arena |
| Calibration.BuiltShape | dendropy/test/test_datamodel_tree_structure_and_iteration.py:70-120 | that arena has the calibration shape (each node's children, in order) and its labels and edge lengths |
| Traversal.VisitFilter | dendropy/test/test_datamodel_tree_structure_and_iteration.py:404-412 | a filtered depth-first walk yields exactly the unfiltered walk's nodes that pass the filter, in the same order |
| Traversal.VisitsEveryNodeOnce | dendropy/test/test_datamodel_tree_structure_and_iteration.py:281-286 | each depth-first order from the seed visits every node exactly once |
| Traversal.LeavesSameInEveryOrder | dendropy/test/test_datamodel_tree_structure_and_iteration.py:534-548 | the leaves come out in the same order in pre-, post- and in-order |
| Traversal.PreorderNodeIter | dendropy/test/test_datamodel_tree_structure_and_iteration.py:398-412 | the pre-order iterator is the filtered pre-order |
| Traversal.PostorderNodeIter | dendropy/test/test_datamodel_tree_structure_and_iteration.py:450-464 | the post-order iterator is the filtered post-order |
| Traversal.InorderNodeIter | dendropy/test/test_datamodel_tree_structure_and_iteration.py:518-532 | the in-order iterator is the filtered in-order |
| Traversal.LeafNodeIter | dendropy/test/test_datamodel_tree_structure_and_iteration.py:534-548 | the leaf iterator yields the filtered leaves in pre-, post- and in-order alike |
| Traversal.PreorderInternalNodeIter | dendropy/test/test_datamodel_tree_structure_and_iteration.py:414-448 | internal nodes in pre-order, filtered, without the seed if asked |
| Traversal.PostorderInternalNodeIter | dendropy/test/test_datamodel_tree_structure_and_iteration.py:466-500 | internal nodes in post-order, filtered, without the seed if asked |
| Traversal.PreorderSeedExclusion | dendropy/test/test_datamodel_tree_structure_and_iteration.py:431-448 | excluding the seed removes only the seed, which pre-order lists first |
| Traversal.PostorderSeedExclusion | dendropy/test/test_datamodel_tree_structure_and_iteration.py:483-500 | excluding the seed removes only the seed, which post-order lists last |
| Traversal.Nodes | dendropy/test/test_datamodel_tree_structure_and_iteration.py:281-295 | `nodes(f)` holds each node passing `f` exactly once and no other |
| Traversal.NodeCount | dendropy/test/test_datamodel_tree_structure_and_iteration.py:281-286 | `nodes()` has as many entries as the tree has nodes |
| Traversal.LeafNodes | dendropy/test/test_datamodel_tree_structure_and_iteration.py:297-301 | `leaf_nodes()` holds each leaf exactly once and nothing else |
| Traversal.InternalNodes | dendropy/test/test_datamodel_tree_structure_and_iteration.py:303-314 | `internal_nodes()` holds each internal node once, without the seed if asked |
| Traversal.NodesPartition | dendropy/test/test_datamodel_tree_structure_and_iteration.py:281-314 | the leaves and internal nodes split the nodes; excluding the seed drops only the seed |
| Traversal.Edges | dendropy/test/test_datamodel_tree_structure_and_iteration.py:316-330 | `edges(f)` holds the edge of every node whose edge passes `f`, once each, and nothing else |
| Traversal.EdgesOnePerNode | dendropy/test/test_datamodel_tree_structure_and_iteration.py:316-321 | there is one edge per node, the seed's included, and their heads are the nodes |
| Traversal.LeafEdges | dendropy/test/test_datamodel_tree_structure_and_iteration.py:332-337 | `leaf_edges()` holds the edge of every leaf once and nothing else |
| Traversal.InternalEdges | dendropy/test/test_datamodel_tree_structure_and_iteration.py:339-352 | `internal_edges()` holds the edge of every internal node once, without the seed's edge if asked |
| Traversal.PreorderEdgeIter | dendropy/test/test_datamodel_tree_structure_and_iteration.py:589-603 | the edges of the filtered pre-order, node by node |
| Traversal.PreorderEdgesStartAtSeed | dendropy/test/test_datamodel_tree_structure_and_iteration.py:589-593 | the pre-order edges start with the seed's edge, which has no tail |
| Traversal.PreorderInternalEdgeIter | dendropy/test/test_datamodel_tree_structure_and_iteration.py:605-639 | the edges of internal nodes in pre-order, filtered, without the seed's if asked |
| Traversal.PostorderEdgeIter | dendropy/test/test_datamodel_tree_structure_and_iteration.py:641-655 | the edges of the filtered post-order |
| Traversal.PostorderInternalEdgeIter | dendropy/test/test_datamodel_tree_structure_and_iteration.py:657-691 | the edges of internal nodes in post-order, filtered, without the seed's if asked |
| Traversal.InorderEdgeIter | dendropy/test/test_datamodel_tree_structure_and_iteration.py:709-723 | the edges of the filtered in-order |
| Traversal.LeafEdgeIter | dendropy/test/test_datamodel_tree_structure_and_iteration.py:725-739 | the edges of the filtered leaves |
| Traversal.LevelorderNodeIter | dendropy/test/test_datamodel_tree_structure_and_iteration.py:502-516 | the queue-driven walk yields the filtered level order: the seed, then each generation's children left to right |
| Traversal.LevelorderEdgeIter | dendropy/test/test_datamodel_tree_structure_and_iteration.py:693-707 | the edges of the filtered level order |
| Traversal.LevelorderRearrangesPreorder | dendropy/test/test_datamodel_tree_structure_and_iteration.py:502-506 | level order holds the same nodes as pre-order, only rearranged |
| Traversal.ChildIter | dendropy/test/test_datamodel_tree_structure_and_iteration.py:742-755 | the child iterator yields the filtered children in order, each once, each linked back to the node |
| Traversal.AncestorChain | dendropy/test/test_datamodel_tree_structure_and_iteration.py:138-154 | the ancestors run parent by parent from the node's parent to the seed; the seed has none |
| Traversal.AncestorsAreWhatItDescendsFrom | dendropy/test/test_datamodel_tree_structure_and_iteration.py:138-154 | a node is an ancestor exactly when the walk descends from it and it is another node |
| Traversal.AncestorIter | dendropy/test/test_datamodel_tree_structure_and_iteration.py:757-787 | the ancestor iterator is the filtered chain, preceded by the node itself when inclusive |
| Traversal.FindNode | dendropy/test/test_datamodel_tree_structure_and_iteration.py:365-373 | `find_node` gives a node passing the filter, and gives nothing exactly when no node passes |
| Traversal.FindNodeWithLabel | dendropy/test/test_datamodel_tree_structure_and_iteration.py:375-384 | `find_node_with_label` gives a node with that label, and gives nothing exactly when no node has it |
| NodeAges.AgeOfLeaf | dendropy/test/test_datamodel_tree_structure_and_iteration.py:121-137 | a leaf has age 0 |
| NodeAges.AgeOfInternal | dendropy/test/test_datamodel_tree_structure_and_iteration.py:121-137 | an internal node has an age exactly when every child has an edge length and an age; the age is the greatest child age plus edge length, and some child attains it |
| NodeAges.AgeDefined | dendropy/test/test_datamodel_tree_structure_and_iteration.py:550-555 | a node has an age exactly when every edge below it has a length |
| NodeAges.AgeorderNodeIter | dendropy/test/test_datamodel_tree_structure_and_iteration.py:557-577 | age order fails exactly when ages are undefined; otherwise it is sorted by age (either direction) and holds exactly the filtered nodes |
| NodeAges.AgeorderVisitsOnce | dendropy/test/test_datamodel_tree_structure_and_iteration.py:557-561 | age order yields every qualifying node exactly once |
| NodeAges.AgeorderFilter | dendropy/test/test_datamodel_tree_structure_and_iteration.py:563-568 | the internal-only and filtered age orders are the full age order, filtered |
| NodeAges.AgeorderStable | dendropy/test/test_datamodel_tree_structure_and_iteration.py:570-577 | nodes of equal age come out in pre-order, in both directions |
| NodeAges.DescendingIsNotReversed | dendropy/test/test_datamodel_tree_structure_and_iteration.py:570-577 | if two qualifying nodes share an age, descending order is not ascending order reversed |
| Sorting.SortBySorts | dendropy/test/test_datamodel_tree_structure_and_iteration.py:574-576 | sorting by key gives a permutation whose keys never decrease |
| Sorting.SortByStable | dendropy/test/test_datamodel_tree_structure_and_iteration.py:574-576 | sorting by key keeps elements with equal keys in their original order |
| Calibration.CalibrationDepthFirst | dendropy/test/test_datamodel_tree_structure_and_iteration.py:63-68 | the calibration tree's pre-, post- and in-order sequences are the expected ones |
| Calibration.CalibrationLeaves | dendropy/test/test_datamodel_tree_structure_and_iteration.py:65 | its leaf sequence is i j k l m n o p |
| Calibration.CalibrationLevelorder | dendropy/test/test_datamodel_tree_structure_and_iteration.py:66 | its level order is a b c i e g f j k l m n h o p |
| Calibration.CalibrationAncestors | dendropy/test/test_datamodel_tree_structure_and_iteration.py:138-154 | every node's exclusive ancestor list is the expected one |
| Calibration.CalibrationAncestorsInclusive | dendropy/test/test_datamodel_tree_structure_and_iteration.py:773-778 | the inclusive walk up from o is o h f c a |
| Calibration.CalibrationAges | dendropy/test/test_datamodel_tree_structure_and_iteration.py:121-137 | every node's age is the expected one (a 50, c 36, f 23, b 17, h 11, g 6, e 3, leaves 0) |
| Calibration.CalibrationNodeAges | dendropy/test/test_datamodel_tree_structure_and_iteration.py:550-555 | after `calc_node_ages` on the built tree, every node stores its expected age |
| Calibration.CalibrationAgeorder | dendropy/test/test_datamodel_tree_structure_and_iteration.py:69 | ascending age order is i j k l m n o p e g h b f c a |
| Calibration.CalibrationAgeorderInternal | dendropy/test/test_datamodel_tree_structure_and_iteration.py:563-568 | without leaves it is e g h b f c a |
| Calibration.CalibrationAgeorderDescending | dendropy/test/test_datamodel_tree_structure_and_iteration.py:570-577 | descending age order is a c f b h g e i j k l m n o p, not the ascending order reversed |
| JsonWriter.TaxonFields | dendropy/dataio/jsonwriter.py:223-230 | a taxon mapping has its label under "name" and has "annotations" exactly when they are written |
| JsonWriter.NodeKeys | dendropy/dataio/jsonwriter.py:196-221 | a node mapping has no keys other than annotations, length, name, taxon and children |
| JsonWriter.NodeEntries | dendropy/dataio/jsonwriter.py:196-221 | each entry of a node mapping is present exactly under its flag condition, with the expected value; "children" exactly for internal nodes |
| JsonWriter.ChildEntries | dendropy/dataio/jsonwriter.py:232-245 | one mapping per child, in order: the child's node mapping, plus "parent" (the parent's label) exactly when internal labels are written |
| JsonWriter.TreeEntries | dendropy/dataio/jsonwriter.py:178-194 | a tree mapping has the label, the annotations and weight under their flags, and the seed's mapping under "data" |
| JsonWriter.TreesJson | dendropy/dataio/jsonwriter.py:161-165 | the per-tree mappings, one per tree, in list order |
| JsonWriter.TreeListJsonAsWritten | dendropy/dataio/jsonwriter.py:150-169 | as written: an empty list fails; one tree is written bare; several trees yield only the list's label and annotations |
| JsonWriter.AsWrittenLosesTrees | dendropy/dataio/jsonwriter.py:155-167 | as written, any two lists of several trees with equal label and annotations are written alike |
| JsonWriter.AsWrittenCounterexample | dendropy/dataio/jsonwriter.py:155-167 | two different lists of two trees whose written forms coincide |
| JsonWriter.TreeListJson | dendropy/dataio/jsonwriter.py:150-169 | corrected: several trees are written with the per-tree mappings under "trees" |
| JsonWriter.GetTaxonMetadata | dendropy/dataio/jsonwriter.py:223-230 | `_get_taxon_metadata` sets "taxon" to the taxon mapping |
| JsonWriter.GetNodeMetadata | dendropy/dataio/jsonwriter.py:196-221 | `_get_node_metadata` adds exactly the node's entries to `out` |
| JsonWriter.GetChildrenMetadata | dendropy/dataio/jsonwriter.py:232-245 | the loop builds exactly the children list |
| JsonWriter.GetTreeMetadata | dendropy/dataio/jsonwriter.py:178-194 | `_get_tree_metadata` on a tree object adds exactly the tree's entries |
| JsonWriter.SeedMetadata | dendropy/dataio/jsonwriter.py:189-194 | the loop over the nodes writes the mapping of the seed, the one node without a parent |
| JsonReader.ReadLabel | dendropy/dataio/jsonreader.py:206 | a label reads from null (no label) or a string, which becomes the label itself, and fails on anything else |
| JsonReader.ReadLength | dendropy/dataio/jsonreader.py:207 | an edge length reads from null (no length) or a number, which becomes the length itself, and fails on anything else |
| JsonReader.ReadTaxon | dendropy/dataio/jsonreader.py:209-211 | a taxon is absent exactly for null; a mapping reads exactly when its "name" reads as a label, and gives a taxon with that label and no annotations |
| JsonReader.ReadNodeParts | dendropy/dataio/jsonreader.py:203-219 | a node reads exactly when it is a mapping whose "name", "length", "taxon", "annotations" and (if present) "children" entries all read, and the node carries exactly those values, with no children when the key is absent |
| JsonReader.ReadAnnotations | dendropy/dataio/jsonreader.py:229-232 | annotations read from null or a mapping, whose entries they are |
| JsonReader.ReadItemsInOrder | dendropy/dataio/jsonreader.py:221-227 | a children list reads exactly when every item does, and yields their nodes in list order |
| JsonReader.ReadTreeItems | dendropy/dataio/jsonreader.py:157-161 | a list of trees reads exactly when every item does, and yields their trees in order |
| JsonReader.ParseNodeMetadata | dendropy/dataio/jsonreader.py:203-219 | `_parse_node_metadata` reads a node as `ReadNode` specifies |
| JsonReader.ParseChildrenMetadata | dendropy/dataio/jsonreader.py:221-227 | the loop appends the read children to the parent, in order, or fails as reading fails |
| JsonReader.ParseAnnotations | dendropy/dataio/jsonreader.py:229-232 | the loop adds every read annotation, the later one winning per key |
| JsonReader.ParseTreeMetadata | dendropy/dataio/jsonreader.py:185-201 | `_parse_tree_metadata` reads a tree as `ReadTree` specifies |
| JsonReader.TreeIter | dendropy/dataio/jsonreader.py:153-163 | `tree_iter` reads a single tree or a list of trees as `ReadTrees` specifies |
| JsonReader.RoundTripNode | dendropy/dataio/jsonreader.py:203-227 | reading back a written node gives the node less what the flags suppressed |
| JsonReader.ParentIgnored | dendropy/dataio/jsonreader.py:203-219 | the "parent" entry of a child mapping does not affect what is read |
| JsonReader.RoundTripTree | dendropy/dataio/jsonreader.py:185-201 | reading back a written tree gives the tree less what the flags suppressed |
| JsonReader.RoundTripSingleTree | dendropy/dataio/jsonreader.py:153-161 | a one-tree list, written and read back, gives that tree less what was suppressed |
| JsonReader.RoundTripTreeList | dendropy/dataio/jsonreader.py:153-161 | with the corrected writer, the "trees" entry of a written list reads back as every tree in order |
| JsonReader.ReadInvertsWrite | dendropy/dataio/jsonreader.py:203-227 | with every entry written, reading inverts writing for nodes whose taxa carry no annotations |
| JsonReader.DefaultsLoseLeafLabels | dendropy/dataio/jsonwriter.py:102-109 | with the writer's defaults, leaves lose their labels and nodes their annotations; internal labels and edge lengths survive |
| D3Writer.LengthJson | dendropy/dataio/d3writer.py:192-195 | the length entry is null exactly when the node has no edge length |
| D3Writer.D3Fields | dendropy/dataio/d3writer.py:176-209 | a D3 node mapping has exactly the fixed key set and one children entry per child |
| D3Writer.D3Defined | dendropy/dataio/d3writer.py:203-205 | a node can be written exactly when every leaf below it has a taxon |
| D3Writer.D3ChildrenEntries | dendropy/dataio/d3writer.py:211-221 | each child's entry is the child's mapping with this node's label as parent |
| D3Writer.ParentLinks | dendropy/dataio/d3writer.py:197-200 | every child names as "parent" the label shown under its parent's "name" |
| D3Writer.ShownByTaxon | dendropy/dataio/d3writer.py:190-209 | leaves show their taxon's label and annotations, other nodes their own; the seed's parent is null; length as its edge |
| D3Writer.D3TreeEntries | dendropy/dataio/d3writer.py:158-170 | a tree document holds its annotations, its label under "name" and the seed's mapping under "tree" |
| D3Writer.D3DocsWritten | dendropy/dataio/d3writer.py:150-156 | the documents written are those of the first trees, in order |
| D3Writer.D3DocsStop | dendropy/dataio/d3writer.py:150-156 | writing stops at the first tree that cannot be written, after all the ones before it |
| D3Writer.AddNodeMetadata | dendropy/dataio/d3writer.py:176-209 | `_add_node_metadata` adds exactly the node's D3 mapping to `out`, or fails as it does |
| D3Writer.GetChildrenMetadata | dendropy/dataio/d3writer.py:211-221 | the loop builds exactly the children list, or fails at the first unwritable child |
| D3Writer.WriteTree | dendropy/dataio/d3writer.py:158-174 | `_write_tree` on a tree object gives exactly its D3 document |
| D3Writer.SeedData | dendropy/dataio/d3writer.py:165-169 | the loop over the nodes writes the seed's mapping |
| D3Writer.WriteTreeList | dendropy/dataio/d3writer.py:150-156 | `_write_tree_list` yields the documents of the trees, up to the first error |
| Ncbi.MatchSound | dendropy/interop/ncbi.py:34 | a match is a decomposition of the string into the defline's fields |
| Ncbi.MatchComplete | dendropy/interop/ncbi.py:34 | every string that decomposes matches, with the longest accession the pattern allows |
| Ncbi.DecompositionUnique | dendropy/interop/ncbi.py:34 | two decompositions with the same accession length are equal |
| Ncbi.MatchOfText | dendropy/interop/ncbi.py:34 | the text of a well-formed defline whose character between accession and version is not a word character matches as that defline (with a word character there the greedy accession may swallow it) |
| Ncbi.DescPartsAreWords | dendropy/interop/ncbi.py:60 | the description parts are its whitespace-separated words, non-empty and blank-free |
| Ncbi.WordsKeepText | dendropy/interop/ncbi.py:60 | splitting into words loses only whitespace |
| Ncbi.WordsSeparated | dendropy/interop/ncbi.py:60 | the words are maximal: the string is its words interleaved with whitespace runs, and the run between two consecutive words is non-empty |
| Ncbi.TakePrefix | dendropy/interop/ncbi.py:62-64 | the slice `[:n]` keeps the first `n` words, or all but the last `-n` for negative `n` |
| Ncbi.JoinSplit | dendropy/interop/ncbi.py:65 | joining parts with a separator character they avoid can be split back into them |
| Ncbi.NotDeflineUnchanged | dendropy/interop/ncbi.py:57-67 | a string that is not a defline is returned unchanged |
| Ncbi.DeflineLabel | dendropy/interop/ncbi.py:57-65 | a defline's label is the accession first or last plus at most `n` words, and splits back into them |
| Ncbi.ComposeIdempotent | dendropy/interop/ncbi.py:36-67 | with the accession in front and a separator that is non-empty and does not start with 'i' or a vertical bar, composing a label from its own result changes nothing |
| Ncbi.ComposeExample | dendropy/interop/ncbi.py:46-52 | the documented defline becomes EU105975_Homo_sapiens_Ache |
| Ncbi.RelabelTaxaFromDefline | dendropy/interop/ncbi.py:89-95 | every taxon's label is relabelled in order; it fails exactly when a taxon has no label, and later taxa keep theirs |
| Ncbi.RelabelIdempotent | dendropy/interop/ncbi.py:89-95 | with the accession in front and a separator that is non-empty and does not start with 'i' or a vertical bar, relabelling a second time changes nothing, also when a missing label stops the pass |

## Left out

- JSON text: `json.dumps` and `json.loads` are not modelled. Documents are JSON values, and the stream writes and newlines are left out.
- Printing: the D3 writer's second, indented `print` of each document is console output, not part of the result.
- Number formatting: `real_value_format_specifier` is not part of the model, nor is any other formatting of edge lengths as text.
- Floating point: edge lengths, ages and weights are exact reals, so no rounding is modelled.
- Writer plumbing: the keyword arguments are modelled as flag records. `preserve_spaces` and `suppress_item_comments` are never consulted by these writers. The `attached_taxon_namespace` check, which skips lists from other namespaces, is left out.
- Reader options and taxon namespaces: the reader's keyword options are never consulted. Its taxa are fresh objects, not entries of a taxon namespace.
- `add_child`'s re-parenting and cycle handling: the reader only attaches fresh nodes, and the arena only appends, so neither path arises.
- Generators: the traversals are Python generators; the model computes the whole sequence.
- Entrez: the `Entrez` class and its network fetches are I/O and are not modelled.
- The regular-expression engine: it is modelled only as far as `GB_FASTA_DEFLINE_PATTERN` needs, with greedy accession backtracking. The `.` between accession and version matches any character except a newline.
- `dendropy/tests/test_popgenstats.py` is not part of this model.
- The test harness: the `unittest` scaffolding is left out. The second `test_leaf_node_iter_filtered` (line 579) replaces the first (line 540) in the class, so only one runs; both are covered by `Traversal.LeafNodeIter`.
- JsonReader.ReadLabel: Python stores whatever JSON value sits under "name" as the label. The model reads only null or a string and reports any other value as an error.
- JsonReader.ReadLength: Python stores whatever sits under "length". The model reads only null or a number and reports any other value as an error.
- JsonReader.ReadChildren: an empty string or an empty mapping under "children" iterates over nothing, as in Python. A non-empty string or mapping iterates over strings or keys, which are not mappings, so the model reports an error.
- JsonReader.ReadTaxon: the reader builds a taxon from its "name" only. The taxon's annotations, which the writer may emit, are not read back; `JsonReader.Project` records the loss.
- JsonReader.ReadTree: the tree's weight is not read back even when the writer stores it; `JsonReader.ProjectTree` records the loss.
- Ncbi.RelabelTaxaFromDefline: a taxon whose label is `None` makes `re.match` raise. The model stops there and leaves the later labels unchanged.
- Ncbi.IsWordChar, Ncbi.IsDigit, Ncbi.IsSpace: `\w`, `\d` and the whitespace of `split()` are the ASCII classes of Python 2 byte strings; the module is Python 2 code (`urllib.urlencode` and `urllib.urlopen`, dendropy/interop/ncbi.py:197-198). Under Python 3 `str` these classes also take in non-ASCII letters and digits and separators such as U+00A0, U+0085 and U+001C-U+001F; the model does not capture that.
- JsonReader.ParseAnnotations: DendroPy's annotation set keeps every added annotation, even when two share a name. The model's annotations are a mapping, so the last value per name wins. The writers' `values_as_dict` collapses repeated names in the same way.

## Findings

| source | as written | input that shows it | evidently intended | confidence | as-written member | corrected member |
|---|---|---|---|---|---|---|
| dendropy/dataio/jsonwriter.py:155-167 | with more than one tree, `_write_tree_list` builds the list `trees` of per-tree mappings but writes only `metadata` (label and annotations), so every tree is lost | two tree lists with no label, one holding two trees labelled "t1" and the other two labelled "t2", are written as the same document | attach the per-tree mappings to the written document under "trees" | not executed | JsonWriter.TreeListJsonAsWritten, JsonWriter.AsWrittenCounterexample | JsonWriter.TreeListJson, JsonReader.RoundTripTreeList |
