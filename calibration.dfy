/**
 * The fifteen-node calibration tree of the tree-structure tests, and what every traversal,
 * collection, ancestor walk and age computation yields on it.
 *
 *                  a
 *          b               c
 *       i     e        g       f
 *            j k      l m    n    h
 *                                o p
 */
module Calibration {
  import opened Wrappers
  import opened Seqs
  import opened Arenas
  import opened Traversal
  import opened Sorting
  import opened NodeAges
  import opened TreeModel

  // The handles `get_tree` gives the nodes (the order of the `new_child` calls).
  const A: nat := 0
  const B: nat := 1
  const C: nat := 2
  const I: nat := 3
  const E: nat := 4
  const J: nat := 5
  const K: nat := 6
  const G: nat := 7
  const F: nat := 8
  const L: nat := 9
  const M: nat := 10
  const N: nat := 11
  const H: nat := 12
  const O: nat := 13
  const P: nat := 14

  /** The shape of the calibration tree: children in the order they were added. */
  predicate Shaped(a: Arena) {
    WellFormed(a) && Outline(a)
  }

  /** Who is whose child in the calibration tree, without the graph invariants. */
  predicate Outline(a: Arena) {
    && |a| == 15
    && Fork(a, A, B, C) && Fork(a, B, I, E) && Fork(a, C, G, F) && Fork(a, E, J, K)
    && Fork(a, G, L, M) && Fork(a, F, N, H) && Fork(a, H, O, P)
    && Tip(a, I) && Tip(a, J) && Tip(a, K) && Tip(a, L) && Tip(a, M) && Tip(a, N) && Tip(a, O) && Tip(a, P)
  }

  /** Node `i` has the two children `c` and `d`, in that order. */
  predicate Fork(a: Arena, i: nat, c: nat, d: nat) {
    i < |a| && a[i].children == [c, d]
  }

  /** Node `i` is a leaf. */
  predicate Tip(a: Arena, i: nat) {
    i < |a| && a[i].children == []
  }

  /** Labels and edge lengths of the calibration tree. */
  predicate Labelled(a: Arena)
    requires |a| == 15
  {
    && a[A].name == Some("a") && a[B].name == Some("b") && a[C].name == Some("c")
    && a[I].name == Some("i") && a[E].name == Some("e") && a[J].name == Some("j")
    && a[K].name == Some("k") && a[G].name == Some("g") && a[F].name == Some("f")
    && a[L].name == Some("l") && a[M].name == Some("m") && a[N].name == Some("n")
    && a[H].name == Some("h") && a[O].name == Some("o") && a[P].name == Some("p")
    && a[A].edgeLength == Some(15.0) && a[B].edgeLength == Some(33.0) && a[C].edgeLength == Some(14.0)
    && a[I].edgeLength == Some(17.0) && a[E].edgeLength == Some(14.0) && a[J].edgeLength == Some(3.0)
    && a[K].edgeLength == Some(3.0) && a[G].edgeLength == Some(30.0) && a[F].edgeLength == Some(13.0)
    && a[L].edgeLength == Some(6.0) && a[M].edgeLength == Some(6.0) && a[N].edgeLength == Some(23.0)
    && a[H].edgeLength == Some(12.0) && a[O].edgeLength == Some(11.0) && a[P].edgeLength == Some(11.0)
  }

  /** The seed `a` with its two children `b` and `c`. */
  function Top(): (r: Arena)
    ensures WellFormed(r) && |r| == 3
  {
    var a0 := WithEdgeLength(WithName([FreshRecord(None, None, None)], A, Some("a")), A, Some(15.0));
    var a1 := WithNewChild(a0, A, Some("b"), Some(33.0), None);
    WithNewChild(a1, A, Some("c"), Some(14.0), None)
  }

  /** `a` with the subtree below `b` added: `i` and `e`, and `e`'s children `j` and `k`. */
  function WithLeftSubtree(a: Arena): (r: Arena)
    requires WellFormed(a) && |a| == 3
    ensures WellFormed(r) && |r| == 7
  {
    var a3 := WithNewChild(a, B, Some("i"), Some(17.0), None);
    var a4 := WithNewChild(a3, B, Some("e"), Some(14.0), None);
    var a5 := WithNewChild(a4, E, Some("j"), Some(3.0), None);
    WithNewChild(a5, E, Some("k"), Some(3.0), None)
  }

  /** `a` with the subtree below `c` added: `g` with `l` and `m`, then `f` with its subtree. */
  function WithRightSubtree(a: Arena): (r: Arena)
    requires WellFormed(a) && |a| == 7
    ensures WellFormed(r) && |r| == 15
  {
    var a7 := WithNewChild(a, C, Some("g"), Some(30.0), None);
    var a8 := WithNewChild(a7, C, Some("f"), Some(13.0), None);
    var a9 := WithNewChild(a8, G, Some("l"), Some(6.0), None);
    WithFSubtree(WithNewChild(a9, G, Some("m"), Some(6.0), None))
  }

  /** `a` with the subtree below `f` added: `n` and `h`, and `h`'s children `o` and `p`. */
  function WithFSubtree(a: Arena): (r: Arena)
    requires WellFormed(a) && |a| == 11
    ensures WellFormed(r) && |r| == 15
  {
    var a11 := WithNewChild(a, F, Some("n"), Some(23.0), None);
    var a12 := WithNewChild(a11, F, Some("h"), Some(12.0), None);
    var a13 := WithNewChild(a12, H, Some("o"), Some(11.0), None);
    WithNewChild(a13, H, Some("p"), Some(11.0), None)
  }

  /** The arena `get_tree` builds. */
  function Built(): (r: Arena)
    ensures WellFormed(r)
  {
    WithRightSubtree(WithLeftSubtree(Top()))
  }

  lemma TopShape()
    ensures Top()[A].children == [B, C] && Top()[B].children == [] && Top()[C].children == []
    ensures Top()[A].name == Some("a") && Top()[B].name == Some("b") && Top()[C].name == Some("c")
    ensures Top()[A].edgeLength == Some(15.0) && Top()[B].edgeLength == Some(33.0) && Top()[C].edgeLength == Some(14.0)
  {
  }

  lemma LeftShape(a: Arena)
    requires WellFormed(a) && |a| == 3 && a[B].children == []
    ensures var r := WithLeftSubtree(a);
      && r[A] == a[A] && r[C] == a[C] && r[B] == a[B].(children := [I, E])
      && r[I] == FreshRecord(Some("i"), Some(17.0), None).(parent := Some(B))
      && r[E] == FreshRecord(Some("e"), Some(14.0), None).(parent := Some(B), children := [J, K])
      && r[J] == FreshRecord(Some("j"), Some(3.0), None).(parent := Some(E))
      && r[K] == FreshRecord(Some("k"), Some(3.0), None).(parent := Some(E))
  {
  }

  lemma RightShape(a: Arena)
    requires WellFormed(a) && |a| == 7 && a[C].children == []
    ensures var r := WithRightSubtree(a);
      && (forall i :: 0 <= i < 7 && i != C ==> r[i] == a[i]) && r[C] == a[C].(children := [G, F])
      && r[G] == FreshRecord(Some("g"), Some(30.0), None).(parent := Some(C), children := [L, M])
      && r[F] == FreshRecord(Some("f"), Some(13.0), None).(parent := Some(C), children := [N, H])
      && r[L] == FreshRecord(Some("l"), Some(6.0), None).(parent := Some(G))
      && r[M] == FreshRecord(Some("m"), Some(6.0), None).(parent := Some(G))
      && r[N] == FreshRecord(Some("n"), Some(23.0), None).(parent := Some(F))
      && r[H] == FreshRecord(Some("h"), Some(12.0), None).(parent := Some(F), children := [O, P])
      && r[O] == FreshRecord(Some("o"), Some(11.0), None).(parent := Some(H))
      && r[P] == FreshRecord(Some("p"), Some(11.0), None).(parent := Some(H))
  {
    var a7 := WithNewChild(a, C, Some("g"), Some(30.0), None);
    var a8 := WithNewChild(a7, C, Some("f"), Some(13.0), None);
    var a9 := WithNewChild(a8, G, Some("l"), Some(6.0), None);
    var a10 := WithNewChild(a9, G, Some("m"), Some(6.0), None);
    assert a10[F] == FreshRecord(Some("f"), Some(13.0), None).(parent := Some(C));
    FShape(a10);
  }

  lemma FShape(a: Arena)
    requires WellFormed(a) && |a| == 11 && a[F].children == []
    ensures var r := WithFSubtree(a);
      && (forall i :: 0 <= i < 11 && i != F ==> r[i] == a[i]) && r[F] == a[F].(children := [N, H])
      && r[N] == FreshRecord(Some("n"), Some(23.0), None).(parent := Some(F))
      && r[H] == FreshRecord(Some("h"), Some(12.0), None).(parent := Some(F), children := [O, P])
      && r[O] == FreshRecord(Some("o"), Some(11.0), None).(parent := Some(H))
      && r[P] == FreshRecord(Some("p"), Some(11.0), None).(parent := Some(H))
  {
  }

  /** `get_tree` yields the calibration tree with its labels and edge lengths. */
  lemma BuiltShape()
    ensures Shaped(Built()) && Labelled(Built())
  {
    TopShape();
    LeftShape(Top());
    RightShape(WithLeftSubtree(Top()));
  }

  /** `get_tree`: label the seed, then add the other fourteen nodes with `new_child`. */
  method GetTree() returns (t: Tree)
    ensures fresh(t) && t.Valid() && t.nodes == Built()
  {
    t := new Tree();
    t.SetLabel(A, Some("a"));
    t.SetEdgeLength(A, Some(15.0));
    var b := t.NewChild(A, Some("b"), Some(33.0), None);
    var c := t.NewChild(A, Some("c"), Some(14.0), None);
    AddLeftSubtree(t, b);
    AddRightSubtree(t, c);
  }

  method AddLeftSubtree(t: Tree, b: nat)
    requires t.Valid() && |t.nodes| == 3 && b == B
    modifies t
    ensures t.Valid() && t.nodes == WithLeftSubtree(old(t.nodes))
  {
    var i := t.NewChild(b, Some("i"), Some(17.0), None);
    var e := t.NewChild(b, Some("e"), Some(14.0), None);
    var j := t.NewChild(e, Some("j"), Some(3.0), None);
    var k := t.NewChild(e, Some("k"), Some(3.0), None);
  }

  method AddRightSubtree(t: Tree, c: nat)
    requires t.Valid() && |t.nodes| == 7 && c == C
    modifies t
    ensures t.Valid() && t.nodes == WithRightSubtree(old(t.nodes))
  {
    var g := t.NewChild(c, Some("g"), Some(30.0), None);
    var f := t.NewChild(c, Some("f"), Some(13.0), None);
    var l := t.NewChild(g, Some("l"), Some(6.0), None);
    var m := t.NewChild(g, Some("m"), Some(6.0), None);
    AddFSubtree(t, f);
  }

  method AddFSubtree(t: Tree, f: nat)
    requires t.Valid() && |t.nodes| == 11 && f == F
    modifies t
    ensures t.Valid() && t.nodes == WithFSubtree(old(t.nodes))
  {
    var n := t.NewChild(f, Some("n"), Some(23.0), None);
    var h := t.NewChild(f, Some("h"), Some(12.0), None);
    var o := t.NewChild(h, Some("o"), Some(11.0), None);
    var p := t.NewChild(h, Some("p"), Some(11.0), None);
  }

  // ---------------------------------------------------------------------------------------
  // Depth-first orders

  lemma LeafVisit(a: Arena, i: nat, ord: DfsOrder)
    requires WellFormed(a) && Tip(a, i)
    ensures Visit(a, i, ord, All) == [i]
  {
  }

  /** The children of a node with two children, as a sequence of subtrees. */
  lemma PairChildren(a: Arena, i: nat, c: nat, d: nat, ord: DfsOrder)
    requires WellFormed(a) && Fork(a, i, c, d)
    ensures i < c < |a| && i < d < |a| && After(a, i, [c, d]) && After(a, i, [d])
    ensures VisitAll(a, i, [c, d], ord, All) == Visit(a, c, ord, All) + Visit(a, d, ord, All)
    ensures VisitAll(a, i, [d], ord, All) == Visit(a, d, ord, All)
  {
    assert ChildrenLinked(a, i);
    assert a[i].children[0] == c && a[i].children[1] == d;
    assert [c, d][1..] == [d];
    assert [d][1..] == [];
    assert VisitAll(a, i, [d], ord, All) == Visit(a, d, ord, All) + VisitAll(a, i, [], ord, All);
  }

  /** Pre-order at a node with two children: the node, then each child's subtree. */
  lemma PairPre(a: Arena, i: nat, c: nat, d: nat, sc: seq<nat>, sd: seq<nat>, r: seq<nat>)
    requires WellFormed(a) && Fork(a, i, c, d) && c < |a| && d < |a|
    requires Visit(a, c, Pre, All) == sc && Visit(a, d, Pre, All) == sd && r == [i] + sc + sd
    ensures Visit(a, i, Pre, All) == r
  {
    PairChildren(a, i, c, d, Pre);
  }

  /** Post-order at a node with two children: each child's subtree, then the node. */
  lemma PairPost(a: Arena, i: nat, c: nat, d: nat, sc: seq<nat>, sd: seq<nat>, r: seq<nat>)
    requires WellFormed(a) && Fork(a, i, c, d) && c < |a| && d < |a|
    requires Visit(a, c, Post, All) == sc && Visit(a, d, Post, All) == sd && r == sc + sd + [i]
    ensures Visit(a, i, Post, All) == r
  {
    PairChildren(a, i, c, d, Post);
  }

  /** In-order at a node with two children: the first child's subtree, the node, the second's. */
  lemma PairIn(a: Arena, i: nat, c: nat, d: nat, sc: seq<nat>, sd: seq<nat>, r: seq<nat>)
    requires WellFormed(a) && Fork(a, i, c, d) && c < |a| && d < |a|
    requires Visit(a, c, In, All) == sc && Visit(a, d, In, All) == sd && r == sc + [i] + sd
    ensures Visit(a, i, In, All) == r
  {
    PairChildren(a, i, c, d, In);
    assert a[i].children[1..] == [d];
  }

  lemma SubtreeHPre(a: Arena)
    requires WellFormed(a) && Fork(a, H, O, P) && Tip(a, O) && Tip(a, P)
    ensures Visit(a, H, Pre, All) == [H, O, P]
  {
    LeafVisit(a, O, Pre);
    LeafVisit(a, P, Pre);
    assert [H] + [O] + [P] == [H, O, P];
    PairPre(a, H, O, P, [O], [P], [H, O, P]);
  }

  lemma SubtreeFPre(a: Arena)
    requires WellFormed(a) && Fork(a, F, N, H) && Tip(a, N) && Fork(a, H, O, P) && Tip(a, O) && Tip(a, P)
    ensures Visit(a, F, Pre, All) == [F, N, H, O, P]
  {
    LeafVisit(a, N, Pre);
    SubtreeHPre(a);
    assert [F] + [N] + [H, O, P] == [F, N, H, O, P];
    PairPre(a, F, N, H, [N], [H, O, P], [F, N, H, O, P]);
  }

  lemma SubtreeGPre(a: Arena)
    requires WellFormed(a) && Fork(a, G, L, M) && Tip(a, L) && Tip(a, M)
    ensures Visit(a, G, Pre, All) == [G, L, M]
  {
    LeafVisit(a, L, Pre);
    LeafVisit(a, M, Pre);
    assert [G] + [L] + [M] == [G, L, M];
    PairPre(a, G, L, M, [L], [M], [G, L, M]);
  }

  lemma SubtreeCPre(a: Arena)
    requires WellFormed(a) && Fork(a, C, G, F) && Fork(a, G, L, M) && Tip(a, L) && Tip(a, M) && Fork(a, F, N, H)
    requires Tip(a, N) && Fork(a, H, O, P) && Tip(a, O) && Tip(a, P)
    ensures Visit(a, C, Pre, All) == [C, G, L, M, F, N, H, O, P]
  {
    SubtreeGPre(a);
    SubtreeFPre(a);
    assert [C] + [G, L, M] + [F, N, H, O, P] == [C, G, L, M, F, N, H, O, P];
    PairPre(a, C, G, F, [G, L, M], [F, N, H, O, P], [C, G, L, M, F, N, H, O, P]);
  }

  lemma SubtreeEPre(a: Arena)
    requires WellFormed(a) && Fork(a, E, J, K) && Tip(a, J) && Tip(a, K)
    ensures Visit(a, E, Pre, All) == [E, J, K]
  {
    LeafVisit(a, J, Pre);
    LeafVisit(a, K, Pre);
    assert [E] + [J] + [K] == [E, J, K];
    PairPre(a, E, J, K, [J], [K], [E, J, K]);
  }

  lemma SubtreeBPre(a: Arena)
    requires WellFormed(a) && Fork(a, B, I, E) && Tip(a, I) && Fork(a, E, J, K) && Tip(a, J) && Tip(a, K)
    ensures Visit(a, B, Pre, All) == [B, I, E, J, K]
  {
    LeafVisit(a, I, Pre);
    SubtreeEPre(a);
    assert [B] + [I] + [E, J, K] == [B, I, E, J, K];
    PairPre(a, B, I, E, [I], [E, J, K], [B, I, E, J, K]);
  }

  lemma SubtreeAPre(a: Arena)
    requires WellFormed(a) && Fork(a, A, B, C) && Fork(a, B, I, E) && Tip(a, I) && Fork(a, E, J, K) && Tip(a, J)
    requires Tip(a, K) && Fork(a, C, G, F) && Fork(a, G, L, M) && Tip(a, L) && Tip(a, M)
    requires Fork(a, F, N, H) && Tip(a, N) && Fork(a, H, O, P) && Tip(a, O) && Tip(a, P)
    ensures Visit(a, A, Pre, All) == [A, B, I, E, J, K, C, G, L, M, F, N, H, O, P]
  {
    SubtreeBPre(a);
    SubtreeCPre(a);
    assert [A] + [B, I, E, J, K] + [C, G, L, M, F, N, H, O, P] == [A, B, I, E, J, K, C, G, L, M, F, N, H, O, P];
    PairPre(a, A, B, C, [B, I, E, J, K], [C, G, L, M, F, N, H, O, P], [A, B, I, E, J, K, C, G, L, M, F, N, H, O, P]);
  }

  lemma SubtreeHPost(a: Arena)
    requires WellFormed(a) && Fork(a, H, O, P) && Tip(a, O) && Tip(a, P)
    ensures Visit(a, H, Post, All) == [O, P, H]
  {
    LeafVisit(a, O, Post);
    LeafVisit(a, P, Post);
    assert [O] + [P] + [H] == [O, P, H];
    PairPost(a, H, O, P, [O], [P], [O, P, H]);
  }

  lemma SubtreeFPost(a: Arena)
    requires WellFormed(a) && Fork(a, F, N, H) && Tip(a, N) && Fork(a, H, O, P) && Tip(a, O) && Tip(a, P)
    ensures Visit(a, F, Post, All) == [N, O, P, H, F]
  {
    LeafVisit(a, N, Post);
    SubtreeHPost(a);
    assert [N] + [O, P, H] + [F] == [N, O, P, H, F];
    PairPost(a, F, N, H, [N], [O, P, H], [N, O, P, H, F]);
  }

  lemma SubtreeGPost(a: Arena)
    requires WellFormed(a) && Fork(a, G, L, M) && Tip(a, L) && Tip(a, M)
    ensures Visit(a, G, Post, All) == [L, M, G]
  {
    LeafVisit(a, L, Post);
    LeafVisit(a, M, Post);
    assert [L] + [M] + [G] == [L, M, G];
    PairPost(a, G, L, M, [L], [M], [L, M, G]);
  }

  lemma SubtreeCPost(a: Arena)
    requires WellFormed(a) && Fork(a, C, G, F) && Fork(a, G, L, M) && Tip(a, L) && Tip(a, M) && Fork(a, F, N, H)
    requires Tip(a, N) && Fork(a, H, O, P) && Tip(a, O) && Tip(a, P)
    ensures Visit(a, C, Post, All) == [L, M, G, N, O, P, H, F, C]
  {
    SubtreeGPost(a);
    SubtreeFPost(a);
    assert [L, M, G] + [N, O, P, H, F] + [C] == [L, M, G, N, O, P, H, F, C];
    PairPost(a, C, G, F, [L, M, G], [N, O, P, H, F], [L, M, G, N, O, P, H, F, C]);
  }

  lemma SubtreeEPost(a: Arena)
    requires WellFormed(a) && Fork(a, E, J, K) && Tip(a, J) && Tip(a, K)
    ensures Visit(a, E, Post, All) == [J, K, E]
  {
    LeafVisit(a, J, Post);
    LeafVisit(a, K, Post);
    assert [J] + [K] + [E] == [J, K, E];
    PairPost(a, E, J, K, [J], [K], [J, K, E]);
  }

  lemma SubtreeBPost(a: Arena)
    requires WellFormed(a) && Fork(a, B, I, E) && Tip(a, I) && Fork(a, E, J, K) && Tip(a, J) && Tip(a, K)
    ensures Visit(a, B, Post, All) == [I, J, K, E, B]
  {
    LeafVisit(a, I, Post);
    SubtreeEPost(a);
    assert [I] + [J, K, E] + [B] == [I, J, K, E, B];
    PairPost(a, B, I, E, [I], [J, K, E], [I, J, K, E, B]);
  }

  lemma SubtreeAPost(a: Arena)
    requires WellFormed(a) && Fork(a, A, B, C) && Fork(a, B, I, E) && Tip(a, I) && Fork(a, E, J, K) && Tip(a, J)
    requires Tip(a, K) && Fork(a, C, G, F) && Fork(a, G, L, M) && Tip(a, L) && Tip(a, M)
    requires Fork(a, F, N, H) && Tip(a, N) && Fork(a, H, O, P) && Tip(a, O) && Tip(a, P)
    ensures Visit(a, A, Post, All) == [I, J, K, E, B, L, M, G, N, O, P, H, F, C, A]
  {
    SubtreeBPost(a);
    SubtreeCPost(a);
    assert [I, J, K, E, B] + [L, M, G, N, O, P, H, F, C] + [A] == [I, J, K, E, B, L, M, G, N, O, P, H, F, C, A];
    PairPost(a, A, B, C, [I, J, K, E, B], [L, M, G, N, O, P, H, F, C], [I, J, K, E, B, L, M, G, N, O, P, H, F, C, A]);
  }

  lemma SubtreeHIn(a: Arena)
    requires WellFormed(a) && Fork(a, H, O, P) && Tip(a, O) && Tip(a, P)
    ensures Visit(a, H, In, All) == [O, H, P]
  {
    LeafVisit(a, O, In);
    LeafVisit(a, P, In);
    assert [O] + [H] + [P] == [O, H, P];
    PairIn(a, H, O, P, [O], [P], [O, H, P]);
  }

  lemma SubtreeFIn(a: Arena)
    requires WellFormed(a) && Fork(a, F, N, H) && Tip(a, N) && Fork(a, H, O, P) && Tip(a, O) && Tip(a, P)
    ensures Visit(a, F, In, All) == [N, F, O, H, P]
  {
    LeafVisit(a, N, In);
    SubtreeHIn(a);
    assert [N] + [F] + [O, H, P] == [N, F, O, H, P];
    PairIn(a, F, N, H, [N], [O, H, P], [N, F, O, H, P]);
  }

  lemma SubtreeGIn(a: Arena)
    requires WellFormed(a) && Fork(a, G, L, M) && Tip(a, L) && Tip(a, M)
    ensures Visit(a, G, In, All) == [L, G, M]
  {
    LeafVisit(a, L, In);
    LeafVisit(a, M, In);
    assert [L] + [G] + [M] == [L, G, M];
    PairIn(a, G, L, M, [L], [M], [L, G, M]);
  }

  lemma SubtreeCIn(a: Arena)
    requires WellFormed(a) && Fork(a, C, G, F) && Fork(a, G, L, M) && Tip(a, L) && Tip(a, M) && Fork(a, F, N, H)
    requires Tip(a, N) && Fork(a, H, O, P) && Tip(a, O) && Tip(a, P)
    ensures Visit(a, C, In, All) == [L, G, M, C, N, F, O, H, P]
  {
    SubtreeGIn(a);
    SubtreeFIn(a);
    assert [L, G, M] + [C] + [N, F, O, H, P] == [L, G, M, C, N, F, O, H, P];
    PairIn(a, C, G, F, [L, G, M], [N, F, O, H, P], [L, G, M, C, N, F, O, H, P]);
  }

  lemma SubtreeEIn(a: Arena)
    requires WellFormed(a) && Fork(a, E, J, K) && Tip(a, J) && Tip(a, K)
    ensures Visit(a, E, In, All) == [J, E, K]
  {
    LeafVisit(a, J, In);
    LeafVisit(a, K, In);
    assert [J] + [E] + [K] == [J, E, K];
    PairIn(a, E, J, K, [J], [K], [J, E, K]);
  }

  lemma SubtreeBIn(a: Arena)
    requires WellFormed(a) && Fork(a, B, I, E) && Tip(a, I) && Fork(a, E, J, K) && Tip(a, J) && Tip(a, K)
    ensures Visit(a, B, In, All) == [I, B, J, E, K]
  {
    LeafVisit(a, I, In);
    SubtreeEIn(a);
    assert [I] + [B] + [J, E, K] == [I, B, J, E, K];
    PairIn(a, B, I, E, [I], [J, E, K], [I, B, J, E, K]);
  }

  lemma SubtreeAIn(a: Arena)
    requires WellFormed(a) && Fork(a, A, B, C) && Fork(a, B, I, E) && Tip(a, I) && Fork(a, E, J, K) && Tip(a, J)
    requires Tip(a, K) && Fork(a, C, G, F) && Fork(a, G, L, M) && Tip(a, L) && Tip(a, M)
    requires Fork(a, F, N, H) && Tip(a, N) && Fork(a, H, O, P) && Tip(a, O) && Tip(a, P)
    ensures Visit(a, A, In, All) == [I, B, J, E, K, A, L, G, M, C, N, F, O, H, P]
  {
    SubtreeBIn(a);
    SubtreeCIn(a);
    assert [I, B, J, E, K] + [A] + [L, G, M, C, N, F, O, H, P] == [I, B, J, E, K, A, L, G, M, C, N, F, O, H, P];
    PairIn(a, A, B, C, [I, B, J, E, K], [L, G, M, C, N, F, O, H, P], [I, B, J, E, K, A, L, G, M, C, N, F, O, H, P]);
  }

  /**
   * `preorder_sequence`, `postorder_sequence` and `inorder_sequence` of the tests:
   *   pre-order  a b i e j k c g l m f n h o p
   *   post-order i j k e b l m g n o p h f c a
   *   in-order   i b j e k a l g m c n f o h p
   */
  lemma CalibrationDepthFirst(a: Arena)
    requires Shaped(a)
    ensures Preorder(a) == [A, B, I, E, J, K, C, G, L, M, F, N, H, O, P]
    ensures Postorder(a) == [I, J, K, E, B, L, M, G, N, O, P, H, F, C, A]
    ensures Inorder(a) == [I, B, J, E, K, A, L, G, M, C, N, F, O, H, P]
  {
    SubtreeAPre(a);
    SubtreeAPost(a);
    SubtreeAIn(a);
  }

  // ---------------------------------------------------------------------------------------
  // Leaves

  lemma FilterKeep<T>(x: T, s: seq<T>, t: seq<T>, g: T -> bool, r: seq<T>)
    requires t == [x] + s && g(x) && Filter(s, g) == r
    ensures Filter(t, g) == [x] + r
  {
    FilterCons(x, s, g);
  }

  lemma FilterSkip<T>(x: T, s: seq<T>, t: seq<T>, g: T -> bool, r: seq<T>)
    requires t == [x] + s && !g(x) && Filter(s, g) == r
    ensures Filter(t, g) == r
  {
    FilterCons(x, s, g);
  }

  lemma LeafAt(a: Arena, x: nat)
    requires x < |a|
    ensures LeafFilter(a, All)(x) == (a[x].children == [])
  {
    assert All(x);
  }

  lemma InternalAt(a: Arena, x: nat)
    requires x < |a|
    ensures AgeFilter(a, false, All)(x) == (a[x].children != [])
  {
    assert All(x);
  }

  /** A leaf's filtered pre-order: itself when it passes `g`. */
  lemma TipVisit(a: Arena, x: nat, g: nat -> bool)
    requires WellFormed(a) && Tip(a, x)
    ensures Visit(a, x, Pre, g) == if g(x) then [x] else []
  {
  }

  /** Filtered pre-order at a node with two children. */
  lemma PairPreFiltered(a: Arena, i: nat, c: nat, d: nat, g: nat -> bool, sc: seq<nat>, sd: seq<nat>, r: seq<nat>)
    requires WellFormed(a) && Fork(a, i, c, d) && c < |a| && d < |a|
    requires Visit(a, c, Pre, g) == sc && Visit(a, d, Pre, g) == sd && r == (if g(i) then [i] else []) + sc + sd
    ensures Visit(a, i, Pre, g) == r
  {
    assert ChildrenLinked(a, i);
    assert a[i].children[0] == c && a[i].children[1] == d;
    assert [c, d][1..] == [d];
    assert [d][1..] == [];
    assert VisitAll(a, i, [d], Pre, g) == Visit(a, d, Pre, g) + VisitAll(a, i, [], Pre, g);
  }

  lemma LeavesUnderH(a: Arena)
    requires WellFormed(a) && Fork(a, H, O, P) && Tip(a, O) && Tip(a, P)
    ensures Visit(a, H, Pre, LeafFilter(a, All)) == [O, P]
  {
    var g := LeafFilter(a, All);
    LeafAt(a, O);
    TipVisit(a, O, g);
    LeafAt(a, P);
    TipVisit(a, P, g);
    LeafAt(a, H);
    assert [O] + [P] == [O, P];
    PairPreFiltered(a, H, O, P, g, [O], [P], [O, P]);
  }

  lemma LeavesUnderF(a: Arena)
    requires WellFormed(a) && Fork(a, F, N, H) && Tip(a, N) && Fork(a, H, O, P) && Tip(a, O) && Tip(a, P)
    ensures Visit(a, F, Pre, LeafFilter(a, All)) == [N, O, P]
  {
    var g := LeafFilter(a, All);
    LeafAt(a, N);
    TipVisit(a, N, g);
    LeavesUnderH(a);
    LeafAt(a, F);
    assert [N] + [O, P] == [N, O, P];
    PairPreFiltered(a, F, N, H, g, [N], [O, P], [N, O, P]);
  }

  lemma LeavesUnderG(a: Arena)
    requires WellFormed(a) && Fork(a, G, L, M) && Tip(a, L) && Tip(a, M)
    ensures Visit(a, G, Pre, LeafFilter(a, All)) == [L, M]
  {
    var g := LeafFilter(a, All);
    LeafAt(a, L);
    TipVisit(a, L, g);
    LeafAt(a, M);
    TipVisit(a, M, g);
    LeafAt(a, G);
    assert [L] + [M] == [L, M];
    PairPreFiltered(a, G, L, M, g, [L], [M], [L, M]);
  }

  lemma LeavesUnderC(a: Arena)
    requires WellFormed(a) && Fork(a, C, G, F) && Fork(a, G, L, M) && Tip(a, L) && Tip(a, M) && Fork(a, F, N, H)
    requires Tip(a, N) && Fork(a, H, O, P) && Tip(a, O) && Tip(a, P)
    ensures Visit(a, C, Pre, LeafFilter(a, All)) == [L, M, N, O, P]
  {
    var g := LeafFilter(a, All);
    LeavesUnderG(a);
    LeavesUnderF(a);
    LeafAt(a, C);
    assert [L, M] + [N, O, P] == [L, M, N, O, P];
    PairPreFiltered(a, C, G, F, g, [L, M], [N, O, P], [L, M, N, O, P]);
  }

  lemma LeavesUnderE(a: Arena)
    requires WellFormed(a) && Fork(a, E, J, K) && Tip(a, J) && Tip(a, K)
    ensures Visit(a, E, Pre, LeafFilter(a, All)) == [J, K]
  {
    var g := LeafFilter(a, All);
    LeafAt(a, J);
    TipVisit(a, J, g);
    LeafAt(a, K);
    TipVisit(a, K, g);
    LeafAt(a, E);
    assert [J] + [K] == [J, K];
    PairPreFiltered(a, E, J, K, g, [J], [K], [J, K]);
  }

  lemma LeavesUnderB(a: Arena)
    requires WellFormed(a) && Fork(a, B, I, E) && Tip(a, I) && Fork(a, E, J, K) && Tip(a, J) && Tip(a, K)
    ensures Visit(a, B, Pre, LeafFilter(a, All)) == [I, J, K]
  {
    var g := LeafFilter(a, All);
    LeafAt(a, I);
    TipVisit(a, I, g);
    LeavesUnderE(a);
    LeafAt(a, B);
    assert [I] + [J, K] == [I, J, K];
    PairPreFiltered(a, B, I, E, g, [I], [J, K], [I, J, K]);
  }

  lemma LeavesUnderA(a: Arena)
    requires WellFormed(a) && Fork(a, A, B, C) && Fork(a, B, I, E) && Tip(a, I) && Fork(a, E, J, K) && Tip(a, J)
    requires Tip(a, K) && Fork(a, C, G, F) && Fork(a, G, L, M) && Tip(a, L) && Tip(a, M)
    requires Fork(a, F, N, H) && Tip(a, N) && Fork(a, H, O, P) && Tip(a, O) && Tip(a, P)
    ensures Visit(a, A, Pre, LeafFilter(a, All)) == [I, J, K, L, M, N, O, P]
  {
    var g := LeafFilter(a, All);
    LeavesUnderB(a);
    LeavesUnderC(a);
    LeafAt(a, A);
    assert [I, J, K] + [L, M, N, O, P] == [I, J, K, L, M, N, O, P];
    PairPreFiltered(a, A, B, C, g, [I, J, K], [L, M, N, O, P], [I, J, K, L, M, N, O, P]);
  }

  /** `leaf_sequence` of the tests: i j k l m n o p, in pre-order among the leaves. */
  lemma CalibrationLeaves(a: Arena)
    requires Shaped(a)
    ensures LeafNodeIter(a, All) == [I, J, K, L, M, N, O, P]
  {
    LeavesUnderA(a);
  }

  // ---------------------------------------------------------------------------------------
  // Level order

  lemma KidsCons(a: Arena, x: nat, s: seq<nat>, t: seq<nat>, r: seq<nat>)
    requires WellFormed(a) && x < |a| && AllIn(a, s) && t == [x] + s && Kids(a, s) == r
    ensures AllIn(a, t) && Kids(a, t) == a[x].children + r
  {
    assert t[1..] == s;
  }

  lemma LevelsCons(a: Arena, fr: seq<nat>, next: seq<nat>, r: seq<nat>)
    requires WellFormed(a) && AllIn(a, fr) && fr != [] && Kids(a, fr) == next && AllIn(a, next) && Levels(a, next) == r
    ensures Levels(a, fr) == fr + r
  {
    LevelsUnfold(a, fr);
  }

  lemma KidsOfLevel0(a: Arena)
    requires Shaped(a)
    ensures AllIn(a, [A]) && Kids(a, [A]) == [B, C]
  {
    assert Kids(a, []) == [];
    KidsCons(a, A, [], [A], []);
  }

  lemma KidsOfLevel1(a: Arena)
    requires Shaped(a)
    ensures AllIn(a, [B, C]) && Kids(a, [B, C]) == [I, E, G, F]
  {
    assert Kids(a, []) == [];
    KidsCons(a, C, [], [C], []);
    assert [B] + [C] == [B, C];
    KidsCons(a, B, [C], [B, C], [G, F]);
  }

  lemma KidsOfLevel2(a: Arena)
    requires Shaped(a)
    ensures AllIn(a, [I, E, G, F]) && Kids(a, [I, E, G, F]) == [J, K, L, M, N, H]
  {
    assert Kids(a, []) == [];
    KidsCons(a, F, [], [F], []);
    assert [G] + [F] == [G, F];
    KidsCons(a, G, [F], [G, F], [N, H]);
    assert [E] + [G, F] == [E, G, F];
    KidsCons(a, E, [G, F], [E, G, F], [L, M, N, H]);
    assert [I] + [E, G, F] == [I, E, G, F];
    KidsCons(a, I, [E, G, F], [I, E, G, F], [J, K, L, M, N, H]);
  }

  lemma KidsOfLevel3(a: Arena)
    requires Shaped(a)
    ensures AllIn(a, [J, K, L, M, N, H]) && Kids(a, [J, K, L, M, N, H]) == [O, P]
  {
    assert Kids(a, []) == [];
    KidsCons(a, H, [], [H], []);
    assert [N] + [H] == [N, H];
    KidsCons(a, N, [H], [N, H], [O, P]);
    assert [M] + [N, H] == [M, N, H];
    KidsCons(a, M, [N, H], [M, N, H], [O, P]);
    assert [L] + [M, N, H] == [L, M, N, H];
    KidsCons(a, L, [M, N, H], [L, M, N, H], [O, P]);
    assert [K] + [L, M, N, H] == [K, L, M, N, H];
    KidsCons(a, K, [L, M, N, H], [K, L, M, N, H], [O, P]);
    assert [J] + [K, L, M, N, H] == [J, K, L, M, N, H];
    KidsCons(a, J, [K, L, M, N, H], [J, K, L, M, N, H], [O, P]);
  }

  lemma KidsOfLevel4(a: Arena)
    requires Shaped(a)
    ensures AllIn(a, [O, P]) && Kids(a, [O, P]) == []
  {
    assert Kids(a, []) == [];
    KidsCons(a, P, [], [P], []);
    assert [O] + [P] == [O, P];
    KidsCons(a, O, [P], [O, P], []);
  }

  lemma LevelsLast(a: Arena, l: seq<nat>)
    requires WellFormed(a) && AllIn(a, l) && l != [] && Kids(a, l) == []
    ensures Levels(a, l) == l
  {
    LevelsUnfold(a, l);
  }

  /** Five non-empty levels, the last without children, make up the whole level order from the first. */
  lemma LevelsFive(a: Arena, l0: seq<nat>, l1: seq<nat>, l2: seq<nat>, l3: seq<nat>, l4: seq<nat>)
    requires WellFormed(a) && AllIn(a, l0) && AllIn(a, l1) && AllIn(a, l2) && AllIn(a, l3) && AllIn(a, l4)
    requires l0 != [] && l1 != [] && l2 != [] && l3 != [] && l4 != []
    requires Kids(a, l0) == l1 && Kids(a, l1) == l2 && Kids(a, l2) == l3 && Kids(a, l3) == l4 && Kids(a, l4) == []
    ensures Levels(a, l0) == l0 + (l1 + (l2 + (l3 + l4)))
  {
    LevelsLast(a, l4);
    LevelsCons(a, l3, l4, l4);
    LevelsCons(a, l2, l3, l3 + l4);
    LevelsCons(a, l1, l2, l2 + (l3 + l4));
    LevelsCons(a, l0, l1, l1 + (l2 + (l3 + l4)));
  }

  /** `levelorder_sequence` of the tests: a, b c, i e g f, j k l m n h, o p. */
  lemma CalibrationLevelorder(a: Arena)
    requires Shaped(a)
    ensures Levelorder(a) == [A, B, C, I, E, G, F, J, K, L, M, N, H, O, P]
  {
    assert [A] + ([B, C] + ([I, E, G, F] + ([J, K, L, M, N, H] + [O, P]))) == [A, B, C, I, E, G, F, J, K, L, M, N, H, O, P];
    KidsOfLevel0(a);
    KidsOfLevel1(a);
    KidsOfLevel2(a);
    KidsOfLevel3(a);
    KidsOfLevel4(a);
    LevelsFive(a, [A], [B, C], [I, E, G, F], [J, K, L, M, N, H], [O, P]);
  }

  // ---------------------------------------------------------------------------------------
  // Ancestors

  lemma Prepend2(y: nat, z: nat)
    ensures [y] + [z] == [y, z]
  {
  }

  lemma Prepend3(x: nat, y: nat, z: nat)
    ensures [x] + [y, z] == [x, y, z]
  {
  }

  lemma Prepend4(w: nat, x: nat, y: nat, z: nat)
    ensures [w] + [x, y, z] == [w, x, y, z]
  {
  }

  lemma ChainStep(a: Arena, x: nat, p: nat, r: seq<nat>)
    requires WellFormed(a) && 0 < x < |a| && p < |a| && a[x].parent == Some(p) && AncestorChain(a, p) == r
    ensures AncestorChain(a, x) == [p] + r
  {
    assert ParentLinked(a, x);
  }

  lemma ForkParents(a: Arena, i: nat, c: nat, d: nat)
    requires WellFormed(a) && Fork(a, i, c, d)
    ensures c < |a| && d < |a| && a[c].parent == Some(i) && a[d].parent == Some(i)
  {
    assert ChildrenLinked(a, i);
    assert a[i].children[0] == c && a[i].children[1] == d;
  }

  lemma Exclusive(a: Arena, x: nat, r: seq<nat>)
    requires WellFormed(a) && x < |a| && AncestorChain(a, x) == r
    ensures AncestorIter(a, x, false, All) == r
  {
    assert [] + r == r;
    FilterKeepsAll(r, All);
  }

  lemma AncestorsOfA(a: Arena)
    requires Shaped(a)
    ensures AncestorChain(a, A) == [] && AncestorIter(a, A, false, All) == []
  {
    Exclusive(a, A, []);
  }

  lemma AncestorsOfB(a: Arena)
    requires Shaped(a)
    ensures AncestorChain(a, B) == [A] && AncestorIter(a, B, false, All) == [A]
  {
    AncestorsOfA(a);
    ForkParents(a, A, B, C);
    ChainStep(a, B, A, []);
    Exclusive(a, B, [A]);
  }

  lemma AncestorsOfC(a: Arena)
    requires Shaped(a)
    ensures AncestorChain(a, C) == [A] && AncestorIter(a, C, false, All) == [A]
  {
    AncestorsOfA(a);
    ForkParents(a, A, B, C);
    ChainStep(a, C, A, []);
    Exclusive(a, C, [A]);
  }

  lemma AncestorsOfI(a: Arena)
    requires Shaped(a)
    ensures AncestorChain(a, I) == [B, A] && AncestorIter(a, I, false, All) == [B, A]
  {
    AncestorsOfB(a);
    ForkParents(a, B, I, E);
    Prepend2(B, A);
    ChainStep(a, I, B, [A]);
    Exclusive(a, I, [B, A]);
  }

  lemma AncestorsOfE(a: Arena)
    requires Shaped(a)
    ensures AncestorChain(a, E) == [B, A] && AncestorIter(a, E, false, All) == [B, A]
  {
    AncestorsOfB(a);
    ForkParents(a, B, I, E);
    Prepend2(B, A);
    ChainStep(a, E, B, [A]);
    Exclusive(a, E, [B, A]);
  }

  lemma AncestorsOfG(a: Arena)
    requires Shaped(a)
    ensures AncestorChain(a, G) == [C, A] && AncestorIter(a, G, false, All) == [C, A]
  {
    AncestorsOfC(a);
    ForkParents(a, C, G, F);
    Prepend2(C, A);
    ChainStep(a, G, C, [A]);
    Exclusive(a, G, [C, A]);
  }

  lemma AncestorsOfF(a: Arena)
    requires Shaped(a)
    ensures AncestorChain(a, F) == [C, A] && AncestorIter(a, F, false, All) == [C, A]
  {
    AncestorsOfC(a);
    ForkParents(a, C, G, F);
    Prepend2(C, A);
    ChainStep(a, F, C, [A]);
    Exclusive(a, F, [C, A]);
  }

  lemma AncestorsOfJ(a: Arena)
    requires Shaped(a)
    ensures AncestorChain(a, J) == [E, B, A] && AncestorIter(a, J, false, All) == [E, B, A]
  {
    AncestorsOfE(a);
    ForkParents(a, E, J, K);
    Prepend3(E, B, A);
    ChainStep(a, J, E, [B, A]);
    Exclusive(a, J, [E, B, A]);
  }

  lemma AncestorsOfK(a: Arena)
    requires Shaped(a)
    ensures AncestorChain(a, K) == [E, B, A] && AncestorIter(a, K, false, All) == [E, B, A]
  {
    AncestorsOfE(a);
    ForkParents(a, E, J, K);
    Prepend3(E, B, A);
    ChainStep(a, K, E, [B, A]);
    Exclusive(a, K, [E, B, A]);
  }

  lemma AncestorsOfL(a: Arena)
    requires Shaped(a)
    ensures AncestorChain(a, L) == [G, C, A] && AncestorIter(a, L, false, All) == [G, C, A]
  {
    AncestorsOfG(a);
    ForkParents(a, G, L, M);
    Prepend3(G, C, A);
    ChainStep(a, L, G, [C, A]);
    Exclusive(a, L, [G, C, A]);
  }

  lemma AncestorsOfM(a: Arena)
    requires Shaped(a)
    ensures AncestorChain(a, M) == [G, C, A] && AncestorIter(a, M, false, All) == [G, C, A]
  {
    AncestorsOfG(a);
    ForkParents(a, G, L, M);
    Prepend3(G, C, A);
    ChainStep(a, M, G, [C, A]);
    Exclusive(a, M, [G, C, A]);
  }

  lemma AncestorsOfN(a: Arena)
    requires Shaped(a)
    ensures AncestorChain(a, N) == [F, C, A] && AncestorIter(a, N, false, All) == [F, C, A]
  {
    AncestorsOfF(a);
    ForkParents(a, F, N, H);
    Prepend3(F, C, A);
    ChainStep(a, N, F, [C, A]);
    Exclusive(a, N, [F, C, A]);
  }

  lemma AncestorsOfH(a: Arena)
    requires Shaped(a)
    ensures AncestorChain(a, H) == [F, C, A] && AncestorIter(a, H, false, All) == [F, C, A]
  {
    AncestorsOfF(a);
    ForkParents(a, F, N, H);
    Prepend3(F, C, A);
    ChainStep(a, H, F, [C, A]);
    Exclusive(a, H, [F, C, A]);
  }

  lemma AncestorsOfO(a: Arena)
    requires Shaped(a)
    ensures AncestorChain(a, O) == [H, F, C, A] && AncestorIter(a, O, false, All) == [H, F, C, A]
  {
    AncestorsOfH(a);
    ForkParents(a, H, O, P);
    Prepend4(H, F, C, A);
    ChainStep(a, O, H, [F, C, A]);
    Exclusive(a, O, [H, F, C, A]);
  }

  lemma AncestorsOfP(a: Arena)
    requires Shaped(a)
    ensures AncestorChain(a, P) == [H, F, C, A] && AncestorIter(a, P, false, All) == [H, F, C, A]
  {
    AncestorsOfH(a);
    ForkParents(a, H, O, P);
    Prepend4(H, F, C, A);
    ChainStep(a, P, H, [F, C, A]);
    Exclusive(a, P, [H, F, C, A]);
  }

  /** The inclusive walk up from `o` starts at `o` itself and then climbs to the seed. */
  lemma CalibrationAncestorsInclusive(a: Arena)
    requires Shaped(a)
    ensures AncestorIter(a, O, true, All) == [O, H, F, C, A]
  {
    AncestorsOfO(a);
    assert [O] + [H, F, C, A] == [O, H, F, C, A];
    FilterKeepsAll([O, H, F, C, A], All);
  }

  /** `node_ancestors` of the tests: each node's parent chain, nearest first. */
  lemma CalibrationAncestors(a: Arena)
    requires Shaped(a)
    ensures AncestorIter(a, A, false, All) == []
    ensures AncestorIter(a, B, false, All) == [A]
    ensures AncestorIter(a, C, false, All) == [A]
    ensures AncestorIter(a, I, false, All) == [B, A]
    ensures AncestorIter(a, E, false, All) == [B, A]
    ensures AncestorIter(a, G, false, All) == [C, A]
    ensures AncestorIter(a, F, false, All) == [C, A]
    ensures AncestorIter(a, J, false, All) == [E, B, A]
    ensures AncestorIter(a, K, false, All) == [E, B, A]
    ensures AncestorIter(a, L, false, All) == [G, C, A]
    ensures AncestorIter(a, M, false, All) == [G, C, A]
    ensures AncestorIter(a, N, false, All) == [F, C, A]
    ensures AncestorIter(a, H, false, All) == [F, C, A]
    ensures AncestorIter(a, O, false, All) == [H, F, C, A]
    ensures AncestorIter(a, P, false, All) == [H, F, C, A]
  {
    AncestorsOfA(a);
    AncestorsOfB(a);
    AncestorsOfC(a);
    AncestorsOfI(a);
    AncestorsOfE(a);
    AncestorsOfG(a);
    AncestorsOfF(a);
    AncestorsOfJ(a);
    AncestorsOfK(a);
    AncestorsOfL(a);
    AncestorsOfM(a);
    AncestorsOfN(a);
    AncestorsOfH(a);
    AncestorsOfO(a);
    AncestorsOfP(a);
  }

  // ---------------------------------------------------------------------------------------
  // Ages

  /** The age of a node with two children, from theirs and their edge lengths. */
  lemma AgePair(a: Arena, i: nat, c: nat, d: nat, vc: real, vd: real, lc: real, ld: real)
    requires WellFormed(a) && Fork(a, i, c, d) && c < |a| && d < |a|
    requires Age(a, c) == Ok(vc) && Age(a, d) == Ok(vd)
    requires a[c].edgeLength == Some(lc) && a[d].edgeLength == Some(ld)
    ensures Age(a, i) == Ok(if vc + lc >= vd + ld then vc + lc else vd + ld)
  {
    PairChildren(a, i, c, d, Pre);
    assert ChildrenLinked(a, i);
    assert a[i].children[0] == c && a[i].children[1..] == [d];
    assert Through(a, c) == Ok(vc + lc) && Through(a, d) == Ok(vd + ld);
    assert MaxOver(a, i, [d]) == Through(a, d);
    assert Age(a, i) == MaxOver(a, i, [c, d]);
  }

  /**
   * `node_ages` of the tests: a 50, b 17, c 36, e 3, f 23, g 6, h 11, every leaf 0. At every
   * internal node the two children contribute the same amount.
   */
  lemma CalibrationAges(a: Arena)
    requires Shaped(a) && Labelled(a)
    ensures Age(a, A) == Ok(50.0)
    ensures Age(a, B) == Ok(17.0)
    ensures Age(a, I) == Ok(0.0)
    ensures Age(a, E) == Ok(3.0)
    ensures Age(a, J) == Ok(0.0)
    ensures Age(a, K) == Ok(0.0)
    ensures Age(a, C) == Ok(36.0)
    ensures Age(a, G) == Ok(6.0)
    ensures Age(a, L) == Ok(0.0)
    ensures Age(a, M) == Ok(0.0)
    ensures Age(a, F) == Ok(23.0)
    ensures Age(a, N) == Ok(0.0)
    ensures Age(a, H) == Ok(11.0)
    ensures Age(a, O) == Ok(0.0)
    ensures Age(a, P) == Ok(0.0)
  {
    AgeOfLeaf(a, I);
    AgeOfLeaf(a, J);
    AgeOfLeaf(a, K);
    AgeOfLeaf(a, L);
    AgeOfLeaf(a, M);
    AgeOfLeaf(a, N);
    AgeOfLeaf(a, O);
    AgeOfLeaf(a, P);
    AgePair(a, H, O, P, 0.0, 0.0, 11.0, 11.0);
    AgePair(a, F, N, H, 0.0, 11.0, 23.0, 12.0);
    AgePair(a, G, L, M, 0.0, 0.0, 6.0, 6.0);
    AgePair(a, C, G, F, 6.0, 23.0, 30.0, 13.0);
    AgePair(a, E, J, K, 0.0, 0.0, 3.0, 3.0);
    AgePair(a, B, I, E, 0.0, 3.0, 17.0, 14.0);
    AgePair(a, A, B, C, 17.0, 36.0, 33.0, 14.0);
  }

  // ---------------------------------------------------------------------------------------
  // Age order

  /** Sorting `[x] + s` puts `x` into the sorted `s` after the elements with smaller keys. */
  lemma SortInsertStep(x: nat, s: seq<nat>, pre: seq<nat>, post: seq<nat>, key: nat -> real)
    requires SortBy(s, key) == pre + post && KeysBelow(pre, key, key(x))
    requires post != [] ==> key(x) <= key(post[0])
    ensures SortBy([x] + s, key) == pre + [x] + post
  {
    InsertBetween(x, pre, post, key);
    assert ([x] + s)[0] == x && ([x] + s)[1..] == s;
  }

  /** The sort key of age order on the calibration tree, ascending. */
  predicate AscendingKeys(key: nat -> real) {
    && key(A) == 50.0 && key(B) == 17.0 && key(I) == 0.0 && key(E) == 3.0 && key(J) == 0.0
    && key(K) == 0.0 && key(C) == 36.0 && key(G) == 6.0 && key(L) == 0.0 && key(M) == 0.0
    && key(F) == 23.0 && key(N) == 0.0 && key(H) == 11.0 && key(O) == 0.0 && key(P) == 0.0
  }

  lemma SortAscendingFromP(key: nat -> real, s: seq<nat>, t: seq<nat>)
    requires s == [] && t == [P]
    requires AscendingKeys(key) && SortBy(s, key) == []
    ensures SortBy(t, key) == [P]
  {
    SortAscendingFromPLits(s, t);
    SortInsertStep(P, s, [], [], key);
  }

  lemma SortAscendingFromPLits(s: seq<nat>, t: seq<nat>)
    requires s == [] && t == [P]
    ensures [P] + s == t
  {
  }

  lemma SortAscendingFromO(key: nat -> real, s: seq<nat>, t: seq<nat>)
    requires s == [P] && t == [O, P]
    requires AscendingKeys(key) && SortBy(s, key) == [P]
    ensures SortBy(t, key) == [O, P]
  {
    SortAscendingFromOLits(s, t);
    SortInsertStep(O, s, [], [P], key);
  }

  lemma SortAscendingFromOLits(s: seq<nat>, t: seq<nat>)
    requires s == [P] && t == [O, P]
    ensures [O] + s == t
    ensures [] + [P] == [P]
    ensures [] + [O] + [P] == [O, P]
  {
  }

  lemma SortAscendingFromH(key: nat -> real, s: seq<nat>, t: seq<nat>)
    requires s == [O, P] && t == [H, O, P]
    requires AscendingKeys(key) && SortBy(s, key) == [O, P]
    ensures SortBy(t, key) == [O, P, H]
  {
    SortAscendingFromHLits(s, t);
    SortInsertStep(H, s, [O, P], [], key);
  }

  lemma SortAscendingFromHLits(s: seq<nat>, t: seq<nat>)
    requires s == [O, P] && t == [H, O, P]
    ensures [H] + s == t
    ensures [O, P] + [] == [O, P]
    ensures [O, P] + [H] + [] == [O, P, H]
  {
  }

  lemma SortAscendingFromN(key: nat -> real, s: seq<nat>, t: seq<nat>)
    requires s == [H, O, P] && t == [N, H, O, P]
    requires AscendingKeys(key) && SortBy(s, key) == [O, P, H]
    ensures SortBy(t, key) == [N, O, P, H]
  {
    SortAscendingFromNLits(s, t);
    SortInsertStep(N, s, [], [O, P, H], key);
  }

  lemma SortAscendingFromNLits(s: seq<nat>, t: seq<nat>)
    requires s == [H, O, P] && t == [N, H, O, P]
    ensures [N] + s == t
    ensures [] + [O, P, H] == [O, P, H]
    ensures [] + [N] + [O, P, H] == [N, O, P, H]
  {
  }

  lemma SortAscendingFromF(key: nat -> real, s: seq<nat>, t: seq<nat>)
    requires s == [N, H, O, P] && t == [F, N, H, O, P]
    requires AscendingKeys(key) && SortBy(s, key) == [N, O, P, H]
    ensures SortBy(t, key) == [N, O, P, H, F]
  {
    SortAscendingFromFLits(s, t);
    SortInsertStep(F, s, [N, O, P, H], [], key);
  }

  lemma SortAscendingFromFLits(s: seq<nat>, t: seq<nat>)
    requires s == [N, H, O, P] && t == [F, N, H, O, P]
    ensures [F] + s == t
    ensures [N, O, P, H] + [] == [N, O, P, H]
    ensures [N, O, P, H] + [F] + [] == [N, O, P, H, F]
  {
  }

  lemma SortAscendingFromM(key: nat -> real, s: seq<nat>, t: seq<nat>)
    requires s == [F, N, H, O, P] && t == [M, F, N, H, O, P]
    requires AscendingKeys(key) && SortBy(s, key) == [N, O, P, H, F]
    ensures SortBy(t, key) == [M, N, O, P, H, F]
  {
    SortAscendingFromMLits(s, t);
    SortInsertStep(M, s, [], [N, O, P, H, F], key);
  }

  lemma SortAscendingFromMLits(s: seq<nat>, t: seq<nat>)
    requires s == [F, N, H, O, P] && t == [M, F, N, H, O, P]
    ensures [M] + s == t
    ensures [] + [N, O, P, H, F] == [N, O, P, H, F]
    ensures [] + [M] + [N, O, P, H, F] == [M, N, O, P, H, F]
  {
  }

  lemma SortAscendingFromL(key: nat -> real, s: seq<nat>, t: seq<nat>)
    requires s == [M, F, N, H, O, P] && t == [L, M, F, N, H, O, P]
    requires AscendingKeys(key) && SortBy(s, key) == [M, N, O, P, H, F]
    ensures SortBy(t, key) == [L, M, N, O, P, H, F]
  {
    SortAscendingFromLLits(s, t);
    SortInsertStep(L, s, [], [M, N, O, P, H, F], key);
  }

  lemma SortAscendingFromLLits(s: seq<nat>, t: seq<nat>)
    requires s == [M, F, N, H, O, P] && t == [L, M, F, N, H, O, P]
    ensures [L] + s == t
    ensures [] + [M, N, O, P, H, F] == [M, N, O, P, H, F]
    ensures [] + [L] + [M, N, O, P, H, F] == [L, M, N, O, P, H, F]
  {
  }

  lemma SortAscendingFromG(key: nat -> real, s: seq<nat>, t: seq<nat>)
    requires s == [L, M, F, N, H, O, P] && t == [G, L, M, F, N, H, O, P]
    requires AscendingKeys(key) && SortBy(s, key) == [L, M, N, O, P, H, F]
    ensures SortBy(t, key) == [L, M, N, O, P, G, H, F]
  {
    SortAscendingFromGLits(s, t);
    SortInsertStep(G, s, [L, M, N, O, P], [H, F], key);
  }

  lemma SortAscendingFromGLits(s: seq<nat>, t: seq<nat>)
    requires s == [L, M, F, N, H, O, P] && t == [G, L, M, F, N, H, O, P]
    ensures [G] + s == t
    ensures [L, M, N, O, P] + [H, F] == [L, M, N, O, P, H, F]
    ensures [L, M, N, O, P] + [G] + [H, F] == [L, M, N, O, P, G, H, F]
  {
  }

  lemma SortAscendingFromC(key: nat -> real, s: seq<nat>, t: seq<nat>)
    requires s == [G, L, M, F, N, H, O, P] && t == [C, G, L, M, F, N, H, O, P]
    requires AscendingKeys(key) && SortBy(s, key) == [L, M, N, O, P, G, H, F]
    ensures SortBy(t, key) == [L, M, N, O, P, G, H, F, C]
  {
    SortAscendingFromCLits(s, t);
    SortInsertStep(C, s, [L, M, N, O, P, G, H, F], [], key);
  }

  lemma SortAscendingFromCLits(s: seq<nat>, t: seq<nat>)
    requires s == [G, L, M, F, N, H, O, P] && t == [C, G, L, M, F, N, H, O, P]
    ensures [C] + s == t
    ensures [L, M, N, O, P, G, H, F] + [] == [L, M, N, O, P, G, H, F]
    ensures [L, M, N, O, P, G, H, F] + [C] + [] == [L, M, N, O, P, G, H, F, C]
  {
  }

  lemma SortAscendingFromK(key: nat -> real, s: seq<nat>, t: seq<nat>)
    requires s == [C, G, L, M, F, N, H, O, P] && t == [K, C, G, L, M, F, N, H, O, P]
    requires AscendingKeys(key) && SortBy(s, key) == [L, M, N, O, P, G, H, F, C]
    ensures SortBy(t, key) == [K, L, M, N, O, P, G, H, F, C]
  {
    SortAscendingFromKLits(s, t);
    SortInsertStep(K, s, [], [L, M, N, O, P, G, H, F, C], key);
  }

  lemma SortAscendingFromKLits(s: seq<nat>, t: seq<nat>)
    requires s == [C, G, L, M, F, N, H, O, P] && t == [K, C, G, L, M, F, N, H, O, P]
    ensures [K] + s == t
    ensures [] + [L, M, N, O, P, G, H, F, C] == [L, M, N, O, P, G, H, F, C]
    ensures [] + [K] + [L, M, N, O, P, G, H, F, C] == [K, L, M, N, O, P, G, H, F, C]
  {
  }

  lemma SortAscendingFromJ(key: nat -> real, s: seq<nat>, t: seq<nat>)
    requires s == [K, C, G, L, M, F, N, H, O, P] && t == [J, K, C, G, L, M, F, N, H, O, P]
    requires AscendingKeys(key) && SortBy(s, key) == [K, L, M, N, O, P, G, H, F, C]
    ensures SortBy(t, key) == [J, K, L, M, N, O, P, G, H, F, C]
  {
    SortAscendingFromJLits(s, t);
    SortInsertStep(J, s, [], [K, L, M, N, O, P, G, H, F, C], key);
  }

  lemma SortAscendingFromJLits(s: seq<nat>, t: seq<nat>)
    requires s == [K, C, G, L, M, F, N, H, O, P] && t == [J, K, C, G, L, M, F, N, H, O, P]
    ensures [J] + s == t
    ensures [] + [K, L, M, N, O, P, G, H, F, C] == [K, L, M, N, O, P, G, H, F, C]
    ensures [] + [J] + [K, L, M, N, O, P, G, H, F, C] == [J, K, L, M, N, O, P, G, H, F, C]
  {
  }

  lemma SortAscendingFromE(key: nat -> real, s: seq<nat>, t: seq<nat>)
    requires s == [J, K, C, G, L, M, F, N, H, O, P] && t == [E, J, K, C, G, L, M, F, N, H, O, P]
    requires AscendingKeys(key) && SortBy(s, key) == [J, K, L, M, N, O, P, G, H, F, C]
    ensures SortBy(t, key) == [J, K, L, M, N, O, P, E, G, H, F, C]
  {
    SortAscendingFromELits(s, t);
    SortInsertStep(E, s, [J, K, L, M, N, O, P], [G, H, F, C], key);
  }

  lemma SortAscendingFromELits(s: seq<nat>, t: seq<nat>)
    requires s == [J, K, C, G, L, M, F, N, H, O, P] && t == [E, J, K, C, G, L, M, F, N, H, O, P]
    ensures [E] + s == t
    ensures [J, K, L, M, N, O, P] + [G, H, F, C] == [J, K, L, M, N, O, P, G, H, F, C]
    ensures [J, K, L, M, N, O, P] + [E] + [G, H, F, C] == [J, K, L, M, N, O, P, E, G, H, F, C]
  {
  }

  lemma SortAscendingFromI(key: nat -> real, s: seq<nat>, t: seq<nat>)
    requires s == [E, J, K, C, G, L, M, F, N, H, O, P] && t == [I, E, J, K, C, G, L, M, F, N, H, O, P]
    requires AscendingKeys(key) && SortBy(s, key) == [J, K, L, M, N, O, P, E, G, H, F, C]
    ensures SortBy(t, key) == [I, J, K, L, M, N, O, P, E, G, H, F, C]
  {
    SortAscendingFromILits(s, t);
    SortInsertStep(I, s, [], [J, K, L, M, N, O, P, E, G, H, F, C], key);
  }

  lemma SortAscendingFromILits(s: seq<nat>, t: seq<nat>)
    requires s == [E, J, K, C, G, L, M, F, N, H, O, P] && t == [I, E, J, K, C, G, L, M, F, N, H, O, P]
    ensures [I] + s == t
    ensures [] + [J, K, L, M, N, O, P, E, G, H, F, C] == [J, K, L, M, N, O, P, E, G, H, F, C]
    ensures [] + [I] + [J, K, L, M, N, O, P, E, G, H, F, C] == [I, J, K, L, M, N, O, P, E, G, H, F, C]
  {
  }

  lemma SortAscendingFromB(key: nat -> real, s: seq<nat>, t: seq<nat>)
    requires s == [I, E, J, K, C, G, L, M, F, N, H, O, P] && t == [B, I, E, J, K, C, G, L, M, F, N, H, O, P]
    requires AscendingKeys(key) && SortBy(s, key) == [I, J, K, L, M, N, O, P, E, G, H, F, C]
    ensures SortBy(t, key) == [I, J, K, L, M, N, O, P, E, G, H, B, F, C]
  {
    SortAscendingFromBLits(s, t);
    SortInsertStep(B, s, [I, J, K, L, M, N, O, P, E, G, H], [F, C], key);
  }

  lemma SortAscendingFromBLits(s: seq<nat>, t: seq<nat>)
    requires s == [I, E, J, K, C, G, L, M, F, N, H, O, P] && t == [B, I, E, J, K, C, G, L, M, F, N, H, O, P]
    ensures [B] + s == t
    ensures [I, J, K, L, M, N, O, P, E, G, H] + [F, C] == [I, J, K, L, M, N, O, P, E, G, H, F, C]
    ensures [I, J, K, L, M, N, O, P, E, G, H] + [B] + [F, C] == [I, J, K, L, M, N, O, P, E, G, H, B, F, C]
  {
  }

  lemma SortAscendingFromA(key: nat -> real, s: seq<nat>, t: seq<nat>)
    requires s == [B, I, E, J, K, C, G, L, M, F, N, H, O, P] && t == [A, B, I, E, J, K, C, G, L, M, F, N, H, O, P]
    requires AscendingKeys(key) && SortBy(s, key) == [I, J, K, L, M, N, O, P, E, G, H, B, F, C]
    ensures SortBy(t, key) == [I, J, K, L, M, N, O, P, E, G, H, B, F, C, A]
  {
    SortAscendingFromALits(s, t);
    SortInsertStep(A, s, [I, J, K, L, M, N, O, P, E, G, H, B, F, C], [], key);
  }

  lemma SortAscendingFromALits(s: seq<nat>, t: seq<nat>)
    requires s == [B, I, E, J, K, C, G, L, M, F, N, H, O, P] && t == [A, B, I, E, J, K, C, G, L, M, F, N, H, O, P]
    ensures [A] + s == t
    ensures [I, J, K, L, M, N, O, P, E, G, H, B, F, C] + [] == [I, J, K, L, M, N, O, P, E, G, H, B, F, C]
    ensures [I, J, K, L, M, N, O, P, E, G, H, B, F, C] + [A] + [] == [I, J, K, L, M, N, O, P, E, G, H, B, F, C, A]
  {
  }

  /** The stable ascending sort of the pre-order by the calibration ages. */
  lemma SortAscending(key: nat -> real)
    requires AscendingKeys(key)
    ensures SortBy([A, B, I, E, J, K, C, G, L, M, F, N, H, O, P], key) == [I, J, K, L, M, N, O, P, E, G, H, B, F, C, A]
  {
    assert SortBy<nat>([], key) == [];
    SortAscendingFromP(key, [], [P]);
    SortAscendingFromO(key, [P], [O, P]);
    SortAscendingFromH(key, [O, P], [H, O, P]);
    SortAscendingFromN(key, [H, O, P], [N, H, O, P]);
    SortAscendingFromF(key, [N, H, O, P], [F, N, H, O, P]);
    SortAscendingFromM(key, [F, N, H, O, P], [M, F, N, H, O, P]);
    SortAscendingFromL(key, [M, F, N, H, O, P], [L, M, F, N, H, O, P]);
    SortAscendingFromG(key, [L, M, F, N, H, O, P], [G, L, M, F, N, H, O, P]);
    SortAscendingFromC(key, [G, L, M, F, N, H, O, P], [C, G, L, M, F, N, H, O, P]);
    SortAscendingFromK(key, [C, G, L, M, F, N, H, O, P], [K, C, G, L, M, F, N, H, O, P]);
    SortAscendingFromJ(key, [K, C, G, L, M, F, N, H, O, P], [J, K, C, G, L, M, F, N, H, O, P]);
    SortAscendingFromE(key, [J, K, C, G, L, M, F, N, H, O, P], [E, J, K, C, G, L, M, F, N, H, O, P]);
    SortAscendingFromI(key, [E, J, K, C, G, L, M, F, N, H, O, P], [I, E, J, K, C, G, L, M, F, N, H, O, P]);
    SortAscendingFromB(key, [I, E, J, K, C, G, L, M, F, N, H, O, P], [B, I, E, J, K, C, G, L, M, F, N, H, O, P]);
    SortAscendingFromA(key, [B, I, E, J, K, C, G, L, M, F, N, H, O, P], [A, B, I, E, J, K, C, G, L, M, F, N, H, O, P]);
  }

  /** The sort key of age order on the calibration tree, descending. */
  predicate DescendingKeys(key: nat -> real) {
    && key(A) == -50.0 && key(B) == -17.0 && key(I) == 0.0 && key(E) == -3.0 && key(J) == 0.0
    && key(K) == 0.0 && key(C) == -36.0 && key(G) == -6.0 && key(L) == 0.0 && key(M) == 0.0
    && key(F) == -23.0 && key(N) == 0.0 && key(H) == -11.0 && key(O) == 0.0 && key(P) == 0.0
  }

  lemma SortDescendingFromP(key: nat -> real, s: seq<nat>, t: seq<nat>)
    requires s == [] && t == [P]
    requires DescendingKeys(key) && SortBy(s, key) == []
    ensures SortBy(t, key) == [P]
  {
    SortDescendingFromPLits(s, t);
    SortInsertStep(P, s, [], [], key);
  }

  lemma SortDescendingFromPLits(s: seq<nat>, t: seq<nat>)
    requires s == [] && t == [P]
    ensures [P] + s == t
  {
  }

  lemma SortDescendingFromO(key: nat -> real, s: seq<nat>, t: seq<nat>)
    requires s == [P] && t == [O, P]
    requires DescendingKeys(key) && SortBy(s, key) == [P]
    ensures SortBy(t, key) == [O, P]
  {
    SortDescendingFromOLits(s, t);
    SortInsertStep(O, s, [], [P], key);
  }

  lemma SortDescendingFromOLits(s: seq<nat>, t: seq<nat>)
    requires s == [P] && t == [O, P]
    ensures [O] + s == t
    ensures [] + [P] == [P]
    ensures [] + [O] + [P] == [O, P]
  {
  }

  lemma SortDescendingFromH(key: nat -> real, s: seq<nat>, t: seq<nat>)
    requires s == [O, P] && t == [H, O, P]
    requires DescendingKeys(key) && SortBy(s, key) == [O, P]
    ensures SortBy(t, key) == [H, O, P]
  {
    SortDescendingFromHLits(s, t);
    SortInsertStep(H, s, [], [O, P], key);
  }

  lemma SortDescendingFromHLits(s: seq<nat>, t: seq<nat>)
    requires s == [O, P] && t == [H, O, P]
    ensures [H] + s == t
    ensures [] + [O, P] == [O, P]
    ensures [] + [H] + [O, P] == [H, O, P]
  {
  }

  lemma SortDescendingFromN(key: nat -> real, s: seq<nat>, t: seq<nat>)
    requires s == [H, O, P] && t == [N, H, O, P]
    requires DescendingKeys(key) && SortBy(s, key) == [H, O, P]
    ensures SortBy(t, key) == [H, N, O, P]
  {
    SortDescendingFromNLits(s, t);
    SortInsertStep(N, s, [H], [O, P], key);
  }

  lemma SortDescendingFromNLits(s: seq<nat>, t: seq<nat>)
    requires s == [H, O, P] && t == [N, H, O, P]
    ensures [N] + s == t
    ensures [H] + [O, P] == [H, O, P]
    ensures [H] + [N] + [O, P] == [H, N, O, P]
  {
  }

  lemma SortDescendingFromF(key: nat -> real, s: seq<nat>, t: seq<nat>)
    requires s == [N, H, O, P] && t == [F, N, H, O, P]
    requires DescendingKeys(key) && SortBy(s, key) == [H, N, O, P]
    ensures SortBy(t, key) == [F, H, N, O, P]
  {
    SortDescendingFromFLits(s, t);
    SortInsertStep(F, s, [], [H, N, O, P], key);
  }

  lemma SortDescendingFromFLits(s: seq<nat>, t: seq<nat>)
    requires s == [N, H, O, P] && t == [F, N, H, O, P]
    ensures [F] + s == t
    ensures [] + [H, N, O, P] == [H, N, O, P]
    ensures [] + [F] + [H, N, O, P] == [F, H, N, O, P]
  {
  }

  lemma SortDescendingFromM(key: nat -> real, s: seq<nat>, t: seq<nat>)
    requires s == [F, N, H, O, P] && t == [M, F, N, H, O, P]
    requires DescendingKeys(key) && SortBy(s, key) == [F, H, N, O, P]
    ensures SortBy(t, key) == [F, H, M, N, O, P]
  {
    SortDescendingFromMLits(s, t);
    SortInsertStep(M, s, [F, H], [N, O, P], key);
  }

  lemma SortDescendingFromMLits(s: seq<nat>, t: seq<nat>)
    requires s == [F, N, H, O, P] && t == [M, F, N, H, O, P]
    ensures [M] + s == t
    ensures [F, H] + [N, O, P] == [F, H, N, O, P]
    ensures [F, H] + [M] + [N, O, P] == [F, H, M, N, O, P]
  {
  }

  lemma SortDescendingFromL(key: nat -> real, s: seq<nat>, t: seq<nat>)
    requires s == [M, F, N, H, O, P] && t == [L, M, F, N, H, O, P]
    requires DescendingKeys(key) && SortBy(s, key) == [F, H, M, N, O, P]
    ensures SortBy(t, key) == [F, H, L, M, N, O, P]
  {
    SortDescendingFromLLits(s, t);
    SortInsertStep(L, s, [F, H], [M, N, O, P], key);
  }

  lemma SortDescendingFromLLits(s: seq<nat>, t: seq<nat>)
    requires s == [M, F, N, H, O, P] && t == [L, M, F, N, H, O, P]
    ensures [L] + s == t
    ensures [F, H] + [M, N, O, P] == [F, H, M, N, O, P]
    ensures [F, H] + [L] + [M, N, O, P] == [F, H, L, M, N, O, P]
  {
  }

  lemma SortDescendingFromG(key: nat -> real, s: seq<nat>, t: seq<nat>)
    requires s == [L, M, F, N, H, O, P] && t == [G, L, M, F, N, H, O, P]
    requires DescendingKeys(key) && SortBy(s, key) == [F, H, L, M, N, O, P]
    ensures SortBy(t, key) == [F, H, G, L, M, N, O, P]
  {
    SortDescendingFromGLits(s, t);
    SortInsertStep(G, s, [F, H], [L, M, N, O, P], key);
  }

  lemma SortDescendingFromGLits(s: seq<nat>, t: seq<nat>)
    requires s == [L, M, F, N, H, O, P] && t == [G, L, M, F, N, H, O, P]
    ensures [G] + s == t
    ensures [F, H] + [L, M, N, O, P] == [F, H, L, M, N, O, P]
    ensures [F, H] + [G] + [L, M, N, O, P] == [F, H, G, L, M, N, O, P]
  {
  }

  lemma SortDescendingFromC(key: nat -> real, s: seq<nat>, t: seq<nat>)
    requires s == [G, L, M, F, N, H, O, P] && t == [C, G, L, M, F, N, H, O, P]
    requires DescendingKeys(key) && SortBy(s, key) == [F, H, G, L, M, N, O, P]
    ensures SortBy(t, key) == [C, F, H, G, L, M, N, O, P]
  {
    SortDescendingFromCLits(s, t);
    SortInsertStep(C, s, [], [F, H, G, L, M, N, O, P], key);
  }

  lemma SortDescendingFromCLits(s: seq<nat>, t: seq<nat>)
    requires s == [G, L, M, F, N, H, O, P] && t == [C, G, L, M, F, N, H, O, P]
    ensures [C] + s == t
    ensures [] + [F, H, G, L, M, N, O, P] == [F, H, G, L, M, N, O, P]
    ensures [] + [C] + [F, H, G, L, M, N, O, P] == [C, F, H, G, L, M, N, O, P]
  {
  }

  lemma SortDescendingFromK(key: nat -> real, s: seq<nat>, t: seq<nat>)
    requires s == [C, G, L, M, F, N, H, O, P] && t == [K, C, G, L, M, F, N, H, O, P]
    requires DescendingKeys(key) && SortBy(s, key) == [C, F, H, G, L, M, N, O, P]
    ensures SortBy(t, key) == [C, F, H, G, K, L, M, N, O, P]
  {
    SortDescendingFromKLits(s, t);
    SortInsertStep(K, s, [C, F, H, G], [L, M, N, O, P], key);
  }

  lemma SortDescendingFromKLits(s: seq<nat>, t: seq<nat>)
    requires s == [C, G, L, M, F, N, H, O, P] && t == [K, C, G, L, M, F, N, H, O, P]
    ensures [K] + s == t
    ensures [C, F, H, G] + [L, M, N, O, P] == [C, F, H, G, L, M, N, O, P]
    ensures [C, F, H, G] + [K] + [L, M, N, O, P] == [C, F, H, G, K, L, M, N, O, P]
  {
  }

  lemma SortDescendingFromJ(key: nat -> real, s: seq<nat>, t: seq<nat>)
    requires s == [K, C, G, L, M, F, N, H, O, P] && t == [J, K, C, G, L, M, F, N, H, O, P]
    requires DescendingKeys(key) && SortBy(s, key) == [C, F, H, G, K, L, M, N, O, P]
    ensures SortBy(t, key) == [C, F, H, G, J, K, L, M, N, O, P]
  {
    SortDescendingFromJLits(s, t);
    SortInsertStep(J, s, [C, F, H, G], [K, L, M, N, O, P], key);
  }

  lemma SortDescendingFromJLits(s: seq<nat>, t: seq<nat>)
    requires s == [K, C, G, L, M, F, N, H, O, P] && t == [J, K, C, G, L, M, F, N, H, O, P]
    ensures [J] + s == t
    ensures [C, F, H, G] + [K, L, M, N, O, P] == [C, F, H, G, K, L, M, N, O, P]
    ensures [C, F, H, G] + [J] + [K, L, M, N, O, P] == [C, F, H, G, J, K, L, M, N, O, P]
  {
  }

  lemma SortDescendingFromE(key: nat -> real, s: seq<nat>, t: seq<nat>)
    requires s == [J, K, C, G, L, M, F, N, H, O, P] && t == [E, J, K, C, G, L, M, F, N, H, O, P]
    requires DescendingKeys(key) && SortBy(s, key) == [C, F, H, G, J, K, L, M, N, O, P]
    ensures SortBy(t, key) == [C, F, H, G, E, J, K, L, M, N, O, P]
  {
    SortDescendingFromELits(s, t);
    SortInsertStep(E, s, [C, F, H, G], [J, K, L, M, N, O, P], key);
  }

  lemma SortDescendingFromELits(s: seq<nat>, t: seq<nat>)
    requires s == [J, K, C, G, L, M, F, N, H, O, P] && t == [E, J, K, C, G, L, M, F, N, H, O, P]
    ensures [E] + s == t
    ensures [C, F, H, G] + [J, K, L, M, N, O, P] == [C, F, H, G, J, K, L, M, N, O, P]
    ensures [C, F, H, G] + [E] + [J, K, L, M, N, O, P] == [C, F, H, G, E, J, K, L, M, N, O, P]
  {
  }

  lemma SortDescendingFromI(key: nat -> real, s: seq<nat>, t: seq<nat>)
    requires s == [E, J, K, C, G, L, M, F, N, H, O, P] && t == [I, E, J, K, C, G, L, M, F, N, H, O, P]
    requires DescendingKeys(key) && SortBy(s, key) == [C, F, H, G, E, J, K, L, M, N, O, P]
    ensures SortBy(t, key) == [C, F, H, G, E, I, J, K, L, M, N, O, P]
  {
    SortDescendingFromILits(s, t);
    SortInsertStep(I, s, [C, F, H, G, E], [J, K, L, M, N, O, P], key);
  }

  lemma SortDescendingFromILits(s: seq<nat>, t: seq<nat>)
    requires s == [E, J, K, C, G, L, M, F, N, H, O, P] && t == [I, E, J, K, C, G, L, M, F, N, H, O, P]
    ensures [I] + s == t
    ensures [C, F, H, G, E] + [J, K, L, M, N, O, P] == [C, F, H, G, E, J, K, L, M, N, O, P]
    ensures [C, F, H, G, E] + [I] + [J, K, L, M, N, O, P] == [C, F, H, G, E, I, J, K, L, M, N, O, P]
  {
  }

  lemma SortDescendingFromB(key: nat -> real, s: seq<nat>, t: seq<nat>)
    requires s == [I, E, J, K, C, G, L, M, F, N, H, O, P] && t == [B, I, E, J, K, C, G, L, M, F, N, H, O, P]
    requires DescendingKeys(key) && SortBy(s, key) == [C, F, H, G, E, I, J, K, L, M, N, O, P]
    ensures SortBy(t, key) == [C, F, B, H, G, E, I, J, K, L, M, N, O, P]
  {
    SortDescendingFromBLits(s, t);
    SortInsertStep(B, s, [C, F], [H, G, E, I, J, K, L, M, N, O, P], key);
  }

  lemma SortDescendingFromBLits(s: seq<nat>, t: seq<nat>)
    requires s == [I, E, J, K, C, G, L, M, F, N, H, O, P] && t == [B, I, E, J, K, C, G, L, M, F, N, H, O, P]
    ensures [B] + s == t
    ensures [C, F] + [H, G, E, I, J, K, L, M, N, O, P] == [C, F, H, G, E, I, J, K, L, M, N, O, P]
    ensures [C, F] + [B] + [H, G, E, I, J, K, L, M, N, O, P] == [C, F, B, H, G, E, I, J, K, L, M, N, O, P]
  {
  }

  lemma SortDescendingFromA(key: nat -> real, s: seq<nat>, t: seq<nat>)
    requires s == [B, I, E, J, K, C, G, L, M, F, N, H, O, P] && t == [A, B, I, E, J, K, C, G, L, M, F, N, H, O, P]
    requires DescendingKeys(key) && SortBy(s, key) == [C, F, B, H, G, E, I, J, K, L, M, N, O, P]
    ensures SortBy(t, key) == [A, C, F, B, H, G, E, I, J, K, L, M, N, O, P]
  {
    SortDescendingFromALits(s, t);
    SortInsertStep(A, s, [], [C, F, B, H, G, E, I, J, K, L, M, N, O, P], key);
  }

  lemma SortDescendingFromALits(s: seq<nat>, t: seq<nat>)
    requires s == [B, I, E, J, K, C, G, L, M, F, N, H, O, P] && t == [A, B, I, E, J, K, C, G, L, M, F, N, H, O, P]
    ensures [A] + s == t
    ensures [] + [C, F, B, H, G, E, I, J, K, L, M, N, O, P] == [C, F, B, H, G, E, I, J, K, L, M, N, O, P]
    ensures [] + [A] + [C, F, B, H, G, E, I, J, K, L, M, N, O, P] == [A, C, F, B, H, G, E, I, J, K, L, M, N, O, P]
  {
  }

  /** The stable descending sort of the pre-order by the calibration ages. */
  lemma SortDescending(key: nat -> real)
    requires DescendingKeys(key)
    ensures SortBy([A, B, I, E, J, K, C, G, L, M, F, N, H, O, P], key) == [A, C, F, B, H, G, E, I, J, K, L, M, N, O, P]
  {
    assert SortBy<nat>([], key) == [];
    SortDescendingFromP(key, [], [P]);
    SortDescendingFromO(key, [P], [O, P]);
    SortDescendingFromH(key, [O, P], [H, O, P]);
    SortDescendingFromN(key, [H, O, P], [N, H, O, P]);
    SortDescendingFromF(key, [N, H, O, P], [F, N, H, O, P]);
    SortDescendingFromM(key, [F, N, H, O, P], [M, F, N, H, O, P]);
    SortDescendingFromL(key, [M, F, N, H, O, P], [L, M, F, N, H, O, P]);
    SortDescendingFromG(key, [L, M, F, N, H, O, P], [G, L, M, F, N, H, O, P]);
    SortDescendingFromC(key, [G, L, M, F, N, H, O, P], [C, G, L, M, F, N, H, O, P]);
    SortDescendingFromK(key, [C, G, L, M, F, N, H, O, P], [K, C, G, L, M, F, N, H, O, P]);
    SortDescendingFromJ(key, [K, C, G, L, M, F, N, H, O, P], [J, K, C, G, L, M, F, N, H, O, P]);
    SortDescendingFromE(key, [J, K, C, G, L, M, F, N, H, O, P], [E, J, K, C, G, L, M, F, N, H, O, P]);
    SortDescendingFromI(key, [E, J, K, C, G, L, M, F, N, H, O, P], [I, E, J, K, C, G, L, M, F, N, H, O, P]);
    SortDescendingFromB(key, [I, E, J, K, C, G, L, M, F, N, H, O, P], [B, I, E, J, K, C, G, L, M, F, N, H, O, P]);
    SortDescendingFromA(key, [B, I, E, J, K, C, G, L, M, F, N, H, O, P], [A, B, I, E, J, K, C, G, L, M, F, N, H, O, P]);
  }

  lemma InternalUnderH(a: Arena)
    requires WellFormed(a) && Fork(a, H, O, P) && Tip(a, O) && Tip(a, P)
    ensures Visit(a, H, Pre, AgeFilter(a, false, All)) == [H]
  {
    var g := AgeFilter(a, false, All);
    InternalAt(a, O);
    TipVisit(a, O, g);
    InternalAt(a, P);
    TipVisit(a, P, g);
    InternalAt(a, H);
    assert [H] + [] + [] == [H];
    PairPreFiltered(a, H, O, P, g, [], [], [H]);
  }

  lemma InternalUnderF(a: Arena)
    requires WellFormed(a) && Fork(a, F, N, H) && Tip(a, N) && Fork(a, H, O, P) && Tip(a, O) && Tip(a, P)
    ensures Visit(a, F, Pre, AgeFilter(a, false, All)) == [F, H]
  {
    var g := AgeFilter(a, false, All);
    InternalAt(a, N);
    TipVisit(a, N, g);
    InternalUnderH(a);
    InternalAt(a, F);
    assert [F] + [] + [H] == [F, H];
    PairPreFiltered(a, F, N, H, g, [], [H], [F, H]);
  }

  lemma InternalUnderG(a: Arena)
    requires WellFormed(a) && Fork(a, G, L, M) && Tip(a, L) && Tip(a, M)
    ensures Visit(a, G, Pre, AgeFilter(a, false, All)) == [G]
  {
    var g := AgeFilter(a, false, All);
    InternalAt(a, L);
    TipVisit(a, L, g);
    InternalAt(a, M);
    TipVisit(a, M, g);
    InternalAt(a, G);
    assert [G] + [] + [] == [G];
    PairPreFiltered(a, G, L, M, g, [], [], [G]);
  }

  lemma InternalUnderC(a: Arena)
    requires WellFormed(a) && Fork(a, C, G, F) && Fork(a, G, L, M) && Tip(a, L) && Tip(a, M) && Fork(a, F, N, H)
    requires Tip(a, N) && Fork(a, H, O, P) && Tip(a, O) && Tip(a, P)
    ensures Visit(a, C, Pre, AgeFilter(a, false, All)) == [C, G, F, H]
  {
    var g := AgeFilter(a, false, All);
    InternalUnderG(a);
    InternalUnderF(a);
    InternalAt(a, C);
    assert [C] + [G] + [F, H] == [C, G, F, H];
    PairPreFiltered(a, C, G, F, g, [G], [F, H], [C, G, F, H]);
  }

  lemma InternalUnderE(a: Arena)
    requires WellFormed(a) && Fork(a, E, J, K) && Tip(a, J) && Tip(a, K)
    ensures Visit(a, E, Pre, AgeFilter(a, false, All)) == [E]
  {
    var g := AgeFilter(a, false, All);
    InternalAt(a, J);
    TipVisit(a, J, g);
    InternalAt(a, K);
    TipVisit(a, K, g);
    InternalAt(a, E);
    assert [E] + [] + [] == [E];
    PairPreFiltered(a, E, J, K, g, [], [], [E]);
  }

  lemma InternalUnderB(a: Arena)
    requires WellFormed(a) && Fork(a, B, I, E) && Tip(a, I) && Fork(a, E, J, K) && Tip(a, J) && Tip(a, K)
    ensures Visit(a, B, Pre, AgeFilter(a, false, All)) == [B, E]
  {
    var g := AgeFilter(a, false, All);
    InternalAt(a, I);
    TipVisit(a, I, g);
    InternalUnderE(a);
    InternalAt(a, B);
    assert [B] + [] + [E] == [B, E];
    PairPreFiltered(a, B, I, E, g, [], [E], [B, E]);
  }

  lemma InternalUnderA(a: Arena)
    requires WellFormed(a) && Fork(a, A, B, C) && Fork(a, B, I, E) && Tip(a, I) && Fork(a, E, J, K) && Tip(a, J)
    requires Tip(a, K) && Fork(a, C, G, F) && Fork(a, G, L, M) && Tip(a, L) && Tip(a, M)
    requires Fork(a, F, N, H) && Tip(a, N) && Fork(a, H, O, P) && Tip(a, O) && Tip(a, P)
    ensures Visit(a, A, Pre, AgeFilter(a, false, All)) == [A, B, E, C, G, F, H]
  {
    var g := AgeFilter(a, false, All);
    InternalUnderB(a);
    InternalUnderC(a);
    InternalAt(a, A);
    assert [A] + [B, E] + [C, G, F, H] == [A, B, E, C, G, F, H];
    PairPreFiltered(a, A, B, C, g, [B, E], [C, G, F, H], [A, B, E, C, G, F, H]);
  }

  lemma SortInternalFromH(key: nat -> real, s: seq<nat>, t: seq<nat>)
    requires s == [] && t == [H]
    requires AscendingKeys(key) && SortBy(s, key) == []
    ensures SortBy(t, key) == [H]
  {
    SortInternalFromHLits(s, t);
    SortInsertStep(H, s, [], [], key);
  }

  lemma SortInternalFromHLits(s: seq<nat>, t: seq<nat>)
    requires s == [] && t == [H]
    ensures [H] + s == t
  {
  }

  lemma SortInternalFromF(key: nat -> real, s: seq<nat>, t: seq<nat>)
    requires s == [H] && t == [F, H]
    requires AscendingKeys(key) && SortBy(s, key) == [H]
    ensures SortBy(t, key) == [H, F]
  {
    SortInternalFromFLits(s, t);
    SortInsertStep(F, s, [H], [], key);
  }

  lemma SortInternalFromFLits(s: seq<nat>, t: seq<nat>)
    requires s == [H] && t == [F, H]
    ensures [F] + s == t
    ensures [H] + [] == [H]
    ensures [H] + [F] + [] == [H, F]
  {
  }

  lemma SortInternalFromG(key: nat -> real, s: seq<nat>, t: seq<nat>)
    requires s == [F, H] && t == [G, F, H]
    requires AscendingKeys(key) && SortBy(s, key) == [H, F]
    ensures SortBy(t, key) == [G, H, F]
  {
    SortInternalFromGLits(s, t);
    SortInsertStep(G, s, [], [H, F], key);
  }

  lemma SortInternalFromGLits(s: seq<nat>, t: seq<nat>)
    requires s == [F, H] && t == [G, F, H]
    ensures [G] + s == t
    ensures [] + [H, F] == [H, F]
    ensures [] + [G] + [H, F] == [G, H, F]
  {
  }

  lemma SortInternalFromC(key: nat -> real, s: seq<nat>, t: seq<nat>)
    requires s == [G, F, H] && t == [C, G, F, H]
    requires AscendingKeys(key) && SortBy(s, key) == [G, H, F]
    ensures SortBy(t, key) == [G, H, F, C]
  {
    SortInternalFromCLits(s, t);
    SortInsertStep(C, s, [G, H, F], [], key);
  }

  lemma SortInternalFromCLits(s: seq<nat>, t: seq<nat>)
    requires s == [G, F, H] && t == [C, G, F, H]
    ensures [C] + s == t
    ensures [G, H, F] + [] == [G, H, F]
    ensures [G, H, F] + [C] + [] == [G, H, F, C]
  {
  }

  lemma SortInternalFromE(key: nat -> real, s: seq<nat>, t: seq<nat>)
    requires s == [C, G, F, H] && t == [E, C, G, F, H]
    requires AscendingKeys(key) && SortBy(s, key) == [G, H, F, C]
    ensures SortBy(t, key) == [E, G, H, F, C]
  {
    SortInternalFromELits(s, t);
    SortInsertStep(E, s, [], [G, H, F, C], key);
  }

  lemma SortInternalFromELits(s: seq<nat>, t: seq<nat>)
    requires s == [C, G, F, H] && t == [E, C, G, F, H]
    ensures [E] + s == t
    ensures [] + [G, H, F, C] == [G, H, F, C]
    ensures [] + [E] + [G, H, F, C] == [E, G, H, F, C]
  {
  }

  lemma SortInternalFromB(key: nat -> real, s: seq<nat>, t: seq<nat>)
    requires s == [E, C, G, F, H] && t == [B, E, C, G, F, H]
    requires AscendingKeys(key) && SortBy(s, key) == [E, G, H, F, C]
    ensures SortBy(t, key) == [E, G, H, B, F, C]
  {
    SortInternalFromBLits(s, t);
    SortInsertStep(B, s, [E, G, H], [F, C], key);
  }

  lemma SortInternalFromBLits(s: seq<nat>, t: seq<nat>)
    requires s == [E, C, G, F, H] && t == [B, E, C, G, F, H]
    ensures [B] + s == t
    ensures [E, G, H] + [F, C] == [E, G, H, F, C]
    ensures [E, G, H] + [B] + [F, C] == [E, G, H, B, F, C]
  {
  }

  lemma SortInternalFromA(key: nat -> real, s: seq<nat>, t: seq<nat>)
    requires s == [B, E, C, G, F, H] && t == [A, B, E, C, G, F, H]
    requires AscendingKeys(key) && SortBy(s, key) == [E, G, H, B, F, C]
    ensures SortBy(t, key) == [E, G, H, B, F, C, A]
  {
    SortInternalFromALits(s, t);
    SortInsertStep(A, s, [E, G, H, B, F, C], [], key);
  }

  lemma SortInternalFromALits(s: seq<nat>, t: seq<nat>)
    requires s == [B, E, C, G, F, H] && t == [A, B, E, C, G, F, H]
    ensures [A] + s == t
    ensures [E, G, H, B, F, C] + [] == [E, G, H, B, F, C]
    ensures [E, G, H, B, F, C] + [A] + [] == [E, G, H, B, F, C, A]
  {
  }

  lemma AgeKeys(a: Arena)
    requires Shaped(a) && Labelled(a)
    ensures AscendingKeys(AgeKey(a, false)) && DescendingKeys(AgeKey(a, true))
  {
    CalibrationAges(a);
  }

  /** `ageorder_sequence` of the tests: i j k l m n o p e g h b f c a. */
  lemma CalibrationAgeorder(a: Arena)
    requires Shaped(a) && Labelled(a)
    ensures Age(a, Seed).Ok?
    ensures AgeorderNodeIter(a, true, false, All) == Ok([I, J, K, L, M, N, O, P, E, G, H, B, F, C, A])
  {
    CalibrationAges(a);
    AgeKeys(a);
    SubtreeAPre(a);
    FilterKeepsAll(Preorder(a), AgeFilter(a, true, All));
    SortAscending(AgeKey(a, false));
  }

  /** Age order without leaves: e g h b f c a. */
  lemma CalibrationAgeorderInternal(a: Arena)
    requires Shaped(a) && Labelled(a)
    ensures AgeorderNodeIter(a, false, false, All) == Ok([E, G, H, B, F, C, A])
  {
    CalibrationAges(a);
    AgeKeys(a);
    InternalUnderA(a);
    VisitFilter(a, Seed, Pre, AgeFilter(a, false, All));
    assert SortBy<nat>([], AgeKey(a, false)) == [];
    SortInternalFromH(AgeKey(a, false), [], [H]);
    SortInternalFromF(AgeKey(a, false), [H], [F, H]);
    SortInternalFromG(AgeKey(a, false), [F, H], [G, F, H]);
    SortInternalFromC(AgeKey(a, false), [G, F, H], [C, G, F, H]);
    SortInternalFromE(AgeKey(a, false), [C, G, F, H], [E, C, G, F, H]);
    SortInternalFromB(AgeKey(a, false), [E, C, G, F, H], [B, E, C, G, F, H]);
    SortInternalFromA(AgeKey(a, false), [B, E, C, G, F, H], [A, B, E, C, G, F, H]);
  }

  /**
   * Descending age order: a c f b h g e, then the leaves still in pre-order (a stable sort
   * with `reverse=True`), which is not the ascending order back to front.
   */
  lemma CalibrationAgeorderDescending(a: Arena)
    requires Shaped(a) && Labelled(a)
    ensures AgeorderNodeIter(a, true, true, All) == Ok([A, C, F, B, H, G, E, I, J, K, L, M, N, O, P])
    ensures AgeorderNodeIter(a, true, true, All).value != Reversed(AgeorderNodeIter(a, true, false, All).value)
  {
    CalibrationAges(a);
    AgeKeys(a);
    SubtreeAPre(a);
    FilterKeepsAll(Preorder(a), AgeFilter(a, true, All));
    SortDescending(AgeKey(a, true));
    assert All(I) && All(J);
    DescendingIsNotReversed(a, true, All, I, J);
  }

  /** `test_node_ages`: `calc_node_ages` on the calibration tree stores the ages above. */
  method CalibrationNodeAges() returns (t: Tree, ok: bool)
    ensures ok && |t.nodes| == 15
    ensures t.nodes[A].age == Some(50.0)
    ensures t.nodes[B].age == Some(17.0)
    ensures t.nodes[I].age == Some(0.0)
    ensures t.nodes[E].age == Some(3.0)
    ensures t.nodes[J].age == Some(0.0)
    ensures t.nodes[K].age == Some(0.0)
    ensures t.nodes[C].age == Some(36.0)
    ensures t.nodes[G].age == Some(6.0)
    ensures t.nodes[L].age == Some(0.0)
    ensures t.nodes[M].age == Some(0.0)
    ensures t.nodes[F].age == Some(23.0)
    ensures t.nodes[N].age == Some(0.0)
    ensures t.nodes[H].age == Some(11.0)
    ensures t.nodes[O].age == Some(0.0)
    ensures t.nodes[P].age == Some(0.0)
  {
    t := GetTree();
    BuiltShape();
    CalibrationAges(t.nodes);
    ok := t.CalcNodeAges();
  }
}
