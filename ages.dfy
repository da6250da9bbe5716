/**
 * The age engine. A leaf's age is 0; an internal node's age is the largest, over its
 * children, of the child's age plus the length of the child's incoming edge. An edge
 * without a length makes the age undefined (`MissingEdgeLengthError`). Age order sorts
 * nodes by age, ties keeping their pre-order position.
 */
module NodeAges {
  import opened Wrappers
  import opened Seqs
  import opened Arenas
  import opened Traversal
  import opened Sorting

  datatype AgeError = MissingEdgeLength

  /** The age of node `i`. */
  function Age(a: Arena, i: nat): Result<real, AgeError>
    requires WellFormed(a) && i < |a|
    decreases |a| - i, 1, 0
  {
    assert ChildrenLinked(a, i);
    if a[i].children == [] then Ok(0.0) else MaxOver(a, i, a[i].children)
  }

  /** What a child contributes to its parent's age: its own age plus its edge length. */
  function Through(a: Arena, c: nat): Result<real, AgeError>
    requires WellFormed(a) && c < |a|
    decreases |a| - c, 2, 0
  {
    match a[c].edgeLength
    case None => Err(MissingEdgeLength)
    case Some(len) =>
      match Age(a, c)
      case Err(e) => Err(e)
      case Ok(v) => Ok(v + len)
  }

  /** The largest contribution of the children `cs` of `lo`. */
  function MaxOver(a: Arena, lo: nat, cs: seq<nat>): Result<real, AgeError>
    requires WellFormed(a) && After(a, lo, cs) && cs != []
    decreases |a| - lo, 0, |cs|
  {
    var h := Through(a, cs[0]);
    if |cs| == 1 then h
    else
      match h
      case Err(e) => Err(e)
      case Ok(v) =>
        match MaxOver(a, lo, cs[1..])
        case Err(e) => Err(e)
        case Ok(w) => Ok(if v >= w then v else w)
  }

  /** `v` bounds every child's contribution and one child attains it. */
  predicate IsMaxOver(a: Arena, cs: seq<nat>, v: real)
    requires WellFormed(a) && AllIn(a, cs)
  {
    && (forall k :: 0 <= k < |cs| ==> Through(a, cs[k]).Ok? && Through(a, cs[k]).value <= v)
    && (exists k :: 0 <= k < |cs| && Through(a, cs[k]).value == v)
  }

  /** The maximum is defined exactly when every contribution is, and is then the maximum. */
  lemma {:induction false} MaxOverIsMax(a: Arena, lo: nat, cs: seq<nat>)
    requires WellFormed(a) && After(a, lo, cs) && cs != []
    ensures MaxOver(a, lo, cs).Ok? <==> forall k :: 0 <= k < |cs| ==> Through(a, cs[k]).Ok?
    ensures MaxOver(a, lo, cs).Ok? ==> IsMaxOver(a, cs, MaxOver(a, lo, cs).value)
    decreases |cs|
  {
    if |cs| > 1 {
      var t := cs[1..];
      MaxOverIsMax(a, lo, t);
      assert forall k :: 1 <= k < |cs| ==> cs[k] == t[k - 1];
      if MaxOver(a, lo, cs).Ok? {
        var v, w := Through(a, cs[0]).value, MaxOver(a, lo, t).value;
        var j :| 0 <= j < |t| && Through(a, t[j]).value == w;
        if v < w {
          assert Through(a, cs[j + 1]).value == MaxOver(a, lo, cs).value;
        }
      }
    }
  }

  /** Two values that both bound a set of contributions and are both attained are equal. */
  lemma MaxUnique(a: Arena, cs: seq<nat>, v: real, w: real)
    requires WellFormed(a) && AllIn(a, cs)
    requires IsMaxOver(a, cs, v) && IsMaxOver(a, cs, w)
    ensures v == w
  {
    var j :| 0 <= j < |cs| && Through(a, cs[j]).value == v;
    var k :| 0 <= k < |cs| && Through(a, cs[k]).value == w;
  }

  /**
   * An internal node's age, when defined, is the maximum over its children of child age
   * plus child edge length, and every child then has both.
   */
  lemma AgeOfInternal(a: Arena, i: nat)
    requires WellFormed(a) && i < |a| && IsInternal(a, i)
    requires AllIn(a, a[i].children)  // implied by WellFormed(a)
    ensures Age(a, i).Ok? <==>
      forall k :: 0 <= k < |a[i].children| ==> a[a[i].children[k]].edgeLength.Some? && Age(a, a[i].children[k]).Ok?
    ensures Age(a, i).Ok? ==>
      (forall k :: 0 <= k < |a[i].children| ==>
         Age(a, a[i].children[k]).value + a[a[i].children[k]].edgeLength.value <= Age(a, i).value) &&
      (exists k :: 0 <= k < |a[i].children| &&
         Age(a, a[i].children[k]).value + a[a[i].children[k]].edgeLength.value == Age(a, i).value)
  {
    AgeOfInternalDefined(a, i);
    if Age(a, i).Ok? {
      AgeOfInternalValue(a, i);
    }
  }

  lemma AgeOfInternalDefined(a: Arena, i: nat)
    requires WellFormed(a) && i < |a| && IsInternal(a, i) && AllIn(a, a[i].children)
    ensures Age(a, i).Ok? <==>
      forall k :: 0 <= k < |a[i].children| ==> a[a[i].children[k]].edgeLength.Some? && Age(a, a[i].children[k]).Ok?
  {
    assert ChildrenLinked(a, i);
    MaxOverIsMax(a, i, a[i].children);
  }

  lemma AgeOfInternalValue(a: Arena, i: nat)
    requires WellFormed(a) && i < |a| && IsInternal(a, i) && AllIn(a, a[i].children) && Age(a, i).Ok?
    ensures forall k :: 0 <= k < |a[i].children| ==>
      Age(a, a[i].children[k]).Ok? && a[a[i].children[k]].edgeLength.Some? &&
      Age(a, a[i].children[k]).value + a[a[i].children[k]].edgeLength.value <= Age(a, i).value
    ensures exists k :: (0 <= k < |a[i].children| &&
      Age(a, a[i].children[k]).value + a[a[i].children[k]].edgeLength.value == Age(a, i).value)
  {
    assert ChildrenLinked(a, i);
    var cs := a[i].children;
    MaxOverIsMax(a, i, cs);
    var j :| 0 <= j < |cs| && Through(a, cs[j]).value == Age(a, i).value;
    assert Age(a, cs[j]).value + a[cs[j]].edgeLength.value == Age(a, i).value;
  }

  /** A leaf's age is 0. */
  lemma AgeOfLeaf(a: Arena, i: nat)
    requires WellFormed(a) && i < |a| && IsLeaf(a, i)
    ensures Age(a, i) == Ok(0.0)
  {
  }

  /** Every proper descendant of `i` has an edge length. */
  predicate Weighted(a: Arena, i: nat)
    requires WellFormed(a)
  {
    forall x :: i < x < |a| && Descends(a, x, i) ==> a[x].edgeLength.Some?
  }

  /** A node's age is defined exactly when every edge below it has a length. */
  lemma {:induction false} AgeDefined(a: Arena, i: nat)
    requires WellFormed(a) && i < |a|
    ensures Age(a, i).Ok? <==> Weighted(a, i)
    decreases |a| - i
  {
    assert ChildrenLinked(a, i);
    var cs := a[i].children;
    if cs == [] {
      forall x | i < x < |a| && Descends(a, x, i) ensures false {
        var k := DescendsViaSomeChild(a, x, i);
      }
    } else {
      AgeOfInternal(a, i);
      forall k | 0 <= k < |cs| ensures Age(a, cs[k]).Ok? <==> Weighted(a, cs[k]) {
        AgeDefined(a, cs[k]);
      }
      if Age(a, i).Ok? {
        forall x | i < x < |a| && Descends(a, x, i) ensures a[x].edgeLength.Some? {
          var k := DescendsViaSomeChild(a, x, i);
          DescendsAtLeast(a, x, cs[k]);
        }
      } else {
        var k :| 0 <= k < |cs| && !(a[cs[k]].edgeLength.Some? && Age(a, cs[k]).Ok?);
        assert a[cs[k]].parent == Some(i);
        assert Descends(a, cs[k], i) by {
          assert ParentLinked(a, cs[k]);
        }
        if a[cs[k]].edgeLength.Some? {
          var x :| cs[k] < x < |a| && Descends(a, x, cs[k]) && a[x].edgeLength.None?;
          DescendsThroughChild(a, x, cs[k], i);
        }
      }
    }
  }

  /** When the seed's age is defined, so is every node's. */
  lemma AgeDefinedEverywhere(a: Arena, j: nat)
    requires WellFormed(a) && j < |a| && Age(a, Seed).Ok?
    ensures Age(a, j).Ok?
  {
    AgeDefined(a, Seed);
    AgeDefined(a, j);
    forall x | j < x < |a| && Descends(a, x, j) ensures a[x].edgeLength.Some? {
      DescendsFromSeed(a, x);
    }
  }

  // ---------------------------------------------------------------------------------------
  // Age order

  /** Every node's age, with 0 standing in where it is undefined. */
  function AgeValue(a: Arena, n: nat): real
    requires WellFormed(a)
  {
    if n < |a| && Age(a, n).Ok? then Age(a, n).value else 0.0
  }

  /** The sort key: age, or negated age for `descending=True`. */
  function AgeKey(a: Arena, descending: bool): nat -> real
    requires WellFormed(a)
  {
    if descending then (n: nat) => -AgeValue(a, n) else (n: nat) => AgeValue(a, n)
  }

  /** Which nodes age order yields: internal ones only unless `include_leaves`, and only those passing `f`. */
  function AgeFilter(a: Arena, includeLeaves: bool, f: nat -> bool): nat -> bool {
    (n: nat) => (includeLeaves || (n < |a| && a[n].children != [])) && f(n)
  }

  /**
   * `ageorder_node_iter`: the nodes in pre-order that pass the filter, sorted stably by
   * ascending age (or by descending age, with `reverse=True` semantics: ties still in
   * pre-order). Fails when ages cannot be computed.
   */
  function AgeorderNodeIter(a: Arena, includeLeaves: bool, descending: bool, f: nat -> bool): (r: Result<seq<nat>, AgeError>)
    requires WellFormed(a)
    ensures r.Ok? <==> Age(a, Seed).Ok?
    ensures r.Ok? ==> SortedBy(r.value, AgeKey(a, descending))
    ensures r.Ok? ==> multiset(r.value) == multiset(Filter(Preorder(a), AgeFilter(a, includeLeaves, f)))
  {
    if Age(a, Seed).Err? then Err(MissingEdgeLength)
    else
      SortBySorts(Filter(Preorder(a), AgeFilter(a, includeLeaves, f)), AgeKey(a, descending));
      Ok(SortBy(Filter(Preorder(a), AgeFilter(a, includeLeaves, f)), AgeKey(a, descending)))
  }

  /** Sorting before filtering gives the same sequence: the filter does not disturb the order. */
  lemma AgeorderFiltersSorted(a: Arena, includeLeaves: bool, descending: bool, f: nat -> bool)
    requires WellFormed(a) && Age(a, Seed).Ok?
    ensures AgeorderNodeIter(a, includeLeaves, descending, f).value
         == Filter(SortBy(Preorder(a), AgeKey(a, descending)), AgeFilter(a, includeLeaves, f))
  {
    SortByFilter(Preorder(a), AgeKey(a, descending), AgeFilter(a, includeLeaves, f));
  }

  /** The filtered and internal-only variants are the full age order, filtered. */
  lemma AgeorderFilter(a: Arena, includeLeaves: bool, descending: bool, f: nat -> bool)
    requires WellFormed(a) && Age(a, Seed).Ok?
    ensures AgeorderNodeIter(a, includeLeaves, descending, f).value
         == Filter(AgeorderNodeIter(a, true, descending, All).value, AgeFilter(a, includeLeaves, f))
  {
    var p, g := Preorder(a), AgeFilter(a, includeLeaves, f);
    FilterKeepsAll(p, AgeFilter(a, true, All));
    AgeorderFiltersSorted(a, includeLeaves, descending, f);
  }

  /** Age order yields every qualifying node exactly once. */
  lemma AgeorderVisitsOnce(a: Arena, includeLeaves: bool, descending: bool, f: nat -> bool)
    requires WellFormed(a) && Age(a, Seed).Ok?
    ensures Distinct(AgeorderNodeIter(a, includeLeaves, descending, f).value)
    ensures forall x: nat :: x in AgeorderNodeIter(a, includeLeaves, descending, f).value <==>
      x < |a| && AgeFilter(a, includeLeaves, f)(x)
  {
    var key, g := AgeKey(a, descending), AgeFilter(a, includeLeaves, f);
    VisitsEveryNodeOnce(a, Pre);
    var p := Preorder(a);
    var fp := Filter(p, g);
    FilterDistinct(p, g);
    FilterMembers(p, g);
    var r := SortBy(fp, key);
    SortBySorts(fp, key);
    assert multiset(r) == multiset(fp);
    forall x ensures x in r <==> x in fp {
      assert x in r <==> x in multiset(r);
      assert x in fp <==> x in multiset(fp);
    }
    DistinctMultiset(fp, r);
  }

  /** The nodes of age `v`. */
  function SameAge(a: Arena, v: real): nat -> bool
    requires WellFormed(a)
  {
    (n: nat) => AgeValue(a, n) == v
  }

  /** Stability: the nodes of any one age come out in pre-order, in either direction. */
  lemma AgeorderStable(a: Arena, includeLeaves: bool, descending: bool, f: nat -> bool, v: real)
    requires WellFormed(a) && Age(a, Seed).Ok?
    ensures Filter(AgeorderNodeIter(a, includeLeaves, descending, f).value, SameAge(a, v))
         == Filter(Filter(Preorder(a), AgeFilter(a, includeLeaves, f)), SameAge(a, v))
  {
    var key := AgeKey(a, descending);
    SortByStable(Filter(Preorder(a), AgeFilter(a, includeLeaves, f)), key, SameAge(a, v), if descending then -v else v);
  }

  /**
   * Descending age order is not ascending age order back to front as soon as two qualifying
   * nodes share an age: stability keeps them in pre-order in both directions.
   */
  lemma DescendingIsNotReversed(a: Arena, includeLeaves: bool, f: nat -> bool, x: nat, y: nat)
    requires WellFormed(a) && Age(a, Seed).Ok? && x < |a| && y < |a| && x != y
    requires AgeFilter(a, includeLeaves, f)(x) && AgeFilter(a, includeLeaves, f)(y)
    requires AgeValue(a, x) == AgeValue(a, y)
    ensures AgeorderNodeIter(a, includeLeaves, true, f).value
         != Reversed(AgeorderNodeIter(a, includeLeaves, false, f).value)
  {
    var v := AgeValue(a, x);
    var t := SameAge(a, v);
    var asc, desc := AgeorderNodeIter(a, includeLeaves, false, f).value, AgeorderNodeIter(a, includeLeaves, true, f).value;
    AgeorderStable(a, includeLeaves, false, f, v);
    AgeorderStable(a, includeLeaves, true, f, v);
    var fs := SameAgeInPreorder(a, includeLeaves, f, x, y);
    if desc == Reversed(asc) {
      FilterReversed(asc, t);
      DistinctNotPalindrome(fs, x, y);
      assert false;
    }
  }

  /** Two qualifying nodes of one age both occur, once each, among the nodes of that age in pre-order. */
  lemma SameAgeInPreorder(a: Arena, includeLeaves: bool, f: nat -> bool, x: nat, y: nat) returns (fs: seq<nat>)
    requires WellFormed(a) && x < |a| && y < |a|
    requires AgeFilter(a, includeLeaves, f)(x) && AgeFilter(a, includeLeaves, f)(y)
    requires AgeValue(a, x) == AgeValue(a, y)
    ensures fs == Filter(Filter(Preorder(a), AgeFilter(a, includeLeaves, f)), SameAge(a, AgeValue(a, x)))
    ensures Distinct(fs) && x in fs && y in fs
  {
    var g, t := AgeFilter(a, includeLeaves, f), SameAge(a, AgeValue(a, x));
    var p := Preorder(a);
    fs := Filter(Filter(p, g), t);
    VisitsEveryNodeOnce(a, Pre);
    FilterMembers(p, g);
    FilterMembers(Filter(p, g), t);
    FilterDistinct(p, g);
    FilterDistinct(Filter(p, g), t);
  }
}
