/** Sequence helpers: filtering (a list comprehension with an `if`), concatenation and distinctness. */
module Seqs {

  /** The elements of `s` that satisfy `f`, in their order in `s`. */
  function Filter<T>(s: seq<T>, f: T -> bool): (r: seq<T>)
  {
    if s == [] then [] else (if f(s[0]) then [s[0]] else []) + Filter(s[1..], f)
  }

  lemma {:induction false} FilterConcat<T>(s: seq<T>, t: seq<T>, f: T -> bool)
    ensures Filter(s + t, f) == Filter(s, f) + Filter(t, f)
  {
    if s == [] {
      assert s + t == t;
    } else {
      var h := if f(s[0]) then [s[0]] else [];
      assert (s + t)[0] == s[0] && (s + t)[1..] == s[1..] + t;
      FilterConcat(s[1..], t, f);
      assert Filter(s + t, f) == h + (Filter(s[1..], f) + Filter(t, f));
      assert h + (Filter(s[1..], f) + Filter(t, f)) == (h + Filter(s[1..], f)) + Filter(t, f);
    }
  }

  /** What filtering keeps: no more elements, each one from `s` and passing `f`; every passing element of `s`. */
  lemma {:induction false} FilterBasics<T>(s: seq<T>, f: T -> bool)
    ensures |Filter(s, f)| <= |s|
    ensures forall k :: 0 <= k < |Filter(s, f)| ==> Filter(s, f)[k] in s && f(Filter(s, f)[k])
    ensures forall k :: 0 <= k < |s| && f(s[k]) ==> s[k] in Filter(s, f)
  {
    if s != [] {
      FilterBasics(s[1..], f);
      var h := if f(s[0]) then [s[0]] else [];
      assert Filter(s, f) == h + Filter(s[1..], f);
      forall k | 0 <= k < |s| && f(s[k]) ensures s[k] in Filter(s, f) {
        if k > 0 {
          assert s[k] == s[1..][k - 1];
        }
      }
    }
  }

  /** An element is kept iff it occurs and passes the filter. */
  lemma {:induction false} FilterMembers<T>(s: seq<T>, f: T -> bool)
    ensures forall x :: x in Filter(s, f) <==> x in s && f(x)
  {
    FilterBasics(s, f);
    forall x | x in s && f(x) ensures x in Filter(s, f) {
      var k :| 0 <= k < |s| && s[k] == x;
    }
  }

  /** Filtering a sequence extended by one element. */
  lemma FilterSnoc<T>(s: seq<T>, x: T, f: T -> bool)
    ensures Filter(s + [x], f) == Filter(s, f) + (if f(x) then [x] else [])
  {
    FilterConcat(s, [x], f);
    assert Filter([x], f) == (if f(x) then [x] else []) + Filter([], f);
  }

  /** Filtering twice is filtering by the conjunction. */
  lemma {:induction false} FilterFilter<T>(s: seq<T>, f: T -> bool, g: T -> bool)
    ensures Filter(Filter(s, f), g) == Filter(s, x => f(x) && g(x))
  {
    if s != [] {
      FilterFilter(s[1..], f, g);
      FilterConcat(if f(s[0]) then [s[0]] else [], Filter(s[1..], f), g);
    }
  }

  /** A filter that every element passes changes nothing. */
  lemma {:induction false} FilterKeepsAll<T>(s: seq<T>, f: T -> bool)
    requires forall k :: 0 <= k < |s| ==> f(s[k])
    ensures Filter(s, f) == s
  {
    if s != [] {
      assert forall k :: 0 <= k < |s[1..]| ==> s[1..][k] == s[k + 1];
      FilterKeepsAll(s[1..], f);
    }
  }

  /** Filtering depends only on the values the predicate takes on the elements. */
  lemma {:induction false} FilterExt<T>(s: seq<T>, f: T -> bool, g: T -> bool)
    requires forall x :: x in s ==> f(x) == g(x)
    ensures Filter(s, f) == Filter(s, g)
  {
    if s != [] {
      FilterExt(s[1..], f, g);
    }
  }

  /** Filtering by a predicate and by its complement splits `s` into two parts. */
  lemma {:induction false} FilterPartition<T>(s: seq<T>, f: T -> bool, g: T -> bool)
    requires forall k :: 0 <= k < |s| ==> g(s[k]) == !f(s[k])
    ensures multiset(Filter(s, f)) + multiset(Filter(s, g)) == multiset(s)
  {
    if s != [] {
      var t := s[1..];
      forall k | 0 <= k < |t| ensures g(t[k]) == !f(t[k]) {
        assert t[k] == s[k + 1];
      }
      FilterPartition(t, f, g);
      assert multiset(s) == multiset{s[0]} + multiset(t) by {
        assert s == [s[0]] + t;
      }
      if f(s[0]) {
        assert Filter(s, f) == [s[0]] + Filter(t, f);
        assert Filter(s, g) == Filter(t, g);
      } else {
        assert Filter(s, f) == Filter(t, f);
        assert Filter(s, g) == [s[0]] + Filter(t, g);
      }
    }
  }

  /** No element occurs twice. */
  predicate Distinct<T(==)>(s: seq<T>) {
    forall i, j :: 0 <= i < j < |s| ==> s[i] != s[j]
  }

  lemma {:induction false} FilterDistinct<T>(s: seq<T>, f: T -> bool)
    requires Distinct(s)
    ensures Distinct(Filter(s, f))
  {
    if s != [] {
      FilterDistinct(s[1..], f);
      FilterBasics(s[1..], f);
    }
  }

  /** The sequence 0, 1, ..., n - 1. */
  function Range(n: nat): (r: seq<nat>)
    ensures |r| == n
    ensures forall k :: 0 <= k < n ==> r[k] == k
  {
    if n == 0 then [] else Range(n - 1) + [n - 1]
  }

  /** Concatenating two distinct, disjoint sequences gives a distinct sequence. */
  lemma {:induction false} DistinctConcat<T>(s: seq<T>, t: seq<T>)
    requires Distinct(s) && Distinct(t)
    requires forall p, q :: 0 <= p < |s| && 0 <= q < |t| ==> s[p] != t[q]
    ensures Distinct(s + t)
  {
    forall i, j | 0 <= i < j < |s + t| ensures (s + t)[i] != (s + t)[j] {
      if j < |s| {
        assert (s + t)[i] == s[i] && (s + t)[j] == s[j];
      } else if i < |s| {
        assert (s + t)[i] == s[i] && (s + t)[j] == t[j - |s|];
      } else {
        assert (s + t)[i] == t[i - |s|] && (s + t)[j] == t[j - |s|];
      }
    }
  }

  /** The set of elements of `s`. */
  function Elems(s: seq<nat>): (e: set<nat>)
    ensures forall x :: x in e <==> x in s
  {
    if s == [] then {} else {s[0]} + Elems(s[1..])
  }

  /** A distinct sequence has as many elements as its set of elements. */
  lemma {:induction false} DistinctCardinality(s: seq<nat>)
    requires Distinct(s)
    ensures |Elems(s)| == |s|
  {
    if s != [] {
      assert Distinct(s[1..]);
      DistinctCardinality(s[1..]);
      assert s[0] !in s[1..];
    }
  }

  /** A distinct sequence holding exactly the numbers below `n` has length `n`. */
  lemma DistinctLength(s: seq<nat>, n: nat)
    requires Distinct(s)
    requires forall x: nat :: x in s <==> x < n
    ensures |s| == n
  {
    var r := Range(n);
    DistinctCardinality(s);
    DistinctCardinality(r);
    forall x: nat ensures x in s <==> x in r {
      if x < n {
        assert r[x] == x;
      }
    }
    assert Elems(s) == Elems(r);
  }

  /** The first element that passes a filter is preceded only by elements that fail it. */
  lemma {:induction false} FilterFirst<T>(s: seq<T>, f: T -> bool)
    requires Filter(s, f) != []
    ensures exists k :: 0 <= k < |s| && s[k] == Filter(s, f)[0] && forall j :: 0 <= j < k ==> !f(s[j])
  {
    if f(s[0]) {
      assert s[0] == Filter(s, f)[0];
    } else {
      FilterFirst(s[1..], f);
      var k :| 0 <= k < |s[1..]| && s[1..][k] == Filter(s[1..], f)[0] && forall j :: 0 <= j < k ==> !f(s[1..][j]);
      assert s[k + 1] == Filter(s, f)[0];
      assert forall j :: 0 <= j < k + 1 ==> !f(s[j]) by {
        forall j | 0 < j < k + 1 ensures !f(s[j]) {
          assert s[j] == s[1..][j - 1];
        }
      }
    }
  }

  /** In a distinct sequence every element occurs once. */
  lemma {:induction false} DistinctOnce<T>(s: seq<T>, x: T)
    requires Distinct(s)
    ensures multiset(s)[x] <= 1
  {
    if s != [] {
      assert s == [s[0]] + s[1..];
      assert multiset(s) == multiset{s[0]} + multiset(s[1..]);
      assert Distinct(s[1..]);
      DistinctOnce(s[1..], x);
      if x == s[0] {
        assert x !in s[1..];
        assert x !in multiset(s[1..]);
      }
    }
  }

  /** A rearrangement of a distinct sequence is distinct. */
  lemma DistinctMultiset<T>(s: seq<T>, t: seq<T>)
    requires Distinct(s) && multiset(s) == multiset(t)
    ensures Distinct(t)
  {
    forall i, j | 0 <= i < j < |t| ensures t[i] != t[j] {
      if t[i] == t[j] {
        var x := t[i];
        assert t == t[..i] + [x] + t[i + 1..j] + [x] + t[j + 1..];
        assert multiset(t) == multiset(t[..i]) + multiset{x} + multiset(t[i + 1..j]) + multiset{x} + multiset(t[j + 1..]);
        DistinctOnce(s, x);
        assert false;
      }
    }
  }

  /** `s` back to front. */
  function Reversed<T>(s: seq<T>): (r: seq<T>)
    ensures |r| == |s| && forall k :: 0 <= k < |s| ==> r[k] == s[|s| - 1 - k]
  {
    if s == [] then [] else Reversed(s[1..]) + [s[0]]
  }

  lemma ReversedConcat<T>(s: seq<T>, t: seq<T>)
    ensures Reversed(s + t) == Reversed(t) + Reversed(s)
  {
    var l, r := Reversed(s + t), Reversed(t) + Reversed(s);
    assert |l| == |r|;
    forall k | 0 <= k < |l| ensures l[k] == r[k] {
      if k < |t| {
        assert r[k] == Reversed(t)[k] == t[|t| - 1 - k];
      } else {
        assert r[k] == Reversed(s)[k - |t|] == s[|s| - 1 - (k - |t|)];
      }
    }
  }

  /** Filtering commutes with reversal. */
  lemma {:induction false} FilterReversed<T>(s: seq<T>, f: T -> bool)
    ensures Filter(Reversed(s), f) == Reversed(Filter(s, f))
  {
    if s != [] {
      var h := if f(s[0]) then [s[0]] else [];
      FilterReversed(s[1..], f);
      FilterConcat(Reversed(s[1..]), [s[0]], f);
      assert Filter([s[0]], f) == h + Filter([], f);
      ReversedConcat(h, Filter(s[1..], f));
      assert Reversed(h) == h;
    }
  }

  /** A distinct sequence with at least two elements is not its own reversal. */
  lemma DistinctNotPalindrome<T>(s: seq<T>, x: T, y: T)
    requires Distinct(s) && x in s && y in s && x != y
    ensures Reversed(s) != s
  {
    assert Reversed(s)[0] == s[|s| - 1];
  }
}
