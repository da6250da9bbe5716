/**
 * Stable sorting by a real-valued key, as Python's `list.sort(key=...)` does: elements with
 * equal keys keep their original relative order.
 */
module Sorting {
  import opened Seqs

  /** Keys never decrease from left to right. */
  predicate SortedBy<T>(s: seq<T>, key: T -> real) {
    forall i, j :: 0 <= i < j < |s| ==> key(s[i]) <= key(s[j])
  }

  /** Put `x` in front of the first element whose key is not smaller than its own. */
  function Insert<T>(x: T, s: seq<T>, key: T -> real): seq<T>
  {
    if s == [] then [x]
    else if key(x) <= key(s[0]) then [x] + s
    else [s[0]] + Insert(x, s[1..], key)
  }

  /** Insertion adds `x` and loses nothing; the result starts with `x` or with the old head. */
  lemma {:induction false} InsertPermutes<T>(x: T, s: seq<T>, key: T -> real)
    ensures multiset(Insert(x, s, key)) == multiset{x} + multiset(s)
    ensures |Insert(x, s, key)| == |s| + 1
    ensures Insert(x, s, key)[0] == x || (s != [] && Insert(x, s, key)[0] == s[0])
  {
    if s != [] && key(s[0]) < key(x) {
      assert s == [s[0]] + s[1..];
      InsertPermutes(x, s[1..], key);
    }
  }

  lemma {:induction false} InsertSorted<T>(x: T, s: seq<T>, key: T -> real)
    requires SortedBy(s, key)
    ensures SortedBy(Insert(x, s, key), key)
  {
    if s != [] && key(s[0]) < key(x) {
      var t := s[1..];
      assert SortedBy(t, key);
      InsertSorted(x, t, key);
      InsertPermutes(x, t, key);
      var r := Insert(x, t, key);
      assert key(s[0]) <= key(r[0]);
      assert Insert(x, s, key) == [s[0]] + r;
    }
  }

  /** Every element of `s` has a key below `v`. */
  predicate KeysBelow<T(==)>(s: seq<T>, key: T -> real, v: real) {
    forall y :: y in s ==> key(y) < v
  }

  /** `x` lands right after the elements in front of it with smaller keys. */
  lemma {:induction false} InsertBetween<T>(x: T, pre: seq<T>, post: seq<T>, key: T -> real)
    requires KeysBelow(pre, key, key(x))
    requires post != [] ==> key(x) <= key(post[0])
    ensures Insert(x, pre + post, key) == pre + [x] + post
  {
    if pre == [] {
      assert pre + post == post;
    } else {
      InsertBetween(x, pre[1..], post, key);
      assert (pre + post)[0] == pre[0] && (pre + post)[1..] == pre[1..] + post;
      assert pre + [x] + post == [pre[0]] + (pre[1..] + [x] + post);
    }
  }

  /**
   * Insertion sort from the back: `x` goes in front of every later element with an equal key,
   * so ties keep their order.
   */
  function SortBy<T>(s: seq<T>, key: T -> real): seq<T>
  {
    if s == [] then [] else Insert(s[0], SortBy(s[1..], key), key)
  }

  /** Sorting yields a permutation of its input, ordered by the key. */
  lemma {:induction false} SortBySorts<T>(s: seq<T>, key: T -> real)
    ensures multiset(SortBy(s, key)) == multiset(s)
    ensures SortedBy(SortBy(s, key), key)
  {
    if s != [] {
      assert s == [s[0]] + s[1..];
      SortBySorts(s[1..], key);
      InsertPermutes(s[0], SortBy(s[1..], key), key);
      InsertSorted(s[0], SortBy(s[1..], key), key);
    }
  }

  lemma {:induction false} FilterSorted<T>(s: seq<T>, key: T -> real, g: T -> bool)
    requires SortedBy(s, key)
    ensures SortedBy(Filter(s, g), key)
  {
    if s != [] {
      assert SortedBy(s[1..], key);
      FilterSorted(s[1..], key, g);
      FilterBasics(s[1..], g);
    }
  }

  lemma FilterCons<T>(x: T, s: seq<T>, g: T -> bool)
    ensures Filter([x] + s, g) == (if g(x) then [x] else []) + Filter(s, g)
  {
    assert ([x] + s)[1..] == s;
  }

  lemma InsertFront<T>(x: T, s: seq<T>, key: T -> real)
    requires s == [] || key(x) <= key(s[0])
    ensures Insert(x, s, key) == [x] + s
  {
  }

  lemma InsertPast<T>(x: T, y: T, s: seq<T>, key: T -> real)
    requires key(y) < key(x)
    ensures Insert(x, [y] + s, key) == [y] + Insert(x, s, key)
  {
    assert ([y] + s)[1..] == s;
  }

  /** Filtering an insertion: `x` lands in the same place relative to the kept elements. */
  lemma {:induction false} FilterInsert<T>(x: T, t: seq<T>, key: T -> real, g: T -> bool)
    requires SortedBy(t, key)
    ensures g(x) ==> Filter(Insert(x, t, key), g) == Insert(x, Filter(t, g), key)
    ensures !g(x) ==> Filter(Insert(x, t, key), g) == Filter(t, g)
    decreases |t|
  {
    if t == [] || key(x) <= key(t[0]) {
      FilterInsertInFront(x, t, key, g);
    } else {
      assert SortedBy(t[1..], key);
      FilterInsert(x, t[1..], key, g);
      FilterInsertFurther(x, t, key, g);
    }
  }

  lemma FilterInsertInFront<T>(x: T, t: seq<T>, key: T -> real, g: T -> bool)
    requires SortedBy(t, key) && (t == [] || key(x) <= key(t[0]))
    ensures g(x) ==> Filter(Insert(x, t, key), g) == Insert(x, Filter(t, g), key)
    ensures !g(x) ==> Filter(Insert(x, t, key), g) == Filter(t, g)
  {
    var ft := Filter(t, g);
    FilterBasics(t, g);
    InsertFront(x, t, key);
    FilterCons(x, t, g);
    if g(x) {
      if ft != [] {
        assert ft[0] in t;
        var j :| 0 <= j < |t| && t[j] == ft[0];
        assert key(t[0]) <= key(t[j]);
      }
      InsertFront(x, ft, key);
    }
  }

  lemma FilterInsertFurther<T>(x: T, t: seq<T>, key: T -> real, g: T -> bool)
    requires t != [] && key(t[0]) < key(x)
    requires g(x) ==> Filter(Insert(x, t[1..], key), g) == Insert(x, Filter(t[1..], g), key)
    requires !g(x) ==> Filter(Insert(x, t[1..], key), g) == Filter(t[1..], g)
    ensures g(x) ==> Filter(Insert(x, t, key), g) == Insert(x, Filter(t, g), key)
    ensures !g(x) ==> Filter(Insert(x, t, key), g) == Filter(t, g)
  {
    var t0, t1 := t[0], t[1..];
    var ins1 := Insert(x, t1, key);
    var f1, fi := Filter(t1, g), Filter(ins1, g);
    assert t == [t0] + t1;
    InsertPast(x, t0, t1, key);
    assert Insert(x, t, key) == [t0] + ins1;
    FilterCons(t0, ins1, g);
    FilterCons(t0, t1, g);
    if g(t0) {
      assert Filter(Insert(x, t, key), g) == [t0] + fi;
      assert Filter(t, g) == [t0] + f1;
      if g(x) {
        InsertPast(x, t0, f1, key);
      }
    } else {
      assert Filter(Insert(x, t, key), g) == [] + fi == fi;
      assert Filter(t, g) == [] + f1 == f1;
    }
  }

  /** Sorting and filtering commute. */
  lemma {:induction false} SortByFilter<T>(s: seq<T>, key: T -> real, g: T -> bool)
    ensures Filter(SortBy(s, key), g) == SortBy(Filter(s, g), key)
  {
    if s != [] {
      var x, rest := s[0], s[1..];
      var sr, fr := SortBy(rest, key), Filter(rest, g);
      assert SortBy(s, key) == Insert(x, sr, key);
      SortByFilter(rest, key, g);
      SortBySorts(rest, key);
      FilterInsert(x, sr, key, g);
      assert s == [x] + rest;
      FilterCons(x, rest, g);
      if g(x) {
        assert Filter(s, g) == [x] + fr;
        assert ([x] + fr)[1..] == fr;
        assert SortBy([x] + fr, key) == Insert(x, SortBy(fr, key), key);
      } else {
        assert Filter(s, g) == [] + fr == fr;
      }
    }
  }

  /** Sorting a sequence whose keys are all equal changes nothing. */
  lemma {:induction false} SortByTies<T>(s: seq<T>, key: T -> real, v: real)
    requires forall k :: 0 <= k < |s| ==> key(s[k]) == v
    ensures SortBy(s, key) == s
  {
    if s != [] {
      assert forall k :: 0 <= k < |s[1..]| ==> s[1..][k] == s[k + 1];
      SortByTies(s[1..], key, v);
    }
  }

  /**
   * Stability: the elements picked out by `tie`, which all share the key `v`, come out in
   * their original order.
   */
  lemma SortByStable<T>(s: seq<T>, key: T -> real, tie: T -> bool, v: real)
    requires forall x :: tie(x) ==> key(x) == v
    ensures Filter(SortBy(s, key), tie) == Filter(s, tie)
  {
    SortByFilter(s, key, tie);
    FilterBasics(s, tie);
    SortByTies(Filter(s, tie), key, v);
  }
}
