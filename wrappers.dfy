/** Optional values and results with an error, shared by every module of the model. */
module Wrappers {

  /** A value that may be absent; Python's `None` is `None` here. */
  datatype Option<+T> = None | Some(value: T)

  /** The outcome of an operation that may raise. */
  datatype Result<+T, +E> = Ok(value: T) | Err(error: E)

  /** `ns` in front of the list a successful result holds; an error stays as it is. */
  function InFront<T, E>(ns: seq<T>, r: Result<seq<T>, E>): Result<seq<T>, E> {
    if r.Ok? then Ok(ns + r.value) else r
  }

  lemma InFrontNothing<T, E>(r: Result<seq<T>, E>)
    ensures InFront([], r) == r
  {
    if r.Ok? {
      assert [] + r.value == r.value;
    }
  }

  lemma InFrontTwice<T, E>(ns: seq<T>, ms: seq<T>, r: Result<seq<T>, E>)
    ensures InFront(ns, InFront(ms, r)) == InFront(ns + ms, r)
  {
    if r.Ok? {
      assert ns + (ms + r.value) == (ns + ms) + r.value;
    }
  }
}
