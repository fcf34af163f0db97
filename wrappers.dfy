/** Optional values and results shared by every module of the model. */
module Wrappers {

  /** A value that may be absent; stands for Go's nil pointers and for the
      `(T, error)` pairs whose error half carries no information we model. */
  datatype Option<+T> = None | Some(value: T)

  /** The outcome of an operation that can fail with an error of type E. */
  datatype Result<+T, +E> = Success(value: T) | Failure(error: E)
}

/** Element-wise parsing of a decoded list of strings, as done by the
    duration and IP slice values. */
module Sequences {
  import opened Wrappers

  /** Parses every string of `strs` with `parse`; fails as soon as one element
      fails. Defined from the end, in the order the source's loops fill their
      result. */
  function ParseEach<T>(strs: seq<string>, parse: string -> Option<T>): (r: Option<seq<T>>)
    ensures r.Some? <==> forall i :: 0 <= i < |strs| ==> parse(strs[i]).Some?
    ensures r.Some? ==> |r.value| == |strs|
    ensures r.Some? ==> forall i :: 0 <= i < |strs| ==> parse(strs[i]) == Some(r.value[i])
  {
    if strs == [] then Some([])
    else
      match ParseEach(strs[..|strs| - 1], parse)
      case None => None
      case Some(init) =>
        match parse(strs[|strs| - 1])
        case None => None
        case Some(last) => Some(init + [last])
  }
}
