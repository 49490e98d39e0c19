/** Optional values and the outcome of calls that may raise. */
module Wrappers {

  /** A value that may be absent (Python's `None`). */
  datatype Option<+T> = None | Some(value: T) {
    function GetOr(default: T): T {
      match this
      case Some(v) => v
      case None => default
    }
  }

  /** The outcome of a call that either returns a value or raises an
      exception carrying a message. */
  datatype Result<+T> = Ok(value: T) | Raised(message: string)

  /** A reply of the language model: the text it produced, or a failed call. */
  datatype Reply = Answered(text: string) | Unavailable

  /** `next(i for i, x in enumerate(xs) if p(x))`: the position of the first
      element that satisfies `p`, if any. */
  function FirstWhere<T>(xs: seq<T>, p: T -> bool): (r: Option<nat>)
    ensures r.Some? ==> r.value < |xs| && p(xs[r.value])
    ensures r.Some? ==> forall i :: 0 <= i < r.value ==> !p(xs[i])
    ensures r.None? ==> forall i :: 0 <= i < |xs| ==> !p(xs[i])
  {
    if xs == [] then None
    else if p(xs[0]) then Some(0)
    else
      var rest := xs[1..];
      assert forall i :: 1 <= i < |xs| ==> xs[i] == rest[i - 1];
      match FirstWhere(rest, p)
      case Some(j) => Some(j + 1)
      case None => None
  }
}
