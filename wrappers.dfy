/**
 * Optional values, the model's stand-in for Java's nullable references, and
 * the first-match search that the repositories' `findBy…` lookups perform.
 */
module Wrappers {

  datatype Option<+T> = None | Some(value: T) {

    /** The value, or `default` when absent (Java's `Optional.orElse`). */
    function GetOr(default: T): T {
      match this
      case Some(v) => v
      case None => default
    }
  }

  /** The position of the first element of `s` satisfying `p`, or `None` when there is none. */
  function FirstIndex<T>(s: seq<T>, p: T -> bool): (r: Option<nat>)
    ensures r.Some? ==> r.value < |s| && p(s[r.value])
    ensures r.Some? ==> forall j :: 0 <= j < r.value ==> !p(s[j])
    ensures r.None? <==> forall j :: 0 <= j < |s| ==> !p(s[j])
  {
    if s == [] then None
    else if p(s[0]) then Some(0)
    else
      var rest := FirstIndex(s[1..], p);
      if rest.None? then None else Some(rest.value + 1)
  }
}
