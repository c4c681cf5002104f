/** Option and Result, used for lookups that may miss and for calls that may throw. */
module Wrappers {

  datatype Option<+T> = None | Some(value: T) {
    function GetOr(default: T): T {
      match this
      case Some(v) => v
      case None => default
    }
  }

  datatype Result<+R, +E> = Success(value: R) | Failure(error: E)

  /**
   * `xs.map(f)` (or a `forEach` that collects) where `f` may throw (`None`):
   * the whole call throws as soon as one element does, and otherwise gives
   * `f`'s result for every element, in order.
   */
  function MapAll<T, U>(xs: seq<T>, f: T -> Option<U>): (r: Option<seq<U>>)
    ensures r.Some? <==> forall i :: 0 <= i < |xs| ==> f(xs[i]).Some?
    ensures r.Some? ==> |r.value| == |xs| && forall i :: 0 <= i < |xs| ==> Some(r.value[i]) == f(xs[i])
  {
    if xs == [] then Some([])
    else
      match f(xs[0])
      case None => None
      case Some(y) =>
        var tail := xs[1..];
        assert forall i :: 1 <= i < |xs| ==> xs[i] == tail[i - 1];
        match MapAll(tail, f)
        case None =>
          assert exists i :: 0 <= i < |tail| && f(tail[i]).None?;
          None
        case Some(rest) =>
          var r := [y] + rest;
          assert forall i :: 1 <= i < |xs| ==> r[i] == rest[i - 1];
          Some(r)
  }
}
