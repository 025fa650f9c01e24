/** Optional values, standing for the source's optional fields and `undefined` lookups. */
module Wrappers {

  datatype Option<+T> = None | Some(value: T) {

    /** The value, or `default` when absent (the source's `x || default`). */
    function GetOr(default: T): T {
      match this
      case Some(v) => v
      case None => default
    }
  }

  /** An optional value as a sequence of zero or one elements. */
  function AsSeq<T>(o: Option<T>): (r: seq<T>)
    ensures |r| <= 1
    ensures r == [] <==> o.None?
    ensures o.Some? ==> r == [o.value]
  {
    match o
    case Some(v) => [v]
    case None => []
  }
}
