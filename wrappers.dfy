/** The optional value used wherever the source has `T | null` (or an absent key). */
module Wrappers {

  datatype Option<+T> = None | Some(value: T)

  /** `Array.prototype.map` lifted to an optional value: `x != null ? f(x) : null`. */
  function MapOption<T, U>(o: Option<T>, f: T -> U): (r: Option<U>)
    ensures r.Some? <==> o.Some?
    ensures r.Some? ==> r.value == f(o.value)
  {
    match o
    case None => None
    case Some(v) => Some(f(v))
  }
}
