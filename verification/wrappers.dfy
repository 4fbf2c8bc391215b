/** The optional-value datatype used for Python's `None`-or-value returns. */
module Wrappers {

  datatype Option<+T> = None | Some(value: T)

  /** The elements of an optional value, as a sequence of length zero or one. */
  function ToSeq<T>(o: Option<T>): (r: seq<T>)
    ensures o.None? ==> r == []
    ensures o.Some? ==> r == [o.value]
  {
    match o
    case None => []
    case Some(v) => [v]
  }

  /** Python truthiness of an optional string: `None` and `""` are both false. */
  predicate IsTruthy(o: Option<string>) {
    o.Some? && o.value != ""
  }
}
