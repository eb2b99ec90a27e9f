/** The optional-value datatype shared by the field models. */
module Wrappers {

  /** An absent value (`None`) or a present one (`Some`). */
  datatype Option<+T> = None | Some(value: T)

  /** The sequence holding the value of `o`, or the empty sequence. */
  function ToSeq<T>(o: Option<T>): (r: seq<T>)
    ensures |r| <= 1
    ensures o.None? <==> r == []
    ensures o.Some? ==> r == [o.value]
  {
    match o
    case None => []
    case Some(v) => [v]
  }
}
