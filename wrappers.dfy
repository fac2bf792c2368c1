/** The usual optional-value datatype. */
module Wrappers {

  datatype Option<+T> = None | Some(value: T)

  /** The elements an optional value contributes to a log: none or one. */
  function ToSeq<T>(o: Option<T>): (s: seq<T>)
    ensures |s| <= 1
    ensures o.Some? <==> |s| == 1
    ensures o.Some? ==> s[0] == o.value
  {
    match o
    case None => []
    case Some(v) => [v]
  }

  /** `n` copies of `x`, in a row. */
  function Repeat<T>(x: T, n: nat): (s: seq<T>)
    ensures |s| == n
    ensures forall i :: 0 <= i < n ==> s[i] == x
  {
    if n == 0 then [] else [x] + Repeat(x, n - 1)
  }
}
