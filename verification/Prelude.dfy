/** Small value types and arithmetic shared by every model in this project. */
module Prelude {

  /** A value that may be absent: `undefined`, `null` or a missing map entry. */
  datatype Option<+T> = None | Some(value: T) {
    function GetOr(default: T): T {
      match this
      case Some(v) => v
      case None => default
    }
  }

  function Max(a: int, b: int): int {
    if a < b then b else a
  }

  function Min(a: int, b: int): int {
    if a < b then a else b
  }

  function Last<T>(s: seq<T>): T
    requires s != []
  {
    s[|s| - 1]
  }

  function Init<T>(s: seq<T>): seq<T>
    requires s != []
  {
    s[..|s| - 1]
  }

  lemma {:induction false} ProductGrows(a: int, b: int, c: nat)
    requires a <= b
    ensures a * c <= b * c
  {
  }
}
