/** The one optional-value type every module of the model shares. */
module Wrappers {
  datatype Option<+T> = None | Some(value: T) {
    function GetOr(default: T): T {
      match this
      case Some(v) => v
      case None => default
    }
  }

  function Max(a: int, b: int): int {
    if a < b then b else a
  }

  function Min(a: int, b: int): int {
    if a < b then a else b
  }

  lemma Associates<T>(a: seq<T>, b: seq<T>, c: seq<T>)
    ensures (a + b) + c == a + (b + c)
  {
  }

  /** A sequence grown one by one, and its prefixes. */
  lemma Grown<T>(x: T, y: T, z: T)
    ensures [x] + [y] == [x, y] && [x, y] + [z] == [x, y, z] && [x, y, z][..1] == [x] && [x, y, z][..2] == [x, y]
  {
  }

  /** Some member of a set that has one. */
  lemma AnyOf<T>(s: set<T>) returns (x: T)
    requires s != {}
    ensures x in s
  {
    x :| x in s;
  }
}
