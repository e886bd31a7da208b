/**
 * The platform's persistent list (score.ArrayDB), reduced to the operations the
 * contracts use. Its contents are a sequence that each mutator reassigns.
 */
module Storage {

  /** An account or contract address (score.Address). */
  type Address = string

  class ArrayDB<T> {
    var elems: seq<T>

    constructor ()
      ensures elems == []
    {
      elems := [];
    }

    /** `add(x)`: append at the end. */
    method Add(x: T)
      modifies this
      ensures elems == old(elems) + [x]
    {
      elems := elems + [x];
    }

    /** `set(i, x)`: overwrite slot i. */
    method Set(i: nat, x: T)
      requires i < |elems|
      modifies this
      ensures elems == old(elems)[i := x]
    {
      elems := elems[i := x];
    }

    /** `removeLast()` / `pop()`: drop the last element and return it. */
    method RemoveLast() returns (x: T)
      requires |elems| > 0
      modifies this
      ensures x == old(elems)[|old(elems)| - 1]
      ensures elems == old(elems)[..|old(elems)| - 1]
    {
      x := elems[|elems| - 1];
      elems := elems[..|elems| - 1];
    }
  }
}
