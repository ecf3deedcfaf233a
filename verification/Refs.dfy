/** References to towers of the skip list. */
module Refs {
  type Ref = int

  const NIL: Ref := -1
  const HEADER: Ref := 0

  function Position(chain: seq<Ref>, x: Ref): (i: nat)
    requires x in chain
    ensures i < |chain| && chain[i] == x
  {
    if chain[0] == x then 0 else 1 + Position(chain[1..], x)
  }
}

/** Towers have up to 16 levels, each with a pointer whose lowest bit marks it. */
module TaggedPointers {
  import opened Refs

  const NUM_LEVELS: nat := 16

  datatype Link = Link(to: Ref, marked: bool)
}
