// The pseudo-random source the simulator hands to every module (Go's *rand.Rand).
// A seeded generator is seen as the stream of raw outputs its seed determines and a
// cursor saying how many of them have been consumed.

module MathRand {

  /** The value `r.Intn(n)` yields when the stream holds `source` and the cursor is at `pos`. */
  function IntnAt(source: nat -> nat, pos: nat, n: int): (v: int)
    requires n > 0
    ensures 0 <= v < n
  {
    source(pos) % n
  }

  class Rand {
    const source: nat -> nat  // raw outputs of the seeded generator, in order
    var cursor: nat           // number of outputs consumed so far

    constructor (source: nat -> nat)
      ensures this.source == source && cursor == 0
    {
      this.source := source;
      cursor := 0;
    }

    /** `Intn(n)`: a value in [0, n) taken from the next position of the stream. */
    method Intn(n: int) returns (v: int)
      requires n > 0
      modifies this
      ensures v == IntnAt(source, old(cursor), n)
      ensures cursor == old(cursor) + 1
    {
      v := IntnAt(source, cursor, n);
      cursor := cursor + 1;
    }
  }
}
