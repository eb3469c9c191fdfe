/** java.util.Random, seen only through `nextInt(bound)`. Its stream of draws is an oracle
    `source`: the k-th call answers `source(k) % bound`, so every sequence of in-range answers
    that the real generator can give is covered. */
module JavaRandom {

  class Random {
    const source: nat -> nat
    var drawn: nat

    constructor (source: nat -> nat)
      ensures this.source == source && drawn == 0
    {
      this.source := source;
      drawn := 0;
    }

    /** `nextInt(bound)`: Java throws IllegalArgumentException for a bound that is not positive,
        so callers establish `bound > 0` (or model the throw themselves). */
    method NextInt(bound: int) returns (r: int)
      requires bound > 0
      modifies this
      ensures 0 <= r < bound
      ensures r == source(old(drawn)) % bound
      ensures drawn == old(drawn) + 1
    {
      r := source(drawn) % bound;
      drawn := drawn + 1;
    }
  }
}
