/**
 * The part of `java.util.Random` the generator uses: `nextInt(bound)`.
 * The model makes no claim about the distribution; the answers come from an
 * oracle `draw`, where the k-th call `nextInt(bound)` (counting from 0)
 * answers `draw(k, bound)`.
 */
module RandomSource {

  /** What `nextInt` promises: an answer in [0, bound) for every positive bound. */
  ghost predicate Oracle(draw: (nat, nat) -> nat)
  {
    forall k: nat, bound: nat :: 0 < bound ==> draw(k, bound) < bound
  }

  class Random {
    /** The sequence of answers this generator will give. */
    const draw: (nat, nat) -> nat
    /** How many times `nextInt` has been called so far. */
    var calls: nat

    constructor (draw: (nat, nat) -> nat)
      ensures this.draw == draw && calls == 0
    {
      this.draw := draw;
      calls := 0;
    }

    /** `nextInt(bound)` for a positive bound. */
    method NextInt(bound: nat) returns (r: nat)
      requires Oracle(draw) && 0 < bound
      modifies this`calls
      ensures r < bound
      ensures r == draw(old(calls), bound) && calls == old(calls) + 1
    {
      r := draw(calls, bound);
      calls := calls + 1;
    }
  }
}
