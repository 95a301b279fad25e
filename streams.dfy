/**
 * The random streams of the simulator. A `random.Random` generator is modelled
 * as an infinite sequence of draws in [0, 1) together with a cursor: `random()`
 * returns the draw under the cursor and advances it. Which sequence a seed
 * names is left abstract (a `Randomness` value supplied by the caller), so the
 * Mersenne Twister itself is not modelled.
 */
module Streams {
  import opened Wrappers

  /** What `random.random()` can return: a real in [0, 1). */
  type Unit = r: real | 0.0 <= r < 1.0

  /** The draws a generator yields, indexed from its (re)seeding. */
  type Stream = nat -> Unit

  /**
   * The sequences that `random.Random(seed)` yields: `named(s)` for an explicit
   * seed s, and `entropy(i)` for the i-th generator seeded from system entropy.
   */
  datatype Randomness = Randomness(named: int -> Stream, entropy: nat -> Stream)

  /** `random.Random(seed)`: the sequence the generator seeded with `seed` will produce. */
  function SeededStream(src: Randomness, seed: int): Stream
  {
    src.named(seed)
  }

  /**
   * `random.Random(seed)` for an optional seed: the sequence the seed names, or,
   * without a seed, the `slot`-th sequence drawn from system entropy.
   */
  function GeneratorStream(src: Randomness, seed: Option<int>, slot: nat): Stream
  {
    if seed.Some? then SeededStream(src, seed.value) else src.entropy(slot)
  }

  /**
   * Two generators built with the same seed yield the same sequence, wherever
   * they are built; only unseeded generators depend on which entropy draw they get.
   */
  lemma SameSeedSameSequence(src: Randomness, seed: Option<int>, slot1: nat, slot2: nat)
    ensures seed.Some? ==> GeneratorStream(src, seed, slot1) == GeneratorStream(src, seed, slot2)
    ensures seed.None? ==> GeneratorStream(src, seed, slot1) == src.entropy(slot1)
  {
  }

  /** A `random.Random` instance: a fixed sequence and a cursor into it. */
  class Rng {
    const stream: Stream
    var cursor: nat

    /** A generator that has not drawn yet. */
    constructor (stream: Stream)
      ensures this.stream == stream && cursor == 0
    {
      this.stream := stream;
      cursor := 0;
    }

    /** `random()`: the next draw; the cursor moves by exactly one. */
    method Random() returns (x: Unit)
      modifies this
      ensures x == stream(old(cursor)) && cursor == old(cursor) + 1
    {
      x := stream(cursor);
      cursor := cursor + 1;
    }

    /**
     * `seed(s)` with the seed this generator was built from: back to the start
     * of that seed's sequence.
     */
    method Reseed()
      modifies this
      ensures cursor == 0
    {
      cursor := 0;
    }
  }
}
