/** The bit-flip noise applied to a chosen action before payoffs are looked up. */
module NoiseModel {
  import opened Protocol
  import opened Streams

  /** `flip`: "C" becomes "D"; every other string becomes "C". */
  function Flip(a: Action): (r: Action)
    ensures IsMove(r)
    ensures IsMove(a) ==> r != a
  {
    if a == C then D else C
  }

  /** On valid actions `flip` swaps C and D and undoes itself. */
  lemma FlipInvolution(a: Action)
    requires IsMove(a)
    ensures IsMove(Flip(a)) && Flip(a) != a && Flip(Flip(a)) == a
  {
  }

  /** The noise model: flip the action with probability `epsilon`. */
  datatype Noise = Noise(epsilon: real) {

    /**
     * What `apply` does to an action when the generator's cursor is at `cursor`:
     * the action it returns and where the cursor ends.
     */
    function ApplyOf(action: Action, stream: Stream, cursor: nat): (r: (Action, nat))
      ensures epsilon <= 0.0 ==> r == (action, cursor)
      ensures epsilon > 0.0 ==> r.1 == cursor + 1
      ensures epsilon > 0.0 ==> r.0 == (if stream(cursor) <= epsilon then Flip(action) else action)
      ensures IsMove(action) ==> IsMove(r.0)
      ensures epsilon > 0.0 && IsMove(action) ==> (r.0 != action <==> stream(cursor) <= epsilon)
      ensures epsilon >= 1.0 ==> r.0 == Flip(action)
    {
      if epsilon <= 0.0 then (action, cursor)
      else if stream(cursor) <= epsilon then (Flip(action), cursor + 1)
      else (action, cursor + 1)
    }

    /** `apply`: with positive epsilon it consumes one draw and flips on `draw <= epsilon`. */
    method Apply(action: Action, rng: Rng) returns (r: Action)
      modifies rng
      ensures (r, rng.cursor) == ApplyOf(action, rng.stream, old(rng.cursor))
    {
      if epsilon <= 0.0 {
        return action;
      }
      var draw := rng.Random();
      if draw <= epsilon {
        return Flip(action);
      }
      return action;
    }
  }
}
