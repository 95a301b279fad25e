/**
 * The strategy protocol's vocabulary: actions, and the `Memory` helper that
 * strategies with longer memory can keep.
 */
module Protocol {
  import opened Wrappers

  /** An action is a bare string, as in the source; only "C" and "D" are valid. */
  type Action = string

  const C: Action := "C"
  const D: Action := "D"

  predicate IsMove(a: Action)
  {
    a == C || a == D
  }

  /** A valid action. */
  type Move = a: Action | IsMove(a) witness C

  /** `None` or a valid action: what a round of play ever hands to a strategy. */
  predicate IsMoveOrNone(a: Option<Action>)
  {
    a.None? || IsMove(a.value)
  }

  /** A growing history of (own action, opponent action) pairs. */
  class Memory {
    var history: seq<(Action, Action)>

    constructor (history: seq<(Action, Action)>)
      ensures this.history == history
    {
      this.history := history;
    }

    /** `append`: one more pair at the end; earlier entries are untouched. */
    method Append(mine: Action, opp: Action)
      modifies this
      ensures history == old(history) + [(mine, opp)]
      ensures |history| == |old(history)| + 1 && history[..|old(history)|] == old(history)
      ensures Last() == Some((mine, opp))
    {
      history := history + [(mine, opp)];
    }

    /** `last`: the most recent pair, or `None` for an empty history. */
    function Last(): (r: Option<(Action, Action)>)
      reads this
      ensures r.None? <==> history == []
      ensures r.Some? ==> r.value == history[|history| - 1]
    {
      if history == [] then None else Some(history[|history| - 1])
    }
  }
}
