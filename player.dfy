/** A player: a strategy object, an optional display name, and its own random stream. */
module Players {
  import opened Wrappers
  import opened Protocol
  import opened Streams
  import opened Strategies

  /** The mutable part of a player: its strategy's fields and its generator's cursor. */
  datatype Agent = Agent(state: StrategyState, cursor: nat)

  /** `reset` on the player's state: the strategy resets, and a seeded generator rewinds. */
  function ResetAgent(k: Kind, seeded: bool, ag: Agent): (r: Agent)
    ensures r.state == ResetOf(k, ag.state)
    ensures seeded ==> r.cursor == 0
    ensures !seeded ==> r.cursor == ag.cursor
  {
    Agent(ResetOf(k, ag.state), if seeded then 0 else ag.cursor)
  }

  /** `first_move()` on the player's state, drawing from the player's own stream. */
  function FirstMoveAgent(k: Kind, stream: Stream, ag: Agent): (r: (Action, Agent))
    ensures IsMove(r.0)
    ensures WellFormed(k, ag.state) ==> WellFormed(k, r.1.state)
    ensures r.1.cursor == ag.cursor || r.1.cursor == ag.cursor + 1
  {
    var d := FirstMoveOf(k, ag.state, stream, ag.cursor);
    (d.action, Agent(d.state, d.cursor))
  }

  /** `next_move(my_last, opp_last)` on the player's state. */
  function NextMoveAgent(k: Kind, stream: Stream, ag: Agent, myLast: Option<Action>, oppLast: Option<Action>): (r: (Action, Agent))
    ensures IsMoveOrNone(myLast) && IsMoveOrNone(oppLast) ==> IsMove(r.0)
    ensures WellFormed(k, ag.state) ==> WellFormed(k, r.1.state)
    ensures r.1.cursor == ag.cursor || r.1.cursor == ag.cursor + 1
  {
    var d := NextMoveOf(k, ag.state, myLast, oppLast, stream, ag.cursor);
    (d.action, Agent(d.state, d.cursor))
  }

  /** `display_name`: the explicit name when it is given and non-empty, else the strategy's name. */
  function DisplayNameOf(name: Option<string>, strategyName: string): (r: string)
    ensures name.Some? && name.value != "" ==> r == name.value
    ensures name.None? || name.value == "" ==> r == strategyName
  {
    if name.Some? && name.value != "" then name.value else strategyName
  }

  class Player {
    const strategy: Strategy
    const name: Option<string>
    const seed: Option<int>
    /** The player's own generator, `random.Random(seed)`. */
    const rng: Rng

    /**
     * `Player(strategy, name, seed)`: the generator is `random.Random(seed)`, the
     * sequence `src` names for the seed, or the `slot`-th entropy sequence without one.
     */
    constructor (strategy: Strategy, name: Option<string>, seed: Option<int>, src: Randomness, slot: nat)
      ensures this.strategy == strategy && this.name == name && this.seed == seed
      ensures fresh(rng) && rng.stream == GeneratorStream(src, seed, slot) && rng.cursor == 0
    {
      this.strategy := strategy;
      this.name := name;
      this.seed := seed;
      rng := new Rng(GeneratorStream(src, seed, slot));
    }

    /** `display_name`. */
    function DisplayName(): (r: string)
      ensures name.Some? && name.value != "" ==> r == name.value
      ensures name.None? || name.value == "" ==> r == strategy.name
    {
      DisplayNameOf(name, strategy.name)
    }

    function AgentNow(): Agent
      reads strategy, rng
    {
      Agent(strategy.State(), rng.cursor)
    }

    /** `reset`: always resets the strategy; re-seeds the generator only when a seed was given. */
    method Reset()
      modifies strategy, rng
      ensures AgentNow() == ResetAgent(strategy.kind, seed.Some?, old(AgentNow()))
    {
      strategy.Reset();
      if seed.Some? {
        rng.Reseed();
      }
    }

    /** `first_move()`: the strategy's first move on the player's own generator. */
    method FirstMove() returns (a: Action)
      modifies strategy, rng
      ensures (a, AgentNow()) == FirstMoveAgent(strategy.kind, rng.stream, old(AgentNow()))
    {
      a := strategy.FirstMove(rng);
    }

    /** `next_move(my_last, opp_last)`: both arguments passed on in the same order. */
    method NextMove(myLast: Action, oppLast: Action) returns (a: Action)
      modifies strategy, rng
      ensures (a, AgentNow()) == NextMoveAgent(strategy.kind, rng.stream, old(AgentNow()), Some(myLast), Some(oppLast))
    {
      a := strategy.NextMove(Some(myLast), Some(oppLast), rng);
    }
  }

  /** A seeded player that is reset is back where it was built: initial fields, cursor 0. */
  lemma SeededResetRestarts(k: Kind, ag: Agent)
    requires WellFormed(k, ag.state)
    ensures ResetAgent(k, true, ag) == Agent(Initial, 0)
  {
  }
}
