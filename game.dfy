/**
 * One iterated match: the payoff table, the match log, the outcome derived
 * from it, and the round loop of `IteratedMatch.play`.
 */
module Game {
  import opened Wrappers
  import opened Protocol
  import opened Streams
  import opened Sums
  import opened NoiseModel
  import opened Strategies
  import opened Players

  // ---- Payoffs ----

  datatype PayoffMatrix = PayoffMatrix(temptation: real, reward: real, punishment: real, sucker: real) {

    /** `payoff(a, b)`: the pair of payoffs, or a `ValueError` unless both actions are "C" or "D". */
    function Payoff(a: Action, b: Action): (r: Result<(real, real)>)
      ensures r.Err? <==> !(IsMove(a) && IsMove(b))
      ensures r.Err? ==> r.error == ValueError("Actions must be 'C' or 'D'")
      ensures a == C && b == C ==> r == Ok((reward, reward))
      ensures a == C && b == D ==> r == Ok((sucker, temptation))
      ensures a == D && b == C ==> r == Ok((temptation, sucker))
      ensures a == D && b == D ==> r == Ok((punishment, punishment))
    {
      if !IsMove(a) || !IsMove(b) then Err(ValueError("Actions must be 'C' or 'D'"))
      else if a == C && b == C then Ok((reward, reward))
      else if a == C && b == D then Ok((sucker, temptation))
      else if a == D && b == C then Ok((temptation, sucker))
      else Ok((punishment, punishment))
    }

    /** The smallest and largest entry of the table. */
    function Lowest(): real
    {
      var m1 := if temptation <= reward then temptation else reward;
      var m2 := if punishment <= sucker then punishment else sucker;
      if m1 <= m2 then m1 else m2
    }

    function Highest(): real
    {
      var m1 := if temptation >= reward then temptation else reward;
      var m2 := if punishment >= sucker then punishment else sucker;
      if m1 >= m2 then m1 else m2
    }
  }

  /** `PayoffMatrix()`: T = 5, R = 3, P = 1, S = 0. */
  const DefaultPayoffs := PayoffMatrix(5.0, 3.0, 1.0, 0.0)

  /** Swapping the two actions swaps the two payoffs. */
  lemma PayoffSwap(pm: PayoffMatrix, a: Action, b: Action)
    ensures pm.Payoff(a, b).Ok? <==> pm.Payoff(b, a).Ok?
    ensures pm.Payoff(a, b).Ok? ==> pm.Payoff(b, a).value == (pm.Payoff(a, b).value.1, pm.Payoff(a, b).value.0)
  {
  }

  /** Each payoff the table hands out is one of its four entries, hence between its extremes. */
  lemma PayoffWithinTable(pm: PayoffMatrix, a: Action, b: Action)
    requires pm.Payoff(a, b).Ok?
    ensures pm.Lowest() <= pm.Payoff(a, b).value.0 <= pm.Highest()
    ensures pm.Lowest() <= pm.Payoff(a, b).value.1 <= pm.Highest()
  {
  }

  // ---- The match log ----

  /** The contents of a `MatchLog`: four parallel lists, one entry per round. */
  datatype Log = Log(actionsA: seq<Action>, actionsB: seq<Action>, payoffA: seq<real>, payoffB: seq<real>) {

    /** The four lists have one entry per round. */
    predicate Aligned()
    {
      |actionsB| == |actionsA| && |payoffA| == |actionsA| && |payoffB| == |actionsA|
    }

    function Rounds(): nat
    {
      |actionsA|
    }

    function Append(a: Action, b: Action, pa: real, pb: real): (r: Log)
      ensures Aligned() ==> r.Aligned() && r.Rounds() == Rounds() + 1
    {
      Log(actionsA + [a], actionsB + [b], payoffA + [pa], payoffB + [pb])
    }
  }

  const EmptyLog := Log([], [], [], [])

  /**
   * `cooperation_rate_a/b`: the number of "C" among `actions` divided by the
   * log's round count (the length of A's list), 0 when no round was played.
   */
  function CooperationRate(actions: seq<Action>, rounds: nat): (r: real)
    ensures rounds == 0 ==> r == 0.0
    ensures rounds > 0 ==> r * rounds as real == Count(actions, C) as real
    ensures 0.0 <= r
    ensures |actions| <= rounds ==> r <= 1.0
  {
    CountBounded(actions, C);
    if rounds > 0 then Count(actions, C) as real / rounds as real else 0.0
  }

  /** The mutable `MatchLog` the round loop fills in. */
  class MatchLog {
    var actionsA: seq<Action>
    var actionsB: seq<Action>
    var payoffA: seq<real>
    var payoffB: seq<real>

    function Contents(): Log
      reads this
    {
      Log(actionsA, actionsB, payoffA, payoffB)
    }

    /** `MatchLog([], [], [], [])`. */
    constructor ()
      ensures Contents() == EmptyLog
    {
      actionsA, actionsB, payoffA, payoffB := [], [], [], [];
    }

    /** `append`: each list grows by exactly one entry at its end. */
    method Append(a: Action, b: Action, pa: real, pb: real)
      modifies this
      ensures Contents() == old(Contents()).Append(a, b, pa, pb)
    {
      actionsA := actionsA + [a];
      actionsB := actionsB + [b];
      payoffA := payoffA + [pa];
      payoffB := payoffB + [pb];
    }

    /** `rounds`: the length of the first action list. */
    function Rounds(): (n: nat)
      reads this
      ensures n == Contents().Rounds()
    {
      |actionsA|
    }

    /** `cooperation_rate_a`: the fraction of A's rounds in which A cooperated. */
    function CooperationRateA(): (r: real)
      reads this
      ensures 0.0 <= r <= 1.0
      ensures Rounds() == 0 ==> r == 0.0
      ensures Rounds() > 0 ==> r * Rounds() as real == Count(actionsA, C) as real
    {
      CooperationRate(actionsA, Rounds())
    }

    /**
     * `cooperation_rate_b`: B's number of "C" over the round count, which is the
     * length of A's list; it lies in [0, 1] once the lists are aligned.
     */
    function CooperationRateB(): (r: real)
      reads this
      ensures 0.0 <= r
      ensures Contents().Aligned() ==> r <= 1.0
      ensures Rounds() == 0 ==> r == 0.0
      ensures Rounds() > 0 ==> r * Rounds() as real == Count(actionsB, C) as real
    {
      CooperationRate(actionsB, Rounds())
    }

    /** `as_rows`: (index, a, b, pa, pb) per round, as far as all four lists reach. */
    function AsRows(): (rows: seq<(nat, Action, Action, real, real)>)
      reads this
      requires Contents().Aligned()
      ensures |rows| == Rounds()
      ensures forall i :: 0 <= i < |rows| ==> rows[i] == (i, actionsA[i], actionsB[i], payoffA[i], payoffB[i])
    {
      seq(|actionsA|, i requires 0 <= i < |actionsA| && Contents().Aligned() reads this => (i, actionsA[i], actionsB[i], payoffA[i], payoffB[i]))
    }
  }

  // ---- The outcome ----

  datatype MatchOutcome = MatchOutcome(
    totalPayoffA: real, totalPayoffB: real,
    meanPayoffA: real, meanPayoffB: real,
    cooperationRateA: real, cooperationRateB: real)

  /** `_build_outcome`: totals, means over `rounds or 1`, and the two cooperation rates. */
  function BuildOutcome(log: Log): (o: MatchOutcome)
    ensures o.totalPayoffA == Sum(log.payoffA) && o.totalPayoffB == Sum(log.payoffB)
    ensures log.Rounds() == 0 ==> o.meanPayoffA == o.totalPayoffA && o.meanPayoffB == o.totalPayoffB
    ensures 0.0 <= o.cooperationRateA <= 1.0 && 0.0 <= o.cooperationRateB
    ensures log.Aligned() ==> o.cooperationRateB <= 1.0
  {
    var totalA := Sum(log.payoffA);
    var totalB := Sum(log.payoffB);
    var rounds := if log.Rounds() == 0 then 1 else log.Rounds();
    MatchOutcome(totalA, totalB, totalA / rounds as real, totalB / rounds as real,
                 CooperationRate(log.actionsA, log.Rounds()), CooperationRate(log.actionsB, log.Rounds()))
  }

  // ---- Termination policy ----

  /** The constructor's checks, in the source's order. */
  function CheckTermination(nRounds: Option<int>, continuationProb: Option<real>): (r: Option<Error>)
    ensures r.None? <==>
              (continuationProb.Some? ==> 0.0 <= continuationProb.value < 1.0) &&
              (nRounds.Some? || continuationProb.Some?)
    ensures continuationProb.Some? && !(0.0 <= continuationProb.value < 1.0) ==>
              r == Some(ValueError("continuation_prob must be in [0, 1)"))
    ensures nRounds.None? && continuationProb.None? ==>
              r == Some(ValueError("either n_rounds or continuation_prob must be provided"))
  {
    if continuationProb.Some? && !(0.0 <= continuationProb.value < 1.0) then
      Some(ValueError("continuation_prob must be in [0, 1)"))
    else if nRounds.None? && continuationProb.None? then
      Some(ValueError("either n_rounds or continuation_prob must be provided"))
    else None
  }

  // ---- The round loop as a function ----

  /**
   * Everything a match fixes before it starts. `horizon` bounds a match that
   * has no `n_rounds`: after that many rounds it stops without a further draw.
   */
  datatype Setup = Setup(
    kindA: Kind, kindB: Kind, seededA: bool, seededB: bool,
    streamA: Stream, streamB: Stream, streamM: Stream,
    payoffs: PayoffMatrix, noise: Option<Noise>,
    nRounds: Option<int>, continuationProb: Option<real>, horizon: nat)

  /**
   * The state of `play` between rounds: both players' state, the match
   * generator's cursor, the previous effective actions and the log so far.
   */
  datatype MatchState = MatchState(a: Agent, b: Agent, cursor: nat,
                                   prevA: Option<Move>, prevB: Option<Move>, log: Log)

  /** `_continue(round_index)`: whether another round is played, and the match cursor after the check. */
  function Continue(s: Setup, k: nat, cursor: nat): (r: (bool, nat))
    ensures r.0 ==> k < Limit(s)
    ensures k == 0 ==> r == (s.nRounds.None? || s.nRounds.value > 0, cursor)
    ensures r.1 == cursor || (r.1 == cursor + 1 && k > 0 && s.continuationProb.Some?)
  {
    if s.nRounds.Some? && k >= s.nRounds.value then (false, cursor)
    else if k == 0 then (true, cursor)
    else if s.continuationProb.None? then (k < (if s.nRounds.Some? then s.nRounds.value else 0), cursor)
    else if s.nRounds.None? && k >= s.horizon then (false, cursor)
    else (s.streamM(cursor) < s.continuationProb.value, cursor + 1)
  }

  /** `_apply_noise`: no noise object means no draw. */
  function Perturb(noise: Option<Noise>, action: Action, stream: Stream, cursor: nat): (r: (Action, nat))
    ensures IsMove(action) ==> IsMove(r.0)
    ensures noise.None? ==> r == (action, cursor)
  {
    if noise.None? then (action, cursor) else noise.value.ApplyOf(action, stream, cursor)
  }

  /** How many rounds a match can last at most. */
  function Limit(s: Setup): nat
  {
    if s.nRounds.Some? then (if s.nRounds.value > 0 then s.nRounds.value as nat else 0)
    else s.horizon + 1
  }

  lemma ContinueWithinLimit(s: Setup, k: nat, cursor: nat)
    ensures Continue(s, k, cursor).0 ==> k < Limit(s)
  {
  }

  /**
   * One round: A decides, then B (each on its own stream; from round 1 on with
   * the previous effective actions, own first), then noise for A and for B on
   * the match stream, then the payoff lookup and the append.
   */
  function Round(s: Setup, st: MatchState, k: nat): (r: MatchState)
    ensures st.log.Aligned() ==> r.log.Aligned() && r.log.Rounds() == st.log.Rounds() + 1
  {
    var (aAction, a') :=
      if k == 0 then FirstMoveAgent(s.kindA, s.streamA, st.a)
      else NextMoveAgent(s.kindA, s.streamA, st.a, st.prevA, st.prevB);
    var (bAction, b') :=
      if k == 0 then FirstMoveAgent(s.kindB, s.streamB, st.b)
      else NextMoveAgent(s.kindB, s.streamB, st.b, st.prevB, st.prevA);
    var (aEff, m1) := Perturb(s.noise, aAction, s.streamM, st.cursor);
    var (bEff, m2) := Perturb(s.noise, bAction, s.streamM, m1);
    var pay := s.payoffs.Payoff(aEff, bEff).value;
    MatchState(a', b', m2, Some(aEff), Some(bEff), st.log.Append(aEff, bEff, pay.0, pay.1))
  }

  /** The loop `while self._continue(round_index)` from round `k` on. */
  function Run(s: Setup, st: MatchState, k: nat): (r: MatchState)
    ensures st.log.Aligned() && st.log.Rounds() == k <= Limit(s) ==>
              r.log.Aligned() && k <= r.log.Rounds() <= Limit(s)
    ensures st.cursor <= r.cursor
    decreases Limit(s) - k
  {
    var (go, m) := Continue(s, k, st.cursor);
    if !go then st.(cursor := m)
    else
      ContinueWithinLimit(s, k, st.cursor);
      Run(s, Round(s, st.(cursor := m), k), k + 1)
  }

  /** The state `play` starts its loop in: both players reset, no previous actions, an empty log. */
  function Start(s: Setup, a: Agent, b: Agent, cursor: nat): (r: MatchState)
    ensures r.log == EmptyLog && r.prevA.None? && r.prevB.None? && r.cursor == cursor
    ensures s.seededA && WellFormed(s.kindA, a.state) ==> r.a == Agent(Initial, 0)
    ensures s.seededB && WellFormed(s.kindB, b.state) ==> r.b == Agent(Initial, 0)
  {
    MatchState(ResetAgent(s.kindA, s.seededA, a), ResetAgent(s.kindB, s.seededB, b), cursor,
               None, None, EmptyLog)
  }

  /** `play()` from the players' states and the match generator's cursor. */
  function PlayOf(s: Setup, a: Agent, b: Agent, cursor: nat): (r: MatchState)
    ensures r.log.Aligned() && r.log.Rounds() <= Limit(s)
    ensures cursor <= r.cursor
  {
    Run(s, Start(s, a, b, cursor), 0)
  }

  // ---- The match object ----

  class IteratedMatch {
    const playerA: Player
    const playerB: Player
    const payoffMatrix: PayoffMatrix
    const noise: Option<Noise>
    const nRounds: Option<int>
    const continuationProb: Option<real>
    const horizon: nat
    /** The match's own generator `make_rng(seed)`: continuation draws and noise draws. */
    const rng: Rng

    /** The two players own separate strategies and generators, and the match generator is a third one. */
    ghost predicate Valid()
    {
      && playerA.strategy != playerB.strategy
      && playerA.rng != playerB.rng
      && rng != playerA.rng && rng != playerB.rng
      && CheckTermination(nRounds, continuationProb).None?
    }

    function MatchSetup(): Setup
    {
      Setup(playerA.strategy.kind, playerB.strategy.kind, playerA.seed.Some?, playerB.seed.Some?,
            playerA.rng.stream, playerB.rng.stream, rng.stream,
            payoffMatrix, noise, nRounds, continuationProb, horizon)
    }

    /**
     * `IteratedMatch(player_a, player_b, ...)` once the termination policy
     * passed its checks; a missing payoff matrix means the default one, and the
     * match generator is `make_rng(seed)`: the sequence `src` names for the seed,
     * or the `slot`-th entropy sequence without one.
     */
    constructor (playerA: Player, playerB: Player, payoffMatrix: Option<PayoffMatrix>, noise: Option<Noise>,
                 nRounds: Option<int>, continuationProb: Option<real>, seed: Option<int>, src: Randomness, slot: nat,
                 horizon: nat)
      requires CheckTermination(nRounds, continuationProb).None?
      requires playerA.strategy != playerB.strategy && playerA.rng != playerB.rng
      ensures Valid() && fresh(rng) && rng.stream == GeneratorStream(src, seed, slot) && rng.cursor == 0
      ensures this.playerA == playerA && this.playerB == playerB
      ensures this.payoffMatrix == (if payoffMatrix.None? then DefaultPayoffs else payoffMatrix.value)
      ensures this.noise == noise && this.nRounds == nRounds && this.continuationProb == continuationProb
      ensures this.horizon == horizon
    {
      this.playerA := playerA;
      this.playerB := playerB;
      this.payoffMatrix := if payoffMatrix.None? then DefaultPayoffs else payoffMatrix.value;
      this.noise := noise;
      this.nRounds := nRounds;
      this.continuationProb := continuationProb;
      this.horizon := horizon;
      rng := new Rng(GeneratorStream(src, seed, slot));
    }

    /** Construction as the source does it: an invalid termination policy raises. */
    static method Create(playerA: Player, playerB: Player, payoffMatrix: Option<PayoffMatrix>, noise: Option<Noise>,
                         nRounds: Option<int>, continuationProb: Option<real>, seed: Option<int>, src: Randomness,
                         slot: nat, horizon: nat)
      returns (r: Result<IteratedMatch>)
      requires playerA.strategy != playerB.strategy && playerA.rng != playerB.rng
      ensures r.Err? <==> CheckTermination(nRounds, continuationProb).Some?
      ensures r.Err? ==> r.error == CheckTermination(nRounds, continuationProb).value
      ensures r.Ok? ==> fresh(r.value) && fresh(r.value.rng) && r.value.Valid()
      ensures r.Ok? ==> r.value.rng.stream == GeneratorStream(src, seed, slot) && r.value.rng.cursor == 0
      ensures r.Ok? ==> r.value.playerA == playerA && r.value.playerB == playerB
      ensures r.Ok? ==> r.value.payoffMatrix == (if payoffMatrix.None? then DefaultPayoffs else payoffMatrix.value)
      ensures r.Ok? ==> r.value.noise == noise && r.value.nRounds == nRounds
      ensures r.Ok? ==> r.value.continuationProb == continuationProb && r.value.horizon == horizon
    {
      var check := CheckTermination(nRounds, continuationProb);
      if check.Some? {
        return Err(check.value);
      }
      var m := new IteratedMatch(playerA, playerB, payoffMatrix, noise, nRounds, continuationProb, seed, src, slot, horizon);
      return Ok(m);
    }

    /** `_continue(round_index)`. */
    method ContinueRound(roundIndex: nat) returns (go: bool)
      modifies rng
      ensures (go, rng.cursor) == Continue(MatchSetup(), roundIndex, old(rng.cursor))
    {
      if nRounds.Some? && roundIndex >= nRounds.value {
        return false;
      }
      if roundIndex == 0 {
        return true;
      }
      if continuationProb.None? {
        return roundIndex < (if nRounds.Some? then nRounds.value else 0);
      }
      if nRounds.None? && roundIndex >= horizon {
        return false;
      }
      var draw := rng.Random();
      return draw < continuationProb.value;
    }

    /** `_apply_noise(action)`: noise draws come from the match generator. */
    method ApplyNoise(action: Action) returns (r: Action)
      modifies rng
      ensures (r, rng.cursor) == Perturb(noise, action, rng.stream, old(rng.cursor))
    {
      if noise.None? {
        return action;
      }
      r := noise.value.Apply(action, rng);
    }

    /** The body of the `while` loop of `play()`: one round, as `Round` describes it. */
    method PlayRound(roundIndex: nat, aPrev: Option<Move>, bPrev: Option<Move>, log: MatchLog)
      returns (aEff: Move, bEff: Move)
      requires Valid()
      requires roundIndex > 0 ==> aPrev.Some? && bPrev.Some?
      modifies playerA.strategy, playerA.rng, playerB.strategy, playerB.rng, rng, log
      ensures MatchState(playerA.AgentNow(), playerB.AgentNow(), rng.cursor, Some(aEff), Some(bEff), log.Contents()) ==
              Round(MatchSetup(), old(MatchState(playerA.AgentNow(), playerB.AgentNow(), rng.cursor, aPrev, bPrev, log.Contents())), roundIndex)
    {
      var aAction, bAction;
      if roundIndex == 0 {
        aAction := playerA.FirstMove();
        bAction := playerB.FirstMove();
      } else {
        aAction := playerA.NextMove(aPrev.value, bPrev.value);
        bAction := playerB.NextMove(bPrev.value, aPrev.value);
      }
      aEff := ApplyNoise(aAction);
      bEff := ApplyNoise(bAction);
      var pay := payoffMatrix.Payoff(aEff, bEff);
      log.Append(aEff, bEff, pay.value.0, pay.value.1);
    }

    /** `play()`: the outcome and the log, as `PlayOf` describes them. */
    method Play() returns (outcome: MatchOutcome, log: MatchLog)
      requires Valid()
      modifies playerA.strategy, playerA.rng, playerB.strategy, playerB.rng, rng
      ensures fresh(log)
      ensures log.Contents() == PlayOf(MatchSetup(), old(playerA.AgentNow()), old(playerB.AgentNow()), old(rng.cursor)).log
      ensures playerA.AgentNow() == PlayOf(MatchSetup(), old(playerA.AgentNow()), old(playerB.AgentNow()), old(rng.cursor)).a
      ensures playerB.AgentNow() == PlayOf(MatchSetup(), old(playerA.AgentNow()), old(playerB.AgentNow()), old(rng.cursor)).b
      ensures rng.cursor == PlayOf(MatchSetup(), old(playerA.AgentNow()), old(playerB.AgentNow()), old(rng.cursor)).cursor
      ensures outcome == BuildOutcome(log.Contents())
    {
      ghost var s := MatchSetup();
      ghost var start := Start(s, playerA.AgentNow(), playerB.AgentNow(), rng.cursor);
      log := new MatchLog();
      playerA.Reset();
      playerB.Reset();
      var aPrev: Option<Move> := None;
      var bPrev: Option<Move> := None;
      var roundIndex: nat := 0;
      ghost var pre := start;
      var go := ContinueRound(roundIndex);
      while go
        invariant playerA.AgentNow() == pre.a && playerB.AgentNow() == pre.b
        invariant aPrev == pre.prevA && bPrev == pre.prevB && log.Contents() == pre.log
        invariant roundIndex > 0 ==> aPrev.Some? && bPrev.Some?
        invariant Continue(s, roundIndex, pre.cursor) == (go, rng.cursor)
        invariant Run(s, pre, roundIndex) == Run(s, start, 0)
        decreases Limit(s) - roundIndex
      {
        ContinueWithinLimit(s, roundIndex, pre.cursor);
        var aEff, bEff := PlayRound(roundIndex, aPrev, bPrev, log);
        aPrev, bPrev := Some(aEff), Some(bEff);
        roundIndex := roundIndex + 1;
        pre := MatchState(playerA.AgentNow(), playerB.AgentNow(), rng.cursor, aPrev, bPrev, log.Contents());
        go := ContinueRound(roundIndex);
      }
      outcome := BuildOutcome(log.Contents());
    }
  }
}
