/** What `play()` guarantees about a match, proved on `PlayOf`. */
module GameLaws {
  import opened Wrappers
  import opened Protocol
  import opened Streams
  import opened Sums
  import opened NoiseModel
  import opened Strategies
  import opened Players
  import opened Game

  // ---- The log stays consistent with the rounds played ----

  /**
   * The state after k rounds: one entry per round in each list, the previous
   * actions are the last logged ones, every logged action is valid and every
   * logged payoff pair is the table's entry for the logged actions.
   */
  ghost predicate Coherent(s: Setup, st: MatchState, k: nat)
  {
    && st.log.Aligned() && st.log.Rounds() == k
    && (k == 0 ==> st.prevA.None? && st.prevB.None?)
    && (k > 0 ==> st.prevA == Some(st.log.actionsA[k - 1]) && st.prevB == Some(st.log.actionsB[k - 1]))
    && (forall i :: 0 <= i < k ==> IsMove(st.log.actionsA[i]) && IsMove(st.log.actionsB[i]))
    && (forall i :: 0 <= i < k ==>
          s.payoffs.Payoff(st.log.actionsA[i], st.log.actionsB[i]) == Ok((st.log.payoffA[i], st.log.payoffB[i])))
  }

  /** `b` extends `a`: each of its lists starts with the corresponding list of `a`. */
  ghost predicate Extends(a: Log, b: Log)
  {
    && a.actionsA <= b.actionsA && a.actionsB <= b.actionsB
    && a.payoffA <= b.payoffA && a.payoffB <= b.payoffB
  }

  /** A round appends exactly one coherent entry and leaves the earlier ones alone. */
  lemma RoundCoherent(s: Setup, st: MatchState, k: nat)
    requires Coherent(s, st, k)
    ensures Coherent(s, Round(s, st, k), k + 1)
    ensures Extends(st.log, Round(s, st, k).log)
  {
    var r := Round(s, st, k);
    assert r.log.actionsA[..k] == st.log.actionsA;
    assert r.log.actionsB[..k] == st.log.actionsB;
    assert r.log.payoffA[..k] == st.log.payoffA;
    assert r.log.payoffB[..k] == st.log.payoffB;
  }

  /** The loop keeps the log coherent, only ever appends, and never exceeds the round limit. */
  lemma {:induction false} RunCoherent(s: Setup, st: MatchState, k: nat)
    requires Coherent(s, st, k) && k <= Limit(s)
    ensures Coherent(s, Run(s, st, k), Run(s, st, k).log.Rounds())
    ensures Extends(st.log, Run(s, st, k).log)
    ensures k <= Run(s, st, k).log.Rounds() <= Limit(s)
    decreases Limit(s) - k
  {
    var (go, m) := Continue(s, k, st.cursor);
    if go {
      ContinueWithinLimit(s, k, st.cursor);
      var st1 := st.(cursor := m);
      RoundCoherent(s, st1, k);
      RunCoherent(s, Round(s, st1, k), k + 1);
    }
  }

  /**
   * Every match `play()` runs ends with a coherent log: in particular no
   * invalid action ever reaches the payoff lookup, so its `ValueError` is never raised.
   */
  lemma PlayCoherent(s: Setup, a: Agent, b: Agent, cursor: nat)
    ensures Coherent(s, PlayOf(s, a, b, cursor), PlayOf(s, a, b, cursor).log.Rounds())
    ensures PlayOf(s, a, b, cursor).log.Rounds() <= Limit(s)
  {
    RunCoherent(s, Start(s, a, b, cursor), 0);
  }

  /**
   * From round 1 on, A is asked for its move with (its own, B's) previous
   * effective actions, and B with (its own, A's); the logged actions are
   * those answers after noise, A's noise drawn before B's.
   */
  lemma RoundUsesPreviousEffectiveActions(s: Setup, st: MatchState, k: nat)
    requires Coherent(s, st, k) && k >= 1
    ensures
      var (aAction, a') := NextMoveAgent(s.kindA, s.streamA, st.a, Some(st.log.actionsA[k - 1]), Some(st.log.actionsB[k - 1]));
      var (bAction, b') := NextMoveAgent(s.kindB, s.streamB, st.b, Some(st.log.actionsB[k - 1]), Some(st.log.actionsA[k - 1]));
      var (aEff, m1) := Perturb(s.noise, aAction, s.streamM, st.cursor);
      var (bEff, m2) := Perturb(s.noise, bAction, s.streamM, m1);
      var r := Round(s, st, k);
      r.a == a' && r.b == b' && r.cursor == m2 &&
      r.log.actionsA[k] == aEff && r.log.actionsB[k] == bEff
  {
  }

  // ---- How many rounds are played ----

  /** With `continuation_prob` None and `n_rounds = N`, the loop plays up to round N (none when N <= 0). */
  lemma {:induction false} RunFixedRounds(s: Setup, st: MatchState, k: nat)
    requires s.nRounds.Some? && s.continuationProb.None?
    requires st.log.Rounds() == k && k <= Limit(s)
    ensures Run(s, st, k).log.Rounds() == Limit(s)
    decreases Limit(s) - k
  {
    var (go, m) := Continue(s, k, st.cursor);
    if go {
      RunFixedRounds(s, Round(s, st.(cursor := m), k), k + 1);
    }
  }

  /** A fixed-length match of N >= 0 rounds plays exactly N rounds. */
  lemma PlayFixedRounds(s: Setup, a: Agent, b: Agent, cursor: nat)
    requires s.nRounds.Some? && s.continuationProb.None?
    ensures PlayOf(s, a, b, cursor).log.Rounds() == if s.nRounds.value >= 0 then s.nRounds.value else 0
  {
    RunFixedRounds(s, Start(s, a, b, cursor), 0);
  }

  /** With `n_rounds` set, the match never plays more than `n_rounds` rounds, whatever the continuation draws. */
  lemma PlayNeverExceedsRounds(s: Setup, a: Agent, b: Agent, cursor: nat)
    requires s.nRounds.Some?
    ensures PlayOf(s, a, b, cursor).log.Rounds() <= if s.nRounds.value >= 0 then s.nRounds.value else 0
  {
    PlayCoherent(s, a, b, cursor);
  }

  /** Round 0 is always played unless `n_rounds` is at most 0. */
  lemma PlayAtLeastOneRound(s: Setup, a: Agent, b: Agent, cursor: nat)
    requires s.nRounds.None? || s.nRounds.value >= 1
    ensures PlayOf(s, a, b, cursor).log.Rounds() >= 1
  {
    var st := Start(s, a, b, cursor);
    assert Continue(s, 0, cursor) == (true, cursor);
    RunCoherent(s, Round(s, st, 0), 1);
  }

  /** With `continuation_prob = 0` and no `n_rounds`, exactly one round is played. */
  lemma ZeroContinuationPlaysOneRound(s: Setup, a: Agent, b: Agent, cursor: nat)
    requires s.nRounds.None? && s.continuationProb == Some(0.0)
    ensures PlayOf(s, a, b, cursor).log.Rounds() == 1
  {
    var st := Start(s, a, b, cursor);
    assert Continue(s, 0, cursor) == (true, cursor);
    var st1 := Round(s, st, 0);
    assert st1.log.Rounds() == 1;
    assert !Continue(s, 1, st1.cursor).0;
    assert Run(s, st1, 1) == st1.(cursor := Continue(s, 1, st1.cursor).1);
  }

  /**
   * From round 1 on, a probabilistic match below its bounds draws once from the
   * match stream and goes on iff the draw is below `continuation_prob`.
   */
  lemma ContinuationDraw(s: Setup, k: nat, cursor: nat)
    requires s.continuationProb.Some? && k >= 1
    requires s.nRounds.None? ==> k < s.horizon
    requires s.nRounds.Some? ==> k < s.nRounds.value
    ensures Continue(s, k, cursor) == (s.streamM(cursor) < s.continuationProb.value, cursor + 1)
  {
  }

  // ---- Randomness ----

  /** The noise is silent: no noise object, or an epsilon of at most 0. */
  predicate Silent(noise: Option<Noise>)
  {
    noise.None? || noise.value.epsilon <= 0.0
  }

  /** Without noise and without a continuation probability the match generator is never drawn from. */
  lemma {:induction false} RunLeavesMatchStream(s: Setup, st: MatchState, k: nat)
    requires Silent(s.noise) && s.continuationProb.None?
    ensures Run(s, st, k).cursor == st.cursor
    decreases Limit(s) - k
  {
    var (go, m) := Continue(s, k, st.cursor);
    if go {
      ContinueWithinLimit(s, k, st.cursor);
      RunLeavesMatchStream(s, Round(s, st.(cursor := m), k), k + 1);
    }
  }

  /** Play keeps the strategies' unused fields at their initial values. */
  lemma {:induction false} RunWellFormed(s: Setup, st: MatchState, k: nat)
    requires WellFormed(s.kindA, st.a.state) && WellFormed(s.kindB, st.b.state)
    ensures WellFormed(s.kindA, Run(s, st, k).a.state) && WellFormed(s.kindB, Run(s, st, k).b.state)
    decreases Limit(s) - k
  {
    var (go, m) := Continue(s, k, st.cursor);
    if go {
      ContinueWithinLimit(s, k, st.cursor);
      RunWellFormed(s, Round(s, st.(cursor := m), k), k + 1);
    }
  }

  lemma PlayWellFormed(s: Setup, a: Agent, b: Agent, cursor: nat)
    requires WellFormed(s.kindA, a.state) && WellFormed(s.kindB, b.state)
    ensures WellFormed(s.kindA, PlayOf(s, a, b, cursor).a.state)
    ensures WellFormed(s.kindB, PlayOf(s, a, b, cursor).b.state)
  {
    RunWellFormed(s, Start(s, a, b, cursor), 0);
  }

  /**
   * Two seeded players replay the same match: whatever state earlier matches
   * left them in, `play()` from the same match cursor gives the same log and end state.
   */
  lemma SeededPlayersReplay(s: Setup, a1: Agent, b1: Agent, a2: Agent, b2: Agent, cursor: nat)
    requires s.seededA && s.seededB
    requires WellFormed(s.kindA, a1.state) && WellFormed(s.kindB, b1.state)
    requires WellFormed(s.kindA, a2.state) && WellFormed(s.kindB, b2.state)
    ensures PlayOf(s, a1, b1, cursor) == PlayOf(s, a2, b2, cursor)
  {
    SeededResetRestarts(s.kindA, a1);
    SeededResetRestarts(s.kindA, a2);
    SeededResetRestarts(s.kindB, b1);
    SeededResetRestarts(s.kindB, b2);
  }

  /** Without noise draws and continuation draws, where the match cursor stands makes no difference. */
  lemma {:induction false} RunIgnoresMatchCursor(s: Setup, st: MatchState, k: nat, c2: nat)
    requires Silent(s.noise) && s.continuationProb.None?
    ensures Run(s, st.(cursor := c2), k) == Run(s, st, k).(cursor := c2)
    decreases Limit(s) - k
  {
    var (go, m) := Continue(s, k, st.cursor);
    assert Continue(s, k, c2) == (go, c2);
    if go {
      ContinueWithinLimit(s, k, st.cursor);
      assert Round(s, st.(cursor := c2), k) == Round(s, st, k).(cursor := c2);
      RunIgnoresMatchCursor(s, Round(s, st, k), k + 1, c2);
    }
  }

  /**
   * Calling `play()` a second time on a match between seeded players repeats
   * the log, provided the match itself draws nothing (no noise, a fixed
   * number of rounds): the players re-seed, but the match generator does not.
   */
  lemma ReplayedMatchRepeatsLog(s: Setup, a: Agent, b: Agent, cursor: nat)
    requires s.seededA && s.seededB && WellFormed(s.kindA, a.state) && WellFormed(s.kindB, b.state)
    requires Silent(s.noise) && s.continuationProb.None?
    ensures var first := PlayOf(s, a, b, cursor);
      PlayOf(s, first.a, first.b, first.cursor).log == first.log
  {
    var first := PlayOf(s, a, b, cursor);
    PlayWellFormed(s, a, b, cursor);
    SeededPlayersReplay(s, a, b, first.a, first.b, cursor);
    RunIgnoresMatchCursor(s, Start(s, first.a, first.b, cursor), 0, first.cursor);
  }

  /** A match stream whose first draw is 0 and whose later draws are 0.5. */
  function FirstDrawZero(i: nat): Unit
  {
    if i == 0 then 0.0 else 0.5
  }

  /**
   * With noise the second `play()` need not repeat the first: on a one-round
   * ALLC mirror match under epsilon 0.1, the first play flips A's move (draw
   * 0), the second play draws 0.5 and keeps it.
   */
  lemma ReplayedNoisyMatchDiffers(a: Agent, b: Agent)
    ensures var s := Setup(AllCooperate, AllCooperate, true, true, FirstDrawZero, FirstDrawZero, FirstDrawZero,
                           DefaultPayoffs, Some(Noise(0.1)), Some(1), None, 0);
      var first := PlayOf(s, a, b, 0);
      var second := PlayOf(s, first.a, first.b, first.cursor);
      first.log.actionsA == [D] && second.log.actionsA == [C]
  {
    var s := Setup(AllCooperate, AllCooperate, true, true, FirstDrawZero, FirstDrawZero, FirstDrawZero,
                   DefaultPayoffs, Some(Noise(0.1)), Some(1), None, 0);
    var st := Start(s, a, b, 0);
    var r1 := Round(s, st, 0);
    assert r1.log.actionsA == [D] && r1.cursor == 2;
    assert Continue(s, 0, 0) == (true, 0) && st.(cursor := 0) == st;
    assert Continue(s, 1, 2) == (false, 2) && r1.(cursor := 2) == r1;
    assert Run(s, r1, 1) == r1;
    assert Run(s, st, 0) == Run(s, r1, 1);
    var st2 := Start(s, r1.a, r1.b, 2);
    var r2 := Round(s, st2, 0);
    assert r2.log.actionsA == [C];
    assert Continue(s, 0, 2) == (true, 2) && st2.(cursor := 2) == st2;
    assert Continue(s, 1, r2.cursor) == (false, r2.cursor) && r2.(cursor := r2.cursor) == r2;
    assert Run(s, r2, 1) == r2;
    assert Run(s, st2, 0) == Run(s, r2, 1);
  }

  // ---- Symmetry of the two seats ----

  function SwapSetup(s: Setup): Setup
  {
    s.(kindA := s.kindB, kindB := s.kindA, seededA := s.seededB, seededB := s.seededA,
       streamA := s.streamB, streamB := s.streamA)
  }

  function SwapLog(l: Log): Log
  {
    Log(l.actionsB, l.actionsA, l.payoffB, l.payoffA)
  }

  function SwapState(st: MatchState): MatchState
  {
    MatchState(st.b, st.a, st.cursor, st.prevB, st.prevA, SwapLog(st.log))
  }

  lemma RoundSwap(s: Setup, st: MatchState, k: nat)
    requires Silent(s.noise)
    ensures Round(SwapSetup(s), SwapState(st), k) == SwapState(Round(s, st, k))
  {
    var r := Round(s, st, k);
    PayoffSwap(s.payoffs, r.log.actionsA[|r.log.actionsA| - 1], r.log.actionsB[|r.log.actionsB| - 1]);
  }

  /**
   * Without noise draws, exchanging the two seats exchanges the two sides of
   * the result: each player is shown (its own, the other's) previous action.
   */
  lemma {:induction false} RunSwap(s: Setup, st: MatchState, k: nat)
    requires Silent(s.noise)
    ensures Run(SwapSetup(s), SwapState(st), k) == SwapState(Run(s, st, k))
    decreases Limit(s) - k
  {
    assert Continue(SwapSetup(s), k, st.cursor) == Continue(s, k, st.cursor);
    var (go, m) := Continue(s, k, st.cursor);
    if go {
      ContinueWithinLimit(s, k, st.cursor);
      RoundSwap(s, st.(cursor := m), k);
      assert SwapState(st).(cursor := m) == SwapState(st.(cursor := m));
      RunSwap(s, Round(s, st.(cursor := m), k), k + 1);
    }
  }

  lemma PlaySwap(s: Setup, a: Agent, b: Agent, cursor: nat)
    requires Silent(s.noise)
    ensures PlayOf(SwapSetup(s), b, a, cursor) == SwapState(PlayOf(s, a, b, cursor))
  {
    RunSwap(s, Start(s, a, b, cursor), 0);
  }

  // ---- ALLC against ALLD ----

  /** After k rounds of ALLC against ALLD without noise: (C, D, S, T) in every round. */
  ghost predicate Exploited(s: Setup, l: Log, k: nat)
  {
    && l.Aligned() && l.Rounds() == k
    && (forall i :: 0 <= i < k ==> l.actionsA[i] == C && l.actionsB[i] == D)
    && (forall i :: 0 <= i < k ==> l.payoffA[i] == s.payoffs.sucker && l.payoffB[i] == s.payoffs.temptation)
  }

  lemma {:induction false} RunAllCooperateAllDefect(s: Setup, st: MatchState, k: nat)
    requires s.kindA == AllCooperate && s.kindB == AllDefect && Silent(s.noise)
    requires s.nRounds.Some? && s.continuationProb.None?
    requires Exploited(s, st.log, k) && k <= Limit(s)
    ensures Exploited(s, Run(s, st, k).log, Limit(s))
    decreases Limit(s) - k
  {
    var (go, m) := Continue(s, k, st.cursor);
    if go {
      var r := Round(s, st.(cursor := m), k);
      assert r.log.actionsA == st.log.actionsA + [C] && r.log.actionsB == st.log.actionsB + [D];
      RunAllCooperateAllDefect(s, r, k + 1);
    }
  }

  /**
   * ALLC against ALLD for N >= 0 rounds without noise: A totals N * S and
   * cooperates always, B totals N * T and never cooperates.
   */
  lemma AllCooperateAgainstAllDefect(s: Setup, a: Agent, b: Agent, cursor: nat)
    requires s.kindA == AllCooperate && s.kindB == AllDefect && Silent(s.noise)
    requires s.nRounds.Some? && s.nRounds.value >= 1 && s.continuationProb.None?
    ensures
      var o := BuildOutcome(PlayOf(s, a, b, cursor).log);
      && o.totalPayoffA == s.nRounds.value as real * s.payoffs.sucker
      && o.totalPayoffB == s.nRounds.value as real * s.payoffs.temptation
      && o.cooperationRateA == 1.0 && o.cooperationRateB == 0.0
  {
    RunAllCooperateAllDefect(s, Start(s, a, b, cursor), 0);
    ExploitedOutcome(s, PlayOf(s, a, b, cursor).log, s.nRounds.value);
  }

  lemma ExploitedOutcome(s: Setup, l: Log, n: nat)
    requires Exploited(s, l, n) && n >= 1
    ensures
      var o := BuildOutcome(l);
      && o.totalPayoffA == n as real * s.payoffs.sucker
      && o.totalPayoffB == n as real * s.payoffs.temptation
      && o.cooperationRateA == 1.0 && o.cooperationRateB == 0.0
  {
    SumConstant(l.payoffA, s.payoffs.sucker);
    SumConstant(l.payoffB, s.payoffs.temptation);
    CountConstant(l.actionsA, C, C);
    CountConstant(l.actionsB, D, C);
    assert Count(l.actionsA, C) == n;
    assert Count(l.actionsB, C) == 0;
  }

  /** The three-round ALLC-against-ALLD match on the default table: totals 0 and 15, rates 1 and 0. */
  lemma AllCooperateAgainstAllDefectThreeRounds(s: Setup, a: Agent, b: Agent, cursor: nat)
    requires s.kindA == AllCooperate && s.kindB == AllDefect && s.noise.None?
    requires s.payoffs == DefaultPayoffs && s.nRounds == Some(3) && s.continuationProb.None?
    ensures PlayOf(s, a, b, cursor).log.Rounds() == 3
    ensures
      var o := BuildOutcome(PlayOf(s, a, b, cursor).log);
      o.totalPayoffA == 0.0 && o.totalPayoffB == 15.0 && o.cooperationRateA == 1.0 && o.cooperationRateB == 0.0
  {
    PlayFixedRounds(s, a, b, cursor);
    AllCooperateAgainstAllDefect(s, a, b, cursor);
  }

  // ---- The outcome ----

  /** A log with no rounds gives totals, means and cooperation rates of 0. */
  lemma EmptyOutcome()
    ensures BuildOutcome(EmptyLog) == MatchOutcome(0.0, 0.0, 0.0, 0.0, 0.0, 0.0)
  {
  }

  /** The totals are the sums of the logged payoffs and the means are those totals per round played. */
  lemma OutcomeMeans(l: Log)
    requires l.Aligned()
    ensures BuildOutcome(l).totalPayoffA == Sum(l.payoffA) && BuildOutcome(l).totalPayoffB == Sum(l.payoffB)
    ensures l.Rounds() > 0 ==> BuildOutcome(l).meanPayoffA * l.Rounds() as real == Sum(l.payoffA)
    ensures l.Rounds() > 0 ==> BuildOutcome(l).meanPayoffB * l.Rounds() as real == Sum(l.payoffB)
    ensures l.Rounds() == 0 ==> BuildOutcome(l).meanPayoffA == 0.0 && BuildOutcome(l).meanPayoffB == 0.0
    ensures 0.0 <= BuildOutcome(l).cooperationRateA <= 1.0 && 0.0 <= BuildOutcome(l).cooperationRateB <= 1.0
  {
  }

  /** The mean of payoffs that all lie in [lo, hi] lies in [lo, hi]. */
  lemma MeanWithin(payoffs: seq<real>, lo: real, hi: real)
    requires |payoffs| > 0
    requires forall i :: 0 <= i < |payoffs| ==> lo <= payoffs[i] <= hi
    ensures lo <= Sum(payoffs) / |payoffs| as real <= hi
  {
    SumBounds(payoffs, lo, hi);
    var n := |payoffs| as real;
    assert n * lo <= Sum(payoffs) <= n * hi;
    assert Sum(payoffs) / n * n == Sum(payoffs);
  }

  /** Both mean payoffs of a played match lie between the smallest and the largest table entry. */
  lemma PlayMeansWithinTable(s: Setup, a: Agent, b: Agent, cursor: nat)
    requires PlayOf(s, a, b, cursor).log.Rounds() > 0
    ensures var o := BuildOutcome(PlayOf(s, a, b, cursor).log);
      s.payoffs.Lowest() <= o.meanPayoffA <= s.payoffs.Highest() &&
      s.payoffs.Lowest() <= o.meanPayoffB <= s.payoffs.Highest()
  {
    PlayCoherent(s, a, b, cursor);
    var l := PlayOf(s, a, b, cursor).log;
    forall i | 0 <= i < |l.payoffA|
      ensures s.payoffs.Lowest() <= l.payoffA[i] <= s.payoffs.Highest()
      ensures s.payoffs.Lowest() <= l.payoffB[i] <= s.payoffs.Highest()
    {
      PayoffWithinTable(s.payoffs, l.actionsA[i], l.actionsB[i]);
    }
    MeanWithin(l.payoffA, s.payoffs.Lowest(), s.payoffs.Highest());
    MeanWithin(l.payoffB, s.payoffs.Lowest(), s.payoffs.Highest());
  }
}
