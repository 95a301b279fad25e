/**
 * The round-robin tournament: every unordered pair of players (no self-play),
 * each pair `repetitions` times, one fixed-length match per fixture, and a
 * leaderboard summing each name's mean payoffs.
 *
 * `Run` is specified by `Exec`, a fold over the flat schedule of fixtures.
 */
module Tournament {
  import opened Wrappers
  import opened Streams
  import opened NoiseModel
  import opened Strategies
  import opened Players
  import opened Game

  /** `MatchSummary`: the two display names, A's first, and the match outcome. */
  datatype MatchSummary = MatchSummary(playerA: string, playerB: string, outcome: MatchOutcome)

  /** The names that occur in the summaries, on either side. */
  function Names(ms: seq<MatchSummary>): (r: set<string>)
  {
    if ms == [] then {}
    else Names(ms[..|ms| - 1]) + {ms[|ms| - 1].playerA, ms[|ms| - 1].playerB}
  }

  /** What the leaderboard credits `name` with: its mean payoff from every summary it is a side of. */
  function Score(ms: seq<MatchSummary>, name: string): (r: real)
  {
    if ms == [] then 0.0
    else
      var last := ms[|ms| - 1];
      Score(ms[..|ms| - 1], name)
        + (if last.playerA == name then last.outcome.meanPayoffA else 0.0)
        + (if last.playerB == name then last.outcome.meanPayoffB else 0.0)
  }

  datatype TournamentResults = TournamentResults(matches: seq<MatchSummary>)
  {
    /**
     * `leaderboard()`: one entry per name that occurs in a summary, holding
     * the sum of that name's mean payoffs over the summaries it occurs in.
     */
    method Leaderboard() returns (scores: map<string, real>)
      ensures scores.Keys == Names(matches)
      ensures forall name :: name in scores ==> scores[name] == Score(matches, name)
    {
      scores := map[];
      for t := 0 to |matches|
        invariant scores.Keys == Names(matches[..t])
        invariant forall name :: name in scores ==> scores[name] == Score(matches[..t], name)
      {
        var summary := matches[t];
        assert matches[..t + 1][..t] == matches[..t];
        if summary.playerA !in scores {
          ScoreOfAbsent(matches[..t], summary.playerA);
          scores := scores[summary.playerA := 0.0];
        }
        if summary.playerB !in scores {
          ScoreOfAbsent(matches[..t], summary.playerB);
          scores := scores[summary.playerB := 0.0];
        }
        scores := scores[summary.playerA := scores[summary.playerA] + summary.outcome.meanPayoffA];
        scores := scores[summary.playerB := scores[summary.playerB] + summary.outcome.meanPayoffB];
      }
      assert matches[..|matches|] == matches;
    }
  }

  /** A name that occurs in no summary scores 0. */
  lemma {:induction false} ScoreOfAbsent(ms: seq<MatchSummary>, name: string)
    requires name !in Names(ms)
    ensures Score(ms, name) == 0.0
  {
    if ms != [] {
      ScoreOfAbsent(ms[..|ms| - 1], name);
    }
  }

  // ---- The schedule ----

  /** `combinations(range(n), 2)` from first index `i` on: the pairs i <= a < b < n in lexicographic order. */
  function PairsFrom(i: nat, n: nat): seq<(nat, nat)>
    decreases n - i
  {
    if i >= n then []
    else seq(n - i - 1, k requires 0 <= k < n - i - 1 => (i, i + 1 + k)) + PairsFrom(i + 1, n)
  }

  /** `combinations(players, 2)`, as index pairs. */
  function Pairs(n: nat): (r: seq<(nat, nat)>)
    ensures forall t :: 0 <= t < |r| ==> r[t].0 < r[t].1 < n
  {
    PairsFromValid(0, n);
    PairsFrom(0, n)
  }

  /** One match of the tournament: the two players' indices and the repetition number. */
  datatype Fixture = Fixture(i: nat, j: nat, rep: nat)

  function Reps(pair: (nat, nat), repetitions: nat): seq<Fixture>
  {
    seq(repetitions, k requires 0 <= k < repetitions => Fixture(pair.0, pair.1, k))
  }

  /** The nested loops of `run`: the pairs in order, each with its repetitions innermost. */
  function Schedule(pairs: seq<(nat, nat)>, repetitions: nat): seq<Fixture>
  {
    if pairs == [] then [] else Reps(pairs[0], repetitions) + Schedule(pairs[1..], repetitions)
  }

  predicate ValidFixtures(sched: seq<Fixture>, n: nat)
  {
    forall t :: 0 <= t < |sched| ==> sched[t].i < sched[t].j < n
  }

  // ---- Running the schedule ----

  /**
   * What a tournament run depends on: per player its strategy kind, whether it
   * was seeded, its stream and its display name; the tournament's match
   * settings; and the sequences generators are seeded with.
   */
  datatype Config = Config(
    kinds: seq<Kind>, seeded: seq<bool>, streams: seq<Stream>, names: seq<string>,
    payoffs: PayoffMatrix, noise: Option<Noise>, nRounds: int, seed: Option<int>,
    randomness: Randomness)

  predicate Fits(c: Config, n: nat)
  {
    |c.kinds| == n && |c.seeded| == n && |c.streams| == n && |c.names| == n
  }

  /**
   * The match generator of the m-th match: seeded with `seed + rep` when the
   * tournament has a seed, otherwise a generator seeded from system entropy.
   */
  function MatchSeed(c: Config, rep: nat): Option<int>
  {
    if c.seed.Some? then Some(c.seed.value + rep) else None
  }

  function MatchStream(c: Config, rep: nat, m: nat): (r: Stream)
    ensures c.seed.Some? ==> r == SeededStream(c.randomness, c.seed.value + rep)
    ensures c.seed.None? ==> r == c.randomness.entropy(m)
  {
    GeneratorStream(c.randomness, MatchSeed(c, rep), m)
  }

  /** The match of fixture `f`: the tournament's payoffs, noise and `n_rounds`, no continuation probability. */
  function FixtureSetup(c: Config, f: Fixture, m: nat): Setup
    requires Fits(c, |c.kinds|) && f.i < |c.kinds| && f.j < |c.kinds|
  {
    Setup(c.kinds[f.i], c.kinds[f.j], c.seeded[f.i], c.seeded[f.j], c.streams[f.i], c.streams[f.j],
          MatchStream(c, f.rep, m), c.payoffs, c.noise, Some(c.nRounds), None, 0)
  }

  /** The players' states and the summaries so far. */
  datatype Progress = Progress(agents: seq<Agent>, matches: seq<MatchSummary>)

  /** One fixture: play the match on a fresh match generator and append its summary. */
  function Step(c: Config, pr: Progress, f: Fixture): (r: Progress)
    requires Fits(c, |pr.agents|) && f.i < f.j < |pr.agents|
  {
    var fin := PlayOf(FixtureSetup(c, f, |pr.matches|), pr.agents[f.i], pr.agents[f.j], 0);
    Progress(pr.agents[f.i := fin.a][f.j := fin.b],
             pr.matches + [MatchSummary(c.names[f.i], c.names[f.j], BuildOutcome(fin.log))])
  }

  /** The fixtures of `sched`, one after the other. */
  function Exec(c: Config, pr: Progress, sched: seq<Fixture>): (r: Progress)
    requires Fits(c, |pr.agents|) && ValidFixtures(sched, |pr.agents|)
    decreases |sched|
  {
    if sched == [] then pr
    else Exec(c, Step(c, pr, sched[0]), sched[1..])
  }

  lemma {:induction false} PairsFromValid(i: nat, n: nat)
    ensures forall t :: 0 <= t < |PairsFrom(i, n)| ==> i <= PairsFrom(i, n)[t].0 < PairsFrom(i, n)[t].1 < n
    decreases n - i
  {
    if i < n {
      PairsFromValid(i + 1, n);
    }
  }

  /** Every pair of `combinations` has a < b < n: no player meets itself. */
  lemma PairsValid(n: nat)
    ensures forall t :: 0 <= t < |Pairs(n)| ==> Pairs(n)[t].0 < Pairs(n)[t].1 < n
  {
    PairsFromValid(0, n);
  }

  lemma {:induction false} ScheduleValid(pairs: seq<(nat, nat)>, repetitions: nat, n: nat)
    requires forall t :: 0 <= t < |pairs| ==> pairs[t].0 < pairs[t].1 < n
    ensures ValidFixtures(Schedule(pairs, repetitions), n)
  {
    if pairs != [] {
      ScheduleValid(pairs[1..], repetitions, n);
    }
  }

  lemma {:induction false} ScheduleLength(pairs: seq<(nat, nat)>, repetitions: nat)
    ensures |Schedule(pairs, repetitions)| == |pairs| * repetitions
  {
    if pairs != [] {
      ScheduleLength(pairs[1..], repetitions);
      assert |pairs| * repetitions == repetitions + (|pairs| - 1) * repetitions;
    }
  }

  lemma BlockBound(p: nat, n: nat, r: nat, rep: nat)
    requires p < n && rep < r
    ensures p * r + rep < n * r
  {
    assert n * r == p * r + r + (n - p - 1) * r;
  }

  lemma MulMonotonic(p: nat, n: nat, r: nat)
    requires p <= n
    ensures p * r <= n * r
  {
    assert n * r == p * r + (n - p) * r;
  }

  /** Fixture p * repetitions + rep is repetition `rep` of the p-th pair. */
  lemma {:induction false} ScheduleAt(pairs: seq<(nat, nat)>, repetitions: nat, p: nat, rep: nat)
    requires p < |pairs| && rep < repetitions
    ensures p * repetitions + rep < |Schedule(pairs, repetitions)|
    ensures Schedule(pairs, repetitions)[p * repetitions + rep] == Fixture(pairs[p].0, pairs[p].1, rep)
  {
    ScheduleLength(pairs, repetitions);
    BlockBound(p, |pairs|, repetitions, rep);
    var s := Schedule(pairs, repetitions);
    assert s == Reps(pairs[0], repetitions) + Schedule(pairs[1..], repetitions);
    if p > 0 {
      ScheduleAt(pairs[1..], repetitions, p - 1, rep);
      var q := (p - 1) * repetitions + rep;
      assert p * repetitions + rep == repetitions + q;
      assert s[repetitions + q] == Schedule(pairs[1..], repetitions)[q];
    }
  }

  // ---- The tournament object ----

  /** No two players share a strategy object or a generator. */
  ghost predicate Separate(players: seq<Player>)
  {
    forall a, b :: 0 <= a < |players| && 0 <= b < |players| && a != b ==>
      players[a].strategy != players[b].strategy && players[a].rng != players[b].rng
  }

  /** The players' own generators' sequences, in order. */
  function StreamsOf(players: seq<Player>): (r: seq<Stream>)
    ensures |r| == |players|
    ensures forall k :: 0 <= k < |players| ==> r[k] == players[k].rng.stream
  {
    if players == [] then [] else StreamsOf(players[..|players| - 1]) + [players[|players| - 1].rng.stream]
  }

  /** Running the fixtures from position t on: first the one at t, then the rest. */
  lemma ExecFrom(c: Config, pr: Progress, sched: seq<Fixture>, t: nat)
    requires Fits(c, |pr.agents|) && ValidFixtures(sched, |pr.agents|) && t < |sched|
    ensures ValidFixtures(sched[t..], |pr.agents|) && ValidFixtures(sched[t + 1..], |pr.agents|)
    ensures Exec(c, pr, sched[t..]) == Exec(c, Step(c, pr, sched[t]), sched[t + 1..])
  {
    assert sched[t..][1..] == sched[t + 1..];
  }

  lemma ValidConcat(first: seq<Fixture>, rest: seq<Fixture>, n: nat)
    requires ValidFixtures(first, n) && ValidFixtures(rest, n)
    ensures ValidFixtures(first + rest, n)
  {
    forall t | 0 <= t < |first + rest|
      ensures (first + rest)[t].i < (first + rest)[t].j < n
    {
      if t >= |first| {
        assert (first + rest)[t] == rest[t - |first|];
      }
    }
  }

  /** Running a schedule keeps the roster's size. */
  lemma {:induction false} ExecKeepsAgents(c: Config, pr: Progress, sched: seq<Fixture>)
    requires Fits(c, |pr.agents|) && ValidFixtures(sched, |pr.agents|)
    ensures |Exec(c, pr, sched).agents| == |pr.agents|
    decreases |sched|
  {
    if sched != [] {
      ExecKeepsAgents(c, Step(c, pr, sched[0]), sched[1..]);
    }
  }

  /** Running two schedules one after the other is running their concatenation. */
  lemma {:induction false} ExecAppend(c: Config, pr: Progress, first: seq<Fixture>, rest: seq<Fixture>)
    requires Fits(c, |pr.agents|) && ValidFixtures(first, |pr.agents|) && ValidFixtures(rest, |pr.agents|)
    ensures ValidFixtures(first + rest, |pr.agents|)
    ensures |Exec(c, pr, first).agents| == |pr.agents|
    ensures Exec(c, pr, first + rest) == Exec(c, Exec(c, pr, first), rest)
    decreases |first|
  {
    ValidConcat(first, rest, |pr.agents|);
    ExecKeepsAgents(c, pr, first);
    if first != [] {
      assert (first + rest)[0] == first[0] && (first + rest)[1..] == first[1..] + rest;
      var pr' := Step(c, pr, first[0]);
      ExecAppend(c, pr', first[1..], rest);
      assert Exec(c, pr, first + rest) == Exec(c, pr', first[1..] + rest);
      assert Exec(c, pr, first) == Exec(c, pr', first[1..]);
    } else {
      assert first + rest == rest;
    }
  }

  class RoundRobinTournament {
    const players: seq<Player>
    const payoffMatrix: PayoffMatrix
    const noise: Option<Noise>
    const nRounds: int
    const repetitions: nat
    const seed: Option<int>
    /** The sequences `make_rng` yields for a seed, or from system entropy. */
    const randomness: Randomness

    /**
     * `RoundRobinTournament(players, ...)` with at least one repetition; a
     * missing payoff matrix means the default one.
     */
    constructor (players: seq<Player>, payoffMatrix: Option<PayoffMatrix>, noise: Option<Noise>,
                 nRounds: int, repetitions: int, seed: Option<int>, randomness: Randomness)
      requires repetitions >= 1
      ensures this.players == players && this.noise == noise && this.nRounds == nRounds
      ensures this.payoffMatrix == (if payoffMatrix.None? then DefaultPayoffs else payoffMatrix.value)
      ensures this.repetitions == repetitions && this.seed == seed && this.randomness == randomness
    {
      this.players := players;
      this.payoffMatrix := if payoffMatrix.None? then DefaultPayoffs else payoffMatrix.value;
      this.noise := noise;
      this.nRounds := nRounds;
      this.repetitions := repetitions;
      this.seed := seed;
      this.randomness := randomness;
    }

    /** Construction as the source does it: fewer than one repetition raises. */
    static method Create(players: seq<Player>, payoffMatrix: Option<PayoffMatrix>, noise: Option<Noise>,
                         nRounds: int, repetitions: int, seed: Option<int>, randomness: Randomness)
      returns (r: Result<RoundRobinTournament>)
      ensures r.Err? <==> repetitions < 1
      ensures r.Err? ==> r.error == ValueError("repetitions must be >= 1")
      ensures r.Ok? ==> fresh(r.value) && r.value.players == players && r.value.repetitions == repetitions
    {
      if repetitions < 1 {
        return Err(ValueError("repetitions must be >= 1"));
      }
      var t := new RoundRobinTournament(players, payoffMatrix, noise, nRounds, repetitions, seed, randomness);
      return Ok(t);
    }

    function Settings(): Config
    {
      Config(seq(|players|, k requires 0 <= k < |players| => players[k].strategy.kind),
             seq(|players|, k requires 0 <= k < |players| => players[k].seed.Some?),
             StreamsOf(players),
             seq(|players|, k requires 0 <= k < |players| => players[k].DisplayName()),
             payoffMatrix, noise, nRounds, seed, randomness)
    }

    /** The objects a run changes: every player's strategy and generator. */
    ghost function Footprint(): set<object>
    {
      (set k | 0 <= k < |players| :: players[k].strategy as object) +
      (set k | 0 <= k < |players| :: players[k].rng as object)
    }

    ghost function Agents(): seq<Agent>
      reads Footprint()
    {
      seq(|players|, k requires 0 <= k < |players| reads Footprint() => players[k].AgentNow())
    }

    /** The body of the inner loop of `run()`: the match of one fixture, as `Step` describes it. */
    method PlayFixture(i: nat, j: nat, rep: nat, matches: seq<MatchSummary>) returns (summary: MatchSummary)
      requires Separate(players) && i < j < |players|
      modifies players[i].strategy, players[i].rng, players[j].strategy, players[j].rng
      ensures Progress(Agents(), matches + [summary]) ==
              Step(Settings(), Progress(old(Agents()), matches), Fixture(i, j, rep))
    {
      ghost var c := Settings();
      ghost var ag := Agents();
      var a := players[i];
      var b := players[j];
      var matchSeed := if seed.Some? then Some(seed.value + rep) else None;
      var m := new IteratedMatch(a, b, Some(payoffMatrix), noise, Some(nRounds), None, matchSeed, randomness, |matches|, 0);
      assert m.MatchSetup() == FixtureSetup(c, Fixture(i, j, rep), |matches|);
      ghost var fin := PlayOf(FixtureSetup(c, Fixture(i, j, rep), |matches|), ag[i], ag[j], 0);
      var outcome, _ := m.Play();
      forall k | 0 <= k < |players| && k != i && k != j
        ensures players[k].AgentNow() == ag[k]
      {
      }
      assert Agents() == ag[i := fin.a][j := fin.b];
      summary := MatchSummary(a.DisplayName(), b.DisplayName(), outcome);
    }

    /** One pass of the inner loop of `run()`: repetition `rep` of pair (i, j), then the rest of them. */
    method PlayRepetition(i: nat, j: nat, rep: nat, matches: seq<MatchSummary>) returns (all: seq<MatchSummary>)
      requires Separate(players) && i < j < |players| && rep < repetitions
      modifies players[i].strategy, players[i].rng, players[j].strategy, players[j].rng
      ensures ValidFixtures(Reps((i, j), repetitions), |players|)
      ensures |Agents()| == |players|
      ensures Exec(Settings(), Progress(Agents(), all), Reps((i, j), repetitions)[rep + 1..]) ==
              Exec(Settings(), Progress(old(Agents()), matches), Reps((i, j), repetitions)[rep..])
    {
      ghost var reps := Reps((i, j), repetitions);
      ExecFrom(Settings(), Progress(Agents(), matches), reps, rep);
      assert reps[rep] == Fixture(i, j, rep);
      var summary := PlayFixture(i, j, rep, matches);
      all := matches + [summary];
    }

    /** The inner loop of `run()`: the repetitions of pair (i, j), as `Exec` describes them. */
    method PlayPair(i: nat, j: nat, matches: seq<MatchSummary>) returns (all: seq<MatchSummary>)
      requires Separate(players) && i < j < |players|
      modifies Footprint()
      ensures ValidFixtures(Reps((i, j), repetitions), |players|)
      ensures Progress(Agents(), all) ==
              Exec(Settings(), Progress(old(Agents()), matches), Reps((i, j), repetitions))
    {
      ghost var c := Settings();
      ghost var reps := Reps((i, j), repetitions);
      ghost var init := Progress(Agents(), matches);
      all := matches;
      for rep := 0 to repetitions
        invariant |Agents()| == |players|
        invariant Exec(c, Progress(Agents(), all), reps[rep..]) == Exec(c, init, reps)
      {
        assert players[i].strategy in Footprint() && players[i].rng in Footprint();
        assert players[j].strategy in Footprint() && players[j].rng in Footprint();
        all := PlayRepetition(i, j, rep, all);
      }
    }

    /**
     * `run()`: the summaries and the players' new states are those of
     * playing the fixtures of `Schedule(Pairs(n), repetitions)` in order.
     */
    method Run() returns (results: TournamentResults)
      requires Separate(players)
      modifies Footprint()
      ensures ValidFixtures(Schedule(Pairs(|players|), repetitions), |players|)
      ensures Progress(Agents(), results.matches) ==
              Exec(Settings(), Progress(old(Agents()), []), Schedule(Pairs(|players|), repetitions))
    {
      var pairs := Pairs(|players|);
      ghost var c := Settings();
      ghost var init := Progress(Agents(), []);
      PairsValid(|players|);
      ScheduleValid(pairs, repetitions, |players|);
      var matches: seq<MatchSummary> := [];
      for p := 0 to |pairs|
        invariant |Agents()| == |players|
        invariant ValidFixtures(Schedule(pairs[p..], repetitions), |players|)
        invariant Exec(c, Progress(Agents(), matches), Schedule(pairs[p..], repetitions)) ==
                  Exec(c, init, Schedule(pairs, repetitions))
      {
        ghost var pr := Progress(Agents(), matches);
        assert pairs[p..][1..] == pairs[p + 1..];
        ScheduleValid(pairs[p + 1..], repetitions, |players|);
        ExecAppend(c, pr, Reps(pairs[p], repetitions), Schedule(pairs[p + 1..], repetitions));
        matches := PlayPair(pairs[p].0, pairs[p].1, matches);
      }
      assert pairs == pairs[..|pairs|];
      results := TournamentResults(matches);
    }
  }
}
