/** What a round-robin run guarantees, proved on `Pairs`, `Schedule` and `Exec`. */
module TournamentLaws {
  import opened Protocol
  import opened Strategies
  import opened Players
  import opened Game
  import opened GameLaws
  import opened Tournament

  // ---- The pairs ----

  /** Lexicographic order on index pairs. */
  predicate Before(p: (nat, nat), q: (nat, nat))
  {
    p.0 < q.0 || (p.0 == q.0 && p.1 < q.1)
  }

  lemma {:induction false} PairsFromLength(i: nat, n: nat)
    requires i <= n
    ensures 2 * |PairsFrom(i, n)| == (n - i) * (n - i - 1)
    decreases n - i
  {
    if i < n {
      PairsFromLength(i + 1, n);
      var d := n - i - 1;
      assert (d + 1) * d == 2 * d + d * (d - 1);
    }
  }

  /** `combinations(range(n), 2)` has n (n - 1) / 2 pairs. */
  lemma PairsCount(n: nat)
    ensures 2 * |Pairs(n)| == n * (n - 1)
  {
    PairsFromLength(0, n);
  }

  lemma {:induction false} PairsFromSorted(i: nat, n: nat)
    ensures forall a, b :: 0 <= a < b < |PairsFrom(i, n)| ==> Before(PairsFrom(i, n)[a], PairsFrom(i, n)[b])
    decreases n - i
  {
    if i < n {
      PairsFromSorted(i + 1, n);
      PairsFromValid(i + 1, n);
      var block := seq(n - i - 1, k requires 0 <= k < n - i - 1 => (i, i + 1 + k));
      var rest := PairsFrom(i + 1, n);
      assert PairsFrom(i, n) == block + rest;
      forall a, b | 0 <= a < b < |block + rest|
        ensures Before((block + rest)[a], (block + rest)[b])
      {
        if b < |block| {
        } else if a < |block| {
          assert (block + rest)[b] == rest[b - |block|];
        } else {
          assert (block + rest)[a] == rest[a - |block|] && (block + rest)[b] == rest[b - |block|];
        }
      }
    }
  }

  /** The pairs come in strictly increasing lexicographic order, so none repeats. */
  lemma PairsSorted(n: nat)
    ensures forall a, b :: 0 <= a < b < |Pairs(n)| ==> Before(Pairs(n)[a], Pairs(n)[b])
  {
    PairsFromSorted(0, n);
  }

  lemma {:induction false} PairsFromComplete(i: nat, n: nat, a: nat, b: nat)
    requires i <= a < b < n
    ensures (a, b) in PairsFrom(i, n)
    decreases n - i
  {
    var block := seq(n - i - 1, k requires 0 <= k < n - i - 1 => (i, i + 1 + k));
    assert PairsFrom(i, n) == block + PairsFrom(i + 1, n);
    if a == i {
      assert block[b - i - 1] == (a, b);
    } else {
      PairsFromComplete(i + 1, n, a, b);
    }
  }

  /** Every pair a < b < n is played: no pair is missed. */
  lemma PairsComplete(n: nat, a: nat, b: nat)
    requires a < b < n
    ensures (a, b) in Pairs(n)
  {
    PairsFromComplete(0, n, a, b);
  }

  // ---- The summaries ----

  /**
   * Running a schedule appends one summary per fixture, in schedule order,
   * each recording the two players' display names, A's first.
   */
  /** One fixture keeps the roster's size and appends one summary, naming the fixture's players. */
  lemma StepShape(c: Config, pr: Progress, f: Fixture)
    requires Fits(c, |pr.agents|) && f.i < f.j < |pr.agents|
    ensures |Step(c, pr, f).agents| == |pr.agents| && |Step(c, pr, f).matches| == |pr.matches| + 1
    ensures Step(c, pr, f).matches[..|pr.matches|] == pr.matches
    ensures Step(c, pr, f).matches[|pr.matches|].playerA == c.names[f.i]
    ensures Step(c, pr, f).matches[|pr.matches|].playerB == c.names[f.j]
  {
  }

  lemma {:induction false} ExecSummaries(c: Config, pr: Progress, sched: seq<Fixture>)
    requires Fits(c, |pr.agents|) && ValidFixtures(sched, |pr.agents|)
    ensures |Exec(c, pr, sched).agents| == |pr.agents|
    ensures |Exec(c, pr, sched).matches| == |pr.matches| + |sched|
    ensures Exec(c, pr, sched).matches[..|pr.matches|] == pr.matches
    ensures forall t :: 0 <= t < |sched| ==>
              Exec(c, pr, sched).matches[|pr.matches| + t].playerA == c.names[sched[t].i] &&
              Exec(c, pr, sched).matches[|pr.matches| + t].playerB == c.names[sched[t].j]
    decreases |sched|
  {
    if sched != [] {
      var pr' := Step(c, pr, sched[0]);
      StepShape(c, pr, sched[0]);
      ExecSummaries(c, pr', sched[1..]);
      var ms := Exec(c, pr, sched).matches;
      assert ms[..|pr'.matches|][..|pr.matches|] == ms[..|pr.matches|];
      forall t | 0 <= t < |sched|
        ensures ms[|pr.matches| + t].playerA == c.names[sched[t].i]
        ensures ms[|pr.matches| + t].playerB == c.names[sched[t].j]
      {
        if t == 0 {
          assert ms[|pr.matches|] == ms[..|pr'.matches|][|pr.matches|];
        } else {
          assert sched[1..][t - 1] == sched[t];
        }
      }
    }
  }

  /** A tournament of n players and R repetitions produces n (n - 1) / 2 * R summaries. */
  lemma RunCount(c: Config, agents: seq<Agent>, repetitions: nat)
    requires Fits(c, |agents|)
    ensures ValidFixtures(Schedule(Pairs(|agents|), repetitions), |agents|)
    ensures 2 * |Exec(c, Progress(agents, []), Schedule(Pairs(|agents|), repetitions)).matches| ==
            |agents| * (|agents| - 1) * repetitions
  {
    var n := |agents|;
    PairsValid(n);
    ScheduleValid(Pairs(n), repetitions, n);
    ScheduleLength(Pairs(n), repetitions);
    PairsCount(n);
    ExecSummaries(c, Progress(agents, []), Schedule(Pairs(n), repetitions));
    CountArithmetic(|Exec(c, Progress(agents, []), Schedule(Pairs(n), repetitions)).matches|,
                    |Pairs(n)|, n, repetitions);
  }

  lemma CountArithmetic(m: nat, pairs: nat, n: nat, repetitions: nat)
    requires m == pairs * repetitions && 2 * pairs == n * (n - 1)
    ensures 2 * m == n * (n - 1) * repetitions
  {
    assert 2 * (pairs * repetitions) == (2 * pairs) * repetitions;
  }

  /**
   * Summary p * R + rep is repetition `rep` of the p-th pair (a, b) of
   * `combinations`: it names player a first and player b second.
   */
  lemma RunOrder(c: Config, agents: seq<Agent>, repetitions: nat, p: nat, rep: nat)
    requires Fits(c, |agents|) && p < |Pairs(|agents|)| && rep < repetitions
    ensures ValidFixtures(Schedule(Pairs(|agents|), repetitions), |agents|)
    ensures var ms := Exec(c, Progress(agents, []), Schedule(Pairs(|agents|), repetitions)).matches;
      var (a, b) := Pairs(|agents|)[p];
      p * repetitions + rep < |ms| && a < b < |agents| &&
      ms[p * repetitions + rep].playerA == c.names[a] && ms[p * repetitions + rep].playerB == c.names[b]
  {
    var n := |agents|;
    var sched := Schedule(Pairs(n), repetitions);
    PairsValid(n);
    ScheduleValid(Pairs(n), repetitions, n);
    ScheduleAt(Pairs(n), repetitions, p, rep);
    ExecNamesAt(c, agents, sched, p * repetitions + rep);
  }

  /** Summary t of a run from no summaries names the players of fixture t. */
  lemma ExecNamesAt(c: Config, agents: seq<Agent>, sched: seq<Fixture>, t: nat)
    requires Fits(c, |agents|) && ValidFixtures(sched, |agents|) && t < |sched|
    ensures t < |Exec(c, Progress(agents, []), sched).matches|
    ensures Exec(c, Progress(agents, []), sched).matches[t].playerA == c.names[sched[t].i]
    ensures Exec(c, Progress(agents, []), sched).matches[t].playerB == c.names[sched[t].j]
  {
    ExecSummaries(c, Progress(agents, []), sched);
    assert |Progress(agents, []).matches| + t == t;
  }

  // ---- The outcomes ----

  /** A summary whose means lie within the table and whose cooperation rates lie in [0, 1]. */
  predicate Bounded(payoffs: PayoffMatrix, s: MatchSummary)
  {
    && payoffs.Lowest() <= s.outcome.meanPayoffA <= payoffs.Highest()
    && payoffs.Lowest() <= s.outcome.meanPayoffB <= payoffs.Highest()
    && 0.0 <= s.outcome.cooperationRateA <= 1.0 && 0.0 <= s.outcome.cooperationRateB <= 1.0
  }

  /**
   * With `n_rounds >= 1` every match of the tournament plays on the
   * tournament's table: each summary's means lie within that table.
   */
  lemma {:induction false} ExecBounded(c: Config, pr: Progress, sched: seq<Fixture>)
    requires Fits(c, |pr.agents|) && ValidFixtures(sched, |pr.agents|) && c.nRounds >= 1
    requires forall k :: 0 <= k < |pr.matches| ==> Bounded(c.payoffs, pr.matches[k])
    ensures forall k :: 0 <= k < |Exec(c, pr, sched).matches| ==> Bounded(c.payoffs, Exec(c, pr, sched).matches[k])
    decreases |sched|
  {
    if sched != [] {
      var f := sched[0];
      var s := FixtureSetup(c, f, |pr.matches|);
      PlayFixedRounds(s, pr.agents[f.i], pr.agents[f.j], 0);
      PlayMeansWithinTable(s, pr.agents[f.i], pr.agents[f.j], 0);
      ExecBounded(c, Step(c, pr, f), sched[1..]);
    }
  }

  // ---- Reproducibility ----

  predicate AllWellFormed(c: Config, agents: seq<Agent>)
    requires |c.kinds| == |agents|
  {
    forall k :: 0 <= k < |agents| ==> WellFormed(c.kinds[k], agents[k].state)
  }

  /**
   * A seeded tournament of seeded players is reproducible: running the same
   * schedule again, whatever state the previous run left the players in,
   * gives the same summaries.
   */
  lemma {:induction false} SeededRunReplays(c: Config, pr1: Progress, pr2: Progress, sched: seq<Fixture>)
    requires c.seed.Some? && forall k :: 0 <= k < |c.seeded| ==> c.seeded[k]
    requires Fits(c, |pr1.agents|) && |pr2.agents| == |pr1.agents| && ValidFixtures(sched, |pr1.agents|)
    requires AllWellFormed(c, pr1.agents) && AllWellFormed(c, pr2.agents)
    requires pr1.matches == pr2.matches
    ensures Exec(c, pr1, sched).matches == Exec(c, pr2, sched).matches
    decreases |sched|
  {
    if sched != [] {
      var f := sched[0];
      var s := FixtureSetup(c, f, |pr1.matches|);
      SeededPlayersReplay(s, pr1.agents[f.i], pr1.agents[f.j], pr2.agents[f.i], pr2.agents[f.j], 0);
      PlayWellFormed(s, pr1.agents[f.i], pr1.agents[f.j], 0);
      PlayWellFormed(s, pr2.agents[f.i], pr2.agents[f.j], 0);
      SeededRunReplays(c, Step(c, pr1, f), Step(c, pr2, f), sched[1..]);
    }
  }

  // ---- The leaderboard ----

  lemma {:induction false} NamesMembers(ms: seq<MatchSummary>, x: string)
    ensures x in Names(ms) <==> exists t :: 0 <= t < |ms| && (ms[t].playerA == x || ms[t].playerB == x)
  {
    if ms != [] {
      var init := ms[..|ms| - 1];
      NamesMembers(init, x);
      if x in Names(init) {
        var t :| 0 <= t < |init| && (init[t].playerA == x || init[t].playerB == x);
        assert ms[t] == init[t];
      }
      if exists t :: 0 <= t < |ms| && (ms[t].playerA == x || ms[t].playerB == x) {
        var t :| 0 <= t < |ms| && (ms[t].playerA == x || ms[t].playerB == x);
        if t < |init| {
          assert init[t] == ms[t];
        }
      }
    }
  }

  /** A sequence of summaries of the fixtures of `sched`. */
  ghost predicate Summarises(c: Config, sched: seq<Fixture>, ms: seq<MatchSummary>)
  {
    && |ms| == |sched|
    && (forall t :: 0 <= t < |sched| ==> sched[t].i < |c.names| && sched[t].j < |c.names|)
    && (forall t :: 0 <= t < |sched| ==>
          ms[t].playerA == c.names[sched[t].i] && ms[t].playerB == c.names[sched[t].j])
  }

  lemma NamesWithinPlayers(c: Config, sched: seq<Fixture>, ms: seq<MatchSummary>, x: string)
    requires Summarises(c, sched, ms) && x in Names(ms)
    ensures exists k :: 0 <= k < |c.names| && c.names[k] == x
  {
    NamesMembers(ms, x);
    var t :| 0 <= t < |ms| && (ms[t].playerA == x || ms[t].playerB == x);
    if ms[t].playerA == x {
      assert c.names[sched[t].i] == x;
    } else {
      assert c.names[sched[t].j] == x;
    }
  }

  lemma PlayerNamed(c: Config, repetitions: nat, ms: seq<MatchSummary>, k: nat)
    requires |c.names| >= 2 && repetitions >= 1 && k < |c.names|
    requires Summarises(c, Schedule(Pairs(|c.names|), repetitions), ms)
    ensures c.names[k] in Names(ms)
  {
    var n := |c.names|;
    var pairs := Pairs(n);
    var b := if k == 0 then 1 else k;
    PairsComplete(n, 0, b);
    var p :| 0 <= p < |pairs| && pairs[p] == (0, b);
    ScheduleAt(pairs, repetitions, p, 0);
    var t := p * repetitions;
    assert ms[t].playerA == c.names[0] && ms[t].playerB == c.names[b];
    NamesMembers(ms, c.names[k]);
  }

  lemma ExecSummarises(c: Config, agents: seq<Agent>, sched: seq<Fixture>)
    requires Fits(c, |agents|) && ValidFixtures(sched, |agents|)
    ensures Summarises(c, sched, Exec(c, Progress(agents, []), sched).matches)
  {
    ExecSummaries(c, Progress(agents, []), sched);
    var ms := Exec(c, Progress(agents, []), sched).matches;
    forall t | 0 <= t < |sched|
      ensures ms[t].playerA == c.names[sched[t].i] && ms[t].playerB == c.names[sched[t].j]
    {
      assert ms[0 + t] == ms[t];
    }
  }

  /**
   * With at least two players and one repetition, the names on the
   * leaderboard are exactly the players' display names.
   */
  lemma RunNamesEveryPlayer(c: Config, agents: seq<Agent>, repetitions: nat)
    requires Fits(c, |agents|) && |agents| >= 2 && repetitions >= 1
    ensures ValidFixtures(Schedule(Pairs(|agents|), repetitions), |agents|)
    ensures Names(Exec(c, Progress(agents, []), Schedule(Pairs(|agents|), repetitions)).matches) ==
            set k | 0 <= k < |agents| :: c.names[k]
  {
    var n := |agents|;
    var sched := Schedule(Pairs(n), repetitions);
    PairsValid(n);
    ScheduleValid(Pairs(n), repetitions, n);
    ExecSummarises(c, agents, sched);
    var ms := Exec(c, Progress(agents, []), sched).matches;
    forall x | x in Names(ms)
      ensures x in set k | 0 <= k < n :: c.names[k]
    {
      NamesWithinPlayers(c, sched, ms, x);
    }
    forall k | 0 <= k < n
      ensures c.names[k] in Names(ms)
    {
      PlayerNamed(c, repetitions, ms, k);
    }
  }
}
