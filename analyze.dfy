/** `cooperation_histogram`: how the cooperation of all matches splits between seat A and seat B. */
module Analysis {
  import opened Sums
  import opened Game

  /** A's cooperation rate of each outcome. */
  function RatesA(outcomes: seq<MatchOutcome>): seq<real>
  {
    seq(|outcomes|, k requires 0 <= k < |outcomes| => outcomes[k].cooperationRateA)
  }

  /** B's cooperation rate of each outcome. */
  function RatesB(outcomes: seq<MatchOutcome>): seq<real>
  {
    seq(|outcomes|, k requires 0 <= k < |outcomes| => outcomes[k].cooperationRateB)
  }

  /**
   * `cooperation_histogram(outcomes)`: keys "A" and "B"; both 0 when the
   * summed rates total 0, otherwise each seat's summed rate over the total,
   * which makes the two values sum to 1.
   */
  method CooperationHistogram(outcomes: seq<MatchOutcome>) returns (h: map<string, real>)
    ensures h.Keys == {"A", "B"}
    ensures var total := Sum(RatesA(outcomes)) + Sum(RatesB(outcomes));
      && (total == 0.0 ==> h["A"] == 0.0 && h["B"] == 0.0)
      && (total != 0.0 ==> h["A"] == Sum(RatesA(outcomes)) / total && h["B"] == Sum(RatesB(outcomes)) / total)
      && (total != 0.0 ==> h["A"] + h["B"] == 1.0)
  {
    var counter := map["A" := 0.0, "B" := 0.0];
    for k := 0 to |outcomes|
      invariant counter == map["A" := Sum(RatesA(outcomes[..k])), "B" := Sum(RatesB(outcomes[..k]))]
    {
      assert RatesA(outcomes[..k + 1]) == RatesA(outcomes[..k]) + [outcomes[k].cooperationRateA];
      assert RatesB(outcomes[..k + 1]) == RatesB(outcomes[..k]) + [outcomes[k].cooperationRateB];
      SumAppend(RatesA(outcomes[..k]), outcomes[k].cooperationRateA);
      SumAppend(RatesB(outcomes[..k]), outcomes[k].cooperationRateB);
      counter := counter["A" := counter["A"] + outcomes[k].cooperationRateA];
      counter := counter["B" := counter["B"] + outcomes[k].cooperationRateB];
    }
    assert outcomes[..|outcomes|] == outcomes;
    var total := counter["A"] + counter["B"];
    if total == 0.0 {
      return map["A" := 0.0, "B" := 0.0];
    }
    h := map["A" := counter["A"] / total, "B" := counter["B"] / total];
    assert h["A"] + h["B"] == (counter["A"] + counter["B"]) / total;
  }

  /** With every rate in [0, 1] the total is 0 only when all rates are 0, and each share lies in [0, 1]. */
  lemma HistogramSharesBounded(outcomes: seq<MatchOutcome>)
    requires forall k :: 0 <= k < |outcomes| ==>
               0.0 <= outcomes[k].cooperationRateA <= 1.0 && 0.0 <= outcomes[k].cooperationRateB <= 1.0
    ensures var sa, sb := Sum(RatesA(outcomes)), Sum(RatesB(outcomes));
      0.0 <= sa && 0.0 <= sb && (sa + sb != 0.0 ==> 0.0 <= sa / (sa + sb) <= 1.0 && 0.0 <= sb / (sa + sb) <= 1.0)
  {
    SumBounds(RatesA(outcomes), 0.0, 1.0);
    SumBounds(RatesB(outcomes), 0.0, 1.0);
    var sa, sb := Sum(RatesA(outcomes)), Sum(RatesB(outcomes));
    if sa + sb != 0.0 {
      QuotientBounds(sa, sa + sb, 0.0, 1.0);
      QuotientBounds(sb, sa + sb, 0.0, 1.0);
    }
  }
}
