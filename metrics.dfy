/** `aggregate`: the averages over a list of match outcomes, both sides counted. */
module Metrics {
  import opened Sums
  import opened Game

  datatype AggregatedMetrics = AggregatedMetrics(meanPayoff: real, cooperationRate: real)

  /** A's and B's mean payoff of each outcome, added. */
  function PayoffTerms(outcomes: seq<MatchOutcome>): seq<real>
  {
    seq(|outcomes|, k requires 0 <= k < |outcomes| => outcomes[k].meanPayoffA + outcomes[k].meanPayoffB)
  }

  /** A's and B's cooperation rate of each outcome, added. */
  function RateTerms(outcomes: seq<MatchOutcome>): seq<real>
  {
    seq(|outcomes|, k requires 0 <= k < |outcomes| => outcomes[k].cooperationRateA + outcomes[k].cooperationRateB)
  }

  /**
   * `aggregate(outcomes)`: (0, 0) for no outcomes; otherwise the mean payoff
   * and the cooperation rate per side and match, i.e. the sums over 2n.
   */
  function Aggregate(outcomes: seq<MatchOutcome>): (r: AggregatedMetrics)
    ensures outcomes == [] ==> r == AggregatedMetrics(0.0, 0.0)
    ensures outcomes != [] ==> r.meanPayoff * (2 * |outcomes|) as real == Sum(PayoffTerms(outcomes))
    ensures outcomes != [] ==> r.cooperationRate * (2 * |outcomes|) as real == Sum(RateTerms(outcomes))
  {
    if outcomes == [] then AggregatedMetrics(0.0, 0.0)
    else
      var n := (2 * |outcomes|) as real;
      AggregatedMetrics(Sum(PayoffTerms(outcomes)) / n, Sum(RateTerms(outcomes)) / n)
  }

  /** If every cooperation rate lies in [0, 1], so does the aggregated one. */
  lemma AggregateRateBounded(outcomes: seq<MatchOutcome>)
    requires forall k :: 0 <= k < |outcomes| ==>
               0.0 <= outcomes[k].cooperationRateA <= 1.0 && 0.0 <= outcomes[k].cooperationRateB <= 1.0
    ensures 0.0 <= Aggregate(outcomes).cooperationRate <= 1.0
  {
    SumBounds(RateTerms(outcomes), 0.0, 2.0);
  }

  /** If every mean payoff lies in [lo, hi], so does the aggregated mean payoff of a non-empty list. */
  lemma AggregateMeanWithin(outcomes: seq<MatchOutcome>, lo: real, hi: real)
    requires outcomes != []
    requires forall k :: 0 <= k < |outcomes| ==>
               lo <= outcomes[k].meanPayoffA <= hi && lo <= outcomes[k].meanPayoffB <= hi
    ensures lo <= Aggregate(outcomes).meanPayoff <= hi
  {
    var terms := PayoffTerms(outcomes);
    SumBounds(terms, 2.0 * lo, 2.0 * hi);
    var n := (2 * |outcomes|) as real;
    assert |terms| as real * (2.0 * lo) == n * lo && |terms| as real * (2.0 * hi) == n * hi;
    QuotientBounds(Sum(terms), n, lo, hi);
  }

  /** A single outcome aggregates to the average of its two sides. */
  lemma AggregateSingle(o: MatchOutcome)
    ensures Aggregate([o]) == AggregatedMetrics((o.meanPayoffA + o.meanPayoffB) / 2.0,
                                                (o.cooperationRateA + o.cooperationRateB) / 2.0)
  {
    assert PayoffTerms([o]) == [o.meanPayoffA + o.meanPayoffB];
    assert RateTerms([o]) == [o.cooperationRateA + o.cooperationRateB];
    assert Sum([o.meanPayoffA + o.meanPayoffB]) == o.meanPayoffA + o.meanPayoffB;
    assert Sum([o.cooperationRateA + o.cooperationRateB]) == o.cooperationRateA + o.cooperationRateB;
  }
}
