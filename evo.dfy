/**
 * `replicator_step`: one discrete replicator step. A population is a dict
 * from names to proportions; it is modelled as its items in insertion order,
 * since the result keeps the population's key order.
 */
module Evolution {
  import opened Sums

  type Population = seq<(string, real)>

  /** The items of a dict: no name occurs twice. */
  predicate IsDict(pop: Population)
  {
    forall a, b :: 0 <= a < b < |pop| ==> pop[a].0 != pop[b].0
  }

  /** The names in order. */
  function Keys(pop: Population): seq<string>
  {
    seq(|pop|, k requires 0 <= k < |pop| => pop[k].0)
  }

  /** The proportions in order. */
  function Values(pop: Population): seq<real>
  {
    seq(|pop|, k requires 0 <= k < |pop| => pop[k].1)
  }

  /** `fitness.get(name, 0.0)`: a name without a fitness entry is unfit. */
  function FitnessOf(fitness: map<string, real>, name: string): (r: real)
    ensures name !in fitness ==> r == 0.0
    ensures name in fitness ==> r == fitness[name]
  {
    if name in fitness then fitness[name] else 0.0
  }

  /** Each name's proportion times its fitness. */
  function Weights(pop: Population, fitness: map<string, real>): seq<real>
  {
    seq(|pop|, k requires 0 <= k < |pop| => pop[k].1 * FitnessOf(fitness, pop[k].0))
  }

  /** `total_fitness`: the population's mean fitness. */
  function TotalFitness(pop: Population, fitness: map<string, real>): real
  {
    Sum(Weights(pop, fitness))
  }

  /**
   * The population after the step: unchanged when the total fitness is 0,
   * otherwise each name's weight over the total, in the same key order.
   */
  function NextPopulation(pop: Population, fitness: map<string, real>): (r: Population)
    ensures Keys(r) == Keys(pop)
    ensures TotalFitness(pop, fitness) != 0.0 ==>
              forall k :: 0 <= k < |r| ==> r[k].1 * TotalFitness(pop, fitness) == Weights(pop, fitness)[k]
  {
    var total := TotalFitness(pop, fitness);
    if total == 0.0 then pop
    else seq(|pop|, k requires 0 <= k < |pop| => (pop[k].0, Weights(pop, fitness)[k] / total))
  }

  /** `replicator_step(population, fitness)`: the loop filling `next_population`. */
  method ReplicatorStep(pop: Population, fitness: map<string, real>) returns (next: Population)
    ensures next == NextPopulation(pop, fitness)
  {
    var total := TotalFitness(pop, fitness);
    if total == 0.0 {
      return pop;
    }
    ghost var target := NextPopulation(pop, fitness);
    next := [];
    for k := 0 to |pop|
      invariant next == target[..k]
    {
      var (name, proportion) := pop[k];
      var fit := FitnessOf(fitness, name);
      assert Weights(pop, fitness)[k] == proportion * fit;
      assert target[k] == (name, proportion * fit / total);
      assert target[..k + 1] == target[..k] + [target[k]];
      next := next + [(name, proportion * fit / total)];
    }
    assert target[..|pop|] == target;
  }

  /** The step keeps exactly the population's names, in order, and so keeps a dict a dict. */
  lemma ReplicatorKeepsKeys(pop: Population, fitness: map<string, real>)
    ensures Keys(NextPopulation(pop, fitness)) == Keys(pop)
    ensures IsDict(pop) ==> IsDict(NextPopulation(pop, fitness))
  {
    var r := NextPopulation(pop, fitness);
    assert forall k :: 0 <= k < |pop| ==> r[k].0 == pop[k].0;
  }

  /** With total fitness 0 the population is returned as it is. */
  lemma ReplicatorZeroTotal(pop: Population, fitness: map<string, real>)
    requires TotalFitness(pop, fitness) == 0.0
    ensures NextPopulation(pop, fitness) == pop
  {
  }

  /** A name missing from the fitness table gets share 0 (when the total is not 0). */
  lemma ReplicatorMissingFitness(pop: Population, fitness: map<string, real>, k: nat)
    requires k < |pop| && pop[k].0 !in fitness && TotalFitness(pop, fitness) != 0.0
    ensures NextPopulation(pop, fitness)[k].1 == 0.0
  {
  }

  /** With a total fitness other than 0 the new shares sum to 1. */
  lemma ReplicatorSharesSumToOne(pop: Population, fitness: map<string, real>)
    requires TotalFitness(pop, fitness) != 0.0
    ensures Sum(Values(NextPopulation(pop, fitness))) == 1.0
  {
    var total := TotalFitness(pop, fitness);
    assert Values(NextPopulation(pop, fitness)) == Divided(Weights(pop, fitness), total);
    SumDivided(Weights(pop, fitness), total);
  }

  /**
   * With a positive total, of two names holding the same positive proportion
   * the fitter one gets the strictly larger share.
   */
  lemma ReplicatorFavoursFitter(pop: Population, fitness: map<string, real>, a: nat, b: nat)
    requires a < |pop| && b < |pop| && TotalFitness(pop, fitness) > 0.0
    requires pop[a].1 == pop[b].1 > 0.0
    requires FitnessOf(fitness, pop[a].0) > FitnessOf(fitness, pop[b].0)
    ensures NextPopulation(pop, fitness)[a].1 > NextPopulation(pop, fitness)[b].1
  {
    var total := TotalFitness(pop, fitness);
    var wa := pop[a].1 * FitnessOf(fitness, pop[a].0);
    var wb := pop[b].1 * FitnessOf(fitness, pop[b].0);
    assert wa > wb;
    assert wa / total > wb / total;
  }
}
