/**
 * Headline society-wide metrics computed from a baseline and a reformed
 * population simulation. Vectors are exact reals; the model has no NaN, so
 * the means that numpy would leave undefined (an empty vector, an empty
 * subgroup) are excluded by preconditions.
 */
module PopulationMetrics {
  import opened Simulation

  /** The variable names a country's results configuration supplies. */
  datatype ResultsConfig = ResultsConfig(
    netIncomeVariable: string,
    householdNetIncomeVariable: string,
    personVariable: string,
    inPovertyVariable: string,
    inDeepPovertyVariable: string)

  /** `.sum()` of a vector. */
  function Sum(s: seq<real>): real
  {
    if s == [] then 0.0 else s[0] + Sum(s[1..])
  }

  /** `.mean()` of a non-empty vector. */
  function Mean(s: seq<real>): real
    requires |s| > 0
  {
    Sum(s) / |s| as real
  }

  predicate Positive(x: real) { x > 0.0 }

  predicate Negative(x: real) { x < 0.0 }

  /** A vector holding only 0 and 1, such as a boolean poverty indicator. */
  predicate Indicator(s: seq<real>)
  {
    forall i :: 0 <= i < |s| ==> s[i] == 0.0 || s[i] == 1.0
  }

  /** `p(s).sum()`: how many entries of `s` satisfy `p`. */
  function CountWhere(s: seq<real>, p: real -> bool): (n: nat)
    ensures n <= |s|
    ensures n == 0 <==> forall i :: 0 <= i < |s| ==> !p(s[i])
  {
    if s == [] then 0
    else
      var rest := CountWhere(s[1..], p);
      assert forall i :: 1 <= i < |s| ==> s[i] == s[1..][i - 1];
      (if p(s[0]) then 1 else 0) + rest
  }

  /** `p(s).mean()`: the fraction of entries of a non-empty vector satisfying `p`. */
  function Share(s: seq<real>, p: real -> bool): (r: real)
    requires |s| > 0
    ensures 0.0 <= r <= 1.0
    ensures r == 0.0 <==> forall i :: 0 <= i < |s| ==> !p(s[i])
  {
    CountWhere(s, p) as real / |s| as real
  }

  /** `new_income - old_income`, the gain of each person. */
  function Gain(newIncome: seq<real>, oldIncome: seq<real>): seq<real>
    requires |newIncome| == |oldIncome|
  {
    seq(|newIncome|, i requires 0 <= i < |newIncome| => newIncome[i] - oldIncome[i])
  }

  /** `values[population > 0]`: the entries of the persons in the subgroup, in order. */
  function Masked(values: seq<real>, population: seq<real>): (r: seq<real>)
    requires |values| == |population|
    ensures |r| == CountWhere(population, Positive)
  {
    if values == [] then []
    else (if population[0] > 0.0 then [values[0]] else []) + Masked(values[1..], population[1..])
  }

  /** The subgroup is non-empty and the mask lines up with the values. */
  predicate SubgroupDefined(values: seq<real>, population: seq<real>)
  {
    |values| == |population| && exists i :: 0 <= i < |population| && population[i] > 0.0
  }

  /** The mean of `values` over the persons whose population value is positive. */
  function SubgroupMean(values: seq<real>, population: seq<real>): real
    requires SubgroupDefined(values, population)
  {
    Mean(Masked(values, population))
  }

  /** `poverty_rate`: the poverty indicator's mean over the subgroup. */
  function PovertyRate(sim: Microsim, population: string, config: ResultsConfig): (r: real)
    requires SubgroupDefined(sim.evaluate(config.inPovertyVariable, Person), sim.evaluate(population, Own))
    ensures Indicator(sim.evaluate(config.inPovertyVariable, Person)) ==> 0.0 <= r <= 1.0
  {
    var indicator := sim.evaluate(config.inPovertyVariable, Person);
    SubgroupRateBounds(indicator, sim.evaluate(population, Own));
    SubgroupMean(indicator, sim.evaluate(population, Own))
  }

  /** `deep_poverty_rate`: the deep-poverty indicator's mean over the subgroup. */
  function DeepPovertyRate(sim: Microsim, population: string, config: ResultsConfig): (r: real)
    requires SubgroupDefined(sim.evaluate(config.inDeepPovertyVariable, Person), sim.evaluate(population, Own))
    ensures Indicator(sim.evaluate(config.inDeepPovertyVariable, Person)) ==> 0.0 <= r <= 1.0
  {
    var indicator := sim.evaluate(config.inDeepPovertyVariable, Person);
    SubgroupRateBounds(indicator, sim.evaluate(population, Own));
    SubgroupMean(indicator, sim.evaluate(population, Own))
  }

  /** The four keys of the dictionary `headline_metrics` returns. */
  datatype Headline = Headline(
    budgetaryImpact: real,
    povertyChange: real,
    winnerShare: real,
    loserShare: real)

  /** Every mean `headline_metrics` takes is over a non-empty vector. */
  predicate HeadlineDefined(baseline: Microsim, reformed: Microsim, config: ResultsConfig)
  {
    && |reformed.evaluate(config.householdNetIncomeVariable, Person)| > 0
    && |reformed.evaluate(config.householdNetIncomeVariable, Person)|
       == |baseline.evaluate(config.householdNetIncomeVariable, Person)|
    && |baseline.evaluate(config.inPovertyVariable, Person)| > 0
    && |reformed.evaluate(config.inPovertyVariable, Person)| > 0
  }

  /** The gain of each person: household net income mapped to persons, reformed minus baseline. */
  function PersonGain(baseline: Microsim, reformed: Microsim, config: ResultsConfig): seq<real>
    requires HeadlineDefined(baseline, reformed, config)
  {
    Gain(reformed.evaluate(config.householdNetIncomeVariable, Person),
         baseline.evaluate(config.householdNetIncomeVariable, Person))
  }

  /**
   * `headline_metrics`. `pctChange` stands for `pct_change`, whose definition
   * is not part of this model; it receives the baseline mean first.
   */
  function HeadlineMetrics(baseline: Microsim, reformed: Microsim, config: ResultsConfig,
                           pctChange: (real, real) -> real): (h: Headline)
    requires HeadlineDefined(baseline, reformed, config)
    ensures 0.0 <= h.winnerShare <= 1.0 && 0.0 <= h.loserShare <= 1.0
    ensures h.winnerShare + h.loserShare <= 1.0
    ensures h.povertyChange == pctChange(Mean(baseline.evaluate(config.inPovertyVariable, Person)),
                                         Mean(reformed.evaluate(config.inPovertyVariable, Person)))
  {
    var gain := PersonGain(baseline, reformed, config);
    var netCost := Sum(reformed.evaluate(config.householdNetIncomeVariable, Own))
                   - Sum(baseline.evaluate(config.householdNetIncomeVariable, Own));
    var povertyChange := pctChange(Mean(baseline.evaluate(config.inPovertyVariable, Person)),
                                   Mean(reformed.evaluate(config.inPovertyVariable, Person)));
    SharesDisjoint(gain);
    Headline(netCost, povertyChange, Share(gain, Positive), Share(gain, Negative))
  }

  // ---------------------------------------------------------------------------
  // Properties
  // ---------------------------------------------------------------------------

  /** No entry is both positive and negative, so the two counts fit in the vector. */
  lemma {:induction false} CountsDisjoint(s: seq<real>)
    ensures CountWhere(s, Positive) + CountWhere(s, Negative) <= |s|
  {
    if s != [] {
      CountsDisjoint(s[1..]);
    }
  }

  /** Winners and losers together are at most the whole population. */
  lemma SharesDisjoint(s: seq<real>)
    requires |s| > 0
    ensures Share(s, Positive) + Share(s, Negative) <= 1.0
  {
    CountsDisjoint(s);
    var n := |s| as real;
    var a, b := CountWhere(s, Positive) as real, CountWhere(s, Negative) as real;
    assert Share(s, Positive) == a / n && Share(s, Negative) == b / n;
    DivideAtMostWhole(a + b, n);
    DivideSum(a, b, n);
  }

  lemma DivideSum(a: real, b: real, n: real)
    requires n > 0.0
    ensures a / n + b / n == (a + b) / n
  {
  }

  /** A part of a positive whole, divided by the whole, is at most 1. */
  lemma DivideAtMostWhole(x: real, n: real)
    requires 0.0 <= x <= n && n > 0.0
    ensures 0.0 <= x / n <= 1.0
  {
    assert x / n * n == x;
  }

  /** The tail of a gain vector is the gain of the tails. */
  lemma GainTail(a: seq<real>, b: seq<real>)
    requires |a| == |b| > 0
    ensures Gain(a, b)[1..] == Gain(a[1..], b[1..])
  {
  }

  /** Swapping baseline and reformed turns every winner into a loser and back. */
  lemma {:induction false} CountSwap(a: seq<real>, b: seq<real>)
    requires |a| == |b|
    ensures CountWhere(Gain(a, b), Positive) == CountWhere(Gain(b, a), Negative)
  {
    if a != [] {
      GainTail(a, b);
      GainTail(b, a);
      CountSwap(a[1..], b[1..]);
    }
  }

  /** The difference of two totals is the total of the pointwise differences. */
  lemma {:induction false} SumOfDifferences(a: seq<real>, b: seq<real>)
    requires |a| == |b|
    ensures Sum(Gain(a, b)) == Sum(a) - Sum(b)
  {
    if a != [] {
      GainTail(a, b);
      SumOfDifferences(a[1..], b[1..]);
    }
  }

  /** The sum of a 0/1 vector lies between 0 and its length. */
  lemma {:induction false} IndicatorSumBounds(s: seq<real>)
    requires Indicator(s)
    ensures 0.0 <= Sum(s) <= |s| as real
  {
    if s != [] {
      assert Indicator(s[1..]) by {
        forall i | 0 <= i < |s[1..]| ensures s[1..][i] == 0.0 || s[1..][i] == 1.0 {
          assert s[1..][i] == s[i + 1];
        }
      }
      IndicatorSumBounds(s[1..]);
    }
  }

  /** Masking keeps a 0/1 vector a 0/1 vector. */
  lemma {:induction false} MaskedIndicator(values: seq<real>, population: seq<real>)
    requires |values| == |population| && Indicator(values)
    ensures Indicator(Masked(values, population))
  {
    if values != [] {
      assert Indicator(values[1..]) by {
        forall i | 0 <= i < |values[1..]| ensures values[1..][i] == 0.0 || values[1..][i] == 1.0 {
          assert values[1..][i] == values[i + 1];
        }
      }
      MaskedIndicator(values[1..], population[1..]);
      var head: seq<real> := if population[0] > 0.0 then [values[0]] else [];
      var m := Masked(values, population);
      assert m == head + Masked(values[1..], population[1..]);
      forall i | 0 <= i < |m| ensures m[i] == 0.0 || m[i] == 1.0 {
        if i < |head| {
          assert m[i] == values[0];
        } else {
          assert m[i] == Masked(values[1..], population[1..])[i - |head|];
        }
      }
    }
  }

  /** For a 0/1 indicator over a non-empty subgroup, the rate lies in [0, 1]. */
  lemma SubgroupRateBounds(values: seq<real>, population: seq<real>)
    requires SubgroupDefined(values, population)
    ensures Indicator(values) ==> 0.0 <= SubgroupMean(values, population) <= 1.0
  {
    if Indicator(values) {
      var m := Masked(values, population);
      MaskedIndicator(values, population);
      IndicatorSumBounds(m);
      DivideAtMostWhole(Sum(m), |m| as real);
    }
  }

  /** Persons outside the subgroup do not affect which values are masked in. */
  lemma {:induction false} MaskedIgnoresOutsiders(values: seq<real>, others: seq<real>, population: seq<real>)
    requires |values| == |others| == |population|
    requires forall i :: 0 <= i < |population| && population[i] > 0.0 ==> values[i] == others[i]
    ensures Masked(values, population) == Masked(others, population)
  {
    if values != [] {
      MaskedIgnoresOutsiders(values[1..], others[1..], population[1..]);
    }
  }

  /**
   * A poverty rate depends only on the indicator of persons whose population
   * value is positive.
   */
  lemma SubgroupMeanIgnoresOutsiders(values: seq<real>, others: seq<real>, population: seq<real>)
    requires SubgroupDefined(values, population) && |others| == |values|
    requires forall i :: 0 <= i < |population| && population[i] > 0.0 ==> values[i] == others[i]
    ensures SubgroupMean(values, population) == SubgroupMean(others, population)
  {
    MaskedIgnoresOutsiders(values, others, population);
  }

  /** The budgetary impact is the sum over households of each household's change. */
  lemma BudgetaryImpactPerHousehold(baseline: Microsim, reformed: Microsim, config: ResultsConfig,
                                    pctChange: (real, real) -> real)
    requires HeadlineDefined(baseline, reformed, config)
    requires |reformed.evaluate(config.householdNetIncomeVariable, Own)|
             == |baseline.evaluate(config.householdNetIncomeVariable, Own)|
    ensures HeadlineMetrics(baseline, reformed, config, pctChange).budgetaryImpact
            == Sum(Gain(reformed.evaluate(config.householdNetIncomeVariable, Own),
                        baseline.evaluate(config.householdNetIncomeVariable, Own)))
  {
    SumOfDifferences(reformed.evaluate(config.householdNetIncomeVariable, Own),
                     baseline.evaluate(config.householdNetIncomeVariable, Own));
  }

  /** A reform that changes nothing has no winners, no losers and no cost. */
  lemma HeadlineOfIdentity(sim: Microsim, config: ResultsConfig, pctChange: (real, real) -> real)
    requires HeadlineDefined(sim, sim, config)
    ensures var h := HeadlineMetrics(sim, sim, config, pctChange);
      h.winnerShare == 0.0 && h.loserShare == 0.0 && h.budgetaryImpact == 0.0
  {
  }

  /**
   * Exchanging baseline and reformed exchanges winners with losers and negates
   * the budgetary impact.
   */
  lemma HeadlineSwap(baseline: Microsim, reformed: Microsim, config: ResultsConfig,
                     pctChange: (real, real) -> real)
    requires HeadlineDefined(baseline, reformed, config)
    ensures HeadlineDefined(reformed, baseline, config)
    ensures var h := HeadlineMetrics(baseline, reformed, config, pctChange);
      var s := HeadlineMetrics(reformed, baseline, config, pctChange);
      s.winnerShare == h.loserShare && s.loserShare == h.winnerShare
      && s.budgetaryImpact == -h.budgetaryImpact
  {
    var a := reformed.evaluate(config.householdNetIncomeVariable, Person);
    var b := baseline.evaluate(config.householdNetIncomeVariable, Person);
    CountSwap(a, b);
    CountSwap(b, a);
  }
}
