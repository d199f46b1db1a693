/** The two per-group aggregations of the data table: `calculate_linechart_stats`
    (counts summed, rates averaged with population weights) and `calculate_map_stats`
    (plain sums), over exact reals. */
module Aggregation {
  import opened Wrappers
  import opened Seqs

  /** The numeric columns of a row of the table, raw or aggregated. The three rates may
      be missing: NaN in the data, or undefined for a group with no population. */
  datatype Measures = Measures(
    population: real,
    newCases: real,
    newCasesSmoothed: real,
    newDeaths: real,
    newDeathsSmoothed: real,
    casesPerMillion: Option<real>,    // new_cases_smoothed_per_million
    deathsPerMillion: Option<real>,   // new_deaths_smoothed_per_million
    positiveRate: Option<real>)

  datatype Count = Population | NewCases | NewCasesSmoothed | NewDeaths | NewDeathsSmoothed

  datatype Rate = CasesPerMillion | DeathsPerMillion | PositiveRate

  /** A quantity that is added up over a group: a count, a rate weighted by population
      (`rate * population`), or a rate on its own. */
  datatype Column = CountOf(count: Count) | WeightedRate(weighted: Rate) | RateValue(rate: Rate)

  function CountValue(m: Measures, c: Count): real {
    match c
    case Population => m.population
    case NewCases => m.newCases
    case NewCasesSmoothed => m.newCasesSmoothed
    case NewDeaths => m.newDeaths
    case NewDeathsSmoothed => m.newDeathsSmoothed
  }

  function RateOf(m: Measures, r: Rate): Option<real> {
    match r
    case CasesPerMillion => m.casesPerMillion
    case DeathsPerMillion => m.deathsPerMillion
    case PositiveRate => m.positiveRate
  }

  /** What one row adds to a column's sum. A missing rate adds nothing, as pandas'
      `sum` skips NaN; its row's population still counts in the denominator. */
  function Contribution(col: Column, m: Measures): real {
    match col
    case CountOf(c) => CountValue(m, c)
    case WeightedRate(r) => (match RateOf(m, r) case Some(x) => x * m.population case None => 0.0)
    case RateValue(r) => RateOf(m, r).GetOr(0.0)
  }

  /** The sum of a column over a group (pandas `Series.sum`). */
  function Total(g: seq<Measures>, col: Column): real
    decreases |g|
  {
    if g == [] then 0.0 else Contribution(col, g[0]) + Total(g[1..], col)
  }

  /** `sum(rate * population) / sum(population)`; undefined when the group has no population. */
  function WeightedAverage(g: seq<Measures>, r: Rate): Option<real> {
    var pop := Total(g, CountOf(Population));
    if pop == 0.0 then None else Some(Total(g, WeightedRate(r)) / pop)
  }

  /** The average is defined exactly when there is population, and then it times the
      total population is the weighted sum: `rate * sum(pop) == sum(rate_i * pop_i)`. */
  lemma WeightedAverageScales(g: seq<Measures>, r: Rate)
    ensures WeightedAverage(g, r).Some? <==> Total(g, CountOf(Population)) != 0.0
    ensures WeightedAverage(g, r).Some? ==>
              WeightedAverage(g, r).value * Total(g, CountOf(Population)) == Total(g, WeightedRate(r))
  {
  }

  /** `calculate_linechart_stats`: one aggregated row for a group of rows. */
  function LinechartStats(g: seq<Measures>): Measures {
    Measures(
      Total(g, CountOf(Population)),
      Total(g, CountOf(NewCases)),
      Total(g, CountOf(NewCasesSmoothed)),
      Total(g, CountOf(NewDeaths)),
      Total(g, CountOf(NewDeathsSmoothed)),
      WeightedAverage(g, CasesPerMillion),
      WeightedAverage(g, DeathsPerMillion),
      WeightedAverage(g, PositiveRate))
  }

  /** One row of the country snapshot: cumulative totals of the smoothed daily values. */
  datatype Snapshot = Snapshot(
    totalCasesSmoothed: real,
    totalDeathsSmoothed: real,
    totalCasesSmoothedPerMillion: real,
    totalDeathsSmoothedPerMillion: real)

  /** `calculate_map_stats`: plain sums, the per-million columns included. */
  function MapStats(g: seq<Measures>): Snapshot {
    Snapshot(
      Total(g, CountOf(NewCasesSmoothed)),
      Total(g, CountOf(NewDeathsSmoothed)),
      Total(g, RateValue(CasesPerMillion)),
      Total(g, RateValue(DeathsPerMillion)))
  }

  ghost predicate NonNegativePopulation(g: seq<Measures>) {
    forall i :: 0 <= i < |g| ==> g[i].population >= 0.0
  }

  // ---------------------------------------------------------------------------
  // Sums

  lemma {:induction false} TotalAppend(a: seq<Measures>, b: seq<Measures>, col: Column)
    ensures Total(a + b, col) == Total(a, col) + Total(b, col)
    decreases |a|
  {
    if a == [] {
      assert a + b == b;
    } else {
      assert (a + b)[1..] == a[1..] + b;
      TotalAppend(a[1..], b, col);
    }
  }

  /** A sum does not depend on the order of the rows. */
  lemma {:induction false} TotalPermutation(a: seq<Measures>, b: seq<Measures>, col: Column)
    requires multiset(a) == multiset(b)
    ensures Total(a, col) == Total(b, col)
    decreases |a|
  {
    if a == [] {
      assert |b| == |multiset(b)| == 0;
    } else {
      assert a[0] in multiset(b);
      var i :| 0 <= i < |b| && b[i] == a[0];
      var rest := b[..i] + b[i + 1..];
      RemoveOne(a, b, i);
      TotalPermutation(a[1..], rest, col);
      TotalRemove(b, i, col);
    }
  }

  /** Taking the same element out of two permutations of each other leaves permutations. */
  lemma RemoveOne(a: seq<Measures>, b: seq<Measures>, i: int)
    requires multiset(a) == multiset(b) && a != [] && 0 <= i < |b| && b[i] == a[0]
    ensures multiset(a[1..]) == multiset(b[..i] + b[i + 1..])
  {
    var x := a[0];
    var rest := b[..i] + b[i + 1..];
    assert b == b[..i] + [x] + b[i + 1..];
    assert a == [x] + a[1..];
    assert multiset(b) == multiset(b[..i]) + multiset{x} + multiset(b[i + 1..]);
    assert multiset(a) == multiset{x} + multiset(a[1..]);
    assert multiset(rest) == multiset(b[..i]) + multiset(b[i + 1..]);
    forall y
      ensures multiset(a[1..])[y] == multiset(rest)[y]
    {
      assert multiset(a)[y] == multiset{x}[y] + multiset(a[1..])[y];
      assert multiset(b)[y] == multiset(b[..i])[y] + multiset{x}[y] + multiset(b[i + 1..])[y];
    }
  }

  /** A column sum is one row's contribution plus the sum over the other rows. */
  lemma TotalRemove(b: seq<Measures>, i: int, col: Column)
    requires 0 <= i < |b|
    ensures Total(b, col) == Contribution(col, b[i]) + Total(b[..i] + b[i + 1..], col)
  {
    assert b == b[..i] + [b[i]] + b[i + 1..];
    TotalAppend(b[..i], b[i + 1..], col);
    TotalAppend(b[..i] + [b[i]], b[i + 1..], col);
    TotalAppend(b[..i], [b[i]], col);
  }


  lemma {:induction false} PopulationTotalNonNegative(g: seq<Measures>)
    requires NonNegativePopulation(g)
    ensures Total(g, CountOf(Population)) >= 0.0
    decreases |g|
  {
    if g != [] {
      PopulationTotalNonNegative(g[1..]);
    }
  }

  /** A group without population carries no weighted rate either. */
  lemma {:induction false} NoPopulationNoWeight(g: seq<Measures>, r: Rate)
    requires NonNegativePopulation(g)
    requires Total(g, CountOf(Population)) == 0.0
    ensures Total(g, WeightedRate(r)) == 0.0
    decreases |g|
  {
    if g != [] {
      PopulationTotalNonNegative(g[1..]);
      assert g[0].population == 0.0;
      NoPopulationNoWeight(g[1..], r);
    }
  }

  // ---------------------------------------------------------------------------
  // Properties of the aggregated row

  /** The aggregated row adds to every count and every weighted rate exactly what its
      group adds: `rate * totalPopulation == sum(rate_i * population_i)`. This is what
      makes a second aggregation over aggregated rows agree with a direct one. */
  lemma AggregateKeepsContribution(g: seq<Measures>, col: Column)
    requires NonNegativePopulation(g)
    requires !col.RateValue?
    ensures Contribution(col, LinechartStats(g)) == Total(g, col)
  {
    match col
    case CountOf(c) => CountKept(g, c);
    case WeightedRate(r) => WeightKept(g, r);
  }

  lemma CountKept(g: seq<Measures>, c: Count)
    ensures CountValue(LinechartStats(g), c) == Total(g, CountOf(c))
  {
    match c
    case Population =>
    case NewCases =>
    case NewCasesSmoothed =>
    case NewDeaths =>
    case NewDeathsSmoothed =>
  }

  lemma WeightKept(g: seq<Measures>, r: Rate)
    requires NonNegativePopulation(g)
    ensures Contribution(WeightedRate(r), LinechartStats(g)) == Total(g, WeightedRate(r))
  {
    var stats := LinechartStats(g);
    var avg := WeightedAverage(g, r);
    assert stats.population == Total(g, CountOf(Population));
    assert RateOf(stats, r) == avg by {
      match r
      case CasesPerMillion =>
      case DeathsPerMillion =>
      case PositiveRate =>
    }
    WeightedAverageScales(g, r);
    if avg.None? {
      NoPopulationNoWeight(g, r);
    }
  }

  /** Two groups with the same sums have the same aggregated row. */
  lemma SameTotalsSameStats(g: seq<Measures>, h: seq<Measures>)
    requires forall col: Column :: !col.RateValue? ==> Total(g, col) == Total(h, col)
    ensures LinechartStats(g) == LinechartStats(h)
  {
  }

  /** Reordering the rows of a group does not change its aggregated row. */
  lemma StatsIgnoreOrder(g: seq<Measures>, h: seq<Measures>)
    requires multiset(g) == multiset(h)
    ensures LinechartStats(g) == LinechartStats(h)
    ensures MapStats(g) == MapStats(h)
  {
    forall col: Column
      ensures Total(g, col) == Total(h, col)
    {
      TotalPermutation(g, h, col);
    }
    SameTotalsSameStats(g, h);
  }

  lemma {:induction false} WeightOfUniformRate(g: seq<Measures>, r: Rate, x: real)
    requires forall i :: 0 <= i < |g| ==> RateOf(g[i], r) == Some(x)
    ensures Total(g, WeightedRate(r)) == x * Total(g, CountOf(Population))
    decreases |g|
  {
    if g != [] {
      WeightOfUniformRate(g[1..], r, x);
    }
  }

  /** When every row has the same rate, the weighted average is that rate. */
  lemma UniformRateIsKept(g: seq<Measures>, r: Rate, x: real)
    requires forall i :: 0 <= i < |g| ==> RateOf(g[i], r) == Some(x)
    requires Total(g, CountOf(Population)) != 0.0
    ensures WeightedAverage(g, r) == Some(x)
  {
    WeightOfUniformRate(g, r, x);
    var p := Total(g, CountOf(Population));
    var w := Total(g, WeightedRate(r));
    assert WeightedAverage(g, r) == Some(w / p);
    assert w == x * p;
    assert (x * p) / p == x;
  }

  /** Every row has a non-negative population and every present rate lies in [0, hi]. */
  ghost predicate RatesWithin(g: seq<Measures>, r: Rate, hi: real) {
    && NonNegativePopulation(g)
    && (forall i :: 0 <= i < |g| && RateOf(g[i], r).Some? ==> 0.0 <= RateOf(g[i], r).value <= hi)
    && 0.0 <= hi
  }

  lemma {:induction false} WeightBounds(g: seq<Measures>, r: Rate, hi: real)
    requires RatesWithin(g, r, hi)
    ensures 0.0 <= Total(g, WeightedRate(r)) <= hi * Total(g, CountOf(Population))
    decreases |g|
  {
    if g != [] {
      SplitRatesWithin(g, r, hi);
      WeightBounds(g[1..], r, hi);
      ContributionBounds(g[0], r, hi);
      SumBounds(Total(g, WeightedRate(r)), Total(g, CountOf(Population)),
                Contribution(WeightedRate(r), g[0]), g[0].population,
                Total(g[1..], WeightedRate(r)), Total(g[1..], CountOf(Population)), hi);
    }
  }

  lemma SplitRatesWithin(g: seq<Measures>, r: Rate, hi: real)
    requires g != [] && RatesWithin(g, r, hi)
    ensures RatesWithin(g[1..], r, hi)
    ensures g[0].population >= 0.0 && 0.0 <= hi
    ensures RateOf(g[0], r).Some? ==> 0.0 <= RateOf(g[0], r).value <= hi
  {
    forall i | 0 <= i < |g[1..]| ensures g[1..][i] == g[i + 1] {}
  }

  /** Two amounts within 0 and hi times their parts add up to within 0 and hi times the whole. */
  lemma SumBounds(total: real, whole: real, a: real, p: real, b: real, q: real, hi: real)
    requires total == a + b && whole == p + q
    requires 0.0 <= a <= hi * p && 0.0 <= b <= hi * q
    ensures 0.0 <= total <= hi * whole
  {
    assert hi * (p + q) == hi * p + hi * q;
  }

  /** A row's weighted rate lies between 0 and hi times its population. */
  lemma ContributionBounds(m: Measures, r: Rate, hi: real)
    requires m.population >= 0.0 && 0.0 <= hi
    requires RateOf(m, r).Some? ==> 0.0 <= RateOf(m, r).value <= hi
    ensures 0.0 <= Contribution(WeightedRate(r), m) <= hi * m.population
  {
    match RateOf(m, r)
    case Some(x) => ScaledBounds(x, m.population, hi);
    case None => ScaledBounds(0.0, m.population, hi);
  }

  /** A factor between 0 and hi scales a non-negative amount to between 0 and hi times it. */
  lemma ScaledBounds(x: real, p: real, hi: real)
    requires 0.0 <= x <= hi && 0.0 <= p
    ensures 0.0 <= x * p <= hi * p
  {
    assert hi * p - x * p == (hi - x) * p;
  }

  /** A weighted average stays within the range of the rates it averages: a positivity
      rate in [0, 1] aggregates to a value in [0, 1]. */
  lemma AverageWithinBounds(g: seq<Measures>, r: Rate, hi: real)
    requires NonNegativePopulation(g)
    requires forall i :: 0 <= i < |g| && RateOf(g[i], r).Some? ==> 0.0 <= RateOf(g[i], r).value <= hi
    requires 0.0 <= hi
    requires Total(g, CountOf(Population)) != 0.0
    ensures 0.0 <= WeightedAverage(g, r).value <= hi
  {
    WeightBounds(g, r, hi);
    PopulationTotalNonNegative(g);
    RatioBounds(Total(g, WeightedRate(r)), Total(g, CountOf(Population)), hi);
  }

  /** Dividing an amount between 0 and hi times a positive whole by that whole gives a
      value between 0 and hi. */
  lemma RatioBounds(w: real, p: real, hi: real)
    requires 0.0 < p && 0.0 <= w <= hi * p
    ensures 0.0 <= w / p <= hi
  {
    assert hi - w / p == (hi * p - w) / p;
  }

  // ---------------------------------------------------------------------------
  // Group-by: the groups of a partition add up to the whole

  /** The measures of each row of a table. */
  function Project<T>(s: seq<T>, get: T -> Measures): (g: seq<Measures>)
    ensures |g| == |s| && forall i :: 0 <= i < |s| ==> g[i] == get(s[i])
    decreases |s|
  {
    if s == [] then [] else [get(s[0])] + Project(s[1..], get)
  }

  lemma TotalProjectCons<T>(x: T, s: seq<T>, get: T -> Measures, col: Column)
    ensures Total(Project([x] + s, get), col) == Contribution(col, get(x)) + Total(Project(s, get), col)
  {
  }

  lemma FilterCons<T(!new)>(x: T, s: seq<T>, p: T -> bool)
    ensures Filter([x] + s, p) == if p(x) then [x] + Filter(s, p) else Filter(s, p)
  {
  }

  /** The sum of `col` over the groups whose key is accepted by `sel`, one group per key of `ks`. */
  function GroupSum<T(!new), K(==)>(s: seq<T>, key: T -> Option<K>, get: T -> Measures,
                                    ks: seq<K>, sel: K -> bool, col: Column): real
    decreases |ks|
  {
    if ks == [] then 0.0
    else
      (if sel(ks[0]) then Total(Project(Filter(s, HasKey(key, ks[0])), get), col) else 0.0)
      + GroupSum(s, key, get, ks[1..], sel, col)
  }

  /** What a single row adds to `GroupSum`: its contribution once for every accepted key it matches. */
  function MatchSum<K(==)>(ks: seq<K>, kx: Option<K>, sel: K -> bool, v: real): real
    decreases |ks|
  {
    if ks == [] then 0.0
    else (if sel(ks[0]) && kx == Some(ks[0]) then v else 0.0) + MatchSum(ks[1..], kx, sel, v)
  }

  lemma {:induction false} MatchSumOnce<K>(ks: seq<K>, kx: Option<K>, sel: K -> bool, v: real)
    requires Distinct(ks)
    ensures MatchSum(ks, kx, sel, v) == if kx.Some? && kx.value in ks && sel(kx.value) then v else 0.0
    decreases |ks|
  {
    if ks != [] {
      assert Distinct(ks[1..]);
      MatchSumOnce(ks[1..], kx, sel, v);
      if kx == Some(ks[0]) {
        assert ks[0] !in ks[1..];
      }
    }
  }

  lemma {:induction false} GroupSumEmpty<T(!new), K>(key: T -> Option<K>, get: T -> Measures,
                                                       ks: seq<K>, sel: K -> bool, col: Column)
    ensures GroupSum([], key, get, ks, sel, col) == 0.0
    decreases |ks|
  {
    if ks != [] {
      GroupSumEmpty(key, get, ks[1..], sel, col);
    }
  }

  lemma {:induction false} GroupSumCons<T(!new), K>(x: T, s: seq<T>, key: T -> Option<K>, get: T -> Measures,
                                                      ks: seq<K>, sel: K -> bool, col: Column)
    ensures GroupSum([x] + s, key, get, ks, sel, col)
         == GroupSum(s, key, get, ks, sel, col) + MatchSum(ks, key(x), sel, Contribution(col, get(x)))
    decreases |ks|
  {
    if ks != [] {
      GroupSumCons(x, s, key, get, ks[1..], sel, col);
      var p := HasKey(key, ks[0]);
      FilterCons(x, s, p);
      if p(x) {
        TotalProjectCons(x, Filter(s, p), get, col);
      }
    }
  }

  /** Grouping by key and summing each group gives, over the accepted keys, the sum of all
      rows whose key is accepted: provided the keys are distinct and include every key
      that occurs. Rows without a key belong to no group. */
  lemma {:induction false} PartitionSum<T(!new), K>(s: seq<T>, key: T -> Option<K>, get: T -> Measures,
                                                      ks: seq<K>, sel: K -> bool, col: Column)
    requires Distinct(ks)
    requires forall i :: 0 <= i < |s| && key(s[i]).Some? ==> key(s[i]).value in ks
    ensures GroupSum(s, key, get, ks, sel, col) == Total(Project(Filter(s, KeyWhere(key, sel)), get), col)
    decreases |s|
  {
    if s == [] {
      GroupSumEmpty(key, get, ks, sel, col);
    } else {
      var x := s[0];
      var rest := s[1..];
      assert s == [x] + rest;
      PartitionSum(rest, key, get, ks, sel, col);
      GroupSumCons(x, rest, key, get, ks, sel, col);
      MatchSumOnce(ks, key(x), sel, Contribution(col, get(x)));
      FilterCons(x, rest, KeyWhere(key, sel));
      if KeyWhere(key, sel)(x) {
        TotalProjectCons(x, Filter(rest, KeyWhere(key, sel)), get, col);
      }
    }
  }
}
