/** The averages of a scheduler benchmark, computed in one pass over exact reals. */
module BenchScheduler {

  datatype PhaseResult = PhaseResult(time: real, rate: real, period: real)
  datatype Result = Result(init: PhaseResult, run: PhaseResult)

  const ZERO: PhaseResult := PhaseResult(0.0, 0.0, 0.0)

  datatype Phase = Init | Run
  datatype Metric = Time | Rate | Period

  function Get(r: Result, phase: Phase, metric: Metric): real {
    var p := if phase == Init then r.init else r.run;
    match metric
    case Time => p.time
    case Rate => p.rate
    case Period => p.period
  }

  /** The fields are all there are: a result is what they say. */
  lemma FieldsDetermine(r: Result, q: Result)
    requires forall phase, metric :: Get(r, phase, metric) == Get(q, phase, metric)
    ensures r == q
  {
    assert Get(r, Init, Time) == Get(q, Init, Time) && Get(r, Run, Time) == Get(q, Run, Time);
    assert Get(r, Init, Rate) == Get(q, Init, Rate) && Get(r, Run, Rate) == Get(q, Run, Rate);
    assert Get(r, Init, Period) == Get(q, Init, Period) && Get(r, Run, Period) == Get(q, Run, Period);
  }

  /** The column of one field. */
  function Samples(rs: seq<Result>, phase: Phase, metric: Metric): (xs: seq<real>)
    ensures |xs| == |rs|
  {
    seq(|rs|, k requires 0 <= k < |rs| => Get(rs[k], phase, metric))
  }

  // ---------- Mean and deviation, by their definitions ----------

  function Sum(xs: seq<real>): real {
    if xs == [] then 0.0 else Sum(xs[..|xs| - 1]) + xs[|xs| - 1]
  }

  function Square(x: real): (s: real)
    ensures s >= 0.0
  {
    x * x
  }

  /** Sum of the squared distances from `center`. */
  function Deviation(xs: seq<real>, center: real): (d: real)
    ensures d >= 0.0
  {
    if xs == [] then 0.0 else Deviation(xs[..|xs| - 1], center) + Square(xs[|xs| - 1] - center)
  }

  function Mean(xs: seq<real>): real
    requires xs != []
  {
    Sum(xs) / |xs| as real
  }

  /** n times x, by repeated addition. */
  function Times(n: nat, x: real): real {
    if n == 0 then 0.0 else Times(n - 1, x) + x
  }

  lemma {:induction false} TimesIsProduct(n: nat, x: real)
    ensures Times(n, x) == n as real * x
  {
    if n > 0 { TimesIsProduct(n - 1, x); }
  }

  /** What it costs to move the center of n samples with this sum from a to b: twice the distance
      to the sum, and once the square of the distance per sample. */
  function Cost(sum: real, n: nat, a: real, b: real): real {
    2.0 * (a - b) * (sum - Times(n, a)) + Times(n, Square(a - b))
  }

  lemma CostStep(sum: real, x: real, n: nat, a: real, b: real)
    ensures Cost(sum, n, a, b) + Square(x - b) == Square(x - a) + Cost(sum + x, n + 1, a, b)
  {
  }

  lemma {:induction false} MovedCenter(xs: seq<real>, a: real, b: real)
    ensures Deviation(xs, b) == Deviation(xs, a) + Cost(Sum(xs), |xs|, a, b)
  {
    if xs != [] {
      var rest, x := xs[..|xs| - 1], xs[|xs| - 1];
      MovedCenter(rest, a, b);
      CostStep(Sum(rest), x, |rest|, a, b);
    }
  }

  lemma CostFromMean(sum: real, n: nat, a: real, b: real)
    requires sum == Times(n, a)
    ensures Cost(sum, n, a, b) == Times(n, Square(a - b)) >= 0.0
  {
    assert sum - Times(n, a) == 0.0;
    TimesIsProduct(n, Square(a - b));
  }

  /** Moving the center away from the mean only ever costs. */
  lemma MovedFromMean(xs: seq<real>, mean: real, center: real)
    requires Times(|xs|, mean) == Sum(xs)
    ensures Deviation(xs, center) == Deviation(xs, mean) + Times(|xs|, Square(mean - center))
    ensures Deviation(xs, mean) <= Deviation(xs, center)
  {
    MovedCenter(xs, mean, center);
    CostFromMean(Sum(xs), |xs|, mean, center);
  }

  lemma MeanTimes(xs: seq<real>)
    requires xs != []
    ensures Times(|xs|, Mean(xs)) == Sum(xs)
  {
    TimesIsProduct(|xs|, Mean(xs));
  }

  /** The mean is the center with the least deviation. */
  lemma MeanIsBest(xs: seq<real>, center: real)
    requires xs != []
    ensures Deviation(xs, Mean(xs)) <= Deviation(xs, center)
  {
    MeanTimes(xs);
    MovedFromMean(xs, Mean(xs), center);
  }

  // ---------- One step of the recurrence ----------

  /** `average` and `moment2` describe the samples seen; with none, any average will do. */
  ghost predicate Describes(average: real, moment2: real, xs: seq<real>) {
    Times(|xs|, average) == Sum(xs) && moment2 == Deviation(xs, average)
  }

  lemma NewMean(n: nat, a: real, x: real, m: real)
    requires m == a + (x - a) / (n + 1) as real
    ensures Times(n + 1, m - a) == x - a && Times(n + 1, m) == Times(n, a) + x
  {
    TimesIsProduct(n + 1, m - a);
    TimesIsProduct(n + 1, m);
    TimesIsProduct(n + 1, a);
  }

  lemma CrossTerm(n: nat, a: real, m: real, x: real)
    requires Times(n + 1, m - a) == x - a
    ensures Times(n, Square(a - m)) + Square(x - m) == (x - a) * (x - m)
  {
    var d := m - a;
    TimesIsProduct(n, Square(a - m));
    TimesIsProduct(n, d);
    Products(n as real, d);
  }

  lemma Products(n: real, d: real)
    ensures n * Square(-d) + Square(n * d) == (n * d + d) * (n * d)
  {
  }

  lemma NewDeviation(xs: seq<real>, a: real, m: real, x: real)
    requires Times(|xs|, a) == Sum(xs) && Times(|xs| + 1, m - a) == x - a
    ensures Deviation(xs + [x], m) == Deviation(xs, a) + (x - a) * (x - m)
  {
    MovedFromMean(xs, a, m);
    CrossTerm(|xs|, a, m, x);
    Appended(xs, x, m);
  }

  /** One sample more: `m` is the new mean, and the product of the distances of the sample from the
      old and the new average is what the deviation grows by. */
  lemma Recurrence(average: real, moment2: real, xs: seq<real>, x: real, m: real, growth: real)
    requires Describes(average, moment2, xs)
    requires Times(|xs| + 1, m - average) == x - average && Times(|xs| + 1, m) == Times(|xs|, average) + x
    requires growth == (x - average) * (x - m)
    ensures Describes(m, moment2 + growth, xs + [x])
  {
    NewDeviation(xs, average, m, x);
    Appended(xs, x, m);
  }

  lemma Appended(xs: seq<real>, x: real, center: real)
    ensures Sum(xs + [x]) == Sum(xs) + x && Deviation(xs + [x], center) == Deviation(xs, center) + Square(x - center)
  {
  }

  lemma MeanDescribed(average: real, moment2: real, xs: seq<real>)
    requires xs != [] && Describes(average, moment2, xs)
    ensures average == Mean(xs) && moment2 == Deviation(xs, Mean(xs))
  {
    TimesIsProduct(|xs|, average);
  }

  method MoveAverage(value: real, average: real, count: nat) returns (average': real, deltaPre: real)
    requires count > 0
    ensures deltaPre == value - average && Times(count, average' - average) == value - average
    ensures Times(count, average') == Times(count - 1, average) + value
  {
    deltaPre := value - average;
    average' := average + deltaPre / count as real;
    NewMean(count - 1, average, value, average');
  }

  method Accumulate(value: real, average: real, moment2: real, count: nat, ghost xs: seq<real>)
    returns (average': real, moment2': real)
    requires Describes(average, moment2, xs) && count == |xs| + 1
    ensures Describes(average', moment2', xs + [value])
  {
    var deltaPre;
    average', deltaPre := MoveAverage(value, average, count);
    var deltaPost := value - average';
    var growth := deltaPre * deltaPost;
    moment2' := moment2 + growth;
    Recurrence(average, moment2, xs, value, average', growth);
  }

  // ---------- The suite ----------

  ghost predicate AllDescribed(average: Result, moment2: Result, rs: seq<Result>) {
    forall phase, metric ::
      Describes(Get(average, phase, metric), Get(moment2, phase, metric), Samples(rs, phase, metric))
  }

  method AccumulatePhase(value: PhaseResult, average: PhaseResult, moment2: PhaseResult, count: nat,
                         ghost times: seq<real>, ghost rates: seq<real>, ghost periods: seq<real>)
    returns (average': PhaseResult, moment2': PhaseResult)
    requires count == |times| + 1 == |rates| + 1 == |periods| + 1
    requires Describes(average.time, moment2.time, times) && Describes(average.rate, moment2.rate, rates)
    requires Describes(average.period, moment2.period, periods)
    ensures Describes(average'.time, moment2'.time, times + [value.time])
    ensures Describes(average'.rate, moment2'.rate, rates + [value.rate])
    ensures Describes(average'.period, moment2'.period, periods + [value.period])
  {
    average', moment2' := average, moment2;
    var a, m := Accumulate(value.time, average.time, moment2.time, count, times);
    average', moment2' := average'.(time := a), moment2'.(time := m);
    a, m := Accumulate(value.rate, average.rate, moment2.rate, count, rates);
    average', moment2' := average'.(rate := a), moment2'.(rate := m);
    a, m := Accumulate(value.period, average.period, moment2.period, count, periods);
    average', moment2' := average'.(period := a), moment2'.(period := m);
  }

  lemma NextSamples(rs: seq<Result>, n: nat, phase: Phase, metric: Metric)
    requires n < |rs|
    ensures Samples(rs[..n + 1], phase, metric) == Samples(rs[..n], phase, metric) + [Get(rs[n], phase, metric)]
  {
  }

  /** The field's average is the mean of its samples, its variance their mean squared distance from
      it, of which a square root can be taken. */
  ghost predicate Summary(average: Result, variance: Result, rs: seq<Result>, phase: Phase, metric: Metric)
    requires rs != []
  {
    var xs := Samples(rs, phase, metric);
    && Get(average, phase, metric) == Mean(xs)
    && Get(variance, phase, metric) == Deviation(xs, Mean(xs)) / |xs| as real >= 0.0
  }

  /** One more run, all six fields. */
  method AccumulateRun(rs: seq<Result>, n: nat, average: Result, moment2: Result)
    returns (average': Result, moment2': Result)
    requires n < |rs| && AllDescribed(average, moment2, rs[..n])
    ensures AllDescribed(average', moment2', rs[..n + 1])
  {
    var init, initMoment := AccumulatePhase(rs[n].init, average.init, moment2.init, n + 1,
      Samples(rs[..n], Init, Time), Samples(rs[..n], Init, Rate), Samples(rs[..n], Init, Period));
    var run, runMoment := AccumulatePhase(rs[n].run, average.run, moment2.run, n + 1,
      Samples(rs[..n], Run, Time), Samples(rs[..n], Run, Rate), Samples(rs[..n], Run, Period));
    average', moment2' := Result(init, run), Result(initMoment, runMoment);
    forall phase, metric
      ensures Describes(Get(average', phase, metric), Get(moment2', phase, metric), Samples(rs[..n + 1], phase, metric))
    {
      NextSamples(rs, n, phase, metric);
    }
  }

  class BenchSuite {
    const results: seq<Result>

    constructor (results: seq<Result>)
      ensures this.results == results
    {
      this.results := results;
    }

    /** With at least two runs, every average is the mean of its samples and every variance their
        mean squared deviation from it, which has a square root; with fewer nothing is logged. */
    method Log() returns (logged: bool, average: Result, variance: Result)
      ensures logged <==> |results| >= 2
      ensures logged ==> forall phase, metric :: Summary(average, variance, results, phase, metric)
    {
      average, variance := Result(ZERO, ZERO), Result(ZERO, ZERO);
      if |results| < 2 { return false, average, variance; }
      average := results[0];
      var moment2 := Result(ZERO, ZERO);
      var n := 0;
      while n < |results|
        invariant 0 <= n <= |results| && AllDescribed(average, moment2, results[..n])
      {
        average, moment2 := AccumulateRun(results, n, average, moment2);
        n := n + 1;
      }
      variance := Result(Scaled(moment2.init, n), Scaled(moment2.run, n));
      assert results[..n] == results;
      forall phase, metric ensures Summary(average, variance, results, phase, metric) {
        MeanDescribed(Get(average, phase, metric), Get(moment2, phase, metric), Samples(results, phase, metric));
      }
      return true, average, variance;
    }
  }

  function Scaled(p: PhaseResult, n: nat): PhaseResult
    requires n > 0
  {
    PhaseResult(p.time / n as real, p.rate / n as real, p.period / n as real)
  }
}
