/** Online statistics of src/aggregation.c: an instance accumulates rates and is read
    and reset. Gauges are exact reals; NaN is None. */
module Aggregation {
  import opened Common

  type Gauge = Option<real>

  /** agg_instance_t, as far as updates and reads change it. */
  datatype Instance = Instance(num: nat, sum: real, squares: real, min: Gauge, max: Gauge)

  const EMPTY: Instance := Instance(0, 0.0, 0.0, None, None)

  /** agg_instance_update with the current rate. */
  function Update(s: Instance, rate: Gauge): Instance {
    match rate
    case None => s
    case Some(x) =>
      Instance(s.num + 1, s.sum + x, s.squares + x * x,
               if s.min.None? || s.min.value > x then Some(x) else s.min,
               if s.max.None? || s.max.value < x then Some(x) else s.max)
  }

  /** What agg_instance_read dispatches; everything but the number is absent when there
      were no values. The standard deviation is given by what sqrt is applied to. */
  datatype Report = Report(num: nat, sum: Gauge, average: Gauge, min: Gauge, max: Gauge, radicand: Gauge)

  /** num * squares_sum - sum^2 */
  function Radicand(num: real, sum: real, squares: real): real {
    num * squares - sum * sum
  }

  function Read(s: Instance): Report {
    if s.num > 0 then
      Report(s.num, Some(s.sum), Some(s.sum / s.num as real), s.min, s.max,
             Some(Radicand(s.num as real, s.sum, s.squares)))
    else Report(0, None, None, None, None, None)
  }

  // ------------------------------------------------------- statistics by definition

  function Sum(xs: seq<real>): real {
    if xs == [] then 0.0 else Sum(xs[..|xs| - 1]) + xs[|xs| - 1]
  }

  function SumSquares(xs: seq<real>): real {
    if xs == [] then 0.0 else SumSquares(xs[..|xs| - 1]) + xs[|xs| - 1] * xs[|xs| - 1]
  }

  /** Sum of squared deviations from m. */
  function Deviations(xs: seq<real>, m: real): real {
    if xs == [] then 0.0
    else Deviations(xs[..|xs| - 1], m) + (xs[|xs| - 1] - m) * (xs[|xs| - 1] - m)
  }

  function Mean(xs: seq<real>): real
    requires xs != []
  {
    Sum(xs) / |xs| as real
  }

  ghost predicate IsMin(m: Gauge, xs: seq<real>) {
    (m.None? <==> xs == []) && (m.Some? ==> m.value in xs && forall x :: x in xs ==> m.value <= x)
  }

  ghost predicate IsMax(m: Gauge, xs: seq<real>) {
    (m.None? <==> xs == []) && (m.Some? ==> m.value in xs && forall x :: x in xs ==> x <= m.value)
  }

  /** The instance describes exactly these values. */
  ghost predicate Describes(s: Instance, xs: seq<real>) {
    && s.num == |xs| && s.sum == Sum(xs) && s.squares == SumSquares(xs)
    && IsMin(s.min, xs) && IsMax(s.max, xs)
  }

  /** The values of the updates that have one. */
  function Values(rates: seq<Gauge>): seq<real> {
    if rates == [] then []
    else
      var before := Values(rates[..|rates| - 1]);
      match rates[|rates| - 1] case None => before case Some(x) => before + [x]
  }

  lemma UpdateDescribes(s: Instance, xs: seq<real>, rate: Gauge)
    requires Describes(s, xs)
    ensures Describes(Update(s, rate), if rate.None? then xs else xs + [rate.value])
  {
    if rate.Some? {
      assert (xs + [rate.value])[..|xs|] == xs;
    }
  }

  // ------------------------------------------------------------------ identities

  lemma Distribute(a: real, b: real, c: real)
    ensures (a + b) * c == a * c + b * c
  {
  }

  lemma SquareOfDifference(x: real, m: real)
    ensures (x - m) * (x - m) == x * x - 2.0 * (m * x) + m * m
  {
    assert (x - m) * (x - m) == x * (x - m) - m * (x - m);
  }

  /** One more value x in the expansion of the deviations. */
  lemma DeviationStep(d: real, q: real, s: real, n: real, m: real, x: real,
                      d': real, q': real, s': real, n': real)
    requires d == q - 2.0 * (m * s) + n * (m * m)
    requires d' == d + (x - m) * (x - m) && q' == q + x * x && s' == s + x && n' == n + 1.0
    ensures d' == q' - 2.0 * (m * s') + n' * (m * m)
  {
    SquareOfDifference(x, m);
    Distribute(s, x, m);
    Distribute(n, 1.0, m * m);
  }

  lemma {:induction false} DeviationsExpand(xs: seq<real>, m: real)
    ensures Deviations(xs, m) == SumSquares(xs) - 2.0 * (m * Sum(xs)) + |xs| as real * (m * m)
  {
    if xs != [] {
      var init, x := xs[..|xs| - 1], xs[|xs| - 1];
      DeviationsExpand(init, m);
      DeviationStep(Deviations(init, m), SumSquares(init), Sum(init), |init| as real, m, x,
                    Deviations(xs, m), SumSquares(xs), Sum(xs), |xs| as real);
    }
  }

  lemma {:induction false} DeviationsNotNegative(xs: seq<real>, m: real)
    ensures Deviations(xs, m) >= 0.0
  {
    if xs != [] {
      DeviationsNotNegative(xs[..|xs| - 1], m);
      var d := xs[|xs| - 1] - m;
      assert d * d >= 0.0;
    }
  }

  lemma MeanTimesNumber(n: real, s: real)
    requires n > 0.0
    ensures n * (s / n) == s
  {
  }

  /** With m = s / n, expanding n times the deviations d leaves n * q - s * s. */
  lemma RadicandArithmetic(n: real, s: real, q: real, m: real, d: real)
    requires n * m == s && d == q - 2.0 * (m * s) + n * (m * m)
    ensures n * q - s * s == n * d
  {
    var ms := m * s;
    assert n * ms == (n * m) * s == s * s;
    assert n * (n * (m * m)) == (n * m) * (n * m) == s * s;
    assert n * (q - 2.0 * ms + n * (m * m)) == n * q - 2.0 * (n * ms) + n * (n * (m * m));
  }

  /** The radicand and the deviations d, as plain numbers. */
  lemma RadicandOf(n: real, s: real, q: real, m: real, d: real)
    requires n > 0.0 && m == s / n && d >= 0.0 && d == q - 2.0 * (m * s) + n * (m * m)
    ensures Radicand(n, s, q) == n * d >= 0.0
  {
    MeanTimesNumber(n, s);
    RadicandArithmetic(n, s, q, m, d);
    ProductNotNegative(n, d);
  }

  /** The numbers that the identity is about, and how they are related. */
  lemma Moments(xs: seq<real>) returns (n: real, s: real, q: real, m: real, d: real)
    requires xs != []
    ensures n == |xs| as real && s == Sum(xs) && q == SumSquares(xs) && m == Mean(xs) && d == Deviations(xs, m)
    ensures n > 0.0 && m == s / n && d >= 0.0 && d == q - 2.0 * (m * s) + n * (m * m)
  {
    n, s, q, m := |xs| as real, Sum(xs), SumSquares(xs), Mean(xs);
    d := Deviations(xs, m);
    DeviationsExpand(xs, m);
    DeviationsNotNegative(xs, m);
  }

  /** num * squares_sum - sum^2 is num times the sum of squared deviations from the mean. */
  lemma RadicandIsDeviations(xs: seq<real>)
    requires xs != []
    ensures Radicand(|xs| as real, Sum(xs), SumSquares(xs)) == |xs| as real * Deviations(xs, Mean(xs)) >= 0.0
  {
    var n, s, q, m, d := Moments(xs);
    RadicandOf(n, s, q, m, d);
  }

  lemma ProductNotNegative(a: real, b: real)
    requires a >= 0.0 && b >= 0.0
    ensures a * b >= 0.0
  {
  }

  lemma {:induction false} SumBounds(xs: seq<real>, lo: real, hi: real)
    requires forall x :: x in xs ==> lo <= x <= hi
    ensures |xs| as real * lo <= Sum(xs) <= |xs| as real * hi
  {
    if xs != [] {
      var init := xs[..|xs| - 1];
      assert forall x :: x in init ==> x in xs;
      SumBounds(init, lo, hi);
      assert xs[|xs| - 1] in xs;
      assert |xs| as real == |init| as real + 1.0;
      Distribute(|init| as real, 1.0, lo);
      Distribute(|init| as real, 1.0, hi);
    }
  }

  lemma QuotientBounds(n: real, s: real, lo: real, hi: real)
    requires n > 0.0 && n * lo <= s <= n * hi
    ensures lo <= s / n <= hi
  {
    assert s / n - lo == (s - n * lo) / n;
    assert hi - s / n == (n * hi - s) / n;
  }

  predicate IsRoot(root: real, x: real) {
    root >= 0.0 && root * root == x
  }

  /** The population variance: the mean square deviation from the mean. */
  function Variance(xs: seq<real>): real
    requires xs != []
  {
    Deviations(xs, Mean(xs)) / |xs| as real
  }

  /** What makes a report right for these values. The reported standard deviation is the
      root of the radicand divided by num: it is the root of the population variance. */
  ghost predicate Reports(r: Report, xs: seq<real>) {
    && r.num == |xs|
    && (xs == [] ==> r == Report(0, None, None, None, None, None))
    && (xs != [] ==>
          && r.sum == Some(Sum(xs)) && r.average == Some(Mean(xs))
          && IsMin(r.min, xs) && IsMax(r.max, xs)
          && r.min.value <= Mean(xs) <= r.max.value
          && r.radicand.Some? && r.radicand.value >= 0.0
          && forall root :: IsRoot(root, r.radicand.value) ==> IsRoot(root / |xs| as real, Variance(xs)))
  }

  /** If root^2 is n * v then (root / n)^2 is v / n. */
  lemma RootArithmetic(root: real, n: real, v: real)
    requires n > 0.0 && IsRoot(root, n * v)
    ensures IsRoot(root / n, v / n)
  {
    var d := root / n;
    assert d * n == root;
    assert n * (n * (d * d)) == (d * n) * (d * n);
    assert n * (n * (d * d)) == n * v;
    Cancel(n, n * (d * d), v);
  }

  lemma Cancel(n: real, a: real, b: real)
    requires n > 0.0 && n * a == n * b
    ensures a == b
  {
    assert n * (a - b) == 0.0;
  }

  lemma RootsRight(xs: seq<real>, radicand: real)
    requires xs != [] && radicand == Radicand(|xs| as real, Sum(xs), SumSquares(xs))
    ensures radicand >= 0.0
    ensures forall root :: IsRoot(root, radicand) ==> IsRoot(root / |xs| as real, Variance(xs))
  {
    RadicandIsDeviations(xs);
    forall root | IsRoot(root, radicand) ensures IsRoot(root / |xs| as real, Variance(xs)) {
      RootArithmetic(root, |xs| as real, Deviations(xs, Mean(xs)));
    }
  }

  lemma MeanBetween(xs: seq<real>, lo: real, hi: real)
    requires xs != [] && forall x :: x in xs ==> lo <= x <= hi
    ensures lo <= Mean(xs) <= hi
  {
    SumBounds(xs, lo, hi);
    QuotientBounds(|xs| as real, Sum(xs), lo, hi);
  }

  /** Reading an instance that describes xs reports the statistics of xs. */
  lemma ReadReports(s: Instance, xs: seq<real>)
    requires Describes(s, xs)
    ensures Reports(Read(s), xs)
  {
    if xs != [] {
      MeanBetween(xs, s.min.value, s.max.value);
      RootsRight(xs, Read(s).radicand.value);
    }
  }

  // ------------------------------------------------------------------- whole runs

  datatype Event = Updated(rate: Gauge) | Polled

  /** The instance and the reports so far. */
  datatype State = State(inst: Instance, reports: seq<Report>)

  function Next(s: State, e: Event): State {
    match e
    case Updated(rate) => s.(inst := Update(s.inst, rate))
    case Polled => State(EMPTY, s.reports + [Read(s.inst)])
  }

  function Run(events: seq<Event>): State {
    if events == [] then State(EMPTY, [])
    else Next(Run(events[..|events| - 1]), events[|events| - 1])
  }

  /** The values between two reads: the finished intervals, and the current one. */
  datatype Intervals = Intervals(finished: seq<seq<real>>, current: seq<real>)

  function Split(events: seq<Event>): Intervals {
    if events == [] then Intervals([], [])
    else
      var before := Split(events[..|events| - 1]);
      match events[|events| - 1]
      case Updated(None) => before
      case Updated(Some(x)) => before.(current := before.current + [x])
      case Polled => Intervals(before.finished + [before.current], [])
  }

  function TotalNum(reports: seq<Report>): nat {
    if reports == [] then 0 else TotalNum(reports[..|reports| - 1]) + reports[|reports| - 1].num
  }

  function ValueCount(events: seq<Event>): nat {
    if events == [] then 0
    else
      var last := events[|events| - 1];
      ValueCount(events[..|events| - 1]) + (if last.Updated? && last.rate.Some? then 1 else 0)
  }

  /** For every sequence of updates and reads: each read reports the statistics of
      exactly the values since the read before, and the numbers reported together with
      the pending one count every update that had a value, once. */
  lemma {:induction false} EveryReadRight(events: seq<Event>)
    ensures var s, v := Run(events), Split(events);
            && |s.reports| == |v.finished|
            && (forall i :: 0 <= i < |s.reports| ==> Reports(s.reports[i], v.finished[i]))
            && Describes(s.inst, v.current)
            && TotalNum(s.reports) + s.inst.num == ValueCount(events)
  {
    if events != [] {
      var init, e := events[..|events| - 1], events[|events| - 1];
      EveryReadRight(init);
      var s, v := Run(init), Split(init);
      match e
      case Updated(rate) => UpdateDescribes(s.inst, v.current, rate);
      case Polled =>
        ReadReports(s.inst, v.current);
        assert (s.reports + [Read(s.inst)])[..|s.reports|] == s.reports;
    }
  }

  // ---------------------------------------------------------------- the procedures

  /** agg_instance_t */
  class Aggregate {
    var num: nat
    var sum: real
    var squares: real
    var min: Gauge
    var max: Gauge

    ghost function View(): Instance
      reads this
    {
      Instance(num, sum, squares, min, max)
    }

    constructor ()
      ensures View() == EMPTY
    {
      num, sum, squares, min, max := 0, 0.0, 0.0, None, None;
    }

    /** agg_instance_update */
    method OnRate(rate: Gauge)
      modifies this
      ensures View() == Update(old(View()), rate)
    {
      if rate.None? {
        return;
      }
      num := num + 1;
      sum := sum + rate.value;
      squares := squares + rate.value * rate.value;
      if min.None? || min.value > rate.value {
        min := rate;
      }
      if max.None? || max.value < rate.value {
        max := rate;
      }
    }

    /** agg_instance_read */
    method OnRead() returns (r: Report)
      modifies this
      ensures r == Read(old(View())) && View() == EMPTY
    {
      r := Report(num, None, None, None, None, None);
      if num > 0 {
        r := Report(num, Some(sum), Some(sum / num as real), min, max,
                    Some(Radicand(num as real, sum, squares)));
      }
      num := 0;
      sum := 0.0;
      squares := 0.0;
      min, max := None, None;
    }
  }
}
