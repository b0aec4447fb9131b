/**
 The exponential moving average and variance over the reals. The recursion is proved to keep
 the mean and the variance of all observations so far under explicit, normalised weights.
 */
module MovingVariance {

  /** A product with a name, so that sums of products can be handled as linear terms. */
  function Times(a: real, b: real): real {
    a * b
  }

  function Scaled(w: seq<real>, k: real): (r: seq<real>)
    ensures |r| == |w|
  {
    if w == [] then [] else Scaled(w[..|w| - 1], k) + [Times(k, w[|w| - 1])]
  }

  /** The older weights shrink by 1 - alpha and the newest observation gets alpha. */
  function Reweighted(w: seq<real>, alpha: real): seq<real> {
    Scaled(w, 1.0 - alpha) + [alpha]
  }

  function Total(w: seq<real>): real {
    if w == [] then 0.0 else Total(w[..|w| - 1]) + w[|w| - 1]
  }

  function Mean(w: seq<real>, x: seq<real>): real
    requires |w| == |x|
  {
    if w == [] then 0.0 else Mean(w[..|w| - 1], x[..|x| - 1]) + Times(w[|w| - 1], x[|x| - 1])
  }

  /** The weighted sum of the squared distances from c. */
  function Spread(w: seq<real>, x: seq<real>, c: real): real
    requires |w| == |x|
  {
    if w == [] then 0.0
    else Spread(w[..|w| - 1], x[..|x| - 1], c) + Times(w[|w| - 1], Times(x[|x| - 1] - c, x[|x| - 1] - c))
  }

  function Variance(w: seq<real>, x: seq<real>): real
    requires |w| == |x|
  {
    Spread(w, x, Mean(w, x))
  }

  predicate NonNegative(w: seq<real>) {
    forall i | 0 <= i < |w| :: w[i] >= 0.0
  }

  predicate Weights(w: seq<real>) {
    Total(w) == 1.0 && NonNegative(w)
  }

  // ---------------------------------------------------------------------------
  // Algebra
  // ---------------------------------------------------------------------------

  lemma ScaleAdd(k: real, a: real, b: real, c: real)
    ensures Times(k, a) + Times(Times(k, b), c) == Times(k, a + Times(b, c))
  {
    assert (k * b) * c == k * (b * c);
  }

  lemma Distribute(k: real, a: real, b: real)
    ensures Times(k, a + b) == Times(k, a) + Times(k, b)
  {
  }

  lemma One(k: real)
    ensures Times(k, 1.0) == k
  {
  }

  lemma Exchange(a: real, b: real, c: real)
    ensures Times(a, Times(b, c)) == Times(b, Times(a, c))
  {
    assert a * (b * c) == b * (a * c);
  }

  lemma Zero(k: real)
    ensures Times(k, 0.0) == 0.0
  {
  }

  lemma Square(a: real, b: real)
    ensures (a + b) * (a + b) == a * a + 2.0 * (a * b) + b * b
    ensures (a - b) * (a - b) == a * a - 2.0 * (a * b) + b * b
  {
  }

  /** One term of a spread, about c and about 0. */
  lemma SpreadTerm(w: real, x: real, c: real)
    ensures Times(w, Times(x - c, x - c)) ==
            Times(w, Times(x - 0.0, x - 0.0)) - Times(2.0 * c, Times(w, x)) + Times(c * c, w)
  {
    Square(x, c);
    var xx, xc, cc := x * x, x * c, c * c;
    assert w * (xx - 2.0 * xc + cc) == w * xx - 2.0 * (w * xc) + w * cc;
    assert w * xc == c * (w * x);
  }

  lemma ChordTerm(w: real, x: real, lo: real, hi: real)
    requires w >= 0.0 && lo <= x <= hi
    ensures Times(w, Times(x - 0.0, x - 0.0)) <= Times(lo + hi, Times(w, x)) - Times(lo * hi, w)
  {
    var y := (x - lo) * (hi - x);
    assert y >= 0.0 && y == (lo + hi) * x - lo * hi - x * x;
    assert w * y >= 0.0;
    var sx, lh, xx := (lo + hi) * x, lo * hi, x * x;
    assert w * (sx - lh - xx) == w * sx - w * lh - w * xx;
    assert w * sx == (lo + hi) * (w * x);
  }

  /** The recursion's algebra: M is the second moment and m the mean before observation o. */
  lemma RecursionAlgebra(M: real, m: real, alpha: real, o: real)
    ensures var delta := o - m;
      ((1.0 - alpha) * M + alpha * (o * o)) - (m + alpha * delta) * (m + alpha * delta) ==
      (1.0 - alpha) * ((M - m * m) + alpha * delta * delta)
  {
    var d := o - m;
    var ad, mm, md, dd := alpha * d, m * m, m * d, d * d;
    Square(m, ad);
    Square(m, d);
    assert o * o == mm + 2.0 * md + dd;
    assert alpha * (mm + 2.0 * md + dd) == alpha * mm + 2.0 * (alpha * md) + alpha * dd;
    assert m * ad == alpha * md && ad * d == alpha * dd;
    assert ad * ad == alpha * (ad * d) == alpha * (alpha * dd);
    assert (1.0 - alpha) * M == M - alpha * M;
    var add := alpha * dd;
    assert (1.0 - alpha) * (M - mm + add) == (M - mm + add) - (alpha * M - alpha * mm + alpha * add);
  }

  /** A parabola is highest in the middle of its range. */
  lemma MiddleIsHighest(m: real, lo: real, hi: real)
    ensures (lo + hi) * m - lo * hi - m * m <= (hi - lo) * (hi - lo) / 4.0
  {
    var d := 2.0 * m - (lo + hi);
    assert d * d >= 0.0;
    Square(2.0 * m, lo + hi);
    Square(lo, hi);
    Square(hi, lo);
    assert (2.0 * m) * (2.0 * m) == 4.0 * (m * m);
    assert (2.0 * m) * (lo + hi) == 2.0 * ((lo + hi) * m);
  }

  // ---------------------------------------------------------------------------
  // Moments
  // ---------------------------------------------------------------------------

  lemma ScaledStep(w: seq<real>, k: real)
    requires w != []
    ensures var n := |w| - 1; Scaled(w, k)[..n] == Scaled(w[..n], k) && Scaled(w, k)[n] == Times(k, w[n])
  {
    hide Times;
  }

  lemma {:induction false} MeanScaled(w: seq<real>, x: seq<real>, k: real)
    requires |w| == |x|
    ensures Mean(Scaled(w, k), x) == Times(k, Mean(w, x))
  {
    hide Times, Scaled;
    Zero(k);
    if w != [] {
      var n := |w| - 1;
      MeanScaled(w[..n], x[..n], k);
      ScaledStep(w, k);
      ScaleAdd(k, Mean(w[..n], x[..n]), w[n], x[n]);
    }
  }

  lemma {:induction false} SpreadScaled(w: seq<real>, x: seq<real>, c: real, k: real)
    requires |w| == |x|
    ensures Spread(Scaled(w, k), x, c) == Times(k, Spread(w, x, c))
  {
    hide Times, Scaled;
    Zero(k);
    if w != [] {
      var n := |w| - 1;
      SpreadScaled(w[..n], x[..n], c, k);
      ScaledStep(w, k);
      ScaleAdd(k, Spread(w[..n], x[..n], c), w[n], Times(x[n] - c, x[n] - c));
    }
  }

  lemma {:induction false} TotalScaled(w: seq<real>, k: real)
    ensures Total(Scaled(w, k)) == Times(k, Total(w))
  {
    hide Times, Scaled;
    Zero(k);
    if w != [] {
      var n := |w| - 1;
      TotalScaled(w[..n], k);
      ScaledStep(w, k);
      Distribute(k, Total(w[..n]), w[n]);
    }
  }

  lemma {:induction false} ScaledNonNegative(w: seq<real>, k: real)
    requires NonNegative(w) && k >= 0.0
    ensures NonNegative(Scaled(w, k))
  {
    if w != [] {
      ScaledNonNegative(w[..|w| - 1], k);
      assert Times(k, w[|w| - 1]) >= 0.0;
    }
  }

  /** Each moment after an observation. */
  lemma Observed(w: seq<real>, x: seq<real>, alpha: real, o: real)
    requires |w| == |x|
    ensures |Reweighted(w, alpha)| == |x + [o]|
    ensures Mean(Reweighted(w, alpha), x + [o]) == Times(1.0 - alpha, Mean(w, x)) + Times(alpha, o)
    ensures Spread(Reweighted(w, alpha), x + [o], 0.0) ==
            Times(1.0 - alpha, Spread(w, x, 0.0)) + Times(alpha, Times(o - 0.0, o - 0.0))
    ensures Total(Reweighted(w, alpha)) == Times(1.0 - alpha, Total(w)) + alpha
  {
    hide Times;
    MeanScaled(w, x, 1.0 - alpha);
    SpreadScaled(w, x, 0.0, 1.0 - alpha);
    TotalScaled(w, 1.0 - alpha);
    assert Reweighted(w, alpha)[..|w|] == Scaled(w, 1.0 - alpha) && (x + [o])[..|x|] == x;
  }

  /** Moving the centre: the spread about c in terms of the plain moments. */
  lemma {:induction false} SpreadAbout(w: seq<real>, x: seq<real>, c: real)
    requires |w| == |x|
    ensures Spread(w, x, c) == Spread(w, x, 0.0) - Times(2.0 * c, Mean(w, x)) + Times(c * c, Total(w))
  {
    hide Times;
    Zero(2.0 * c);
    Zero(c * c);
    if w != [] {
      var n := |w| - 1;
      SpreadAbout(w[..n], x[..n], c);
      SpreadTerm(w[n], x[n], c);
      Distribute(2.0 * c, Mean(w[..n], x[..n]), Times(w[n], x[n]));
      Distribute(c * c, Total(w[..n]), w[n]);
    }
  }

  /** The variance is the second moment minus the squared mean. */
  lemma VarianceIsMoments(w: seq<real>, x: seq<real>)
    requires |w| == |x| && Total(w) == 1.0
    ensures Variance(w, x) == Spread(w, x, 0.0) - Mean(w, x) * Mean(w, x)
  {
    hide Spread, Mean, Total, Times;
    var m := Mean(w, x);
    SpreadAbout(w, x, m);
    CenterAtMean(m);
    assert Variance(w, x) == Spread(w, x, m);
  }

  lemma CenterAtMean(m: real)
    ensures Times(2.0 * m, m) - Times(m * m, 1.0) == m * m
  {
  }

  lemma {:induction false} SpreadNonNegative(w: seq<real>, x: seq<real>, c: real)
    requires |w| == |x| && NonNegative(w)
    ensures Spread(w, x, c) >= 0.0
  {
    hide Times;
    if w != [] {
      var n := |w| - 1;
      SpreadNonNegative(w[..n], x[..n], c);
      TermNonNegative(w[n], x[n] - c);
    }
  }

  lemma TermNonNegative(w: real, d: real)
    requires w >= 0.0
    ensures Times(w, Times(d, d)) >= 0.0
  {
    var s := d * d;
    assert s >= 0.0 && w * s >= 0.0;
  }

  /** Observations within [lo, hi] keep the second moment under the chord of the parabola. */
  lemma {:induction false} MomentUnderChord(w: seq<real>, x: seq<real>, lo: real, hi: real)
    requires |w| == |x| && NonNegative(w)
    requires forall i | 0 <= i < |x| :: lo <= x[i] <= hi
    ensures Spread(w, x, 0.0) <= Times(lo + hi, Mean(w, x)) - Times(lo * hi, Total(w))
  {
    hide Times;
    Zero(lo + hi);
    Zero(lo * hi);
    if w != [] {
      var n := |w| - 1;
      MomentUnderChord(w[..n], x[..n], lo, hi);
      ChordTerm(w[n], x[n], lo, hi);
      Distribute(lo + hi, Mean(w[..n], x[..n]), Times(w[n], x[n]));
      Distribute(lo * hi, Total(w[..n]), w[n]);
    }
  }

  lemma VarianceBounded(w: seq<real>, x: seq<real>, lo: real, hi: real)
    requires |w| == |x| && Weights(w)
    requires forall i | 0 <= i < |x| :: lo <= x[i] <= hi
    ensures 0.0 <= Variance(w, x) <= (hi - lo) * (hi - lo) / 4.0
  {
    hide Spread, Mean, Total;
    SpreadNonNegative(w, x, Mean(w, x));
    VarianceIsMoments(w, x);
    MomentUnderChord(w, x, lo, hi);
    MiddleIsHighest(Mean(w, x), lo, hi);
  }

  // ---------------------------------------------------------------------------
  // Exponential decay
  // ---------------------------------------------------------------------------

  function Power(b: real, n: nat): real {
    if n == 0 then 1.0 else Times(b, Power(b, n - 1))
  }

  /** The weights after n observations at the same rate, the initial one apart. */
  function Decayed(alpha: real, n: nat): (w: seq<real>)
    ensures |w| == n + 1
  {
    if n == 0 then [1.0] else Reweighted(Decayed(alpha, n - 1), alpha)
  }

  lemma {:induction false} ScaledAt(w: seq<real>, k: real, i: nat)
    requires i < |w|
    ensures Scaled(w, k)[i] == Times(k, w[i])
  {
    hide Times;
    if i < |w| - 1 {
      ScaledAt(w[..|w| - 1], k, i);
    }
  }

  /** At a constant rate an observation's weight falls by the factor 1 - alpha with every later one. */
  lemma {:induction false} WeightsDecay(alpha: real, n: nat, i: nat)
    requires i <= n
    ensures Decayed(alpha, n)[i] == Times(if i == 0 then 1.0 else alpha, Power(1.0 - alpha, n - i))
  {
    hide Times, Scaled;
    var a := if i == 0 then 1.0 else alpha;
    if i < n {
      WeightsDecay(alpha, n - 1, i);
      ScaledAt(Decayed(alpha, n - 1), 1.0 - alpha, i);
      Exchange(1.0 - alpha, a, Power(1.0 - alpha, n - 1 - i));
    } else {
      One(a);
    }
  }

  function Distance(x: real, y: real): real {
    if x < y then y - x else x - y
  }

  /** The rate that is used for a: a itself if it is one, and else the nearest there is. */
  ghost predicate RateFor(alpha: real, a: real) {
    && 0.0 <= alpha <= 1.0
    && (0.0 <= a <= 1.0 ==> alpha == a)
    && forall t | 0.0 <= t <= 1.0 :: Distance(alpha, a) <= Distance(t, a)
  }

  // ---------------------------------------------------------------------------
  // The estimator
  // ---------------------------------------------------------------------------

  class ExponentialMovingVariance {
    var alpha: real
    var average: real
    var variance: real
    ghost var observations: seq<real>
    ghost var weights: seq<real>

    /** Average and variance are those of every observation since the last reset, under weights
        that are non-negative and sum to one. */
    ghost predicate Valid()
      reads this
    {
      && 0.0 <= alpha <= 1.0
      && |weights| == |observations| > 0 && Weights(weights)
      && average == Mean(weights, observations)
      && variance == Variance(weights, observations)
    }

    /** Every observation since the last reset was made at the present rate. */
    ghost predicate Steady()
      reads this
    {
      |observations| > 0 && weights == Decayed(alpha, |observations| - 1)
    }

    static function Clamp(a: real): real {
      if a < 0.0 then 0.0 else if a > 1.0 then 1.0 else a
    }

    constructor (a: real, observation: real)
      ensures Valid() && Steady() && RateFor(alpha, a) && observations == [observation]
      ensures average == observation && variance == 0.0
    {
      alpha, average, variance := Clamp(a), observation, 0.0;
      observations, weights := [observation], [1.0];
      new;
      SingleObservation(observation);
    }

    method Reset(observation: real)
      requires Valid()
      modifies this
      ensures Valid() && Steady() && alpha == old(alpha) && observations == [observation]
      ensures average == observation && variance == 0.0
    {
      average, variance := observation, 0.0;
      observations, weights := [observation], [1.0];
      SingleObservation(observation);
    }

    /** The rate may change between observations; what was observed keeps its weight. */
    method SetAlpha(a: real)
      requires Valid()
      modifies this`alpha
      ensures Valid() && RateFor(alpha, a)
    {
      alpha := Clamp(a);
    }

    /** Integrate one observation. */
    method Process(observation: real) returns (delta: real)
      requires Valid()
      modifies this
      ensures Valid() && alpha == old(alpha)
      ensures observations == old(observations) + [observation] && weights == Reweighted(old(weights), alpha)
      ensures delta == observation - old(average)
      ensures old(Steady()) ==> Steady()
    {
      hide Spread, Mean, Total, Weights, Reweighted, Variance;
      ghost var w, x := Reweighted(weights, alpha), observations + [observation];
      ProcessFacts(observation);
      delta := observation - average;
      var m := average + alpha * delta;
      var v := (1.0 - alpha) * (variance + alpha * delta * delta);
      assert m == Mean(w, x) && v == Variance(w, x);
      average, variance := m, v;
      weights, observations := w, x;
    }

    /** What one step of the recursion computes. */
    lemma ProcessFacts(o: real)
      requires Valid()
      ensures var w, x := Reweighted(weights, alpha), observations + [o];
        var delta := o - average;
        && |w| == |x| && Weights(w)
        && Mean(w, x) == average + alpha * delta
        && Variance(w, x) == (1.0 - alpha) * (variance + alpha * delta * delta)
    {
      hide Spread, Mean, Total, NonNegative, Variance, Times;
      var w, x := Reweighted(weights, alpha), observations + [o];
      Observed(weights, observations, alpha, o);
      ReweightedNonNegative(weights, alpha);
      VarianceIsMoments(weights, observations);
      RecursionAlgebra(Spread(weights, observations, 0.0), average, alpha, o);
      MomentsMove(Spread(weights, observations, 0.0), average, alpha, o);
      VarianceIsMoments(w, x);
    }

    /** At one rate the weights are those of exponential decay, and so are average and variance. */
    lemma SteadyWeights(i: nat)
      requires Valid() && Steady() && i < |observations|
      ensures weights[i] == Times(if i == 0 then 1.0 else alpha, Power(1.0 - alpha, |observations| - 1 - i))
      ensures average == Mean(Decayed(alpha, |observations| - 1), observations)
      ensures variance == Variance(Decayed(alpha, |observations| - 1), observations)
    {
      hide Spread, Mean, Total, Variance, Times, NonNegative, Decayed, Power;
      WeightsDecay(alpha, |observations| - 1, i);
    }

    /** The variance is the weighted second moment minus the squared average. */
    lemma Moments()
      requires Valid()
      ensures variance == Spread(weights, observations, 0.0) - average * average
    {
      hide Spread, Mean, Total, Variance, Times, NonNegative;
      VarianceIsMoments(weights, observations);
    }

    /** Whatever was observed, the variance is never negative, and no more than a quarter of the
        squared range of the observations. */
    lemma Bounds(lo: real, hi: real)
      requires Valid() && forall i | 0 <= i < |observations| :: lo <= observations[i] <= hi
      ensures 0.0 <= variance <= (hi - lo) * (hi - lo) / 4.0
    {
      hide Spread, Mean, Total, Variance, Times, Weights;
      VarianceBounded(weights, observations, lo, hi);
    }
  }

  lemma MomentsMove(M: real, m: real, alpha: real, o: real)
    ensures Times(1.0 - alpha, m) + Times(alpha, o) == m + alpha * (o - m)
    ensures Times(1.0 - alpha, M) + Times(alpha, Times(o - 0.0, o - 0.0)) == (1.0 - alpha) * M + alpha * (o * o)
    ensures Times(1.0 - alpha, 1.0) + alpha == 1.0
  {
    assert (o - 0.0) * (o - 0.0) == o * o;
  }

  lemma ReweightedNonNegative(w: seq<real>, alpha: real)
    requires NonNegative(w) && 0.0 <= alpha <= 1.0
    ensures NonNegative(Reweighted(w, alpha))
  {
    ScaledNonNegative(w, 1.0 - alpha);
  }

  lemma SingleObservation(o: real)
    ensures Weights([1.0]) && Mean([1.0], [o]) == o && Variance([1.0], [o]) == 0.0
  {
    assert [1.0][..0] == [] && [o][..0] == [];
    assert Mean([1.0], [o]) == Mean([], []) + Times(1.0, o) == o;
    var square := Times(o - o, o - o);
    assert Spread([1.0], [o], o) == Spread([], [], o) + Times(1.0, square);
    assert square == 0.0 && Times(1.0, square) == 0.0;
  }

  /** An estimator that was made for rate a and has processed observations one after the other shows
      their mean and variance under exponentially decaying weights of that rate. */
  method Estimate(a: real, observations: seq<real>) returns (estimator: ExponentialMovingVariance)
    requires observations != []
    ensures fresh(estimator) && estimator.Valid() && estimator.observations == observations
    ensures RateFor(estimator.alpha, a)
    ensures var w := Decayed(estimator.alpha, |observations| - 1);
      && estimator.average == Mean(w, observations)
      && estimator.variance == Variance(w, observations)
      && estimator.variance == Spread(w, observations, 0.0) - Mean(w, observations) * Mean(w, observations)
    ensures 0.0 <= a <= 1.0 ==> forall i | 0 <= i < |observations| ::
      estimator.weights[i] == Times(if i == 0 then 1.0 else a, Power(1.0 - a, |observations| - 1 - i))
  {
    hide Spread, Mean, Total, Variance, Times, Decayed, Power, NonNegative;
    estimator := new ExponentialMovingVariance(a, observations[0]);
    var n := 1;
    while n < |observations|
      invariant 1 <= n <= |observations| && fresh(estimator)
      invariant estimator.Valid() && estimator.Steady() && estimator.observations == observations[..n]
      invariant RateFor(estimator.alpha, a)
    {
      var delta := estimator.Process(observations[n]);
      assert observations[..n + 1] == observations[..n] + [observations[n]];
      n := n + 1;
    }
    assert observations[..n] == observations;
    VarianceIsMoments(estimator.weights, observations);
    forall i | 0 <= i < |observations|
      ensures estimator.weights[i] ==
        Times(if i == 0 then 1.0 else estimator.alpha, Power(1.0 - estimator.alpha, |observations| - 1 - i))
    {
      estimator.SteadyWeights(i);
    }
  }
}
