/** The maximisation step of the Gaussian mixture: weights and regularised covariances. */
module PitchClustering {
  import opened Wrappers
  import opened LinearAlgebra
  import opened Covariance

  const REGULARIZATION: real := 0.00001
  const SMALLEST_MASS: real := 0.000000000001

  datatype Component = Component(mean: Vec3, covariance: Sym3, weight: real)

  ghost predicate ValidResponsibilities(responsibilities: seq<real>, rows: nat, k: nat) {
    && |responsibilities| == rows * k
    && forall i :: 0 <= i < |responsibilities| ==> 0.0 <= responsibilities[i]
  }

  lemma {:induction false} IndexInRange(rows: nat, k: nat, i: nat, j: nat)
    requires i < rows && j < k
    ensures i * k + j < rows * k
  {
    assert (i + 1) * k <= rows * k;
    assert (i + 1) * k == i * k + k;
  }

  /** The column of responsibilities of component `j`. */
  function Column(responsibilities: seq<real>, rows: nat, k: nat, j: nat): (c: seq<real>)
    requires |responsibilities| == rows * k && j < k
    ensures |c| == rows
  {
    seq(rows, i requires 0 <= i < rows => IndexInRange(rows, k, i, j); responsibilities[i * k + j])
  }

  function Mass(weights: seq<real>, n: nat): real
    requires n <= |weights|
  {
    if n == 0 then 0.0 else Mass(weights, n - 1) + weights[n - 1]
  }

  function WeightedSum3(rows: seq<Vec3>, weights: seq<real>, n: nat): Vec3
    requires n <= |weights| && n <= |rows|
  {
    if n == 0 then Vec3(0.0, 0.0, 0.0) else
      var s, w, r := WeightedSum3(rows, weights, n - 1), weights[n - 1], rows[n - 1];
      Vec3(s.a + Mul(w, r.a), s.b + Mul(w, r.b), s.c + Mul(w, r.c))
  }

  /** Covariance about `mean`, with every weight divided by the mass. */
  function WeightedMoments(rows: seq<Vec3>, weights: seq<real>, mean: Vec3, mass: real, n: nat): Sym3
    requires n <= |weights| && n <= |rows| && mass != 0.0
  {
    if n == 0 then Sym3(0.0, 0.0, 0.0, 0.0, 0.0, 0.0)
    else AddMoment(WeightedMoments(rows, weights, mean, mass, n - 1), weights[n - 1] / mass, Minus(rows[n - 1], mean))
  }

  lemma {:induction false} WeightedMomentsAtLeast(rows: seq<Vec3>, weights: seq<real>, mean: Vec3, mass: real, n: nat)
    requires n <= |weights| && n <= |rows| && 0.0 < mass
    requires forall i :: 0 <= i < |weights| ==> 0.0 <= weights[i]
    ensures AtLeast(WeightedMoments(rows, weights, mean, mass, n), 0.0)
  {
    hide Mul, AtLeast;
    if n == 0 {
      ZeroAtLeast();
    } else {
      WeightedMomentsAtLeast(rows, weights, mean, mass, n - 1);
      NonNegativeQuotient(weights[n - 1], mass);
      MomentKeepsAtLeast(WeightedMoments(rows, weights, mean, mass, n - 1), weights[n - 1] / mass, Minus(rows[n - 1], mean), 0.0);
    }
  }

  lemma {:induction false} NonNegativeQuotient(x: real, y: real)
    requires 0.0 <= x && 0.0 < y
    ensures 0.0 <= x / y
  {}

  function DividedMean(s: Vec3, mass: real): Vec3
    requires mass != 0.0
  {
    Vec3(s.a / mass, s.b / mass, s.c / mass)
  }

  function Identity(): Sym3 {
    Sym3(1.0, 0.0, 0.0, 1.0, 0.0, 1.0)
  }

  /** One component before the weights are normalised. */
  function Estimate(rows: seq<Vec3>, weights: seq<real>, j: nat): Component
    requires |rows| > 0 && |weights| == |rows|
  {
    var mass := Mass(weights, |rows|);
    if mass <= SMALLEST_MASS then Component(rows[j % |rows|], Identity(), SMALLEST_MASS)
    else
      var mean := DividedMean(WeightedSum3(rows, weights, |rows|), mass);
      Component(mean, Regularised(WeightedMoments(rows, weights, mean, mass, |rows|), REGULARIZATION),
        mass / |rows| as real)
  }

  /** Every estimated covariance, empty component or not, has form at least the regularisation. */
  lemma {:induction false} EstimateAtLeast(rows: seq<Vec3>, weights: seq<real>, j: nat)
    requires |rows| > 0 && |weights| == |rows|
    requires forall i :: 0 <= i < |weights| ==> 0.0 <= weights[i]
    ensures AtLeast(Estimate(rows, weights, j).covariance, REGULARIZATION)
    ensures 0.0 < Estimate(rows, weights, j).weight
  {
    var mass := Mass(weights, |rows|);
    if mass <= SMALLEST_MASS {
      IdentityAtLeast();
    } else {
      var mean := DividedMean(WeightedSum3(rows, weights, |rows|), mass);
      WeightedMomentsAtLeast(rows, weights, mean, mass, |rows|);
      RegularisedAtLeast(WeightedMoments(rows, weights, mean, mass, |rows|), 0.0, REGULARIZATION);
      assert 0.0 < mass / |rows| as real;
    }
  }

  lemma {:induction false} IdentityAtLeast()
    ensures AtLeast(Identity(), REGULARIZATION)
  {
    forall u: Vec3 ensures Mul(REGULARIZATION, InnerProduct(u, u)) <= Form(Identity(), u) {
      SquareNonNegative(u.a);
      SquareNonNegative(u.b);
      SquareNonNegative(u.c);
      assert Form(Identity(), u) == InnerProduct(u, u);
    }
  }

  // ---- What an estimate means -------------------------------------------------------------------

  /** The weighted deviations from a point, added up. */
  function WeightedDeviation(rows: seq<Vec3>, weights: seq<real>, mean: Vec3, n: nat): Vec3
    requires n <= |weights| && n <= |rows|
  {
    if n == 0 then Vec3(0.0, 0.0, 0.0) else
      var s, w, r := WeightedDeviation(rows, weights, mean, n - 1), weights[n - 1], rows[n - 1];
      Vec3(s.a + Mul(w, r.a - mean.a), s.b + Mul(w, r.b - mean.b), s.c + Mul(w, r.c - mean.c))
  }

  lemma {:induction false} DeviationOfSum(rows: seq<Vec3>, weights: seq<real>, mean: Vec3, n: nat)
    requires n <= |weights| && n <= |rows|
    ensures var (d, s, m) := (WeightedDeviation(rows, weights, mean, n), WeightedSum3(rows, weights, n), Mass(weights, n));
      d == Vec3(s.a - Mul(m, mean.a), s.b - Mul(m, mean.b), s.c - Mul(m, mean.c))
  {
    hide Mul;
    MulZero(mean.a);
    MulZero(mean.b);
    MulZero(mean.c);
    if n > 0 {
      var m, w, r := Mass(weights, n - 1), weights[n - 1], rows[n - 1];
      DeviationOfSum(rows, weights, mean, n - 1);
      DeviationTerm(m, w, r.a, mean.a);
      DeviationTerm(m, w, r.b, mean.b);
      DeviationTerm(m, w, r.c, mean.c);
    }
  }

  lemma {:induction false} DeviationTerm(m: real, w: real, x: real, mean: real)
    ensures Mul(w, x - mean) == Mul(w, x) - Mul(w, mean) && Mul(m + w, mean) == Mul(m, mean) + Mul(w, mean)
  {}

  lemma {:induction false} MeanTimesMass(x: real, mass: real)
    requires mass != 0.0
    ensures Mul(mass, x / mass) == x
  {}

  /** The mean of a component with mass balances its points. */
  lemma {:induction false} MeanBalances(rows: seq<Vec3>, weights: seq<real>, j: nat)
    requires |rows| > 0 && |weights| == |rows| && Mass(weights, |rows|) > SMALLEST_MASS
    ensures WeightedDeviation(rows, weights, Estimate(rows, weights, j).mean, |rows|) == Vec3(0.0, 0.0, 0.0)
  {
    hide Mul;
    var s, mass := WeightedSum3(rows, weights, |rows|), Mass(weights, |rows|);
    DeviationOfSum(rows, weights, Estimate(rows, weights, j).mean, |rows|);
    MeanTimesMass(s.a, mass);
    MeanTimesMass(s.b, mass);
    MeanTimesMass(s.c, mass);
  }

  /** The squared deviations from `mean` in the direction of `u`, each with its share of the mass. */
  function Spread(rows: seq<Vec3>, weights: seq<real>, mean: Vec3, mass: real, u: Vec3, n: nat): real
    requires n <= |weights| && n <= |rows| && mass != 0.0
  {
    if n == 0 then 0.0 else
      var r := rows[n - 1];
      var along := Mul(u.a, r.a - mean.a) + Mul(u.b, r.b - mean.b) + Mul(u.c, r.c - mean.c);
      Spread(rows, weights, mean, mass, u, n - 1) + Mul(weights[n - 1] / mass, Mul(along, along))
  }

  lemma {:induction false} MomentsAreSpread(rows: seq<Vec3>, weights: seq<real>, mean: Vec3, mass: real, u: Vec3, n: nat)
    requires n <= |weights| && n <= |rows| && mass != 0.0
    ensures Form(WeightedMoments(rows, weights, mean, mass, n), u) == Spread(rows, weights, mean, mass, u, n)
  {
    hide Mul, Form;
    if n == 0 {
      FormOfZero(u);
    } else {
      MomentsAreSpread(rows, weights, mean, mass, u, n - 1);
      FormOfMoment(WeightedMoments(rows, weights, mean, mass, n - 1), weights[n - 1] / mass, Minus(rows[n - 1], mean), u);
    }
  }

  lemma {:induction false} FormOfZero(u: Vec3)
    ensures Form(Sym3(0.0, 0.0, 0.0, 0.0, 0.0, 0.0), u) == 0.0
  {}

  lemma {:induction false} FormOfRegularised(m: Sym3, reg: real, u: Vec3)
    ensures Form(Regularised(m, reg), u) == Form(m, u) + Mul(reg, Mul(u.a, u.a) + Mul(u.b, u.b) + Mul(u.c, u.c))
  {
    hide Mul;
    Distribute(m.aa, reg, Mul(u.a, u.a));
    Distribute(m.bb, reg, Mul(u.b, u.b));
    Distribute(m.cc, reg, Mul(u.c, u.c));
    Distribute(Mul(u.a, u.a) + Mul(u.b, u.b), Mul(u.c, u.c), reg);
    Distribute(Mul(u.a, u.a), Mul(u.b, u.b), reg);
  }

  /** In every direction the covariance is the weighted mean square of the deviations plus the regularisation. */
  lemma {:induction false} CovarianceIsSpread(rows: seq<Vec3>, weights: seq<real>, j: nat, u: Vec3)
    requires |rows| > 0 && |weights| == |rows| && Mass(weights, |rows|) > SMALLEST_MASS
    ensures var c, mass := Estimate(rows, weights, j), Mass(weights, |rows|);
      Form(c.covariance, u) == Spread(rows, weights, c.mean, mass, u, |rows|)
        + Mul(0.00001, Mul(u.a, u.a) + Mul(u.b, u.b) + Mul(u.c, u.c))
  {
    hide Mul, Form, Spread, WeightedMoments, Regularised;
    var c, mass := Estimate(rows, weights, j), Mass(weights, |rows|);
    MomentsAreSpread(rows, weights, c.mean, mass, u, |rows|);
    FormOfRegularised(WeightedMoments(rows, weights, c.mean, mass, |rows|), REGULARIZATION, u);
  }

  /** A component without mass sits on one of the points with a unit covariance and a vanishing weight. */
  lemma {:induction false} EmptyComponent(rows: seq<Vec3>, weights: seq<real>, j: nat, u: Vec3)
    requires |rows| > 0 && |weights| == |rows| && Mass(weights, |rows|) <= SMALLEST_MASS
    ensures var c := Estimate(rows, weights, j);
      c.mean in rows && c.weight == 0.000000000001
      && Form(c.covariance, u) == Mul(u.a, u.a) + Mul(u.b, u.b) + Mul(u.c, u.c)
  {
    assert rows[j % |rows|] in rows;
  }

  function TotalWeight(components: seq<Component>, n: nat): real
    requires n <= |components|
  {
    if n == 0 then 0.0 else TotalWeight(components, n - 1) + components[n - 1].weight
  }

  /** The component estimated from column `j`, up to the common factor of the weights. */
  ghost predicate IsMaximised(
      components: seq<Component>, rows: seq<Vec3>, responsibilities: seq<real>, k: nat, total: real)
    requires |rows| > 0 && |responsibilities| == |rows| * k && total != 0.0
  {
    && |components| == k
    && forall j :: 0 <= j < k ==>
      var e := Estimate(rows, Column(responsibilities, |rows|, k, j), j);
      components[j] == e.(weight := e.weight / total)
  }

  method EstimateComponent(rows: seq<Vec3>, responsibilities: seq<real>, k: nat, j: nat) returns (c: Component)
    requires |rows| > 0 && |responsibilities| == |rows| * k && j < k
    ensures c == Estimate(rows, Column(responsibilities, |rows|, k, j), j)
  {
    hide Mul;
    ghost var weights := Column(responsibilities, |rows|, k, j);
    var sum, mass := Vec3(0.0, 0.0, 0.0), 0.0;
    for i := 0 to |rows|
      invariant mass == Mass(weights, i) && sum == WeightedSum3(rows, weights, i)
    {
      IndexInRange(|rows|, k, i, j);
      var w := responsibilities[i * k + j];
      mass := mass + w;
      sum := Vec3(sum.a + Mul(w, rows[i].a), sum.b + Mul(w, rows[i].b), sum.c + Mul(w, rows[i].c));
    }
    if mass <= SMALLEST_MASS {
      return Component(rows[j % |rows|], Identity(), SMALLEST_MASS);
    }
    var mean := DividedMean(sum, mass);
    var moments := Sym3(0.0, 0.0, 0.0, 0.0, 0.0, 0.0);
    for i := 0 to |rows|
      invariant moments == WeightedMoments(rows, weights, mean, mass, i)
    {
      IndexInRange(|rows|, k, i, j);
      moments := AddMoment(moments, responsibilities[i * k + j] / mass, Minus(rows[i], mean));
    }
    c := Component(mean, Regularised(moments, REGULARIZATION), mass / |rows| as real);
  }

  lemma {:induction false} ColumnNonNegative(responsibilities: seq<real>, rows: nat, k: nat, j: nat)
    requires ValidResponsibilities(responsibilities, rows, k) && j < k
    ensures forall i :: 0 <= i < rows ==> 0.0 <= Column(responsibilities, rows, k, j)[i]
  {
    forall i | 0 <= i < rows ensures 0.0 <= Column(responsibilities, rows, k, j)[i] {
      IndexInRange(rows, k, i, j);
    }
  }

  method EstimateAll(rows: seq<Vec3>, responsibilities: seq<real>, k: nat) returns (raw: seq<Component>)
    requires |rows| > 0 && |responsibilities| == |rows| * k && ValidResponsibilities(responsibilities, |rows|, k)
    ensures |raw| == k
    ensures forall j :: 0 <= j < k ==> raw[j] == Estimate(rows, Column(responsibilities, |rows|, k, j), j)
    ensures forall j :: 0 <= j < k ==> 0.0 < raw[j].weight
  {
    hide Estimate, ValidResponsibilities, Column;
    raw := [];
    for j := 0 to k
      invariant |raw| == j
      invariant forall t :: 0 <= t < j ==> raw[t] == Estimate(rows, Column(responsibilities, |rows|, k, t), t)
      invariant forall t :: 0 <= t < j ==> 0.0 < raw[t].weight
    {
      var c := EstimateComponent(rows, responsibilities, k, j);
      ColumnNonNegative(responsibilities, |rows|, k, j);
      EstimateAtLeast(rows, Column(responsibilities, |rows|, k, j), j);
      raw := raw + [c];
    }
  }

  method Normalise(raw: seq<Component>) returns (components: seq<Component>, ghost total: real)
    requires |raw| > 0 && forall j :: 0 <= j < |raw| ==> 0.0 < raw[j].weight
    ensures 0.0 < total && |components| == |raw| && TotalWeight(components, |raw|) == 1.0
    ensures forall j :: 0 <= j < |raw| ==> components[j] == raw[j].(weight := raw[j].weight / total)
  {
    var sum := 0.0;
    for j := 0 to |raw|
      invariant sum == TotalWeight(raw, j) && (j > 0 ==> 0.0 < sum) && 0.0 <= sum
    {
      sum := sum + raw[j].weight;
    }
    total := sum;
    components := [];
    for j := 0 to |raw|
      invariant |components| == j
      invariant forall t :: 0 <= t < j ==> components[t] == raw[t].(weight := raw[t].weight / sum)
    {
      components := components + [raw[j].(weight := raw[j].weight / sum)];
    }
    NormalisedTotal(raw, components, sum, |raw|);
    DivideBySelf(sum);
  }

  lemma {:induction false} DivideBySelf(x: real)
    requires x != 0.0
    ensures x / x == 1.0
  {}

  /** Mixture weights sum to 1, and every component is the estimate of its column. */
  method Maximize(
      rows: seq<Vec3>, responsibilities: seq<real>, k: nat) returns (components: seq<Component>, ghost total: real)
    requires |rows| > 0 && k > 0 && |responsibilities| == |rows| * k && ValidResponsibilities(responsibilities, |rows|, k)
    ensures 0.0 < total && IsMaximised(components, rows, responsibilities, k, total)
    ensures |components| == k && TotalWeight(components, k) == 1.0
  {
    hide Estimate, ValidResponsibilities, Column;
    var raw := EstimateAll(rows, responsibilities, k);
    components, total := Normalise(raw);
  }

  lemma {:induction false} NormalisedTotal(raw: seq<Component>, components: seq<Component>, total: real, n: nat)
    requires n <= |raw| == |components| && total != 0.0
    requires forall t :: 0 <= t < |raw| ==> components[t].weight == raw[t].weight / total
    ensures TotalWeight(components, n) == TotalWeight(raw, n) / total
  {
    if n > 0 { NormalisedTotal(raw, components, total, n - 1); }
  }

  /** The weights of two components with mass are in the proportion of their masses. */
  lemma {:induction false} WeightsAreProportional(components: seq<Component>, rows: seq<Vec3>, responsibilities: seq<real>,
      k: nat, total: real, i: nat, j: nat)
    requires |rows| > 0 && |responsibilities| == |rows| * k && 0.0 < total && i < k && j < k
    requires IsMaximised(components, rows, responsibilities, k, total)
    requires Mass(Column(responsibilities, |rows|, k, i), |rows|) > SMALLEST_MASS
    requires Mass(Column(responsibilities, |rows|, k, j), |rows|) > SMALLEST_MASS
    ensures Mul(components[i].weight, Mass(Column(responsibilities, |rows|, k, j), |rows|))
      == Mul(components[j].weight, Mass(Column(responsibilities, |rows|, k, i), |rows|))
  {
    hide Mul, Column, Mass, WeightedMoments, WeightedSum3, Regularised;
    CrossRatio(Mass(Column(responsibilities, |rows|, k, i), |rows|), Mass(Column(responsibilities, |rows|, k, j), |rows|),
      |rows| as real, total);
  }

  lemma {:induction false} CrossRatio(x: real, y: real, n: real, total: real)
    requires n > 0.0 && total > 0.0
    ensures Mul(x / n / total, y) == Mul(y / n / total, x)
  {}

  /** In the expectation step no factorisation fails, and each factor gives back its covariance. */
  lemma {:induction false} MaximisedFactorises(components: seq<Component>, rows: seq<Vec3>, responsibilities: seq<real>,
      k: nat, total: real, root: real -> real, j: nat)
    requires |rows| > 0 && ValidResponsibilities(responsibilities, |rows|, k) && 0.0 < total && j < k
    requires IsMaximised(components, rows, responsibilities, k, total) && IsRoot(root)
    ensures Cholesky(components[j].covariance, root).Some? && 0.0 < components[j].weight
    ensures var l := Cholesky(components[j].covariance, root).value;
      PositiveDiagonal(l) && Factors(l, components[j].covariance)
  {
    hide Mul, Cholesky, Factors, Estimate;
    var weights := Column(responsibilities, |rows|, k, j);
    ColumnNonNegative(responsibilities, |rows|, k, j);
    EstimateAtLeast(rows, weights, j);
    CholeskySucceeds(components[j].covariance, root, REGULARIZATION);
    assert 0.0 < Estimate(rows, weights, j).weight / total;
  }
}
