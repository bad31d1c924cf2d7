/** The empirical reference distribution of pitch positions: covariance, distances, coverage radii. */
module PitchExpectation {
  import opened Wrappers
  import opened LinearAlgebra
  import opened Covariance

  const REGULARIZATION_CM2: real := 0.0001

  /** Positions are (xCm, distanceToPlateCm, zCm). */
  type Position = Vec3

  datatype Contour = Contour(radius: real, includedCount: nat)

  datatype Distribution = Distribution(
    sampleCount: nat, center: Position, transform: Lower3, central50: Contour, central90: Contour)

  datatype Fit = TooFew | InvalidCovariance | Fitted(distribution: Distribution)

  datatype Band = Core50 | Shell90 | Outside90

  // ---- Moments ----------------------------------------------------------------------------------

  function Plus(p: Vec3, q: Vec3): Vec3 {
    Vec3(p.a + q.a, p.b + q.b, p.c + q.c)
  }

  function Share(w: real, p: Vec3): Vec3 {
    Vec3(Mul(w, p.a), Mul(w, p.b), Mul(w, p.c))
  }

  function Center(points: seq<Position>, w: real, k: nat): Vec3
    requires k <= |points|
  {
    if k == 0 then Vec3(0.0, 0.0, 0.0) else Plus(Center(points, w, k - 1), Share(w, points[k - 1]))
  }

  function BaseMoment(): Sym3 {
    Sym3(REGULARIZATION_CM2, 0.0, 0.0, REGULARIZATION_CM2, 0.0, REGULARIZATION_CM2)
  }

  function Moments(points: seq<Position>, center: Vec3, w: real, k: nat): Sym3
    requires k <= |points|
  {
    if k == 0 then BaseMoment()
    else AddMoment(Moments(points, center, w, k - 1), w, Minus(points[k - 1], center))
  }

  lemma {:induction false} MomentsAtLeast(points: seq<Position>, center: Vec3, w: real, k: nat)
    requires k <= |points| && 0.0 <= w
    ensures AtLeast(Moments(points, center, w, k), REGULARIZATION_CM2)
  {
    hide AtLeast, Mul;
    if k == 0 {
      ZeroAtLeast();
      RegularisedAtLeast(Sym3(0.0, 0.0, 0.0, 0.0, 0.0, 0.0), 0.0, REGULARIZATION_CM2);
    } else {
      MomentsAtLeast(points, center, w, k - 1);
      MomentKeepsAtLeast(Moments(points, center, w, k - 1), w, Minus(points[k - 1], center), REGULARIZATION_CM2);
    }
  }

  /** The squared deviations from `center` in the direction of `u`, each with weight `w`. */
  function Spread(points: seq<Position>, center: Vec3, w: real, u: Vec3, k: nat): real
    requires k <= |points|
  {
    if k == 0 then 0.0 else
      var p := points[k - 1];
      var along := Mul(u.a, p.a - center.a) + Mul(u.b, p.b - center.b) + Mul(u.c, p.c - center.c);
      Spread(points, center, w, u, k - 1) + Mul(w, Mul(along, along))
  }

  /** In every direction the covariance is the mean square of the deviations plus the regularisation. */
  lemma {:induction false} CovarianceIsSpread(points: seq<Position>, center: Vec3, w: real, u: Vec3, k: nat)
    requires k <= |points|
    ensures Form(Moments(points, center, w, k), u) == Spread(points, center, w, u, k)
      + Mul(0.0001, Mul(u.a, u.a) + Mul(u.b, u.b) + Mul(u.c, u.c))
  {
    hide Mul, Form;
    if k == 0 {
      FormOfBase(u);
    } else {
      CovarianceIsSpread(points, center, w, u, k - 1);
      FormOfMoment(Moments(points, center, w, k - 1), w, Minus(points[k - 1], center), u);
    }
  }

  lemma {:induction false} FormOfBase(u: Vec3)
    ensures Form(BaseMoment(), u) == Mul(0.0001, Mul(u.a, u.a) + Mul(u.b, u.b) + Mul(u.c, u.c))
  {}

  /** The sum of the deviations from `center` of the first `k` points. */
  function Deviations(points: seq<Position>, center: Vec3, k: nat): Vec3
    requires k <= |points|
  {
    if k == 0 then Vec3(0.0, 0.0, 0.0) else Plus(Deviations(points, center, k - 1), Minus(points[k - 1], center))
  }

  /** The center is the mean: deviations from it cancel. */
  lemma {:induction false} CenterBalances(points: seq<Position>)
    requires |points| > 0
    ensures Deviations(points, Center(points, 1.0 / |points| as real, |points|), |points|) == Vec3(0.0, 0.0, 0.0)
  {
    var n := |points| as real;
    var center := Center(points, 1.0 / n, |points|);
    DeviationsOfCenter(points, center, n, |points|);
    assert n * (1.0 / n) == 1.0;
  }

  lemma {:induction false} DeviationsOfCenter(points: seq<Position>, center: Vec3, n: real, k: nat)
    requires k <= |points| && n != 0.0
    ensures var d, c := Deviations(points, center, k), Center(points, 1.0 / n, k);
      && d.a == Mul(n, c.a) - Mul(k as real, center.a)
      && d.b == Mul(n, c.b) - Mul(k as real, center.b)
      && d.c == Mul(n, c.c) - Mul(k as real, center.c)
  {
    hide Mul;
    MulZero(n);
    MulZero(center.a);
    MulZero(center.b);
    MulZero(center.c);
    if k > 0 {
      var c, p := Center(points, 1.0 / n, k - 1), Share(1.0 / n, points[k - 1]);
      Distribute(c.a, p.a, n);
      Distribute(c.b, p.b, n);
      Distribute(c.c, p.c, n);
      OneMore(k - 1, center.a);
      OneMore(k - 1, center.b);
      OneMore(k - 1, center.c);
      DeviationsOfCenter(points, center, n, k - 1);
      ShareTimes(n, points[k - 1].a);
      ShareTimes(n, points[k - 1].b);
      ShareTimes(n, points[k - 1].c);
    }
  }

  lemma {:induction false} ShareTimes(n: real, x: real)
    requires n != 0.0
    ensures Mul(n, Mul(1.0 / n, x)) == x
  {
    assert n * ((1.0 / n) * x) == (n * (1.0 / n)) * x;
  }

  lemma {:induction false} OneMore(k: nat, x: real)
    ensures Mul((k + 1) as real, x) == Mul(k as real, x) + x
  {
    assert (k + 1) as real == k as real + 1.0;
  }

  // ---- Distances and bands ----------------------------------------------------------------------

  function PitchReferenceDistance(point: Position, center: Position, transform: Lower3, root: real -> real): real
    requires PositiveDiagonal(transform)
  {
    var v := Solve(transform, Minus(point, center));
    root(InnerProduct(v, v))
  }

  function Max(x: real, y: real): real {
    if x < y then y else x
  }

  predicate Inside(distance: real, radius: real) {
    distance <= radius + 0.0000000001 * Max(1.0, radius)
  }

  function ClassifyPitchReference(point: Position, distribution: Option<Distribution>, root: real -> real): Option<Band>
    requires distribution.Some? ==> PositiveDiagonal(distribution.value.transform)
  {
    match distribution
    case None => None
    case Some(d) =>
      var distance := PitchReferenceDistance(point, d.center, d.transform, root);
      if Inside(distance, d.central50.radius) then Some(Core50)
      else if Inside(distance, d.central90.radius) then Some(Shell90) else Some(Outside90)
  }

  predicate WithinReach(distance: real, radius: real) {
    distance - radius <= 0.0000000001 || (radius > 1.0 && distance - radius <= 0.0000000001 * radius)
  }

  /** Inside means at most 1e-10 beyond the radius, or that share of a radius above one. */
  lemma {:induction false} InsideExactly(distance: real, radius: real)
    ensures Inside(distance, radius) <==> WithinReach(distance, radius)
    ensures Inside(distance, radius) <==> distance <= Reach(radius)
  {
  }

  /** The band of a point by its distance from the center alone. */
  lemma {:induction false} BandExactly(point: Position, d: Distribution, root: real -> real)
    requires PositiveDiagonal(d.transform)
    ensures var distance, band := PitchReferenceDistance(point, d.center, d.transform, root),
                                  ClassifyPitchReference(point, Some(d), root);
      && (band == Some(Core50) <==> WithinReach(distance, d.central50.radius))
      && (band == Some(Shell90) <==> !WithinReach(distance, d.central50.radius) && WithinReach(distance, d.central90.radius))
      && (band == Some(Outside90) <==> !WithinReach(distance, d.central50.radius) && !WithinReach(distance, d.central90.radius))
    ensures ClassifyPitchReference(point, None, root) == None
  {
    var distance := PitchReferenceDistance(point, d.center, d.transform, root);
    InsideExactly(distance, d.central50.radius);
    InsideExactly(distance, d.central90.radius);
  }

  // ---- Sorting and quantiles --------------------------------------------------------------------

  predicate Sorted(s: seq<real>) {
    forall i, j :: 0 <= i < j < |s| ==> s[i] <= s[j]
  }

  function Insert(x: real, s: seq<real>): (r: seq<real>)
    ensures |r| == |s| + 1
  {
    if s == [] then [x] else if x <= s[0] then [x] + s else [s[0]] + Insert(x, s[1..])
  }

  function Sort(s: seq<real>): (r: seq<real>)
    ensures |r| == |s|
  {
    if s == [] then [] else Insert(s[0], Sort(s[1..]))
  }

  /** How many entries are at most (or, when strict, below) the bound. */
  function CountUpTo(s: seq<real>, bound: real, strict: bool): nat {
    if s == [] then 0
    else (if s[0] < bound || (!strict && s[0] == bound) then 1 else 0) + CountUpTo(s[1..], bound, strict)
  }

  lemma {:induction false} InsertSorted(x: real, s: seq<real>)
    requires Sorted(s)
    ensures Sorted(Insert(x, s))
    ensures forall i :: 0 <= i < |Insert(x, s)| ==> Insert(x, s)[i] == x || Insert(x, s)[i] in s
  {
    if s != [] && s[0] < x { InsertSorted(x, s[1..]); }
  }

  lemma {:induction false} InsertCounts(x: real, s: seq<real>, bound: real, strict: bool)
    ensures CountUpTo(Insert(x, s), bound, strict)
         == CountUpTo(s, bound, strict) + if x < bound || (!strict && x == bound) then 1 else 0
  {
    if s == [] {
    } else if x <= s[0] {
      assert ([x] + s)[1..] == s;
    } else {
      InsertCounts(x, s[1..], bound, strict);
      assert ([s[0]] + Insert(x, s[1..]))[1..] == Insert(x, s[1..]);
    }
  }

  lemma {:induction false} SortCorrect(s: seq<real>, bound: real, strict: bool)
    ensures Sorted(Sort(s)) && CountUpTo(Sort(s), bound, strict) == CountUpTo(s, bound, strict)
  {
    if s != [] {
      SortCorrect(s[1..], bound, strict);
      InsertSorted(s[0], Sort(s[1..]));
      InsertCounts(s[0], Sort(s[1..]), bound, strict);
    }
  }

  lemma {:induction false} SortedCounts(s: seq<real>, i: nat, bound: real)
    requires Sorted(s) && i < |s| && bound == s[i]
    ensures i + 1 <= CountUpTo(s, bound, false) && CountUpTo(s, bound, true) <= i
  {
    if i == 0 {
      NoneBelow(s, bound);
    } else {
      SortedCounts(s[1..], i - 1, bound);
    }
  }

  lemma {:induction false} NoneBelow(s: seq<real>, bound: real)
    requires forall i :: 0 <= i < |s| ==> bound <= s[i]
    ensures CountUpTo(s, bound, true) == 0
  {
    if s != [] { NoneBelow(s[1..], bound); }
  }

  lemma {:induction false} CountMonotone(s: seq<real>, low: real, high: real)
    requires low <= high
    ensures CountUpTo(s, low, false) <= CountUpTo(s, high, false)
  {
    if s != [] { CountMonotone(s[1..], low, high); }
  }

  /** The rank of the coverage quantile: the least integer at least n . coverage. */
  function Needed(n: nat, coverage: real): int {
    -(-(n as real * coverage)).Floor
  }

  /** No smaller integer reaches the share of the sample. */
  lemma {:induction false} NeededIsLeast(n: nat, coverage: real, m: int)
    ensures m >= Needed(n, coverage) <==> m as real >= n as real * coverage
  {
    var share := n as real * coverage;
    assert (-m) as real == -(m as real);
    assert -m <= (-share).Floor <==> (-m) as real <= -share;
  }

  /** At least `needed` entries are at most `radius`, and fewer are below it. */
  ghost predicate IsQuantile(s: seq<real>, radius: real, needed: int) {
    needed <= CountUpTo(s, radius, false) && CountUpTo(s, radius, true) < needed
  }

  lemma {:induction false} QuantileOfSorted(s: seq<real>, needed: int)
    requires 1 <= needed <= |s|
    ensures IsQuantile(s, Sort(s)[needed - 1], needed)
  {
    var r := Sort(s)[needed - 1];
    SortCorrect(s, r, false);
    SortCorrect(s, r, true);
    SortedCounts(Sort(s), needed - 1, r);
  }

  /** A quantile is determined by the entries and the rank. */
  lemma {:induction false} QuantileUnique(s: seq<real>, r: real, t: real, needed: int)
    requires IsQuantile(s, r, needed) && IsQuantile(s, t, needed)
    ensures r == t
  {
    if r < t { BelowIncludes(s, r, t); }
    if t < r { BelowIncludes(s, t, r); }
  }

  lemma {:induction false} BelowIncludes(s: seq<real>, low: real, high: real)
    requires low < high
    ensures CountUpTo(s, low, false) <= CountUpTo(s, high, true)
  {
    if s != [] { BelowIncludes(s[1..], low, high); }
  }

  // ---- Fitting ----------------------------------------------------------------------------------

  function Distances(points: seq<Position>, center: Position, transform: Lower3, root: real -> real): (d: seq<real>)
    requires PositiveDiagonal(transform)
    ensures |d| == |points|
  {
    seq(|points|, i requires 0 <= i < |points| => PitchReferenceDistance(points[i], center, transform, root))
  }

  /** The bound that `Inside` compares with. */
  function Reach(radius: real): (r: real)
    ensures radius < r
  {
    radius + 0.0000000001 * Max(1.0, radius)
  }

  ghost predicate IsContour(c: Contour, distances: seq<real>, coverage: real) {
    && IsQuantile(distances, c.radius, Needed(|distances|, coverage))
    && c.includedCount == CountUpTo(distances, Reach(c.radius), false)
  }

  /** Everything a fitted distribution promises about its sample. */
  ghost predicate Describes(d: Distribution, points: seq<Position>, root: real -> real) {
    && d.sampleCount == |points| && |points| >= 4
    && d.center == Center(points, 1.0 / |points| as real, |points|)
    && PositiveDiagonal(d.transform)
    && Factors(d.transform, Moments(points, d.center, 1.0 / |points| as real, |points|))
    && IsContour(d.central50, Distances(points, d.center, d.transform, root), 0.5)
    && IsContour(d.central90, Distances(points, d.center, d.transform, root), 0.9)
  }

  method ComputeCenter(points: seq<Position>) returns (center: Vec3)
    requires |points| > 0
    ensures center == Center(points, 1.0 / |points| as real, |points|)
  {
    hide Mul;
    center := Vec3(0.0, 0.0, 0.0);
    for k := 0 to |points|
      invariant center == Center(points, 1.0 / |points| as real, k)
    {
      center := Plus(center, Share(1.0 / |points| as real, points[k]));
    }
  }

  method ComputeMoments(points: seq<Position>, center: Vec3) returns (m: Sym3)
    requires |points| > 0
    ensures m == Moments(points, center, 1.0 / |points| as real, |points|)
  {
    hide Mul;
    m := BaseMoment();
    for k := 0 to |points|
      invariant m == Moments(points, center, 1.0 / |points| as real, k)
    {
      m := AddMoment(m, 1.0 / |points| as real, Minus(points[k], center));
    }
  }

  method ComputeContour(distances: seq<real>, sorted: seq<real>, coverage: real) returns (c: Contour)
    requires |distances| > 0 && 0.0 < coverage <= 1.0 && sorted == Sort(distances)
    ensures IsContour(c, distances, coverage)
  {
    NeededInRange(|distances|, coverage);
    var radius := sorted[Needed(|distances|, coverage) - 1];
    QuantileOfSorted(distances, Needed(|distances|, coverage));
    SortCorrect(distances, Reach(radius), false);
    var included := 0;
    for k := 0 to |sorted|
      invariant included + CountUpTo(sorted[k..], Reach(radius), false) == CountUpTo(sorted, Reach(radius), false)
    {
      assert sorted[k..][1..] == sorted[k + 1..];
      if Inside(sorted[k], radius) { included := included + 1; }
    }
    c := Contour(radius, included);
  }

  lemma {:induction false} NeededInRange(n: nat, coverage: real)
    requires n > 0 && 0.0 < coverage <= 1.0
    ensures 1 <= Needed(n, coverage) <= n
    ensures (Needed(n, coverage) - 1) as real < n as real * coverage <= Needed(n, coverage) as real
  {
    var x := n as real * coverage;
    assert 0.0 < x;
    assert n as real - x == n as real * (1.0 - coverage) >= 0.0;
  }

  /** Never reports an invalid covariance: over the reals the original's throw is unreachable. */
  method FitPitchReferenceDistribution(input: seq<Position>, root: real -> real) returns (fit: Fit)
    requires IsRoot(root)
    ensures |input| < 4 <==> fit.TooFew?
    ensures !fit.InvalidCovariance?
    ensures fit.Fitted? ==> Describes(fit.distribution, input, root)
  {
    hide Mul, IsRoot, Cholesky, Moments, Center, Distances, Sort, Needed, IsContour, AtLeast, Factors;
    if |input| < 4 { return TooFew; }
    var center := ComputeCenter(input);
    var moments := ComputeMoments(input, center);
    PositiveShare(|input|);
    MomentsAtLeast(input, center, 1.0 / |input| as real, |input|);
    CholeskySucceeds(moments, root, REGULARIZATION_CM2);
    var factor := Cholesky(moments, root);
    if factor.None? { return InvalidCovariance; }
    var transform := factor.value;
    var distances := Distances(input, center, transform, root);
    var sorted := Sort(distances);
    var central50 := ComputeContour(distances, sorted, 0.5);
    var central90 := ComputeContour(distances, sorted, 0.9);
    fit := Fitted(Distribution(|input|, center, transform, central50, central90));
  }

  lemma {:induction false} PositiveShare(n: nat)
    requires n > 0
    ensures 0.0 <= 1.0 / n as real
  {}

  // ---- What the bands mean ----------------------------------------------------------------------

  /** The radii are ordered and each contour holds at least its share of the sample. */
  lemma {:induction false} ContoursCover(d: Distribution, points: seq<Position>, root: real -> real)
    requires Describes(d, points, root)
    ensures d.central50.radius <= d.central90.radius
    ensures |points| as real * 0.5 <= d.central50.includedCount as real
    ensures |points| as real * 0.9 <= d.central90.includedCount as real
    ensures d.central50.includedCount <= d.central90.includedCount
  {
    hide Mul, Distances, Factors, Center;
    var distances := Distances(points, d.center, d.transform, root);
    var r, t := d.central50.radius, d.central90.radius;
    NeededInRange(|points|, 0.5);
    NeededInRange(|points|, 0.9);
    NeededOrdered(|points|);
    if t < r { BelowIncludes(distances, t, r); }
    CountMonotone(distances, r, Reach(r));
    CountMonotone(distances, t, Reach(t));
    ReachMonotone(r, t);
    CountMonotone(distances, Reach(r), Reach(t));
  }

  lemma {:induction false} NeededOrdered(n: nat)
    ensures Needed(n, 0.5) <= Needed(n, 0.9)
  {
    assert n as real * 0.5 <= n as real * 0.9;
  }

  lemma {:induction false} ReachMonotone(r: real, t: real)
    requires r <= t
    ensures Reach(r) <= Reach(t)
  {}

  function CountBand(points: seq<Position>, d: Distribution, root: real -> real, band: Band): nat
    requires PositiveDiagonal(d.transform)
  {
    if points == [] then 0 else
      (if ClassifyPitchReference(points[0], Some(d), root) == Some(band) then 1 else 0)
      + CountBand(points[1..], d, root, band)
  }

  /** The bands partition the sample exactly as the contours count it. */
  lemma {:induction false} BandsMatchContours(d: Distribution, points: seq<Position>, root: real -> real)
    requires Describes(d, points, root)
    ensures CountBand(points, d, root, Core50) == d.central50.includedCount
    ensures CountBand(points, d, root, Core50) + CountBand(points, d, root, Shell90) == d.central90.includedCount
    ensures CountBand(points, d, root, Outside90) == |points| - d.central90.includedCount
  {
    hide Mul, Factors, Center, Moments;
    ContoursCover(d, points, root);
    BandsCount(d, points, root);
  }

  lemma {:induction false} BandsCount(d: Distribution, points: seq<Position>, root: real -> real)
    requires PositiveDiagonal(d.transform) && d.central50.radius <= d.central90.radius
    ensures var s := Distances(points, d.center, d.transform, root);
      && CountBand(points, d, root, Core50) == CountUpTo(s, Reach(d.central50.radius), false)
      && CountBand(points, d, root, Core50) + CountBand(points, d, root, Shell90)
           == CountUpTo(s, Reach(d.central90.radius), false)
      && CountBand(points, d, root, Outside90) == |points| - CountUpTo(s, Reach(d.central90.radius), false)
  {
    hide Mul, PitchReferenceDistance;
    ReachMonotone(d.central50.radius, d.central90.radius);
    if points != [] {
      BandsCount(d, points[1..], root);
      assert Distances(points, d.center, d.transform, root)[1..] == Distances(points[1..], d.center, d.transform, root);
    }
  }

  /** The squared distance is the Mahalanobis form of the sample covariance. */
  lemma {:induction false} DistanceIsMahalanobis(
      d: Distribution, points: seq<Position>, root: real -> real, point: Position, t: Vec3)
    requires Describes(d, points, root) && IsRoot(root)
    requires Solution(Moments(points, d.center, 1.0 / |points| as real, |points|), t, Minus(point, d.center))
    ensures var distance := PitchReferenceDistance(point, d.center, d.transform, root);
      0.0 <= distance && Mul(distance, distance) == InnerProduct(t, Minus(point, d.center))
  {
    hide Mul, Moments, Center, Distances, Solution, IsContour;
    var v := Solve(d.transform, Minus(point, d.center));
    SolutionNorm(d.transform, Moments(points, d.center, 1.0 / |points| as real, |points|), Minus(point, d.center), t);
    SquareNonNegative(v.a);
    SquareNonNegative(v.b);
    SquareNonNegative(v.c);
    assert RootAt(root(InnerProduct(v, v)), InnerProduct(v, v));
  }
}
