/** Regularised 3x3 covariances and their Cholesky factors, over exact reals. */
module Covariance {
  import opened Wrappers
  import opened LinearAlgebra

  /** The three coordinates in the order in which the factor eliminates them. */
  datatype Vec3 = Vec3(a: real, b: real, c: real)

  /** A symmetric matrix: diagonal aa, bb, cc and the entries below it. */
  datatype Sym3 = Sym3(aa: real, ba: real, ca: real, bb: real, cb: real, cc: real)

  /** A lower triangular factor. */
  datatype Lower3 = Lower3(aa: real, ba: real, ca: real, bb: real, cb: real, cc: real)

  function Minus(p: Vec3, q: Vec3): Vec3 {
    Vec3(p.a - q.a, p.b - q.b, p.c - q.c)
  }

  /** The moments after one more deviation `d` of weight `w`. */
  function AddMoment(m: Sym3, w: real, d: Vec3): Sym3 {
    Sym3(m.aa + Mul(w, Mul(d.a, d.a)), m.ba + Mul(w, Mul(d.b, d.a)), m.ca + Mul(w, Mul(d.c, d.a)),
         m.bb + Mul(w, Mul(d.b, d.b)), m.cb + Mul(w, Mul(d.c, d.b)), m.cc + Mul(w, Mul(d.c, d.c)))
  }

  function Regularised(m: Sym3, reg: real): Sym3 {
    m.(aa := m.aa + reg, bb := m.bb + reg, cc := m.cc + reg)
  }

  function InnerProduct(u: Vec3, d: Vec3): real {
    Mul(u.a, d.a) + Mul(u.b, d.b) + Mul(u.c, d.c)
  }

  /** The quadratic form u . m . u. */
  function Form(m: Sym3, u: Vec3): real {
    Mul(m.aa, Mul(u.a, u.a)) + Mul(m.bb, Mul(u.b, u.b)) + Mul(m.cc, Mul(u.c, u.c))
    + 2.0 * (Mul(m.ba, Mul(u.b, u.a)) + Mul(m.ca, Mul(u.c, u.a)) + Mul(m.cb, Mul(u.c, u.b)))
  }

  /** All eigenvalues of `m` are at least `reg`. */
  ghost predicate AtLeast(m: Sym3, reg: real) {
    forall u: Vec3 :: Mul(reg, InnerProduct(u, u)) <= Form(m, u)
  }

  lemma {:induction false} SquareNonNegative(x: real)
    ensures 0.0 <= Mul(x, x)
  {}

  lemma {:induction false} TermOfMoment(m: real, w: real, d: real, e: real, u: real, v: real)
    ensures Mul(m + Mul(w, Mul(d, e)), Mul(u, v)) == Mul(m, Mul(u, v)) + Mul(w, Mul(Mul(u, d), Mul(v, e)))
  {
    assert (m + w * (d * e)) * (u * v) == m * (u * v) + (w * (d * e)) * (u * v);
    assert (d * e) * (u * v) == (u * d) * (v * e);
    assert (w * (d * e)) * (u * v) == w * ((d * e) * (u * v));
  }

  lemma {:induction false} SquareOfSum(s: real, x: real, y: real, z: real)
    requires s == x + y + z
    ensures Mul(s, s) == Mul(x, x) + Mul(y, y) + Mul(z, z) + 2.0 * (Mul(y, x) + Mul(z, x) + Mul(z, y))
  {}

  lemma {:induction false} WeightedSum(w: real, s: real, a: real, b: real, c: real, d: real, e: real, f: real)
    requires s == a + b + c + 2.0 * (d + e + f)
    ensures Mul(w, s) == Mul(w, a) + Mul(w, b) + Mul(w, c) + 2.0 * (Mul(w, d) + Mul(w, e) + Mul(w, f))
  {}

  lemma {:induction false} FormOfMoment(m: Sym3, w: real, d: Vec3, u: Vec3)
    ensures Form(AddMoment(m, w, d), u) == Form(m, u) + Mul(w, Mul(InnerProduct(u, d), InnerProduct(u, d)))
  {
    hide Mul;
    var x, y, z := Mul(u.a, d.a), Mul(u.b, d.b), Mul(u.c, d.c);
    TermOfMoment(m.aa, w, d.a, d.a, u.a, u.a);
    TermOfMoment(m.bb, w, d.b, d.b, u.b, u.b);
    TermOfMoment(m.cc, w, d.c, d.c, u.c, u.c);
    TermOfMoment(m.ba, w, d.b, d.a, u.b, u.a);
    TermOfMoment(m.ca, w, d.c, d.a, u.c, u.a);
    TermOfMoment(m.cb, w, d.c, d.b, u.c, u.b);
    SquareOfSum(InnerProduct(u, d), x, y, z);
    WeightedSum(w, Mul(InnerProduct(u, d), InnerProduct(u, d)),
      Mul(x, x), Mul(y, y), Mul(z, z), Mul(y, x), Mul(z, x), Mul(z, y));
  }

  lemma {:induction false} MomentKeepsAtLeast(m: Sym3, w: real, d: Vec3, reg: real)
    requires AtLeast(m, reg) && 0.0 <= w
    ensures AtLeast(AddMoment(m, w, d), reg)
  {
    hide Mul;
    forall u: Vec3 ensures Mul(reg, InnerProduct(u, u)) <= Form(AddMoment(m, w, d), u) {
      FormOfMoment(m, w, d, u);
      SquareNonNegative(InnerProduct(u, d));
      ProductNonNegative(w, Mul(InnerProduct(u, d), InnerProduct(u, d)));
    }
  }

  lemma {:induction false} ProductNonNegative(x: real, y: real)
    requires 0.0 <= x && 0.0 <= y
    ensures 0.0 <= Mul(x, y)
  {}

  lemma {:induction false} Distribute(x: real, y: real, z: real)
    ensures Mul(x + y, z) == Mul(x, z) + Mul(y, z) && Mul(z, x + y) == Mul(z, x) + Mul(z, y)
  {}

  lemma {:induction false} RegularisedAtLeast(m: Sym3, base: real, reg: real)
    requires AtLeast(m, base)
    ensures AtLeast(Regularised(m, reg), base + reg)
  {
    hide Mul;
    forall u: Vec3 ensures Mul(base + reg, InnerProduct(u, u)) <= Form(Regularised(m, reg), u) {
      Distribute(m.aa, reg, Mul(u.a, u.a));
      Distribute(m.bb, reg, Mul(u.b, u.b));
      Distribute(m.cc, reg, Mul(u.c, u.c));
      Distribute(base, reg, InnerProduct(u, u));
      Distribute(Mul(u.a, u.a) + Mul(u.b, u.b), Mul(u.c, u.c), reg);
      Distribute(Mul(u.a, u.a), Mul(u.b, u.b), reg);
    }
  }

  lemma {:induction false} ZeroAtLeast()
    ensures AtLeast(Sym3(0.0, 0.0, 0.0, 0.0, 0.0, 0.0), 0.0)
  {
    forall u: Vec3 ensures Mul(0.0, InnerProduct(u, u)) <= Form(Sym3(0.0, 0.0, 0.0, 0.0, 0.0, 0.0), u) {}
  }

  // ---- The factor -------------------------------------------------------------------------------

  /** The only facts used about the square root. */
  ghost predicate IsRoot(root: real -> real) {
    forall x :: 0.0 <= x ==> RootAt(root(x), x)
  }

  ghost predicate RootAt(r: real, x: real) {
    0.0 <= r && Mul(r, r) == x
  }

  lemma {:induction false} PositiveRoot(root: real -> real, x: real)
    requires IsRoot(root) && 0.0 < x
    ensures 0.0 < root(x) && Mul(root(x), root(x)) == x
  {
    assert RootAt(root(x), x);
  }

  function Quotient(x: real, y: real): (q: real)
    requires y != 0.0
    ensures Mul(q, y) == x && Mul(y, q) == x
  {
    x / y
  }

  /** Row by row; None where the original would compute a pivot that is not a positive number. */
  function Cholesky(m: Sym3, root: real -> real): (l: Option<Lower3>) {
    var aa := root(m.aa);
    if !(0.0 < m.aa) || !(0.0 < aa) then None else
      var ba, ca := Quotient(m.ba, aa), Quotient(m.ca, aa);
      var pivot := m.bb - Mul(ba, ba);
      var bb := root(pivot);
      if !(0.0 < pivot) || !(0.0 < bb) then None else
        var cb := Quotient(m.cb - Mul(ca, ba), bb);
        var last := m.cc - Mul(ca, ca) - Mul(cb, cb);
        var cc := root(last);
        if !(0.0 < last) || !(0.0 < cc) then None else Some(Lower3(aa, ba, ca, bb, cb, cc))
  }

  /** The first two rows of `l` times its transpose are those of `m`. */
  ghost predicate FactorsUpper(l: Lower3, m: Sym3) {
    && Mul(l.aa, l.aa) == m.aa && Mul(l.ba, l.aa) == m.ba && Mul(l.ca, l.aa) == m.ca
    && Mul(l.ba, l.ba) + Mul(l.bb, l.bb) == m.bb && Mul(l.ca, l.ba) + Mul(l.cb, l.bb) == m.cb
  }

  /** `l` times its transpose is `m`. */
  ghost predicate Factors(l: Lower3, m: Sym3) {
    FactorsUpper(l, m) && Mul(l.ca, l.ca) + Mul(l.cb, l.cb) + Mul(l.cc, l.cc) == m.cc
  }

  ghost predicate PositiveDiagonal(l: Lower3) {
    0.0 < l.aa && 0.0 < l.bb && 0.0 < l.cc
  }

  lemma {:induction false} Factored(k: real, l: real, u: real, v: real)
    ensures Mul(Mul(k, u), Mul(l, v)) == Mul(Mul(k, l), Mul(u, v))
  {}

  /** Completing squares with the first two rows of the factor. */
  lemma {:induction false} CompleteSquares(m: Sym3, l: Lower3, u: Vec3, p: real, q: real)
    requires FactorsUpper(l, m)
    requires p == Mul(l.aa, u.a) + Mul(l.ba, u.b) + Mul(l.ca, u.c) && q == Mul(l.bb, u.b) + Mul(l.cb, u.c)
    ensures Form(m, u) == Mul(p, p) + Mul(q, q) + Mul(m.cc - Mul(l.ca, l.ca) - Mul(l.cb, l.cb), Mul(u.c, u.c))
  {
    hide Mul;
    var x, y, z := Mul(l.aa, u.a), Mul(l.ba, u.b), Mul(l.ca, u.c);
    var r, s := Mul(l.bb, u.b), Mul(l.cb, u.c);
    SquareOfSum(p, x, y, z);
    SquareOfTwo(q, r, s);
    Factored(l.aa, l.aa, u.a, u.a);
    Factored(l.ba, l.aa, u.b, u.a);
    Factored(l.ca, l.aa, u.c, u.a);
    Factored(l.ba, l.ba, u.b, u.b);
    Factored(l.bb, l.bb, u.b, u.b);
    Distribute(Mul(l.ba, l.ba), Mul(l.bb, l.bb), Mul(u.b, u.b));
    Factored(l.ca, l.ba, u.c, u.b);
    Factored(l.cb, l.bb, u.c, u.b);
    Distribute(Mul(l.ca, l.ba), Mul(l.cb, l.bb), Mul(u.c, u.b));
    Factored(l.ca, l.ca, u.c, u.c);
    Factored(l.cb, l.cb, u.c, u.c);
    var rest := m.cc - Mul(l.ca, l.ca) - Mul(l.cb, l.cb);
    Distribute(rest + Mul(l.ca, l.ca), Mul(l.cb, l.cb), Mul(u.c, u.c));
    Distribute(rest, Mul(l.ca, l.ca), Mul(u.c, u.c));
  }

  lemma {:induction false} SquareOfTwo(s: real, x: real, y: real)
    requires s == x + y
    ensures Mul(s, s) == Mul(x, x) + Mul(y, y) + 2.0 * Mul(y, x)
  {}

  lemma {:induction false} NormAtLeastOne(u: Vec3, reg: real)
    requires 0.0 < reg && (u.a == 1.0 || u.b == 1.0 || u.c == 1.0)
    ensures reg <= Mul(reg, InnerProduct(u, u))
  {
    SquareNonNegative(u.a);
    SquareNonNegative(u.b);
    SquareNonNegative(u.c);
    ProductNonNegative(reg, InnerProduct(u, u) - 1.0);
  }

  lemma {:induction false} FirstPivotAtLeast(m: Sym3, reg: real)
    requires AtLeast(m, reg) && 0.0 < reg
    ensures reg <= m.aa
  {
    hide Mul;
    FirstForm(m);
    NormAtLeastOne(Vec3(1.0, 0.0, 0.0), reg);
  }

  lemma {:induction false} FirstForm(m: Sym3)
    ensures Form(m, Vec3(1.0, 0.0, 0.0)) == m.aa
  {}

  lemma {:induction false} SecondPivotAtLeast(m: Sym3, aa: real, ba: real, reg: real)
    requires AtLeast(m, reg) && 0.0 < reg && 0.0 < aa && Mul(aa, aa) == m.aa && Mul(ba, aa) == m.ba
    ensures reg <= m.bb - Mul(ba, ba)
  {
    hide Mul;
    var x := Quotient(-ba, aa);
    var u := Vec3(x, 1.0, 0.0);
    SecondForm(m, aa, ba, x);
    NormAtLeastOne(u, reg);
  }

  lemma {:induction false} SecondForm(m: Sym3, aa: real, ba: real, x: real)
    requires Mul(aa, aa) == m.aa && Mul(ba, aa) == m.ba && Mul(aa, x) == -ba
    ensures Form(m, Vec3(x, 1.0, 0.0)) == m.bb - Mul(ba, ba)
  {
    Factored(aa, aa, x, x);
    assert Mul(m.ba, Mul(1.0, x)) == ba * (aa * x);
  }

  /** Each pivot is a value of the form at a vector with an entry 1. */
  lemma {:induction false} ThirdPivotAtLeast(m: Sym3, l: Lower3, reg: real)
    requires AtLeast(m, reg) && 0.0 < reg && 0.0 < l.aa && 0.0 < l.bb && FactorsUpper(l, m)
    ensures reg <= m.cc - Mul(l.ca, l.ca) - Mul(l.cb, l.cb)
  {
    hide Mul;
    var y := Quotient(-l.cb, l.bb);
    var x := Quotient(-(Mul(l.ba, y) + l.ca), l.aa);
    var u := Vec3(x, y, 1.0);
    UnitFactor(l.ca);
    UnitFactor(l.cb);
    UnitFactor(m.cc - Mul(l.ca, l.ca) - Mul(l.cb, l.cb));
    UnitFactor(1.0);
    MulZero(0.0);
    CompleteSquares(m, l, u, 0.0, 0.0);
    NormAtLeastOne(u, reg);
  }

  lemma {:induction false} UnitFactor(x: real)
    ensures Mul(x, 1.0) == x
  {}

  /** A matrix whose form is bounded below by a positive number always has a factor. */
  lemma {:induction false} CholeskySucceeds(m: Sym3, root: real -> real, reg: real)
    requires IsRoot(root) && AtLeast(m, reg) && 0.0 < reg
    ensures Cholesky(m, root).Some?
    ensures PositiveDiagonal(Cholesky(m, root).value) && Factors(Cholesky(m, root).value, m)
  {
    hide Mul, AtLeast, IsRoot, Quotient;
    FirstPivotAtLeast(m, reg);
    PositiveRoot(root, m.aa);
    var aa := root(m.aa);
    var ba, ca := Quotient(m.ba, aa), Quotient(m.ca, aa);
    SecondPivotAtLeast(m, aa, ba, reg);
    var pivot := m.bb - Mul(ba, ba);
    PositiveRoot(root, pivot);
    var bb := root(pivot);
    var cb := Quotient(m.cb - Mul(ca, ba), bb);
    ThirdPivotAtLeast(m, Lower3(aa, ba, ca, bb, cb, 0.0), reg);
    PositiveRoot(root, m.cc - Mul(ca, ca) - Mul(cb, cb));
  }

  // ---- Forward substitution ---------------------------------------------------------------------

  function Solve(l: Lower3, d: Vec3): (v: Vec3)
    requires PositiveDiagonal(l)
    ensures Mul(l.aa, v.a) == d.a
    ensures Mul(l.ba, v.a) + Mul(l.bb, v.b) == d.b
    ensures Mul(l.ca, v.a) + Mul(l.cb, v.b) + Mul(l.cc, v.c) == d.c
  {
    var x := Quotient(d.a, l.aa);
    var y := Quotient(d.b - Mul(l.ba, x), l.bb);
    Vec3(x, y, Quotient(d.c - Mul(l.ca, x) - Mul(l.cb, y), l.cc))
  }

  /** `t` solves m . t == d. */
  ghost predicate Solution(m: Sym3, t: Vec3, d: Vec3) {
    && Mul(m.aa, t.a) + Mul(m.ba, t.b) + Mul(m.ca, t.c) == d.a
    && Mul(m.ba, t.a) + Mul(m.bb, t.b) + Mul(m.cb, t.c) == d.b
    && Mul(m.ca, t.a) + Mul(m.cb, t.b) + Mul(m.cc, t.c) == d.c
  }

  lemma {:induction false} TimesTwo(k: real, l: real, t: real)
    ensures Mul(k, Mul(l, t)) == Mul(Mul(k, l), t) && Mul(k, Mul(l, t)) == Mul(Mul(l, k), t)
  {}

  lemma {:induction false} Cancel(l: real, x: real, y: real)
    requires 0.0 < l && Mul(l, x) == Mul(l, y)
    ensures x == y
  {
    assert l * (x - y) == 0.0;
  }

  /** transpose(l) . t, for any t with m . t == d, is what forward substitution finds. */
  lemma {:induction false} TransposedSolution(l: Lower3, m: Sym3, d: Vec3, t: Vec3)
    requires PositiveDiagonal(l) && Factors(l, m) && Solution(m, t, d)
    ensures var v := Solve(l, d);
      && v.a == Mul(l.aa, t.a) + Mul(l.ba, t.b) + Mul(l.ca, t.c)
      && v.b == Mul(l.bb, t.b) + Mul(l.cb, t.c)
      && v.c == Mul(l.cc, t.c)
  {
    hide Mul;
    var v := Solve(l, d);
    var x, y, z := Mul(l.aa, t.a) + Mul(l.ba, t.b) + Mul(l.ca, t.c), Mul(l.bb, t.b) + Mul(l.cb, t.c), Mul(l.cc, t.c);
    ThreeTimes(l.aa, l.aa, l.ba, l.ca, t, x);
    Cancel(l.aa, v.a, x);
    ThreeTimes(l.ba, l.aa, l.ba, l.ca, t, x);
    TwoTimes(l.bb, l.bb, l.cb, t, y);
    Distribute(Mul(l.ba, l.ba), Mul(l.bb, l.bb), t.b);
    Distribute(Mul(l.ca, l.ba), Mul(l.cb, l.bb), t.c);
    Cancel(l.bb, v.b, y);
    ThreeTimes(l.ca, l.aa, l.ba, l.ca, t, x);
    TwoTimes(l.cb, l.bb, l.cb, t, y);
    TimesTwo(l.cc, l.cc, t.c);
    Distribute(Mul(l.ca, l.ba), Mul(l.cb, l.bb), t.b);
    Distribute(Mul(l.ca, l.ca) + Mul(l.cb, l.cb), Mul(l.cc, l.cc), t.c);
    Distribute(Mul(l.ca, l.ca), Mul(l.cb, l.cb), t.c);
    Commuted(l.ba, l.ca);
    Commuted(l.bb, l.cb);
    Cancel(l.cc, v.c, z);
  }

  lemma {:induction false} Commuted(x: real, y: real)
    ensures Mul(x, y) == Mul(y, x)
  {}

  lemma {:induction false} ThreeTimes(k: real, a: real, b: real, c: real, t: Vec3, x: real)
    requires x == Mul(a, t.a) + Mul(b, t.b) + Mul(c, t.c)
    ensures Mul(k, x) == Mul(Mul(k, a), t.a) + Mul(Mul(b, k), t.b) + Mul(Mul(c, k), t.c)
  {
    TimesTwo(k, a, t.a);
    TimesTwo(k, b, t.b);
    TimesTwo(k, c, t.c);
  }

  lemma {:induction false} TwoTimes(k: real, b: real, c: real, t: Vec3, y: real)
    requires y == Mul(b, t.b) + Mul(c, t.c)
    ensures Mul(k, y) == Mul(Mul(k, b), t.b) + Mul(Mul(c, k), t.c)
  {
    TimesTwo(k, b, t.b);
    TimesTwo(k, c, t.c);
  }

  /** The squared length of the solution is the Mahalanobis form: t . d for the t with m . t == d. */
  lemma {:induction false} SolutionNorm(l: Lower3, m: Sym3, d: Vec3, t: Vec3)
    requires PositiveDiagonal(l) && Factors(l, m) && Solution(m, t, d)
    ensures InnerProduct(Solve(l, d), Solve(l, d)) == InnerProduct(t, d)
  {
    hide Mul;
    var v := Solve(l, d);
    TransposedSolution(l, m, d, t);
    Expand3(v.a, l.aa, l.ba, l.ca, t);
    Expand2(v.b, l.bb, l.cb, t);
    Crossed(v.c, l.cc, t.c);
    Distribute3(t.b, Mul(l.ba, v.a), Mul(l.bb, v.b), 0.0);
    Distribute3(t.c, Mul(l.ca, v.a), Mul(l.cb, v.b), Mul(l.cc, v.c));
  }

  lemma {:induction false} Crossed(v: real, l: real, t: real)
    ensures Mul(v, Mul(l, t)) == Mul(t, Mul(l, v))
  {}

  lemma {:induction false} Distribute3(t: real, x: real, y: real, z: real)
    ensures Mul(t, x + y + z) == Mul(t, x) + Mul(t, y) + Mul(t, z)
    ensures Mul(t, x + y) == Mul(t, x) + Mul(t, y)
  {}

  lemma {:induction false} Expand3(v: real, a: real, b: real, c: real, t: Vec3)
    ensures Mul(v, Mul(a, t.a) + Mul(b, t.b) + Mul(c, t.c))
         == Mul(t.a, Mul(a, v)) + Mul(t.b, Mul(b, v)) + Mul(t.c, Mul(c, v))
  {
    hide Mul;
    Distribute3(v, Mul(a, t.a), Mul(b, t.b), Mul(c, t.c));
    Crossed(v, a, t.a);
    Crossed(v, b, t.b);
    Crossed(v, c, t.c);
  }

  lemma {:induction false} Expand2(v: real, b: real, c: real, t: Vec3)
    ensures Mul(v, Mul(b, t.b) + Mul(c, t.c)) == Mul(t.b, Mul(b, v)) + Mul(t.c, Mul(c, v))
  {
    hide Mul;
    Distribute3(v, Mul(b, t.b), Mul(c, t.c), 0.0);
    Crossed(v, b, t.b);
    Crossed(v, c, t.c);
  }
}
