/** Exact linear algebra over row-major matrices of reals. */
module LinearAlgebra {
  type Matrix = seq<seq<real>>

  ghost predicate IsMatrix(m: Matrix, rows: nat, columns: nat) {
    |m| == rows && forall i :: 0 <= i < rows ==> |m[i]| == columns
  }

  function Delta(i: int, j: int): real {
    if i == j then 1.0 else 0.0
  }

  function Abs(x: real): real {
    if x < 0.0 then -x else x
  }

  /** Products are named, so that proofs about structure can hide the arithmetic. */
  function Mul(x: real, y: real): real {
    x * y
  }

  lemma {:induction false} MulLinear(w: real, a: real, u: real, b: real, v: real, x: real)
    requires w == Mul(a, u) + Mul(b, v)
    ensures Mul(w, x) == Mul(a, Mul(u, x)) + Mul(b, Mul(v, x))
  {
    assert w * x == a * (u * x) + b * (v * x);
  }

  /** The dot product of the first `k` entries. */
  function Dot(u: seq<real>, v: seq<real>, k: nat): real
    requires k <= |u| && k <= |v|
  {
    if k == 0 then 0.0 else Dot(u, v, k - 1) + Mul(u[k - 1], v[k - 1])
  }

  /** Entry `j` of the row vector `u` times `m`, summed over the first `k` rows of `m`. */
  function ColDot(u: seq<real>, m: Matrix, j: nat, k: nat): real
    requires k <= |u| && k <= |m|
    requires forall t :: 0 <= t < k ==> j < |m[t]|
  {
    if k == 0 then 0.0 else ColDot(u, m, j, k - 1) + Mul(u[k - 1], m[k - 1][j])
  }

  /** The matrix `x` is a left inverse of `m`; both are square of size `n`. */
  ghost predicate IsProductIdentity(x: Matrix, m: Matrix, n: nat)
    requires IsMatrix(x, n, n) && IsMatrix(m, n, n)
  {
    forall i, j :: 0 <= i < n && 0 <= j < n ==> ColDot(x[i], m, j, n) == Delta(i, j)
  }

  ghost predicate Symmetric(m: Matrix, n: nat)
    requires IsMatrix(m, n, n)
  {
    forall i, j :: 0 <= i < n && 0 <= j < n ==> m[i][j] == m[j][i]
  }

  lemma {:induction false} DotCongruent(u: seq<real>, v: seq<real>, u': seq<real>, v': seq<real>, k: nat)
    requires k <= |u| && k <= |v| && k <= |u'| && k <= |v'|
    requires forall t :: 0 <= t < k ==> u[t] == u'[t] && v[t] == v'[t]
    ensures Dot(u, v, k) == Dot(u', v', k)
  {
    if k > 0 { DotCongruent(u, v, u', v', k - 1); }
  }

  lemma {:induction false} DotCommutes(u: seq<real>, v: seq<real>, k: nat)
    requires k <= |u| && k <= |v|
    ensures Dot(u, v, k) == Dot(v, u, k)
  {
    if k > 0 { DotCommutes(u, v, k - 1); }
  }

  lemma {:induction false} MulZero(a: real)
    ensures Mul(a, 0.0) == 0.0 && Mul(0.0, a) == 0.0
  {}

  lemma {:induction false} MulAdd(a: real, x: real, y: real)
    ensures Mul(a, x + y) == Mul(a, x) + Mul(a, y)
  {}

  lemma {:induction false} MulAssociative(x: real, y: real, z: real)
    ensures Mul(Mul(x, y), z) == Mul(x, Mul(y, z))
  {}

  lemma {:induction false} TimesOne(x: real)
    ensures Mul(1.0, x) == x && Mul(x, 1.0) == x
  {}

  lemma {:induction false} OneTimesMore(k: nat, x: real)
    ensures Mul((k + 1) as real, x) == Mul(k as real, x) + x
  {
    assert (k + 1) as real == k as real + 1.0;
  }

  /** The dot product is linear in its first argument. */
  lemma {:induction false} DotLinear(w: seq<real>, a: real, u: seq<real>, b: real, v: seq<real>, x: seq<real>, k: nat)
    requires k <= |w| && k <= |u| && k <= |v| && k <= |x|
    requires forall t :: 0 <= t < k ==> w[t] == Mul(a, u[t]) + Mul(b, v[t])
    ensures Dot(w, x, k) == Mul(a, Dot(u, x, k)) + Mul(b, Dot(v, x, k))
  {
    hide Mul;
    MulZero(a);
    MulZero(b);
    if k > 0 {
      DotLinear(w, a, u, b, v, x, k - 1);
      MulLinear(w[k - 1], a, u[k - 1], b, v[k - 1], x[k - 1]);
      MulAdd(a, Dot(u, x, k - 1), Mul(u[k - 1], x[k - 1]));
      MulAdd(b, Dot(v, x, k - 1), Mul(v[k - 1], x[k - 1]));
    }
  }

  lemma {:induction false} DotDifference(w: seq<real>, a: real, u: seq<real>, b: real, v: seq<real>, x: seq<real>, k: nat)
    requires k <= |w| && k <= |u| && k <= |v| && k <= |x|
    requires forall t :: 0 <= t < k ==> w[t] == Mul(a, u[t]) - Mul(b, v[t])
    ensures Dot(w, x, k) == Mul(a, Dot(u, x, k)) - Mul(b, Dot(v, x, k))
  {
    hide Mul;
    MulZero(a);
    MulZero(b);
    if k > 0 {
      DotDifference(w, a, u, b, v, x, k - 1);
      MulDifference(w[k - 1], a, u[k - 1], b, v[k - 1], x[k - 1]);
      MulAdd(a, Dot(u, x, k - 1), Mul(u[k - 1], x[k - 1]));
      MulAdd(b, Dot(v, x, k - 1), Mul(v[k - 1], x[k - 1]));
    }
  }

  lemma {:induction false} MulDifference(w: real, a: real, u: real, b: real, v: real, x: real)
    requires w == Mul(a, u) - Mul(b, v)
    ensures Mul(w, x) == Mul(a, Mul(u, x)) - Mul(b, Mul(v, x))
  {
    assert w * x == a * (u * x) - b * (v * x);
  }

  lemma {:induction false} ColDotCongruent(u: seq<real>, u': seq<real>, m: Matrix, m': Matrix, j: nat, j': nat, k: nat)
    requires k <= |u| && k <= |u'| && k <= |m| && k <= |m'|
    requires forall t :: 0 <= t < k ==> j < |m[t]| && j' < |m'[t]| && u[t] == u'[t] && m[t][j] == m'[t][j']
    ensures ColDot(u, m, j, k) == ColDot(u', m', j', k)
  {
    if k > 0 { ColDotCongruent(u, u', m, m', j, j', k - 1); }
  }

  lemma {:induction false} ColDotLinear(
      w: seq<real>, a: real, u: seq<real>, b: real, v: seq<real>, m: Matrix, j: nat, k: nat)
    requires k <= |w| && k <= |u| && k <= |v| && k <= |m|
    requires forall t :: 0 <= t < k ==> j < |m[t]| && w[t] == Mul(a, u[t]) + Mul(b, v[t])
    ensures ColDot(w, m, j, k) == Mul(a, ColDot(u, m, j, k)) + Mul(b, ColDot(v, m, j, k))
  {
    hide Mul;
    MulZero(a);
    MulZero(b);
    if k > 0 {
      ColDotLinear(w, a, u, b, v, m, j, k - 1);
      MulLinear(w[k - 1], a, u[k - 1], b, v[k - 1], m[k - 1][j]);
      MulAdd(a, ColDot(u, m, j, k - 1), Mul(u[k - 1], m[k - 1][j]));
      MulAdd(b, ColDot(v, m, j, k - 1), Mul(v[k - 1], m[k - 1][j]));
    }
  }

  /** A unit row vector picks one row of the matrix. */
  lemma {:induction false} ColDotUnit(u: seq<real>, i: nat, m: Matrix, j: nat, k: nat)
    requires k <= |u| && k <= |m|
    requires forall t :: 0 <= t < k ==> j < |m[t]| && u[t] == Delta(i, t)
    ensures ColDot(u, m, j, k) == if i < k then m[i][j] else 0.0
  {
    if k > 0 { ColDotUnit(u, i, m, j, k - 1); }
  }

  /** A matrix whose column `j` is a unit column picks one entry of the row vector. */
  lemma {:induction false} ColDotUnitColumn(u: seq<real>, m: Matrix, j: nat, i: nat, k: nat)
    requires k <= |u| && k <= |m|
    requires forall t :: 0 <= t < k ==> j < |m[t]| && m[t][j] == Delta(t, i)
    ensures ColDot(u, m, j, k) == if i < k then u[i] else 0.0
  {
    if k > 0 { ColDotUnitColumn(u, m, j, i, k - 1); }
  }

  /** (u . A) . B == u . (A . B), one column at a time: `ab` holds column `j` of A . B. */
  lemma {:induction false} ColDotAssociative(
      u: seq<real>, a: Matrix, b: Matrix, j: nat, ua: seq<real>, ab: seq<real>, n: nat, k: nat)
    requires |u| == n && IsMatrix(a, n, n) && |b| == n && |ua| == n && |ab| == n && k <= n
    requires forall t :: 0 <= t < n ==> j < |b[t]|
    requires forall t :: 0 <= t < n ==> ab[t] == ColDot(a[t], b, j, n)
    requires forall t :: 0 <= t < n ==> ua[t] == ColDot(u, a, t, k)
    ensures ColDot(ua, b, j, n) == Dot(u, ab, k)
    decreases k
  {
    if k == 0 {
      ColDotZero(ua, b, j, n);
    } else {
      var less := seq(n, t requires 0 <= t < n => ColDot(u, a, t, k - 1));
      ColDotAssociative(u, a, b, j, less, ab, n, k - 1);
      ColDotLinear(ua, 1.0, less, u[k - 1], a[k - 1], b, j, n);
    }
  }

  lemma {:induction false} ColDotZero(u: seq<real>, m: Matrix, j: nat, k: nat)
    requires k <= |u| && k <= |m|
    requires forall t :: 0 <= t < k ==> j < |m[t]| && u[t] == 0.0
    ensures ColDot(u, m, j, k) == 0.0
  {
    if k > 0 { ColDotZero(u, m, j, k - 1); }
  }

  /** A column sum is a dot product with the column. */
  lemma {:induction false} ColDotIsDot(u: seq<real>, m: Matrix, j: nat, column: seq<real>, k: nat)
    requires k <= |u| && k <= |m| && k <= |column|
    requires forall t :: 0 <= t < k ==> j < |m[t]| && m[t][j] == column[t]
    ensures ColDot(u, m, j, k) == Dot(u, column, k)
  {
    if k > 0 { ColDotIsDot(u, m, j, column, k - 1); }
  }

  lemma {:induction false} ZeroDot(zeros: seq<real>, x: seq<real>, k: nat)
    requires k <= |zeros| && k <= |x| && forall t :: 0 <= t < k ==> zeros[t] == 0.0
    ensures Dot(zeros, x, k) == 0.0
  {
    if k > 0 { ZeroDot(zeros, x, k - 1); }
  }

  /** When a . b is the identity, a . (b . v) is v again. */
  lemma {:induction false} TimesVector(a: Matrix, b: Matrix, v: seq<real>, bv: seq<real>, r: nat)
    requires IsMatrix(a, |v|, |v|) && IsMatrix(b, |v|, |v|) && IsProductIdentity(a, b, |v|)
    requires |bv| == |v| && r < |v| && forall t :: 0 <= t < |v| ==> bv[t] == Dot(b[t], v, |v|)
    ensures Dot(a[r], bv, |v|) == v[r]
  {
    var n := |v|;
    var column: Matrix := seq(n, t requires 0 <= t < n => [v[t]]);
    var unit := seq(n, t => Delta(r, t));
    forall t | 0 <= t < n
      ensures bv[t] == ColDot(b[t], column, 0, n)
      ensures unit[t] == ColDot(a[r], b, t, n)
    {
      ColDotIsDot(b[t], column, 0, v, n);
    }
    ColDotAssociative(a[r], b, column, 0, unit, bv, n, n);
    ColDotUnit(unit, r, column, 0, n);
  }

  lemma {:induction false} DotUnit(u: seq<real>, unit: seq<real>, j: nat, k: nat)
    requires k <= |u| && k <= |unit| && forall t :: 0 <= t < k ==> unit[t] == Delta(t, j)
    ensures Dot(u, unit, k) == if j < k then u[j] else 0.0
  {
    if k > 0 { DotUnit(u, unit, j, k - 1); }
  }

  // ---- Matrices held in mutable rows ------------------------------------------------------------

  ghost function Contents(rows: seq<array<real>>): (m: Matrix)
    reads rows
    ensures |m| == |rows| && forall i :: 0 <= i < |rows| ==> m[i] == rows[i][..]
  {
    seq(|rows|, i requires 0 <= i < |rows| reads rows => rows[i][..])
  }

  ghost predicate SquareRows(rows: seq<array<real>>, n: nat) {
    && |rows| == n
    && (forall i :: 0 <= i < n ==> rows[i].Length == n)
    && (forall i, j :: 0 <= i < j < n ==> rows[i] != rows[j])
  }

  /** The largest diagonal magnitude, but at least 1. */
  ghost predicate IsScale(m: Matrix, scale: real)
    requires IsMatrix(m, |m|, |m|)
  {
    && (scale == 1.0 || exists i :: 0 <= i < |m| && scale == Abs(m[i][i]))
    && 1.0 <= scale && forall i :: 0 <= i < |m| ==> Abs(m[i][i]) <= scale
  }

  method DiagonalScale(matrix: Matrix) returns (scale: real)
    requires IsMatrix(matrix, |matrix|, |matrix|)
    ensures IsScale(matrix, scale)
  {
    scale := 1.0;
    for i := 0 to |matrix|
      invariant scale == 1.0 || exists r :: 0 <= r < i && scale == Abs(matrix[r][r])
      invariant 1.0 <= scale && forall r :: 0 <= r < i ==> Abs(matrix[r][r]) <= scale
    {
      if scale < Abs(matrix[i][i]) { scale := Abs(matrix[i][i]); }
    }
  }
}
