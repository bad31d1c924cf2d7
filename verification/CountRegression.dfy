/** Pivoted Gauss-Jordan inversion and the count information matrix, over exact reals. */
module CountRegression {
  import opened Wrappers
  import opened LinearAlgebra

  const PIVOT_TOLERANCE: real := 0.0000000001

  function Augmented(m: Matrix): Matrix
    requires IsMatrix(m, |m|, |m|)
  {
    var n := |m|;
    seq(n, i requires 0 <= i < n => m[i] + seq(n, j => Delta(i, j)))
  }

  // ---- Row operations on values -----------------------------------------------------------------

  function Scaled(row: seq<real>, d: real): (r: seq<real>)
    requires d != 0.0
    ensures |r| == |row| && forall j :: 0 <= j < |row| ==> r[j] * d == row[j]
  {
    seq(|row|, j requires 0 <= j < |row| => row[j] / d)
  }

  function Minus(row: seq<real>, f: real, other: seq<real>): (r: seq<real>)
    requires |row| == |other|
  {
    seq(|row|, j requires 0 <= j < |row| => row[j] - f * other[j])
  }

  // ---- Invariants of the elimination ------------------------------------------------------------

  /** The right half of every working row is the combination of input rows held in the left half. */
  ghost predicate LeftIsRightTimes(a: Matrix, m: Matrix)
    requires IsMatrix(m, |m|, |m|) && IsMatrix(a, |m|, 2 * |m|)
  {
    forall i, j :: 0 <= i < |m| && 0 <= j < |m| ==> a[i][j] == ColDot(a[i][|m|..], m, j, |m|)
  }

  /** The working rows, combined by `s`, give back the augmented input. */
  ghost predicate Recovers(s: Matrix, a: Matrix, m: Matrix)
    requires IsMatrix(m, |m|, |m|) && IsMatrix(a, |m|, 2 * |m|) && IsMatrix(s, |m|, |m|)
  {
    forall i, j :: 0 <= i < |m| && 0 <= j < 2 * |m| ==> ColDot(s[i], a, j, |m|) == Augmented(m)[i][j]
  }

  ghost predicate UnitColumns(a: Matrix, n: nat, k: nat)
    requires IsMatrix(a, n, 2 * n) && k <= n
  {
    forall i, j :: 0 <= i < n && 0 <= j < k ==> a[i][j] == Delta(i, j)
  }

  /** Beyond column `k` every row of `s` is zero except for at most one entry 1. */
  ghost predicate SelectsAtMostOne(s: Matrix, n: nat, k: nat)
    requires IsMatrix(s, n, n)
  {
    && (forall r, t :: 0 <= r < n && k <= t < n ==> s[r][t] == 0.0 || s[r][t] == 1.0)
    && (forall r, t, t' :: 0 <= r < n && k <= t < t' < n ==> s[r][t] == 0.0 || s[r][t'] == 0.0)
  }

  /** Everything the elimination knows before it treats column `k`. */
  ghost predicate Reduced(a: Matrix, s: Matrix, m: Matrix, k: nat) {
    && IsMatrix(m, |m|, |m|) && IsMatrix(a, |m|, 2 * |m|) && IsMatrix(s, |m|, |m|) && k <= |m|
    && LeftIsRightTimes(a, m) && Recovers(s, a, m)
    && UnitColumns(a, |m|, k) && SelectsAtMostOne(s, |m|, k)
  }

  function SwapColumns(s: Matrix, n: nat, p: nat, q: nat): (r: Matrix)
    requires IsMatrix(s, n, n) && p < n && q < n
    ensures IsMatrix(r, n, n)
  {
    seq(n, i requires 0 <= i < n => s[i][p := s[i][q]][q := s[i][p]])
  }

  function ScaleColumn(s: Matrix, n: nat, k: nat, d: real): (r: Matrix)
    requires IsMatrix(s, n, n) && k < n
    ensures IsMatrix(r, n, n)
  {
    seq(n, i requires 0 <= i < n => s[i][k := d * s[i][k]])
  }

  function AddColumn(s: Matrix, n: nat, k: nat, f: real, i: nat): (r: Matrix)
    requires IsMatrix(s, n, n) && k < n && i < n
    ensures IsMatrix(r, n, n)
  {
    seq(n, t requires 0 <= t < n => s[t][k := s[t][k] + f * s[t][i]])
  }

  /** The sum after changing entry `p` of the vector and row `p` of the matrix. */
  lemma {:induction false} ColDotChangeOne(u: seq<real>, u': seq<real>, a: Matrix, a': Matrix, j: nat, p: nat, k: nat)
    requires k <= |u| && k <= |a| && |u'| == |u| && |a'| == |a| && p < k
    requires forall t :: 0 <= t < k ==> j < |a[t]| && j < |a'[t]|
    requires forall t :: 0 <= t < k && t != p ==> u'[t] == u[t] && a'[t][j] == a[t][j]
    ensures ColDot(u', a', j, k) == ColDot(u, a, j, k) + Mul(u'[p], a'[p][j]) - Mul(u[p], a[p][j])
  {
    hide Mul;
    if k - 1 == p {
      ColDotCongruent(u, u', a, a', j, j, k - 1);
    } else {
      ColDotChangeOne(u, u', a, a', j, p, k - 1);
    }
  }

  lemma {:induction false} SwapRecovers(s: Matrix, a: Matrix, m: Matrix, p: nat, q: nat)
    requires IsMatrix(m, |m|, |m|) && IsMatrix(a, |m|, 2 * |m|) && IsMatrix(s, |m|, |m|)
    requires p < |m| && q < |m| && Recovers(s, a, m)
    ensures Recovers(SwapColumns(s, |m|, p, q), a[p := a[q]][q := a[p]], m)
  {
    forall i, j | 0 <= i < |m| && 0 <= j < 2 * |m| {
      SwapEntry(s[i], a, j, p, q);
    }
  }

  lemma {:induction false} SwapEntry(u: seq<real>, a: Matrix, j: nat, p: nat, q: nat)
    requires |u| == |a| && p < |u| && q < |u| && forall t :: 0 <= t < |u| ==> j < |a[t]|
    ensures ColDot(u[p := u[q]][q := u[p]], a[p := a[q]][q := a[p]], j, |u|) == ColDot(u, a, j, |u|)
  {
    hide Mul;
    var u1, a1 := u[p := u[q]], a[p := a[q]];
    ColDotChangeOne(u, u1, a, a1, j, p, |u|);
    ColDotChangeOne(u1, u1[q := u[p]], a1, a1[q := a[p]], j, q, |u|);
  }

  lemma {:induction false} ScaleRecovers(s: Matrix, a: Matrix, m: Matrix, k: nat, d: real)
    requires IsMatrix(m, |m|, |m|) && IsMatrix(a, |m|, 2 * |m|) && IsMatrix(s, |m|, |m|)
    requires k < |m| && d != 0.0 && Recovers(s, a, m)
    ensures Recovers(ScaleColumn(s, |m|, k, d), a[k := Scaled(a[k], d)], m)
  {
    var s', row := ScaleColumn(s, |m|, k, d), Scaled(a[k], d);
    forall i, j | 0 <= i < |m| && 0 <= j < 2 * |m|
      ensures ColDot(s'[i], a[k := row], j, |m|) == ColDot(s[i], a, j, |m|)
    {
      ScaleEntry(s[i], s'[i], a, row, j, k, d);
    }
  }

  lemma {:induction false} ScaleEntry(u: seq<real>, u': seq<real>, a: Matrix, row: seq<real>, j: nat, k: nat, d: real)
    requires |u| == |a| && k < |u| && j < |row| && forall t :: 0 <= t < |u| ==> j < |a[t]|
    requires |u'| == |u| && u'[k] == d * u[k] && forall t :: 0 <= t < |u| && t != k ==> u'[t] == u[t]
    requires row[j] * d == a[k][j]
    ensures ColDot(u', a[k := row], j, |u|) == ColDot(u, a, j, |u|)
  {
    hide Mul;
    ColDotChangeOne(u, u', a, a[k := row], j, k, |u|);
    ScaleCancels(u[k], a[k][j], d, u'[k], row[j]);
  }

  lemma {:induction false} ScaleCancels(x: real, y: real, d: real, x': real, y': real)
    requires x' == d * x && y' * d == y
    ensures Mul(x', y') == Mul(x, y)
  {
    assert x' * y' == x * (y' * d);
  }

  lemma {:induction false} MinusRecovers(s: Matrix, a: Matrix, m: Matrix, k: nat, i: nat, f: real)
    requires IsMatrix(m, |m|, |m|) && IsMatrix(a, |m|, 2 * |m|) && IsMatrix(s, |m|, |m|)
    requires k < |m| && i < |m| && i != k && Recovers(s, a, m)
    ensures Recovers(AddColumn(s, |m|, k, f, i), a[i := Minus(a[i], f, a[k])], m)
  {
    var s', row := AddColumn(s, |m|, k, f, i), Minus(a[i], f, a[k]);
    forall r, j | 0 <= r < |m| && 0 <= j < 2 * |m|
      ensures ColDot(s'[r], a[i := row], j, |m|) == ColDot(s[r], a, j, |m|)
    {
      MinusEntry(s[r], s'[r], a, row, j, k, i, f);
    }
  }

  lemma {:induction false} MinusEntry(
      u: seq<real>, u': seq<real>, a: Matrix, row: seq<real>, j: nat, k: nat, i: nat, f: real)
    requires |u| == |a| && k < |u| && i < |u| && i != k && j < |row| && forall t :: 0 <= t < |u| ==> j < |a[t]|
    requires |u'| == |u| && u'[k] == u[k] + f * u[i] && forall t :: 0 <= t < |u| && t != k ==> u'[t] == u[t]
    requires row[j] == a[i][j] - f * a[k][j]
    ensures ColDot(u', a[i := row], j, |u|) == ColDot(u, a, j, |u|)
  {
    hide Mul;
    var a' := a[i := row];
    ColDotChangeOne(u, u, a, a', j, i, |u|);
    ColDotChangeOne(u, u', a', a', j, k, |u|);
    MinusCancels(u[i], u[k], a[i][j], a[k][j], f, u'[k], row[j]);
  }

  lemma {:induction false} MinusCancels(si: real, sk: real, ai: real, ak: real, f: real, sk': real, ai': real)
    requires sk' == sk + f * si && ai' == ai - f * ak
    ensures Mul(si, ai') - Mul(si, ai) + Mul(sk', ak) - Mul(sk, ak) == 0.0
  {
    assert si * (f * ak) == (f * si) * ak;
  }

  /** Row `row` is the combination of the rows of `m` that its right half names. */
  ghost predicate RowFromInput(row: seq<real>, m: Matrix)
    requires IsMatrix(m, |m|, |m|) && |row| == 2 * |m|
  {
    forall j :: 0 <= j < |m| ==> row[j] == ColDot(row[|m|..], m, j, |m|)
  }

  lemma {:induction false} CombinedRowFromInput(w: seq<real>, a: real, u: seq<real>, b: real, v: seq<real>, m: Matrix)
    requires IsMatrix(m, |m|, |m|) && |w| == |u| == |v| == 2 * |m|
    requires RowFromInput(u, m) && RowFromInput(v, m)
    requires forall t :: 0 <= t < 2 * |m| ==> w[t] == Mul(a, u[t]) + Mul(b, v[t])
    ensures RowFromInput(w, m)
  {
    hide Mul;
    var n := |m|;
    forall j | 0 <= j < n ensures w[j] == ColDot(w[n..], m, j, n) {
      assert forall t :: 0 <= t < n ==> w[n..][t] == w[n + t] && u[n..][t] == u[n + t] && v[n..][t] == v[n + t];
      ColDotLinear(w[n..], a, u[n..], b, v[n..], m, j, n);
    }
  }

  lemma {:induction false} ScaleKeepsLeft(a: Matrix, m: Matrix, k: nat, d: real)
    requires IsMatrix(m, |m|, |m|) && IsMatrix(a, |m|, 2 * |m|) && k < |m| && d != 0.0
    requires LeftIsRightTimes(a, m)
    ensures LeftIsRightTimes(a[k := Scaled(a[k], d)], m)
  {
    assert RowFromInput(a[k], m);
    CombinedRowFromInput(Scaled(a[k], d), 1.0 / d, a[k], 0.0, a[k], m);
  }

  lemma {:induction false} MinusKeepsLeft(a: Matrix, m: Matrix, k: nat, i: nat, f: real)
    requires IsMatrix(m, |m|, |m|) && IsMatrix(a, |m|, 2 * |m|) && k < |m| && i < |m|
    requires LeftIsRightTimes(a, m)
    ensures LeftIsRightTimes(a[i := Minus(a[i], f, a[k])], m)
  {
    assert RowFromInput(a[k], m) && RowFromInput(a[i], m);
    CombinedRowFromInput(Minus(a[i], f, a[k]), 1.0, a[i], -f, a[k], m);
  }

  lemma {:induction false} InitialInvariants(m: Matrix, s: Matrix)
    requires IsMatrix(m, |m|, |m|) && IsMatrix(s, |m|, |m|)
    requires forall i, j :: 0 <= i < |m| && 0 <= j < |m| ==> s[i][j] == Delta(i, j)
    ensures Reduced(Augmented(m), s, m, 0)
  {
    var n, a := |m|, Augmented(m);
    forall i, j | 0 <= i < n && 0 <= j < n
      ensures a[i][j] == ColDot(a[i][n..], m, j, n)
    {
      ColDotUnit(a[i][n..], i, m, j, n);
    }
    forall i, j | 0 <= i < n && 0 <= j < 2 * n
      ensures ColDot(s[i], a, j, n) == a[i][j]
    {
      ColDotUnit(s[i], i, a, j, n);
    }
  }

  // ---- What the two possible answers mean -------------------------------------------------------

  /** `x` is a two-sided inverse of `m`. */
  ghost predicate IsInverse(x: Matrix, m: Matrix) {
    && IsMatrix(m, |m|, |m|) && IsMatrix(x, |m|, |m|)
    && IsProductIdentity(x, m, |m|) && IsProductIdentity(m, x, |m|)
  }

  /** `m` sends `v`, whose entry `k` is 1, to a vector with all entries below the pivot
      tolerance; so moving column `k` of `m` by less than the tolerance makes `m` singular. */
  ghost predicate NearKernel(m: Matrix, v: seq<real>, k: nat, scale: real) {
    && IsMatrix(m, |m|, |m|) && |v| == |m| && k < |m| && v[k] == 1.0
    && forall r :: 0 <= r < |m| ==> Abs(Dot(m[r], v, |m|)) < PIVOT_TOLERANCE * scale
  }

  /** Some column of `matrix` is within the pivot tolerance of making it singular. */
  ghost predicate NearlySingular(matrix: Matrix) {
    && IsMatrix(matrix, |matrix|, |matrix|)
    && exists scale, v, k ::
      IsScale(matrix, scale) && NearKernel(matrix, v, k, scale)
  }

  lemma {:induction false} FinishedIsInverse(m: Matrix, a: Matrix, s: Matrix, x: Matrix)
    requires Reduced(a, s, m, |m|)
    requires |x| == |m| && forall i :: 0 <= i < |m| ==> x[i] == a[i][|m|..]
    ensures IsInverse(x, m)
  {
    var n := |m|;
    forall i, j | 0 <= i < n && 0 <= j < n
      ensures s[i][j] == m[i][j]
    {
      ColDotUnitColumn(s[i], a, j, j, n);
      assert Augmented(m)[i][j] == m[i][j];
    }
    forall i, j | 0 <= i < n && 0 <= j < n
      ensures ColDot(m[i], x, j, n) == Delta(i, j)
    {
      ColDotCongruent(s[i], m[i], a, x, n + j, j, n);
      assert Augmented(m)[i][n + j] == Delta(i, j);
    }
  }

  /** The kernel candidate at column `k`: minus the reduced column above, then 1, then zeros. */
  function KernelCandidate(a: Matrix, n: nat, k: nat): (v: seq<real>)
    requires IsMatrix(a, n, 2 * n) && k < n
  {
    seq(n, j requires 0 <= j < n => if j < k then -a[j][k] else Delta(j, k))
  }

  lemma {:induction false} DotCandidate(row: seq<real>, i: nat, a: Matrix, n: nat, k: nat, c: nat)
    requires IsMatrix(a, n, 2 * n) && k < n && |row| == 2 * n && c <= n
    requires forall j :: 0 <= j < k ==> row[j] == Delta(i, j)
    ensures Dot(row, KernelCandidate(a, n, k), c)
         == (if i < k && i < c then -a[i][k] else 0.0) + (if k < c then row[k] else 0.0)
  {
    if c > 0 { DotCandidate(row, i, a, n, k, c - 1); }
  }

  lemma {:induction false} SelectedIsSmall(u: seq<real>, b: seq<real>, k: nat, c: nat, tolerance: real)
    requires |u| == |b| && c <= |u| && 0.0 < tolerance
    requires forall t :: 0 <= t < k && t < |b| ==> b[t] == 0.0
    requires forall t :: k <= t < |b| ==> Abs(b[t]) < tolerance
    requires forall t :: k <= t < |u| ==> u[t] == 0.0 || u[t] == 1.0
    requires forall t, t' :: k <= t < t' < |u| ==> u[t] == 0.0 || u[t'] == 0.0
    ensures Abs(Dot(u, b, c)) < tolerance
    ensures (forall t :: k <= t < c ==> u[t] == 0.0) ==> Dot(u, b, c) == 0.0
  {
    if c > 0 { SelectedIsSmall(u, b, k, c - 1, tolerance); }
  }

  lemma {:induction false} SmallPivotNearKernel(m: Matrix, a: Matrix, s: Matrix, k: nat, scale: real)
    requires Reduced(a, s, m, k) && k < |m| && IsScale(m, scale)
    requires forall i :: k <= i < |m| ==> Abs(a[i][k]) < PIVOT_TOLERANCE * scale
    ensures NearKernel(m, KernelCandidate(a, |m|, k), k, scale)
  {
    var tolerance := PIVOT_TOLERANCE * scale;
    var n, v := |m|, KernelCandidate(a, |m|, k);
    var b := seq(n, t requires 0 <= t < n => Dot(a[t], v, n));
    forall t | 0 <= t < n ensures b[t] == if t < k then 0.0 else a[t][k] {
      DotCandidate(a[t], t, a, n, k, n);
    }
    forall r | 0 <= r < n ensures Abs(Dot(m[r], v, n)) < tolerance {
      var left := seq(n, t requires 0 <= t < n => a[t][..n]);
      var vm := seq(n, t requires 0 <= t < n => [v[t]]);
      forall t | 0 <= t < n
        ensures b[t] == ColDot(left[t], vm, 0, n)
        ensures m[r][t] == ColDot(s[r], left, t, n)
      {
        ColDotIsDot(left[t], vm, 0, v, n);
        DotCongruent(left[t], v, a[t], v, n);
        ColDotCongruent(s[r], s[r], a, left, t, t, n);
        assert Augmented(m)[r][t] == m[r][t];
      }
      ColDotAssociative(s[r], left, vm, 0, m[r], b, n, n);
      ColDotIsDot(m[r], vm, 0, v, n);
      SelectedIsSmall(s[r], b, k, n, tolerance);
    }
  }

  // ---- The elimination, in place on the rows of the augmented matrix ----------------------------

  method ScaleRow(row: array<real>, d: real)
    requires d != 0.0
    modifies row
    ensures row[..] == Scaled(old(row[..]), d)
  {
    for j := 0 to row.Length
      invariant forall t :: 0 <= t < j ==> row[t] == old(row[t]) / d
      invariant forall t :: j <= t < row.Length ==> row[t] == old(row[t])
    {
      row[j] := row[j] / d;
    }
  }

  method SubtractRow(other: array<real>, f: real, row: array<real>)
    requires other != row && other.Length == row.Length
    modifies other
    ensures other[..] == Minus(old(other[..]), f, row[..])
  {
    ghost var target := Minus(other[..], f, row[..]);
    for j := 0 to other.Length
      invariant forall t :: 0 <= t < j ==> other[t] == target[t]
      invariant forall t :: j <= t < other.Length ==> other[t] == old(other[t])
      invariant row[..] == old(row[..])
    {
      assert row[j] == row[..][j] && target[j] == old(other[..])[j] - f * row[..][j];
      other[j] := other[j] - f * row[j];
    }
  }

  ghost predicate WorkingRows(rows: seq<array<real>>, n: nat) {
    && |rows| == n
    && (forall i :: 0 <= i < n ==> rows[i].Length == 2 * n)
    && (forall i, j :: 0 <= i < j < n ==> rows[i] != rows[j])
  }

  method CopyAugmented(matrix: Matrix) returns (rows: seq<array<real>>)
    requires IsMatrix(matrix, |matrix|, |matrix|)
    ensures fresh(rows) && |rows| == |matrix| && WorkingRows(rows, |matrix|)
    ensures Contents(rows) == Augmented(matrix)
  {
    var n := |matrix|;
    rows := [];
    for i := 0 to n
      invariant |rows| == i && fresh(rows)
      invariant forall r :: 0 <= r < i ==> rows[r].Length == 2 * n && rows[r][..] == Augmented(matrix)[r]
      invariant forall r, t :: 0 <= r < t < i ==> rows[r] != rows[t]
    {
      var row := new real[2 * n](j requires 0 <= j < 2 * n => if j < n then matrix[i][j] else Delta(i, j - n));
      assert row[..] == Augmented(matrix)[i];
      rows := rows + [row];
    }
  }

  method FindPivot(rows: seq<array<real>>, k: nat) returns (pivot: nat)
    requires WorkingRows(rows, |rows|) && k < |rows|
    ensures k <= pivot < |rows|
    ensures forall i :: k <= i < |rows| ==> Abs(rows[i][k]) <= Abs(rows[pivot][k])
  {
    pivot := k;
    for i := k + 1 to |rows|
      invariant k <= pivot < i
      invariant forall r :: k <= r < i ==> Abs(rows[r][k]) <= Abs(rows[pivot][k])
    {
      if Abs(rows[i][k]) > Abs(rows[pivot][k]) { pivot := i; }
    }
  }

  /** Row `k` after the pivot row is swapped in and divided by its pivot. */
  function Pivoted(a: Matrix, k: nat, pivot: nat): (r: Matrix)
    requires k < |a| && pivot < |a| && k < |a[pivot]| && a[pivot][k] != 0.0
  {
    a[pivot := a[k]][k := Scaled(a[pivot], a[pivot][k])]
  }

  lemma {:induction false} SwapKeepsReduced(a: Matrix, s: Matrix, m: Matrix, k: nat, pivot: nat)
    requires Reduced(a, s, m, k) && k <= pivot < |m|
    ensures Reduced(a[pivot := a[k]][k := a[pivot]], SwapColumns(s, |m|, pivot, k), m, k)
  {
    SwapRecovers(s, a, m, pivot, k);
  }

  lemma {:induction false} ScaleMakesHalfReduced(a: Matrix, s: Matrix, m: Matrix, k: nat)
    requires Reduced(a, s, m, k) && k < |m| && a[k][k] != 0.0
    ensures HalfReduced(a[k := Scaled(a[k], a[k][k])], ScaleColumn(s, |m|, k, a[k][k]), m, k)
  {
    var d := a[k][k];
    ScaleKeepsLeft(a, m, k, d);
    ScaleRecovers(s, a, m, k, d);
    ScaleKeepsUnitColumns(a, |m|, k, d);
    ScaleKeepsSelection(s, |m|, k, d);
    DivideBySelf(d);
  }

  lemma {:induction false} ScaleKeepsUnitColumns(a: Matrix, n: nat, k: nat, d: real)
    requires IsMatrix(a, n, 2 * n) && k < n && UnitColumns(a, n, k) && d != 0.0
    ensures UnitColumns(a[k := Scaled(a[k], d)], n, k)
  {}

  lemma {:induction false} ScaleKeepsSelection(s: Matrix, n: nat, k: nat, d: real)
    requires IsMatrix(s, n, n) && k < n && SelectsAtMostOne(s, n, k)
    ensures SelectsAtMostOne(ScaleColumn(s, n, k, d), n, k + 1)
  {
    var s' := ScaleColumn(s, n, k, d);
    assert forall r, t :: 0 <= r < n && k + 1 <= t < n ==> s'[r][t] == s[r][t];
  }

  lemma {:induction false} DivideBySelf(d: real)
    requires d != 0.0
    ensures d / d == 1.0
  {}

  lemma {:induction false} PivotKeepsReduced(a: Matrix, s: Matrix, m: Matrix, k: nat, pivot: nat)
    requires Reduced(a, s, m, k) && k <= pivot < |m| && a[pivot][k] != 0.0
    ensures HalfReduced(Pivoted(a, k, pivot), ScaleColumn(SwapColumns(s, |m|, pivot, k), |m|, k, a[pivot][k]), m, k)
  {
    var a1 := a[pivot := a[k]][k := a[pivot]];
    SwapKeepsReduced(a, s, m, k, pivot);
    ScaleMakesHalfReduced(a1, SwapColumns(s, |m|, pivot, k), m, k);
    assert a1[k := Scaled(a1[k], a1[k][k])] == Pivoted(a, k, pivot);
  }

  /** Column `k` is still being cleared: row `k` holds its pivot 1. */
  ghost predicate HalfReduced(a: Matrix, s: Matrix, m: Matrix, k: nat) {
    && IsMatrix(m, |m|, |m|) && IsMatrix(a, |m|, 2 * |m|) && IsMatrix(s, |m|, |m|) && k < |m|
    && LeftIsRightTimes(a, m) && Recovers(s, a, m)
    && UnitColumns(a, |m|, k) && SelectsAtMostOne(s, |m|, k + 1) && a[k][k] == 1.0
  }

  lemma {:induction false} ClearKeepsHalfReduced(a: Matrix, s: Matrix, m: Matrix, k: nat, i: nat)
    requires HalfReduced(a, s, m, k) && i < |m| && i != k
    ensures |s| == |m| && IsMatrix(s, |m|, |m|) && |a[i]| == |a[k]| == 2 * |m|
    ensures HalfReduced(a[i := Minus(a[i], a[i][k], a[k])], AddColumn(s, |m|, k, a[i][k], i), m, k)
    ensures Minus(a[i], a[i][k], a[k])[k] == 0.0
  {
    MinusKeepsLeft(a, m, k, i, a[i][k]);
    MinusRecovers(s, a, m, k, i, a[i][k]);
  }

  lemma {:induction false} ClearedIsReduced(a: Matrix, s: Matrix, m: Matrix, k: nat)
    requires HalfReduced(a, s, m, k)
    requires forall r :: 0 <= r < |m| && r != k ==> a[r][k] == 0.0
    ensures Reduced(a, s, m, k + 1)
  {}

  /** Clears column `k` from every row but row `k`; `s` follows, so nothing is lost. */
  method Eliminate(rows: seq<array<real>>, k: nat, ghost matrix: Matrix, ghost s0: Matrix) returns (ghost s: Matrix)
    requires WorkingRows(rows, |matrix|) && k < |matrix| && HalfReduced(Contents(rows), s0, matrix, k)
    modifies rows
    ensures Reduced(Contents(rows), s, matrix, k + 1)
  {
    hide HalfReduced, Reduced, Minus, AddColumn;
    s := s0;
    for i := 0 to |rows|
      invariant HalfReduced(Contents(rows), s, matrix, k)
      invariant forall r :: 0 <= r < i && r != k ==> rows[r][k] == 0.0
    {
      if i != k {
        ghost var before := Contents(rows);
        var factor := rows[i][k];
        ClearKeepsHalfReduced(before, s, matrix, k, i);
        SubtractRow(rows[i], factor, rows[k]);
        s := AddColumn(s, |matrix|, k, factor, i);
        assert Contents(rows) == before[i := Minus(before[i], factor, before[k])];
        assert rows[i][..][k] == 0.0;
      }
    }
    ClearedIsReduced(Contents(rows), s, matrix, k);
  }

  /** Swaps the pivot row into place and divides it by its pivot. */
  method PivotRow(rows: seq<array<real>>, k: nat, pivot: nat, ghost matrix: Matrix, ghost s0: Matrix)
      returns (next: seq<array<real>>, ghost s: Matrix)
    requires WorkingRows(rows, |matrix|) && Reduced(Contents(rows), s0, matrix, k)
    requires k <= pivot < |matrix| && rows[pivot][k] != 0.0
    modifies rows[pivot]
    ensures next == rows[pivot := rows[k]][k := rows[pivot]] && WorkingRows(next, |matrix|)
    ensures HalfReduced(Contents(next), s, matrix, k)
  {
    ghost var before := Contents(rows);
    PivotKeepsReduced(before, s0, matrix, k, pivot);
    var row, current := rows[pivot], rows[k];
    next := rows[pivot := current];
    next := next[k := row];
    var divisor := row[k];
    ScaleRow(row, divisor);
    s := ScaleColumn(SwapColumns(s0, |matrix|, pivot, k), |matrix|, k, divisor);
    assert Contents(next) == Pivoted(before, k, pivot);
  }

  /** One round of the elimination: column `k` becomes a unit column, or the input is nearly singular. */
  method Stage(rows: seq<array<real>>, k: nat, scale: real, ghost matrix: Matrix, ghost s0: Matrix)
      returns (singular: bool, next: seq<array<real>>, ghost s: Matrix)
    requires WorkingRows(rows, |matrix|) && k < |matrix| && Reduced(Contents(rows), s0, matrix, k)
    requires IsMatrix(matrix, |matrix|, |matrix|) && IsScale(matrix, scale)
    modifies rows
    ensures |next| == |matrix| && WorkingRows(next, |matrix|) && forall i :: 0 <= i < |next| ==> next[i] in rows
    ensures singular ==> NearlySingular(matrix)
    ensures !singular ==> Reduced(Contents(next), s, matrix, k + 1)
  {
    hide HalfReduced, Reduced, NearKernel, IsScale;
    next, s := rows, s0;
    var pivot := FindPivot(rows, k);
    if Abs(rows[pivot][k]) < PIVOT_TOLERANCE * scale {
      SmallPivotNearKernel(matrix, Contents(rows), s, k, scale);
      singular := true;
    } else {
      PositivePivot(matrix, rows[pivot][k], scale);
      next, s := PivotRow(rows, k, pivot, matrix, s0);
      s := Eliminate(next, k, matrix, s);
      singular := false;
    }
  }

  method RightHalf(rows: seq<array<real>>) returns (x: Matrix)
    requires WorkingRows(rows, |rows|)
    ensures |x| == |rows| && forall i :: 0 <= i < |rows| ==> x[i] == rows[i][|rows|..]
  {
    x := [];
    for i := 0 to |rows|
      invariant |x| == i && forall r :: 0 <= r < i ==> x[r] == rows[r][|rows|..]
    {
      x := x + [rows[i][|rows|..]];
    }
  }

  /** The returned matrix is the exact two-sided inverse; without one the input is nearly
      singular. The input is a value and is not changed. */
  method InvertCountInformation(matrix: Matrix) returns (result: Option<Matrix>)
    requires IsMatrix(matrix, |matrix|, |matrix|)
    ensures result.Some? ==> IsInverse(result.value, matrix)
    ensures result.None? ==> NearlySingular(matrix)
  {
    hide Reduced, NearlySingular, IsScale, WorkingRows, IsInverse;
    var rows := CopyAugmented(matrix);
    var scale := DiagonalScale(matrix);
    ghost var s: Matrix := seq(|matrix|, i => seq(|matrix|, j => Delta(i, j)));
    InitialInvariants(matrix, s);
    for k := 0 to |matrix|
      invariant fresh(rows) && |rows| == |matrix| && WorkingRows(rows, |matrix|)
      invariant Reduced(Contents(rows), s, matrix, k)
    {
      var singular: bool;
      singular, rows, s := Stage(rows, k, scale, matrix, s);
      if singular { return None; }
    }
    var x := RightHalf(rows);
    FinishedIsInverse(matrix, Contents(rows), s, x);
    return Some(x);
  }

  lemma {:induction false} PositivePivot(matrix: Matrix, pivot: real, scale: real)
    requires IsMatrix(matrix, |matrix|, |matrix|) && IsScale(matrix, scale)
    requires PIVOT_TOLERANCE * scale <= Abs(pivot)
    ensures pivot != 0.0
  {}

  // ---- Consequences for the fit -----------------------------------------------------------------

  /** A singular matrix never gets an inverse. */
  lemma {:induction false} InverseHasNoKernel(x: Matrix, m: Matrix, v: seq<real>, r: nat)
    requires IsInverse(x, m) && |v| == |m| && r < |m|
    requires forall t :: 0 <= t < |m| ==> Dot(m[t], v, |m|) == 0.0
    ensures v[r] == 0.0
  {
    var zeros := seq(|m|, _ => 0.0);
    TimesVector(x, m, v, zeros, r);
    DotCommutes(x[r], zeros, |m|);
    ZeroDot(zeros, x[r], |m|);
  }

  /** The Newton direction inverse . gradient solves information . delta == gradient. */
  lemma {:induction false} NewtonDirectionSolves(
      inverse: Matrix, information: Matrix, gradient: seq<real>, delta: seq<real>, i: nat)
    requires IsInverse(inverse, information) && |gradient| == |delta| == |information| && i < |information|
    requires forall t :: 0 <= t < |information| ==> delta[t] == Dot(inverse[t], gradient, |information|)
    ensures Dot(information[i], delta, |information|) == gradient[i]
  {
    TimesVector(information, inverse, gradient, delta, i);
  }

  /** The inverse of a symmetric matrix is symmetric. */
  lemma {:induction false} InverseOfSymmetric(x: Matrix, m: Matrix)
    requires IsInverse(x, m) && Symmetric(m, |m|)
    ensures Symmetric(x, |m|)
  {
    var n := |m|;
    forall i, j | 0 <= i < n && 0 <= j < n
      ensures x[i][j] == x[j][i]
    {
      // m . (row j of x) is the unit column j, so x . that column is row j of x, and also column j of x.
      var unit := seq(n, t => Delta(t, j));
      forall t | 0 <= t < n ensures unit[t] == Dot(m[t], x[j], n) {
        ColDotIsDot(x[j], m, t, m[t], n);
        DotCommutes(x[j], m[t], n);
      }
      TimesVector(x, m, x[j], unit, i);
      DotUnit(x[i], unit, j, n);
    }
  }

  // ---- The information matrix -------------------------------------------------------------------

  /** The categorical design row: the columns that are 1, with its weight per observation. */
  datatype InformationRow = InformationRow(indices: seq<nat>, mean: real)

  function Weight(row: InformationRow, alpha: real, rows: nat): real
    requires rows > 0 && 0.0 < row.mean && 0.0 <= alpha
  {
    row.mean / (1.0 + alpha * row.mean) / rows as real
  }

  function Occurrences(indices: seq<nat>, i: nat, k: nat): nat
    requires k <= |indices|
  {
    if k == 0 then 0 else Occurrences(indices, i, k - 1) + if indices[k - 1] == i then 1 else 0
  }

  /** Every mean is an exponential, so positive; every index is a column of the design. */
  ghost predicate ValidRows(rows: seq<InformationRow>, width: nat, alpha: real) {
    && 0.0 <= alpha
    && forall r :: 0 <= r < |rows| ==>
      0.0 < rows[r].mean && forall t :: 0 <= t < |rows[r].indices| ==> rows[r].indices[t] < width
  }

  /** What a row of weight `w` adds to entry (i, j) with `a` and `b` occurrences of i and j. */
  function PairWeight(w: real, a: nat, b: nat): real {
    Share(w, b) * (a as real)
  }

  function Share(w: real, b: nat): real {
    w * (b as real)
  }

  function RowEntry(row: InformationRow, w: real, i: nat, j: nat): real {
    PairWeight(w, Occurrences(row.indices, i, |row.indices|), Occurrences(row.indices, j, |row.indices|))
  }

  /** Entry (i, j): every row adds its weight once per pair of occurrences of i and j. */
  function InformationEntry(rows: seq<InformationRow>, width: nat, alpha: real, i: nat, j: nat, k: nat): real
    requires k <= |rows| && ValidRows(rows, width, alpha)
  {
    if k == 0 then 0.0 else
      InformationEntry(rows, width, alpha, i, j, k - 1)
      + RowEntry(rows[k - 1], Weight(rows[k - 1], alpha, |rows|), i, j)
  }

  /** What one row adds on its own: the information of its mean for every pair of the columns it sets. */
  function Contribution(row: InformationRow, alpha: real, i: nat, j: nat): real
    requires 0.0 < row.mean && 0.0 <= alpha
  {
    var pairs := Occurrences(row.indices, i, |row.indices|) * Occurrences(row.indices, j, |row.indices|);
    row.mean * pairs as real / (1.0 + alpha * row.mean)
  }

  function Contributions(rows: seq<InformationRow>, width: nat, alpha: real, i: nat, j: nat, k: nat): real
    requires k <= |rows| && ValidRows(rows, width, alpha)
  {
    if k == 0 then 0.0 else Contributions(rows, width, alpha, i, j, k - 1) + Contribution(rows[k - 1], alpha, i, j)
  }

  lemma {:induction false} OneContribution(row: InformationRow, alpha: real, rows: nat, i: nat, j: nat)
    requires rows > 0 && 0.0 < row.mean && 0.0 <= alpha
    ensures Mul(RowEntry(row, Weight(row, alpha, rows), i, j), rows as real) == Contribution(row, alpha, i, j)
  {
    var a, b := Occurrences(row.indices, i, |row.indices|), Occurrences(row.indices, j, |row.indices|);
    ProductNonNegative(alpha, row.mean);
    ShareOfRow(row.mean, 1.0 + alpha * row.mean, rows as real, a as real, b as real);
    assert (a * b) as real == a as real * b as real;
  }

  lemma {:induction false} ProductNonNegative(x: real, y: real)
    requires 0.0 <= x && 0.0 <= y
    ensures 0.0 <= x * y
  {}

  lemma {:induction false} ShareOfRow(mean: real, scale: real, n: real, a: real, b: real)
    requires scale > 0.0 && n > 0.0
    ensures mean / scale / n * b * a * n == mean * (a * b) / scale
  {
    var q := mean / scale;
    assert q / n * n == q;
    assert q / n * b * a * n == q / n * n * (a * b);
    assert q * (a * b) == mean * (a * b) / scale;
  }

  /** The information is the mean of what the rows add. */
  lemma {:induction false} InformationIsAverage(
      rows: seq<InformationRow>, width: nat, alpha: real, i: nat, j: nat, k: nat)
    requires k <= |rows| && ValidRows(rows, width, alpha)
    ensures Mul(InformationEntry(rows, width, alpha, i, j, k), |rows| as real) == Contributions(rows, width, alpha, i, j, k)
  {
    hide Mul, RowEntry, Weight, Contribution;
    MulZero(|rows| as real);
    if k > 0 {
      InformationIsAverage(rows, width, alpha, i, j, k - 1);
      OneContribution(rows[k - 1], alpha, |rows|, i, j);
      SumTimes(InformationEntry(rows, width, alpha, i, j, k - 1),
        RowEntry(rows[k - 1], Weight(rows[k - 1], alpha, |rows|), i, j), |rows| as real);
    }
  }

  lemma {:induction false} SumTimes(x: real, y: real, n: real)
    ensures Mul(x + y, n) == Mul(x, n) + Mul(y, n)
  {}

  lemma {:induction false} ContributionsConcat(a: seq<InformationRow>, b: seq<InformationRow>, width: nat, alpha: real,
      i: nat, j: nat, k: nat)
    requires k <= |b| && ValidRows(a, width, alpha) && ValidRows(b, width, alpha)
    ensures ValidRows(a + b, width, alpha)
    ensures Contributions(a + b, width, alpha, i, j, |a| + k)
      == Contributions(a, width, alpha, i, j, |a|) + Contributions(b, width, alpha, i, j, k)
  {
    hide Contribution;
    if k > 0 {
      ContributionsConcat(a, b, width, alpha, i, j, k - 1);
    } else {
      ContributionsOfPrefix(a, b, width, alpha, i, j, |a|);
    }
  }

  lemma {:induction false} ContributionsOfPrefix(a: seq<InformationRow>, b: seq<InformationRow>, width: nat, alpha: real,
      i: nat, j: nat, k: nat)
    requires k <= |a| && ValidRows(a, width, alpha) && ValidRows(b, width, alpha)
    ensures ValidRows(a + b, width, alpha)
    ensures Contributions(a + b, width, alpha, i, j, k) == Contributions(a, width, alpha, i, j, k)
  {
    hide Contribution;
    if k > 0 { ContributionsOfPrefix(a, b, width, alpha, i, j, k - 1); }
  }

  /** Repeating the whole sample leaves the information as it is. */
  lemma {:induction false} RepeatedSample(rows: seq<InformationRow>, width: nat, alpha: real, i: nat, j: nat)
    requires |rows| > 0 && ValidRows(rows, width, alpha)
    ensures ValidRows(rows + rows, width, alpha)
    ensures InformationEntry(rows + rows, width, alpha, i, j, |rows + rows|)
      == InformationEntry(rows, width, alpha, i, j, |rows|)
  {
    hide InformationEntry, Contributions, Mul;
    ContributionsConcat(rows, rows, width, alpha, i, j, |rows|);
    InformationIsAverage(rows + rows, width, alpha, i, j, |rows + rows|);
    InformationIsAverage(rows, width, alpha, i, j, |rows|);
    assert |rows + rows| as real == |rows| as real + |rows| as real;
    SameAverage(InformationEntry(rows + rows, width, alpha, i, j, |rows + rows|),
      InformationEntry(rows, width, alpha, i, j, |rows|), |rows| as real);
  }

  lemma {:induction false} SameAverage(x: real, y: real, n: real)
    requires n > 0.0 && Mul(x, n + n) == Mul(y, n) + Mul(y, n)
    ensures x == y
  {
    assert (x - y) * (n + n) == 0.0;
  }

  lemma {:induction false} InformationEntrySymmetric(
      rows: seq<InformationRow>, width: nat, alpha: real, i: nat, j: nat, k: nat)
    requires k <= |rows| && ValidRows(rows, width, alpha)
    ensures InformationEntry(rows, width, alpha, i, j, k) == InformationEntry(rows, width, alpha, j, i, k)
  {
    if k > 0 {
      InformationEntrySymmetric(rows, width, alpha, i, j, k - 1);
      var row := rows[k - 1];
      var a, b := Occurrences(row.indices, i, |row.indices|), Occurrences(row.indices, j, |row.indices|);
      PairWeightCommutes(Weight(row, alpha, |rows|), a, b);
    }
  }

  lemma {:induction false} PairWeightCommutes(w: real, a: nat, b: nat)
    ensures PairWeight(w, a, b) == PairWeight(w, b, a)
  {}

  lemma {:induction false} PairWeightStep(w: real, a: nat, b: nat)
    ensures PairWeight(w, a + 1, b) == PairWeight(w, a, b) + Share(w, b)
    ensures PairWeight(w, 0, b) == 0.0
  {}

  lemma {:induction false} ShareStep(w: real, b: nat)
    ensures Share(w, b + 1) == Share(w, b) + w && Share(w, 0) == 0.0
  {}

  method AddTarget(target: array<real>, indices: seq<nat>, w: real)
    requires forall t :: 0 <= t < |indices| ==> indices[t] < target.Length
    modifies target
    ensures forall j :: 0 <= j < target.Length ==>
      target[j] == old(target[j]) + Share(w, Occurrences(indices, j, |indices|))
  {
    ShareStep(w, 0);
    for q := 0 to |indices|
      invariant forall j :: 0 <= j < target.Length ==>
        target[j] == old(target[j]) + Share(w, Occurrences(indices, j, q))
    {
      ShareStep(w, Occurrences(indices, indices[q], q));
      target[indices[q]] := target[indices[q]] + w;
    }
  }

  method AddRow(matrix: seq<array<real>>, row: InformationRow, w: real)
    requires SquareRows(matrix, |matrix|)
    requires forall t :: 0 <= t < |row.indices| ==> row.indices[t] < |matrix|
    modifies matrix
    ensures forall i, j :: 0 <= i < |matrix| && 0 <= j < |matrix| ==>
      matrix[i][j] == old(matrix[i][j]) + RowEntry(row, w, i, j)
  {
    var indices := row.indices;
    forall b: nat { PairWeightStep(w, 0, b); }
    for p := 0 to |indices|
      invariant forall i, j :: 0 <= i < |matrix| && 0 <= j < |matrix| ==>
        matrix[i][j] == old(matrix[i][j])
          + PairWeight(w, Occurrences(indices, i, p), Occurrences(indices, j, |indices|))
    {
      forall j | 0 <= j < |matrix| {
        PairWeightStep(w, Occurrences(indices, indices[p], p), Occurrences(indices, j, |indices|));
      }
      AddTarget(matrix[indices[p]], indices, w);
    }
  }

  /** Accumulates the information row by row; the result is the closed form, hence symmetric. */
  method CountInformation(rows: seq<InformationRow>, width: nat, alpha: real) returns (matrix: seq<array<real>>)
    requires ValidRows(rows, width, alpha)
    ensures fresh(matrix) && SquareRows(matrix, width)
    ensures forall i, j :: 0 <= i < width && 0 <= j < width ==>
      matrix[i][j] == InformationEntry(rows, width, alpha, i, j, |rows|)
    ensures Symmetric(Contents(matrix), width)
  {
    matrix := [];
    for i := 0 to width
      invariant |matrix| == i && fresh(matrix)
      invariant forall r, j :: 0 <= r < i && 0 <= j < matrix[r].Length ==> matrix[r][j] == 0.0
      invariant forall r :: 0 <= r < i ==> matrix[r].Length == width
      invariant forall r, t :: 0 <= r < t < i ==> matrix[r] != matrix[t]
    {
      var row := new real[width](_ => 0.0);
      matrix := matrix + [row];
    }
    for k := 0 to |rows|
      invariant forall i, j :: 0 <= i < width && 0 <= j < width ==>
        matrix[i][j] == InformationEntry(rows, width, alpha, i, j, k)
    {
      AddRow(matrix, rows[k], Weight(rows[k], alpha, |rows|));
    }
    forall i, j | 0 <= i < width && 0 <= j < width {
      InformationEntrySymmetric(rows, width, alpha, i, j, |rows|);
    }
  }
}
