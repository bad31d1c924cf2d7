/** Cyclic Jacobi diagonalisation of a symmetric matrix and its pseudo-inverse, over exact reals. */
module PitchCalibrationMatrix {
  import opened LinearAlgebra

  // ---- One plane rotation on values -------------------------------------------------------------

  /** Row vector times the rotation in the plane of columns `p` and `q`. */
  function Rot(u: seq<real>, p: nat, q: nat, c: real, s: real): (r: seq<real>)
    requires p < |u| && q < |u|
    ensures |r| == |u|
  {
    u[p := Mul(c, u[p]) - Mul(s, u[q])][q := Mul(s, u[p]) + Mul(c, u[q])]
  }

  function Plus(x: real, u: seq<real>, y: real, v: seq<real>): (r: seq<real>)
    requires |u| == |v|
    ensures |r| == |u| && forall i :: 0 <= i < |u| ==> r[i] == Mul(x, u[i]) + Mul(y, v[i])
  {
    seq(|u|, i requires 0 <= i < |u| => Mul(x, u[i]) + Mul(y, v[i]))
  }

  function Less(x: real, u: seq<real>, y: real, v: seq<real>): (r: seq<real>)
    requires |u| == |v|
    ensures |r| == |u| && forall i :: 0 <= i < |u| ==> r[i] == Mul(x, u[i]) - Mul(y, v[i])
  {
    seq(|u|, i requires 0 <= i < |u| => Mul(x, u[i]) - Mul(y, v[i]))
  }

  /** The rotation applied to both sides of a square matrix. */
  function Rotated(a: Matrix, p: nat, q: nat, c: real, s: real): (r: Matrix)
    requires IsMatrix(a, |a|, |a|) && p < |a| && q < |a|
    ensures IsMatrix(r, |a|, |a|)
  {
    var rp, rq := Rot(a[p], p, q, c, s), Rot(a[q], p, q, c, s);
    seq(|a|, k requires 0 <= k < |a| =>
      if k == p then Less(c, rp, s, rq)
      else if k == q then Plus(s, rp, c, rq)
      else Rot(a[k], p, q, c, s))
  }

  function RotatedRows(v: Matrix, p: nat, q: nat, c: real, s: real): (r: Matrix)
    requires IsMatrix(v, |v|, |v|) && p < |v| && q < |v|
    ensures IsMatrix(r, |v|, |v|)
  {
    seq(|v|, k requires 0 <= k < |v| => Rot(v[k], p, q, c, s))
  }

  ghost predicate Unit(c: real, s: real) {
    c * c + s * s == 1.0
  }

  /** What the angle of the source gives: a rotation that zeroes entry (p, q). */
  ghost predicate Annihilates(c: real, s: real, pp: real, qq: real, pq: real) {
    Unit(c, s) && Cross(c, s, pp, qq, pq) == 0.0
  }

  // ---- The invariant of the iteration -----------------------------------------------------------

  function Act(a: Matrix, r: seq<real>): (w: seq<real>)
    requires IsMatrix(a, |r|, |r|)
    ensures |w| == |r|
  {
    seq(|r|, l requires 0 <= l < |r| => Dot(a[l], r, |r|))
  }

  function Column(m: Matrix, j: nat): (c: seq<real>)
    requires IsMatrix(m, |m|, |m|) && j < |m|
    ensures |c| == |m|
  {
    seq(|m|, i requires 0 <= i < |m| => m[i][j])
  }

  ghost predicate OrthonormalRows(v: Matrix)
    requires IsMatrix(v, |v|, |v|)
  {
    forall i, j :: 0 <= i < |v| && 0 <= j < |v| ==> Dot(v[i], v[j], |v|) == Delta(i, j)
  }

  ghost predicate OrthonormalColumns(v: Matrix)
    requires IsMatrix(v, |v|, |v|)
  {
    forall i, j :: 0 <= i < |v| && 0 <= j < |v| ==> Dot(Column(v, i), Column(v, j), |v|) == Delta(i, j)
  }

  /** `v` is orthogonal and v . a . transpose(v) is the input `m`. */
  ghost predicate Decomposes(a: Matrix, v: Matrix, m: Matrix) {
    && IsMatrix(m, |m|, |m|) && IsMatrix(a, |m|, |m|) && IsMatrix(v, |m|, |m|)
    && Symmetric(a, |m|) && OrthonormalRows(v) && OrthonormalColumns(v)
    && forall i, j :: 0 <= i < |m| && 0 <= j < |m| ==> Dot(v[i], Act(a, v[j]), |m|) == m[i][j]
  }

  // ---- The rotation preserves inner products ----------------------------------------------------

  /** Two dot products whose factors differ only in entry `p`. */
  lemma {:induction false} DotChangeOne(u: seq<real>, v: seq<real>, u': seq<real>, v': seq<real>, p: nat, k: nat)
    requires |u| == |v| == |u'| == |v'| && p < k <= |u|
    requires forall t :: 0 <= t < k && t != p ==> u'[t] == u[t] && v'[t] == v[t]
    ensures Dot(u', v', k) == Dot(u, v, k) + Mul(u'[p], v'[p]) - Mul(u[p], v[p])
  {
    hide Mul, Unit;
    if k - 1 == p {
      DotCongruent(u, v, u', v', k - 1);
    } else {
      DotChangeOne(u, v, u', v', p, k - 1);
    }
  }

  /** The two entries of a rotated plane vector. */
  ghost predicate Turns(c: real, s: real, a: real, b: real, a': real, b': real) {
    a' == Mul(c, a) - Mul(s, b) && b' == Mul(s, a) + Mul(c, b)
  }

  /** A plane rotation keeps inner products. */
  lemma {:induction false} PlaneIsometry(
      c: real, s: real, a: real, b: real, x: real, y: real, a': real, b': real, x': real, y': real)
    requires Unit(c, s) && Turns(c, s, a, b, a', b') && Turns(c, s, x, y, x', y')
    ensures Mul(a', x') + Mul(b', y') == Mul(a, x) + Mul(b, y)
  {
    Expand(c, s, a, b, x, y, a', b', x', y');
    UnitTimes(c, s, a * x);
    UnitTimes(c, s, b * y);
  }

  lemma {:induction false} Expand(
      c: real, s: real, a: real, b: real, x: real, y: real, a': real, b': real, x': real, y': real)
    requires Turns(c, s, a, b, a', b') && Turns(c, s, x, y, x', y')
    ensures a' * x' + b' * y' == (c * c) * (a * x) + (s * s) * (a * x) + ((c * c) * (b * y) + (s * s) * (b * y))
  {
    assert a' * x' == (c * c) * (a * x) - (c * s) * (a * y) - (c * s) * (b * x) + (s * s) * (b * y);
    assert b' * y' == (s * s) * (a * x) + (c * s) * (a * y) + (c * s) * (b * x) + (c * c) * (b * y);
  }

  lemma {:induction false} UnitTimes(c: real, s: real, x: real)
    requires Unit(c, s)
    ensures (c * c) * x + (s * s) * x == x
  {
    assert (c * c) * x + (s * s) * x == (c * c + s * s) * x;
  }

  /** Vectors that agree off the plane, and whose plane parts have the same inner product. */
  lemma {:induction false} PlaneDot(u: seq<real>, v: seq<real>, u': seq<real>, v': seq<real>, p: nat, q: nat)
    requires |u| == |v| == |u'| == |v'| && p < |u| && q < |u| && p != q
    requires forall t :: 0 <= t < |u| && t != p && t != q ==> u'[t] == u[t] && v'[t] == v[t]
    requires Mul(u'[p], v'[p]) + Mul(u'[q], v'[q]) == Mul(u[p], v[p]) + Mul(u[q], v[q])
    ensures Dot(u', v', |u|) == Dot(u, v, |u|)
  {
    hide Mul, Unit;
    var u1, v1 := u[p := u'[p]], v[p := v'[p]];
    DotChangeOne(u, v, u1, v1, p, |u|);
    DotChangeOne(u1, v1, u', v', q, |u|);
  }

  lemma {:induction false} RotDot(u: seq<real>, v: seq<real>, p: nat, q: nat, c: real, s: real)
    requires |u| == |v| && p < |u| && q < |u| && p != q && Unit(c, s)
    ensures Dot(Rot(u, p, q, c, s), Rot(v, p, q, c, s), |u|) == Dot(u, v, |u|)
  {
    hide Mul, Unit;
    var u', v' := Rot(u, p, q, c, s), Rot(v, p, q, c, s);
    PlaneIsometry(c, s, u[p], u[q], v[p], v[q], u'[p], u'[q], v'[p], v'[q]);
    PlaneDot(u, v, u', v', p, q);
  }

  /** Rotating a and r together rotates a . r. */
  lemma {:induction false} ActRotated(a: Matrix, r: seq<real>, p: nat, q: nat, c: real, s: real)
    requires IsMatrix(a, |r|, |r|) && p < |r| && q < |r| && p != q && Unit(c, s)
    ensures Act(Rotated(a, p, q, c, s), Rot(r, p, q, c, s)) == Rot(Act(a, r), p, q, c, s)
  {
    hide Mul, Unit;
    var n, r' := |r|, Rot(r, p, q, c, s);
    var a' := Rotated(a, p, q, c, s);
    var rp, rq := Rot(a[p], p, q, c, s), Rot(a[q], p, q, c, s);
    forall l | 0 <= l < n ensures Act(a', r')[l] == Rot(Act(a, r), p, q, c, s)[l] {
      RotDot(a[l], r, p, q, c, s);
      if l == p {
        RotDot(a[q], r, p, q, c, s);
        DotDifference(a'[p], c, rp, s, rq, r', n);
      } else if l == q {
        RotDot(a[p], r, p, q, c, s);
        DotLinear(a'[q], s, rp, c, rq, r', n);
      }
    }
  }

  lemma {:induction false} RotatedEntry(a: Matrix, u: seq<real>, v: seq<real>, p: nat, q: nat, c: real, s: real)
    requires IsMatrix(a, |u|, |u|) && |v| == |u| && p < |u| && q < |u| && p != q && Unit(c, s)
    ensures Dot(Rot(u, p, q, c, s), Act(Rotated(a, p, q, c, s), Rot(v, p, q, c, s)), |u|) == Dot(u, Act(a, v), |u|)
  {
    ActRotated(a, v, p, q, c, s);
    RotDot(u, Act(a, v), p, q, c, s);
  }

  /** What rotating columns `p` and `q` does to a value that is linear in the column. */
  function Turned(i: nat, p: nat, q: nat, c: real, s: real, atP: real, atQ: real, atI: real): real {
    if i == p then Mul(c, atP) - Mul(s, atQ) else if i == q then Mul(s, atP) + Mul(c, atQ) else atI
  }

  /** Inner products with the rotated columns. */
  lemma {:induction false} ColumnRotated(v: Matrix, x: seq<real>, i: nat, p: nat, q: nat, c: real, s: real)
    requires IsMatrix(v, |v|, |v|) && |x| == |v| && p < |v| && q < |v| && p != q && i < |v|
    ensures Dot(Column(RotatedRows(v, p, q, c, s), i), x, |v|)
      == Turned(i, p, q, c, s, Dot(Column(v, p), x, |v|), Dot(Column(v, q), x, |v|), Dot(Column(v, i), x, |v|))
  {
    hide Mul, Unit;
    var col, cp, cq := Column(RotatedRows(v, p, q, c, s), i), Column(v, p), Column(v, q);
    if i == p {
      DotDifference(col, c, cp, s, cq, x, |v|);
    } else if i == q {
      DotLinear(col, s, cp, c, cq, x, |v|);
    } else {
      assert col == Column(v, i);
    }
  }

  lemma {:induction false} TurnedDelta(i: nat, j: nat, p: nat, q: nat, c: real, s: real, atP: real, atQ: real, atI: real)
    requires p != q && Unit(c, s)
    requires atP == Turned(j, p, q, c, s, Delta(p, p), Delta(p, q), Delta(p, j))
    requires atQ == Turned(j, p, q, c, s, Delta(q, p), Delta(q, q), Delta(q, j))
    requires atI == Turned(j, p, q, c, s, Delta(i, p), Delta(i, q), Delta(i, j))
    ensures Turned(i, p, q, c, s, atP, atQ, atI) == Delta(i, j)
  {}

  lemma {:induction false} RotatedKeepsColumns(v: Matrix, p: nat, q: nat, c: real, s: real)
    requires IsMatrix(v, |v|, |v|) && p < |v| && q < |v| && p != q && Unit(c, s)
    requires OrthonormalColumns(v)
    ensures OrthonormalColumns(RotatedRows(v, p, q, c, s))
  {
    hide Mul, Unit;
    var v' := RotatedRows(v, p, q, c, s);
    forall i, j | 0 <= i < |v| && 0 <= j < |v|
      ensures Dot(Column(v', i), Column(v', j), |v|) == Delta(i, j)
    {
      ColumnRotatedDelta(v, p, j, p, q, c, s);
      ColumnRotatedDelta(v, q, j, p, q, c, s);
      ColumnRotatedDelta(v, i, j, p, q, c, s);
      ColumnRotated(v, Column(v', j), i, p, q, c, s);
      TurnedDelta(i, j, p, q, c, s, Dot(Column(v, p), Column(v', j), |v|), Dot(Column(v, q), Column(v', j), |v|),
        Dot(Column(v, i), Column(v', j), |v|));
    }
  }

  lemma {:induction false} ColumnRotatedDelta(v: Matrix, t: nat, j: nat, p: nat, q: nat, c: real, s: real)
    requires IsMatrix(v, |v|, |v|) && p < |v| && q < |v| && p != q && t < |v| && j < |v| && OrthonormalColumns(v)
    ensures Dot(Column(v, t), Column(RotatedRows(v, p, q, c, s), j), |v|)
         == Turned(j, p, q, c, s, Delta(t, p), Delta(t, q), Delta(t, j))
  {
    ColumnRotated(v, Column(v, t), j, p, q, c, s);
    DotCommutes(Column(v, t), Column(RotatedRows(v, p, q, c, s), j), |v|);
    DeltaSymmetric(t, p);
    DeltaSymmetric(t, q);
    DeltaSymmetric(t, j);
  }

  lemma {:induction false} DeltaSymmetric(i: nat, j: nat)
    ensures Delta(i, j) == Delta(j, i)
  {}

  /** The four entries in the rotation plane. */
  lemma {:induction false} CornerEntries(a: Matrix, p: nat, q: nat, c: real, s: real)
    requires IsMatrix(a, |a|, |a|) && p < |a| && q < |a| && p != q && Symmetric(a, |a|)
    ensures Rotated(a, p, q, c, s)[p][p] == CornerP(c, s, a[p][p], a[q][q], a[p][q])
    ensures Rotated(a, p, q, c, s)[q][q] == CornerQ(c, s, a[p][p], a[q][q], a[p][q])
    ensures Rotated(a, p, q, c, s)[p][q] == Cross(c, s, a[p][p], a[q][q], a[p][q])
    ensures Rotated(a, p, q, c, s)[q][p] == Cross(c, s, a[p][p], a[q][q], a[p][q])
  {
    hide Mul, Unit;
    var a', rp, rq := Rotated(a, p, q, c, s), Rot(a[p], p, q, c, s), Rot(a[q], p, q, c, s);
    assert a'[p] == Less(c, rp, s, rq) && a'[q] == Plus(s, rp, c, rq);
    CornerScalars(c, s, a[p][p], a[q][q], a[p][q], rp[p], rp[q], rq[p], rq[q]);
  }

  function CornerP(c: real, s: real, pp: real, qq: real, pq: real): real {
    c * c * pp - 2.0 * s * c * pq + s * s * qq
  }

  function CornerQ(c: real, s: real, pp: real, qq: real, pq: real): real {
    s * s * pp + 2.0 * s * c * pq + c * c * qq
  }

  function Cross(c: real, s: real, pp: real, qq: real, pq: real): real {
    c * s * (pp - qq) + (c * c - s * s) * pq
  }

  lemma {:induction false} CornerScalars(
      c: real, s: real, pp: real, qq: real, pq: real, x: real, y: real, z: real, w: real)
    requires Turns(c, s, pp, pq, x, y) && Turns(c, s, pq, qq, z, w)
    ensures Turns(c, s, x, z, CornerP(c, s, pp, qq, pq), Cross(c, s, pp, qq, pq))
    ensures Turns(c, s, y, w, Cross(c, s, pp, qq, pq), CornerQ(c, s, pp, qq, pq))
  {}

  lemma {:induction false} RotatedSymmetric(a: Matrix, p: nat, q: nat, c: real, s: real)
    requires IsMatrix(a, |a|, |a|) && p < |a| && q < |a| && p != q && Symmetric(a, |a|)
    ensures Symmetric(Rotated(a, p, q, c, s), |a|)
  {
    hide Mul, Unit;
    var a' := Rotated(a, p, q, c, s);
    CornerEntries(a, p, q, c, s);
    forall i | 0 <= i < |a| && i != p && i != q
      ensures a'[p][i] == a'[i][p] && a'[q][i] == a'[i][q]
    {
      OuterEntries(a, i, p, q, c, s);
    }
  }

  /** Entries in rows and columns `p` and `q`, outside the rotation plane. */
  lemma {:induction false} OuterEntries(a: Matrix, i: nat, p: nat, q: nat, c: real, s: real)
    requires IsMatrix(a, |a|, |a|) && p < |a| && q < |a| && p != q && Symmetric(a, |a|)
    requires i < |a| && i != p && i != q
    ensures var a' := Rotated(a, p, q, c, s);
      && a'[i][p] == a'[p][i] == Mul(c, a[i][p]) - Mul(s, a[i][q])
      && a'[i][q] == a'[q][i] == Mul(s, a[i][p]) + Mul(c, a[i][q])
  {
    hide Mul, Unit;
    assert a[p][i] == a[i][p] && a[q][i] == a[i][q];
  }

  lemma {:induction false} RotationKeepsDecomposition(a: Matrix, v: Matrix, m: Matrix, p: nat, q: nat, c: real, s: real)
    requires Decomposes(a, v, m) && p < |m| && q < |m| && p != q && Unit(c, s)
    ensures Decomposes(Rotated(a, p, q, c, s), RotatedRows(v, p, q, c, s), m)
  {
    hide Mul, Unit;
    var a', v' := Rotated(a, p, q, c, s), RotatedRows(v, p, q, c, s);
    RotatedKeepsColumns(v, p, q, c, s);
    RotatedSymmetric(a, p, q, c, s);
    forall i, j | 0 <= i < |m| && 0 <= j < |m|
      ensures Dot(v'[i], v'[j], |m|) == Delta(i, j)
      ensures Dot(v'[i], Act(a', v'[j]), |m|) == m[i][j]
    {
      RotDot(v[i], v[j], p, q, c, s);
      RotatedEntry(a, v[i], v[j], p, q, c, s);
    }
  }

  lemma {:induction false} InitialDecomposition(m: Matrix, v: Matrix)
    requires IsMatrix(m, |m|, |m|) && IsMatrix(v, |m|, |m|) && Symmetric(m, |m|)
    requires forall i, j :: 0 <= i < |m| && 0 <= j < |m| ==> v[i][j] == Delta(i, j)
    ensures Decomposes(m, v, m)
  {
    var n := |m|;
    forall i, j | 0 <= i < n && 0 <= j < n
      ensures Dot(v[i], v[j], n) == Delta(i, j)
      ensures Dot(Column(v, i), Column(v, j), n) == Delta(i, j)
      ensures Dot(v[i], Act(m, v[j]), n) == m[i][j]
    {
      DotUnit(v[i], v[j], j, n);
      DotUnit(Column(v, i), Column(v, j), j, n);
      DotCommutes(v[i], Act(m, v[j]), n);
      DotUnit(Act(m, v[j]), v[i], i, n);
      DotUnit(m[i], v[j], j, n);
    }
  }

  // ---- What a rotation conserves and what it removes --------------------------------------------

  function Sum(x: seq<real>, k: nat): real
    requires k <= |x|
  {
    if k == 0 then 0.0 else Sum(x, k - 1) + x[k - 1]
  }

  function Diagonal(a: Matrix): (d: seq<real>)
    requires IsMatrix(a, |a|, |a|)
    ensures |d| == |a|
  {
    seq(|a|, k requires 0 <= k < |a| => a[k][k])
  }

  function Trace(a: Matrix): real
    requires IsMatrix(a, |a|, |a|)
  {
    Sum(Diagonal(a), |a|)
  }

  /** The squares of row `i` off the diagonal, among the first `k` columns. */
  function RowOffSquares(row: seq<real>, i: nat, k: nat): real
    requires k <= |row|
  {
    if k == 0 then 0.0
    else RowOffSquares(row, i, k - 1) + if k - 1 == i then 0.0 else Mul(row[k - 1], row[k - 1])
  }

  function OffSquares(a: Matrix): real
    requires IsMatrix(a, |a|, |a|)
  {
    Sum(seq(|a|, k requires 0 <= k < |a| => RowOffSquares(a[k], k, |a|)), |a|)
  }

  lemma {:induction false} RowOffSquaresIsDot(row: seq<real>, i: nat, k: nat)
    requires k <= |row| && i < |row|
    ensures RowOffSquares(row, i, k) == Dot(row, row, k) - if i < k then Mul(row[i], row[i]) else 0.0
  {
    hide Mul, Unit;
    if k > 0 { RowOffSquaresIsDot(row, i, k - 1); }
  }

  /** Two sums that differ only in entries `p` and `q`. */
  lemma {:induction false} SumChangeTwo(x: seq<real>, y: seq<real>, p: nat, q: nat, k: nat)
    requires |x| == |y| && k <= |x| && p != q
    requires forall t :: 0 <= t < k && t != p && t != q ==> x[t] == y[t]
    ensures Sum(y, k) == Sum(x, k) + (if p < k then y[p] - x[p] else 0.0) + (if q < k then y[q] - x[q] else 0.0)
  {
    if k > 0 { SumChangeTwo(x, y, p, q, k - 1); }
  }

  lemma {:induction false} SumDifference(x: seq<real>, y: seq<real>, z: seq<real>, k: nat)
    requires k <= |x| && k <= |y| && k <= |z| && forall t :: 0 <= t < k ==> z[t] == x[t] - y[t]
    ensures Sum(z, k) == Sum(x, k) - Sum(y, k)
  {
    if k > 0 { SumDifference(x, y, z, k - 1); }
  }

  function RowNorms(a: Matrix): (r: seq<real>)
    requires IsMatrix(a, |a|, |a|)
    ensures |r| == |a|
  {
    seq(|a|, k requires 0 <= k < |a| => Dot(a[k], a[k], |a|))
  }

  function DiagonalSquares(a: Matrix): (r: seq<real>)
    requires IsMatrix(a, |a|, |a|)
    ensures |r| == |a|
  {
    seq(|a|, k requires 0 <= k < |a| => Mul(a[k][k], a[k][k]))
  }

  lemma {:induction false} OffSquaresIsDifference(a: Matrix)
    requires IsMatrix(a, |a|, |a|)
    ensures OffSquares(a) == Sum(RowNorms(a), |a|) - Sum(DiagonalSquares(a), |a|)
  {
    var off := seq(|a|, k requires 0 <= k < |a| => RowOffSquares(a[k], k, |a|));
    forall k | 0 <= k < |a| { RowOffSquaresIsDot(a[k], k, |a|); }
    SumDifference(RowNorms(a), DiagonalSquares(a), off, |a|);
  }

  lemma {:induction false} SumNorm(w: seq<real>, x: real, u: seq<real>, y: real, v: seq<real>, n: nat)
    requires |w| == |u| == |v| == n && forall t :: 0 <= t < n ==> w[t] == Mul(x, u[t]) + Mul(y, v[t])
    ensures Dot(w, w, n) == Mul(x, Mul(x, Dot(u, u, n)) + Mul(y, Dot(u, v, n)))
                          + Mul(y, Mul(x, Dot(u, v, n)) + Mul(y, Dot(v, v, n)))
  {
    hide Mul, Unit;
    DotLinear(w, x, u, y, v, w, n);
    DotLinear(w, x, u, y, v, u, n);
    DotLinear(w, x, u, y, v, v, n);
    DotCommutes(u, w, n);
    DotCommutes(v, w, n);
    DotCommutes(v, u, n);
  }

  lemma {:induction false} DifferenceNorm(w: seq<real>, x: real, u: seq<real>, y: real, v: seq<real>, n: nat)
    requires |w| == |u| == |v| == n && forall t :: 0 <= t < n ==> w[t] == Mul(x, u[t]) - Mul(y, v[t])
    ensures Dot(w, w, n) == Mul(x, Mul(x, Dot(u, u, n)) - Mul(y, Dot(u, v, n)))
                          - Mul(y, Mul(x, Dot(u, v, n)) - Mul(y, Dot(v, v, n)))
  {
    hide Mul, Unit;
    DotDifference(w, x, u, y, v, w, n);
    DotDifference(w, x, u, y, v, u, n);
    DotDifference(w, x, u, y, v, v, n);
    DotCommutes(u, w, n);
    DotCommutes(v, w, n);
    DotCommutes(v, u, n);
  }

  lemma {:induction false} PlaneNorms(c: real, s: real, uu: real, uv: real, vv: real)
    requires Unit(c, s)
    ensures Mul(c, Mul(c, uu) - Mul(s, uv)) - Mul(s, Mul(c, uv) - Mul(s, vv))
          + Mul(s, Mul(s, uu) + Mul(c, uv)) + Mul(c, Mul(s, uv) + Mul(c, vv)) == uu + vv
  {
    UnitTimes(c, s, uu);
    UnitTimes(c, s, vv);
  }

  lemma {:induction false} RowNormsConserved(a: Matrix, p: nat, q: nat, c: real, s: real)
    requires IsMatrix(a, |a|, |a|) && p < |a| && q < |a| && p != q && Unit(c, s)
    ensures Sum(RowNorms(Rotated(a, p, q, c, s)), |a|) == Sum(RowNorms(a), |a|)
  {
    hide Mul, Unit;
    var n, a' := |a|, Rotated(a, p, q, c, s);
    var x, x' := RowNorms(a), RowNorms(a');
    PlaneRowsConserved(a, p, q, c, s);
    forall k | 0 <= k < n && k != p && k != q ensures x'[k] == x[k] {
      RotDot(a[k], a[k], p, q, c, s);
    }
    SumChangeTwo(x, x', p, q, n);
  }

  lemma {:induction false} PlaneRowsConserved(a: Matrix, p: nat, q: nat, c: real, s: real)
    requires IsMatrix(a, |a|, |a|) && p < |a| && q < |a| && p != q && Unit(c, s)
    ensures var a' := Rotated(a, p, q, c, s);
      Dot(a'[p], a'[p], |a|) + Dot(a'[q], a'[q], |a|) == Dot(a[p], a[p], |a|) + Dot(a[q], a[q], |a|)
  {
    hide Mul, Unit;
    var n, a' := |a|, Rotated(a, p, q, c, s);
    var rp, rq := Rot(a[p], p, q, c, s), Rot(a[q], p, q, c, s);
    RotDot(a[p], a[p], p, q, c, s);
    RotDot(a[q], a[q], p, q, c, s);
    CombinedNorms(rp, rq, a'[p], a'[q], c, s);
  }

  lemma {:induction false} CombinedNorms(u: seq<real>, v: seq<real>, w: seq<real>, z: seq<real>, c: real, s: real)
    requires |u| == |v| && Unit(c, s) && w == Less(c, u, s, v) && z == Plus(s, u, c, v)
    ensures Dot(w, w, |u|) + Dot(z, z, |u|) == Dot(u, u, |u|) + Dot(v, v, |u|)
  {
    hide Mul, Unit;
    DifferenceNorm(w, c, u, s, v, |u|);
    SumNorm(z, s, u, c, v, |u|);
    PlaneNorms(c, s, Dot(u, u, |u|), Dot(u, v, |u|), Dot(v, v, |u|));
  }

  /** The two diagonal entries keep their sum; their squares gain what entry (p, q) loses. */
  lemma {:induction false} CornerAlgebra(c: real, s: real, pp: real, qq: real, pq: real, p': real, q': real)
    requires Annihilates(c, s, pp, qq, pq)
    requires p' == CornerP(c, s, pp, qq, pq) && q' == CornerQ(c, s, pp, qq, pq)
    ensures p' + q' == pp + qq && Mul(p', p') + Mul(q', q') == Mul(pp, pp) + Mul(qq, qq) + 2.0 * Mul(pq, pq)
  {
    UnitTimes(c, s, pp);
    UnitTimes(c, s, qq);
    // The corner turned on one side only, and then on the other.
    var x, y := Mul(c, pp) - Mul(s, pq), Mul(s, pp) + Mul(c, pq);
    var z, w := Mul(c, pq) - Mul(s, qq), Mul(s, pq) + Mul(c, qq);
    CornerScalars(c, s, pp, qq, pq, x, y, z, w);
    PlaneIsometry(c, s, pp, pq, pp, pq, x, y, x, y);
    PlaneIsometry(c, s, pq, qq, pq, qq, z, w, z, w);
    PlaneIsometry(c, s, x, z, x, z, p', 0.0, p', 0.0);
    PlaneIsometry(c, s, y, w, y, w, 0.0, q', 0.0, q');
  }

  /** A rotation keeps the trace and takes exactly 2 pq^2 from the off-diagonal squares. */
  lemma {:induction false} RotationConserves(a: Matrix, p: nat, q: nat, c: real, s: real)
    requires IsMatrix(a, |a|, |a|) && Symmetric(a, |a|) && p < |a| && q < |a| && p != q
    requires Annihilates(c, s, a[p][p], a[q][q], a[p][q])
    ensures Trace(Rotated(a, p, q, c, s)) == Trace(a)
    ensures OffSquares(Rotated(a, p, q, c, s)) == OffSquares(a) - 2.0 * Mul(a[p][q], a[p][q])
  {
    hide Mul, Unit, Cross, CornerP, CornerQ, Rotated;
    var n, a' := |a|, Rotated(a, p, q, c, s);
    CornerEntries(a, p, q, c, s);
    CornerAlgebra(c, s, a[p][p], a[q][q], a[p][q], a'[p][p], a'[q][q]);
    DiagonalOutside(a, p, q, c, s);
    SumChangeTwo(Diagonal(a), Diagonal(a'), p, q, n);
    SumChangeTwo(DiagonalSquares(a), DiagonalSquares(a'), p, q, n);
    RowNormsConserved(a, p, q, c, s);
    OffSquaresIsDifference(a);
    OffSquaresIsDifference(a');
  }

  lemma {:induction false} DiagonalOutside(a: Matrix, p: nat, q: nat, c: real, s: real)
    requires IsMatrix(a, |a|, |a|) && p < |a| && q < |a| && p != q
    ensures forall t :: 0 <= t < |a| && t != p && t != q ==> Rotated(a, p, q, c, s)[t][t] == a[t][t]
  {}

  // ---- How fast the off-diagonal squares shrink -------------------------------------------------

  function Power(x: real, k: nat): real {
    if k == 0 then 1.0 else Mul(Power(x, k - 1), x)
  }

  /** The share of the off-diagonal squares that survives a rotation at the largest entry. */
  function Shrink(n: nat): (f: real)
    ensures 0.0 <= f <= 1.0
  {
    if n < 2 then 0.0 else 1.0 - 2.0 / OrderedPairs(n)
  }

  function OrderedPairs(n: nat): (pairs: real)
    ensures 0.0 <= pairs && (n >= 2 ==> pairs >= 2.0)
  {
    if n == 0 then 0.0 else PairsGrow(n); (n * (n - 1)) as real
  }

  lemma {:induction false} PairsGrow(n: nat)
    requires n > 0
    ensures 0 <= n * (n - 1) && (n >= 2 ==> n * (n - 1) >= 2)
  {}

  lemma {:induction false} RowOffSquaresBelow(row: seq<real>, i: nat, k: nat, largest: real)
    requires i < |row| && k <= |row| && 0.0 <= largest
    requires forall j :: 0 <= j < |row| && j != i ==> Abs(row[j]) <= largest
    ensures 0.0 <= RowOffSquares(row, i, k) <= Mul((if i < k then k - 1 else k) as real, Mul(largest, largest))
  {
    hide Mul;
    var square := Mul(largest, largest);
    MulZero(square);
    if k > 0 {
      RowOffSquaresBelow(row, i, k - 1, largest);
      if k - 1 != i {
        SquareBelow(row[k - 1], largest);
        OneTimesMore(if i < k then k - 2 else k - 1, square);
      }
    }
  }

  lemma {:induction false} SquareBelow(x: real, y: real)
    requires Abs(x) <= y
    ensures 0.0 <= Mul(x, x) <= Mul(y, y)
  {
    ProductNonNegative(y - x, y + x);
    SquareNonNegative(x);
    assert (y - x) * (y + x) == y * y - x * x;
  }

  lemma {:induction false} SumBelow(x: seq<real>, k: nat, bound: real)
    requires k <= |x| && forall t :: 0 <= t < k ==> 0.0 <= x[t] <= bound
    ensures 0.0 <= Sum(x, k) <= Mul(k as real, bound)
  {
    hide Mul;
    MulZero(bound);
    if k > 0 {
      SumBelow(x, k - 1, bound);
      OneTimesMore(k - 1, bound);
    }
  }

  /** No more than n (n - 1) times the largest square lies off the diagonal. */
  lemma {:induction false} OffSquaresBelow(a: Matrix, largest: real)
    requires IsMatrix(a, |a|, |a|) && Symmetric(a, |a|) && 0.0 <= largest
    requires forall i, j :: 0 <= i < j < |a| ==> Abs(a[i][j]) <= largest
    ensures 0.0 <= OffSquares(a) <= Mul(OrderedPairs(|a|), Mul(largest, largest))
  {
    hide Mul, RowOffSquares;
    var n, square := |a|, Mul(largest, largest);
    var off := seq(n, k requires 0 <= k < n => RowOffSquares(a[k], k, n));
    if n > 0 {
      forall k | 0 <= k < n ensures 0.0 <= off[k] <= Mul((n - 1) as real, square) {
        forall j | 0 <= j < n && j != k ensures Abs(a[k][j]) <= largest {
          assert a[k][j] == a[j][k];
        }
        RowOffSquaresBelow(a[k], k, n, largest);
      }
      SumBelow(off, n, Mul((n - 1) as real, square));
      PairsTimes(n, square);
    } else {
      MulZero(square);
    }
  }

  lemma {:induction false} PairsTimes(n: nat, x: real)
    requires n > 0
    ensures Mul(n as real, Mul((n - 1) as real, x)) == Mul(OrderedPairs(n), x)
  {
    hide Mul;
    RealProduct(n, n - 1);
    MulAssociative(n as real, (n - 1) as real, x);
  }

  lemma {:induction false} RealProduct(j: nat, k: nat)
    ensures (j * k) as real == Mul(j as real, k as real)
  {
    hide Mul;
    MulZero(k as real);
    if j > 0 {
      RealProduct(j - 1, k);
      OneTimesMore(j - 1, k as real);
      assert j * k == (j - 1) * k + k;
    }
  }

  /** Rotating at the largest entry leaves at most the share `Shrink(n)` of the off-diagonal squares. */
  lemma {:induction false} RotationDecays(a: Matrix, p: nat, q: nat, c: real, s: real, largest: real)
    requires IsMatrix(a, |a|, |a|) && Symmetric(a, |a|) && p < q < |a|
    requires Annihilates(c, s, a[p][p], a[q][q], a[p][q]) && largest == Abs(a[p][q])
    requires forall i, j :: 0 <= i < j < |a| ==> Abs(a[i][j]) <= largest
    ensures 2.0 * Mul(largest, largest) <= OffSquares(a)
    ensures OffSquares(Rotated(a, p, q, c, s)) <= Mul(OffSquares(a), Shrink(|a|))
  {
    hide Mul, Rotated, OffSquares, Annihilates;
    RotationConserves(a, p, q, c, s);
    OffSquaresBelow(a, largest);
    SameSquare(a[p][q]);
    OffSquaresPositive(Rotated(a, p, q, c, s));
    ShareTaken(OffSquares(a), |a|, Mul(largest, largest));
  }

  lemma {:induction false} SameSquare(x: real)
    ensures Mul(Abs(x), Abs(x)) == Mul(x, x)
  {}

  lemma {:induction false} OffSquaresPositive(a: Matrix)
    requires IsMatrix(a, |a|, |a|)
    ensures 0.0 <= OffSquares(a)
  {
    forall k | 0 <= k < |a| { RowOffSquaresPositive(a[k], k, |a|); }
    SumPositive(seq(|a|, k requires 0 <= k < |a| => RowOffSquares(a[k], k, |a|)), |a|);
  }

  lemma {:induction false} RowOffSquaresPositive(row: seq<real>, i: nat, k: nat)
    requires k <= |row|
    ensures 0.0 <= RowOffSquares(row, i, k)
  {
    hide Mul;
    if k > 0 {
      RowOffSquaresPositive(row, i, k - 1);
      SquareNonNegative(row[k - 1]);
    }
  }

  lemma {:induction false} SumPositive(x: seq<real>, k: nat)
    requires k <= |x| && forall t :: 0 <= t < k ==> 0.0 <= x[t]
    ensures 0.0 <= Sum(x, k)
  {
    if k > 0 { SumPositive(x, k - 1); }
  }

  lemma {:induction false} ShareTaken(total: real, n: nat, square: real)
    requires n >= 2 && total <= Mul(OrderedPairs(n), square)
    ensures total - 2.0 * square <= Mul(total, Shrink(n))
  {
    var pairs := OrderedPairs(n);
    assert total / pairs <= square by { DivideBelow(total, pairs, square); }
    assert total * (1.0 - 2.0 / pairs) == total - 2.0 * (total / pairs);
  }

  lemma {:induction false} DivideBelow(x: real, y: real, z: real)
    requires y > 0.0 && x <= Mul(y, z)
    ensures x / y <= z
  {}

  lemma {:induction false} PowerRange(x: real, k: nat)
    requires 0.0 <= x <= 1.0
    ensures 0.0 <= Power(x, k) <= 1.0
  {
    if k > 0 {
      PowerRange(x, k - 1);
      ProductRange(Power(x, k - 1), x);
    }
  }

  lemma {:induction false} ProductRange(x: real, y: real)
    requires 0.0 <= x && 0.0 <= y <= 1.0
    ensures 0.0 <= Mul(x, y) <= x
  {}

  lemma {:induction false} ProductGrows(x: real, y: real, x': real, y': real)
    requires 0.0 <= x <= x' && 0.0 <= y <= y'
    ensures 0.0 <= Mul(x, y) <= Mul(x', y')
  {
    assert x * y <= x' * y <= x' * y';
  }

  lemma {:induction false} PowerSum(x: real, j: nat, k: nat)
    ensures Power(x, j + k) == Mul(Power(x, j), Power(x, k))
  {
    hide Mul;
    if k == 0 {
      TimesOne(Power(x, j));
    } else {
      PowerSum(x, j, k - 1);
      MulAssociative(Power(x, j), Power(x, k - 1), x);
    }
  }

  lemma {:induction false} PowerShrinks(x: real, j: nat, k: nat)
    requires 0.0 <= x <= 1.0 && j <= k
    ensures Power(x, k) <= Power(x, j)
  {
    hide Mul;
    PowerSum(x, j, k - j);
    PowerRange(x, j);
    PowerRange(x, k - j);
    ProductRange(Power(x, j), Power(x, k - j));
  }

  lemma {:induction false} PowerOfPower(x: real, m: nat, y: real, k: nat)
    requires 0.0 <= x <= 1.0 && Power(x, m) <= y
    ensures 0.0 <= Power(x, m * k) <= Power(y, k)
  {
    hide Mul;
    if k > 0 {
      PowerOfPower(x, m, y, k - 1);
      assert m * k == m * (k - 1) + m;
      PowerSum(x, m * (k - 1), m);
      PowerRange(x, m);
      ProductGrows(Power(x, m * (k - 1)), Power(x, m), Power(y, k - 1), y);
    }
  }

  /** (1 - x)^k (1 + k x) is at most 1. */
  lemma {:induction false} Bernoulli(x: real, k: nat)
    requires 0.0 <= x <= 1.0
    ensures Mul(Power(1.0 - x, k), 1.0 + Mul(k as real, x)) <= 1.0
  {
    hide Mul;
    MulZero(x);
    if k == 0 {
      TimesOne(1.0);
    } else {
      var earlier, before := Power(1.0 - x, k - 1), 1.0 + Mul((k - 1) as real, x);
      Bernoulli(x, k - 1);
      PowerRange(1.0 - x, k - 1);
      OneTimesMore(k - 1, x);
      ProductNonNegative((k - 1) as real, x);
      BernoulliStep(earlier, x, Mul((k - 1) as real, x));
    }
  }

  lemma {:induction false} BernoulliStep(earlier: real, x: real, kx: real)
    requires 0.0 <= earlier && 0.0 <= x && 0.0 <= kx
    ensures Mul(Mul(earlier, 1.0 - x), 1.0 + (kx + x)) <= Mul(earlier, 1.0 + kx)
  {
    assert (1.0 - x) * (1.0 + (kx + x)) == 1.0 + kx - x * (kx + x);
    assert earlier * ((1.0 - x) * (1.0 + (kx + x))) == earlier * (1.0 + kx) - earlier * (x * (kx + x));
    assert 0.0 <= x * (kx + x);
    assert 0.0 <= earlier * (x * (kx + x));
  }

  /** n (n - 1) rotations leave at most a third. */
  lemma {:induction false} SweepShrinks(n: nat)
    requires n >= 2
    ensures Power(Shrink(n), n * (n - 1)) <= 1.0 / 3.0
  {
    hide Power, Mul;
    var pairs := OrderedPairs(n);
    Bernoulli(2.0 / pairs, n * (n - 1));
    TimesQuotient(pairs, 2.0);
    ThreeTimes(Power(Shrink(n), n * (n - 1)));
  }

  lemma {:induction false} TimesQuotient(x: real, y: real)
    requires x != 0.0
    ensures Mul(x, y / x) == y
  {}

  lemma {:induction false} ThreeTimes(x: real)
    ensures Mul(x, 1.0 + 2.0) == 3.0 * x
  {}

  const SMALL: real := 0.0001

  lemma {:induction false} NinthOfThird()
    ensures Power(1.0 / 3.0, 9) <= SMALL
  {
    var x := 1.0 / 3.0;
    assert Power(x, 1) == 1.0 / 3.0 && Power(x, 2) == 1.0 / 9.0 && Power(x, 3) == 1.0 / 27.0;
    assert Power(x, 4) == 1.0 / 81.0 && Power(x, 5) == 1.0 / 243.0 && Power(x, 6) == 1.0 / 729.0;
    assert Power(x, 7) == 1.0 / 2187.0 && Power(x, 8) == 1.0 / 6561.0 && Power(x, 9) == 1.0 / 19683.0;
  }

  lemma {:induction false} SmallToEleven()
    ensures Power(SMALL, 11) == Mul(0.0000000000000001, CONVERGENCE * CONVERGENCE)
  {
    assert Power(SMALL, 2) == 0.00000001;
    assert Power(SMALL, 4) == 0.0000000000000001;
    assert Power(SMALL, 6) == 0.000000000000000000000001;
    assert Power(SMALL, 8) == 0.00000000000000000000000000000001;
    assert Power(SMALL, 10) == 0.0000000000000000000000000000000000000001;
  }

  /** What 100 n^2 - 1 rotations leave of the off-diagonal squares. */
  lemma {:induction false} RoundsShrink(n: nat)
    requires n >= 2
    ensures 0.0 <= Power(Shrink(n), 100 * n * n - 1) <= Mul(0.0000000000000001, CONVERGENCE * CONVERGENCE)
  {
    hide Power, Mul;
    var f, pairs := Shrink(n), n * (n - 1);
    RoundsEnough(n);
    PowerRange(f, 100 * n * n - 1);
    PowerShrinks(f, pairs * 99, 100 * n * n - 1);
    SweepShrinks(n);
    PowerOfPower(f, pairs, 1.0 / 3.0, 99);
    NinthOfThird();
    PowerOfPower(1.0 / 3.0, 9, SMALL, 11);
    SmallToEleven();
  }

  lemma {:induction false} RoundsEnough(n: nat)
    requires n >= 2
    ensures 0 <= n * (n - 1) * 99 <= 100 * n * n - 1
  {
    assert n * (n - 1) == n * n - n;
    assert 100 * n * n == 100 * (n * n);
  }

  // ---- The iteration, in place ------------------------------------------------------------------

  /** cos and sin of half of atan2(y, x): the only facts the solver uses about them. */
  ghost predicate HalfAngle(trig: (real, real) -> (real, real)) {
    forall y, x :: HalfAngleAt(trig(y, x), y, x)
  }

  ghost predicate HalfAngleAt(cs: (real, real), y: real, x: real) {
    Unit(cs.0, cs.1) && (cs.0 * cs.0 - cs.1 * cs.1) * y == 2.0 * (cs.0 * cs.1) * x
  }

  lemma {:induction false} HalfAngleAnnihilates(cs: (real, real), pp: real, qq: real, pq: real)
    requires HalfAngleAt(cs, 2.0 * pq, qq - pp)
    ensures Annihilates(cs.0, cs.1, pp, qq, pq)
  {
    var c, s := cs.0, cs.1;
    assert (c * c - s * s) * (2.0 * pq) == 2.0 * ((c * c - s * s) * pq);
    assert 2.0 * (c * s) * (qq - pp) == -2.0 * (c * s * (pp - qq));
  }

  ghost predicate Workspace(rows: seq<array<real>>, vectors: seq<array<real>>, n: nat) {
    && |rows| == |vectors| == n && SquareRows(rows, n) && SquareRows(vectors, n)
    && forall i, j :: 0 <= i < n && 0 <= j < n ==> rows[i] != vectors[j]
  }

  method LargestOffDiagonal(rows: seq<array<real>>) returns (p: nat, q: nat, largest: real)
    requires SquareRows(rows, |rows|)
    ensures 0.0 <= largest && IsMatrix(Contents(rows), |rows|, |rows|)
    ensures forall i, j :: 0 <= i < j < |rows| ==> Abs(Contents(rows)[i][j]) <= largest
    ensures 0.0 < largest ==> p < q < |rows| && largest == Abs(Contents(rows)[p][q])
  {
    p, q, largest := 0, 0, 0.0;
    for i := 0 to |rows|
      invariant 0.0 <= largest
      invariant forall r, j :: 0 <= r < i && r < j < |rows| ==> Abs(rows[r][j]) <= largest
      invariant 0.0 < largest ==> p < q < |rows| && largest == Abs(rows[p][q])
    {
      for j := i + 1 to |rows|
        invariant 0.0 <= largest
        invariant forall r, t :: 0 <= r < i && r < t < |rows| ==> Abs(rows[r][t]) <= largest
        invariant forall t :: i < t < j ==> Abs(rows[i][t]) <= largest
        invariant 0.0 < largest ==> p < q < |rows| && largest == Abs(rows[p][q])
      {
        var value := Abs(rows[i][j]);
        if value > largest { p, q, largest := i, j, value; }
      }
    }
  }

  /** Row `i` rotated and mirrored into the two plane rows; the plane rows themselves wait. */
  function OuterStep(b: Matrix, p: nat, q: nat, c: real, s: real, i: nat): (r: Matrix)
    requires IsMatrix(b, |b|, |b|) && p < |b| && q < |b| && i < |b|
    ensures IsMatrix(r, |b|, |b|)
  {
    if i == p || i == q then b else
      var row := Rot(b[i], p, q, c, s);
      b[i := row][p := b[p][i := row[p]]][q := b[q][i := row[q]]]
  }

  function OuterUpTo(a: Matrix, p: nat, q: nat, c: real, s: real, i: nat): (r: Matrix)
    requires IsMatrix(a, |a|, |a|) && p < |a| && q < |a| && i <= |a|
    ensures IsMatrix(r, |a|, |a|)
  {
    if i == 0 then a else OuterStep(OuterUpTo(a, p, q, c, s, i - 1), p, q, c, s, i - 1)
  }

  lemma {:induction false} OuterShape(a: Matrix, p: nat, q: nat, c: real, s: real, i: nat)
    requires IsMatrix(a, |a|, |a|) && p < |a| && q < |a| && p != q && i <= |a|
    ensures var b := OuterUpTo(a, p, q, c, s, i);
      && (forall k :: 0 <= k < |a| && k != p && k != q ==> b[k] == if k < i then Rot(a[k], p, q, c, s) else a[k])
      && (forall j :: 0 <= j < |a| && (i <= j || j == p || j == q) ==> b[p][j] == a[p][j] && b[q][j] == a[q][j])
      && (forall j :: 0 <= j < i && j != p && j != q ==>
            b[p][j] == Rot(a[j], p, q, c, s)[p] && b[q][j] == Rot(a[j], p, q, c, s)[q])
  {
    hide Rot;
    if i > 0 { OuterShape(a, p, q, c, s, i - 1); }
  }

  /** Setting the four corner entries completes the rotation. */
  lemma {:induction false} OuterFinished(a: Matrix, p: nat, q: nat, c: real, s: real)
    requires IsMatrix(a, |a|, |a|) && p < |a| && q < |a| && p != q
    requires Symmetric(a, |a|) && Annihilates(c, s, a[p][p], a[q][q], a[p][q])
    ensures var b := OuterUpTo(a, p, q, c, s, |a|);
      b[p := b[p][p := CornerP(c, s, a[p][p], a[q][q], a[p][q])][q := 0.0]]
       [q := b[q][q := CornerQ(c, s, a[p][p], a[q][q], a[p][q])][p := 0.0]] == Rotated(a, p, q, c, s)
  {
    hide Mul, CornerP, CornerQ, Cross;
    var b := OuterUpTo(a, p, q, c, s, |a|);
    OuterShape(a, p, q, c, s, |a|);
    CornerEntries(a, p, q, c, s);
    AnnihilatedCross(c, s, a[p][p], a[q][q], a[p][q]);
    var rp := b[p][p := CornerP(c, s, a[p][p], a[q][q], a[p][q])][q := 0.0];
    var rq := b[q][q := CornerQ(c, s, a[p][p], a[q][q], a[p][q])][p := 0.0];
    forall i | 0 <= i < |a|
      ensures rp[i] == Rotated(a, p, q, c, s)[p][i] && rq[i] == Rotated(a, p, q, c, s)[q][i]
    {
      if i != p && i != q { OuterEntries(a, i, p, q, c, s); }
    }
    assert rp == Rotated(a, p, q, c, s)[p] && rq == Rotated(a, p, q, c, s)[q];
  }

  lemma {:induction false} AnnihilatedCross(c: real, s: real, pp: real, qq: real, pq: real)
    requires Annihilates(c, s, pp, qq, pq)
    ensures Cross(c, s, pp, qq, pq) == 0.0
  {}

  /** Rotates rows other than the two plane rows and mirrors them into the plane rows. */
  method RotateOuterRows(rows: seq<array<real>>, p: nat, q: nat, c: real, s: real)
    requires SquareRows(rows, |rows|) && p < |rows| && q < |rows| && p != q
    modifies rows
    ensures Contents(rows) == OuterUpTo(old(Contents(rows)), p, q, c, s, |rows|)
  {
    hide Rot;
    ghost var a := Contents(rows);
    for i := 0 to |rows|
      invariant Contents(rows) == OuterUpTo(a, p, q, c, s, i)
    {
      ghost var b := Contents(rows);
      if i != p && i != q {
        RotateOuterRow(rows[i], rows[p], rows[q], i, p, q, c, s);
      }
      assert Contents(rows) == OuterStep(b, p, q, c, s, i);
    }
  }

  method RotateAllRows(rows: seq<array<real>>, p: nat, q: nat, c: real, s: real)
    requires SquareRows(rows, |rows|) && p < |rows| && q < |rows| && p != q
    modifies rows
    ensures Contents(rows) == RotatedRows(old(Contents(rows)), p, q, c, s)
  {
    hide Rot;
    ghost var v := Contents(rows);
    for i := 0 to |rows|
      invariant forall k :: 0 <= k < |rows| ==> rows[k][..] == if k < i then Rot(v[k], p, q, c, s) else v[k]
    {
      RotateRow(rows[i], p, q, c, s);
    }
  }

  method RotateOuterRow(row: array<real>, ap: array<real>, aq: array<real>, i: nat, p: nat, q: nat, c: real, s: real)
    requires row != ap && row != aq && ap != aq && row.Length == ap.Length == aq.Length
    requires i < row.Length && p < row.Length && q < row.Length && p != q
    modifies row, ap, aq
    ensures row[..] == Rot(old(row[..]), p, q, c, s)
    ensures ap[..] == old(ap[..])[i := row[p]] && aq[..] == old(aq[..])[i := row[q]]
  {
    RotateRow(row, p, q, c, s);
    ap[i] := row[p];
    aq[i] := row[q];
  }

  method RotateRow(row: array<real>, p: nat, q: nat, c: real, s: real)
    requires p < row.Length && q < row.Length && p != q
    modifies row
    ensures row[..] == Rot(old(row[..]), p, q, c, s)
  {
    var atP, atQ := row[p], row[q];
    row[p] := Mul(c, atP) - Mul(s, atQ);
    row[q] := Mul(s, atP) + Mul(c, atQ);
  }

  method SetCorners(rows: seq<array<real>>, p: nat, q: nat, x: real, y: real)
    requires SquareRows(rows, |rows|) && p < |rows| && q < |rows| && p != q
    modifies rows
    ensures var b := old(Contents(rows)); Contents(rows) == b[p := b[p][p := x][q := 0.0]][q := b[q][q := y][p := 0.0]]
  {
    ghost var b := Contents(rows);
    rows[p][p] := x;
    rows[q][q] := y;
    rows[p][q] := 0.0;
    rows[q][p] := 0.0;
    assert rows[p][..] == b[p][p := x][q := 0.0];
    assert rows[q][..] == b[q][q := y][p := 0.0];
    assert Contents(rows) == b[p := rows[p][..]][q := rows[q][..]];
  }

  method Rotate(rows: seq<array<real>>, vectors: seq<array<real>>, p: nat, q: nat, c: real, s: real)
    requires Workspace(rows, vectors, |rows|) && p < |rows| && q < |rows| && p != q
    requires Symmetric(Contents(rows), |rows|) && Annihilates(c, s, rows[p][p], rows[q][q], rows[p][q])
    modifies rows, vectors
    ensures Contents(rows) == Rotated(old(Contents(rows)), p, q, c, s)
    ensures Contents(vectors) == RotatedRows(old(Contents(vectors)), p, q, c, s)
  {
    hide Mul, Annihilates, Rotated, OuterUpTo;
    ghost var a := Contents(rows);
    var pp, qq, pq := rows[p][p], rows[q][q], rows[p][q];
    RotateOuterRows(rows, p, q, c, s);
    RotateAllRows(vectors, p, q, c, s);
    ghost var b := Contents(rows);
    OuterFinished(a, p, q, c, s);
    SetCorners(rows, p, q, CornerP(c, s, pp, qq, pq), CornerQ(c, s, pp, qq, pq));
  }

  // ---- The spectral matrices --------------------------------------------------------------------

  /** Entry (i, j) of v . diag(d) . transpose(v), over the first `k` columns of `v`. */
  function SpectralEntry(v: Matrix, d: seq<real>, i: nat, j: nat, k: nat): real
    requires IsMatrix(v, |v|, |v|) && |d| == |v| && i < |v| && j < |v| && k <= |v|
  {
    if k == 0 then 0.0 else SpectralEntry(v, d, i, j, k - 1) + Mul(d[k - 1], Mul(v[i][k - 1], v[j][k - 1]))
  }

  ghost predicate IsSpectral(m: Matrix, v: Matrix, d: seq<real>) {
    && IsMatrix(v, |v|, |v|) && IsMatrix(m, |v|, |v|) && |d| == |v|
    && forall i, j :: 0 <= i < |v| && 0 <= j < |v| ==> m[i][j] == SpectralEntry(v, d, i, j, |v|)
  }

  function Kept(values: seq<real>, cutoff: real): (d: seq<real>)
    ensures |d| == |values| && forall k :: 0 <= k < |values| && values[k] <= cutoff ==> d[k] == 0.0
  {
    seq(|values|, k requires 0 <= k < |values| => if values[k] <= cutoff then 0.0 else 1.0)
  }

  function Reciprocals(values: seq<real>, cutoff: real): (d: seq<real>)
    requires 0.0 <= cutoff
    ensures |d| == |values| && forall k :: 0 <= k < |values| && values[k] <= cutoff ==> d[k] == 0.0
  {
    seq(|values|, k requires 0 <= k < |values| => if values[k] <= cutoff then 0.0 else 1.0 / values[k])
  }

  function KeptCount(values: seq<real>, cutoff: real, k: nat): nat
    requires k <= |values|
  {
    if k == 0 then 0 else KeptCount(values, cutoff, k - 1) + if values[k - 1] <= cutoff then 0 else 1
  }

  ghost predicate IsCutoff(values: seq<real>, tolerance: real, cutoff: real) {
    exists largest :: cutoff == Mul(largest, tolerance) && IsLargestAbs(values, largest)
  }

  ghost predicate IsLargestAbs(values: seq<real>, largest: real) {
    && (largest == 0.0 || exists k :: 0 <= k < |values| && largest == Abs(values[k]))
    && 0.0 <= largest && forall k :: 0 <= k < |values| ==> Abs(values[k]) <= largest
  }

  const CONVERGENCE: real := 0.00000000000001

  datatype Inverted = Inverted(inverse: Matrix, projection: Matrix, rank: nat, converged: bool, values: seq<real>, vectors: Matrix)

  /** The last iterate `a`: similar to the input, with no more weight off the diagonal. */
  ghost predicate Iterate(a: Matrix, v: Matrix, m: Matrix) {
    Decomposes(a, v, m) && Trace(a) == Trace(m) && OffSquares(a) <= OffSquares(m)
  }

  ghost predicate NearlyDiagonal(a: Matrix, m: Matrix) {
    && IsMatrix(m, |m|, |m|) && IsMatrix(a, |m|, |m|)
    && exists scale :: IsScale(m, scale) && OffDiagonalBelow(a, Mul(scale, CONVERGENCE))
  }

  ghost predicate OffDiagonalBelow(a: Matrix, bound: real)
    requires IsMatrix(a, |a|, |a|)
  {
    forall i, j :: 0 <= i < j < |a| ==> Abs(a[i][j]) < bound
  }

  ghost predicate Solves(r: Inverted, a: Matrix, m: Matrix, tolerance: real, cutoff: real) {
    && Iterate(a, r.vectors, m) && r.values == Diagonal(a) && (r.converged ==> NearlyDiagonal(a, m))
    && 0.0 <= cutoff && IsCutoff(r.values, tolerance, cutoff)
    && IsSpectral(r.projection, r.vectors, Kept(r.values, cutoff))
    && IsSpectral(r.inverse, r.vectors, Reciprocals(r.values, cutoff))
    && r.rank == KeptCount(r.values, cutoff, |r.values|)
  }

  ghost predicate IsLargest(a: Matrix, p: nat, q: nat) {
    && IsMatrix(a, |a|, |a|) && p < q < |a|
    && forall i, j :: 0 <= i < j < |a| ==> Abs(a[i][j]) <= Abs(a[p][q])
  }

  /** One round: the off-diagonal squares held twice the square of the largest entry, and lost their share. */
  ghost predicate Decays(before: Matrix, after: Matrix, largest: real) {
    && IsMatrix(before, |before|, |before|) && IsMatrix(after, |before|, |before|)
    && 2.0 * Mul(largest, largest) <= OffSquares(before)
    && OffSquares(after) <= Mul(OffSquares(before), Shrink(|before|))
  }

  /** After `k` rounds no more than this is left, and the last round did not yet fall below the threshold. */
  ghost predicate Decayed(a: Matrix, m: Matrix, k: nat) {
    && IsMatrix(m, |m|, |m|) && IsMatrix(a, |m|, |m|)
    && OffSquares(a) <= Mul(OffSquares(m), Power(Shrink(|m|), k))
  }

  ghost predicate Lasted(m: Matrix, scale: real, k: nat)
    requires IsMatrix(m, |m|, |m|)
  {
    k > 0 ==>
      2.0 * Mul(Mul(scale, CONVERGENCE), Mul(scale, CONVERGENCE)) <= Mul(OffSquares(m), Power(Shrink(|m|), k - 1))
  }

  /** The only inputs on which the iteration can run out of rounds. */
  ghost predicate Stalls(m: Matrix)
    requires IsMatrix(m, |m|, |m|)
  {
    |m| == 0 || exists scale :: IsScale(m, scale) && Lasted(m, scale, 100 * |m| * |m|)
  }

  lemma {:induction false} RoundDecays(before: Matrix, after: Matrix, m: Matrix, scale: real, largest: real, k: nat)
    requires Decayed(before, m, k) && Decays(before, after, largest)
    requires 0.0 <= Mul(scale, CONVERGENCE) <= largest
    ensures Decayed(after, m, k + 1) && Lasted(m, scale, k + 1)
  {
    hide Mul, OffSquares, Shrink;
    var f := Shrink(|m|);
    OffSquaresPositive(before);
    assert Mul(OffSquares(before), f) <= Mul(Mul(OffSquares(m), Power(f, k)), f) by {
      ProductGrows(OffSquares(before), f, Mul(OffSquares(m), Power(f, k)), f);
    }
    MulAssociative(OffSquares(m), Power(f, k), f);
    ProductGrows(Mul(scale, CONVERGENCE), Mul(scale, CONVERGENCE), largest, largest);
  }

  lemma {:induction false} RotationKeepsIterate(a: Matrix, v: Matrix, m: Matrix, p: nat, q: nat, c: real, s: real)
    requires Iterate(a, v, m) && p < |m| && q < |m| && p != q
    requires Annihilates(c, s, a[p][p], a[q][q], a[p][q])
    ensures Iterate(Rotated(a, p, q, c, s), RotatedRows(v, p, q, c, s), m)
  {
    RotationKeepsDecomposition(a, v, m, p, q, c, s);
    RotationConserves(a, p, q, c, s);
    SquareNonNegative(a[p][q]);
  }

  lemma {:induction false} SquareNonNegative(x: real)
    ensures 0.0 <= Mul(x, x)
  {}

  method IdentityRows(n: nat) returns (rows: seq<array<real>>)
    ensures fresh(rows) && SquareRows(rows, n) && |rows| == n
    ensures IsMatrix(Contents(rows), n, n)
    ensures forall i, j :: 0 <= i < n && 0 <= j < n ==> Contents(rows)[i][j] == Delta(i, j)
  {
    rows := [];
    for i := 0 to n
      invariant |rows| == i && fresh(rows)
      invariant forall r :: 0 <= r < i ==> rows[r].Length == n
      invariant forall r, j :: 0 <= r < i && 0 <= j < rows[r].Length ==> rows[r][j] == Delta(r, j)
      invariant forall r, t :: 0 <= r < t < i ==> rows[r] != rows[t]
    {
      var row := new real[n](j => Delta(i, j));
      rows := rows + [row];
    }
  }

  method CopyRows(m: Matrix) returns (rows: seq<array<real>>)
    requires IsMatrix(m, |m|, |m|)
    ensures fresh(rows) && SquareRows(rows, |m|) && |rows| == |m| && Contents(rows) == m
  {
    rows := [];
    for i := 0 to |m|
      invariant |rows| == i && fresh(rows)
      invariant forall r :: 0 <= r < i ==> rows[r].Length == |m| && rows[r][..] == m[r]
      invariant forall r, t :: 0 <= r < t < i ==> rows[r] != rows[t]
    {
      var row := new real[|m|](j requires 0 <= j < |m| => m[i][j]);
      assert row[..] == m[i];
      rows := rows + [row];
    }
  }

  /** The iteration: at most 100 n^2 rotations, each at the largest entry off the diagonal. */
  method Diagonalise(matrix: Matrix, trig: (real, real) -> (real, real))
      returns (rows: seq<array<real>>, vectors: seq<array<real>>, converged: bool)
    requires IsMatrix(matrix, |matrix|, |matrix|) && Symmetric(matrix, |matrix|) && HalfAngle(trig)
    ensures fresh(rows) && fresh(vectors) && Workspace(rows, vectors, |matrix|)
    ensures Iterate(Contents(rows), Contents(vectors), matrix)
    ensures converged ==> NearlyDiagonal(Contents(rows), matrix)
    ensures !converged ==> Stalls(matrix)
  {
    hide Mul, Iterate, SquareRows, NearlyDiagonal, IsScale, HalfAngle, Decays, Decayed, Lasted, IsLargest;
    rows := CopyRows(matrix);
    vectors := IdentityRows(|matrix|);
    var scale := DiagonalScale(matrix);
    InitialIterate(matrix, Contents(vectors));
    NothingDecayed(matrix, scale);
    converged := false;
    for iteration := 0 to 100 * |matrix| * |matrix|
      invariant fresh(rows) && fresh(vectors) && Workspace(rows, vectors, |matrix|)
      invariant Iterate(Contents(rows), Contents(vectors), matrix) && !converged
      invariant Decayed(Contents(rows), matrix, iteration) && Lasted(matrix, scale, iteration)
    {
      ghost var a := Contents(rows);
      var p, q, largest := LargestOffDiagonal(rows);
      if largest < Mul(scale, CONVERGENCE) {
        BelowBound(Contents(rows), matrix, scale, largest);
        converged := true;
        break;
      }
      ScalePositive(matrix, scale);
      LargestFound(a, p, q, largest);
      RotateAt(rows, vectors, p, q, trig, matrix);
      RoundDecays(a, Contents(rows), matrix, scale, largest, iteration);
    }
  }

  lemma {:induction false} LargestFound(a: Matrix, p: nat, q: nat, largest: real)
    requires IsMatrix(a, |a|, |a|) && p < q < |a| && largest == Abs(a[p][q])
    requires forall i, j :: 0 <= i < j < |a| ==> Abs(a[i][j]) <= largest
    ensures IsLargest(a, p, q)
  {}

  lemma {:induction false} NothingDecayed(m: Matrix, scale: real)
    requires IsMatrix(m, |m|, |m|)
    ensures Decayed(m, m, 0) && Lasted(m, scale, 0)
  {}

  lemma {:induction false} InitialIterate(m: Matrix, v: Matrix)
    requires IsMatrix(m, |m|, |m|) && IsMatrix(v, |m|, |m|) && Symmetric(m, |m|)
    requires forall i, j :: 0 <= i < |m| && 0 <= j < |m| ==> v[i][j] == Delta(i, j)
    ensures Iterate(m, v, m)
  {
    InitialDecomposition(m, v);
  }

  lemma {:induction false} BelowBound(a: Matrix, m: Matrix, scale: real, largest: real)
    requires IsMatrix(m, |m|, |m|) && IsMatrix(a, |m|, |m|) && IsScale(m, scale)
    requires forall i, j :: 0 <= i < j < |m| ==> Abs(a[i][j]) <= largest
    requires largest < Mul(scale, CONVERGENCE)
    ensures NearlyDiagonal(a, m)
  {
    assert OffDiagonalBelow(a, Mul(scale, CONVERGENCE));
  }

  lemma {:induction false} ScalePositive(m: Matrix, scale: real)
    requires IsMatrix(m, |m|, |m|) && IsScale(m, scale)
    ensures 0.0 < Mul(scale, CONVERGENCE)
  {}

  method RotateAt(rows: seq<array<real>>, vectors: seq<array<real>>, p: nat, q: nat,
      trig: (real, real) -> (real, real), ghost matrix: Matrix)
    requires Workspace(rows, vectors, |matrix|) && p < q < |matrix| && HalfAngle(trig)
    requires Iterate(Contents(rows), Contents(vectors), matrix) && IsLargest(Contents(rows), p, q)
    modifies rows, vectors
    ensures Iterate(Contents(rows), Contents(vectors), matrix)
    ensures Decays(old(Contents(rows)), Contents(rows), old(Abs(rows[p][q])))
  {
    hide Mul, Unit;
    var pp, qq, pq := rows[p][p], rows[q][q], rows[p][q];
    var (c, s) := trig(2.0 * pq, qq - pp);
    assert HalfAngleAt(trig(2.0 * pq, qq - pp), 2.0 * pq, qq - pp);
    HalfAngleAnnihilates((c, s), pp, qq, pq);
    RotationKeepsIterate(Contents(rows), Contents(vectors), matrix, p, q, c, s);
    RotationDecays(Contents(rows), p, q, c, s, Abs(pq));
    Rotate(rows, vectors, p, q, c, s);
  }

  method AddToRow(target: array<real>, vectors: Matrix, i: nat, k: nat, factor: real)
    requires IsMatrix(vectors, target.Length, target.Length) && i < target.Length && k < target.Length
    modifies target
    ensures forall j :: 0 <= j < target.Length ==>
      target[j] == old(target[j]) + Mul(factor, Mul(vectors[i][k], vectors[j][k]))
  {
    hide Mul;
    for j := 0 to target.Length
      invariant forall t :: 0 <= t < j ==> target[t] == old(target[t]) + Mul(factor, Mul(vectors[i][k], vectors[t][k]))
      invariant forall t :: j <= t < target.Length ==> target[t] == old(target[t])
    {
      target[j] := target[j] + Mul(factor, Mul(vectors[i][k], vectors[j][k]));
    }
  }

  /** Adds factor . v_k . transpose(v_k) to `out`. */
  method AddOuter(out: seq<array<real>>, vectors: Matrix, k: nat, factor: real)
    requires IsMatrix(vectors, |out|, |out|) && SquareRows(out, |out|) && k < |out|
    modifies out
    ensures forall i, j :: 0 <= i < |out| && 0 <= j < |out| ==>
      out[i][j] == old(out[i][j]) + Mul(factor, Mul(vectors[i][k], vectors[j][k]))
  {
    hide Mul;
    for i := 0 to |out|
      invariant forall r, j :: 0 <= r < i && 0 <= j < |out| ==>
        out[r][j] == old(out[r][j]) + Mul(factor, Mul(vectors[r][k], vectors[j][k]))
      invariant forall r, j :: i <= r < |out| && 0 <= j < |out| ==> out[r][j] == old(out[r][j])
    {
      AddToRow(out[i], vectors, i, k, factor);
    }
  }

  method ZeroRows(n: nat) returns (rows: seq<array<real>>)
    ensures fresh(rows) && SquareRows(rows, n)
    ensures forall i, j :: 0 <= i < n && 0 <= j < n ==> rows[i][j] == 0.0
  {
    rows := [];
    for i := 0 to n
      invariant |rows| == i && fresh(rows)
      invariant forall r :: 0 <= r < i ==> rows[r].Length == n
      invariant forall r, j :: 0 <= r < i && 0 <= j < rows[r].Length ==> rows[r][j] == 0.0
      invariant forall r, t :: 0 <= r < t < i ==> rows[r] != rows[t]
    {
      var row := new real[n](_ => 0.0);
      rows := rows + [row];
    }
  }

  /** Sums d[k] . v_k . transpose(v_k) over the kept eigenvalues. */
  method Spectral(vectors: Matrix, values: seq<real>, cutoff: real, d: seq<real>) returns (m: Matrix)
    requires IsMatrix(vectors, |values|, |values|) && |vectors| == |values| == |d|
    requires forall k :: 0 <= k < |values| && values[k] <= cutoff ==> d[k] == 0.0
    ensures IsSpectral(m, vectors, d)
  {
    hide Mul;
    var out := ZeroRows(|values|);
    for k := 0 to |values|
      invariant SquareRows(out, |values|) && fresh(out)
      invariant forall i, j :: 0 <= i < |values| && 0 <= j < |values| ==>
        out[i][j] == SpectralEntry(vectors, d, i, j, k)
    {
      if values[k] <= cutoff {
        forall i, j | 0 <= i < |values| && 0 <= j < |values|
          ensures Mul(d[k], Mul(vectors[i][k], vectors[j][k])) == 0.0
        {
          MulZero(Mul(vectors[i][k], vectors[j][k]));
        }
      } else {
        AddOuter(out, vectors, k, d[k]);
      }
    }
    m := Freeze(out);
  }

  method Freeze(rows: seq<array<real>>) returns (m: Matrix)
    ensures m == Contents(rows)
  {
    m := [];
    for i := 0 to |rows|
      invariant |m| == i && forall r :: 0 <= r < i ==> m[r] == rows[r][..]
    {
      m := m + [rows[i][..]];
    }
  }

  method Cutoff(values: seq<real>, tolerance: real) returns (cutoff: real)
    requires 0.0 <= tolerance
    ensures 0.0 <= cutoff && IsCutoff(values, tolerance, cutoff)
  {
    hide Mul;
    var largest := 0.0;
    for k := 0 to |values|
      invariant IsLargestAbs(values[..k], largest)
    {
      assert values[..k + 1] == values[..k] + [values[k]];
      if Abs(values[k]) > largest { largest := Abs(values[k]); }
    }
    assert values[..|values|] == values;
    cutoff := Mul(largest, tolerance);
    ProductNonNegative(largest, tolerance);
  }

  lemma {:induction false} ProductNonNegative(x: real, y: real)
    requires 0.0 <= x && 0.0 <= y
    ensures 0.0 <= Mul(x, y)
  {}

  method CountKept(values: seq<real>, cutoff: real) returns (rank: nat)
    ensures rank == KeptCount(values, cutoff, |values|)
  {
    rank := 0;
    for k := 0 to |values|
      invariant rank == KeptCount(values, cutoff, k)
    {
      if values[k] > cutoff { rank := rank + 1; }
    }
  }

  /** Pseudo-inverse and projection of a symmetric matrix; `a` is the last iterate. */
  method SymmetricInverse(matrix: Matrix, tolerance: real, trig: (real, real) -> (real, real))
      returns (r: Inverted, ghost a: Matrix, ghost cutoff: real)
    requires IsMatrix(matrix, |matrix|, |matrix|) && Symmetric(matrix, |matrix|)
    requires 0.0 <= tolerance && HalfAngle(trig)
    ensures Solves(r, a, matrix, tolerance, cutoff) && (!r.converged ==> Stalls(matrix))
    ensures 1 <= |matrix| <= 100000000 && Semidefinite(matrix) ==> r.converged
  {
    hide Mul, Stalls, Semidefinite, Iterate, IsSpectral, NearlyDiagonal, IsCutoff, Kept, Reciprocals, Diagonal, SquareRows;
    var rows, eigenvectors, converged := Diagonalise(matrix, trig);
    IterateShape(Contents(rows), Contents(eigenvectors), matrix);
    a := Contents(rows);
    var frozen := Freeze(rows);
    var vectors := Freeze(eigenvectors);
    var values := Diagonal(frozen);
    var threshold := Cutoff(values, tolerance);
    var projection := Spectral(vectors, values, threshold, Kept(values, threshold));
    var inverse := Spectral(vectors, values, threshold, Reciprocals(values, threshold));
    var rank := CountKept(values, threshold);
    cutoff := threshold;
    if 1 <= |matrix| <= 100000000 && Semidefinite(matrix) { SemidefiniteConverges(matrix); }
    r := Inverted(inverse, projection, rank, converged, values, vectors);
  }

  lemma {:induction false} IterateShape(a: Matrix, v: Matrix, m: Matrix)
    requires Iterate(a, v, m)
    ensures IsMatrix(a, |m|, |m|) && IsMatrix(v, |m|, |m|)
  {}

  // ---- Semidefinite inputs always converge ------------------------------------------------------

  ghost predicate Semidefinite(m: Matrix)
    requires IsMatrix(m, |m|, |m|)
  {
    forall x: seq<real> :: |x| == |m| ==> 0.0 <= Dot(x, Act(m, x), |m|)
  }

  function Basis(n: nat, i: nat): (e: seq<real>)
    ensures |e| == n && forall t :: 0 <= t < n ==> e[t] == Delta(t, i)
  {
    seq(n, t => Delta(t, i))
  }

  /** The form at e_i + s . e_j. */
  lemma {:induction false} FormAtPair(m: Matrix, i: nat, j: nat, s: real)
    requires IsMatrix(m, |m|, |m|) && i < |m| && j < |m|
    ensures var x := Plus(1.0, Basis(|m|, i), s, Basis(|m|, j));
      Dot(x, Act(m, x), |m|)
        == Mul(1.0, Mul(1.0, m[i][i]) + Mul(s, m[i][j])) + Mul(s, Mul(1.0, m[j][i]) + Mul(s, m[j][j]))
  {
    hide Mul;
    var n, e, f := |m|, Basis(|m|, i), Basis(|m|, j);
    var x := Plus(1.0, e, s, f);
    forall l | 0 <= l < n ensures Act(m, x)[l] == Mul(1.0, m[l][i]) + Mul(s, m[l][j]) {
      DotCommutes(m[l], x, n);
      DotLinear(x, 1.0, e, s, f, m[l], n);
      PicksEntry(e, m[l], i, n);
      PicksEntry(f, m[l], j, n);
    }
    DotLinear(x, 1.0, e, s, f, Act(m, x), n);
    PicksEntry(e, Act(m, x), i, n);
    PicksEntry(f, Act(m, x), j, n);
  }

  lemma {:induction false} PicksEntry(e: seq<real>, u: seq<real>, i: nat, n: nat)
    requires |e| == |u| == n && i < n && forall t :: 0 <= t < n ==> e[t] == Delta(t, i)
    ensures Dot(e, u, n) == u[i]
  {
    DotCommutes(e, u, n);
    DotUnit(u, e, i, n);
  }

  lemma {:induction false} PairValue(ii: real, ij: real, ji: real, jj: real)
    ensures Mul(1.0, Mul(1.0, ii) + Mul(1.0, ij)) + Mul(1.0, Mul(1.0, ji) + Mul(1.0, jj)) == ii + ij + ji + jj
    ensures Mul(1.0, Mul(1.0, ii) + Mul(-1.0, ij)) + Mul(-1.0, Mul(1.0, ji) + Mul(-1.0, jj)) == ii - ij - ji + jj
  {}

  /** No entry of a semidefinite matrix exceeds the largest entry on its diagonal. */
  lemma {:induction false} SemidefiniteEntries(m: Matrix, scale: real, i: nat, j: nat)
    requires IsMatrix(m, |m|, |m|) && Symmetric(m, |m|) && Semidefinite(m) && IsScale(m, scale)
    requires i < |m| && j < |m|
    ensures Abs(m[i][j]) <= scale
  {
    hide Mul, Dot, Act, Plus, Basis;
    FormAtPair(m, i, j, 1.0);
    FormAtPair(m, i, j, -1.0);
    PairValue(m[i][i], m[i][j], m[j][i], m[j][j]);
    var plus, minus := Plus(1.0, Basis(|m|, i), 1.0, Basis(|m|, j)), Plus(1.0, Basis(|m|, i), -1.0, Basis(|m|, j));
    assert 0.0 <= Dot(plus, Act(m, plus), |m|) && 0.0 <= Dot(minus, Act(m, minus), |m|);
    assert m[i][j] == m[j][i] && Abs(m[i][i]) <= scale && Abs(m[j][j]) <= scale;
  }

  /** The rounds suffice for every semidefinite matrix with at most 10^8 rows, the empty one excepted. */
  lemma {:induction false} SemidefiniteConverges(m: Matrix)
    requires IsMatrix(m, |m|, |m|) && Symmetric(m, |m|) && Semidefinite(m)
    requires 1 <= |m| <= 100000000
    ensures !Stalls(m)
  {
    hide Mul, Power, Shrink, OffSquares, Semidefinite, OrderedPairs;
    var n := |m|;
    forall scale | IsScale(m, scale) ensures !Lasted(m, scale, 100 * n * n) {
      forall i, j | 0 <= i < j < n ensures Abs(m[i][j]) <= scale {
        SemidefiniteEntries(m, scale, i, j);
      }
      OffSquaresBelow(m, scale);
      RoundsCount(n);
      BoundContradicts(n, OffSquares(m), scale);
    }
  }

  lemma {:induction false} RoundsCount(n: nat)
    requires n > 0
    ensures 100 * n * n > 0
  {}

  lemma {:induction false} BoundContradicts(n: nat, total: real, scale: real)
    requires 1 <= n <= 100000000 && 1.0 <= scale && 0.0 <= total <= Mul(OrderedPairs(n), Mul(scale, scale))
    requires 100 * n * n > 0
    ensures Mul(total, Power(Shrink(n), 100 * n * n - 1))
      < 2.0 * Mul(Mul(scale, CONVERGENCE), Mul(scale, CONVERGENCE))
  {
    hide Mul, Power, Shrink, OrderedPairs;
    var square, left := Mul(scale, scale), Power(Shrink(n), 100 * n * n - 1);
    SquareAtLeastOne(scale);
    ThresholdSquare(scale);
    if n == 1 {
      OnePair();
      MulZero(square);
      MulZero(left);
    } else {
      RoundsShrink(n);
      FewPairs(n);
      ProductGrows(OrderedPairs(n), square, 10000000000000000.0, square);
      ProductGrows(total, left, Mul(10000000000000000.0, square), Mul(0.0000000000000001, CONVERGENCE * CONVERGENCE));
      PowersCancel(square);
    }
  }

  lemma {:induction false} SquareAtLeastOne(x: real)
    requires 1.0 <= x
    ensures 1.0 <= Mul(x, x)
  {}

  lemma {:induction false} ThresholdSquare(scale: real)
    ensures Mul(Mul(scale, CONVERGENCE), Mul(scale, CONVERGENCE)) == CONVERGENCE * CONVERGENCE * Mul(scale, scale)
  {}

  lemma {:induction false} OnePair()
    ensures OrderedPairs(1) == 0.0
  {}

  lemma {:induction false} FewPairs(n: nat)
    requires 1 <= n <= 100000000
    ensures OrderedPairs(n) <= 10000000000000000.0
  {
    BoundedProduct(n, n - 1, 100000000);
  }

  lemma {:induction false} BoundedProduct(x: nat, y: nat, z: nat)
    requires x <= z && y <= z
    ensures x * y <= z * z
  {
    assert x * y <= z * y <= z * z;
  }

  lemma {:induction false} PowersCancel(square: real)
    requires 1.0 <= square
    ensures Mul(Mul(10000000000000000.0, square), Mul(0.0000000000000001, CONVERGENCE * CONVERGENCE))
      < 2.0 * (CONVERGENCE * CONVERGENCE * square)
  {}

  // ---- What the returned matrices satisfy -------------------------------------------------------

  function Weighted(d: seq<real>, u: seq<real>): (r: seq<real>)
    requires |d| == |u|
    ensures |r| == |u| && forall k :: 0 <= k < |u| ==> r[k] == Mul(d[k], u[k])
  {
    seq(|u|, k requires 0 <= k < |u| => Mul(d[k], u[k]))
  }

  lemma {:induction false} SpectralEntryIsDot(v: Matrix, d: seq<real>, i: nat, j: nat, k: nat)
    requires IsMatrix(v, |v|, |v|) && |d| == |v| && i < |v| && j < |v| && k <= |v|
    ensures SpectralEntry(v, d, i, j, k) == Dot(Weighted(d, v[i]), v[j], k)
    ensures SpectralEntry(v, d, i, j, k) == Dot(v[i], Weighted(d, v[j]), k)
  {
    if k > 0 { SpectralEntryIsDot(v, d, i, j, k - 1); }
  }

  function Transposed(v: Matrix): (t: Matrix)
    requires IsMatrix(v, |v|, |v|)
    ensures IsMatrix(t, |v|, |v|) && forall k :: 0 <= k < |v| ==> t[k] == Column(v, k)
  {
    seq(|v|, k requires 0 <= k < |v| => Column(v, k))
  }

  /** transpose(v) . (v . y) is y when the columns of v are orthonormal. */
  lemma {:induction false} ColumnsInvert(v: Matrix, y: seq<real>, k: nat)
    requires IsMatrix(v, |v|, |v|) && OrthonormalColumns(v) && |y| == |v| && k < |v|
    ensures Dot(Column(v, k), Act(v, y), |v|) == y[k]
  {
    hide Mul;
    var t := Transposed(v);
    forall i, j | 0 <= i < |v| && 0 <= j < |v| ensures ColDot(t[i], v, j, |v|) == Delta(i, j) {
      ColDotIsDot(t[i], v, j, Column(v, j), |v|);
    }
    TimesVector(t, v, y, Act(v, y), k);
  }

  /** v keeps inner products. */
  lemma {:induction false} ActIsometry(v: Matrix, x: seq<real>, y: seq<real>)
    requires IsMatrix(v, |v|, |v|) && OrthonormalColumns(v) && |x| == |y| == |v|
    ensures Dot(Act(v, x), Act(v, y), |v|) == Dot(x, y, |v|)
  {
    hide Mul;
    var n, t, q := |v|, Transposed(v), Act(v, y);
    var column: Matrix := seq(n, k requires 0 <= k < n => [q[k]]);
    forall k | 0 <= k < n
      ensures y[k] == ColDot(t[k], column, 0, n)
      ensures Act(v, x)[k] == ColDot(x, t, k, n)
    {
      ColumnsInvert(v, y, k);
      ColDotIsDot(t[k], column, 0, q, n);
      ColDotIsDot(x, t, k, v[k], n);
      DotCommutes(x, v[k], n);
    }
    ColDotAssociative(x, t, column, 0, Act(v, x), y, n, n);
    ColDotIsDot(Act(v, x), column, 0, q, n);
  }

  /** Spectral matrices multiply by multiplying their weights. */
  lemma {:induction false} SpectralProduct(
      v: Matrix, d: seq<real>, e: seq<real>, f: seq<real>, left: Matrix, right: Matrix, i: nat, j: nat)
    requires IsSpectral(left, v, d) && IsSpectral(right, v, e) && OrthonormalColumns(v)
    requires |f| == |v| && forall k :: 0 <= k < |v| ==> f[k] == Mul(d[k], e[k])
    requires i < |v| && j < |v|
    ensures ColDot(left[i], right, j, |v|) == SpectralEntry(v, f, i, j, |v|)
  {
    hide Mul;
    var n, x, y := |v|, Weighted(d, v[i]), Weighted(e, v[j]);
    forall t | 0 <= t < n
      ensures left[i][t] == Act(v, x)[t] && right[t][j] == Act(v, y)[t]
    {
      SpectralEntryIsDot(v, d, i, t, n);
      DotCommutes(x, v[t], n);
      SpectralEntryIsDot(v, e, t, j, n);
    }
    ColDotIsDot(left[i], right, j, Act(v, y), n);
    DotCongruent(left[i], Act(v, y), Act(v, x), Act(v, y), n);
    ActIsometry(v, x, y);
    WeightsMultiply(v, d, e, f, i, j, n);
  }

  lemma {:induction false} WeightsMultiply(v: Matrix, d: seq<real>, e: seq<real>, f: seq<real>, i: nat, j: nat, k: nat)
    requires IsMatrix(v, |v|, |v|) && |d| == |e| == |f| == |v| && i < |v| && j < |v| && k <= |v|
    requires forall t :: 0 <= t < |v| ==> f[t] == Mul(d[t], e[t])
    ensures Dot(Weighted(d, v[i]), Weighted(e, v[j]), k) == SpectralEntry(v, f, i, j, k)
  {
    hide Mul;
    if k > 0 {
      WeightsMultiply(v, d, e, f, i, j, k - 1);
      MulShuffle(d[k - 1], v[i][k - 1], e[k - 1], v[j][k - 1]);
    }
  }

  lemma {:induction false} MulShuffle(a: real, x: real, b: real, y: real)
    ensures Mul(Mul(a, x), Mul(b, y)) == Mul(Mul(a, b), Mul(x, y))
  {}

  lemma {:induction false} SolvedColumns(r: Inverted, a: Matrix, m: Matrix, tolerance: real, cutoff: real)
    requires Solves(r, a, m, tolerance, cutoff)
    ensures IsMatrix(r.vectors, |m|, |m|) && OrthonormalColumns(r.vectors) && OrthonormalRows(r.vectors)
    ensures IsMatrix(r.projection, |m|, |m|) && IsMatrix(r.inverse, |m|, |m|) && |r.values| == |m|
  {}

  /** The projection is idempotent, and it does not change the pseudo-inverse. */
  lemma {:induction false} ProjectionIdempotent(
      r: Inverted, a: Matrix, m: Matrix, tolerance: real, cutoff: real, i: nat, j: nat)
    requires Solves(r, a, m, tolerance, cutoff) && i < |m| && j < |m|
    ensures IsMatrix(r.projection, |m|, |m|) && IsMatrix(r.inverse, |m|, |m|)
    ensures ColDot(r.projection[i], r.projection, j, |m|) == r.projection[i][j]
    ensures ColDot(r.inverse[i], r.projection, j, |m|) == r.inverse[i][j]
    ensures ColDot(r.projection[i], r.inverse, j, |m|) == r.inverse[i][j]
  {
    hide Decomposes;
    SolvedColumns(r, a, m, tolerance, cutoff);
    var keep, recip := Kept(r.values, cutoff), Reciprocals(r.values, cutoff);
    SpectralProduct(r.vectors, keep, keep, keep, r.projection, r.projection, i, j);
    SpectralProduct(r.vectors, recip, keep, recip, r.inverse, r.projection, i, j);
    SpectralProduct(r.vectors, keep, recip, recip, r.projection, r.inverse, i, j);
  }

  /** The diagonal of v . diag(d) . transpose(v), over the first `k` columns and `n` rows, summed. */
  function SpectralTrace(v: Matrix, d: seq<real>, k: nat, n: nat): real
    requires IsMatrix(v, |v|, |v|) && |d| == |v| && k <= |v| && n <= |v|
  {
    if n == 0 then 0.0 else SpectralTrace(v, d, k, n - 1) + SpectralEntry(v, d, n - 1, n - 1, k)
  }

  lemma {:induction false} TraceByColumn(v: Matrix, d: seq<real>, k: nat, n: nat)
    requires IsMatrix(v, |v|, |v|) && |d| == |v| && 0 < k <= |v| && n <= |v|
    ensures SpectralTrace(v, d, k, n)
      == SpectralTrace(v, d, k - 1, n) + Mul(d[k - 1], Dot(Column(v, k - 1), Column(v, k - 1), n))
  {
    hide Mul;
    MulZero(d[k - 1]);
    if n > 0 {
      TraceByColumn(v, d, k, n - 1);
      MulAdd(d[k - 1], Dot(Column(v, k - 1), Column(v, k - 1), n - 1), Mul(v[n - 1][k - 1], v[n - 1][k - 1]));
    }
  }

  lemma {:induction false} TraceIsSum(v: Matrix, d: seq<real>, k: nat)
    requires IsMatrix(v, |v|, |v|) && OrthonormalColumns(v) && |d| == |v| && k <= |v|
    ensures SpectralTrace(v, d, k, |v|) == Sum(d, k)
  {
    hide Mul, SpectralTrace;
    if k == 0 {
      TraceOfNothing(v, d, |v|);
    } else {
      TraceIsSum(v, d, k - 1);
      TraceByColumn(v, d, k, |v|);
      assert Dot(Column(v, k - 1), Column(v, k - 1), |v|) == Delta(k - 1, k - 1);
      TimesOne(d[k - 1]);
    }
  }

  lemma {:induction false} TraceOfNothing(v: Matrix, d: seq<real>, n: nat)
    requires IsMatrix(v, |v|, |v|) && |d| == |v| && n <= |v|
    ensures SpectralTrace(v, d, 0, n) == 0.0
  {
    if n > 0 { TraceOfNothing(v, d, n - 1); }
  }

  lemma {:induction false} TraceOfSpectral(m: Matrix, v: Matrix, d: seq<real>, n: nat)
    requires IsSpectral(m, v, d) && n <= |v|
    ensures Sum(Diagonal(m), n) == SpectralTrace(v, d, |v|, n)
  {
    if n > 0 { TraceOfSpectral(m, v, d, n - 1); }
  }

  lemma {:induction false} KeptSum(values: seq<real>, cutoff: real, k: nat)
    requires k <= |values|
    ensures Sum(Kept(values, cutoff), k) == KeptCount(values, cutoff, k) as real
  {
    if k > 0 { KeptSum(values, cutoff, k - 1); }
  }

  /** The rank is the trace of the projection. */
  lemma {:induction false} RankIsTrace(r: Inverted, a: Matrix, m: Matrix, tolerance: real, cutoff: real)
    requires Solves(r, a, m, tolerance, cutoff)
    ensures IsMatrix(r.projection, |m|, |m|) && Trace(r.projection) == r.rank as real
  {
    hide Decomposes, Sum, KeptCount;
    SolvedColumns(r, a, m, tolerance, cutoff);
    var keep := Kept(r.values, cutoff);
    TraceOfSpectral(r.projection, r.vectors, keep, |m|);
    TraceIsSum(r.vectors, keep, |m|);
    KeptSum(r.values, cutoff, |m|);
  }

  /** The trace of the input is the sum of the returned values. */
  lemma {:induction false} ValuesSumToTrace(r: Inverted, a: Matrix, m: Matrix, tolerance: real, cutoff: real)
    requires Solves(r, a, m, tolerance, cutoff)
    ensures Sum(r.values, |r.values|) == Trace(m)
  {
    SolvedColumns(r, a, m, tolerance, cutoff);
  }

  /** Row i of the input is v . (a . v_i): the input acts on the vectors as `a` does. */
  lemma {:induction false} InputRow(a: Matrix, v: Matrix, m: Matrix, i: nat)
    requires Decomposes(a, v, m) && Symmetric(m, |m|) && i < |m|
    ensures m[i] == Act(v, Act(a, v[i]))
  {
    hide Mul;
    forall j | 0 <= j < |m| ensures m[i][j] == Act(v, Act(a, v[i]))[j] {
      assert m[j][i] == Dot(v[j], Act(a, v[i]), |m|);
    }
  }

  /** Column k of the vectors is an eigenvector up to the entries of `a` off the diagonal. */
  lemma {:induction false} VectorsDiagonalise(a: Matrix, v: Matrix, m: Matrix, i: nat, k: nat)
    requires Decomposes(a, v, m) && Symmetric(m, |m|) && i < |m| && k < |m|
    ensures Dot(m[i], Column(v, k), |m|) == Dot(a[k], v[i], |m|)
  {
    hide Mul;
    InputRow(a, v, m, i);
    ColumnsInvert(v, Act(a, v[i]), k);
    DotCommutes(m[i], Column(v, k), |m|);
  }

  /** `a` without its diagonal. */
  function Off(a: Matrix): (r: Matrix)
    requires IsMatrix(a, |a|, |a|)
    ensures IsMatrix(r, |a|, |a|)
  {
    seq(|a|, k requires 0 <= k < |a| => a[k][k := 0.0])
  }

  /** How far input times pseudo-inverse misses the projection in entry (i, j). */
  function Residual(r: Inverted, a: Matrix, cutoff: real, i: nat, j: nat): real
    requires IsMatrix(a, |a|, |a|) && IsMatrix(r.vectors, |a|, |a|) && |r.values| == |a| && 0.0 <= cutoff
    requires i < |a| && j < |a|
  {
    Dot(Act(Off(a), r.vectors[i]), Weighted(Reciprocals(r.values, cutoff), r.vectors[j]), |a|)
  }

  lemma {:induction false} SplitDiagonal(row: seq<real>, k: nat, u: seq<real>)
    requires |row| == |u| && k < |u|
    ensures Dot(row, u, |u|) == Mul(row[k], u[k]) + Dot(row[k := 0.0], u, |u|)
  {
    hide Mul;
    DotChangeOne(row[k := 0.0], u, row, u, k, |u|);
    MulZero(u[k]);
  }

  /** Input times pseudo-inverse is the projection, up to what the last iterate holds off its diagonal. */
  lemma {:induction false} PseudoInverseSolves(
      r: Inverted, a: Matrix, m: Matrix, tolerance: real, cutoff: real, i: nat, j: nat)
    requires Solves(r, a, m, tolerance, cutoff) && Symmetric(m, |m|) && i < |m| && j < |m|
    ensures IsMatrix(a, |m|, |m|) && IsMatrix(r.vectors, |m|, |m|) && |r.values| == |m|
    ensures IsMatrix(r.projection, |m|, |m|) && IsMatrix(r.inverse, |m|, |m|)
    ensures ColDot(m[i], r.inverse, j, |m|) == r.projection[i][j] + Residual(r, a, cutoff, i, j)
  {
    hide Mul, Off;
    SolvedColumns(r, a, m, tolerance, cutoff);
    var n, v := |m|, r.vectors;
    var keep, recip := Kept(r.values, cutoff), Reciprocals(r.values, cutoff);
    var w, y := Act(a, v[i]), Weighted(recip, v[j]);
    InputRow(a, v, m, i);
    forall t | 0 <= t < n ensures r.inverse[t][j] == Act(v, y)[t] {
      SpectralEntryIsDot(v, recip, t, j, n);
    }
    ColDotIsDot(m[i], r.inverse, j, Act(v, y), n);
    ActIsometry(v, w, y);
    ActSplits(a, r.values, v[i]);
    DotLinear(w, 1.0, Weighted(r.values, v[i]), 1.0, Act(Off(a), v[i]), y, n);
    TimesOne(Dot(Weighted(r.values, v[i]), y, n));
    TimesOne(Dot(Act(Off(a), v[i]), y, n));
    forall k | 0 <= k < n ensures keep[k] == Mul(r.values[k], recip[k]) {
      KeepIsProduct(r.values[k], cutoff);
    }
    WeightsMultiply(v, r.values, recip, keep, i, j, n);
  }

  lemma {:induction false} ActSplits(a: Matrix, values: seq<real>, u: seq<real>)
    requires IsMatrix(a, |a|, |a|) && |u| == |a| && values == Diagonal(a)
    ensures Act(a, u) == Plus(1.0, Weighted(values, u), 1.0, Act(Off(a), u))
  {
    hide Mul;
    forall k | 0 <= k < |u|
      ensures Act(a, u)[k] == Mul(1.0, Weighted(values, u)[k]) + Mul(1.0, Act(Off(a), u)[k])
    {
      SplitDiagonal(a[k], k, u);
      TimesOne(Weighted(values, u)[k]);
      TimesOne(Act(Off(a), u)[k]);
    }
  }

  lemma {:induction false} KeepIsProduct(value: real, cutoff: real)
    requires 0.0 <= cutoff
    ensures Mul(value, if value <= cutoff then 0.0 else 1.0 / value) == if value <= cutoff then 0.0 else 1.0
  {}

  // ---- The size of the residual -----------------------------------------------------------------

  lemma {:induction false} EntrySquareBelowNorm(u: seq<real>, t: nat, k: nat)
    requires t < k <= |u|
    ensures Mul(u[t], u[t]) <= Dot(u, u, k)
    ensures 0.0 <= Dot(u, u, k - 1)
  {
    hide Mul;
    SquareNonNegative(u[k - 1]);
    NormNonNegative(u, k - 1);
    if t < k - 1 { EntrySquareBelowNorm(u, t, k - 1); }
  }

  lemma {:induction false} NormNonNegative(u: seq<real>, k: nat)
    requires k <= |u|
    ensures 0.0 <= Dot(u, u, k)
  {
    hide Mul;
    if k > 0 {
      NormNonNegative(u, k - 1);
      SquareNonNegative(u[k - 1]);
    }
  }

  lemma {:induction false} AtMostOne(x: real)
    requires Mul(x, x) <= 1.0
    ensures Abs(x) <= 1.0
  {}

  lemma {:induction false} UnitEntries(v: Matrix, i: nat, t: nat)
    requires IsMatrix(v, |v|, |v|) && OrthonormalRows(v) && i < |v| && t < |v|
    ensures Abs(v[i][t]) <= 1.0
  {
    hide Mul;
    EntrySquareBelowNorm(v[i], t, |v|);
    AtMostOne(v[i][t]);
  }

  lemma {:induction false} ProductAbs(x: real, y: real, bound: real, limit: real)
    requires Abs(x) <= bound && Abs(y) <= limit
    ensures Abs(Mul(x, y)) <= Mul(bound, limit)
  {
    assert Abs(x * y) == Abs(x) * Abs(y);
    assert Abs(x) * Abs(y) <= bound * Abs(y) <= bound * limit;
  }

  lemma {:induction false} DotBelow(x: seq<real>, y: seq<real>, bound: real, limit: real, k: nat)
    requires k <= |x| && k <= |y|
    requires forall t :: 0 <= t < k ==> Abs(x[t]) <= bound && Abs(y[t]) <= limit
    ensures Abs(Dot(x, y, k)) <= Mul(k as real, Mul(bound, limit))
  {
    hide Mul;
    MulZero(Mul(bound, limit));
    if k > 0 {
      DotBelow(x, y, bound, limit, k - 1);
      ProductAbs(x[k - 1], y[k - 1], bound, limit);
      OneTimesMore(k - 1, Mul(bound, limit));
    }
  }

  /** Every kept value is at least `floor`; the cutoff itself is such a floor. */
  ghost predicate KeptAtLeast(values: seq<real>, cutoff: real, floor: real) {
    0.0 <= floor && forall k :: 0 <= k < |values| && values[k] > cutoff ==> values[k] >= floor
  }

  /** Times `floor`, at most n^2 times the convergence threshold. */
  ghost predicate ResidualWithin(m: Matrix, floor: real, residual: real)
    requires IsMatrix(m, |m|, |m|)
  {
    exists scale :: IsScale(m, scale)
      && Mul(floor, Abs(residual)) <= Mul(|m| as real, Mul(|m| as real, Mul(scale, CONVERGENCE)))
  }

  lemma {:induction false} FlooredReciprocal(value: real, cutoff: real, floor: real, x: real)
    requires 0.0 <= cutoff && 0.0 <= floor && (value > cutoff ==> value >= floor) && Abs(x) <= 1.0
    ensures Abs(Mul(floor, Mul(if value <= cutoff then 0.0 else 1.0 / value, x))) <= 1.0
  {
    if value > cutoff {
      var share := floor / value;
      assert 0.0 <= share <= 1.0;
      assert floor * (1.0 / value * x) == share * x;
      ProductAbs(share, x, 1.0, 1.0);
    }
  }

  lemma {:induction false} OffRowBelow(a: Matrix, u: seq<real>, k: nat, bound: real)
    requires IsMatrix(a, |a|, |a|) && Symmetric(a, |a|) && |u| == |a| && k < |a| && 0.0 <= bound
    requires OffDiagonalBelow(a, bound) && forall t :: 0 <= t < |u| ==> Abs(u[t]) <= 1.0
    ensures Abs(Act(Off(a), u)[k]) <= Mul(|a| as real, bound)
  {
    hide Mul;
    forall t | 0 <= t < |a| ensures Abs(Off(a)[k][t]) <= bound {
      if t != k { assert a[k][t] == a[t][k]; }
    }
    DotBelow(Off(a)[k], u, bound, 1.0, |a|);
    TimesOne(bound);
  }

  /** A converged solver misses the projection by at most n^2 thresholds over the smallest kept value. */
  lemma {:induction false} ResidualBound(
      r: Inverted, a: Matrix, m: Matrix, tolerance: real, cutoff: real, floor: real, i: nat, j: nat)
    requires Solves(r, a, m, tolerance, cutoff) && r.converged && i < |m| && j < |m|
    requires KeptAtLeast(r.values, cutoff, floor)
    ensures IsMatrix(a, |m|, |m|) && IsMatrix(r.vectors, |m|, |m|) && |r.values| == |m|
    ensures ResidualWithin(m, floor, Residual(r, a, cutoff, i, j))
  {
    hide Mul, Off, IsSpectral, Trace, OffSquares, IsCutoff, KeptCount, IsScale;
    SolvedColumns(r, a, m, tolerance, cutoff);
    var n, v, recip := |m|, r.vectors, Reciprocals(r.values, cutoff);
    var scale :| IsScale(m, scale) && OffDiagonalBelow(a, Mul(scale, CONVERGENCE));
    ScalePositive(m, scale);
    var w, y := Act(Off(a), v[i]), Weighted(recip, v[j]);
    var z := seq(n, k requires 0 <= k < n => Mul(floor, y[k]));
    forall k | 0 <= k < n ensures Abs(v[i][k]) <= 1.0 && Abs(z[k]) <= 1.0 {
      UnitEntries(v, i, k);
      UnitEntries(v, j, k);
      FlooredReciprocal(r.values[k], cutoff, floor, v[j][k]);
    }
    forall k | 0 <= k < n ensures Abs(w[k]) <= Mul(n as real, Mul(scale, CONVERGENCE)) {
      OffRowBelow(a, v[i], k, Mul(scale, CONVERGENCE));
    }
    DotBelow(w, z, Mul(n as real, Mul(scale, CONVERGENCE)), 1.0, n);
    TimesOne(Mul(n as real, Mul(scale, CONVERGENCE)));
    DotScaled(w, y, z, floor, n);
    AbsScaled(floor, Dot(w, y, n));
  }

  lemma {:induction false} DotScaled(w: seq<real>, y: seq<real>, z: seq<real>, factor: real, k: nat)
    requires k <= |w| && k <= |y| && k <= |z| && forall t :: 0 <= t < k ==> z[t] == Mul(factor, y[t])
    ensures Dot(w, z, k) == Mul(factor, Dot(w, y, k))
  {
    hide Mul;
    MulZero(factor);
    if k > 0 {
      DotScaled(w, y, z, factor, k - 1);
      MulSwap(w[k - 1], factor, y[k - 1]);
      MulAdd(factor, Dot(w, y, k - 1), Mul(w[k - 1], y[k - 1]));
    }
  }

  lemma {:induction false} MulSwap(x: real, factor: real, y: real)
    ensures Mul(x, Mul(factor, y)) == Mul(factor, Mul(x, y))
  {}

  lemma {:induction false} AbsScaled(factor: real, x: real)
    requires 0.0 <= factor
    ensures Abs(Mul(factor, x)) == Mul(factor, Abs(x))
  {}
}
