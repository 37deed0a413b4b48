/**
 * The numpy/theano vector algebra the expected-counts transform is built
 * from: dot products, vector-matrix products and element-wise operations,
 * over unbounded reals.
 */
module Vectors {

  /** `numpy.dot(a, b)` for two vectors: the sum of a[i] * b[i]. */
  function Dot(a: seq<real>, b: seq<real>): real
    requires |a| == |b|
  {
    if |a| == 0 then 0.0 else a[0] * b[0] + Dot(a[1..], b[1..])
  }

  /** m has `rows` rows, each of length `cols`. */
  predicate IsMatrix(m: seq<seq<real>>, rows: nat, cols: nat) {
    |m| == rows && forall i :: 0 <= i < |m| ==> |m[i]| == cols
  }

  function Column(m: seq<seq<real>>, c: nat): (col: seq<real>)
    requires forall i :: 0 <= i < |m| ==> c < |m[i]|
    ensures |col| == |m| && forall i :: 0 <= i < |m| ==> col[i] == m[i][c]
  {
    seq(|m|, i requires 0 <= i < |m| => m[i][c])
  }

  /** `dot(v, m)` for a vector v and a |v| x cols matrix m (the row axis is contracted). */
  function VecMat(v: seq<real>, m: seq<seq<real>>, cols: nat): (out: seq<real>)
    requires IsMatrix(m, |v|, cols)
    ensures |out| == cols
  {
    seq(cols, c requires 0 <= c < cols => Dot(v, Column(m, c)))
  }

  function Zeros(n: nat): (z: seq<real>)
    ensures |z| == n && forall i :: 0 <= i < n ==> z[i] == 0.0
  {
    seq(n, i => 0.0)
  }

  function Ones(n: nat): (o: seq<real>)
    ensures |o| == n && forall i :: 0 <= i < n ==> o[i] == 1.0
  {
    seq(n, i => 1.0)
  }

  /** Element-wise `a + b`. */
  function Add(a: seq<real>, b: seq<real>): (s: seq<real>)
    requires |a| == |b|
    ensures |s| == |a| && forall i :: 0 <= i < |a| ==> s[i] == a[i] + b[i]
  {
    seq(|a|, i requires 0 <= i < |a| => a[i] + b[i])
  }

  /** Element-wise `a * b`. */
  function Mul(a: seq<real>, b: seq<real>): (p: seq<real>)
    requires |a| == |b|
    ensures |p| == |a| && forall i :: 0 <= i < |a| ==> p[i] == a[i] * b[i]
  {
    seq(|a|, i requires 0 <= i < |a| => a[i] * b[i])
  }

  /** `k * a` for a scalar k. */
  function Scale(k: real, a: seq<real>): (s: seq<real>)
    ensures |s| == |a| && forall i :: 0 <= i < |a| ==> s[i] == k * a[i]
  {
    seq(|a|, i requires 0 <= i < |a| => k * a[i])
  }

  /** `1. + a`. */
  function OnePlus(a: seq<real>): (s: seq<real>)
    ensures |s| == |a| && forall i :: 0 <= i < |a| ==> s[i] == 1.0 + a[i]
  {
    seq(|a|, i requires 0 <= i < |a| => 1.0 + a[i])
  }

  /** Row-by-row `a * b` of two matrices of the same shape. */
  function MatMul(a: seq<seq<real>>, b: seq<seq<real>>, cols: nat): (p: seq<seq<real>>)
    requires IsMatrix(a, |a|, cols) && IsMatrix(b, |a|, cols)
    ensures IsMatrix(p, |a|, cols)
    ensures forall i, j :: 0 <= i < |a| && 0 <= j < cols ==> p[i][j] == a[i][j] * b[i][j]
  {
    seq(|a|, i requires 0 <= i < |a| => Mul(a[i], b[i]))
  }

  /** `m ** 2`, element-wise. */
  function Squares(m: seq<seq<real>>): (s: seq<seq<real>>)
    ensures |s| == |m| && forall i :: 0 <= i < |m| ==> s[i] == Mul(m[i], m[i])
  {
    seq(|m|, i requires 0 <= i < |m| => Mul(m[i], m[i]))
  }

  /** `sum(m, axis=0)`: the vector sum of the rows of m. */
  function SumRows(m: seq<seq<real>>, cols: nat): (s: seq<real>)
    requires IsMatrix(m, |m|, cols)
    ensures |s| == cols
  {
    if |m| == 0 then Zeros(cols) else Add(m[0], SumRows(m[1..], cols))
  }

  /** Reference meaning of a vector-matrix product: the rows of m scaled by v and added up. */
  function RowCombination(v: seq<real>, m: seq<seq<real>>, cols: nat): (s: seq<real>)
    requires IsMatrix(m, |v|, cols)
    ensures |s| == cols
  {
    if |v| == 0 then Zeros(cols) else Add(Scale(v[0], m[0]), RowCombination(v[1..], m[1..], cols))
  }

  /** The n x n identity matrix. */
  function Identity(n: nat): (m: seq<seq<real>>)
    ensures IsMatrix(m, n, n)
    ensures forall i, j :: 0 <= i < n && 0 <= j < n ==> m[i][j] == if i == j then 1.0 else 0.0
  {
    seq(n, i => seq(n, j => if i == j then 1.0 else 0.0))
  }

  /** The dot product is the sum of the rows' contributions: contraction by columns equals accumulation by rows. */
  lemma {:induction false} VecMatIsRowCombination(v: seq<real>, m: seq<seq<real>>, cols: nat)
    requires IsMatrix(m, |v|, cols)
    ensures VecMat(v, m, cols) == RowCombination(v, m, cols)
  {
    if |v| == 0 {
      forall c | 0 <= c < cols ensures VecMat(v, m, cols)[c] == 0.0 {}
    } else {
      VecMatIsRowCombination(v[1..], m[1..], cols);
      forall c | 0 <= c < cols
        ensures VecMat(v, m, cols)[c] == RowCombination(v, m, cols)[c]
      {
        assert Column(m, c)[1..] == Column(m[1..], c);
        assert VecMat(v[1..], m[1..], cols)[c] == Dot(v[1..], Column(m[1..], c));
      }
    }
  }

  /** A dot product with an all-zero left operand vanishes. */
  lemma {:induction false} DotZerosLeft(a: seq<real>, b: seq<real>)
    requires |a| == |b|
    requires forall i :: 0 <= i < |a| ==> a[i] == 0.0
    ensures Dot(a, b) == 0.0
  {
    if |a| > 0 {
      DotZerosLeft(a[1..], b[1..]);
    }
  }

  /** Dotting with a unit vector picks out one entry. */
  lemma {:induction false} DotUnit(v: seq<real>, u: seq<real>, k: nat)
    requires |u| == |v| && k < |v|
    requires forall t :: 0 <= t < |u| ==> u[t] == if t == k then 1.0 else 0.0
    ensures Dot(v, u) == v[k]
  {
    if k == 0 {
      DotZerosRight(v[1..], u[1..]);
    } else {
      DotUnit(v[1..], u[1..], k - 1);
    }
  }

  lemma {:induction false} DotZerosRight(a: seq<real>, b: seq<real>)
    requires |a| == |b|
    requires forall i :: 0 <= i < |b| ==> b[i] == 0.0
    ensures Dot(a, b) == 0.0
  {
    if |a| > 0 {
      DotZerosRight(a[1..], b[1..]);
    }
  }

  /** A zero vector times any matrix is zero. */
  lemma VecMatZeros(v: seq<real>, m: seq<seq<real>>, cols: nat)
    requires IsMatrix(m, |v|, cols)
    requires forall i :: 0 <= i < |v| ==> v[i] == 0.0
    ensures VecMat(v, m, cols) == Zeros(cols)
  {
    forall c | 0 <= c < cols ensures VecMat(v, m, cols)[c] == 0.0 {
      DotZerosLeft(v, Column(m, c));
    }
  }

  /** Multiplying by the identity matrix returns the vector unchanged. */
  lemma VecMatIdentity(v: seq<real>)
    ensures VecMat(v, Identity(|v|), |v|) == v
  {
    var n := |v|;
    forall c | 0 <= c < n ensures VecMat(v, Identity(n), n)[c] == v[c] {
      DotUnit(v, Column(Identity(n), c), c);
    }
  }

  /** Summing the rows of m is the vector-matrix product with all-one coefficients. */
  lemma {:induction false} SumRowsIsOnesProduct(m: seq<seq<real>>, cols: nat)
    requires IsMatrix(m, |m|, cols)
    ensures VecMat(Ones(|m|), m, cols) == SumRows(m, cols)
  {
    VecMatIsRowCombination(Ones(|m|), m, cols);
    RowCombinationOnes(m, cols);
  }

  lemma {:induction false} RowCombinationOnes(m: seq<seq<real>>, cols: nat)
    requires IsMatrix(m, |m|, cols)
    ensures RowCombination(Ones(|m|), m, cols) == SumRows(m, cols)
  {
    if |m| > 0 {
      assert Ones(|m|)[1..] == Ones(|m| - 1);
      RowCombinationOnes(m[1..], cols);
      assert Scale(1.0, m[0]) == m[0];
    }
  }
}
