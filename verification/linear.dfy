/** Vectors and matrices of the stochastic program as sequences, and the sums
    (`Sum(i, u[i] * v[i])`) the formulation is written with. */
module Linear {

  /** `M` has `rows` rows of `cols` entries each. */
  predicate IsMatrix<T>(M: seq<seq<T>>, rows: nat, cols: nat)
  {
    |M| == rows && forall i :: 0 <= i < |M| ==> |M[i]| == cols
  }

  /** Column `k` of `M`. */
  function Column<T>(M: seq<seq<T>>, k: nat): (col: seq<T>)
    requires forall i :: 0 <= i < |M| ==> k < |M[i]|
    ensures |col| == |M|
    ensures forall i :: 0 <= i < |M| ==> col[i] == M[i][k]
  {
    seq(|M|, i requires 0 <= i < |M| => M[i][k])
  }

  /** An integer parameter vector seen as coefficients of the real program. */
  function AsReal(a: seq<int>): (r: seq<real>)
    ensures |r| == |a|
    ensures forall i :: 0 <= i < |a| ==> r[i] == a[i] as real
  {
    seq(|a|, i requires 0 <= i < |a| => a[i] as real)
  }

  /** The zero vector of length `len`. */
  function Zeros(len: nat): (v: seq<real>)
    ensures |v| == len
    ensures forall i :: 0 <= i < len ==> v[i] == 0.0
  {
    seq(len, i => 0.0)
  }

  /** The `rows` x `cols` zero matrix. */
  function ZeroMatrix(rows: nat, cols: nat): (M: seq<seq<real>>)
    ensures IsMatrix(M, rows, cols)
    ensures forall i, k :: 0 <= i < rows && 0 <= k < cols ==> M[i][k] == 0.0
  {
    seq(rows, i => Zeros(cols))
  }

  /** The entrywise average of two vectors. */
  function Midpoint(v1: seq<real>, v2: seq<real>): (v: seq<real>)
    requires |v1| == |v2|
    ensures |v| == |v1|
    ensures forall i :: 0 <= i < |v| ==> v[i] == (v1[i] + v2[i]) / 2.0
  {
    seq(|v1|, i requires 0 <= i < |v1| => (v1[i] + v2[i]) / 2.0)
  }

  /** The entrywise average of two matrices of the same shape, row by row. */
  function MidpointMatrix(M1: seq<seq<real>>, M2: seq<seq<real>>): (M: seq<seq<real>>)
    requires |M1| == |M2| && forall i :: 0 <= i < |M1| ==> |M1[i]| == |M2[i]|
    ensures |M| == |M1|
    ensures forall i :: 0 <= i < |M| ==> M[i] == Midpoint(M1[i], M2[i])
  {
    seq(|M1|, i requires 0 <= i < |M1| => Midpoint(M1[i], M2[i]))
  }

  /** Sum of the entries of `v`. */
  function Sum(v: seq<real>): real
  {
    if |v| == 0 then 0.0 else v[0] + Sum(v[1..])
  }

  /** Inner product of two vectors of the same length. */
  function Dot(u: seq<real>, v: seq<real>): real
    requires |u| == |v|
  {
    if |u| == 0 then 0.0 else u[0] * v[0] + Dot(u[1..], v[1..])
  }

  /** Weighting the zero vector gives zero. */
  lemma {:induction false} DotZero(u: seq<real>, v: seq<real>)
    requires |u| == |v|
    requires forall i :: 0 <= i < |v| ==> v[i] == 0.0
    ensures Dot(u, v) == 0.0
  {
    if |u| > 0 {
      DotZero(u[1..], v[1..]);
    }
  }

  /** Nonnegative weights of a nonnegative vector sum to something nonnegative. */
  lemma {:induction false} DotNonnegative(u: seq<real>, v: seq<real>)
    requires |u| == |v|
    requires forall i :: 0 <= i < |u| ==> u[i] >= 0.0
    requires forall i :: 0 <= i < |v| ==> v[i] >= 0.0
    ensures Dot(u, v) >= 0.0
  {
    if |u| > 0 {
      DotNonnegative(u[1..], v[1..]);
    }
  }

  /** Weighting a constant vector: the constant times the total weight. */
  lemma {:induction false} DotConstant(u: seq<real>, v: seq<real>, c: real)
    requires |u| == |v|
    requires forall i :: 0 <= i < |v| ==> v[i] == c
    ensures Dot(u, v) == c * Sum(u)
  {
    if |u| > 0 {
      DotConstant(u[1..], v[1..], c);
    }
  }

  /** The inner product is linear in its first argument. */
  lemma {:induction false} DotDifference(u: seq<real>, u1: seq<real>, u2: seq<real>, v: seq<real>)
    requires |u| == |v| && |u1| == |v| && |u2| == |v|
    requires forall i :: 0 <= i < |u| ==> u[i] == u1[i] - u2[i]
    ensures Dot(u, v) == Dot(u1, v) - Dot(u2, v)
  {
    if |u| > 0 {
      DotDifference(u[1..], u1[1..], u2[1..], v[1..]);
    }
  }

  /** Strictly smaller weights give a smaller inner product with a nonnegative
      vector, strictly smaller as soon as one entry of the vector is positive. */
  lemma {:induction false} DotDominated(u1: seq<real>, u2: seq<real>, v: seq<real>)
    requires |u1| == |v| && |u2| == |v|
    requires forall i :: 0 <= i < |v| ==> u1[i] < u2[i]
    requires forall i :: 0 <= i < |v| ==> v[i] >= 0.0
    ensures Dot(u1, v) <= Dot(u2, v)
    ensures (exists i :: 0 <= i < |v| && v[i] > 0.0) ==> Dot(u1, v) < Dot(u2, v)
  {
    if |v| > 0 {
      DotDominated(u1[1..], u2[1..], v[1..]);
      assert Dot(u1, v) == u1[0] * v[0] + Dot(u1[1..], v[1..]);
      assert Dot(u2, v) == u2[0] * v[0] + Dot(u2[1..], v[1..]);
      assert u1[0] * v[0] <= u2[0] * v[0];
      if v[0] > 0.0 {
        var a1, a2 := u1[0] * v[0], u2[0] * v[0];
        assert a1 < a2;
        assert Dot(u1, v) < Dot(u2, v);
      } else if exists i :: 0 <= i < |v| && v[i] > 0.0 {
        var i :| 0 <= i < |v| && v[i] > 0.0;
        assert v[1..][i - 1] > 0.0;
      }
    }
  }

  /** The inner product is linear in its second argument: weighting an average
      averages the weighted sums. */
  lemma {:induction false} DotMidpoint(u: seq<real>, v1: seq<real>, v2: seq<real>)
    requires |u| == |v1| && |v1| == |v2|
    ensures Dot(u, Midpoint(v1, v2)) == (Dot(u, v1) + Dot(u, v2)) / 2.0
  {
    if |u| > 0 {
      var v := Midpoint(v1, v2);
      var w := Midpoint(v1[1..], v2[1..]);
      assert forall i :: 0 <= i < |w| ==> v[1..][i] == w[i];
      assert v[1..] == w;
      DotMidpoint(u[1..], v1[1..], v2[1..]);
      assert u[0] * v[0] == (u[0] * v1[0] + u[0] * v2[0]) / 2.0;
    }
  }
}
