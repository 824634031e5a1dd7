/** Shaping of the sampled data: the row-major reshape of the flat requirement
    and demand vectors (Model.py lines 21-22) and the net production cost
    `c = l - q` (Model.py line 43). */
module DataShaping {

  /** Position in the flat vector of entry (i, j) of a `rows` x `cols` matrix. */
  function RowMajor(i: nat, j: nat, rows: nat, cols: nat): (f: nat)
    requires i < rows && j < cols
    ensures f < rows * cols
  {
    assert i * cols + j < (i + 1) * cols <= rows * cols;
    i * cols + j
  }

  /** The rows of `flat`, read `cols` entries at a time (numpy's row-major
      `reshape((rows, cols))`). */
  function Reshape(flat: seq<int>, rows: nat, cols: nat): (M: seq<seq<int>>)
    requires |flat| == rows * cols
    ensures |M| == rows
    ensures forall i :: 0 <= i < |M| ==> |M[i]| == cols
    decreases rows
  {
    if rows == 0 then []
    else
      assert |flat| == cols + (rows - 1) * cols;
      [flat[..cols]] + Reshape(flat[cols..], rows - 1, cols)
  }

  /** The entries of `M` row after row: the inverse of `Reshape`. */
  function Flatten(M: seq<seq<int>>): seq<int>
  {
    if |M| == 0 then [] else M[0] + Flatten(M[1..])
  }

  /** Entry (i, j) of the reshaped matrix is entry `i * cols + j` of the flat vector. */
  lemma {:induction false} ReshapeRowMajor(flat: seq<int>, rows: nat, cols: nat)
    requires |flat| == rows * cols
    ensures forall i, j :: 0 <= i < rows && 0 <= j < cols ==>
      Reshape(flat, rows, cols)[i][j] == flat[RowMajor(i, j, rows, cols)]
    decreases rows
  {
    if rows > 0 {
      assert |flat| == cols + (rows - 1) * cols;
      var rest := flat[cols..];
      ReshapeRowMajor(rest, rows - 1, cols);
      forall i, j | 0 <= i < rows && 0 <= j < cols
        ensures Reshape(flat, rows, cols)[i][j] == flat[RowMajor(i, j, rows, cols)]
      {
        if i > 0 {
          assert Reshape(flat, rows, cols)[i] == Reshape(rest, rows - 1, cols)[i - 1];
          assert RowMajor(i - 1, j, rows - 1, cols) + cols == RowMajor(i, j, rows, cols);
        }
      }
    }
  }

  /** Reshaping loses nothing: flattening the matrix gives the vector back. */
  lemma {:induction false} FlattenReshape(flat: seq<int>, rows: nat, cols: nat)
    requires |flat| == rows * cols
    ensures Flatten(Reshape(flat, rows, cols)) == flat
    decreases rows
  {
    if rows > 0 {
      assert |flat| == cols + (rows - 1) * cols;
      FlattenReshape(flat[cols..], rows - 1, cols);
      assert Reshape(flat, rows, cols)[1..] == Reshape(flat[cols..], rows - 1, cols);
      assert flat[..cols] + flat[cols..] == flat;
    }
  }

  /** Every `rows` x `cols` matrix is the reshape of its flattening. */
  lemma {:induction false} ReshapeFlatten(M: seq<seq<int>>, rows: nat, cols: nat)
    requires |M| == rows
    requires forall i :: 0 <= i < |M| ==> |M[i]| == cols
    ensures |Flatten(M)| == rows * cols
    ensures Reshape(Flatten(M), rows, cols) == M
    decreases rows
  {
    if rows > 0 {
      ReshapeFlatten(M[1..], rows - 1, cols);
      assert |Flatten(M)| == cols + (rows - 1) * cols;
      assert Flatten(M)[..cols] == M[0];
      assert Flatten(M)[cols..] == Flatten(M[1..]);
    }
  }

  /** Net production cost per warehouse: additional cost minus selling price. */
  function NetCost(l: seq<int>, q: seq<int>): (c: seq<int>)
    requires |l| == |q|
    ensures |c| == |l|
    ensures forall i :: 0 <= i < |c| ==> c[i] == l[i] - q[i]
  {
    if |l| == 0 then [] else [l[0] - q[0]] + NetCost(l[1..], q[1..])
  }
}
