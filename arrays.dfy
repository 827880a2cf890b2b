/** The numpy array operations the simulation relies on, over exact reals.
    A matrix is a sequence of rows; flattening is row-major (C order). */
module Arrays {

  function Sum(s: seq<real>): real
  {
    if s == [] then 0.0 else s[0] + Sum(s[1..])
  }

  /** Sum of every entry of a matrix. */
  function Total(m: seq<seq<real>>): real
  {
    if m == [] then 0.0 else Sum(m[0]) + Total(m[1..])
  }

  predicate IsMatrix(m: seq<seq<real>>, rows: nat, cols: nat)
  {
    |m| == rows && forall i :: 0 <= i < rows ==> |m[i]| == cols
  }

  /** ndarray.flatten(): the rows laid end to end. */
  function Flatten(m: seq<seq<real>>): seq<real>
  {
    if m == [] then [] else m[0] + Flatten(m[1..])
  }

  /** ndarray.reshape((rows, cols)) of a flat vector; numpy refuses other sizes. */
  function Reshape(x: seq<real>, rows: nat, cols: nat): (m: seq<seq<real>>)
    requires |x| == rows * cols
    ensures IsMatrix(m, rows, cols)
    decreases rows
  {
    if rows == 0 then []
    else
      MulSplit(rows, cols);
      [x[..cols]] + Reshape(x[cols..], rows - 1, cols)
  }

  /** Column j of a matrix. */
  function Column(m: seq<seq<real>>, j: nat): (c: seq<real>)
    requires forall i :: 0 <= i < |m| ==> j < |m[i]|
    ensures |c| == |m| && forall i :: 0 <= i < |m| ==> c[i] == m[i][j]
  {
    seq(|m|, i requires 0 <= i < |m| => m[i][j])
  }

  /** The transpose of a rows × cols matrix. */
  function Transpose(m: seq<seq<real>>, rows: nat, cols: nat): (t: seq<seq<real>>)
    requires IsMatrix(m, rows, cols)
    ensures IsMatrix(t, cols, rows)
    ensures forall j, i :: 0 <= j < cols && 0 <= i < rows ==> t[j][i] == m[i][j]
  {
    seq(cols, j requires 0 <= j < cols => seq(rows, i requires 0 <= i < rows => m[i][j]))
  }

  /** numpy.roll(s, 1) of a flat vector: every entry moves one place right, the last wraps to the front. */
  function RotateRight(s: seq<real>): (r: seq<real>)
    ensures |r| == |s|
    ensures forall k :: 0 < k < |s| ==> r[k] == s[k - 1]
    ensures |s| > 0 ==> r[0] == s[|s| - 1]
  {
    if s == [] then [] else [s[|s| - 1]] + s[..|s| - 1]
  }

  /** numpy.roll(m, 1) with no axis: the matrix is flattened, rotated and reshaped back. */
  function Roll(m: seq<seq<real>>, rows: nat, cols: nat): (r: seq<seq<real>>)
    requires IsMatrix(m, rows, cols)
    ensures IsMatrix(r, rows, cols)
    ensures Flatten(r) == RotateRight(Flatten(m))
  {
    FlattenLength(m, rows, cols);
    FlattenReshape(RotateRight(Flatten(m)), rows, cols);
    Reshape(RotateRight(Flatten(m)), rows, cols)
  }

  /** The product of two positive reals is positive (a step the solver needs spelled out). */
  lemma MulPositive(a: real, b: real)
    requires a > 0.0 && b > 0.0
    ensures a * b > 0.0
  {
  }

  lemma DivNonNegative(a: real, b: real)
    requires a >= 0.0 && b > 0.0
    ensures a / b >= 0.0
  {
  }

  lemma DivAtMostOne(a: real, b: real)
    requires 0.0 <= a <= b && b > 0.0
    ensures a / b <= 1.0
  {
  }

  lemma MulSplit(rows: nat, cols: nat)
    requires rows > 0
    ensures rows * cols == cols + (rows - 1) * cols
    ensures (rows - 1) * cols >= 0
  {
  }

  lemma {:induction false} FlattenLength(m: seq<seq<real>>, rows: nat, cols: nat)
    requires IsMatrix(m, rows, cols)
    ensures |Flatten(m)| == rows * cols
  {
    if rows > 0 {
      FlattenLength(m[1..], rows - 1, cols);
      MulSplit(rows, cols);
    }
  }

  /** Entry (i, j) of a matrix sits at position i*cols + j of its flattening. */
  lemma {:induction false} FlattenAt(m: seq<seq<real>>, rows: nat, cols: nat, i: nat, j: nat)
    requires IsMatrix(m, rows, cols) && i < rows && j < cols
    ensures |Flatten(m)| == rows * cols
    ensures i * cols + j < rows * cols
    ensures Flatten(m)[i * cols + j] == m[i][j]
  {
    FlattenLength(m, rows, cols);
    MulSplit(rows, cols);
    if i > 0 {
      FlattenAt(m[1..], rows - 1, cols, i - 1, j);
      MulSplit(i, cols);
    }
  }

  /** Reading a matrix back from its flattening gives the matrix. */
  lemma {:induction false} ReshapeFlatten(m: seq<seq<real>>, rows: nat, cols: nat)
    requires IsMatrix(m, rows, cols)
    ensures |Flatten(m)| == rows * cols
    ensures Reshape(Flatten(m), rows, cols) == m
  {
    FlattenLength(m, rows, cols);
    if rows > 0 {
      ReshapeFlatten(m[1..], rows - 1, cols);
      var f := Flatten(m);
      assert f == m[0] + Flatten(m[1..]);
      assert f[..cols] == m[0];
      assert f[cols..] == Flatten(m[1..]);
      assert m == [m[0]] + m[1..];
    }
  }

  /** Flattening a reshaped vector gives the vector. */
  lemma {:induction false} FlattenReshape(x: seq<real>, rows: nat, cols: nat)
    requires |x| == rows * cols
    ensures Flatten(Reshape(x, rows, cols)) == x
    decreases rows
  {
    if rows > 0 {
      MulSplit(rows, cols);
      FlattenReshape(x[cols..], rows - 1, cols);
      var m := Reshape(x, rows, cols);
      assert m[0] == x[..cols] && m[1..] == Reshape(x[cols..], rows - 1, cols);
      assert x == x[..cols] + x[cols..];
    }
  }

  /** Entry (i, j) of a reshaped vector is its entry i*cols + j. */
  lemma ReshapeAt(x: seq<real>, rows: nat, cols: nat, i: nat, j: nat)
    requires |x| == rows * cols && i < rows && j < cols
    ensures i * cols + j < |x|
    ensures Reshape(x, rows, cols)[i][j] == x[i * cols + j]
  {
    var m := Reshape(x, rows, cols);
    FlattenReshape(x, rows, cols);
    FlattenAt(m, rows, cols, i, j);
  }

  /** numpy.roll(m, 1) moves each entry one column right inside its row; the entry that reaches
      column 0 of row i comes from the last column of row i-1, and row 0 receives the very last entry. */
  lemma RollAt(m: seq<seq<real>>, rows: nat, cols: nat, i: nat, j: nat)
    requires IsMatrix(m, rows, cols) && i < rows && j < cols
    ensures Roll(m, rows, cols)[i][j] ==
      if j > 0 then m[i][j - 1]
      else if i > 0 then m[i - 1][cols - 1]
      else m[rows - 1][cols - 1]
  {
    FlattenLength(m, rows, cols);
    var f := Flatten(m);
    ReshapeAt(RotateRight(f), rows, cols, i, j);
    if j > 0 {
      FlattenAt(m, rows, cols, i, j - 1);
    } else if i > 0 {
      FlattenAt(m, rows, cols, i - 1, cols - 1);
      MulSplit(i, cols);
    } else {
      FlattenAt(m, rows, cols, rows - 1, cols - 1);
      MulSplit(rows, cols);
    }
  }

  lemma {:induction false} SumAppend(a: seq<real>, b: seq<real>)
    ensures Sum(a + b) == Sum(a) + Sum(b)
  {
    if a != [] {
      SumAppend(a[1..], b);
      assert (a + b)[1..] == a[1..] + b;
    } else {
      assert a + b == b;
    }
  }

  /** The flat sum of a matrix is the sum of its entries. */
  lemma {:induction false} SumFlatten(m: seq<seq<real>>)
    ensures Sum(Flatten(m)) == Total(m)
  {
    if m != [] {
      SumFlatten(m[1..]);
      SumAppend(m[0], Flatten(m[1..]));
    }
  }

  /** Row by row, a vector plus the row sums of one matrix matches the row sums of another;
      then it does so in total. */
  lemma {:induction false} TotalByRows(l: seq<real>, w: seq<seq<real>>, m: seq<seq<real>>)
    requires |l| == |w| == |m|
    requires forall i :: 0 <= i < |l| ==> l[i] + Sum(w[i]) == Sum(m[i])
    ensures Sum(l) + Total(w) == Total(m)
  {
    if l != [] {
      TotalByRows(l[1..], w[1..], m[1..]);
    }
  }

  /** A vector (or matrix) of zeros sums to zero. */
  lemma {:induction false} SumZeros(s: seq<real>)
    requires forall k :: 0 <= k < |s| ==> s[k] == 0.0
    ensures Sum(s) == 0.0
  {
    if s != [] {
      SumZeros(s[1..]);
    }
  }

  lemma {:induction false} TotalZeros(m: seq<seq<real>>)
    requires forall i, k :: 0 <= i < |m| && 0 <= k < |m[i]| ==> m[i][k] == 0.0
    ensures Total(m) == 0.0
  {
    if m != [] {
      SumZeros(m[0]);
      TotalZeros(m[1..]);
    }
  }

  /** Discrete divergence: when entry j of w is base[j] minus the flux leaving j plus the flux
      entering from j-1 (with `inflow` entering entry 0), the fluxes telescope away and only
      the inflow and the flux leaving the last entry remain. */
  lemma {:induction false} TelescopingSum(w: seq<real>, base: seq<real>, flux: seq<real>, inflow: real)
    requires |w| == |base| == |flux| > 0
    requires w[0] == base[0] - flux[0] + inflow
    requires forall j :: 0 < j < |w| ==> w[j] == base[j] - flux[j] + flux[j - 1]
    ensures Sum(w) == Sum(base) + inflow - flux[|flux| - 1]
  {
    if |w| > 1 {
      TelescopingSum(w[1..], base[1..], flux[1..], flux[0]);
    }
  }
}
