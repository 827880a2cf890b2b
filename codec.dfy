/** The state codec: the integrator sees one flat vector, the physics a liquor vector
    (one entry per component) and a wood matrix (components × wood compartments).
    Each component's row holds its liquor entry followed by its N wood entries, and the
    rows are laid end to end, so component i occupies slots i*(N+1) .. i*(N+1)+N. */
module Codec {
  import opened Arrays
  import opened Config

  /** The rows [liquor[i]] + wood[i] that flatx concatenates before flattening. */
  function Rows(liquor: seq<real>, wood: seq<seq<real>>, n: nat): (rows: seq<seq<real>>)
    requires IsMatrix(wood, |liquor|, n)
    ensures IsMatrix(rows, |liquor|, n + 1)
    ensures forall i :: 0 <= i < |liquor| ==> rows[i] == [liquor[i]] + wood[i]
  {
    seq(|liquor|, i requires 0 <= i < |liquor| => [liquor[i]] + wood[i])
  }

  /** flatx: liquor as the first column, then the wood columns, flattened row-major. */
  function Flatx(liquor: seq<real>, wood: seq<seq<real>>, n: nat): (x: seq<real>)
    requires IsMatrix(wood, |liquor|, n)
    ensures |x| == |liquor| * (n + 1)
  {
    var rows := Rows(liquor, wood, n);
    FlattenLength(rows, |liquor|, n + 1);
    Flatten(rows)
  }

  /** The happy path of unflatx: reshape into nc rows of n+1, split off column 0. */
  function Split(x: seq<real>, nc: nat, n: nat): (r: (seq<real>, seq<seq<real>>))
    requires |x| == nc * (n + 1)
    ensures |r.0| == nc && IsMatrix(r.1, nc, n)
  {
    var rect := Reshape(x, nc, n + 1);
    (seq(nc, i requires 0 <= i < nc => rect[i][0]), seq(nc, i requires 0 <= i < nc => rect[i][1..]))
  }

  /** unflatx: numpy's reshape raises unless the vector has exactly nc*(n+1) entries. */
  function Unflatx(x: seq<real>, nc: nat, n: nat): (r: Option<(seq<real>, seq<seq<real>>)>)
    ensures r.Some? <==> |x| == nc * (n + 1)
    ensures r.Some? ==> |r.value.0| == nc && IsMatrix(r.value.1, nc, n)
  {
    if |x| != nc * (n + 1) then None else Some(Split(x, nc, n))
  }

  /** Layout of the flat vector: liquor entry of component i at i*(N+1), wood entry (i, j) right after. */
  lemma FlatxLayout(liquor: seq<real>, wood: seq<seq<real>>, n: nat, i: nat, j: nat)
    requires IsMatrix(wood, |liquor|, n) && i < |liquor| && j < n
    ensures i * (n + 1) + n < |Flatx(liquor, wood, n)|
    ensures Flatx(liquor, wood, n)[i * (n + 1)] == liquor[i]
    ensures Flatx(liquor, wood, n)[i * (n + 1) + 1 + j] == wood[i][j]
  {
    var rows := Rows(liquor, wood, n);
    FlatxLiquorAt(liquor, wood, n, i);
    FlattenAt(rows, |liquor|, n + 1, i, j + 1);
  }

  lemma FlatxLiquorAt(liquor: seq<real>, wood: seq<seq<real>>, n: nat, i: nat)
    requires IsMatrix(wood, |liquor|, n) && i < |liquor|
    ensures i * (n + 1) + n < |Flatx(liquor, wood, n)|
    ensures Flatx(liquor, wood, n)[i * (n + 1)] == liquor[i]
  {
    var rows := Rows(liquor, wood, n);
    FlattenAt(rows, |liquor|, n + 1, i, n);
    FlattenAt(rows, |liquor|, n + 1, i, 0);
  }

  /** Slot s of component i's block: the liquor entry at s = 0, wood compartment s - 1 after it. */
  lemma FlatxBlockAt(liquor: seq<real>, wood: seq<seq<real>>, n: nat, i: nat, s: nat)
    requires IsMatrix(wood, |liquor|, n) && i < |liquor| && s <= n
    ensures i * (n + 1) + s < |Flatx(liquor, wood, n)|
    ensures Flatx(liquor, wood, n)[i * (n + 1) + s] == if s == 0 then liquor[i] else wood[i][s - 1]
  {
    if s == 0 {
      FlatxLiquorAt(liquor, wood, n, i);
    } else {
      FlatxLayout(liquor, wood, n, i, s - 1);
    }
  }

  /** A component whose liquor entry and wood row are all zero has an all-zero block. */
  lemma FlatxZeroBlock(liquor: seq<real>, wood: seq<seq<real>>, n: nat, i: nat, s: nat)
    requires IsMatrix(wood, |liquor|, n) && i < |liquor| && s <= n
    requires liquor[i] == 0.0 && forall j :: 0 <= j < n ==> wood[i][j] == 0.0
    ensures i * (n + 1) + s < |Flatx(liquor, wood, n)| && Flatx(liquor, wood, n)[i * (n + 1) + s] == 0.0
  {
    FlatxBlockAt(liquor, wood, n, i, s);
  }

  /** Round trip: decoding an encoded state gives the state back. */
  lemma UnflatxFlatx(liquor: seq<real>, wood: seq<seq<real>>, n: nat)
    requires IsMatrix(wood, |liquor|, n)
    ensures Unflatx(Flatx(liquor, wood, n), |liquor|, n) == Some((liquor, wood))
  {
    var nc := |liquor|;
    var rows := Rows(liquor, wood, n);
    ReshapeFlatten(rows, nc, n + 1);
    var r := Split(Flatx(liquor, wood, n), nc, n);
    assert r.0 == liquor;
    assert forall i :: 0 <= i < nc ==> rows[i][1..] == wood[i];
    assert r.1 == wood;
  }

  /** Round trip: encoding a decoded flat vector gives the vector back. */
  lemma FlatxUnflatx(x: seq<real>, nc: nat, n: nat)
    requires |x| == nc * (n + 1)
    ensures Unflatx(x, nc, n).Some?
    ensures Flatx(Unflatx(x, nc, n).value.0, Unflatx(x, nc, n).value.1, n) == x
  {
    var rect := Reshape(x, nc, n + 1);
    var r := Split(x, nc, n);
    FlattenReshape(x, nc, n + 1);
    var rows := Rows(r.0, r.1, n);
    forall i | 0 <= i < nc
      ensures rows[i] == rect[i]
    {
      assert rect[i] == [rect[i][0]] + rect[i][1..];
    }
    assert rows == rect;
  }

  /** The flat vector's total is the liquor total plus the wood total: the quantity the
      mass-balance plot follows is just the sum of all moles. */
  lemma FlatxSum(liquor: seq<real>, wood: seq<seq<real>>, n: nat)
    requires IsMatrix(wood, |liquor|, n)
    ensures Sum(Flatx(liquor, wood, n)) == Sum(liquor) + Total(wood)
  {
    var rows := Rows(liquor, wood, n);
    SumFlatten(rows);
    forall i | 0 <= i < |liquor|
      ensures liquor[i] + Sum(wood[i]) == Sum(rows[i])
    {
      assert rows[i][1..] == wood[i];
    }
    TotalByRows(liquor, wood, rows);
  }

  /** concentrations: moles divided by the liquor volume and by the wood compartment volume. */
  function Concentrations(p: Params, x: seq<real>): (c: (seq<real>, seq<seq<real>>))
    requires p.ncompartments > 0 && |x| == NC * (p.ncompartments + 1)
    requires p.liquorVolume != 0.0 && p.woodVolume != 0.0
    ensures |c.0| == NC && IsMatrix(c.1, NC, p.ncompartments)
  {
    var n := p.ncompartments;
    var moles := Split(x, NC, n);
    var v := WoodCompartmentVolume(p);
    (seq(NC, i requires 0 <= i < NC => moles.0[i] / p.liquorVolume),
     seq(NC, i requires 0 <= i < NC => seq(n, j requires 0 <= j < n => moles.1[i][j] / v)))
  }

  /** Multiplying a liquor concentration back by the liquor volume gives the moles of the
      decoded state. */
  lemma LiquorConcentrationRecoversMoles(p: Params, x: seq<real>, i: nat)
    requires p.ncompartments > 0 && |x| == NC * (p.ncompartments + 1)
    requires p.liquorVolume != 0.0 && p.woodVolume != 0.0 && i < NC
    ensures Concentrations(p, x).0[i] * p.liquorVolume == Split(x, NC, p.ncompartments).0[i]
  {
    var a := Split(x, NC, p.ncompartments).0[i];
    assert Concentrations(p, x).0[i] == a / p.liquorVolume;
    assert (a / p.liquorVolume) * p.liquorVolume == a;
  }

  /** Multiplying a wood concentration back by the compartment volume gives the moles of the
      decoded state. */
  lemma WoodConcentrationRecoversMoles(p: Params, x: seq<real>, i: nat, j: nat)
    requires p.ncompartments > 0 && |x| == NC * (p.ncompartments + 1)
    requires p.liquorVolume != 0.0 && p.woodVolume != 0.0 && i < NC && j < p.ncompartments
    ensures Concentrations(p, x).1[i][j] * WoodCompartmentVolume(p) == Split(x, NC, p.ncompartments).1[i][j]
  {
    var v := WoodCompartmentVolume(p);
    assert v != 0.0;
    var a := Split(x, NC, p.ncompartments).1[i][j];
    assert Concentrations(p, x).1[i][j] == a / v;
    assert (a / v) * v == a;
  }
}
