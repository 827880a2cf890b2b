/** Transport: mass transfer between the liquor and wood compartment 0, and Fick diffusion
    along the chain of wood compartments with a no-flux boundary at the last one. */
module Transport {
  import opened Arrays
  import opened Config

  /** fick_constant: only alkali (index NC-2) diffuses. Temperature and concentrations are
      accepted by the source but not used. */
  function FickConstant(): (d: seq<real>)
    ensures |d| == NC && d[ALKALI] == 0.02
    ensures forall i :: 0 <= i < NC ==> (d[i] != 0.0 <==> i == ALKALI)
  {
    seq(NC, i => if i == NC - 2 then 0.02 else 0.0)
  }

  /** mass_transfer_constant: only alkali (index NC-2) crosses the liquor/wood boundary. */
  function MassTransferConstant(): (k: seq<real>)
    ensures |k| == NC && k[ALKALI] == 0.1
    ensures forall i :: 0 <= i < NC ==> (k[i] != 0.0 <==> i == ALKALI)
  {
    seq(NC, i => if i == NC - 2 then 0.1 else 0.0)
  }

  /** transfer_rate = K * A * (cl - cw[:, 0]). */
  function TransferRate(k: seq<real>, area: real, cl: seq<real>, cw: seq<seq<real>>): (t: seq<real>)
    requires |k| == |cl| == |cw| && forall i :: 0 <= i < |cw| ==> |cw[i]| > 0
    ensures |t| == |cl|
    ensures forall i :: 0 <= i < |cl| && (k[i] == 0.0 || cl[i] == cw[i][0]) ==> t[i] == 0.0
  {
    seq(|cl|, i requires 0 <= i < |cl| => k[i] * area * (cl[i] - cw[i][0]))
  }

  /** Mass moves from the more concentrated side to the less concentrated one, and stops at
      equal concentrations. */
  lemma TransferDirection(k: seq<real>, area: real, cl: seq<real>, cw: seq<seq<real>>, i: nat)
    requires |k| == |cl| == |cw| && forall m :: 0 <= m < |cw| ==> |cw[m]| > 0
    requires i < |cl| && k[i] > 0.0 && area > 0.0
    ensures TransferRate(k, area, cl, cw)[i] > 0.0 <==> cl[i] > cw[i][0]
    ensures TransferRate(k, area, cl, cw)[i] == 0.0 <==> cl[i] == cw[i][0]
  {
    var ka := k[i] * area;
    MulPositive(k[i], area);
    var g := cl[i] - cw[i][0];
    if g > 0.0 {
      MulPositive(ka, g);
    } else if g < 0.0 {
      MulPositive(ka, -g);
      assert ka * -g == -(ka * g);
    }
  }

  /** numpy.gradient of one row with uniform spacing h: one-sided differences at the two ends,
      centred differences inside. numpy needs at least two points. */
  function Gradient(f: seq<real>, h: real): (g: seq<real>)
    requires |f| >= 2 && h != 0.0
    ensures |g| == |f|
  {
    var n := |f|;
    seq(n, j requires 0 <= j < n =>
      if j == 0 then (f[1] - f[0]) / h
      else if j == n - 1 then (f[n - 1] - f[n - 2]) / h
      else (f[j + 1] - f[j - 1]) / (2.0 * h))
  }

  /** The difference formulas: the end entries times h are the one-sided differences, and each
      inner entry times 2h is the centred difference. */
  lemma GradientDifferences(f: seq<real>, h: real)
    requires |f| >= 2 && h != 0.0
    ensures var g := Gradient(f, h);
      g[0] * h == f[1] - f[0] && g[|f| - 1] * h == f[|f| - 1] - f[|f| - 2]
    ensures forall j :: 0 < j < |f| - 1 ==> Gradient(f, h)[j] * (2.0 * h) == f[j + 1] - f[j - 1]
  {
  }

  /** A flat profile has zero gradient. */
  lemma GradientOfConstant(f: seq<real>, h: real)
    requires |f| >= 2 && h != 0.0
    requires forall j :: 0 <= j < |f| ==> f[j] == f[0]
    ensures forall j :: 0 <= j < |f| ==> Gradient(f, h)[j] == 0.0
  {
  }

  /** On a linear profile of slope s, every difference formula returns s exactly. */
  lemma GradientOfLinear(f: seq<real>, h: real, a: real, s: real)
    requires |f| >= 2 && h != 0.0
    requires forall j :: 0 <= j < |f| ==> f[j] == a + s * (j as real) * h
    ensures forall j :: 0 <= j < |f| ==> Gradient(f, h)[j] == s
  {
    var n := |f|;
    forall j | 0 <= j < n
      ensures Gradient(f, h)[j] == s
    {
      var lo := if j == 0 then 0 else j - 1;
      var hi := if j == n - 1 then n - 1 else j + 1;
      GradientOfLinearAt(f, h, a, s, j, lo, hi);
    }
  }

  /** One entry of the gradient of a linear profile, from the two samples it differences. */
  lemma GradientOfLinearAt(f: seq<real>, h: real, a: real, s: real, j: nat, lo: nat, hi: nat)
    requires |f| >= 2 && h != 0.0 && j < |f|
    requires lo == (if j == 0 then 0 else j - 1) && hi == (if j == |f| - 1 then |f| - 1 else j + 1)
    requires f[lo] == a + s * (lo as real) * h && f[hi] == a + s * (hi as real) * h
    ensures Gradient(f, h)[j] == s
  {
    LinearStep(a, s, h, hi as real, lo as real);
  }

  /** Two samples of a linear profile differ by the slope times their distance. */
  lemma LinearStep(a: real, s: real, h: real, u: real, w: real)
    requires h != 0.0
    ensures (a + s * u * h) - (a + s * w * h) == s * (u - w) * h
    ensures u - w == 1.0 ==> ((a + s * u * h) - (a + s * w * h)) / h == s
    ensures u - w == 2.0 ==> ((a + s * u * h) - (a + s * w * h)) / (2.0 * h) == s
  {
    assert s * u * h - s * w * h == s * (u - w) * h;
  }

  /** The gradient along the compartment axis of every row (the second array numpy.gradient returns). */
  function GradientZ(cw: seq<seq<real>>, n: nat, h: real): (g: seq<seq<real>>)
    requires n >= 2 && h != 0.0 && IsMatrix(cw, |cw|, n)
    ensures IsMatrix(g, |cw|, n)
    ensures forall i :: 0 <= i < |cw| ==> g[i] == Gradient(cw[i], h)
  {
    seq(|cw|, i requires 0 <= i < |cw| => Gradient(cw[i], h))
  }

  /** Fick's law, diffusion = -A * D * grad, with D broadcast along each row. */
  function FickFlux(d: seq<real>, area: real, grad: seq<seq<real>>, n: nat): (flux: seq<seq<real>>)
    requires IsMatrix(grad, |d|, n)
    ensures IsMatrix(flux, |d|, n)
    ensures forall i, j :: 0 <= i < |d| && 0 <= j < n && (d[i] == 0.0 || grad[i][j] == 0.0) ==>
      flux[i][j] == 0.0
    ensures area >= 0.0 ==> forall i, j :: 0 <= i < |d| && 0 <= j < n && d[i] >= 0.0 && grad[i][j] >= 0.0 ==>
      flux[i][j] <= 0.0
  {
    seq(|d|, i requires 0 <= i < |d| => seq(n, j requires 0 <= j < n => -area * d[i] * grad[i][j]))
  }

  /** diffusion[:, -1] = 0: the symmetry plane behind the last compartment. */
  function ZeroLastColumn(m: seq<seq<real>>, n: nat): (z: seq<seq<real>>)
    requires n >= 1 && IsMatrix(m, |m|, n)
    ensures IsMatrix(z, |m|, n)
    ensures forall i :: 0 <= i < |m| ==> z[i][n - 1] == 0.0
    ensures forall i, j :: 0 <= i < |m| && 0 <= j < n - 1 ==> z[i][j] == m[i][j]
  {
    seq(|m|, i requires 0 <= i < |m| => m[i][n - 1 := 0.0])
  }

  /** diffusion[:, -1] = 0, performed row by row on the flux matrix. */
  method ZeroBoundary(flux: seq<seq<real>>, n: nat) returns (z: seq<seq<real>>)
    requires n >= 1 && IsMatrix(flux, |flux|, n)
    ensures z == ZeroLastColumn(flux, n)
  {
    z := flux;
    var i := 0;
    while i < |flux|
      invariant 0 <= i <= |flux| && |z| == |flux|
      invariant forall m :: 0 <= m < i ==> z[m] == flux[m][n - 1 := 0.0]
      invariant forall m :: i <= m < |flux| ==> z[m] == flux[m]
    {
      z := z[i := z[i][n - 1 := 0.0]];
      i := i + 1;
    }
  }

  /** The diffusive flux out of each wood compartment towards the next, with no flux out of
      the last one. */
  function DiffusionFlux(d: seq<real>, area: real, cw: seq<seq<real>>, n: nat, h: real): (flux: seq<seq<real>>)
    requires n >= 2 && h != 0.0 && IsMatrix(cw, |d|, n)
    ensures IsMatrix(flux, |d|, n)
    ensures forall i :: 0 <= i < |d| ==> flux[i][n - 1] == 0.0
  {
    ZeroLastColumn(FickFlux(d, area, GradientZ(cw, n, h), n), n)
  }

  /** The entry numpy.roll carries into column 0 of a row is the last entry of the row above;
      with the boundary flux zeroed it is zero, so no mass leaks between components. */
  lemma RolledBoundaryIsZero(flux: seq<seq<real>>, rows: nat, n: nat)
    requires n >= 1 && rows >= 1 && IsMatrix(flux, rows, n)
    requires forall i :: 0 <= i < rows ==> flux[i][n - 1] == 0.0
    ensures forall i :: 0 <= i < rows ==> Roll(flux, rows, n)[i][0] == 0.0
  {
    forall i | 0 <= i < rows
      ensures Roll(flux, rows, n)[i][0] == 0.0
    {
      RollAt(flux, rows, n, i, 0);
    }
  }

  /** A component whose wood profile is flat, or whose diffusivity is zero, has no diffusive flux. */
  lemma NoFluxWithoutDrive(d: seq<real>, area: real, cw: seq<seq<real>>, n: nat, h: real, i: nat)
    requires n >= 2 && h != 0.0 && IsMatrix(cw, |d|, n) && i < |d|
    requires d[i] == 0.0 || forall j :: 0 <= j < n ==> cw[i][j] == cw[i][0]
    ensures forall j :: 0 <= j < n ==> DiffusionFlux(d, area, cw, n, h)[i][j] == 0.0
  {
    if d[i] != 0.0 {
      GradientOfConstant(cw[i], h);
    }
  }
}
