/** The mole balances that dxdt assembles: the liquor loses what it transfers into wood
    compartment 0; each wood compartment gains its reaction term, loses the diffusive flux
    towards the next compartment and gains the flux from the previous one, the latter read
    off numpy.roll of the flux matrix. */
module Derivative {
  import opened Arrays
  import opened Config
  import opened Codec
  import opened Kinetics
  import opened Transport

  /** dNliquordt = -transfer_rate. */
  function LiquorDerivative(transfer: seq<real>): (dl: seq<real>)
    ensures |dl| == |transfer|
    ensures forall i :: 0 <= i < |transfer| ==> dl[i] + transfer[i] == 0.0
  {
    seq(|transfer|, i requires 0 <= i < |transfer| => -transfer[i])
  }

  /** reaction - diffusion + numpy.roll(diffusion, 1). */
  function Combine(reaction: seq<seq<real>>, diffusion: seq<seq<real>>, n: nat): (m: seq<seq<real>>)
    requires n >= 1 && |reaction| >= 1 && IsMatrix(reaction, |reaction|, n) && IsMatrix(diffusion, |reaction|, n)
    ensures IsMatrix(m, |reaction|, n)
  {
    var rolled := Roll(diffusion, |reaction|, n);
    seq(|reaction|, i requires 0 <= i < |reaction| =>
      seq(n, j requires 0 <= j < n => reaction[i][j] - diffusion[i][j] + rolled[i][j]))
  }

  /** m[:, 0] += v. */
  function AddToFirstColumn(m: seq<seq<real>>, v: seq<real>, n: nat): (r: seq<seq<real>>)
    requires n >= 1 && IsMatrix(m, |v|, n)
    ensures IsMatrix(r, |v|, n)
    ensures forall i :: 0 <= i < |v| ==> r[i][0] - m[i][0] == v[i]
    ensures forall i, j :: 0 <= i < |v| && 0 < j < n ==> r[i][j] == m[i][j]
  {
    seq(|v|, i requires 0 <= i < |v| => m[i][0 := m[i][0] + v[i]])
  }

  /** dNwooddt[:, 0] += transfer_rate, performed row by row. */
  method AddTransfer(m: seq<seq<real>>, v: seq<real>, n: nat) returns (w: seq<seq<real>>)
    requires n >= 1 && IsMatrix(m, |v|, n)
    ensures w == AddToFirstColumn(m, v, n)
  {
    w := m;
    var i := 0;
    while i < |v|
      invariant 0 <= i <= |v| && |w| == |v|
      invariant forall r :: 0 <= r < i ==> w[r] == m[r][0 := m[r][0] + v[r]]
      invariant forall r :: i <= r < |v| ==> w[r] == m[r]
    {
      w := w[i := w[i][0 := w[i][0] + v[i]]];
      i := i + 1;
    }
  }

  /** The (liquor, wood) derivative for given transport coefficients and reaction term. */
  function Balance(cl: seq<real>, cw: seq<seq<real>>, reaction: seq<seq<real>>,
                   d: seq<real>, k: seq<real>, area: real, n: nat, h: real): (b: (seq<real>, seq<seq<real>>))
    requires n >= 2 && h != 0.0 && |cl| >= 1
    requires |d| == |k| == |cl| && IsMatrix(cw, |cl|, n) && IsMatrix(reaction, |cl|, n)
    ensures |b.0| == |cl| && IsMatrix(b.1, |cl|, n)
  {
    var transfer := TransferRate(k, area, cl, cw);
    var diffusion := DiffusionFlux(d, area, cw, n, h);
    (LiquorDerivative(transfer), AddToFirstColumn(Combine(reaction, diffusion, n), transfer, n))
  }

  /** Entry (i, j) of the wood derivative, with the rolled-in term spelled out: the flux from
      compartment j-1, and at j = 0 the transfer from the liquor instead. */
  lemma WoodDerivativeAt(cl: seq<real>, cw: seq<seq<real>>, reaction: seq<seq<real>>,
                         d: seq<real>, k: seq<real>, area: real, n: nat, h: real, i: nat, j: nat)
    requires n >= 2 && h != 0.0 && |cl| >= 1
    requires |d| == |k| == |cl| && IsMatrix(cw, |cl|, n) && IsMatrix(reaction, |cl|, n)
    requires i < |cl| && j < n
    ensures var flux := DiffusionFlux(d, area, cw, n, h);
      Balance(cl, cw, reaction, d, k, area, n, h).1[i][j] ==
        if j == 0 then reaction[i][0] - flux[i][0] + TransferRate(k, area, cl, cw)[i]
        else reaction[i][j] - flux[i][j] + flux[i][j - 1]
  {
    var flux := DiffusionFlux(d, area, cw, n, h);
    RollAt(flux, |cl|, n, i, j);
  }

  /** Per component, what the liquor gains plus what the wood gains is exactly the reaction
      term: transfer and diffusion only move moles. */
  lemma ComponentBalance(cl: seq<real>, cw: seq<seq<real>>, reaction: seq<seq<real>>,
                         d: seq<real>, k: seq<real>, area: real, n: nat, h: real, i: nat)
    requires n >= 2 && h != 0.0 && |cl| >= 1
    requires |d| == |k| == |cl| && IsMatrix(cw, |cl|, n) && IsMatrix(reaction, |cl|, n)
    requires i < |cl|
    ensures var b := Balance(cl, cw, reaction, d, k, area, n, h);
      b.0[i] + Sum(b.1[i]) == Sum(reaction[i])
  {
    var b := Balance(cl, cw, reaction, d, k, area, n, h);
    var flux := DiffusionFlux(d, area, cw, n, h);
    var t := TransferRate(k, area, cl, cw);
    forall j | 0 <= j < n
      ensures b.1[i][j] == if j == 0 then reaction[i][0] - flux[i][0] + t[i]
                           else reaction[i][j] - flux[i][j] + flux[i][j - 1]
    {
      WoodDerivativeAt(cl, cw, reaction, d, k, area, n, h, i, j);
    }
    WoodDerivativeAt(cl, cw, reaction, d, k, area, n, h, i, 0);
    TelescopingSum(b.1[i], reaction[i], flux[i], t[i]);
  }

  /** Summed over everything, the derivative equals the summed reaction term. */
  lemma TotalBalance(cl: seq<real>, cw: seq<seq<real>>, reaction: seq<seq<real>>,
                     d: seq<real>, k: seq<real>, area: real, n: nat, h: real)
    requires n >= 2 && h != 0.0 && |cl| >= 1
    requires |d| == |k| == |cl| && IsMatrix(cw, |cl|, n) && IsMatrix(reaction, |cl|, n)
    ensures var b := Balance(cl, cw, reaction, d, k, area, n, h);
      Sum(Flatx(b.0, b.1, n)) == Total(reaction)
  {
    var b := Balance(cl, cw, reaction, d, k, area, n, h);
    FlatxSum(b.0, b.1, n);
    forall i | 0 <= i < |cl|
      ensures b.0[i] + Sum(b.1[i]) == Sum(reaction[i])
    {
      ComponentBalance(cl, cw, reaction, d, k, area, n, h, i);
    }
    TotalByRows(b.0, b.1, reaction);
  }

  /** A component that neither diffuses nor crosses into the liquor changes by its reaction
      term only, and its liquor entry is constant. */
  lemma ImmobileComponent(cl: seq<real>, cw: seq<seq<real>>, reaction: seq<seq<real>>,
                          d: seq<real>, k: seq<real>, area: real, n: nat, h: real, i: nat)
    requires n >= 2 && h != 0.0 && |cl| >= 1
    requires |d| == |k| == |cl| && IsMatrix(cw, |cl|, n) && IsMatrix(reaction, |cl|, n)
    requires i < |cl| && d[i] == 0.0 && k[i] == 0.0
    ensures var b := Balance(cl, cw, reaction, d, k, area, n, h);
      b.0[i] == 0.0 && b.1[i] == reaction[i]
  {
    var b := Balance(cl, cw, reaction, d, k, area, n, h);
    NoFluxWithoutDrive(d, area, cw, n, h, i);
    forall j | 0 <= j < n
      ensures b.1[i][j] == reaction[i][j]
    {
      WoodDerivativeAt(cl, cw, reaction, d, k, area, n, h, i, j);
    }
  }

  /** A component with a flat wood profile has no diffusion; only the transfer from the liquor
      is added, to compartment 0. */
  lemma FlatProfile(cl: seq<real>, cw: seq<seq<real>>, reaction: seq<seq<real>>,
                    d: seq<real>, k: seq<real>, area: real, n: nat, h: real, i: nat)
    requires n >= 2 && h != 0.0 && |cl| >= 1
    requires |d| == |k| == |cl| && IsMatrix(cw, |cl|, n) && IsMatrix(reaction, |cl|, n)
    requires i < |cl| && forall j :: 0 <= j < n ==> cw[i][j] == cw[i][0]
    ensures forall j :: 0 <= j < n ==>
      Balance(cl, cw, reaction, d, k, area, n, h).1[i][j] ==
        reaction[i][j] + (if j == 0 then TransferRate(k, area, cl, cw)[i] else 0.0)
  {
    NoFluxWithoutDrive(d, area, cw, n, h, i);
    forall j | 0 <= j < n
      ensures Balance(cl, cw, reaction, d, k, area, n, h).1[i][j] ==
        reaction[i][j] + (if j == 0 then TransferRate(k, area, cl, cw)[i] else 0.0)
    {
      WoodDerivativeAt(cl, cw, reaction, d, k, area, n, h, i, j);
    }
  }

  // ---------------------------------------------------------------------------------------
  // The derivative function of the pulping model itself.

  /** The (liquor, wood) derivative of dxdt(x, t) for the rate matrix r (3 × N) that the
      kinetics returns: decode, transport with the fixed coefficients, reaction S.dot(r) * V. */
  function DxdtBlocks(p: Params, x: seq<real>, r: seq<seq<real>>): (b: (seq<real>, seq<seq<real>>))
    requires p.ncompartments >= 2 && |x| == NC * (p.ncompartments + 1)
    requires IsMatrix(r, 3, p.ncompartments)
    ensures |b.0| == NC && IsMatrix(b.1, NC, p.ncompartments)
  {
    var n := p.ncompartments;
    var split := Split(x, NC, n);
    Balance(split.0, split.1, Reaction(r, WoodCompartmentVolume(p), n),
            FickConstant(), MassTransferConstant(), p.area, n, Dz(p))
  }

  /** dxdt(x, t): the derivative blocks, encoded like the state. */
  function Dxdt(p: Params, x: seq<real>, r: seq<seq<real>>): (dx: seq<real>)
    requires p.ncompartments >= 2 && |x| == NC * (p.ncompartments + 1)
    requires IsMatrix(r, 3, p.ncompartments)
    ensures |dx| == |x|
  {
    var b := DxdtBlocks(p, x, r);
    Flatx(b.0, b.1, p.ncompartments)
  }

  /** The total of the returned derivative is the net reaction: V times minus the summed
      lignin, carbohydrate and alkali rates. With all rates zero it is exactly zero. */
  lemma DxdtTotal(p: Params, x: seq<real>, r: seq<seq<real>>)
    requires p.ncompartments >= 2 && |x| == NC * (p.ncompartments + 1)
    requires IsMatrix(r, 3, p.ncompartments)
    ensures Sum(Dxdt(p, x, r)) == Total(Reaction(r, WoodCompartmentVolume(p), p.ncompartments))
    ensures (forall k, j :: 0 <= k < 3 && 0 <= j < p.ncompartments ==> r[k][j] == 0.0) ==>
      Sum(Dxdt(p, x, r)) == 0.0
  {
    var n := p.ncompartments;
    var (cl, cw) := Split(x, NC, n);
    var v := WoodCompartmentVolume(p);
    TotalBalance(cl, cw, Reaction(r, v, n), FickConstant(), MassTransferConstant(), p.area, n, Dz(p));
    if forall k, j :: 0 <= k < 3 && 0 <= j < n ==> r[k][j] == 0.0 {
      NoRatesNoReaction(r, v, n);
    }
  }

  /** With every rate zero, the reaction term S.dot(r) * V totals zero. */
  lemma NoRatesNoReaction(r: seq<seq<real>>, v: real, n: nat)
    requires IsMatrix(r, 3, n)
    requires forall k, j :: 0 <= k < 3 && 0 <= j < n ==> r[k][j] == 0.0
    ensures Total(Reaction(r, v, n)) == 0.0
  {
    ReactionOfZeroRates(r, v, n);
    TotalZeros(Reaction(r, v, n));
  }

  /** With the rates forced to zero every component is conserved on its own. */
  lemma DxdtConservesEachComponent(p: Params, x: seq<real>, r: seq<seq<real>>, i: nat)
    requires p.ncompartments >= 2 && |x| == NC * (p.ncompartments + 1)
    requires IsMatrix(r, 3, p.ncompartments) && i < NC
    requires forall k, j :: 0 <= k < 3 && 0 <= j < p.ncompartments ==> r[k][j] == 0.0
    ensures var b := DxdtBlocks(p, x, r); b.0[i] + Sum(b.1[i]) == 0.0
  {
    var n := p.ncompartments;
    var (cl, cw) := Split(x, NC, n);
    var v := WoodCompartmentVolume(p);
    var m := Reaction(r, v, n);
    ComponentBalance(cl, cw, m, FickConstant(), MassTransferConstant(), p.area, n, Dz(p), i);
    ReactionOfZeroRates(r, v, n);
    SumZeros(m[i]);
  }

  /** Lignin, carbohydrate and sulfur do not move: their liquor entries are constant and their
      wood row is exactly their reaction row, -r_i * V per compartment for lignin and
      carbohydrate and zero for sulfur, which S leaves untouched (Kinetics.ReactionAt). */
  lemma DxdtImmobile(p: Params, x: seq<real>, r: seq<seq<real>>, i: nat)
    requires p.ncompartments >= 2 && |x| == NC * (p.ncompartments + 1)
    requires IsMatrix(r, 3, p.ncompartments)
    requires i < NC && i != ALKALI
    ensures var b := DxdtBlocks(p, x, r);
      b.0[i] == 0.0 && b.1[i] == Reaction(r, WoodCompartmentVolume(p), p.ncompartments)[i]
  {
    var n := p.ncompartments;
    var split := Split(x, NC, n);
    var d, k := FickConstant(), MassTransferConstant();
    assert d[i] == 0.0 && k[i] == 0.0;
    ImmobileComponent(split.0, split.1, Reaction(r, WoodCompartmentVolume(p), n), d, k, p.area, n, Dz(p), i);
  }

  /** Sulfur is frozen: its whole block i*(N+1) .. i*(N+1)+N of the flat derivative is zero. */
  lemma SulfurFrozen(p: Params, x: seq<real>, r: seq<seq<real>>, s: nat)
    requires p.ncompartments >= 2 && |x| == NC * (p.ncompartments + 1)
    requires IsMatrix(r, 3, p.ncompartments) && s <= p.ncompartments
    ensures SULFUR * (p.ncompartments + 1) + s < |Dxdt(p, x, r)|
    ensures Dxdt(p, x, r)[SULFUR * (p.ncompartments + 1) + s] == 0.0
  {
    var b := DxdtBlocks(p, x, r);
    SulfurBlocksZero(p, x, r);
    FlatxZeroBlock(b.0, b.1, p.ncompartments, SULFUR, s);
  }

  /** Both of sulfur's derivative blocks are zero. */
  lemma SulfurBlocksZero(p: Params, x: seq<real>, r: seq<seq<real>>)
    requires p.ncompartments >= 2 && |x| == NC * (p.ncompartments + 1)
    requires IsMatrix(r, 3, p.ncompartments)
    ensures var b := DxdtBlocks(p, x, r);
      b.0[SULFUR] == 0.0 && forall j :: 0 <= j < p.ncompartments ==> b.1[SULFUR][j] == 0.0
  {
    SulfurUntouched(r, WoodCompartmentVolume(p), p.ncompartments);
    DxdtImmobile(p, x, r, SULFUR);
  }

  /** With no diffusivity and no mass transfer at all, the liquor is constant and the wood
      changes by the reaction term alone. */
  lemma NoTransportWithoutCoefficients(cl: seq<real>, cw: seq<seq<real>>, reaction: seq<seq<real>>,
                                       d: seq<real>, k: seq<real>, area: real, n: nat, h: real)
    requires n >= 2 && h != 0.0 && |cl| >= 1
    requires |d| == |k| == |cl| && IsMatrix(cw, |cl|, n) && IsMatrix(reaction, |cl|, n)
    requires forall i :: 0 <= i < |cl| ==> d[i] == 0.0 && k[i] == 0.0
    ensures var b := Balance(cl, cw, reaction, d, k, area, n, h);
      (forall i :: 0 <= i < |cl| ==> b.0[i] == 0.0) && b.1 == reaction
  {
    var b := Balance(cl, cw, reaction, d, k, area, n, h);
    forall i | 0 <= i < |cl|
      ensures b.0[i] == 0.0 && b.1[i] == reaction[i]
    {
      ImmobileComponent(cl, cw, reaction, d, k, area, n, h, i);
    }
  }
}
