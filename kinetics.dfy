/** The kinetics engine: the lignin mass fraction of the whole charge selects one of three
    delignification regimes, each with its own rate law; a kappa number is derived from the
    lignin and carbohydrate fractions; the stoichiometric matrix turns rates into mole changes.
    numpy.exp and the fractional powers are the only operations kept abstract. */
module Kinetics {
  import opened Arrays
  import opened Config
  import opened Codec

  datatype Regime = Bulk | Transition | Residual

  /** Order of the regimes as a cook proceeds: bulk first, residual last. */
  function Rank(g: Regime): nat
  {
    match g
    case Bulk => 2
    case Transition => 1
    case Residual => 0
  }

  /** The three-way threshold choice on the lignin mass fraction. */
  function SelectRegime(lignin: real, limit1: real, limit2: real): (g: Regime)
    ensures g == Bulk <==> lignin >= limit1
    ensures g == Transition <==> limit2 <= lignin < limit1
    ensures g == Residual <==> lignin < limit1 && lignin < limit2
  {
    if lignin >= limit1 then Bulk
    else if lignin >= limit2 then Transition
    else Residual
  }

  /** With limit2 <= limit1, less lignin never selects an earlier regime. */
  lemma RegimeMonotone(f1: real, f2: real, limit1: real, limit2: real)
    requires limit2 <= limit1 && f1 <= f2
    ensures Rank(SelectRegime(f1, limit1, limit2)) <= Rank(SelectRegime(f2, limit1, limit2))
  {
  }

  /** Mass fractions: total moles of each component over all wood compartments, times its
      molar mass, over the wood mass. They are computed from the whole state x. */
  function MassFrac(p: Params, x: seq<real>): (mf: seq<real>)
    requires |x| == NC * (p.ncompartments + 1) && p.woodMass != 0.0
    ensures |mf| == NC
    ensures forall i :: 0 <= i < NC ==>
      mf[i] * p.woodMass == Sum(Split(x, NC, p.ncompartments).1[i]) * MolarMass[i]
  {
    var wood := Split(x, NC, p.ncompartments).1;
    seq(NC, i requires 0 <= i < NC => Sum(wood[i]) * MolarMass[i] / p.woodMass)
  }

  /** The regime of a state: one choice for the whole call, whatever the column. */
  function RegimeOf(p: Params, x: seq<real>): Regime
    requires |x| == NC * (p.ncompartments + 1) && p.woodMass != 0.0
  {
    SelectRegime(MassFrac(p, x)[LIGNIN], p.phaseLimit1, p.phaseLimit2)
  }

  /** Moving moles between wood compartments, or changing the liquor, changes neither the
      regime nor the logged kappa number: both see only the per-component wood totals. */
  lemma RegimeSeesOnlyWoodTotals(p: Params, x1: seq<real>, x2: seq<real>)
    requires |x1| == |x2| == NC * (p.ncompartments + 1) && p.woodMass != 0.0
    requires forall i :: 0 <= i < NC ==>
      Sum(Split(x1, NC, p.ncompartments).1[i]) == Sum(Split(x2, NC, p.ncompartments).1[i])
    ensures MassFrac(p, x1) == MassFrac(p, x2)
    ensures RegimeOf(p, x1) == RegimeOf(p, x2)
  {
    var m1, m2 := MassFrac(p, x1), MassFrac(p, x2);
    forall i | 0 <= i < NC
      ensures m1[i] == m2[i]
    {
      assert m1[i] * p.woodMass == m2[i] * p.woodMass;
    }
  }

  /** The kappa number from the lignin and carbohydrate fractions, which the source first
      converts to percentages. */
  function Kappa(l: real, c: real): (k: real)
    requires l * 100.0 + c * 100.0 != 0.0
    ensures k == 500.0 * (l / (l + c)) + 5.0
  {
    var q := (l * 100.0) / (l * 100.0 + c * 100.0);
    assert q == l / (l + c) by {
      assert q * (l + c) * 100.0 == l * 100.0;
    }
    500.0 * q + 5.0
  }

  /** For non-negative fractions the kappa number lies in [5, 505]; it is 5 exactly when no
      lignin is left. */
  lemma KappaBounds(l: real, c: real)
    requires l >= 0.0 && c >= 0.0 && l + c > 0.0
    ensures 5.0 <= Kappa(l, c) <= 505.0
    ensures Kappa(l, c) == 5.0 <==> l == 0.0
  {
    var q := l / (l + c);
    assert q * (l + c) == l;
    DivNonNegative(l, l + c);
    DivAtMostOne(l, l + c);
    assert Kappa(l, c) == 500.0 * q + 5.0;
    if q == 0.0 {
      assert l == 0.0;
    }
  }

  /** The kappa number that reaction_rates logs for a state. */
  function KappaOf(p: Params, x: seq<real>): real
    requires |x| == NC * (p.ncompartments + 1) && p.woodMass != 0.0
    requires MassFrac(p, x)[LIGNIN] + MassFrac(p, x)[CARBOHYDRATE] != 0.0
  {
    Kappa(MassFrac(p, x)[LIGNIN], MassFrac(p, x)[CARBOHYDRATE])
  }

  /** numpy.exp and x ** e, the transcendental floating-point operations of the rate laws. */
  datatype Numerics = Numerics(exp: real -> real, pow: (real, real) -> real)

  const KR3: real := -0.00478
  const KR4: real := 0.0181

  /** The alkali consumption rate, the same linear combination in every regime. */
  function AlkaliRate(p: Params, r1: real, r2: real): real
    requires p.porinf != 0.0
  {
    (KR3 * r1 + KR4 * r2) * p.density / p.porinf
  }

  /** kr2, the secondary-rate coefficient of each regime. */
  function SecondaryCoefficient(g: Regime, f: Flags): real
  {
    match g
    case Bulk => f.g * 2.53 + f.y * 0.02
    case Transition => f.g * 0.47 + f.y * 0.02
    case Residual => f.g * 2.19 + f.y * 0.02
  }

  /** The three rates [delignification, carbohydrate dissolution, alkali consumption] of one
      compartment column c = [CL, CC, CA, CS] at temperature T, for a given regime. */
  function RatesIn(g: Regime, num: Numerics, f: Flags, p: Params, c: seq<real>, T: real): (r: seq<real>)
    requires |c| == NC && T != 0.0 && p.porinf != 0.0
    ensures |r| == 3
    ensures r[2] == AlkaliRate(p, r[0], r[1])
    ensures g != Bulk ==> r[1] == SecondaryCoefficient(g, f) * r[0]
  {
    var cl, ca, cs := c[LIGNIN], c[ALKALI], c[SULFUR];
    var kr2 := SecondaryCoefficient(g, f);
    match g
    case Bulk =>
      var kr1 := f.g * (36.2 * num.pow(T, 0.5)) * num.exp(-4807.69 / T) + f.y * 0.01;
      var r1 := kr1 * cl;
      var r2 := kr1 * kr2 * cl * num.pow(ca, 0.11);
      [r1, r2, AlkaliRate(p, r1, r2)]
    case Transition =>
      var kr11 := f.g * num.exp(35.19 - 17200.0 / T) + f.y * 0.01;
      var kr12 := f.g * num.exp(29.23 - 14400.0 / T) + f.y * 0.01;
      var r1 := kr11 * ca * cl + kr12 * cl * num.pow(ca, 0.5) * num.pow(cs, 0.4);
      var r2 := kr2 * r1;
      [r1, r2, AlkaliRate(p, r1, r2)]
    case Residual =>
      var kr1 := f.g * num.exp(19.64 - 10804.0 / T) + f.y * 0.01;
      var r1 := kr1 * num.pow(ca, 0.7) * cl;
      var r2 := kr2 * r1;
      [r1, r2, AlkaliRate(p, r1, r2)]
  }

  /** Every rate law is proportional to the lignin concentration CL, so a column without
      lignin does not react at all, whatever the regime or coefficients. The temperature and
      the alkali and sulfur concentrations must be where numpy's powers and exponentials stay
      finite (a positive T, no negative base under a fractional power); elsewhere the source
      yields nan or raises, which the real-valued primitives do not capture. */
  lemma NoLigninNoReaction(g: Regime, num: Numerics, f: Flags, p: Params, c: seq<real>, T: real)
    requires |c| == NC && T > 0.0 && p.porinf != 0.0 && c[LIGNIN] == 0.0
    requires c[ALKALI] >= 0.0 && c[SULFUR] >= 0.0
    ensures RatesIn(g, num, f, p, c, T) == [0.0, 0.0, 0.0]
  {
    var cl, ca, cs := c[LIGNIN], c[ALKALI], c[SULFUR];
    var r := RatesIn(g, num, f, p, c, T);
    match g
    case Bulk =>
      var kr1 := f.g * (36.2 * num.pow(T, 0.5)) * num.exp(-4807.69 / T) + f.y * 0.01;
      assert r[0] == kr1 * cl == 0.0;
      assert kr1 * SecondaryCoefficient(g, f) * cl == 0.0;
      assert r[1] == 0.0;
    case Transition =>
      var kr11 := f.g * num.exp(35.19 - 17200.0 / T) + f.y * 0.01;
      var kr12 := f.g * num.exp(29.23 - 14400.0 / T) + f.y * 0.01;
      assert kr11 * ca * cl == 0.0;
      assert kr12 * cl == 0.0;
      assert r[0] == 0.0;
    case Residual =>
      assert r[0] == 0.0;
  }

  /** Under the Andersson coefficients (y = 1, g = 0) every Arrhenius term is switched off,
      so the rates do not depend on the temperature, for any two positive temperatures (at a
      negative T the source's T**0.5 raises and its exponentials overflow). */
  lemma AnderssonIgnoresTemperature(g: Regime, num: Numerics, p: Params, c: seq<real>, t1: real, t2: real)
    requires |c| == NC && t1 > 0.0 && t2 > 0.0 && p.porinf != 0.0
    ensures RatesIn(g, num, Flags(1.0, 0.0), p, c, t1) == RatesIn(g, num, Flags(1.0, 0.0), p, c, t2)
  {
  }

  /** What the kinetics needs to be defined: no division by zero in the Arrhenius exponents,
      the density ratio, the mass fractions and the kappa number. */
  predicate KineticsDefined(p: Params, x: seq<real>, T: real)
  {
    && |x| == NC * (p.ncompartments + 1)
    && T != 0.0 && p.porinf != 0.0 && p.woodMass != 0.0
    && MassFrac(p, x)[LIGNIN] + MassFrac(p, x)[CARBOHYDRATE] != 0.0
  }

  /** reaction_rates(C, x, T) without its logging: the regime comes from x, the rates from C. */
  function KineticRates(num: Numerics, f: Flags, p: Params, c: seq<real>, x: seq<real>, T: real): (r: seq<real>)
    requires |c| == NC && KineticsDefined(p, x, T)
    ensures |r| == 3
  {
    RatesIn(RegimeOf(p, x), num, f, p, c, T)
  }

  /** numpy.apply_along_axis(reaction_rates, 0, cw, x, T): the rates of wood column j form
      column j of a 3 × N matrix, and every column is evaluated under the one regime of x. */
  function RateMatrix(num: Numerics, f: Flags, p: Params, x: seq<real>, T: real): (r: seq<seq<real>>)
    requires KineticsDefined(p, x, T)
    ensures IsMatrix(r, 3, p.ncompartments)
    ensures forall k, j :: 0 <= k < 3 && 0 <= j < p.ncompartments ==>
      r[k][j] == RatesIn(RegimeOf(p, x), num, f, p, Column(Split(x, NC, p.ncompartments).1, j), T)[k]
  {
    Transpose(ColumnRates(num, f, p, x, T), p.ncompartments, 3)
  }

  /** The per-column results of apply_along_axis, before numpy stacks them. */
  function ColumnRates(num: Numerics, f: Flags, p: Params, x: seq<real>, T: real): (cols: seq<seq<real>>)
    requires KineticsDefined(p, x, T)
    ensures IsMatrix(cols, p.ncompartments, 3)
  {
    var n := p.ncompartments;
    var cw := Split(x, NC, n).1;
    seq(n, j requires 0 <= j < n => KineticRates(num, f, p, Column(cw, j), x, T))
  }

  /** The stoichiometric matrix S (components × reactions): reaction k consumes one mole of
      component k; no reaction touches sulfur. It is the transpose of the 3 × 4 literal. */
  const S: seq<seq<real>> := [[-1.0, 0.0, 0.0], [0.0, -1.0, 0.0], [0.0, 0.0, -1.0], [0.0, 0.0, 0.0]]

  function Dot(a: seq<real>, b: seq<real>): real
    requires |a| == |b|
  {
    if a == [] then 0.0 else a[0] * b[0] + Dot(a[1..], b[1..])
  }

  /** S.dot(r) * V: mole change per compartment from the 3 × N rate matrix r. */
  function Reaction(r: seq<seq<real>>, v: real, n: nat): (m: seq<seq<real>>)
    requires IsMatrix(r, 3, n)
    ensures IsMatrix(m, NC, n)
  {
    seq(NC, i requires 0 <= i < NC => seq(n, j requires 0 <= j < n => Dot(S[i], Column(r, j)) * v))
  }

  lemma Dot3(a: seq<real>, b: seq<real>)
    requires |a| == |b| == 3
    ensures Dot(a, b) == a[0] * b[0] + a[1] * b[1] + a[2] * b[2]
  {
    assert Dot(a[2..], b[2..]) == a[2] * b[2] by {
      assert a[2..][1..] == [];
    }
    assert a[1..][1..] == a[2..] && b[1..][1..] == b[2..];
  }

  /** Each of lignin, carbohydrate and alkali loses r_i × V; sulfur never changes. */
  lemma ReactionAt(r: seq<seq<real>>, v: real, n: nat, i: nat, j: nat)
    requires IsMatrix(r, 3, n) && i < NC && j < n
    ensures Reaction(r, v, n)[i][j] == if i < 3 then -r[i][j] * v else 0.0
  {
    Dot3(S[i], Column(r, j));
  }

  /** With every rate zero the reaction term is zero everywhere. */
  lemma ReactionOfZeroRates(r: seq<seq<real>>, v: real, n: nat)
    requires IsMatrix(r, 3, n)
    requires forall k, j :: 0 <= k < 3 && 0 <= j < n ==> r[k][j] == 0.0
    ensures forall i, j :: 0 <= i < NC && 0 <= j < n ==> Reaction(r, v, n)[i][j] == 0.0
  {
    forall i, j | 0 <= i < NC && 0 <= j < n
      ensures Reaction(r, v, n)[i][j] == 0.0
    {
      ReactionAt(r, v, n, i, j);
    }
  }

  /** The sulfur row of the reaction term is zero. */
  lemma SulfurUntouched(r: seq<seq<real>>, v: real, n: nat)
    requires IsMatrix(r, 3, n)
    ensures forall j :: 0 <= j < n ==> Reaction(r, v, n)[SULFUR][j] == 0.0
  {
    forall j | 0 <= j < n
      ensures Reaction(r, v, n)[SULFUR][j] == 0.0
    {
      ReactionAt(r, v, n, SULFUR, j);
    }
  }
}
