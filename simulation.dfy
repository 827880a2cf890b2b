/** One simulation run: the fixed parameters and model choice, and the two diagnostic
    histories that the temperature schedule and the kinetics append to on every call. */
module Simulation {
  import opened Arrays
  import opened Config
  import opened Codec
  import opened Schedule
  import opened Kinetics
  import opened Transport
  import opened Derivative

  class Run {
    const p: Params
    const flags: Flags
    const num: Numerics
    /** temp_store: one temperature per evaluation of the schedule. */
    var tempStore: seq<real>
    /** kappa_store: one kappa number per evaluation of the rates. */
    var kappaStore: seq<real>

    constructor (p: Params, flags: Flags, num: Numerics)
      requires SelectModel(p) == Some(flags)
      ensures this.p == p && this.flags == flags && this.num == num
      ensures tempStore == [] && kappaStore == []
    {
      this.p := p;
      this.flags := flags;
      this.num := num;
      tempStore := [];
      kappaStore := [];
    }

    /** temp(t): the scheduled temperature, appended to the history. */
    method Temp(t: real) returns (temp: real)
      requires p.toTmax != 0.0 || t >= 0.0
      modifies this`tempStore
      ensures temp == TempAt(p, t)
      ensures tempStore == old(tempStore) + [temp]
    {
      if t < p.toTmax * 60.0 {
        temp := p.ti + ((p.tmax - p.ti) / (p.toTmax * 60.0)) * t;
      } else {
        temp := p.tmax;
      }
      tempStore := tempStore + [temp];
    }

    /** reaction_rates(C, x, T): logs the kappa number of x, then returns the rates of column C
        under the regime of x. */
    method ReactionRates(c: seq<real>, x: seq<real>, T: real) returns (r: seq<real>)
      requires |c| == NC && KineticsDefined(p, x, T)
      modifies this`kappaStore
      ensures r == RatesIn(RegimeOf(p, x), num, flags, p, c, T)
      ensures kappaStore == old(kappaStore) + [KappaOf(p, x)]
    {
      var mf := MassFrac(p, x);
      kappaStore := kappaStore + [Kappa(mf[LIGNIN], mf[CARBOHYDRATE])];
      r := RatesIn(SelectRegime(mf[LIGNIN], p.phaseLimit1, p.phaseLimit2), num, flags, p, c, T);
    }

    /** numpy.apply_along_axis(reaction_rates, 0, cw, x, T): one call, and so one kappa entry,
        per wood column, the results stacked as the columns of a 3 × N matrix. */
    method RatesByColumn(x: seq<real>, T: real) returns (r: seq<seq<real>>)
      requires KineticsDefined(p, x, T)
      modifies this`kappaStore
      ensures r == RateMatrix(num, flags, p, x, T)
      ensures kappaStore == old(kappaStore) + seq(p.ncompartments, _ => KappaOf(p, x))
    {
      var n := p.ncompartments;
      var cw := Split(x, NC, n).1;
      ghost var all := ColumnRates(num, flags, p, x, T);
      var columns: seq<seq<real>> := [];
      var j := 0;
      while j < n
        invariant 0 <= j <= n && columns == all[..j]
        invariant kappaStore == old(kappaStore) + seq(j, _ => KappaOf(p, x))
      {
        var rates := ReactionRates(Column(cw, j), x, T);
        assert rates == all[j];
        columns := columns + [rates];
        assert all[..j + 1] == all[..j] + [all[j]];
        assert seq(j + 1, _ => KappaOf(p, x)) == seq(j, _ => KappaOf(p, x)) + [KappaOf(p, x)];
        j := j + 1;
      }
      assert all[..n] == all;
      r := Transpose(columns, n, 3);
    }

    /** dxdt(x, t): one temperature and N kappa numbers are logged, and the flat derivative is
        the mole balance of the rates that the N calls of reaction_rates return. */
    method Dxdt(x: seq<real>, t: real) returns (dx: seq<real>)
      requires p.ncompartments >= 2 && |x| == NC * (p.ncompartments + 1)
      requires p.toTmax != 0.0 || t >= 0.0
      requires KineticsDefined(p, x, TempAt(p, t))
      modifies this`tempStore, this`kappaStore
      ensures dx == Derivative.Dxdt(p, x, RateMatrix(num, flags, p, x, TempAt(p, t)))
      ensures tempStore == old(tempStore) + [TempAt(p, t)]
      ensures kappaStore == old(kappaStore) + seq(p.ncompartments, _ => KappaOf(p, x))
    {
      var n := p.ncompartments;
      var state := Unflatx(x, NC, n);
      var cl, cw := state.value.0, state.value.1;
      var T := Temp(t);
      var d := FickConstant();
      var k := MassTransferConstant();
      var transfer := TransferRate(k, p.area, cl, cw);
      var diffusion := FickFlux(d, p.area, GradientZ(cw, n, Dz(p)), n);
      diffusion := ZeroBoundary(diffusion, n);
      var r := RatesByColumn(x, T);
      var reaction := Reaction(r, WoodCompartmentVolume(p), n);
      var wood := Combine(reaction, diffusion, n);
      wood := AddTransfer(wood, transfer, n);
      dx := Flatx(LiquorDerivative(transfer), wood, n);
    }
  }
}
