# pulpsim: the derivative function of a kraft-pulping simulation, in Dafny

pulpsim simulates kraft pulping. One lumped liquor compartment exchanges mass with a chain
of N wood compartments. Four components are tracked: lignin, carbohydrate, alkali and
sulfur. Alkali diffuses along the chain and is the only component that crosses into the
liquor. Inside the wood, a three-regime kinetics consumes lignin, carbohydrate and alkali.
The ODE integrator repeatedly calls one function, `dxdt(x, t)`. This project models that
function and everything it calls, over exact reals:

- **State codec** (`Codec`): `flatx`/`unflatx`. Each component's row is its liquor entry
  followed by its N wood entries. The rows are laid end to end, so component i occupies
  slots `i*(N+1) .. i*(N+1)+N`.
- **Temperature schedule** (`Schedule`, `Simulation.Run.Temp`): a linear ramp from Ti to Tmax
  over `toTmax*60` seconds, then a hold at Tmax. Every call appends to `temp_store`.
- **Kinetics** (`Kinetics`, `Simulation.Run.ReactionRates`, `Simulation.Run.RatesByColumn`):
  - mass fractions come from the wood totals of the whole state;
  - the regime is chosen by two thresholds on the lignin fraction;
  - each regime has its own rate law;
  - a kappa number is appended to `kappa_store` on every call;
  - the stoichiometric matrix `S` turns rates into mole changes.
- **Transport** (`Transport`):
  - mass transfer `K*A*(cl - cw[:,0])` between the liquor and compartment 0;
  - Fick diffusion `-A*D*grad`, where grad is the `numpy.gradient` of each row along the
    compartment axis (one-sided at the ends, centred inside);
  - the last column of that flux is zeroed.
- **Mole balance** (`Derivative`, `Simulation.Run.Dxdt`): the wood derivative is
  `reaction - diffusion + numpy.roll(diffusion, 1)`, with the transfer added to column 0.
  The liquor derivative is `-transfer`.

`numpy.roll` with no axis shifts the flattened matrix. Arrays.RollAt proves that the entry
arriving in column 0 of row i is the last flux entry of row i-1. Transport.RolledBoundaryIsZero
proves that this entry is zero only because the last flux column was zeroed. From this
follow per-component conservation (Derivative.ComponentBalance) and the total balance
(Derivative.TotalBalance, Derivative.DxdtTotal).

The module-level parameter table, model flags and history lists become a `Run` object
(module `Simulation`). It is built only from the flags that `Config.SelectModel` returns. Its parameters, flags and numeric primitives are constant fields. Its two
histories, `tempStore` and `kappaStore`, are sequence fields that the methods extend.

Where the comments and the code disagree, the model follows the code:

- The layout comment at pulpsim.py:28-31 describes another ordering of the flat vector.
  The model follows `flatx`/`unflatx` (pulpsim.py:104-117).
- `dxdt` passes moles straight into the transfer and gradient formulas (pulpsim.py:230).
  `concentrations` (pulpsim.py:120-129) is modelled but, as in the code, not used by `dxdt`.
- The code does not clamp negative concentrations before the fractional powers, so the model
  does not clamp either. Its abstract `pow` and `exp` always return a real, however, where
  numpy returns nan (a negative base under a fractional power) or inf (overflow), and where
  Python raises (`T**0.5` for a negative float `T`). Lemmas whose conclusion depends on a
  factor being finite are stated only where the source's values are finite; see "Left out".
- Only one coefficient set is active at a time. Andersson wins when both indicators are set.
  When neither is set the code only prints a message; that case is `None` here.

## Model

| member | source | states |
|---|---|---|
| Config.SelectModel | pulpsim.py:191-196 | No model is selected exactly when neither indicator is 1. Otherwise exactly one of y, g is 1 and the other is 0, and y = 1 exactly when the Andersson indicator is set (so Andersson wins when both are). |
| Config.Dz | pulpsim.py:210 | The compartment width is positive, and N compartments span the unit thickness axis. |
| Config.WoodCompartmentVolume | pulpsim.py:211 | N compartments of this volume make up the wood volume. |
| Arrays.Roll | pulpsim.py:264 | `numpy.roll(m, 1)` with no axis: the same shape, and its flattening is the flattening of m rotated one place right. |
| Arrays.RollAt | pulpsim.py:264 | The flattened `numpy.roll(m, 1)` moves each entry one column right. Column 0 of row i receives the last entry of row i-1, and row 0 receives the last entry of the matrix. |
| Codec.Flatx | pulpsim.py:104-106 | The flat state has Nc*(N+1) entries. |
| Codec.Unflatx | pulpsim.py:109-117 | Decoding succeeds exactly when the vector has Nc*(N+1) entries; numpy's reshape raises otherwise. On success it gives an Nc-vector and an Nc × N matrix. |
| Codec.FlatxLayout | pulpsim.py:104-106 | The liquor entry of component i sits at `i*(N+1)`, and wood entry (i, j) sits at `i*(N+1)+1+j`. |
| Codec.FlatxBlockAt | pulpsim.py:104-106 | Slot s of component i's block holds the liquor entry when s = 0 and wood compartment s − 1 otherwise. |
| Codec.FlatxZeroBlock | pulpsim.py:104-106 | A component whose liquor entry and wood row are all zero has an all-zero block in the flat vector. |
| Codec.UnflatxFlatx | pulpsim.py:104-117 | Decoding an encoded (liquor, wood) pair gives the same pair back. |
| Codec.FlatxUnflatx | pulpsim.py:104-117 | Encoding a decoded flat vector gives the same vector back. |
| Codec.FlatxSum | pulpsim.py:271-272 | The total of the flat state is the liquor total plus the wood total. |
| Codec.Concentrations | pulpsim.py:120-129 | Gives an Nc-vector of liquor concentrations and an Nc × N matrix of wood concentrations. |
| Codec.LiquorConcentrationRecoversMoles | pulpsim.py:120-126 | A liquor concentration times the liquor volume gives back that component's liquor moles in the decoded state. |
| Codec.WoodConcentrationRecoversMoles | pulpsim.py:120-129 | A wood concentration times the compartment volume gives back the moles of that wood entry in the decoded state. |
| Schedule.TempAt | pulpsim.py:132-138 | The temperature of `temp(t)`, without the logging. From `t = toTmax*60` on, it is Tmax. The ramp side is stated by Schedule.TempStart, Schedule.TempMonotone and Schedule.TempBounds. |
| Schedule.TempHold | pulpsim.py:135-138 | From `t = toTmax*60` on, the temperature is Tmax. |
| Schedule.TempStart | pulpsim.py:135-136 | When the ramp has positive length, the temperature at t = 0 is Ti. |
| Schedule.RampMeetsHold | pulpsim.py:135-138 | The ramp formula at `t = toTmax*60` equals Tmax, so the schedule is continuous there. |
| Schedule.TempNearRampEnd | pulpsim.py:135-138 | A time e before the end of the ramp, the temperature is below Tmax by exactly slope × e. |
| Schedule.TempMonotone | pulpsim.py:135-138 | The schedule never decreases when Tmax ≥ Ti and toTmax > 0. |
| Schedule.TempBounds | pulpsim.py:135-138 | From t = 0 on, the temperature stays between Ti and Tmax. |
| Kinetics.SelectRegime | pulpsim.py:68-89 | Bulk exactly when the lignin fraction is at least phase_limit_1. Transition exactly when the fraction is in [phase_limit_2, phase_limit_1). Residual exactly when it is below both limits. |
| Kinetics.RegimeMonotone | pulpsim.py:68-89 | With phase_limit_2 ≤ phase_limit_1, less lignin never selects an earlier regime. |
| Kinetics.MassFrac | pulpsim.py:63-65 | Mass fraction i times the wood mass equals component i's total over all wood compartments, times its molar mass. |
| Kinetics.RegimeSeesOnlyWoodTotals | pulpsim.py:63-68 | Two states with equal per-component wood totals have the same mass fractions and the same regime. So every column of one call shares one regime. |
| Kinetics.Kappa | pulpsim.py:169-171 | The percentage scaling cancels, so kappa = 500·L/(L+C) + 5. |
| Kinetics.KappaBounds | pulpsim.py:169-171 | For L, C ≥ 0 with L + C > 0, kappa lies in [5, 505], and it equals 5 exactly when L = 0. |
| Kinetics.RatesIn | pulpsim.py:68-101 | Returns three rates. In every regime `r3 = (kr3·r1 + kr4·r2)·density/porinf`. In the transition and residual regimes `r2 = kr2·r1`. |
| Kinetics.NoLigninNoReaction | pulpsim.py:68-97 | In every regime, a column with no lignin (CL = 0) has all three rates zero. This holds for T > 0 and non-negative alkali and sulfur, where numpy's powers and exponentials are finite. |
| Kinetics.AnderssonIgnoresTemperature | pulpsim.py:68-97 | Under the Andersson flags (y = 1, g = 0), the rates of every regime are the same at any two positive temperatures. |
| Kinetics.RateMatrix | pulpsim.py:257 | `apply_along_axis` gives a 3 × N matrix. Its column j holds the rates of wood column j, all under the one regime of x. |
| Kinetics.Reaction | pulpsim.py:259 | `S.dot(r)·V` is an Nc × N matrix. Its entries are stated by Kinetics.ReactionAt. |
| Kinetics.ReactionAt | pulpsim.py:203-205 | `(S.dot(r)·V)[i][j]` is −r[i][j]·V for lignin, carbohydrate and alkali, and 0 for sulfur. |
| Kinetics.ReactionOfZeroRates | pulpsim.py:259 | When every rate is zero, every entry of `S.dot(r)·V` is zero. |
| Kinetics.SulfurUntouched | pulpsim.py:203-205 | The sulfur row of `S.dot(r)·V` is zero: no reaction produces or consumes sulfur. |
| Transport.FickConstant | pulpsim.py:149-157 | There are Nc diffusivities; only alkali's is non-zero, and it is 0.02. |
| Transport.MassTransferConstant | pulpsim.py:160-166 | There are Nc transfer coefficients; only alkali's is non-zero, and it is 0.1. |
| Transport.TransferRate | pulpsim.py:240 | One rate per component. The rate is zero for a component with K = 0 and for one whose liquor and compartment-0 values are equal. Its sign is given by Transport.TransferDirection. |
| Transport.TransferDirection | pulpsim.py:240 | With K, A > 0, mass flows into the wood exactly when the liquor side is more concentrated, and the flow is zero exactly at equal concentrations. |
| Transport.Gradient | pulpsim.py:252 | `numpy.gradient` of one row with spacing dz has one entry per sample. Its entries are stated by Transport.GradientDifferences. |
| Transport.GradientDifferences | pulpsim.py:252 | The first and last entries of the gradient, times dz, are the one-sided differences. Each inner entry times 2·dz is the centred difference. |
| Transport.GradientZ | pulpsim.py:252 | The second array `numpy.gradient` returns: row i is the 1-D gradient of wood row i along the compartment axis. |
| Transport.FickFlux | pulpsim.py:253 | `-A·D·grad` with D broadcast along each row. The flux is zero where D or the gradient is zero. With A, D ≥ 0 it is non-positive where the gradient is non-negative, so it runs down the gradient. |
| Transport.GradientOfConstant | pulpsim.py:252 | A flat profile has zero gradient everywhere. |
| Transport.GradientOfLinear | pulpsim.py:252 | On a linear profile of slope s, the one-sided and centred differences all return s. |
| Transport.ZeroLastColumn | pulpsim.py:254 | The last column becomes zero, and every other entry is unchanged. |
| Transport.ZeroBoundary | pulpsim.py:254 | The row-by-row update gives exactly the matrix with its last column zeroed. |
| Transport.DiffusionFlux | pulpsim.py:252-254 | No flux leaves the last compartment. |
| Transport.RolledBoundaryIsZero | pulpsim.py:254-264 | Once the last flux column is zero, the rolled flux is zero in column 0 of every row. No mass wraps between components. |
| Transport.NoFluxWithoutDrive | pulpsim.py:252-254 | A component with zero diffusivity, or with a flat wood profile, has zero flux everywhere. |
| Derivative.LiquorDerivative | pulpsim.py:262 | The liquor derivative is the negated transfer: each entry plus the transfer rate is 0. |
| Derivative.Combine | pulpsim.py:264 | `reaction - diffusion + numpy.roll(diffusion, 1)` has the shape of the wood. Its entries are stated by Derivative.WoodDerivativeAt. |
| Derivative.AddToFirstColumn | pulpsim.py:266 | Column 0 of each row grows by exactly the transfer rate of that row, and every other entry is unchanged. |
| Derivative.Balance | pulpsim.py:240-266 | Gives a liquor vector and a wood matrix of the state's shapes. Its entries are stated by WoodDerivativeAt, and its balance by ComponentBalance and TotalBalance. |
| Derivative.AddTransfer | pulpsim.py:266 | The row-by-row `+=` gives exactly the matrix with the transfer added to column 0. |
| Derivative.WoodDerivativeAt | pulpsim.py:264-266 | Wood entry (i, j) is reaction − flux(j) + flux(j−1). At j = 0, the transfer rate takes the place of flux(j−1). |
| Derivative.ComponentBalance | pulpsim.py:240-266 | Per component, the liquor derivative plus the summed wood derivative equals the summed reaction term. Transfer and diffusion only move moles. |
| Derivative.TotalBalance | pulpsim.py:240-268 | The sum of the flat derivative equals the sum of the reaction term. |
| Derivative.ImmobileComponent | pulpsim.py:240-266 | A component with D = K = 0 has a zero liquor derivative, and its wood derivative is its reaction term alone. |
| Derivative.FlatProfile | pulpsim.py:252-266 | A component whose wood profile is flat has no diffusion. Its wood derivative is the reaction term, plus the transfer in column 0. |
| Derivative.NoTransportWithoutCoefficients | pulpsim.py:240-266 | With all D and K zero, the liquor derivative is zero and the wood derivative equals the reaction term. |
| Derivative.Dxdt | pulpsim.py:226-268 | The flat derivative has the length of the state. Its sum is stated by Derivative.DxdtTotal, and its sulfur block by Derivative.SulfurFrozen. |
| Derivative.NoRatesNoReaction | pulpsim.py:259 | When every rate is zero, the reaction term `S.dot(r)·V` totals zero. |
| Derivative.DxdtTotal | pulpsim.py:259-268 | The sum of the dxdt derivative is the total of `S.dot(r)·V`. When all rates are zero it is exactly 0. |
| Derivative.DxdtConservesEachComponent | pulpsim.py:240-268 | When all rates are zero, each component's liquor derivative plus its wood derivative sums to 0. |
| Derivative.DxdtImmobile | pulpsim.py:155-266 | Lignin, carbohydrate and sulfur have a zero liquor derivative. Their wood derivative row is exactly their row of `S.dot(r)·V`, whose entries Kinetics.ReactionAt gives: −r_i·V for lignin and carbohydrate, and 0 for sulfur. |
| Derivative.SulfurBlocksZero | pulpsim.py:203-266 | Sulfur's liquor derivative and every entry of its wood derivative are zero. |
| Derivative.SulfurFrozen | pulpsim.py:203-268 | Every entry of sulfur's block in the flat derivative is zero. |
| Simulation.Run.constructor | pulpsim.py:222-223 | A run starts with empty temperature and kappa histories. It accepts only the (y, g) flags that Config.SelectModel chooses for its parameters. |
| Simulation.Run.Temp | pulpsim.py:132-140 | Returns the scheduled temperature and appends exactly that value to the history. Earlier entries are unchanged. |
| Simulation.Run.ReactionRates | pulpsim.py:56-101 | Appends exactly one kappa number, that of x, and returns the rates of column C under the regime of x. |
| Simulation.Run.RatesByColumn | pulpsim.py:257 | Appends N kappa entries, one per column, and returns the stacked rate matrix. |
| Simulation.Run.Dxdt | pulpsim.py:226-268 | Returns the mole balance of the fixed transport plus the rates of the N columns. Appends one temperature and N kappa numbers. |

## Left out

- Reading the CSV parameter file and the config file (pulpsim.py:42-53, 173-188). This is
  file I/O; the parameters arrive as a `Params` value.
- Integration with `scipy.integrate.odeint` (pulpsim.py:279). This is an external solver;
  the model stops at the derivative it calls.
- Plotting, timing and the post-processing loops (pulpsim.py:17, 274-313).
- The numeric primitives `numpy.exp` and the fractional powers `**` (pulpsim.py:69-97, 143-146).
  They are transcendental floating-point operations, so they are abstract fields of
  `Kinetics.Numerics`. Everything around them is modelled exactly.
- `gustaf_exp` (pulpsim.py:143-146): nothing in the core calls it.
- Floating point in general: all arithmetic is exact real arithmetic.
- Config.SelectModel: when neither indicator is set, the source prints a message and leaves
  y, g unbound, so a later rate evaluation would fail with a NameError. This is `None` here,
  and the `Simulation.Run` constructor requires the flags that SelectModel returns.
- Codec.Concentrations: excludes a zero liquor volume or wood volume, where numpy's array
  division gives inf or NaN instead of raising. Reals have no inf or NaN.
- Codec.Flatx: liquor and wood of mismatched shapes, on which numpy raises, are excluded by
  its precondition rather than modelled as an error.
- Schedule.TempAt: excludes `toTmax = 0` with `t < 0`, where the ramp division raises
  ZeroDivisionError. The integrator never asks for a negative time.
- Kinetics.Kappa: excludes L + C = 0, where numpy produces NaN. Reals have no NaN.
- Kinetics.MassFrac: excludes a zero wood mass, where numpy produces inf or NaN.
- Kinetics.RatesIn: excludes T = 0 and porinf = 0, where the division has no real value
  (a ZeroDivisionError, or inf/NaN in numpy floats). For a negative alkali or sulfur
  concentration, or a negative T, the source's `**` and `numpy.exp` give nan, inf or a
  ValueError. The abstract `pow` and `exp` of the model return a real for every argument,
  so RatesIn does not capture that behaviour.
- Kinetics.NoLigninNoReaction: stated only for T > 0 and non-negative alkali and sulfur
  concentrations. Outside that range the source's rates for CL = 0 are nan (for example
  `0*CA**0.11` with CA < 0), not zero.
- Kinetics.AnderssonIgnoresTemperature: stated only for positive temperatures. At a negative
  T the source's `T**0.5` raises, and its exponentials overflow so that `0*inf` is nan.
- Simulation.Run.Dxdt: requires N ≥ 2 and a flat state of the right size, because
  numpy.gradient and reshape raise otherwise. It also requires the kinetics to be defined
  (the conditions just listed).
- The component-0 gradient along the component axis, which `numpy.gradient` also computes and
  the source discards (pulpsim.py:252).
