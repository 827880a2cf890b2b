/** The fixed configuration of one pulping run: the component set, the parameter
    table read once at start-up, and the choice between the two kinetic models. */
module Config {

  datatype Option<T> = None | Some(value: T)

  /** Row indices of the components (Lignin, Carbohydrate, Alkali, Sulfur). */
  const LIGNIN: nat := 0
  const CARBOHYDRATE: nat := 1
  const ALKALI: nat := 2
  const SULFUR: nat := 3
  const NC: nat := 4

  /** Molar masses of the components, in component order. */
  const MolarMass: seq<real> := [1.0, 1.0, 1.0, 1.0]

  /** The entries of the parameter table that the core reads. */
  datatype Params = Params(
    area: real,              // contact area A
    woodMass: real,          // wood_mass
    phaseLimit1: real,       // lignin fraction at which the bulk phase ends
    phaseLimit2: real,       // lignin fraction at which the transition phase ends
    density: real,
    porinf: real,
    ti: real,                // initial temperature Ti
    tmax: real,              // hold temperature Tmax
    toTmax: real,            // ramp duration, in minutes
    liquorVolume: real,
    woodVolume: real,
    ncompartments: nat,      // number of wood compartments N
    anderssonModel: real,    // 1 selects the Andersson coefficients
    gustafssonModel: real)   // 1 selects the Gustafsson coefficients

  /** The two 0/1 indicators that switch between the coefficient sets. */
  datatype Flags = Flags(y: real, g: real)

  /** Model selection: Andersson wins when both indicators are set; with neither set
      the source only reports the omission and leaves y and g unbound (None). */
  function SelectModel(p: Params): (f: Option<Flags>)
    ensures f.None? <==> p.anderssonModel != 1.0 && p.gustafssonModel != 1.0
    ensures f.Some? ==> f.value.y + f.value.g == 1.0 && f.value.y * f.value.g == 0.0
    ensures f.Some? ==> (f.value.y == 1.0 <==> p.anderssonModel == 1.0)
  {
    if p.anderssonModel == 1.0 then Some(Flags(1.0, 0.0))
    else if p.gustafssonModel == 1.0 then Some(Flags(0.0, 1.0))
    else None
  }

  /** Width of one wood compartment on the unit thickness axis. */
  function Dz(p: Params): (h: real)
    requires p.ncompartments > 0
    ensures h > 0.0 && h * (p.ncompartments as real) == 1.0
  {
    1.0 / (p.ncompartments as real)
  }

  /** Volume of one wood compartment: the wood volume split evenly over N. */
  function WoodCompartmentVolume(p: Params): (v: real)
    requires p.ncompartments > 0
    ensures v * (p.ncompartments as real) == p.woodVolume
  {
    p.woodVolume / (p.ncompartments as real)
  }
}
