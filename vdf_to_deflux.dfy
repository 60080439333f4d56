/**
 * `vdf_to_deflux`: convert a velocity distribution function (phase-space
 * density in s^3/cm^6, s^3/m^6 or s^3/km^6) into differential energy flux.
 * The species picks a mass ratio, the unit string a scale factor, and every
 * cell at (time t, energy channel e, ...) is then multiplied in place, in a
 * freshly converted buffer, by the square of its energy level.
 *
 * The distribution's data is its row-major buffer together with its shape
 * `[time, energy, ...]`; reshaping to `[time, energy, rest]` keeps the buffer,
 * so the in-place scaling runs over the flat buffer.
 */
module VdfToDeflux {
  import opened Wrappers

  /** Electron and proton masses in kg (CODATA 2018, as scipy.constants holds them). */
  const ElectronMass: real := 9.1093837015e-31
  const ProtonMass: real := 1.67262192369e-27

  const OutputUnits: string := "keV/(cm^2 s sr keV)"

  datatype ConvError =
    | InvalidSpecie        // neither ions nor electrons
    | InvalidUnit          // not one of the three phase-space density units
    | TooFewAxes           // data with fewer than two axes cannot be reshaped to [time, energy, rest]
    | InvalidEnergyShape   // energy levels neither 1-D nor 2-D
    | EnergyMismatch       // energy table does not broadcast onto the data in place
    | ShapeChanged         // squeezing the result dropped a length-one axis of the input

  /** Energy levels: one per channel, one per (time, channel), or of another rank. */
  datatype Energy =
    | ByChannel(levels: seq<real>)
    | ByTimeChannel(channels: nat, table: seq<seq<real>>)
    | OtherRank(rank: nat)

  /** The distribution: species and units attributes, shape, row-major data, energy levels. */
  datatype Vdf = Vdf(species: string, units: string, shape: seq<nat>, data: seq<real>, energy: Energy)

  function Product(s: seq<nat>): nat
  {
    if |s| == 0 then 1 else s[0] * Product(s[1..])
  }

  /** Array invariants: the buffer holds one value per cell, a 2-D energy table is rectangular. */
  ghost predicate WellFormed(v: Vdf)
  {
    |v.data| == Product(v.shape) &&
    (v.energy.ByTimeChannel? ==> forall row :: row in v.energy.table ==> |row| == v.energy.channels)
  }

  /** `_mass_ratio`: the species' mass in proton masses. */
  function MassRatio(species: string): (r: Result<real, ConvError>)
    ensures r.Ok? <==> species in ["ions", "i", "electrons", "e"]
    ensures r.Ok? ==> r.value > 0.0
    ensures r.Err? ==> r.error == InvalidSpecie
  {
    if species in ["ions", "i"] then Ok(1.0)
    else if species in ["electrons", "e"] then Ok(ElectronMass / ProtonMass)
    else Err(InvalidSpecie)
  }

  lemma MassRatioValues()
    ensures MassRatio("ions") == MassRatio("i") == Ok(1.0)
    ensures MassRatio("electrons") == MassRatio("e") == Ok(ElectronMass / ProtonMass)
    ensures 0.0 < ElectronMass / ProtonMass < 0.001
    ensures MassRatio("proton").Err? && MassRatio("Ions").Err?
  {
    assert "proton" !in ["ions", "i", "electrons", "e"];
    assert "Ions" != "ions";
  }

  function LowerChar(c: char): char
  {
    if 'A' <= c <= 'Z' then (c as int + 32) as char else c
  }

  /** `str.lower` on ASCII text. */
  function Lower(s: string): (r: string)
    ensures |r| == |s|
    ensures forall i :: 0 <= i < |s| ==> r[i] == LowerChar(s[i])
  {
    seq(|s|, i requires 0 <= i < |s| => LowerChar(s[i]))
  }

  lemma LowerIdempotent(s: string)
    ensures Lower(Lower(s)) == Lower(s)
  {
  }

  /** The factor that takes the data in `units` to s^3/km^6 (before the mass-ratio term). */
  function UnitFactor(units: string): (r: Result<real, ConvError>)
    ensures r.Ok? <==> Lower(units) in ["s^3/cm^6", "s^3/m^6", "s^3/km^6"]
    ensures r.Ok? ==> r.value >= 1.0
    ensures r.Err? ==> r.error == InvalidUnit
  {
    var u := Lower(units);
    if u == "s^3/cm^6" then Ok(1.0e30)
    else if u == "s^3/m^6" then Ok(1.0e18)
    else if u == "s^3/km^6" then Ok(1.0)
    else Err(InvalidUnit)
  }

  /** `1e6 * 0.53707 * mass_ratio ** 2`, the divisor of every conversion. */
  function Denominator(massRatio: real): (d: real)
    requires massRatio > 0.0
    ensures d > 0.0
  {
    var c := 1.0e6 * 0.53707 * massRatio;
    assert c > 0.0;
    assert c * massRatio > 0.0;
    c * massRatio
  }

  lemma Quotient(f: real, d: real)
    requires f > 0.0 && d > 0.0
    ensures f / d > 0.0 && (f / d) * d == f
  {
  }

  /** `_convert`'s factor: the unit factor over `1e6 * 0.53707 * mass_ratio^2`. */
  function Scale(units: string, massRatio: real): (r: Result<real, ConvError>)
    requires massRatio > 0.0
    ensures r.Ok? <==> UnitFactor(units).Ok?
    ensures r.Ok? ==> r.value > 0.0 && r.value * Denominator(massRatio) == UnitFactor(units).value
  {
    match UnitFactor(units)
    case Ok(f) =>
      Quotient(f, Denominator(massRatio));
      Ok(f / Denominator(massRatio))
    case Err(e) => Err(e)
  }

  /**
   * The unit test is case-insensitive, and the factors are the ones that
   * make the three spellings of one density agree: a cm^-6 is 1e12 m^-6
   * and a m^-6 is 1e18 km^-6.
   */
  lemma UnitFactors()
    ensures UnitFactor("s^3/cm^6") == UnitFactor("S^3/CM^6") == Ok(1.0e30)
    ensures UnitFactor("s^3/m^6") == Ok(1.0e18) && UnitFactor("s^3/km^6") == Ok(1.0)
    ensures UnitFactor("s^3/cm^6").value == 1.0e12 * UnitFactor("s^3/m^6").value
    ensures UnitFactor("s^3/m^6").value == 1.0e18 * UnitFactor("s^3/km^6").value
    ensures UnitFactor("m^3/s^6").Err?
  {
    assert Lower("S^3/CM^6") == "s^3/cm^6";
    assert Lower("s^3/cm^6") == "s^3/cm^6";
    assert Lower("s^3/m^6") == "s^3/m^6";
    assert Lower("s^3/km^6") == "s^3/km^6";
    assert Lower("m^3/s^6") == "m^3/s^6";
  }

  lemma UnitFactorIgnoresCase(units: string)
    ensures UnitFactor(units) == UnitFactor(Lower(units))
  {
    LowerIdempotent(units);
  }

  /** Numpy's in-place broadcast rule for one axis: equal, or a length-one energy axis. */
  predicate Fits(energyLen: nat, dataLen: nat)
  {
    energyLen == dataLen || energyLen == 1
  }

  /** The energy index used for data index `i` along an axis of length `energyLen`. */
  function Broadcast(i: nat, energyLen: nat): nat
  {
    if energyLen == 1 then 0 else i
  }

  /** The energy tiling broadcasts onto `[nt, ne, rest]`. */
  predicate EnergyFits(energy: Energy, nt: nat, ne: nat)
  {
    match energy
    case ByChannel(levels) => Fits(|levels|, ne)
    case ByTimeChannel(channels, table) => Fits(|table|, nt) && Fits(channels, ne)
    case OtherRank(_) => false
  }

  /** The energy level that multiplies cell (t, e, ...). */
  function Level(energy: Energy, t: nat, e: nat, nt: nat, ne: nat): real
    requires EnergyFits(energy, nt, ne) && t < nt && e < ne
    requires energy.ByTimeChannel? ==> forall row :: row in energy.table ==> |row| == energy.channels
  {
    match energy
    case ByChannel(levels) => levels[Broadcast(e, |levels|)]
    case ByTimeChannel(channels, table) =>
      var row := table[Broadcast(t, |table|)];
      row[Broadcast(e, channels)]
  }

  /** A two-axis input is padded with two length-one axes before reshaping. */
  function Padded(shape: seq<nat>): seq<nat>
  {
    if |shape| == 2 then shape + [1, 1] else shape
  }

  /** `np.squeeze`: drop every length-one axis. */
  function Squeeze(shape: seq<nat>): (r: seq<nat>)
    ensures |r| <= |shape|
    ensures forall d :: d in r ==> d in shape && d != 1
  {
    if |shape| == 0 then []
    else (if shape[0] == 1 then [] else [shape[0]]) + Squeeze(shape[1..])
  }

  lemma {:induction false} SqueezeKeepsIff(shape: seq<nat>)
    ensures Squeeze(shape) == shape <==> forall k :: 0 <= k < |shape| ==> shape[k] != 1
  {
    if |shape| > 0 {
      SqueezeKeepsIff(shape[1..]);
      if shape[0] == 1 {
        assert |Squeeze(shape)| < |shape|;
      } else {
        assert forall k :: 1 <= k < |shape| ==> shape[k] == shape[1..][k - 1];
      }
    }
  }

  /**
   * Squeezing the padded result gives back the input's shape exactly when
   * no axis of the input has length one.
   */
  lemma SqueezedShapeIff(shape: seq<nat>)
    requires |shape| >= 2
    ensures Squeeze(Padded(shape)) == shape <==> forall k :: 0 <= k < |shape| ==> shape[k] != 1
  {
    if |shape| == 2 {
      SqueezeTail(shape);
    }
    SqueezeKeepsIff(shape);
  }

  lemma SqueezeTail(shape: seq<nat>)
    requires |shape| == 2
    ensures Squeeze(shape + [1, 1]) == Squeeze(shape)
  {
    var p := shape + [1, 1];
    assert p[1..] == [shape[1], 1, 1];
    assert p[1..][1..] == [1, 1];
    assert [1, 1][1..] == [1];
    assert [1][1..] == [];
    assert shape[1..] == [shape[1]];
    assert shape[1..][1..] == [];
  }

  /** Number of cells per (time, channel) pair: the product of the trailing axes. */
  function Rest(shape: seq<nat>): nat
    requires |shape| >= 2
  {
    Product(shape[2..])
  }

  lemma CellCount(shape: seq<nat>)
    requires |shape| >= 2
    ensures Product(shape) == shape[0] * (shape[1] * Rest(shape))
  {
    assert shape[1..][1..] == shape[2..];
  }

  /** The time index of flat position `i` in a `[nt, ne, rest]` buffer. */
  function TimeOf(i: nat, ne: nat, rest: nat): nat
    requires ne * rest > 0
  {
    i / (ne * rest)
  }

  /** The channel index of flat position `i` in a `[nt, ne, rest]` buffer. */
  function ChannelOf(i: nat, ne: nat, rest: nat): nat
    requires ne > 0 && rest > 0
  {
    (i / rest) % ne
  }

  /** The flat position of cell (t, e, k). */
  function Cell(t: nat, e: nat, k: nat, ne: nat, rest: nat): nat
  {
    (t * ne + e) * rest + k
  }

  function Sq(x: real): real { x * x }

  /** The squared energy level that multiplies flat position `i`. */
  function Weight(energy: Energy, i: nat, nt: nat, ne: nat, rest: nat): real
    requires EnergyFits(energy, nt, ne) && ne > 0 && rest > 0 && i < nt * (ne * rest)
    requires energy.ByTimeChannel? ==> forall row :: row in energy.table ==> |row| == energy.channels
  {
    FlatInRange(i, nt, ne, rest);
    Sq(Level(energy, TimeOf(i, ne, rest), ChannelOf(i, ne, rest), nt, ne))
  }

  lemma FlatInRange(i: nat, nt: nat, ne: nat, rest: nat)
    requires ne > 0 && rest > 0 && i < nt * (ne * rest)
    ensures TimeOf(i, ne, rest) < nt && ChannelOf(i, ne, rest) < ne
  {
    var q := i / (ne * rest);
    if q >= nt {
      assert q * (ne * rest) >= nt * (ne * rest);
    }
  }

  lemma DivUnique(c: int, d: int, q: int, r: int)
    requires d > 0 && 0 <= r < d && c == q * d + r
    ensures c / d == q && c % d == r
  {
    var q' := c / d;
    var r' := c % d;
    assert (q - q') * d == r' - r;
    if q > q' {
      AtLeastOnce(q - q', d);
    } else if q < q' {
      AtLeastOnce(q' - q, d);
    }
  }

  lemma AtLeastOnce(x: int, d: int)
    requires x >= 1 && d > 0
    ensures x * d >= d
  {
    assert x * d == (x - 1) * d + d;
  }

  lemma BelowProduct(e: nat, k: nat, ne: nat, rest: nat)
    requires e < ne && k < rest
    ensures e * rest + k < ne * rest
  {
    assert e * rest <= (ne - 1) * rest;
  }

  /** Cell (t, e, k) sits at a flat position whose time and channel are t and e. */
  lemma CellCoordinates(t: nat, e: nat, k: nat, nt: nat, ne: nat, rest: nat)
    requires t < nt && e < ne && k < rest
    ensures Cell(t, e, k, ne, rest) < nt * (ne * rest)
    ensures TimeOf(Cell(t, e, k, ne, rest), ne, rest) == t
    ensures ChannelOf(Cell(t, e, k, ne, rest), ne, rest) == e
  {
    var c := Cell(t, e, k, ne, rest);
    BelowProduct(e, k, ne, rest);
    CellSplit(t, e, k, ne, rest);
    DivUnique(c, ne * rest, t, e * rest + k);
    DivUnique(c, rest, t * ne + e, k);
    DivUnique(t * ne + e, ne, t, e);
    AtMostTimes(t + 1, nt, ne * rest);
  }

  lemma CellSplit(t: nat, e: nat, k: nat, ne: nat, rest: nat)
    ensures Cell(t, e, k, ne, rest) == t * (ne * rest) + (e * rest + k)
  {
    assert (t * ne + e) * rest == t * ne * rest + e * rest;
  }

  lemma AtMostTimes(x: nat, y: nat, d: nat)
    requires x <= y
    ensures x * d <= y * d
  {
    assert y * d == x * d + (y - x) * d;
  }

  /** The first error the conversion meets, in the order the source raises them. */
  function Failure(v: Vdf): Option<ConvError>
  {
    if MassRatio(v.species).Err? then Some(InvalidSpecie)
    else if UnitFactor(v.units).Err? then Some(InvalidUnit)
    else if |v.shape| < 2 then Some(TooFewAxes)
    else if v.energy.OtherRank? then Some(InvalidEnergyShape)
    else if !EnergyFits(v.energy, v.shape[0], v.shape[1]) then Some(EnergyMismatch)
    else if Squeeze(Padded(v.shape)) != v.shape then Some(ShapeChanged)
    else None
  }

  /**
   * Scale the flat buffer in place by the squared energy level of each
   * cell (`data_r *= energy_mat ** 2`).
   */
  method ScaleByEnergy(buf: array<real>, energy: Energy, nt: nat, ne: nat, rest: nat)
    requires buf.Length == nt * (ne * rest) && ne > 0 && rest > 0
    requires EnergyFits(energy, nt, ne)
    requires energy.ByTimeChannel? ==> forall row :: row in energy.table ==> |row| == energy.channels
    modifies buf
    ensures forall i :: 0 <= i < buf.Length ==> buf[i] == old(buf[i]) * Weight(energy, i, nt, ne, rest)
  {
    for i := 0 to buf.Length
      invariant forall j :: 0 <= j < i ==> buf[j] == old(buf[j]) * Weight(energy, j, nt, ne, rest)
      invariant forall j :: i <= j < buf.Length ==> buf[j] == old(buf[j])
    {
      buf[i] := buf[i] * Weight(energy, i, nt, ne, rest);
    }
  }

  /**
   * `out` is `data` with every cell (t, e, k) of a `[nt, ne, rest]` layout
   * multiplied by `scale` and by the square of its energy level.
   */
  ghost predicate EnergyWeighted(data: seq<real>, out: seq<real>, scale: real, energy: Energy, nt: nat, ne: nat, rest: nat)
    requires |data| == nt * (ne * rest) && EnergyFits(energy, nt, ne)
    requires energy.ByTimeChannel? ==> forall row :: row in energy.table ==> |row| == energy.channels
  {
    |out| == |data| &&
    forall t, e, k :: 0 <= t < nt && 0 <= e < ne && 0 <= k < rest ==>
      Cell(t, e, k, ne, rest) < |data| &&
      out[Cell(t, e, k, ne, rest)] == data[Cell(t, e, k, ne, rest)] * scale * Sq(Level(energy, t, e, nt, ne))
  }

  /**
   * `_convert` followed by the energy weighting: a fresh buffer holding the
   * data times the scale, then scaled in place cell by cell.
   */
  method ScaledData(data: seq<real>, scale: real, energy: Energy, nt: nat, ne: nat, rest: nat)
    returns (out: seq<real>)
    requires |data| == nt * (ne * rest) && EnergyFits(energy, nt, ne)
    requires energy.ByTimeChannel? ==> forall row :: row in energy.table ==> |row| == energy.channels
    ensures EnergyWeighted(data, out, scale, energy, nt, ne, rest)
  {
    out := data;
    if ne > 0 && rest > 0 {
      var buf := new real[|data|](i requires 0 <= i < |data| => data[i] * scale);
      ScaleByEnergy(buf, energy, nt, ne, rest);
      out := buf[..];
      WeightedCells(data, out, scale, energy, nt, ne, rest);
    }
  }

  /** Weighting every flat position weights every cell of the layout. */
  lemma WeightedCells(data: seq<real>, out: seq<real>, scale: real, energy: Energy, nt: nat, ne: nat, rest: nat)
    requires |data| == nt * (ne * rest) && |out| == |data| && ne > 0 && rest > 0
    requires EnergyFits(energy, nt, ne)
    requires energy.ByTimeChannel? ==> forall row :: row in energy.table ==> |row| == energy.channels
    requires forall i :: 0 <= i < |out| ==> out[i] == data[i] * scale * Weight(energy, i, nt, ne, rest)
    ensures EnergyWeighted(data, out, scale, energy, nt, ne, rest)
  {
    forall t, e, k | 0 <= t < nt && 0 <= e < ne && 0 <= k < rest
      ensures Cell(t, e, k, ne, rest) < |data|
      ensures out[Cell(t, e, k, ne, rest)] == data[Cell(t, e, k, ne, rest)] * scale * Sq(Level(energy, t, e, nt, ne))
    {
      CellCoordinates(t, e, k, nt, ne, rest);
      WeightedAt(data, out, scale, energy, nt, ne, rest, Cell(t, e, k, ne, rest), t, e);
    }
  }

  /** A flat position whose time and channel are t and e is weighted by level (t, e). */
  lemma WeightedAt(data: seq<real>, out: seq<real>, scale: real, energy: Energy, nt: nat, ne: nat, rest: nat,
                   c: nat, t: nat, e: nat)
    requires |data| == nt * (ne * rest) && |out| == |data| && ne > 0 && rest > 0
    requires EnergyFits(energy, nt, ne)
    requires energy.ByTimeChannel? ==> forall row :: row in energy.table ==> |row| == energy.channels
    requires forall i :: 0 <= i < |out| ==> out[i] == data[i] * scale * Weight(energy, i, nt, ne, rest)
    requires c < |out| && TimeOf(c, ne, rest) == t && ChannelOf(c, ne, rest) == e && t < nt && e < ne
    ensures out[c] == data[c] * scale * Sq(Level(energy, t, e, nt, ne))
  {
    assert out[c] == data[c] * scale * Weight(energy, c, nt, ne, rest);
  }

  /**
   * The whole conversion. On success the result is a copy of the input with
   * the units attribute replaced, the same shape, species and energy, and
   * each cell (t, e, k) equal to the input's cell times the conversion
   * scale times the square of its energy level; otherwise the error is the
   * first one the source raises.
   */
  method Convert(v: Vdf) returns (r: Result<Vdf, ConvError>)
    requires WellFormed(v)
    ensures r.Err? <==> Failure(v).Some?
    ensures r.Err? ==> r.error == Failure(v).value
    ensures r.Ok? ==>
      var mr := MassRatio(v.species).value;
      var scale := Scale(v.units, mr).value;
      var nt, ne, rest := v.shape[0], v.shape[1], Rest(v.shape);
      r.value.units == OutputUnits && r.value.species == v.species &&
      r.value.shape == v.shape && r.value.energy == v.energy &&
      EnergyFits(v.energy, nt, ne) && |v.data| == nt * (ne * rest) &&
      EnergyWeighted(v.data, r.value.data, scale, v.energy, nt, ne, rest)
  {
    var mr := MassRatio(v.species);
    if mr.Err? { return Err(mr.error); }
    var scale := Scale(v.units, mr.value);
    if scale.Err? { return Err(scale.error); }
    if |v.shape| < 2 { return Err(TooFewAxes); }
    if v.energy.OtherRank? { return Err(InvalidEnergyShape); }
    var nt, ne, rest := v.shape[0], v.shape[1], Rest(v.shape);
    if !EnergyFits(v.energy, nt, ne) { return Err(EnergyMismatch); }
    CellCount(v.shape);
    var data := ScaledData(v.data, scale.value, v.energy, nt, ne, rest);
    if Squeeze(Padded(v.shape)) != v.shape { return Err(ShapeChanged); }
    return Ok(v.(units := OutputUnits, data := data));
  }
}
