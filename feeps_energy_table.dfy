/**
 * `get_feeps_energy_table`: the calibrated energy-bin centres (keV) of one
 * FEEPS sensor, a 16-entry base table plus a per-(spacecraft, eye, sensor)
 * flat-field offset. A dead sensor has a NaN offset, which makes every entry
 * NaN. The function is pure; its defaults are `mms_id="1"`, `eye="top"`,
 * `sensor_id=1` (see `DefaultEnergyTable`).
 */
module FeepsEnergyTable {
  import opened Wrappers
  import opened NanStats

  /** The two ways the dictionary and list lookups of the source can fail. */
  datatype TableError =
    | KeyError(key: string)   // no row "mms{id}-{eye}" in the offset table
    | IndexError(index: int)  // `sensor_id - 1` outside the 12 offsets of the row

  /** Flat-field offsets (keV) of sensors 1..12, keyed by "mms{id}-{eye}"; None is NaN. */
  const Offsets: map<string, seq<Sample>> := map[
    "mms1-top" := [Some(14.0), Some(7.0), Some(16.0), Some(14.0), Some(14.0), Some(0.0),
                   Some(0.0), Some(0.0), Some(14.0), Some(14.0), Some(17.0), Some(15.0)],
    "mms1-bot" := [None, Some(14.0), Some(14.0), Some(13.0), Some(14.0), Some(0.0),
                   Some(0.0), Some(0.0), Some(14.0), Some(14.0), Some(-25.0), Some(14.0)],
    "mms2-top" := [Some(-1.0), Some(6.0), Some(-2.0), Some(-1.0), None, Some(0.0),
                   None, Some(0.0), Some(4.0), Some(-1.0), Some(-1.0), Some(0.0)],
    "mms2-bot" := [Some(-2.0), Some(-1.0), Some(-2.0), Some(0.0), Some(-2.0), Some(15.0),
                   None, Some(15.0), Some(-1.0), Some(-2.0), Some(-1.0), Some(-3.0)],
    "mms3-top" := [Some(-3.0), None, Some(2.0), Some(-1.0), Some(-5.0), Some(0.0),
                   Some(0.0), Some(0.0), Some(-3.0), Some(-1.0), Some(-3.0), None],
    "mms3-bot" := [Some(-7.0), None, Some(-5.0), Some(-6.0), None, Some(0.0),
                   Some(0.0), Some(12.0), Some(0.0), Some(-2.0), Some(-3.0), Some(-3.0)],
    "mms4-top" := [None, None, Some(-2.0), Some(-5.0), Some(-5.0), Some(0.0),
                   None, Some(0.0), Some(-1.0), Some(-3.0), Some(-6.0), Some(-6.0)],
    "mms4-bot" := [Some(-8.0), None, Some(-2.0), None, None, Some(-8.0),
                   Some(0.0), Some(0.0), Some(-2.0), None, None, Some(-4.0)]
  ]

  /** Base table of the ion sensors 6..8. */
  const IonBase: seq<real> := [
    57.9, 76.8, 95.4, 114.1, 133.0, 153.7, 177.6, 205.1,
    236.7, 273.2, 315.4, 363.8, 419.7, 484.2, 558.6, 609.9]

  /** Base table of every other sensor id (the electron sensors). */
  const ElectronBase: seq<real> := [
    33.2, 51.9, 70.6, 89.4, 107.1, 125.2, 146.5, 171.3,
    200.2, 234.0, 273.4, 319.4, 373.2, 436.0, 509.2, 575.8]

  /** The base table a sensor id selects: ions for 6..8, electrons otherwise. */
  function BaseTable(sensorId: int): (b: seq<real>)
    ensures |b| == 16
    ensures b[0] == (if 6 <= sensorId <= 8 then 57.9 else 33.2)
    ensures forall i :: 0 <= i < 15 ==> b[i] < b[i + 1]
  {
    if 6 <= sensorId <= 8 then IonBase else ElectronBase
  }

  /** Python's `xs[i]` on a list: a negative index counts from the end. */
  function PyIndex<T>(xs: seq<T>, i: int): (r: Option<T>)
    ensures r.Some? <==> -|xs| <= i < |xs|
    ensures 0 <= i < |xs| ==> r == Some(xs[i])
    ensures -|xs| <= i < 0 ==> r == Some(xs[|xs| + i])
  {
    if 0 <= i < |xs| then Some(xs[i])
    else if -|xs| <= i < 0 then Some(xs[|xs| + i])
    else None
  }

  /** `energy + offset` on floats: a NaN offset gives NaN. */
  function Shift(energy: real, offset: Sample): Sample
  {
    match offset
    case None => None
    case Some(o) => Some(energy + o)
  }

  /** The row key `f"mms{mms_id}-{eye}"`. */
  function RowKey(mmsId: string, eye: string): string
  {
    "mms" + mmsId + "-" + eye
  }

  /** `get_feeps_energy_table(mms_id, eye, sensor_id)`. */
  function EnergyTable(mmsId: string, eye: string, sensorId: int): (r: Result<seq<Sample>, TableError>)
    ensures r.Ok? ==> |r.value| == 16
    ensures r.Err? ==> (r.error.KeyError? <==> RowKey(mmsId, eye) !in Offsets)
  {
    var key := RowKey(mmsId, eye);
    if key !in Offsets then Err(KeyError(key))
    else
      match PyIndex(Offsets[key], sensorId - 1)
      case None => Err(IndexError(sensorId - 1))
      case Some(offset) =>
        var base := BaseTable(sensorId);
        Ok(seq(16, i requires 0 <= i < 16 => Shift(base[i], offset)))
  }

  /** The call with every argument left at its default. */
  function DefaultEnergyTable(): (r: Result<seq<Sample>, TableError>)
    ensures r.Ok? && |r.value| == 16 && r.value[0] == Some(47.2) && r.value[15] == Some(589.8)
  {
    assert RowKey("1", "top") == "mms1-top";
    EnergyTable("1", "top", 1)
  }

  /** Every row of the offset table holds one offset per sensor 1..12. */
  lemma RowsHoldTwelveOffsets()
    ensures forall k :: k in Offsets ==> |Offsets[k]| == 12
  {
  }

  /** Only spacecraft "1".."4" and the eyes "top" and "bot" name a row. */
  lemma RowKeyParts(mmsId: string, eye: string)
    requires RowKey(mmsId, eye) in Offsets
    ensures mmsId == "1" || mmsId == "2" || mmsId == "3" || mmsId == "4"
    ensures eye == "top" || eye == "bot"
  {
    var k := RowKey(mmsId, eye);
    assert k[3 + |mmsId|] == '-';
    assert |k| == 8 && k[4] == '-';
    assert forall j :: 0 <= j < 8 && j != 4 ==> k[j] != '-';
    assert |mmsId| == 1;
    assert mmsId == k[3..4];
    assert eye == k[5..];
  }

  /** The lookup succeeds exactly for a known row and `-11 <= sensor_id <= 12`. */
  lemma EnergyTableOkIff(mmsId: string, eye: string, sensorId: int)
    ensures EnergyTable(mmsId, eye, sensorId).Ok? <==>
              (mmsId == "1" || mmsId == "2" || mmsId == "3" || mmsId == "4") &&
              (eye == "top" || eye == "bot") && -11 <= sensorId <= 12
  {
    if RowKey(mmsId, eye) in Offsets {
      RowKeyParts(mmsId, eye);
    }
    if (mmsId == "1" || mmsId == "2" || mmsId == "3" || mmsId == "4") && (eye == "top" || eye == "bot") {
      KnownRowKeys(mmsId, eye);
    }
  }

  /** Every spacecraft "1".."4" has a "top" and a "bot" row. */
  lemma KnownRowKeys(mmsId: string, eye: string)
    requires mmsId == "1" || mmsId == "2" || mmsId == "3" || mmsId == "4"
    requires eye == "top" || eye == "bot"
    ensures RowKey(mmsId, eye) in Offsets
  {
    if eye == "top" {
      if mmsId == "1" { assert RowKey(mmsId, eye) == "mms1-top"; }
      else if mmsId == "2" { assert RowKey(mmsId, eye) == "mms2-top"; }
      else if mmsId == "3" { assert RowKey(mmsId, eye) == "mms3-top"; }
      else { assert RowKey(mmsId, eye) == "mms4-top"; }
    } else {
      if mmsId == "1" { assert RowKey(mmsId, eye) == "mms1-bot"; }
      else if mmsId == "2" { assert RowKey(mmsId, eye) == "mms2-bot"; }
      else if mmsId == "3" { assert RowKey(mmsId, eye) == "mms3-bot"; }
      else { assert RowKey(mmsId, eye) == "mms4-bot"; }
    }
  }

  /**
   * One offset is added to the whole base table: consecutive differences are
   * those of the base table, and a finite offset keeps the table strictly
   * increasing; a NaN offset makes every entry NaN.
   */
  lemma UniformOffset(mmsId: string, eye: string, sensorId: int)
    requires EnergyTable(mmsId, eye, sensorId).Ok?
    ensures var out := EnergyTable(mmsId, eye, sensorId).value;
            (forall i :: 0 <= i < 16 ==> out[i].None?) ||
            ((forall i :: 0 <= i < 16 ==> out[i].Some?) &&
             (forall i :: 0 <= i < 15 ==>
                out[i + 1].value - out[i].value == BaseTable(sensorId)[i + 1] - BaseTable(sensorId)[i] &&
                out[i].value < out[i + 1].value))
  {
  }

  /** The first entry is the first base energy plus the sensor's offset: 57.9 keV for sensors 6-8, 33.2 keV otherwise. */
  lemma FirstEntry(mmsId: string, eye: string, sensorId: int)
    requires EnergyTable(mmsId, eye, sensorId).Ok?
    ensures var out := EnergyTable(mmsId, eye, sensorId).value;
            var off := PyIndex(Offsets[RowKey(mmsId, eye)], sensorId - 1).value;
            out[0] == Shift(if 6 <= sensorId <= 8 then 57.9 else 33.2, off)
  {
  }

  /** Sensor 1 of the bottom eye of MMS1 is dead: every entry is NaN. */
  lemma DeadSensorExample()
    ensures EnergyTable("1", "bot", 1) == Ok(seq(16, i => None))
  {
    assert RowKey("1", "bot") == "mms1-bot";
    var out := EnergyTable("1", "bot", 1).value;
    assert forall i :: 0 <= i < 16 ==> out[i] == None;
    assert out == seq(16, i => None);
  }

  /** Sensor ids above 12 are out of range of every row. */
  lemma SensorIdOutOfRange(mmsId: string, eye: string, sensorId: int)
    requires RowKey(mmsId, eye) in Offsets && (sensorId > 12 || sensorId < -11)
    ensures EnergyTable(mmsId, eye, sensorId) == Err(IndexError(sensorId - 1))
  {
  }

  /** Python's negative indexing makes sensor id 0 read the offset of sensor 12. */
  lemma SensorZeroReadsSensorTwelve(mmsId: string, eye: string)
    ensures EnergyTable(mmsId, eye, 0) == EnergyTable(mmsId, eye, 12)
  {
  }
}
