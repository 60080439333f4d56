/**
 * `calc_feeps_pad` as the source runs it: preallocated `[time x sensor]`
 * buffers `dflux` and `dpa` filled column by column from each active sensor,
 * zeros replaced by NaN in place (in the caller's sensor arrays, in `dpa` and
 * in `pa_flux`), then a `[time x bin]` buffer filled by the time x bin loop.
 * The pitch-angle matrix, the active-eye lists and the column map are
 * parameters (they come from collaborators outside this model).
 */
module FeepsPad {
  import opened Wrappers
  import opened NanStats
  import opened FeepsPadRules

  /** Mounting group of a sensor eye. */
  datatype Mount = Top | Bottom

  /** Telemetry mode (`tmmode`); any other value selects no column map. */
  datatype Mode = Srvy | Brst | OtherMode

  /** `pa_data_map`: the `[time x sensor]` column of the i-th active eye of each group. */
  datatype ColumnMap = ColumnMap(top: seq<nat>, bottom: seq<nat>)
  {
    function Of(m: Mount): seq<nat>
    {
      match m
      case Top => top
      case Bottom => bottom
    }

    /** Width of `dflux` and `dpa`: `len(top map) + len(bottom map)`. */
    function Width(): nat
    {
      |top| + |bottom|
    }
  }

  /** The fixed burst-mode layout: electrons top 0..8, bottom 9..17; ions top 0..2, bottom 3..5. */
  function BrstColumns(species: Species): ColumnMap
  {
    match species
    case Electron => ColumnMap([0, 1, 2, 3, 4, 5, 6, 7, 8], [9, 10, 11, 12, 13, 14, 15, 16, 17])
    case Ion => ColumnMap([0, 1, 2], [3, 4, 5])
  }

  /**
   * In burst mode the top group fills the first columns and the bottom group
   * the rest, each column exactly once: 18 columns for electrons, 6 for ions.
   */
  lemma BrstLayout(species: Species)
    ensures var c := BrstColumns(species);
            c.Width() == (if species == Electron then 18 else 6) &&
            |c.top| == |c.bottom| &&
            (forall i :: 0 <= i < |c.top| ==> c.top[i] == i) &&
            (forall i :: 0 <= i < |c.bottom| ==> c.bottom[i] == |c.top| + i)
  {
  }

  function SpeciesName(species: Species): string
  {
    match species
    case Electron => "electron"
    case Ion => "ion"
  }

  /**
   * The column map as the code is written: the survey branch reads a table
   * `idx_maps` that is never defined, so it always fails; a mode other than
   * the two leaves `pa_data_map` empty and its lookup fails.
   */
  function PadColumnsAsWritten(mode: Mode, species: Species): (r: Result<ColumnMap, PadError>)
    ensures r.Ok? <==> mode == Brst
  {
    match mode
    case Brst => Ok(BrstColumns(species))
    case Srvy => Err(SurveyMapUndefined)
    case OtherMode => Err(NoColumnMap)
  }

  /** Survey mode never yields a distribution as written, whatever the species. */
  lemma SurveyModeAlwaysFails(species: Species)
    ensures PadColumnsAsWritten(Srvy, species) == Err(SurveyMapUndefined)
  {
  }

  /**
   * The column map with the survey table supplied: `"{species}-top"` and
   * `"{species}-bottom"` entries of `idxMaps` (the written code reads the
   * electron top entry for ions, too).
   */
  function PadColumns(mode: Mode, species: Species, idxMaps: map<string, seq<nat>>): (r: Result<ColumnMap, PadError>)
  {
    var top, bottom := SpeciesName(species) + "-top", SpeciesName(species) + "-bottom";
    match mode
    case Brst => Ok(BrstColumns(species))
    case Srvy =>
      if top in idxMaps && bottom in idxMaps then Ok(ColumnMap(idxMaps[top], idxMaps[bottom]))
      else Err(NoColumnMap)
    case OtherMode => Err(NoColumnMap)
  }

  /**
   * The corrected map agrees with the written one wherever that one works,
   * and in survey mode takes each group's columns from the table entry of
   * the requested species.
   */
  lemma PadColumnsCorrected(mode: Mode, species: Species, idxMaps: map<string, seq<nat>>)
    ensures PadColumnsAsWritten(mode, species).Ok? ==> PadColumns(mode, species, idxMaps) == PadColumnsAsWritten(mode, species)
    ensures mode == Srvy && SpeciesName(species) + "-top" in idxMaps && SpeciesName(species) + "-bottom" in idxMaps ==>
              PadColumns(mode, species, idxMaps) ==
              Ok(ColumnMap(idxMaps[SpeciesName(species) + "-top"], idxMaps[SpeciesName(species) + "-bottom"]))
    ensures mode == OtherMode ==> PadColumns(mode, species, idxMaps) == Err(NoColumnMap)
  {
  }

  /** `eyes`: active sensor ids of each group (from the active-eye collaborator). */
  datatype ActiveEyes = ActiveEyes(top: seq<int>, bottom: seq<int>)
  {
    function Of(m: Mount): seq<int>
    {
      match m
      case Top => top
      case Bottom => bottom
    }
  }

  /** The dataset variable `"{top|bottom}-{id}"`. */
  type Key = (Mount, int)

  /** One sensor variable: flux `[time x channel]` and its channel energies. */
  datatype SensorData = SensorData(flux: array2<Sample>, energies: seq<Sample>)

  type Dataset = map<Key, SensorData>

  /** Why the routine produces no distribution. */
  datatype PadError =
    | EnergyTooLow        // `energy[0] < 32`: message printed and None returned
    | ZeroBinSize         // `180/bin_size` with `bin_size == 0`
    | SurveyMapUndefined  // the survey branch names a table that does not exist
    | NoColumnMap         // no column map for the mode (or the species) requested
    | NoBins              // fewer than one bin: the `pa_flux` allocation or `pa_bins[1]` fails

  /** The pitch-angle distribution: `[time x bin]` flux and the bin labels. */
  datatype Pad = Pad(flux: array2<Sample>, labels: seq<real>)

  /** A time row of a 2-D buffer. */
  function Row(a: array2<Sample>, t: nat): (r: seq<Sample>)
    requires t < a.Length0
    reads a
    ensures |r| == a.Length1
  {
    seq(a.Length1, c requires 0 <= c < a.Length1 reads a => a[t, c])
  }

  // ---------------------------------------------------------------------
  // Specification of the sensor loop (lines 64-83)
  // ---------------------------------------------------------------------

  /** One column assignment of the sensor loop: column, and the variable it comes from. */
  datatype Write = Write(column: nat, key: Key)

  /** The variables the sensor loop reads, one per active eye. */
  function ActiveKeys(eyes: ActiveEyes): set<Key>
  {
    (set i | 0 <= i < |eyes.top| :: (Top, eyes.top[i])) + (set i | 0 <= i < |eyes.bottom| :: (Bottom, eyes.bottom[i]))
  }

  /** Their flux arrays (the ones zero->NaN rewrites). */
  function ActiveArrays(eyes: ActiveEyes, dset: Dataset): set<array2<Sample>>
  {
    set k | k in ActiveKeys(eyes) && k in dset :: dset[k].flux
  }

  /**
   * The order in which the two nested loops (over "top" then "bottom", and
   * over each group's active eyes) visit the sensors, each with the column
   * `pa_map[isen]` it owns.
   */
  function SensorOrder(eyes: ActiveEyes, cmap: ColumnMap): (es: seq<Write>)
    requires |eyes.top| <= |cmap.top| && |eyes.bottom| <= |cmap.bottom|
    ensures |es| == |eyes.top| + |eyes.bottom|
    ensures forall i :: 0 <= i < |es| ==> es[i].key in ActiveKeys(eyes)
    ensures forall k :: k in ActiveKeys(eyes) ==> exists i :: 0 <= i < |es| && es[i].key == k
    ensures forall i :: 0 <= i < |eyes.top| ==> es[i] == Write(cmap.top[i], (Top, eyes.top[i]))
    ensures forall i :: 0 <= i < |eyes.bottom| ==>
              es[|eyes.top| + i] == Write(cmap.bottom[i], (Bottom, eyes.bottom[i]))
  {
    var top := seq(|eyes.top|, i requires 0 <= i < |eyes.top| => Write(cmap.top[i], (Top, eyes.top[i])));
    var bottom := seq(|eyes.bottom|, i requires 0 <= i < |eyes.bottom| => Write(cmap.bottom[i], (Bottom, eyes.bottom[i])));
    var es := top + bottom;
    assert forall k :: k in ActiveKeys(eyes) ==> exists i :: 0 <= i < |es| && es[i].key == k by {
      forall k | k in ActiveKeys(eyes) ensures exists i :: 0 <= i < |es| && es[i].key == k {
        if k.0 == Top {
          var i :| 0 <= i < |eyes.top| && k == (Top, eyes.top[i]);
          assert es[i].key == k;
        } else {
          var i :| 0 <= i < |eyes.bottom| && k == (Bottom, eyes.bottom[i]);
          assert es[|eyes.top| + i].key == k;
        }
      }
    }
    es
  }

  /** Line 73: a sensor whose first energy is NaN writes nothing. */
  predicate Skipped(s: SensorData)
    requires |s.energies| > 0
  {
    s.energies[0].None?
  }

  /** The column writes the visits `es` make: every visit except those of skipped sensors. */
  function Writes(es: seq<Write>, dset: Dataset): (ws: seq<Write>)
    requires forall i :: 0 <= i < |es| ==> es[i].key in dset && |dset[es[i].key].energies| > 0
    ensures forall w :: w in ws ==> w in es && !Skipped(dset[w.key])
  {
    if |es| == 0 then []
    else
      var n := |es| - 1;
      var front := Writes(es[..n], dset);
      assert forall w :: w in es[..n] ==> w in es;
      if Skipped(dset[es[n].key]) then front else front + [es[n]]
  }

  /** All writes of the sensor loop. */
  function AllWrites(eyes: ActiveEyes, cmap: ColumnMap, dset: Dataset): seq<Write>
    requires |eyes.top| <= |cmap.top| && |eyes.bottom| <= |cmap.bottom|
    requires ChannelsMatch(ActiveKeys(eyes), dset)
  {
    Writes(SensorOrder(eyes, cmap), dset)
  }

  /** The variable whose write to column `c` comes last, if any. */
  function LastWriter(ws: seq<Write>, c: nat): (k: Option<Key>)
    ensures k.Some? ==> exists w :: w in ws && w.column == c && w.key == k.value
    ensures k.None? ==> forall w :: w in ws ==> w.column != c
  {
    if |ws| == 0 then None
    else if ws[|ws| - 1].column == c then Some(ws[|ws| - 1].key)
    else
      var k := LastWriter(ws[..|ws| - 1], c);
      assert forall w :: w in ws[..|ws| - 1] ==> w in ws;
      assert forall w :: w in ws ==> w in ws[..|ws| - 1] || w == ws[|ws| - 1];
      k
  }

  /**
   * A column holds the data of the last sensor mapped to it: the writer
   * `LastWriter` names made a write to that column, and no later write did.
   */
  lemma {:induction false} LastWriterIsLast(ws: seq<Write>, c: nat)
    ensures LastWriter(ws, c).Some? <==> exists i :: 0 <= i < |ws| && ws[i].column == c
    ensures LastWriter(ws, c).Some? ==>
              exists i :: 0 <= i < |ws| && ws[i] == Write(c, LastWriter(ws, c).value) &&
                          forall j :: i < j < |ws| ==> ws[j].column != c
    decreases |ws|
  {
    if |ws| == 0 {
    } else if ws[|ws| - 1].column == c {
      assert ws[|ws| - 1] == Write(c, LastWriter(ws, c).value);
    } else {
      var front := ws[..|ws| - 1];
      LastWriterIsLast(front, c);
      assert LastWriter(ws, c) == LastWriter(front, c);
      if i :| 0 <= i < |ws| && ws[i].column == c {
        assert i < |front| && front[i].column == c;
      }
      if LastWriter(front, c).Some? {
        var i :| 0 <= i < |front| && front[i] == Write(c, LastWriter(front, c).value) &&
                 forall j :: i < j < |front| ==> front[j].column != c;
        forall j | i < j < |ws| ensures ws[j].column != c {
          if j < |front| {
            assert ws[j] == front[j];
          }
        }
        assert ws[i] == front[i];
      }
    }
  }

  /** `np.nanmean(data[t, indx])` of a sensor, with its zeros read as NaN. */
  function SensorMean(s: SensorData, t: nat, lo: real, hi: real): Sample
    requires t < s.flux.Length0 && s.flux.Length1 == |s.energies|
    reads s.flux
  {
    WindowMean(ZerosToNaN(Row(s.flux, t)), s.energies, lo, hi)
  }

  /** The column a sensor contributes to `dflux`, one value per time. */
  function SensorMeans(s: SensorData, lo: real, hi: real): (r: seq<Sample>)
    requires s.flux.Length1 == |s.energies|
    reads s.flux
    ensures |r| == s.flux.Length0
  {
    seq(s.flux.Length0, t requires 0 <= t < s.flux.Length0 reads s.flux => SensorMean(s, t, lo, hi))
  }

  /** Each variable read exists and has one energy per flux channel, at least one. */
  predicate ChannelsMatch(keys: set<Key>, dset: Dataset)
  {
    forall k :: k in keys ==> k in dset && dset[k].flux.Length1 == |dset[k].energies| > 0
  }

  /** The window means of every active sensor, at the call's start. */
  function ActiveMeans(eyes: ActiveEyes, dset: Dataset, lo: real, hi: real): (means: map<Key, seq<Sample>>)
    requires ChannelsMatch(ActiveKeys(eyes), dset)
    reads ActiveArrays(eyes, dset)
    ensures means.Keys == ActiveKeys(eyes)
  {
    map k | k in ActiveKeys(eyes) :: SensorMeans(dset[k], lo, hi)
  }

  /** `dflux[t, c]` after the sensor loop: the last writer's mean, or the preallocated 0. */
  function FluxCell(ws: seq<Write>, means: map<Key, seq<Sample>>, c: nat, t: nat): Sample
  {
    match LastWriter(ws, c)
    case None => Some(0.0)
    case Some(k) => if k in means && t < |means[k]| then means[k][t] else None
  }

  /** `dpa[t, c]` after the sensor loop: the pitch angle of a written column, or the preallocated 0. */
  function AngleCell(ws: seq<Write>, paData: array2<Sample>, c: nat, t: nat): Sample
    requires t < paData.Length0
    reads paData
  {
    match LastWriter(ws, c)
    case None => Some(0.0)
    case Some(_) => if c < paData.Length1 then paData[t, c] else None
  }

  /** The row of `dflux` the bin loop sees at time t. */
  function FluxRow(ws: seq<Write>, means: map<Key, seq<Sample>>, width: nat, t: nat): (r: seq<Sample>)
    ensures |r| == width
  {
    seq(width, c requires 0 <= c < width => FluxCell(ws, means, c, t))
  }

  /** The row of `dpa` the bin loop sees at time t, after line 88 turned zeros into NaN. */
  function AngleRow(ws: seq<Write>, paData: array2<Sample>, width: nat, t: nat): (r: seq<Sample>)
    requires t < paData.Length0
    reads paData
    ensures |r| == width
  {
    seq(width, c requires 0 <= c < width reads paData => ZeroToNaN(AngleCell(ws, paData, c, t)))
  }

  /** `dflux` and `dpa` hold what the writes `ws` leave in them. */
  ghost predicate ColumnsHold(dflux: array2<Sample>, dpa: array2<Sample>, paData: array2<Sample>,
                              ws: seq<Write>, means: map<Key, seq<Sample>>)
    requires dflux.Length0 == dpa.Length0 == paData.Length0
    reads dflux, dpa, paData
  {
    forall t, c :: 0 <= t < dflux.Length0 && 0 <= c < dflux.Length1 && c < dpa.Length1 ==>
      dflux[t, c] == FluxCell(ws, means, c, t) && dpa[t, c] == AngleCell(ws, paData, c, t)
  }

  /** The snapshot `means` is still what the current sensor arrays give. */
  ghost predicate MeansAgree(means: map<Key, seq<Sample>>, dset: Dataset, lo: real, hi: real)
    reads set k | k in means && k in dset :: dset[k].flux
  {
    forall k :: k in means ==>
      k in dset && dset[k].flux.Length1 == |dset[k].energies| && SensorMeans(dset[k], lo, hi) == means[k]
  }

  /**
   * A column no sensor wrote keeps the preallocated 0 in `dpa`, which line 88
   * turns into NaN, so it never falls into any bin.
   */
  lemma UnwrittenColumnNeverMatches(ws: seq<Write>, paData: array2<Sample>, width: nat, t: nat, c: nat,
                                    centre: real, delta: real, w: real)
    requires t < paData.Length0 && c < width
    requires forall i :: 0 <= i < |ws| ==> ws[i].column != c
    ensures AngleRow(ws, paData, width, t)[c].None?
    ensures !Overlaps(AngleRow(ws, paData, width, t)[c], centre, delta, w)
  {
    LastWriterIsLast(ws, c);
  }

  // ---------------------------------------------------------------------
  // The buffers
  // ---------------------------------------------------------------------

  /** `a[a == 0] = nan` in place. */
  method NormalizeZeros(a: array2<Sample>)
    modifies a
    ensures forall i, j :: 0 <= i < a.Length0 && 0 <= j < a.Length1 ==> a[i, j] == ZeroToNaN(old(a[i, j]))
  {
    for i := 0 to a.Length0
      invariant forall p, q :: 0 <= p < i && 0 <= q < a.Length1 ==> a[p, q] == ZeroToNaN(old(a[p, q]))
      invariant forall p, q :: i <= p < a.Length0 && 0 <= q < a.Length1 ==> a[p, q] == old(a[p, q])
    {
      for j := 0 to a.Length1
        invariant forall p, q :: 0 <= p < i && 0 <= q < a.Length1 ==> a[p, q] == ZeroToNaN(old(a[p, q]))
        invariant forall q :: 0 <= q < j ==> a[i, q] == ZeroToNaN(old(a[i, q]))
        invariant forall p, q :: i <= p < a.Length0 && 0 <= q < a.Length1 && (p > i || q >= j) ==>
                    a[p, q] == old(a[p, q])
      {
        if a[i, j] == Some(0.0) {
          a[i, j] := None;
        }
      }
    }
  }

  /** A write decides its column; every other column keeps its last writer. */
  lemma LastWriterAppend(ws: seq<Write>, w: Write, c: nat)
    ensures LastWriter(ws + [w], c) == if w.column == c then Some(w.key) else LastWriter(ws, c)
  {
    assert (ws + [w])[..|ws|] == ws;
  }

  /** One more visit adds its write, unless the sensor is skipped. */
  lemma WritesStep(es: seq<Write>, dset: Dataset, i: nat)
    requires i < |es|
    requires forall j :: 0 <= j < |es| ==> es[j].key in dset && |dset[es[j].key].energies| > 0
    ensures Writes(es[..i + 1], dset) ==
            Writes(es[..i], dset) + (if Skipped(dset[es[i].key]) then [] else [es[i]])
  {
    assert es[..i + 1][..i] == es[..i];
  }

  /**
   * What the sensor loop demands of the visits `es`: each variable exists,
   * has one energy per channel and one flux row per time, and owns a column
   * of `dflux`, `dpa` and the pitch-angle matrix.
   */
  predicate VisitsFit(es: seq<Write>, dset: Dataset, nT: nat, width: nat, paWidth: nat)
  {
    forall j :: 0 <= j < |es| ==>
      es[j].key in dset && dset[es[j].key].flux.Length1 == |dset[es[j].key].energies| > 0 &&
      dset[es[j].key].flux.Length0 == nT && es[j].column < width && es[j].column < paWidth
  }

  /** The flux arrays of the visited variables. */
  function VisitedArrays(es: seq<Write>, dset: Dataset): set<array2<Sample>>
  {
    set w | w in es && w.key in dset :: dset[w.key].flux
  }

  /**
   * Line 71 applied to one sensor array: zeros become NaN in place, which
   * leaves every sensor's window means as they were (they already read zeros
   * as NaN), whether or not other variables share the array.
   */
  method NormalizeSensor(a: array2<Sample>, dset: Dataset, lo: real, hi: real, ghost means: map<Key, seq<Sample>>)
    requires MeansAgree(means, dset, lo, hi)
    modifies a
    ensures MeansAgree(means, dset, lo, hi)
    ensures forall p, q :: 0 <= p < a.Length0 && 0 <= q < a.Length1 ==> a[p, q] == ZeroToNaN(old(a[p, q]))
  {
    NormalizeZeros(a);
    forall k | k in means ensures SensorMeans(dset[k], lo, hi) == means[k] {
      if dset[k].flux == a {
        forall t | 0 <= t < a.Length0 ensures ZerosToNaN(Row(a, t)) == old(ZerosToNaN(Row(a, t))) {
        }
      }
    }
  }

  /**
   * `NormalizeSensor` on the buffer of visit i: every visited buffer stays
   * marked against its snapshot, and those of visits up to i are done.
   */
  method MarkSensor(a: array2<Sample>, dset: Dataset, lo: real, hi: real, ghost means: map<Key, seq<Sample>>,
                    ghost arrs: seq<array2<Sample>>, ghost orig: seq<seq<seq<Sample>>>, ghost i: nat)
    requires i < |arrs| == |orig| && arrs[i] == a
    requires forall j :: 0 <= j < |arrs| ==> Marked(arrs[j], orig[j], j < i)
    requires MeansAgree(means, dset, lo, hi)
    modifies a
    ensures MeansAgree(means, dset, lo, hi)
    ensures forall j :: 0 <= j < |arrs| ==> Marked(arrs[j], orig[j], j < i + 1)
  {
    ghost var before := Contents(a);
    forall j | 0 <= j < |arrs| && arrs[j] == a ensures RowsMarked(before, orig[j], j < i) {
      MarkedContents(a, orig[j], j < i);
    }
    NormalizeSensor(a, dset, lo, hi, means);
    forall j | 0 <= j < |arrs| ensures Marked(arrs[j], orig[j], j < i + 1) {
      if arrs[j] == a {
        MarkedAgain(a, before, orig[j], j < i);
      }
    }
  }

  /**
   * The two column assignments of lines 81 and 83: `dflux[:, col]` gets the
   * sensor's window means (its zeros are already NaN), `dpa[:, col]` the
   * pitch angles of that column.
   */
  method CopyColumn(s: SensorData, col: nat, paData: array2<Sample>,
                    dflux: array2<Sample>, dpa: array2<Sample>, lo: real, hi: real)
    requires s.flux.Length1 == |s.energies| && s.flux.Length0 == dflux.Length0
    requires forall p, q :: 0 <= p < s.flux.Length0 && 0 <= q < s.flux.Length1 ==> s.flux[p, q].Some? ==> s.flux[p, q].value != 0.0
    requires col < dflux.Length1 && col < paData.Length1
    requires dflux.Length0 == dpa.Length0 == paData.Length0 && dflux.Length1 == dpa.Length1
    requires dflux != dpa && s.flux !in {dflux, dpa}
    modifies dflux, dpa
    ensures forall u :: 0 <= u < dflux.Length0 ==> dflux[u, col] == SensorMean(s, u, lo, hi) && dpa[u, col] == paData[u, col]
    ensures forall u, c :: 0 <= u < dflux.Length0 && 0 <= c < dflux.Length1 && c != col ==>
              dflux[u, c] == old(dflux[u, c]) && dpa[u, c] == old(dpa[u, c])
  {
    for t := 0 to dflux.Length0
      invariant forall u :: 0 <= u < t ==> dflux[u, col] == SensorMean(s, u, lo, hi) && dpa[u, col] == paData[u, col]
      invariant forall u, c :: 0 <= u < dflux.Length0 && 0 <= c < dflux.Length1 && (c != col || u >= t) ==>
                  dflux[u, c] == old(dflux[u, c]) && dpa[u, c] == old(dpa[u, c])
    {
      var v := WindowMean(Row(s.flux, t), s.energies, lo, hi);
      assert ZerosToNaN(Row(s.flux, t)) == Row(s.flux, t);
      dflux[t, col] := v;
      dpa[t, col] := paData[t, col];
    }
  }

  /**
   * Lines 81 and 83 for one sensor: its window means fill column `col` of
   * `dflux` and that column of the pitch angles fills `dpa`.
   */
  method WriteColumn(s: SensorData, key: Key, col: nat, paData: array2<Sample>,
                     dflux: array2<Sample>, dpa: array2<Sample>, lo: real, hi: real,
                     ghost ws: seq<Write>, ghost means: map<Key, seq<Sample>>)
    requires s.flux.Length1 == |s.energies| && s.flux.Length0 == dflux.Length0
    requires key in means && means[key] == SensorMeans(s, lo, hi)
    requires forall p, q :: 0 <= p < s.flux.Length0 && 0 <= q < s.flux.Length1 ==> s.flux[p, q].Some? ==> s.flux[p, q].value != 0.0
    requires col < dflux.Length1 && col < paData.Length1
    requires dflux.Length0 == dpa.Length0 == paData.Length0 && dflux.Length1 == dpa.Length1
    requires dflux != dpa && s.flux !in {dflux, dpa}
    requires ColumnsHold(dflux, dpa, paData, ws, means)
    modifies dflux, dpa
    ensures ColumnsHold(dflux, dpa, paData, ws + [Write(col, key)], means)
  {
    assert forall u :: 0 <= u < dflux.Length0 ==> means[key][u] == SensorMean(s, u, lo, hi);
    CopyColumn(s, col, paData, dflux, dpa, lo, hi);
    ghost var ws' := ws + [Write(col, key)];
    forall u, c | 0 <= u < dflux.Length0 && 0 <= c < dflux.Length1
      ensures dflux[u, c] == FluxCell(ws', means, c, u) && dpa[u, c] == AngleCell(ws', paData, c, u)
    {
      LastWriterAppend(ws, Write(col, key), c);
    }
  }

  /**
   * One pass of the sensor loop (lines 68-83) for the i-th visit: the
   * sensor array's zeros become NaN; unless its first energy is NaN, it
   * writes its column.
   */
  method ProcessEye(es: seq<Write>, i: nat, dset: Dataset, paData: array2<Sample>,
                    dflux: array2<Sample>, dpa: array2<Sample>, lo: real, hi: real,
                    ghost means: map<Key, seq<Sample>>, ghost arrs: seq<array2<Sample>>, ghost orig: seq<seq<seq<Sample>>>)
    requires i < |es| == |arrs| == |orig|
    requires VisitsFit(es, dset, dflux.Length0, dflux.Length1, paData.Length1)
    requires forall j :: 0 <= j < |es| ==> arrs[j] == dset[es[j].key].flux
    requires forall j :: 0 <= j < |es| ==> Marked(arrs[j], orig[j], j < i)
    requires forall j :: 0 <= j < |es| ==> es[j].key in means
    requires dflux.Length0 == dpa.Length0 == paData.Length0 && dflux.Length1 == dpa.Length1
    requires dflux != dpa
    requires forall k :: k in means && k in dset ==> dset[k].flux !in {dflux, dpa, paData}
    requires MeansAgree(means, dset, lo, hi)
    requires ColumnsHold(dflux, dpa, paData, Writes(es[..i], dset), means)
    modifies dflux, dpa, dset[es[i].key].flux
    ensures ColumnsHold(dflux, dpa, paData, Writes(es[..i + 1], dset), means)
    ensures MeansAgree(means, dset, lo, hi)
    ensures forall j :: 0 <= j < |es| ==> Marked(arrs[j], orig[j], j < i + 1)
  {
    WritesStep(es, dset, i);
    var key := es[i].key;
    var s := dset[key];
    ghost var ws := Writes(es[..i], dset);
    assert Writes(es[..i + 1], dset) == if Skipped(s) then ws else ws + [Write(es[i].column, key)];
    assert s.flux !in {dflux, dpa, paData};
    MarkSensor(s.flux, dset, lo, hi, means, arrs, orig, i);
    assert ColumnsHold(dflux, dpa, paData, ws, means);
    assert forall j :: 0 <= j < |es| ==> arrs[j] !in {dflux, dpa};
    if !Skipped(s) {
      WriteColumn(s, key, es[i].column, paData, dflux, dpa, lo, hi, ws, means);
    }
  }

  /**
   * The sensor loop (lines 64-83) over the visits `es`: each visited
   * sensor's flux array gets its zeros replaced by NaN; unless its first
   * energy is NaN, its window mean is written to its column of `dflux` and
   * the pitch angles of that column to `dpa`.
   */
  method FillSensors(es: seq<Write>, dset: Dataset, paData: array2<Sample>,
                     dflux: array2<Sample>, dpa: array2<Sample>, lo: real, hi: real,
                     ghost means: map<Key, seq<Sample>>, ghost arrs: seq<array2<Sample>>, ghost orig: seq<seq<seq<Sample>>>)
    requires VisitsFit(es, dset, dflux.Length0, dflux.Length1, paData.Length1)
    requires forall j :: 0 <= j < |es| ==> es[j].key in means
    requires dflux.Length0 == dpa.Length0 == paData.Length0 && dflux.Length1 == dpa.Length1
    requires dflux != dpa
    requires forall k :: k in means && k in dset ==> dset[k].flux !in {dflux, dpa, paData}
    requires MeansAgree(means, dset, lo, hi)
    requires ColumnsHold(dflux, dpa, paData, [], means)
    requires |arrs| == |orig| == |es| && forall j :: 0 <= j < |es| ==> arrs[j] == dset[es[j].key].flux
    requires forall j :: 0 <= j < |es| ==> Marked(arrs[j], orig[j], false)
    modifies dflux, dpa, VisitedArrays(es, dset)
    ensures ColumnsHold(dflux, dpa, paData, Writes(es, dset), means)
    ensures MeansAgree(means, dset, lo, hi)
    ensures forall j :: 0 <= j < |es| ==> Marked(arrs[j], orig[j], true)
  {
    assert Writes(es[..0], dset) == [];
    for i := 0 to |es|
      invariant ColumnsHold(dflux, dpa, paData, Writes(es[..i], dset), means)
      invariant MeansAgree(means, dset, lo, hi)
      invariant forall j :: 0 <= j < |es| ==> Marked(arrs[j], orig[j], j < i)
    {
      var a := dset[es[i].key].flux;
      assert a in VisitedArrays(es, dset) by {
        assert es[i] in es;
      }
      ProcessEye(es, i, dset, paData, dflux, dpa, lo, hi, means, arrs, orig);
    }
    assert es[..|es|] == es;
  }

  /** The cells of a 2-D buffer, row by row. */
  ghost function Contents(a: array2<Sample>): (rows: seq<seq<Sample>>)
    reads a
    ensures |rows| == a.Length0 && forall p :: 0 <= p < |rows| ==> |rows[p]| == a.Length1
    ensures forall p, q :: 0 <= p < a.Length0 && 0 <= q < a.Length1 ==> rows[p][q] == a[p, q]
  {
    seq(a.Length0, p requires 0 <= p < a.Length0 reads a => Row(a, p))
  }

  /**
   * Buffer `a` started as `orig`: it differs from it only where a zero
   * became NaN, and once `done` every zero has.
   */
  ghost predicate Marked(a: array2<Sample>, orig: seq<seq<Sample>>, done: bool)
    reads a
  {
    |orig| == a.Length0 &&
    forall p, q :: 0 <= p < a.Length0 && 0 <= q < a.Length1 ==> CellMarked(a[p, q], orig, p, q, done)
  }

  /** Cell (p, q) holds `x` where the snapshot held a value with the same NaN reading. */
  ghost predicate CellMarked(x: Sample, orig: seq<seq<Sample>>, p: nat, q: nat, done: bool)
  {
    p < |orig| && q < |orig[p]| && ZeroToNaN(x) == ZeroToNaN(orig[p][q]) && (done ==> x == ZeroToNaN(orig[p][q]))
  }

  /** Every buffer is marked against its own contents. */
  lemma ContentsMarked(a: array2<Sample>)
    ensures Marked(a, Contents(a), false)
  {
    var rows := Contents(a);
    forall p, q | 0 <= p < a.Length0 && 0 <= q < a.Length1 ensures CellMarked(a[p, q], rows, p, q, false) {
      assert rows[p][q] == a[p, q];
    }
  }

  /** `Marked` on the rows of a snapshot. */
  ghost predicate RowsMarked(rows: seq<seq<Sample>>, orig: seq<seq<Sample>>, done: bool)
  {
    |orig| == |rows| &&
    forall p, q :: 0 <= p < |rows| && 0 <= q < |rows[p]| ==> CellMarked(rows[p][q], orig, p, q, done)
  }

  lemma MarkedContents(a: array2<Sample>, orig: seq<seq<Sample>>, done: bool)
    requires Marked(a, orig, done)
    ensures RowsMarked(Contents(a), orig, done)
  {
    var rows := Contents(a);
    forall p, q | 0 <= p < |rows| && 0 <= q < |rows[p]| ensures CellMarked(rows[p][q], orig, p, q, done) {
      assert p < a.Length0 && q < a.Length1 && rows[p][q] == a[p, q];
    }
  }

  /** A marked snapshot whose zeros are replaced by NaN gives a buffer marked and done. */
  lemma MarkedAgain(a: array2<Sample>, before: seq<seq<Sample>>, orig: seq<seq<Sample>>, done: bool)
    requires RowsMarked(before, orig, done)
    requires |before| == a.Length0 && forall p :: 0 <= p < |before| ==> |before[p]| == a.Length1
    requires forall p, q :: 0 <= p < a.Length0 && 0 <= q < a.Length1 ==> a[p, q] == ZeroToNaN(before[p][q])
    ensures Marked(a, orig, true)
  {
  }

  /** At the start the snapshot agrees with the sensor arrays. */
  lemma ActiveMeansAgree(eyes: ActiveEyes, dset: Dataset, lo: real, hi: real)
    requires ChannelsMatch(ActiveKeys(eyes), dset)
    ensures MeansAgree(ActiveMeans(eyes, dset, lo, hi), dset, lo, hi)
  {
  }

  /** The sensor loop touches only the arrays of active eyes. */
  lemma VisitedAreActive(eyes: ActiveEyes, cmap: ColumnMap, dset: Dataset)
    requires |eyes.top| <= |cmap.top| && |eyes.bottom| <= |cmap.bottom|
    ensures VisitedArrays(SensorOrder(eyes, cmap), dset) <= ActiveArrays(eyes, dset)
  {
    var es := SensorOrder(eyes, cmap);
    forall a | a in VisitedArrays(es, dset) ensures a in ActiveArrays(eyes, dset) {
      var w :| w in es && w.key in dset && a == dset[w.key].flux;
      var j :| 0 <= j < |es| && es[j] == w;
      assert w.key in ActiveKeys(eyes);
    }
  }

  /** Cell `[p, q]` of snapshot `j` (`None` outside the snapshots). */
  ghost function SnapshotAt(orig: seq<seq<seq<Sample>>>, j: int, p: int, q: int): Sample
  {
    if 0 <= j < |orig| && 0 <= p < |orig[j]| && 0 <= q < |orig[j][p]| then orig[j][p][q] else None
  }

  /** A value copy of every array of `arrs`, each one not yet converted. */
  lemma Snapshot(arrs: seq<array2<Sample>>) returns (orig: seq<seq<seq<Sample>>>)
    ensures |orig| == |arrs|
    ensures forall j :: 0 <= j < |arrs| ==> Marked(arrs[j], orig[j], false)
    ensures forall j, p, q :: 0 <= j < |arrs| && 0 <= p < arrs[j].Length0 && 0 <= q < arrs[j].Length1 ==>
              SnapshotAt(orig, j, p, q) == arrs[j][p, q]
  {
    orig := seq(|arrs|, j requires 0 <= j < |arrs| reads arrs => Contents(arrs[j]));
    forall j | 0 <= j < |arrs| ensures Marked(arrs[j], orig[j], false) {
      ContentsMarked(arrs[j]);
    }
  }

  /** Arrays marked as converted hold their snapshot with zeros replaced by NaN. */
  lemma AllConverted(arrs: seq<array2<Sample>>, orig: seq<seq<seq<Sample>>>)
    requires |orig| == |arrs| && forall j :: 0 <= j < |arrs| ==> Marked(arrs[j], orig[j], true)
    ensures forall j, p, q :: 0 <= j < |arrs| && 0 <= p < arrs[j].Length0 && 0 <= q < arrs[j].Length1 ==>
              arrs[j][p, q] == ZeroToNaN(SnapshotAt(orig, j, p, q))
  {
    forall j, p, q | 0 <= j < |arrs| && 0 <= p < arrs[j].Length0 && 0 <= q < arrs[j].Length1
      ensures arrs[j][p, q] == ZeroToNaN(SnapshotAt(orig, j, p, q))
    {
      assert CellMarked(arrs[j][p, q], orig[j], p, q, true);
    }
  }

  /**
   * The sensor loop with its buffers (lines 57-83): new zero-filled `dflux`
   * and `dpa`, then every visit. Afterwards each column holds its last
   * writer's data and every active sensor array has its zeros replaced by NaN.
   */
  method FillColumns(eyes: ActiveEyes, cmap: ColumnMap, dset: Dataset, paData: array2<Sample>, lo: real, hi: real)
    returns (dflux: array2<Sample>, dpa: array2<Sample>)
    requires WellFormed(eyes, cmap, dset, paData)
    modifies ActiveArrays(eyes, dset)
    ensures fresh(dflux) && fresh(dpa) && dflux != dpa
    ensures dflux.Length0 == dpa.Length0 == paData.Length0 && dflux.Length1 == dpa.Length1 == cmap.Width()
    ensures ColumnsHold(dflux, dpa, paData, AllWrites(eyes, cmap, dset), old(ActiveMeans(eyes, dset, lo, hi)))
    ensures var es := SensorOrder(eyes, cmap);
            forall j, p, q :: 0 <= j < |es| && 0 <= p < dset[es[j].key].flux.Length0 && 0 <= q < dset[es[j].key].flux.Length1 ==>
              dset[es[j].key].flux[p, q] == ZeroToNaN(old(dset[es[j].key].flux[p, q]))
  {
    ghost var means := ActiveMeans(eyes, dset, lo, hi);
    ActiveMeansAgree(eyes, dset, lo, hi);
    var es := SensorOrder(eyes, cmap);
    ghost var arrs := seq(|es|, j requires 0 <= j < |es| => dset[es[j].key].flux);
    ghost var orig := Snapshot(arrs);
    var nT, width := paData.Length0, cmap.Width();
    dflux := new Sample[nT, width]((t, c) => Some(0.0));
    dpa := new Sample[nT, width]((t, c) => Some(0.0));
    VisitedAreActive(eyes, cmap, dset);
    assert forall k :: k in means && k in dset ==> dset[k].flux !in {dflux, dpa, paData};
    assert ColumnsHold(dflux, dpa, paData, [], means);
    FillSensors(es, dset, paData, dflux, dpa, lo, hi, means, arrs, orig);
    AllConverted(arrs, orig);
  }

  // ---------------------------------------------------------------------
  // The bin loop (lines 90-105) and the whole routine
  // ---------------------------------------------------------------------

  /** Lines 96-105 for one time and one bin. */
  method FillBinCell(paFlux: array2<Sample>, t: nat, k: nat, fluxRow: seq<Sample>, paRow: seq<Sample>,
                     centre: real, delta: real, w: real)
    requires t < paFlux.Length0 && k < paFlux.Length1 && |fluxRow| == |paRow| > 0
    requires paFlux[t, k] == Some(0.0)
    modifies paFlux
    ensures paFlux[t, k] == BinValue(fluxRow, paRow, centre, delta, w)
    ensures forall u, j :: 0 <= u < paFlux.Length0 && 0 <= j < paFlux.Length1 && (u != t || j != k) ==>
              paFlux[u, j] == old(paFlux[u, j])
  {
    if paRow[0].Some? {
      var ix := MatchingColumns(paRow, centre, delta, w);
      if |ix| != 0 {
        if |ix| > 1 {
          paFlux[t, k] := NanMean(Pick(fluxRow, ix));
        } else {
          paFlux[t, k] := fluxRow[ix[0]];
        }
      }
    }
  }

  /** Lines 95-105 for one time: every bin of row `t` of `pa_flux`. */
  method FillBinRow(paFlux: array2<Sample>, t: nat, fluxRow: seq<Sample>, paRow: seq<Sample>,
                    labels: seq<real>, delta: real, w: real)
    requires t < paFlux.Length0 && paFlux.Length1 == |labels| && |fluxRow| == |paRow| > 0
    requires forall k :: 0 <= k < |labels| ==> paFlux[t, k] == Some(0.0)
    modifies paFlux
    ensures forall k :: 0 <= k < |labels| ==> paFlux[t, k] == BinValue(fluxRow, paRow, labels[k], delta, w)
    ensures forall u, k :: 0 <= u < paFlux.Length0 && u != t && 0 <= k < |labels| ==> paFlux[u, k] == old(paFlux[u, k])
  {
    for k := 0 to |labels|
      invariant forall j :: 0 <= j < k ==> paFlux[t, j] == BinValue(fluxRow, paRow, labels[j], delta, w)
      invariant forall u, j :: 0 <= u < paFlux.Length0 && 0 <= j < |labels| && (u != t || j >= k) ==>
                  paFlux[u, j] == old(paFlux[u, j])
    {
      FillBinCell(paFlux, t, k, fluxRow, paRow, labels[k], delta, w);
    }
  }

  /**
   * `pa_flux`: for every time and every bin, the value `BinValue` gives from
   * that time's rows of `dflux` and `dpa` (before line 107 turns zeros into NaN).
   */
  method BinFluxes(dflux: array2<Sample>, dpa: array2<Sample>, labels: seq<real>, delta: real, w: real)
    returns (paFlux: array2<Sample>)
    requires dflux.Length0 == dpa.Length0 && dflux.Length1 == dpa.Length1 > 0
    ensures fresh(paFlux) && paFlux.Length0 == dflux.Length0 && paFlux.Length1 == |labels|
    ensures forall t, k :: 0 <= t < paFlux.Length0 && 0 <= k < paFlux.Length1 ==>
              paFlux[t, k] == BinValue(Row(dflux, t), Row(dpa, t), labels[k], delta, w)
  {
    paFlux := new Sample[dflux.Length0, |labels|]((t, k) => Some(0.0));
    for t := 0 to dflux.Length0
      invariant forall u, k :: 0 <= u < t && 0 <= k < |labels| ==>
                  paFlux[u, k] == BinValue(Row(dflux, u), Row(dpa, u), labels[k], delta, w)
      invariant forall u, k :: t <= u < dflux.Length0 && 0 <= k < |labels| ==> paFlux[u, k] == Some(0.0)
    {
      FillBinRow(paFlux, t, Row(dflux, t), Row(dpa, t), labels, delta, w);
    }
  }

  /** What the routine demands of its inputs (each violation is an indexing or broadcast error in the code). */
  predicate WellFormed(eyes: ActiveEyes, cmap: ColumnMap, dset: Dataset, paData: array2<Sample>)
  {
    |eyes.top| <= |cmap.top| && |eyes.bottom| <= |cmap.bottom| && cmap.Width() > 0 &&
    ChannelsMatch(ActiveKeys(eyes), dset) &&
    (forall k :: k in ActiveKeys(eyes) ==> dset[k].flux.Length0 == paData.Length0 && dset[k].flux != paData) &&
    VisitsFit(SensorOrder(eyes, cmap), dset, paData.Length0, cmap.Width(), paData.Length1)
  }

  /**
   * Line 88: `dpa`'s zeros become NaN, after which each time row of `dflux`
   * and `dpa` is the one the writes specify.
   */
  method NormalizeAngles(dflux: array2<Sample>, dpa: array2<Sample>, paData: array2<Sample>,
                         ghost ws: seq<Write>, ghost means: map<Key, seq<Sample>>)
    requires dflux.Length0 == dpa.Length0 == paData.Length0 && dflux.Length1 == dpa.Length1
    requires dpa != dflux && dpa != paData
    requires ColumnsHold(dflux, dpa, paData, ws, means)
    modifies dpa
    ensures forall t :: 0 <= t < dflux.Length0 ==>
              Row(dflux, t) == FluxRow(ws, means, dflux.Length1, t) && Row(dpa, t) == AngleRow(ws, paData, dpa.Length1, t)
  {
    NormalizeZeros(dpa);
    forall t | 0 <= t < dflux.Length0
      ensures Row(dflux, t) == FluxRow(ws, means, dflux.Length1, t)
      ensures Row(dpa, t) == AngleRow(ws, paData, dpa.Length1, t)
    {
    }
  }

  /**
   * `pad` has one row per time and one column per bin, labelled by the bin
   * centres, and cell (t, k) is the bin-k value of the time-t rows that the
   * writes `ws` leave in `dflux` and `dpa`.
   */
  ghost predicate PadOf(pad: Pad, ws: seq<Write>, means: map<Key, seq<Sample>>, paData: array2<Sample>,
                        width: nat, binSize: real, w: real)
    requires HasBins(binSize) && width > 0
    reads pad.flux, paData
  {
    pad.labels == Labels(binSize) &&
    pad.flux.Length0 == paData.Length0 && pad.flux.Length1 == |Labels(binSize)| &&
    forall t, k :: 0 <= t < paData.Length0 && 0 <= k < |Labels(binSize)| ==>
      pad.flux[t, k] == PadCell(FluxRow(ws, means, width, t), AngleRow(ws, paData, width, t),
                                Labels(binSize)[k], HalfWidth(binSize), w)
  }

  /**
   * Lines 90-107: the bin loop over the finished `dflux` and `dpa`, then
   * `pa_flux`'s zeros become NaN.
   */
  method BinStage(dflux: array2<Sample>, dpa: array2<Sample>, paData: array2<Sample>,
                  ghost ws: seq<Write>, ghost means: map<Key, seq<Sample>>, binSize: real, w: real)
    returns (pad: Pad)
    requires HasBins(binSize)
    requires dflux.Length0 == dpa.Length0 == paData.Length0 && dflux.Length1 == dpa.Length1 > 0
    requires forall t :: 0 <= t < dflux.Length0 ==>
               Row(dflux, t) == FluxRow(ws, means, dflux.Length1, t) && Row(dpa, t) == AngleRow(ws, paData, dpa.Length1, t)
    ensures fresh(pad.flux) && PadOf(pad, ws, means, paData, dflux.Length1, binSize, w)
  {
    var labels := Labels(binSize);
    var paFlux := BinFluxes(dflux, dpa, labels, HalfWidth(binSize), w);
    NormalizeZeros(paFlux);
    pad := Pad(paFlux, labels);
  }

  /**
   * `calc_feeps_pad`: pitch-angle distribution of the sensor fluxes in the
   * energy window `[lo, hi]`, in bins of `binSize` degrees. The pitch-angle
   * matrix `paData` (`[time x sensor column]`) and the active eyes are inputs.
   * The caller's sensor arrays get their zeros replaced by NaN.
   */
  method CalcFeepsPad(species: Species, mode: Mode, idxMaps: map<string, seq<nat>>, lo: real, hi: real,
                      binSize: real, paData: array2<Sample>, eyes: ActiveEyes, dset: Dataset)
    returns (r: Result<Pad, PadError>)
    requires PadColumns(mode, species, idxMaps).Ok? ==>
               WellFormed(eyes, PadColumns(mode, species, idxMaps).value, dset, paData)
    modifies ActiveArrays(eyes, dset)
    ensures lo < MinStartEnergy ==> r == Err(EnergyTooLow) && unchanged(ActiveArrays(eyes, dset))
    ensures lo >= MinStartEnergy && binSize == 0.0 ==> r == Err(ZeroBinSize) && unchanged(ActiveArrays(eyes, dset))
    ensures lo >= MinStartEnergy && binSize != 0.0 && PadColumns(mode, species, idxMaps).Err? ==>
              r == Err(PadColumns(mode, species, idxMaps).error) && unchanged(ActiveArrays(eyes, dset))
    ensures lo >= MinStartEnergy && binSize != 0.0 && PadColumns(mode, species, idxMaps).Ok? ==>
              var es := SensorOrder(eyes, PadColumns(mode, species, idxMaps).value);
              forall j, p, q :: 0 <= j < |es| && 0 <= p < dset[es[j].key].flux.Length0 && 0 <= q < dset[es[j].key].flux.Length1 ==>
                dset[es[j].key].flux[p, q] == ZeroToNaN(old(dset[es[j].key].flux[p, q]))
    ensures lo >= MinStartEnergy && binSize != 0.0 && PadColumns(mode, species, idxMaps).Ok? && !HasBins(binSize) ==>
              r == Err(NoBins)
    ensures lo >= MinStartEnergy && HasBins(binSize) && PadColumns(mode, species, idxMaps).Ok? ==>
              var cmap := PadColumns(mode, species, idxMaps).value;
              var ws := AllWrites(eyes, cmap, dset);
              var means := old(ActiveMeans(eyes, dset, lo, hi));
              r.Ok? && fresh(r.value.flux) &&
              PadOf(r.value, ws, means, paData, cmap.Width(), binSize, AngularResponse(species))
  {
    if lo < MinStartEnergy {
      return Err(EnergyTooLow);
    }
    if binSize == 0.0 {
      return Err(ZeroBinSize);
    }
    var columns := PadColumns(mode, species, idxMaps);
    if columns.Err? {
      return Err(columns.error);
    }
    r := PadFromColumns(eyes, columns.value, dset, paData, lo, hi, binSize, AngularResponse(species));
  }

  /**
   * Lines 57-107 once the column map is known: the sensor loop, line 88,
   * then the bin arrays and the bin loop.
   */
  method PadFromColumns(eyes: ActiveEyes, cmap: ColumnMap, dset: Dataset, paData: array2<Sample>,
                        lo: real, hi: real, binSize: real, w: real)
    returns (r: Result<Pad, PadError>)
    requires WellFormed(eyes, cmap, dset, paData) && binSize != 0.0
    modifies ActiveArrays(eyes, dset)
    ensures var es := SensorOrder(eyes, cmap);
            forall j, p, q :: 0 <= j < |es| && 0 <= p < dset[es[j].key].flux.Length0 && 0 <= q < dset[es[j].key].flux.Length1 ==>
              dset[es[j].key].flux[p, q] == ZeroToNaN(old(dset[es[j].key].flux[p, q]))
    ensures !HasBins(binSize) ==> r == Err(NoBins)
    ensures HasBins(binSize) ==>
              r.Ok? && fresh(r.value.flux) &&
              PadOf(r.value, AllWrites(eyes, cmap, dset), old(ActiveMeans(eyes, dset, lo, hi)), paData, cmap.Width(), binSize, w)
  {
    ghost var ws := AllWrites(eyes, cmap, dset);
    ghost var means := ActiveMeans(eyes, dset, lo, hi);
    var dflux, dpa := FillColumns(eyes, cmap, dset, paData, lo, hi);
    NormalizeAngles(dflux, dpa, paData, ws, means);
    if !HasBins(binSize) {
      return Err(NoBins);
    }
    var pad := BinStage(dflux, dpa, paData, ws, means, binSize, w);
    return Ok(pad);
  }
}
