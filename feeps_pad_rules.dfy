/**
 * The value-level rules of `calc_feeps_pad`: the pitch-angle bin geometry,
 * the inclusive energy window, the widened-angle overlap test that decides
 * which sensor columns feed a bin, and the value one (time, bin) cell gets.
 * The buffer-filling loops that apply these rules live in module FeepsPad.
 */
module FeepsPadRules {
  import opened Wrappers
  import opened NanStats

  /** The `dtype` attribute of the dataset. */
  datatype Species = Electron | Ion

  /** Half-width (deg) of a sensor's angular response: `dangresp`. */
  function AngularResponse(species: Species): (w: real)
    ensures w > 0.0
  {
    match species
    case Electron => 21.4
    case Ion => 10.0
  }

  /** Lowest starting energy (keV) the routine accepts. */
  const MinStartEnergy: real := 32.0

  /** The default bin width (deg). */
  const DefaultBinSize: real := 16.3636

  // ---------------------------------------------------------------------
  // Bin geometry
  // ---------------------------------------------------------------------

  /** Python's `int()` of a float: truncation toward zero. */
  function Trunc(x: real): (n: int)
    ensures x >= 0.0 ==> n >= 0 && n as real <= x < n as real + 1.0
    ensures x < 0.0 ==> n <= 0 && n as real - 1.0 < x <= n as real
  {
    if x >= 0.0 then x.Floor else -((-x).Floor)
  }

  /** `n_pabins = 180/bin_size`, a float that is not rounded. */
  function BinRatio(binSize: real): real
    requires binSize != 0.0
  {
    180.0 / binSize
  }

  /** `int(n_pabins)`: the number of pitch-angle bins. */
  function BinCount(binSize: real): int
    requires binSize != 0.0
  {
    Trunc(BinRatio(binSize))
  }

  /** Bin widths for which the bin arrays exist and `pa_bins[1]` can be read. */
  predicate HasBins(binSize: real)
  {
    binSize > 0.0 && BinCount(binSize) >= 1
  }

  /** `pa_bins`: `int(n_pabins) + 1` edges `180*i/n_pabins`. */
  function Edges(binSize: real): (e: seq<real>)
    requires binSize > 0.0
  {
    seq(BinCount(binSize) + 1, i => EdgeAt(binSize, i))
  }

  /** `180.*pa_bin/n_pabins`. */
  function EdgeAt(binSize: real, i: int): real
    requires binSize > 0.0
  {
    180.0 * i as real / BinRatio(binSize)
  }

  /** `pa_label`: `int(n_pabins)` labels `180*i/n_pabins + bin_size/2`. */
  function Labels(binSize: real): (l: seq<real>)
    requires binSize > 0.0
  {
    seq(BinCount(binSize), i => EdgeAt(binSize, i) + binSize / 2.0)
  }

  /** `delta_pa = (pa_bins[1] - pa_bins[0]) / 2`. */
  function HalfWidth(binSize: real): real
    requires HasBins(binSize)
  {
    (Edges(binSize)[1] - Edges(binSize)[0]) / 2.0
  }

  lemma ScaledIndex(binSize: real, i: int)
    requires binSize > 0.0
    ensures EdgeAt(binSize, i) == i as real * binSize
  {
    var z := BinRatio(binSize);
    assert z * binSize == 180.0;
    assert (i as real * binSize) * z == 180.0 * i as real;
  }

  lemma EdgeValue(binSize: real, i: int)
    requires binSize > 0.0 && 0 <= i <= BinCount(binSize)
    ensures Edges(binSize)[i] == i as real * binSize
  {
    ScaledIndex(binSize, i);
  }

  lemma LabelValue(binSize: real, i: int)
    requires binSize > 0.0 && 0 <= i < BinCount(binSize)
    ensures Labels(binSize)[i] == i as real * binSize + binSize / 2.0
  {
    ScaledIndex(binSize, i);
  }

  lemma ScaledOrder(binSize: real, i: int, j: int)
    requires binSize > 0.0 && i < j
    ensures i as real * binSize < j as real * binSize
  {
    assert j as real * binSize - i as real * binSize == (j - i) as real * binSize;
  }

  /**
   * Edge i sits at `i * bin_size` and there is one more edge than labels.
   */
  lemma EdgesAreMultiples(binSize: real)
    requires HasBins(binSize)
    ensures |Edges(binSize)| == |Labels(binSize)| + 1
    ensures forall i :: 0 <= i < |Edges(binSize)| ==> Edges(binSize)[i] == i as real * binSize
  {
    forall i | 0 <= i <= BinCount(binSize) ensures Edges(binSize)[i] == i as real * binSize {
      EdgeValue(binSize, i);
    }
  }

  /** The label of bin i lies halfway between edges i and i+1. */
  lemma LabelsAreCentres(binSize: real)
    requires HasBins(binSize)
    ensures forall i :: 0 <= i < |Labels(binSize)| ==>
              Labels(binSize)[i] == (Edges(binSize)[i] + Edges(binSize)[i + 1]) / 2.0
  {
    forall i | 0 <= i < BinCount(binSize)
      ensures Labels(binSize)[i] == (Edges(binSize)[i] + Edges(binSize)[i + 1]) / 2.0
    {
      LabelValue(binSize, i);
      EdgeValue(binSize, i);
      EdgeValue(binSize, i + 1);
      assert (i + 1) as real * binSize == i as real * binSize + binSize;
    }
  }

  /**
   * The first label is `bin_size/2`, labels strictly increase, and
   * `delta_pa` is half a bin.
   */
  lemma LabelsIncrease(binSize: real)
    requires HasBins(binSize)
    ensures Labels(binSize)[0] == binSize / 2.0
    ensures forall i, j :: 0 <= i < j < |Labels(binSize)| ==> Labels(binSize)[i] < Labels(binSize)[j]
    ensures HalfWidth(binSize) == binSize / 2.0
  {
    LabelValue(binSize, 0);
    forall i, j | 0 <= i < j < BinCount(binSize) ensures Labels(binSize)[i] < Labels(binSize)[j] {
      LabelOrder(binSize, i, j);
    }
    EdgeValue(binSize, 0);
    EdgeValue(binSize, 1);
  }

  lemma LabelOrder(binSize: real, i: int, j: int)
    requires binSize > 0.0 && 0 <= i < j < BinCount(binSize)
    ensures Labels(binSize)[i] < Labels(binSize)[j]
  {
    ScaledOrder(binSize, i, j);
    var lo, hi := i as real * binSize, j as real * binSize;
    LabelValue(binSize, i);
    LabelValue(binSize, j);
    var half := binSize / 2.0;
    assert lo < hi;
    assert Labels(binSize)[i] == lo + half;
    assert Labels(binSize)[j] == hi + half;
  }

  /**
   * The bins never pass 180 degrees, and `int()` truncation leaves a strip
   * narrower than one bin above the last edge uncovered.
   */
  lemma BinsEndBelow180(binSize: real)
    requires HasBins(binSize)
    ensures Edges(binSize)[BinCount(binSize)] <= 180.0
    ensures 180.0 - Edges(binSize)[BinCount(binSize)] < binSize
  {
    var n := BinCount(binSize);
    EdgeValue(binSize, n);
    RatioTimesSize(binSize);
    StripBelow(n as real, BinRatio(binSize), binSize);
  }

  lemma RatioTimesSize(binSize: real)
    requires binSize > 0.0
    ensures BinRatio(binSize) * binSize == 180.0
  {
  }

  /** `n <= z < n + 1` and `z * b == 180` place `n * b` within one `b` below 180. */
  lemma StripBelow(n: real, z: real, b: real)
    requires n <= z < n + 1.0 && z * b == 180.0 && b > 0.0
    ensures n * b <= 180.0 < n * b + b
  {
    MulMono(n, z, b);
    MulMonoStrict(z, n + 1.0, b);
    assert (n + 1.0) * b == n * b + b;
  }

  lemma MulMono(x: real, y: real, b: real)
    requires x <= y && b > 0.0
    ensures x * b <= y * b
  {
  }

  lemma MulMonoStrict(x: real, y: real, b: real)
    requires x < y && b > 0.0
    ensures x * b < y * b
  {
  }

  /**
   * With the default width 16.3636, `180/bin_size` is slightly above 11, so
   * truncation gives 11 bins (rounding up would give 12), and the first centre
   * is 8.1818.
   */
  lemma DefaultBins()
    ensures BinRatio(DefaultBinSize) > 11.0
    ensures BinCount(DefaultBinSize) == 11
    ensures Labels(DefaultBinSize)[0] == 8.1818
  {
    var z := BinRatio(DefaultBinSize);
    assert z * DefaultBinSize == 180.0;
    assert 11.0 * DefaultBinSize < 180.0 < 12.0 * DefaultBinSize;
    assert 11.0 < z < 12.0;
    LabelsIncrease(DefaultBinSize);
  }

  // ---------------------------------------------------------------------
  // Energy window
  // ---------------------------------------------------------------------

  /** `energy[0] <= E <= energy[1]`; a NaN energy compares false. */
  predicate InWindow(e: Sample, lo: real, hi: real)
  {
    e.Some? && lo <= e.value && e.value <= hi
  }

  /** `np.where((energies >= energy[0]) & (energies <= energy[1]))`. */
  function WindowChannels(energies: seq<Sample>, lo: real, hi: real): (ix: seq<nat>)
    ensures forall k :: 0 <= k < |ix| ==> ix[k] < |energies| && InWindow(energies[ix[k]], lo, hi)
    ensures forall c :: 0 <= c < |energies| && InWindow(energies[c], lo, hi) ==> c in ix
  {
    IndicesWhere(energies, e => InWindow(e, lo, hi))
  }

  /** `np.nanmean(data[t, indx])` for one time row of a sensor. */
  function WindowMean(row: seq<Sample>, energies: seq<Sample>, lo: real, hi: real): Sample
    requires |row| == |energies|
  {
    NanMean(Pick(row, WindowChannels(energies, lo, hi)))
  }

  /** `data[data == 0] = nan` on one row. */
  function ZerosToNaN(row: seq<Sample>): (r: seq<Sample>)
    ensures |r| == |row|
    ensures forall c :: 0 <= c < |row| ==> r[c] == ZeroToNaN(row[c])
  {
    seq(|row|, c requires 0 <= c < |row| => ZeroToNaN(row[c]))
  }

  /**
   * Both window bounds are inclusive: a channel is averaged exactly when its
   * energy is a number within `[lo, hi]`.
   */
  lemma WindowIsInclusive(energies: seq<Sample>, lo: real, hi: real, c: nat)
    requires c < |energies|
    ensures c in WindowChannels(energies, lo, hi) <==>
              energies[c].Some? && lo <= energies[c].value <= hi
  {
  }

  /**
   * After zeros become NaN, a sensor whose in-window samples are all zero or
   * NaN has a missing mean: a zero is never averaged in.
   */
  lemma ZeroSamplesNeverAveraged(row: seq<Sample>, energies: seq<Sample>, lo: real, hi: real)
    requires |row| == |energies|
    requires forall c :: 0 <= c < |row| && InWindow(energies[c], lo, hi) ==>
               row[c] == Some(0.0) || row[c].None?
    ensures WindowMean(ZerosToNaN(row), energies, lo, hi).None?
  {
    var ix := WindowChannels(energies, lo, hi);
    var picked := Pick(ZerosToNaN(row), ix);
    NanMeanMissingIff(picked);
  }

  /**
   * The mean over the window lies between any bounds of the in-window samples
   * that are present.
   */
  lemma WindowMeanBounds(row: seq<Sample>, energies: seq<Sample>, lo: real, hi: real, a: real, b: real)
    requires |row| == |energies|
    requires forall c :: 0 <= c < |row| && InWindow(energies[c], lo, hi) && row[c].Some? ==>
               a <= row[c].value <= b
    requires WindowMean(row, energies, lo, hi).Some?
    ensures a <= WindowMean(row, energies, lo, hi).value <= b
  {
    var picked := Pick(row, WindowChannels(energies, lo, hi));
    NanMeanBounds(picked, a, b);
  }

  // ---------------------------------------------------------------------
  // Overlap test and cell value
  // ---------------------------------------------------------------------

  /**
   * Line 99's test for one sensor column: the angle widened by the angular
   * response reaches the bin window `[centre - delta, centre + delta)`. A NaN
   * angle compares false.
   */
  predicate Overlaps(pa: Sample, centre: real, delta: real, w: real)
  {
    pa.Some? && pa.value + w >= centre - delta && pa.value - w < centre + delta
  }

  /** `x` lies in the closed view `[p - w, p + w]` of a sensor at angle `p`. */
  predicate InView(p: real, w: real, x: real)
  {
    p - w <= x <= p + w
  }

  /** `x` lies in the half-open bin window `[centre - delta, centre + delta)`. */
  predicate InBinWindow(centre: real, delta: real, x: real)
  {
    centre - delta <= x < centre + delta
  }

  /**
   * The overlap test is exactly "the sensor's widened view and the bin
   * window share an angle" (both directions).
   */
  lemma OverlapIsIntersection(p: real, centre: real, delta: real, w: real)
    requires w >= 0.0 && delta > 0.0
    ensures Overlaps(Some(p), centre, delta, w) <==>
              exists x :: InView(p, w, x) && InBinWindow(centre, delta, x)
  {
    if Overlaps(Some(p), centre, delta, w) {
      var x := if p - w >= centre - delta then p - w else centre - delta;
      assert InView(p, w, x) && InBinWindow(centre, delta, x);
    }
  }

  /**
   * One sensor may feed several bins: with the default bins an electron
   * sensor at 90 degrees feeds bins 4, 5 and 6 and no others near them.
   */
  lemma OneSensorSeveralBins()
    ensures var l, d := Labels(DefaultBinSize), HalfWidth(DefaultBinSize);
            var w := AngularResponse(Electron);
            !Overlaps(Some(90.0), l[3], d, w) && Overlaps(Some(90.0), l[4], d, w) &&
            Overlaps(Some(90.0), l[5], d, w) && Overlaps(Some(90.0), l[6], d, w) &&
            !Overlaps(Some(90.0), l[7], d, w)
  {
    DefaultBins();
    LabelsIncrease(DefaultBinSize);
    LabelValue(DefaultBinSize, 3);
    LabelValue(DefaultBinSize, 4);
    LabelValue(DefaultBinSize, 5);
    LabelValue(DefaultBinSize, 6);
    LabelValue(DefaultBinSize, 7);
  }

  /** The sensor columns whose widened angle overlaps the bin (`ind`). */
  function MatchingColumns(paRow: seq<Sample>, centre: real, delta: real, w: real): (ix: seq<nat>)
    ensures forall k :: 0 <= k < |ix| ==> ix[k] < |paRow| && Overlaps(paRow[ix[k]], centre, delta, w)
    ensures forall j :: 0 <= j < |paRow| && Overlaps(paRow[j], centre, delta, w) ==> j in ix
    ensures forall k, l :: 0 <= k < l < |ix| ==> ix[k] < ix[l]
  {
    IndicesWhere(paRow, pa => Overlaps(pa, centre, delta, w))
  }

  /**
   * What the bin loop leaves in `pa_flux[t, k]`, given the time row of `dflux`
   * and of `dpa`: 0 when the row's first angle is NaN (the row is skipped) or
   * no column matches, the single matching column's flux when one matches,
   * and the NaN-ignoring mean when several match.
   */
  function BinValue(fluxRow: seq<Sample>, paRow: seq<Sample>, centre: real, delta: real, w: real): Sample
    requires |fluxRow| == |paRow| > 0
  {
    if paRow[0].None? then Some(0.0)
    else
      var ix := MatchingColumns(paRow, centre, delta, w);
      if |ix| == 0 then Some(0.0)
      else if |ix| > 1 then NanMean(Pick(fluxRow, ix))
      else fluxRow[ix[0]]
  }

  /** The final cell: `BinValue` after `pa_flux[pa_flux == 0] = nan`. */
  function PadCell(fluxRow: seq<Sample>, paRow: seq<Sample>, centre: real, delta: real, w: real): Sample
    requires |fluxRow| == |paRow| > 0
  {
    ZeroToNaN(BinValue(fluxRow, paRow, centre, delta, w))
  }

  /** A time whose first sensor angle is NaN gives a missing value in every bin. */
  lemma SkippedRowIsMissing(fluxRow: seq<Sample>, paRow: seq<Sample>, centre: real, delta: real, w: real)
    requires |fluxRow| == |paRow| > 0 && paRow[0].None?
    ensures PadCell(fluxRow, paRow, centre, delta, w).None?
  {
  }

  /**
   * A bin that no present flux overlaps is missing, not zero: either no
   * column overlaps it, or every overlapping column's flux is missing.
   */
  lemma UncoveredBinIsMissing(fluxRow: seq<Sample>, paRow: seq<Sample>, centre: real, delta: real, w: real)
    requires |fluxRow| == |paRow| > 0
    requires forall j :: 0 <= j < |paRow| && Overlaps(paRow[j], centre, delta, w) ==> fluxRow[j].None?
    ensures PadCell(fluxRow, paRow, centre, delta, w).None?
  {
    var ix := MatchingColumns(paRow, centre, delta, w);
    if paRow[0].Some? && |ix| > 1 {
      var picked := Pick(fluxRow, ix);
      assert forall k :: 0 <= k < |picked| ==> picked[k] == fluxRow[ix[k]] && Overlaps(paRow[ix[k]], centre, delta, w);
      NanMeanMissingIff(picked);
    }
  }

  /**
   * The single-column branch agrees with the mean: whenever the row is not
   * skipped and some column matches, the bin gets the NaN-ignoring mean of
   * the matching columns' fluxes.
   */
  lemma BinValueIsMeanOfMatches(fluxRow: seq<Sample>, paRow: seq<Sample>, centre: real, delta: real, w: real)
    requires |fluxRow| == |paRow| > 0 && paRow[0].Some?
    requires |MatchingColumns(paRow, centre, delta, w)| > 0
    ensures BinValue(fluxRow, paRow, centre, delta, w) ==
              NanMean(Pick(fluxRow, MatchingColumns(paRow, centre, delta, w)))
  {
    var ix := MatchingColumns(paRow, centre, delta, w);
    if |ix| == 1 {
      NanMeanSingleton(fluxRow[ix[0]]);
      assert Pick(fluxRow, ix) == [fluxRow[ix[0]]];
    }
  }

  /** A strictly increasing sequence within `[a, b]` has at most `b - a + 1` entries. */
  lemma {:induction false} StrictlyIncreasingWithin(ix: seq<nat>, a: int, b: int)
    requires forall k, l :: 0 <= k < l < |ix| ==> ix[k] < ix[l]
    requires forall k :: 0 <= k < |ix| ==> a <= ix[k] <= b
    requires a <= b + 1
    ensures |ix| <= b - a + 1
  {
    if |ix| > 0 {
      var rest := ix[1..];
      assert |rest| == |ix| - 1;
      assert forall k :: 0 <= k < |rest| ==> rest[k] == ix[k + 1];
      assert forall k :: 0 <= k < |rest| ==> ix[0] < rest[k];
      StrictlyIncreasingWithin(rest, ix[0] + 1, b);
      assert a <= ix[0];
    }
  }

  /** A bin exactly one column overlaps takes that column's flux (zero read as missing). */
  lemma SingleSensorBin(fluxRow: seq<Sample>, paRow: seq<Sample>, centre: real, delta: real, w: real, j: nat)
    requires |fluxRow| == |paRow| > 0 && paRow[0].Some? && j < |paRow|
    requires Overlaps(paRow[j], centre, delta, w)
    requires forall i :: 0 <= i < |paRow| && i != j ==> !Overlaps(paRow[i], centre, delta, w)
    ensures PadCell(fluxRow, paRow, centre, delta, w) == ZeroToNaN(fluxRow[j])
  {
    var ix := MatchingColumns(paRow, centre, delta, w);
    assert j in ix;
    StrictlyIncreasingWithin(ix, j, j);
  }

  /**
   * A present cell comes from a matching column with a present flux, and it
   * lies between any bounds of the matching columns' present fluxes.
   */
  lemma PadCellWithinMatchedFluxes(fluxRow: seq<Sample>, paRow: seq<Sample>, centre: real, delta: real, w: real,
                                   a: real, b: real)
    requires |fluxRow| == |paRow| > 0
    requires forall j :: 0 <= j < |paRow| && Overlaps(paRow[j], centre, delta, w) && fluxRow[j].Some? ==>
               a <= fluxRow[j].value <= b
    requires PadCell(fluxRow, paRow, centre, delta, w).Some?
    ensures paRow[0].Some?
    ensures exists j :: 0 <= j < |paRow| && Overlaps(paRow[j], centre, delta, w) && fluxRow[j].Some?
    ensures a <= PadCell(fluxRow, paRow, centre, delta, w).value <= b
  {
    var ix := MatchingColumns(paRow, centre, delta, w);
    BinValueIsMeanOfMatches(fluxRow, paRow, centre, delta, w);
    var picked := Pick(fluxRow, ix);
    NanMeanMissingIff(picked);
    var k :| 0 <= k < |picked| && picked[k].Some?;
    assert Overlaps(paRow[ix[k]], centre, delta, w) && fluxRow[ix[k]].Some?;
    NanMeanBounds(picked, a, b);
  }
}
