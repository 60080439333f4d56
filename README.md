# pyrfu core: FEEPS pitch-angle distributions and companion transforms

This project models, in Dafny, the part of pyrfu (the IRFU Python library for
MMS and Cluster data) that turns MMS FEEPS energetic-particle fluxes into a
pitch-angle distribution, together with the helpers around it:

- `calc_feeps_pad` (modules `FeepsPad`, `FeepsPadRules`, `NanStats`):
  - the species angular response and the 32 keV lower limit;
  - pitch-angle bin edges and labels, truncated with `int()`;
  - the burst-mode sensor-to-column map;
  - the sensor loop, which sets zeros to NaN in each sensor's flux array in
    place, averages the channels inside the energy window and copies the
    sensor's pitch angles;
  - a later sensor with the same column overwriting an earlier one;
  - the bin loop, which averages the fluxes of every sensor whose field of
    view overlaps a bin and leaves a NaN when the time's first pitch angle is
    NaN.

  The column buffers `dflux`, `dpa` and `pa_flux` are Dafny `array2`s,
  filled by methods with loops. Each method is proved against specification
  functions (`FluxRow`, `AngleRow`, `BinValue`, `PadCell`), and the
  properties of the distribution are lemmas about those functions.
- `get_feeps_energy_table` (`FeepsEnergyTable`): the per-spacecraft and
  per-eye offset tables, Python negative indexing, and the dead-sensor NaN
  rows.
- `find_closest` (`FindClosest`): the alternating pruning of two increasing
  time lines until every survivor is the nearest neighbour of its nearest
  neighbour. The flag buffers are arrays.
- `vdf_to_deflux` (`VdfToDeflux`):
  - species mass ratios;
  - unit factors, with case folding;
  - the energy broadcast and the in-place `data_r *= energy_mat ** 2` over
    the flat buffer;
  - squeezing.
- `increments` (`Increments`), `cross` (`Cross`) and `ts_vec_xyz`
  (`TsVecXyz`), over a small model of an xarray `DataArray` (`XArray`).

Floats are reals and NaN is `None` (`NanStats.Sample`). Python exceptions
are `Err` values of a `Result`, in the order the code raises them. Calls into
code outside this core become parameters of the model:
- pitch angles;
- active eyes;
- the resampler of `cross`.

## Model

| member | source | states |
|---|---|---|
| `FeepsPadRules.AngularResponse` | build/lib/pyrfu/mms/calc_feeps_pad.py:13-16 | the half-width of a sensor's field of view is positive for both species (21.4 degrees for electrons, 10 for ions) |
| `FeepsPadRules.Trunc` | build/lib/pyrfu/mms/calc_feeps_pad.py:22-24 | `int()` truncates toward zero: for non-negative x the result is the floor, for negative x the ceiling |
| `FeepsPadRules.EdgesAreMultiples` | build/lib/pyrfu/mms/calc_feeps_pad.py:22-23 | there is one more edge than labels, and edge i is i times the bin size |
| `FeepsPadRules.LabelsAreCentres` | build/lib/pyrfu/mms/calc_feeps_pad.py:24 | every label is the midpoint of the two edges that bound its bin |
| `FeepsPadRules.LabelsIncrease` | build/lib/pyrfu/mms/calc_feeps_pad.py:22-24 | labels start at half a bin and strictly increase, and the half-width used in the overlap test is half a bin |
| `FeepsPadRules.BinsEndBelow180` | build/lib/pyrfu/mms/calc_feeps_pad.py:22-23 | the last edge never passes 180 degrees and falls less than one bin short of it, so truncating the bin count leaves a strip narrower than one bin below 180 degrees in no bin |
| `FeepsPadRules.DefaultBins` | build/lib/pyrfu/mms/calc_feeps_pad.py:9-24 | the default 16.3636-degree bin size gives 11 bins, with the first label at 8.1818 |
| `FeepsPadRules.WindowChannels` | build/lib/pyrfu/mms/calc_feeps_pad.py:77 | the selected channels are exactly those whose energy lies in the window |
| `FeepsPadRules.ZerosToNaN` | build/lib/pyrfu/mms/calc_feeps_pad.py:71 | a row with zeros set to NaN keeps its length and changes only its zero samples |
| `FeepsPadRules.WindowIsInclusive` | build/lib/pyrfu/mms/calc_feeps_pad.py:77 | a channel is selected if and only if its energy is known and lies between both bounds inclusive |
| `FeepsPadRules.ZeroSamplesNeverAveraged` | build/lib/pyrfu/mms/calc_feeps_pad.py:71-81 | a sensor whose windowed samples are all zero or NaN gives a NaN mean, never a zero |
| `FeepsPadRules.WindowMeanBounds` | build/lib/pyrfu/mms/calc_feeps_pad.py:77-81 | the window mean of present samples lies between their lower and upper bounds |
| `FeepsPadRules.OverlapIsIntersection` | build/lib/pyrfu/mms/calc_feeps_pad.py:99 | the overlap test holds if and only if the sensor's field of view and the bin window share a pitch angle |
| `FeepsPadRules.OneSensorSeveralBins` | build/lib/pyrfu/mms/calc_feeps_pad.py:99 | one electron sensor at 90 degrees contributes to the default bins 4 to 6 and to neither neighbour |
| `FeepsPadRules.MatchingColumns` | build/lib/pyrfu/mms/calc_feeps_pad.py:99 | the matching columns are exactly the columns whose pitch angle overlaps the bin, in increasing order |
| `FeepsPadRules.SkippedRowIsMissing` | build/lib/pyrfu/mms/calc_feeps_pad.py:96-107 | a time whose first pitch angle is NaN gets a NaN in every bin |
| `FeepsPadRules.UncoveredBinIsMissing` | build/lib/pyrfu/mms/calc_feeps_pad.py:99-107 | a bin that no present flux overlaps is NaN in the output: either no column overlaps it or every overlapping column's flux is NaN |
| `FeepsPadRules.BinValueIsMeanOfMatches` | build/lib/pyrfu/mms/calc_feeps_pad.py:101-105 | a bin's value is the NaN-ignoring mean of the fluxes of exactly the overlapping columns |
| `FeepsPadRules.SingleSensorBin` | build/lib/pyrfu/mms/calc_feeps_pad.py:101-107 | a bin that only one column overlaps carries that column's flux, with a zero turned into NaN |
| `FeepsPadRules.PadCellWithinMatchedFluxes` | build/lib/pyrfu/mms/calc_feeps_pad.py:99-107 | a bin with an overlapping present flux lies between the bounds of all the overlapping fluxes |
| `FeepsPad.BrstLayout` | build/lib/pyrfu/mms/calc_feeps_pad.py:49-53 | burst mode has 18 electron or 6 ion columns: top sensors first in order, then bottom sensors after them |
| `FeepsPad.PadColumnsAsWritten` | build/lib/pyrfu/mms/calc_feeps_pad.py:34-53 | the column map as written exists if and only if the mode is burst |
| `FeepsPad.SurveyModeAlwaysFails` | build/lib/pyrfu/mms/calc_feeps_pad.py:36-42 | survey mode always fails as written, because the survey map reads a name that is never defined |
| `FeepsPad.PadColumnsCorrected` | build/lib/pyrfu/mms/calc_feeps_pad.py:36-53 | the corrected map agrees with the original in burst mode, takes each species' own top and bottom survey maps, and rejects any other mode |
| `FeepsPad.SensorOrder` | build/lib/pyrfu/mms/calc_feeps_pad.py:64-67 | sensors are visited top eyes first and then bottom eyes, each paired with its column, and every active sensor is visited |
| `FeepsPad.Writes` | build/lib/pyrfu/mms/calc_feeps_pad.py:73-83 | only visited sensors that are not skipped write a column |
| `FeepsPad.LastWriter` | build/lib/pyrfu/mms/calc_feeps_pad.py:81-83 | a column's owner is a sensor that wrote it; a column nobody wrote has no owner |
| `FeepsPad.LastWriterIsLast` | build/lib/pyrfu/mms/calc_feeps_pad.py:64-83 | a column has an owner if and only if some write targets it, and the owner is the last such write |
| `FeepsPad.UnwrittenColumnNeverMatches` | build/lib/pyrfu/mms/calc_feeps_pad.py:85-99 | a column no sensor wrote holds a NaN pitch angle and never overlaps a bin |
| `FeepsPad.NormalizeZeros` | build/lib/pyrfu/mms/calc_feeps_pad.py:71 | in place, every zero of the array becomes NaN and every other sample is unchanged |
| `FeepsPad.NormalizeSensor` | build/lib/pyrfu/mms/calc_feeps_pad.py:71 | setting a sensor's zeros to NaN in place keeps every precomputed window mean valid |
| `FeepsPad.CopyColumn` | build/lib/pyrfu/mms/calc_feeps_pad.py:81-83 | a sensor's column receives its window mean and its pitch angles at every time; all other columns are untouched |
| `FeepsPad.WriteColumn` | build/lib/pyrfu/mms/calc_feeps_pad.py:81-83 | after one more write the buffers hold every column's owner's values |
| `FeepsPad.ProcessEye` | build/lib/pyrfu/mms/calc_feeps_pad.py:64-83 | one loop iteration sets the sensor's zeros to NaN, skips the sensor if its first energy is NaN, and otherwise writes its column, keeping the buffer invariant |
| `FeepsPad.FillSensors` | build/lib/pyrfu/mms/calc_feeps_pad.py:64-83 | after the sensor loop each column holds its last writer's mean and angles, and every visited flux array is normalised |
| `FeepsPad.FillColumns` | build/lib/pyrfu/mms/calc_feeps_pad.py:57-83 | the new buffers are distinct and as wide as the column map; each column holds its last writer's mean and angles, with the means taken before normalisation, and every visited sensor's flux has its zeros set to NaN in place |
| `FeepsPad.NormalizeAngles` | build/lib/pyrfu/mms/calc_feeps_pad.py:88 | after the zero-to-NaN pass each buffer row is the specified flux row and pitch-angle row |
| `FeepsPad.FillBinCell` | build/lib/pyrfu/mms/calc_feeps_pad.py:96-105 | one output cell receives the bin's specified value and every other cell is untouched |
| `FeepsPad.FillBinRow` | build/lib/pyrfu/mms/calc_feeps_pad.py:94-105 | one time's row receives every bin's specified value and the other rows are untouched |
| `FeepsPad.BinFluxes` | build/lib/pyrfu/mms/calc_feeps_pad.py:90-105 | the fresh output has one row per time and one column per label, and each cell is its bin's value |
| `FeepsPad.BinStage` | build/lib/pyrfu/mms/calc_feeps_pad.py:88-109 | the bin stage yields a fresh distribution equal to the specified distribution of the column buffers |
| `FeepsPad.PadFromColumns` | build/lib/pyrfu/mms/calc_feeps_pad.py:57-109 | given a column map, either no bins exist and the call fails, or the result is the specified distribution of the sensors' pre-normalisation means; the sensors' zeros become NaN in place |
| `FeepsPad.CalcFeepsPad` | build/lib/pyrfu/mms/calc_feeps_pad.py:13-109 | errors come in source order: energy below 32 keV, zero bin size, no column map, no bins. Every early error leaves the input untouched; otherwise the result is the specified pitch-angle distribution |
| `NanStats.ZeroToNaN` | build/lib/pyrfu/mms/calc_feeps_pad.py:71 | a sample becomes NaN if and only if it is NaN or zero, and otherwise it is unchanged |
| `NanStats.ZeroToNaNIdempotent` | build/lib/pyrfu/mms/calc_feeps_pad.py:88 | setting zeros to NaN a second time changes nothing |
| `NanStats.IndicesWhere` | build/lib/pyrfu/mms/calc_feeps_pad.py:77 | the indices returned are exactly those satisfying the predicate, in increasing order |
| `NanStats.Pick` | build/lib/pyrfu/mms/calc_feeps_pad.py:81 | fancy indexing returns the samples at the given indices in order |
| `NanStats.NanMeanMissingIff` | build/lib/pyrfu/mms/calc_feeps_pad.py:81 | the NaN-ignoring mean is NaN if and only if every sample is NaN |
| `NanStats.NanMeanBounds` | build/lib/pyrfu/mms/calc_feeps_pad.py:103 | the NaN-ignoring mean lies between any bounds of the present samples |
| `NanStats.NanMeanOfConstant` | build/lib/pyrfu/mms/calc_feeps_pad.py:103 | the mean of samples that are all NaN or equal to c, with at least one present, is c |
| `NanStats.NanMeanSingleton` | build/lib/pyrfu/mms/calc_feeps_pad.py:101-105 | the mean of one sample is that sample |
| `FeepsEnergyTable.BaseTable` | pyrfu/mms/get_feeps_energy_table.py:50-55 | the base table has 16 strictly increasing energies, starting at 57.9 keV for sensors 6-8 and 33.2 keV otherwise |
| `FeepsEnergyTable.PyIndex` | pyrfu/mms/get_feeps_energy_table.py:57 | Python indexing succeeds if and only if -n <= i < n, and a negative index counts from the end |
| `FeepsEnergyTable.EnergyTable` | pyrfu/mms/get_feeps_energy_table.py:41-57 | a table has 16 entries, and the error is a KeyError exactly when the spacecraft and eye pair is unknown |
| `FeepsEnergyTable.DefaultEnergyTable` | pyrfu/mms/get_feeps_energy_table.py:12-57 | with the default arguments the table runs from 47.2 to 589.8 keV |
| `FeepsEnergyTable.RowsHoldTwelveOffsets` | pyrfu/mms/get_feeps_energy_table.py:41-48 | every offset row has one entry per sensor, 12 in all |
| `FeepsEnergyTable.RowKeyParts` | pyrfu/mms/get_feeps_energy_table.py:41-48 | every known key names spacecraft 1-4 and eye top or bot |
| `FeepsEnergyTable.EnergyTableOkIff` | pyrfu/mms/get_feeps_energy_table.py:41-57 | a table is produced if and only if the spacecraft is 1-4, the eye is top or bot and the sensor id is in -11..12 |
| `FeepsEnergyTable.KnownRowKeys` | pyrfu/mms/get_feeps_energy_table.py:41-48 | every spacecraft 1-4 with either eye has an offset row |
| `FeepsEnergyTable.UniformOffset` | pyrfu/mms/get_feeps_energy_table.py:57 | a table is either all NaN (a dead sensor) or the base table shifted by one offset, so it keeps the base table's steps and stays increasing |
| `FeepsEnergyTable.FirstEntry` | pyrfu/mms/get_feeps_energy_table.py:50-57 | the first entry is the first base energy shifted by the sensor's offset |
| `FeepsEnergyTable.DeadSensorExample` | pyrfu/mms/get_feeps_energy_table.py:42-57 | a sensor with a NaN offset gets an all-NaN table |
| `FeepsEnergyTable.SensorIdOutOfRange` | pyrfu/mms/get_feeps_energy_table.py:57 | a sensor id outside -11..12 raises IndexError for index `sensor_id - 1` |
| `FeepsEnergyTable.SensorZeroReadsSensorTwelve` | pyrfu/mms/get_feeps_energy_table.py:57 | sensor id 0 reads the last offset through index -1, giving the same table as sensor 12 |
| `FindClosest.Nearest` | pyrfu/pyrf/find_closest.py:55-60 | the nearest-neighbour index minimises the distance and is the lowest such index on ties |
| `FindClosest.NearestOfMember` | pyrfu/pyrf/find_closest.py:76-80 | a member of a strictly increasing line is its own nearest neighbour |
| `FindClosest.MarkNearest` | pyrfu/pyrf/find_closest.py:54-62 | a flag is set if and only if its time is the nearest neighbour of some time on the other line |
| `FindClosest.Marked` | pyrfu/pyrf/find_closest.py:64-65 | the positions of set flags are exactly the flagged indices, in increasing order |
| `FindClosest.Kept` | pyrfu/pyrf/find_closest.py:67-70 | deleting the unflagged entries keeps the flagged ones in order |
| `FindClosest.KeptProperties` | pyrfu/pyrf/find_closest.py:66-71 | pruning keeps a line increasing and a subsequence of the original; the line is non-empty when something is flagged, and shorter when something is unflagged |
| `FindClosest.PruneOnce` | pyrfu/pyrf/find_closest.py:53-71 | one round prunes the first line if it has an unflagged time, else the second if it has one, and otherwise the lines are mutually nearest; its result is the round function `Step` |
| `FindClosest.Step` | pyrfu/pyrf/find_closest.py:64-71 | a pruned line is shorter and still non-empty, and a round settles if and only if the lines are mutually nearest |
| `FindClosest.Pruned` | pyrfu/pyrf/find_closest.py:53-71 | repeating rounds until one settles ends, from any non-empty lines, in a pair of non-empty, mutually nearest lines |
| `FindClosest.SettledIsFixpoint` | pyrfu/pyrf/find_closest.py:70-71 | lines that are already mutually nearest are returned unchanged |
| `FindClosest.SameLineKept` | pyrfu/pyrf/find_closest.py:53-74 | two copies of one strictly increasing line keep every sample |
| `FindClosest.UnmarkedIff` | pyrfu/pyrf/find_closest.py:64-66 | no unflagged index is found if and only if every flag is set |
| `FindClosest.FindClosest` | pyrfu/pyrf/find_closest.py:47-82 | the survivors are exactly the lines the rounds settle on (`Pruned`). They are non-empty, increasing subsequences of the inputs at the returned indices, and mutually nearest; at most `n1 + n2 - 1` rounds are run |
| `FindClosest.Locate` | pyrfu/pyrf/find_closest.py:76-80 | looking survivors up by nearest neighbour returns their original positions |
| `VdfToDeflux.MassRatio` | pyrfu/mms/vdf_to_deflux.py:24-32 | a positive ratio exists if and only if the species is ions, i, electrons or e; otherwise the error is an invalid species |
| `VdfToDeflux.MassRatioValues` | pyrfu/mms/vdf_to_deflux.py:24-32 | ions give 1 and electrons give m_e/m_p, which is below 0.001; the name is case sensitive |
| `VdfToDeflux.Lower` | pyrfu/mms/vdf_to_deflux.py:36 | lower-casing keeps the length and maps every character |
| `VdfToDeflux.UnitFactor` | pyrfu/mms/vdf_to_deflux.py:36-43 | a factor of at least 1 exists if and only if the lower-cased unit is one of the three phase-space-density units |
| `VdfToDeflux.Denominator` | pyrfu/mms/vdf_to_deflux.py:42-45 | the conversion denominator is positive for every positive mass ratio |
| `VdfToDeflux.Scale` | pyrfu/mms/vdf_to_deflux.py:35-45 | a scale exists exactly when the unit is valid; it is positive, and times the denominator it gives the unit factor |
| `VdfToDeflux.UnitFactors` | pyrfu/mms/vdf_to_deflux.py:36-43 | the factors are 1e30, 1e18 and 1 for cm, m and km, each 1e12 or 1e18 apart, with case folded; an unknown unit fails |
| `VdfToDeflux.UnitFactorIgnoresCase` | pyrfu/mms/vdf_to_deflux.py:36 | the unit factor depends only on the lower-cased unit |
| `VdfToDeflux.Squeeze` | pyrfu/mms/vdf_to_deflux.py:99 | squeezing keeps only axes of the shape that are not 1 |
| `VdfToDeflux.SqueezeKeepsIff` | pyrfu/mms/vdf_to_deflux.py:99 | squeezing leaves a shape unchanged if and only if it has no axis of length 1 |
| `VdfToDeflux.SqueezedShapeIff` | pyrfu/mms/vdf_to_deflux.py:79-99 | padding and then squeezing restores the shape if and only if it has no axis of length 1 |
| `VdfToDeflux.CellCount` | pyrfu/mms/vdf_to_deflux.py:82-83 | the reshape to time by energy by rest keeps the number of cells |
| `VdfToDeflux.CellCoordinates` | pyrfu/mms/vdf_to_deflux.py:82-91 | the flat index of cell (t, e, k) is in range and decodes back to time t and energy channel e |
| `VdfToDeflux.ScaleByEnergy` | pyrfu/mms/vdf_to_deflux.py:95 | in place, every flat cell is multiplied by the square of the energy broadcast to its time and channel |
| `VdfToDeflux.ScaledData` | pyrfu/mms/vdf_to_deflux.py:75-95 | the new data is the old data times the scale times the squared energy of each cell |
| `VdfToDeflux.WeightedCells` | pyrfu/mms/vdf_to_deflux.py:85-95 | in coordinates, cell (t, e, k) is the input times the scale times the squared energy at time t and channel e |
| `VdfToDeflux.Convert` | pyrfu/mms/vdf_to_deflux.py:73-102 | the conversion fails if and only if some check fails, with the first error in source order; otherwise the units become keV/(cm^2 s sr keV), the shape and energy are kept and every cell is energy-weighted |
| `Increments.Clamp` | build/lib/pyrfu/pyrf/increments.py:48 | a Python slice bound never exceeds the length |
| `Increments.AbsDiff` | build/lib/pyrfu/pyrf/increments.py:48 | each entry of a row difference is the non-negative absolute difference |
| `Increments.Lift` | build/lib/pyrfu/pyrf/increments.py:43-46 | a one-dimensional series becomes one single-entry row per sample |
| `Increments.Pairwise` | build/lib/pyrfu/pyrf/increments.py:48 | the difference of two row blocks pairs row i with row i |
| `Increments.PositiveScaleDeltas` | build/lib/pyrfu/pyrf/increments.py:48 | for a positive scale there are `max(0, n - scale)` rows, and row i is the absolute difference of rows i + scale and i |
| `Increments.PositiveScale` | build/lib/pyrfu/pyrf/increments.py:43-55 | for a positive scale the result has `max(0, n - scale)` rows of the input width, holds the increments and keeps the first times, the labels, the dimensions and the attributes |
| `Increments.NonNegative` | build/lib/pyrfu/pyrf/increments.py:48 | every increment is non-negative |
| `Increments.ZeroScale` | build/lib/pyrfu/pyrf/increments.py:48 | scale 0 succeeds if and only if there is at most one row, and then the result is empty |
| `Increments.OnlyTwoDimensional` | build/lib/pyrfu/pyrf/increments.py:52-55 | an input that is not two-dimensional fails at the labelling step |
| `Increments.LiftedIncrements` | build/lib/pyrfu/pyrf/increments.py:43-48 | a one-dimensional series is differenced as a single column |
| `Increments.TranslationInvariant` | build/lib/pyrfu/pyrf/increments.py:48-55 | adding a constant to every sample leaves the increments unchanged |
| `Increments.Triangle` | build/lib/pyrfu/pyrf/increments.py:48 | the increment over twice the scale is at most the sum of the two increments it spans |
| `Cross.Orthogonal` | pyrfu/pyrf/cross.py:41 | the cross product is orthogonal to both factors |
| `Cross.Anticommutative` | pyrfu/pyrf/cross.py:41 | swapping the factors negates the cross product |
| `Cross.SelfIsZero` | pyrfu/pyrf/cross.py:41 | a vector crossed with itself is zero |
| `Cross.CrossRows` | pyrfu/pyrf/cross.py:41 | a row-wise cross product exists only for two matrices |
| `Cross.TypeErrorIff` | pyrfu/pyrf/cross.py:32-36 | the call raises TypeError if and only if either input is not a DataArray |
| `Cross.RowByRow` | pyrfu/pyrf/cross.py:38-43 | for equal-length three-column inputs, each output row is the cross product of the matching input rows, labelled on the first input's times |
| `Cross.CrossRowsOfTriples` | pyrfu/pyrf/cross.py:41 | two equally long three-column matrices give a three-column result holding the row-wise cross products |
| `Cross.SwapNegates` | pyrfu/pyrf/cross.py:41-43 | swapping two equal-length inputs negates every output row |
| `Cross.RowsOrthogonal` | pyrfu/pyrf/cross.py:41 | every output row is orthogonal to both input rows |
| `Cross.ResampledWhenLengthsDiffer` | pyrfu/pyrf/cross.py:38-39 | when the lengths differ, the result is the one for the second input resampled onto the first |
| `TsVecXyz.TensorAttrs` | build/lib/pyrfu/pyrf/ts_vec_xyz.py:44-56 | the output attributes always carry `TENSOR_ORDER = 1` |
| `TsVecXyz.VecSeries` | build/lib/pyrfu/pyrf/ts_vec_xyz.py:39-56 | a series is built if and only if the data has three columns and one row per time. Otherwise it is an AssertionError, or an IndexError for a length mismatch; the result carries the time and x, y, z labels |
| `TsVecXyz.BuildVecSeries` | build/lib/pyrfu/pyrf/ts_vec_xyz.py:39-58 | the method, which updates the attributes step by step, returns exactly the specified series |
| `TsVecXyz.ResultIsLabelled` | build/lib/pyrfu/pyrf/ts_vec_xyz.py:49 | a built series is a well-labelled DataArray |
| `TsVecXyz.AttrsKeptExceptTensorOrder` | build/lib/pyrfu/pyrf/ts_vec_xyz.py:44-56 | the output attributes are the supplied ones plus `TENSOR_ORDER`, each other value kept |
| `TsVecXyz.SuppliedTensorOrderOverwritten` | build/lib/pyrfu/pyrf/ts_vec_xyz.py:51-54 | a supplied tensor order other than 1 is overwritten with 1 |

## Findings

| source | as written | input that shows it | evidently intended | confidence | as-written member | corrected member |
|---|---|---|---|---|---|---|
| build/lib/pyrfu/mms/calc_feeps_pad.py:36-44 | the survey branch reads `idx_maps`, which is never defined, and maps the ion top eyes through the electron-top entry | `tmmode="srvy"` with any species: the lookup raises before any flux is read | each species uses its own `<species>-top` and `<species>-bottom` survey maps | high (not executed) | `FeepsPad.PadColumnsAsWritten` | `FeepsPad.PadColumnsCorrected` |

The rest of the model (`FeepsPad.CalcFeepsPad`) uses the corrected
`FeepsPad.PadColumns`. The survey index maps are a parameter (`idxMaps`),
because the source never defines their contents.

## Left out

- Particle species other than electrons and ions are not modelled. The
  source leaves the response and buffers unbound for them, and `Species`
  has only two values.
- The output's time coordinate and attributes are not modelled. The source
  takes the times from the last sensor read, while `Pad` carries only the
  flux and the bin labels.
- The collaborators `feeps_pitch_angles`, `get_feeps_active_eyes` and the
  dataset lookup are parameters: the pitch-angle array, the active-eye lists
  and the `Dataset` map.
- The message printed for an energy below 32 keV is not modelled, nor is the
  warning suppression. Only the `None` return is kept, as
  `Err(EnergyTooLow)`.
- Default arguments are not modelled as defaults: the model's callers pass
  every argument, including `calc_feeps_pad`'s `energy=[70, 600]` and
  `increments`' `scale=10`. The default bin size's bins are stated by
  `FeepsPadRules.DefaultBins`, and the default energy table by
  `FeepsEnergyTable.DefaultEnergyTable`.
- Floating point is modelled as real arithmetic: no rounding, overflow or
  infinities. NaN is `None`.
- Shape errors that numpy or xarray would raise on malformed inputs are
  excluded by `WellFormed` preconditions in `FeepsPad` and `VdfToDeflux`
  rather than modelled as errors. These are mismatched array shapes, a
  pitch-angle array narrower than the column map, and a missing energy
  coordinate.
- `FeepsPad.CalcFeepsPad` requires every active sensor's variable to be in
  the dataset. The source raises KeyError when one is missing, and that
  error is not modelled.
- `FeepsPad.CalcFeepsPad` requires at most as many active eyes as
  column-map entries for each eye. With more, the source raises IndexError
  on `pa_map[isen]`, unless the extra sensor is skipped for a NaN first
  energy, in which case the source goes on.
- `FeepsPad.CalcFeepsPad` requires a column map of non-zero width. With
  width zero, the source raises IndexError when it reads the first pitch
  angle of a time row.
- `FeepsPad.CalcFeepsPad` does not state the output's time coordinate or
  attributes (see above).
- `increments` returns the kurtosis of the result alongside it. The
  kurtosis is a scipy call and is not modelled; only the increments are.
- `cross` calls `resample`, which is signal-processing code outside this
  core, so it is a parameter. np.cross on inputs of rank three or more is
  not modelled: such inputs give the single error value
  `IncompatibleDimensions`.
- Arrays of rank three or more are one abstract `Higher` case of `NdArray`.
  The model states only that they are not two-dimensional.
- `find_closest` as written has three defects that make it raise for most
  inputs. `nt1` and `nt2` are not updated after entries are deleted, float
  arrays are used as indices, and the truth value of a multi-element array
  is taken. The model follows the evident algorithm: prune by
  nearest-neighbour flags until both lines are mutually nearest.
- `FindClosest.FindClosest` requires strictly increasing, non-empty time
  lines. This is the source's implicit assumption: with repeated times the
  nearest-neighbour interpolation is not well defined.
- `FindClosest.FindClosest` returns indices as integers, whereas the
  source's interpolation returns floats.
- `VdfToDeflux.Lower` folds only ASCII letters. Python's `str.lower` also
  folds other Unicode letters, which no valid unit contains.
- `VdfToDeflux.MassRatioValues` uses the CODATA 2018 masses as exact
  rationals.
- `vdf.copy()` is a value copy in the model. Coordinates other than time and
  energy, and attributes other than species and units, are not modelled.
- The bin count follows the code's `int()` truncation (`FeepsPadRules.Trunc`).
  A ceiling would add a partial bin at the end.
- `TsVecXyz.BuildVecSeries` models the attribute dictionary as a value.
  xarray copies it on assignment, so the caller's dictionary is never
  aliased.
- The other modules of pyrfu are not part of this model. These include
  plotting, file I/O, the spacecraft-data loaders and the remaining
  `pyrf` transforms.
