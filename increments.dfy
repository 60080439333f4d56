/**
 * `increments`: the absolute increments `|x[i + scale] - x[i]|` of a time
 * series, row by row, labelled with the first input times, the input's
 * column labels, dimension names and attributes. The two row slices are
 * Python slices (`data[scale:]` and `data[:-scale]`), so every integer
 * scale is taken as Python takes it, with numpy's broadcasting of a single
 * row; slices of other unequal lengths fail.
 */
module Increments {
  import opened Wrappers
  import opened XArray

  datatype IncError =
    | BroadcastError      // the two row slices have unequal lengths, neither of them one
    | NotTwoDimensional   // the labelled result needs exactly two dimension names

  /** Python's clamping of a slice bound `b` into `[0, n]` (negative bounds count from the end). */
  function Clamp(b: int, n: nat): (r: nat)
    ensures r <= n
  {
    if b < 0 then (if n + b < 0 then 0 else n + b) else if b > n then n else b
  }

  function Abs(x: real): real
  {
    if x < 0.0 then -x else x
  }

  /** Componentwise `|u - l|` of two rows of one width. */
  function AbsDiff(u: seq<real>, l: seq<real>): (d: seq<real>)
    requires |u| == |l|
    ensures |d| == |u|
    ensures forall j :: 0 <= j < |d| ==> d[j] == Abs(u[j] - l[j]) && d[j] >= 0.0
  {
    seq(|u|, j requires 0 <= j < |u| => Abs(u[j] - l[j]))
  }

  /** `data[:, np.newaxis]`: each sample becomes a one-column row. */
  function Lift(v: seq<real>): (rows: seq<seq<real>>)
    ensures |rows| == |v|
    ensures forall i :: 0 <= i < |v| ==> rows[i] == [v[i]]
  {
    seq(|v|, i requires 0 <= i < |v| => [v[i]])
  }

  /** Row-by-row `|upper - lower|` of two equally long slices. */
  function Pairwise(upper: seq<seq<real>>, lower: seq<seq<real>>, width: nat): (d: seq<seq<real>>)
    requires |upper| == |lower|
    requires forall i :: 0 <= i < |upper| ==> |upper[i]| == |lower[i]| == width
    ensures |d| == |upper|
    ensures forall i :: 0 <= i < |d| ==> d[i] == AbsDiff(upper[i], lower[i])
  {
    seq(|upper|, i requires 0 <= i < |upper| => AbsDiff(upper[i], lower[i]))
  }

  /** `np.abs(data[scale:, :] - data[:-scale, :])` over rows of width `width`. */
  function Deltas(rows: seq<seq<real>>, width: nat, scale: int): Result<seq<seq<real>>, IncError>
    requires forall row :: row in rows ==> |row| == width
  {
    var upper := rows[Clamp(scale, |rows|)..];
    var lower := rows[..Clamp(-scale, |rows|)];
    assert forall i :: 0 <= i < |upper| ==> upper[i] in rows;
    assert forall i :: 0 <= i < |lower| ==> lower[i] in rows;
    if |upper| == |lower| then Ok(Pairwise(upper, lower, width))
    else if |upper| + |lower| == 1 then Ok([])  // one row broadcast against none
    else Err(BroadcastError)
  }

  /** The whole routine (without the kurtosis it also returns). */
  function Increments(inp: DataArray, scale: int): Result<DataArray, IncError>
    requires Labelled(inp)
  {
    match inp.data
    case Vector(v) =>
      if Deltas(Lift(v), 1, scale).Err? then Err(BroadcastError) else Err(NotTwoDimensional)
    case Higher(_) => Err(NotTwoDimensional)
    case Matrix(width, rows) =>
      match Deltas(rows, width, scale)
      case Err(e) => Err(e)
      case Ok(d) =>
        Ok(DataArray(Matrix(width, d), inp.dims, inp.time[..Clamp(|d|, |inp.time|)], inp.comps, inp.attrs))
  }

  /** `d` holds `m` rows, row i being `|rows[i + scale] - rows[i]|` componentwise. */
  ghost predicate IncrementTable(d: seq<seq<real>>, rows: seq<seq<real>>, width: nat, scale: nat, m: nat)
    requires forall row :: row in rows ==> |row| == width
    requires m == 0 || m + scale <= |rows|
  {
    |d| == m &&
    forall i :: 0 <= i < m ==>
      |d[i]| == width == |rows[i]| == |rows[i + scale]| &&
      forall j :: 0 <= j < width ==> d[i][j] == Abs(rows[i + scale][j] - rows[i][j])
  }

  /** For a positive scale the two slices are rows `scale..n` and `0..n - scale`. */
  lemma PositiveScaleDeltas(rows: seq<seq<real>>, width: nat, scale: int)
    requires forall row :: row in rows ==> |row| == width
    requires scale >= 1
    ensures Deltas(rows, width, scale).Ok?
    ensures IncrementTable(Deltas(rows, width, scale).value, rows, width, scale,
                           if |rows| > scale then |rows| - scale else 0)
  {
    var n := |rows|;
    var m := if n > scale then n - scale else 0;
    var lo := Clamp(scale, n);
    assert lo + m == n && Clamp(-scale, n) == m;
    var upper := rows[lo..];
    var lower := rows[..m];
    var d := Deltas(rows, width, scale).value;
    assert d == Pairwise(upper, lower, width);
    forall i | 0 <= i < m
      ensures |d[i]| == width == |rows[i]| == |rows[i + scale]|
      ensures forall j :: 0 <= j < width ==> d[i][j] == Abs(rows[i + scale][j] - rows[i][j])
    {
      assert upper[i] == rows[i + scale] && lower[i] == rows[i];
      assert rows[i] in rows && rows[i + scale] in rows;
    }
  }

  /**
   * For a positive scale the result has `max(0, n - scale)` rows of the
   * input's width, row i is `|x[i + scale] - x[i]|`, the times are the first
   * input times and the labels, dimension names and attributes are kept.
   */
  lemma PositiveScale(inp: DataArray, scale: int)
    requires Labelled(inp) && inp.data.Matrix? && scale >= 1
    ensures Increments(inp, scale).Ok?
    ensures var r := Increments(inp, scale).value;
      var m := if |inp.data.rows| > scale then |inp.data.rows| - scale else 0;
      r.data.Matrix? && r.data.width == inp.data.width &&
      IncrementTable(r.data.rows, inp.data.rows, inp.data.width, scale, m) &&
      r.time == inp.time[..m] && r.comps == inp.comps && r.dims == inp.dims && r.attrs == inp.attrs
  {
    PositiveScaleDeltas(inp.data.rows, inp.data.width, scale);
  }

  /** Every increment is non-negative, whatever the scale. */
  lemma NonNegative(inp: DataArray, scale: int)
    requires Labelled(inp) && Increments(inp, scale).Ok?
    ensures var r := Increments(inp, scale).value;
      r.data.Matrix? &&
      forall i, j :: 0 <= i < |r.data.rows| && 0 <= j < |r.data.rows[i]| ==> r.data.rows[i][j] >= 0.0
  {
  }

  /** A zero scale pairs all rows with none: two or more rows cannot be broadcast. */
  lemma ZeroScale(inp: DataArray)
    requires Labelled(inp) && inp.data.Matrix?
    ensures Increments(inp, 0).Ok? <==> |inp.data.rows| <= 1
    ensures Increments(inp, 0).Ok? ==> Increments(inp, 0).value.data.rows == []
  {
  }

  /** Only a two-dimensional input gets a labelled result. */
  lemma OnlyTwoDimensional(inp: DataArray, scale: int)
    requires Labelled(inp) && !inp.data.Matrix?
    ensures Increments(inp, scale).Err?
  {
  }

  /** A one-dimensional input is differenced as a single column before the labelling fails. */
  lemma LiftedIncrements(v: seq<real>, scale: int)
    requires scale >= 1 && |v| > scale
    ensures Deltas(Lift(v), 1, scale).Ok?
    ensures var d := Deltas(Lift(v), 1, scale).value;
      |d| == |v| - scale && forall i :: 0 <= i < |d| ==> d[i] == [Abs(v[i + scale] - v[i])]
  {
    PositiveScaleDeltas(Lift(v), 1, scale);
    forall i | 0 <= i < |v| - scale
      ensures Deltas(Lift(v), 1, scale).value[i] == [Abs(v[i + scale] - v[i])]
    {
      LiftedAt(v, scale, i);
    }
  }

  lemma LiftedAt(v: seq<real>, scale: int, i: nat)
    requires scale >= 1 && i + scale < |v|
    ensures Deltas(Lift(v), 1, scale).Ok?
    ensures var d := Deltas(Lift(v), 1, scale).value;
      i < |d| && d[i] == [Abs(v[i + scale] - v[i])]
  {
    var rows := Lift(v);
    DeltaAt(rows, 1, scale, i, 0);
    var d := Deltas(rows, 1, scale).value;
    assert rows[i + scale] == [v[i + scale]] && rows[i] == [v[i]];
    assert |d[i]| == 1;
  }

  /** Shifting every sample by the same constant leaves the increments unchanged. */
  lemma TranslationInvariant(inp: DataArray, scale: int, c: real)
    requires Labelled(inp) && inp.data.Matrix? && scale >= 1
    ensures Labelled(Shifted(inp, c)) && Increments(Shifted(inp, c), scale) == Increments(inp, scale)
  {
    var shifted := Shifted(inp, c);
    DeltasShift(inp.data.rows, shifted.data.rows, inp.data.width, scale, c);
  }

  lemma DeltasShift(rows: seq<seq<real>>, srows: seq<seq<real>>, width: nat, scale: int, c: real)
    requires forall row :: row in rows ==> |row| == width
    requires forall row :: row in srows ==> |row| == width
    requires |srows| == |rows| && scale >= 1
    requires forall i, j :: 0 <= i < |rows| && 0 <= j < width ==> srows[i][j] == rows[i][j] + c
    ensures Deltas(srows, width, scale) == Deltas(rows, width, scale)
  {
    var m := if |rows| > scale then |rows| - scale else 0;
    PositiveScaleDeltas(rows, width, scale);
    PositiveScaleDeltas(srows, width, scale);
    var a := Deltas(rows, width, scale).value;
    var b := Deltas(srows, width, scale).value;
    assert IncrementTable(a, rows, width, scale, m);
    assert IncrementTable(b, srows, width, scale, m);
    forall i | 0 <= i < m ensures a[i] == b[i] {
      forall j | 0 <= j < width ensures a[i][j] == b[i][j] {
        assert srows[i + scale][j] - srows[i][j] == rows[i + scale][j] - rows[i][j];
      }
      assert |a[i]| == |b[i]| == width;
    }
    assert a == b;
  }

  /** The input with the same constant added to every sample. */
  function Shifted(inp: DataArray, c: real): (r: DataArray)
    requires Labelled(inp) && inp.data.Matrix?
    ensures Labelled(r) && r.data.Matrix? && r.data.width == inp.data.width
    ensures |r.data.rows| == |inp.data.rows|
    ensures forall i, j :: 0 <= i < |inp.data.rows| && 0 <= j < inp.data.width ==>
      r.data.rows[i][j] == inp.data.rows[i][j] + c
    ensures r.time == inp.time && r.comps == inp.comps && r.dims == inp.dims && r.attrs == inp.attrs
  {
    var rows := inp.data.rows;
    assert forall i :: 0 <= i < |rows| ==> rows[i] in rows;
    var srows := seq(|rows|, i requires 0 <= i < |rows| =>
      seq(inp.data.width, j requires 0 <= j < inp.data.width => rows[i][j] + c));
    inp.(data := Matrix(inp.data.width, srows))
  }

  /**
   * Increments compose: the increment over `2 * scale` is at most the sum of
   * the two increments over `scale` that span it.
   */
  lemma Triangle(rows: seq<seq<real>>, width: nat, scale: int, i: nat, j: nat)
    requires forall row :: row in rows ==> |row| == width
    requires scale >= 1 && i + 2 * scale < |rows| && j < width
    ensures Deltas(rows, width, scale).Ok? && Deltas(rows, width, 2 * scale).Ok?
    ensures var r1 := Deltas(rows, width, scale).value;
      var r2 := Deltas(rows, width, 2 * scale).value;
      i + scale < |r1| && i < |r2| && j < |r1[i]| && j < |r1[i + scale]| && j < |r2[i]| &&
      r2[i][j] <= r1[i][j] + r1[i + scale][j]
  {
    var k := i + scale;
    var far := 2 * scale;
    assert k + scale == i + far;
    DeltaAt(rows, width, scale, i, j);
    DeltaAt(rows, width, scale, k, j);
    DeltaAt(rows, width, far, i, j);
    AbsTriangle(rows[i][j], rows[k][j], rows[i + far][j]);
  }

  /** One entry of the increments at a positive scale. */
  lemma DeltaAt(rows: seq<seq<real>>, width: nat, scale: int, i: nat, j: nat)
    requires forall row :: row in rows ==> |row| == width
    requires scale >= 1 && i + scale < |rows| && j < width
    ensures Deltas(rows, width, scale).Ok?
    ensures var d := Deltas(rows, width, scale).value;
      i < |d| && j < |d[i]| == |rows[i]| == |rows[i + scale]| &&
      d[i][j] == Abs(rows[i + scale][j] - rows[i][j])
  {
    PositiveScaleDeltas(rows, width, scale);
  }

  lemma AbsTriangle(a: real, b: real, c: real)
    ensures Abs(c - a) <= Abs(b - a) + Abs(c - b)
  {
  }
}
