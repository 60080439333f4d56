/**
 * `cross`: the row-by-row cross product of two vector time series, labelled
 * with the first series' times as a first-order tensor series. Both
 * arguments must be labelled arrays; when their lengths differ the second
 * is first resampled onto the first (resampling is a collaborator outside
 * this model and is a parameter here). numpy's cross product accepts rows
 * of two or three components, a two-component row standing for one with a
 * zero third component; two two-component operands give a single component
 * per row, which the labelling then refuses.
 */
module Cross {
  import opened Wrappers
  import opened XArray
  import opened TsVecXyz

  /** An argument: a labelled array, or any other Python object. */
  datatype Operand = DataArg(x: DataArray) | NotDataArray

  datatype CrossError =
    | TypeError                // an argument is not a labelled array
    | IncompatibleDimensions   // not a matrix, or rows of neither two nor three components
    | BroadcastError           // row counts differ and neither is one
    | Series(e: TsError)       // the labelling of the result failed

  datatype Vec3 = Vec3(x: real, y: real, z: real)

  function CrossProduct(a: Vec3, b: Vec3): Vec3
  {
    Vec3(a.y * b.z - a.z * b.y, a.z * b.x - a.x * b.z, a.x * b.y - a.y * b.x)
  }

  function Dot(a: Vec3, b: Vec3): real
  {
    a.x * b.x + a.y * b.y + a.z * b.z
  }

  function Neg(a: Vec3): Vec3
  {
    Vec3(-a.x, -a.y, -a.z)
  }

  /** `a x b` is orthogonal to both `a` and `b`. */
  lemma Orthogonal(a: Vec3, b: Vec3)
    ensures Dot(CrossProduct(a, b), a) == 0.0
    ensures Dot(CrossProduct(a, b), b) == 0.0
  {
    var c := CrossProduct(a, b);
    assert Dot(c, a) == (a.y * b.z) * a.x - (a.z * b.y) * a.x + (a.z * b.x) * a.y
                        - (a.x * b.z) * a.y + (a.x * b.y) * a.z - (a.y * b.x) * a.z;
    assert Dot(c, b) == (a.y * b.z) * b.x - (a.z * b.y) * b.x + (a.z * b.x) * b.y
                        - (a.x * b.z) * b.y + (a.x * b.y) * b.z - (a.y * b.x) * b.z;
  }

  lemma Anticommutative(a: Vec3, b: Vec3)
    ensures CrossProduct(a, b) == Neg(CrossProduct(b, a))
  {
  }

  lemma SelfIsZero(a: Vec3)
    ensures CrossProduct(a, a) == Vec3(0.0, 0.0, 0.0)
  {
  }

  /** A row of two or three components as a 3-vector (a missing third component is zero). */
  function AsVec3(row: seq<real>): Vec3
    requires |row| == 2 || |row| == 3
  {
    if |row| == 2 then Vec3(row[0], row[1], 0.0) else Vec3(row[0], row[1], row[2])
  }

  function AsRow(v: Vec3): seq<real>
  {
    [v.x, v.y, v.z]
  }

  /** The row of `rows` that meets output row `i` (a single row is broadcast). */
  function RowAt(rows: seq<seq<real>>, i: nat): seq<real>
    requires |rows| > 0
  {
    if |rows| == 1 then rows[0] else if i < |rows| then rows[i] else rows[0]
  }

  /** `np.cross(a, b, axis=1)` on two matrices. */
  function CrossRows(a: NdArray, b: NdArray): (r: Result<NdArray, CrossError>)
    requires Rectangular(a) && Rectangular(b)
    ensures r.Ok? ==> a.Matrix? && b.Matrix?
  {
    if !(a.Matrix? && b.Matrix?) then Err(IncompatibleDimensions)
    else if !(a.width in {2, 3} && b.width in {2, 3}) then Err(IncompatibleDimensions)
    else if |a.rows| != |b.rows| && |a.rows| != 1 && |b.rows| != 1 then Err(BroadcastError)
    else
      var n := if |a.rows| == 1 then |b.rows| else |a.rows|;
      if n == 0 then Ok(if a.width == 2 && b.width == 2 then Vector([]) else Matrix(3, []))
      else
        assert forall i :: 0 <= i < n ==> RowAt(a.rows, i) in a.rows && RowAt(b.rows, i) in b.rows;
        var c := seq(n, i requires 0 <= i < n => CrossProduct(AsVec3(RowAt(a.rows, i)), AsVec3(RowAt(b.rows, i))));
        if a.width == 2 && b.width == 2 then Ok(Vector(seq(n, i requires 0 <= i < n => c[i].z)))
        else Ok(Matrix(3, seq(n, i requires 0 <= i < n => AsRow(c[i]))))
  }

  /** The whole routine, with `resample` the collaborator that puts `inp2` on `inp1`'s times. */
  function Cross(inp1: Operand, inp2: Operand, resample: (DataArray, DataArray) -> DataArray): Result<DataArray, CrossError>
    requires inp1.DataArg? ==> Labelled(inp1.x)
    requires inp2.DataArg? ==> Labelled(inp2.x)
    requires inp1.DataArg? && inp2.DataArg? && Len(inp1.x.data) != Len(inp2.x.data) ==>
      Labelled(resample(inp2.x, inp1.x))
  {
    if inp1.NotDataArray? || inp2.NotDataArray? then Err(TypeError)
    else
      var x2 := if Len(inp1.x.data) != Len(inp2.x.data) then resample(inp2.x, inp1.x) else inp2.x;
      match CrossRows(inp1.x.data, x2.data)
      case Err(e) => Err(e)
      case Ok(out) =>
        match VecSeries(inp1.x.time, out, None)
        case Err(e) => Err(Series(e))
        case Ok(series) => Ok(series)
  }

  /** Either argument not being a labelled array is a type error. */
  lemma TypeErrorIff(inp1: Operand, inp2: Operand, resample: (DataArray, DataArray) -> DataArray)
    requires inp1.DataArg? ==> Labelled(inp1.x)
    requires inp2.DataArg? ==> Labelled(inp2.x)
    requires inp1.DataArg? && inp2.DataArg? && Len(inp1.x.data) != Len(inp2.x.data) ==>
      Labelled(resample(inp2.x, inp1.x))
    ensures Cross(inp1, inp2, resample) == Err(TypeError) <==> inp1.NotDataArray? || inp2.NotDataArray?
  {
    if inp1.DataArg? && inp2.DataArg? {
      var x2 := if Len(inp1.x.data) != Len(inp2.x.data) then resample(inp2.x, inp1.x) else inp2.x;
      assert CrossRows(inp1.x.data, x2.data) != Err(TypeError);
    }
  }

  /**
   * Two three-column series of one length: the result is labelled with the
   * first series' times, carries only `TENSOR_ORDER` = 1, and row i is the
   * cross product of the two rows i; resampling is not used.
   */
  lemma RowByRow(x1: DataArray, x2: DataArray, resample: (DataArray, DataArray) -> DataArray)
    requires Labelled(x1) && Labelled(x2)
    requires x1.data.Matrix? && x2.data.Matrix? && x1.data.width == x2.data.width == 3
    requires |x1.data.rows| == |x2.data.rows|
    ensures Cross(DataArg(x1), DataArg(x2), resample).Ok?
    ensures var out := Cross(DataArg(x1), DataArg(x2), resample).value;
      out.time == x1.time && out.dims == Dims && out.comps == Components &&
      out.attrs == map[TensorOrder := IntAttr(1)] &&
      out.data.Matrix? && |out.data.rows| == |x1.data.rows| &&
      forall i :: 0 <= i < |x1.data.rows| ==>
        |x1.data.rows[i]| == |x2.data.rows[i]| == 3 &&
        out.data.rows[i] == AsRow(CrossProduct(AsVec3(x1.data.rows[i]), AsVec3(x2.data.rows[i])))
  {
    CrossRowsOfTriples(x1.data, x2.data);
    assert TensorAttrs(None) == map[TensorOrder := IntAttr(1)];
  }

  /** Two equally long three-column matrices: row i of the product is the cross product of the rows i. */
  lemma CrossRowsOfTriples(a: NdArray, b: NdArray)
    requires Rectangular(a) && Rectangular(b)
    requires a.Matrix? && b.Matrix? && a.width == b.width == 3 && |a.rows| == |b.rows|
    ensures CrossRows(a, b).Ok?
    ensures var c := CrossRows(a, b).value;
      c.Matrix? && c.width == 3 && |c.rows| == |a.rows| &&
      forall i :: 0 <= i < |a.rows| ==>
        |a.rows[i]| == |b.rows[i]| == 3 && c.rows[i] == AsRow(CrossProduct(AsVec3(a.rows[i]), AsVec3(b.rows[i])))
  {
    var n := |a.rows|;
    forall i | 0 <= i < n ensures |a.rows[i]| == |b.rows[i]| == 3 {
      assert a.rows[i] in a.rows && b.rows[i] in b.rows;
    }
    if n > 1 {
      assert forall i :: 0 <= i < n ==> RowAt(a.rows, i) == a.rows[i] && RowAt(b.rows, i) == b.rows[i];
    }
  }

  /** Swapping the arguments negates every row of the result. */
  lemma SwapNegates(x1: DataArray, x2: DataArray, resample: (DataArray, DataArray) -> DataArray)
    requires Labelled(x1) && Labelled(x2)
    requires x1.data.Matrix? && x2.data.Matrix? && x1.data.width == x2.data.width == 3
    requires |x1.data.rows| == |x2.data.rows|
    ensures Cross(DataArg(x1), DataArg(x2), resample).Ok? && Cross(DataArg(x2), DataArg(x1), resample).Ok?
    ensures var ab := Cross(DataArg(x1), DataArg(x2), resample).value.data.rows;
      var ba := Cross(DataArg(x2), DataArg(x1), resample).value.data.rows;
      |ab| == |ba| && forall i :: 0 <= i < |ab| ==> ab[i] == AsRow(Neg(AsVec3Of(ba[i])))
  {
    RowByRow(x1, x2, resample);
    RowByRow(x2, x1, resample);
    var ab := Cross(DataArg(x1), DataArg(x2), resample).value.data.rows;
    var ba := Cross(DataArg(x2), DataArg(x1), resample).value.data.rows;
    forall i | 0 <= i < |ab| ensures ab[i] == AsRow(Neg(AsVec3Of(ba[i]))) {
      Anticommutative(AsVec3(x1.data.rows[i]), AsVec3(x2.data.rows[i]));
    }
  }

  /** Each result row is orthogonal to both input rows it came from. */
  lemma RowsOrthogonal(x1: DataArray, x2: DataArray, resample: (DataArray, DataArray) -> DataArray, i: nat)
    requires Labelled(x1) && Labelled(x2)
    requires x1.data.Matrix? && x2.data.Matrix? && x1.data.width == x2.data.width == 3
    requires |x1.data.rows| == |x2.data.rows| && i < |x1.data.rows|
    ensures Cross(DataArg(x1), DataArg(x2), resample).Ok?
    ensures var out := Cross(DataArg(x1), DataArg(x2), resample).value.data.rows;
      i < |out| && |out[i]| == 3 && |x1.data.rows[i]| == |x2.data.rows[i]| == 3 &&
      Dot(AsVec3Of(out[i]), AsVec3(x1.data.rows[i])) == 0.0 &&
      Dot(AsVec3Of(out[i]), AsVec3(x2.data.rows[i])) == 0.0
  {
    RowByRow(x1, x2, resample);
    Orthogonal(AsVec3(x1.data.rows[i]), AsVec3(x2.data.rows[i]));
  }

  /** A three-component row read back as a vector. */
  function AsVec3Of(row: seq<real>): Vec3
  {
    if |row| == 3 then Vec3(row[0], row[1], row[2]) else Vec3(0.0, 0.0, 0.0)
  }

  /**
   * When the lengths differ, the result is the cross product with the
   * second series resampled onto the first (when resampling yields the
   * first series' length).
   */
  lemma ResampledWhenLengthsDiffer(x1: DataArray, x2: DataArray, resample: (DataArray, DataArray) -> DataArray)
    requires Labelled(x1) && Labelled(x2) && Labelled(resample(x2, x1))
    requires Len(x1.data) != Len(x2.data) && Len(resample(x2, x1).data) == Len(x1.data)
    ensures Cross(DataArg(x1), DataArg(x2), resample) == Cross(DataArg(x1), DataArg(resample(x2, x1)), resample)
  {
  }
}
