/**
 * The slice of xarray's labelled arrays that the time-series helpers use:
 * the data (one-, two- or higher-dimensional), the dimension names, the
 * time coordinate, the component coordinate of the second axis and the
 * attribute dictionary.
 */
module XArray {
  /** An attribute value. */
  datatype Attr = IntAttr(i: int) | TextAttr(s: string)

  type Attrs = map<string, Attr>

  /** An ndarray of reals: a vector, a `[rows x width]` matrix, or one of higher rank. */
  datatype NdArray =
    | Vector(values: seq<real>)
    | Matrix(width: nat, rows: seq<seq<real>>)
    | Higher(rank: nat)

  /** Every row of a matrix has the declared width. */
  ghost predicate Rectangular(a: NdArray)
  {
    a.Matrix? ==> forall row :: row in a.rows ==> |row| == a.width
  }

  /** `len(a)`: the length of the first axis (unknown for higher ranks, which no caller here sizes). */
  function Len(a: NdArray): nat
  {
    match a
    case Vector(values) => |values|
    case Matrix(_, rows) => |rows|
    case Higher(_) => 0
  }

  /** A labelled array: data, dimension names, coordinates of the two axes, attributes. */
  datatype DataArray = DataArray(data: NdArray, dims: seq<string>, time: seq<real>, comps: seq<string>, attrs: Attrs)

  /** What xarray guarantees of a labelled array: one name per axis and coordinates that fit. */
  ghost predicate Labelled(x: DataArray)
  {
    Rectangular(x.data) &&
    |x.time| == Len(x.data) &&
    (x.data.Vector? ==> |x.dims| == 1) &&
    (x.data.Matrix? ==> |x.dims| == 2 && |x.comps| == x.data.width) &&
    (x.data.Higher? ==> |x.dims| == x.data.rank && x.data.rank > 2)
  }
}
