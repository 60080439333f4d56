/**
 * `ts_vec_xyz`: label a `[time x 3]` matrix as a first-order tensor time
 * series. The data must be two-dimensional with three columns and as long
 * as the time axis; the result has dimensions `time` and `comp`, components
 * `x`, `y`, `z`, and attributes that are the supplied ones (or none) with
 * `TENSOR_ORDER` set to 1.
 */
module TsVecXyz {
  import opened Wrappers
  import opened XArray

  datatype TsError =
    | AssertionFailed   // data not two-dimensional with three columns
    | IndexError        // time and data lengths differ

  const TensorOrder: string := "TENSOR_ORDER"
  const Dims: seq<string> := ["time", "comp"]
  const Components: seq<string> := ["x", "y", "z"]

  /** The attributes of the result: the supplied ones, or none, with `TENSOR_ORDER` = 1. */
  function TensorAttrs(attrs: Option<Attrs>): (r: Attrs)
    ensures TensorOrder in r && r[TensorOrder] == IntAttr(1)
  {
    var base := if attrs.Some? then attrs.value else map[];
    base[TensorOrder := IntAttr(1)]
  }

  /** The labelled series `ts_vec_xyz(t, data, attrs)` builds, or the error it raises. */
  function VecSeries(t: seq<real>, data: NdArray, attrs: Option<Attrs>): (r: Result<DataArray, TsError>)
    ensures r.Ok? <==> data.Matrix? && data.width == 3 && |t| == |data.rows|
    ensures !(data.Matrix? && data.width == 3) ==> r == Err(AssertionFailed)
    ensures data.Matrix? && data.width == 3 && |t| != |data.rows| ==> r == Err(IndexError)
    ensures r.Ok? ==>
      r.value.data == data && r.value.time == t && r.value.dims == Dims &&
      r.value.comps == Components && r.value.attrs == TensorAttrs(attrs)
  {
    if !(data.Matrix? && data.width == 3) then Err(AssertionFailed)
    else if |t| != |data.rows| then Err(IndexError)
    else Ok(DataArray(data, Dims, t, Components, TensorAttrs(attrs)))
  }

  /**
   * The source's steps: validate, build the series, then assign the
   * supplied attributes (if any) and set `TENSOR_ORDER` on them in place.
   */
  method BuildVecSeries(t: seq<real>, data: NdArray, attrs: Option<Attrs>) returns (r: Result<DataArray, TsError>)
    ensures r == VecSeries(t, data, attrs)
  {
    if !(data.Matrix? && data.width == 3) {
      return Err(AssertionFailed);
    }
    if |t| != |data.rows| {
      return Err(IndexError);
    }
    var flagAttrs := true;
    if attrs.None? {
      flagAttrs := false;
    }
    var out := DataArray(data, Dims, t, Components, map[]);
    if flagAttrs {
      out := out.(attrs := attrs.value);
      out := out.(attrs := out.attrs[TensorOrder := IntAttr(1)]);
    } else {
      out := out.(attrs := out.attrs[TensorOrder := IntAttr(1)]);
    }
    return Ok(out);
  }

  /** A valid result is a labelled array: one name per axis, coordinates that fit. */
  lemma ResultIsLabelled(t: seq<real>, data: NdArray, attrs: Option<Attrs>)
    requires Rectangular(data) && VecSeries(t, data, attrs).Ok?
    ensures Labelled(VecSeries(t, data, attrs).value)
  {
  }

  /**
   * `TENSOR_ORDER` is 1 whether or not attributes are supplied; every other
   * supplied attribute is kept as it is, and nothing else is added.
   */
  lemma AttrsKeptExceptTensorOrder(attrs: Option<Attrs>)
    ensures TensorAttrs(attrs)[TensorOrder] == IntAttr(1)
    ensures attrs.None? ==> TensorAttrs(attrs).Keys == {TensorOrder}
    ensures attrs.Some? ==> TensorAttrs(attrs).Keys == attrs.value.Keys + {TensorOrder}
    ensures attrs.Some? ==>
      forall k :: k in attrs.value && k != TensorOrder ==> TensorAttrs(attrs)[k] == attrs.value[k]
  {
  }

  /** A supplied `TENSOR_ORDER` is overwritten. */
  lemma SuppliedTensorOrderOverwritten(attrs: Attrs)
    requires TensorOrder in attrs && attrs[TensorOrder] != IntAttr(1)
    ensures TensorAttrs(Some(attrs)) != attrs
    ensures TensorAttrs(Some(attrs))[TensorOrder] == IntAttr(1)
  {
  }
}
