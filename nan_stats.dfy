/**
 * The missing-data discipline shared by the FEEPS routines: a floating-point
 * sample is `Option<real>` with `None` for NaN, `np.where` is `IndicesWhere`,
 * fancy indexing `x[ix]` is `Pick`, and `np.nanmean` is `NanMean`.
 */
module NanStats {
  import opened Wrappers

  /** One floating-point sample; `None` stands for NaN. */
  type Sample = Option<real>

  /** `x[x == 0] = nan`: an exact zero becomes missing, anything else is kept. */
  function ZeroToNaN(x: Sample): (r: Sample)
    ensures r.None? <==> x.None? || x.value == 0.0
    ensures r.Some? ==> r == x
  {
    if x == Some(0.0) then None else x
  }

  lemma ZeroToNaNIdempotent(x: Sample)
    ensures ZeroToNaN(ZeroToNaN(x)) == ZeroToNaN(x)
  {
  }

  /** The positions of `s` whose element satisfies `p`, in increasing order (`np.where`). */
  function IndicesWhere<T>(s: seq<T>, p: T -> bool): (ix: seq<nat>)
    ensures forall k :: 0 <= k < |ix| ==> ix[k] < |s| && p(s[ix[k]])
    ensures forall j :: 0 <= j < |s| && p(s[j]) ==> j in ix
    ensures forall k, l :: 0 <= k < l < |ix| ==> ix[k] < ix[l]
    decreases |s|
  {
    if |s| == 0 then []
    else
      var front := IndicesWhere(s[..|s| - 1], p);
      assert forall k :: 0 <= k < |front| ==> s[..|s| - 1][front[k]] == s[front[k]];
      if p(s[|s| - 1]) then front + [|s| - 1] else front
  }

  /** Fancy indexing `s[ix]`. */
  function Pick<T>(s: seq<T>, ix: seq<nat>): (r: seq<T>)
    requires forall k :: 0 <= k < |ix| ==> ix[k] < |s|
    ensures |r| == |ix|
    ensures forall k :: 0 <= k < |ix| ==> r[k] == s[ix[k]]
  {
    seq(|ix|, k requires 0 <= k < |ix| => s[ix[k]])
  }

  /** Sum of the present samples. */
  function Total(xs: seq<Sample>): real
  {
    if |xs| == 0 then 0.0
    else (if xs[0].Some? then xs[0].value else 0.0) + Total(xs[1..])
  }

  /** Number of present samples. */
  function Present(xs: seq<Sample>): nat
  {
    if |xs| == 0 then 0
    else (if xs[0].Some? then 1 else 0) + Present(xs[1..])
  }

  /**
   * `np.nanmean`: the mean of the present samples, or missing when there is
   * none (the all-NaN slice, whose RuntimeWarning the source silences).
   */
  function NanMean(xs: seq<Sample>): Sample
  {
    if Present(xs) == 0 then None else Some(Total(xs) / Present(xs) as real)
  }

  /** No present sample at all: every entry is missing. */
  lemma {:induction false} PresentZeroIff(xs: seq<Sample>)
    ensures Present(xs) == 0 <==> forall i :: 0 <= i < |xs| ==> xs[i].None?
  {
    if |xs| > 0 {
      PresentZeroIff(xs[1..]);
      assert forall i :: 1 <= i < |xs| ==> xs[i] == xs[1..][i - 1];
    }
  }

  /** The mean is missing exactly when every sample is missing (both directions). */
  lemma NanMeanMissingIff(xs: seq<Sample>)
    ensures NanMean(xs).None? <==> forall i :: 0 <= i < |xs| ==> xs[i].None?
  {
    PresentZeroIff(xs);
  }

  /** The sum of the present samples lies between `lo` and `hi` times their number. */
  lemma {:induction false} TotalBounds(xs: seq<Sample>, lo: real, hi: real)
    requires forall i :: 0 <= i < |xs| && xs[i].Some? ==> lo <= xs[i].value <= hi
    ensures lo * Present(xs) as real <= Total(xs) <= hi * Present(xs) as real
  {
    if |xs| > 0 {
      assert forall i :: 0 <= i < |xs[1..]| ==> xs[1..][i] == xs[i + 1];
      TotalBounds(xs[1..], lo, hi);
      if xs[0].Some? {
        OneMoreSample(lo, hi, Present(xs[1..]) as real, Total(xs[1..]), xs[0].value);
      }
    }
  }

  lemma OneMoreSample(lo: real, hi: real, p: real, t: real, x: real)
    requires lo * p <= t <= hi * p && lo <= x <= hi
    ensures lo * (p + 1.0) <= x + t <= hi * (p + 1.0)
  {
    assert lo * (p + 1.0) == lo * p + lo && hi * (p + 1.0) == hi * p + hi;
  }

  /** The mean of the present samples lies between any bounds of those samples. */
  lemma NanMeanBounds(xs: seq<Sample>, lo: real, hi: real)
    requires forall i :: 0 <= i < |xs| && xs[i].Some? ==> lo <= xs[i].value <= hi
    requires NanMean(xs).Some?
    ensures lo <= NanMean(xs).value <= hi
  {
    TotalBounds(xs, lo, hi);
    var n := Present(xs) as real;
    assert n > 0.0;
    assert lo * n <= Total(xs) <= hi * n;
    DivBounds(Total(xs), n, lo, hi);
  }

  lemma DivBounds(t: real, n: real, lo: real, hi: real)
    requires n > 0.0 && lo * n <= t <= hi * n
    ensures lo <= t / n <= hi
  {
  }

  /** When every present sample equals `c` and one is present, the mean is `c`. */
  lemma NanMeanOfConstant(xs: seq<Sample>, c: real)
    requires forall i :: 0 <= i < |xs| && xs[i].Some? ==> xs[i].value == c
    requires exists i :: 0 <= i < |xs| && xs[i].Some?
    ensures NanMean(xs) == Some(c)
  {
    NanMeanMissingIff(xs);
    NanMeanBounds(xs, c, c);
  }

  /** The mean of one sample is that sample, missing or not. */
  lemma NanMeanSingleton(x: Sample)
    ensures NanMean([x]) == x
  {
    var xs := [x];
    assert xs[1..] == [];
    assert Total(xs[1..]) == 0.0 && Present(xs[1..]) == 0;
    if x.Some? {
      assert Total(xs) == x.value && Present(xs) == 1;
      assert NanMean(xs) == Some(x.value / 1.0);
    } else {
      assert Present(xs) == 0;
    }
  }
}
