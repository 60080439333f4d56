/**
 * `find_closest`: prune two strictly increasing time lines until every
 * instant of each is the nearest neighbour of some instant of the other.
 * Each round marks, in a fresh flag buffer, the samples of one line that
 * are the nearest neighbour of some sample of the other (scipy's `nearest`
 * interpolation, which rounds half-way points down to the lower sample),
 * then deletes the unmarked samples of the first line, or failing that of
 * the second, and stops once nothing is unmarked. Finally the surviving
 * instants are located in the original lines.
 */
module FindClosest {
  import opened NanStats

  /** Strictly increasing time instants, as the source's callers pass them. */
  ghost predicate Increasing(s: seq<real>)
  {
    forall k, l :: 0 <= k < l < |s| ==> s[k] < s[l]
  }

  function Dist(x: real, y: real): real
  {
    if x >= y then x - y else y - x
  }

  /**
   * The index of the sample of `s` nearest to `x`; on a tie the lower index
   * (nearest-neighbour interpolation of `s` against `0, 1, ..., |s| - 1`,
   * extrapolating past both ends).
   */
  function Nearest(s: seq<real>, x: real): (i: nat)
    requires |s| > 0
    ensures i < |s|
    ensures forall j :: 0 <= j < |s| ==> Dist(s[i], x) <= Dist(s[j], x)
    ensures forall j :: 0 <= j < i ==> Dist(s[i], x) < Dist(s[j], x)
  {
    if |s| == 1 then 0
    else
      var k := Nearest(s[1..], x) + 1;
      assert forall j :: 1 <= j < |s| ==> s[1..][j - 1] == s[j];
      if Dist(s[0], x) <= Dist(s[k], x) then 0 else k
  }

  /** A sample of a strictly increasing line is its own nearest neighbour. */
  lemma NearestOfMember(s: seq<real>, i: nat)
    requires Increasing(s) && i < |s|
    ensures Nearest(s, s[i]) == i
  {
    var n := Nearest(s, s[i]);
    assert Dist(s[n], s[i]) <= Dist(s[i], s[i]) == 0.0;
    assert s[n] == s[i];
  }

  /** Sample `i` of `a` is the nearest neighbour of some sample of `b`. */
  ghost predicate Covered(a: seq<real>, b: seq<real>, i: nat)
    requires |a| > 0
  {
    exists j :: 0 <= j < |b| && Nearest(a, b[j]) == i
  }

  /** Every sample of each line is the nearest neighbour of a sample of the other. */
  ghost predicate MutuallyNearest(a: seq<real>, b: seq<real>)
    requires |a| > 0 && |b| > 0
  {
    (forall i :: 0 <= i < |a| ==> Covered(a, b, i)) &&
    (forall i :: 0 <= i < |b| ==> Covered(b, a, i))
  }

  /** `sub` is the subsequence of `s` at the strictly increasing positions `ix`. */
  ghost predicate SubsequenceAt(s: seq<real>, sub: seq<real>, ix: seq<nat>)
  {
    |ix| == |sub| &&
    (forall k :: 0 <= k < |ix| ==> ix[k] < |s| && s[ix[k]] == sub[k]) &&
    (forall k, l :: 0 <= k < l < |ix| ==> ix[k] < ix[l])
  }

  /**
   * One flag per sample of `a`: set when the sample is the nearest
   * neighbour of some sample of `b` (a zero buffer, then `flag[ind] = 1`).
   */
  method MarkNearest(a: seq<real>, b: seq<real>) returns (flags: seq<bool>)
    requires |a| > 0
    ensures |flags| == |a|
    ensures forall i :: 0 <= i < |a| ==> (flags[i] <==> Covered(a, b, i))
  {
    var flag := new bool[|a|](_ => false);
    for j := 0 to |b|
      invariant forall i :: 0 <= i < |a| ==>
        (flag[i] <==> exists j' :: 0 <= j' < j && Nearest(a, b[j']) == i)
    {
      flag[Nearest(a, b[j])] := true;
    }
    flags := flag[..];
  }

  /** Positions of the set flags (the complement of `np.where(flag == 0)`). */
  function Marked(flags: seq<bool>): (ix: seq<nat>)
    ensures forall k :: 0 <= k < |ix| ==> ix[k] < |flags| && flags[ix[k]]
    ensures forall i :: 0 <= i < |flags| && flags[i] ==> i in ix
    ensures forall k, l :: 0 <= k < l < |ix| ==> ix[k] < ix[l]
  {
    IndicesWhere(flags, (f: bool) => f)
  }

  /** `np.delete(s, unmarked)`: the samples whose flag is set, in order. */
  function Kept<T>(s: seq<T>, flags: seq<bool>): (r: seq<T>)
    requires |flags| == |s|
    ensures |r| == |Marked(flags)|
    ensures forall k :: 0 <= k < |r| ==> r[k] == s[Marked(flags)[k]]
  {
    Pick(s, Marked(flags))
  }

  lemma {:induction false} IndicesWhereAtMost<T>(s: seq<T>, p: T -> bool)
    ensures |IndicesWhere(s, p)| <= |s|
    decreases |s|
  {
    if |s| > 0 {
      IndicesWhereAtMost(s[..|s| - 1], p);
    }
  }

  /** Deleting at least one unmarked sample shortens the line. */
  lemma {:induction false} IndicesWhereShorter<T>(s: seq<T>, p: T -> bool, j: nat)
    requires j < |s| && !p(s[j])
    ensures |IndicesWhere(s, p)| < |s|
    decreases |s|
  {
    var front := s[..|s| - 1];
    if j == |s| - 1 {
      IndicesWhereAtMost(front, p);
    } else {
      assert front[j] == s[j];
      IndicesWhereShorter(front, p, j);
    }
  }

  /**
   * Deleting the unmarked samples keeps a strictly increasing line strictly
   * increasing, keeps at least one sample when one is marked, removes at
   * least one when one is unmarked, and the survivors stay at increasing
   * positions of the original line.
   */
  lemma KeptProperties(s: seq<real>, pos: seq<nat>, orig: seq<real>, flags: seq<bool>)
    requires |flags| == |s| && Increasing(s) && SubsequenceAt(orig, s, pos)
    ensures Increasing(Kept(s, flags))
    ensures SubsequenceAt(orig, Kept(s, flags), Kept(pos, flags))
    ensures (exists i :: 0 <= i < |s| && flags[i]) ==> |Kept(s, flags)| > 0
    ensures (exists i :: 0 <= i < |s| && !flags[i]) ==> |Kept(s, flags)| < |s|
  {
    var ix := Marked(flags);
    if i :| 0 <= i < |s| && flags[i] {
      assert i in ix;
    }
    if i :| 0 <= i < |s| && !flags[i] {
      IndicesWhereShorter(flags, (f: bool) => f, i);
    }
  }

  /** What one round leaves: a shorter first line, else a shorter second line, else done. */
  datatype Round = PrunedFirst(first: seq<real>) | PrunedSecond(second: seq<real>) | Settled

  /** The cover flags of `a` against `b`: what `flag_t1` holds after a round's marking. */
  ghost function CoverFlags(a: seq<real>, b: seq<real>): (flags: seq<bool>)
    requires |a| > 0
    ensures |flags| == |a| && forall i :: 0 <= i < |a| ==> (flags[i] <==> Covered(a, b, i))
  {
    seq(|a|, i requires 0 <= i < |a| => Covered(a, b, i))
  }

  /**
   * The effect of one round, as a function: the first line loses its
   * uncovered samples if it has any, else the second line does, else the
   * lines are settled. A pruned line is shorter and still non-empty, and the
   * lines are settled exactly when they are mutually nearest.
   */
  ghost function Step(a: seq<real>, b: seq<real>): (r: Round)
    requires |a| > 0 && |b| > 0
    ensures r.PrunedFirst? ==> 0 < |r.first| < |a|
    ensures r.PrunedSecond? ==> 0 < |r.second| < |b|
    ensures r.Settled? <==> MutuallyNearest(a, b)
  {
    assert Covered(a, b, Nearest(a, b[0]));
    assert Covered(b, a, Nearest(b, a[0]));
    if exists i :: 0 <= i < |a| && !Covered(a, b, i) then
      var i :| 0 <= i < |a| && !Covered(a, b, i);
      IndicesWhereShorter(CoverFlags(a, b), (f: bool) => f, i);
      PrunedFirst(Kept(a, CoverFlags(a, b)))
    else if exists i :: 0 <= i < |b| && !Covered(b, a, i) then
      var i :| 0 <= i < |b| && !Covered(b, a, i);
      IndicesWhereShorter(CoverFlags(b, a), (f: bool) => f, i);
      PrunedSecond(Kept(b, CoverFlags(b, a)))
    else
      Settled
  }

  /**
   * The lines the loop settles on: rounds are applied until one leaves both
   * lines unchanged. Whatever the inputs, the result is a pair of non-empty,
   * mutually nearest lines.
   */
  ghost function Pruned(a: seq<real>, b: seq<real>): (r: (seq<real>, seq<real>))
    requires |a| > 0 && |b| > 0
    ensures |r.0| > 0 && |r.1| > 0 && MutuallyNearest(r.0, r.1)
    decreases |a| + |b|
  {
    match Step(a, b)
    case PrunedFirst(first) => Pruned(first, b)
    case PrunedSecond(second) => Pruned(a, second)
    case Settled => (a, b)
  }

  /** Lines that are already mutually nearest are left as they are. */
  lemma SettledIsFixpoint(a: seq<real>, b: seq<real>)
    requires |a| > 0 && |b| > 0 && MutuallyNearest(a, b)
    ensures Pruned(a, b) == (a, b)
  {
  }

  /** Two copies of one strictly increasing line keep every sample. */
  lemma SameLineKept(s: seq<real>)
    requires |s| > 0 && Increasing(s)
    ensures Pruned(s, s) == (s, s)
  {
    forall i | 0 <= i < |s| ensures Covered(s, s, i) {
      NearestOfMember(s, i);
    }
    SettledIsFixpoint(s, s);
  }

  /**
   * One pass of the loop body: flag both lines against each other, delete
   * the unflagged samples of `a` if there are any, otherwise those of `b`,
   * otherwise report that both lines are settled.
   */
  method PruneOnce(a: seq<real>, b: seq<real>) returns (r: Round, ghost keep: seq<bool>)
    requires |a| > 0 && |b| > 0
    ensures r == Step(a, b)
    ensures r.PrunedFirst? <==> exists i :: 0 <= i < |a| && !Covered(a, b, i)
    ensures r.PrunedSecond? <==>
      (forall i :: 0 <= i < |a| ==> Covered(a, b, i)) && exists i :: 0 <= i < |b| && !Covered(b, a, i)
    ensures r.Settled? <==> MutuallyNearest(a, b)
    ensures r.PrunedFirst? ==>
      |keep| == |a| && r.first == Kept(a, keep) &&
      forall i :: 0 <= i < |a| ==> (keep[i] <==> Covered(a, b, i))
    ensures r.PrunedSecond? ==>
      |keep| == |b| && r.second == Kept(b, keep) &&
      forall i :: 0 <= i < |b| ==> (keep[i] <==> Covered(b, a, i))
  {
    var flag1 := MarkNearest(a, b);
    var flag2 := MarkNearest(b, a);
    var zeros1 := IndicesWhere(flag1, (f: bool) => !f);
    var zeros2 := IndicesWhere(flag2, (f: bool) => !f);
    UnmarkedIff(flag1);
    UnmarkedIff(flag2);
    FlagsAreCoverFlags(a, b, flag1);
    FlagsAreCoverFlags(b, a, flag2);
    if |zeros1| > 0 {
      r, keep := PrunedFirst(Kept(a, flag1)), flag1;
    } else if |zeros2| > 0 {
      r, keep := PrunedSecond(Kept(b, flag2)), flag2;
    } else {
      r, keep := Settled, [];
    }
  }

  /** A marking that flags exactly the covered samples is the round's cover flags. */
  lemma FlagsAreCoverFlags(a: seq<real>, b: seq<real>, flags: seq<bool>)
    requires |a| > 0 && |flags| == |a|
    requires forall i :: 0 <= i < |a| ==> (flags[i] <==> Covered(a, b, i))
    ensures flags == CoverFlags(a, b)
  {
  }

  /** `np.where(flag == 0)` is empty exactly when every flag is set. */
  lemma UnmarkedIff(flags: seq<bool>)
    ensures |IndicesWhere(flags, (f: bool) => !f)| == 0 <==> forall i :: 0 <= i < |flags| ==> flags[i]
  {
    var zeros := IndicesWhere(flags, (f: bool) => !f);
    if |zeros| > 0 {
      assert !flags[zeros[0]];
    }
    if i :| 0 <= i < |flags| && !flags[i] {
      assert i in zeros;
    }
  }

  lemma IdentityPositions(s: seq<real>)
    ensures SubsequenceAt(s, s, seq(|s|, k => k))
  {
  }

  /**
   * The whole routine: the survivors are exactly the lines the rounds settle
   * on (`Pruned`); they are non-empty subsequences of the inputs, every
   * survivor of one line is the nearest neighbour of a survivor of the
   * other, and the returned indices locate the survivors in the original
   * lines. The loop ends within `|t1| + |t2| - 1` rounds.
   */
  method FindClosest(t1: seq<real>, t2: seq<real>)
    returns (t1new: seq<real>, t2new: seq<real>, ind1: seq<nat>, ind2: seq<nat>, ghost rounds: nat)
    requires |t1| > 0 && |t2| > 0 && Increasing(t1) && Increasing(t2)
    ensures |t1new| > 0 && |t2new| > 0
    ensures Increasing(t1new) && Increasing(t2new)
    ensures SubsequenceAt(t1, t1new, ind1) && SubsequenceAt(t2, t2new, ind2)
    ensures MutuallyNearest(t1new, t2new)
    ensures (t1new, t2new) == Pruned(t1, t2)
    ensures rounds <= |t1| + |t2| - 1
  {
    var a, b := t1, t2;
    ghost var pa: seq<nat>, pb: seq<nat> := seq(|t1|, k => k), seq(|t2|, k => k);
    IdentityPositions(t1);
    IdentityPositions(t2);
    rounds := 1;
    while true
      invariant |a| > 0 && |b| > 0 && Increasing(a) && Increasing(b)
      invariant SubsequenceAt(t1, a, pa) && SubsequenceAt(t2, b, pb)
      invariant rounds <= (|t1| - |a|) + (|t2| - |b|) + 1
      invariant |a| <= |t1| && |b| <= |t2|
      invariant Pruned(a, b) == Pruned(t1, t2)
      decreases |a| + |b|
    {
      var r, keep := PruneOnce(a, b);
      if r.PrunedFirst? {
        assert Covered(a, b, Nearest(a, b[0]));
        ghost var i :| 0 <= i < |a| && !Covered(a, b, i);
        assert !keep[i];
        KeptProperties(a, pa, t1, keep);
        a, pa := r.first, Kept(pa, keep);
      } else if r.PrunedSecond? {
        assert Covered(b, a, Nearest(b, a[0]));
        ghost var i :| 0 <= i < |b| && !Covered(b, a, i);
        assert !keep[i];
        KeptProperties(b, pb, t2, keep);
        b, pb := r.second, Kept(pb, keep);
      } else {
        break;
      }
      rounds := rounds + 1;
    }
    t1new, t2new := a, b;
    ind1 := Locate(t1, t1new, pa);
    ind2 := Locate(t2, t2new, pb);
  }

  /** Nearest-neighbour lookup of each survivor in its original line. */
  method Locate(orig: seq<real>, sub: seq<real>, ghost pos: seq<nat>) returns (ix: seq<nat>)
    requires |orig| > 0 && Increasing(orig) && SubsequenceAt(orig, sub, pos)
    ensures ix == pos
  {
    ix := seq(|sub|, k requires 0 <= k < |sub| => Nearest(orig, sub[k]));
    forall k | 0 <= k < |sub| ensures ix[k] == pos[k] {
      NearestOfMember(orig, pos[k]);
    }
  }
}
