/** The gap filler `interpolate_nans`: every NaN sample is replaced by linear
    interpolation between its nearest valid neighbours (numpy's `np.interp`
    over the valid indices), and a NaN before the first or after the last
    valid sample takes that nearest valid value. */
module GapFill {
  import opened Values

  /** The nearest valid (non-NaN) index strictly before k. */
  function PrevValid(s: seq<Val>, k: nat): (p: Option<nat>)
    requires k <= |s|
    ensures p.Some? ==> p.value < k && s[p.value].Num? && forall m :: p.value < m < k ==> s[m].NaN?
    ensures p.None? ==> forall m :: 0 <= m < k ==> s[m].NaN?
  {
    if k == 0 then None
    else if s[k - 1].Num? then Some(k - 1)
    else PrevValid(s, k - 1)
  }

  /** The nearest valid index at or after k. */
  function NextValid(s: seq<Val>, k: nat): (p: Option<nat>)
    requires k <= |s|
    ensures p.Some? ==> k <= p.value < |s| && s[p.value].Num? && forall m :: k <= m < p.value ==> s[m].NaN?
    ensures p.None? ==> forall m :: k <= m < |s| ==> s[m].NaN?
    decreases |s| - k
  {
    if k == |s| then None
    else if s[k].Num? then Some(k)
    else NextValid(s, k + 1)
  }

  /** The value at position k on the line through (i, a) and (j, b). */
  function Lerp(a: real, b: real, i: nat, j: nat, k: nat): real
    requires i < j
  {
    a + (b - a) * ((k - i) as real / (j - i) as real)
  }

  /** What `np.interp` gives position k: a valid sample stays as it is; a NaN is
      interpolated between its nearest valid neighbours, or takes the only
      neighbour there is; with no valid sample at all it stays NaN. */
  function FillAt(s: seq<Val>, k: nat): (r: Val)
    requires k < |s|
    ensures s[k].Num? ==> r == s[k]
    ensures r.NaN? <==> forall m :: 0 <= m < |s| ==> s[m].NaN?
  {
    if s[k].Num? then s[k]
    else match (PrevValid(s, k), NextValid(s, k + 1))
      case (Some(i), Some(j)) => Num(Lerp(s[i].r, s[j].r, i, j, k))
      case (Some(i), None) => s[i]
      case (None, Some(j)) => s[j]
      case (None, None) => NaN
  }

  /** The result of `interpolate_nans(s)`. */
  function Interpolated(s: seq<Val>): (r: seq<Val>)
    ensures |r| == |s|
    ensures forall k :: 0 <= k < |s| && s[k].Num? ==> r[k] == s[k]
    ensures (forall k :: 0 <= k < |s| ==> s[k].NaN?) ==> r == s
  {
    seq(|s|, k requires 0 <= k < |s| => FillAt(s, k))
  }

  /** `interpolate_nans`: copies the samples into an array and, unless every
      sample is NaN, overwrites each NaN position with its interpolated value. */
  method InterpolateNans(s: seq<Val>) returns (r: seq<Val>)
    ensures r == Interpolated(s)
  {
    var res := new Val[|s|](i requires 0 <= i < |s| => s[i]);
    NaNCountIsLength(s);
    if NaNCount(s) < |s| {
      for k := 0 to |s|
        invariant forall m :: 0 <= m < k ==> res[m] == FillAt(s, m)
        invariant forall m :: k <= m < |s| ==> res[m] == s[m]
      {
        if s[k].NaN? {
          res[k] := FillAt(s, k);
        }
      }
    }
    r := res[..];
  }

  /** The interpolated value lies between the two values it interpolates. */
  lemma LerpBetween(a: real, b: real, i: nat, j: nat, k: nat)
    requires i < k < j
    ensures a <= b ==> a <= Lerp(a, b, i, j, k) <= b
    ensures b <= a ==> b <= Lerp(a, b, i, j, k) <= a
  {
    var t := (k - i) as real / (j - i) as real;
    assert 0.0 < t < 1.0;
    var d := if a <= b then b - a else a - b;
    assert d * t >= 0.0 && d * (1.0 - t) >= 0.0;
    assert d * t + d * (1.0 - t) == d;
  }

  /** A NaN at k whose nearest valid neighbours are i < k < j gets the value on
      the line between them, which lies between s[i] and s[j]. */
  lemma InteriorFill(s: seq<Val>, i: nat, k: nat, j: nat)
    requires i < k < j < |s|
    requires s[i].Num? && s[j].Num?
    requires forall m :: i < m < j ==> s[m].NaN?
    ensures Interpolated(s)[k] == Num(s[i].r + (s[j].r - s[i].r) * ((k - i) as real / (j - i) as real))
    ensures s[i].r <= s[j].r ==> s[i].r <= Interpolated(s)[k].r <= s[j].r
    ensures s[j].r <= s[i].r ==> s[j].r <= Interpolated(s)[k].r <= s[i].r
  {
    assert PrevValid(s, k) == Some(i);
    assert NextValid(s, k + 1) == Some(j);
    LerpBetween(s[i].r, s[j].r, i, j, k);
  }

  /** A leading run of NaN takes the first valid value. */
  lemma LeadingRun(s: seq<Val>, k: nat, j: nat)
    requires k < j < |s| && s[j].Num?
    requires forall m :: 0 <= m < j ==> s[m].NaN?
    ensures Interpolated(s)[k] == s[j]
  {
    assert PrevValid(s, k) == None;
    assert NextValid(s, k + 1) == Some(j);
  }

  /** A trailing run of NaN takes the last valid value. */
  lemma TrailingRun(s: seq<Val>, i: nat, k: nat)
    requires i < k < |s| && s[i].Num?
    requires forall m :: i < m < |s| ==> s[m].NaN?
    ensures Interpolated(s)[k] == s[i]
  {
    assert PrevValid(s, k) == Some(i);
    assert NextValid(s, k + 1) == None;
  }

  /** Samples that all lie in [lo, hi] are filled with values in [lo, hi]. */
  lemma KeepsBounds(s: seq<Val>, lo: real, hi: real)
    requires forall k :: 0 <= k < |s| && s[k].Num? ==> lo <= s[k].r <= hi
    ensures forall k :: 0 <= k < |s| && Interpolated(s)[k].Num? ==> lo <= Interpolated(s)[k].r <= hi
  {
    forall k | 0 <= k < |s| && s[k].NaN?
      ensures FillAt(s, k).Num? ==> lo <= FillAt(s, k).r <= hi
    {
      match (PrevValid(s, k), NextValid(s, k + 1))
      case (Some(i), Some(j)) => LerpBetween(s[i].r, s[j].r, i, j, k);
      case (Some(i), None) =>
      case (None, Some(j)) =>
      case (None, None) =>
    }
  }

  /** Interpolating twice gives what interpolating once gives. */
  lemma Idempotent(s: seq<Val>)
    ensures Interpolated(Interpolated(s)) == Interpolated(s)
  {
    if v :| 0 <= v < |s| && s[v].Num? {
      assert NaNFree(Interpolated(s));
    }
  }
}
