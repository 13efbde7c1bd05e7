/** The derived series and summaries of the TCX parser session, as functions of
    the series they are computed from (src/yatcx_parser.py). */
module Series {
  import opened Values
  import opened GapFill

  /** `read_xpath_property(nodes, name)`: one sample per node, the node's child
      `name` where it has one and NaN where it has none. A node is given by the
      numeric values of its children. */
  function ReadXpathProperty(nodes: seq<map<string, Val>>, name: string): (r: seq<Val>)
    ensures |r| == |nodes|
    ensures forall i :: 0 <= i < |nodes| && name in nodes[i] ==> r[i] == nodes[i][name]
    ensures forall i :: 0 <= i < |nodes| && name !in nodes[i] ==> r[i] == NaN
  {
    if |nodes| == 0 then []
    else
      var last := nodes[|nodes| - 1];
      ReadXpathProperty(nodes[..|nodes| - 1], name) + [if name in last then last[name] else NaN]
  }

  /** A series as read: gap-filled when `recovery` is on. */
  function Recovered(raw: seq<Val>, recovery: bool): (r: seq<Val>)
    ensures |r| == |raw|
  {
    if recovery then Interpolated(raw) else raw
  }

  /** `s[1:] + [s[-1]]`: the series shifted left, its last sample repeated. */
  function Shifted(s: seq<Val>): seq<Val>
    requires |s| > 0
  {
    s[1..] + [s[|s| - 1]]
  }

  /** numpy's elementwise `a - b`. */
  function Difference(a: seq<Val>, b: seq<Val>): seq<Val>
    requires |a| == |b|
  {
    seq(|a|, i requires 0 <= i < |a| => Sub(a[i], b[i]))
  }

  /** `moves`: the distance covered from each sample to the next. */
  function MovesOf(d: seq<Val>): (m: seq<Val>)
    requires |d| > 0
    ensures |m| == |d|
    ensures forall i :: 0 <= i < |d| - 1 ==> m[i] == Sub(d[i + 1], d[i])
    ensures m[|d| - 1] == (if d[|d| - 1].Num? then Num(0.0) else NaN)
  {
    Difference(Shifted(d), d)
  }

  /** One step of `elevations`: the rise to the next sample when it is positive, else 0. */
  function PositiveDelta(next: Val, cur: Val): Val
  {
    var delta := Sub(next, cur);
    if Gt(delta, 0.0) then delta else Num(0.0)
  }

  /** `elevations` before the optional gap filling. */
  function ElevationsOf(a: seq<Val>): (e: seq<Val>)
    requires |a| > 0
    ensures |e| == |a| && NaNFree(e)
    ensures forall i :: 0 <= i < |a| ==> e[i].r >= 0.0
    ensures e[|a| - 1] == Num(0.0)
    ensures forall i :: 0 <= i < |a| - 1 ==>
      e[i] == (if a[i].Num? && a[i + 1].Num? && a[i + 1].r > a[i].r then Num(a[i + 1].r - a[i].r) else Num(0.0))
  {
    var next := Shifted(a);
    seq(|a|, i requires 0 <= i < |a| => PositiveDelta(next[i], a[i]))
  }

  /** Gap filling leaves a series without NaN as it is. */
  lemma RecoveredNaNFree(s: seq<Val>, recovery: bool)
    requires NaNFree(s)
    ensures Recovered(s, recovery) == s
  {
  }

  /** One sample of `grades`: the ratio elevation / move when the move is
      positive and the ratio is at most 1, otherwise NaN. */
  function GradeOf(elevation: Val, move: Val): (g: Val)
    ensures g.Num? ==> elevation.Num? && move.Num? && move.r > 0.0 && g.r * move.r == elevation.r && g.r <= 1.0
    ensures move.Num? && move.r > 0.0 && elevation.Num? && elevation.r <= move.r ==> g.Num?
  {
    if Gt(move, 0.0) then
      var sinValue := DivBy(elevation, move.r);
      if Gt(sinValue, 1.0) then NaN else sinValue
    else NaN
  }

  /** The grade list before gap filling and the grade transform: one sample
      per pair of `zip(elevations, moves)`. */
  function RawGrades(e: seq<Val>, m: seq<Val>): (g: seq<Val>)
    ensures |g| == Min(|e|, |m|)
  {
    seq(Min(|e|, |m|), i requires 0 <= i < Min(|e|, |m|) => GradeOf(e[i], m[i]))
  }

  /** For the series the session computes, a raw grade is NaN exactly when the
      move is not positive or the slope exceeds 1, and lies in [0, 1] otherwise. */
  lemma RawGradesRange(a: seq<Val>, d: seq<Val>)
    requires |a| > 0 && |d| > 0
    ensures var e, m, g := ElevationsOf(a), MovesOf(d), RawGrades(ElevationsOf(a), MovesOf(d));
      |g| == Min(|a|, |d|) &&
      forall i :: 0 <= i < |g| ==>
        (g[i].NaN? <==> !Gt(m[i], 0.0) || e[i].r / m[i].r > 1.0) &&
        (g[i].Num? ==> g[i].r == e[i].r / m[i].r && 0.0 <= g[i].r <= 1.0)
  {
    var e, m := ElevationsOf(a), MovesOf(d);
    forall i | 0 <= i < Min(|a|, |d|) && Gt(m[i], 0.0) ensures e[i].r / m[i].r >= 0.0 {
      assert e[i].r >= 0.0 && m[i].r > 0.0;
    }
  }

  /** What reaches the arcsin: every valid grade, gap-filled or not, lies in [0, 1]. */
  lemma GradesInArcsinDomain(a: seq<Val>, d: seq<Val>, recovery: bool)
    requires |a| > 0 && |d| > 0
    ensures var g := Recovered(RawGrades(ElevationsOf(a), MovesOf(d)), recovery);
      forall i :: 0 <= i < |g| && g[i].Num? ==> 0.0 <= g[i].r <= 1.0
  {
    RawGradesRange(a, d);
    KeepsBounds(RawGrades(ElevationsOf(a), MovesOf(d)), 0.0, 1.0);
  }

  /** The moves that count towards `high_altitude_distance`: a move where the
      altitude is at least the threshold, 0 elsewhere (NaN altitudes included). */
  function AboveMask(m: seq<Val>, a: seq<Val>, threshold: real): (r: seq<Val>)
    ensures |r| == Min(|m|, |a|)
  {
    seq(Min(|m|, |a|), i requires 0 <= i < Min(|m|, |a|) => if Ge(a[i], threshold) then m[i] else Num(0.0))
  }

  /** The complementary moves: those where the altitude is below the threshold or NaN. */
  function BelowMask(m: seq<Val>, a: seq<Val>, threshold: real): (r: seq<Val>)
    ensures |r| == Min(|m|, |a|)
  {
    seq(Min(|m|, |a|), i requires 0 <= i < Min(|m|, |a|) => if Ge(a[i], threshold) then Num(0.0) else m[i])
  }

  /** `high_altitude_distance`. */
  function HighAltitudeDistanceOf(m: seq<Val>, a: seq<Val>, threshold: real): (r: Val)
    ensures r.Num? <==> forall i :: 0 <= i < Min(|m|, |a|) && Ge(a[i], threshold) ==> m[i].Num?
  {
    var masked := AboveMask(m, a, threshold);
    AboveMaskNaNFree(m, a, threshold);
    SumIsNum(masked);
    Sum(masked)
  }

  /** The masked moves are free of NaN exactly when the moves made at or above
      the threshold are. */
  lemma AboveMaskNaNFree(m: seq<Val>, a: seq<Val>, threshold: real)
    ensures NaNFree(AboveMask(m, a, threshold)) <==> forall i :: 0 <= i < Min(|m|, |a|) && Ge(a[i], threshold) ==> m[i].Num?
  {
    var masked := AboveMask(m, a, threshold);
    if NaNFree(masked) {
      forall i | 0 <= i < Min(|m|, |a|) && Ge(a[i], threshold) ensures m[i].Num? {
        assert masked[i] == m[i];
      }
    }
  }

  /** `low_altitude_distance`: the lap distance minus the high-altitude distance. */
  function LowAltitudeDistanceOf(totalDistance: Val, high: Val): (r: Val)
    ensures totalDistance.Num? && high.Num? ==> Add(r, high) == totalDistance
  {
    Sub(totalDistance, high)
  }

  /** The moves of a series without NaN add up to the distance from its first
      to its last sample. */
  lemma {:induction false} SumOfMoves(d: seq<Val>)
    requires |d| > 0 && NaNFree(d)
    ensures Sum(MovesOf(d)) == Num(d[|d| - 1].r - d[0].r)
  {
    var m := MovesOf(d);
    SumOfMovesPrefix(d, m, |d| - 1);
    assert m[..|d|] == m;
  }

  lemma {:induction false} SumOfMovesPrefix(d: seq<Val>, m: seq<Val>, k: nat)
    requires |d| > 0 && NaNFree(d) && m == MovesOf(d) && k < |d|
    ensures Sum(m[..k]) == Num(d[k].r - d[0].r)
  {
    if k > 0 {
      SumOfMovesPrefix(d, m, k - 1);
      assert m[..k][..k - 1] == m[..k - 1];
    }
  }

  /** When the lap distance is the distance between the first and the last
      trackpoint, `low_altitude_distance` is the distance covered below the
      threshold (the split needs distances without NaN and one altitude per distance; a NaN altitude counts as below). */
  lemma LowAltitudeDistanceIsBelowMoves(d: seq<Val>, a: seq<Val>, threshold: real)
    requires |d| > 0 && |a| == |d| && NaNFree(d)
    ensures var m := MovesOf(d);
      LowAltitudeDistanceOf(Num(d[|d| - 1].r - d[0].r), HighAltitudeDistanceOf(m, a, threshold))
        == Sum(BelowMask(m, a, threshold))
  {
    var m := MovesOf(d);
    var above, below := AboveMask(m, a, threshold), BelowMask(m, a, threshold);
    assert NaNFree(m);
    SumPointwise(above, below, m);
    SumOfMoves(d);
    SumIsNum(above);
    SumIsNum(below);
  }

  /** `high_altitude_time`: how many samples have an altitude at least the threshold. */
  function HighAltitudeTimeOf(a: seq<Val>, threshold: real): (n: nat)
    ensures n <= |a| - NaNCount(a)
  {
    if |a| == 0 then 0
    else HighAltitudeTimeOf(a[..|a| - 1], threshold) + (if Ge(a[|a| - 1], threshold) then 1 else 0)
  }

  /** Every sample counts exactly when every altitude is at least the threshold;
      none counts exactly when no altitude is. */
  lemma {:induction false} HighAltitudeTimeExtremes(a: seq<Val>, threshold: real)
    ensures HighAltitudeTimeOf(a, threshold) == |a| <==> forall i :: 0 <= i < |a| ==> Ge(a[i], threshold)
    ensures HighAltitudeTimeOf(a, threshold) == 0 <==> forall i :: 0 <= i < |a| ==> !Ge(a[i], threshold)
  {
    if |a| > 0 {
      var p := a[..|a| - 1];
      HighAltitudeTimeExtremes(p, threshold);
      assert forall i :: 0 <= i < |p| ==> p[i] == a[i];
    }
  }

  /** `x if x > 0 else 0`. */
  function PositivePart(x: Val): Val
  {
    if Gt(x, 0.0) then x else Num(0.0)
  }

  /** `total_elevation`: the sum of the positive elevation samples. */
  function TotalElevationOf(e: seq<Val>): (r: Val)
    ensures r.Num? && r.r >= 0.0
  {
    var positive := seq(|e|, i requires 0 <= i < |e| => PositivePart(e[i]));
    SumNonNegative(positive);
    Sum(positive)
  }

  /** The total elevation of the session's elevations is their plain sum, and at least 0. */
  lemma TotalElevationIsSum(a: seq<Val>)
    requires |a| > 0
    ensures var e := ElevationsOf(a);
      TotalElevationOf(e) == Sum(e) && Sum(e).Num? && Sum(e).r >= 0.0
  {
    var e := ElevationsOf(a);
    assert seq(|e|, i requires 0 <= i < |e| => PositivePart(e[i])) == e;
  }

  /** `has_powers`: the NaN count is not the length, which holds exactly
      when some power sample is a number. */
  function HasPowersOf(p: seq<Val>): (b: bool)
    ensures b <==> exists i :: 0 <= i < |p| && p[i].Num?
  {
    NaNCountIsLength(p);
    NaNCount(p) != |p|
  }

  /** `np.ones(w)`. */
  function Ones(w: nat): seq<Val>
  {
    seq(w, _ => Num(1.0))
  }

  function Reverse(s: seq<Val>): (r: seq<Val>)
    ensures |r| == |s|
  {
    seq(|s|, i requires 0 <= i < |s| => s[|s| - 1 - i])
  }

  /** The sum of the products of two series of one length. */
  function Dot(x: seq<Val>, y: seq<Val>): Val
    requires |x| == |y|
  {
    if |x| == 0 then Num(0.0) else Add(Dot(x[..|x| - 1], y[..|y| - 1]), Mul(x[|x| - 1], y[|y| - 1]))
  }

  /** `np.convolve(a, v, 'valid')` for a kernel no longer than the series:
      output k is the sum of a[k + t] * v[|v| - 1 - t]. */
  function ConvolveValid(a: seq<Val>, v: seq<Val>): (r: seq<Val>)
    requires 1 <= |v| <= |a|
    ensures |r| == |a| - |v| + 1
  {
    seq(|a| - |v| + 1, k requires 0 <= k < |a| - |v| + 1 => Dot(a[k..k + |v|], Reverse(v)))
  }

  /** `mean_power_interval(w)`: `np.convolve(powers, np.ones(w), 'valid') / w`. */
  function MeanPowerIntervalOf(p: seq<Val>, w: nat): (r: seq<Val>)
    requires 1 <= w <= |p|
    ensures |r| == |p| - w + 1
  {
    var c := ConvolveValid(p, Ones(w));
    seq(|c|, k requires 0 <= k < |c| => DivBy(c[k], w as real))
  }

  lemma {:induction false} DotOnes(x: seq<Val>)
    ensures Dot(x, Ones(|x|)) == Sum(x)
  {
    if |x| > 0 {
      var n := |x| - 1;
      assert Ones(|x|)[..n] == Ones(n);
      DotOnes(x[..n]);
    }
  }

  /** Output k of `mean_power_interval(w)` is the mean of the window p[k..k+w]. */
  lemma MeanPowerWindow(p: seq<Val>, w: nat, k: nat)
    requires 1 <= w <= |p| && k < |p| - w + 1
    ensures MeanPowerIntervalOf(p, w)[k] == DivBy(Sum(p[k..k + w]), w as real)
  {
    assert Reverse(Ones(w)) == Ones(w);
    DotOnes(p[k..k + w]);
  }

  /** A window holding a NaN has a NaN mean; powers that all lie in [lo, hi]
      have window means in [lo, hi]. */
  lemma MeanPowerBounds(p: seq<Val>, w: nat, lo: real, hi: real, k: nat)
    requires 1 <= w <= |p| && k < |p| - w + 1
    requires forall i :: 0 <= i < |p| ==> p[i].Num? && lo <= p[i].r <= hi
    ensures MeanPowerIntervalOf(p, w)[k].Num?
    ensures lo <= MeanPowerIntervalOf(p, w)[k].r <= hi
  {
    MeanPowerWindow(p, w, k);
    var win := p[k..k + w];
    SumBounds(win, lo, hi);
    TimesIsProduct(w, lo);
    TimesIsProduct(w, hi);
    assert (w as real) * lo <= Sum(win).r <= (w as real) * hi;
    DivideBounds(Sum(win).r, w as real, lo, hi);
  }

  /** Division by a positive number keeps bounds: the step from the window sum to its mean. */
  lemma DivideBounds(t: real, n: real, lo: real, hi: real)
    requires n > 0.0 && n * lo <= t <= n * hi
    ensures lo <= t / n <= hi
  {
  }

  lemma MeanPowerNaNWindow(p: seq<Val>, w: nat, k: nat, j: nat)
    requires 1 <= w <= |p| && k < |p| - w + 1
    requires k <= j < k + w && p[j].NaN?
    ensures MeanPowerIntervalOf(p, w)[k] == NaN
  {
    MeanPowerWindow(p, w, k);
    SumIsNum(p[k..k + w]);
    assert p[k..k + w][j - k].NaN?;
  }
}
