/** The grade transform `calculate_grade_arcsin`: the first sample is replaced
    by the second (the first grade is an artefact of the shifted differences),
    then every sample is mapped through arcsin and scaled by 15.915. The arcsin
    itself is not modelled: it is a parameter of the transform. */
module GradeTransform {
  import opened Values

  /** The scale factor applied to the arcsin of each grade. */
  const Rad: real := 15.915

  /** `np.arcsin(x) * rad` for one sample; NaN stays NaN. */
  function ScaledArcsin(arcsin: real -> Val, v: Val): Val
  {
    match v
    case NaN => NaN
    case Num(x) => Mul(arcsin(x), Num(Rad))
  }

  function MapScaledArcsin(arcsin: real -> Val, s: seq<Val>): (r: seq<Val>)
    ensures |r| == |s|
  {
    seq(|s|, i requires 0 <= i < |s| => ScaledArcsin(arcsin, s[i]))
  }

  /** The list after `grades[0] = grades[1]`. */
  function EdgeCorrected(g: seq<Val>): (r: seq<Val>)
    requires |g| >= 2
    ensures |r| == |g| && r[0] == r[1] == g[1]
    ensures forall i :: 1 <= i < |g| ==> r[i] == g[i]
  {
    [g[1]] + g[1..]
  }

  /** What `calculate_grade_arcsin(g)` returns when g has at least two samples. */
  function GradeArcsin(arcsin: real -> Val, g: seq<Val>): (r: seq<Val>)
    requires |g| >= 2
    ensures |r| == |g| && r[0] == r[1]
    ensures forall i :: 1 <= i < |g| ==> r[i] == ScaledArcsin(arcsin, g[i])
  {
    MapScaledArcsin(arcsin, EdgeCorrected(g))
  }

  /** `calculate_grade_arcsin(grades)`: overwrites the caller's first sample with
      the second and returns the transformed samples; with fewer than two
      samples `grades[1]` raises IndexError before anything is written. */
  method CalculateGradeArcsin(grades: array<Val>, arcsin: real -> Val) returns (r: Result<seq<Val>>)
    modifies grades
    ensures grades.Length < 2 ==> r == Failure(IndexError) && grades[..] == old(grades[..])
    ensures grades.Length >= 2 ==> grades[..] == EdgeCorrected(old(grades[..]))
    ensures grades.Length >= 2 ==> r == Success(GradeArcsin(arcsin, old(grades[..])))
  {
    if grades.Length < 2 {
      return Failure(IndexError);
    }
    grades[0] := grades[1];
    r := Success(MapScaledArcsin(arcsin, grades[..]));
  }
}
