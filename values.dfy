/** Samples as numpy holds them, and the Python outcomes of the modelled code. */
module Values {

  /** One sample of a series: a real number, or the NaN marker numpy uses for a
      missing value. Every comparison involving NaN is false and every
      arithmetic operation on NaN yields NaN. */
  datatype Val = NaN | Num(r: real)

  datatype Option<T> = None | Some(value: T)

  /** The Python exceptions the modelled code raises. */
  datatype Error = IndexError | ValueError | AttributeError

  /** A value, or the exception raised while computing it. */
  datatype Result<T> = Success(value: T) | Failure(error: Error)

  function Min(a: nat, b: nat): nat { if a < b then a else b }

  function Add(a: Val, b: Val): Val { if a.Num? && b.Num? then Num(a.r + b.r) else NaN }

  function Sub(a: Val, b: Val): Val { if a.Num? && b.Num? then Num(a.r - b.r) else NaN }

  function Mul(a: Val, b: Val): Val { if a.Num? && b.Num? then Num(a.r * b.r) else NaN }

  /** Division by a non-zero number. */
  function DivBy(a: Val, d: real): Val
    requires d != 0.0
  {
    if a.Num? then Num(a.r / d) else NaN
  }

  /** `a > c`, false when `a` is NaN. */
  predicate Gt(a: Val, c: real) { a.Num? && a.r > c }

  /** `a >= c`, false when `a` is NaN. */
  predicate Ge(a: Val, c: real) { a.Num? && a.r >= c }

  predicate NaNFree(s: seq<Val>) { forall i :: 0 <= i < |s| ==> s[i].Num? }

  /** `sum(np.isnan(s))`: how many samples are NaN. */
  function NaNCount(s: seq<Val>): (n: nat)
    ensures n <= |s|
  {
    if |s| == 0 then 0 else NaNCount(s[..|s| - 1]) + (if s[|s| - 1].NaN? then 1 else 0)
  }

  /** `np.sum(s)`: the total of the samples, NaN as soon as one sample is NaN. */
  function Sum(s: seq<Val>): Val
  {
    if |s| == 0 then Num(0.0) else Add(Sum(s[..|s| - 1]), s[|s| - 1])
  }

  /** Every sample is NaN exactly when the NaN count is the length. */
  lemma {:induction false} NaNCountIsLength(s: seq<Val>)
    ensures NaNCount(s) == |s| <==> forall i :: 0 <= i < |s| ==> s[i].NaN?
  {
    if |s| > 0 {
      var p := s[..|s| - 1];
      NaNCountIsLength(p);
      assert forall i :: 0 <= i < |p| ==> p[i] == s[i];
    }
  }

  /** The sum is a number exactly when no sample is NaN. */
  lemma {:induction false} SumIsNum(s: seq<Val>)
    ensures Sum(s).Num? <==> NaNFree(s)
  {
    if |s| > 0 {
      var p := s[..|s| - 1];
      SumIsNum(p);
      assert forall i :: 0 <= i < |p| ==> p[i] == s[i];
    }
  }

  /** n copies of x added up, that is n * x without a non-linear product. */
  function Times(n: nat, x: real): real
  {
    if n == 0 then 0.0 else Times(n - 1, x) + x
  }

  lemma {:induction false} TimesIsProduct(n: nat, x: real)
    ensures Times(n, x) == n as real * x
  {
    if n > 0 {
      TimesIsProduct(n - 1, x);
      assert (n - 1) as real * x + x == n as real * x;
    }
  }

  /** A sum of n samples that all lie in [lo, hi] lies in [n * lo, n * hi]. */
  lemma {:induction false} SumBounds(s: seq<Val>, lo: real, hi: real)
    requires forall i :: 0 <= i < |s| ==> s[i].Num? && lo <= s[i].r <= hi
    ensures Sum(s).Num?
    ensures Times(|s|, lo) <= Sum(s).r <= Times(|s|, hi)
  {
    if |s| > 0 {
      var p := s[..|s| - 1];
      assert forall i :: 0 <= i < |p| ==> p[i] == s[i];
      SumBounds(p, lo, hi);
    }
  }

  /** A sum of samples that are all numbers at least 0 is a number at least 0. */
  lemma {:induction false} SumNonNegative(s: seq<Val>)
    requires forall i :: 0 <= i < |s| ==> s[i].Num? && s[i].r >= 0.0
    ensures Sum(s).Num? && Sum(s).r >= 0.0
  {
    if |s| > 0 {
      var p := s[..|s| - 1];
      assert forall i :: 0 <= i < |p| ==> p[i] == s[i];
      SumNonNegative(p);
    }
  }

  /** Summing pointwise sums: when z[i] = x[i] + y[i] everywhere, Sum(z) = Sum(x) + Sum(y). */
  lemma {:induction false} SumPointwise(x: seq<Val>, y: seq<Val>, z: seq<Val>)
    requires |x| == |y| == |z|
    requires forall i :: 0 <= i < |z| ==> z[i] == Add(x[i], y[i])
    requires NaNFree(x) && NaNFree(y)
    ensures Sum(z) == Add(Sum(x), Sum(y))
  {
    if |z| > 0 {
      var n := |z| - 1;
      SumPointwise(x[..n], y[..n], z[..n]);
      SumIsNum(x[..n]);
      SumIsNum(y[..n]);
    }
  }
}
