/**
  Sequences of exact reals: the cell values of one level's field, or the bins
  of a radial profile.  Sums, constant shifts and the linear blend of two time
  instances are defined here once and used by every other module.
*/
module RealSeqs {

  /** Absolute value (`std::abs`). */
  function Abs(x: real): real
  {
    if x < 0.0 then -x else x
  }

  /** Sum of the values, accumulated left to right as the source's loops do. */
  function Sum(s: seq<real>): real
  {
    if s == [] then 0.0 else Sum(s[..|s| - 1]) + s[|s| - 1]
  }

  /** A sequence of `n` copies of `v` (a field after `setVal(v)`). */
  function Constant(n: nat, v: real): (r: seq<real>)
    ensures |r| == n
    ensures forall i :: 0 <= i < n ==> r[i] == v
  {
    seq(n, _ => v)
  }

  /** Every value lowered by `c` (`plus(-c)` on a field). */
  function Shift(s: seq<real>, c: real): (r: seq<real>)
    ensures |r| == |s|
    ensures forall i :: 0 <= i < |s| ==> r[i] + c == s[i]
  {
    seq(|s|, i requires 0 <= i < |s| => s[i] - c)
  }

  /** Cell average: the sum divided by the number of cells. */
  function Mean(s: seq<real>): real
    requires |s| > 0
  {
    Sum(s) / (|s| as real)
  }

  /**
    The blend `alpha * curr + (1 - alpha) * prev` of two time instances of the
    same field, taken cell by cell.
  */
  function Lerp(prev: seq<real>, curr: seq<real>, alpha: real): (r: seq<real>)
    requires |prev| == |curr|
    ensures |r| == |prev|
  {
    seq(|prev|, i requires 0 <= i < |prev| => alpha * curr[i] + (1.0 - alpha) * prev[i])
  }

  lemma {:induction false} SumConcat(a: seq<real>, b: seq<real>)
    ensures Sum(a + b) == Sum(a) + Sum(b)
    decreases |b|
  {
    if b != [] {
      assert (a + b)[..|a + b| - 1] == a + b[..|b| - 1];
      SumConcat(a, b[..|b| - 1]);
    } else {
      assert a + b == a;
    }
  }

  lemma {:induction false} SumConstant(n: nat, v: real)
    ensures Sum(Constant(n, v)) == (n as real) * v
  {
    if n > 0 {
      assert Constant(n, v)[..n - 1] == Constant(n - 1, v);
      SumConstant(n - 1, v);
    }
  }

  /** Lowering every cell by `c` lowers the sum by `|s| * c`. */
  lemma {:induction false} SumShift(s: seq<real>, c: real)
    ensures Sum(Shift(s, c)) == Sum(s) - (|s| as real) * c
  {
    if s != [] {
      assert Shift(s, c)[..|s| - 1] == Shift(s[..|s| - 1], c);
      SumShift(s[..|s| - 1], c);
    }
  }

  /** Subtracting the mean leaves a field whose values sum to zero. */
  lemma ShiftByMeanSumsToZero(s: seq<real>)
    requires |s| > 0
    ensures Sum(Shift(s, Mean(s))) == 0.0
  {
    SumShift(s, Mean(s));
  }

  /** The blend is `prev` at weight 0 and `curr` at weight 1. */
  lemma LerpEndpoints(prev: seq<real>, curr: seq<real>)
    requires |prev| == |curr|
    ensures Lerp(prev, curr, 0.0) == prev
    ensures Lerp(prev, curr, 1.0) == curr
  {
  }

  lemma NonNegProduct(a: real, b: real)
    requires a >= 0.0 && b >= 0.0
    ensures a * b >= 0.0
  {
  }

  /** Between the stored times every blended value lies between the two instances. */
  lemma BlendBetween(prev: seq<real>, curr: seq<real>, alpha: real, i: nat)
    requires |prev| == |curr| && i < |prev| && 0.0 <= alpha <= 1.0
    ensures prev[i] <= curr[i] ==> prev[i] <= Lerp(prev, curr, alpha)[i] <= curr[i]
    ensures curr[i] <= prev[i] ==> curr[i] <= Lerp(prev, curr, alpha)[i] <= prev[i]
  {
    var b := Lerp(prev, curr, alpha)[i];
    assert b - prev[i] == alpha * (curr[i] - prev[i]);
    assert curr[i] - b == (1.0 - alpha) * (curr[i] - prev[i]);
    if curr[i] <= prev[i] {
      NonNegProduct(alpha, prev[i] - curr[i]);
      NonNegProduct(1.0 - alpha, prev[i] - curr[i]);
    } else {
      NonNegProduct(alpha, curr[i] - prev[i]);
      NonNegProduct(1.0 - alpha, curr[i] - prev[i]);
    }
  }
}
