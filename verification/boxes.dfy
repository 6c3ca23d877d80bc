/**
  Integer index boxes: a box is the cell range `lo[d] ..= hi[d]` in every
  direction `d`; a box array is the list of disjoint boxes that make up one
  level's grids.
*/
module Boxes {

  datatype Box = Box(lo: seq<int>, hi: seq<int>)

  type BoxArray = seq<Box>

  /** The box has one lower and one upper corner coordinate per direction. */
  predicate HasDim(b: Box, dim: nat)
  {
    |b.lo| == dim && |b.hi| == dim
  }

  predicate AllHaveDim(ba: BoxArray, dim: nat)
  {
    forall k :: 0 <= k < |ba| ==> HasDim(ba[k], dim)
  }

  /** `inner` lies inside `outer` in every direction. */
  predicate Contains(outer: Box, inner: Box)
    requires |outer.lo| == |outer.hi| == |inner.lo| == |inner.hi|
  {
    forall d :: 0 <= d < |outer.lo| ==> outer.lo[d] <= inner.lo[d] && inner.hi[d] <= outer.hi[d]
  }

  /** Number of cells of the box over its first `d` directions (0 for an empty box). */
  function CellsUpTo(b: Box, d: nat): nat
    requires d <= |b.lo| && d <= |b.hi|
  {
    if d == 0 then 1
    else
      var w := b.hi[d - 1] - b.lo[d - 1] + 1;
      CellsUpTo(b, d - 1) * (if w > 0 then w else 0)
  }

  function NumPts(b: Box): nat
    requires |b.lo| == |b.hi|
  {
    CellsUpTo(b, |b.lo|)
  }

  /** Number of cells of all boxes together. */
  function CellCount(ba: BoxArray): nat
    requires forall k :: 0 <= k < |ba| ==> |ba[k].lo| == |ba[k].hi|
  {
    if ba == [] then 0 else CellCount(ba[..|ba| - 1]) + NumPts(ba[|ba| - 1])
  }

  /** The face (node-centred) box in direction `n`: one more index on the high side. */
  function SurroundingNodes(b: Box, n: nat): (r: Box)
    requires n < |b.hi|
    ensures |r.lo| == |b.lo| && |r.hi| == |b.hi|
  {
    Box(b.lo, b.hi[n := b.hi[n] + 1])
  }

  function FaceLayout(ba: BoxArray, n: nat): (r: BoxArray)
    requires forall k :: 0 <= k < |ba| ==> n < |ba[k].hi|
    ensures |r| == |ba|
  {
    seq(|ba|, k requires 0 <= k < |ba| => SurroundingNodes(ba[k], n))
  }
}
