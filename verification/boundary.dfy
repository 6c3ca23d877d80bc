/**
  Boundary decisions of the Poisson solve: the per-face codes handed to the
  multigrid solver (`Gravity::make_mg_bc`) and the check, made before a
  single-level solve on a refined level, that its grids keep off the
  physical domain boundary (`Gravity::solve_for_phi`).
*/
module Boundary {
  import opened GravityParams
  import opened Boxes

  /** Physical boundary types a domain face can carry. */
  datatype PhysBc = Interior | Inflow | Outflow | Symmetry | SlipWall | NoSlipWall

  /** Multigrid boundary codes: `MgZero` is the literal 0 written for periodic directions. */
  datatype MgBc = MgZero | MgNeumann | MgDirichlet

  /** Spherical and RZ geometries have a coordinate axis at r = 0 on face 0. */
  predicate HasAxis(coord: Coord)
  {
    coord == Spherical || coord == RZ
  }

  /** A face type the multigrid code mapping knows. */
  predicate KnownFace(bc: PhysBc)
  {
    bc == Symmetry || bc == Outflow
  }

  /** Symmetry faces take Neumann data and outflow faces Dirichlet data. */
  predicate CodeFor(code: MgBc, bc: PhysBc)
  {
    (bc == Symmetry ==> code == MgNeumann) && (bc == Outflow ==> code == MgDirichlet)
  }

  predicate AllFacesKnown(periodic: seq<bool>, lo: seq<PhysBc>, hi: seq<PhysBc>)
    requires |periodic| == |lo| == |hi|
  {
    forall dir :: 0 <= dir < |periodic| && !periodic[dir] ==> KnownFace(lo[dir]) && KnownFace(hi[dir])
  }

  /** The codes of both faces of direction `dir` as the loop of `make_mg_bc` sets them. */
  predicate DirectionDone(loCode: MgBc, hiCode: MgBc, periodic: seq<bool>, lo: seq<PhysBc>, hi: seq<PhysBc>, dir: nat)
    requires |periodic| == |lo| == |hi| && dir < |periodic|
  {
    if periodic[dir] then loCode == MgZero && hiCode == MgZero
    else CodeFor(loCode, lo[dir]) && CodeFor(hiCode, hi[dir])
  }

  /**
    Fills the solver's boundary-code array, face `2*dir` for the low side and
    `2*dir + 1` for the high side of direction `dir`.  Returns false (the run
    aborts) at the first non-periodic face whose type is neither Symmetry nor
    Outflow.  With an axis at r = 0, entry 0 ends up Neumann whatever the
    loop set.
  */
  method MakeMgBc(mgBc: array<MgBc>, periodic: seq<bool>, lo: seq<PhysBc>, hi: seq<PhysBc>, coord: Coord)
    returns (ok: bool)
    requires |periodic| == |lo| == |hi| && |periodic| >= 1
    requires mgBc.Length == 2 * |periodic|
    modifies mgBc
    ensures ok <==> AllFacesKnown(periodic, lo, hi)
    ensures ok ==> forall dir :: 1 <= dir < |periodic| ==> DirectionDone(mgBc[2 * dir], mgBc[2 * dir + 1], periodic, lo, hi, dir)
    ensures ok ==> if periodic[0] then mgBc[1] == MgZero else CodeFor(mgBc[1], hi[0])
    ensures ok && HasAxis(coord) ==> mgBc[0] == MgNeumann
    ensures ok && !HasAxis(coord) ==> if periodic[0] then mgBc[0] == MgZero else CodeFor(mgBc[0], lo[0])
  {
    var dir := 0;
    while dir < |periodic|
      invariant 0 <= dir <= |periodic|
      invariant forall d :: 0 <= d < dir && !periodic[d] ==> KnownFace(lo[d]) && KnownFace(hi[d])
      invariant forall d :: 0 <= d < dir ==> DirectionDone(mgBc[2 * d], mgBc[2 * d + 1], periodic, lo, hi, d)
    {
      if periodic[dir] {
        mgBc[2 * dir] := MgZero;
        mgBc[2 * dir + 1] := MgZero;
      } else {
        if lo[dir] == Symmetry {
          mgBc[2 * dir] := MgNeumann;
        } else if lo[dir] == Outflow {
          mgBc[2 * dir] := MgDirichlet;
        } else {
          return false;
        }
        if hi[dir] == Symmetry {
          mgBc[2 * dir + 1] := MgNeumann;
        } else if hi[dir] == Outflow {
          mgBc[2 * dir + 1] := MgDirichlet;
        } else {
          return false;
        }
      }
      dir := dir + 1;
    }
    ghost var first := 0;
    assert DirectionDone(mgBc[2 * first], mgBc[2 * first + 1], periodic, lo, hi, first);
    if HasAxis(coord) {
      mgBc[0] := MgNeumann;
    }
    ok := true;
  }

  /** The low face of `dir` is pulled in by one cell: not periodic and not a symmetry plane. */
  predicate ShrinksLo(periodic: seq<bool>, lo: seq<PhysBc>, dir: nat)
    requires dir < |periodic| && dir < |lo|
  {
    !periodic[dir] && lo[dir] != Symmetry
  }

  predicate ShrinksHi(periodic: seq<bool>, hi: seq<PhysBc>, dir: nat)
    requires dir < |periodic| && dir < |hi|
  {
    !periodic[dir] && hi[dir] != Symmetry
  }

  /** The domain with every shrinking face pulled in by one cell. */
  function ShrunkDomain(domain: Box, periodic: seq<bool>, lo: seq<PhysBc>, hi: seq<PhysBc>): (r: Box)
    requires HasDim(domain, |periodic|) && |lo| == |hi| == |periodic|
    ensures HasDim(r, |periodic|)
  {
    Box(seq(|periodic|, d requires 0 <= d < |periodic| =>
              if ShrinksLo(periodic, lo, d) then domain.lo[d] + 1 else domain.lo[d]),
        seq(|periodic|, d requires 0 <= d < |periodic| =>
              if ShrinksHi(periodic, hi, d) then domain.hi[d] - 1 else domain.hi[d]))
  }

  /** The domain is periodic in every direction (`Geometry::isAllPeriodic`). */
  predicate AllPeriodic(periodic: seq<bool>)
  {
    forall d :: 0 <= d < |periodic| ==> periodic[d]
  }

  /**
    The fatal condition of a single-level solve: on a refined level of a
    domain that is not periodic everywhere, some grid box is not contained in
    the shrunk domain.
  */
  predicate RefinedGridTouchesBoundary(level: nat, domain: Box, periodic: seq<bool>, lo: seq<PhysBc>,
                                       hi: seq<PhysBc>, grids: BoxArray)
    requires HasDim(domain, |periodic|) && |lo| == |hi| == |periodic| && AllHaveDim(grids, |periodic|)
  {
    level > 0 && !AllPeriodic(periodic) &&
    exists k :: 0 <= k < |grids| && !Contains(ShrunkDomain(domain, periodic, lo, hi), grids[k])
  }

  /**
    Builds the shrunk domain direction by direction: a non-periodic direction
    loses its low cell unless the low face is a symmetry plane, and its high
    cell unless the high face is one.
  */
  method ShrinkDomain(domain: Box, periodic: seq<bool>, lo: seq<PhysBc>, hi: seq<PhysBc>) returns (shrunk: Box)
    requires HasDim(domain, |periodic|) && |lo| == |hi| == |periodic|
    ensures shrunk == ShrunkDomain(domain, periodic, lo, hi)
  {
    shrunk := domain;
    for dir := 0 to |periodic|
      invariant HasDim(shrunk, |periodic|)
      invariant forall d :: 0 <= d < dir ==> shrunk.lo[d] == ShrunkDomain(domain, periodic, lo, hi).lo[d]
      invariant forall d :: 0 <= d < dir ==> shrunk.hi[d] == ShrunkDomain(domain, periodic, lo, hi).hi[d]
      invariant forall d :: dir <= d < |periodic| ==> shrunk.lo[d] == domain.lo[d] && shrunk.hi[d] == domain.hi[d]
    {
      if !periodic[dir] {
        if lo[dir] != Symmetry {
          shrunk := shrunk.(lo := shrunk.lo[dir := shrunk.lo[dir] + 1]);
        }
        if hi[dir] != Symmetry {
          shrunk := shrunk.(hi := shrunk.hi[dir := shrunk.hi[dir] - 1]);
        }
      }
    }
  }

  /**
    The check made before a single-level solve: true (the run stops with an
    error) exactly when the level is refined, the domain is not periodic
    everywhere and some grid box leaves the shrunk domain.
  */
  method GridsTouchBoundary(level: nat, domain: Box, periodic: seq<bool>, lo: seq<PhysBc>, hi: seq<PhysBc>,
                            grids: BoxArray) returns (touches: bool)
    requires HasDim(domain, |periodic|) && |lo| == |hi| == |periodic| && AllHaveDim(grids, |periodic|)
    ensures touches <==> RefinedGridTouchesBoundary(level, domain, periodic, lo, hi, grids)
  {
    touches := false;
    if level > 0 && !AllPeriodic(periodic) {
      var shrunk := ShrinkDomain(domain, periodic, lo, hi);
      var k := 0;
      while k < |grids|
        invariant 0 <= k <= |grids|
        invariant forall j :: 0 <= j < k ==> Contains(shrunk, grids[j])
      {
        if !Contains(shrunk, grids[k]) {
          touches := true;
          return;
        }
        k := k + 1;
      }
    }
  }

  /** Box `b` reaches a face of the domain that the shrink pulls in. */
  predicate ReachesShrunkFace(b: Box, domain: Box, periodic: seq<bool>, lo: seq<PhysBc>, hi: seq<PhysBc>)
    requires HasDim(domain, |periodic|) && |lo| == |hi| == |periodic| && HasDim(b, |periodic|)
  {
    exists d :: 0 <= d < |periodic| &&
      ((ShrinksLo(periodic, lo, d) && b.lo[d] == domain.lo[d]) ||
       (ShrinksHi(periodic, hi, d) && b.hi[d] == domain.hi[d]))
  }

  /**
    For grids inside the domain, the check fails exactly when a refined level
    of a non-periodic domain has a box lying on a domain face that is neither
    periodic nor a symmetry plane.
  */
  lemma TouchCheckFailsIffOnShrunkFace(level: nat, domain: Box, periodic: seq<bool>, lo: seq<PhysBc>,
                                       hi: seq<PhysBc>, grids: BoxArray)
    requires HasDim(domain, |periodic|) && |lo| == |hi| == |periodic| && AllHaveDim(grids, |periodic|)
    requires forall k :: 0 <= k < |grids| ==> Contains(domain, grids[k])
    ensures RefinedGridTouchesBoundary(level, domain, periodic, lo, hi, grids) <==>
              level > 0 && !AllPeriodic(periodic) &&
              exists k :: 0 <= k < |grids| && ReachesShrunkFace(grids[k], domain, periodic, lo, hi)
  {
    var shrunk := ShrunkDomain(domain, periodic, lo, hi);
    forall k | 0 <= k < |grids|
      ensures Contains(shrunk, grids[k]) <==> !ReachesShrunkFace(grids[k], domain, periodic, lo, hi)
    {
      var b := grids[k];
      if !Contains(shrunk, b) {
        var d :| 0 <= d < |periodic| && !(shrunk.lo[d] <= b.lo[d] && b.hi[d] <= shrunk.hi[d]);
        assert (ShrinksLo(periodic, lo, d) && b.lo[d] == domain.lo[d]) ||
               (ShrinksHi(periodic, hi, d) && b.hi[d] == domain.hi[d]);
      }
    }
  }
}
