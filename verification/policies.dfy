/**
  The small decision rules that sit around the solver calls: the absolute
  tolerance of the multilevel correction solve, the mean removal that makes
  the all-periodic problem solvable, the flux-register gating of
  `add_to_fluxes`, and the mass-offset drift warning.
*/
module SolvePolicy {
  import opened RealSeqs

  // ---------------------------------------------------------------------
  // Absolute tolerance of the correction solve in solve_for_delta_phi
  // ---------------------------------------------------------------------

  function Max(a: real, b: real): real
  {
    if a >= b then a else b
  }

  /**
    The largest stored residual norm among the coarse level `crse` and the
    levels strictly between `crse` and `stop`.
  */
  function MaxResnorm(resnorm: seq<real>, crse: nat, stop: nat): (r: real)
    requires crse < |resnorm| && stop <= |resnorm|
    ensures r >= resnorm[crse]
    ensures forall k :: crse < k < stop ==> r >= resnorm[k]
    ensures r == resnorm[crse] || exists k :: crse < k < stop && r == resnorm[k]
    decreases stop
  {
    if stop <= crse + 1 then resnorm[crse]
    else Max(MaxResnorm(resnorm, crse, stop - 1), resnorm[stop - 1])
  }

  /**
    The absolute tolerance handed to the correction solve over levels
    `crse .. fine`: the residual norm of `crse`, raised to that of every level
    above it up to but not including `fine`.
  */
  method CorrectionAbsTol(resnorm: seq<real>, crse: nat, fine: nat) returns (absTol: real)
    requires crse <= fine < |resnorm|
    ensures absTol == MaxResnorm(resnorm, crse, fine)
  {
    absTol := resnorm[crse];
    var lev := crse + 1;
    while lev < fine
      invariant crse + 1 <= lev
      invariant lev <= fine || lev == crse + 1
      invariant absTol == MaxResnorm(resnorm, crse, lev)
    {
      absTol := Max(absTol, resnorm[lev]);
      lev := lev + 1;
    }
  }

  /** The residual norm stored for the finest level of the solve plays no part. */
  lemma {:induction false} FinestResnormIgnored(resnorm: seq<real>, crse: nat, fine: nat, x: real)
    requires crse < fine < |resnorm|
    ensures MaxResnorm(resnorm[fine := x], crse, fine) == MaxResnorm(resnorm, crse, fine)
  {
    FrozenBelow(resnorm, crse, fine, fine, x);
  }

  lemma {:induction false} FrozenBelow(resnorm: seq<real>, crse: nat, stop: nat, at: nat, x: real)
    requires crse < at < |resnorm| && stop <= at
    ensures MaxResnorm(resnorm[at := x], crse, stop) == MaxResnorm(resnorm, crse, stop)
    decreases stop
  {
    if stop > crse + 1 {
      FrozenBelow(resnorm, crse, stop - 1, at, x);
    }
  }

  // ---------------------------------------------------------------------
  // Mean removal in gravity_sync
  // ---------------------------------------------------------------------

  /**
    The mean is removed only when the domain is periodic in every direction
    and the coarse level's grids cover the whole domain.
  */
  predicate MeanRemovalApplies(allPeriodic: bool, gridPts: nat, domainPts: nat)
  {
    allPeriodic && gridPts == domainPts
  }

  /**
    Adjust the right-hand side of the synchronisation solve: when the rule
    applies, subtract the cell average from every cell, so that the adjusted
    values sum to zero; otherwise leave them alone.
  */
  method AdjustSyncRhs(rhs: array<real>, allPeriodic: bool, domainPts: nat) returns (correction: real)
    requires domainPts > 0
    modifies rhs
    ensures MeanRemovalApplies(allPeriodic, rhs.Length, domainPts) ==>
      correction == Mean(old(rhs[..])) && rhs[..] == Shift(old(rhs[..]), correction) && Sum(rhs[..]) == 0.0
    ensures !MeanRemovalApplies(allPeriodic, rhs.Length, domainPts) ==>
      correction == 0.0 && rhs[..] == old(rhs[..])
  {
    correction := 0.0;
    if MeanRemovalApplies(allPeriodic, rhs.Length, domainPts) {
      var total := SumCells(rhs[..]);
      correction := total / (rhs.Length as real);
      SubtractFrom(rhs, correction);
      ShiftByMeanSumsToZero(old(rhs[..]));
    }
  }

  /** The sum of the cell values, accumulated in a loop. */
  method SumCells(cells: seq<real>) returns (total: real)
    ensures total == Sum(cells)
  {
    total := 0.0;
    var i := 0;
    while i < |cells|
      invariant 0 <= i <= |cells|
      invariant total == Sum(cells[..i])
    {
      assert cells[..i + 1][..i] == cells[..i];
      total := total + cells[i];
      i := i + 1;
    }
    assert cells[..i] == cells;
  }

  /** Lower every cell by `c` in place. */
  method SubtractFrom(cells: array<real>, c: real)
    modifies cells
    ensures cells[..] == Shift(old(cells[..]), c)
  {
    var i := 0;
    while i < cells.Length
      invariant 0 <= i <= cells.Length
      invariant forall j :: 0 <= j < i ==> cells[j] == old(cells[j]) - c
      invariant forall j :: i <= j < cells.Length ==> cells[j] == old(cells[j])
    {
      cells[i] := cells[i] - c;
      i := i + 1;
    }
  }

  /**
    After the correction solve, lower the correction on every level of the
    solve by the cell average of its coarse level, so that the coarse
    correction sums to zero.  `deltaPhi[0]` is the coarse level.
  */
  method ZeroCorrectionMean(deltaPhi: array<seq<real>>, allPeriodic: bool, domainPts: nat)
    returns (correction: real)
    requires deltaPhi.Length > 0 && domainPts > 0
    modifies deltaPhi
    ensures MeanRemovalApplies(allPeriodic, |old(deltaPhi[0])|, domainPts) ==>
      && correction == Mean(old(deltaPhi[0]))
      && (forall k :: 0 <= k < deltaPhi.Length ==> deltaPhi[k] == Shift(old(deltaPhi[k]), correction))
      && Sum(deltaPhi[0]) == 0.0
    ensures !MeanRemovalApplies(allPeriodic, |old(deltaPhi[0])|, domainPts) ==>
      correction == 0.0 && deltaPhi[..] == old(deltaPhi[..])
  {
    correction := 0.0;
    if MeanRemovalApplies(allPeriodic, |deltaPhi[0]|, domainPts) {
      ghost var before := deltaPhi[..];
      var total := SumCells(deltaPhi[0]);
      correction := total / (|deltaPhi[0]| as real);
      ShiftByMeanSumsToZero(before[0]);
      var k := 0;
      while k < deltaPhi.Length
        invariant 0 <= k <= deltaPhi.Length
        invariant forall j :: 0 <= j < k ==> deltaPhi[j] == Shift(before[j], correction)
        invariant forall j :: k <= j < deltaPhi.Length ==> deltaPhi[j] == before[j]
      {
        deltaPhi[k] := Shift(deltaPhi[k], correction);
        k := k + 1;
      }
    }
  }

  // ---------------------------------------------------------------------
  // Flux-register gating in add_to_fluxes
  // ---------------------------------------------------------------------

  /**
    One operation on a flux register: `CrseInit` stores the coarse level's
    face fluxes into the register of the next finer level, `FineAdd` adds the
    fine level's face fluxes into its own register.  `reg` is the level that
    owns the register and `dir` the face direction.  One operation stands for
    the whole direction: the source issues `FineAdd` once per local box of
    the level in that direction, and the model records one `FineAdd` that
    covers every box of the level.
  */
  datatype FluxOp = CrseInit(reg: nat, dir: nat, scale: real) | FineAdd(reg: nat, dir: nat, scale: real)

  /**
    The register operations issued by one call for `level` during sub-step
    `iteration` of `ncycle`: coarse fluxes with scale -1 in every direction
    when a finer level exists, and fine fluxes with scale +1 in every
    direction on the last sub-step of a level that has a coarser one.
  */
  function FluxActions(level: nat, iteration: nat, ncycle: nat, finestLevel: nat, dim: nat): (ops: seq<FluxOp>)
    ensures |ops| == (if level < finestLevel then dim else 0) + (if level > 0 && iteration == ncycle then dim else 0)
    ensures var nc := if level < finestLevel then dim else 0;
      forall k :: 0 <= k < |ops| ==>
        ops[k] == if k < nc then CrseInit(level + 1, k, -1.0) else FineAdd(level, k - nc, 1.0)
  {
    var crse := if level < finestLevel then CoarseOps(level + 1, dim) else [];
    var fine := if level > 0 && iteration == ncycle then FineOps(level, dim) else [];
    crse + fine
  }

  /** `CrseInit` into register `reg` with scale -1, one per direction in order. */
  function CoarseOps(reg: nat, dim: nat): (ops: seq<FluxOp>)
    ensures |ops| == dim
    ensures forall d: nat :: d < dim ==> ops[d] == CrseInit(reg, d, -1.0)
  {
    if dim == 0 then [] else CoarseOps(reg, dim - 1) + [CrseInit(reg, dim - 1, -1.0)]
  }

  /** `FineAdd` into register `reg` with scale +1, one per direction in order. */
  function FineOps(reg: nat, dim: nat): (ops: seq<FluxOp>)
    ensures |ops| == dim
    ensures forall d: nat :: d < dim ==> ops[d] == FineAdd(reg, d, 1.0)
  {
    if dim == 0 then [] else FineOps(reg, dim - 1) + [FineAdd(reg, dim - 1, 1.0)]
  }

  function CountFineAdds(ops: seq<FluxOp>): nat
  {
    if ops == [] then 0 else CountFineAdds(ops[..|ops| - 1]) + (if ops[|ops| - 1].FineAdd? then 1 else 0)
  }

  /** The `FineAdd` operations issued over sub-steps `1 .. upTo` of one coarse step. */
  function FineAddsOver(level: nat, ncycle: nat, finestLevel: nat, dim: nat, upTo: nat): nat
  {
    if upTo == 0 then 0
    else FineAddsOver(level, ncycle, finestLevel, dim, upTo - 1) + CountFineAdds(FluxActions(level, upTo, ncycle, finestLevel, dim))
  }

  lemma {:induction false} CountFineAddsConcat(a: seq<FluxOp>, b: seq<FluxOp>)
    ensures CountFineAdds(a + b) == CountFineAdds(a) + CountFineAdds(b)
    decreases |b|
  {
    if b == [] {
      assert a + b == a;
    } else {
      assert (a + b)[..|a + b| - 1] == a + b[..|b| - 1];
      CountFineAddsConcat(a, b[..|b| - 1]);
    }
  }

  lemma {:induction false} CountFineAddsAll(ops: seq<FluxOp>)
    ensures (forall k :: 0 <= k < |ops| ==> ops[k].FineAdd?) ==> CountFineAdds(ops) == |ops|
    ensures (forall k :: 0 <= k < |ops| ==> ops[k].CrseInit?) ==> CountFineAdds(ops) == 0
  {
    if ops != [] {
      CountFineAddsAll(ops[..|ops| - 1]);
    }
  }

  /** Each call adds fine fluxes in every direction on the last sub-step only. */
  lemma FineAddsPerCall(level: nat, iteration: nat, ncycle: nat, finestLevel: nat, dim: nat)
    ensures CountFineAdds(FluxActions(level, iteration, ncycle, finestLevel, dim)) ==
      if level > 0 && iteration == ncycle then dim else 0
  {
    var crse := if level < finestLevel then CoarseOps(level + 1, dim) else [];
    var fine := if level > 0 && iteration == ncycle then FineOps(level, dim) else [];
    assert FluxActions(level, iteration, ncycle, finestLevel, dim) == crse + fine;
    CountFineAddsConcat(crse, fine);
    CountFineAddsAll(crse);
    CountFineAddsAll(fine);
  }

  /**
    Over the `ncycle` sub-steps of a fine level (`level > 0`) within one
    coarse step, the fine fluxes are added to its register exactly once per
    direction.
  */
  lemma {:induction false} FineAddOncePerCoarseStep(level: nat, ncycle: nat, finestLevel: nat, dim: nat)
    requires level > 0 && ncycle >= 1
    ensures FineAddsOver(level, ncycle, finestLevel, dim, ncycle) == dim
  {
    NoFineAddBeforeLast(level, ncycle, finestLevel, dim, ncycle - 1);
    FineAddsPerCall(level, ncycle, ncycle, finestLevel, dim);
  }

  lemma {:induction false} NoFineAddBeforeLast(level: nat, ncycle: nat, finestLevel: nat, dim: nat, upTo: nat)
    requires upTo < ncycle
    ensures FineAddsOver(level, ncycle, finestLevel, dim, upTo) == 0
  {
    if upTo > 0 {
      NoFineAddBeforeLast(level, ncycle, finestLevel, dim, upTo - 1);
      FineAddsPerCall(level, upTo, ncycle, finestLevel, dim);
    }
  }

  // ---------------------------------------------------------------------
  // Mass offset in set_mass_offset
  // ---------------------------------------------------------------------

  /**
    The new mass offset: the total mass over all levels divided by the
    domain volume in an all-periodic domain, and zero otherwise.
  */
  function MassOffset(levelMass: seq<real>, probSize: real, allPeriodic: bool): (r: real)
    requires probSize > 0.0
    ensures r * probSize == if allPeriodic then Sum(levelMass) else 0.0
  {
    if allPeriodic then Sum(levelMass) / probSize else 0.0
  }

  /**
    Whether the drift warning is printed: the offset remembered from the
    previous call counts only on a multilevel run, and the warning fires when
    the offset moved by more than 1e-10 of a positive remembered offset.
  */
  function MassDriftWarning(prevOffset: real, newOffset: real, finestLevel: nat): (warn: bool)
    ensures warn <==> finestLevel > 0 && prevOffset > 0.0 && Abs(newOffset - prevOffset) > 0.0000000001 * prevOffset
  {
    var oldOffset := if finestLevel > 0 then prevOffset else 0.0;
    Abs(newOffset - oldOffset) > 0.0000000001 * Abs(oldOffset) && oldOffset > 0.0
  }

  /** An unchanged offset never warns, and a single-level run never warns. */
  lemma NoWarningWithoutDrift(prevOffset: real, newOffset: real, finestLevel: nat)
    requires newOffset == prevOffset || finestLevel == 0
    ensures !MassDriftWarning(prevOffset, newOffset, finestLevel)
  {
  }
}
