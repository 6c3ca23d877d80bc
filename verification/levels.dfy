/**
  The per-level state of the gravity module (`class Gravity`): the grids of
  each installed level, the previous and current time instances of the
  potential and of its face-centred gradient, the potential flux registers,
  the radial profile buffers of the monopole solver, and the scalars
  (mass offset, largest radius fully inside the domain, finest allocated
  level).  The level tables have `MaxLev` slots each.
*/
module GravityLevels {
  import opened Wrappers
  import opened RealSeqs
  import opened Boxes
  import opened GravityParams
  import opened RadialProfile
  import SolvePolicy

  /** Number of level slots in every per-level table. */
  const MaxLev: nat := 15

  /** The value a freshly swapped-in current slot is filled with (1e50). */
  const Sentinel: real := 100000000000000000000000000000000000000000000000000.0

  /**
    A one-component field over a box array: `Uninitialised` right after
    allocation, `Values` once every valid cell holds a value (the cells of
    all boxes, in box order).
  */
  datatype Field = Uninitialised(layout: BoxArray) | Values(layout: BoxArray, vals: seq<real>)

  /** A flux register between level `level` and the next coarser level. */
  datatype FluxReg = FluxReg(layout: BoxArray, crseRatio: Ratio, level: nat)

  predicate Shaped(ba: BoxArray)
  {
    forall k :: 0 <= k < |ba| ==> |ba[k].lo| == |ba[k].hi|
  }

  /** `f` lives on `ba` and, if it holds values, holds one per cell. */
  predicate FieldOn(f: Field, ba: BoxArray)
  {
    f.layout == ba && Shaped(ba) && (f.Values? ==> |f.vals| == CellCount(ba))
  }

  /** A field on `ba` with every cell set to `v`. */
  function Filled(ba: BoxArray, v: real): (f: Field)
    requires Shaped(ba)
    ensures FieldOn(f, ba) && f.Values?
    ensures forall i :: 0 <= i < |f.vals| ==> f.vals[i] == v
  {
    Values(ba, Constant(CellCount(ba), v))
  }

  lemma FaceLayoutShaped(ba: BoxArray, dim: nat, n: nat)
    requires AllHaveDim(ba, dim) && n < dim
    ensures Shaped(FaceLayout(ba, n))
  {
  }

  /** One field per direction `n`, each on the face layout of `ba` in direction `n`. */
  predicate GradsOn(g: seq<Field>, ba: BoxArray, dim: nat)
    requires AllHaveDim(ba, dim)
  {
    |g| == dim && forall n :: 0 <= n < dim ==> FieldOn(g[n], FaceLayout(ba, n))
  }

  /** Freshly allocated gradient fields, one per direction. */
  function UninitialisedGrads(ba: BoxArray, dim: nat): (g: seq<Field>)
    requires AllHaveDim(ba, dim)
    ensures GradsOn(g, ba, dim)
    ensures forall n :: 0 <= n < dim ==> g[n].Uninitialised?
  {
    seq(dim, n requires 0 <= n < dim => Uninitialised(FaceLayout(ba, n)))
  }

  /** Gradient fields with every face value set to `v`. */
  function FilledGrads(ba: BoxArray, dim: nat, v: real): (g: seq<Field>)
    requires AllHaveDim(ba, dim)
    ensures GradsOn(g, ba, dim)
    ensures forall n :: 0 <= n < dim ==> g[n].Values? && forall i :: 0 <= i < |g[n].vals| ==> g[n].vals[i] == v
  {
    seq(dim, n requires 0 <= n < dim => (FaceLayoutShaped(ba, dim, n); Filled(FaceLayout(ba, n), v)))
  }

  /** The slots of one level agree with its grids. */
  predicate LevelSlotsOk(ba: BoxArray, dim: nat, pPrev: Option<Field>, pCurr: Option<Field>,
                         gPrev: seq<Field>, gCurr: seq<Field>)
  {
    && AllHaveDim(ba, dim)
    && (pPrev.Some? ==> FieldOn(pPrev.value, ba))
    && (pCurr.Some? ==> FieldOn(pCurr.value, ba))
    && (gPrev == [] || GradsOn(gPrev, ba, dim))
    && (gCurr == [] || GradsOn(gCurr, ba, dim))
  }

  /**
    `s` resized to `n` entries as a standard vector is: the first entries kept,
    new entries zero.
  */
  function Resized(s: seq<real>, n: nat): (r: seq<real>)
    ensures |r| == n
    ensures forall i :: 0 <= i < n && i < |s| ==> r[i] == s[i]
    ensures forall i :: |s| <= i < n ==> r[i] == 0.0
  {
    if n <= |s| then s[..n] else s + Constant(n - |s|, 0.0)
  }

  /** Resizing twice to the same size is resizing once. */
  lemma ResizedIdempotent(s: seq<real>, n: nat)
    ensures Resized(Resized(s, n), n) == Resized(s, n)
  {
  }

  /**
    The smallest distance from the centre to the high side of the domain over
    the first `d` directions.
  */
  function MinOffset(probHi: seq<real>, center: seq<real>, d: nat): (r: real)
    requires 1 <= d <= |probHi| && d <= |center|
    ensures forall k :: 0 <= k < d ==> r <= probHi[k] - center[k]
    ensures exists k :: 0 <= k < d && r == probHi[k] - center[k]
  {
    if d == 1 then probHi[0] - center[0]
    else
      var rest := MinOffset(probHi, center, d - 1);
      var here := probHi[d - 1] - center[d - 1];
      if here < rest then here else rest
  }

  /** Interpolation weight of `time` between the two stored times. */
  function Alpha(time: real, tOld: real, tNew: real): (alpha: real)
    requires tOld != tNew
    ensures tOld + alpha * (tNew - tOld) == time
  {
    (time - tOld) / (tNew - tOld)
  }

  /** The blend is the previous instance at `tOld` and the current one at `tNew`. */
  lemma BlendAtStoredTimes(prev: seq<real>, curr: seq<real>, tOld: real, tNew: real)
    requires |prev| == |curr| && tOld != tNew
    ensures Lerp(prev, curr, Alpha(tOld, tOld, tNew)) == prev
    ensures Lerp(prev, curr, Alpha(tNew, tOld, tNew)) == curr
  {
    assert Alpha(tOld, tOld, tNew) == 0.0;
    UnitWeight(Alpha(tNew, tOld, tNew), tOld, tNew);
    LerpEndpoints(prev, curr);
  }

  lemma UnitWeight(a: real, tOld: real, tNew: real)
    requires tOld != tNew && tOld + a * (tNew - tOld) == tNew
    ensures a == 1.0
  {
    var d := tNew - tOld;
    assert a * d == d;
    calc {
      a;
    ==
      (a * d) / d;
    ==
      d / d;
    ==
      1.0;
    }
  }

  /**
    The coarse data at an intermediate time, cell by cell: the previous
    instance scaled by `1 - alpha`, plus the current instance scaled by `alpha`.
  */
  method BlendCells(prev: seq<real>, curr: seq<real>, alpha: real) returns (r: seq<real>)
    requires |prev| == |curr|
    ensures r == Lerp(prev, curr, alpha)
  {
    r := [];
    for i := 0 to |prev|
      invariant |r| == i
      invariant forall j :: 0 <= j < i ==> r[j] == Lerp(prev, curr, alpha)[j]
    {
      var scaledPrev := (1.0 - alpha) * prev[i];
      r := r + [alpha * curr[i] + scaledPrev];
    }
  }

  /**
    Picks the density instance of every level `0 .. level` for
    `make_radial_gravity`; `None` when some level's stored times do not
    bracket `time` (the run aborts).
  */
  method DensitySlots(level: nat, time: real, tOld: seq<real>, tNew: seq<real>)
    returns (slots: Option<seq<DensitySlot>>)
    requires level < |tOld| && level < |tNew|
    ensures slots.None? <==> exists lev :: 0 <= lev <= level && SelectDensitySlot(time, tOld[lev], tNew[lev]).None?
    ensures slots.Some? ==>
      |slots.value| == level + 1
      && forall lev :: 0 <= lev <= level ==> SelectDensitySlot(time, tOld[lev], tNew[lev]) == Some(slots.value[lev])
  {
    var chosen: seq<DensitySlot> := [];
    var lev := 0;
    while lev <= level
      invariant 0 <= lev <= level + 1 && |chosen| == lev
      invariant forall k :: 0 <= k < lev ==> SelectDensitySlot(time, tOld[k], tNew[k]) == Some(chosen[k])
    {
      var slot := SelectDensitySlot(time, tOld[lev], tNew[lev]);
      if slot.None? {
        return None;
      }
      chosen := chosen + [slot.value];
      lev := lev + 1;
    }
    slots := Some(chosen);
  }

  /**
    Sums the binned mass and the binned volume of levels `0 .. level` onto
    `level`'s bins and divides mass by volume wherever the volume is positive.
  */
  method RadialDensityProfile(level: nat, refRatio: seq<Ratio>, binnedMass: seq<seq<real>>,
                              binnedVol: seq<seq<real>>) returns (den: seq<real>)
    requires level <= |refRatio| && |binnedMass| == level + 1 && |binnedVol| == level + 1
    requires |binnedVol[level]| == |binnedMass[level]|
    requires CoarseProfilesCover(binnedMass, refRatio, level)
    requires CoarseProfilesCover(binnedVol, refRatio, level)
    ensures DensityOf(den, Combined(binnedMass, refRatio, level, 0), Combined(binnedVol, refRatio, level, 0))
  {
    var massSummed := SumOverLevels(binnedMass, refRatio, level);
    var volSummed := SumOverLevels(binnedVol, refRatio, level);
    den := RadialDensity(massSummed, volSummed);
  }

  /** A level just installed for the Poisson solver is consistent with its grids. */
  lemma FreshLevelOk(ba: BoxArray, dim: nat)
    requires AllHaveDim(ba, dim)
    ensures Shaped(ba)
    ensures LevelSlotsOk(ba, dim, Some(Filled(ba, 0.0)), Some(Filled(ba, 0.0)),
                         UninitialisedGrads(ba, dim), UninitialisedGrads(ba, dim))
  {
  }

  lemma InstallSlotsOk(grids: seq<BoxArray>, dim: nat, pPrev: seq<Option<Field>>, pCurr: seq<Option<Field>>,
                       gPrev: seq<seq<Field>>, gCurr: seq<seq<Field>>, level: nat, ba: BoxArray)
    requires SlotTablesOk(grids, dim, pPrev, pCurr, gPrev, gCurr) && level < |grids| && AllHaveDim(ba, dim)
    ensures Shaped(ba)
    ensures SlotTablesOk(grids[level := ba], dim, pPrev[level := Some(Filled(ba, 0.0))], pCurr[level := Some(Filled(ba, 0.0))],
                         gPrev[level := UninitialisedGrads(ba, dim)], gCurr[level := UninitialisedGrads(ba, dim)])
  {
    FreshLevelOk(ba, dim);
    SlotTablesUpdate(grids, dim, pPrev, pCurr, gPrev, gCurr, level, ba, Some(Filled(ba, 0.0)), Some(Filled(ba, 0.0)),
                     UninitialisedGrads(ba, dim), UninitialisedGrads(ba, dim));
  }

  lemma InstallRegistersOk(regs: seq<Option<FluxReg>>, grids: seq<BoxArray>, level: nat, ba: BoxArray, crseRatio: Ratio)
    requires RegistersOk(regs, grids) && level < |grids|
    ensures RegistersOk(if level > 0 then regs[level := Some(FluxReg(ba, crseRatio, level))] else regs, grids[level := ba])
  {
    if level > 0 {
      RegistersUpdate(regs, grids, level, ba, FluxReg(ba, crseRatio, level));
    } else {
      RegistersRegrid(regs, grids, level, ba);
    }
  }

  /** A level after a swap of its time instances is consistent with its grids. */
  lemma SwappedLevelOk(ba: BoxArray, dim: nat, pPrev: Option<Field>, pCurr: Option<Field>,
                       gPrev: seq<Field>, gCurr: seq<Field>)
    requires LevelSlotsOk(ba, dim, pPrev, pCurr, gPrev, gCurr)
    ensures Shaped(ba)
    ensures LevelSlotsOk(ba, dim, pCurr, Some(Filled(ba, Sentinel)), gCurr, FilledGrads(ba, dim, Sentinel))
  {
  }

  /**
    The gradient slots after a swap: the current fields become the previous
    ones, and fresh fields filled with the sentinel become the current ones,
    direction by direction.
  */
  method SwapGrads(currGrads: seq<Field>, ba: BoxArray, dim: nat) returns (movedPrev: seq<Field>, freshCurr: seq<Field>)
    requires AllHaveDim(ba, dim) && |currGrads| == dim
    ensures movedPrev == currGrads
    ensures freshCurr == FilledGrads(ba, dim, Sentinel)
  {
    movedPrev := [];
    freshCurr := [];
    for n := 0 to dim
      invariant |movedPrev| == n && |freshCurr| == n
      invariant movedPrev == currGrads[..n]
      invariant forall k :: 0 <= k < n ==> freshCurr[k] == FilledGrads(ba, dim, Sentinel)[k]
    {
      movedPrev := movedPrev + [currGrads[n]];
      FaceLayoutShaped(ba, dim, n);
      freshCurr := freshCurr + [Filled(FaceLayout(ba, n), Sentinel)];
    }
    assert movedPrev == currGrads;
  }

  /** Blends the gradient fields of two time instances, direction by direction. */
  method BlendGrads(prevGrads: seq<Field>, currGrads: seq<Field>, alpha: real) returns (blended: seq<seq<real>>)
    requires |prevGrads| == |currGrads|
    requires forall n :: 0 <= n < |prevGrads| ==>
      prevGrads[n].Values? && currGrads[n].Values? && |prevGrads[n].vals| == |currGrads[n].vals|
    ensures |blended| == |prevGrads|
    ensures forall n :: 0 <= n < |prevGrads| ==> blended[n] == Lerp(prevGrads[n].vals, currGrads[n].vals, alpha)
  {
    blended := [];
    for n := 0 to |prevGrads|
      invariant |blended| == n
      invariant forall k :: 0 <= k < n ==> blended[k] == Lerp(prevGrads[k].vals, currGrads[k].vals, alpha)
    {
      var b := BlendCells(prevGrads[n].vals, currGrads[n].vals, alpha);
      blended := blended + [b];
    }
  }

  /** Every level's potential and gradient slots agree with that level's grids. */
  predicate SlotTablesOk(grids: seq<BoxArray>, dim: nat, pPrev: seq<Option<Field>>, pCurr: seq<Option<Field>>,
                         gPrev: seq<seq<Field>>, gCurr: seq<seq<Field>>)
  {
    && |pPrev| == |grids| && |pCurr| == |grids| && |gPrev| == |grids| && |gCurr| == |grids|
    && forall l :: 0 <= l < |grids| ==> LevelSlotsOk(grids[l], dim, pPrev[l], pCurr[l], gPrev[l], gCurr[l])
  }

  lemma SlotTablesUpdate(grids: seq<BoxArray>, dim: nat, pPrev: seq<Option<Field>>, pCurr: seq<Option<Field>>,
                         gPrev: seq<seq<Field>>, gCurr: seq<seq<Field>>, level: nat, ba: BoxArray,
                         a: Option<Field>, b: Option<Field>, c: seq<Field>, d: seq<Field>)
    requires SlotTablesOk(grids, dim, pPrev, pCurr, gPrev, gCurr) && level < |grids|
    requires LevelSlotsOk(ba, dim, a, b, c, d)
    ensures SlotTablesOk(grids[level := ba], dim, pPrev[level := a], pCurr[level := b],
                         gPrev[level := c], gCurr[level := d])
  {
  }

  /** New grids on a level whose slots are all unallocated keep the tables consistent. */
  lemma SlotTablesRegrid(grids: seq<BoxArray>, dim: nat, pPrev: seq<Option<Field>>, pCurr: seq<Option<Field>>,
                         gPrev: seq<seq<Field>>, gCurr: seq<seq<Field>>, level: nat, ba: BoxArray)
    requires SlotTablesOk(grids, dim, pPrev, pCurr, gPrev, gCurr) && level < |grids| && AllHaveDim(ba, dim)
    requires pPrev[level].None? && pCurr[level].None? && gPrev[level] == [] && gCurr[level] == []
    ensures SlotTablesOk(grids[level := ba], dim, pPrev, pCurr, gPrev, gCurr)
  {
    SlotTablesUpdate(grids, dim, pPrev, pCurr, gPrev, gCurr, level, ba, None, None, [], []);
    assert pPrev[level := None] == pPrev && pCurr[level := None] == pCurr;
    assert gPrev[level := []] == gPrev && gCurr[level := []] == gCurr;
  }

  /** Flux registers exist only above level 0, each on its own level's grids. */
  predicate RegistersOk(regs: seq<Option<FluxReg>>, grids: seq<BoxArray>)
  {
    |regs| == |grids|
    && forall l :: 0 <= l < |regs| && regs[l].Some? ==>
         l > 0 && regs[l].value.layout == grids[l] && regs[l].value.level == l
  }

  lemma RegistersUpdate(regs: seq<Option<FluxReg>>, grids: seq<BoxArray>, level: nat, ba: BoxArray, r: FluxReg)
    requires RegistersOk(regs, grids) && 0 < level < |grids| && r.layout == ba && r.level == level
    ensures RegistersOk(regs[level := Some(r)], grids[level := ba])
  {
  }

  lemma RegistersRegrid(regs: seq<Option<FluxReg>>, grids: seq<BoxArray>, level: nat, ba: BoxArray)
    requires RegistersOk(regs, grids) && level < |grids| && regs[level].None?
    ensures RegistersOk(regs, grids[level := ba])
  {
  }

  /** The four radial profiles of each level have one common length. */
  predicate RadialTablesOk(gOld: seq<seq<real>>, gNew: seq<seq<real>>, mass: seq<seq<real>>, vol: seq<seq<real>>)
  {
    && |gNew| == |gOld| && |mass| == |gOld| && |vol| == |gOld|
    && forall l :: 0 <= l < |gOld| ==> |gNew[l]| == |gOld[l]| && |mass[l]| == |gOld[l]| && |vol[l]| == |gOld[l]|
  }

  lemma RadialTablesResize(gOld: seq<seq<real>>, gNew: seq<seq<real>>, mass: seq<seq<real>>, vol: seq<seq<real>>,
                           level: nat, n: nat)
    requires RadialTablesOk(gOld, gNew, mass, vol) && level < |gOld|
    ensures RadialTablesOk(gOld[level := Resized(gOld[level], n)], gNew[level := Resized(gNew[level], n)],
                           mass[level := Resized(mass[level], n)], vol[level := Resized(vol[level], n)])
  {
  }

  lemma RadialTablesStore(gOld: seq<seq<real>>, gNew: seq<seq<real>>, mass: seq<seq<real>>, vol: seq<seq<real>>,
                          newMass: seq<seq<real>>, newVol: seq<seq<real>>)
    requires RadialTablesOk(gOld, gNew, mass, vol) && |newMass| == |newVol| <= |gOld|
    requires forall l :: 0 <= l < |newMass| ==> |newMass[l]| == |mass[l]| && |newVol[l]| == |vol[l]|
    ensures RadialTablesOk(gOld, gNew, newMass + mass[|newMass|..], newVol + vol[|newVol|..])
  {
  }

  /** No potential slot and no flux register is allocated. */
  predicate NoPoissonSlots(pPrev: seq<Option<Field>>, pCurr: seq<Option<Field>>,
                           gPrev: seq<seq<Field>>, gCurr: seq<seq<Field>>, regs: seq<Option<FluxReg>>)
  {
    && (forall l :: 0 <= l < |pPrev| ==> pPrev[l].None?)
    && (forall l :: 0 <= l < |pCurr| ==> pCurr[l].None?)
    && (forall l :: 0 <= l < |gPrev| ==> gPrev[l] == [])
    && (forall l :: 0 <= l < |gCurr| ==> gCurr[l] == [])
    && (forall l :: 0 <= l < |regs| ==> regs[l].None?)
  }

  class Gravity {
    const gravityType: GravityType
    const dim: nat
    const allPeriodic: bool
    const drdxfac: int
    const mlTol: real
    const slTol: real
    const deltaTol: real

    var grids: seq<BoxArray>
    var levelSolverResnorm: seq<real>
    var phiPrev: seq<Option<Field>>
    var phiCurr: seq<Option<Field>>
    var gradPhiPrev: seq<seq<Field>>
    var gradPhiCurr: seq<seq<Field>>
    var phiFluxReg: seq<Option<FluxReg>>
    var radialGravOld: seq<seq<real>>
    var radialGravNew: seq<seq<real>>
    var radialMass: seq<seq<real>>
    var radialVol: seq<seq<real>>
    var numptsAtLevel: int
    var maxRadiusAllInDomain: real
    var finestLevelAllocated: int
    var massOffset: real

    /** The monopole and prescribed solvers keep radial profiles. */
    predicate RadialSized()
    {
      (gravityType == MonopoleGrav || gravityType == PrescribedGrav) && dim > 1 && !allPeriodic
    }

    ghost predicate Valid()
      reads this
    {
      && 1 <= dim <= 3
      && |grids| == MaxLev && |levelSolverResnorm| == MaxLev && |radialGravOld| == MaxLev
      && -1 <= finestLevelAllocated < MaxLev
      && SlotTablesOk(grids, dim, phiPrev, phiCurr, gradPhiPrev, gradPhiCurr)
      && RegistersOk(phiFluxReg, grids)
      && RadialTablesOk(radialGravOld, radialGravNew, radialMass, radialVol)
      && (gravityType != PoissonGrav ==> NoPoissonSlots(phiPrev, phiCurr, gradPhiPrev, gradPhiCurr, phiFluxReg))
    }

    /** Level `level` has its potential and gradient slots allocated. */
    ghost predicate Installed(level: nat)
      requires Valid() && level < MaxLev
      reads this
    {
      phiCurr[level].Some? && gradPhiCurr[level] != []
    }

    /**
      A fresh module: the parameters are read first, then nothing is installed
      and no level is allocated. A parameter table that `ReadParams` rejects
      aborts the run before any state exists, so no object is built from it.
    */
    constructor (p: ParamTable, coord: Coord, dim: nat, allPeriodic: bool)
      requires 1 <= dim <= 3
      requires ReadParams(p, coord, dim).Success?
      ensures Valid()
      ensures var config := ReadParams(p, coord, dim).value;
              && gravityType == config.gravityType && drdxfac == config.drdxfac
              && mlTol == config.mlTol && slTol == config.slTol && deltaTol == config.deltaTol
      ensures Admissible(gravityType, p.constGrav.Some?, coord, dim)
      ensures this.dim == dim && this.allPeriodic == allPeriodic
      ensures finestLevelAllocated == -1
      ensures massOffset == 0.0 && maxRadiusAllInDomain == 0.0 && numptsAtLevel == 0
      ensures levelSolverResnorm == seq(MaxLev, _ => 0.0)
      ensures forall l :: 0 <= l < MaxLev ==>
        grids[l] == [] && phiPrev[l].None? && phiCurr[l].None? && phiFluxReg[l].None?
        && gradPhiPrev[l] == [] && gradPhiCurr[l] == []
        && radialGravOld[l] == [] && radialGravNew[l] == [] && radialMass[l] == [] && radialVol[l] == []
    {
      var config := ReadParams(p, coord, dim).value;
      ReadParamsAccepts(p, coord, dim);
      gravityType := config.gravityType;
      this.dim := dim;
      this.allPeriodic := allPeriodic;
      drdxfac := config.drdxfac;
      mlTol := config.mlTol;
      slTol := config.slTol;
      deltaTol := config.deltaTol;
      grids := seq(MaxLev, _ => []);
      levelSolverResnorm := seq(MaxLev, _ => 0.0);
      phiPrev := seq(MaxLev, _ => None);
      phiCurr := seq(MaxLev, _ => None);
      gradPhiPrev := seq(MaxLev, _ => []);
      gradPhiCurr := seq(MaxLev, _ => []);
      phiFluxReg := seq(MaxLev, _ => None);
      radialGravOld := seq(MaxLev, _ => []);
      radialGravNew := seq(MaxLev, _ => []);
      radialMass := seq(MaxLev, _ => []);
      radialVol := seq(MaxLev, _ => []);
      numptsAtLevel := 0;
      maxRadiusAllInDomain := 0.0;
      finestLevelAllocated := -1;
      massOffset := 0.0;
    }

    /** Records the number of radial points per level used to size the profiles. */
    method SetNumptsInGravity(numpts: int)
      requires Valid()
      modifies this
      ensures Valid()
      ensures numptsAtLevel == numpts
      ensures grids == old(grids) && phiPrev == old(phiPrev) && phiCurr == old(phiCurr)
      ensures gradPhiPrev == old(gradPhiPrev) && gradPhiCurr == old(gradPhiCurr)
      ensures phiFluxReg == old(phiFluxReg) && radialMass == old(radialMass) && radialVol == old(radialVol)
      ensures radialGravOld == old(radialGravOld) && radialGravNew == old(radialGravNew)
      ensures levelSolverResnorm == old(levelSolverResnorm) && massOffset == old(massOffset)
      ensures maxRadiusAllInDomain == old(maxRadiusAllInDomain)
      ensures finestLevelAllocated == old(finestLevelAllocated)
    {
      numptsAtLevel := numpts;
    }

    /**
      Installs level `level` on grids `ba`.  The Poisson solver gets both
      potential instances set to zero, freshly allocated gradient fields and,
      above level 0, a flux register to the coarser level; the monopole and
      prescribed solvers (in more than one dimension and a domain that is not
      all-periodic) get their four radial profiles resized to
      `drdxfac * numptsAtLevel` bins.  On level 0 in more than one dimension
      the largest radius fully inside the domain is recomputed.
    */
    method InstallLevel(level: nat, ba: BoxArray, crseRatio: Ratio, center: seq<real>, probHi: seq<real>)
      requires Valid() && level < MaxLev && AllHaveDim(ba, dim)
      requires |center| == dim && |probHi| == dim
      requires RadialSized() ==> drdxfac * numptsAtLevel >= 0
      modifies this
      ensures Valid()
      ensures grids == old(grids)[level := ba]
      ensures levelSolverResnorm == old(levelSolverResnorm)[level := 0.0]
      ensures numptsAtLevel == old(numptsAtLevel) && massOffset == old(massOffset)
      ensures gravityType == PoissonGrav ==>
        && phiPrev == old(phiPrev)[level := Some(Filled(ba, 0.0))]
        && phiCurr == old(phiCurr)[level := Some(Filled(ba, 0.0))]
        && gradPhiPrev == old(gradPhiPrev)[level := UninitialisedGrads(ba, dim)]
        && gradPhiCurr == old(gradPhiCurr)[level := UninitialisedGrads(ba, dim)]
        && phiFluxReg == (if level > 0 then old(phiFluxReg)[level := Some(FluxReg(ba, crseRatio, level))]
                          else old(phiFluxReg))
      ensures gravityType != PoissonGrav ==>
        phiPrev == old(phiPrev) && phiCurr == old(phiCurr) && phiFluxReg == old(phiFluxReg)
        && gradPhiPrev == old(gradPhiPrev) && gradPhiCurr == old(gradPhiCurr)
      ensures RadialSized() ==>
        var n1d := drdxfac * numptsAtLevel;
        && radialGravOld == old(radialGravOld)[level := Resized(old(radialGravOld[level]), n1d)]
        && radialGravNew == old(radialGravNew)[level := Resized(old(radialGravNew[level]), n1d)]
        && radialMass == old(radialMass)[level := Resized(old(radialMass[level]), n1d)]
        && radialVol == old(radialVol)[level := Resized(old(radialVol[level]), n1d)]
      ensures !RadialSized() ==>
        radialGravOld == old(radialGravOld) && radialGravNew == old(radialGravNew)
        && radialMass == old(radialMass) && radialVol == old(radialVol)
      ensures maxRadiusAllInDomain ==
        if level == 0 && dim > 1 then MinOffset(probHi, center, dim) else old(maxRadiusAllInDomain)
      ensures finestLevelAllocated == level
    {
      if gravityType == PoissonGrav {
        InstallPoissonLevel(level, ba, crseRatio);
      } else {
        InstallRadialLevel(level, ba);
      }
      if level == 0 && dim > 1 {
        maxRadiusAllInDomain := MinOffset(probHi, center, dim);
      }
      finestLevelAllocated := level;
    }

    /** The grids and Poisson slots of `InstallLevel`. */
    method InstallPoissonLevel(level: nat, ba: BoxArray, crseRatio: Ratio)
      requires Valid() && level < MaxLev && AllHaveDim(ba, dim) && gravityType == PoissonGrav
      modifies this
      ensures Valid()
      ensures grids == old(grids)[level := ba]
      ensures levelSolverResnorm == old(levelSolverResnorm)[level := 0.0]
      ensures phiPrev == old(phiPrev)[level := Some(Filled(ba, 0.0))]
      ensures phiCurr == old(phiCurr)[level := Some(Filled(ba, 0.0))]
      ensures gradPhiPrev == old(gradPhiPrev)[level := UninitialisedGrads(ba, dim)]
      ensures gradPhiCurr == old(gradPhiCurr)[level := UninitialisedGrads(ba, dim)]
      ensures phiFluxReg == (if level > 0 then old(phiFluxReg)[level := Some(FluxReg(ba, crseRatio, level))]
                             else old(phiFluxReg))
      ensures radialGravOld == old(radialGravOld) && radialGravNew == old(radialGravNew)
      ensures radialMass == old(radialMass) && radialVol == old(radialVol)
      ensures numptsAtLevel == old(numptsAtLevel) && massOffset == old(massOffset)
      ensures maxRadiusAllInDomain == old(maxRadiusAllInDomain)
      ensures finestLevelAllocated == old(finestLevelAllocated)
    {
      InstallSlotsOk(grids, dim, phiPrev, phiCurr, gradPhiPrev, gradPhiCurr, level, ba);
      InstallRegistersOk(phiFluxReg, grids, level, ba, crseRatio);
      SetPotentialSlots(level, ba);
      if level > 0 {
        phiFluxReg := phiFluxReg[level := Some(FluxReg(ba, crseRatio, level))];
      }
      grids := grids[level := ba];
      levelSolverResnorm := levelSolverResnorm[level := 0.0];
    }

    /** Both potential instances set to zero and fresh gradient fields, on level `level`. */
    method SetPotentialSlots(level: nat, ba: BoxArray)
      requires |phiPrev| == |phiCurr| == |gradPhiPrev| == |gradPhiCurr| == MaxLev && level < MaxLev
      requires Shaped(ba) && AllHaveDim(ba, dim)
      modifies this
      ensures phiPrev == old(phiPrev)[level := Some(Filled(ba, 0.0))]
      ensures phiCurr == old(phiCurr)[level := Some(Filled(ba, 0.0))]
      ensures gradPhiPrev == old(gradPhiPrev)[level := UninitialisedGrads(ba, dim)]
      ensures gradPhiCurr == old(gradPhiCurr)[level := UninitialisedGrads(ba, dim)]
      ensures grids == old(grids) && levelSolverResnorm == old(levelSolverResnorm) && phiFluxReg == old(phiFluxReg)
      ensures radialGravOld == old(radialGravOld) && radialGravNew == old(radialGravNew)
      ensures radialMass == old(radialMass) && radialVol == old(radialVol)
      ensures numptsAtLevel == old(numptsAtLevel) && massOffset == old(massOffset)
      ensures maxRadiusAllInDomain == old(maxRadiusAllInDomain)
      ensures finestLevelAllocated == old(finestLevelAllocated)
    {
      phiPrev := phiPrev[level := Some(Filled(ba, 0.0))];
      phiCurr := phiCurr[level := Some(Filled(ba, 0.0))];
      gradPhiPrev := gradPhiPrev[level := UninitialisedGrads(ba, dim)];
      gradPhiCurr := gradPhiCurr[level := UninitialisedGrads(ba, dim)];
    }

    /** The grids and radial profile sizing of `InstallLevel` for the other solvers. */
    method InstallRadialLevel(level: nat, ba: BoxArray)
      requires Valid() && level < MaxLev && AllHaveDim(ba, dim) && gravityType != PoissonGrav
      requires RadialSized() ==> drdxfac * numptsAtLevel >= 0
      modifies this
      ensures Valid()
      ensures grids == old(grids)[level := ba]
      ensures levelSolverResnorm == old(levelSolverResnorm)[level := 0.0]
      ensures numptsAtLevel == old(numptsAtLevel) && massOffset == old(massOffset)
      ensures phiPrev == old(phiPrev) && phiCurr == old(phiCurr) && phiFluxReg == old(phiFluxReg)
      ensures gradPhiPrev == old(gradPhiPrev) && gradPhiCurr == old(gradPhiCurr)
      ensures RadialSized() ==>
        var n1d := drdxfac * numptsAtLevel;
        && radialGravOld == old(radialGravOld)[level := Resized(old(radialGravOld[level]), n1d)]
        && radialGravNew == old(radialGravNew)[level := Resized(old(radialGravNew[level]), n1d)]
        && radialMass == old(radialMass)[level := Resized(old(radialMass[level]), n1d)]
        && radialVol == old(radialVol)[level := Resized(old(radialVol[level]), n1d)]
      ensures !RadialSized() ==>
        radialGravOld == old(radialGravOld) && radialGravNew == old(radialGravNew)
        && radialMass == old(radialMass) && radialVol == old(radialVol)
      ensures maxRadiusAllInDomain == old(maxRadiusAllInDomain)
      ensures finestLevelAllocated == old(finestLevelAllocated)
    {
      SlotTablesRegrid(grids, dim, phiPrev, phiCurr, gradPhiPrev, gradPhiCurr, level, ba);
      RegistersRegrid(phiFluxReg, grids, level, ba);
      grids := grids[level := ba];
      levelSolverResnorm := levelSolverResnorm[level := 0.0];
      if RadialSized() {
        var n1d := drdxfac * numptsAtLevel;
        RadialTablesResize(radialGravOld, radialGravNew, radialMass, radialVol, level, n1d);
        radialGravOld := radialGravOld[level := Resized(radialGravOld[level], n1d)];
        radialGravNew := radialGravNew[level := Resized(radialGravNew[level], n1d)];
        radialMass := radialMass[level := Resized(radialMass[level], n1d)];
        radialVol := radialVol[level := Resized(radialVol[level], n1d)];
      }
    }

    /**
      Moves the current instance of level `level` into the previous slot and
      refills the current slot with the sentinel 1e50, for the potential and
      for each direction of its gradient.  Only the Poisson solver keeps time
      instances; for the other solvers nothing changes.
    */
    method SwapTimeLevels(level: nat)
      requires Valid() && level < MaxLev
      requires gravityType == PoissonGrav ==> Installed(level)
      modifies this
      ensures Valid()
      ensures gravityType == PoissonGrav ==>
        && phiPrev == old(phiPrev)[level := old(phiCurr[level])]
        && phiCurr == old(phiCurr)[level := Some(Filled(grids[level], Sentinel))]
        && gradPhiPrev == old(gradPhiPrev)[level := old(gradPhiCurr[level])]
        && gradPhiCurr == old(gradPhiCurr)[level := FilledGrads(grids[level], dim, Sentinel)]
      ensures gravityType != PoissonGrav ==>
        phiPrev == old(phiPrev) && phiCurr == old(phiCurr)
        && gradPhiPrev == old(gradPhiPrev) && gradPhiCurr == old(gradPhiCurr)
      ensures grids == old(grids) && phiFluxReg == old(phiFluxReg)
      ensures radialGravOld == old(radialGravOld) && radialGravNew == old(radialGravNew)
      ensures radialMass == old(radialMass) && radialVol == old(radialVol)
      ensures levelSolverResnorm == old(levelSolverResnorm) && massOffset == old(massOffset)
      ensures maxRadiusAllInDomain == old(maxRadiusAllInDomain) && numptsAtLevel == old(numptsAtLevel)
      ensures finestLevelAllocated == old(finestLevelAllocated)
    {
      if gravityType == PoissonGrav {
        var ba := grids[level];
        assert LevelSlotsOk(ba, dim, phiPrev[level], phiCurr[level], gradPhiPrev[level], gradPhiCurr[level]);
        SwappedLevelOk(ba, dim, phiPrev[level], phiCurr[level], gradPhiPrev[level], gradPhiCurr[level]);
        SlotTablesUpdate(grids, dim, phiPrev, phiCurr, gradPhiPrev, gradPhiCurr, level, ba,
                         phiCurr[level], Some(Filled(ba, Sentinel)), gradPhiCurr[level], FilledGrads(ba, dim, Sentinel));
        assert grids[level := ba] == grids;
        var movedPrev, freshCurr := SwapGrads(gradPhiCurr[level], ba, dim);
        phiPrev := phiPrev[level := phiCurr[level]];
        phiCurr := phiCurr[level := Some(Filled(ba, Sentinel))];
        gradPhiPrev := gradPhiPrev[level := movedPrev];
        gradPhiCurr := gradPhiCurr[level := freshCurr];
      }
    }

    /**
      The potential of the coarser level `level - 1` at `time`, blended from
      its two stored instances.
    */
    method GetCrsePhi(level: nat, time: real, tOld: real, tNew: real) returns (phiCrse: seq<real>)
      requires Valid() && 0 < level < MaxLev && tOld != tNew
      requires phiPrev[level - 1].Some? && phiPrev[level - 1].value.Values?
      requires phiCurr[level - 1].Some? && phiCurr[level - 1].value.Values?
      ensures |phiCrse| == CellCount(grids[level - 1])
      ensures phiCrse == Lerp(phiPrev[level - 1].value.vals, phiCurr[level - 1].value.vals, Alpha(time, tOld, tNew))
    {
      assert LevelSlotsOk(grids[level - 1], dim, phiPrev[level - 1], phiCurr[level - 1],
                          gradPhiPrev[level - 1], gradPhiCurr[level - 1]);
      var alpha := (time - tOld) / (tNew - tOld);
      phiCrse := BlendCells(phiPrev[level - 1].value.vals, phiCurr[level - 1].value.vals, alpha);
    }

    /**
      The face-centred gradient of the coarser level `level - 1` at `time`,
      blended direction by direction from its two stored instances.
    */
    method GetCrseGradPhi(level: nat, time: real, tOld: real, tNew: real) returns (gradCrse: seq<seq<real>>)
      requires Valid() && 0 < level < MaxLev && tOld != tNew
      requires gradPhiPrev[level - 1] != [] && gradPhiCurr[level - 1] != []
      requires forall g :: g in gradPhiPrev[level - 1] ==> g.Values?
      requires forall g :: g in gradPhiCurr[level - 1] ==> g.Values?
      ensures |gradCrse| == dim
      ensures forall n :: 0 <= n < dim ==>
        |gradCrse[n]| == CellCount(FaceLayout(grids[level - 1], n))
        && gradCrse[n] == Lerp(gradPhiPrev[level - 1][n].vals, gradPhiCurr[level - 1][n].vals, Alpha(time, tOld, tNew))
    {
      var ba := grids[level - 1];
      assert LevelSlotsOk(ba, dim, phiPrev[level - 1], phiCurr[level - 1],
                          gradPhiPrev[level - 1], gradPhiCurr[level - 1]);
      var alpha := (time - tOld) / (tNew - tOld);
      gradCrse := BlendGrads(gradPhiPrev[level - 1], gradPhiCurr[level - 1], alpha);
    }

    /**
      Recomputes the mean density of an all-periodic domain from the mass of
      each level `0 .. finestLevel` and reports whether it drifted from the
      value remembered from the previous call.
    */
    method SetMassOffset(levelMass: seq<real>, probSize: real, finestLevel: nat) returns (warn: bool)
      requires Valid() && probSize > 0.0 && |levelMass| == finestLevel + 1
      modifies this
      ensures Valid()
      ensures massOffset == SolvePolicy.MassOffset(levelMass, probSize, allPeriodic)
      ensures warn == SolvePolicy.MassDriftWarning(old(massOffset), massOffset, finestLevel)
      ensures grids == old(grids) && phiPrev == old(phiPrev) && phiCurr == old(phiCurr)
      ensures gradPhiPrev == old(gradPhiPrev) && gradPhiCurr == old(gradPhiCurr)
      ensures phiFluxReg == old(phiFluxReg) && radialMass == old(radialMass) && radialVol == old(radialVol)
      ensures radialGravOld == old(radialGravOld) && radialGravNew == old(radialGravNew)
      ensures levelSolverResnorm == old(levelSolverResnorm) && numptsAtLevel == old(numptsAtLevel)
      ensures maxRadiusAllInDomain == old(maxRadiusAllInDomain)
      ensures finestLevelAllocated == old(finestLevelAllocated)
    {
      var oldOffset := if finestLevel > 0 then massOffset else 0.0;
      massOffset := 0.0;
      if allPeriodic {
        var total := SolvePolicy.SumCells(levelMass);
        massOffset := total / probSize;
      }
      var diff := Abs(massOffset - oldOffset);
      var eps := 0.0000000001 * Abs(oldOffset);
      warn := diff > eps && oldOffset > 0.0;
    }

    /**
      The combination step of `make_radial_gravity` for `level`: stores each
      level's binned mass and volume (as computed for the chosen density
      instance), sums both onto `level`'s bins with the compounding ratio, and
      returns the radial density.
    */
    method CombineRadialProfiles(level: nat, refRatio: seq<Ratio>, binnedMass: seq<seq<real>>,
                                 binnedVol: seq<seq<real>>) returns (den: seq<real>)
      requires Valid() && level < MaxLev && level <= |refRatio|
      requires |binnedMass| == level + 1 && |binnedVol| == level + 1
      requires forall lev :: 0 <= lev <= level ==>
        |binnedMass[lev]| == |radialMass[lev]| && |binnedVol[lev]| == |radialVol[lev]|
      requires CoarseProfilesCover(binnedMass, refRatio, level)
      requires CoarseProfilesCover(binnedVol, refRatio, level)
      modifies this
      ensures Valid()
      ensures radialMass == binnedMass + old(radialMass)[level + 1..]
      ensures radialVol == binnedVol + old(radialVol)[level + 1..]
      ensures DensityOf(den, Combined(binnedMass, refRatio, level, 0), Combined(binnedVol, refRatio, level, 0))
      ensures grids == old(grids) && phiPrev == old(phiPrev) && phiCurr == old(phiCurr)
      ensures gradPhiPrev == old(gradPhiPrev) && gradPhiCurr == old(gradPhiCurr)
      ensures phiFluxReg == old(phiFluxReg)
      ensures radialGravOld == old(radialGravOld) && radialGravNew == old(radialGravNew)
      ensures levelSolverResnorm == old(levelSolverResnorm) && massOffset == old(massOffset)
      ensures maxRadiusAllInDomain == old(maxRadiusAllInDomain) && numptsAtLevel == old(numptsAtLevel)
      ensures finestLevelAllocated == old(finestLevelAllocated)
    {
      assert |binnedVol[level]| == |binnedMass[level]|;
      den := RadialDensityProfile(level, refRatio, binnedMass, binnedVol);
      RadialTablesStore(radialGravOld, radialGravNew, radialMass, radialVol, binnedMass, binnedVol);
      radialMass := binnedMass + radialMass[level + 1..];
      radialVol := binnedVol + radialVol[level + 1..];
    }
  }
}
