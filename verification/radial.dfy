/**
  The level-combination logic of `Gravity::make_radial_gravity`: which time
  instance of the density each level contributes, how the radial bins of the
  coarser levels are spread onto the finest level's bins, and the radial
  density as summed mass over summed volume.
*/
module RadialProfile {
  import opened Wrappers
  import opened RealSeqs

  /** A refinement ratio (x-component), at least 1. */
  type Ratio = r: int | r >= 1 witness 1

  /** Which density a level contributes at the requested time. */
  datatype DensitySlot = OldState | NewState | Blended(alpha: real)

  /** Half-width of the windows around the two stored times. */
  function TimeEps(tOld: real, tNew: real): real
  {
    (tNew - tOld) * 0.000001
  }

  /**
    Picks the density time instance: the old state within eps of `tOld`, else
    the new state within eps of `tNew`, else a blend at weight
    `(time - tOld) / (tNew - tOld)` strictly between the two times, else
    `None` (the run aborts).
  */
  function SelectDensitySlot(time: real, tOld: real, tNew: real): (r: Option<DensitySlot>)
    ensures r == Some(OldState) <==> Abs(time - tOld) < TimeEps(tOld, tNew)
    ensures r == Some(NewState) <==>
              !(Abs(time - tOld) < TimeEps(tOld, tNew)) && Abs(time - tNew) < TimeEps(tOld, tNew)
    ensures r.Some? && r.value.Blended? ==>
              tOld < time < tNew && 0.0 < r.value.alpha < 1.0
              && time == tOld + r.value.alpha * (tNew - tOld)
  {
    var eps := TimeEps(tOld, tNew);
    if Abs(time - tOld) < eps then Some(OldState)
    else if Abs(time - tNew) < eps then Some(NewState)
    else if time > tOld && time < tNew then
      FractionInUnit(time - tOld, tNew - tOld);
      Some(Blended((time - tOld) / (tNew - tOld)))
    else None
  }

  lemma FractionInUnit(a: real, b: real)
    requires 0.0 < a < b
    ensures 0.0 < a / b < 1.0
  {
    calc {
      a / b;
    <  b / b;
    == 1.0;
    }
  }

  /**
    The selection aborts exactly when the stored times are not increasing or
    the requested time lies eps or more outside the interval between them.
  */
  lemma SelectionAbortsIffOutside(time: real, tOld: real, tNew: real)
    ensures SelectDensitySlot(time, tOld, tNew).None? <==>
              tNew <= tOld
              || time <= tOld - TimeEps(tOld, tNew)
              || time >= tNew + TimeEps(tOld, tNew)
  {
  }

  /**
    The density a level contributes for the chosen slot (before binning): the
    old copy, the new copy, or the old copy scaled by 1 - alpha plus the new
    copy scaled by alpha.
  */
  function SlotDensity(rhoOld: seq<real>, rhoNew: seq<real>, slot: DensitySlot): (r: seq<real>)
    requires |rhoOld| == |rhoNew|
    ensures |r| == |rhoOld|
    ensures slot.OldState? ==> r == rhoOld
    ensures slot.NewState? ==> r == rhoNew
    ensures slot.Blended? ==>
              forall i :: 0 <= i < |r| ==> r[i] == (1.0 - slot.alpha) * rhoOld[i] + slot.alpha * rhoNew[i]
  {
    match slot
    case OldState => rhoOld
    case NewState => rhoNew
    case Blended(alpha) => Lerp(rhoOld, rhoNew, alpha)
  }

  /**
    Whatever instance the selection picks, each cell of the density a level
    contributes lies between its old and its new value.
  */
  lemma SelectedDensityBetween(time: real, tOld: real, tNew: real, rhoOld: seq<real>, rhoNew: seq<real>, i: nat)
    requires |rhoOld| == |rhoNew| && i < |rhoOld|
    requires SelectDensitySlot(time, tOld, tNew).Some?
    ensures var d := SlotDensity(rhoOld, rhoNew, SelectDensitySlot(time, tOld, tNew).value)[i];
            && (rhoOld[i] <= rhoNew[i] ==> rhoOld[i] <= d <= rhoNew[i])
            && (rhoNew[i] <= rhoOld[i] ==> rhoNew[i] <= d <= rhoOld[i])
  {
    var slot := SelectDensitySlot(time, tOld, tNew).value;
    if slot.Blended? {
      BlendBetween(rhoOld, rhoNew, slot.alpha, i);
    }
  }

  /**
    Product of the refinement ratios between coarse level `lev` and `level`:
    one cell of `lev` spans this many cells of `level` in x.
  */
  function CumRatio(refRatio: seq<Ratio>, lev: nat, level: nat): (r: Ratio)
    requires lev <= level <= |refRatio|
    decreases level - lev
  {
    if lev == level then 1 else refRatio[lev] * CumRatio(refRatio, lev + 1, level)
  }

  /** Going one level coarser multiplies the cumulative ratio by that level's ratio. */
  lemma CumRatioStep(refRatio: seq<Ratio>, lev: nat, level: nat)
    requires lev < level <= |refRatio|
    ensures CumRatio(refRatio, lev, level) == CumRatio(refRatio, lev + 1, level) * refRatio[lev]
  {
  }

  /**
    What a coarse profile adds to the fine bins: its first `m` bins, each
    split into `ratio` equal parts.
  */
  function SpreadBins(coarse: seq<real>, ratio: Ratio, m: nat): (r: seq<real>)
    requires m <= |coarse|
    ensures |r| == ratio * m
  {
    if m == 0 then [] else SpreadBins(coarse, ratio, m - 1) + Constant(ratio, coarse[m - 1] / (ratio as real))
  }

  /** `acc` with `add` added to its first `|add|` entries. */
  function AddPrefix(acc: seq<real>, add: seq<real>): (r: seq<real>)
    requires |add| <= |acc|
    ensures |r| == |acc|
  {
    seq(|acc|, j requires 0 <= j < |acc| => if j < |add| then acc[j] + add[j] else acc[j])
  }

  lemma BlockFits(len: nat, ratio: Ratio)
    ensures ratio * (len / ratio) <= len
  {
  }

  /**
    The fine profile `acc` after the coarse profile has been spread onto it:
    the first `|acc| / ratio` coarse bins each add a `1/ratio` share to
    `ratio` consecutive fine bins.
  */
  function Spread(acc: seq<real>, coarse: seq<real>, ratio: Ratio): (r: seq<real>)
    requires |acc| / ratio <= |coarse|
    ensures |r| == |acc|
  {
    BlockFits(|acc|, ratio);
    AddPrefix(acc, SpreadBins(coarse, ratio, |acc| / ratio))
  }

  lemma {:induction false} SpreadBinsAt(coarse: seq<real>, ratio: Ratio, m: nat, i: nat, n: nat)
    requires m <= |coarse| && i < m && n < ratio
    ensures ratio * i + n < ratio * m
    ensures SpreadBins(coarse, ratio, m)[ratio * i + n] == coarse[i] / (ratio as real)
  {
    var prefix := SpreadBins(coarse, ratio, m - 1);
    assert SpreadBins(coarse, ratio, m) == prefix + Constant(ratio, coarse[m - 1] / (ratio as real));
    if i < m - 1 {
      SpreadBinsAt(coarse, ratio, m - 1, i, n);
    } else {
      assert ratio * i == |prefix|;
    }
  }

  /**
    Each coarse bin `i < |acc| / ratio` adds `coarse[i] / ratio` to each fine
    bin `ratio*i .. ratio*i + ratio - 1`; the fine bins past the last whole
    block keep their value.
  */
  lemma SpreadAt(acc: seq<real>, coarse: seq<real>, ratio: Ratio, j: nat)
    requires |acc| / ratio <= |coarse| && j < |acc|
    ensures j < ratio * (|acc| / ratio) ==>
              Spread(acc, coarse, ratio)[j] == acc[j] + coarse[j / ratio] / (ratio as real)
    ensures j >= ratio * (|acc| / ratio) ==> Spread(acc, coarse, ratio)[j] == acc[j]
  {
    if j < ratio * (|acc| / ratio) {
      var i, n := j / ratio, j % ratio;
      assert j == ratio * i + n;
      DivBelow(j, ratio, |acc| / ratio);
      SpreadBinsAt(coarse, ratio, |acc| / ratio, i, n);
    }
  }

  lemma DivBelow(j: nat, ratio: Ratio, m: nat)
    requires j < ratio * m
    ensures j / ratio < m
  {
  }

  lemma SplitEvenly(x: real, ratio: Ratio)
    ensures (ratio as real) * (x / (ratio as real)) == x
  {
  }

  /** The `ratio` equal shares of a coarse bin add back up to the bin. */
  lemma SharesSumToBin(x: real, ratio: Ratio)
    ensures Sum(Constant(ratio, x / (ratio as real))) == x
  {
    SumConstant(ratio, x / (ratio as real));
    SplitEvenly(x, ratio);
  }

  lemma {:induction false} SumSpreadBins(coarse: seq<real>, ratio: Ratio, m: nat)
    requires m <= |coarse|
    ensures Sum(SpreadBins(coarse, ratio, m)) == Sum(coarse[..m])
  {
    if m > 0 {
      var prefix := SpreadBins(coarse, ratio, m - 1);
      var block := Constant(ratio, coarse[m - 1] / (ratio as real));
      SumConcat(prefix, block);
      SharesSumToBin(coarse[m - 1], ratio);
      SumSpreadBins(coarse, ratio, m - 1);
      assert coarse[..m][..m - 1] == coarse[..m - 1];
    }
  }

  lemma {:induction false} SumAddPrefix(acc: seq<real>, add: seq<real>)
    requires |add| <= |acc|
    ensures Sum(AddPrefix(acc, add)) == Sum(acc) + Sum(add)
    decreases |acc|
  {
    if |acc| > 0 {
      var last := |acc| - 1;
      var r := AddPrefix(acc, add);
      if |add| == |acc| {
        assert r[..last] == AddPrefix(acc[..last], add[..last]);
        SumAddPrefix(acc[..last], add[..last]);
      } else {
        assert r[..last] == AddPrefix(acc[..last], add);
        SumAddPrefix(acc[..last], add);
      }
    }
  }

  /**
    Spreading moves exactly the mass of the first `m = |acc| / ratio` coarse
    bins onto the fine bins.
  */
  lemma SpreadTotal(acc: seq<real>, coarse: seq<real>, ratio: Ratio, m: nat)
    requires m == |acc| / ratio && m <= |coarse|
    ensures Sum(Spread(acc, coarse, ratio)) == Sum(acc) + Sum(coarse[..m])
  {
    BlockFits(|acc|, ratio);
    var bins := SpreadBins(coarse, ratio, m);
    assert Spread(acc, coarse, ratio) == AddPrefix(acc, bins);
    SumAddPrefix(acc, bins);
    SumSpreadBins(coarse, ratio, m);
  }

  /**
    Every coarse level below `level` has enough bins for the part of it that
    is spread onto `level`'s bins.
  */
  predicate CoarseProfilesCover(profiles: seq<seq<real>>, refRatio: seq<Ratio>, level: nat)
    requires level < |profiles| && level <= |refRatio|
  {
    forall k :: 0 <= k < level ==> |profiles[level]| / CumRatio(refRatio, k, level) <= |profiles[k]|
  }

  /**
    `level`'s profile after the coarser levels `level-1` down to `lev` have
    been spread onto it, in that order.
  */
  function Combined(profiles: seq<seq<real>>, refRatio: seq<Ratio>, level: nat, lev: nat): (r: seq<real>)
    requires level < |profiles| && lev <= level <= |refRatio|
    requires CoarseProfilesCover(profiles, refRatio, level)
    ensures |r| == |profiles[level]|
    decreases level - lev
  {
    if lev == level then profiles[level]
    else Spread(Combined(profiles, refRatio, level, lev + 1), profiles[lev], CumRatio(refRatio, lev, level))
  }

  /** Total of the coarse bins of levels `lev .. level-1` that land on `level`'s bins. */
  function CoarseMass(profiles: seq<seq<real>>, refRatio: seq<Ratio>, level: nat, lev: nat): real
    requires level < |profiles| && lev <= level <= |refRatio|
    requires CoarseProfilesCover(profiles, refRatio, level)
    decreases level - lev
  {
    if lev == level then 0.0
    else Sum(profiles[lev][..|profiles[level]| / CumRatio(refRatio, lev, level)])
         + CoarseMass(profiles, refRatio, level, lev + 1)
  }

  /**
    The combined profile holds this level's mass plus, from each coarser
    level, exactly the sum of its first `n1d / ratio` bins.
  */
  lemma {:induction false} CombinedTotal(profiles: seq<seq<real>>, refRatio: seq<Ratio>, level: nat, lev: nat)
    requires level < |profiles| && lev <= level <= |refRatio|
    requires CoarseProfilesCover(profiles, refRatio, level)
    ensures Sum(Combined(profiles, refRatio, level, lev)) ==
              Sum(profiles[level]) + CoarseMass(profiles, refRatio, level, lev)
    decreases level - lev
  {
    if lev < level {
      CombinedTotal(profiles, refRatio, level, lev + 1);
      var acc := Combined(profiles, refRatio, level, lev + 1);
      var ratio := CumRatio(refRatio, lev, level);
      SpreadTotal(acc, profiles[lev], ratio, |acc| / ratio);
    }
  }

  /**
    Sums the radial profiles of levels `0 .. level` onto `level`'s bins, as is
    done for the mass and again for the volume: start from the level's own
    bins, then walk down the coarser levels with a ratio that compounds level
    by level and add each coarse bin's `1/ratio` share to `ratio` fine bins.
  */
  method SumOverLevels(profiles: seq<seq<real>>, refRatio: seq<Ratio>, level: nat) returns (summed: seq<real>)
    requires level < |profiles| && level <= |refRatio|
    requires CoarseProfilesCover(profiles, refRatio, level)
    ensures summed == Combined(profiles, refRatio, level, 0)
  {
    var a := CopyBins(profiles[level]);
    SpreadCoarserLevels(a, profiles, refRatio, level);
    summed := a[..];
  }

  /** A fresh array holding `level`'s own bins (the contribution of this level). */
  method CopyBins(src: seq<real>) returns (a: array<real>)
    ensures fresh(a) && a[..] == src
  {
    a := new real[|src|];
    for i := 0 to |src|
      invariant a[..i] == src[..i]
    {
      a[i] := src[i];
    }
    assert a[..] == src[..|src|];
  }

  /**
    The walk from `level - 1` down to level 0, compounding the ratio and
    spreading each coarser profile onto `a`.
  */
  method SpreadCoarserLevels(a: array<real>, profiles: seq<seq<real>>, refRatio: seq<Ratio>, level: nat)
    requires level < |profiles| && level <= |refRatio|
    requires CoarseProfilesCover(profiles, refRatio, level)
    requires a[..] == profiles[level]
    modifies a
    ensures a[..] == Combined(profiles, refRatio, level, 0)
  {
    if level > 0 {
      var ratio: Ratio := refRatio[level - 1];
      var lev: int := level - 1;
      while lev >= 0
        invariant -1 <= lev < level
        invariant a[..] == Combined(profiles, refRatio, level, lev + 1)
        invariant lev >= 0 ==> ratio == CumRatio(refRatio, if lev == level - 1 then lev else lev + 1, level)
        decreases lev + 1
      {
        ratio := CompoundRatio(ratio, refRatio, lev, level);
        SpreadLevel(a, profiles, refRatio, level, lev, ratio);
        lev := lev - 1;
      }
    }
  }

  /**
    The ratio used for coarse level `lev`: the ratio of the level just above
    it, multiplied by `lev`'s own ratio except on the first coarser level.
  */
  method CompoundRatio(ratio: Ratio, refRatio: seq<Ratio>, lev: nat, level: nat) returns (r: Ratio)
    requires lev < level <= |refRatio|
    requires ratio == CumRatio(refRatio, if lev == level - 1 then lev else lev + 1, level)
    ensures r == CumRatio(refRatio, lev, level)
  {
    r := ratio;
    if lev < level - 1 {
      CumRatioStep(refRatio, lev, level);
      r := ratio * refRatio[lev];
    }
  }

  /** Spreads coarse level `lev` onto `a`, which holds the levels above it combined. */
  method SpreadLevel(a: array<real>, profiles: seq<seq<real>>, refRatio: seq<Ratio>, level: nat, lev: nat, ratio: Ratio)
    requires level < |profiles| && lev < level <= |refRatio|
    requires CoarseProfilesCover(profiles, refRatio, level)
    requires ratio == CumRatio(refRatio, lev, level)
    requires a[..] == Combined(profiles, refRatio, level, lev + 1)
    modifies a
    ensures a[..] == Combined(profiles, refRatio, level, lev)
  {
    assert a.Length / ratio <= |profiles[lev]|;
    SpreadOnto(a, profiles[lev], ratio);
  }

  /**
    One coarse level's step of `SumOverLevels`: for every whole block `i`
    of `ratio` fine bins, add `coarse[i] / ratio` to each bin of the block.
  */
  method SpreadOnto(a: array<real>, coarse: seq<real>, ratio: Ratio)
    requires a.Length / ratio <= |coarse|
    modifies a
    ensures a[..] == Spread(old(a[..]), coarse, ratio)
  {
    ghost var before := a[..];
    var m := a.Length / ratio;
    ghost var bins := SpreadBins(coarse, ratio, m);
    BlockFits(a.Length, ratio);
    var i, base := 0, 0;
    while i < m
      invariant 0 <= i <= m
      invariant base == ratio * i
      invariant forall j :: 0 <= j < base ==> a[j] == before[j] + bins[j]
      invariant forall j :: base <= j < a.Length ==> a[j] == before[j]
    {
      SpreadBlock(a, coarse, ratio, m, i, base, before, bins);
      i, base := i + 1, base + ratio;
    }
    AddPrefixFromParts(a[..], before, bins);
  }

  method SpreadBlock(a: array<real>, coarse: seq<real>, ratio: Ratio, m: nat, i: nat, base: nat,
                     ghost before: seq<real>, ghost bins: seq<real>)
    requires m <= |coarse| && i < m && base == ratio * i && ratio * m <= a.Length == |before|
    requires bins == SpreadBins(coarse, ratio, m)
    requires forall j :: 0 <= j < base ==> a[j] == before[j] + bins[j]
    requires forall j :: base <= j < a.Length ==> a[j] == before[j]
    modifies a
    ensures forall j :: 0 <= j < base + ratio ==> a[j] == before[j] + bins[j]
    ensures forall j :: base + ratio <= j < a.Length ==> a[j] == before[j]
  {
    var share := coarse[i] / (ratio as real);
    BlockInside(ratio, i, m);
    var n := 0;
    while n < ratio
      invariant 0 <= n <= ratio
      invariant forall j :: 0 <= j < base + n ==> a[j] == before[j] + bins[j]
      invariant forall j :: base + n <= j < a.Length ==> a[j] == before[j]
    {
      SpreadBinsAt(coarse, ratio, m, i, n);
      assert bins[base + n] == share;
      a[base + n] := a[base + n] + share;
      n := n + 1;
    }
  }

  /** Block `i` of `ratio` fine bins ends within the first `m` blocks. */
  lemma BlockInside(ratio: Ratio, i: nat, m: nat)
    requires i < m
    ensures ratio * i + ratio <= ratio * m
  {
    assert ratio * i + ratio == ratio * (i + 1);
  }

  lemma AddPrefixFromParts(r: seq<real>, acc: seq<real>, add: seq<real>)
    requires |add| <= |acc| == |r|
    requires forall j :: 0 <= j < |add| ==> r[j] == acc[j] + add[j]
    requires forall j :: |add| <= j < |acc| ==> r[j] == acc[j]
    ensures r == AddPrefix(acc, add)
  {
  }

  /**
    `den` is the bin-wise density: mass over volume where the volume is
    positive, the mass unchanged elsewhere.
  */
  predicate DensityOf(den: seq<real>, mass: seq<real>, vol: seq<real>)
  {
    |den| == |mass| == |vol| && forall i :: 0 <= i < |mass| ==> BinDensity(den[i], mass[i], vol[i])
  }

  /** One bin: `d` times the volume is the mass when the volume is positive, `d` is the mass otherwise. */
  predicate BinDensity(d: real, mass: real, vol: real)
  {
    (vol > 0.0 ==> d * vol == mass) && (vol <= 0.0 ==> d == mass)
  }

  /**
    The radial density: summed mass over summed volume in bins with positive
    volume, the summed mass unchanged elsewhere.
  */
  method RadialDensity(mass: seq<real>, vol: seq<real>) returns (den: seq<real>)
    requires |mass| == |vol|
    ensures DensityOf(den, mass, vol)
  {
    var d := new real[|mass|];
    for i := 0 to |mass|
      invariant forall j :: 0 <= j < i ==> BinDensity(d[j], mass[j], vol[j])
    {
      var x := mass[i];
      if vol[i] > 0.0 {
        x := x / vol[i];
      }
      assert BinDensity(x, mass[i], vol[i]);
      d[i] := x;
    }
    den := d[..];
  }
}
