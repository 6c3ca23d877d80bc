/**
  Run-time configuration of the gravity module (`Gravity::read_params`):
  the gravity type, the combinations of type, dimension and coordinate system
  that abort the run, and the default solver tolerances.
*/
module GravityParams {
  import opened Wrappers

  /** The four gravity types the module knows. */
  datatype GravityType = ConstantGrav | PoissonGrav | MonopoleGrav | PrescribedGrav

  /** The coordinate system of the geometry (Cartesian, RZ or spherical). */
  datatype Coord = Cartesian | RZ | Spherical

  /**
    The `gravity.*` entries of the parameter store: `None` when the key is
    absent.
  */
  datatype ParamTable = ParamTable(
    gravityType: Option<string>,
    constGrav: Option<real>,
    drdxfac: Option<int>,
    verbose: Option<int>,
    noSync: Option<int>,
    noComposite: Option<int>,
    maxMultipoleOrder: Option<int>,
    directSumBcs: Option<int>,
    mlTol: Option<real>,
    slTol: Option<real>,
    deltaTol: Option<real>)

  /** The validated configuration, fixed for the rest of the run. */
  datatype Config = Config(
    gravityType: GravityType,
    constGrav: real,
    drdxfac: int,
    verbose: int,
    noSync: int,
    noComposite: int,
    lnum: int,
    directSumBcs: int,
    mlTol: real,
    slTol: real,
    deltaTol: real)

  /** Why the configuration aborts the run. */
  datatype ParamError =
    | MissingGravityType         // `get` of gravity_type on an absent key
    | UnknownGravityType         // not one of the four names
    | ConstantGravNonCartesian   // ConstantGrav in spherical coordinates
    | MissingConstGrav           // `get` of const_grav on an absent key
    | PoissonGrav1D              // PoissonGrav in one dimension
    | MonopoleNotSpherical1D     // MonopoleGrav in 1-D outside spherical coordinates
    | ConstantGravSpherical1D    // ConstantGrav in 1-D spherical coordinates
    | MonopoleCartesian2D        // MonopoleGrav in 2-D Cartesian coordinates

  /** The name under which each gravity type is selected. */
  function TypeName(t: GravityType): string
  {
    match t
    case ConstantGrav => "ConstantGrav"
    case PoissonGrav => "PoissonGrav"
    case MonopoleGrav => "MonopoleGrav"
    case PrescribedGrav => "PrescribedGrav"
  }

  /** The gravity type selected by an exact string comparison. */
  function ParseGravityType(name: string): (r: Option<GravityType>)
    ensures r.Some? <==> name in {"ConstantGrav", "PoissonGrav", "MonopoleGrav", "PrescribedGrav"}
    ensures r.Some? ==> TypeName(r.value) == name
  {
    if name == "ConstantGrav" then Some(ConstantGrav)
    else if name == "PoissonGrav" then Some(PoissonGrav)
    else if name == "MonopoleGrav" then Some(MonopoleGrav)
    else if name == "PrescribedGrav" then Some(PrescribedGrav)
    else None
  }

  lemma ParseTypeName(t: GravityType)
    ensures ParseGravityType(TypeName(t)) == Some(t)
  {
  }

  /** The default of all three solver tolerances before any user override. */
  function DefaultTol(coord: Coord): real
  {
    if coord == Cartesian then 0.00000000001 else 0.0000000001
  }

  function IntOr(o: Option<int>, default: int): int
  {
    if o.Some? then o.value else default
  }

  function RealOr(o: Option<real>, default: real): real
  {
    if o.Some? then o.value else default
  }

  /**
    The checks of `read_params`, in the source's order.  `dim` is the compiled
    number of spatial dimensions.
  */
  function ReadParams(p: ParamTable, coord: Coord, dim: nat): (r: Result<Config, ParamError>)
    requires 1 <= dim <= 3
    ensures r.Success? ==> p.gravityType.Some? && ParseGravityType(p.gravityType.value) == Some(r.value.gravityType)
    ensures r.Success? ==>
              && r.value.mlTol == RealOr(p.mlTol, DefaultTol(coord))
              && r.value.slTol == RealOr(p.slTol, DefaultTol(coord))
              && r.value.deltaTol == RealOr(p.deltaTol, DefaultTol(coord))
    ensures r.Success? ==>
              && r.value.drdxfac == IntOr(p.drdxfac, 1)
              && r.value.verbose == IntOr(p.verbose, 0)
              && r.value.noSync == IntOr(p.noSync, 0)
              && r.value.noComposite == IntOr(p.noComposite, 0)
              && r.value.lnum == IntOr(p.maxMultipoleOrder, 0)
              && r.value.directSumBcs == IntOr(p.directSumBcs, 0)
    ensures r.Success? && r.value.gravityType == ConstantGrav ==>
              p.constGrav.Some? && r.value.constGrav == p.constGrav.value
    ensures r.Success? && r.value.gravityType != ConstantGrav ==> r.value.constGrav == 0.0
  {
    if p.gravityType.None? then Failure(MissingGravityType)
    else
      var parsed := ParseGravityType(p.gravityType.value);
      if parsed.None? then Failure(UnknownGravityType)
      else
        var t := parsed.value;
        if t == ConstantGrav && coord == Spherical then Failure(ConstantGravNonCartesian)
        else if t == ConstantGrav && p.constGrav.None? then Failure(MissingConstGrav)
        else if dim == 1 && t == PoissonGrav then Failure(PoissonGrav1D)
        else if dim == 1 && t == MonopoleGrav && coord != Spherical then Failure(MonopoleNotSpherical1D)
        else if dim == 1 && t == ConstantGrav && coord == Spherical then Failure(ConstantGravSpherical1D)
        else if dim == 2 && t == MonopoleGrav && coord == Cartesian then Failure(MonopoleCartesian2D)
        else
          var tol := DefaultTol(coord);
          Success(Config(
            t,
            if t == ConstantGrav then p.constGrav.value else 0.0,
            IntOr(p.drdxfac, 1),
            IntOr(p.verbose, 0),
            IntOr(p.noSync, 0),
            IntOr(p.noComposite, 0),
            IntOr(p.maxMultipoleOrder, 0),
            IntOr(p.directSumBcs, 0),
            RealOr(p.mlTol, tol),
            RealOr(p.slTol, tol),
            RealOr(p.deltaTol, tol)))
  }

  /**
    The combinations that `read_params` accepts, stated independently of the
    order of its checks.
  */
  predicate Admissible(t: GravityType, hasConstGrav: bool, coord: Coord, dim: nat)
  {
    && (t == ConstantGrav ==> coord != Spherical && hasConstGrav)
    && (dim == 1 ==> t != PoissonGrav && (t == MonopoleGrav ==> coord == Spherical))
    && (dim == 2 ==> !(t == MonopoleGrav && coord == Cartesian))
  }

  /** The configuration is accepted exactly for a known, admissible gravity type. */
  lemma ReadParamsAccepts(p: ParamTable, coord: Coord, dim: nat)
    requires 1 <= dim <= 3
    ensures ReadParams(p, coord, dim).Success? <==>
              p.gravityType.Some?
              && ParseGravityType(p.gravityType.value).Some?
              && Admissible(ParseGravityType(p.gravityType.value).value, p.constGrav.Some?, coord, dim)
  {
  }

  /** A name other than the four known ones aborts with the unknown-type error. */
  lemma UnknownTypeAborts(p: ParamTable, coord: Coord, dim: nat)
    requires 1 <= dim <= 3
    requires p.gravityType.Some?
    requires p.gravityType.value !in {"ConstantGrav", "PoissonGrav", "MonopoleGrav", "PrescribedGrav"}
    ensures ReadParams(p, coord, dim) == Failure(UnknownGravityType)
  {
  }

  /**
    Without user overrides the three tolerances are 1e-11 in Cartesian
    geometry and 1e-10 otherwise.
  */
  lemma DefaultTolerances(p: ParamTable, coord: Coord, dim: nat)
    requires 1 <= dim <= 3
    requires p.mlTol.None? && p.slTol.None? && p.deltaTol.None?
    requires ReadParams(p, coord, dim).Success?
    ensures var c := ReadParams(p, coord, dim).value;
            c.mlTol == c.slTol == c.deltaTol
            && (coord == Cartesian ==> c.slTol == 0.00000000001)
            && (coord != Cartesian ==> c.slTol == 0.0000000001)
  {
  }

  /**
    The one-dimensional abort for constant gravity in spherical coordinates
    can never be reached: the earlier non-Cartesian check fires first.
  */
  lemma ConstantSpherical1DUnreachable(p: ParamTable, coord: Coord, dim: nat)
    requires 1 <= dim <= 3
    ensures ReadParams(p, coord, dim) != Failure(ConstantGravSpherical1D)
  {
  }
}
