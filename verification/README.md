# Gravity bookkeeping of Castro, in Dafny

This project models the bookkeeping and decision logic of Castro's gravity
module (`Source/Gravity.cpp`). The numerical work is done by the multigrid
solver and the Fortran kernels. What the model keeps is the logic around
those calls:

- **Configuration.** `read_params` validates the gravity type and aborts on
  some combinations of type, dimension and coordinate system. It also picks
  the default solver tolerances.
- **Boundary codes.** `make_mg_bc` maps each domain face to a multigrid
  boundary code.
- **Boundary-touch check.** Before a single-level solve on a refined level,
  `solve_for_phi` checks that the level's grids stay off the domain boundary.
- **Per-level state.** The `Gravity` object keeps a previous and a current
  potential and gradient on each level, the flux registers, and the radial
  profiles of the monopole solver. `install_level`, `swapTimeLevels` and
  `set_numpts_in_gravity` update this state.
- **Time interpolation.** `GetCrsePhi` and `GetCrseGradPhi` blend the two
  stored time instances.
- **Radial profiles.** `make_radial_gravity` picks a density time instance
  for each level. It spreads the radial bins of the coarser levels onto the
  finest level's bins, then divides mass by volume.
- **Small policies:**
  - the absolute tolerance of the correction solve;
  - the zero-mean adjustments of `gravity_sync`;
  - the flux-register operations of `add_to_fluxes`;
  - the recomputation and drift warning of `set_mass_offset`.

Modules:

| file | module | contents |
|---|---|---|
| `wrappers.dfy` | `Wrappers` | `Option`, `Result` |
| `real_seqs.dfy` | `RealSeqs` | sums, shifts and the linear blend of sequences of exact reals |
| `boxes.dfy` | `Boxes` | integer boxes, box arrays, cell counts, face (nodal) layouts |
| `params.dfy` | `GravityParams` | `read_params` |
| `boundary.dfy` | `Boundary` | `make_mg_bc` and the refined-grid touch check |
| `radial.dfy` | `RadialProfile` | time-slot selection, bin spreading and density of `make_radial_gravity` |
| `policies.dfy` | `SolvePolicy` | `abs_tol`, the `gravity_sync` mean removal, `add_to_fluxes`, the mass offset |
| `levels.dfy` | `GravityLevels` | `class Gravity` and its per-level tables |

Modelling choices:

- A MultiFab is a `Field`. `Uninitialised(layout)` is a MultiFab that was
  allocated but never set. `Values(layout, vals)` holds one value per valid
  cell, in box order.
- The per-level arrays of `MAX_LEV = 15` entries are `seq` fields of the
  class. The methods reassign them.
- A missing parameter read with `get` is an error value. An entry read with
  `query` is an optional override.
- Kernel outputs are parameters of the methods that consume them: the binned
  radial mass and volume, the per-level mass sums, and the residual norms.
- Reals are exact.
- In the source, the gravity type, the tolerances, `drdxfac`, `mass_offset`,
  `max_radius_all_in_domain` and the `radial_*` tables are static members
  shared by every `Gravity` object. The model makes them fields of one object.
  Its constructor reads the gravity type, `drdxfac` and the three tolerances
  from the configuration `ReadParams` produces. It starts the other fields at
  their initial values. The static initial tolerances of 1e100 (lines 33-35)
  are overwritten by `read_params` before any use, so the model does not keep
  them. Castro creates a single `Gravity` object, so the two readings agree.

## Model

| member | source | states |
|---|---|---|
| GravityParams.ParseGravityType | Source/Gravity.cpp:95-102 | A type is selected exactly when the name is one of ConstantGrav, PoissonGrav, MonopoleGrav, PrescribedGrav. The selected type's name is the given string. |
| GravityParams.ParseTypeName | Source/Gravity.cpp:95-102 | Each of the four type names is accepted and yields its own type. |
| GravityParams.ReadParams | Source/Gravity.cpp:85-171 | On success, the gravity type came from a present, known name. Each of the three tolerances is the user's value if given, and the geometry's default otherwise. `drdxfac` defaults to 1. `v`, `no_sync`, `no_composite`, `max_multipole_order` and `direct_sum_bcs` default to 0. Under ConstantGrav, `const_grav` is present and taken as given; under the other types it stays 0. |
| GravityParams.ReadParamsAccepts | Source/Gravity.cpp:93-130 | The configuration is accepted if and only if all of these hold: the type name is present and known; ConstantGrav runs in non-spherical coordinates and has const_grav; a 1-D run uses neither PoissonGrav nor non-spherical MonopoleGrav; a 2-D run does not use MonopoleGrav in Cartesian coordinates. |
| GravityParams.UnknownTypeAborts | Source/Gravity.cpp:95-102 | Any name other than the four aborts with the unknown-type error. |
| GravityParams.DefaultTolerances | Source/Gravity.cpp:146-158 | Without overrides, ml_tol, sl_tol and delta_tol are equal. They are 1e-11 in Cartesian geometry and 1e-10 otherwise. |
| GravityParams.ConstantSpherical1DUnreachable | Source/Gravity.cpp:104-123 | The 1-D abort for ConstantGrav in spherical coordinates is never the outcome: the earlier non-Cartesian check fires first. |
| Boundary.MakeMgBc | Source/Gravity.cpp:2619-2651 | The array is filled if and only if every non-periodic face is Symmetry or Outflow. Periodic directions get 0 on both faces. A Symmetry face gets Neumann and an Outflow face Dirichlet. In spherical or RZ geometry, entry 0 is Neumann. |
| Boundary.ShrinkDomain | Source/Gravity.cpp:449-459 | The loop over directions yields the domain with every lo and hi face pulled in by one cell, except in periodic directions and on Symmetry faces. |
| Boundary.GridsTouchBoundary | Source/Gravity.cpp:447-463 | The error fires exactly when three things hold: level > 0, the domain is not periodic in every direction, and some grid box is not inside the shrunk domain. |
| Boundary.TouchCheckFailsIffOnShrunkFace | Source/Gravity.cpp:447-463 | For grids inside the domain, the check fails if and only if three things hold: the level is refined, the domain is not all-periodic, and some box lies on a face that is neither periodic nor Symmetry (that face is the one pulled in by one cell). |
| RealSeqs.ShiftByMeanSumsToZero | Source/Gravity.cpp:767-779 | Lowering every cell by the cell average leaves values that sum to zero. |
| RealSeqs.LerpEndpoints | Source/Gravity.cpp:893-903 | The blend is the previous instance at weight 0 and the current one at weight 1. |
| RealSeqs.BlendBetween | Source/Gravity.cpp:893-903 | For a weight in [0, 1], each blended value lies between the two instances' values. |
| GravityLevels.Alpha | Source/Gravity.cpp:885-887 | The weight alpha places `time` on the line from t_old to t_new: t_old + alpha (t_new - t_old) = time. |
| GravityLevels.BlendAtStoredTimes | Source/Gravity.cpp:885-903 | At time = t_old the coarse data is the previous instance. At time = t_new it is the current instance. |
| GravityLevels.BlendCells | Source/Gravity.cpp:892-903 | The cell loop computes alpha * curr + (1 - alpha) * prev in every cell. |
| GravityLevels.BlendGrads | Source/Gravity.cpp:923-945 | The loop over directions blends every direction's face gradient at the same weight. |
| GravityLevels.SwapGrads | Source/Gravity.cpp:347-354 | The loop over directions moves every current gradient field into the previous slot. It gives every direction a new field filled with 1e50 on that direction's face layout. |
| GravityLevels.Resized | Source/Gravity.cpp:234-237 | Resizing a radial profile to n bins keeps its first entries. Any new entries are zero. |
| GravityLevels.ResizedIdempotent | Source/Gravity.cpp:234-237 | Resizing again to the same size changes nothing. |
| GravityLevels.MinOffset | Source/Gravity.cpp:249-263 | The largest radius fully inside the domain is at most ProbHi - center in every direction, and equal to it in one direction. |
| GravityLevels.FreshLevelOk | Source/Gravity.cpp:201-219 | Zero-filled potentials and freshly allocated face gradients agree with the level's grids. |
| GravityLevels.SwappedLevelOk | Source/Gravity.cpp:338-355 | A level still agrees with its grids after its current instance moves to the previous slot and the sentinel fills the current slot. |
| GravityLevels.DensitySlots | Source/Gravity.cpp:2781-2828 | The result is None if and only if some level 0..level has stored times that do not bracket `time`. Otherwise every level gets the instance that the time-window rule picks. |
| GravityLevels.RadialDensityProfile | Source/Gravity.cpp:2886-2957 | The density is the spread-and-summed mass over the spread-and-summed volume, wherever the volume is positive. |
| GravityLevels.Gravity.constructor | Source/Gravity.cpp:61-80 | Reads the parameters first, so it is defined only for a table that `ReadParams` accepts; any other table aborts. The object's gravity type is admissible for the coordinate system and dimension. Its type, drdxfac and the three tolerances are the ones `ReadParams` returns. Nothing is installed and the finest allocated level is -1. The mass offset, the largest radius inside the domain and every level's residual norm start at 0. Every radial table starts empty. |
| GravityLevels.Gravity.SetNumptsInGravity | Source/Gravity.cpp:174-177 | Records the number of radial points. Nothing else changes. |
| GravityLevels.Gravity.InstallLevel | Source/Gravity.cpp:180-267 | The effect depends on the gravity type. PoissonGrav: both potentials become zero on the new grids and both gradients become fresh face fields; above level 0 the level also gets a flux register to the coarser level. Monopole and prescribed gravity in more than one dimension, when the domain is not all-periodic: the four radial profiles are resized to drdxfac * numpts bins. In every case: level 0 in more than one dimension gets a new largest radius fully inside the domain; the residual norm is reset; the finest allocated level becomes `level`; the object stays consistent. |
| GravityLevels.Gravity.SwapTimeLevels | Source/Gravity.cpp:336-356 | Under PoissonGrav the current potential and gradients become the previous ones, and the current slots are refilled with 1e50. For other types nothing changes. |
| GravityLevels.Gravity.GetCrsePhi | Source/Gravity.cpp:879-909 | The coarse potential is the blend at alpha of the coarser level's two stored instances, one value per cell of that level. |
| GravityLevels.Gravity.GetCrseGradPhi | Source/Gravity.cpp:912-946 | Every direction's coarse gradient is the blend at alpha of the two stored instances, sized to that direction's face layout. |
| GravityLevels.Gravity.SetMassOffset | Source/Gravity.cpp:2653-2695 | The new offset is the total level mass over the domain volume (zero unless all-periodic). The warning is the drift rule applied to the previous offset. |
| GravityLevels.Gravity.CombineRadialProfiles | Source/Gravity.cpp:2830-2957 | Stores each level's binned mass and volume, and returns the density of the combined profiles. |
| RadialProfile.SelectDensitySlot | Source/Gravity.cpp:2783-2828 | The old state is chosen exactly when time is within eps of t_old. The new state is chosen exactly when it is not, but time is within eps of t_new. A blend is used only strictly between the two times, at a weight alpha in (0, 1) with t_old + alpha (t_new - t_old) = time. |
| RadialProfile.SlotDensity | Source/Gravity.cpp:2796-2822 | The old density for the old slot, the new density for the new slot, and (1 - alpha) * old + alpha * new in every cell for a blend. |
| RadialProfile.SelectionAbortsIffOutside | Source/Gravity.cpp:2785-2828 | The run aborts if and only if t_new <= t_old, or time is at least eps outside [t_old, t_new]. |
| RadialProfile.SelectedDensityBetween | Source/Gravity.cpp:2796-2822 | Whichever instance is chosen, each cell's density lies between its old and its new value. |
| RadialProfile.SpreadBinsAt | Source/Gravity.cpp:2902-2907 | Fine bin ratio*i+n receives exactly coarse bin i divided by ratio. |
| RadialProfile.SpreadAt | Source/Gravity.cpp:2902-2907 | A fine bin j gains coarse bin j / ratio divided by ratio when j < ratio * (n1d / ratio). Any later bin is unchanged. |
| RadialProfile.SumSpreadBins | Source/Gravity.cpp:2902-2907 | The spread parts of the first m coarse bins sum to those bins' total. |
| RadialProfile.SpreadTotal | Source/Gravity.cpp:2902-2908 | One coarse level adds exactly the sum of its first n1d / ratio bins to the fine profile. |
| RadialProfile.CombinedTotal | Source/Gravity.cpp:2886-2910 | The combined profile's total is the level's own total plus, from each coarser level, the sum of its first n1d / ratio bins, with ratio compounded level by level. |
| RadialProfile.SumOverLevels | Source/Gravity.cpp:2886-2910 | The loops over coarser levels produce the combined profile. |
| RadialProfile.CompoundRatio | Source/Gravity.cpp:2898-2901 | The ratio used for coarse level lev is the product of the refinement ratios of levels lev .. level-1. |
| RadialProfile.SpreadCoarserLevels | Source/Gravity.cpp:2896-2910 | The walk from level-1 down to 0 leaves the combined profile in the array. |
| RadialProfile.SpreadOnto | Source/Gravity.cpp:2902-2908 | The in-place loops over coarse bins and their ratio parts spread one coarse level onto the array. |
| RadialProfile.RadialDensity | Source/Gravity.cpp:2953-2957 | The density equals mass times 1/volume wherever the volume is positive, and equals the mass unchanged elsewhere. |
| SolvePolicy.MaxResnorm | Source/Gravity.cpp:716-718 | The result is an upper bound of the residual norms of crse_level and of each level strictly between crse_level and fine_level, and it equals one of them. |
| SolvePolicy.CorrectionAbsTol | Source/Gravity.cpp:715-718 | The loop computes that maximum. |
| SolvePolicy.FinestResnormIgnored | Source/Gravity.cpp:717 | The residual norm of fine_level itself never affects abs_tol. |
| SolvePolicy.AdjustSyncRhs | Source/Gravity.cpp:765-779 | If the domain is all-periodic and the grids cover it, every cell is lowered by the cell average and the result sums to zero. Otherwise the RHS is unchanged. |
| SolvePolicy.SumCells | Source/Gravity.cpp:769-770 | The loop accumulates the sum of the cells. |
| SolvePolicy.ZeroCorrectionMean | Source/Gravity.cpp:798-810 | Under the same rule, every level's correction is lowered by the coarse level's average, and the coarse correction then sums to zero. Otherwise nothing changes. |
| SolvePolicy.FluxActions | Source/Gravity.cpp:1700-1735 | With a finer level, every direction gets CrseInit with scale -1 on the next level's register. On the last sub-step of a level above 0, every direction gets FineAdd with scale +1 on the level's own register. Nothing else is issued. |
| SolvePolicy.FineAddsPerCall | Source/Gravity.cpp:1728-1733 | One call issues one FineAdd per direction, each covering every box of the level, when the level is above 0 and it is the last sub-step. Otherwise it issues none. |
| SolvePolicy.FineAddOncePerCoarseStep | Source/Gravity.cpp:1728-1733 | Over sub-steps 1..ncycle of a refined level, exactly one FineAdd per direction (dim in all) is issued, each covering every box of the level. |
| SolvePolicy.NoFineAddBeforeLast | Source/Gravity.cpp:1728-1733 | Before the last sub-step, no fine addition is issued. |
| SolvePolicy.MassOffset | Source/Gravity.cpp:2660-2681 | The offset times the domain volume is the total mass over levels in an all-periodic domain, and zero otherwise. |
| SolvePolicy.MassDriftWarning | Source/Gravity.cpp:2656-2694 | The warning fires exactly when finest_level > 0, the previous offset is positive, and the offset moved by more than 1e-10 of it. |
| SolvePolicy.NoWarningWithoutDrift | Source/Gravity.cpp:2656-2694 | An unchanged offset, or a single-level run, never warns. |

## Left out

- The multigrid solver and every Fortran kernel (`CA_*`, `ca_avgdown_phi`, multipole and direct-sum boundary data, `ca_integrate_grav`, metric weighting) are foreign code whose bodies are not part of this model. Their outputs (binned radial mass and volume, `volWgtSum`, residual norms) enter as parameters.
- Parallel reductions and broadcasts, `FillBoundary`, `FillPeriodicBoundary` and ghost cells: a field holds its valid cells only, and the model is sequential.
- Floating-point rounding: values are exact reals. The division by `t_new - t_old` in `GetCrsePhi`/`GetCrseGradPhi` is required to have a nonzero divisor. The source divides regardless.
- `Ggravity` and the gravitational constant read from the Fortran constants module; the `static done` guard that makes `read_params` run once; verbose printing and timing.
- The `PARTICLES`, `GR_GRAV` and `POINTMASS` branches, and the diagnostic routines.
- In `make_radial_gravity`: the reflux of the new state, the zeroing of coarse cells under finer grids, and the kernel that bins density into radial shells. These decide the binned profiles, which the model takes as given. The slot choice (`DensitySlots`, `SlotDensity`) and the combination (`CombineRadialProfiles`) are modelled separately, because the kernel between them is not part of the model.
- The integration of the radial density into `radial_grav` after line 2957 is not part of this model.
- GravityLevels.Gravity.constructor: the abort on a rejected parameter table (line 77, through `read_params`) is a precondition of the constructor. The rejection itself is modelled as the error value of `ReadParams`.
- The constructor does not call `make_mg_bc`. `Boundary.MakeMgBc` models that routine on its own array of 2 * dim codes.
- In `make_radial_gravity`, refinement ratios are modelled by their x-component only, which is the one the source reads (lines 2898 and 2901).
- A flux register (`FluxReg`) records its grids, its level and a single ratio. The source passes the full `IntVect` coarsening ratio (lines 223-224). The register's data and its per-direction ratio are not modelled.
- A `FluxOp` stands for one direction of `add_to_fluxes`. The source calls `FineAdd` once for each local box of the level and each direction (lines 1729-1732). The model counts operations per direction, not per box.
- The initial value of `numpts_at_level` is declared outside `Gravity.cpp`, which is not part of this model. The constructor starts it at 0.
- GravityLevels.Gravity.InstallLevel: requires `drdxfac * numpts_at_level >= 0` when radial profiles are sized; a negative vector size is undefined in the source.
- Box containment in the touch check is taken box by box. A box array contained in the shrunk domain as a union but not box by box cannot arise there, since the shrunk domain is a single box.
- The `LevelData`, `volume` and `area` handles, `plus_phi_curr`, `plus_grad_phi_curr` and `zeroPhiFluxReg` are not part of this model.
- The level-0 boundary choice of `solve_for_phi` (lines 465-481) and `actual_multilevel_solve` (lines 1095-1110) is not part of this model. That choice is between direct-sum, multipole and `make_radial_phi` boundary values.
- The subtraction of `mass_offset` from the Poisson right-hand side in all-periodic domains is not part of this model. It appears at lines 387-390, 414-417, 1142-1148, 1526-1532, 1595-1600 and 1905-1911. Only the computation of the offset (`SetMassOffset`) is modelled.
- The composite mass-mismatch warning of `actual_multilevel_solve` (1e-10 relative, lines 1116-1140) is not part of this model.
- The dispatch on the gravity type in `get_old_grav_vector` and `get_new_grav_vector` (lines 1365 and 1484) is not part of this model. Neither is the rest of the composite and multilevel solves.
- The `abs_tol` loop of `solve_for_delta_phi` runs over `lev < fine_level`, so the finest level's residual norm is never included. The model keeps the loop as written and proves the consequence (`SolvePolicy.FinestResnormIgnored`) rather than guessing at an intent.
