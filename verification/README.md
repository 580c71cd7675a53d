# AMReX: FAB NaN/Inf scans, refinement-tag configuration, MLMG controls

This project models three pieces of AMReX, the block-structured adaptive
mesh refinement framework whose multi-level multigrid solver (`MLMG`) drives
elliptic solves over a hierarchy of refined grids.

- **FArrayBox scans** (`fab_scan.dfy`, module `FabScan`). An `FArrayBox` holds
  `nComp()` components of real data over a cell-centred box, laid out x-fastest
  as `Array4` does. The class keeps the box, the component count and the data
  buffer. The four `contains_nan` overloads and the four `contains_inf` overloads
  are methods:
  - the flat scan over the first `numPts()*nComp()` entries;
  - the box/component-range scan;
  - the whole-domain scan that reports a cell `where`;
  - the box/component-range scan that reports a cell `where`.

  Floating point is reduced to a classification (`Finite`, `Infinite`, `NaN`).
  The loops are written once, for an arbitrary test `Real -> bool`, and the
  NaN and Inf overloads use them with `IsNaN` and `IsInf`. The scan methods
  have no `modifies` clause, so they provably change neither the data, the box
  nor the component count (the source's `const`).
- **Refinement tagging** (`error_list.dfy`, module `ErrorList`).
  - The `AMRErrorTagInfo` builder is a class; each setter writes one field and
    returns the same object.
  - `AMRErrorTag` and its four constructors copy the info record by value. The
    per-level threshold table `m_value` is specified by the reference function
    `LevelValues`: user values are truncated to `m_max_level` levels, and the
    last value extends upward.
  - `ErrorList` is the append/clear list of error records.
- **MLMG controls** (`mlmg.dfy`, module `MLMG`).
  - The solver's iteration and smoothing controls have their defaults, and
    there is one setter per control plus the getters.
  - Each setter is specified by the pure function `Apply` on the value
    `Controls`.
  - Lemmas over `Replay` (any sequence of setter calls) prove two things. Every
    control holds the value written by its last setter, or its default. With
    embedded boundaries the hypre interface stays `ij`.
  - The diagnostics (initial right-hand-side norm, initial and final residual,
    residual and CG-iteration histories) start at -1 and empty.

`wrappers.dfy` holds the `Option` datatype shared by the modules.

The precondition of the box scans is stronger than what the code asserts:
`scomp + ncomp <= nComp()` is required as well (see Findings).

## Model

| member | source | states |
|---|---|---|
| `FabScan.NumPts` | Src/Base/AMReX_FArrayBox.H:515 | `numPts()` is zero iff the box is empty, otherwise the product of the three side lengths |
| `FabScan.ContainsCells` | Src/Base/AMReX_FArrayBox.H:548 | for a non-empty `bx`, `domain.contains(bx)` (both corners of `bx` in `domain`) holds iff every cell of `bx` is a cell of `domain` |
| `FabScan.FArrayBox.Wrap` | Src/Base/AMReX_FArrayBox.H:261 | wraps a buffer holding at least `numPts(b)*ncomp` values; the FAB's box, component count and data are the arguments |
| `FabScan.FArrayBox.Offset` | Src/Base/AMReX_FArrayBox.H:550 | every cell of the domain and every component `n < nComp()` maps to an index below `numPts()*nComp()`, and the strided index equals the nested x-fastest form |
| `FabScan.OffsetLayout` | Src/Base/AMReX_FArrayBox.H:550 | the `Array4` strided offset lies in `[0, nx*ny*nz*nv)` and equals the nested x-fastest form |
| `FabScan.FArrayBox.ScanFlat` | Src/Base/AMReX_FArrayBox.H:530-537 | true iff some entry among the first `numPts()*nvar` of the buffer passes the test |
| `FabScan.FArrayBox.ScanBox` | Src/Base/AMReX_FArrayBox.H:636-651 | true iff some (n, k, j, i) with n in `[scomp, scomp+ncomp)` and (i, j, k) in `bx` passes the test; when true the cell returned holds the first such value in n, k, j, i order; when false `where` is returned unchanged |
| `FabScan.FArrayBox.ContainsNaN` | Src/Base/AMReX_FArrayBox.H:510-538 | true iff some entry among the first `numPts()*nvar` is NaN |
| `FabScan.FArrayBox.ContainsNaNInBox` | Src/Base/AMReX_FArrayBox.H:540-586 | true iff some component in `[scomp, scomp+ncomp)` of some cell of `bx` is NaN |
| `FabScan.FArrayBox.ContainsNaNWhere` | Src/Base/AMReX_FArrayBox.H:588-593 | the where-scan over the whole domain and components `0..nComp()-1`: NaN present iff true; the first NaN's cell in loop order; `where` unchanged if none |
| `FabScan.FArrayBox.ContainsNaNInBoxWhere` | Src/Base/AMReX_FArrayBox.H:595-652 | NaN present in the range iff true; the cell returned is the first NaN's in n, k, j, i order; `where` unchanged if none |
| `FabScan.FArrayBox.ContainsInf` | Src/Base/AMReX_FArrayBox.H:654-682 | true iff some entry among the first `numPts()*nvar` is infinite |
| `FabScan.FArrayBox.ContainsInfInBox` | Src/Base/AMReX_FArrayBox.H:684-730 | true iff some component in `[scomp, scomp+ncomp)` of some cell of `bx` is infinite |
| `FabScan.FArrayBox.ContainsInfWhere` | Src/Base/AMReX_FArrayBox.H:732-737 | as `ContainsNaNWhere`, for infinities |
| `FabScan.FArrayBox.ContainsInfInBoxWhere` | Src/Base/AMReX_FArrayBox.H:739-796 | as `ContainsNaNInBoxWhere`, for infinities |
| `FabScan.OffsetOnto` | Src/Base/AMReX_FArrayBox.H:514-515 | every index below `numPts()*nvar` is the offset of some cell of the domain and some component |
| `FabScan.FlatScanMatchesDomainScan` | Src/Base/AMReX_FArrayBox.H:588-593 | the flat scan and the whole-domain, all-component box scan agree on whether a value passes the test |
| `FabScan.FirstHitUnique` | Src/Base/AMReX_FArrayBox.H:306-309 | the cell reported as the first hit is unique, so `where` is determined by the data |
| `FabScan.AssertedArgsAllowOverrun` | Src/Base/AMReX_FArrayBox.H:544-548 | with two components, `scomp = 1, ncomp = 2` passes every asserted check, fails the corrected check, and the loop visits component 2, which the FAB does not have (`!HasComponent(2, 2)`) |
| `FabScan.ValidArgsKeepComponentsInRange` | Src/Base/AMReX_FArrayBox.H:573-577 | with `scomp + ncomp <= nComp()` added, every visited component exists (`HasComponent`) and every visited cell is in the domain |
| `ErrorList.AMRErrorTagInfo.constructor` | Src/AmrCore/AMReX_ErrorList.H:380-387 | defaults: max level 1000, min time lowest, max time max, empty real box, volume weighting 0, derefine 0 |
| `ErrorList.AMRErrorTagInfo.SetMaxLevel` | Src/AmrCore/AMReX_ErrorList.H:389-392 | writes the max level only and returns the same object |
| `ErrorList.AMRErrorTagInfo.SetMinTime` | Src/AmrCore/AMReX_ErrorList.H:393-396 | writes the min time only and returns the same object |
| `ErrorList.AMRErrorTagInfo.SetMaxTime` | Src/AmrCore/AMReX_ErrorList.H:397-400 | writes the max time only and returns the same object |
| `ErrorList.AMRErrorTagInfo.SetRealBox` | Src/AmrCore/AMReX_ErrorList.H:401-404 | writes the real box only and returns the same object |
| `ErrorList.AMRErrorTagInfo.SetVolumeWeighting` | Src/AmrCore/AMReX_ErrorList.H:405-408 | writes the volume weighting only and returns the same object |
| `ErrorList.AMRErrorTagInfo.SetDerefine` | Src/AmrCore/AMReX_ErrorList.H:409-412 | writes the derefine flag only and returns the same object |
| `ErrorList.LevelValues` | Src/AmrCore/AMReX_ErrorList.H:457-465 | length is the max level; level i takes the user's i-th value when there is one, otherwise the user's last value |
| `ErrorList.UniformLevelValues` | Src/AmrCore/AMReX_ErrorList.H:443-446 | a single user value gives that value on every level, so the scalar constructor agrees with the list constructor on `{value}` |
| `ErrorList.LevelValuesPrefix` | Src/AmrCore/AMReX_ErrorList.H:457-465 | raising the max level keeps the thresholds of the lower levels |
| `ErrorList.LevelValuesRepeatLast` | Src/AmrCore/AMReX_ErrorList.H:461-465 | appending a copy of the last user value changes no threshold |
| `ErrorList.AMRErrorTag.Default` | Src/AmrCore/AMReX_ErrorList.H:434-435 | test `BOX`, empty field name, the given info copied, no thresholds, no user functor |
| `ErrorList.AMRErrorTag.Uniform` | Src/AmrCore/AMReX_ErrorList.H:437-448 | `m_value` has `info.m_max_level` entries, all equal to `value`; test, field and info are the arguments |
| `ErrorList.AMRErrorTag.PerLevel` | Src/AmrCore/AMReX_ErrorList.H:450-467 | requires a non-empty list; `m_value` is `LevelValues(value, info.m_max_level)` |
| `ErrorList.AMRErrorTag.WithUserFunc` | Src/AmrCore/AMReX_ErrorList.H:469-473 | stores the functor, field, info and `ngrow`; `NGrow()` and `Field()` return the stored values |
| `ErrorList.ErrorList.constructor` | Src/AmrCore/AMReX_ErrorList.H:343 | the list starts empty |
| `ErrorList.ErrorList.Add` | Src/AmrCore/AMReX_ErrorList.H:350-366 | appends one record built from the arguments: size grows by one, the new record is last, earlier records are unchanged |
| `ErrorList.ErrorList.Clear` | Src/AmrCore/AMReX_ErrorList.H:371 | leaves the list empty, with size 0, for either value of `rs0` |
| `MLMG.MLMG.constructor` | Src/LinearSolvers/MLMG/AMReX_MLMG.H:179-269 | the controls take their defaults (200 iterations, no fixed count, smoothing 2/2/8/0, no F-cycles, bottom max 200 iterations, relative tolerance 1e-4, absolute tolerance -1, N-solve off with grid size 16, hypre `ij`); initial RHS norm, initial and final residual are -1; no residual or CG-iteration history; `getNumIters()` is 0 |
| `MLMG.MLMG.SetVerbose` | Src/LinearSolvers/MLMG/AMReX_MLMG.H:78 | writes the verbosity only; diagnostics and level count unchanged |
| `MLMG.MLMG.SetMaxIter` | Src/LinearSolvers/MLMG/AMReX_MLMG.H:79 | writes `max_iters` only; diagnostics unchanged |
| `MLMG.MLMG.SetMaxFmgIter` | Src/LinearSolvers/MLMG/AMReX_MLMG.H:80 | writes `max_fmg_iters` only; diagnostics unchanged |
| `MLMG.MLMG.SetFixedIter` | Src/LinearSolvers/MLMG/AMReX_MLMG.H:81 | writes `do_fixed_number_of_iters` only; diagnostics unchanged |
| `MLMG.MLMG.SetPreSmooth` | Src/LinearSolvers/MLMG/AMReX_MLMG.H:83 | writes `nu1` only; diagnostics unchanged |
| `MLMG.MLMG.SetPostSmooth` | Src/LinearSolvers/MLMG/AMReX_MLMG.H:84 | writes `nu2` only; diagnostics unchanged |
| `MLMG.MLMG.SetFinalSmooth` | Src/LinearSolvers/MLMG/AMReX_MLMG.H:85 | writes `nuf` only; diagnostics unchanged |
| `MLMG.MLMG.SetBottomSmooth` | Src/LinearSolvers/MLMG/AMReX_MLMG.H:86 | writes `nub` only; diagnostics unchanged |
| `MLMG.MLMG.SetBottomSolver` | Src/LinearSolvers/MLMG/AMReX_MLMG.H:88 | writes the bottom solver only; diagnostics unchanged |
| `MLMG.MLMG.SetCFStrategy` | Src/LinearSolvers/MLMG/AMReX_MLMG.H:89 | writes the coarse/fine strategy only; diagnostics unchanged |
| `MLMG.MLMG.SetBottomVerbose` | Src/LinearSolvers/MLMG/AMReX_MLMG.H:90 | writes the bottom verbosity only; diagnostics unchanged |
| `MLMG.MLMG.SetBottomMaxIter` | Src/LinearSolvers/MLMG/AMReX_MLMG.H:91 | writes `bottom_maxiter` only; diagnostics unchanged |
| `MLMG.MLMG.SetBottomTolerance` | Src/LinearSolvers/MLMG/AMReX_MLMG.H:92 | writes `bottom_reltol` only; diagnostics unchanged |
| `MLMG.MLMG.SetBottomToleranceAbs` | Src/LinearSolvers/MLMG/AMReX_MLMG.H:93-94 | writes `bottom_abstol` only, and `getBottomToleranceAbs()` then returns `t` |
| `MLMG.MLMG.SetAlwaysUseBNorm` | Src/LinearSolvers/MLMG/AMReX_MLMG.H:96 | writes `always_use_bnorm` only; diagnostics unchanged |
| `MLMG.MLMG.SetFinalFillBC` | Src/LinearSolvers/MLMG/AMReX_MLMG.H:98 | writes `final_fill_bc` only; diagnostics unchanged |
| `MLMG.MLMG.SetNSolve` | Src/LinearSolvers/MLMG/AMReX_MLMG.H:102 | writes `do_nsolve` only; diagnostics unchanged |
| `MLMG.MLMG.SetNSolveGridSize` | Src/LinearSolvers/MLMG/AMReX_MLMG.H:103 | writes `nsolve_grid_size` only; diagnostics unchanged |
| `MLMG.MLMG.SetHypreInterface` | Src/LinearSolvers/MLMG/AMReX_MLMG.H:106-113 | with embedded boundaries the interface is unchanged, otherwise it becomes `f`; nothing else changes |
| `MLMG.ApplyKeepsOthers` | Src/LinearSolvers/MLMG/AMReX_MLMG.H:78-103 | a setter call leaves every control other than its own as it was |
| `MLMG.ApplyOverwrites` | Src/LinearSolvers/MLMG/AMReX_MLMG.H:78-103 | the value a setter leaves in its control does not depend on the earlier state |
| `MLMG.SameSetterLastWins` | Src/LinearSolvers/MLMG/AMReX_MLMG.H:78-103 | two calls of the same setter have the effect of the second alone |
| `MLMG.LastIndexFor` | Src/LinearSolvers/MLMG/AMReX_MLMG.H:78-113 | the position of the last call that writes the given control, or -1: the call there writes the control and no later call does |
| `MLMG.LastFor` | Src/LinearSolvers/MLMG/AMReX_MLMG.H:78-113 | no call is returned iff no call in the sequence writes the given control; otherwise the call returned is one in the sequence that writes the control, and no later call writes it |
| `MLMG.LastSetWins` | Src/LinearSolvers/MLMG/AMReX_MLMG.H:78-113 | after any sequence of setter calls each control holds what its last writing call wrote, or its starting value |
| `MLMG.BottomToleranceAbsIsLastSet` | Src/LinearSolvers/MLMG/AMReX_MLMG.H:93-94 | starting from the defaults, `bottom_abstol` is the argument of the last `setBottomToleranceAbs` call, or -1 (line 197) if there was none |
| `MLMG.HypreInterfaceStaysIJWithEB` | Src/LinearSolvers/MLMG/AMReX_MLMG.H:106-113 | with embedded boundaries, no sequence of setter calls moves the hypre interface off `ij` |

`FabScan.Contains` is `Box::contains(Box)`, as the box scans assert it
(Src/Base/AMReX_FArrayBox.H:548, 603, 692, 747), and `FabScan.FArrayBox.At`
is the `Array4` read `a(i,j,k,n)` (lines 577, 642, 721, 786), the buffer entry
at `Offset(i, j, k, n)`.

The accessors `AMRErrorTag.NGrow`, `AMRErrorTag.Field`, `ErrorList.Size`,
`ErrorList.Get` (`operator[]`), `MLMG.NumAMRLevels`,
`MLMG.GetBottomToleranceAbs`, `MLMG.GetInitRHS`, `MLMG.GetInitResidual`,
`MLMG.GetFinalResidual`, `MLMG.GetResidualHistory`, `MLMG.GetNumIters` (the
length of the residual history, Src/LinearSolvers/MLMG/AMReX_MLMG.H:176) and
`MLMG.GetNumCGIters` read one field each. The constructor and setter
contracts above state what these accessors return. For example, the
constructor ensures `GetNumIters() == 0`, and every setter keeps the
diagnostics (`Progress()`), and with them `GetNumIters()`, unchanged.

## Left out

- The GPU branches of the scans (device reductions, atomics, stream synchronisation): only the host loops are modelled.
- IEEE semantics: values are only classified as finite, infinite or NaN; `isnan`/`isinf` are predicates on that classification.
- `AMREX_SPACEDIM` is taken to be 3.
- The `int`/`Long` width of cell indices, strides and `numPts()*nvar` is not modelled: the model's integers are unbounded.
- `FABio`, `FABio_binary`, stream input and output of FABs, the static format, ordering and precision settings, and `Initialize`: these are file I/O and process-wide state.
- `FArrayBox::operator=(Real)` and the constructors other than the buffer-wrapping one: they delegate to `BaseFab`, which is not part of this model.
- `FArrayBox::resize` (which hides the `BaseFab` version) and `initVal` are defined in `AMReX_FArrayBox.cpp`, which this model does not cover.
- `FArrayBox::getType` returns the `FabType` tag `m_type`; that tag is not modelled.
- `ErrorRec`, its `ErrorFunc`/`ErrorFunc2` wrappers and the `extern "C"` callback types: the callbacks are foreign function pointers, and a record keeps only their identity (`TagFunc`).
- `ErrorList::add`, `size` and `operator[]` are declared in `AMReX_ErrorList.H` and defined in `AMReX_ErrorList.cpp`, which this model does not cover; they are modelled from their documentation. `operator<<` on an `ErrorList` is output and is left out.
- `AMRErrorTag::operator()` and `SetNGrow` are defined in `AMReX_ErrorList.cpp`, which this model does not cover; they work on `TagBoxArray`/`MultiFab`. As a result, `m_ngrow` after the default, scalar and list constructors is left unconstrained.
- The user-functor constructor of `AMRErrorTag` never initialises `m_test`; the model leaves it unconstrained as well.
- The `AMRErrorTag` constructors' default argument `info = AMRErrorTagInfo()` (Src/AmrCore/AMReX_ErrorList.H:434, 440, 453, 472) is not modelled: `Default`, `Uniform`, `PerLevel` and `WithUserFunc` take the info explicitly, and `DefaultTagInfo` stands for the default-constructed record.
- `Real` in `ErrorList` and `MLMG` is Dafny's exact `real`: `Real(1.e-4)` (Src/LinearSolvers/MLMG/AMReX_MLMG.H:196) is stored as exactly 1/10000, not the nearest double. Only stores and reads of these values are modelled, so no proved property depends on the rounding.
- `RealLowest` and `RealMax` are the double-precision limits; a build with `AMREX_USE_FLOAT`, where `Real` is `float`, has different limits.
- `RealBox` is not part of this model; its default is taken as the empty box from (0,0,0) to (-1,-1,-1).
- `ErrorList.AMRErrorTag.Uniform`: requires `info.m_max_level >= 0`, because a negative size makes `Vector::resize` fail, and that failure is not modelled.
- `ErrorList.AMRErrorTag.PerLevel`: requires `info.m_max_level >= 0`, for the same reason.
- The `MLMG` solve, the V-/F-cycles, the bottom solve, the residual and interpolation routines, `apply`, `getFluxes`, `getGradSolution`, `compResidual`, `prepareForSolve` and the N-solve: they are declared in `AMReX_MLMG.H` and defined in `AMReX_MLMG.cpp`, which this model does not cover, and they work on floating-point `MultiFab`s through the external `MLLinOp`. So no model operation writes the diagnostics after construction.
- The `MLMG` constructor is defined in `AMReX_MLMG.cpp`, which this model does not cover. The number of AMR levels (`namrlevs`) is therefore a constructor argument, and `finest_amr_lev`, `linop_prepared`, `solve_called`, the timers and the level-hierarchy containers (`sol`, `rhs`, `res`, `cor`, `cor_hold`, `rescor`, `sol_is_alias`) are not modelled.
- Hypre and PETSc: only the interface choice and `setHypreInterface` are modelled. The hypre options namespace, relaxation, sweep and threshold setters, the solver objects and PETSc are foreign-library wrappers.
- `hypre_interface` and `setHypreInterface` exist only in builds with `AMREX_USE_HYPRE` and `AMREX_SPACEDIM > 1` (Src/LinearSolvers/MLMG/AMReX_MLMG.H:105, 219); the model always has them.
- `checkPoint` is debug file output.
- The enumerators of `BottomSolver` are defined in `AMReX_MLLinOp.H`, which is not part of this model. Only `Default` is used by the modelled code; the others are listed by name.
- `Src/EB/AMReX_EB2_IndexSpace_chkpt_file.H`, an embedded-boundary index space read from a checkpoint file: it is geometry and I/O plumbing.

## Findings

| source | as written | input that shows it | evidently intended | confidence | as-written member | corrected member |
|---|---|---|---|---|---|---|
| Src/Base/AMReX_FArrayBox.H:544-548 (also 599-603, 688-692, 743-747) | the box scans assert `scomp < nComp()` and `ncomp <= nComp()` but not `scomp + ncomp <= nComp()`, while the component loop runs to `scomp + ncomp - 1` | `nComp() == 2`, `scomp = 1`, `ncomp = 2`: every assertion holds and the loop reads component 2, past the data | the assertions should bound the whole component range, `scomp + ncomp <= nComp()` | not executed; medium (debug-only assertions) | `FabScan.AssertedArgsAllowOverrun` | `FabScan.ValidArgsKeepComponentsInRange` |
