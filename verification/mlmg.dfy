/** The configuration and diagnostics state of AMReX's multi-level
    multigrid solver `MLMG`.

    The solver keeps iteration and smoothing controls with fixed defaults;
    each `set*` member overwrites exactly one of them.  The diagnostics (norms
    of the initial right-hand side and residuals, and the per-iteration
    histories) start at -1 and empty and are only written by `solve`, whose
    numerical work is not part of this model.

    The controls are viewed as a value `Controls`; the effect of a setter is
    the pure function `Apply`, and the lemmas about `Replay` (a sequence of
    setter calls) show that the value of any control is the one its last
    setter call wrote, or its default. */
module MLMG {

  import opened Wrappers

  /** The bottom solvers (`amrex::BottomSolver`). */
  datatype BottomSolver = Default | Smoother | BiCGStab | CG | BiCGCG | CGBiCG | Hypre | PETSc

  /** How the coarse/fine boundary is treated. */
  datatype CFStrategy = NoStrategy | GhostNodes

  /** The interfaces to hypre (`Hypre::Interface`). */
  datatype HypreInterface = Structed | SemiStructed | IJ

  /** The value of the solver's controls. */
  datatype Controls = Controls(
    verbose: int,
    maxIters: int,
    fixedIters: int,
    nu1: int,
    nu2: int,
    nuf: int,
    nub: int,
    maxFmgIters: int,
    bottomSolver: BottomSolver,
    cfStrategy: CFStrategy,
    bottomVerbose: int,
    bottomMaxIter: int,
    bottomRelTol: real,
    bottomAbsTol: real,
    alwaysUseBNorm: int,
    finalFillBC: int,
    doNSolve: int,
    nsolveGridSize: int,
    hypreInterface: HypreInterface)

  /** The defaults of a freshly constructed solver. */
  const DefaultControls := Controls(
    1, 200, 0,
    2, 2, 8, 0,
    0,
    Default, NoStrategy, 0, 200, 1.0e-4, -1.0,
    0, 0,
    0, 16,
    IJ)

  /** The controls, one per setter. */
  datatype Knob =
    | VerboseKnob | MaxItersKnob | FixedItersKnob | Nu1Knob | Nu2Knob | NufKnob | NubKnob
    | MaxFmgItersKnob | BottomSolverKnob | CFStrategyKnob | BottomVerboseKnob
    | BottomMaxIterKnob | BottomRelTolKnob | BottomAbsTolKnob | AlwaysUseBNormKnob
    | FinalFillBCKnob | NSolveKnob | NSolveGridSizeKnob | HypreInterfaceKnob

  /** A call of one of the solver's setters with its argument. */
  datatype Setter =
    | Verbose(v: int)
    | MaxIter(n: int)
    | FixedIter(nit: int)
    | PreSmooth(n: int)
    | PostSmooth(n: int)
    | FinalSmooth(n: int)
    | BottomSmooth(n: int)
    | MaxFmgIter(n: int)
    | BottomSolverChoice(s: BottomSolver)
    | CFStrategyChoice(cf: CFStrategy)
    | BottomVerbose(v: int)
    | BottomMaxIter(n: int)
    | BottomTolerance(t: real)
    | BottomToleranceAbs(t: real)
    | AlwaysUseBNorm(flag: int)
    | FinalFillBC(flag: int)
    | NSolve(flag: int)
    | NSolveGridSize(size: int)
    | HypreInterfaceChoice(f: HypreInterface)

  /** The control a setter is named after. */
  function Target(s: Setter): Knob
  {
    match s
    case Verbose(_) => VerboseKnob
    case MaxIter(_) => MaxItersKnob
    case FixedIter(_) => FixedItersKnob
    case PreSmooth(_) => Nu1Knob
    case PostSmooth(_) => Nu2Knob
    case FinalSmooth(_) => NufKnob
    case BottomSmooth(_) => NubKnob
    case MaxFmgIter(_) => MaxFmgItersKnob
    case BottomSolverChoice(_) => BottomSolverKnob
    case CFStrategyChoice(_) => CFStrategyKnob
    case BottomVerbose(_) => BottomVerboseKnob
    case BottomMaxIter(_) => BottomMaxIterKnob
    case BottomTolerance(_) => BottomRelTolKnob
    case BottomToleranceAbs(_) => BottomAbsTolKnob
    case AlwaysUseBNorm(_) => AlwaysUseBNormKnob
    case FinalFillBC(_) => FinalFillBCKnob
    case NSolve(_) => NSolveKnob
    case NSolveGridSize(_) => NSolveGridSizeKnob
    case HypreInterfaceChoice(_) => HypreInterfaceKnob
  }

  /** Two control values agree on control `k`. */
  predicate SameOn(c: Controls, d: Controls, k: Knob)
  {
    match k
    case VerboseKnob => c.verbose == d.verbose
    case MaxItersKnob => c.maxIters == d.maxIters
    case FixedItersKnob => c.fixedIters == d.fixedIters
    case Nu1Knob => c.nu1 == d.nu1
    case Nu2Knob => c.nu2 == d.nu2
    case NufKnob => c.nuf == d.nuf
    case NubKnob => c.nub == d.nub
    case MaxFmgItersKnob => c.maxFmgIters == d.maxFmgIters
    case BottomSolverKnob => c.bottomSolver == d.bottomSolver
    case CFStrategyKnob => c.cfStrategy == d.cfStrategy
    case BottomVerboseKnob => c.bottomVerbose == d.bottomVerbose
    case BottomMaxIterKnob => c.bottomMaxIter == d.bottomMaxIter
    case BottomRelTolKnob => c.bottomRelTol == d.bottomRelTol
    case BottomAbsTolKnob => c.bottomAbsTol == d.bottomAbsTol
    case AlwaysUseBNormKnob => c.alwaysUseBNorm == d.alwaysUseBNorm
    case FinalFillBCKnob => c.finalFillBC == d.finalFillBC
    case NSolveKnob => c.doNSolve == d.doNSolve
    case NSolveGridSizeKnob => c.nsolveGridSize == d.nsolveGridSize
    case HypreInterfaceKnob => c.hypreInterface == d.hypreInterface
  }

  /** The setter writes its control: every setter except
      `setHypreInterface` in a build with embedded boundaries, which must keep
      the `ij` interface. */
  predicate Assigns(eb: bool, s: Setter, k: Knob)
  {
    Target(s) == k && !(eb && s.HypreInterfaceChoice?)
  }

  /** The effect of one setter call on the controls (`eb`: the build has
      embedded boundaries). */
  function Apply(eb: bool, c: Controls, s: Setter): Controls
  {
    match s
    case Verbose(v) => c.(verbose := v)
    case MaxIter(n) => c.(maxIters := n)
    case FixedIter(nit) => c.(fixedIters := nit)
    case PreSmooth(n) => c.(nu1 := n)
    case PostSmooth(n) => c.(nu2 := n)
    case FinalSmooth(n) => c.(nuf := n)
    case BottomSmooth(n) => c.(nub := n)
    case MaxFmgIter(n) => c.(maxFmgIters := n)
    case BottomSolverChoice(b) => c.(bottomSolver := b)
    case CFStrategyChoice(cf) => c.(cfStrategy := cf)
    case BottomVerbose(v) => c.(bottomVerbose := v)
    case BottomMaxIter(n) => c.(bottomMaxIter := n)
    case BottomTolerance(t) => c.(bottomRelTol := t)
    case BottomToleranceAbs(t) => c.(bottomAbsTol := t)
    case AlwaysUseBNorm(flag) => c.(alwaysUseBNorm := flag)
    case FinalFillBC(flag) => c.(finalFillBC := flag)
    case NSolve(flag) => c.(doNSolve := flag)
    case NSolveGridSize(size) => c.(nsolveGridSize := size)
    case HypreInterfaceChoice(f) => if eb then c else c.(hypreInterface := f)
  }

  /** A setter call changes no control other than its own. */
  lemma ApplyKeepsOthers(eb: bool, c: Controls, s: Setter, k: Knob)
    requires !Assigns(eb, s, k)
    ensures SameOn(Apply(eb, c, s), c, k)
  {
  }

  /** What a setter writes does not depend on the earlier value: two
      states agree on the control after the same call. */
  lemma ApplyOverwrites(eb: bool, c: Controls, d: Controls, s: Setter)
    requires Assigns(eb, s, Target(s))
    ensures SameOn(Apply(eb, c, s), Apply(eb, d, s), Target(s))
  {
  }

  /** Of two calls of the same setter, the second wins. */
  lemma SameSetterLastWins(eb: bool, c: Controls, s: Setter, t: Setter)
    requires Target(s) == Target(t)
    ensures Apply(eb, Apply(eb, c, s), t) == Apply(eb, c, t)
  {
  }

  /** The controls after a sequence of setter calls, in order. */
  function Replay(eb: bool, c: Controls, calls: seq<Setter>): Controls
  {
    if calls == [] then c
    else Apply(eb, Replay(eb, c, calls[..|calls| - 1]), calls[|calls| - 1])
  }

  /** The position of the last call in `calls` that writes control `k`, or
      -1 when no call writes it. */
  function LastIndexFor(eb: bool, calls: seq<Setter>, k: Knob): (r: int)
    ensures -1 <= r < |calls|
    ensures 0 <= r ==> Assigns(eb, calls[r], k)
    ensures forall j :: r < j < |calls| ==> !Assigns(eb, calls[j], k)
  {
    if calls == [] then -1
    else if Assigns(eb, calls[|calls| - 1], k) then |calls| - 1
    else
      var init := calls[..|calls| - 1];
      assert forall j :: 0 <= j < |init| ==> init[j] == calls[j];
      LastIndexFor(eb, init, k)
  }

  /** The last call in `calls` that writes control `k`, if any: none when
      no call writes `k`, otherwise a call that writes `k` and that no later
      call overrides. */
  function LastFor(eb: bool, calls: seq<Setter>, k: Knob): (r: Option<Setter>)
    ensures r.Some? ==> r.value in calls && Assigns(eb, r.value, k)
    ensures r.None? <==> forall i :: 0 <= i < |calls| ==> !Assigns(eb, calls[i], k)
    ensures r.Some? ==> exists i :: 0 <= i < |calls| && calls[i] == r.value &&
                          forall j :: i < j < |calls| ==> !Assigns(eb, calls[j], k)
  {
    var i := LastIndexFor(eb, calls, k);
    if i < 0 then None else Some(calls[i])
  }

  /** One more call: it becomes the last writer of `k` when it writes `k`,
      and otherwise the last writer is unchanged. */
  lemma LastForStep(eb: bool, calls: seq<Setter>, k: Knob)
    requires calls != []
    ensures LastFor(eb, calls, k) ==
            if Assigns(eb, calls[|calls| - 1], k) then Some(calls[|calls| - 1])
            else LastFor(eb, calls[..|calls| - 1], k)
  {
  }

  /** After any sequence of setter calls, each control holds what the last
      call that writes it wrote, and its starting value if there is none. */
  lemma {:induction false} LastSetWins(eb: bool, c: Controls, calls: seq<Setter>, k: Knob)
    ensures SameOn(Replay(eb, c, calls),
                   match LastFor(eb, calls, k) case None => c case Some(s) => Apply(eb, c, s),
                   k)
  {
    if calls != [] {
      var init, s := calls[..|calls| - 1], calls[|calls| - 1];
      LastSetWins(eb, c, init, k);
      LastForStep(eb, calls, k);
      if Assigns(eb, s, k) {
        ApplyOverwrites(eb, Replay(eb, c, init), c, s);
      } else {
        ApplyKeepsOthers(eb, Replay(eb, c, init), s, k);
      }
    }
  }

  /** `getBottomToleranceAbs()` returns the value of the last
      `setBottomToleranceAbs` call, or -1 when there was none. */
  lemma BottomToleranceAbsIsLastSet(eb: bool, calls: seq<Setter>)
    ensures Replay(eb, DefaultControls, calls).bottomAbsTol ==
            match LastFor(eb, calls, BottomAbsTolKnob)
            case None => -1.0
            case Some(s) => s.t
  {
    LastSetWins(eb, DefaultControls, calls, BottomAbsTolKnob);
  }

  /** With embedded boundaries, the hypre interface stays `ij` whatever is
      set. */
  lemma {:induction false} HypreInterfaceStaysIJWithEB(calls: seq<Setter>)
    ensures Replay(true, DefaultControls, calls).hypreInterface == IJ
  {
    if calls != [] {
      HypreInterfaceStaysIJWithEB(calls[..|calls| - 1]);
    }
  }

  /** The solver's diagnostics. */
  datatype Diagnostics = Diagnostics(
    rhsNorm0: real,
    initResNorm0: real,
    finalResNorm0: real,
    nitersCG: seq<int>,
    iterFineResNorm0: seq<real>)

  class MLMG {
    /** Whether the build has embedded boundaries (`AMREX_USE_EB`). */
    const ebEnabled: bool

    var verbose: int
    var max_iters: int
    var do_fixed_number_of_iters: int
    var nu1: int
    var nu2: int
    var nuf: int
    var nub: int
    var max_fmg_iters: int
    var bottom_solver: BottomSolver
    var cf_strategy: CFStrategy
    var bottom_verbose: int
    var bottom_maxiter: int
    var bottom_reltol: real
    var bottom_abstol: real
    var always_use_bnorm: int
    var final_fill_bc: int
    /** The number of AMR levels of the operator. */
    var namrlevs: int
    var do_nsolve: int
    var nsolve_grid_size: int
    var hypre_interface: HypreInterface

    var m_rhsnorm0: real
    var m_init_resnorm0: real
    var m_final_resnorm0: real
    var m_niters_cg: seq<int>
    /** The finest-level residual after each iteration. */
    var m_iter_fine_resnorm0: seq<real>

    function Settings(): Controls
      reads this
    {
      Controls(verbose, max_iters, do_fixed_number_of_iters, nu1, nu2, nuf, nub, max_fmg_iters,
               bottom_solver, cf_strategy, bottom_verbose, bottom_maxiter, bottom_reltol,
               bottom_abstol, always_use_bnorm, final_fill_bc, do_nsolve, nsolve_grid_size,
               hypre_interface)
    }

    function Progress(): Diagnostics
      reads this
    {
      Diagnostics(m_rhsnorm0, m_init_resnorm0, m_final_resnorm0, m_niters_cg, m_iter_fine_resnorm0)
    }

    /** A solver for an operator with `numAmrLevels` AMR levels. */
    constructor (numAmrLevels: int, ebEnabled: bool)
      ensures this.ebEnabled == ebEnabled && namrlevs == numAmrLevels
      ensures Settings() == DefaultControls
      ensures GetInitRHS() == -1.0 && GetInitResidual() == -1.0 && GetFinalResidual() == -1.0
      ensures GetResidualHistory() == [] && GetNumIters() == 0 && GetNumCGIters() == []
    {
      this.ebEnabled := ebEnabled;
      verbose, max_iters, do_fixed_number_of_iters := 1, 200, 0;
      nu1, nu2, nuf, nub := 2, 2, 8, 0;
      max_fmg_iters := 0;
      bottom_solver, cf_strategy := Default, NoStrategy;
      bottom_verbose, bottom_maxiter, bottom_reltol, bottom_abstol := 0, 200, 1.0e-4, -1.0;
      always_use_bnorm, final_fill_bc := 0, 0;
      namrlevs := numAmrLevels;
      do_nsolve, nsolve_grid_size := 0, 16;
      hypre_interface := IJ;
      m_rhsnorm0, m_init_resnorm0, m_final_resnorm0 := -1.0, -1.0, -1.0;
      m_niters_cg, m_iter_fine_resnorm0 := [], [];
    }

    method SetVerbose(v: int)
      modifies this
      ensures Settings() == Apply(ebEnabled, old(Settings()), Verbose(v))
      ensures Progress() == old(Progress()) && namrlevs == old(namrlevs)
    {
      verbose := v;
    }

    method SetMaxIter(n: int)
      modifies this
      ensures Settings() == Apply(ebEnabled, old(Settings()), MaxIter(n))
      ensures Progress() == old(Progress()) && namrlevs == old(namrlevs)
    {
      max_iters := n;
    }

    method SetMaxFmgIter(n: int)
      modifies this
      ensures Settings() == Apply(ebEnabled, old(Settings()), MaxFmgIter(n))
      ensures Progress() == old(Progress()) && namrlevs == old(namrlevs)
    {
      max_fmg_iters := n;
    }

    method SetFixedIter(nit: int)
      modifies this
      ensures Settings() == Apply(ebEnabled, old(Settings()), FixedIter(nit))
      ensures Progress() == old(Progress()) && namrlevs == old(namrlevs)
    {
      do_fixed_number_of_iters := nit;
    }

    method SetPreSmooth(n: int)
      modifies this
      ensures Settings() == Apply(ebEnabled, old(Settings()), PreSmooth(n))
      ensures Progress() == old(Progress()) && namrlevs == old(namrlevs)
    {
      nu1 := n;
    }

    method SetPostSmooth(n: int)
      modifies this
      ensures Settings() == Apply(ebEnabled, old(Settings()), PostSmooth(n))
      ensures Progress() == old(Progress()) && namrlevs == old(namrlevs)
    {
      nu2 := n;
    }

    method SetFinalSmooth(n: int)
      modifies this
      ensures Settings() == Apply(ebEnabled, old(Settings()), FinalSmooth(n))
      ensures Progress() == old(Progress()) && namrlevs == old(namrlevs)
    {
      nuf := n;
    }

    method SetBottomSmooth(n: int)
      modifies this
      ensures Settings() == Apply(ebEnabled, old(Settings()), BottomSmooth(n))
      ensures Progress() == old(Progress()) && namrlevs == old(namrlevs)
    {
      nub := n;
    }

    method SetBottomSolver(s: BottomSolver)
      modifies this
      ensures Settings() == Apply(ebEnabled, old(Settings()), BottomSolverChoice(s))
      ensures Progress() == old(Progress()) && namrlevs == old(namrlevs)
    {
      bottom_solver := s;
    }

    method SetCFStrategy(a_cf_strategy: CFStrategy)
      modifies this
      ensures Settings() == Apply(ebEnabled, old(Settings()), CFStrategyChoice(a_cf_strategy))
      ensures Progress() == old(Progress()) && namrlevs == old(namrlevs)
    {
      cf_strategy := a_cf_strategy;
    }

    method SetBottomVerbose(v: int)
      modifies this
      ensures Settings() == Apply(ebEnabled, old(Settings()), BottomVerbose(v))
      ensures Progress() == old(Progress()) && namrlevs == old(namrlevs)
    {
      bottom_verbose := v;
    }

    method SetBottomMaxIter(n: int)
      modifies this
      ensures Settings() == Apply(ebEnabled, old(Settings()), BottomMaxIter(n))
      ensures Progress() == old(Progress()) && namrlevs == old(namrlevs)
    {
      bottom_maxiter := n;
    }

    method SetBottomTolerance(t: real)
      modifies this
      ensures Settings() == Apply(ebEnabled, old(Settings()), BottomTolerance(t))
      ensures Progress() == old(Progress()) && namrlevs == old(namrlevs)
    {
      bottom_reltol := t;
    }

    method SetBottomToleranceAbs(t: real)
      modifies this
      ensures Settings() == Apply(ebEnabled, old(Settings()), BottomToleranceAbs(t))
      ensures Progress() == old(Progress()) && namrlevs == old(namrlevs)
      ensures GetBottomToleranceAbs() == t
    {
      bottom_abstol := t;
    }

    function GetBottomToleranceAbs(): real
      reads this
    {
      bottom_abstol
    }

    method SetAlwaysUseBNorm(flag: int)
      modifies this
      ensures Settings() == Apply(ebEnabled, old(Settings()), AlwaysUseBNorm(flag))
      ensures Progress() == old(Progress()) && namrlevs == old(namrlevs)
    {
      always_use_bnorm := flag;
    }

    method SetFinalFillBC(flag: int)
      modifies this
      ensures Settings() == Apply(ebEnabled, old(Settings()), FinalFillBC(flag))
      ensures Progress() == old(Progress()) && namrlevs == old(namrlevs)
    {
      final_fill_bc := flag;
    }

    function NumAMRLevels(): int
      reads this
    {
      namrlevs
    }

    method SetNSolve(flag: int)
      modifies this
      ensures Settings() == Apply(ebEnabled, old(Settings()), NSolve(flag))
      ensures Progress() == old(Progress()) && namrlevs == old(namrlevs)
    {
      do_nsolve := flag;
    }

    method SetNSolveGridSize(s: int)
      modifies this
      ensures Settings() == Apply(ebEnabled, old(Settings()), NSolveGridSize(s))
      ensures Progress() == old(Progress()) && namrlevs == old(namrlevs)
    {
      nsolve_grid_size := s;
    }

    /** `setHypreInterface`: ignored when the build has embedded boundaries,
        which need the `ij` interface. */
    method SetHypreInterface(f: HypreInterface)
      modifies this
      ensures Settings() == Apply(ebEnabled, old(Settings()), HypreInterfaceChoice(f))
      ensures Progress() == old(Progress()) && namrlevs == old(namrlevs)
      ensures hypre_interface == if ebEnabled then old(hypre_interface) else f
    {
      if !ebEnabled {
        hypre_interface := f;
      }
    }

    function GetInitRHS(): real
      reads this
    {
      m_rhsnorm0
    }

    /** The initial composite residual. */
    function GetInitResidual(): real
      reads this
    {
      m_init_resnorm0
    }

    /** The final composite residual. */
    function GetFinalResidual(): real
      reads this
    {
      m_final_resnorm0
    }

    /** The residual on the finest AMR level after each iteration. */
    function GetResidualHistory(): seq<real>
      reads this
    {
      m_iter_fine_resnorm0
    }

    /** The number of iterations done: one residual is recorded per
        iteration. */
    function GetNumIters(): (r: int)
      reads this
      ensures r == |GetResidualHistory()|
    {
      |m_iter_fine_resnorm0|
    }

    function GetNumCGIters(): seq<int>
      reads this
    {
      m_niters_cg
    }
  }
}
