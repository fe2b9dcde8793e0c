/** The linear-solver configuration builders of OPM Flow: `setupCPR` and
    `setupILU` turn the solver parameter bundle and a configuration name into
    the key-value tree that the flexible linear solver is built from. */
module SetupPropertyTree {
  import opened PropertyTree
  import opened SetupPaths

  /** The fields of FlowLinearSolverParameters that the two builders read.
      Doubles are modelled as reals, C++ `int` as unbounded integers: the
      builders only copy them into the tree. */
  datatype FlowLinearSolverParameters = FlowLinearSolverParameters(
    linearSolverReduction: real,   // linear_solver_reduction_
    linearSolverMaxIter: int,      // linear_solver_maxiter_
    linearSolverVerbosity: int,    // linear_solver_verbosity_
    iluRelaxation: real,           // ilu_relaxation_
    iluFillinLevel: int,           // ilu_fillin_level_
    cprMaxEllIter: int             // cpr_max_ell_iter_
  )

  /** The one configuration name that selects quasi-IMPES pressure weights. */
  const QuasiImpesName := "cpr_quasiimpes"

  const WeightType := "preconditioner.weight_type"
  const CoarseSolverPrefix := "preconditioner.coarsesolver."
  const AmgIterations := "preconditioner.coarsesolver.preconditioner.iterations"

  /** The paths whose value setupCPR takes from the parameter bundle. */
  const CprParamPaths: set<string> := {"maxiter", "tol", "verbosity", AmgIterations}

  /** Reference table of the CPR configuration: the outer solver settings,
      the CPR stage with its ILU(0) fine smoother, and the loop-solver coarse
      stage with its AMG preconditioner. */
  function CprTree(conf: string, p: FlowLinearSolverParameters): Tree {
    map[
      "maxiter" := Int(p.linearSolverMaxIter),
      "tol" := Real(p.linearSolverReduction),
      "verbosity" := Int(p.linearSolverVerbosity),
      "solver" := Str("bicgstab"),
      "preconditioner.type" := Str("cpr"),
      "preconditioner.weight_type" := Str(if conf == QuasiImpesName then "quasiimpes" else "trueimpes"),
      "preconditioner.finesmoother.type" := Str("ParOverILU0"),
      "preconditioner.finesmoother.relaxation" := Real(1.0),
      "preconditioner.pressure_var_index" := Int(1),
      "preconditioner.verbosity" := Int(0),
      "preconditioner.coarsesolver.maxiter" := Int(1),
      "preconditioner.coarsesolver.tol" := Real(1e-1),
      "preconditioner.coarsesolver.solver" := Str("loopsolver"),
      "preconditioner.coarsesolver.verbosity" := Int(0),
      "preconditioner.coarsesolver.preconditioner.type" := Str("amg"),
      "preconditioner.coarsesolver.preconditioner.alpha" := Real(0.333333333333),
      "preconditioner.coarsesolver.preconditioner.relaxation" := Real(1.0),
      "preconditioner.coarsesolver.preconditioner.iterations" := Int(p.cprMaxEllIter),
      "preconditioner.coarsesolver.preconditioner.coarsenTarget" := Int(1200),
      "preconditioner.coarsesolver.preconditioner.pre_smooth" := Int(1),
      "preconditioner.coarsesolver.preconditioner.post_smooth" := Int(1),
      "preconditioner.coarsesolver.preconditioner.beta" := Real(1e-5),
      "preconditioner.coarsesolver.preconditioner.smoother" := Str("ILU0"),
      "preconditioner.coarsesolver.preconditioner.verbosity" := Int(0),
      "preconditioner.coarsesolver.preconditioner.maxlevel" := Int(15),
      "preconditioner.coarsesolver.preconditioner.skip_isolated" := Int(0)
    ]
  }

  /** Reference table of the ILU configuration; the name plays no part. */
  function IluTree(conf: string, p: FlowLinearSolverParameters): Tree {
    map[
      "tol" := Real(p.linearSolverReduction),
      "maxiter" := Int(p.linearSolverMaxIter),
      "verbosity" := Int(p.linearSolverVerbosity),
      "solver" := Str("bicgstab"),
      "preconditioner.type" := Str("ParOverILU0"),
      "preconditioner.relaxation" := Real(p.iluRelaxation),
      "preconditioner.ilulevel" := Int(p.iluFillinLevel)
    ]
  }

  /** setupCPR: builds the two-stage CPR configuration one put at a time. */
  method SetupCPR(conf: string, p: FlowLinearSolverParameters) returns (prm: Tree)
    ensures prm == CprTree(conf, p)
  {
    prm := map[];
    prm := prm["maxiter" := Int(p.linearSolverMaxIter)];
    prm := prm["tol" := Real(p.linearSolverReduction)];
    prm := prm["verbosity" := Int(p.linearSolverVerbosity)];
    prm := prm["solver" := Str("bicgstab")];
    prm := prm["preconditioner.type" := Str("cpr")];
    if conf == QuasiImpesName {
      prm := prm["preconditioner.weight_type" := Str("quasiimpes")];
    } else {
      prm := prm["preconditioner.weight_type" := Str("trueimpes")];
    }
    prm := prm["preconditioner.finesmoother.type" := Str("ParOverILU0")];
    prm := prm["preconditioner.finesmoother.relaxation" := Real(1.0)];
    prm := prm["preconditioner.pressure_var_index" := Int(1)];
    prm := prm["preconditioner.verbosity" := Int(0)];
    prm := prm["preconditioner.coarsesolver.maxiter" := Int(1)];
    prm := prm["preconditioner.coarsesolver.tol" := Real(1e-1)];
    prm := prm["preconditioner.coarsesolver.solver" := Str("loopsolver")];
    prm := prm["preconditioner.coarsesolver.verbosity" := Int(0)];
    prm := prm["preconditioner.coarsesolver.preconditioner.type" := Str("amg")];
    prm := prm["preconditioner.coarsesolver.preconditioner.alpha" := Real(0.333333333333)];
    prm := prm["preconditioner.coarsesolver.preconditioner.relaxation" := Real(1.0)];
    prm := prm["preconditioner.coarsesolver.preconditioner.iterations" := Int(p.cprMaxEllIter)];
    prm := prm["preconditioner.coarsesolver.preconditioner.coarsenTarget" := Int(1200)];
    prm := prm["preconditioner.coarsesolver.preconditioner.pre_smooth" := Int(1)];
    prm := prm["preconditioner.coarsesolver.preconditioner.post_smooth" := Int(1)];
    prm := prm["preconditioner.coarsesolver.preconditioner.beta" := Real(1e-5)];
    prm := prm["preconditioner.coarsesolver.preconditioner.smoother" := Str("ILU0")];
    prm := prm["preconditioner.coarsesolver.preconditioner.verbosity" := Int(0)];
    prm := prm["preconditioner.coarsesolver.preconditioner.maxlevel" := Int(15)];
    prm := prm["preconditioner.coarsesolver.preconditioner.skip_isolated" := Int(0)];
  }

  /** setupILU: builds the single-stage ILU configuration one put at a time. */
  method SetupILU(conf: string, p: FlowLinearSolverParameters) returns (prm: Tree)
    ensures prm == IluTree(conf, p)
    ensures prm.Keys == PathSet(IluPaths) && |prm| == 7
  {
    prm := map[];
    prm := prm["tol" := Real(p.linearSolverReduction)];
    prm := prm["maxiter" := Int(p.linearSolverMaxIter)];
    prm := prm["verbosity" := Int(p.linearSolverVerbosity)];
    prm := prm["solver" := Str("bicgstab")];
    prm := prm["preconditioner.type" := Str("ParOverILU0")];
    prm := prm["preconditioner.relaxation" := Real(p.iluRelaxation)];
    prm := prm["preconditioner.ilulevel" := Int(p.iluFillinLevel)];
    IluKeyCount(conf, p);
  }

  // ---------------------------------------------------------------------
  // The puts in source order
  // ---------------------------------------------------------------------

  /** setupCPR's first four puts: the outer BiCGStab solver. */
  function CprSolverPuts(p: FlowLinearSolverParameters): seq<Entry> {
    [
      Entry("maxiter", Int(p.linearSolverMaxIter)),
      Entry("tol", Real(p.linearSolverReduction)),
      Entry("verbosity", Int(p.linearSolverVerbosity)),
      Entry("solver", Str("bicgstab"))
    ]
  }
  /** The CPR stage: its type, pressure weights, fine smoother, pressure
      variable and verbosity. The one `if` of setupCPR picks the weight type. */
  function CprStagePuts(conf: string): seq<Entry> {
    [
      Entry("preconditioner.type", Str("cpr")),
      Entry("preconditioner.weight_type", Str(if conf == QuasiImpesName then "quasiimpes" else "trueimpes")),
      Entry("preconditioner.finesmoother.type", Str("ParOverILU0")),
      Entry("preconditioner.finesmoother.relaxation", Real(1.0)),
      Entry("preconditioner.pressure_var_index", Int(1)),
      Entry("preconditioner.verbosity", Int(0))
    ]
  }
  /** The loop solver of the coarse pressure stage. */
  function CprCoarseSolverPuts(): seq<Entry> {
    [
      Entry("preconditioner.coarsesolver.maxiter", Int(1)),
      Entry("preconditioner.coarsesolver.tol", Real(1e-1)),
      Entry("preconditioner.coarsesolver.solver", Str("loopsolver")),
      Entry("preconditioner.coarsesolver.verbosity", Int(0))
    ]
  }
  /** The AMG preconditioner of the coarse pressure stage. */
  function CprAmgPuts(p: FlowLinearSolverParameters): seq<Entry> {
    [
      Entry("preconditioner.coarsesolver.preconditioner.type", Str("amg")),
      Entry("preconditioner.coarsesolver.preconditioner.alpha", Real(0.333333333333)),
      Entry("preconditioner.coarsesolver.preconditioner.relaxation", Real(1.0)),
      Entry("preconditioner.coarsesolver.preconditioner.iterations", Int(p.cprMaxEllIter)),
      Entry("preconditioner.coarsesolver.preconditioner.coarsenTarget", Int(1200)),
      Entry("preconditioner.coarsesolver.preconditioner.pre_smooth", Int(1)),
      Entry("preconditioner.coarsesolver.preconditioner.post_smooth", Int(1)),
      Entry("preconditioner.coarsesolver.preconditioner.beta", Real(1e-5)),
      Entry("preconditioner.coarsesolver.preconditioner.smoother", Str("ILU0")),
      Entry("preconditioner.coarsesolver.preconditioner.verbosity", Int(0)),
      Entry("preconditioner.coarsesolver.preconditioner.maxlevel", Int(15)),
      Entry("preconditioner.coarsesolver.preconditioner.skip_isolated", Int(0))
    ]
  }
  /** Every put setupCPR makes, in order. */
  function CprPuts(conf: string, p: FlowLinearSolverParameters): seq<Entry> {
    CprSolverPuts(p) + CprStagePuts(conf) + CprCoarseSolverPuts() + CprAmgPuts(p)
  }

  /** Every put setupILU makes, in order. */
  function IluPuts(p: FlowLinearSolverParameters): seq<Entry> {
    [
      Entry("tol", Real(p.linearSolverReduction)),
      Entry("maxiter", Int(p.linearSolverMaxIter)),
      Entry("verbosity", Int(p.linearSolverVerbosity)),
      Entry("solver", Str("bicgstab")),
      Entry("preconditioner.type", Str("ParOverILU0")),
      Entry("preconditioner.relaxation", Real(p.iluRelaxation)),
      Entry("preconditioner.ilulevel", Int(p.iluFillinLevel))
    ]
  }
  /** The solver puts, applied to any tree. */
  lemma CprSolverPutsEffect(t: Tree, p: FlowLinearSolverParameters)
    ensures PutAll(t, CprSolverPuts(p)) == t
      ["maxiter" := Int(p.linearSolverMaxIter)]
      ["tol" := Real(p.linearSolverReduction)]
      ["verbosity" := Int(p.linearSolverVerbosity)]
      ["solver" := Str("bicgstab")]
  {
    var e := CprSolverPuts(p);
    assert [] + [e[0]] == [e[0]];
    PutAllSnoc(t, [], e[0]);
    PutAllSnoc(t, [e[0]], e[1]);
    PutAllSnoc(t, [e[0]] + [e[1]], e[2]);
    PutAllSnoc(t, [e[0]] + [e[1]] + [e[2]], e[3]);
    assert e == [e[0]] + [e[1]] + [e[2]] + [e[3]];
  }
  /** The CPR stage puts, applied to any tree. */
  lemma CprStagePutsEffect(t: Tree, conf: string)
    ensures PutAll(t, CprStagePuts(conf)) == t
      ["preconditioner.type" := Str("cpr")]
      ["preconditioner.weight_type" := Str(if conf == QuasiImpesName then "quasiimpes" else "trueimpes")]
      ["preconditioner.finesmoother.type" := Str("ParOverILU0")]
      ["preconditioner.finesmoother.relaxation" := Real(1.0)]
      ["preconditioner.pressure_var_index" := Int(1)]
      ["preconditioner.verbosity" := Int(0)]
  {
    var e := CprStagePuts(conf);
    assert [] + [e[0]] == [e[0]];
    PutAllSnoc(t, [], e[0]);
    PutAllSnoc(t, [e[0]], e[1]);
    PutAllSnoc(t, [e[0]] + [e[1]], e[2]);
    PutAllSnoc(t, [e[0]] + [e[1]] + [e[2]], e[3]);
    PutAllSnoc(t, [e[0]] + [e[1]] + [e[2]] + [e[3]], e[4]);
    PutAllSnoc(t, [e[0]] + [e[1]] + [e[2]] + [e[3]] + [e[4]], e[5]);
    assert e == [e[0]] + [e[1]] + [e[2]] + [e[3]] + [e[4]] + [e[5]];
  }
  /** The coarse solver puts, applied to any tree. */
  lemma CprCoarseSolverPutsEffect(t: Tree)
    ensures PutAll(t, CprCoarseSolverPuts()) == t
      ["preconditioner.coarsesolver.maxiter" := Int(1)]
      ["preconditioner.coarsesolver.tol" := Real(1e-1)]
      ["preconditioner.coarsesolver.solver" := Str("loopsolver")]
      ["preconditioner.coarsesolver.verbosity" := Int(0)]
  {
    var e := CprCoarseSolverPuts();
    assert [] + [e[0]] == [e[0]];
    PutAllSnoc(t, [], e[0]);
    PutAllSnoc(t, [e[0]], e[1]);
    PutAllSnoc(t, [e[0]] + [e[1]], e[2]);
    PutAllSnoc(t, [e[0]] + [e[1]] + [e[2]], e[3]);
    assert e == [e[0]] + [e[1]] + [e[2]] + [e[3]];
  }
  /** The AMG puts, applied to any tree. */
  lemma CprAmgPutsEffect(t: Tree, p: FlowLinearSolverParameters)
    ensures PutAll(t, CprAmgPuts(p)) == t
      ["preconditioner.coarsesolver.preconditioner.type" := Str("amg")]
      ["preconditioner.coarsesolver.preconditioner.alpha" := Real(0.333333333333)]
      ["preconditioner.coarsesolver.preconditioner.relaxation" := Real(1.0)]
      ["preconditioner.coarsesolver.preconditioner.iterations" := Int(p.cprMaxEllIter)]
      ["preconditioner.coarsesolver.preconditioner.coarsenTarget" := Int(1200)]
      ["preconditioner.coarsesolver.preconditioner.pre_smooth" := Int(1)]
      ["preconditioner.coarsesolver.preconditioner.post_smooth" := Int(1)]
      ["preconditioner.coarsesolver.preconditioner.beta" := Real(1e-5)]
      ["preconditioner.coarsesolver.preconditioner.smoother" := Str("ILU0")]
      ["preconditioner.coarsesolver.preconditioner.verbosity" := Int(0)]
      ["preconditioner.coarsesolver.preconditioner.maxlevel" := Int(15)]
      ["preconditioner.coarsesolver.preconditioner.skip_isolated" := Int(0)]
  {
    var e := CprAmgPuts(p);
    assert [] + [e[0]] == [e[0]];
    PutAllSnoc(t, [], e[0]);
    PutAllSnoc(t, [e[0]], e[1]);
    PutAllSnoc(t, [e[0]] + [e[1]], e[2]);
    PutAllSnoc(t, [e[0]] + [e[1]] + [e[2]], e[3]);
    PutAllSnoc(t, [e[0]] + [e[1]] + [e[2]] + [e[3]], e[4]);
    PutAllSnoc(t, [e[0]] + [e[1]] + [e[2]] + [e[3]] + [e[4]], e[5]);
    PutAllSnoc(t, [e[0]] + [e[1]] + [e[2]] + [e[3]] + [e[4]] + [e[5]], e[6]);
    PutAllSnoc(t, [e[0]] + [e[1]] + [e[2]] + [e[3]] + [e[4]] + [e[5]] + [e[6]], e[7]);
    PutAllSnoc(t, [e[0]] + [e[1]] + [e[2]] + [e[3]] + [e[4]] + [e[5]] + [e[6]] + [e[7]], e[8]);
    PutAllSnoc(t, [e[0]] + [e[1]] + [e[2]] + [e[3]] + [e[4]] + [e[5]] + [e[6]] + [e[7]] + [e[8]], e[9]);
    PutAllSnoc(t, [e[0]] + [e[1]] + [e[2]] + [e[3]] + [e[4]] + [e[5]] + [e[6]] + [e[7]] + [e[8]] + [e[9]], e[10]);
    PutAllSnoc(t, [e[0]] + [e[1]] + [e[2]] + [e[3]] + [e[4]] + [e[5]] + [e[6]] + [e[7]] + [e[8]] + [e[9]] + [e[10]], e[11]);
    assert e == [e[0]] + [e[1]] + [e[2]] + [e[3]] + [e[4]] + [e[5]] + [e[6]] + [e[7]] + [e[8]] + [e[9]] + [e[10]] + [e[11]];
  }
  /** The ILU puts, applied to any tree. */
  lemma IluPutsEffect(t: Tree, p: FlowLinearSolverParameters)
    ensures PutAll(t, IluPuts(p)) == t
      ["tol" := Real(p.linearSolverReduction)]
      ["maxiter" := Int(p.linearSolverMaxIter)]
      ["verbosity" := Int(p.linearSolverVerbosity)]
      ["solver" := Str("bicgstab")]
      ["preconditioner.type" := Str("ParOverILU0")]
      ["preconditioner.relaxation" := Real(p.iluRelaxation)]
      ["preconditioner.ilulevel" := Int(p.iluFillinLevel)]
  {
    var e := IluPuts(p);
    assert [] + [e[0]] == [e[0]];
    PutAllSnoc(t, [], e[0]);
    PutAllSnoc(t, [e[0]], e[1]);
    PutAllSnoc(t, [e[0]] + [e[1]], e[2]);
    PutAllSnoc(t, [e[0]] + [e[1]] + [e[2]], e[3]);
    PutAllSnoc(t, [e[0]] + [e[1]] + [e[2]] + [e[3]], e[4]);
    PutAllSnoc(t, [e[0]] + [e[1]] + [e[2]] + [e[3]] + [e[4]], e[5]);
    PutAllSnoc(t, [e[0]] + [e[1]] + [e[2]] + [e[3]] + [e[4]] + [e[5]], e[6]);
    assert e == [e[0]] + [e[1]] + [e[2]] + [e[3]] + [e[4]] + [e[5]] + [e[6]];
  }
  /** The CPR table is the tree setupCPR's puts build from an empty tree. */
  lemma CprTreeIsPuts(conf: string, p: FlowLinearSolverParameters)
    ensures PutAll(map[], CprPuts(conf, p)) == CprTree(conf, p)
  {
    var s, st, c, a := CprSolverPuts(p), CprStagePuts(conf), CprCoarseSolverPuts(), CprAmgPuts(p);
    PutAllAppend(map[], s + st + c, a);
    PutAllAppend(map[], s + st, c);
    PutAllAppend(map[], s, st);
    CprSolverPutsEffect(map[], p);
    CprStagePutsEffect(PutAll(map[], s), conf);
    CprCoarseSolverPutsEffect(PutAll(map[], s + st));
    CprAmgPutsEffect(PutAll(map[], s + st + c), p);
  }

  /** The ILU table is the tree setupILU's puts build from an empty tree. */
  lemma IluTreeIsPuts(conf: string, p: FlowLinearSolverParameters)
    ensures PutAll(map[], IluPuts(p)) == IluTree(conf, p)
  {
    IluPutsEffect(map[], p);
  }

  /** setupCPR's puts write exactly the paths of `CprPaths`, in order. */
  lemma CprPutPaths(conf: string, p: FlowLinearSolverParameters)
    ensures Paths(CprPuts(conf, p)) == CprPaths
  {
    var s, st, c, a := CprSolverPuts(p), CprStagePuts(conf), CprCoarseSolverPuts(), CprAmgPuts(p);
    PathsAppend(s + st + c, a);
    PathsAppend(s + st, c);
    PathsAppend(s, st);
  }

  /** setupILU's puts write exactly the paths of `IluPaths`, in order. */
  lemma IluPutPaths(p: FlowLinearSolverParameters)
    ensures Paths(IluPuts(p)) == IluPaths
  {
  }

  /** No put of setupCPR is overwritten: every value it puts is the value
      found at that path in the finished tree. */
  lemma CprEveryPutKept(conf: string, p: FlowLinearSolverParameters)
    ensures forall i :: 0 <= i < |CprPuts(conf, p)| ==>
      CprTree(conf, p)[CprPuts(conf, p)[i].path] == CprPuts(conf, p)[i].value
  {
    CprTreeIsPuts(conf, p);
    CprPutPaths(conf, p);
    CprPathsDistinct();
    PutAllDistinctValues(map[], CprPuts(conf, p));
  }

  /** No put of setupILU is overwritten. */
  lemma IluEveryPutKept(conf: string, p: FlowLinearSolverParameters)
    ensures forall i :: 0 <= i < |IluPuts(p)| ==>
      IluTree(conf, p)[IluPuts(p)[i].path] == IluPuts(p)[i].value
  {
    IluTreeIsPuts(conf, p);
    IluPutPaths(p);
    IluPathsDistinct();
    PutAllDistinctValues(map[], IluPuts(p));
  }

  // ---------------------------------------------------------------------
  // Properties of the CPR configuration
  // ---------------------------------------------------------------------

  /** The CPR tree always holds the same 26 distinct paths. */
  lemma CprKeyCount(conf: string, p: FlowLinearSolverParameters)
    ensures CprTree(conf, p).Keys == PathSet(CprPaths)
    ensures |CprTree(conf, p)| == 26
  {
    CprPathsDistinct();
    DistinctPathCount(CprPaths);
  }

  /** Neither the name nor the parameters change which paths are written. */
  lemma CprKeysIndependentOfInput(c1: string, p1: FlowLinearSolverParameters,
                                  c2: string, p2: FlowLinearSolverParameters)
    ensures CprTree(c1, p1).Keys == CprTree(c2, p2).Keys
  {
  }

  /** The outer solver is BiCGStab, whatever the name or parameters. */
  lemma CprSolverIsBiCGStab(conf: string, p: FlowLinearSolverParameters)
    ensures CprTree(conf, p)["solver"] == Str("bicgstab")
  {
  }

  /** The outer solver runs with the caller's iteration limit, tolerance and
      verbosity. */
  lemma CprCopiesSolverParams(conf: string, p: FlowLinearSolverParameters)
    ensures CprTree(conf, p)["maxiter"] == Int(p.linearSolverMaxIter)
    ensures CprTree(conf, p)["tol"] == Real(p.linearSolverReduction)
    ensures CprTree(conf, p)["verbosity"] == Int(p.linearSolverVerbosity)
  {
  }

  /** Quasi-IMPES weights exactly for "cpr_quasiimpes"; true-IMPES weights
      for every other name, including "cpr" and names nobody recognises. */
  lemma CprWeightType(conf: string, p: FlowLinearSolverParameters)
    ensures CprTree(conf, p)[WeightType] == Str("quasiimpes") <==> conf == "cpr_quasiimpes"
    ensures CprTree(conf, p)[WeightType] == Str("trueimpes") <==> conf != "cpr_quasiimpes"
  {
  }

  /** Two names give trees that differ at most at the weight type. */
  lemma CprConfOnlyAffectsWeightType(c1: string, c2: string, p: FlowLinearSolverParameters)
    ensures forall k :: k in CprTree(c1, p) && k != WeightType ==> CprTree(c1, p)[k] == CprTree(c2, p)[k]
  {
  }

  /** Two parameter bundles give trees that differ at most at the four paths
      copied from the bundle. */
  lemma CprParamsOnlyAffectCopiedPaths(conf: string, p1: FlowLinearSolverParameters,
                                       p2: FlowLinearSolverParameters)
    ensures forall k :: k in CprTree(conf, p1) && k !in CprParamPaths ==>
      CprTree(conf, p1)[k] == CprTree(conf, p2)[k]
  {
  }

  /** Two parameter bundles give the same tree exactly when they agree on the
      four fields that setupCPR copies. */
  lemma CprTreeDeterminesCopiedParams(conf: string, p1: FlowLinearSolverParameters,
                                      p2: FlowLinearSolverParameters)
    ensures CprTree(conf, p1) == CprTree(conf, p2) <==>
      && p1.linearSolverMaxIter == p2.linearSolverMaxIter
      && p1.linearSolverReduction == p2.linearSolverReduction
      && p1.linearSolverVerbosity == p2.linearSolverVerbosity
      && p1.cprMaxEllIter == p2.cprMaxEllIter
  {
    if CprTree(conf, p1) == CprTree(conf, p2) {
      CprCopiesSolverParams(conf, p1);
      CprCopiesSolverParams(conf, p2);
      CprAmgSettings(conf, p1);
      CprAmgSettings(conf, p2);
    }
  }

  /** The AMG preconditioner of the coarse stage: the caller's iteration
      count, everything else fixed. */
  lemma CprAmgSettings(conf: string, p: FlowLinearSolverParameters)
    ensures CprTree(conf, p)[AmgIterations] == Int(p.cprMaxEllIter)
    ensures CprTree(conf, p)["preconditioner.coarsesolver.preconditioner.type"] == Str("amg")
    ensures CprTree(conf, p)["preconditioner.coarsesolver.preconditioner.coarsenTarget"] == Int(1200)
    ensures CprTree(conf, p)["preconditioner.coarsesolver.preconditioner.maxlevel"] == Int(15)
    ensures CprTree(conf, p)["preconditioner.coarsesolver.preconditioner.pre_smooth"] == Int(1)
    ensures CprTree(conf, p)["preconditioner.coarsesolver.preconditioner.post_smooth"] == Int(1)
    ensures CprTree(conf, p)["preconditioner.coarsesolver.preconditioner.smoother"] == Str("ILU0")
    ensures CprTree(conf, p)["preconditioner.coarsesolver.preconditioner.skip_isolated"] == Int(0)
    ensures CprTree(conf, p)["preconditioner.coarsesolver.preconditioner.relaxation"] == Real(1.0)
    ensures CprTree(conf, p)["preconditioner.coarsesolver.preconditioner.alpha"] == Real(0.333333333333)
    ensures CprTree(conf, p)["preconditioner.coarsesolver.preconditioner.beta"] == Real(1e-5)
    ensures CprTree(conf, p)["preconditioner.coarsesolver.preconditioner.verbosity"] == Int(0)
  {
  }

  /** The CPR stage itself: pressure is primary variable 1, and the stage is
      silent. */
  lemma CprStageSettings(conf: string, p: FlowLinearSolverParameters)
    ensures CprTree(conf, p)["preconditioner.type"] == Str("cpr")
    ensures CprTree(conf, p)["preconditioner.pressure_var_index"] == Int(1)
    ensures CprTree(conf, p)["preconditioner.verbosity"] == Int(0)
  {
  }

  /** The fine-level smoother is overlapping ILU(0) with relaxation 1. */
  lemma CprFineSmoother(conf: string, p: FlowLinearSolverParameters)
    ensures CprTree(conf, p)["preconditioner.finesmoother.type"] == Str("ParOverILU0")
    ensures CprTree(conf, p)["preconditioner.finesmoother.relaxation"] == Real(1.0)
  {
  }

  /** The coarse stage is a silent loop solver doing one iteration to a
      relative tolerance of 0.1. */
  lemma CprCoarseSolver(conf: string, p: FlowLinearSolverParameters)
    ensures CprTree(conf, p)["preconditioner.coarsesolver.solver"] == Str("loopsolver")
    ensures CprTree(conf, p)["preconditioner.coarsesolver.maxiter"] == Int(1)
    ensures CprTree(conf, p)["preconditioner.coarsesolver.tol"] == Real(1e-1)
    ensures CprTree(conf, p)["preconditioner.coarsesolver.verbosity"] == Int(0)
  {
  }

  // ---------------------------------------------------------------------
  // Properties of the ILU configuration
  // ---------------------------------------------------------------------

  /** The name passed to setupILU is ignored. */
  lemma IluIgnoresConf(c1: string, c2: string, p: FlowLinearSolverParameters)
    ensures IluTree(c1, p) == IluTree(c2, p)
  {
  }

  /** The ILU tree holds exactly seven distinct paths. */
  lemma IluKeyCount(conf: string, p: FlowLinearSolverParameters)
    ensures IluTree(conf, p).Keys == PathSet(IluPaths)
    ensures |IluTree(conf, p)| == 7
  {
    IluPathsDistinct();
    DistinctPathCount(IluPaths);
  }

  /** BiCGStab with the caller's settings, preconditioned by overlapping ILU
      with the caller's relaxation and fill-in level. */
  lemma IluSettings(conf: string, p: FlowLinearSolverParameters)
    ensures IluTree(conf, p)["maxiter"] == Int(p.linearSolverMaxIter)
    ensures IluTree(conf, p)["tol"] == Real(p.linearSolverReduction)
    ensures IluTree(conf, p)["verbosity"] == Int(p.linearSolverVerbosity)
    ensures IluTree(conf, p)["solver"] == Str("bicgstab")
    ensures IluTree(conf, p)["preconditioner.type"] == Str("ParOverILU0")
    ensures IluTree(conf, p)["preconditioner.relaxation"] == Real(p.iluRelaxation)
    ensures IluTree(conf, p)["preconditioner.ilulevel"] == Int(p.iluFillinLevel)
  {
  }

  /** The ILU and CPR trees share only the four solver paths and the
      preconditioner type. */
  lemma IluSharesOnlySolverPathsWithCpr(c1: string, p: FlowLinearSolverParameters,
                                        c2: string, q: FlowLinearSolverParameters)
    ensures IluTree(c1, p).Keys * CprTree(c2, q).Keys
      == {"maxiter", "tol", "verbosity", "solver", "preconditioner.type"}
  {
  }

  /** In particular neither the weight type nor anything under the coarse
      solver is written by setupILU. */
  lemma IluHasNoCprOnlyPaths(conf: string, p: FlowLinearSolverParameters)
    ensures WeightType !in IluTree(conf, p)
    ensures forall k :: k in IluTree(conf, p) ==> !(CoarseSolverPrefix <= k)
  {
  }

}
