/** The paths the two linear-solver configuration builders write, in the
    order they write them, and the fact that neither builder writes a path
    twice. */
module SetupPaths {
  import opened PropertyTree

  /** The paths setupCPR writes for the outer solver and for the CPR stage,
      in the order it writes them. None lies under the coarse solver. */
  const CprOuterPaths: seq<string> := [
    "maxiter", "tol", "verbosity", "solver",
    "preconditioner.type",
    "preconditioner.weight_type",
    "preconditioner.finesmoother.type",
    "preconditioner.finesmoother.relaxation",
    "preconditioner.pressure_var_index",
    "preconditioner.verbosity"
  ]

  /** The paths setupCPR writes for the coarse pressure stage, in the order
      it writes them. All lie under the coarse solver. */
  const CprCoarsePaths: seq<string> := [
    "preconditioner.coarsesolver.maxiter",
    "preconditioner.coarsesolver.tol",
    "preconditioner.coarsesolver.solver",
    "preconditioner.coarsesolver.verbosity",
    "preconditioner.coarsesolver.preconditioner.type",
    "preconditioner.coarsesolver.preconditioner.alpha",
    "preconditioner.coarsesolver.preconditioner.relaxation",
    "preconditioner.coarsesolver.preconditioner.iterations",
    "preconditioner.coarsesolver.preconditioner.coarsenTarget",
    "preconditioner.coarsesolver.preconditioner.pre_smooth",
    "preconditioner.coarsesolver.preconditioner.post_smooth",
    "preconditioner.coarsesolver.preconditioner.beta",
    "preconditioner.coarsesolver.preconditioner.smoother",
    "preconditioner.coarsesolver.preconditioner.verbosity",
    "preconditioner.coarsesolver.preconditioner.maxlevel",
    "preconditioner.coarsesolver.preconditioner.skip_isolated"
  ]

  /** Every path setupCPR writes, in the order it writes them. */
  const CprPaths: seq<string> := CprOuterPaths + CprCoarsePaths

  /** Every path setupILU writes, in the order it writes them. */
  const IluPaths: seq<string> := [
    "tol", "maxiter", "verbosity", "solver",
    "preconditioner.type",
    "preconditioner.relaxation",
    "preconditioner.ilulevel"
  ]

  /** The outer and CPR-stage paths are distinct. */
  lemma CprOuterPathsDistinct()
    ensures NoDuplicates(CprOuterPaths)
  {
  }

  /** The coarse-stage paths are distinct. */
  lemma CprCoarsePathsDistinct()
    ensures NoDuplicates(CprCoarsePaths)
  {
  }

  /** No coarse-stage path is also an outer or CPR-stage path. */
  lemma CprOuterAndCoarsePathsDisjoint()
    ensures forall k :: k in CprOuterPaths ==> k !in CprCoarsePaths
  {
  }

  /** setupCPR writes each of its 26 paths once, so no put overwrites an
      earlier one. */
  lemma CprPathsDistinct()
    ensures NoDuplicates(CprPaths) && |CprPaths| == 26
  {
    CprOuterPathsDistinct();
    CprCoarsePathsDistinct();
    CprOuterAndCoarsePathsDisjoint();
    NoDuplicatesAppend(CprOuterPaths, CprCoarsePaths);
  }

  /** setupILU writes each of its 7 paths once. */
  lemma IluPathsDistinct()
    ensures NoDuplicates(IluPaths) && |IluPaths| == 7
  {
  }
}
