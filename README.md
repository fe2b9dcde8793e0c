# Linear-solver configuration builders of OPM Flow

OPM Flow's reservoir simulator configures its linear solver with a key-value
tree, a `boost::property_tree::ptree`. Two builders produce that tree from the
solver parameter bundle (`FlowLinearSolverParameters`) and a configuration
name:

- `setupCPR` builds a two-stage configuration. The outer solver is BiCGStab.
  It is preconditioned by CPR (constrained pressure residual). CPR smooths the
  fine level with overlapping ILU(0). Its coarse pressure stage is a loop
  solver preconditioned by algebraic multigrid (AMG).
- `setupILU` builds a single-stage configuration: BiCGStab preconditioned by
  overlapping ILU, with the relaxation and fill-in level the caller chooses.

This project models both builders and proves what the tree holds.

- `property_tree.dfy` (module `PropertyTree`) models the tree as a finite map
  from the full dotted path of each key to a tagged value: text, integer, or
  a decimal constant. `put(path, v)` is the map update `t[path := v]`, and
  `PutAll` applies a sequence of puts in order. The module proves what a
  sequence of puts leaves behind: which keys exist, that a path nobody
  writes keeps its value, and that when no path is written twice every put
  survives. It also proves that a list of paths with no duplicates names
  exactly as many distinct keys as it has entries.
- `setup_paths.dfy` (module `SetupPaths`) lists the paths each builder
  writes, in source order, and proves that neither builder writes a path
  twice.
- `setup_property_tree.dfy` (module `SetupPropertyTree`) holds the parameter
  bundle as a datatype, the two reference tables `CprTree` and `IluTree`,
  and the puts of each builder as sequences (`CprPuts`, `IluPuts`). It holds
  the two builders as methods. Each method starts from an empty map and
  makes one update per `put` in source order, with the single `if` on the
  name. Each method is proved to return its reference table, and each table
  is proved to be what its sequence of puts builds from an empty tree.
  Lemmas state the properties of the tables: which paths exist, which
  values are copied from the parameters, which values depend on the name,
  and which are fixed constants.

What the builders do not do:

- `setupCPR` rejects no name. Every name other than `"cpr_quasiimpes"`,
  including `"cpr"` and unknown names, gets true-IMPES weights
  (`CprWeightType`), and `setupILU` ignores the name (`IluIgnoresConf`).
- No parameter is range-checked; negative iteration counts or tolerances are
  copied into the tree as they are.
- The AMG coarsening target and maximum level are the literals 1200 and 15.
- `alpha` is the literal `0.333333333333`, not 1/3, and the model keeps that
  literal.

## Model

| member | source | states |
|---|---|---|
| `SetupPropertyTree.SetupCPR` | opm/simulators/linalg/setupPropertyTree.cpp:30-65 | The tree returned is exactly the CPR table `CprTree(conf, p)`. Its keys, values and dependence on the name are stated by the `Cpr` lemmas below. |
| `SetupPropertyTree.SetupILU` | opm/simulators/linalg/setupPropertyTree.cpp:67-79 | The tree returned is exactly the ILU table `IluTree(conf, p)`, with the 7 paths of `IluPaths`. |
| `PropertyTree.PutAllSnoc` | opm/simulators/linalg/setupPropertyTree.cpp:33-64 | One more `put` after a sequence of puts updates that one path of the tree built so far. |
| `PropertyTree.PutAllAppend` | opm/simulators/linalg/setupPropertyTree.cpp:33-64 | Two runs of puts one after the other act as a single run of their concatenation. |
| `PropertyTree.PutAllKeys` | opm/simulators/linalg/setupPropertyTree.cpp:33-64 | After a sequence of puts the tree holds exactly its earlier keys plus every path written; `put` never removes a key. |
| `PropertyTree.PutAllKeepsOthers` | opm/simulators/linalg/setupPropertyTree.cpp:33-64 | A path that no put writes keeps the value it had before. |
| `PropertyTree.PutAllDistinctValues` | opm/simulators/linalg/setupPropertyTree.cpp:33-64 | When no path is written twice, every put's value is the value at its path afterwards. |
| `PropertyTree.PutAllSize` | opm/simulators/linalg/setupPropertyTree.cpp:33-64 | Puts to distinct paths into an empty tree give a tree with one key per put. |
| `PropertyTree.NoDuplicatesAppend` | opm/simulators/linalg/setupPropertyTree.cpp:34-63 | Two lists of paths without repeats and with no path in common concatenate to a list without repeats. |
| `PropertyTree.DistinctPathCount` | opm/simulators/linalg/setupPropertyTree.cpp:34-63 | A list of paths without repeats has as many distinct paths as entries. |
| `SetupPaths.CprOuterPathsDistinct` | opm/simulators/linalg/setupPropertyTree.cpp:34-47 | The ten outer-solver and CPR-stage paths are distinct. |
| `SetupPaths.CprCoarsePathsDistinct` | opm/simulators/linalg/setupPropertyTree.cpp:48-63 | The sixteen coarse-stage paths are distinct. |
| `SetupPaths.CprOuterAndCoarsePathsDisjoint` | opm/simulators/linalg/setupPropertyTree.cpp:34-63 | No coarse-stage path is also an outer-solver or CPR-stage path. |
| `SetupPaths.CprPathsDistinct` | opm/simulators/linalg/setupPropertyTree.cpp:34-63 | `setupCPR` writes 26 puts, each to a different path, so no put overwrites an earlier one. |
| `SetupPaths.IluPathsDistinct` | opm/simulators/linalg/setupPropertyTree.cpp:70-78 | `setupILU` writes 7 puts, each to a different path. |
| `SetupPropertyTree.CprSolverPutsEffect` | opm/simulators/linalg/setupPropertyTree.cpp:34-37 | Applied to any tree, the outer-solver puts set `maxiter`, `tol` and `verbosity` from the bundle and `solver` to `"bicgstab"`, in that order. |
| `SetupPropertyTree.CprStagePutsEffect` | opm/simulators/linalg/setupPropertyTree.cpp:38-47 | Applied to any tree, the CPR-stage puts set the type, the weight type chosen by the name, the fine smoother, the pressure variable and the verbosity, in that order. |
| `SetupPropertyTree.CprCoarseSolverPutsEffect` | opm/simulators/linalg/setupPropertyTree.cpp:48-51 | Applied to any tree, the coarse-solver puts set the loop solver's iteration limit, tolerance, name and verbosity, in that order. |
| `SetupPropertyTree.CprAmgPutsEffect` | opm/simulators/linalg/setupPropertyTree.cpp:52-63 | Applied to any tree, the AMG puts set the twelve AMG settings, in that order. |
| `SetupPropertyTree.IluPutsEffect` | opm/simulators/linalg/setupPropertyTree.cpp:70-78 | Applied to any tree, the ILU puts set the seven ILU settings, in that order. |
| `SetupPropertyTree.CprTreeIsPuts` | opm/simulators/linalg/setupPropertyTree.cpp:33-64 | The CPR table is exactly the tree that `setupCPR`'s 26 puts build from an empty tree. |
| `SetupPropertyTree.IluTreeIsPuts` | opm/simulators/linalg/setupPropertyTree.cpp:69-78 | The ILU table is exactly the tree that `setupILU`'s 7 puts build from an empty tree. |
| `SetupPropertyTree.CprPutPaths` | opm/simulators/linalg/setupPropertyTree.cpp:34-63 | `setupCPR`'s puts write the paths of `CprPaths`, in that order. |
| `SetupPropertyTree.IluPutPaths` | opm/simulators/linalg/setupPropertyTree.cpp:70-78 | `setupILU`'s puts write the paths of `IluPaths`, in that order. |
| `SetupPropertyTree.CprEveryPutKept` | opm/simulators/linalg/setupPropertyTree.cpp:34-63 | Every value `setupCPR` puts is the value at that path in the returned tree. |
| `SetupPropertyTree.IluEveryPutKept` | opm/simulators/linalg/setupPropertyTree.cpp:70-78 | Every value `setupILU` puts is the value at that path in the returned tree. |
| `SetupPropertyTree.CprKeyCount` | opm/simulators/linalg/setupPropertyTree.cpp:33-64 | For every name and parameter bundle, the CPR tree's keys are exactly the 26 paths written, and there are 26 of them. |
| `SetupPropertyTree.CprKeysIndependentOfInput` | opm/simulators/linalg/setupPropertyTree.cpp:33-64 | Any two inputs (names and parameter bundles) give CPR trees with the same set of keys. |
| `SetupPropertyTree.CprSolverIsBiCGStab` | opm/simulators/linalg/setupPropertyTree.cpp:37 | `solver` is `"bicgstab"` for every input. |
| `SetupPropertyTree.CprCopiesSolverParams` | opm/simulators/linalg/setupPropertyTree.cpp:34-36 | `maxiter`, `tol` and `verbosity` equal the bundle's `linear_solver_maxiter_`, `linear_solver_reduction_` and `linear_solver_verbosity_`. |
| `SetupPropertyTree.CprWeightType` | opm/simulators/linalg/setupPropertyTree.cpp:39-43 | `preconditioner.weight_type` is `"quasiimpes"` if and only if the name is `"cpr_quasiimpes"`. It is `"trueimpes"` if and only if the name is anything else, including `"cpr"` and unknown names. |
| `SetupPropertyTree.CprConfOnlyAffectsWeightType` | opm/simulators/linalg/setupPropertyTree.cpp:34-63 | With the same parameters, two names give CPR trees that agree at every path except `preconditioner.weight_type`. |
| `SetupPropertyTree.CprParamsOnlyAffectCopiedPaths` | opm/simulators/linalg/setupPropertyTree.cpp:34-63 | With the same name, two parameter bundles give CPR trees that agree at every path except `maxiter`, `tol`, `verbosity` and `preconditioner.coarsesolver.preconditioner.iterations`. |
| `SetupPropertyTree.CprTreeDeterminesCopiedParams` | opm/simulators/linalg/setupPropertyTree.cpp:34-55 | With the same name, two bundles give equal CPR trees if and only if they agree on the iteration limit, the tolerance, the verbosity and `cpr_max_ell_iter_`. |
| `SetupPropertyTree.CprStageSettings` | opm/simulators/linalg/setupPropertyTree.cpp:38-47 | The preconditioner type is `"cpr"`, `pressure_var_index` is 1 and the stage verbosity is 0. |
| `SetupPropertyTree.CprFineSmoother` | opm/simulators/linalg/setupPropertyTree.cpp:44-45 | The fine smoother is `"ParOverILU0"` with relaxation 1.0. |
| `SetupPropertyTree.CprCoarseSolver` | opm/simulators/linalg/setupPropertyTree.cpp:48-51 | The coarse solver is `"loopsolver"` with `maxiter` 1, `tol` 0.1 and `verbosity` 0. |
| `SetupPropertyTree.CprAmgSettings` | opm/simulators/linalg/setupPropertyTree.cpp:52-63 | The coarse solver's preconditioner is AMG, and `iterations` equals `cpr_max_ell_iter_`. The other AMG settings are fixed: coarsenTarget 1200, maxlevel 15, one pre- and one post-smoothing step, ILU0 smoother, skip_isolated 0, relaxation 1.0, alpha 0.333333333333, beta 1e-5, verbosity 0. |
| `SetupPropertyTree.IluIgnoresConf` | opm/simulators/linalg/setupPropertyTree.cpp:68 | With the same parameters, any two names give identical ILU trees. |
| `SetupPropertyTree.IluKeyCount` | opm/simulators/linalg/setupPropertyTree.cpp:70-78 | The ILU tree's keys are exactly its 7 paths, and there are 7 of them. |
| `SetupPropertyTree.IluSettings` | opm/simulators/linalg/setupPropertyTree.cpp:71-77 | The outer solver is BiCGStab, and `maxiter`, `tol` and `verbosity` are copied from the bundle. The preconditioner is `"ParOverILU0"` with `ilu_relaxation_` and `ilu_fillin_level_`. |
| `SetupPropertyTree.IluSharesOnlySolverPathsWithCpr` | opm/simulators/linalg/setupPropertyTree.cpp:70-78 | The ILU and CPR trees share exactly five paths: `maxiter`, `tol`, `verbosity`, `solver` and `preconditioner.type`. |
| `SetupPropertyTree.IluHasNoCprOnlyPaths` | opm/simulators/linalg/setupPropertyTree.cpp:70-78 | The ILU tree has no `preconditioner.weight_type`, and none of its paths starts with `preconditioner.coarsesolver.`. |

## Left out

- Value text: a real `ptree` stores each value as text, written by a stream translator. The model does not do this conversion, so the precision with which doubles are printed is not modelled.
- Floating point: doubles are modelled as exact reals. Constants such as `0.333333333333` and `1e-5` are kept as the decimals written in the code, not rounded to binary64. NaN and infinities cannot be represented.
- Tree layout: `ptree` splits a dotted path into nested child nodes and keeps children in insertion order. The model keys a flat map by the full dotted path, so nesting and order are not captured. No path is written twice (`SetupPaths.CprPathsDistinct`, `SetupPaths.IluPathsDistinct`), so every put survives into the final tree (`CprEveryPutKept`, `IluEveryPutKept`).
- Only the six fields of `FlowLinearSolverParameters` that the builders read are modelled. Its other fields, and how they are set, are not. Their C++ integer width plays no part, because the builders copy the values unchanged.
- Name dispatch: choosing between `setupCPR` and `setupILU` from a name happens outside `setupPropertyTree.cpp` and is not part of this model.
- The solvers: BiCGStab, CPR, AMG and ILU are floating-point numerics in files that are not part of this model.
- examples/sim_fibo_ad_cp.cpp: a `main` program that does deck parsing, grid construction, file output, MPI setup, and delegation to the simulator and wells manager. None of that code is part of this model.
- tests/test_wellsgroup.cpp: tests of well-group construction from parser objects. The code under test is not part of this model.
