# Two-stage stochastic parts-ordering model

The script `Model.py` sets up a two-stage stochastic program with recourse and hands
it to an external solver. In the first stage, parts are preordered at m sites at cost
`b[j]`. Then one of two equally likely demand scenarios happens. In the second stage,
each of n warehouses produces `z[i,k]` units, at most its demand `d[i,k]`. Each unit
uses `A[i,j]` parts of site j and has net cost `c[i] = l[i] - q[i]`, the additional
cost minus the selling price. Parts left over at a site, `y[j,k]`, are salvaged at
`s[j]` each.

This project models the parts of the script that are pure computation:

- `salvage.dfy` (module `SalvageRepair`): the repair pass over the sampled salvage
  values. Any value not below its preorder cost becomes `b[j] - 10`. It is modelled
  as an in-place loop over an array (`RepairSalvage`) and proved against the
  pure function `RepairedAll`.
- `shaping.dfy` (module `DataShaping`): the row-major `reshape` of the flat
  requirement and demand samples, its inverse `Flatten`, and the net cost `c = l - q`.
- `formulation.dfy` (module `Formulation`): the program itself as checkable
  definitions. `Feasible` is the conjunction of the script's named equations, and
  `Objective` is the first-stage order cost plus the probability-weighted
  second-stage cost.
- `setup.dfy` (module `Setup`): how the sampled vectors become the parameters of
  the program (`BuildInstance`), and what the sampling ranges guarantee about the
  result.
- `linear.dfy` (module `Linear`): vectors and matrices as sequences, the inner
  product `Dot` that every `Sum(i, u[i] * v[i])` of the script is written with, and
  its algebra.

Parameters are integers, as the script samples them. Decision variables,
probabilities and the objective are `real`; the scenario weights are exactly 1/2.
The formulation is written for any number of scenarios `|p|`. `BuildInstance` fixes
that number to 2, as the script does.

Salvage values can be negative: the repair pass writes `b[j] - 10`, which is below 0
when `b[j] < 10`. The model follows the code, and `RepairedRange` pins the result to
[-10, 10).

The number of scenarios is the constant `Formulation.NoScen = 2` (Model.py:8).
`ScenarioProbabilities` has exactly `NoScen` entries, and `BuildInstance` reshapes the
demand samples to `NoScen` columns.

## Model

| member | source | states |
|---|---|---|
| `SalvageRepair.Repaired` | Model.py:26-27 | one site's repaired salvage value is below its preorder cost; it keeps its value exactly when that value was already below the cost, and otherwise becomes cost - 10 |
| `SalvageRepair.RepairedAll` | Model.py:25-27 | after the pass, every site's salvage value is below its preorder cost; entries already below are unchanged; every offending entry becomes exactly `b[j] - 10` |
| `SalvageRepair.RepairSalvage` | Model.py:25-27 | the in-place loop leaves the salvage array equal to `RepairedAll` of its old contents, leaves the cost array unchanged, and leaves `s[j] < b[j]` at every site |
| `SalvageRepair.RepairIdempotent` | Model.py:25-27 | running the repair pass a second time changes nothing |
| `SalvageRepair.RepairedRange` | Model.py:15-27 | with costs sampled from [0,20) and salvage values from [0,10), every repaired value lies in [-10,10), and every overwritten value lies in [-10,-1] |
| `DataShaping.RowMajor` | Model.py:21-22 | the row-major position of entry (i,j) of a rows x cols matrix lies inside the flat vector of length rows*cols |
| `DataShaping.Reshape` | Model.py:21-22 | reshaping a vector of length rows*cols gives `rows` rows of `cols` entries each |
| `DataShaping.ReshapeRowMajor` | Model.py:21-22 | entry (i,j) of the reshaped matrix is entry `i*cols + j` of the flat vector |
| `DataShaping.FlattenReshape` | Model.py:21-22 | the reshape loses nothing: flattening the reshaped matrix gives the flat vector back |
| `DataShaping.ReshapeFlatten` | Model.py:21-22 | every rows x cols matrix is the reshape of its flattening, which has length rows*cols |
| `DataShaping.NetCost` | Model.py:43 | the net cost vector has one entry per warehouse, equal to the additional cost minus the selling price |
| `Formulation.Usage` | Model.py:54 | definition: the parts of site j used under scenario k, `Sum(i, A[i,j] * z[i,k])`, as the inner product of column j of A with column k of z |
| `Formulation.NeedConstraint` | Model.py:53-54 | definition of `need_constraint`: for every site j and scenario k, `y[j,k] = x[j] - Usage(j,k)` |
| `Formulation.NonNegativeOrder` | Model.py:56-57 | definition of `non_negative_order_constraint`: every `x[j] >= 0` |
| `Formulation.NonNegativeInventory` | Model.py:59-60 | definition of `non_negative_inventory_constraint`, which `inventory_salvage_constraint` (Model.py:68-69) repeats: every `y[j,k] >= 0` |
| `Formulation.NonNegativeProduction` | Model.py:62-63 | definition of `non_negative_production_constraint`: every `z[i,k] >= 0` |
| `Formulation.ProductionNeed` | Model.py:65-66 | definition of `production_need_constraint`: every `z[i,k] <= d[i,k]` |
| `Formulation.Feasible` | Model.py:53-69 | definition: the point has the model's dimensions and satisfies all the equations above; `FeasibleCharacterization` restates it without `y` |
| `Formulation.Recourse` | Model.py:71-73 | definition: the second-stage cost of scenario k, `Sum(i, c[i] * z[i,k]) - Sum(j, s[j] * y[j,k])` |
| `Formulation.Objective` | Model.py:74 | definition: `Sum(j, b[j] * x[j]) + Sum(k, Recourse(k) * p[k])` |
| `Formulation.FeasibleUsageBounds` | Model.py:53-66 | in a feasible point with nonnegative requirements, each site's usage in each scenario lies between 0 and that site's order |
| `Formulation.ScenarioProbabilities` | Model.py:44 | there are two scenario probabilities; each is positive, and they sum to 1 |
| `Formulation.ObjectiveTwoScenarios` | Model.py:44-74 | with probabilities 1/2 and 1/2, the objective is the order cost plus half the second-stage cost (production cost minus salvage value) of each scenario |
| `Formulation.FeasibleCharacterization` | Model.py:53-69 | a point is feasible if and only if: its inventory is orders minus parts used, for every site and scenario; orders and production are nonnegative; production is within demand; and every site's order covers its usage in every scenario |
| `Formulation.InventoryDetermined` | Model.py:54 | two feasible points with the same orders and production are the same point, so inventory is not a free variable |
| `Formulation.ProductionWithinDemand` | Model.py:62-66 | in a feasible point, `0 <= z[i,k] <= d[i,k]`, so if every demand is 0 then production is the zero matrix |
| `Formulation.ZeroPointFeasible` | Model.py:53-74 | when all demands are nonnegative, ordering, keeping and producing nothing is feasible, and its objective value is 0 |
| `Formulation.NoOrderAndSalvageArbitrage` | Model.py:53-74 | when every salvage value is below its preorder cost, ordering x and producing nothing is feasible; its objective is the order cost minus the salvage value of x, which is never negative and is positive once anything is ordered (this is what the repair pass guards against) |
| `Formulation.MidpointFeasible` | Model.py:53-69 | the feasible set of the program is convex: the point halfway between two feasible points is feasible |
| `Formulation.RecourseOfMidpoint` | Model.py:71-73 | each scenario's second-stage cost at the midpoint of two points is the average of their second-stage costs |
| `Formulation.ObjectiveOfMidpoint` | Model.py:71-74 | the objective is affine: its value at the midpoint of two points is the average of its two values |
| `Setup.BuildInstance` | Model.py:38-45 | the bound parameters are well shaped (n x m requirements, n x 2 demands), carry the given costs, `c[i] = l[i] - q[i]`, and the probabilities 1/2 and 1/2 |
| `Setup.BuiltMatrices` | Model.py:21-22 | the bound requirement and demand matrices hold the flat samples in row-major order |
| `Setup.GeneratedShapes` | Model.py:17-22 | sampled requirements in [0,10) and demands in [0,15) keep those ranges once reshaped |
| `Setup.GeneratedInstance` | Model.py:13-27 | a generated and repaired instance has nonnegative requirements and demands, salvage values in [-10,10) that are below cost, and net costs `l[i] - q[i]` in [-449,99]; its all-zero point is feasible with objective value 0 |
| `Setup.RecourseInPrices` | Model.py:43-73 | each scenario's second-stage cost is the additional production cost, minus the sales revenue, minus the salvage value |
| `Setup.ObjectiveInPrices` | Model.py:43-74 | the objective equals `sum_j b[j]x[j] + sum_k 1/2 (sum_i (l[i]-q[i]) z[i,k] - sum_j s[j] y[j,k])` |

## Left out

- Reading m and n from the console (Model.py:6-7): this is I/O. The model takes the numbers of sites and warehouses as parameters, and they may be zero.
- Random sampling with numpy (Model.py:13-18): this is a foreign pseudo-random generator. The sampling ranges appear as preconditions of `Setup.GeneratedInstance`, `Setup.GeneratedShapes` and `SalvageRepair.RepairedRange`.
- Building the gamspy container, sets, parameters, variables and equations, and solving (Model.py:30-79): the solver is external. The model stops at what a feasible point is and what it costs. Nothing is stated about optimality of the solver's answer.
- The `problem='MIP'` label (Model.py:76): every variable is declared continuous and nonnegative, so no integrality is modelled.
- The second copy of the `y >= 0` constraint (Model.py:69): it repeats Model.py:60, so `NonNegativeInventory` models both.
- Labels and printing (Model.py:9-10, Model.py:33-35, Model.py:82-84): presentation only.
- Floating-point arithmetic of the solved values: costs, constraints and the objective are exact over `int` and `real`.
- numpy's fixed-width integers: every sampled value and every repaired value is far inside the 64-bit range, so integers are unbounded here.
- Input validation (dimension mismatches, out-of-domain costs) and the solver's infeasible or unbounded outcomes: the script performs no such checks, so none are modelled. `numpy.reshape` rejects a vector of the wrong length; the model requires the length instead.
- Convexity with an arbitrary weight: `Formulation.MidpointFeasible` and `Formulation.ObjectiveOfMidpoint` state convexity and affinity for the weight 1/2 only. That is midpoint convexity, which for this closed feasible set implies convexity.
