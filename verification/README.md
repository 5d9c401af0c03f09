# Local problem with neighbour approximation (GRAMPC-D), modelled in Dafny

GRAMPC-D solves a distributed optimal control problem by ADMM. Each agent i
solves a local problem over an extended state `[x_i | x_j1 | x_j2 | ...]`
and an extended control `[u_i | u_j1 v_j1 | u_j2 v_j2 | ...]`. These hold
local copies of every neighbour's state x_ji and control u_ji, plus a slot
v_ji for the influence the agent exerts on that neighbour.
`ProblemDescriptionLocalNeighborApproximation` builds that problem. Its
constructor lays out the copies and counts the constraints. Its callbacks
assemble the dynamics, the stage and terminal costs with their ADMM
consensus penalties, and the stacked constraints with their
vector-Jacobian products.

This project models that class:

- `Agents`: agents, neighbour relations, dimension sums.
- `IndexMaps`: the constructor's neighbour loop. This covers the running
  offsets and the resize-on-demand index vectors `x_index_xji`,
  `u_index_uji` and `u_index_vji`. It proves a closed form for them,
  including what happens with repeated and negative ids.
- `Regions`: the own block and each neighbour's copy block of the extended
  state and control, addressed through the index vectors as the source does
  or through the offsets.
- `Tiling`: the copy blocks tile the extended state and control exactly.
  This is stated as a coverage count: every index of `[0, Nx)` / `[0, Nu)`
  lies in exactly one block, and no other index lies in any block.
- `Problem`: the constructor as a whole (`Construct`), `ocp_dim`, the index
  getters, and the link between the index vectors and the offsets.
- `ConstraintBlocks`: `gfct`/`hfct` block layout and the derivative loops
  `dgdx_vec`, `dgdu_vec`, `dhdx_vec` and `dhdu_vec`.
- `Consensus`: the augmented-Lagrangian consistency penalties of u_i, v_ji
  and u_ji, in `lfct` and `dldu`.
- `CostAssembly`: cost rescaling under cost approximation (`lfct`, `Vfct`)
  and the matching block-wise gradients (`dldx`, `dldu`, `dVdx`).
- `Influence`: the external-influence penalty on v_ij and its gradient
  through the approximation's Jacobian.
- `StageCost`: `lfct`, `dldx`, `dldu`, `Vfct` and `dVdx` assembled from the
  sections above.
- `Dynamics`: which output regions `ffct`, `dfdx_vec` and `dfdu_vec` write.

The user callbacks are opaque. These are the agent, coupling and
approximation models' `ffct`, `lfct`, `gfct`, `vfct` and their
derivatives. Their values at the sampled point are parameters. So are the
interpolated coupling, multiplier and penalty trajectories. Numbers are
mathematical reals and integers.

## Model

| member | source | states |
|---|---|---|
| IndexMaps.Resize | src/optim/problem_description_local_neighbor_approximation.cpp:41-46 | Growing the index vectors to j + 1 resizes all three together, keeps every earlier entry and sets the new entries to 0 |
| IndexMaps.RunPrefix | src/optim/problem_description_local_neighbor_approximation.cpp:27-56 | After the first k neighbours, the loop fails exactly when one of their ids is negative, and the failure names the first negative id. Otherwise Nx/Nu and both cursors equal the own dimensions plus the running sums. The vectors are as long as the largest id + 1. Each entry holds the offsets of the last neighbour with that id, and entries of unseen ids are 0 |
| Problem.Construct | src/optim/problem_description_local_neighbor_approximation.cpp:19-81 | Construction succeeds exactly when all ids are non-negative, and otherwise fails with the first negative id. Nx = Nxi + sum of Nxj, and Nu = Nui + sum of (Nuj + Nxj). Ng/Nh = own count + coupling counts of sending neighbours + (under constraint approximation) each neighbour's own count + copied coupling counts of receiving neighbours |
| Problem.ConstraintCountFormula | src/optim/problem_description_local_neighbor_approximation.cpp:58-80 | The per-neighbour constraint counting loop equals the sum of three independent totals: sending couplings, neighbour models (under approximation) and receiving copied couplings (under approximation) |
| Problem.ConstructedMaps | src/optim/problem_description_local_neighbor_approximation.cpp:27-56 | After construction, every neighbour id indexes the vectors. The last neighbour with an id owns its entries, which are its x, u and v offsets. Ids of no neighbour map to 0, and the largest index is some neighbour's id |
| Problem.ScatterInBounds | src/optim/problem_description_local_neighbor_approximation.cpp:41-55 | With distinct ids, each neighbour's x_ji block lies in [Nxi, Nx) at its offset, and its u_ji and v_ji blocks lie in [Nui, Nu). So every scatter `out + index[j]` stays in the vector |
| Problem.OcpDim | src/optim/problem_description_local_neighbor_approximation.cpp:113-122 | ocp_dim reports the extended dimensions and the constraint counts of the constructor, with no parameters and no terminal constraints |
| Problem.NoNeighborsReduces | src/optim/problem_description_local_neighbor_approximation.cpp:19-81 | An agent without neighbours gets exactly its own model's dimensions and constraint counts, and empty index vectors |
| Problem.XIndexOf | src/optim/problem_description_local_neighbor_approximation.cpp:98-101 | get_x_index_xji(j) is the state offset of the last neighbour with id j, or 0 for an id no neighbour has |
| Problem.UIndexOf | src/optim/problem_description_local_neighbor_approximation.cpp:108-111 | get_u_index_uji(j) is the control-copy offset of the last neighbour with id j, or 0 for an id no neighbour has |
| Problem.VIndexOf | src/optim/problem_description_local_neighbor_approximation.cpp:103-106 | get_u_index_vji(j) is the influence-slot offset (after u_ji) of the last neighbour with id j, or 0 for an id no neighbour has |
| Problem.RepeatedIdOverrunsState | src/optim/problem_description_local_neighbor_approximation.cpp:32-55 | Two neighbours with the same id build without error. The index keeps the second neighbour's offset while the first neighbour's larger block is scattered there, which overruns the state vector |
| Problem.RepeatedIdMisplacesBlock | src/optim/problem_description_local_neighbor_approximation.cpp:32-55 | Two neighbours with the same id and one state each: every scatter stays inside the state vector, but the only index entry is the second neighbour's block at 2. The first neighbour's contribution lands there, and its own block at 1 is never addressed |
| Regions.NeighborRegionInBounds | src/optim/problem_description_local_neighbor_approximation.cpp:41-55 | With distinct ids, the region the index vectors address for a neighbour is its block by the offsets. It starts after the own block and ends inside Nx (Nu) |
| Tiling.XBlockInBounds | src/optim/problem_description_local_neighbor_approximation.cpp:36-55 | Every x_ji block starts at or after Nxi and ends at or before Nx |
| Tiling.UBlockInBounds | src/optim/problem_description_local_neighbor_approximation.cpp:36-55 | Every u_ji block starts at or after Nui, and every v_ji slot ends at or before Nu |
| Tiling.BlocksOrdered | src/optim/problem_description_local_neighbor_approximation.cpp:48-55 | Blocks of earlier neighbours end before blocks of later neighbours begin, in both vectors |
| Tiling.XTiling | src/optim/problem_description_local_neighbor_approximation.cpp:29-55 | Each index of [0, Nx) lies in exactly one block (own or some x_ji), and no index outside does |
| Tiling.UTiling | src/optim/problem_description_local_neighbor_approximation.cpp:28-55 | Each index of [0, Nu) lies in exactly one block (own, some u_ji or some v_ji), and no index outside does |
| ConstraintBlocks.NeighborBlocksTile | src/optim/problem_description_local_neighbor_approximation.cpp:539-563 | One neighbour's gfct/hfct blocks are contiguous from the running offset, and advance it by exactly the count the constructor added for that neighbour |
| ConstraintBlocks.ValueBlocksTile | src/optim/problem_description_local_neighbor_approximation.cpp:531-564 | gfct (and hfct, lines 657-690) write the own block at 0 and then contiguous blocks that end exactly at the constructor's Ng (Nh). There is no gap, overlap or write past the end |
| ConstraintBlocks.StackPlacesBlocks | src/optim/problem_description_local_neighbor_approximation.cpp:536-561 | When every callback returns its declared count, the stacked vector has the tiled length, and each block's output sits at its offset |
| ConstraintBlocks.DerivativeSteps | src/optim/problem_description_local_neighbor_approximation.cpp:566-655 | dgdx_vec/dgdu_vec (and dhdx_vec/dhdu_vec, lines 692-780) read the adjoint at exactly the blocks gfct/hfct write, even though coupling blocks contribute twice. The final offset is Ng/Nh. With distinct ids, each contribution goes to the own block or to the copy block of the block's own neighbour |
| ConstraintBlocks.NeighborDerivSteps | src/optim/problem_description_local_neighbor_approximation.cpp:576-607 | One neighbour's derivative steps read that neighbour's value blocks in order. Coupling and copied-coupling steps write the own block and the neighbour's copy block, and the neighbour-model step writes only the copy block |
| ConstraintBlocks.ExpectedWritesInBounds | src/optim/problem_description_local_neighbor_approximation.cpp:566-655 | Every output region a derivative step may write lies inside the Nx (or Nu) vector |
| Dynamics.CallsCount | src/optim/problem_description_local_neighbor_approximation.cpp:124-195 | ffct, dfdx_vec and dfdu_vec make exactly one agent-model call, and for each neighbour one coupling call if it sends and one approximation call, and no other call |
| Dynamics.DynamicsCallsPlaced | src/optim/problem_description_local_neighbor_approximation.cpp:124-195 | ffct, dfdx_vec and dfdu_vec call the agent model once, each sending neighbour's coupling model once and each neighbour's approximation once. Coupling derivatives go to the own block and that neighbour's copy block, and every region lies inside the output |
| Consensus.PenaltyExpansion | src/optim/problem_description_local_neighbor_approximation.cpp:417-420 | The term dldu adds, -(mu + rho(z - w)), is the exact slope of lfct's penalty mu(z - w) + rho/2 (z - w)^2. A step h changes the penalty by slope * h + rho/2 * h^2 |
| Consensus.PenaltyAboveTangent | src/optim/problem_description_local_neighbor_approximation.cpp:245-250 | With rho >= 0 the consistency penalty is convex: it never drops below its tangent |
| Consensus.SumPenaltyExpansion | src/optim/problem_description_local_neighbor_approximation.cpp:245-291 | Moving one control entry by h changes any sum of consistency penalties by the sum of slopes on that entry times h, plus the sum of penalty parameters on that entry times h^2/2 |
| Consensus.AddGradientsEntries | src/optim/problem_description_local_neighbor_approximation.cpp:415-452 | After dldu's consistency loops, every entry holds its previous value plus the slopes of exactly the penalties on that entry |
| Consensus.ConsensusTermsCover | src/optim/problem_description_local_neighbor_approximation.cpp:245-291 | With distinct ids, the penalties of u_i (k < Nui), v_ji (k < Nxj) and u_ji (k < Nuj) address each entry of [0, Nu) exactly once and nothing outside |
| Consensus.ConsensusGradientIsDerivative | src/optim/problem_description_local_neighbor_approximation.cpp:409-452 | For every entry of the extended control, exactly one consistency penalty applies. dldu adds its slope there, and that slope is the exact derivative of lfct's consistency sum in that entry |
| CostAssembly.RescaledCostShares | src/optim/problem_description_local_neighbor_approximation.cpp:216-235 | Under cost approximation, lfct's cost section is own/(1 + number of neighbours) plus the sum of each neighbour's cost/(1 + that neighbour's number of neighbours). Without it, the section is the own cost unchanged |
| CostAssembly.RescaledCostOfEqualCosts | src/optim/problem_description_local_neighbor_approximation.cpp:216-235 | The rescaling is a convex combination: if all costs equal c and every neighbour has as many neighbours as the agent, the result is c |
| CostAssembly.AddNeighborGradientsEntries | src/optim/problem_description_local_neighbor_approximation.cpp:321-333 | The neighbour loop of dldx/dldu/dVdx adds, at every entry, each neighbour's gradient divided by 1 + its number of neighbours, at that neighbour's block offset |
| CostAssembly.CostGradientEntries | src/optim/problem_description_local_neighbor_approximation.cpp:365-403 | For dldu (and dldx, lines 295-334), the own block holds the agent gradient with lfct's own weight. Neighbour p's copy block holds its gradient with lfct's weight for p, or 0 without approximation. The v_ji slots get nothing |
| Influence.InfluencePenaltyAsWritten | src/optim/problem_description_local_neighbor_approximation.cpp:266-272 | lfct's v_ij loop as written runs to Nxj. It fails (reads past v) exactly when Nxj > Nxi, and it agrees with the full term when Nxj = Nxi |
| Influence.InfluenceLoopBoundMismatch | src/optim/problem_description_local_neighbor_approximation.cpp:266-272 | An agent with two states and a neighbour with one: lfct as written ignores the second influence entry, while dldx/dldu give it slope -1. With three neighbour states it reads out of bounds |
| Influence.InfluenceGradientEntries | src/optim/problem_description_local_neighbor_approximation.cpp:464-474 | The two dvdu_vec (dvdx_vec, lines 351-361) calls, with -mu_v and with -rho_v(zv - v), together add the transposed Jacobian applied to the full penalty slopes |
| Influence.InfluenceChainRule | src/optim/problem_description_local_neighbor_approximation.cpp:455-474 | When v_ij moves along a Jacobian column, the influence penalty over all Nxi entries changes by exactly the entry the two products add, times the step, plus a curvature term |
| StageCost.Lfct | src/optim/problem_description_local_neighbor_approximation.cpp:197-293 | lfct is the sum of the rescaled own cost, the neighbours' cost shares, all consistency penalties and every neighbour's influence penalty over Nxi entries (the corrected bound of the Findings row) |
| StageCost.Dldx | src/optim/problem_description_local_neighbor_approximation.cpp:295-363 | Each entry of dldx is the cost-section gradient plus the summed influence slopes at that entry |
| StageCost.Dldu | src/optim/problem_description_local_neighbor_approximation.cpp:365-476 | Each entry of dldu is the cost-section gradient, plus the slope of the single consistency penalty on that entry, plus the summed influence slopes |
| StageCost.ControlExpansion | src/optim/problem_description_local_neighbor_approximation.cpp:245-291 | Moving control entry k by h (with every v_ij along its Jacobian column) changes the consistency and influence sections of the corrected lfct with slope "consensus gradient plus influence slopes at k", plus a curvature term |
| StageCost.DlduIsDerivative | src/optim/problem_description_local_neighbor_approximation.cpp:365-476 | Moving control entry k by h (with every v_ij along its Jacobian column) changes the corrected lfct's consistency and influence sections by exactly (dldu[k] - cost part) * h plus a curvature term |
| StageCost.DldxIsDerivative | src/optim/problem_description_local_neighbor_approximation.cpp:295-363 | Moving state entry k by h (with every v_ij along its Jacobian column) changes the corrected lfct's influence section by exactly (dldx[k] - cost part) * h plus a curvature term |
| StageCost.Vfct | src/optim/problem_description_local_neighbor_approximation.cpp:478-501 | The terminal cost is rescaled exactly like the stage cost: own/(1 + number of neighbours) plus each neighbour's share, or the own cost without approximation |
| StageCost.DVdx | src/optim/problem_description_local_neighbor_approximation.cpp:503-529 | The own block of dVdx holds the agent's terminal gradient with Vfct's own weight, and each neighbour's x_ji block holds its gradient with Vfct's weight for it |

## Left out

- The user callbacks are not modelled. These are the agent, coupling and approximation models' values and derivatives. Their results at the sampled point are parameters: costs, gradients, v_ij and its Jacobians. Only where they are written and how they are combined is modelled.
- The approximation callbacks in `ffct`, `dfdx_vec` and `dfdu_vec` receive the whole output with the index vectors. Their write region is modelled as the whole output.
- `interpolateState` (sampling trajectories at time t) is not modelled. The sampled coupling, multiplier, penalty and desired states are parameters. This includes which desired-state trajectory `Vfct` and `lfct` pick for a neighbour.
- Floating point is not modelled: values are reals. The source's int/size_t arithmetic is unbounded here, so 32-bit overflow of Nx/Nu or of the offsets is not modelled.
- The source interleaves the sections of `lfct`/`dldu` per neighbour. The model adds them section by section, which gives equal real sums but not equal floating-point sums.
- The getters returning whole index vectors (lines 83-96) are the `maps` field of `Problem`.
- The parameter vector p, desired control udes and time t are unused by the layout and are dropped.
- Consensus.WellSized: the sampled trajectories must have their variables' dimensions (Nui, Nxj, Nuj, Nxi). `lfct` loops to Nxj/Nuj, `dldu` loops to the trajectory lengths, and the two only agree then.
- CostAssembly.CostGradient: requires distinct neighbour ids. With repeated ids the source can scatter past the vector (`Problem.RepeatedIdOverrunsState`), which is undefined behaviour. Otherwise it adds an earlier neighbour's contribution to the later neighbour's block (`Problem.RepeatedIdMisplacesBlock`). Neither outcome has a model here. The same holds for `StageCost.Lfct`, `StageCost.Dldx`, `StageCost.Dldu`, `StageCost.DVdx`, the tiling lemmas and the derivative-placement lemmas.
- StageCost.DVdx: line 519 sizes the neighbour buffer with `neighbor->get_Nxi()`. The Neighbor class is not part of this model. The buffer is modelled as the neighbour's state dimension, which is what `dVdx` fills at `x_index_xji[j]`.
- Problem.XIndexOf, Problem.UIndexOf, Problem.VIndexOf: `operator[]` on an id outside the vectors is undefined behaviour, so the getters require an id inside them.
- StageCost.Lfct: sums each neighbour's influence penalty over Nxi entries. This is the corrected bound of the Findings row. The loop as written (bound Nxj) is `Influence.InfluencePenaltyAsWritten`, and it is not what `Lfct` computes.
- StageCost.DlduIsDerivative, StageCost.DldxIsDerivative: state the derivative property of the corrected `lfct` (influence bound Nxi), for its consistency and influence sections only. The cost section's derivative depends on the opaque callbacks, and the model shows only that its weights equal `lfct`'s (`CostAssembly.CostGradientEntries`, `CostAssembly.RescaledCostShares`).
- Double counting across the whole network under cost approximation is not modelled, because it is a property of all agents together.

## Findings

| source | as written | input that shows it | evidently intended | confidence | as-written member | corrected member |
|---|---|---|---|---|---|---|
| src/optim/problem_description_local_neighbor_approximation.cpp:266-272 | `lfct`'s v_ij consistency loop runs `k < neighbor->get_Nxj()`. It reads `v`, `z_v`, `mu_v` and `rho_v`, which all have Nxi entries | Nxi = 2, Nxj = 1, zv = [0, 1], mu_v = [0, 1], rho_v = [0, 0], v = [0, 0]: `lfct` adds 0 instead of 1 and ignores the second entry, while `dldx`/`dldu` (lines 352-358, 465-472) give it slope -1. With Nxj = 3 the loop reads past the end of `v` | the bound Nxi, as in `dldx` and `dldu` | not executed; high | Influence.InfluencePenaltyAsWritten, Influence.InfluenceLoopBoundMismatch | Influence.InfluencePenalty, Influence.InfluenceChainRule, StageCost.Lfct |
