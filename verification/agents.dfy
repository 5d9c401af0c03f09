/**
  Agents and neighbour relations as one agent's local problem sees them.

  Only what the layout arithmetic of the local problem depends on is kept:
  dimensions, the sending/receiving flags, the constraint counts of the
  models involved and each neighbour's own neighbour count. The dynamics,
  cost and constraint callbacks themselves are opaque to this model.
 */
module Agents {

  /** Constraint counts of one model: equality constraints g and inequality constraints h. */
  datatype ConstraintCounts = ConstraintCounts(ng: nat, nh: nat)

  /** Which of the two constraint families an operation works on (g/dg* or h/dh*). */
  datatype Kind = Equality | Inequality

  /** The count of one family. */
  function Count(c: ConstraintCounts, kind: Kind): nat
  {
    match kind
    case Equality => c.ng
    case Inequality => c.nh
  }

  /**
    A directed relation from the owning agent i to neighbour j.
    - `nx`, `nu`: Nxj and Nuj, the neighbour's state and control dimensions;
    - `sending`: agent i owns the coupling model g_ij/h_ij;
    - `receiving`: the reverse relation exists, and i holds a copy of j's coupling model;
    - `coupling`, `copiedCoupling`: constraint counts Ngij/Nhij of those two models;
    - `model`: the neighbour agent model's own counts Ngi/Nhi;
    - `neighborCount`: how many neighbours j itself has.
   */
  datatype Neighbor = Neighbor(
    id: int,
    nx: nat,
    nu: nat,
    sending: bool,
    receiving: bool,
    coupling: ConstraintCounts,
    copiedCoupling: ConstraintCounts,
    model: ConstraintCounts,
    neighborCount: nat)

  /** Agent i: own dimensions Nxi/Nui, own constraint counts, the two approximation flags
      and the neighbour list in iteration order. */
  datatype Agent = Agent(
    nx: nat,
    nu: nat,
    constraints: ConstraintCounts,
    approximatingCost: bool,
    approximatingConstraints: bool,
    neighbors: seq<Neighbor>)

  /** Sum of Nxj over a neighbour list. */
  function SumNx(ns: seq<Neighbor>): nat
    decreases |ns|
  {
    if |ns| == 0 then 0 else SumNx(ns[..|ns| - 1]) + ns[|ns| - 1].nx
  }

  /** Sum of Nuj + Nxj: each neighbour brings its copied controls and one
      external-influence slot per neighbour state. */
  function SumNuNx(ns: seq<Neighbor>): nat
    decreases |ns|
  {
    if |ns| == 0 then 0 else SumNuNx(ns[..|ns| - 1]) + ns[|ns| - 1].nu + ns[|ns| - 1].nx
  }

  /** No two neighbours share an id. The source never checks this. */
  predicate DistinctIds(ns: seq<Neighbor>)
  {
    forall p, q :: 0 <= p < q < |ns| ==> ns[p].id != ns[q].id
  }

  /** Some neighbour among the first k has id j. */
  predicate SeenBefore(ns: seq<Neighbor>, k: nat, j: int)
    requires k <= |ns|
  {
    exists p :: 0 <= p < k && ns[p].id == j
  }

  /** Position p is the last one among the first k neighbours with its id. */
  predicate LastBefore(ns: seq<Neighbor>, k: nat, p: nat)
    requires p < k <= |ns|
  {
    forall q :: p < q < k ==> ns[q].id != ns[p].id
  }

  /** Some neighbour has id j. */
  predicate HasId(ns: seq<Neighbor>, j: int)
  {
    SeenBefore(ns, |ns|, j)
  }

  /** Position p holds the last neighbour of its id: the one whose offsets the index maps keep. */
  predicate LastWithId(ns: seq<Neighbor>, p: int)
    requires 0 <= p < |ns|
  {
    LastBefore(ns, |ns|, p)
  }

  /** Every neighbour id is non-negative. */
  predicate NonNegativeIds(ns: seq<Neighbor>)
  {
    forall p :: 0 <= p < |ns| ==> ns[p].id >= 0
  }
}
