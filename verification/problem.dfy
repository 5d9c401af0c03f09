/**
  The local problem's constructor, its dimension query `ocp_dim` and the
  index getters.

  `Construct` runs the neighbour loop of `IndexMaps` and then counts
  constraints: own constraints, the coupling model's constraints of every
  sending neighbour, and, only when the agent approximates constraints, each
  neighbour's own constraints plus its copied coupling model's constraints
  when it is also a receiving neighbour.
 */
module Problem {
  import opened Agents
  import opened IndexMaps
  import opened Tiling

  /** The fields the constructor fills in: Nx_, Nu_, Ng_, Nh_ and the three index vectors. */
  datatype Problem = Problem(nx: nat, nu: nat, ng: nat, nh: nat, maps: Maps)

  /** What `ocp_dim` reports. */
  datatype Dims = Dims(nx: nat, nu: nat, np: nat, ng: nat, nh: nat, ngT: nat, nhT: nat)

  /** The constraints one neighbour adds, as counted in the constructor's second loop. */
  function NeighborConstraints(a: Agent, n: Neighbor, kind: Kind): nat
  {
    (if n.sending then Count(n.coupling, kind) else 0)
    + (if a.approximatingConstraints
       then Count(n.model, kind) + (if n.receiving then Count(n.copiedCoupling, kind) else 0)
       else 0)
  }

  /** The second loop from neighbour p on. */
  function ConstraintsFrom(a: Agent, kind: Kind, p: nat): nat
    requires p <= |a.neighbors|
    decreases |a.neighbors| - p
  {
    if p == |a.neighbors| then 0
    else NeighborConstraints(a, a.neighbors[p], kind) + ConstraintsFrom(a, kind, p + 1)
  }

  /** Ng_ (Equality) or Nh_ (Inequality) as the constructor leaves it. */
  function ConstraintCount(a: Agent, kind: Kind): nat
  {
    Count(a.constraints, kind) + ConstraintsFrom(a, kind, 0)
  }

  /** The sum of the coupling models' counts over sending neighbours p... */
  function SendingSum(ns: seq<Neighbor>, kind: Kind, p: nat): nat
    requires p <= |ns|
    decreases |ns| - p
  {
    if p == |ns| then 0 else (if ns[p].sending then Count(ns[p].coupling, kind) else 0) + SendingSum(ns, kind, p + 1)
  }

  /** The sum of the neighbours' own model counts over neighbours p... */
  function ModelSum(ns: seq<Neighbor>, kind: Kind, p: nat): nat
    requires p <= |ns|
    decreases |ns| - p
  {
    if p == |ns| then 0 else Count(ns[p].model, kind) + ModelSum(ns, kind, p + 1)
  }

  /** The sum of the copied coupling models' counts over receiving neighbours p... */
  function ReceivingSum(ns: seq<Neighbor>, kind: Kind, p: nat): nat
    requires p <= |ns|
    decreases |ns| - p
  {
    if p == |ns| then 0 else (if ns[p].receiving then Count(ns[p].copiedCoupling, kind) else 0) + ReceivingSum(ns, kind, p + 1)
  }

  /** The constraint count with the agent-level flag taken out of the loop:
      Ng = Ngi + sum over sending Ngij + (approximating ? sum Ngj + sum over receiving copied Ngij : 0). */
  lemma {:induction false} ConstraintCountFormula(a: Agent, kind: Kind, p: nat)
    requires p <= |a.neighbors|
    ensures ConstraintsFrom(a, kind, p) ==
      SendingSum(a.neighbors, kind, p)
      + (if a.approximatingConstraints then ModelSum(a.neighbors, kind, p) + ReceivingSum(a.neighbors, kind, p) else 0)
    decreases |a.neighbors| - p
  {
    if p < |a.neighbors| {
      ConstraintCountFormula(a, kind, p + 1);
    }
  }

  /** The whole-list form of the constructor's neighbour-loop result. */
  lemma {:induction false} ConstructedRun(a: Agent)
    ensures Run(a.nx, a.nu, a.neighbors).Ok? <==> NonNegativeIds(a.neighbors)
    ensures Run(a.nx, a.nu, a.neighbors).Err? ==>
              FirstNegativeBefore(a.neighbors, |a.neighbors|, Run(a.nx, a.nu, a.neighbors).error.id)
    ensures Run(a.nx, a.nu, a.neighbors).Ok? ==>
              Characterized(a, |a.neighbors|, Run(a.nx, a.nu, a.neighbors).value)
  {
    RunPrefix(a, |a.neighbors|);
    assert a.neighbors[..|a.neighbors|] == a.neighbors;
  }

  /** The constructor. It fails, reporting the first negative id, exactly when
      some neighbour id is negative; otherwise Nx = Nxi + sum Nxj,
      Nu = Nui + sum (Nuj + Nxj), and Ng/Nh follow `ConstraintCountFormula`. */
  function Construct(a: Agent): (r: Result<Problem>)
    ensures r.Ok? <==> NonNegativeIds(a.neighbors)
    ensures r.Err? ==> FirstNegativeBefore(a.neighbors, |a.neighbors|, r.error.id)
    ensures r.Ok? ==>
      && r.value.nx == a.nx + SumNx(a.neighbors)
      && r.value.nu == a.nu + SumNuNx(a.neighbors)
      && r.value.ng == a.constraints.ng + SendingSum(a.neighbors, Equality, 0)
           + (if a.approximatingConstraints
              then ModelSum(a.neighbors, Equality, 0) + ReceivingSum(a.neighbors, Equality, 0) else 0)
      && r.value.nh == a.constraints.nh + SendingSum(a.neighbors, Inequality, 0)
           + (if a.approximatingConstraints
              then ModelSum(a.neighbors, Inequality, 0) + ReceivingSum(a.neighbors, Inequality, 0) else 0)
  {
    ConstructedRun(a);
    OffsetsAtEnd(a);
    ConstraintCountFormula(a, Equality, 0);
    ConstraintCountFormula(a, Inequality, 0);
    match Run(a.nx, a.nu, a.neighbors)
    case Err(e) => Err(e)
    case Ok(c) => Ok(Problem(c.nx, c.nu, ConstraintCount(a, Equality), ConstraintCount(a, Inequality), c.maps))
  }

  /** Every neighbour id is a valid index of the vectors; the vectors have length
      (largest id) + 1; each id's entries hold the offsets of the last neighbour
      with that id; every other entry is zero. */
  lemma {:induction false} ConstructedMaps(a: Agent, pr: Problem)
    requires Construct(a) == Ok(pr)
    ensures SameLength(pr.maps)
    ensures forall p :: 0 <= p < |a.neighbors| ==> 0 <= a.neighbors[p].id < |pr.maps.xji|
    ensures |a.neighbors| == 0 ==> |pr.maps.xji| == 0
    ensures |a.neighbors| > 0 ==> HasId(a.neighbors, |pr.maps.xji| - 1)
    ensures forall p {:trigger LastWithId(a.neighbors, p)} :: 0 <= p < |a.neighbors| && LastWithId(a.neighbors, p) ==>
      && pr.maps.xji[a.neighbors[p].id] == XOffset(a, p)
      && pr.maps.uji[a.neighbors[p].id] == UOffset(a, p)
      && pr.maps.vji[a.neighbors[p].id] == UOffset(a, p) + a.neighbors[p].nu
    ensures forall j :: 0 <= j < |pr.maps.xji| && !HasId(a.neighbors, j) ==>
      pr.maps.xji[j] == 0 && pr.maps.uji[j] == 0 && pr.maps.vji[j] == 0
  {
    ConstructedRun(a);
    var ns := a.neighbors;
    var c := Run(a.nx, a.nu, ns).value;
    assert pr.maps == c.maps;
    assert EntriesAt(a, |ns|, c);
    forall p | 0 <= p < |ns| && LastWithId(ns, p)
      ensures pr.maps.xji[ns[p].id] == XOffset(a, p)
      ensures pr.maps.uji[ns[p].id] == UOffset(a, p)
      ensures pr.maps.vji[ns[p].id] == UOffset(a, p) + ns[p].nu
    {
      assert LastBefore(ns, |ns|, p);
    }
    forall j | 0 <= j < |pr.maps.xji| && !HasId(ns, j)
      ensures pr.maps.xji[j] == 0 && pr.maps.uji[j] == 0 && pr.maps.vji[j] == 0
    {
      assert !SeenBefore(ns, |ns|, j);
    }
    if |ns| > 0 {
      assert LengthAt(a, |ns|, c);
      var p :| 0 <= p < |ns| && ns[p].id == |c.maps.xji| - 1;
      assert HasId(ns, |pr.maps.xji| - 1);
    }
  }

  /** The constructed layout an agent with distinct neighbour ids gets. */
  predicate Assembled(a: Agent, pr: Problem)
  {
    Construct(a) == Ok(pr) && DistinctIds(a.neighbors)
  }

  /** With distinct ids every neighbour's entries are its offsets, so each scatter
      `out + x_index_xji[j]` of length Nxj, `out + u_index_uji[j]` of length Nuj and
      `out + u_index_vji[j]` of length Nxj lands inside the neighbour's own block,
      within the extended vector. */
  lemma {:induction false} ScatterInBounds(a: Agent, pr: Problem, p: nat)
    requires Assembled(a, pr) && p < |a.neighbors|
    ensures 0 <= a.neighbors[p].id < |pr.maps.xji|
    ensures pr.maps.xji[a.neighbors[p].id] == XOffset(a, p)
    ensures pr.maps.uji[a.neighbors[p].id] == UOffset(a, p)
    ensures pr.maps.vji[a.neighbors[p].id] == VOffset(a, p)
    ensures a.nx <= XOffset(a, p) && XOffset(a, p) + a.neighbors[p].nx <= pr.nx
    ensures a.nu <= UOffset(a, p) && VOffset(a, p) + a.neighbors[p].nx <= pr.nu
  {
    ConstructedMaps(a, pr);
    assert LastWithId(a.neighbors, p);
    XBlockInBounds(a, p);
    UBlockInBounds(a, p);
  }

  /** `ocp_dim`: the extended dimensions, the constraint counts, and no parameters
      or terminal constraints. */
  function OcpDim(a: Agent, pr: Problem): (d: Dims)
    requires Construct(a) == Ok(pr)
    ensures d.nx == a.nx + SumNx(a.neighbors) && d.nu == a.nu + SumNuNx(a.neighbors)
    ensures d.ng == ConstraintCount(a, Equality) && d.nh == ConstraintCount(a, Inequality)
    ensures d.np == 0 && d.ngT == 0 && d.nhT == 0
  {
    Dims(pr.nx, pr.nu, 0, pr.ng, pr.nh, 0, 0)
  }

  /** With no neighbours the local problem is the agent's own problem. */
  lemma {:induction false} NoNeighborsReduces(a: Agent)
    requires |a.neighbors| == 0
    ensures Construct(a).Ok?
    ensures OcpDim(a, Construct(a).value) == Dims(a.nx, a.nu, 0, a.constraints.ng, a.constraints.nh, 0, 0)
    ensures Construct(a).value.maps == Maps([], [], [])
  {
  }

  /** `get_x_index_xji(j)`: an unchecked `operator[]`, so j must be a valid index. */
  function XIndexOf(a: Agent, pr: Problem, j: int): (r: nat)
    requires Construct(a) == Ok(pr) && 0 <= j < |pr.maps.xji|
    ensures forall p :: 0 <= p < |a.neighbors| && a.neighbors[p].id == j && LastWithId(a.neighbors, p) ==> r == XOffset(a, p)
    ensures !HasId(a.neighbors, j) ==> r == 0
  {
    ConstructedMaps(a, pr);
    pr.maps.xji[j]
  }

  /** `get_u_index_uji(j)`. */
  function UIndexOf(a: Agent, pr: Problem, j: int): (r: nat)
    requires Construct(a) == Ok(pr) && 0 <= j < |pr.maps.uji|
    ensures forall p :: 0 <= p < |a.neighbors| && a.neighbors[p].id == j && LastWithId(a.neighbors, p) ==> r == UOffset(a, p)
    ensures !HasId(a.neighbors, j) ==> r == 0
  {
    ConstructedMaps(a, pr);
    pr.maps.uji[j]
  }

  /** `get_u_index_vji(j)`. */
  function VIndexOf(a: Agent, pr: Problem, j: int): (r: nat)
    requires Construct(a) == Ok(pr) && 0 <= j < |pr.maps.vji|
    ensures forall p :: 0 <= p < |a.neighbors| && a.neighbors[p].id == j && LastWithId(a.neighbors, p) ==> r == VOffset(a, p)
    ensures !HasId(a.neighbors, j) ==> r == 0
  {
    ConstructedMaps(a, pr);
    pr.maps.vji[j]
  }

  /** An agent with one state and one control and two neighbours that share id 0,
      with nx1 and nx2 states. */
  function TwinAgent(nx1: nat, nx2: nat): Agent
  {
    var none := ConstraintCounts(0, 0);
    Agent(1, 1, none, false, false,
      [Neighbor(0, nx1, 0, true, false, none, none, none, 1), Neighbor(0, nx2, 0, true, false, none, none, none, 1)])
  }

  /** The constructor accepts the shared id. The state is 1 + nx1 + nx2 long, and the
      single index entry holds the second neighbour's offset. */
  lemma {:induction false} TwinLayout(nx1: nat, nx2: nat)
    ensures Construct(TwinAgent(nx1, nx2)).Ok?
    ensures Construct(TwinAgent(nx1, nx2)).value.nx == 1 + nx1 + nx2
    ensures Construct(TwinAgent(nx1, nx2)).value.maps.xji == [1 + nx1]
  {
    var a := TwinAgent(nx1, nx2);
    var ns := a.neighbors;
    assert NonNegativeIds(ns);
    var pr := Construct(a).value;
    ConstructedMaps(a, pr);
    assert ns[..1][..0] == [] && ns[..|ns| - 1] == ns[..1];
    assert SumNx(ns[..1]) == nx1;
    assert SumNx(ns) == nx1 + nx2;
    assert XOffset(a, 1) == 1 + nx1;
    assert LastWithId(ns, 1);
    assert |pr.maps.xji| == 1;
  }

  /** Two neighbours with the same id: the constructor accepts them, the id's entry
      points at the second neighbour's block, and a scatter of the first neighbour's
      Nxj = 2 values at that entry runs past the end of the extended state. */
  lemma {:induction false} RepeatedIdOverrunsState()
    ensures Construct(TwinAgent(2, 1)).Ok?
    ensures var pr := Construct(TwinAgent(2, 1)).value;
      pr.nx == 4 && pr.maps.xji[0] == 3 && pr.maps.xji[0] + 2 > pr.nx
  {
    TwinLayout(2, 1);
  }

  /** Two neighbours with the same id and one state each: every scatter stays inside
      the extended state, but the only index entry is the second neighbour's block
      [2, 3), so the first neighbour's contribution lands there and its own block
      [1, 2) is never addressed. */
  lemma {:induction false} RepeatedIdMisplacesBlock()
    ensures Construct(TwinAgent(1, 1)).Ok?
    ensures var pr := Construct(TwinAgent(1, 1)).value;
      pr.nx == 3 && pr.maps.xji == [2] && XOffset(TwinAgent(1, 1), 0) == 1 && XOffset(TwinAgent(1, 1), 1) == 2
  {
    TwinLayout(1, 1);
    var ns := TwinAgent(1, 1).neighbors;
    assert ns[..0] == [] && ns[..1] == [ns[0]] && [ns[0]][..0] == [];
  }
}
