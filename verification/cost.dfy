/**
  The cost part of lfct/Vfct and of their gradients dldx/dldu/dVdx.

  Without cost approximation the local cost is the agent's own cost. With it,
  the own cost is divided by 1 + |N_i| and every neighbour's cost, evaluated
  on the local copies x_ji/u_ji, is added divided by 1 + |N_j|. The gradients
  do the same block-wise: the agent model's gradient fills the own block, is
  rescaled there, and each neighbour's gradient is added into its copy block
  through the index vectors.

  The callbacks (the agent models' l, dldx, dldu, V, dVdx) are opaque: their
  values at the sampled time are parameters.
 */
module CostAssembly {
  import opened Agents
  import opened IndexMaps
  import opened Tiling
  import opened Problem
  import opened Regions

  /** The own cost's divisor under approximation: 1 + |N_i|. */
  function OwnDivisor(a: Agent): real
  {
    1.0 + |a.neighbors| as real
  }

  /** A neighbour cost's divisor: 1 + |N_j|. */
  function NeighborDivisor(n: Neighbor): real
  {
    1.0 + n.neighborCount as real
  }

  /** lfct/Vfct's loop over neighbours p..: add costs[p] / (1 + |N_j|) to acc. */
  function AddNeighborCosts(a: Agent, costs: seq<real>, p: nat, acc: real): real
    requires |costs| == |a.neighbors| && p <= |a.neighbors|
    decreases |a.neighbors| - p
  {
    if p == |a.neighbors| then acc
    else AddNeighborCosts(a, costs, p + 1, acc + costs[p] / NeighborDivisor(a.neighbors[p]))
  }

  /** The cost section of lfct (and all of Vfct): `own` is the agent model's value,
      costs[p] the neighbour model p's value on the local copies. */
  function RescaledCost(a: Agent, own: real, costs: seq<real>): real
    requires |costs| == |a.neighbors|
  {
    if a.approximatingCost then AddNeighborCosts(a, costs, 0, own / OwnDivisor(a)) else own
  }

  /** Reference: the neighbours' shares costs[q] / (1 + |N_j|) summed over q < p. */
  function NeighborShares(a: Agent, costs: seq<real>, p: nat): real
    requires |costs| == |a.neighbors| && p <= |a.neighbors|
  {
    if p == 0 then 0.0 else NeighborShares(a, costs, p - 1) + costs[p - 1] / NeighborDivisor(a.neighbors[p - 1])
  }

  lemma {:induction false} AddNeighborCostsShares(a: Agent, costs: seq<real>, p: nat, acc: real)
    requires |costs| == |a.neighbors| && p <= |a.neighbors|
    ensures AddNeighborCosts(a, costs, p, acc) == acc + NeighborShares(a, costs, |a.neighbors|) - NeighborShares(a, costs, p)
    decreases |a.neighbors| - p
  {
    if p < |a.neighbors| {
      AddNeighborCostsShares(a, costs, p + 1, acc + costs[p] / NeighborDivisor(a.neighbors[p]));
    }
  }

  /** The local cost is the own cost's share plus every neighbour's share; without cost
      approximation it is exactly the own cost. */
  lemma {:induction false} RescaledCostShares(a: Agent, own: real, costs: seq<real>)
    requires |costs| == |a.neighbors|
    ensures a.approximatingCost ==>
      RescaledCost(a, own, costs) == own / OwnDivisor(a) + NeighborShares(a, costs, |a.neighbors|)
    ensures !a.approximatingCost ==> RescaledCost(a, own, costs) == own
  {
    if a.approximatingCost {
      AddNeighborCostsShares(a, costs, 0, own / OwnDivisor(a));
    }
  }

  /** When the own cost and every neighbour cost agree on one value c and every
      neighbour has as many neighbours as the agent, the shares add back to c: the
      rescaling is a convex combination. */
  lemma {:induction false} EqualSharesRecombine(a: Agent, c: real, costs: seq<real>, p: nat)
    requires |costs| == |a.neighbors| && p <= |a.neighbors|
    requires forall q :: 0 <= q < |a.neighbors| ==> costs[q] == c && a.neighbors[q].neighborCount == |a.neighbors|
    ensures NeighborShares(a, costs, p) == p as real * (c / OwnDivisor(a))
  {
    if p > 0 {
      EqualSharesRecombine(a, c, costs, p - 1);
    }
  }

  lemma {:induction false} RescaledCostOfEqualCosts(a: Agent, c: real, costs: seq<real>)
    requires a.approximatingCost && |costs| == |a.neighbors|
    requires forall q :: 0 <= q < |a.neighbors| ==> costs[q] == c && a.neighbors[q].neighborCount == |a.neighbors|
    ensures RescaledCost(a, c, costs) == c
  {
    RescaledCostShares(a, c, costs);
    EqualSharesRecombine(a, c, costs, |a.neighbors|);
    var d := OwnDivisor(a);
    assert c / d + |a.neighbors| as real * (c / d) == (1.0 + |a.neighbors| as real) * (c / d);
  }

  /** Dimension of the own block of the derivative: Nxi or Nui. */
  function OwnDim(a: Agent, wrt: Wrt): nat
  {
    OwnRegion(a, wrt).len
  }

  /** `out[k] /= d` for the first n entries. */
  function ScaleHead(out: seq<real>, n: nat, d: real): (r: seq<real>)
    requires n <= |out| && d != 0.0
    ensures |r| == |out|
    ensures forall k :: 0 <= k < |out| ==> r[k] == if k < n then out[k] / d else out[k]
  {
    seq(|out|, k requires 0 <= k < |out| => if k < n then out[k] / d else out[k])
  }

  /** `(out + start)[k] += g[k] / d` for k < |g|. */
  function AddBlock(out: seq<real>, start: nat, g: seq<real>, d: real): (r: seq<real>)
    requires start + |g| <= |out| && d != 0.0
    ensures |r| == |out|
    ensures forall k :: 0 <= k < |out| ==> r[k] == if start <= k < start + |g| then out[k] + g[k - start] / d else out[k]
  {
    seq(|out|, k requires 0 <= k < |out| => if start <= k < start + |g| then out[k] + g[k - start] / d else out[k])
  }

  /** Neighbour p's gradient has the dimension of its copy block. */
  predicate GradientsSized(a: Agent, wrt: Wrt, grads: seq<seq<real>>)
  {
    |grads| == |a.neighbors| &&
    forall p :: 0 <= p < |a.neighbors| ==> |grads[p]| == NeighborRegion(a, wrt, p).len
  }

  /** The loop of dldx/dldu/dVdx over neighbours p..: each neighbour's gradient,
      divided by 1 + |N_j|, is added at `out + x_index_xji[j]` (or `u_index_uji[j]`). */
  function AddNeighborGradients(a: Agent, pr: Problem, wrt: Wrt, grads: seq<seq<real>>, p: nat, out: seq<real>): (r: seq<real>)
    requires Assembled(a, pr) && GradientsSized(a, wrt, grads) && p <= |a.neighbors|
    requires |out| == OutputLength(pr, wrt)
    ensures |r| == |out|
    decreases |a.neighbors| - p
  {
    if p == |a.neighbors| then out
    else
      NeighborRegionInBounds(a, pr, wrt, p);
      var n := a.neighbors[p];
      var region := CopyRegion(pr, n, wrt);
      AddNeighborGradients(a, pr, wrt, grads, p + 1, AddBlock(out, region.start, grads[p], NeighborDivisor(n)))
  }

  /** The cost section of dldx (WrtX), dldu (WrtU) and dVdx (WrtX): the output is reset,
      the agent model's gradient fills the own block and, under cost approximation, is
      divided by 1 + |N_i| before the neighbours' shares are added. */
  function CostGradient(a: Agent, pr: Problem, wrt: Wrt, ownGrad: seq<real>, grads: seq<seq<real>>): (r: seq<real>)
    requires Assembled(a, pr) && GradientsSized(a, wrt, grads) && |ownGrad| == OwnDim(a, wrt)
    ensures |r| == OutputLength(pr, wrt)
  {
    OwnRegionInBounds(a, pr, wrt);
    var out := ownGrad + seq(OutputLength(pr, wrt) - OwnDim(a, wrt), _ => 0.0);
    if a.approximatingCost then
      AddNeighborGradients(a, pr, wrt, grads, 0, ScaleHead(out, OwnDim(a, wrt), OwnDivisor(a)))
    else out
  }

  /** k lies in neighbour p's copy block. */
  predicate InBlock(a: Agent, wrt: Wrt, p: nat, k: int)
    requires p < |a.neighbors|
  {
    NeighborRegion(a, wrt, p).start <= k < NeighborRegion(a, wrt, p).start + NeighborRegion(a, wrt, p).len
  }

  /** Reference: what neighbours p.. contribute to entry k, by the closed-form offsets. */
  function Contribution(a: Agent, wrt: Wrt, grads: seq<seq<real>>, p: nat, k: int): real
    requires GradientsSized(a, wrt, grads) && p <= |a.neighbors|
    decreases |a.neighbors| - p
  {
    if p == |a.neighbors| then 0.0
    else
      (if InBlock(a, wrt, p, k) then grads[p][k - NeighborRegion(a, wrt, p).start] / NeighborDivisor(a.neighbors[p]) else 0.0)
      + Contribution(a, wrt, grads, p + 1, k)
  }

  lemma {:induction false} AddNeighborGradientsEntries(a: Agent, pr: Problem, wrt: Wrt, grads: seq<seq<real>>, p: nat, out: seq<real>)
    requires Assembled(a, pr) && GradientsSized(a, wrt, grads) && p <= |a.neighbors|
    requires |out| == OutputLength(pr, wrt)
    ensures forall k :: 0 <= k < |out| ==>
      AddNeighborGradients(a, pr, wrt, grads, p, out)[k] == out[k] + Contribution(a, wrt, grads, p, k)
    decreases |a.neighbors| - p
  {
    if p < |a.neighbors| {
      NeighborRegionInBounds(a, pr, wrt, p);
      var n := a.neighbors[p];
      var region := CopyRegion(pr, n, wrt);
      var next := AddBlock(out, region.start, grads[p], NeighborDivisor(n));
      AddNeighborGradientsEntries(a, pr, wrt, grads, p + 1, next);
    }
  }

  lemma {:induction false} ContributionNone(a: Agent, wrt: Wrt, grads: seq<seq<real>>, p: nat, k: int)
    requires GradientsSized(a, wrt, grads) && p <= |a.neighbors|
    requires forall q :: p <= q < |a.neighbors| ==> !InBlock(a, wrt, q, k)
    ensures Contribution(a, wrt, grads, p, k) == 0.0
    decreases |a.neighbors| - p
  {
    if p < |a.neighbors| {
      ContributionNone(a, wrt, grads, p + 1, k);
    }
  }

  lemma {:induction false} ContributionSingle(a: Agent, wrt: Wrt, grads: seq<seq<real>>, p: nat, p0: nat, k: int)
    requires GradientsSized(a, wrt, grads) && p <= p0 < |a.neighbors|
    requires InBlock(a, wrt, p0, k)
    requires forall q :: p <= q < |a.neighbors| && q != p0 ==> !InBlock(a, wrt, q, k)
    ensures Contribution(a, wrt, grads, p, k) ==
      grads[p0][k - NeighborRegion(a, wrt, p0).start] / NeighborDivisor(a.neighbors[p0])
    decreases |a.neighbors| - p
  {
    if p < p0 {
      ContributionSingle(a, wrt, grads, p + 1, p0, k);
    } else {
      ContributionNone(a, wrt, grads, p + 1, k);
    }
  }

  /** Neighbour blocks are ordered, lie after the own block, and (for the control)
      leave the v_ji slot of each neighbour uncovered. */
  lemma {:induction false} BlockSeparation(a: Agent, wrt: Wrt, p: nat, q: nat)
    requires p < q < |a.neighbors|
    ensures NeighborRegion(a, wrt, p).start + NeighborRegion(a, wrt, p).len <= NeighborRegion(a, wrt, q).start
    ensures wrt == WrtU ==> VOffset(a, p) + a.neighbors[p].nx <= NeighborRegion(a, wrt, q).start
  {
    BlocksOrdered(a, p, q);
  }

  /** Entry i of neighbour p's v_ji slot in the extended control. */
  function VEntry(a: Agent, p: nat, i: nat): nat
    requires p < |a.neighbors|
  {
    VOffset(a, p) + i
  }

  /**
    Entry by entry, the cost section of dldx/dldu/dVdx: the own block holds the agent
    model's gradient (divided by 1 + |N_i| under approximation), neighbour p's copy
    block holds its gradient divided by 1 + |N_j| (zero without approximation), and the
    v_ji slots of the control get nothing. By the tiling of the extended vectors these
    cases cover every entry.
   */
  lemma {:induction false} CostGradientEntries(a: Agent, pr: Problem, wrt: Wrt, ownGrad: seq<real>, grads: seq<seq<real>>)
    requires Assembled(a, pr) && GradientsSized(a, wrt, grads) && |ownGrad| == OwnDim(a, wrt)
    ensures forall k :: 0 <= k < OwnDim(a, wrt) ==>
      CostGradient(a, pr, wrt, ownGrad, grads)[k] == if a.approximatingCost then ownGrad[k] / OwnDivisor(a) else ownGrad[k]
    ensures forall p, i :: 0 <= p < |a.neighbors| && 0 <= i < NeighborRegion(a, wrt, p).len ==>
      NeighborRegion(a, wrt, p).start + i < OutputLength(pr, wrt) &&
      CostGradient(a, pr, wrt, ownGrad, grads)[NeighborRegion(a, wrt, p).start + i] ==
        if a.approximatingCost then grads[p][i] / NeighborDivisor(a.neighbors[p]) else 0.0
    ensures wrt == WrtU ==> forall p, i :: 0 <= p < |a.neighbors| && 0 <= i < a.neighbors[p].nx ==>
      VEntry(a, p, i) < pr.nu && CostGradient(a, pr, wrt, ownGrad, grads)[VEntry(a, p, i)] == 0.0
  {
    forall k | 0 <= k < OwnDim(a, wrt)
      ensures CostGradient(a, pr, wrt, ownGrad, grads)[k] == if a.approximatingCost then ownGrad[k] / OwnDivisor(a) else ownGrad[k]
    {
      OwnEntry(a, pr, wrt, ownGrad, grads, k);
    }
    forall p, i | 0 <= p < |a.neighbors| && 0 <= i < NeighborRegion(a, wrt, p).len
      ensures NeighborRegion(a, wrt, p).start + i < OutputLength(pr, wrt)
      ensures CostGradient(a, pr, wrt, ownGrad, grads)[NeighborRegion(a, wrt, p).start + i] ==
        if a.approximatingCost then grads[p][i] / NeighborDivisor(a.neighbors[p]) else 0.0
    {
      BlockEntry(a, pr, wrt, ownGrad, grads, p, i);
    }
    if wrt == WrtU {
      forall p, i | 0 <= p < |a.neighbors| && 0 <= i < a.neighbors[p].nx
        ensures VEntry(a, p, i) < pr.nu && CostGradient(a, pr, wrt, ownGrad, grads)[VEntry(a, p, i)] == 0.0
      {
        SlotEntry(a, pr, ownGrad, grads, p, i);
      }
    }
  }

  /** The cost section before the neighbour loop: the own gradient padded with zeros
      and, under approximation, divided by 1 + |N_i| in the own block. */
  function OwnPart(a: Agent, pr: Problem, wrt: Wrt, ownGrad: seq<real>): (r: seq<real>)
    requires Construct(a) == Ok(pr) && |ownGrad| == OwnDim(a, wrt)
    ensures |r| == OutputLength(pr, wrt)
    ensures forall k :: 0 <= k < |r| ==>
      (r[k] == if k < OwnDim(a, wrt) then (if a.approximatingCost then ownGrad[k] / OwnDivisor(a) else ownGrad[k]) else 0.0)
  {
    OwnRegionInBounds(a, pr, wrt);
    var out := ownGrad + seq(OutputLength(pr, wrt) - OwnDim(a, wrt), _ => 0.0);
    if a.approximatingCost then ScaleHead(out, OwnDim(a, wrt), OwnDivisor(a)) else out
  }

  /** The cost section is the own part plus, under approximation, the neighbours' shares. */
  lemma {:induction false} CostGradientSplit(a: Agent, pr: Problem, wrt: Wrt, ownGrad: seq<real>, grads: seq<seq<real>>, k: nat)
    requires Assembled(a, pr) && GradientsSized(a, wrt, grads) && |ownGrad| == OwnDim(a, wrt)
    requires k < OutputLength(pr, wrt)
    ensures CostGradient(a, pr, wrt, ownGrad, grads)[k] ==
      OwnPart(a, pr, wrt, ownGrad)[k] + (if a.approximatingCost then Contribution(a, wrt, grads, 0, k) else 0.0)
  {
    OwnRegionInBounds(a, pr, wrt);
    var out := ownGrad + seq(OutputLength(pr, wrt) - OwnDim(a, wrt), _ => 0.0);
    if a.approximatingCost {
      var scaled := ScaleHead(out, OwnDim(a, wrt), OwnDivisor(a));
      assert OwnPart(a, pr, wrt, ownGrad) == scaled;
      AddNeighborGradientsEntries(a, pr, wrt, grads, 0, scaled);
    }
  }

  lemma {:induction false} OwnEntry(a: Agent, pr: Problem, wrt: Wrt, ownGrad: seq<real>, grads: seq<seq<real>>, k: nat)
    requires Assembled(a, pr) && GradientsSized(a, wrt, grads) && |ownGrad| == OwnDim(a, wrt)
    requires k < OwnDim(a, wrt)
    ensures k < OutputLength(pr, wrt)
    ensures CostGradient(a, pr, wrt, ownGrad, grads)[k] == if a.approximatingCost then ownGrad[k] / OwnDivisor(a) else ownGrad[k]
  {
    OwnRegionInBounds(a, pr, wrt);
    CostGradientSplit(a, pr, wrt, ownGrad, grads, k);
    if a.approximatingCost {
      forall q | 0 <= q < |a.neighbors|
        ensures !InBlock(a, wrt, q, k)
      {
        NeighborRegionInBounds(a, pr, wrt, q);
      }
      ContributionNone(a, wrt, grads, 0, k);
    }
  }

  lemma {:induction false} BlockEntry(a: Agent, pr: Problem, wrt: Wrt, ownGrad: seq<real>, grads: seq<seq<real>>, p: nat, i: nat)
    requires Assembled(a, pr) && GradientsSized(a, wrt, grads) && |ownGrad| == OwnDim(a, wrt)
    requires p < |a.neighbors| && i < NeighborRegion(a, wrt, p).len
    ensures NeighborRegion(a, wrt, p).start + i < OutputLength(pr, wrt)
    ensures CostGradient(a, pr, wrt, ownGrad, grads)[NeighborRegion(a, wrt, p).start + i] ==
      if a.approximatingCost then grads[p][i] / NeighborDivisor(a.neighbors[p]) else 0.0
  {
    var k := NeighborRegion(a, wrt, p).start + i;
    NeighborRegionInBounds(a, pr, wrt, p);
    CostGradientSplit(a, pr, wrt, ownGrad, grads, k);
    if a.approximatingCost {
      forall q | 0 <= q < |a.neighbors| && q != p
        ensures !InBlock(a, wrt, q, k)
      {
        if q < p { BlockSeparation(a, wrt, q, p); } else { BlockSeparation(a, wrt, p, q); }
      }
      ContributionSingle(a, wrt, grads, 0, p, k);
    }
  }

  lemma {:induction false} SlotEntry(a: Agent, pr: Problem, ownGrad: seq<real>, grads: seq<seq<real>>, p: nat, i: nat)
    requires Assembled(a, pr) && GradientsSized(a, WrtU, grads) && |ownGrad| == OwnDim(a, WrtU)
    requires p < |a.neighbors| && i < a.neighbors[p].nx
    ensures VEntry(a, p, i) < pr.nu && CostGradient(a, pr, WrtU, ownGrad, grads)[VEntry(a, p, i)] == 0.0
  {
    var k := VEntry(a, p, i);
    ScatterInBounds(a, pr, p);
    NeighborRegionInBounds(a, pr, WrtU, p);
    CostGradientSplit(a, pr, WrtU, ownGrad, grads, k);
    if a.approximatingCost {
      forall q | 0 <= q < |a.neighbors|
        ensures !InBlock(a, WrtU, q, k)
      {
        if q < p { BlockSeparation(a, WrtU, q, p); } else if q > p { BlockSeparation(a, WrtU, p, q); }
      }
      ContributionNone(a, WrtU, grads, 0, k);
    }
  }
}
