/**
  The local problem's stage cost lfct, its gradients dldx/dldu, and the
  terminal cost Vfct with its gradient dVdx, assembled from the sections
  modelled in CostAssembly, Consensus and Influence.

  The source interleaves the sections per neighbour; the model adds them
  section by section, which gives the same real-valued sums.
 */
module StageCost {
  import opened Agents
  import opened IndexMaps
  import opened Problem
  import opened Regions
  import opened Consensus
  import opened CostAssembly
  import opened Influence

  /** Neighbour j's approximation v_ij at the sampled point: its value (Nxi entries) and
      its Jacobians with respect to the extended state and the extended control. */
  datatype Approximation = Approximation(value: seq<real>, dx: seq<seq<real>>, du: seq<seq<real>>)

  /** The Jacobian of v_ij with respect to the differentiation variable. */
  function JacobianOf(ap: Approximation, wrt: Wrt): seq<seq<real>>
  {
    match wrt
    case WrtX => ap.dx
    case WrtU => ap.du
  }

  predicate ApproximationsSized(a: Agent, pr: Problem, aps: seq<Approximation>)
  {
    |aps| == |a.neighbors| &&
    forall p :: 0 <= p < |aps| ==>
      |aps[p].value| == a.nx && IsJacobian(aps[p].dx, a.nx, pr.nx) && IsJacobian(aps[p].du, a.nx, pr.nu)
  }

  /** Influence penalties of neighbours q < p. */
  function InfluenceSum(a: Agent, pr: Problem, s: Samples, aps: seq<Approximation>, p: nat): real
    requires WellSized(a, s) && ApproximationsSized(a, pr, aps) && p <= |a.neighbors|
  {
    if p == 0 then 0.0
    else InfluenceSum(a, pr, s, aps, p - 1) + InfluencePenalty(s.neighbors[p - 1].influence, aps[p - 1].value)
  }

  /**
    lfct: the cost section (own cost, rescaled under approximation, plus the neighbours'
    shares), the consensus penalties of u_i, v_ji and u_ji, and each neighbour's
    influence penalty over all Nxi entries of v_ij.
   */
  function Lfct(a: Agent, pr: Problem, s: Samples, u: seq<real>, own: real, costs: seq<real>, aps: seq<Approximation>): (r: real)
    requires Assembled(a, pr) && WellSized(a, s) && |u| == pr.nu
    requires |costs| == |a.neighbors| && ApproximationsSized(a, pr, aps)
    ensures InRange(ConsensusTerms(a, pr, s), |u|)
    ensures a.approximatingCost ==> (r ==
      own / OwnDivisor(a) + NeighborShares(a, costs, |a.neighbors|)
      + SumPenalty(ConsensusTerms(a, pr, s), u) + InfluenceSum(a, pr, s, aps, |a.neighbors|))
    ensures !a.approximatingCost ==> (r ==
      own + SumPenalty(ConsensusTerms(a, pr, s), u) + InfluenceSum(a, pr, s, aps, |a.neighbors|))
  {
    ConsensusTermsCover(a, pr, s, 0);
    RescaledCostShares(a, own, costs);
    RescaledCost(a, own, costs) + SumPenalty(ConsensusTerms(a, pr, s), u) + InfluenceSum(a, pr, s, aps, |a.neighbors|)
  }

  /** The influence-gradient loop over neighbours p..: two vector-Jacobian products each. */
  function InfluenceGradients(a: Agent, pr: Problem, s: Samples, aps: seq<Approximation>, wrt: Wrt, p: nat, out: seq<real>): (r: seq<real>)
    requires WellSized(a, s) && ApproximationsSized(a, pr, aps) && p <= |a.neighbors|
    requires |out| == OutputLength(pr, wrt)
    ensures |r| == |out|
    decreases |a.neighbors| - p
  {
    if p == |a.neighbors| then out
    else
      var next := InfluenceGradient(s.neighbors[p].influence, aps[p].value, JacobianOf(aps[p], wrt), out);
      InfluenceGradientEntries(s.neighbors[p].influence, aps[p].value, JacobianOf(aps[p], wrt), out);
      InfluenceGradients(a, pr, s, aps, wrt, p + 1, next)
  }

  /** Reference: the influence slopes of neighbours q < p at entry col. */
  function InfluenceSlope(a: Agent, pr: Problem, s: Samples, aps: seq<Approximation>, wrt: Wrt, p: nat, col: nat): real
    requires WellSized(a, s) && ApproximationsSized(a, pr, aps) && p <= |a.neighbors|
    requires col < OutputLength(pr, wrt)
  {
    if p == 0 then 0.0
    else
      var q := p - 1;
      InfluenceSlope(a, pr, s, aps, wrt, q, col)
      + Weighted(JacobianOf(aps[q], wrt), Slopes(s.neighbors[q].influence, aps[q].value), col, a.nx)
  }

  /** Entry col of the influence-gradient loop from neighbour p on adds the slopes of
      neighbours p.. to out[col]. */
  lemma {:induction false} InfluenceGradientsEntry(a: Agent, pr: Problem, s: Samples, aps: seq<Approximation>, wrt: Wrt, p: nat, out: seq<real>, col: nat)
    requires WellSized(a, s) && ApproximationsSized(a, pr, aps) && p <= |a.neighbors|
    requires |out| == OutputLength(pr, wrt) && col < |out|
    ensures InfluenceGradients(a, pr, s, aps, wrt, p, out)[col] ==
      out[col] + InfluenceSlope(a, pr, s, aps, wrt, |a.neighbors|, col) - InfluenceSlope(a, pr, s, aps, wrt, p, col)
    decreases |a.neighbors| - p
  {
    if p < |a.neighbors| {
      var next := InfluenceGradient(s.neighbors[p].influence, aps[p].value, JacobianOf(aps[p], wrt), out);
      var n := |a.neighbors|;
      var sn, s0, s1 := InfluenceSlope(a, pr, s, aps, wrt, n, col), InfluenceSlope(a, pr, s, aps, wrt, p, col), InfluenceSlope(a, pr, s, aps, wrt, p + 1, col);
      var g0, g1 := InfluenceGradients(a, pr, s, aps, wrt, p, out)[col], InfluenceGradients(a, pr, s, aps, wrt, p + 1, next)[col];
      assert next[col] == out[col] + s1 - s0 by { InfluenceGradientEntry(a, pr, s, aps, wrt, p, out, col); }
      assert g1 == next[col] + sn - s1 by { InfluenceGradientsEntry(a, pr, s, aps, wrt, p + 1, next, col); }
    }
  }

  /** Neighbour p's two vector-Jacobian products add its influence slope at col. */
  lemma {:induction false} InfluenceGradientEntry(a: Agent, pr: Problem, s: Samples, aps: seq<Approximation>, wrt: Wrt, p: nat, out: seq<real>, col: nat)
    requires WellSized(a, s) && ApproximationsSized(a, pr, aps) && p < |a.neighbors|
    requires |out| == OutputLength(pr, wrt) && col < |out|
    ensures InfluenceGradient(s.neighbors[p].influence, aps[p].value, JacobianOf(aps[p], wrt), out)[col] ==
      out[col] + InfluenceSlope(a, pr, s, aps, wrt, p + 1, col) - InfluenceSlope(a, pr, s, aps, wrt, p, col)
  {
    var J := JacobianOf(aps[p], wrt);
    var c, v := s.neighbors[p].influence, aps[p].value;
    var w := Weighted(J, Slopes(c, v), col, a.nx);
    assert InfluenceGradient(c, v, J, out)[col] == out[col] + w by { InfluenceGradientEntries(c, v, J, out); }
    assert InfluenceSlope(a, pr, s, aps, wrt, p + 1, col) == InfluenceSlope(a, pr, s, aps, wrt, p, col) + w;
  }

  lemma {:induction false} InfluenceGradientsEntries(a: Agent, pr: Problem, s: Samples, aps: seq<Approximation>, wrt: Wrt, p: nat, out: seq<real>)
    requires WellSized(a, s) && ApproximationsSized(a, pr, aps) && p <= |a.neighbors|
    requires |out| == OutputLength(pr, wrt)
    ensures forall col :: 0 <= col < |out| ==>
      InfluenceGradients(a, pr, s, aps, wrt, p, out)[col] ==
        out[col] + InfluenceSlope(a, pr, s, aps, wrt, |a.neighbors|, col) - InfluenceSlope(a, pr, s, aps, wrt, p, col)
  {
    forall col | 0 <= col < |out|
      ensures InfluenceGradients(a, pr, s, aps, wrt, p, out)[col] ==
        out[col] + InfluenceSlope(a, pr, s, aps, wrt, |a.neighbors|, col) - InfluenceSlope(a, pr, s, aps, wrt, p, col)
    {
      InfluenceGradientsEntry(a, pr, s, aps, wrt, p, out, col);
    }
  }

  /** dldx: cost section, then the influence gradients (the consensus terms do not
      depend on x). Entry by entry it is the cost gradient plus the influence slopes. */
  function Dldx(a: Agent, pr: Problem, s: Samples, ownGrad: seq<real>, grads: seq<seq<real>>, aps: seq<Approximation>): (r: seq<real>)
    requires Assembled(a, pr) && WellSized(a, s) && ApproximationsSized(a, pr, aps)
    requires GradientsSized(a, WrtX, grads) && |ownGrad| == a.nx
    ensures |r| == pr.nx
    ensures forall k :: 0 <= k < pr.nx ==>
      r[k] == CostGradient(a, pr, WrtX, ownGrad, grads)[k] + InfluenceSlope(a, pr, s, aps, WrtX, |a.neighbors|, k)
  {
    var base := CostGradient(a, pr, WrtX, ownGrad, grads);
    InfluenceGradientsEntries(a, pr, s, aps, WrtX, 0, base);
    InfluenceGradients(a, pr, s, aps, WrtX, 0, base)
  }

  /** dldu: cost section, consensus gradients of u_i, v_ji and u_ji, then the influence
      gradients. Entry by entry it is the cost gradient plus the single consensus slope
      at that entry plus the influence slopes. */
  function Dldu(a: Agent, pr: Problem, s: Samples, u: seq<real>, ownGrad: seq<real>, grads: seq<seq<real>>, aps: seq<Approximation>): (r: seq<real>)
    requires Assembled(a, pr) && WellSized(a, s) && ApproximationsSized(a, pr, aps) && |u| == pr.nu
    requires GradientsSized(a, WrtU, grads) && |ownGrad| == a.nu
    ensures |r| == pr.nu
    ensures InRange(ConsensusTerms(a, pr, s), |u|)
    ensures forall k :: 0 <= k < pr.nu ==>
      r[k] == CostGradient(a, pr, WrtU, ownGrad, grads)[k] + GradientAt(ConsensusTerms(a, pr, s), u, k)
        + InfluenceSlope(a, pr, s, aps, WrtU, |a.neighbors|, k)
  {
    ConsensusTermsCover(a, pr, s, 0);
    var ts := ConsensusTerms(a, pr, s);
    var base := CostGradient(a, pr, WrtU, ownGrad, grads);
    AddGradientsEntries(ts, u, base);
    var withConsensus := AddGradients(ts, u, base);
    InfluenceGradientsEntries(a, pr, s, aps, WrtU, 0, withConsensus);
    InfluenceGradients(a, pr, s, aps, WrtU, 0, withConsensus)
  }

  /** Every v_ij moved by h along column col of its Jacobian. */
  function MovedAll(a: Agent, pr: Problem, aps: seq<Approximation>, wrt: Wrt, col: nat, h: real): (r: seq<Approximation>)
    requires ApproximationsSized(a, pr, aps) && col < OutputLength(pr, wrt)
    ensures ApproximationsSized(a, pr, r)
  {
    seq(|aps|, p requires 0 <= p < |aps| =>
      Approximation(Moved(aps[p].value, JacobianOf(aps[p], wrt), col, h), aps[p].dx, aps[p].du))
  }

  /** Curvature of the influence terms of neighbours q < p along column col. */
  function InfluenceCurvature(a: Agent, pr: Problem, s: Samples, aps: seq<Approximation>, wrt: Wrt, p: nat, col: nat): real
    requires WellSized(a, s) && ApproximationsSized(a, pr, aps) && p <= |a.neighbors|
    requires col < OutputLength(pr, wrt)
  {
    if p == 0 then 0.0
    else InfluenceCurvature(a, pr, s, aps, wrt, p - 1, col) + Curvature(s.neighbors[p - 1].influence, JacobianOf(aps[p - 1], wrt), col, a.nx)
  }

  lemma {:induction false} InfluenceSumAlongColumn(a: Agent, pr: Problem, s: Samples, aps: seq<Approximation>, wrt: Wrt, p: nat, col: nat, h: real)
    requires WellSized(a, s) && ApproximationsSized(a, pr, aps) && p <= |a.neighbors|
    requires col < OutputLength(pr, wrt)
    ensures InfluenceSum(a, pr, s, MovedAll(a, pr, aps, wrt, col, h), p) ==
      InfluenceSum(a, pr, s, aps, p) + Change(InfluenceSlope(a, pr, s, aps, wrt, p, col), InfluenceCurvature(a, pr, s, aps, wrt, p, col), h)
  {
    if p > 0 {
      var q := p - 1;
      var c := s.neighbors[q].influence;
      var J := JacobianOf(aps[q], wrt);
      var moved := MovedAll(a, pr, aps, wrt, col, h);
      var w, cv := Weighted(J, Slopes(c, aps[q].value), col, a.nx), Curvature(c, J, col, a.nx);
      var sl, cu := InfluenceSlope(a, pr, s, aps, wrt, q, col), InfluenceCurvature(a, pr, s, aps, wrt, q, col);
      var i0, i1 := InfluenceSum(a, pr, s, aps, q), InfluenceSum(a, pr, s, moved, q);
      var p0, p1 := InfluencePenalty(c, aps[q].value), InfluencePenalty(c, moved[q].value);
      assert i1 == i0 + Change(sl, cu, h) by {
        InfluenceSumAlongColumn(a, pr, s, aps, wrt, q, col, h);
      }
      assert p1 == p0 + Change(w, cv, h) by {
        PenaltySumAlongColumn(c, aps[q].value, J, col, h, a.nx);
      }
      assert InfluenceSum(a, pr, s, moved, p) == i1 + p1;
      assert InfluenceSum(a, pr, s, aps, p) == i0 + p0;
      ExpansionsAdd(i0, i1, p0, p1, sl, cu, w, cv,
        InfluenceSlope(a, pr, s, aps, wrt, p, col), InfluenceCurvature(a, pr, s, aps, wrt, p, col), h);
    }
  }

  /**
    The consensus and influence sections of lfct move along entry k of the extended
    control: moving u[k] by h (and every v_ij along its Jacobian column k) changes
    them with slope "consensus gradient plus influence slopes at k".
   */
  lemma {:induction false} ControlExpansion(a: Agent, pr: Problem, s: Samples, u: seq<real>, aps: seq<Approximation>, k: nat, h: real)
    requires Assembled(a, pr) && WellSized(a, s) && ApproximationsSized(a, pr, aps) && |u| == pr.nu && k < pr.nu
    ensures InRange(ConsensusTerms(a, pr, s), |u|)
    ensures Moves(SumPenalty(ConsensusTerms(a, pr, s), u) + InfluenceSum(a, pr, s, aps, |a.neighbors|),
                  SumPenalty(ConsensusTerms(a, pr, s), u[k := u[k] + h]) + InfluenceSum(a, pr, s, MovedAll(a, pr, aps, WrtU, k, h), |a.neighbors|),
                  GradientAt(ConsensusTerms(a, pr, s), u, k) + InfluenceSlope(a, pr, s, aps, WrtU, |a.neighbors|, k),
                  CurvatureAt(ConsensusTerms(a, pr, s), k) + InfluenceCurvature(a, pr, s, aps, WrtU, |a.neighbors|, k), h)
  {
    var ts := ConsensusTerms(a, pr, s);
    var n := |a.neighbors|;
    ConsensusTermsCover(a, pr, s, k);
    var g, c := GradientAt(ts, u, k), CurvatureAt(ts, k);
    var sl, cu := InfluenceSlope(a, pr, s, aps, WrtU, n, k), InfluenceCurvature(a, pr, s, aps, WrtU, n, k);
    var s0, s1 := SumPenalty(ts, u), SumPenalty(ts, u[k := u[k] + h]);
    var p0, p1 := InfluenceSum(a, pr, s, aps, n), InfluenceSum(a, pr, s, MovedAll(a, pr, aps, WrtU, k, h), n);
    assert s1 == s0 + Change(g, c, h) by { SumPenaltyExpansion(ts, u, k, h); }
    assert p1 == p0 + Change(sl, cu, h) by { InfluenceSumAlongColumn(a, pr, s, aps, WrtU, n, k, h); }
    ExpansionsAdd(s0, s1, p0, p1, g, c, sl, cu, g + sl, c + cu, h);
  }

  /**
    dldu is the derivative of lfct in its consensus and influence sections: moving
    entry k of the extended control by h (and every v_ij along its Jacobian column k)
    changes those sections of lfct by exactly (dldu[k] - cost section[k]) * h plus a
    curvature term. The cost section's weights are those of lfct's rescaling
    (CostGradientEntries, RescaledCostShares).
   */
  lemma {:induction false} DlduIsDerivative(a: Agent, pr: Problem, s: Samples, u: seq<real>, ownGrad: seq<real>, grads: seq<seq<real>>,
                         aps: seq<Approximation>, k: nat, h: real)
    requires Assembled(a, pr) && WellSized(a, s) && ApproximationsSized(a, pr, aps) && |u| == pr.nu && k < pr.nu
    requires GradientsSized(a, WrtU, grads) && |ownGrad| == a.nu
    ensures InRange(ConsensusTerms(a, pr, s), |u|)
    ensures Moves(SumPenalty(ConsensusTerms(a, pr, s), u) + InfluenceSum(a, pr, s, aps, |a.neighbors|),
                  SumPenalty(ConsensusTerms(a, pr, s), u[k := u[k] + h]) + InfluenceSum(a, pr, s, MovedAll(a, pr, aps, WrtU, k, h), |a.neighbors|),
                  Dldu(a, pr, s, u, ownGrad, grads, aps)[k] - CostGradient(a, pr, WrtU, ownGrad, grads)[k],
                  CurvatureAt(ConsensusTerms(a, pr, s), k) + InfluenceCurvature(a, pr, s, aps, WrtU, |a.neighbors|, k), h)
  {
    ConsensusTermsCover(a, pr, s, k);
    ControlExpansion(a, pr, s, u, aps, k, h);
    var d := Dldu(a, pr, s, u, ownGrad, grads, aps)[k] - CostGradient(a, pr, WrtU, ownGrad, grads)[k];
    assert d == GradientAt(ConsensusTerms(a, pr, s), u, k) + InfluenceSlope(a, pr, s, aps, WrtU, |a.neighbors|, k);
  }

  /** dldx is the derivative of lfct's influence section: moving entry k of the extended
      state by h (every v_ij along its Jacobian column k) changes it by exactly
      (dldx[k] - cost section[k]) * h plus a curvature term. */
  lemma {:induction false} DldxIsDerivative(a: Agent, pr: Problem, s: Samples, ownGrad: seq<real>, grads: seq<seq<real>>,
                         aps: seq<Approximation>, k: nat, h: real)
    requires Assembled(a, pr) && WellSized(a, s) && ApproximationsSized(a, pr, aps) && k < pr.nx
    requires GradientsSized(a, WrtX, grads) && |ownGrad| == a.nx
    ensures Moves(InfluenceSum(a, pr, s, aps, |a.neighbors|), InfluenceSum(a, pr, s, MovedAll(a, pr, aps, WrtX, k, h), |a.neighbors|),
                  Dldx(a, pr, s, ownGrad, grads, aps)[k] - CostGradient(a, pr, WrtX, ownGrad, grads)[k],
                  InfluenceCurvature(a, pr, s, aps, WrtX, |a.neighbors|, k), h)
  {
    InfluenceSumAlongColumn(a, pr, s, aps, WrtX, |a.neighbors|, k, h);
    var d := Dldx(a, pr, s, ownGrad, grads, aps)[k] - CostGradient(a, pr, WrtX, ownGrad, grads)[k];
    assert d == InfluenceSlope(a, pr, s, aps, WrtX, |a.neighbors|, k);
  }

  /** Vfct: the terminal cost with the same rescaling as lfct's cost section. */
  function Vfct(a: Agent, own: real, costs: seq<real>): (r: real)
    requires |costs| == |a.neighbors|
    ensures a.approximatingCost ==> r == own / OwnDivisor(a) + NeighborShares(a, costs, |a.neighbors|)
    ensures !a.approximatingCost ==> r == own
  {
    RescaledCostShares(a, own, costs);
    RescaledCost(a, own, costs)
  }

  /** dVdx: the terminal cost gradient, block by block with Vfct's weights. */
  function DVdx(a: Agent, pr: Problem, ownGrad: seq<real>, grads: seq<seq<real>>): (r: seq<real>)
    requires Assembled(a, pr) && GradientsSized(a, WrtX, grads) && |ownGrad| == a.nx
    ensures |r| == pr.nx
    ensures forall k :: 0 <= k < a.nx ==>
      r[k] == if a.approximatingCost then ownGrad[k] / OwnDivisor(a) else ownGrad[k]
    ensures forall p, i :: 0 <= p < |a.neighbors| && 0 <= i < a.neighbors[p].nx ==>
      XOffset(a, p) + i < pr.nx &&
      r[XOffset(a, p) + i] == if a.approximatingCost then grads[p][i] / NeighborDivisor(a.neighbors[p]) else 0.0
  {
    CostGradientEntries(a, pr, WrtX, ownGrad, grads);
    CostGradient(a, pr, WrtX, ownGrad, grads)
  }
}
