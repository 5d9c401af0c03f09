/**
  The consensus part of the stage cost (lfct) and of its control gradient
  (dldu): the ADMM augmented-Lagrangian terms mu*(z - w) + rho/2*(z - w)^2,
  one per consistency constraint between a local variable w and its coupling
  variable z.

  The terms for the agent's own controls and for the copied neighbour
  controls u_ji and external influences v_ji are gathered into one list of
  `Term`s, each addressing one entry of the extended control. lfct sums the
  penalties and dldu adds each term's derivative at its entry. The lemmas show
  that what dldu adds is the exact first-order change of what lfct sums, and
  that every entry of the extended control carries exactly one term.
 */
module Consensus {
  import opened Agents
  import opened IndexMaps
  import opened Tiling
  import opened Problem

  /** One consistency penalty: multiplier times residual plus half the penalty
      parameter times the squared residual, with residual z - w. */
  function Penalty(z: real, mu: real, rho: real, w: real): real
  {
    mu * (z - w) + 0.5 * rho * (z - w) * (z - w)
  }

  /** What dldu adds for one consistency constraint: (mu + rho*(z - w)) * (-1). */
  function PenaltyGradient(z: real, mu: real, rho: real, w: real): real
  {
    (mu + rho * (z - w)) * -1.0
  }

  /** The gradient is the exact slope of the penalty: moving w by h changes the
      penalty by gradient*h plus the curvature term rho/2*h^2. */
  lemma {:induction false} PenaltyExpansion(z: real, mu: real, rho: real, w: real, h: real)
    ensures Penalty(z, mu, rho, w + h) == Penalty(z, mu, rho, w) + Change(PenaltyGradient(z, mu, rho, w), rho, h)
  {
    var r := z - w;
    assert z - (w + h) == r - h;
    calc {
      Penalty(z, mu, rho, w + h);
      mu * (r - h) + 0.5 * rho * (r - h) * (r - h);
      { assert (r - h) * (r - h) == r * r - 2.0 * r * h + h * h; }
      mu * r + 0.5 * rho * r * r - (mu + rho * r) * h + 0.5 * rho * h * h;
    }
  }

  /** With a non-negative penalty parameter the penalty lies above its tangent. */
  lemma {:induction false} PenaltyAboveTangent(z: real, mu: real, rho: real, w: real, h: real)
    requires rho >= 0.0
    ensures Penalty(z, mu, rho, w + h) >= Penalty(z, mu, rho, w) + PenaltyGradient(z, mu, rho, w) * h
  {
    PenaltyExpansion(z, mu, rho, w, h);
    assert rho * (h * h) >= 0.0;
  }

  /** One consistency constraint on entry `at` of the extended control. */
  datatype Term = Term(at: nat, z: real, mu: real, rho: real)

  /** Every term addresses an entry of a control vector of length n. */
  predicate InRange(ts: seq<Term>, n: nat)
  {
    forall i :: 0 <= i < |ts| ==> ts[i].at < n
  }

  /** lfct's consensus sum. */
  function SumPenalty(ts: seq<Term>, u: seq<real>): real
    requires InRange(ts, |u|)
    decreases |ts|
  {
    if |ts| == 0 then 0.0
    else Penalty(ts[0].z, ts[0].mu, ts[0].rho, u[ts[0].at]) + SumPenalty(ts[1..], u)
  }

  /** Sum of the gradients of the terms on entry k. */
  function GradientAt(ts: seq<Term>, u: seq<real>, k: nat): real
    requires InRange(ts, |u|)
    decreases |ts|
  {
    if |ts| == 0 then 0.0
    else (if ts[0].at == k then PenaltyGradient(ts[0].z, ts[0].mu, ts[0].rho, u[k]) else 0.0) + GradientAt(ts[1..], u, k)
  }

  /** Sum of the penalty parameters of the terms on entry k. */
  function CurvatureAt(ts: seq<Term>, k: nat): real
    decreases |ts|
  {
    if |ts| == 0 then 0.0
    else (if ts[0].at == k then ts[0].rho else 0.0) + CurvatureAt(ts[1..], k)
  }

  /** Number of terms on entry k. */
  function CountAt(ts: seq<Term>, k: int): nat
    decreases |ts|
  {
    if |ts| == 0 then 0
    else (if ts[0].at == k then 1 else 0) + CountAt(ts[1..], k)
  }

  /** The change of a quadratic with slope g and curvature c over a step h. */
  function Change(g: real, c: real, h: real): real
  {
    g * h + 0.5 * c * h * h
  }

  /** A quantity moves from `before` to `after` over a step h with slope g and curvature c:
      the step changes it by exactly Change(g, c, h). */
  predicate Moves(before: real, after: real, g: real, c: real, h: real)
  {
    after == before + Change(g, c, h)
  }

  /** Changes add up slope by slope and curvature by curvature. */
  lemma {:induction false} ChangeAdds(g0: real, c0: real, g: real, c: real, h: real)
    ensures Change(g0, c0, h) + Change(g, c, h) == Change(g0 + g, c0 + c, h)
  {
  }

  /** Two exact expansions over the same step add up: the sum moves with slope g and
      curvature c, the sums of the two slopes and of the two curvatures. */
  lemma {:induction false} ExpansionsAdd(s0: real, s1: real, p0: real, p1: real, g0: real, c0: real, g1: real, c1: real,
                                         g: real, c: real, h: real)
    requires s1 == s0 + Change(g0, c0, h)
    requires p1 == p0 + Change(g1, c1, h)
    requires g == g0 + g1 && c == c0 + c1
    ensures s1 + p1 == s0 + p0 + Change(g, c, h)
  {
    ChangeAdds(g0, c0, g1, c1, h);
  }

  /** One term's contribution after moving u[k] by h. */
  lemma {:induction false} TermChange(t: Term, u: seq<real>, k: nat, h: real)
    requires t.at < |u| && k < |u|
    ensures Penalty(t.z, t.mu, t.rho, u[k := u[k] + h][t.at]) ==
      Penalty(t.z, t.mu, t.rho, u[t.at]) +
      Change(if t.at == k then PenaltyGradient(t.z, t.mu, t.rho, u[k]) else 0.0, if t.at == k then t.rho else 0.0, h)
  {
    if t.at == k {
      PenaltyExpansion(t.z, t.mu, t.rho, u[k], h);
    }
  }

  /** Moving one entry u[k] by h changes lfct's consensus sum by exactly
      GradientAt*h + CurvatureAt/2*h^2: the gradient dldu adds at k is the
      derivative of the sum lfct computes. */
  lemma {:induction false} SumPenaltyExpansion(ts: seq<Term>, u: seq<real>, k: nat, h: real)
    requires InRange(ts, |u|) && k < |u|
    ensures InRange(ts, |u[k := u[k] + h]|)
    ensures SumPenalty(ts, u[k := u[k] + h]) == SumPenalty(ts, u) + Change(GradientAt(ts, u, k), CurvatureAt(ts, k), h)
    decreases |ts|
  {
    if |ts| > 0 {
      var t := ts[0];
      SumPenaltyExpansion(ts[1..], u, k, h);
      TermChange(t, u, k, h);
      ChangeAdds(if t.at == k then PenaltyGradient(t.z, t.mu, t.rho, u[k]) else 0.0, if t.at == k then t.rho else 0.0,
        GradientAt(ts[1..], u, k), CurvatureAt(ts[1..], k), h);
    }
  }

  /** dldu's scatter: each term adds its gradient to `out` at its entry, in list order. */
  function AddGradients(ts: seq<Term>, u: seq<real>, out: seq<real>): (r: seq<real>)
    requires InRange(ts, |u|) && |out| == |u|
    ensures |r| == |out|
    decreases |ts|
  {
    if |ts| == 0 then out
    else
      var t := ts[0];
      AddGradients(ts[1..], u, out[t.at := out[t.at] + PenaltyGradient(t.z, t.mu, t.rho, u[t.at])])
  }

  /** After the scatter every entry holds its old value plus the gradient of all the
      terms on it. */
  lemma {:induction false} AddGradientsEntries(ts: seq<Term>, u: seq<real>, out: seq<real>)
    requires InRange(ts, |u|) && |out| == |u|
    ensures forall k :: 0 <= k < |out| ==> AddGradients(ts, u, out)[k] == out[k] + GradientAt(ts, u, k)
    decreases |ts|
  {
    if |ts| > 0 {
      var t := ts[0];
      var out' := out[t.at := out[t.at] + PenaltyGradient(t.z, t.mu, t.rho, u[t.at])];
      AddGradientsEntries(ts[1..], u, out');
    }
  }

  lemma {:induction false} CountAtAppend(s: seq<Term>, t: seq<Term>, k: int)
    ensures CountAt(s + t, k) == CountAt(s, k) + CountAt(t, k)
    decreases |s|
  {
    if |s| > 0 {
      assert (s + t)[1..] == s[1..] + t;
      CountAtAppend(s[1..], t, k);
    } else {
      assert s + t == t;
    }
  }

  /** The three sampled trajectories of one consistency constraint at time t:
      coupling variable z, multiplier mu and penalty parameter rho, entry by entry. */
  datatype Consistency = Consistency(z: seq<real>, mu: seq<real>, rho: seq<real>)

  /** All three have n entries. */
  predicate Sized(c: Consistency, n: nat)
  {
    |c.z| == n && |c.mu| == n && |c.rho| == n
  }

  /**
    The sampled data of one neighbour relation, as lfct/dldu/dldx interpolate it:
    - `influenceCopy`: for v_ji, the neighbour's external-influence coupling z_v with
      the coupled multiplier mu_v and penalty rho_v (Nxj entries);
    - `controlCopy`: for u_ji, the neighbour's coupling z_u with the coupled
      multiplier mu_u and penalty rho_u (Nuj entries);
    - `influence`: for v_ij, the external-influence coupling, multiplier and penalty
      states of this relation (Nxi entries).
   */
  datatype NeighborSamples = NeighborSamples(influenceCopy: Consistency, controlCopy: Consistency, influence: Consistency)

  /** The agent's own coupling/multiplier/penalty samples for u_i and one record per neighbour. */
  datatype Samples = Samples(own: Consistency, neighbors: seq<NeighborSamples>)

  /** The sampled trajectories have the dimensions of the variables they belong to. */
  predicate WellSized(a: Agent, s: Samples)
  {
    Sized(s.own, a.nu) && |s.neighbors| == |a.neighbors| &&
    forall p :: 0 <= p < |a.neighbors| ==>
      Sized(s.neighbors[p].influenceCopy, a.neighbors[p].nx) &&
      Sized(s.neighbors[p].controlCopy, a.neighbors[p].nu) &&
      Sized(s.neighbors[p].influence, a.nx)
  }

  /** Terms base+i, ..., base+n-1 of one consistency constraint, reading entries i.. of c. */
  function TermsFrom(c: Consistency, base: nat, i: nat, n: nat): seq<Term>
    requires Sized(c, n) && i <= n
    decreases n - i
  {
    if i == n then []
    else [Term(base + i, c.z[i], c.mu[i], c.rho[i])] + TermsFrom(c, base, i + 1, n)
  }

  /** The loop `for k < n: w = (u + base)[k]` covers exactly [base + i, base + n). */
  lemma {:induction false} TermsFromCount(c: Consistency, base: nat, i: nat, n: nat, k: int)
    requires Sized(c, n) && i <= n
    ensures CountAt(TermsFrom(c, base, i, n), k) == Hit(k, base + i, n - i)
    ensures InRange(TermsFrom(c, base, i, n), base + n)
    decreases n - i
  {
    if i < n {
      var head := [Term(base + i, c.z[i], c.mu[i], c.rho[i])];
      TermsFromCount(c, base, i + 1, n, k);
      CountAtAppend(head, TermsFrom(c, base, i + 1, n), k);
      assert head[1..] == [];
    }
  }

  /** Terms of neighbours p.. : v_ji at u_index_vji[j] + k, then u_ji at u_index_uji[j] + k. */
  function NeighborTermsFrom(a: Agent, pr: Problem, s: Samples, p: nat): seq<Term>
    requires Construct(a) == Ok(pr) && WellSized(a, s) && p <= |a.neighbors|
    decreases |a.neighbors| - p
  {
    if p == |a.neighbors| then []
    else
      ConstructedMaps(a, pr);
      var n := a.neighbors[p];
      TermsFrom(s.neighbors[p].influenceCopy, pr.maps.vji[n.id], 0, n.nx)
      + TermsFrom(s.neighbors[p].controlCopy, pr.maps.uji[n.id], 0, n.nu)
      + NeighborTermsFrom(a, pr, s, p + 1)
  }

  /** All consensus terms of lfct/dldu: own controls u_i first, then the neighbours. */
  function ConsensusTerms(a: Agent, pr: Problem, s: Samples): seq<Term>
    requires Construct(a) == Ok(pr) && WellSized(a, s)
  {
    TermsFrom(s.own, 0, 0, a.nu) + NeighborTermsFrom(a, pr, s, 0)
  }

  lemma {:induction false} NeighborTermsCover(a: Agent, pr: Problem, s: Samples, p: nat, k: int)
    requires Assembled(a, pr) && WellSized(a, s) && p <= |a.neighbors|
    ensures CountAt(NeighborTermsFrom(a, pr, s, p), k) == UCoverFrom(a, p, k)
    ensures InRange(NeighborTermsFrom(a, pr, s, p), pr.nu)
    decreases |a.neighbors| - p
  {
    if p < |a.neighbors| {
      var n := a.neighbors[p];
      ScatterInBounds(a, pr, p);
      var vs := TermsFrom(s.neighbors[p].influenceCopy, pr.maps.vji[n.id], 0, n.nx);
      var us := TermsFrom(s.neighbors[p].controlCopy, pr.maps.uji[n.id], 0, n.nu);
      var rest := NeighborTermsFrom(a, pr, s, p + 1);
      TermsFromCount(s.neighbors[p].influenceCopy, pr.maps.vji[n.id], 0, n.nx, k);
      TermsFromCount(s.neighbors[p].controlCopy, pr.maps.uji[n.id], 0, n.nu, k);
      NeighborTermsCover(a, pr, s, p + 1, k);
      CountAtAppend(vs + us, rest, k);
      CountAtAppend(vs, us, k);
      assert NeighborTermsFrom(a, pr, s, p) == vs + us + rest;
    }
  }

  /** With distinct ids every entry of the extended control [0, Nu) carries exactly one
      consensus term in lfct/dldu, and no term addresses anything outside it. So the
      gradient dldu adds at each entry is the derivative of that entry's single
      penalty and the curvature there is that term's rho. */
  lemma {:induction false} ConsensusTermsCover(a: Agent, pr: Problem, s: Samples, k: int)
    requires Assembled(a, pr) && WellSized(a, s)
    ensures InRange(ConsensusTerms(a, pr, s), pr.nu)
    ensures CountAt(ConsensusTerms(a, pr, s), k) == Hit(k, 0, pr.nu)
  {
    TermsFromCount(s.own, 0, 0, a.nu, k);
    NeighborTermsCover(a, pr, s, 0, k);
    CountAtAppend(TermsFrom(s.own, 0, 0, a.nu), NeighborTermsFrom(a, pr, s, 0), k);
    UTiling(a, k);
    OffsetsAtEnd(a);
    var ts := ConsensusTerms(a, pr, s);
    forall i | 0 <= i < |ts|
      ensures ts[i].at < pr.nu
    {
      assert a.nu <= pr.nu by {
        UCoverFromTiles(a, 0, 0);
        assert a.neighbors[..0] == [];
      }
    }
  }

  /**
    dldu's consensus part on the extended control u: starting from `out`, every
    entry k gains GradientAt, and perturbing u[k] changes lfct's consensus sum by
    exactly that gradient times h plus the curvature term.
   */
  lemma {:induction false} ConsensusGradientIsDerivative(a: Agent, pr: Problem, s: Samples, u: seq<real>, out: seq<real>, k: nat, h: real)
    requires Assembled(a, pr) && WellSized(a, s)
    requires |u| == pr.nu && |out| == pr.nu && k < pr.nu
    ensures InRange(ConsensusTerms(a, pr, s), |u|)
    ensures CountAt(ConsensusTerms(a, pr, s), k) == 1
    ensures AddGradients(ConsensusTerms(a, pr, s), u, out)[k] == out[k] + GradientAt(ConsensusTerms(a, pr, s), u, k)
    ensures SumPenalty(ConsensusTerms(a, pr, s), u[k := u[k] + h]) ==
      SumPenalty(ConsensusTerms(a, pr, s), u) + Change(GradientAt(ConsensusTerms(a, pr, s), u, k), CurvatureAt(ConsensusTerms(a, pr, s), k), h)
  {
    var ts := ConsensusTerms(a, pr, s);
    ConsensusTermsCover(a, pr, s, k);
    AddGradientsEntries(ts, u, out);
    SumPenaltyExpansion(ts, u, k, h);
  }
}
