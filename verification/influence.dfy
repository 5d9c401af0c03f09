/**
  The external-influence consistency term of lfct/dldx/dldu: for each
  neighbour j, the neighbour approximation's v_ij(x_i, u_i, x_ji, u_ji) (Nxi
  entries, callback vfct) is compared with the coupling variable zv_ij,
  penalised by mu_v*(zv - v) + rho_v/2*(zv - v)^2 entry by entry. Its gradient
  is formed by two calls of the callback's vector-Jacobian product
  (dvdx_vec/dvdu_vec), one with -mu_v and one with -rho_v*(zv - v).

  The callbacks are opaque: the value of v_ij and its Jacobian at the sampled
  point are parameters.
 */
module Influence {
  import opened Consensus

  datatype Option<T> = None | Some(value: T)

  /** Penalties of entries 0..n-1 of v against the consistency data c. */
  function PenaltySum(c: Consistency, v: seq<real>, n: nat): real
    requires n <= |v| && n <= |c.z| && n <= |c.mu| && n <= |c.rho|
  {
    if n == 0 then 0.0 else PenaltySum(c, v, n - 1) + Penalty(c.z[n - 1], c.mu[n - 1], c.rho[n - 1], v[n - 1])
  }

  /** The influence term over all Nxi entries, as dldx/dldu differentiate it. */
  function InfluencePenalty(c: Consistency, v: seq<real>): real
    requires Sized(c, |v|)
  {
    PenaltySum(c, v, |v|)
  }

  /** lfct's influence loop as written: it runs k < Nxj (the neighbour's state
      dimension) over v and the consistency data, which have Nxi entries. A bound
      beyond Nxi reads past the end of both (None). */
  function InfluencePenaltyAsWritten(c: Consistency, v: seq<real>, nxj: nat): (r: Option<real>)
    requires Sized(c, |v|)
    ensures r.None? <==> nxj > |v|
    ensures nxj == |v| ==> r == Some(InfluencePenalty(c, v))
  {
    if nxj <= |v| then Some(PenaltySum(c, v, nxj)) else None
  }

  /** A sum over the first n entries does not depend on the entries after them. */
  lemma {:induction false} PenaltySumPrefix(c: Consistency, v: seq<real>, w: seq<real>, n: nat)
    requires n <= |v| && n <= |w| && n <= |c.z| && n <= |c.mu| && n <= |c.rho|
    requires forall k :: 0 <= k < n ==> v[k] == w[k]
    ensures PenaltySum(c, v, n) == PenaltySum(c, w, n)
  {
    if n > 0 {
      PenaltySumPrefix(c, v, w, n - 1);
    }
  }

  /** Neighbour with one state, agent with two: lfct as written ignores the second
      influence entry, so moving it changes nothing in lfct while dldx/dldu (which run
      to Nxi) report slope -1 there; with a neighbour of three states it reads past the
      end of v. The corrected term sees the entry. */
  lemma {:induction false} InfluenceLoopBoundMismatch()
    ensures var c := Consistency([0.0, 1.0], [0.0, 1.0], [0.0, 0.0]);
      var v := [0.0, 0.0];
      var moved := [0.0, 1.0];
      InfluencePenaltyAsWritten(c, v, 1) == Some(0.0) &&
      InfluencePenaltyAsWritten(c, moved, 1) == Some(0.0) &&
      InfluencePenaltyAsWritten(c, v, 3) == None &&
      InfluencePenalty(c, v) == 1.0 &&
      InfluencePenalty(c, moved) == 0.0 &&
      PenaltyGradient(c.z[1], c.mu[1], c.rho[1], v[1]) == -1.0
  {
    var c := Consistency([0.0, 1.0], [0.0, 1.0], [0.0, 0.0]);
    assert PenaltySum(c, [0.0, 0.0], 1) == 0.0;
    assert PenaltySum(c, [0.0, 1.0], 1) == 0.0;
  }

  /** J[r][k] is the derivative of v_ij's entry r with respect to entry k of the
      extended state or control: `rows` rows of `cols` entries. */
  predicate IsJacobian(J: seq<seq<real>>, rows: nat, cols: nat)
  {
    |J| == rows && forall r :: 0 <= r < rows ==> |J[r]| == cols
  }

  /** sum over r < n of vec[r] * J[r][col]. */
  function Weighted(J: seq<seq<real>>, vec: seq<real>, col: nat, n: nat): real
    requires n <= |vec| && n <= |J| && forall r :: 0 <= r < n ==> col < |J[r]|
  {
    if n == 0 then 0.0 else Weighted(J, vec, col, n - 1) + vec[n - 1] * J[n - 1][col]
  }

  /** dvdx_vec/dvdu_vec: `out` plus the transposed Jacobian applied to vec. */
  function Vjp(J: seq<seq<real>>, vec: seq<real>, out: seq<real>): (r: seq<real>)
    requires IsJacobian(J, |vec|, |out|)
    ensures |r| == |out|
  {
    seq(|out|, col requires 0 <= col < |out| => out[col] + Weighted(J, vec, col, |vec|))
  }

  /** First adjoint: the multiplier, negated entry by entry (vec = mu_v; vec[k] *= -1). */
  function MuPart(c: Consistency): seq<real>
  {
    seq(|c.mu|, k requires 0 <= k < |c.mu| => c.mu[k] * -1.0)
  }

  /** Second adjoint: rho_v[k] * (zv[k] - v[k]) * (-1). */
  function RhoPart(c: Consistency, v: seq<real>): seq<real>
    requires Sized(c, |v|)
  {
    seq(|v|, k requires 0 <= k < |v| => c.rho[k] * (c.z[k] - v[k]) * -1.0)
  }

  /** The influence gradient section of dldx/dldu: two vector-Jacobian products. */
  function InfluenceGradient(c: Consistency, v: seq<real>, J: seq<seq<real>>, out: seq<real>): seq<real>
    requires Sized(c, |v|) && IsJacobian(J, |v|, |out|)
  {
    Vjp(J, RhoPart(c, v), Vjp(J, MuPart(c), out))
  }

  /** Reference: each entry's penalty slope. */
  function Slopes(c: Consistency, v: seq<real>): (g: seq<real>)
    requires Sized(c, |v|)
    ensures |g| == |v|
  {
    seq(|v|, k requires 0 <= k < |v| => PenaltyGradient(c.z[k], c.mu[k], c.rho[k], v[k]))
  }

  /** The weighted column sum is linear in the adjoint. */
  lemma {:induction false} WeightedAdds(J: seq<seq<real>>, a: seq<real>, b: seq<real>, s: seq<real>, col: nat, n: nat)
    requires n <= |a| && n <= |b| && n <= |s| && n <= |J| && forall r :: 0 <= r < n ==> col < |J[r]|
    requires forall r :: 0 <= r < n ==> s[r] == a[r] + b[r]
    ensures Weighted(J, a, col, n) + Weighted(J, b, col, n) == Weighted(J, s, col, n)
  {
    if n > 0 {
      WeightedAdds(J, a, b, s, col, n - 1);
      var j := J[n - 1][col];
      assert a[n - 1] * j + b[n - 1] * j == s[n - 1] * j;
    }
  }

  /** The two vector-Jacobian products together apply the transposed Jacobian to the
      penalty slopes: the multiplier part and the penalty part add up to the full
      derivative -(mu + rho*(zv - v)). */
  lemma {:induction false} InfluenceGradientEntries(c: Consistency, v: seq<real>, J: seq<seq<real>>, out: seq<real>)
    requires Sized(c, |v|) && IsJacobian(J, |v|, |out|)
    ensures |InfluenceGradient(c, v, J, out)| == |out|
    ensures forall col :: 0 <= col < |out| ==>
      InfluenceGradient(c, v, J, out)[col] == out[col] + Weighted(J, Slopes(c, v), col, |v|)
  {
    forall col | 0 <= col < |out|
      ensures InfluenceGradient(c, v, J, out)[col] == out[col] + Weighted(J, Slopes(c, v), col, |v|)
    {
      forall r | 0 <= r < |v|
        ensures Slopes(c, v)[r] == MuPart(c)[r] + RhoPart(c, v)[r]
      {
        assert (c.mu[r] + c.rho[r] * (c.z[r] - v[r])) * -1.0 == c.mu[r] * -1.0 + c.rho[r] * (c.z[r] - v[r]) * -1.0;
      }
      WeightedAdds(J, MuPart(c), RhoPart(c, v), Slopes(c, v), col, |v|);
    }
  }

  /** v moved by h along column col of its Jacobian: the first-order model of v_ij
      when entry col of the extended vector moves by h. */
  function Moved(v: seq<real>, J: seq<seq<real>>, col: nat, h: real): (w: seq<real>)
    requires |J| == |v| && forall r :: 0 <= r < |v| ==> col < |J[r]|
    ensures |w| == |v|
  {
    seq(|v|, r requires 0 <= r < |v| => v[r] + h * J[r][col])
  }

  /** sum over r < n of rho[r] * J[r][col]^2: the curvature along the column. */
  function Curvature(c: Consistency, J: seq<seq<real>>, col: nat, n: nat): real
    requires n <= |c.rho| && n <= |J| && forall r :: 0 <= r < n ==> col < |J[r]|
  {
    if n == 0 then 0.0 else Curvature(c, J, col, n - 1) + c.rho[n - 1] * J[n - 1][col] * J[n - 1][col]
  }

  /** Scaling the step by j moves slope and curvature into the coefficients. */
  lemma {:induction false} ChangeScaled(g: real, rho: real, j: real, h: real)
    ensures Change(g, rho, h * j) == Change(g * j, rho * j * j, h)
  {
    assert (h * j) * (h * j) == (j * j) * (h * h);
  }

  /** One entry moved by h * j: its penalty changes by slope * j and curvature rho * j^2. */
  lemma {:induction false} PenaltyAlongStep(z: real, mu: real, rho: real, x: real, j: real, h: real)
    ensures Penalty(z, mu, rho, x + h * j) ==
      Penalty(z, mu, rho, x) + Change(PenaltyGradient(z, mu, rho, x) * j, rho * j * j, h)
  {
    PenaltyExpansion(z, mu, rho, x, h * j);
    ChangeScaled(PenaltyGradient(z, mu, rho, x), rho, j, h);
  }

  /** Entry r of v moved along column col of J. */
  lemma {:induction false} MovedEntry(c: Consistency, v: seq<real>, J: seq<seq<real>>, col: nat, h: real, r: nat)
    requires Sized(c, |v|) && |J| == |v| && forall q :: 0 <= q < |v| ==> col < |J[q]|
    requires r < |v|
    ensures Penalty(c.z[r], c.mu[r], c.rho[r], Moved(v, J, col, h)[r]) ==
      Penalty(c.z[r], c.mu[r], c.rho[r], v[r]) + Change(Slopes(c, v)[r] * J[r][col], c.rho[r] * J[r][col] * J[r][col], h)
  {
    PenaltyAlongStep(c.z[r], c.mu[r], c.rho[r], v[r], J[r][col], h);
  }

  lemma {:induction false} PenaltySumAlongColumn(c: Consistency, v: seq<real>, J: seq<seq<real>>, col: nat, h: real, n: nat)
    requires Sized(c, |v|) && |J| == |v| && forall r :: 0 <= r < |v| ==> col < |J[r]|
    requires n <= |v|
    ensures PenaltySum(c, Moved(v, J, col, h), n) ==
      PenaltySum(c, v, n) + Change(Weighted(J, Slopes(c, v), col, n), Curvature(c, J, col, n), h)
  {
    if n > 0 {
      var r := n - 1;
      var w := Moved(v, J, col, h);
      var gj, cj := Slopes(c, v)[r] * J[r][col], c.rho[r] * J[r][col] * J[r][col];
      var s0, s1 := PenaltySum(c, v, r), PenaltySum(c, w, r);
      var p0, p1 := Penalty(c.z[r], c.mu[r], c.rho[r], v[r]), Penalty(c.z[r], c.mu[r], c.rho[r], w[r]);
      var wt, cv := Weighted(J, Slopes(c, v), col, r), Curvature(c, J, col, r);
      assert s1 == s0 + Change(wt, cv, h) by {
        PenaltySumAlongColumn(c, v, J, col, h, r);
      }
      assert p1 == p0 + Change(gj, cj, h) by {
        MovedEntry(c, v, J, col, h, r);
      }
      assert Weighted(J, Slopes(c, v), col, n) == wt + gj;
      assert Curvature(c, J, col, n) == cv + cj;
      ExpansionsAdd(s0, s1, p0, p1, wt, cv, gj, cj, Weighted(J, Slopes(c, v), col, n), Curvature(c, J, col, n), h);
    }
  }

  /**
    Chain rule for the influence term: when v_ij moves along column col of its
    Jacobian, the corrected term changes by exactly the entry the two
    vector-Jacobian products add at col, times h, plus the curvature term. So what
    dldx/dldu add is the derivative of the influence term over all Nxi entries.
   */
  lemma {:induction false} InfluenceChainRule(c: Consistency, v: seq<real>, J: seq<seq<real>>, out: seq<real>, col: nat, h: real)
    requires Sized(c, |v|) && IsJacobian(J, |v|, |out|) && col < |out|
    ensures InfluencePenalty(c, Moved(v, J, col, h)) ==
      InfluencePenalty(c, v) + Change(InfluenceGradient(c, v, J, out)[col] - out[col], Curvature(c, J, col, |v|), h)
  {
    var slope := InfluenceGradient(c, v, J, out)[col] - out[col];
    var weighted := Weighted(J, Slopes(c, v), col, |v|);
    var curvature := Curvature(c, J, col, |v|);
    var moved := Moved(v, J, col, h);
    assert slope == weighted by {
      InfluenceGradientEntries(c, v, J, out);
    }
    var before, after := PenaltySum(c, v, |v|), PenaltySum(c, moved, |v|);
    assert after == before + Change(weighted, curvature, h) by {
      PenaltySumAlongColumn(c, v, J, col, h, |v|);
    }
    assert Change(weighted, curvature, h) == Change(slope, curvature, h);
    assert InfluencePenalty(c, moved) == after && InfluencePenalty(c, v) == before;
  }
}
