/**
  Where the dynamics ffct and its vector-Jacobian products dfdx_vec/dfdu_vec
  write. The agent model writes the own block; a sending neighbour's coupling
  model adds to the own block and, for the derivatives, to the neighbour's copy
  block (`out + x_index_xji[j]` / `out + u_index_uji[j]`); every neighbour's
  approximation callback receives the whole output with the index vectors and
  is opaque, so its region is the whole output.
 */
module Dynamics {
  import opened Agents
  import opened IndexMaps
  import opened Problem
  import opened Regions
  import opened ConstraintBlocks

  /** ffct itself, or one of its vector-Jacobian products. */
  datatype DynamicsOp = Value | Derivative(wrt: Wrt)

  /** One callback invocation and the output regions it adds to. */
  datatype Call = Call(origin: Origin, writes: seq<Region>)

  /** The output vector's differentiation variable: ffct and dfdx_vec have length Nx. */
  function OpWrt(op: DynamicsOp): Wrt
  {
    match op
    case Value => WrtX
    case Derivative(wrt) => wrt
  }

  /** Neighbour p's calls: its coupling model if it sends, then its approximation. */
  function NeighborCalls(a: Agent, pr: Problem, op: DynamicsOp, p: nat): seq<Call>
    requires Construct(a) == Ok(pr) && p < |a.neighbors|
  {
    ConstructedMaps(a, pr);
    var n := a.neighbors[p];
    var own := OwnRegion(a, OpWrt(op));
    var coupling :=
      if !n.sending then []
      else match op
        case Value => [Call(Coupling(p), [own])]
        case Derivative(wrt) => [Call(Coupling(p), [own, CopyRegion(pr, n, wrt)])];
    coupling + [Call(Approximated(p), [Region(0, OutputLength(pr, OpWrt(op)))])]
  }

  /** The neighbour loop of ffct/dfdx_vec/dfdu_vec from neighbour p on. */
  function CallsFrom(a: Agent, pr: Problem, op: DynamicsOp, p: nat): seq<Call>
    requires Construct(a) == Ok(pr) && p <= |a.neighbors|
    decreases |a.neighbors| - p
  {
    if p == |a.neighbors| then [] else NeighborCalls(a, pr, op, p) + CallsFrom(a, pr, op, p + 1)
  }

  /** All callback invocations of ffct (Value), dfdx_vec or dfdu_vec, in order. */
  function Calls(a: Agent, pr: Problem, op: DynamicsOp): seq<Call>
    requires Construct(a) == Ok(pr)
  {
    [Call(Own, [OwnRegion(a, OpWrt(op))])] + CallsFrom(a, pr, op, 0)
  }

  /** The regions a call should add to: the own block for the agent model, the own block
      (and for derivatives the neighbour's copy block) for a coupling model, the whole
      output for an approximation callback. */
  predicate Placed(a: Agent, pr: Problem, op: DynamicsOp, c: Call)
  {
    match c.origin
    case Own => c.writes == [OwnRegion(a, OpWrt(op))]
    case Coupling(p) =>
      p < |a.neighbors| && a.neighbors[p].sending &&
      c.writes == (if op.Value? then [OwnRegion(a, WrtX)] else [OwnRegion(a, op.wrt), NeighborRegion(a, op.wrt, p)])
    case Approximated(p) => p < |a.neighbors| && c.writes == [Region(0, OutputLength(pr, OpWrt(op)))]
    case CopiedCoupling(_) => false
  }

  /** Number of calls with origin o. */
  function CallsOf(cs: seq<Call>, o: Origin): nat
    decreases |cs|
  {
    if |cs| == 0 then 0 else (if cs[0].origin == o then 1 else 0) + CallsOf(cs[1..], o)
  }

  lemma {:induction false} CallsOfAppend(s: seq<Call>, t: seq<Call>, o: Origin)
    ensures CallsOf(s + t, o) == CallsOf(s, o) + CallsOf(t, o)
    decreases |s|
  {
    if |s| > 0 {
      assert (s + t)[1..] == s[1..] + t;
      CallsOfAppend(s[1..], t, o);
    } else {
      assert s + t == t;
    }
  }

  /** Neighbour p's calls add to the regions Placed expects. */
  lemma {:induction false} NeighborCallsPlaced(a: Agent, pr: Problem, op: DynamicsOp, p: nat)
    requires Assembled(a, pr) && p < |a.neighbors|
    ensures AllPlaced(a, pr, op, NeighborCalls(a, pr, op, p))
  {
    NeighborRegionInBounds(a, pr, OpWrt(op), p);
  }

  /** Reference count: how often the neighbour loop from p on should call origin o. */
  function ExpectedCalls(a: Agent, p: nat, o: Origin): nat
  {
    match o
    case Own => 0
    case Coupling(q) => if p <= q < |a.neighbors| && a.neighbors[q].sending then 1 else 0
    case Approximated(q) => if p <= q < |a.neighbors| then 1 else 0
    case CopiedCoupling(_) => 0
  }

  /** Neighbour p's calls name p's coupling model (if it sends) and p's approximation
      once each, and nothing else. */
  lemma {:induction false} NeighborCallsCount(a: Agent, pr: Problem, op: DynamicsOp, p: nat, o: Origin)
    requires Construct(a) == Ok(pr) && p < |a.neighbors|
    ensures CallsOf(NeighborCalls(a, pr, op, p), o) == ExpectedCalls(a, p, o) - ExpectedCalls(a, p + 1, o)
  {
    var cs := NeighborCalls(a, pr, op, p);
    var approx := Call(Approximated(p), [Region(0, OutputLength(pr, OpWrt(op)))]);
    CallsOfSingle(approx, o);
    if a.neighbors[p].sending {
      assert cs == [cs[0]] + [approx] && cs[0].origin == Coupling(p);
      CallsOfSingle(cs[0], o);
      CallsOfAppend([cs[0]], [approx], o);
    } else {
      assert cs == [approx];
    }
  }

  lemma {:induction false} CallsOfSingle(c: Call, o: Origin)
    ensures CallsOf([c], o) == (if c.origin == o then 1 else 0)
  {
    assert [c][1..] == [];
  }

  /** Every call of cs is placed. */
  predicate AllPlaced(a: Agent, pr: Problem, op: DynamicsOp, cs: seq<Call>)
  {
    forall i :: 0 <= i < |cs| ==> Placed(a, pr, op, cs[i])
  }

  lemma {:induction false} AllPlacedAppend(a: Agent, pr: Problem, op: DynamicsOp, s: seq<Call>, t: seq<Call>)
    requires AllPlaced(a, pr, op, s) && AllPlaced(a, pr, op, t)
    ensures AllPlaced(a, pr, op, s + t)
  {
    forall i | 0 <= i < |s + t|
      ensures Placed(a, pr, op, (s + t)[i])
    {
      if i >= |s| {
        assert (s + t)[i] == t[i - |s|];
      }
    }
  }

  lemma {:induction false} CallsFromPlaced(a: Agent, pr: Problem, op: DynamicsOp, p: nat)
    requires Assembled(a, pr) && p <= |a.neighbors|
    ensures AllPlaced(a, pr, op, CallsFrom(a, pr, op, p))
    decreases |a.neighbors| - p
  {
    if p < |a.neighbors| {
      NeighborCallsPlaced(a, pr, op, p);
      CallsFromPlaced(a, pr, op, p + 1);
      AllPlacedAppend(a, pr, op, NeighborCalls(a, pr, op, p), CallsFrom(a, pr, op, p + 1));
    }
  }

  /** From neighbour p on, the loop calls each later neighbour's approximation once,
      each later sending neighbour's coupling model once, and never the agent model. */
  lemma {:induction false} CallsFromCount(a: Agent, pr: Problem, op: DynamicsOp, p: nat, o: Origin)
    requires Construct(a) == Ok(pr) && p <= |a.neighbors|
    ensures CallsOf(CallsFrom(a, pr, op, p), o) == ExpectedCalls(a, p, o)
    decreases |a.neighbors| - p
  {
    if p < |a.neighbors| {
      NeighborCallsCount(a, pr, op, p, o);
      CallsFromCount(a, pr, op, p + 1, o);
      CallsOfAppend(NeighborCalls(a, pr, op, p), CallsFrom(a, pr, op, p + 1), o);
    } else {
      assert CallsFrom(a, pr, op, p) == [];
    }
  }

  /**
    ffct, dfdx_vec and dfdu_vec invoke the agent model once, each sending neighbour's
    coupling model once and each neighbour's approximation once; with distinct ids the
    coupling derivatives land in the own block and in that neighbour's copy block, and
    every region lies inside the output vector.
   */
  lemma {:induction false} DynamicsCallsPlaced(a: Agent, pr: Problem, op: DynamicsOp)
    requires Assembled(a, pr)
    ensures forall i :: 0 <= i < |Calls(a, pr, op)| ==> Placed(a, pr, op, Calls(a, pr, op)[i])
    ensures CallsOf(Calls(a, pr, op), Own) == 1
    ensures forall q :: 0 <= q < |a.neighbors| ==>
      CallsOf(Calls(a, pr, op), Approximated(q)) == 1 &&
      CallsOf(Calls(a, pr, op), Coupling(q)) == (if a.neighbors[q].sending then 1 else 0)
    ensures forall i, r :: 0 <= i < |Calls(a, pr, op)| && r in Calls(a, pr, op)[i].writes ==>
      r.start + r.len <= OutputLength(pr, OpWrt(op))
  {
    var head, rest := [Call(Own, [OwnRegion(a, OpWrt(op))])], CallsFrom(a, pr, op, 0);
    assert Calls(a, pr, op) == head + rest;
    CallsFromPlaced(a, pr, op, 0);
    assert AllPlaced(a, pr, op, head);
    AllPlacedAppend(a, pr, op, head, rest);
    CallsCount(a, pr, op, Own);
    forall q | 0 <= q < |a.neighbors|
      ensures CallsOf(Calls(a, pr, op), Approximated(q)) == 1
      ensures CallsOf(Calls(a, pr, op), Coupling(q)) == (if a.neighbors[q].sending then 1 else 0)
    {
      CallsCount(a, pr, op, Approximated(q));
      CallsCount(a, pr, op, Coupling(q));
    }
    forall i, r | 0 <= i < |Calls(a, pr, op)| && r in Calls(a, pr, op)[i].writes
      ensures r.start + r.len <= OutputLength(pr, OpWrt(op))
    {
      PlacedInBounds(a, pr, op, Calls(a, pr, op)[i]);
    }
  }

  /** The whole call list: the agent model once, then the neighbour loop. */
  lemma {:induction false} CallsCount(a: Agent, pr: Problem, op: DynamicsOp, o: Origin)
    requires Construct(a) == Ok(pr)
    ensures CallsOf(Calls(a, pr, op), o) == (if o.Own? then 1 else ExpectedCalls(a, 0, o))
  {
    var head, rest := [Call(Own, [OwnRegion(a, OpWrt(op))])], CallsFrom(a, pr, op, 0);
    assert Calls(a, pr, op) == head + rest;
    CallsOfSingle(head[0], o);
    CallsFromCount(a, pr, op, 0, o);
    CallsOfAppend(head, rest, o);
  }

  /** A placed call writes only inside the output vector. */
  lemma {:induction false} PlacedInBounds(a: Agent, pr: Problem, op: DynamicsOp, c: Call)
    requires Assembled(a, pr) && Placed(a, pr, op, c)
    ensures forall r :: r in c.writes ==> r.start + r.len <= OutputLength(pr, OpWrt(op))
  {
    OwnRegionInBounds(a, pr, OpWrt(op));
    if c.origin.Coupling? {
      NeighborRegionInBounds(a, pr, OpWrt(op), c.origin.p);
    }
  }
}
