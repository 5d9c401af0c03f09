/**
  Block layout of the stacked constraints (gfct/hfct) and of their
  vector-Jacobian products (dgdx_vec, dgdu_vec, dhdx_vec, dhdu_vec).

  The value functions write the agent's own block at offset 0 and then, per
  neighbour in list order, the coupling block (sending neighbours), the
  neighbour's own block (constraint approximation) and the copied coupling
  block (constraint approximation and receiving neighbours), each at the
  running offset idx_. The derivative functions walk the same blocks in a
  separate loop, read the adjoint at `vec + idx_`, and scatter up to two
  contributions per block into the own block and the neighbour's copy block
  of the output, advancing idx_ once per block.
 */
module ConstraintBlocks {
  import opened Agents
  import opened IndexMaps
  import opened Tiling
  import opened Problem
  import opened Regions

  /** The model a constraint block comes from; p is the neighbour's list position. */
  datatype Origin = Own | Coupling(p: nat) | Approximated(p: nat) | CopiedCoupling(p: nat)

  /** A block of the stacked constraint vector: `len` values at `out + start`. */
  datatype Block = Block(origin: Origin, start: nat, len: nat)

  /** One block as the derivative loop handles it: the adjoint slice it reads and the
      output slices its contributions are added to, in call order. */
  datatype DerivStep = DerivStep(origin: Origin, adjoint: Region, writes: seq<Region>)

  /** gfct/hfct for neighbour p with running offset idx on entry: the blocks written
      and the offset after them. */
  function NeighborBlocks(a: Agent, kind: Kind, p: nat, idx: nat): (seq<Block>, nat)
    requires p < |a.neighbors|
  {
    var n := a.neighbors[p];
    var (coupled, idx1) :=
      if n.sending then ([Block(Coupling(p), idx, Count(n.coupling, kind))], idx + Count(n.coupling, kind))
      else ([], idx);
    if a.approximatingConstraints then
      var approximated := coupled + [Block(Approximated(p), idx1, Count(n.model, kind))];
      var idx2 := idx1 + Count(n.model, kind);
      if n.receiving then
        (approximated + [Block(CopiedCoupling(p), idx2, Count(n.copiedCoupling, kind))], idx2 + Count(n.copiedCoupling, kind))
      else (approximated, idx2)
    else (coupled, idx1)
  }

  /** gfct/hfct's neighbour loop from neighbour p on. */
  function BlocksFrom(a: Agent, kind: Kind, p: nat, idx: nat): seq<Block>
    requires p <= |a.neighbors|
    decreases |a.neighbors| - p
  {
    if p == |a.neighbors| then []
    else
      var (bs, next) := NeighborBlocks(a, kind, p, idx);
      bs + BlocksFrom(a, kind, p + 1, next)
  }

  /** All blocks gfct (Equality) or hfct (Inequality) writes, in order. */
  function ValueBlocks(a: Agent, kind: Kind): seq<Block>
  {
    var own := Count(a.constraints, kind);
    [Block(Own, 0, own)] + BlocksFrom(a, kind, 0, own)
  }

  /** The blocks are contiguous: the first starts at `from`, each next one starts where
      the previous ends, and the last ends at `to`. */
  predicate Tiles(bs: seq<Block>, from: nat, to: nat)
    decreases |bs|
  {
    if |bs| == 0 then from == to
    else bs[0].start == from && Tiles(bs[1..], from + bs[0].len, to)
  }

  lemma {:induction false} TilesAppend(b1: seq<Block>, b2: seq<Block>, from: nat, mid: nat, to: nat)
    requires Tiles(b1, from, mid) && Tiles(b2, mid, to)
    ensures Tiles(b1 + b2, from, to)
    decreases |b1|
  {
    if |b1| > 0 {
      assert (b1 + b2)[1..] == b1[1..] + b2;
      TilesAppend(b1[1..], b2, from + b1[0].len, mid, to);
    } else {
      assert b1 + b2 == b2;
    }
  }

  /** One neighbour's blocks tile exactly as many entries as the constructor counted for it. */
  lemma {:induction false} NeighborBlocksTile(a: Agent, kind: Kind, p: nat, idx: nat)
    requires p < |a.neighbors|
    ensures NeighborBlocks(a, kind, p, idx).1 == idx + NeighborConstraints(a, a.neighbors[p], kind)
    ensures Tiles(NeighborBlocks(a, kind, p, idx).0, idx, NeighborBlocks(a, kind, p, idx).1)
  {
    var n := a.neighbors[p];
    var c := Count(n.coupling, kind);
    var m := Count(n.model, kind);
    var cc := Count(n.copiedCoupling, kind);
    var coupled: seq<Block> := if n.sending then [Block(Coupling(p), idx, c)] else [];
    var idx1 := if n.sending then idx + c else idx;
    assert Tiles(coupled, idx, idx1) by {
      if n.sending {
        assert coupled[1..] == [];
      }
    }
    if a.approximatingConstraints {
      var single := [Block(Approximated(p), idx1, m)];
      assert single[1..] == [];
      TilesAppend(coupled, single, idx, idx1, idx1 + m);
      if n.receiving {
        var copied := [Block(CopiedCoupling(p), idx1 + m, cc)];
        assert copied[1..] == [];
        TilesAppend(coupled + single, copied, idx, idx1 + m, idx1 + m + cc);
      }
    }
  }

  /** gfct/hfct's neighbour loop from p on tiles [idx, idx + constraints of neighbours p..). */
  lemma {:induction false} BlocksFromTile(a: Agent, kind: Kind, p: nat, idx: nat)
    requires p <= |a.neighbors|
    ensures Tiles(BlocksFrom(a, kind, p, idx), idx, idx + ConstraintsFrom(a, kind, p))
    decreases |a.neighbors| - p
  {
    if p < |a.neighbors| {
      var (bs, next) := NeighborBlocks(a, kind, p, idx);
      NeighborBlocksTile(a, kind, p, idx);
      BlocksFromTile(a, kind, p + 1, next);
      TilesAppend(bs, BlocksFrom(a, kind, p + 1, next), idx, next, idx + ConstraintsFrom(a, kind, p));
    }
  }

  /** gfct/hfct place the own block at offset 0 and the blocks are contiguous, so the
      final idx_ equals the constructor's Ng/Nh: every write `out + idx_` stays inside
      the constraint vector and no entry is left unwritten. */
  lemma {:induction false} ValueBlocksTile(a: Agent, kind: Kind)
    ensures ValueBlocks(a, kind)[0] == Block(Own, 0, Count(a.constraints, kind))
    ensures Tiles(ValueBlocks(a, kind), 0, ConstraintCount(a, kind))
  {
    var own := Count(a.constraints, kind);
    BlocksFromTile(a, kind, 0, own);
    var head := [Block(Own, 0, own)];
    assert head[1..] == [];
    TilesAppend(head, BlocksFrom(a, kind, 0, own), 0, own, ConstraintCount(a, kind));
  }

  /** Contiguous blocks lie inside [from, to). */
  lemma {:induction false} TiledBlocksInside(bs: seq<Block>, from: nat, to: nat, i: nat)
    requires Tiles(bs, from, to) && i < |bs|
    ensures from <= bs[i].start && bs[i].start + bs[i].len <= to
    decreases |bs|
  {
    if i > 0 {
      TiledBlocksInside(bs[1..], from + bs[0].len, to, i - 1);
    } else if |bs| > 1 {
      TiledBlocksInside(bs[1..], from + bs[0].len, to, 0);
    } else {
      assert bs[1..] == [];
    }
  }

  /** The stacked constraint vector: each block's callback output, concatenated. */
  function Stack(bs: seq<Block>, eval: Origin -> seq<real>): seq<real>
    decreases |bs|
  {
    if |bs| == 0 then [] else eval(bs[0].origin) + Stack(bs[1..], eval)
  }

  /** When every callback returns exactly its declared count, the stacked vector has
      length to - from and block i's output sits at [start - from, start - from + len). */
  lemma {:induction false} StackPlacesBlocks(bs: seq<Block>, eval: Origin -> seq<real>, from: nat, to: nat)
    requires Tiles(bs, from, to)
    requires forall i :: 0 <= i < |bs| ==> |eval(bs[i].origin)| == bs[i].len
    ensures |Stack(bs, eval)| == to - from
    ensures forall i :: 0 <= i < |bs| ==>
      from <= bs[i].start && bs[i].start + bs[i].len <= to &&
      Stack(bs, eval)[bs[i].start - from .. bs[i].start + bs[i].len - from] == eval(bs[i].origin)
    decreases |bs|
  {
    if |bs| > 0 {
      var rest := bs[1..];
      var head := eval(bs[0].origin);
      StackPlacesBlocks(rest, eval, from + bs[0].len, to);
      var s := Stack(bs, eval);
      assert s == head + Stack(rest, eval);
      forall i | 0 <= i < |bs|
        ensures from <= bs[i].start && bs[i].start + bs[i].len <= to
        ensures s[bs[i].start - from .. bs[i].start + bs[i].len - from] == eval(bs[i].origin)
      {
        if i == 0 {
          assert s[0 .. |head|] == head;
          TiledBlocksInside(bs, from, to, 0);
        } else {
          assert bs[i] == rest[i - 1];
          var lo := bs[i].start - from;
          var hi := bs[i].start + bs[i].len - from;
          assert s[lo .. hi] == Stack(rest, eval)[lo - |head| .. hi - |head|];
        }
      }
    }
  }

  /** The output regions a block's contributions must go to: own blocks write the own
      region, neighbour-own blocks the neighbour's copy region, and the two coupling
      blocks write both (the i-side and the j-side derivative). */
  function ExpectedWrites(a: Agent, wrt: Wrt, o: Origin): seq<Region>
    requires !o.Own? ==> o.p < |a.neighbors|
  {
    match o
    case Own => [OwnRegion(a, wrt)]
    case Coupling(p) => [OwnRegion(a, wrt), NeighborRegion(a, wrt, p)]
    case Approximated(p) => [NeighborRegion(a, wrt, p)]
    case CopiedCoupling(p) => [OwnRegion(a, wrt), NeighborRegion(a, wrt, p)]
  }

  /** A derivative step read back as the constraint block it differentiates. */
  function AdjointBlock(s: DerivStep): Block
  {
    Block(s.origin, s.adjoint.start, s.adjoint.len)
  }

  function AdjointBlocks(steps: seq<DerivStep>): (bs: seq<Block>)
    ensures |bs| == |steps|
    ensures forall i :: 0 <= i < |steps| ==> bs[i] == AdjointBlock(steps[i])
  {
    seq(|steps|, i requires 0 <= i < |steps| => AdjointBlock(steps[i]))
  }

  /** Every step refers to the own model or to a neighbour before position p. */
  predicate OriginsBelow(steps: seq<DerivStep>, p: nat)
  {
    forall i :: 0 <= i < |steps| && !steps[i].origin.Own? ==> steps[i].origin.p < p
  }

  /** The step refers to an existing neighbour and writes exactly its expected regions. */
  predicate WritesExpected(a: Agent, wrt: Wrt, s: DerivStep)
  {
    (!s.origin.Own? ==> s.origin.p < |a.neighbors|) && s.writes == ExpectedWrites(a, wrt, s.origin)
  }

  lemma {:induction false} StepsAppend(a: Agent, wrt: Wrt, s: seq<DerivStep>, t: seq<DerivStep>, p: nat)
    requires OriginsBelow(s, p) && OriginsBelow(t, p + 1)
    requires forall i :: 0 <= i < |s| ==> WritesExpected(a, wrt, s[i])
    requires forall i :: 0 <= i < |t| ==> WritesExpected(a, wrt, t[i])
    ensures OriginsBelow(s + t, p + 1)
    ensures forall i :: 0 <= i < |s + t| ==> WritesExpected(a, wrt, (s + t)[i])
  {
    forall i | 0 <= i < |s + t|
      ensures WritesExpected(a, wrt, (s + t)[i])
    {
      if i >= |s| {
        assert (s + t)[i] == t[i - |s|];
      }
    }
  }

  lemma {:induction false} AdjointBlocksAppend(s: seq<DerivStep>, t: seq<DerivStep>)
    ensures AdjointBlocks(s + t) == AdjointBlocks(s) + AdjointBlocks(t)
  {
  }

  /** One neighbour's iteration of the derivative loop: the steps it takes and idx_
      after them. It advances idx_ once per block although the coupling blocks add two
      contributions each, so it reads exactly the slices gfct/hfct wrote for that
      neighbour. With distinct ids each contribution lands in the own region or in this
      neighbour's copy region. */
  method NeighborDerivSteps(a: Agent, pr: Problem, kind: Kind, wrt: Wrt, p: nat, idx: nat)
    returns (steps: seq<DerivStep>, next: nat)
    requires Construct(a) == Ok(pr) && p < |a.neighbors|
    ensures AdjointBlocks(steps) == NeighborBlocks(a, kind, p, idx).0
    ensures next == NeighborBlocks(a, kind, p, idx).1
    ensures forall i :: 0 <= i < |steps| ==> !steps[i].origin.Own? && steps[i].origin.p == p
    ensures DistinctIds(a.neighbors) ==> forall i :: 0 <= i < |steps| ==> WritesExpected(a, wrt, steps[i])
  {
    var n := a.neighbors[p];
    assert SameLength(pr.maps) && 0 <= n.id < |pr.maps.xji| by { ConstructedMaps(a, pr); }
    var copy := CopyRegion(pr, n, wrt);
    assert DistinctIds(a.neighbors) ==> copy == NeighborRegion(a, wrt, p) by {
      if DistinctIds(a.neighbors) { NeighborRegionInBounds(a, pr, wrt, p); }
    }
    var distinct := DistinctIds(a.neighbors);
    steps := [];
    next := idx;
    if n.sending {
      var step := DerivStep(Coupling(p), Region(next, Count(n.coupling, kind)), [OwnRegion(a, wrt), copy]);
      AppendStep(a, wrt, p, distinct, steps, step);
      steps := steps + [step];
      next := next + Count(n.coupling, kind);
    }
    if a.approximatingConstraints {
      var step := DerivStep(Approximated(p), Region(next, Count(n.model, kind)), [copy]);
      AppendStep(a, wrt, p, distinct, steps, step);
      steps := steps + [step];
      next := next + Count(n.model, kind);
      if n.receiving {
        step := DerivStep(CopiedCoupling(p), Region(next, Count(n.copiedCoupling, kind)), [OwnRegion(a, wrt), copy]);
        AppendStep(a, wrt, p, distinct, steps, step);
        steps := steps + [step];
        next := next + Count(n.copiedCoupling, kind);
      }
    }
  }

  /** Appending one step of neighbour p keeps every step attributed to p and, when
      `distinct` holds, writing its expected regions; its adjoint block is appended. */
  lemma {:induction false} AppendStep(a: Agent, wrt: Wrt, p: nat, distinct: bool, s: seq<DerivStep>, x: DerivStep)
    requires forall i :: 0 <= i < |s| ==> !s[i].origin.Own? && s[i].origin.p == p
    requires !x.origin.Own? && x.origin.p == p
    requires distinct ==> (forall i :: 0 <= i < |s| ==> WritesExpected(a, wrt, s[i])) && WritesExpected(a, wrt, x)
    ensures forall i :: 0 <= i < |s + [x]| ==> !(s + [x])[i].origin.Own? && (s + [x])[i].origin.p == p
    ensures distinct ==> forall i :: 0 <= i < |s + [x]| ==> WritesExpected(a, wrt, (s + [x])[i])
    ensures AdjointBlocks(s + [x]) == AdjointBlocks(s) + [AdjointBlock(x)]
  {
    forall i | 0 <= i < |s + [x]|
      ensures (s + [x])[i] == if i < |s| then s[i] else x
    {
    }
    AdjointBlocksAppend(s, [x]);
  }

  /**
    dgdx_vec / dgdu_vec (Equality) and dhdx_vec / dhdu_vec (Inequality): the loop that
    reads adjoint slices `vec + idx_` and scatters contributions into `out`.

    The adjoint slices it reads are exactly the blocks gfct/hfct write, its final idx_
    is the constructor's Ng/Nh, and with distinct ids every contribution goes to the
    own region or to the copy region of the neighbour the block belongs to.
   */
  method DerivativeSteps(a: Agent, pr: Problem, kind: Kind, wrt: Wrt) returns (steps: seq<DerivStep>, idx: nat)
    requires Construct(a) == Ok(pr)
    ensures AdjointBlocks(steps) == ValueBlocks(a, kind)
    ensures idx == ConstraintCount(a, kind)
    ensures OriginsBelow(steps, |a.neighbors|)
    ensures DistinctIds(a.neighbors) ==> forall i :: 0 <= i < |steps| ==> WritesExpected(a, wrt, steps[i])
  {
    var own := Count(a.constraints, kind);
    steps := [DerivStep(Own, Region(0, own), [OwnRegion(a, wrt)])];
    idx := own;
    var p := 0;
    assert AdjointBlocks(steps) == [Block(Own, 0, own)];
    while p < |a.neighbors|
      invariant p <= |a.neighbors|
      invariant AdjointBlocks(steps) + BlocksFrom(a, kind, p, idx) == ValueBlocks(a, kind)
      invariant idx + ConstraintsFrom(a, kind, p) == ConstraintCount(a, kind)
      invariant OriginsBelow(steps, p)
      invariant DistinctIds(a.neighbors) ==> forall i :: 0 <= i < |steps| ==> WritesExpected(a, wrt, steps[i])
    {
      var more, next := NeighborDerivSteps(a, pr, kind, wrt, p, idx);
      LoopBlocks(a, kind, p, idx, steps, more, next);
      LoopCounts(a, kind, p, idx, next);
      LoopOrigins(steps, more, p);
      if DistinctIds(a.neighbors) {
        StepsAppend(a, wrt, steps, more, p);
      }
      steps, idx := steps + more, next;
      p := p + 1;
    }
    assert AdjointBlocks(steps) + BlocksFrom(a, kind, p, idx) == AdjointBlocks(steps) + [];
    assert AdjointBlocks(steps) + [] == AdjointBlocks(steps);
  }

  /** One iteration of the derivative loop keeps the adjoint blocks in step with gfct/hfct. */
  lemma {:induction false} LoopBlocks(a: Agent, kind: Kind, p: nat, idx: nat, steps: seq<DerivStep>, more: seq<DerivStep>, next: nat)
    requires p < |a.neighbors|
    requires AdjointBlocks(steps) + BlocksFrom(a, kind, p, idx) == ValueBlocks(a, kind)
    requires AdjointBlocks(more) == NeighborBlocks(a, kind, p, idx).0 && next == NeighborBlocks(a, kind, p, idx).1
    ensures AdjointBlocks(steps + more) + BlocksFrom(a, kind, p + 1, next) == ValueBlocks(a, kind)
  {
    var done, bs, rest := AdjointBlocks(steps), AdjointBlocks(more), BlocksFrom(a, kind, p + 1, next);
    calc {
      AdjointBlocks(steps + more) + rest;
      == { AdjointBlocksAppend(steps, more); }
      (done + bs) + rest;
      == { BlocksAssociate(done, bs, rest); }
      done + (bs + rest);
      == { assert BlocksFrom(a, kind, p, idx) == bs + rest; }
      done + BlocksFrom(a, kind, p, idx);
    }
  }

  lemma {:induction false} BlocksAssociate(x: seq<Block>, y: seq<Block>, z: seq<Block>)
    ensures (x + y) + z == x + (y + z)
  {
    assert |(x + y) + z| == |x + (y + z)|;
    forall i | 0 <= i < |x + (y + z)|
      ensures ((x + y) + z)[i] == (x + (y + z))[i]
    {
    }
  }

  /** One iteration of the derivative loop keeps idx_ plus the remaining counts at Ng/Nh. */
  lemma {:induction false} LoopCounts(a: Agent, kind: Kind, p: nat, idx: nat, next: nat)
    requires p < |a.neighbors|
    requires idx + ConstraintsFrom(a, kind, p) == ConstraintCount(a, kind)
    requires next == NeighborBlocks(a, kind, p, idx).1
    ensures next + ConstraintsFrom(a, kind, p + 1) == ConstraintCount(a, kind)
  {
    NeighborBlocksTile(a, kind, p, idx);
  }

  /** Appending neighbour p's steps keeps every origin below p + 1. */
  lemma {:induction false} LoopOrigins(steps: seq<DerivStep>, more: seq<DerivStep>, p: nat)
    requires OriginsBelow(steps, p)
    requires forall i :: 0 <= i < |more| ==> !more[i].origin.Own? && more[i].origin.p == p
    ensures OriginsBelow(steps + more, p + 1)
  {
    forall i | 0 <= i < |steps + more| && !(steps + more)[i].origin.Own?
      ensures (steps + more)[i].origin.p < p + 1
    {
      if i >= |steps| {
        assert (steps + more)[i] == more[i - |steps|];
      }
    }
  }

  /** The regions a step may write lie inside the derivative's output vector. */
  lemma {:induction false} ExpectedWritesInBounds(a: Agent, pr: Problem, wrt: Wrt, o: Origin)
    requires Assembled(a, pr)
    requires !o.Own? ==> o.p < |a.neighbors|
    ensures forall r :: r in ExpectedWrites(a, wrt, o) ==> r.start + r.len <= OutputLength(pr, wrt)
  {
    OwnRegionInBounds(a, pr, wrt);
    if !o.Own? {
      NeighborRegionInBounds(a, pr, wrt, o.p);
    }
  }
}
