/**
  How the blocks of the extended state and the extended control tile their
  vectors.

  The extended state is [x_i | x_j1 | x_j2 | ...] and the extended control is
  [u_i | u_j1 v_j1 | u_j2 v_j2 | ...] (u_jk: copied neighbour control, v_jk:
  external-influence slot sized to the neighbour's state). Tiling is stated
  as a coverage count: every index of [0, Nx) (resp. [0, Nu)) lies in exactly
  one block and no index outside does; pairwise disjointness and in-bounds
  follow.
 */
module Tiling {
  import opened Agents
  import opened IndexMaps

  /** 1 when k lies in [start, start + len), else 0. */
  function Hit(k: int, start: int, len: int): nat
  {
    if start <= k < start + len then 1 else 0
  }

  /** Number of x_ji blocks of neighbours p, p+1, ... that contain index k. */
  function XCoverFrom(a: Agent, p: nat, k: int): nat
    requires p <= |a.neighbors|
    decreases |a.neighbors| - p
  {
    if p == |a.neighbors| then 0
    else Hit(k, XOffset(a, p), a.neighbors[p].nx) + XCoverFrom(a, p + 1, k)
  }

  /** Number of blocks of the extended state that contain index k. */
  function XCover(a: Agent, k: int): nat
  {
    Hit(k, 0, a.nx) + XCoverFrom(a, 0, k)
  }

  /** Number of u_ji and v_ji blocks of neighbours p, p+1, ... that contain index k. */
  function UCoverFrom(a: Agent, p: nat, k: int): nat
    requires p <= |a.neighbors|
    decreases |a.neighbors| - p
  {
    if p == |a.neighbors| then 0
    else Hit(k, UOffset(a, p), a.neighbors[p].nu) + Hit(k, VOffset(a, p), a.neighbors[p].nx) + UCoverFrom(a, p + 1, k)
  }

  /** Number of blocks of the extended control that contain index k. */
  function UCover(a: Agent, k: int): nat
  {
    Hit(k, 0, a.nu) + UCoverFrom(a, 0, k)
  }

  /** The offsets after the last neighbour are the extended dimensions. */
  lemma {:induction false} OffsetsAtEnd(a: Agent)
    ensures XOffset(a, |a.neighbors|) == ExtendedNx(a)
    ensures UOffset(a, |a.neighbors|) == ExtendedNu(a)
  {
    assert a.neighbors[..|a.neighbors|] == a.neighbors;
  }

  /** Every x_ji block lies inside the neighbour part [Nxi, Nx) of the extended state. */
  lemma {:induction false} XBlockInBounds(a: Agent, p: nat)
    requires p < |a.neighbors|
    ensures a.nx <= XOffset(a, p)
    ensures XOffset(a, p) + a.neighbors[p].nx <= ExtendedNx(a)
    decreases |a.neighbors| - p
  {
    SumStep(a, p);
    if p + 1 == |a.neighbors| {
      OffsetsAtEnd(a);
    } else {
      XBlockInBounds(a, p + 1);
    }
  }

  /** Every u_ji and v_ji block lies inside the neighbour part [Nui, Nu) of the extended control. */
  lemma {:induction false} UBlockInBounds(a: Agent, p: nat)
    requires p < |a.neighbors|
    ensures a.nu <= UOffset(a, p)
    ensures VOffset(a, p) + a.neighbors[p].nx <= ExtendedNu(a)
    decreases |a.neighbors| - p
  {
    SumStep(a, p);
    if p + 1 == |a.neighbors| {
      OffsetsAtEnd(a);
    } else {
      UBlockInBounds(a, p + 1);
    }
  }

  /** Blocks of earlier neighbours end before blocks of later ones start. */
  lemma {:induction false} BlocksOrdered(a: Agent, p: nat, q: nat)
    requires p < q < |a.neighbors|
    ensures XOffset(a, p) + a.neighbors[p].nx <= XOffset(a, q)
    ensures VOffset(a, p) + a.neighbors[p].nx <= UOffset(a, q)
    decreases q - p
  {
    SumStep(a, p);
    if p + 1 < q {
      BlocksOrdered(a, p + 1, q);
      SumStep(a, p + 1);
    }
  }

  /** The x_ji blocks of neighbours p.. tile [XOffset(p), Nx) exactly. */
  lemma {:induction false} XCoverFromTiles(a: Agent, p: nat, k: int)
    requires p <= |a.neighbors|
    ensures XOffset(a, p) <= ExtendedNx(a)
    ensures XCoverFrom(a, p, k) == Hit(k, XOffset(a, p), ExtendedNx(a) - XOffset(a, p))
    decreases |a.neighbors| - p
  {
    if p == |a.neighbors| {
      OffsetsAtEnd(a);
    } else {
      SumStep(a, p);
      XCoverFromTiles(a, p + 1, k);
    }
  }

  /** The u_ji and v_ji blocks of neighbours p.. tile [UOffset(p), Nu) exactly. */
  lemma {:induction false} UCoverFromTiles(a: Agent, p: nat, k: int)
    requires p <= |a.neighbors|
    ensures UOffset(a, p) <= ExtendedNu(a)
    ensures UCoverFrom(a, p, k) == Hit(k, UOffset(a, p), ExtendedNu(a) - UOffset(a, p))
    decreases |a.neighbors| - p
  {
    if p == |a.neighbors| {
      OffsetsAtEnd(a);
    } else {
      SumStep(a, p);
      UCoverFromTiles(a, p + 1, k);
    }
  }

  /** Exact tiling of the extended state: every index of [0, Nx) lies in exactly one
      block (own or some x_ji), and no other index lies in any block. */
  lemma {:induction false} XTiling(a: Agent, k: int)
    ensures XCover(a, k) == Hit(k, 0, ExtendedNx(a))
  {
    XCoverFromTiles(a, 0, k);
    assert a.neighbors[..0] == [];
  }

  /** Exact tiling of the extended control: every index of [0, Nu) lies in exactly one
      block (own, some u_ji or some v_ji), and no other index lies in any block. */
  lemma {:induction false} UTiling(a: Agent, k: int)
    ensures UCover(a, k) == Hit(k, 0, ExtendedNu(a))
  {
    UCoverFromTiles(a, 0, k);
    assert a.neighbors[..0] == [];
  }
}
