/**
  Regions of the extended state and control that the local problem's callbacks
  write: the agent's own block and each neighbour's copy block, addressed either
  through the index vectors, as the source does, or through the closed-form
  offsets. Shared by the dynamics, the constraints and the cost gradients.
 */
module Regions {
  import opened Agents
  import opened IndexMaps
  import opened Tiling
  import opened Problem

  /** The differentiation variable: the *dx_vec (extended state) or *du_vec
      (extended control) form of a callback. */
  datatype Wrt = WrtX | WrtU

  /** A slice [start, start + len) of a vector. */
  datatype Region = Region(start: nat, len: nat)

  /** The agent's own output region [0, Nxi) or [0, Nui). */
  function OwnRegion(a: Agent, wrt: Wrt): Region
  {
    match wrt
    case WrtX => Region(0, a.nx)
    case WrtU => Region(0, a.nu)
  }

  /** Neighbour p's copy region, addressed through the index vectors as the source does:
      `out + x_index_xji[j]` (Nxj values) or `out + u_index_uji[j]` (Nuj values). */
  function CopyRegion(pr: Problem, n: Neighbor, wrt: Wrt): Region
    requires SameLength(pr.maps) && 0 <= n.id < |pr.maps.xji|
  {
    match wrt
    case WrtX => Region(pr.maps.xji[n.id], n.nx)
    case WrtU => Region(pr.maps.uji[n.id], n.nu)
  }

  /** Neighbour p's block of the extended state or control, from the offsets alone. */
  function NeighborRegion(a: Agent, wrt: Wrt, p: nat): Region
    requires p < |a.neighbors|
  {
    match wrt
    case WrtX => Region(XOffset(a, p), a.neighbors[p].nx)
    case WrtU => Region(UOffset(a, p), a.neighbors[p].nu)
  }

  /** Length of the output vector: Nx or Nu. */
  function OutputLength(pr: Problem, wrt: Wrt): nat
  {
    match wrt
    case WrtX => pr.nx
    case WrtU => pr.nu
  }

  /** The own region is a prefix of the output vector. */
  lemma {:induction false} OwnRegionInBounds(a: Agent, pr: Problem, wrt: Wrt)
    requires Construct(a) == Ok(pr)
    ensures OwnRegion(a, wrt).start == 0 && OwnRegion(a, wrt).len <= OutputLength(pr, wrt)
  {
  }

  /** With distinct ids, the region the index vectors address for neighbour p is its
      block by the offsets, after the own region and inside the output vector. */
  lemma {:induction false} NeighborRegionInBounds(a: Agent, pr: Problem, wrt: Wrt, p: nat)
    requires Assembled(a, pr) && p < |a.neighbors|
    ensures SameLength(pr.maps) && 0 <= a.neighbors[p].id < |pr.maps.xji|
    ensures CopyRegion(pr, a.neighbors[p], wrt) == NeighborRegion(a, wrt, p)
    ensures OwnRegion(a, wrt).len <= NeighborRegion(a, wrt, p).start
    ensures NeighborRegion(a, wrt, p).start + NeighborRegion(a, wrt, p).len <= OutputLength(pr, wrt)
  {
    ConstructedMaps(a, pr);
    ScatterInBounds(a, pr, p);
  }
}
