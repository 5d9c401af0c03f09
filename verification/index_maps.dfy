/**
  The constructor's neighbour loop: extended dimensions Nx/Nu and the three
  index vectors x_index_xji, u_index_uji and u_index_vji, indexed by
  neighbour id.

  The loop is modelled step by step (`Advance`, folded by `Run`), including
  the resize-on-demand of the index vectors. `RunPrefix` then characterises
  the result in closed form: running offsets in list order, the last
  neighbour of a repeated id winning, untouched entries left at zero.
 */
module IndexMaps {
  import opened Agents

  /** The constructor's only failure: `.at(j)` with a negative id throws (the
      comparison `j >= size()` converts j to unsigned, the vectors are resized
      to j + 1 == 0 for j == -1, and the access is out of range). */
  datatype BuildError = NegativeNeighborId(id: int)

  datatype Result<T> = Ok(value: T) | Err(error: BuildError)

  /** The three index vectors. */
  datatype Maps = Maps(xji: seq<nat>, uji: seq<nat>, vji: seq<nat>)

  /** The three vectors are always resized together. */
  predicate SameLength(m: Maps)
  {
    |m.uji| == |m.xji| && |m.vji| == |m.xji|
  }

  /** `resize(n)` on all three vectors, growing them; new entries are zero. */
  function Resize(m: Maps, n: nat): (r: Maps)
    requires SameLength(m) && |m.xji| <= n
    ensures SameLength(r) && |r.xji| == n
    ensures forall k :: 0 <= k < |m.xji| ==> r.xji[k] == m.xji[k] && r.uji[k] == m.uji[k] && r.vji[k] == m.vji[k]
    ensures forall k :: |m.xji| <= k < n ==> r.xji[k] == 0 && r.uji[k] == 0 && r.vji[k] == 0
  {
    Maps(m.xji + seq(n - |m.xji|, _ => 0), m.uji + seq(n - |m.uji|, _ => 0), m.vji + seq(n - |m.vji|, _ => 0))
  }

  /** The constructor's running state: Nx_, Nu_, the cursors x_index/u_index and the vectors. */
  datatype Cursor = Cursor(nx: nat, nu: nat, xIndex: nat, uIndex: nat, maps: Maps)

  /** One iteration of the neighbour loop for a neighbour with a non-negative id. */
  function Advance(c: Cursor, n: Neighbor): (r: Cursor)
    requires n.id >= 0 && SameLength(c.maps)
    ensures SameLength(r.maps)
  {
    var j := n.id;
    var m := if j >= |c.maps.xji| then Resize(c.maps, j + 1) else c.maps;
    Cursor(c.nx + n.nx, c.nu + n.nx + n.nu, c.xIndex + n.nx, c.uIndex + n.nu + n.nx,
           Maps(m.xji[j := c.xIndex], m.uji[j := c.uIndex], m.vji[j := c.uIndex + n.nu]))
  }

  /** The neighbour loop over `ns` in list order, starting from the agent's own Nxi/Nui. */
  function Run(nxi: nat, nui: nat, ns: seq<Neighbor>): (r: Result<Cursor>)
    ensures r.Ok? ==> SameLength(r.value.maps)
    decreases |ns|
  {
    if |ns| == 0 then Ok(Cursor(nxi, nui, nxi, nui, Maps([], [], [])))
    else
      match Run(nxi, nui, ns[..|ns| - 1])
      case Err(e) => Err(e)
      case Ok(c) =>
        var n := ns[|ns| - 1];
        if n.id < 0 then Err(NegativeNeighborId(n.id)) else Ok(Advance(c, n))
  }

  /** Offset of neighbour p's copied state x_ji in the extended state. */
  function XOffset(a: Agent, p: nat): nat
    requires p <= |a.neighbors|
  {
    a.nx + SumNx(a.neighbors[..p])
  }

  /** Offset of neighbour p's copied control u_ji in the extended control. */
  function UOffset(a: Agent, p: nat): nat
    requires p <= |a.neighbors|
  {
    a.nu + SumNuNx(a.neighbors[..p])
  }

  /** Offset of the external-influence slot v_ji for neighbour p: right after its u_ji block. */
  function VOffset(a: Agent, p: nat): nat
    requires p < |a.neighbors|
  {
    UOffset(a, p) + a.neighbors[p].nu
  }

  /** Extended state dimension. */
  function ExtendedNx(a: Agent): nat
  {
    a.nx + SumNx(a.neighbors)
  }

  /** Extended control dimension. */
  function ExtendedNu(a: Agent): nat
  {
    a.nu + SumNuNx(a.neighbors)
  }

  /** `id` is the first negative id among the first k neighbours. */
  predicate FirstNegativeBefore(ns: seq<Neighbor>, k: nat, id: int)
    requires k <= |ns|
  {
    exists p :: 0 <= p < k && ns[p].id == id && id < 0 && forall q :: 0 <= q < p ==> ns[q].id >= 0
  }

  /** Closed form of the constructor's state after the first k neighbours. */
  predicate Characterized(a: Agent, k: nat, c: Cursor)
    requires k <= |a.neighbors|
  {
    && CountersAt(a, k, c)
    && SameLength(c.maps)
    && LengthAt(a, k, c)
    && EntriesAt(a, k, c)
    && ZerosAt(a, k, c)
  }

  /** Nx_ and x_index, Nu_ and u_index have reached the offsets after k neighbours. */
  predicate CountersAt(a: Agent, k: nat, c: Cursor)
    requires k <= |a.neighbors|
  {
    && c.nx == XOffset(a, k) && c.xIndex == c.nx
    && c.nu == UOffset(a, k) && c.uIndex == c.nu
  }

  /** The vectors have length (largest id seen) + 1, or 0 before any neighbour. */
  predicate LengthAt(a: Agent, k: nat, c: Cursor)
    requires k <= |a.neighbors|
  {
    var ns := a.neighbors;
    && (forall p :: 0 <= p < k ==> 0 <= ns[p].id < |c.maps.xji|)
    && (k == 0 ==> |c.maps.xji| == 0)
    && (k > 0 ==> exists p :: 0 <= p < k && ns[p].id == |c.maps.xji| - 1)
  }

  /** The entry of each id holds the offsets of the last neighbour with that id. */
  predicate EntriesAt(a: Agent, k: nat, c: Cursor)
    requires k <= |a.neighbors|
    requires LengthAt(a, k, c) && SameLength(c.maps)
  {
    var ns := a.neighbors;
    forall p {:trigger LastBefore(ns, k, p)} :: 0 <= p < k && LastBefore(ns, k, p) ==>
      && c.maps.xji[ns[p].id] == XOffset(a, p)
      && c.maps.uji[ns[p].id] == UOffset(a, p)
      && c.maps.vji[ns[p].id] == UOffset(a, p) + ns[p].nu
  }

  /** Entries of ids no neighbour has are zero. */
  predicate ZerosAt(a: Agent, k: nat, c: Cursor)
    requires k <= |a.neighbors|
    requires SameLength(c.maps)
  {
    forall j :: 0 <= j < |c.maps.xji| && !SeenBefore(a.neighbors, k, j) ==>
      c.maps.xji[j] == 0 && c.maps.uji[j] == 0 && c.maps.vji[j] == 0
  }

  /** Both running counters advance by the same amounts, whatever the cursor. */
  lemma {:induction false} SumStep(a: Agent, k: nat)
    requires k < |a.neighbors|
    ensures XOffset(a, k + 1) == XOffset(a, k) + a.neighbors[k].nx
    ensures UOffset(a, k + 1) == UOffset(a, k) + a.neighbors[k].nu + a.neighbors[k].nx
  {
    assert a.neighbors[..k + 1][..k] == a.neighbors[..k];
  }

  /** The loop over the first k neighbours fails exactly when one of them has a
      negative id (reporting the first such id), and otherwise reaches the
      closed-form state. */
  lemma {:induction false} RunPrefix(a: Agent, k: nat)
    requires k <= |a.neighbors|
    ensures Run(a.nx, a.nu, a.neighbors[..k]).Ok? <==> (forall p :: 0 <= p < k ==> a.neighbors[p].id >= 0)
    ensures Run(a.nx, a.nu, a.neighbors[..k]).Err? ==>
              FirstNegativeBefore(a.neighbors, k, Run(a.nx, a.nu, a.neighbors[..k]).error.id)
    ensures Run(a.nx, a.nu, a.neighbors[..k]).Ok? ==> Characterized(a, k, Run(a.nx, a.nu, a.neighbors[..k]).value)
  {
    var ns := a.neighbors;
    if k == 0 {
      assert ns[..0] == [];
    } else {
      var k' := k - 1;
      RunPrefix(a, k');
      assert ns[..k][..k'] == ns[..k'];
      assert ns[..k][k'] == ns[k'];
      var prev := Run(a.nx, a.nu, ns[..k']);
      var n := ns[k'];
      if prev.Err? {
        assert Run(a.nx, a.nu, ns[..k]) == prev;
        var id := prev.error.id;
        assert FirstNegativeBefore(ns, k', id);
        var p :| 0 <= p < k' && ns[p].id == id && id < 0 && forall q :: 0 <= q < p ==> ns[q].id >= 0;
        assert FirstNegativeBefore(ns, k, id);
      } else if n.id < 0 {
        assert Run(a.nx, a.nu, ns[..k]) == Err(NegativeNeighborId(n.id));
        assert FirstNegativeBefore(ns, k, n.id);
      } else {
        var c := prev.value;
        var r := Advance(c, n);
        assert Run(a.nx, a.nu, ns[..k]) == Ok(r);
        SumStep(a, k');
        AdvanceCharacterized(a, k', c);
      }
    }
  }

  /** The vectors after one step: resized if needed, then entry j written. */
  lemma {:induction false} AdvanceMaps(c: Cursor, n: Neighbor)
    requires n.id >= 0 && SameLength(c.maps)
    ensures var r := Advance(c, n);
      && |r.maps.xji| == (if n.id >= |c.maps.xji| then n.id + 1 else |c.maps.xji|)
      && r.maps.xji[n.id] == c.xIndex && r.maps.uji[n.id] == c.uIndex && r.maps.vji[n.id] == c.uIndex + n.nu
      && (forall i :: 0 <= i < |c.maps.xji| && i != n.id ==>
            r.maps.xji[i] == c.maps.xji[i] && r.maps.uji[i] == c.maps.uji[i] && r.maps.vji[i] == c.maps.vji[i])
      && (forall i :: |c.maps.xji| <= i < |r.maps.xji| && i != n.id ==>
            r.maps.xji[i] == 0 && r.maps.uji[i] == 0 && r.maps.vji[i] == 0)
  {
  }

  /** One step of the loop keeps the closed form. */
  lemma {:induction false} AdvanceCharacterized(a: Agent, k: nat, c: Cursor)
    requires k < |a.neighbors| && a.neighbors[k].id >= 0
    requires Characterized(a, k, c)
    ensures Characterized(a, k + 1, Advance(c, a.neighbors[k]))
  {
    AdvanceCounters(a, k, c);
    AdvanceLength(a, k, c);
    AdvanceEntries(a, k, c);
    AdvanceZeros(a, k, c);
  }

  lemma {:induction false} AdvanceCounters(a: Agent, k: nat, c: Cursor)
    requires k < |a.neighbors| && a.neighbors[k].id >= 0
    requires Characterized(a, k, c)
    ensures CountersAt(a, k + 1, Advance(c, a.neighbors[k]))
  {
    SumStep(a, k);
  }

  lemma {:induction false} AdvanceLength(a: Agent, k: nat, c: Cursor)
    requires k < |a.neighbors| && a.neighbors[k].id >= 0
    requires SameLength(c.maps) && LengthAt(a, k, c)
    ensures LengthAt(a, k + 1, Advance(c, a.neighbors[k]))
  {
    var ns := a.neighbors;
    var n := ns[k];
    var r := Advance(c, n);
    AdvanceMaps(c, n);
    forall p | 0 <= p < k + 1
      ensures 0 <= ns[p].id < |r.maps.xji|
    {
    }
    if k == 0 || n.id >= |c.maps.xji| {
      assert ns[k].id == |r.maps.xji| - 1;
    } else {
      var p :| 0 <= p < k && ns[p].id == |c.maps.xji| - 1;
      assert ns[p].id == |r.maps.xji| - 1;
    }
  }

  lemma {:induction false} AdvanceEntries(a: Agent, k: nat, c: Cursor)
    requires k < |a.neighbors| && a.neighbors[k].id >= 0
    requires SameLength(c.maps) && LengthAt(a, k, c) && EntriesAt(a, k, c) && CountersAt(a, k, c)
    ensures LengthAt(a, k + 1, Advance(c, a.neighbors[k]))
    ensures EntriesAt(a, k + 1, Advance(c, a.neighbors[k]))
  {
    var ns := a.neighbors;
    var n := ns[k];
    var r := Advance(c, n);
    AdvanceMaps(c, n);
    AdvanceLength(a, k, c);
    forall p | 0 <= p < k + 1 && LastBefore(ns, k + 1, p)
      ensures r.maps.xji[ns[p].id] == XOffset(a, p)
      ensures r.maps.uji[ns[p].id] == UOffset(a, p)
      ensures r.maps.vji[ns[p].id] == UOffset(a, p) + ns[p].nu
    {
      if p < k {
        assert ns[p].id != n.id;
        assert LastBefore(ns, k, p);
        assert 0 <= ns[p].id < |c.maps.xji|;
        assert c.maps.xji[ns[p].id] == XOffset(a, p);
        assert c.maps.uji[ns[p].id] == UOffset(a, p);
        assert c.maps.vji[ns[p].id] == UOffset(a, p) + ns[p].nu;
      } else {
        assert p == k;
      }
    }
  }

  lemma {:induction false} AdvanceZeros(a: Agent, k: nat, c: Cursor)
    requires k < |a.neighbors| && a.neighbors[k].id >= 0
    requires SameLength(c.maps) && ZerosAt(a, k, c)
    ensures ZerosAt(a, k + 1, Advance(c, a.neighbors[k]))
  {
    var ns := a.neighbors;
    var n := ns[k];
    var r := Advance(c, n);
    AdvanceMaps(c, n);
    forall i | 0 <= i < |r.maps.xji| && !SeenBefore(ns, k + 1, i)
      ensures r.maps.xji[i] == 0 && r.maps.uji[i] == 0 && r.maps.vji[i] == 0
    {
      assert i != n.id;
      assert !SeenBefore(ns, k, i);
    }
  }
}
