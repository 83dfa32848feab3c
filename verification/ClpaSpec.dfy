/** Counting edges and vertices of a partitioned graph, from scratch and incrementally.

    The graph is given by the list of undirected edges that were inserted; the program keeps it
    as adjacency lists, which `Nbrs` derives from that list. */
module ClpaSpec {
  import opened Core

  datatype Edge = Edge(u: Address, v: Address)

  /** The adjacency list of v after the given edges were inserted in order. */
  function Nbrs(edges: seq<Edge>, v: Address): seq<Address> {
    if edges == [] then []
    else
      var e := edges[|edges| - 1];
      Nbrs(edges[..|edges| - 1], v) + (if e.u == v then [e.v] else []) + (if e.v == v then [e.u] else [])
  }

  function One(b: bool): int {
    if b then 1 else 0
  }

  ghost predicate Placed(edges: seq<Edge>, p: Placement, n: nat) {
    forall i | 0 <= i < |edges| ::
      edges[i].u in p && edges[i].v in p && p[edges[i].u] < n && p[edges[i].v] < n
  }

  // ----- the reference counts -----

  /** Edges with an end in shard k. */
  function EdgesAt(edges: seq<Edge>, p: Placement, k: ShardId): int
    requires forall i | 0 <= i < |edges| :: edges[i].u in p && edges[i].v in p
  {
    if edges == [] then 0
    else
      var e := edges[|edges| - 1];
      EdgesAt(edges[..|edges| - 1], p, k) + One(p[e.u] == k || p[e.v] == k)
  }

  /** Edges between different shards with an end in shard k, and edges inside shard k. */
  function CrossAt(edges: seq<Edge>, p: Placement, k: ShardId): int
    requires forall i | 0 <= i < |edges| :: edges[i].u in p && edges[i].v in p
  {
    if edges == [] then 0
    else
      var e := edges[|edges| - 1];
      CrossAt(edges[..|edges| - 1], p, k) + One(p[e.u] != p[e.v] && (p[e.u] == k || p[e.v] == k))
  }

  function InnerAt(edges: seq<Edge>, p: Placement, k: ShardId): int
    requires forall i | 0 <= i < |edges| :: edges[i].u in p && edges[i].v in p
  {
    if edges == [] then 0
    else
      var e := edges[|edges| - 1];
      InnerAt(edges[..|edges| - 1], p, k) + One(p[e.u] == k && p[e.v] == k)
  }

  /** Edges between different shards. */
  function CrossEdges(edges: seq<Edge>, p: Placement): int
    requires forall i | 0 <= i < |edges| :: edges[i].u in p && edges[i].v in p
  {
    if edges == [] then 0
    else
      var e := edges[|edges| - 1];
      CrossEdges(edges[..|edges| - 1], p) + One(p[e.u] != p[e.v])
  }

  lemma {:induction false} EdgesSplit(edges: seq<Edge>, p: Placement, k: ShardId)
    requires forall i | 0 <= i < |edges| :: edges[i].u in p && edges[i].v in p
    ensures EdgesAt(edges, p, k) == CrossAt(edges, p, k) + InnerAt(edges, p, k)
  {
    if edges != [] {
      EdgesSplit(edges[..|edges| - 1], p, k);
    }
  }

  // ----- counting over adjacency lists -----

  /** Neighbours in shard k of a vertex that is elsewhere, and of a vertex in shard k. */
  function InTo(nbrs: seq<Address>, p: Placement, own: ShardId, k: ShardId): int
    requires forall i | 0 <= i < |nbrs| :: nbrs[i] in p
  {
    if nbrs == [] then 0
    else
      var u := nbrs[|nbrs| - 1];
      InTo(nbrs[..|nbrs| - 1], p, own, k) + One(p[u] != own && p[u] == k)
  }

  function Inside(nbrs: seq<Address>, p: Placement, own: ShardId, k: ShardId): int
    requires forall i | 0 <= i < |nbrs| :: nbrs[i] in p
  {
    if nbrs == [] then 0
    else
      var u := nbrs[|nbrs| - 1];
      Inside(nbrs[..|nbrs| - 1], p, own, k) + One(p[u] == own && p[u] == k)
  }

  lemma {:induction false} NbrsPlaced(edges: seq<Edge>, p: Placement, v: Address)
    requires forall i | 0 <= i < |edges| :: edges[i].u in p && edges[i].v in p
    ensures forall i | 0 <= i < |Nbrs(edges, v)| :: Nbrs(edges, v)[i] in p
    ensures Nbrs(edges, v) != [] ==> v in p
  {
    if edges != [] {
      NbrsPlaced(edges[..|edges| - 1], p, v);
    }
  }

  /** Both counts, summed over a list of vertices. */
  ghost function SumIn(order: seq<Address>, edges: seq<Edge>, p: Placement, k: ShardId): int
    requires forall i | 0 <= i < |edges| :: edges[i].u in p && edges[i].v in p
    requires forall i | 0 <= i < |order| :: order[i] in p
  {
    if order == [] then 0
    else
      var v := order[|order| - 1];
      NbrsPlaced(edges, p, v);
      SumIn(order[..|order| - 1], edges, p, k) + InTo(Nbrs(edges, v), p, p[v], k)
  }

  ghost function SumInside(order: seq<Address>, edges: seq<Edge>, p: Placement, k: ShardId): int
    requires forall i | 0 <= i < |edges| :: edges[i].u in p && edges[i].v in p
    requires forall i | 0 <= i < |order| :: order[i] in p
  {
    if order == [] then 0
    else
      var v := order[|order| - 1];
      NbrsPlaced(edges, p, v);
      SumInside(order[..|order| - 1], edges, p, k) + Inside(Nbrs(edges, v), p, p[v], k)
  }

  lemma {:induction false} CountsAppend(a: seq<Address>, b: seq<Address>, p: Placement, own: ShardId, k: ShardId)
    requires forall i | 0 <= i < |a| :: a[i] in p
    requires forall i | 0 <= i < |b| :: b[i] in p
    ensures InTo(a + b, p, own, k) == InTo(a, p, own, k) + InTo(b, p, own, k)
    ensures Inside(a + b, p, own, k) == Inside(a, p, own, k) + Inside(b, p, own, k)
  {
    if b == [] {
      assert a + b == a;
    } else {
      var last := |b| - 1;
      CountsAppend(a, b[..last], p, own, k);
      assert (a + b)[..|a + b| - 1] == a + b[..last];
    }
  }

  ghost predicate Distinct(order: seq<Address>) {
    forall i, j | 0 <= i < j < |order| :: order[i] != order[j]
  }

  /** One more edge adds to the counts of its two ends only. */
  lemma {:induction false} OneVertex(edges: seq<Edge>, e: Edge, p: Placement, v: Address, k: ShardId)
    requires forall i | 0 <= i < |edges| :: edges[i].u in p && edges[i].v in p
    requires e.u in p && e.v in p && v in p
    ensures (forall i | 0 <= i < |Nbrs(edges, v)| :: Nbrs(edges, v)[i] in p)
         && (forall i | 0 <= i < |Nbrs(edges + [e], v)| :: Nbrs(edges + [e], v)[i] in p)
    ensures InTo(Nbrs(edges + [e], v), p, p[v], k) == InTo(Nbrs(edges, v), p, p[v], k)
              + (if v == e.u then One(p[e.v] != p[e.u] && p[e.v] == k) else 0)
              + (if v == e.v then One(p[e.u] != p[e.v] && p[e.u] == k) else 0)
    ensures Inside(Nbrs(edges + [e], v), p, p[v], k) == Inside(Nbrs(edges, v), p, p[v], k)
              + (if v == e.u then One(p[e.v] == p[e.u] && p[e.v] == k) else 0)
              + (if v == e.v then One(p[e.u] == p[e.v] && p[e.u] == k) else 0)
  {
    NbrsPlaced(edges, p, v);
    assert (edges + [e])[..|edges|] == edges;
    var src := Nbrs(edges, v);
    var b: seq<Address> := if e.u == v then [e.v] else [];
    var c: seq<Address> := if e.v == v then [e.u] else [];
    CountsAppend(src, b, p, p[v], k);
    CountsAppend(src + b, c, p, p[v], k);
    Single(e.v, p, p[v], k);
    Single(e.u, p, p[v], k);
  }

  lemma {:induction false} Single(u: Address, p: Placement, own: ShardId, k: ShardId)
    requires u in p
    ensures InTo([u], p, own, k) == One(p[u] != own && p[u] == k)
    ensures Inside([u], p, own, k) == One(p[u] == own && p[u] == k)
    ensures InTo([], p, own, k) == 0 && Inside([], p, own, k) == 0
  {
    assert [u][..0] == [];
  }

  lemma {:induction false} SumsStep(order: seq<Address>, edges: seq<Edge>, e: Edge, p: Placement, k: ShardId)
    requires forall i | 0 <= i < |edges| :: edges[i].u in p && edges[i].v in p
    requires e.u in p && e.v in p && Distinct(order)
    requires forall i | 0 <= i < |order| :: order[i] in p
    ensures SumIn(order, edges + [e], p, k) == SumIn(order, edges, p, k)
              + (if e.u in order then One(p[e.v] != p[e.u] && p[e.v] == k) else 0)
              + (if e.v in order then One(p[e.u] != p[e.v] && p[e.u] == k) else 0)
    ensures SumInside(order, edges + [e], p, k) == SumInside(order, edges, p, k)
              + (if e.u in order then One(p[e.v] == p[e.u] && p[e.v] == k) else 0)
              + (if e.v in order then One(p[e.u] == p[e.v] && p[e.u] == k) else 0)
  {
    hide Nbrs, InTo, Inside, One;
    if order != [] {
      var last := |order| - 1;
      SumsStep(order[..last], edges, e, p, k);
      OneVertex(edges, e, p, order[last], k);
      assert order == order[..last] + [order[last]];
      assert order[last] !in order[..last];
    }
  }

  lemma {:induction false} SumsOfNothing(order: seq<Address>, p: Placement, k: ShardId)
    requires forall i | 0 <= i < |order| :: order[i] in p
    ensures SumIn(order, [], p, k) == 0 && SumInside(order, [], p, k) == 0
  {
    if order != [] {
      SumsOfNothing(order[..|order| - 1], p, k);
    }
  }

  /** Double counting: over all vertices with neighbours, every cross edge is seen once from
      each side, and every inner edge twice, so that halving the inner count is exact. */
  lemma {:induction false} DoubleCount(order: seq<Address>, edges: seq<Edge>, p: Placement, k: ShardId)
    requires forall i | 0 <= i < |edges| :: edges[i].u in p && edges[i].v in p
    requires Distinct(order) && forall i | 0 <= i < |order| :: order[i] in p
    requires forall i | 0 <= i < |edges| :: edges[i].u in order && edges[i].v in order
    ensures SumIn(order, edges, p, k) == CrossAt(edges, p, k)
    ensures SumInside(order, edges, p, k) == 2 * InnerAt(edges, p, k)
  {
    if edges == [] {
      SumsOfNothing(order, p, k);
    } else {
      var last := |edges| - 1;
      var e := edges[last];
      assert edges == edges[..last] + [e];
      hide SumIn, SumInside, Nbrs, InTo, Inside;
      DoubleCount(order, edges[..last], p, k);
      SumsStep(order, edges[..last], e, p, k);
    }
  }

  // ----- totals over all shards -----

  function Sum(s: seq<int>): int {
    if s == [] then 0 else Sum(s[..|s| - 1]) + s[|s| - 1]
  }

  lemma {:induction false} SumUpdate(s: seq<int>, i: nat, x: int)
    requires i < |s|
    ensures Sum(s[i := x]) == Sum(s) - s[i] + x
  {
    var last := |s| - 1;
    if i < last {
      SumUpdate(s[..last], i, x);
      assert s[i := x][..last] == s[..last][i := x];
    } else {
      assert s[i := x][..last] == s[..last];
    }
  }

  lemma {:induction false} SumZero(s: seq<int>)
    requires forall i | 0 <= i < |s| :: s[i] == 0
    ensures Sum(s) == 0
  {
    if s != [] {
      SumZero(s[..|s| - 1]);
    }
  }

  /** Every cross edge is counted in exactly two shards. */
  lemma {:induction false} CrossTwice(edges: seq<Edge>, p: Placement, n: nat, s: seq<int>)
    requires Placed(edges, p, n) && |s| == n && forall k | 0 <= k < n :: s[k] == CrossAt(edges, p, k)
    ensures Sum(s) == 2 * CrossEdges(edges, p)
  {
    if edges == [] {
      SumZero(s);
    } else {
      var last := |edges| - 1;
      var e := edges[last];
      var before := seq(n, k requires 0 <= k => CrossAt(edges[..last], p, k));
      CrossTwice(edges[..last], p, n, before);
      var x, y := p[e.u], p[e.v];
      if x == y {
        assert s == before;
      } else {
        var mid := before[x := before[x] + 1];
        SumUpdate(before, x, before[x] + 1);
        SumUpdate(mid, y, mid[y] + 1);
        assert s == mid[y := mid[y] + 1];
      }
    }
  }

  /** The edge counts of all shards add up to the number of edges plus the cross edges. */
  lemma {:induction false} EdgeTotals(edges: seq<Edge>, p: Placement, n: nat, s: seq<int>)
    requires Placed(edges, p, n) && |s| == n && forall k | 0 <= k < n :: s[k] == EdgesAt(edges, p, k)
    ensures Sum(s) == |edges| + CrossEdges(edges, p)
  {
    if edges == [] {
      SumZero(s);
    } else {
      var last := |edges| - 1;
      var e := edges[last];
      var before := seq(n, k requires 0 <= k => EdgesAt(edges[..last], p, k));
      EdgeTotals(edges[..last], p, n, before);
      var x, y := p[e.u], p[e.v];
      var mid := before[x := before[x] + 1];
      SumUpdate(before, x, before[x] + 1);
      if x == y {
        assert s == mid;
      } else {
        SumUpdate(mid, y, mid[y] + 1);
        assert s == mid[y := mid[y] + 1];
      }
    }
  }

  // ----- moving one vertex -----

  /** The change the incremental update makes at shard k for the neighbours seen. */
  function MoveAt(nbrs: seq<Address>, p: Placement, src: ShardId, dst: ShardId, k: ShardId): int
    requires forall i | 0 <= i < |nbrs| :: nbrs[i] in p
  {
    if nbrs == [] then 0
    else
      var nb := p[nbrs[|nbrs| - 1]];
      MoveAt(nbrs[..|nbrs| - 1], p, src, dst, k)
      + (if nb != dst then One(k == dst) else 0) - (if nb == dst || nb != src then One(k == src) else 0)
  }

  function MoveCross(nbrs: seq<Address>, p: Placement, src: ShardId, dst: ShardId): int
    requires forall i | 0 <= i < |nbrs| :: nbrs[i] in p
  {
    if nbrs == [] then 0
    else
      var nb := p[nbrs[|nbrs| - 1]];
      MoveCross(nbrs[..|nbrs| - 1], p, src, dst) + (if nb == dst then -1 else if nb == src then 1 else 0)
  }

  /** Loops at v: edges from v to itself. */
  function Loops(edges: seq<Edge>, v: Address): nat {
    if edges == [] then 0
    else
      var e := edges[|edges| - 1];
      Loops(edges[..|edges| - 1], v) + if e.u == v && e.v == v then 1 else 0
  }

  lemma {:induction false} LoopsAreNbrs(edges: seq<Edge>, v: Address)
    ensures Loops(edges, v) == 0 <==> v !in Nbrs(edges, v)
  {
    if edges != [] {
      LoopsAreNbrs(edges[..|edges| - 1], v);
    }
  }

  lemma {:induction false} MoveAppend(a: seq<Address>, u: Address, p: Placement, src: ShardId, dst: ShardId, k: ShardId)
    requires u in p && forall i | 0 <= i < |a| :: a[i] in p
    ensures MoveAt(a + [u], p, src, dst, k) == MoveAt(a, p, src, dst, k)
              + (if p[u] != dst then One(k == dst) else 0) - (if p[u] == dst || p[u] != src then One(k == src) else 0)
    ensures MoveCross(a + [u], p, src, dst) == MoveCross(a, p, src, dst)
              + (if p[u] == dst then -1 else if p[u] == src then 1 else 0)
  {
    assert (a + [u])[..|a|] == a;
  }

  /** Exactly what the incremental update is off by: with `m` loops at the moved vertex it
      misses m at both shards and 2 * m cross edges. */
  lemma {:induction false} MoveError(edges: seq<Edge>, p: Placement, v: Address, dst: ShardId, k: ShardId)
    requires forall i | 0 <= i < |edges| :: edges[i].u in p && edges[i].v in p
    requires v in p && p[v] != dst
    ensures forall i | 0 <= i < |Nbrs(edges, v)| :: Nbrs(edges, v)[i] in p[v := dst]
    ensures EdgesAt(edges, p[v := dst], k) == EdgesAt(edges, p, k)
              + MoveAt(Nbrs(edges, v), p[v := dst], p[v], dst, k)
              + Loops(edges, v) * (One(k == dst) + One(k == p[v]))
    ensures CrossEdges(edges, p[v := dst]) == CrossEdges(edges, p)
              + MoveCross(Nbrs(edges, v), p[v := dst], p[v], dst) + 2 * Loops(edges, v)
  {
    var p' := p[v := dst];
    NbrsPlaced(edges, p', v);
    if edges != [] {
      var last := |edges| - 1;
      var e := edges[last];
      var before := Nbrs(edges[..last], v);
      MoveError(edges[..last], p, v, dst, k);
      if e.u == v {
        MoveAppend(before, e.v, p', p[v], dst, k);
        if e.v == v {
          MoveAppend(before + [e.v], e.u, p', p[v], dst, k);
          LoopStep(Loops(edges[..last], v), One(k == dst) + One(k == p[v]));
        } else {
          assert Nbrs(edges, v) == before + [e.v];
        }
      } else if e.v == v {
        MoveAppend(before, e.u, p', p[v], dst, k);
        assert Nbrs(edges, v) == before + [e.u];
      } else {
        assert Nbrs(edges, v) == before;
      }
    }
  }

  lemma LoopStep(m: nat, x: int)
    ensures (m + 1) * x == m * x + x
  {
  }

  /** The incremental update gives the recount at every shard if and only if the moved vertex
      has no loop, that is, does not occur in its own adjacency list. */
  lemma IncrementalIff(edges: seq<Edge>, p: Placement, v: Address, dst: ShardId)
    requires forall i | 0 <= i < |edges| :: edges[i].u in p && edges[i].v in p
    requires v in p && p[v] != dst
    ensures forall i | 0 <= i < |Nbrs(edges, v)| :: Nbrs(edges, v)[i] in p[v := dst]
    ensures (forall k: ShardId :: EdgesAt(edges, p[v := dst], k)
                                  == EdgesAt(edges, p, k) + MoveAt(Nbrs(edges, v), p[v := dst], p[v], dst, k))
            <==> v !in Nbrs(edges, v)
  {
    LoopsAreNbrs(edges, v);
    NbrsPlaced(edges, p[v := dst], v);
    hide EdgesAt, MoveAt, Loops, Nbrs;
    if Loops(edges, v) == 0 {
      forall k: ShardId
        ensures EdgesAt(edges, p[v := dst], k)
                == EdgesAt(edges, p, k) + MoveAt(Nbrs(edges, v), p[v := dst], p[v], dst, k)
      {
        MoveError(edges, p, v, dst, k);
      }
    } else {
      MoveError(edges, p, v, dst, dst);
      assert Loops(edges, v) * (One(dst == dst) + One(dst == p[v])) == Loops(edges, v);
    }
  }

  /** A vertex that is its own neighbour, moved from shard 0 to shard 1: the incremental update
      leaves -1 edges at shard 0 and none at shard 1, where there is one. */
  lemma LoopMiscounts()
    ensures var edges := [Edge(7, 7)];
            var p := map[7 := 0];
            && Nbrs(edges, 7) == [7, 7]
            && EdgesAt(edges, p, 0) + MoveAt([7, 7], p[7 := 1], 0, 1, 0) == -1
            && EdgesAt(edges, p, 1) + MoveAt([7, 7], p[7 := 1], 0, 1, 1) == 0
            && EdgesAt(edges, p[7 := 1], 0) == 0 && EdgesAt(edges, p[7 := 1], 1) == 1
  {
    var edges := [Edge(7, 7)];
    assert edges[..0] == [];
    var q: Placement := map[7 := 1];
    assert [7, 7][..1] == [7] && [7][..0] == [];
    assert MoveAt([7], q, 0, 1, 0) == -1 && MoveAt([7], q, 0, 1, 1) == 0;
    assert map[7 := 0][7 := 1] == q;
  }

  // ----- population -----

  /** Vertices of a set that live in shard k. */
  function Members(vs: set<Address>, p: Placement, k: ShardId): set<Address>
    requires forall v | v in vs :: v in p
  {
    set v | v in vs && p[v] == k
  }

  function Population(vs: set<Address>, p: Placement, k: ShardId): nat
    requires forall v | v in vs :: v in p
  {
    |Members(vs, p, k)|
  }

  lemma PopulationAdd(vs: set<Address>, p: Placement, v: Address, k: ShardId)
    requires (forall x | x in vs :: x in p) && v in p && v !in vs
    ensures Population(vs + {v}, p, k) == Population(vs, p, k) + if p[v] == k then 1 else 0
  {
    if p[v] == k {
      assert Members(vs + {v}, p, k) == Members(vs, p, k) + {v};
    } else {
      assert Members(vs + {v}, p, k) == Members(vs, p, k);
    }
  }

  lemma PopulationMove(vs: set<Address>, p: Placement, v: Address, dst: ShardId, k: ShardId)
    requires (forall x | x in vs :: x in p) && v in vs && p[v] != dst
    ensures Population(vs, p[v := dst], k) == Population(vs, p, k)
            + (if k == dst then 1 else 0) - (if k == p[v] then 1 else 0)
  {
    var p' := p[v := dst];
    if k == dst {
      assert Members(vs, p', k) == Members(vs, p, k) + {v};
    } else if k == p[v] {
      assert Members(vs, p, k) == Members(vs, p', k) + {v};
    } else {
      assert Members(vs, p', k) == Members(vs, p, k);
    }
  }

  /** The populations of all shards add up to the number of vertices. */
  lemma {:induction false} PopulationTotal(vs: set<Address>, p: Placement, n: nat, s: seq<int>)
    requires forall v | v in vs :: v in p && p[v] < n
    requires |s| == n && forall k | 0 <= k < n :: s[k] == Population(vs, p, k)
    ensures Sum(s) == |vs|
    decreases |vs|
  {
    if vs == {} {
      SumZero(s);
    } else {
      var v :| v in vs;
      var rest := vs - {v};
      assert vs == rest + {v};
      forall k | 0 <= k < n
        ensures Population(vs, p, k) == Population(rest, p, k) + if p[v] == k then 1 else 0
      {
        PopulationAdd(rest, p, v, k);
      }
      var before := s[p[v] := s[p[v]] - 1];
      PopulationTotal(rest, p, n, before);
      SumUpdate(s, p[v], s[p[v]] - 1);
    }
  }
}
