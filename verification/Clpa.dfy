/** The constrained label propagation run by the supervisor. */
module Clpa {
  import opened Core
  import opened ClpaSpec
  import opened ClpaMoves

  /** The adjacency lists are those of the edges; a vertex has a list when it has a neighbour. */
  ghost predicate Lists(lists: map<Address, seq<Address>>, edges: seq<Edge>) {
    && (forall v | v in lists :: lists[v] == Nbrs(edges, v))
    && (forall v: Address | Nbrs(edges, v) != [] :: v in lists)
  }

  ghost predicate Shifted(now: seq<int>, was: seq<int>, nbrs: seq<Address>, p: Placement, src: ShardId, dst: ShardId)
    requires |now| == |was| && forall i | 0 <= i < |nbrs| :: nbrs[i] in p
  {
    forall k | 0 <= k < |now| :: now[k] == was[k] + MoveAt(nbrs, p, src, dst, k)
  }

  /** An edge whose other end is in shard `nb` follows its near end from src to dst. */
  ghost predicate ShiftOne(was: seq<int>, now: seq<int>, nb: ShardId, src: ShardId, dst: ShardId) {
    |now| == |was|
    && forall k | 0 <= k < |was| ::
         now[k] == was[k] + (if nb != dst then One(k == dst) else 0)
                          - (if nb == dst || nb != src then One(k == src) else 0)
  }

  lemma {:induction false} ShiftStep(now: seq<int>, mid: seq<int>, was: seq<int>, nbrs: seq<Address>, i: nat,
      p: Placement, src: ShardId,
                  dst: ShardId)
    requires |now| == |mid| == |was| && src < |was| && dst < |was|
    requires i < |nbrs| && forall j | 0 <= j < |nbrs| :: nbrs[j] in p
    requires Shifted(mid, was, nbrs[..i], p, src, dst)
    requires ShiftOne(mid, now, p[nbrs[i]], src, dst)
    ensures Shifted(now, was, nbrs[..i + 1], p, src, dst)
    ensures MoveCross(nbrs[..i + 1], p, src, dst) == MoveCross(nbrs[..i], p, src, dst)
              + (if p[nbrs[i]] == dst then -1 else if p[nbrs[i]] == src then 1 else 0)
  {
    assert nbrs[..i + 1][..i] == nbrs[..i];
  }

  class CLPAState {
    const shardNum: nat
    const weightPenalty: real
    const maxIterations: int
    var vertexSet: set<Address>
    var edgeSet: map<Address, seq<Address>>
    var partitionMap: Placement
    var edges2Shard: seq<int>
    var vertexsNumInShard: seq<int>
    var minEdges2Shard: int
    var crossShardEdgeNum: int
    /** The edges in the order they were added. */
    ghost var edges: seq<Edge>

    constructor (wp: real, mIter: int, sn: nat, preset: Placement)
      requires sn > 0 && forall v | v in preset :: preset[v] < sn
      ensures GraphOk() && PopulationOk()
      ensures shardNum == sn && weightPenalty == wp && maxIterations == mIter
      ensures vertexSet == {} && edges == [] && partitionMap == preset
    {
      shardNum, weightPenalty, maxIterations := sn, wp, mIter;
      vertexSet, edgeSet, partitionMap := {}, map[], preset;
      edges2Shard, vertexsNumInShard := [], seq(sn, k => 0);
      minEdges2Shard, crossShardEdgeNum := 0, 0;
      edges := [];
    }

    /** The adjacency lists and labels describe the edges added so far. */
    ghost predicate GraphOk()
      reads this
    {
      && shardNum > 0
      && (forall i | 0 <= i < |edges| :: edges[i].u in vertexSet && edges[i].v in vertexSet)
      && (forall v | v in vertexSet :: v in partitionMap)
      && (forall v | v in partitionMap :: partitionMap[v] < shardNum)
      && Lists(edgeSet, edges)
      && edgeSet.Keys <= vertexSet
    }

    ghost predicate PopulationOk()
      reads this
      requires GraphOk()
    {
      |vertexsNumInShard| == shardNum
      && forall k | 0 <= k < shardNum :: vertexsNumInShard[k] == Population(vertexSet, partitionMap, k)
    }

    /** The four counters are what a count over the edge list gives. */
    ghost predicate CountsOk()
      reads this
      requires GraphOk()
    {
      && edges2Shard == Recount(edges, partitionMap, shardNum)
      && minEdges2Shard == Least(edges2Shard)
      && crossShardEdgeNum == CrossEdges(edges, partitionMap)
    }

    function Adjacent(v: Address): seq<Address>
      reads this
    {
      if v in edgeSet then edgeSet[v] else []
    }

    /** Adding a vertex keeps the populations right exactly when it is new. */
    method AddVertex(v: Address)
      requires GraphOk() && |vertexsNumInShard| == shardNum
      modifies `vertexSet, `partitionMap, `vertexsNumInShard
      ensures GraphOk() && |vertexsNumInShard| == shardNum && vertexSet == old(vertexSet) + {v}
      ensures partitionMap == old(partitionMap)[v := Place(old(partitionMap), shardNum, v)]
      ensures old(PopulationOk()) ==> (PopulationOk() <==> v !in old(vertexSet))
    {
      vertexSet := vertexSet + {v};
      if v !in partitionMap {
        partitionMap := partitionMap[v := Addr2Shard(v, shardNum)];
      }
      var k := partitionMap[v];
      vertexsNumInShard := vertexsNumInShard[k := vertexsNumInShard[k] + 1];
      assert partitionMap == old(partitionMap)[v := Place(old(partitionMap), shardNum, v)];
      assert old(PopulationOk()) ==> (PopulationOk() <==> v !in old(vertexSet)) by {
        if old(PopulationOk()) {
          forall j | 0 <= j < shardNum
            ensures Population(old(vertexSet), partitionMap, j) == old(Population(vertexSet, partitionMap, j))
          {
            assert Members(old(vertexSet), partitionMap, j) == old(Members(vertexSet, partitionMap, j));
          }
          if v in old(vertexSet) {
            assert vertexSet == old(vertexSet);
          } else {
            forall j | 0 <= j < shardNum
              ensures Population(vertexSet, partitionMap, j)
                      == Population(old(vertexSet), partitionMap, j) + if partitionMap[v] == j then 1 else 0
            {
              PopulationAdd(old(vertexSet), partitionMap, v, j);
            }
          }
        }
      }
    }

    method AddEdge(u: Address, v: Address)
      requires GraphOk() && PopulationOk()
      modifies `vertexSet, `partitionMap, `vertexsNumInShard, `edgeSet, `edges
      ensures GraphOk() && PopulationOk()
      ensures edges == old(edges) + [Edge(u, v)] && vertexSet == old(vertexSet) + {u, v}
      ensures partitionMap.Keys == old(partitionMap).Keys + {u, v}
      ensures forall a | a in partitionMap :: partitionMap[a] == Place(old(partitionMap), shardNum, a)
    {
      if u !in vertexSet {
        AddVertex(u);
      }
      if v !in vertexSet {
        AddVertex(v);
      }
      Link(u, v);
    }

    /** Both directions of an undirected edge. */
    method Link(u: Address, v: Address)
      requires GraphOk() && u in vertexSet && v in vertexSet
      modifies `edgeSet, `edges
      ensures GraphOk() && edges == old(edges) + [Edge(u, v)]
    {
      LinkStep(edgeSet, edges, u, v);
      hide Lists, Nbrs;
      edgeSet := edgeSet[u := Adjacent(u) + [v]];
      edgeSet := edgeSet[v := Adjacent(v) + [u]];
      edges := edges + [Edge(u, v)];
    }

    // ----- counting from scratch -----

    method CountNeighbours(v: Address, cross0: seq<int>, inter0: seq<int>) returns (cross: seq<int>, inter: seq<int>)
      requires GraphOk() && v in edgeSet && |cross0| == |inter0| == shardNum
      ensures |cross| == |inter| == shardNum && (forall i | 0 <= i < |edgeSet[v]| :: edgeSet[v][i] in partitionMap)
      ensures forall k | 0 <= k < shardNum ::
                cross[k] == cross0[k] + InTo(edgeSet[v], partitionMap, partitionMap[v], k)
                && inter[k] == inter0[k] + Inside(edgeSet[v], partitionMap, partitionMap[v], k)
    {
      NbrsPlaced(edges, partitionMap, v);
      cross, inter := cross0, inter0;
      var vShard := partitionMap[v];
      var lst := edgeSet[v];
      for i := 0 to |lst|
        invariant |cross| == |inter| == shardNum
        invariant forall k | 0 <= k < shardNum ::
                    cross[k] == cross0[k] + InTo(lst[..i], partitionMap, vShard, k)
                    && inter[k] == inter0[k] + Inside(lst[..i], partitionMap, vShard, k)
      {
        var uShard := partitionMap[lst[i]];
        if vShard != uShard {
          cross := cross[uShard := cross[uShard] + 1];
        } else {
          inter := inter[uShard := inter[uShard] + 1];
        }
        assert lst[..i + 1][..i] == lst[..i];
      }
      assert lst[..|lst|] == lst;
    }

    method CountDirected() returns (cross: seq<int>, inter: seq<int>)
      requires GraphOk()
      ensures |cross| == |inter| == shardNum
      ensures forall k | 0 <= k < shardNum ::
                cross[k] == CrossAt(edges, partitionMap, k) && inter[k] == 2 * InnerAt(edges, partitionMap, k)
    {
      cross, inter := seq(shardNum, k => 0), seq(shardNum, k => 0);
      var left := edgeSet.Keys;
      ghost var order: seq<Address> := [];
      while left != {}
        invariant left <= edgeSet.Keys && |cross| == |inter| == shardNum
        invariant Distinct(order) && forall i | 0 <= i < |order| :: order[i] in partitionMap && order[i] !in left
        invariant forall v | v in edgeSet && v !in left :: v in order
        invariant forall k | 0 <= k < shardNum ::
                    cross[k] == SumIn(order, edges, partitionMap, k)
                        && inter[k] == SumInside(order, edges, partitionMap, k)
      {
        var v :| v in left;
        cross, inter := CountNeighbours(v, cross, inter);
        left := left - {v};
        assert (order + [v])[..|order|] == order;
        order := order + [v];
      }
      forall k | 0 <= k < shardNum
        ensures cross[k] == CrossAt(edges, partitionMap, k) && inter[k] == 2 * InnerAt(edges, partitionMap, k)
      {
        EndsListed();
        DoubleCount(order, edges, partitionMap, k);
      }
    }

    lemma EndsListed()
      requires GraphOk()
      ensures forall i | 0 <= i < |edges| :: edges[i].u in edgeSet && edges[i].v in edgeSet
    {
      forall i | 0 <= i < |edges|
        ensures edges[i].u in edgeSet && edges[i].v in edgeSet
      {
        EndHasNbrs(edges, i);
      }
    }

    method LeastEdges() returns (m: int)
      ensures m == Least(edges2Shard)
    {
      m := MAX_INT;
      for i := 0 to |edges2Shard|
        invariant m == Least(edges2Shard[..i])
      {
        assert edges2Shard[..i + 1][..i] == edges2Shard[..i];
        if m > edges2Shard[i] {
          m := edges2Shard[i];
        }
      }
      assert edges2Shard[..|edges2Shard|] == edges2Shard;
    }

    /** Whatever the counters were, they are right afterwards, and they add up. */
    method ComputeEdges2Shard()
      requires GraphOk()
      modifies `edges2Shard, `minEdges2Shard, `crossShardEdgeNum
      ensures CountsOk()
      ensures Sum(edges2Shard) == |edges| + crossShardEdgeNum
    {
      var cross, inter := CountDirected();
      crossShardEdgeNum := 0;
      for i := 0 to shardNum
        invariant crossShardEdgeNum == Sum(cross[..i])
      {
        assert cross[..i + 1][..i] == cross[..i];
        crossShardEdgeNum := crossShardEdgeNum + cross[i];
      }
      assert cross[..shardNum] == cross;
      CrossTwice(edges, partitionMap, shardNum, cross);
      crossShardEdgeNum := crossShardEdgeNum / 2;
      edges2Shard := cross;
      for i := 0 to shardNum
        invariant |edges2Shard| == shardNum && crossShardEdgeNum == CrossEdges(edges, partitionMap)
        invariant forall k | 0 <= k < i :: edges2Shard[k] == EdgesAt(edges, partitionMap, k)
        invariant forall k | i <= k < shardNum :: edges2Shard[k] == cross[k]
      {
        edges2Shard := edges2Shard[i := edges2Shard[i] + inter[i] / 2];
        EdgesSplit(edges, partitionMap, i);
      }
      minEdges2Shard := LeastEdges();
      EdgeTotals(edges, partitionMap, shardNum, edges2Shard);
    }

    // ----- counting after one move -----

    method ShiftEdge(neighbour: ShardId, src: ShardId, dst: ShardId)
      requires src < |edges2Shard| && dst < |edges2Shard|
      modifies `edges2Shard, `crossShardEdgeNum
      ensures ShiftOne(old(edges2Shard), edges2Shard, neighbour, src, dst)
      ensures crossShardEdgeNum == old(crossShardEdgeNum)
                                   + if neighbour == dst then -1 else if neighbour == src then 1 else 0
    {
      if neighbour != dst && neighbour != src {
        edges2Shard := edges2Shard[dst := edges2Shard[dst] + 1];
        edges2Shard := edges2Shard[src := edges2Shard[src] - 1];
      } else if neighbour == dst {
        edges2Shard := edges2Shard[src := edges2Shard[src] - 1];
        crossShardEdgeNum := crossShardEdgeNum - 1;
      } else {
        edges2Shard := edges2Shard[dst := edges2Shard[dst] + 1];
        crossShardEdgeNum := crossShardEdgeNum + 1;
      }
    }

    method ChangeShardRecompute(v: Address, src: ShardId)
      requires GraphOk() && v in vertexSet && |edges2Shard| == shardNum && src < shardNum
      modifies `edges2Shard, `minEdges2Shard, `crossShardEdgeNum
      ensures |edges2Shard| == shardNum && (forall i | 0 <= i < |Adjacent(v)| :: Adjacent(v)[i] in partitionMap)
      ensures forall k | 0 <= k < shardNum ::
                edges2Shard[k] == old(edges2Shard[k]) + MoveAt(Adjacent(v), partitionMap, src, partitionMap[v], k)
      ensures crossShardEdgeNum == old(crossShardEdgeNum) + MoveCross(Adjacent(v), partitionMap, src, partitionMap[v])
      ensures minEdges2Shard == Least(edges2Shard)
    {
      NbrsPlaced(edges, partitionMap, v);
      var dst := partitionMap[v];
      var lst := Adjacent(v);
      hide GraphOk, Nbrs;
      for i := 0 to |lst|
        invariant |edges2Shard| == |old(edges2Shard)| == shardNum
                  && Shifted(edges2Shard, old(edges2Shard), lst[..i], partitionMap, src, dst)
        invariant crossShardEdgeNum == old(crossShardEdgeNum) + MoveCross(lst[..i], partitionMap, src, dst)
      {
        hide Shifted, ShiftOne, MoveCross;
        ghost var before := edges2Shard;
        ShiftEdge(partitionMap[lst[i]], src, dst);
        ShiftStep(edges2Shard, before, old(edges2Shard), lst, i, partitionMap, src, dst);
      }
      assert lst[..|lst|] == lst;
      minEdges2Shard := LeastEdges();
    }

    // ----- choosing a shard -----

    ghost function GraphOf(): Graph
      reads this
    {
      Graph(vertexSet, edges, shardNum, weightPenalty)
    }

    ghost function SweepOf(log: seq<Move>): Sweep
      reads this
    {
      Sweep(partitionMap, edges2Shard, log)
    }

    ghost function BallotOf(v: Address): Ballot
      reads this
    {
      Ballot(Adjacent(v), partitionMap, edges2Shard, minEdges2Shard, weightPenalty)
    }

    lemma BallotIsOk(v: Address)
      requires GraphOk() && |edges2Shard| == shardNum
      ensures BallotOk(BallotOf(v))
      ensures forall i | 0 <= i < |Adjacent(v)| :: Adjacent(v)[i] in vertexSet
    {
      NbrsPlaced(edges, partitionMap, v);
      NbrsPlaced(edges, map x | x in vertexSet :: 0, v);
    }

    method GetShardScore(v: Address, uShard: ShardId) returns (score: Option<real>)
      requires GraphOk() && |edges2Shard| == shardNum && uShard < shardNum && Adjacent(v) != []
      ensures BallotOk(BallotOf(v))
      ensures score == Score(Adjacent(v), partitionMap, uShard, edges2Shard, minEdges2Shard, weightPenalty)
    {
      BallotIsOk(v);
      var lst := Adjacent(v);
      var edgesTo := 0;
      for i := 0 to |lst|
        invariant edgesTo == EdgesTo(lst[..i], partitionMap, uShard)
      {
        assert lst[..i + 1][..i] == lst[..i];
        if partitionMap[lst[i]] == uShard {
          edgesTo := edgesTo + 1;
        }
      }
      assert lst[..|lst|] == lst;
      if minEdges2Shard == 0 {
        return None;
      }
      score := Some(Weigh(edgesTo, |lst|, weightPenalty, edges2Shard[uShard], minEdges2Shard));
    }

    method ChooseShard(v: Address) returns (best: ShardId)
      requires GraphOk() && v in vertexSet && |edges2Shard| == shardNum
      ensures Elected(BallotOf(v), partitionMap[v], best)
    {
      BallotIsOk(v);
      ghost var b := BallotOf(v);
      var lst := Adjacent(v);
      var scores: map<ShardId, Option<real>> := map[];
      var top := FLOOR;
      best := partitionMap[v];
      for i := 0 to |lst|
        invariant forall j: nat | j < i :: partitionMap[lst[j]] in scores
        invariant scores != map[] ==> lst != []
        invariant forall k | k in scores :: k < shardNum
                                            && scores[k] == Score(lst, partitionMap, k, edges2Shard, minEdges2Shard,
                                                                  weightPenalty)
                                            && !Beats(scores[k], top)
        invariant Chosen(b, i, partitionMap[v], best, top)
      {
        var uShard := partitionMap[lst[i]];
        if uShard !in scores {
          var score := GetShardScore(v, uShard);
          scores := scores[uShard := score];
          if Beats(score, top) {
            top, best := score.value, uShard;
          }
          assert Candidate(b, i) == score;
        }
      }
      assert Chosen(BallotOf(v), |Adjacent(v)|, partitionMap[v], best, top);
    }

    // ----- the run -----

    /** One move: populations stay right, and right edge counts stay right exactly when the vertex
        is not its own neighbour. */
    method Relocate(v: Address, best: ShardId)
      requires GraphOk() && PopulationOk() && |edges2Shard| == shardNum
      requires v in vertexSet && best < shardNum && best != partitionMap[v]
      modifies `partitionMap, `vertexsNumInShard, `edges2Shard, `minEdges2Shard, `crossShardEdgeNum
      ensures partitionMap == old(partitionMap)[v := best]
      ensures GraphOk() && PopulationOk() && |edges2Shard| == shardNum && minEdges2Shard == Least(edges2Shard)
      ensures old(CountsOk()) ==> (CountsOk() <==> v !in Adjacent(v))
      ensures edges2Shard == CountsMoved(edges, old(partitionMap), old(edges2Shard), v, best)
    {
      hide Nbrs, MoveAt, MoveCross, EdgesAt, CrossEdges, Population;
      var now := partitionMap[v];
      Relabel(v, best);
      ChangeShardRecompute(v, now);
      assert Adjacent(v) == Nbrs(edges, v);
      assert edges2Shard == CountsMoved(edges, old(partitionMap), old(edges2Shard), v, best);
      if old(CountsOk()) {
        CountsAfterMove(edges, old(partitionMap), v, best, shardNum, old(edges2Shard), edges2Shard);
      }
    }

    method Relabel(v: Address, best: ShardId)
      requires GraphOk() && PopulationOk() && v in vertexSet && best < shardNum && best != partitionMap[v]
      modifies `partitionMap, `vertexsNumInShard
      ensures partitionMap == old(partitionMap)[v := best] && GraphOk() && PopulationOk()
    {
      var now := partitionMap[v];
      PopulationsMove(v, best);
      hide Population, Nbrs;
      partitionMap := partitionMap[v := best];
      vertexsNumInShard := vertexsNumInShard[now := vertexsNumInShard[now] - 1];
      vertexsNumInShard := vertexsNumInShard[best := vertexsNumInShard[best] + 1];
    }

    lemma PopulationsMove(v: Address, best: ShardId)
      requires GraphOk() && v in vertexSet && best != partitionMap[v]
      ensures forall k: ShardId :: Population(vertexSet, partitionMap[v := best], k)
                                   == Population(vertexSet, partitionMap, k)
                                      + (if k == best then 1 else 0) - (if k == partitionMap[v] then 1 else 0)
    {
      forall k: ShardId
        ensures Population(vertexSet, partitionMap[v := best], k)
                == Population(vertexSet, partitionMap, k)
                   + (if k == best then 1 else 0) - (if k == partitionMap[v] then 1 else 0)
      {
        PopulationMove(vertexSet, partitionMap, v, best, k);
      }
    }

    /** What holds between any two moves of a run that started from placement p0. */
    ghost predicate RunOk(p0: Placement, moved: Placement, moves: map<Address, nat>, log: seq<Move>)
      reads this
    {
      && GraphOk() && PopulationOk() && |edges2Shard| == shardNum && minEdges2Shard == Least(edges2Shard)
      && moved.Keys <= vertexSet && partitionMap == p0 + moved && partitionMap == Replay(p0, log)
      && (forall v :: v in moved <==> MovesOf(log, v) > 0)
      && Tally(moves, log)
      && SameShards(vertexSet, p0, partitionMap)
      && (NoLoops(edges) ==> CountsOk() && AllJustified(vertexSet, edges, p0, shardNum, weightPenalty, log))
    }

    /** One vertex of one pass: it is moved exactly when a move is due, where the scores send it. */
    method Visit(v: Address, moved0: Placement, moves0: map<Address, nat>, ghost p0: Placement, ghost log0: seq<Move>)
      returns (moved: Placement, moves: map<Address, nat>, ghost log: seq<Move>)
      requires v in vertexSet && RunOk(p0, moved0, moves0, log0)
      modifies `partitionMap, `vertexsNumInShard, `edges2Shard, `minEdges2Shard, `crossShardEdgeNum
      ensures RunOk(p0, moved, moves, log)
      ensures old(SweepOk(GraphOf(), SweepOf(log0))) && SweepOf(log) == VisitTo(old(GraphOf()), old(SweepOf(log0)), v)
      ensures v in partitionMap && (log == log0 || log == log0 + [Move(v, partitionMap[v])])
    {
      moved, moves, log := moved0, moves0, log0;
      RunIsSweep(p0, moved, moves, log, v);
      hide VisitTo, SweepOk, Due, CountsMoved, Elected, Tally, SameShards, AllJustified, NoLoops, Replay, MovesOf;
      var count := if v in moves then moves[v] else 0;
      if count >= MAX_MOVES {
        LimitReached(p0, moved, moves, log, v);
        return;
      }
      var best := ChooseShard(v);
      var now := partitionMap[v];
      DueHere(p0, moved, moves, log, v, best);
      if now != best && vertexsNumInShard[now] > 1 {
        moved, moves, log := MoveTo(v, best, moved, moves, p0, log,
                                    CountsMoved(edges, partitionMap, edges2Shard, v, best));
      }
    }

    method MoveTo(v: Address, best: ShardId, moved0: Placement, moves0: map<Address, nat>, ghost p0: Placement,
                  ghost log0: seq<Move>, ghost counts: seq<int>)
      returns (moved: Placement, moves: map<Address, nat>, ghost log: seq<Move>)
      requires GraphOk() && v in vertexSet && best != partitionMap[v]
      requires counts == CountsMoved(edges, partitionMap, edges2Shard, v, best)
      requires Elected(BallotOf(v), partitionMap[v], best)
      requires RunOk(p0, moved0, moves0, log0)
      requires vertexsNumInShard[partitionMap[v]] > 1 && (v in moves0 ==> moves0[v] < MAX_MOVES)
      modifies `partitionMap, `vertexsNumInShard, `edges2Shard, `minEdges2Shard, `crossShardEdgeNum
      ensures RunOk(p0, moved, moves, log) && partitionMap == old(partitionMap)[v := best]
      ensures log == log0 + [Move(v, best)]
      ensures edges2Shard == counts
    {
      MoveIsSound(v, best, p0, moved0, moves0, log0);
      hide GraphOk, PopulationOk, CountsOk, Elected, Tally, SameShards, AllJustified, NoLoops, Replay, SweepOk, MovesOf,
           CountsMoved;
      moved := moved0[v := best];
      moves := moves0[v := (if v in moves0 then moves0[v] else 0) + 1];
      log := log0 + [Move(v, best)];
      Relocate(v, best);
    }

    lemma {:induction false} RunIsSweep(p0: Placement, moved: Placement, moves: map<Address, nat>, log: seq<Move>,
        v: Address)
      requires RunOk(p0, moved, moves, log) && v in vertexSet
      ensures SweepOk(GraphOf(), SweepOf(log))
      ensures BallotOf(v) == BallotAt(GraphOf(), SweepOf(log), v) && Adjacent(v) == Nbrs(edges, v)
    {
      hide Nbrs, Tally, SameShards, AllJustified, NoLoops, Replay, CountsOk, PopulationOk;
    }

    lemma LimitReached(p0: Placement, moved: Placement, moves: map<Address, nat>, log: seq<Move>, v: Address)
      requires RunOk(p0, moved, moves, log) && v in vertexSet && v in moves && moves[v] >= MAX_MOVES
      requires SweepOk(GraphOf(), SweepOf(log))
      ensures VisitTo(GraphOf(), SweepOf(log), v) == SweepOf(log)
    {
      hide Nbrs, SameShards, AllJustified, NoLoops, Replay, CountsOk, PopulationOk, GraphOk, Best, SweepOk;
      assert MovesOf(log, v) >= 50;
    }

    /** What the guard of the move decides. */
    lemma DueHere(p0: Placement, moved: Placement, moves: map<Address, nat>, log: seq<Move>, v: Address, best: ShardId)
      requires RunOk(p0, moved, moves, log) && v in vertexSet && (v in moves ==> moves[v] < MAX_MOVES)
      requires SweepOk(GraphOf(), SweepOf(log)) && BallotOf(v) == BallotAt(GraphOf(), SweepOf(log), v)
      requires Elected(BallotOf(v), partitionMap[v], best)
      ensures best == Best(BallotAt(GraphOf(), SweepOf(log), v), partitionMap[v])
      ensures Due(GraphOf(), SweepOf(log), v, best)
          <==> partitionMap[v] != best && vertexsNumInShard[partitionMap[v]] > 1
      ensures VisitTo(GraphOf(), SweepOf(log), v)
              == if Due(GraphOf(), SweepOf(log), v, best)
                 then Sweep(partitionMap[v := best], CountsMoved(edges, partitionMap, edges2Shard, v, best),
                     log + [Move(v, best)])
                 else SweepOf(log)
    {
      ElectedUnique(BallotOf(v), partitionMap[v], best, Best(BallotAt(GraphOf(), SweepOf(log), v), partitionMap[v]));
      hide Nbrs, SameShards, AllJustified, NoLoops, Replay, CountsOk, Elected, CountsMoved;
      assert MovesOf(log, v) < 50;
      assert Members(vertexSet, partitionMap, partitionMap[v])
             == set u | u in vertexSet && partitionMap[u] == partitionMap[v];
    }

    lemma {:induction false} MoveIsSound(v: Address, best: ShardId, p0: Placement, moved: Placement,
        moves: map<Address, nat>,
                      log: seq<Move>)
      requires RunOk(p0, moved, moves, log) && v in vertexSet && best != partitionMap[v]
      requires vertexsNumInShard[partitionMap[v]] > 1 && (v in moves ==> moves[v] < MAX_MOVES)
      requires Elected(BallotOf(v), partitionMap[v], best)
      ensures best < shardNum
      ensures var m := Move(v, best);
              && p0 + moved[v := best] == partitionMap[v := best] == Replay(p0, log + [m])
              && (forall u :: u in moved[v := best] <==> MovesOf(log + [m], u) > 0)
              && Tally(moves[v := (if v in moves then moves[v] else 0) + 1], log + [m])
              && SameShards(vertexSet, p0, partitionMap[v := best])
              && (NoLoops(edges) ==>
                    v !in Adjacent(v) && AllJustified(vertexSet, edges, p0, shardNum, weightPenalty, log + [m]))
    {
      var m := Move(v, best);
      hide Nbrs, Elected, Replay, Tally, SameShards, AllJustified, Justified, NoLoops, Population, CountsOk;
      ReplayStep(p0, log, m);
      MovedStep(moved, log, m);
      OverlayStep(p0, moved, partitionMap, m);
      if NoLoops(edges) {
        MoveIsJustified(m);
        AllJustifiedStep(vertexSet, edges, p0, shardNum, weightPenalty, log, m);
      }
      ChosenIsInhabited(v, best);
      SameShardsStep(vertexSet, p0, partitionMap, v, best);
      TallyStep(moves, log, m);
    }

    lemma ChosenIsInhabited(v: Address, best: ShardId)
      requires GraphOk() && |edges2Shard| == shardNum && v in vertexSet && best != partitionMap[v]
      requires Elected(BallotOf(v), partitionMap[v], best)
      ensures best < shardNum && Population(vertexSet, partitionMap, best) > 0
    {
      var top: real :| Chosen(BallotOf(v), |Adjacent(v)|, partitionMap[v], best, top);
      BallotIsOk(v);
      var i: nat :| i < |Adjacent(v)| && best == partitionMap[Adjacent(v)[i]];
      assert Adjacent(v)[i] in Members(vertexSet, partitionMap, best);
    }

    lemma MoveIsJustified(m: Move)
      requires GraphOk() && PopulationOk() && CountsOk()
      requires m.v in vertexSet && m.dst != partitionMap[m.v] && vertexsNumInShard[partitionMap[m.v]] > 1
      requires Elected(BallotOf(m.v), partitionMap[m.v], m.dst)
      ensures Justified(vertexSet, edges, partitionMap, shardNum, weightPenalty, m)
      ensures NoLoops(edges) ==> m.v !in Adjacent(m.v)
    {
      assert Adjacent(m.v) == Nbrs(edges, m.v);
    }

    /** One pass over all vertices, each visited once, in any order. */
    method Pass(moved0: Placement, moves0: map<Address, nat>, ghost p0: Placement, ghost log0: seq<Move>,
                ghost bound: nat)
      returns (moved: Placement, moves: map<Address, nat>, ghost log: seq<Move>, ghost order: seq<Address>)
      requires RunOk(p0, moved0, moves0, log0) && forall v: Address :: MovesOf(log0, v) <= bound
      requires SweepOk(GraphOf(), SweepOf(log0))
      modifies `partitionMap, `vertexsNumInShard, `edges2Shard, `minEdges2Shard, `crossShardEdgeNum
      ensures RunOk(p0, moved, moves, log) && forall v: Address :: MovesOf(log, v) <= bound + 1
      ensures Covers(order, vertexSet) && SweepOf(log) == PassTo(old(GraphOf()), old(SweepOf(log0)), order)
      ensures SweepOk(GraphOf(), SweepOf(log))
    {
      hide RunOk, SweepOk, VisitTo;
      moved, moves, log, order := moved0, moves0, log0, [];
      var left := vertexSet;
      while left != {}
        invariant left <= vertexSet && RunOk(p0, moved, moves, log)
        invariant forall v: Address :: MovesOf(log, v) <= if v in left then bound else bound + 1
        invariant Covers(order, vertexSet - left)
        invariant SweepOf(log) == PassTo(old(GraphOf()), old(SweepOf(log0)), order)
      {
        var v :| v in left;
        ghost var before := log;
        moved, moves, log := Visit(v, moved, moves, p0, log);
        MovesGrow(before, log, Move(v, partitionMap[v]));
        hide MovesOf;
        assert (order + [v])[..|order|] == order;
        order := order + [v];
        left := left - {v};
      }
      assert vertexSet - left == vertexSet;
    }

    /** The whole algorithm.  `log` lists the moves in order. */
    method ClpaPartition()
      returns (moved: Placement, cross: int, ghost log: seq<Move>, ghost orders: seq<seq<Address>>)
      requires GraphOk() && PopulationOk()
      modifies `partitionMap, `vertexsNumInShard, `edges2Shard, `minEdges2Shard, `crossShardEdgeNum
      ensures GraphOk() && PopulationOk() && CountsOk()
      ensures Sum(vertexsNumInShard) == |vertexSet| && Sum(edges2Shard) == |edges| + cross
      ensures moved.Keys <= vertexSet && partitionMap == old(partitionMap) + moved
      ensures cross == CrossEdges(edges, partitionMap)
      ensures SameShards(vertexSet, old(partitionMap), partitionMap)
      ensures partitionMap == Replay(old(partitionMap), log)
      ensures forall v: Address ::
                MovesOf(log, v) <= MAX_MOVES && (maxIterations >= 0 ==> MovesOf(log, v) <= maxIterations)
      ensures NoLoops(edges) ==> AllJustified(vertexSet, edges, old(partitionMap), shardNum, weightPenalty, log)
      ensures forall v :: v in moved <==> MovesOf(log, v) > 0
      ensures Ran(GraphOf(), old(partitionMap), maxIterations, orders, partitionMap, log)
    {
      hide Ran, AllJustified, SameShards, Replay, MovesOf, NoLoops, CountsOk, Start, SweepOk;
      ComputeEdges2Shard();
      ghost var p0 := partitionMap;
      StartIsOk();
      moved, log := map[], [];
      var moves: map<Address, nat> := map[];
      moved, moves, log, orders := Passes(moved, moves, p0, log);
      RunTotals(p0, moved, moves, log);
      ComputeEdges2Shard();
      cross := crossShardEdgeNum;
    }

    lemma StartIsOk()
      requires GraphOk() && PopulationOk() && CountsOk()
      ensures RunOk(partitionMap, map[], map[], [])
      ensures SweepOk(GraphOf(), SweepOf([])) && SweepOf([]) == Start(GraphOf(), partitionMap)
    {
      assert partitionMap + map[] == partitionMap;
      hide Nbrs, EdgesAt, CrossEdges;
    }

    method Passes(moved0: Placement, moves0: map<Address, nat>, ghost p0: Placement, ghost log0: seq<Move>)
      returns (moved: Placement, moves: map<Address, nat>, ghost log: seq<Move>, ghost orders: seq<seq<Address>>)
      requires RunOk(p0, moved0, moves0, log0) && log0 == [] && SweepOk(GraphOf(), SweepOf(log0))
      requires p0 == partitionMap && SweepOf(log0) == Start(GraphOf(), p0)
      modifies `partitionMap, `vertexsNumInShard, `edges2Shard, `minEdges2Shard, `crossShardEdgeNum
      ensures RunOk(p0, moved, moves, log)
      ensures forall v: Address :: maxIterations >= 0 ==> MovesOf(log, v) <= maxIterations
      ensures Ran(GraphOf(), p0, maxIterations, orders, partitionMap, log)
    {
      assert forall i | 0 <= i < |edges| :: edges[i].u in p0 && edges[i].v in p0;
      assert forall v: Address :: MovesOf([], v) == 0;
      hide RunOk, SweepOk, PassTo, Start, PassesTo, Ran, MovesOf, Covers;
      moved, moves, log, orders := moved0, moves0, log0, [];
      NoPasses(GraphOf(), SweepOf(log0));
      var iter: nat := 0;
      while iter < maxIterations
        invariant RunOk(p0, moved, moves, log) && SweepOk(GraphOf(), SweepOf(log))
        invariant iter <= maxIterations || iter == 0
        invariant forall v: Address :: MovesOf(log, v) <= iter
        invariant PassesTo(old(GraphOf()), old(SweepOf(log0)), iter, orders, SweepOf(log))
      {
        ghost var order;
        ghost var before := SweepOf(log);
        moved, moves, log, order := Pass(moved, moves, p0, log, iter);
        OnePassMore(old(GraphOf()), old(SweepOf(log0)), iter, orders, before, order);
        orders := orders + [order];
        iter := iter + 1;
      }
      PassesAreRun(GraphOf(), p0, maxIterations, orders, SweepOf(log));
    }

    lemma {:induction false} RunTotals(p0: Placement, moved: Placement, moves: map<Address, nat>, log: seq<Move>)
      requires RunOk(p0, moved, moves, log)
      ensures Sum(vertexsNumInShard) == |vertexSet|
      ensures forall v: Address :: MovesOf(log, v) <= MAX_MOVES
    {
      PopulationTotal(vertexSet, partitionMap, shardNum, vertexsNumInShard);
    }

    // ----- an initial partition without empty shards -----

    /** Deals the vertices out in turn.  Fails exactly when there are more shards than vertices;
        otherwise the shard sizes differ by at most one and none is empty. */
    method StableInitPartition() returns (ok: bool)
      requires GraphOk()
      modifies `partitionMap, `vertexsNumInShard, `edges2Shard, `minEdges2Shard, `crossShardEdgeNum
      ensures ok <==> shardNum <= |vertexSet|
      ensures GraphOk()
      ensures ok ==> PopulationOk() && CountsOk() && partitionMap.Keys == vertexSet
      ensures ok ==> forall k | 0 <= k < shardNum ::
                       1 <= |vertexSet| / shardNum <= vertexsNumInShard[k] <= |vertexSet| / shardNum + 1
      ensures !ok ==> partitionMap == old(partitionMap) && vertexsNumInShard == old(vertexsNumInShard)
    {
      if shardNum > |vertexSet| {
        return false;
      }
      partitionMap, vertexsNumInShard := DealOut(vertexSet, shardNum);
      ComputeEdges2Shard();
      AtLeastOne(|vertexSet|, shardNum);
      ok := true;
    }
  }

  method DealOut(vs: set<Address>, n: nat) returns (pmap: Placement, nums: seq<int>)
    requires n > 0
    ensures pmap.Keys == vs && (forall v | v in pmap :: pmap[v] < n) && |nums| == n
    ensures forall k | 0 <= k < n :: nums[k] == Population(vs, pmap, k) == Share(|vs|, n, k)
  {
    pmap, nums := map[], seq(n, k => 0);
    var left := vs;
    var cnt: nat := 0;
    while left != {}
      invariant left <= vs && pmap.Keys == vs - left && cnt == |vs| - |left|
      invariant Dealt(pmap, nums, cnt, n)
    {
      var v :| v in left;
      var k := cnt % n;
      DealtStep(pmap, nums, cnt, n, v);
      hide Dealt;
      pmap := pmap[v := k];
      nums := nums[k := nums[k] + 1];
      left := left - {v};
      cnt := cnt + 1;
    }
    assert pmap.Keys == vs;
  }

  ghost predicate Dealt(pmap: Placement, nums: seq<int>, cnt: nat, n: nat)
    requires n > 0
  {
    && |nums| == n && (forall v | v in pmap :: pmap[v] < n)
    && forall k | 0 <= k < n :: nums[k] == Population(pmap.Keys, pmap, k) == Share(cnt, n, k)
  }

  lemma DealtStep(pmap: Placement, nums: seq<int>, cnt: nat, n: nat, v: Address)
    requires n > 0 && Dealt(pmap, nums, cnt, n) && v !in pmap
    ensures |nums| == n && Dealt(pmap[v := cnt % n], nums[cnt % n := nums[cnt % n] + 1], cnt + 1, n)
  {
    var j := cnt % n;
    var pmap', nums' := pmap[v := j], nums[j := nums[j] + 1];
    DealStep(pmap, v, j, n);
    ShareStep(cnt, n);
    hide Population, Share;
    forall k | 0 <= k < n
      ensures nums'[k] == Population(pmap'.Keys, pmap', k) == Share(cnt + 1, n, k)
    {
      assert nums[k] == Population(pmap.Keys, pmap, k) == Share(cnt, n, k);
    }
  }

  lemma DealStep(p: Placement, v: Address, dst: ShardId, n: nat)
    requires v !in p
    ensures forall k | 0 <= k < n :: Population(p[v := dst].Keys, p[v := dst], k)
                                     == Population(p.Keys, p, k) + if k == dst then 1 else 0
  {
    var q := p[v := dst];
    assert q.Keys == p.Keys + {v};
    forall k | 0 <= k < n
      ensures Population(q.Keys, q, k) == Population(p.Keys, p, k) + if k == dst then 1 else 0
    {
      assert Members(p.Keys, q, k) == Members(p.Keys, p, k);
      PopulationAdd(p.Keys, q, v, k);
    }
  }

  /** Members of shard k after cnt vertices were dealt out to n shards in turn. */
  function Share(cnt: nat, n: nat, k: ShardId): nat
    requires n > 0
  {
    cnt / n + if k < cnt % n then 1 else 0
  }

  lemma ShareStep(cnt: nat, n: nat)
    requires n > 0
    ensures forall k | 0 <= k < n :: Share(cnt + 1, n, k) == Share(cnt, n, k) + if k == cnt % n then 1 else 0
  {
    CountUp(cnt, n);
  }

  lemma CountUp(cnt: nat, n: nat)
    requires n > 0
    ensures if cnt % n + 1 == n then (cnt + 1) / n == cnt / n + 1 && (cnt + 1) % n == 0
            else (cnt + 1) / n == cnt / n && (cnt + 1) % n == cnt % n + 1
  {
    var q, r := cnt / n, cnt % n;
    assert cnt == q * n + r;
    if r + 1 == n {
      assert cnt + 1 == (q + 1) * n + 0;
      Quotient(cnt + 1, n, q + 1, 0);
    } else {
      Quotient(cnt + 1, n, q, r + 1);
    }
  }

  lemma Quotient(x: nat, n: nat, q: nat, r: nat)
    requires n > 0 && r < n && x == q * n + r
    ensures x / n == q && x % n == r
  {
    var d := x / n - q;
    assert d * n + x % n == r by {
      assert x == (x / n) * n + x % n;
    }
  }

  lemma AtLeastOne(x: nat, n: nat)
    requires 0 < n <= x
    ensures 1 <= x / n
  {
    assert x == (x / n) * n + x % n;
  }

  lemma MovesGrow(before: seq<Move>, log: seq<Move>, m: Move)
    requires log == before || log == before + [m]
    ensures forall x: Address :: MovesOf(log, x) <= MovesOf(before, x) + if x == m.v then 1 else 0
  {
    assert log != before ==> log[..|log| - 1] == before;
  }

  /** The move counters are the numbers of logged moves, at most fifty each. */
  ghost predicate Tally(moves: map<Address, nat>, log: seq<Move>) {
    forall v: Address :: MovesOf(log, v) == (if v in moves then moves[v] else 0) <= MAX_MOVES
  }

  /** The same shards have members under both placements. */
  ghost predicate SameShards(vs: set<Address>, p: Placement, q: Placement) {
    && (forall v | v in vs :: v in p && v in q)
    && (forall k: ShardId :: Population(vs, p, k) > 0 <==> Population(vs, q, k) > 0)
  }

  lemma OverlayStep(p: Placement, moved: Placement, q: Placement, m: Move)
    requires q == p + moved
    ensures p + moved[m.v := m.dst] == q[m.v := m.dst]
  {
  }

  lemma {:induction false} MovedStep(moved: Placement, log: seq<Move>, m: Move)
    requires forall v :: v in moved <==> MovesOf(log, v) > 0
    ensures forall v :: v in moved[m.v := m.dst] <==> MovesOf(log + [m], v) > 0
  {
    assert (log + [m])[..|log|] == log;
  }

  lemma {:induction false} ReplayStep(p: Placement, log: seq<Move>, m: Move)
    ensures Replay(p, log + [m]) == Replay(p, log)[m.v := m.dst]
  {
    assert (log + [m])[..|log|] == log;
  }

  lemma TallyStep(moves: map<Address, nat>, log: seq<Move>, m: Move)
    requires Tally(moves, log) && (m.v in moves ==> moves[m.v] < MAX_MOVES)
    ensures Tally(moves[m.v := (if m.v in moves then moves[m.v] else 0) + 1], log + [m])
  {
    assert (log + [m])[..|log|] == log;
  }

  lemma SameShardsStep(vs: set<Address>, p: Placement, q: Placement, v: Address, dst: ShardId)
    requires SameShards(vs, p, q) && v in vs && dst != q[v]
    requires Population(vs, q, q[v]) > 1 && Population(vs, q, dst) > 0
    ensures SameShards(vs, p, q[v := dst])
  {
    forall k: ShardId
      ensures Population(vs, p, k) > 0 <==> Population(vs, q[v := dst], k) > 0
    {
      PopulationMove(vs, q, v, dst, k);
    }
  }

  lemma {:induction false} AllJustifiedStep(vs: set<Address>, edges: seq<Edge>, p: Placement, n: nat, penalty: real,
      log: seq<Move>,
                         m: Move)
    requires AllJustified(vs, edges, p, n, penalty, log)
    requires Justified(vs, edges, Replay(p, log), n, penalty, m)
    ensures AllJustified(vs, edges, p, n, penalty, log + [m])
  {
    hide Justified, Replay;
    forall i | 0 <= i < |log + [m]|
      ensures Justified(vs, edges, Replay(p, (log + [m])[..i]), n, penalty, (log + [m])[i])
    {
      if i < |log| {
        assert (log + [m])[..i] == log[..i];
      } else {
        assert (log + [m])[..i] == log;
      }
    }
  }

  lemma LinkStep(lists: map<Address, seq<Address>>, edges: seq<Edge>, u: Address, v: Address)
    requires Lists(lists, edges)
    ensures var one := lists[u := (if u in lists then lists[u] else []) + [v]];
            Lists(one[v := (if v in one then one[v] else []) + [u]], edges + [Edge(u, v)])
  {
    forall x: Address
      ensures Nbrs(edges + [Edge(u, v)], x) == Nbrs(edges, x) + (if x == u then [v] else [])
              + (if x == v then [u] else [])
    {
      assert (edges + [Edge(u, v)])[..|edges|] == edges;
    }
  }

  lemma {:induction false} EndHasNbrs(edges: seq<Edge>, i: nat)
    requires i < |edges|
    ensures Nbrs(edges, edges[i].u) != [] && Nbrs(edges, edges[i].v) != []
  {
    if i < |edges| - 1 {
      EndHasNbrs(edges[..|edges| - 1], i);
    }
  }
}
