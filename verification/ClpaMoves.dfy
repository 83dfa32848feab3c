/** What a run of the label propagation is: the score of a shard for a vertex, the shard a vertex is
    sent to, and the visits of a run as steps. */
module ClpaMoves {
  import opened Core
  import opened ClpaSpec

  const MAX_INT: int := 0x7fff_ffff_ffff_ffff
  const FLOOR: real := -9999.0
  const MAX_MOVES: nat := 50

  function Least(s: seq<int>): int {
    if s == [] then MAX_INT
    else
      var rest := Least(s[..|s| - 1]);
      if rest > s[|s| - 1] then s[|s| - 1] else rest
  }

  // ----- the score of a shard for a vertex -----

  function EdgesTo(nbrs: seq<Address>, p: Placement, k: ShardId): nat
    requires forall i | 0 <= i < |nbrs| :: nbrs[i] in p
  {
    if nbrs == [] then 0
    else EdgesTo(nbrs[..|nbrs| - 1], p, k) + if p[nbrs[|nbrs| - 1]] == k then 1 else 0
  }

  /** The score, over the reals; `None` when the least edge count is zero, where the quotient of
      the source is not a number or minus infinity and never beats the floor. */
  function Score(nbrs: seq<Address>, p: Placement, k: ShardId, counts: seq<int>, least: int,
                 penalty: real): Option<real>
    requires nbrs != [] && k < |counts| && forall i | 0 <= i < |nbrs| :: nbrs[i] in p
  {
    if least == 0 then None
    else Some(Weigh(EdgesTo(nbrs, p, k), |nbrs|, penalty, counts[k], least))
  }

  function Weigh(edgesTo: nat, degree: nat, penalty: real, count: int, least: int): real
    requires degree != 0 && least != 0
  {
    edgesTo as real / degree as real * (1.0 - penalty * count as real / least as real)
  }

  predicate Beats(s: Option<real>, x: real) {
    s.Some? && s.value > x
  }

  /** What the score depends on besides the shard. */
  datatype Ballot = Ballot(nbrs: seq<Address>, p: Placement, counts: seq<int>, least: int, penalty: real)

  predicate BallotOk(b: Ballot) {
    forall i | 0 <= i < |b.nbrs| :: b.nbrs[i] in b.p && b.p[b.nbrs[i]] < |b.counts|
  }

  function Candidate(b: Ballot, i: nat): Option<real>
    requires BallotOk(b) && i < |b.nbrs|
  {
    Score(b.nbrs, b.p, b.p[b.nbrs[i]], b.counts, b.least, b.penalty)
  }

  /** Among the first `upTo` neighbours, `best` is the shard of the first one that reaches the
      highest score above the floor, or the vertex's own shard if no score is above it. */
  ghost predicate Chosen(b: Ballot, upTo: nat, own: ShardId, best: ShardId, top: real)
    requires BallotOk(b) && upTo <= |b.nbrs|
  {
    && (forall j: nat | j < upTo :: !Beats(Candidate(b, j), top))
    && ((top == FLOOR && best == own)
        || exists i: nat | i < upTo ::
             && best == b.p[b.nbrs[i]] && Candidate(b, i) == Some(top) && top > FLOOR
             && forall j: nat | j < i :: Candidate(b, j) != Some(top))
  }

  /** The shard the scores send a vertex to. */
  ghost predicate Elected(b: Ballot, own: ShardId, best: ShardId) {
    BallotOk(b) && exists top: real :: Chosen(b, |b.nbrs|, own, best, top)
  }

  // ----- the moves of a run -----

  datatype Move = Move(v: Address, dst: ShardId)

  function Replay(p: Placement, log: seq<Move>): Placement {
    if log == [] then p
    else Replay(p, log[..|log| - 1])[log[|log| - 1].v := log[|log| - 1].dst]
  }

  function MovesOf(log: seq<Move>, v: Address): nat {
    if log == [] then 0
    else MovesOf(log[..|log| - 1], v) + if log[|log| - 1].v == v then 1 else 0
  }

  function Recount(edges: seq<Edge>, p: Placement, n: nat): seq<int>
    requires forall i | 0 <= i < |edges| :: edges[i].u in p && edges[i].v in p
  {
    seq(n, k requires 0 <= k => EdgesAt(edges, p, k))
  }

  /** A move is right when it goes where the score, computed from the counts of a fresh recount,
      sends the vertex, and leaves somebody behind in the shard it comes from. */
  ghost predicate Justified(vs: set<Address>, edges: seq<Edge>, p: Placement, n: nat, penalty: real, m: Move) {
    && (forall i | 0 <= i < |edges| :: edges[i].u in p && edges[i].v in p)
    && (forall v | v in vs :: v in p)
    && m.v in vs && m.dst != p[m.v] && Population(vs, p, p[m.v]) > 1
    && var counts := Recount(edges, p, n);
       var b := Ballot(Nbrs(edges, m.v), p, counts, Least(counts), penalty);
       Elected(b, p[m.v], m.dst)
  }

  ghost predicate AllJustified(vs: set<Address>, edges: seq<Edge>, p: Placement, n: nat, penalty: real,
                               log: seq<Move>) {
    forall i | 0 <= i < |log| :: Justified(vs, edges, Replay(p, log[..i]), n, penalty, log[i])
  }

  ghost predicate NoLoops(edges: seq<Edge>) {
    forall v: Address :: v !in Nbrs(edges, v)
  }

  lemma CountsAfterMove(edges: seq<Edge>, p: Placement, v: Address, dst: ShardId, n: nat, was: seq<int>, now: seq<int>)
    requires forall i | 0 <= i < |edges| :: edges[i].u in p && edges[i].v in p
    requires v in p && p[v] < n && dst < n && p[v] != dst
    requires was == Recount(edges, p, n) && |now| == n
    requires forall i | 0 <= i < |Nbrs(edges, v)| :: Nbrs(edges, v)[i] in p[v := dst]
    requires forall k | 0 <= k < n :: now[k] == was[k] + MoveAt(Nbrs(edges, v), p[v := dst], p[v], dst, k)
    ensures now == Recount(edges, p[v := dst], n) <==> v !in Nbrs(edges, v)
    ensures v !in Nbrs(edges, v) ==> CrossEdges(edges, p[v := dst])
                                     == CrossEdges(edges, p) + MoveCross(Nbrs(edges, v), p[v := dst], p[v], dst)
  {
    LoopsAreNbrs(edges, v);
    hide EdgesAt, MoveAt, Loops, Nbrs, CrossEdges, MoveCross;
    MoveError(edges, p, v, dst, dst);
    assert Loops(edges, v) * (One(dst == dst) + One(dst == p[v])) == Loops(edges, v);
    if Loops(edges, v) == 0 {
      forall k | 0 <= k < n
        ensures now[k] == EdgesAt(edges, p[v := dst], k)
      {
        MoveError(edges, p, v, dst, k);
      }
    } else {
      assert now[dst] != Recount(edges, p[v := dst], n)[dst];
    }
  }

  // ----- the laws of the score -----

  /** The number of neighbours in a shard is the number of positions of the list with this label. */
  lemma {:induction false} EdgesToCounts(nbrs: seq<Address>, p: Placement, k: ShardId)
    requires forall i | 0 <= i < |nbrs| :: nbrs[i] in p
    ensures EdgesTo(nbrs, p, k) == |set i | 0 <= i < |nbrs| && p[nbrs[i]] == k|
  {
    if nbrs != [] {
      var last := |nbrs| - 1;
      EdgesToCounts(nbrs[..last], p, k);
      OneMorePosition(nbrs, p, k);
    }
  }

  lemma OneMorePosition(nbrs: seq<Address>, p: Placement, k: ShardId)
    requires nbrs != [] && forall i | 0 <= i < |nbrs| :: nbrs[i] in p
    ensures var last := |nbrs| - 1;
            |set i | 0 <= i < |nbrs| && p[nbrs[i]] == k|
            == |set i | 0 <= i < last && p[nbrs[..last][i]] == k| + if p[nbrs[last]] == k then 1 else 0
  {
    var last := |nbrs| - 1;
    var before := set i | 0 <= i < last && p[nbrs[i]] == k;
    assert before == set i | 0 <= i < last && p[nbrs[..last][i]] == k;
    assert (set i | 0 <= i < |nbrs| && p[nbrs[i]] == k) == if p[nbrs[last]] == k then before + {last} else before;
  }

  /** Without divisions: score times degree times least count is the number of neighbours in the
      shard times what is left of the least count after the penalty for the shard's own count. */
  lemma ScoreLaw(nbrs: seq<Address>, p: Placement, k: ShardId, counts: seq<int>, least: int, penalty: real)
    requires nbrs != [] && k < |counts| && least != 0 && forall i | 0 <= i < |nbrs| :: nbrs[i] in p
    ensures var s := Score(nbrs, p, k, counts, least, penalty);
            && s.Some?
            && s.value * |nbrs| as real * least as real
               == |set i | 0 <= i < |nbrs| && p[nbrs[i]] == k| as real * (least as real - penalty * counts[k] as real)
  {
    EdgesToCounts(nbrs, p, k);
    Fractions(EdgesTo(nbrs, p, k) as real, |nbrs| as real, penalty * counts[k] as real, least as real);
  }

  lemma Fractions(x: real, y: real, u: real, v: real)
    requires y != 0.0 && v != 0.0
    ensures x / y * (1.0 - u / v) * y * v == x * (v - u)
  {
    var q, r := x / y, u / v;
    assert q * y == x && r * v == u;
    assert q * (1.0 - r) * y * v == (q * y) * ((1.0 - r) * v);
    assert (1.0 - r) * v == v - u;
  }

  /** The least count is a lower bound, and one of the counts unless all exceed the largest integer. */
  lemma {:induction false} LeastLaw(s: seq<int>)
    ensures forall i | 0 <= i < |s| :: Least(s) <= s[i]
    ensures Least(s) == 0x7fff_ffff_ffff_ffff || Least(s) in s
    ensures Least(s) <= 0x7fff_ffff_ffff_ffff
  {
    if s != [] {
      LeastLaw(s[..|s| - 1]);
    }
  }

  // ----- the shard a vertex is sent to -----

  lemma {:induction false} ChosenExists(b: Ballot, upTo: nat, own: ShardId) returns (best: ShardId, top: real)
    requires BallotOk(b) && upTo <= |b.nbrs|
    ensures Chosen(b, upTo, own, best, top) && top >= FLOOR
  {
    if upTo == 0 {
      best, top := own, FLOOR;
    } else {
      best, top := ChosenExists(b, upTo - 1, own);
      var s := Candidate(b, upTo - 1);
      hide Score;
      if Beats(s, top) {
        forall j: nat | j < upTo
          ensures !Beats(Candidate(b, j), s.value)
        {
          assert j < upTo - 1 ==> !Beats(Candidate(b, j), top);
        }
        best, top := b.p[b.nbrs[upTo - 1]], s.value;
        assert Candidate(b, upTo - 1) == Some(top);
      }
    }
  }

  /** The ballot sends a vertex to exactly one shard. */
  lemma ElectedUnique(b: Ballot, own: ShardId, x: ShardId, y: ShardId)
    requires Elected(b, own, x) && Elected(b, own, y)
    ensures x == y
  {
    hide Score;
    var top: real :| Chosen(b, |b.nbrs|, own, x, top);
    var top': real :| Chosen(b, |b.nbrs|, own, y, top');
    if top != FLOOR {
      var i: nat :| i < |b.nbrs| && x == b.p[b.nbrs[i]] && Candidate(b, i) == Some(top) && top > FLOOR
                    && forall j: nat | j < i :: Candidate(b, j) != Some(top);
      assert !Beats(Candidate(b, i), top');
      assert top' > FLOOR;
      var i': nat :| i' < |b.nbrs| && y == b.p[b.nbrs[i']] && Candidate(b, i') == Some(top')
                     && forall j: nat | j < i' :: Candidate(b, j) != Some(top');
      assert !Beats(Candidate(b, i'), top);
      assert top == top' && i == i';
    }
  }

  ghost function Best(b: Ballot, own: ShardId): (best: ShardId)
    requires BallotOk(b)
    ensures Elected(b, own, best)
  {
    BestExists(b, own);
    var best: ShardId :| Elected(b, own, best);
    best
  }

  lemma BestExists(b: Ballot, own: ShardId)
    requires BallotOk(b)
    ensures exists best: ShardId :: Elected(b, own, best)
  {
    var best, top := ChosenExists(b, |b.nbrs|, own);
    assert Elected(b, own, best);
  }

  // ----- the run as visits -----

  /** What a run does not change. */
  datatype Graph = Graph(vs: set<Address>, edges: seq<Edge>, n: nat, penalty: real)

  /** What it changes: labels, edge counters, and the moves made so far. */
  datatype Sweep = Sweep(p: Placement, counts: seq<int>, log: seq<Move>)

  ghost predicate SweepOk(g: Graph, s: Sweep) {
    && (forall i | 0 <= i < |g.edges| :: g.edges[i].u in g.vs && g.edges[i].v in g.vs)
    && (forall v | v in g.vs :: v in s.p)
    && (forall v | v in s.p :: s.p[v] < g.n)
    && |s.counts| == g.n
  }

  /** A run starts with counters that are a fresh recount. */
  ghost function Start(g: Graph, p: Placement): Sweep
    requires forall i | 0 <= i < |g.edges| :: g.edges[i].u in p && g.edges[i].v in p
  {
    Sweep(p, Recount(g.edges, p, g.n), [])
  }

  ghost function BallotAt(g: Graph, s: Sweep, v: Address): (b: Ballot)
    requires SweepOk(g, s)
    ensures BallotOk(b)
  {
    NbrsPlaced(g.edges, s.p, v);
    Ballot(Nbrs(g.edges, v), s.p, s.counts, Least(s.counts), g.penalty)
  }

  /** The counters after a move, by what every neighbour contributes. */
  ghost function CountsMoved(edges: seq<Edge>, p: Placement, was: seq<int>, v: Address, dst: ShardId)
      : (counts: seq<int>)
    requires v in p && forall i | 0 <= i < |edges| :: edges[i].u in p && edges[i].v in p
    ensures |counts| == |was|
  {
    NbrsPlaced(edges, p[v := dst], v);
    seq(|was|, k requires 0 <= k < |was| => was[k] + MoveAt(Nbrs(edges, v), p[v := dst], p[v], dst, k))
  }

  /** The move is due: the vertex has been moved less than fifty times, it is sent to another shard,
      and it would not leave its own one empty. */
  ghost predicate Due(g: Graph, s: Sweep, v: Address, dst: ShardId)
    requires SweepOk(g, s) && v in g.vs
  {
    MovesOf(s.log, v) < 50 && dst != s.p[v] && |set u | u in g.vs && s.p[u] == s.p[v]| > 1
  }

  ghost function VisitTo(g: Graph, s: Sweep, v: Address): (r: Sweep)
    requires SweepOk(g, s) && v in g.vs
    ensures SweepOk(g, r)
  {
    var dst := Best(BallotAt(g, s, v), s.p[v]);
    if Due(g, s, v, dst) then Sweep(s.p[v := dst], CountsMoved(g.edges, s.p, s.counts, v, dst), s.log + [Move(v, dst)])
        else s
  }

  ghost function PassTo(g: Graph, s: Sweep, order: seq<Address>): (r: Sweep)
    requires SweepOk(g, s) && forall v | v in order :: v in g.vs
    ensures SweepOk(g, r)
  {
    if order == [] then s else VisitTo(g, PassTo(g, s, order[..|order| - 1]), order[|order| - 1])
  }

  ghost predicate InGraph(g: Graph, orders: seq<seq<Address>>) {
    forall i | 0 <= i < |orders| :: forall v | v in orders[i] :: v in g.vs
  }

  ghost function RunTo(g: Graph, s: Sweep, orders: seq<seq<Address>>): (r: Sweep)
    requires SweepOk(g, s) && InGraph(g, orders)
    ensures SweepOk(g, r)
  {
    if orders == [] then s else PassTo(g, RunTo(g, s, orders[..|orders| - 1]), orders[|orders| - 1])
  }

  /** Every vertex once, in some order. */
  ghost predicate Covers(order: seq<Address>, vs: set<Address>) {
    && (forall v :: v in order <==> v in vs)
    && (forall i, j | 0 <= i < j < |order| :: order[i] != order[j])
  }

  /** Passes over all vertices lead from s to r. */
  ghost predicate PassesTo(g: Graph, s: Sweep, iterations: nat, orders: seq<seq<Address>>, r: Sweep) {
    && |orders| == iterations && (forall i | 0 <= i < |orders| :: Covers(orders[i], g.vs))
    && InGraph(g, orders) && SweepOk(g, s) && SweepOk(g, r) && r == RunTo(g, s, orders)
  }

  lemma NoPasses(g: Graph, s: Sweep)
    requires SweepOk(g, s)
    ensures PassesTo(g, s, 0, [], s)
  {
  }

  /** Passes from the start are the run of the algorithm. */
  lemma PassesAreRun(g: Graph, p0: Placement, iterations: int, orders: seq<seq<Address>>, r: Sweep)
    requires forall i | 0 <= i < |g.edges| :: g.edges[i].u in p0 && g.edges[i].v in p0
    requires PassesTo(g, Start(g, p0), if iterations >= 0 then iterations else 0, orders, r)
    ensures Ran(g, p0, iterations, orders, r.p, r.log)
  {
  }

  lemma CoversIn(order: seq<Address>, vs: set<Address>)
    requires Covers(order, vs)
    ensures forall v | v in order :: v in vs
  {
  }

  lemma {:induction false} OnePassMore(g: Graph, s: Sweep, iterations: nat, orders: seq<seq<Address>>, r: Sweep,
      order: seq<Address>)
    requires PassesTo(g, s, iterations, orders, r) && Covers(order, g.vs)
    ensures PassesTo(g, s, iterations + 1, orders + [order], PassTo(g, r, order))
  {
    hide PassTo, SweepOk, Covers;
    assert (orders + [order])[..|orders|] == orders;
    CoversIn(order, g.vs);
  }

  /** The run of the algorithm from labels p0: as many passes as iterations, each over all vertices
      in some order; it ends with these labels and made these moves. */
  ghost predicate Ran(g: Graph, p0: Placement, iterations: int, orders: seq<seq<Address>>, final: Placement,
                      log: seq<Move>) {
    && |orders| == (if iterations >= 0 then iterations else 0)
    && (forall i | 0 <= i < |orders| :: Covers(orders[i], g.vs))
    && InGraph(g, orders)
    && (forall i | 0 <= i < |g.edges| :: g.edges[i].u in p0 && g.edges[i].v in p0)
    && SweepOk(g, Start(g, p0))
    && var s := RunTo(g, Start(g, p0), orders);
       final == s.p && log == s.log
  }

  /** A visit moves the vertex exactly when the move is due, and then where the scores send it. */
  lemma VisitMoves(g: Graph, s: Sweep, v: Address, dst: ShardId)
    requires SweepOk(g, s) && v in g.vs && Elected(BallotAt(g, s, v), s.p[v], dst)
    ensures VisitTo(g, s, v).log == if Due(g, s, v, dst) then s.log + [Move(v, dst)] else s.log
    ensures VisitTo(g, s, v).p == if Due(g, s, v, dst) then s.p[v := dst] else s.p
  {
    ElectedUnique(BallotAt(g, s, v), s.p[v], dst, Best(BallotAt(g, s, v), s.p[v]));
  }

  // ----- exact counters -----

  ghost predicate Exact(g: Graph, s: Sweep) {
    SweepOk(g, s) && s.counts == Recount(g.edges, s.p, g.n)
  }

  /** In a graph without loops the counters stay what a fresh recount gives. */
  lemma VisitExact(g: Graph, s: Sweep, v: Address)
    requires Exact(g, s) && v in g.vs && NoLoops(g.edges)
    ensures Exact(g, VisitTo(g, s, v))
  {
    hide MoveAt, Nbrs, Elected;
    var dst := Best(BallotAt(g, s, v), s.p[v]);
    if Due(g, s, v, dst) {
      BestInRange(g, s, v);
      NbrsPlaced(g.edges, s.p[v := dst], v);
      CountsAfterMove(g.edges, s.p, v, dst, g.n, s.counts, CountsMoved(g.edges, s.p, s.counts, v, dst));
    }
  }

  lemma BestInRange(g: Graph, s: Sweep, v: Address)
    requires SweepOk(g, s) && v in g.vs
    ensures Best(BallotAt(g, s, v), s.p[v]) < g.n
  {
  }

  lemma {:induction false} PassExact(g: Graph, s: Sweep, order: seq<Address>)
    requires SweepOk(g, s) && Exact(g, s) && NoLoops(g.edges) && forall v | v in order :: v in g.vs
    ensures Exact(g, PassTo(g, s, order))
  {
    hide Exact, NoLoops;
    if order != [] {
      PassExact(g, s, order[..|order| - 1]);
      VisitExact(g, PassTo(g, s, order[..|order| - 1]), order[|order| - 1]);
    }
  }

  lemma {:induction false} RunExact(g: Graph, s: Sweep, orders: seq<seq<Address>>)
    requires SweepOk(g, s) && Exact(g, s) && NoLoops(g.edges) && InGraph(g, orders)
    ensures Exact(g, RunTo(g, s, orders))
  {
    hide Exact, NoLoops;
    if orders != [] {
      RunExact(g, s, orders[..|orders| - 1]);
      PassExact(g, RunTo(g, s, orders[..|orders| - 1]), orders[|orders| - 1]);
    }
  }

  // ----- stability -----

  lemma {:induction false} LogGrows(g: Graph, s: Sweep, order: seq<Address>)
    requires SweepOk(g, s) && forall v | v in order :: v in g.vs
    ensures |PassTo(g, s, order).log| >= |s.log|
    ensures |PassTo(g, s, order).log| == |s.log|
        ==> PassTo(g, s, order) == s && forall v | v in order :: VisitTo(g, s, v) == s
  {
    hide Best, BallotAt, CountsMoved, SweepOk;
    if order != [] {
      LogGrows(g, s, order[..|order| - 1]);
    }
  }

  /** A pass in which no vertex moves ends the run: whatever the orders of later passes, nothing
      moves any more. */
  lemma {:induction false} QuietPassIsFinal(g: Graph, s: Sweep, order: seq<Address>, orders: seq<seq<Address>>)
    requires SweepOk(g, s) && Covers(order, g.vs) && InGraph(g, orders) && |PassTo(g, s, order).log| == |s.log|
    ensures RunTo(g, s, orders) == s
  {
    LogGrows(g, s, order);
    hide VisitTo, SweepOk;
    if orders != [] {
      QuietPassIsFinal(g, s, order, orders[..|orders| - 1]);
      StillQuiet(g, s, order, orders[|orders| - 1]);
    }
  }

  lemma {:induction false} StillQuiet(g: Graph, s: Sweep, order: seq<Address>, later: seq<Address>)
    requires SweepOk(g, s) && Covers(order, g.vs) && (forall v | v in order :: VisitTo(g, s, v) == s)
    requires forall v | v in later :: v in g.vs
    ensures PassTo(g, s, later) == s
  {
    hide VisitTo, SweepOk;
    if later != [] {
      StillQuiet(g, s, order, later[..|later| - 1]);
      assert later[|later| - 1] in order;
    }
  }
}
