/** Which request a node keeps for which height, over every run. */
module Heights {
  import opened Core
  import opened Pbft
  import opened PbftInv
  import opened Agreement
  import opened CatchUps

  /** What the node keeps for a height is what the leader proposed for it. */
  ghost predicate KeptInv(proposals: seq<PrePrepare>, nd: Replica) {
    forall h | h in nd.heights ::
      1 <= h <= |proposals| && nd.heights[h] == Of(proposals[h - 1].request) && nd.heights[h] in nd.pool
  }

  ghost predicate AllKept(proposals: seq<PrePrepare>, nd: Replica) {
    forall h | 1 <= h <= |proposals| :: h in nd.heights
  }

  ghost predicate OldOk(proposals: seq<PrePrepare>, o: Old) {
    forall k | 0 <= k < |o.requests| :: RequestAt(proposals, o.start + k, o.requests[k])
  }

  ghost predicate RequestAt(proposals: seq<PrePrepare>, h: nat, r: Request) {
    1 <= h <= |proposals| && proposals[h - 1].request == r
  }

  ghost predicate Numbered(proposals: seq<PrePrepare>) {
    forall j | 0 <= j < |proposals| :: proposals[j].seq_ == j + 1 && proposals[j].digest == Of(proposals[j].request)
  }

  ghost predicate NodesKeep(g: Shard)
    requires Shape(g)
  {
    forall i | 0 <= i < g.n && i !in g.byz :: KeptInv(g.proposals, g.nodes[i])
  }

  ghost predicate HeightsInv(g: Shard) {
    && Shape(g) && Numbered(g.proposals) && NodesKeep(g) && AllKept(g.proposals, g.nodes[LEADER])
    && forall o | o in g.olds :: OldOk(g.proposals, o)
  }

  // ----- one node -----

  /** The node forgets nothing. */
  ghost predicate Grows(nd: Replica, nd': Replica) {
    nd.heights.Keys <= nd'.heights.Keys && nd.pool.Keys <= nd'.pool.Keys
  }

  lemma StoreHeight(proposals: seq<PrePrepare>, nd: Replica, r: Request, h: nat)
    requires KeptInv(proposals, nd) && RequestAt(proposals, h, r)
    ensures KeptInv(proposals, Store(nd, r, h)) && Grows(nd, Store(nd, r, h))
  {
  }

  lemma PrePrepareHeights(proposals: seq<PrePrepare>, nd: Replica, j: nat)
    requires Numbered(proposals) && j < |proposals| && KeptInv(proposals, nd) && nd.chain != []
    ensures var nd' := OnPrePrepare(nd, proposals[j]).0;
            && KeptInv(proposals, nd') && Grows(nd, nd')
            && (j + 1 >= nd.seqId ==> j + 1 in nd'.heights)
  {
    StoreHeight(proposals, nd, proposals[j].request, j + 1);
  }

  lemma VoteHeights(nd: Replica, v: Vote, f: nat, leader: bool)
    requires nd.chain != []
    ensures var nd' := OnPrepare(nd, v, f).0; nd'.heights == nd.heights && nd'.pool == nd.pool
    ensures var nd' := OnCommit(nd, v, f, leader).0; nd'.heights == nd.heights && nd'.pool == nd.pool
  {
    hide AddBlock, VotesFor;
  }

  lemma {:induction false} StoreAllHeights(proposals: seq<PrePrepare>, nd: Replica, requests: seq<Request>, start: nat)
    requires KeptInv(proposals, nd)
    requires forall k | 0 <= k < |requests| :: RequestAt(proposals, start + k, requests[k])
    ensures var nd' := StoreAll(nd, requests, start); KeptInv(proposals, nd') && Grows(nd, nd')
  {
    hide KeptInv;
    if requests != [] {
      var last := |requests| - 1;
      StoreAllHeights(proposals, nd, requests[..last], start);
      var before := StoreAll(nd, requests[..last], start);
      StoreHeight(proposals, before, requests[last], start + last);
      SameHeights(proposals, Store(before, requests[last], start + last), StoreAll(nd, requests, start));
    }
  }

  lemma SameHeights(proposals: seq<PrePrepare>, nd: Replica, nd': Replica)
    requires KeptInv(proposals, nd) && nd'.heights == nd.heights && nd'.pool == nd.pool
    ensures KeptInv(proposals, nd')
  {
  }

  lemma OldHeights(proposals: seq<PrePrepare>, nd: Replica, o: Old)
    requires KeptInv(proposals, nd) && OldOk(proposals, o) && nd.chain != []
    ensures var nd' := OnOld(nd, o).0; KeptInv(proposals, nd') && Grows(nd, nd')
  {
    var added := if o.end + 1 - o.start == |o.requests| then nd.(chain := AddBlocks(nd.chain, o.requests)) else nd;
    SameHeights(proposals, nd, added);
    StoreAllHeights(proposals, added, o.requests, o.start);
    hide StoreAll, AddBlocks;
  }

  // ----- the shard -----

  /** The invariant is kept, and no correct node forgets anything. */
  ghost predicate GoesOn(g: Shard, g': Shard)
    requires Shape(g)
  {
    && HeightsInv(g') && g'.n == g.n && g'.byz == g.byz && g.proposals <= g'.proposals
    && forall i | 0 <= i < g.n && i !in g.byz :: Grows(g.nodes[i], g'.nodes[i])
  }

  lemma LongerKept(proposals: seq<PrePrepare>, pp: PrePrepare, nd: Replica)
    requires KeptInv(proposals, nd)
    ensures KeptInv(proposals + [pp], nd)
  {
  }

  lemma LeaderKeeps(g: Shard, r: Request)
    requires Inv(g) && HeightsInv(g) && !g.nodes[LEADER].locked
    ensures var nd := g.nodes[LEADER];
            var proposals' := g.proposals + [PrePrepare(r, Of(r), nd.seqId)];
            Numbered(proposals') && KeptInv(proposals', OnPropose(nd, r)) && AllKept(proposals', OnPropose(nd, r))
  {
    assert g.nodes[LEADER].seqId == |g.proposals| + 1;
    hide LinkInv, NodesInv, CastInv, TrafficInv;
  }

  lemma ProposeHeights(g: Shard, body: seq<Tx>, time: nat)
    requires Inv(g) && HeightsInv(g) && Enabled(g, Propose(body, time))
    ensures GoesOn(g, Next(g, Propose(body, time)))
  {
    var g' := Next(g, Propose(body, time));
    var nd := g.nodes[LEADER];
    var r := NextRequest(nd, body, time);
    LeaderKeeps(g, r);
    hide Inv, NextRequest, KeptInv, AllKept, Numbered, OnPropose;
    forall i | 0 <= i < g'.n && i !in g'.byz
      ensures KeptInv(g'.proposals, g'.nodes[i])
    {
      if i != LEADER {
        LongerKept(g.proposals, PrePrepare(r, Of(r), nd.seqId), g.nodes[i]);
      }
    }
    forall o | o in g'.olds
      ensures OldOk(g'.proposals, o)
    {
      LongerOld(g.proposals, PrePrepare(r, Of(r), nd.seqId), o);
    }
  }

  lemma LongerOld(proposals: seq<PrePrepare>, pp: PrePrepare, o: Old)
    requires OldOk(proposals, o)
    ensures OldOk(proposals + [pp], o)
  {
    forall k | 0 <= k < |o.requests|
      ensures RequestAt(proposals + [pp], o.start + k, o.requests[k])
    {
      assert RequestAt(proposals, o.start + k, o.requests[k]);
    }
  }

  /** A step in which correct node i runs a handler, and answers are only taken away. */
  lemma HandlerHeights(g: Shard, g': Shard, i: NodeId)
    requires HeightsInv(g) && Shape(g') && i < g.n && g'.n == g.n && g'.byz == g.byz && g'.proposals == g.proposals
    requires forall k | 0 <= k < g.n && k != i :: g'.nodes[k] == g.nodes[k]
    requires KeptInv(g.proposals, g'.nodes[i]) && Grows(g.nodes[i], g'.nodes[i])
    requires i !in g.byz && g'.olds <= g.olds
    ensures GoesOn(g, g')
  {
    hide KeptInv, Numbered, OldOk;
  }

  lemma PrePrepareStep(g: Shard, i: NodeId, j: nat, copy: nat)
    requires HeightsInv(g) && Enabled(g, DeliverPrePrepare(i, j, copy)) && Shape(Next(g, DeliverPrePrepare(i, j, copy)))
    ensures GoesOn(g, Next(g, DeliverPrePrepare(i, j, copy)))
    ensures j + 1 >= g.nodes[i].seqId ==> j + 1 in Next(g, DeliverPrePrepare(i, j, copy)).nodes[i].heights
  {
    hide KeptInv, Numbered, AllKept, OnPrePrepare, OldOk, Grows, GoesOn;
    PrePrepareHeights(g.proposals, g.nodes[i], j);
    HandlerHeights(g, Next(g, DeliverPrePrepare(i, j, copy)), i);
  }

  lemma VoteStep(g: Shard, i: NodeId, v: Vote, copy: nat)
    requires HeightsInv(g) && Enabled(g, DeliverVote(i, v, copy)) && Shape(Next(g, DeliverVote(i, v, copy)))
    ensures GoesOn(g, Next(g, DeliverVote(i, v, copy)))
  {
    hide KeptInv, Numbered, AllKept, OnPrepare, OnCommit, OldOk, GoesOn;
    var g' := Next(g, DeliverVote(i, v, copy));
    VoteHeights(g.nodes[i], v, g.f, i == LEADER);
    SameHeights(g.proposals, g.nodes[i], g'.nodes[i]);
    HandlerHeights(g, g', i);
  }

  lemma OldStep(g: Shard, o: Old, copy: nat)
    requires HeightsInv(g) && Enabled(g, DeliverOld(o, copy)) && Shape(Next(g, DeliverOld(o, copy)))
    ensures GoesOn(g, Next(g, DeliverOld(o, copy)))
  {
    hide KeptInv, Numbered, AllKept, OnOld, OldOk, Grows, GoesOn;
    OldHeights(g.proposals, g.nodes[o.to], o);
    HandlerHeights(g, Next(g, DeliverOld(o, copy)), o.to);
  }

  /** Nothing but votes and answers changes. */
  lemma QuietHeights(g: Shard, g': Shard)
    requires HeightsInv(g) && Shape(g') && g'.n == g.n && g'.byz == g.byz && g'.proposals == g.proposals
    requires g'.nodes == g.nodes && forall o | o in g'.olds :: o in g.olds || OldOk(g.proposals, o)
    ensures GoesOn(g, g')
  {
    hide KeptInv, Numbered, OldOk, AllKept;
  }

  /** What the leader keeps for the heights of an answer. */
  lemma {:induction false} AnswerOk(proposals: seq<PrePrepare>, nd: Replica, to: NodeId, start: nat, end: nat)
    requires KeptInv(proposals, nd) && PoolInv(proposals, nd.pool)
    ensures OldOk(proposals, Old(to, start, end, OldRequests(nd, start, end)))
  {
    var requests := OldRequests(nd, start, end);
    AnswerInFields(nd, start, end);
    hide OldRequests;
    forall k | 0 <= k < |requests|
      ensures RequestAt(proposals, start + k, requests[k])
    {
      assert KeptAt(nd, start, end, requests, k);
    }
  }

  lemma AnswerHeights(g: Shard, ask: Ask)
    requires Inv(g) && HeightsInv(g) && Enabled(g, Answer(ask)) && Shape(Next(g, Answer(ask)))
    ensures GoesOn(g, Next(g, Answer(ask)))
  {
    assert NodeInv(g.proposals, g.cast, g.f, g.nodes[LEADER]) && KeptInv(g.proposals, g.nodes[LEADER]);
    AnswerOk(g.proposals, g.nodes[LEADER], ask.from, ask.start, ask.end);
    hide Inv, OldRequests, NodesKeep, KeptInv, PoolInv, OldOk, GoesOn;
    QuietHeights(g, Next(g, Answer(ask)));
  }

  lemma ForgeStep(g: Shard, v: Vote)
    requires HeightsInv(g) && Enabled(g, Forge(v)) && Shape(Next(g, Forge(v)))
    ensures GoesOn(g, Next(g, Forge(v)))
  {
    hide GoesOn;
    QuietHeights(g, Next(g, Forge(v)));
  }

  lemma HeightsNext(g: Shard, a: Action)
    requires Inv(g) && HeightsInv(g) && Enabled(g, a)
    ensures GoesOn(g, Next(g, a))
  {
    hide Inv, HeightsInv, Next, Enabled, GoesOn;
    ShapeOf(g);
    InvNext(g, a);
    ShapeOf(Next(g, a));
    match a
    case Propose(body, time) => ProposeHeights(g, body, time);
    case DeliverPrePrepare(i, j, copy) => PrePrepareStep(g, i, j, copy);
    case DeliverVote(i, v, copy) => VoteStep(g, i, v, copy);
    case Forge(v) => ForgeStep(g, v);
    case Answer(ask) => AnswerHeights(g, ask);
    case DeliverOld(o, copy) => OldStep(g, o, copy);
  }

  lemma ShapeOf(g: Shard)
    requires Inv(g)
    ensures Shape(g)
  {
  }

  // ----- runs -----

  lemma {:induction false} RunHeights(run: seq<Shard>, actions: seq<Action>, k: nat)
    requires IsRun(run, actions) && k < |run|
    ensures Inv(run[k]) && HeightsInv(run[k])
  {
    hide Init, Inv, Enabled, Next;
    RunInv(run, actions, k);
    if k == 0 {
      FirstHeights(run[0]);
    } else {
      RunHeights(run, actions, k - 1);
      assert Step(run[k - 1], actions[k - 1], run[k]);
      HeightsNext(run[k - 1], actions[k - 1]);
    }
  }

  lemma FirstHeights(g: Shard)
    requires Init(g)
    ensures HeightsInv(g)
  {
  }

  /** In every run: what a correct node keeps for a height is what the leader proposed for it; and the
      leader keeps all it has proposed. */
  lemma KeptIsProposed(run: seq<Shard>, actions: seq<Action>, k: nat, i: NodeId, h: nat)
    requires IsRun(run, actions) && k < |run| && i < |run[k].nodes| && i !in run[k].byz
    ensures var g := run[k];
            && (Kept(g.nodes[i], h).Some? ==> RequestAt(g.proposals, h, Kept(g.nodes[i], h).value))
            && (i == LEADER && 1 <= h <= |g.proposals| ==> Kept(g.nodes[i], h).Some?)
  {
    hide IsRun;
    RunHeights(run, actions, k);
    KeptIn(run[k], i, h);
  }

  lemma KeptIn(g: Shard, i: NodeId, h: nat)
    requires Inv(g) && HeightsInv(g) && i < g.n && i !in g.byz
    ensures Kept(g.nodes[i], h).Some? ==> RequestAt(g.proposals, h, Kept(g.nodes[i], h).value)
    ensures h in g.nodes[i].heights ==> Kept(g.nodes[i], h).Some?
    ensures i == LEADER && 1 <= h <= |g.proposals| ==> h in g.nodes[i].heights
  {
    assert NodeInv(g.proposals, g.cast, g.f, g.nodes[i]) && KeptInv(g.proposals, g.nodes[i]);
    hide LinkInv, CastInv, TrafficInv, Counted, SentInv, ExecutedInv, ChainInv, LeaderInv;
  }

  /** So the answer to a request for proposed heights is complete: it has all of them, in order. */
  lemma {:induction false} AnswerIsComplete(run: seq<Shard>, actions: seq<Action>, k: nat, start: nat, end: nat)
    requires IsRun(run, actions) && k < |run| && 1 <= start <= end + 1 <= |run[k].proposals| + 1
    ensures run[k].nodes != []
    ensures OldRequests(run[k].nodes[LEADER], start, end) == Asked(run[k].proposals, start, end + 1 - start)
  {
    hide IsRun, Inv, HeightsInv, OldRequests;
    RunHeights(run, actions, k);
    var g := run[k];
    ShapeOf(g);
    forall h | 1 <= h <= |g.proposals|
      ensures KeptHere(g.proposals, g.nodes[LEADER], h)
    {
      KeptIn(g, LEADER, h);
    }
    AnswerInFields(g.nodes[LEADER], start, end);
    ListIsAsked(g.proposals, g.nodes[LEADER], start, end, OldRequests(g.nodes[LEADER], start, end));
  }

  ghost predicate KeptHere(proposals: seq<PrePrepare>, nd: Replica, h: nat)
    requires 1 <= h <= |proposals|
  {
    Kept(nd, h) == Some(proposals[h - 1].request)
  }

  lemma ListIsAsked(proposals: seq<PrePrepare>, nd: Replica, start: nat, end: nat, r: seq<Request>)
    requires 1 <= start <= end + 1 <= |proposals| + 1 && Lists(nd, start, end, r)
    requires forall h | 1 <= h <= |proposals| :: KeptHere(proposals, nd, h)
    ensures r == Asked(proposals, start, end + 1 - start)
  {
    hide Kept;
    assert |r| > 0 ==> KeptAt(nd, start, end, r, |r| - 1);
    assert start + |r| <= end ==> KeptHere(proposals, nd, start + |r|);
    forall x | 0 <= x < |r|
      ensures r[x] == proposals[start - 1 + x].request
    {
      assert KeptAt(nd, start, end, r, x) && KeptHere(proposals, nd, start + x);
    }
  }

  /** A proposal that is handed to a correct node before the node is past its height is kept for
      good. */
  lemma {:induction false} HandedStays(run: seq<Shard>, actions: seq<Action>, k: nat, l: nat, i: NodeId, j: nat,
      copy: nat)
    requires IsRun(run, actions) && k < l < |run| && actions[k] == DeliverPrePrepare(i, j, copy)
    requires i < |run[k].nodes| && j + 1 >= run[k].nodes[i].seqId
    ensures i < |run[l].nodes| && i !in run[l].byz && j < |run[l].proposals|
    ensures j + 1 in run[l].nodes[i].heights && Kept(run[l].nodes[i], j + 1) == Some(run[l].proposals[j].request)
    decreases l
  {
    hide Init, Inv, Enabled, Next, HeightsInv, GoesOn;
    RunHeights(run, actions, l);
    RunHeights(run, actions, l - 1);
    assert Step(run[l - 1], actions[l - 1], run[l]);
    if k == l - 1 {
      HandedNow(run[k], i, j, copy);
    } else {
      HandedStays(run, actions, k, l - 1, i, j, copy);
      HeightsNext(run[l - 1], actions[l - 1]);
      StillKept(run[l - 1], run[l], i, j);
    }
    KeptIn(run[l], i, j + 1);
  }

  lemma HandedNow(g: Shard, i: NodeId, j: nat, copy: nat)
    requires Inv(g) && HeightsInv(g) && Enabled(g, DeliverPrePrepare(i, j, copy)) && j + 1 >= g.nodes[i].seqId
    ensures var g' := Next(g, DeliverPrePrepare(i, j, copy));
            && Shape(g') && i < g'.n && i !in g'.byz && j < |g'.proposals| && j + 1 in g'.nodes[i].heights
  {
    InvNext(g, DeliverPrePrepare(i, j, copy));
    ShapeOf(Next(g, DeliverPrePrepare(i, j, copy)));
    hide Inv, HeightsInv, OnPrePrepare;
    PrePrepareStep(g, i, j, copy);
  }

  lemma StillKept(g: Shard, g': Shard, i: NodeId, j: nat)
    requires Shape(g) && GoesOn(g, g') && i < g.n && i !in g.byz && j < |g.proposals| && j + 1 in g.nodes[i].heights
    ensures Shape(g') && i < g'.n && i !in g'.byz && j < |g'.proposals| && j + 1 in g'.nodes[i].heights
  {
    assert Grows(g.nodes[i], g'.nodes[i]);
  }

  // ----- after catching up -----

  ghost predicate Labelled(pool: map<Digest, Request>) {
    forall d | d in pool :: d == Of(pool[d])
  }

  lemma {:induction false} StoreAllLabels(nd: Replica, requests: seq<Request>, start: nat)
    requires Labelled(nd.pool)
    ensures Labelled(StoreAll(nd, requests, start).pool)
  {
    if requests != [] {
      StoreAllLabels(nd, requests[..|requests| - 1], start);
    }
  }

  lemma AskedOk(proposals: seq<PrePrepare>, to: NodeId, start: nat, end: nat)
    requires 1 <= start <= end + 1 <= |proposals| + 1
    ensures OldOk(proposals, Old(to, start, end, Asked(proposals, start, end + 1 - start)))
  {
  }

  /** A replica whose chain reaches the start of a complete answer, and that already keeps the request
      of the height after it, prepares that request as soon as it has caught up. */
  lemma {:induction false} CaughtUpPrepares(proposals: seq<PrePrepare>, nd: Replica, to: NodeId, start: nat, end: nat)
    requires LinkInv(proposals) && ChainInv(proposals, nd.chain) && KeptInv(proposals, nd) && Labelled(nd.pool)
    requires 1 <= start <= |nd.chain| <= end + 1 <= |proposals|
    requires end + 1 in nd.heights && proposals[end].request.block.Block? && proposals[end].request.block.rootOk
    ensures var (nd', s) := OnOld(nd, Old(to, start, end, Asked(proposals, start, end + 1 - start)));
            && nd'.chain == Proposed(proposals)[..end + 1] && nd'.seqId == end + 1
            && s == Broadcast(PrepareVote, Of(proposals[end].request), end + 1)
  {
    hide CatchUp, KeptInv, Labelled, LinkInv, Asked, IsValidBlock, Proposed, OldOk;
    var o := Old(to, start, end, Asked(proposals, start, end + 1 - start));
    CatchUpExtends(proposals, nd, to, start, end);
    assert CatchUp(nd, o).chain == Proposed(proposals)[..end + 1];
    AskedOk(proposals, to, start, end);
    CaughtUpKeeps(proposals, nd, o, end + 1);
    NextFits(proposals, end);
  }

  lemma {:induction false} NextFits(proposals: seq<PrePrepare>, end: nat)
    requires LinkInv(proposals) && end < |proposals| && proposals[end].request.block.Block?
    requires proposals[end].request.block.rootOk
    ensures IsValidBlock(Proposed(proposals)[..end + 1], proposals[end].request.block)
  {
    hide Proposed;
  }

  lemma CaughtUpKeeps(proposals: seq<PrePrepare>, nd: Replica, o: Old, h: nat)
    requires KeptInv(proposals, nd) && Labelled(nd.pool) && nd.chain != [] && OldOk(proposals, o) && h in nd.heights
    ensures var mid := CatchUp(nd, o);
            && h in mid.heights && mid.heights[h] in mid.pool && 1 <= h <= |proposals|
            && mid.heights[h] == Of(proposals[h - 1].request)
            && mid.pool[mid.heights[h]] == proposals[h - 1].request
  {
    var added := if o.end + 1 - o.start == |o.requests| then nd.(chain := AddBlocks(nd.chain, o.requests)) else nd;
    SameHeights(proposals, nd, added);
    StoreAllHeights(proposals, added, o.requests, o.start);
    StoreAllLabels(added, o.requests, o.start);
    hide StoreAll, AddBlocks, OldOk;
  }
}
