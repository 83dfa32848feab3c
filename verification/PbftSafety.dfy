/** Every step keeps the invariant; agreement and the quorum property follow. */
module PbftSafety {
  import opened Core
  import opened Sums
  import opened Pbft
  import opened PbftInv

  // ----- monotonicity -----

  lemma NodeInvGrows(proposals: seq<PrePrepare>, proposals': seq<PrePrepare>, cast: set<Vote>, cast': set<Vote>,
                     f: nat, nd: Replica)
    requires NodeInv(proposals, cast, f, nd) && cast <= cast'
    requires proposals' == proposals || exists pp :: proposals' == proposals + [pp]
    ensures NodeInv(proposals', cast', f, nd)
  {
    if proposals' != proposals {
      var pp :| proposals' == proposals + [pp];
      ProposedGrows(proposals, pp);
      forall d | d in nd.pool
        ensures Known(proposals', nd.pool[d])
      {
        KnownGrows(proposals, pp, nd.pool[d]);
      }
    }
  }

  lemma KnownGrows(proposals: seq<PrePrepare>, pp: PrePrepare, r: Request)
    requires Known(proposals, r)
    ensures Known(proposals + [pp], r)
  {
    var j :| 0 <= j < |proposals| && proposals[j].request == r;
    assert (proposals + [pp])[j].request == r;
  }

  // ----- handlers of one node -----

  lemma PoolGrows(proposals: seq<PrePrepare>, nd: Replica, r: Request, f: nat)
    requires PoolInv(proposals, nd.pool) && Known(proposals, r)
             && ExecutedInv(nd.executed, nd.replied, nd.pool, nd.commits, f)
    ensures PoolInv(proposals, nd.pool[Of(r) := r])
    ensures ExecutedInv(nd.executed, nd.replied, nd.pool[Of(r) := r], nd.commits, f)
  {
  }

  lemma StoreKeeps(proposals: seq<PrePrepare>, cast: set<Vote>, f: nat, nd: Replica, r: Request, seq_: nat)
    requires NodeInv(proposals, cast, f, nd) && Known(proposals, r)
    ensures NodeInv(proposals, cast, f, Store(nd, r, seq_))
  {
    PoolGrows(proposals, nd, r, f);
    hide PoolInv, ChainInv, Counted, SentInv, ExecutedInv, Known;
  }

  lemma PrePrepareKeeps(proposals: seq<PrePrepare>, cast: set<Vote>, f: nat, nd: Replica, j: nat)
    requires NodeInv(proposals, cast, f, nd) && LinkInv(proposals) && j < |proposals|
    ensures nd.chain != []
    ensures var (nd', s) := OnPrePrepare(nd, proposals[j]);
            && NodeInv(proposals, cast, f, nd')
            && Quiet(nd, nd') && nd.commitSent == nd'.commitSent
            && (s != Nothing ==>
                  s.Broadcast? && s.phase.PrepareVote? && s.digest == proposals[j].digest && s.digest in nd'.pool)
  {
    assert Known(proposals, proposals[j].request);
    StoreKeeps(proposals, cast, f, nd, proposals[j].request, proposals[j].seq_);
    hide PoolInv, Counted, SentInv, ExecutedInv, Known;
  }

  /** One more vote in a tally. */
  lemma TallyGrows(cast: set<Vote>, votes: Votes, v: Vote, f: nat)
    requires Counted(cast, votes, v.phase) && v in cast
    ensures var votes' := votes[v.digest := VotesFor(votes, v.digest) + {v}];
            && Counted(cast, votes', v.phase)
            && forall d: Digest | Quorate(votes, d, f) :: Quorate(votes', d, f)
  {
    SubsetCard(VotesFor(votes, v.digest), VotesFor(votes, v.digest) + {v});
  }

  /** A step that leaves the chain alone and forgets no request. */
  ghost predicate Quiet(nd: Replica, nd': Replica) {
    && nd.pool.Keys <= nd'.pool.Keys
    && nd'.chain == nd.chain && nd'.seqId == nd.seqId && nd'.replied == nd.replied && nd'.locked == nd.locked
  }

  /** A commit is sent for a request at hand, for the first time, and remembered. */
  ghost predicate Commits(nd: Replica, nd': Replica, s: Sends) {
    s != Nothing ==> s.Broadcast? && s.phase.CommitVote? && s.digest in nd.pool
                     && s.digest !in nd.commitSent && s.digest in nd'.commitSent
  }

  lemma PrepareKeeps(proposals: seq<PrePrepare>, cast: set<Vote>, f: nat, nd: Replica, v: Vote)
    requires NodeInv(proposals, cast, f, nd) && v in cast && v.phase.PrepareVote?
    ensures var (nd', s) := OnPrepare(nd, v, f);
            NodeInv(proposals, cast, f, nd') && Quiet(nd, nd') && nd.commitSent <= nd'.commitSent && Commits(nd, nd', s)
  {
    TallyGrows(cast, nd.prepares, v, f);
    hide PoolInv, ChainInv, Counted, ExecutedInv;
  }

  lemma CommitKeeps(proposals: seq<PrePrepare>, cast: set<Vote>, f: nat, nd: Replica, v: Vote, leader: bool)
    requires NodeInv(proposals, cast, f, nd) && LinkInv(proposals) && v in cast && v.phase.CommitVote?
    ensures nd.chain != []
    ensures var (nd', s) := OnCommit(nd, v, f, leader);
            NodeInv(proposals, cast, f, nd') && nd.pool == nd'.pool && nd.commitSent == nd'.commitSent && !s.Broadcast?
  {
    var votes := VotesFor(nd.commits, v.digest) + {v};
    var counted := nd.(commits := nd.commits[v.digest := votes]);
    TallyGrows(cast, nd.commits, v, f);
    CommitExecutes(nd, v, f);
    assert NodeInv(proposals, cast, f, counted) by {
      hide PoolInv, ChainInv, Counted, SentInv, ExecutedInv;
    }
    assert Quorate(counted.commits, v.digest, f) <==> |votes| >= 2 * f + 1;
    hide NodeInv, Conclude, Quorate;
    if Quorate(counted.commits, v.digest, f) && v.digest !in nd.replied {
      ConcludeKeeps(proposals, cast, f, counted, v, leader);
    }
  }

  lemma ConcludeKeeps(proposals: seq<PrePrepare>, cast: set<Vote>, f: nat, nd: Replica, v: Vote, leader: bool)
    requires NodeInv(proposals, cast, f, nd) && LinkInv(proposals) && Quorate(nd.commits, v.digest, f)
             && v.digest !in nd.replied
    ensures nd.chain != []
    ensures var (nd', s) := Conclude(nd, v, leader);
            NodeInv(proposals, cast, f, nd') && nd.pool == nd'.pool && nd.commitSent == nd'.commitSent && !s.Broadcast?
  {
    if v.digest in nd.pool {
      AddBlockKeeps(proposals, nd.chain, nd.pool[v.digest]);
    }
    MoreExecuted(nd, v.digest, f);
    hide PoolInv, Counted, SentInv, ExecutedInv, AddBlock, Known, LinkInv, Proposed, Quorate;
  }

  lemma MoreExecuted(nd: Replica, d: Digest, f: nat)
    requires ExecutedInv(nd.executed, nd.replied, nd.pool, nd.commits, f) && Quorate(nd.commits, d, f)
             && d !in nd.replied
    ensures ExecutedInv(nd.executed, nd.replied + {d}, nd.pool, nd.commits, f)
    ensures d in nd.pool ==> ExecutedInv(nd.executed + [d], nd.replied + {d}, nd.pool, nd.commits, f)
  {
    hide Quorate;
  }

  /** More votes do not hurt. */
  lemma CommitExecutes(nd: Replica, v: Vote, f: nat)
    requires ExecutedInv(nd.executed, nd.replied, nd.pool, nd.commits, f)
    requires forall d: Digest | Quorate(nd.commits, d, f) ::
             Quorate(nd.commits[v.digest := VotesFor(nd.commits, v.digest) + {v}], d, f)
    ensures ExecutedInv(nd.executed, nd.replied, nd.pool, nd.commits[v.digest := VotesFor(nd.commits, v.digest) + {v}],
                        f)
  {
    hide Quorate;
  }

  lemma {:induction false} StoreAllKeeps(proposals: seq<PrePrepare>, cast: set<Vote>, f: nat, nd: Replica,
                                         requests: seq<Request>, start: nat)
    requires NodeInv(proposals, cast, f, nd) && forall k | 0 <= k < |requests| :: Known(proposals, requests[k])
    ensures var nd' := StoreAll(nd, requests, start);
            && NodeInv(proposals, cast, f, nd')
            && nd.pool.Keys <= nd'.pool.Keys && nd.commitSent == nd'.commitSent
  {
    if requests != [] {
      var last := |requests| - 1;
      StoreAllKeeps(proposals, cast, f, nd, requests[..last], start);
      StoreKeeps(proposals, cast, f, StoreAll(nd, requests[..last], start), requests[last], start + last);
    }
  }

  lemma CatchUpKeeps(proposals: seq<PrePrepare>, cast: set<Vote>, f: nat, nd: Replica, old_: Old)
    requires NodeInv(proposals, cast, f, nd) && LinkInv(proposals)
    requires forall k | 0 <= k < |old_.requests| :: Known(proposals, old_.requests[k])
    ensures nd.chain != []
    ensures var nd' := CatchUp(nd, old_);
            NodeInv(proposals, cast, f, nd') && nd.pool.Keys <= nd'.pool.Keys && nd.commitSent == nd'.commitSent
  {
    AddBlocksKeep(proposals, nd.chain, old_.requests);
    hide AddBlocks, StoreAll, Known, PoolInv, Counted, SentInv, ExecutedInv, Proposed, LinkInv;
    var added := if old_.end + 1 - old_.start == |old_.requests| then nd.(chain := AddBlocks(nd.chain, old_.requests))
        else nd;
    StoreAllKeeps(proposals, cast, f, added, old_.requests, old_.start);
  }

  lemma OldKeeps(proposals: seq<PrePrepare>, cast: set<Vote>, f: nat, nd: Replica, old_: Old)
    requires NodeInv(proposals, cast, f, nd) && LinkInv(proposals)
    requires forall k | 0 <= k < |old_.requests| :: Known(proposals, old_.requests[k])
    ensures nd.chain != []
    ensures var (nd', s) := OnOld(nd, old_);
            && NodeInv(proposals, cast, f, nd')
            && nd.pool.Keys <= nd'.pool.Keys && nd.commitSent == nd'.commitSent
            && (s != Nothing ==> s.Broadcast? && s.phase.PrepareVote? && s.digest in nd'.pool)
  {
    CatchUpKeeps(proposals, cast, f, nd, old_);
    var nd' := CatchUp(nd, old_);
    if nd'.seqId in nd'.heights && nd'.heights[nd'.seqId] in nd'.pool {
      PoolGrows(proposals, nd', nd'.pool[nd'.heights[nd'.seqId]], f);
    }
    hide CatchUp, PoolInv, Counted, SentInv, ExecutedInv, Known, Proposed, LinkInv;
  }

  // ----- the votes -----

  /** Adding a vote of a correct node. */
  lemma CastGrows(g: Shard, g': Shard, i: NodeId, v: Vote)
    requires Shape(g) && CastInv(g) && Shape(g') && i < g.n && i !in g.byz
    requires SameFrame(g, g') && g'.proposals == g.proposals
    requires forall k | 0 <= k < g.n && k != i :: g'.nodes[k] == g.nodes[k]
    requires g.nodes[i].pool.Keys <= g'.nodes[i].pool.Keys && g.nodes[i].commitSent <= g'.nodes[i].commitSent
    requires forall k | 0 <= k < g.n :: g.got[k] <= g'.got[k]
    requires g'.cast == g.cast || (g'.cast == g.cast + {v} && v.from == i && VoteOk(g', v)
                                   && (!g.catchUp ==> Answers(g', v))
                                   && (Single(g, v) ==> forall w | w in g.cast :: !SameBallot(v, w)))
    ensures CastInv(g')
  {
    forall w | w in g.cast
      ensures VoteOk(g', w) && (!g.catchUp ==> Answers(g', w))
    {
      assert VoteOk(g, w);
      assert !g.catchUp ==> Answers(g, w);
    }
  }

  ghost predicate SameFrame(g: Shard, g': Shard) {
    g'.n == g.n && g'.f == g.f && g'.byz == g.byz && g'.catchUp == g.catchUp
  }

  /** Different proposals have different digests. */
  lemma ProposalsDiffer(proposals: seq<PrePrepare>, j: nat, k: nat)
    requires LinkInv(proposals) && j < |proposals| && k < |proposals| && proposals[j].digest == proposals[k].digest
    ensures j == k
  {
    assert proposals[j].request.block.number == j + 1;
    assert proposals[k].request.block.number == k + 1;
  }

  /** A prepare for a proposal that a node is handed for the first time is its first one. */
  lemma FirstPrepare(g: Shard, i: NodeId, j: nat, v: Vote)
    requires Shape(g) && CastInv(g) && LinkInv(g.proposals) && !g.catchUp
    requires i < g.n && i !in g.byz && j < |g.proposals| && j !in g.got[i]
    requires v.from == i && v.phase.PrepareVote? && v.digest == g.proposals[j].digest
    ensures forall w | w in g.cast :: !SameBallot(v, w)
  {
    forall w | w in g.cast
      ensures !SameBallot(v, w)
    {
      if SameBallot(v, w) {
        assert Answers(g, w);
        var k :| k in g.got[i] && k < |g.proposals| && w.digest == g.proposals[k].digest;
        ProposalsDiffer(g.proposals, k, j);
        assert false;
      }
    }
  }

  lemma FirstCommit(g: Shard, i: NodeId, v: Vote)
    requires Shape(g) && CastInv(g) && i < g.n && i !in g.byz
    requires v.from == i && v.phase.CommitVote? && v.digest !in g.nodes[i].commitSent
    ensures forall w | w in g.cast :: !SameBallot(v, w)
  {
    forall w | w in g.cast
      ensures !SameBallot(v, w)
    {
      assert VoteOk(g, w);
    }
  }

  // ----- the steps -----

  lemma ProposeKeeps(g: Shard, a: Action)
    requires Inv(g) && a.Propose? && Enabled(g, a)
    ensures Inv(Next(g, a))
  {
    var nd := g.nodes[LEADER];
    var r := NextRequest(nd, a.body, a.time);
    var pp := PrePrepare(r, Of(r), nd.seqId);
    var g' := Next(g, a);
    LeaderProposes(g, r, pp);
    hide LinkInv, NodesInv, LeaderInv, CastInv, TrafficInv, OnPropose, NextRequest;
    ProposeNodes(g, g', r, pp);
    CastAfterPropose(g, g', pp);
    TrafficAfterPropose(g, g', pp);
  }

  lemma LeaderProposes(g: Shard, r: Request, pp: PrePrepare)
    requires Inv(g) && !g.nodes[LEADER].locked && pp.request == r && pp.digest == Of(r)
    requires exists body: seq<Tx>, time: nat :: r == NextRequest(g.nodes[LEADER], body, time)
    ensures LinkInv(g.proposals + [pp])
    ensures LeaderInv(g.proposals + [pp], OnPropose(g.nodes[LEADER], r))
    ensures g.nodes[LEADER].pool.Keys <= OnPropose(g.nodes[LEADER], r).pool.Keys
            && g.nodes[LEADER].commitSent == OnPropose(g.nodes[LEADER], r).commitSent
  {
    assert NodeInv(g.proposals, g.cast, g.f, g.nodes[LEADER]);
    hide CastInv, TrafficInv, NodesInv;
    ProposedNumber(g.proposals, |g.proposals|);
    LinkGrows(g.proposals, pp);
  }

  lemma ProposeNodes(g: Shard, g': Shard, r: Request, pp: PrePrepare)
    requires Shape(g) && Shape(g') && NodesInv(g) && SameFrame(g, g') && g'.cast == g.cast && pp.request == r
    requires g'.proposals == g.proposals + [pp] && g'.nodes == g.nodes[LEADER := OnPropose(g.nodes[LEADER], r)]
    ensures NodesInv(g')
  {
    assert g'.proposals[|g.proposals|].request == r;
    forall i | 0 <= i < g'.n && i !in g'.byz
      ensures NodeInv(g'.proposals, g'.cast, g'.f, g'.nodes[i])
    {
      assert NodeInv(g.proposals, g.cast, g.f, g.nodes[i]);
      NodeInvGrows(g.proposals, g'.proposals, g.cast, g'.cast, g.f, g.nodes[i]);
      if i == LEADER {
        StoreKeeps(g'.proposals, g.cast, g.f, g.nodes[i], r, g.nodes[i].seqId);
        hide PoolInv, ChainInv, Counted, SentInv, ExecutedInv;
      }
    }
  }

  lemma {:induction false} LinkGrows(proposals: seq<PrePrepare>, pp: PrePrepare)
    requires LinkInv(proposals) && pp.digest == Of(pp.request)
    requires var b := pp.request.block;
             b.Block? && b.number == |proposals| + 1 && b.parent == Proposed(proposals)[|proposals|]
    ensures LinkInv(proposals + [pp])
  {
    ProposedGrows(proposals, pp);
  }

  lemma CastAfterPropose(g: Shard, g': Shard, pp: PrePrepare)
    requires Shape(g) && CastInv(g) && Shape(g') && SameFrame(g, g')
    requires g'.proposals == g.proposals + [pp] && g'.cast == g.cast && g'.got == g.got
    requires forall k | 0 < k < g.n :: g'.nodes[k] == g.nodes[k]
    requires g.nodes[LEADER].pool.Keys <= g'.nodes[LEADER].pool.Keys
             && g.nodes[LEADER].commitSent == g'.nodes[LEADER].commitSent
    ensures CastInv(g')
  {
    forall v | v in g.cast
      ensures VoteOk(g', v) && (!g.catchUp ==> Answers(g', v))
    {
      assert VoteOk(g, v);
      if !g.catchUp && v.phase.PrepareVote? && v.from !in g.byz {
        assert Answers(g, v);
        var j :| j in g.got[v.from] && j < |g.proposals| && v.digest == g.proposals[j].digest;
        assert g'.proposals[j].digest == v.digest;
      }
    }
  }

  lemma TrafficAfterPropose(g: Shard, g': Shard, pp: PrePrepare)
    requires TrafficInv(g) && SameFrame(g, g') && g'.proposals == g.proposals + [pp] && g'.asks == g.asks
             && g'.olds == g.olds
    ensures TrafficInv(g')
  {
    forall o, k | o in g'.olds && 0 <= k < |o.requests|
      ensures Known(g'.proposals, o.requests[k])
    {
      KnownGrows(g.proposals, pp, o.requests[k]);
    }
  }

  /** What a handler of node i keeps, given what it did to the node. */
  lemma HandlerKeeps(g: Shard, g': Shard, i: NodeId)
    requires Shape(g) && NodesInv(g) && i < g.n && i !in g.byz && SameFrame(g, g') && g'.proposals == g.proposals
             && g.cast <= g'.cast
    requires |g'.nodes| == |g'.seen| == |g'.got| == g.n
             && (forall k | 0 <= k < g.n && k != i :: g'.nodes[k] == g.nodes[k])
    requires NodeInv(g.proposals, g.cast, g.f, g'.nodes[i])
    ensures Shape(g') && NodesInv(g')
  {
    forall k | 0 <= k < g'.n && k !in g'.byz
      ensures NodeInv(g'.proposals, g'.cast, g'.f, g'.nodes[k])
    {
      NodeInvGrows(g.proposals, g.proposals, g.cast, g'.cast, g.f, g'.nodes[k]);
    }
  }

  lemma LeaderStays(proposals: seq<PrePrepare>, nd: Replica, nd': Replica)
    requires LeaderInv(proposals, nd) && Quiet(nd, nd')
    ensures LeaderInv(proposals, nd')
  {
  }

  lemma PrePrepareHandled(g: Shard, i: NodeId, j: nat, g': Shard, nd: Replica, s: Sends, copy: nat)
    requires Inv(g) && i < g.n && i !in g.byz && j < |g.proposals| && j !in g.got[i]
    requires (nd, s) == OnPrePrepare(g.nodes[i], g.proposals[j])
    requires SameFrame(g, g') && g'.nodes == g.nodes[i := nd] && |g'.seen| == g.n
    requires g'.proposals == g.proposals && g'.got == g.got[i := g.got[i] + {j}] && g'.olds == g.olds
             && g'.asks == g.asks
    requires g'.cast == if s.Broadcast? then g.cast + {Vote(s.phase, i, s.digest, s.seq_, copy)} else g.cast
    ensures Inv(g')
  {
    assert NodeInv(g.proposals, g.cast, g.f, g.nodes[i]);
    hide LinkInv, NodesInv, NodeInv, LeaderInv, CastInv, TrafficInv, OnPrePrepare, PoolInv;
    PrePrepareKeeps(g.proposals, g.cast, g.f, g.nodes[i], j);
    QuietKeeps(g, g', i, nd);
    PrepareCast(g, i, j, g', nd, s, copy);
  }

  lemma PrepareCast(g: Shard, i: NodeId, j: nat, g': Shard, nd: Replica, s: Sends, copy: nat)
    requires Shape(g) && CastInv(g) && LinkInv(g.proposals) && Shape(g')
    requires i < g.n && i !in g.byz && j < |g.proposals| && j !in g.got[i]
    requires SameFrame(g, g') && g'.nodes == g.nodes[i := nd] && g'.proposals == g.proposals
             && g'.got == g.got[i := g.got[i] + {j}]
    requires g.nodes[i].pool.Keys <= nd.pool.Keys && g.nodes[i].commitSent == nd.commitSent
    requires s.Broadcast? ==> s.phase.PrepareVote? && s.digest == g.proposals[j].digest && s.digest in nd.pool
    requires g'.cast == if s.Broadcast? then g.cast + {Vote(s.phase, i, s.digest, s.seq_, copy)} else g.cast
    ensures CastInv(g')
  {
    hide CastInv, LinkInv;
    var v := Vote(PrepareVote, i, g.proposals[j].digest, if s.Broadcast? then s.seq_ else 0, copy);
    if s.Broadcast? && !g.catchUp {
      assert j in g'.got[i];
      FirstPrepare(g, i, j, v);
    }
    CastGrows(g, g', i, v);
  }

  lemma DeliverPrePrepareKeeps(g: Shard, a: Action)
    requires Inv(g) && a.DeliverPrePrepare? && Enabled(g, a)
    ensures Inv(Next(g, a))
  {
    var (nd, s) := OnPrePrepare(g.nodes[a.i], g.proposals[a.j]);
    assert !s.AskLeader?;
    hide OnPrePrepare, Inv;
    PrePrepareHandled(g, a.i, a.j, Next(g, a), nd, s, a.copy);
  }

  lemma TrafficStays(g: Shard, g': Shard)
    requires TrafficInv(g) && SameFrame(g, g') && g'.proposals == g.proposals && g'.asks == g.asks && g'.olds <= g.olds
    ensures TrafficInv(g')
  {
  }

  lemma PrepareHandled(g: Shard, i: NodeId, v: Vote, g': Shard, nd: Replica, s: Sends, copy: nat)
    requires Inv(g) && i < g.n && i !in g.byz && v in g.cast && v.phase.PrepareVote?
    requires (nd, s) == OnPrepare(g.nodes[i], v, g.f)
    requires SameFrame(g, g') && g'.nodes == g.nodes[i := nd] && |g'.seen| == g.n
    requires g'.proposals == g.proposals && g'.got == g.got && g'.olds == g.olds && g'.asks == g.asks
    requires g'.cast == if s.Broadcast? then g.cast + {Vote(s.phase, i, s.digest, s.seq_, copy)} else g.cast
    ensures Inv(g')
  {
    PrepareNodes(g, i, v, g', nd, s);
    hide LinkInv, NodesInv, LeaderInv, CastInv, TrafficInv, OnPrepare;
    CommitCast(g, i, g', nd, s, copy);
  }

  lemma PrepareNodes(g: Shard, i: NodeId, v: Vote, g': Shard, nd: Replica, s: Sends)
    requires Inv(g) && i < g.n && i !in g.byz && v in g.cast && v.phase.PrepareVote?
    requires (nd, s) == OnPrepare(g.nodes[i], v, g.f)
    requires SameFrame(g, g') && g'.nodes == g.nodes[i := nd] && |g'.seen| == g.n && g.cast <= g'.cast
    requires g'.proposals == g.proposals && g'.got == g.got && g'.olds == g.olds && g'.asks == g.asks
    ensures Shape(g') && NodesInv(g') && LeaderInv(g'.proposals, g'.nodes[LEADER]) && TrafficInv(g')
    ensures Quiet(g.nodes[i], nd) && g.nodes[i].commitSent <= nd.commitSent && Commits(g.nodes[i], nd, s)
  {
    PrepareOne(g, i, v);
    hide OnPrepare, NodesInv, NodeInv, LeaderInv, TrafficInv, Quiet, Commits, LinkInv, CastInv;
    QuietKeeps(g, g', i, nd);
  }

  lemma PrepareOne(g: Shard, i: NodeId, v: Vote)
    requires Inv(g) && i < g.n && i !in g.byz && v in g.cast && v.phase.PrepareVote?
    ensures var (nd, s) := OnPrepare(g.nodes[i], v, g.f);
            && NodeInv(g.proposals, g.cast, g.f, nd)
            && Quiet(g.nodes[i], nd) && g.nodes[i].commitSent <= nd.commitSent && Commits(g.nodes[i], nd, s)
  {
    assert NodeInv(g.proposals, g.cast, g.f, g.nodes[i]);
    hide OnPrepare, NodesInv, NodeInv, LeaderInv, TrafficInv, Quiet, Commits, LinkInv, CastInv;
    PrepareKeeps(g.proposals, g.cast, g.f, g.nodes[i], v);
  }

  lemma QuietKeeps(g: Shard, g': Shard, i: NodeId, nd: Replica)
    requires Shape(g) && NodesInv(g) && LeaderInv(g.proposals, g.nodes[LEADER]) && TrafficInv(g)
    requires i < g.n && i !in g.byz && NodeInv(g.proposals, g.cast, g.f, nd) && Quiet(g.nodes[i], nd)
    requires SameFrame(g, g') && g'.nodes == g.nodes[i := nd] && |g'.seen| == |g'.got| == g.n && g.cast <= g'.cast
    requires g'.proposals == g.proposals && g'.olds == g.olds && g'.asks == g.asks
    ensures Shape(g') && NodesInv(g') && LeaderInv(g'.proposals, g'.nodes[LEADER]) && TrafficInv(g')
  {
    hide NodesInv, NodeInv, LeaderInv, TrafficInv, Quiet;
    HandlerKeeps(g, g', i);
    if i == LEADER {
      LeaderStays(g.proposals, g.nodes[i], nd);
    }
    TrafficStays(g, g');
  }

  lemma CommitCast(g: Shard, i: NodeId, g': Shard, nd: Replica, s: Sends, copy: nat)
    requires Shape(g) && CastInv(g) && Shape(g') && i < g.n && i !in g.byz
    requires SameFrame(g, g') && g'.nodes == g.nodes[i := nd] && g'.proposals == g.proposals && g'.got == g.got
    requires g.nodes[i].pool.Keys <= nd.pool.Keys && g.nodes[i].commitSent <= nd.commitSent
             && Commits(g.nodes[i], nd, s)
    requires g'.cast == if s.Broadcast? then g.cast + {Vote(s.phase, i, s.digest, s.seq_, copy)} else g.cast
    ensures CastInv(g')
  {
    hide CastInv;
    var v := Vote(CommitVote, i, if s.Broadcast? then s.digest else Junk(0), if s.Broadcast? then s.seq_ else 0, copy);
    if s.Broadcast? {
      FirstCommit(g, i, v);
    }
    CastGrows(g, g', i, v);
  }

  lemma DeliverPrepareKeeps(g: Shard, a: Action)
    requires Inv(g) && a.DeliverVote? && a.v.phase.PrepareVote? && Enabled(g, a)
    ensures Inv(Next(g, a))
  {
    var (nd, s) := OnPrepare(g.nodes[a.i], a.v, g.f);
    assert !s.AskLeader?;
    hide OnCommit, OnPrepare, Inv;
    PrepareHandled(g, a.i, a.v, Next(g, a), nd, s, a.copy);
  }

  /** A commit quorum at the leader is for the pending proposal, so the leader's lock is held
      when it is released and its chain grows by that proposal. */
  lemma LeaderCommits(g: Shard, v: Vote)
    requires Inv(g) && v in g.cast && v.phase.CommitVote?
    ensures LeaderInv(g.proposals, OnCommit(g.nodes[LEADER], v, g.f, true).0)
    ensures !OnCommit(g.nodes[LEADER], v, g.f, true).1.AskLeader?
    ensures OnCommit(g.nodes[LEADER], v, g.f, true).0.replied != g.nodes[LEADER].replied ==> g.nodes[LEADER].locked
  {
    var nd := g.nodes[LEADER];
    if v.digest !in nd.replied && |VotesFor(nd.commits, v.digest) + {v}| >= 2 * g.f + 1 {
      LeaderQuorum(g, v);
    }
    hide Inv, AddBlock;
    LeaderStep(g.proposals, nd, v, g.f);
  }

  lemma LeaderStep(proposals: seq<PrePrepare>, nd: Replica, v: Vote, f: nat)
    requires LeaderInv(proposals, nd) && nd.chain != []
    requires v.digest !in nd.replied && |VotesFor(nd.commits, v.digest) + {v}| >= 2 * f + 1 ==>
               && nd.locked && v.digest in nd.pool && v.digest == Of(proposals[|proposals| - 1].request)
               && AddBlock(nd.chain, nd.pool[v.digest].block) == nd.chain + [nd.pool[v.digest].block]
    ensures var (nd', s) := OnCommit(nd, v, f, true);
            LeaderInv(proposals, nd') && !s.AskLeader? && (nd'.replied != nd.replied ==> nd.locked)
  {
    hide AddBlock;
  }

  lemma LeaderQuorum(g: Shard, v: Vote)
    requires Inv(g) && v in g.cast && v.phase.CommitVote? && v.digest !in g.nodes[LEADER].replied
    requires |VotesFor(g.nodes[LEADER].commits, v.digest) + {v}| >= 2 * g.f + 1
    ensures var nd := g.nodes[LEADER];
            && nd.locked && g.proposals != [] && v.digest in nd.pool
            && v.digest == Of(g.proposals[|g.proposals| - 1].request)
            && AddBlock(nd.chain, nd.pool[v.digest].block) == nd.chain + [nd.pool[v.digest].block]
  {
    var nd := g.nodes[LEADER];
    assert NodeInv(g.proposals, g.cast, g.f, nd);
    QuorumIsProposal(g, VotesFor(nd.commits, v.digest) + {v}, v.digest, CommitVote);
    PendingFits(g.proposals, nd, v.digest);
  }

  lemma PendingFits(proposals: seq<PrePrepare>, nd: Replica, d: Digest)
    requires LinkInv(proposals) && LeaderInv(proposals, nd) && PoolInv(proposals, nd.pool)
             && ChainInv(proposals, nd.chain)
    requires KnownDigest(proposals, d) && d !in nd.replied
    ensures nd.locked && proposals != [] && d in nd.pool && d == Of(proposals[|proposals| - 1].request)
    ensures AddBlock(nd.chain, nd.pool[d].block) == nd.chain + [nd.pool[d].block]
  {
    var j :| 0 <= j < |proposals| && proposals[j].request == d.request;
    assert d == Of(proposals[j].request);
    assert j >= |nd.chain| - 1;
    ProposedNumber(proposals, |nd.chain| - 1);
  }

  lemma CommitHandled(g: Shard, i: NodeId, v: Vote, g': Shard, nd: Replica, s: Sends)
    requires Inv(g) && i < g.n && i !in g.byz && v in g.cast && v.phase.CommitVote?
    requires (nd, s) == OnCommit(g.nodes[i], v, g.f, i == LEADER)
    requires SameFrame(g, g') && g'.nodes == g.nodes[i := nd] && |g'.seen| == g.n
    requires g'.proposals == g.proposals && g'.cast == g.cast && g'.got == g.got && g'.olds == g.olds
    requires g'.asks == if s.AskLeader? && g.catchUp then g.asks + {Ask(i, s.start, s.end)} else g.asks
    ensures Inv(g')
  {
    assert NodeInv(g.proposals, g.cast, g.f, g.nodes[i]);
    if i == LEADER {
      LeaderCommits(g, v);
    }
    hide LinkInv, NodesInv, NodeInv, LeaderInv, CastInv, OnCommit, TrafficInv;
    CommitKeeps(g.proposals, g.cast, g.f, g.nodes[i], v, i == LEADER);
    HandlerKeeps(g, g', i);
    CommitCast(g, i, g', nd, Nothing, 0);
    AsksGrow(g, g', i, s);
  }

  lemma AsksGrow(g: Shard, g': Shard, i: NodeId, s: Sends)
    requires TrafficInv(g) && SameFrame(g, g') && g'.proposals == g.proposals && g'.olds == g.olds
    requires g'.asks == if s.AskLeader? && g.catchUp then g.asks + {Ask(i, s.start, s.end)} else g.asks
    requires i == LEADER ==> !s.AskLeader?
    ensures TrafficInv(g')
  {
  }

  lemma CommitSends(nd: Replica, v: Vote, f: nat, leader: bool)
    requires nd.chain != []
    ensures !OnCommit(nd, v, f, leader).1.Broadcast?
  {
  }

  lemma DeliverCommitKeeps(g: Shard, a: Action)
    requires Inv(g) && a.DeliverVote? && a.v.phase.CommitVote? && Enabled(g, a)
    ensures Inv(Next(g, a))
  {
    CommitSends(g.nodes[a.i], a.v, g.f, a.i == LEADER);
    hide OnCommit, OnPrepare, Inv;
    var (nd, s) := OnCommit(g.nodes[a.i], a.v, g.f, a.i == LEADER);
    CommitHandled(g, a.i, a.v, Next(g, a), nd, s);
  }

  lemma ForgeKeeps(g: Shard, a: Action)
    requires Inv(g) && a.Forge? && Enabled(g, a)
    ensures Inv(Next(g, a))
  {
    var g' := Next(g, a);
    assert NodeInv(g.proposals, g.cast, g.f, g.nodes[LEADER]);
    HandlerKeeps(g, g', LEADER);
    hide LinkInv, NodesInv, NodeInv, LeaderInv, Known;
    forall w | w in g'.cast
      ensures VoteOk(g', w) && (!g.catchUp ==> Answers(g', w))
    {
      if w in g.cast {
        assert VoteOk(g, w);
        assert !g.catchUp ==> Answers(g, w);
      }
    }
  }

  lemma {:induction false} OldRequestsKnown(proposals: seq<PrePrepare>, nd: Replica, start: nat, end: nat)
    requires PoolInv(proposals, nd.pool)
    ensures forall k | 0 <= k < |OldRequests(nd, start, end)| :: Known(proposals, OldRequests(nd, start, end)[k])
    decreases end + 1 - start
  {
    if start <= end && start in nd.heights && nd.heights[start] in nd.pool {
      OldRequestsKnown(proposals, nd, start + 1, end);
    }
  }

  lemma AnswerKeeps(g: Shard, a: Action)
    requires Inv(g) && a.Answer? && Enabled(g, a)
    ensures Inv(Next(g, a))
  {
    var g' := Next(g, a);
    assert NodeInv(g.proposals, g.cast, g.f, g.nodes[LEADER]);
    OldRequestsKnown(g.proposals, g.nodes[LEADER], a.ask.start, a.ask.end);
    hide LinkInv, NodesInv, NodeInv, LeaderInv, CastInv, Known, OldRequests;
    HandlerKeeps(g, g', LEADER);
    CastGrows(g, g', LEADER, Vote(PrepareVote, 0, Junk(0), 0, 0));
  }

  lemma DeliverOldKeeps(g: Shard, a: Action)
    requires Inv(g) && a.DeliverOld? && Enabled(g, a)
    ensures Inv(Next(g, a))
  {
    var g' := Next(g, a);
    var i := a.old_.to;
    assert NodeInv(g.proposals, g.cast, g.f, g.nodes[i]);
    hide LinkInv, NodesInv, NodeInv, LeaderInv, CastInv, Known, OnOld;
    var (nd, s) := OnOld(g.nodes[i], a.old_);
    OldKeeps(g.proposals, g.cast, g.f, g.nodes[i], a.old_);
    HandlerKeeps(g, g', i);
    var (d, seq_) := if s.Broadcast? then (s.digest, s.seq_) else (Junk(0), 0);
    CastGrows(g, g', i, Vote(PrepareVote, i, d, seq_, a.copy));
    TrafficStays(g, g');
  }
}
