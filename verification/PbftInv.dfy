/** What every step of the consensus keeps. */
module PbftInv {
  import opened Sums
  import opened Pbft

  /** The chain the leader has proposed. */
  function Proposed(proposals: seq<PrePrepare>): (c: seq<Block>)
    ensures |c| == |proposals| + 1
  {
    if proposals == [] then [Genesis]
    else Proposed(proposals[..|proposals| - 1]) + [proposals[|proposals| - 1].request.block]
  }

  ghost predicate Known(proposals: seq<PrePrepare>, r: Request) {
    exists j | 0 <= j < |proposals| :: proposals[j].request == r
  }

  ghost predicate KnownDigest(proposals: seq<PrePrepare>, d: Digest) {
    d.Of? && Known(proposals, d.request)
  }

  // ----- one node -----

  ghost predicate PoolInv(proposals: seq<PrePrepare>, pool: map<Digest, Request>) {
    forall d | d in pool :: d == Of(pool[d]) && Known(proposals, pool[d])
  }

  ghost predicate ChainInv(proposals: seq<PrePrepare>, chain: seq<Block>) {
    chain != [] && chain <= Proposed(proposals)
  }

  ghost predicate Counted(cast: set<Vote>, votes: Votes, phase: Phase) {
    forall d | d in votes :: forall v | v in votes[d] :: v in cast && v.phase == phase && v.digest == d
  }

  ghost predicate Quorate(votes: Votes, d: Digest, f: nat) {
    |VotesFor(votes, d)| >= 2 * f + 1
  }

  ghost predicate SentInv(prepares: Votes, commitSent: set<Digest>, f: nat) {
    forall d | d in commitSent :: Quorate(prepares, d, f)
  }

  ghost predicate ExecutedInv(executed: seq<Digest>, replied: set<Digest>, pool: map<Digest, Request>, commits: Votes,
                              f: nat) {
    && (forall k | 0 <= k < |executed| ::
          executed[k] in replied && executed[k] in pool && Quorate(commits, executed[k], f))
    && (forall k, l | 0 <= k < l < |executed| :: executed[k] != executed[l])
  }

  ghost predicate NodeInv(proposals: seq<PrePrepare>, cast: set<Vote>, f: nat, nd: Replica) {
    && PoolInv(proposals, nd.pool)
    && ChainInv(proposals, nd.chain)
    && Counted(cast, nd.prepares, PrepareVote)
    && Counted(cast, nd.commits, CommitVote)
    && SentInv(nd.prepares, nd.commitSent, f)
    && ExecutedInv(nd.executed, nd.replied, nd.pool, nd.commits, f)
  }

  // ----- the votes -----

  /** A correct node votes for proposals it holds, and remembers its commits. */
  ghost predicate VoteOk(g: Shard, v: Vote)
    requires Shape(g)
  {
    v.from < g.n
    && (v.from !in g.byz ==>
          && v.digest in g.nodes[v.from].pool
          && (v.phase.CommitVote? ==> v.digest in g.nodes[v.from].commitSent))
  }

  /** Without catch-up, a correct node's prepare answers a pre-prepare it was handed. */
  ghost predicate Answers(g: Shard, v: Vote)
    requires Shape(g)
  {
    v.phase.PrepareVote? && v.from < g.n && v.from !in g.byz ==>
      exists j | j in g.got[v.from] :: j < |g.proposals| && v.digest == g.proposals[j].digest
  }

  /** Votes of which a node casts one at most: all of them, except that a correct node that catches
      up may repeat its prepares. */
  ghost predicate Single(g: Shard, v: Vote) {
    !g.catchUp || v.from in g.byz || v.phase.CommitVote?
  }

  ghost predicate CastInv(g: Shard)
    requires Shape(g)
  {
    && (forall v | v in g.cast :: VoteOk(g, v))
    && (!g.catchUp ==> forall v | v in g.cast :: Answers(g, v))
    && (forall v, w | v in g.cast && w in g.cast && SameBallot(v, w) && Single(g, v) :: v == w)
  }

  // ----- the leader -----

  /** Every proposal extends the one before it. */
  ghost predicate LinkInv(proposals: seq<PrePrepare>) {
    forall j | 0 <= j < |proposals| ::
      var b := proposals[j].request.block;
      proposals[j].digest == Of(proposals[j].request)
      && b.Block? && b.number == j + 1 && b.parent == Proposed(proposals)[j]
  }

  /** The leader has executed every proposal except one that is pending under the lock. */
  ghost predicate LeaderInv(proposals: seq<PrePrepare>, nd: Replica) {
    && |nd.chain| == |proposals| + (if nd.locked then 0 else 1)
    && nd.seqId == |nd.chain|
    && (forall j | 0 <= j < |proposals| :: Of(proposals[j].request) in nd.pool)
    && (forall j | 0 <= j < |nd.chain| - 1 :: Of(proposals[j].request) in nd.replied)
    && (nd.locked ==> proposals != [])
  }

  ghost predicate TrafficInv(g: Shard) {
    && (!g.catchUp ==> g.asks == {} && g.olds == {})
    && (forall a | a in g.asks :: a.from != LEADER)
    && (forall o | o in g.olds :: o.to != LEADER && forall k | 0 <= k < |o.requests| ::
        Known(g.proposals, o.requests[k]))
  }

  ghost predicate NodesInv(g: Shard)
    requires Shape(g)
  {
    forall i | 0 <= i < g.n && i !in g.byz :: NodeInv(g.proposals, g.cast, g.f, g.nodes[i])
  }

  ghost predicate Inv(g: Shard) {
    && Shape(g)
    && LinkInv(g.proposals)
    && NodesInv(g)
    && CastInv(g)
    && LeaderInv(g.proposals, g.nodes[LEADER])
    && TrafficInv(g)
  }

  // ----- counting voters -----

  function Voters(votes: set<Vote>): set<NodeId> {
    set v | v in votes :: v.from
  }

  /** Votes with pairwise different senders are as many as their senders. */
  lemma {:induction false} VotersCount(votes: set<Vote>)
    requires forall v, w | v in votes && w in votes && v.from == w.from :: v == w
    ensures |Voters(votes)| == |votes|
    decreases |votes|
  {
    if votes == {} {
      assert Voters(votes) == {};
    } else {
      var v :| v in votes;
      var rest := votes - {v};
      VotersCount(rest);
      assert Voters(votes) == Voters(rest) + {v.from};
      assert v.from !in Voters(rest);
    }
  }

  /** A quorum counted by any node contains a vote of a correct node. */
  lemma CorrectVoter(g: Shard, votes: set<Vote>, d: Digest, phase: Phase) returns (v: Vote)
    requires Shape(g) && CastInv(g) && |votes| >= 2 * g.f + 1
    requires forall w | w in votes :: w in g.cast && w.phase == phase && w.digest == d
    ensures v in votes && v.from !in g.byz
  {
    if exists w :: w in votes && w.from !in g.byz {
      v :| v in votes && v.from !in g.byz;
    } else {
      var w :| w in votes;
      assert w.from in g.byz;
      VotersCount(votes);
      assert Voters(votes) <= g.byz;
      SubsetCard(Voters(votes), g.byz);
      assert false;
    }
  }

  /** So it is for a proposal of the leader. */
  lemma QuorumIsProposal(g: Shard, votes: set<Vote>, d: Digest, phase: Phase)
    requires Inv(g) && |votes| >= 2 * g.f + 1
    requires forall w | w in votes :: w in g.cast && w.phase == phase && w.digest == d
    ensures KnownDigest(g.proposals, d)
  {
    var v := CorrectVoter(g, votes, d, phase);
    assert VoteOk(g, v);
    assert NodeInv(g.proposals, g.cast, g.f, g.nodes[v.from]);
  }

  // ----- chains -----

  lemma {:induction false} ProposedAt(proposals: seq<PrePrepare>, j: nat)
    requires j < |proposals|
    ensures Proposed(proposals)[j + 1] == proposals[j].request.block
    ensures Proposed(proposals)[0] == Genesis
  {
    if j < |proposals| - 1 {
      ProposedAt(proposals[..|proposals| - 1], j);
    } else if j > 0 {
      ProposedAt(proposals[..|proposals| - 1], j - 1);
    }
  }

  lemma {:induction false} ProposedNumber(proposals: seq<PrePrepare>, k: nat)
    requires LinkInv(proposals) && k <= |proposals|
    ensures Number(Proposed(proposals)[k]) == k
  {
    if k > 0 {
      ProposedAt(proposals, k - 1);
    } else if proposals != [] {
      ProposedAt(proposals, 0);
    }
  }

  lemma {:induction false} ProposedGrows(proposals: seq<PrePrepare>, pp: PrePrepare)
    ensures Proposed(proposals + [pp]) == Proposed(proposals) + [pp.request.block]
  {
    assert (proposals + [pp])[..|proposals|] == proposals;
  }

  /** The guard of AddBlock admits, of all proposals, only the next one. */
  lemma {:induction false} AddBlockKeeps(proposals: seq<PrePrepare>, chain: seq<Block>, r: Request)
    requires LinkInv(proposals) && chain != [] && chain <= Proposed(proposals) && Known(proposals, r)
    ensures AddBlock(chain, r.block) <= Proposed(proposals)
    ensures AddBlock(chain, r.block) != chain ==> r.block == Proposed(proposals)[|chain|]
  {
    var j :| 0 <= j < |proposals| && proposals[j].request == r;
    ProposedAt(proposals, j);
    ProposedNumber(proposals, |chain| - 1);
    ProposedNumber(proposals, j + 1);
  }

  lemma {:induction false} AddBlocksKeep(proposals: seq<PrePrepare>, chain: seq<Block>, requests: seq<Request>)
    requires LinkInv(proposals) && chain != [] && chain <= Proposed(proposals)
    requires forall k | 0 <= k < |requests| :: Known(proposals, requests[k])
    ensures AddBlocks(chain, requests) <= Proposed(proposals)
  {
    if requests != [] {
      var last := |requests| - 1;
      AddBlocksKeep(proposals, chain, requests[..last]);
      AddBlockKeeps(proposals, AddBlocks(chain, requests[..last]), requests[last]);
    }
  }
}
