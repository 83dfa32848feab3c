/** Agreement and the quorum property of consensus, over whole runs. */
module Agreement {
  import opened Sums
  import opened Pbft
  import opened PbftInv
  import opened PbftSafety

  lemma InvInit(g: Shard)
    requires Init(g)
    ensures Inv(g)
  {
    assert Proposed(g.proposals) == [Genesis];
  }

  lemma InvNext(g: Shard, a: Action)
    requires Inv(g) && Enabled(g, a)
    ensures Inv(Next(g, a))
  {
    hide Inv, Next, Enabled;
    match a
    case Propose(_, _) => ProposeKeeps(g, a);
    case DeliverPrePrepare(_, _, _) => DeliverPrePrepareKeeps(g, a);
    case DeliverVote(_, v, _) =>
      if v.phase.PrepareVote? {
        DeliverPrepareKeeps(g, a);
      } else {
        DeliverCommitKeeps(g, a);
      }
    case Forge(_) => ForgeKeeps(g, a);
    case Answer(_) => AnswerKeeps(g, a);
    case DeliverOld(_, _) => DeliverOldKeeps(g, a);
  }

  /** The states of a run: any interleaving, with any delay, loss and reordering. */
  ghost predicate IsRun(run: seq<Shard>, actions: seq<Action>) {
    && |run| == |actions| + 1 && Init(run[0])
    && forall k | 0 <= k < |actions| :: Step(run[k], actions[k], run[k + 1])
  }

  ghost predicate Step(g: Shard, a: Action, g': Shard) {
    Shape(g) && Enabled(g, a) && g' == Next(g, a)
  }

  lemma InvStep(g: Shard, a: Action, g': Shard)
    requires Inv(g) && Step(g, a, g')
    ensures Inv(g')
  {
    InvNext(g, a);
  }

  lemma {:induction false} RunInv(run: seq<Shard>, actions: seq<Action>, k: nat)
    requires IsRun(run, actions) && k < |run|
    ensures Inv(run[k])
  {
    hide Inv, Init, Step;
    if k == 0 {
      InvInit(run[0]);
    } else {
      RunInv(run, actions, k - 1);
      InvStep(run[k - 1], actions[k - 1], run[k]);
    }
  }

  // ----- agreement -----

  lemma StepProposals(g: Shard, a: Action, g': Shard)
    requires Step(g, a, g')
    ensures Proposed(g.proposals) <= Proposed(g'.proposals)
    ensures g'.byz == g.byz && g'.n == g.n
  {
    if a.Propose? {
      var r := NextRequest(g.nodes[LEADER], a.body, a.time);
      ProposedGrows(g.proposals, PrePrepare(r, Of(r), g.nodes[LEADER].seqId));
    }
  }

  /** What the leader has proposed is never withdrawn. */
  lemma {:induction false} ProposedStays(run: seq<Shard>, actions: seq<Action>, k: nat, l: nat)
    requires IsRun(run, actions) && k <= l < |run|
    ensures Proposed(run[k].proposals) <= Proposed(run[l].proposals)
    ensures run[l].byz == run[k].byz && run[l].n == run[k].n
    decreases l
  {
    hide Step, Init, Proposed;
    if k < l {
      ProposedStays(run, actions, k, l - 1);
      StepProposals(run[l - 1], actions[l - 1], run[l]);
    }
  }

  /** Every replica's chain is a prefix of the leader's proposal chain. */
  lemma ChainIsPrefix(run: seq<Shard>, actions: seq<Action>, k: nat, i: NodeId)
    requires IsRun(run, actions) && k < |run|
    ensures Inv(run[k])
    ensures i < run[k].n && i !in run[k].byz ==> run[k].nodes[i].chain <= Proposed(run[k].proposals)
  {
    RunInv(run, actions, k);
    assert i < run[k].n && i !in run[k].byz ==> NodeInv(run[k].proposals, run[k].cast, run[k].f, run[k].nodes[i]);
  }

  /** Two correct replicas, at any two moments, have the same block at every height both have. */
  lemma ReplicasAgree(run: seq<Shard>, actions: seq<Action>, k: nat, i: NodeId, l: nat, j: NodeId, h: nat)
    requires IsRun(run, actions) && k <= l < |run|
    requires i < run[k].n && i !in run[k].byz && j < run[k].n && j !in run[k].byz
    ensures Inv(run[k]) && Inv(run[l]) && run[l].n == run[k].n
    ensures h < |run[k].nodes[i].chain| && h < |run[l].nodes[j].chain| ==>
              run[k].nodes[i].chain[h] == run[l].nodes[j].chain[h]
  {
    ChainIsPrefix(run, actions, k, i);
    ProposedStays(run, actions, k, l);
    ChainIsPrefix(run, actions, l, j);
  }

  // ----- quorums -----

  lemma SendersAreNodes(g: Shard, votes: Votes, d: Digest, phase: Phase)
    requires Inv(g) && Counted(g.cast, votes, phase)
    ensures forall q | q in Voters(VotesFor(votes, d)) :: q < g.n && CastBy(g, q, phase, d)
  {
    assert forall v | v in g.cast :: VoteOk(g, v);
    hide Inv;
    forall q | q in Voters(VotesFor(votes, d))
      ensures q < g.n && CastBy(g, q, phase, d)
    {
      var v :| v in VotesFor(votes, d) && v.from == q;
      assert VoteOk(g, v);
    }
  }

  /** A vote set that a node counts has as many senders as votes, all of them nodes. */
  lemma DistinctSenders(g: Shard, votes: Votes, d: Digest, phase: Phase)
    requires Inv(g) && Counted(g.cast, votes, phase) && (!g.catchUp || phase.CommitVote?)
    ensures |Voters(VotesFor(votes, d))| == |VotesFor(votes, d)|
    ensures forall q | q in Voters(VotesFor(votes, d)) :: q < g.n && CastBy(g, q, phase, d)
  {
    hide Inv, CastBy, Voters, VotesFor, Counted;
    SendersAreNodes(g, votes, d, phase);
    OneVoteEach(g, votes, d, phase);
    VotersCount(VotesFor(votes, d));
  }

  lemma OneVoteEach(g: Shard, votes: Votes, d: Digest, phase: Phase)
    requires Inv(g) && Counted(g.cast, votes, phase) && (!g.catchUp || phase.CommitVote?)
    ensures forall v, w | v in VotesFor(votes, d) && w in VotesFor(votes, d) && v.from == w.from :: v == w
  {
    assert CastInv(g);
    hide Inv, VoteOk, Answers, Shape;
    forall v, w | v in VotesFor(votes, d) && w in VotesFor(votes, d) && v.from == w.from
      ensures v == w
    {
      assert SameBallot(v, w);
    }
  }

  ghost predicate CastBy(g: Shard, q: NodeId, phase: Phase, d: Digest) {
    exists v :: v in g.cast && v.from == q && v.phase == phase && v.digest == d
  }

  /** A set of at least 2f + 1 nodes that cast a vote. */
  ghost predicate Quorum(g: Shard, q: set<NodeId>, phase: Phase, d: Digest) {
    |q| >= 2 * g.f + 1 && forall x | x in q :: x < g.n && CastBy(g, x, phase, d)
  }

  /** An executed digest was executed once, and on the commits of 2f + 1 different nodes.  Each
      correct one of these had counted 2f + 1 prepares, and the correct ones that cast these hold
      the request.  Where nobody catches up, the prepares are of 2f + 1 different nodes. */
  lemma ExecutedOnQuorum(g: Shard, i: NodeId, e: nat)
    requires Inv(g) && i < g.n && i !in g.byz && e < |g.nodes[i].executed|
    ensures forall e' | 0 <= e' < |g.nodes[i].executed| && e' != e :: g.nodes[i].executed[e'] != g.nodes[i].executed[e]
    ensures var d := g.nodes[i].executed[e];
            var committers := Voters(VotesFor(g.nodes[i].commits, d));
            && Quorum(g, committers, CommitVote, d)
            && forall q | q in committers && q !in g.byz :: Prepared(g, q, d)
  {
    var d := g.nodes[i].executed[e];
    assert NodeInv(g.proposals, g.cast, g.f, g.nodes[i]);
    assert Quorate(g.nodes[i].commits, d, g.f);
    DistinctSenders(g, g.nodes[i].commits, d, CommitVote);
    var committers := Voters(VotesFor(g.nodes[i].commits, d));
    forall q | q in committers && q !in g.byz
      ensures Prepared(g, q, d)
    {
      CommitterPrepared(g, q, d);
    }
  }

  /** Node q has counted 2f + 1 prepares, of different nodes unless somebody may have caught up;
      whoever cast one and is correct holds the request. */
  ghost predicate Prepared(g: Shard, q: NodeId, d: Digest)
    requires Shape(g) && q < g.n
  {
    var votes := VotesFor(g.nodes[q].prepares, d);
    && |votes| >= 2 * g.f + 1
    && (!g.catchUp ==> Quorum(g, Voters(votes), PrepareVote, d))
    && forall p | p in Voters(votes) ::
         p < g.n && CastBy(g, p, PrepareVote, d)
             && (p !in g.byz ==> d in g.nodes[p].pool && d == Of(g.nodes[p].pool[d]))
  }

  lemma CommitterPrepared(g: Shard, q: NodeId, d: Digest)
    requires Inv(g) && q < g.n && q !in g.byz && CastBy(g, q, CommitVote, d)
    ensures Prepared(g, q, d)
  {
    var v :| v in g.cast && v.from == q && v.phase == CommitVote && v.digest == d;
    assert VoteOk(g, v);
    assert NodeInv(g.proposals, g.cast, g.f, g.nodes[q]);
    assert Quorate(g.nodes[q].prepares, d, g.f);
    SendersAreNodes(g, g.nodes[q].prepares, d, PrepareVote);
    if !g.catchUp {
      DistinctSenders(g, g.nodes[q].prepares, d, PrepareVote);
    }
    forall p | p in Voters(VotesFor(g.nodes[q].prepares, d)) && p !in g.byz
      ensures d in g.nodes[p].pool && d == Of(g.nodes[p].pool[d])
    {
      var w :| w in g.cast && w.from == p && w.phase == PrepareVote && w.digest == d;
      assert VoteOk(g, w);
      assert NodeInv(g.proposals, g.cast, g.f, g.nodes[p]);
    }
  }

  /** Any two quorums share 4f + 2 - n nodes, hence a correct one with up to 3f + 1 nodes. */
  lemma QuorumsMeet(g: Shard, a: set<NodeId>, b: set<NodeId>, pa: Phase, pb: Phase, da: Digest, db: Digest)
    requires Shape(g) && Quorum(g, a, pa, da) && Quorum(g, b, pb, db)
    ensures |a * b| >= 4 * g.f + 2 - g.n
    ensures g.n <= 3 * g.f + 1 ==> exists q :: q in a && q in b && q !in g.byz
  {
    assert a + b <= Upto(g.n);
    SubsetCard(a + b, Upto(g.n));
    assert |a + b| + |a * b| == |a| + |b|;
    if g.n <= 3 * g.f + 1 && forall q | q in a * b :: q in g.byz {
      assert a * b <= g.byz;
      SubsetCard(a * b, g.byz);
      assert false;
    }
  }

  /** The fault bound of n nodes as the program computes it: f = (n - 1) / 3.  Every two sets of
      2f + 1 of them share a node outside every set of f, if and only if n is 3f + 1. */
  lemma MeetIff(n: nat, f: nat)
    requires 3 * f < n <= 3 * f + 3
    ensures (forall a: set<NodeId>, b: set<NodeId>, byz: set<NodeId> |
               Large(a, n, 2 * f + 1) && Large(b, n, 2 * f + 1) && |byz| <= f :: a * b - byz != {})
            <==> n == 3 * f + 1
  {
    if n == 3 * f + 1 {
      forall a: set<NodeId>, b: set<NodeId>, byz: set<NodeId> |
        Large(a, n, 2 * f + 1) && Large(b, n, 2 * f + 1) && |byz| <= f
        ensures a * b - byz != {}
      {
        SubsetCard(a + b, Upto(n));
        assert |a + b| + |a * b| == |a| + |b|;
        if a * b <= byz {
          SubsetCard(a * b, byz);
          assert false;
        }
      }
    } else {
      var a, b := Range(0, 2 * f + 1), Range(n - (2 * f + 1), n);
      var byz := a * b;
      assert byz == if n - (2 * f + 1) <= 2 * f + 1 then Range(n - (2 * f + 1), 2 * f + 1) else {};
      assert Large(a, n, 2 * f + 1) && Large(b, n, 2 * f + 1);
      assert a * b - byz == {};
    }
  }

  ghost predicate Large(a: set<NodeId>, n: nat, k: nat) {
    |a| >= k && forall q | q in a :: q < n
  }

  /** The numbers from lo to hi, without hi. */
  ghost function Range(lo: nat, hi: nat): (r: set<NodeId>)
    requires lo <= hi
    ensures |r| == hi - lo && forall q :: q in r <==> lo <= q < hi
    decreases hi
  {
    if lo == hi then {} else Range(lo, hi - 1) + {hi - 1}
  }

  // ----- why catching up repeats prepares -----

  /** A replica that is answered twice with nothing prepares its next request twice. */
  lemma AnsweredTwice(nd: Replica, o: Old)
    requires nd.chain != [] && o.requests == []
    ensures OnOld(nd, o).0.chain != [] && OnOld(OnOld(nd, o).0, o).1 == OnOld(nd, o).1
  {
    var nd0 := CatchUp(nd, o);
    assert nd0 == nd.(seqId := o.end + 1);
    var nd1 := OnOld(nd, o).0;
    assert CatchUp(nd1, o) == nd1.(seqId := o.end + 1) == nd1;
    hide CatchUp;
  }

  /** Whoever receives both messages counts two votes of one node. */
  lemma CountedTwice(nd: Replica, i: NodeId, d: Digest, c: nat, c': nat, f: nat)
    requires d in nd.pool && d !in nd.prepares && c != c'
    ensures var v, v' := Vote(PrepareVote, i, d, nd.seqId, c), Vote(PrepareVote, i, d, nd.seqId, c');
            var votes := VotesFor(OnPrepare(OnPrepare(nd, v, f).0, v', f).0.prepares, d);
            |votes| == 2 && Voters(votes) == {i}
  {
    var v, v' := Vote(PrepareVote, i, d, nd.seqId, c), Vote(PrepareVote, i, d, nd.seqId, c');
    var nd1 := OnPrepare(nd, v, f).0;
    OneTally(nd, v, f);
    OneTally(nd1, v', f);
    hide OnPrepare;
    var votes := VotesFor(OnPrepare(nd1, v', f).0.prepares, d);
    assert votes == {v, v'};
    assert |{v, v'}| == 2;
  }

  lemma OneTally(nd: Replica, v: Vote, f: nat)
    requires v.digest in nd.pool && v.seq_ == nd.seqId
    ensures var nd1 := OnPrepare(nd, v, f).0;
            && nd1.prepares == nd.prepares[v.digest := VotesFor(nd.prepares, v.digest) + {v}]
            && nd1.pool == nd.pool && nd1.seqId == nd.seqId
  {
  }

  // ----- why one message per sender is needed -----

  /** A replica that is handed the first k of a series of commits, all from one sender. */
  function Repeated(nd: Replica, sender: NodeId, d: Digest, k: nat, f: nat): (r: Replica)
    requires nd.chain != []
    ensures r.chain != []
  {
    if k == 0 then nd
    else OnCommit(Repeated(nd, sender, d, k - 1, f), Vote(CommitVote, sender, d, nd.seqId, k), f, false).0
  }

  /** Votes are counted by message: 2f + 1 commits of one sender execute a request, 2f do not. */
  lemma {:induction false} OneSenderSuffices(nd: Replica, sender: NodeId, d: Digest, k: nat, f: nat)
    requires nd.chain != [] && d in nd.pool && d !in nd.replied && d !in nd.commits && k <= 2 * f + 1
    ensures var r := Repeated(nd, sender, d, k, f);
            && (k <= 2 * f ==>
                  r.executed == nd.executed && r.seqId == nd.seqId && r.replied == nd.replied && r.pool == nd.pool
                  && VotesFor(r.commits, d) == Series(sender, d, nd.seqId, k))
            && (k == 2 * f + 1 ==> r.executed == nd.executed + [d])
  {
    if k > 0 {
      OneSenderSuffices(nd, sender, d, k - 1, f);
      SeriesSize(sender, d, nd.seqId, k);
    }
  }

  function Series(sender: NodeId, d: Digest, seq_: nat, k: nat): set<Vote> {
    if k == 0 then {} else Series(sender, d, seq_, k - 1) + {Vote(CommitVote, sender, d, seq_, k)}
  }

  lemma {:induction false} SeriesSize(sender: NodeId, d: Digest, seq_: nat, k: nat)
    ensures |Series(sender, d, seq_, k)| == k
    ensures forall v | v in Series(sender, d, seq_, k) :: v.copy <= k
  {
    if k > 0 {
      SeriesSize(sender, d, seq_, k - 1);
    }
  }

  // ----- why only the leader may send a pre-prepare -----

  /** A replica that is handed the prepares, or the commits, of the k different nodes 0, ..., k - 1. */
  function WithPrepares(nd: Replica, d: Digest, k: nat, f: nat): Replica {
    if k == 0 then nd else OnPrepare(WithPrepares(nd, d, k - 1, f), Vote(PrepareVote, k - 1, d, nd.seqId, 0), f).0
  }

  function WithCommits(nd: Replica, d: Digest, k: nat, f: nat): (r: Replica)
    requires nd.chain != []
    ensures r.chain != []
  {
    if k == 0 then nd else OnCommit(WithCommits(nd, d, k - 1, f), Vote(CommitVote, k - 1, d, nd.seqId, 0), f, false).0
  }

  function FromEach(phase: Phase, d: Digest, seq_: nat, k: nat): set<Vote> {
    if k == 0 then {} else FromEach(phase, d, seq_, k - 1) + {Vote(phase, k - 1, d, seq_, 0)}
  }

  lemma {:induction false} FromEachSize(phase: Phase, d: Digest, seq_: nat, k: nat)
    ensures |FromEach(phase, d, seq_, k)| == k
    ensures forall v | v in FromEach(phase, d, seq_, k) :: v.from < k
  {
    if k > 0 {
      FromEachSize(phase, d, seq_, k - 1);
    }
  }

  lemma {:induction false} PreparesLead(nd: Replica, d: Digest, k: nat, f: nat)
    requires d in nd.pool && d !in nd.prepares && d !in nd.commitSent && k <= 2 * f + 1
    ensures var r := WithPrepares(nd, d, k, f);
            && r == nd.(prepares := r.prepares, commitSent := r.commitSent, stage := r.stage)
            && VotesFor(r.prepares, d) == FromEach(PrepareVote, d, nd.seqId, k)
            && (d in r.commitSent <==> k == 2 * f + 1)
  {
    if k > 0 {
      PreparesLead(nd, d, k - 1, f);
      FromEachSize(PrepareVote, d, nd.seqId, k);
    }
  }

  lemma {:induction false} CommitsLead(nd: Replica, d: Digest, k: nat, f: nat)
    requires nd.chain != [] && d in nd.pool && d !in nd.commits && d !in nd.replied && k <= 2 * f
    ensures var r := WithCommits(nd, d, k, f);
            && r == nd.(commits := r.commits)
            && VotesFor(r.commits, d) == FromEach(CommitVote, d, nd.seqId, k)
  {
    hide Conclude;
    if k > 0 {
      CommitsLead(nd, d, k - 1, f);
      FromEachSize(CommitVote, d, nd.seqId, k);
      var before := WithCommits(nd, d, k - 1, f);
      var v := Vote(CommitVote, k - 1, d, nd.seqId, 0);
      assert VotesFor(before.commits, d) + {v} == FromEach(CommitVote, d, nd.seqId, k);
      assert WithCommits(nd, d, k, f) == OnCommit(before, v, f, false).0;
    }
  }

  /** The last commit ends the round. */
  lemma CommitsExecute(nd: Replica, d: Digest, f: nat)
    requires nd.chain != [] && d in nd.pool && d !in nd.commits && d !in nd.replied
    ensures WithCommits(nd, d, 2 * f + 1, f).chain == AddBlock(nd.chain, nd.pool[d].block)
  {
    hide AddBlock;
    CommitsLead(nd, d, 2 * f, f);
    FromEachSize(CommitVote, d, nd.seqId, 2 * f + 1);
    var before := WithCommits(nd, d, 2 * f, f);
    var v := Vote(CommitVote, 2 * f, d, nd.seqId, 0);
    assert VotesFor(before.commits, d) + {v} == FromEach(CommitVote, d, nd.seqId, 2 * f + 1);
    assert WithCommits(nd, d, 2 * f + 1, f) == OnCommit(before, v, f, false).0;
  }

  /** The pre-prepare handler does not look at the sender: any request that fits the chain, whoever
      sent it, is prepared; with the prepares of 2f + 1 different nodes that did the same it is
      committed, and with their commits its block is appended. */
  lemma AnyRequestIsTaken(nd: Replica, r: Request, f: nat)
    requires nd.chain != [] && IsValidBlock(nd.chain, r.block) && r.block.number == Number(nd.chain[|nd.chain| - 1]) + 1
    requires var d := Of(r); d !in nd.prepares && d !in nd.commits && d !in nd.commitSent && d !in nd.replied
    ensures var (nd1, s) := OnPrePrepare(nd, PrePrepare(r, Of(r), nd.seqId));
            && s == Broadcast(PrepareVote, Of(r), nd.seqId)
            && var nd2 := WithPrepares(nd1, Of(r), 2 * f + 1, f);
               && Of(r) in nd2.commitSent && nd2.chain != []
               && WithCommits(nd2, Of(r), 2 * f + 1, f).chain == nd.chain + [r.block]
  {
    var d := Of(r);
    hide WithPrepares, WithCommits;
    var nd1 := OnPrePrepare(nd, PrePrepare(r, d, nd.seqId)).0;
    assert d in nd1.pool && nd1.pool[d] == r && nd1.chain == nd.chain;
    hide OnPrePrepare, IsValidBlock;
    PreparesLead(nd1, d, 2 * f + 1, f);
    CommitsExecute(WithPrepares(nd1, d, 2 * f + 1, f), d, f);
  }

  /** A replica on the leader's chain that takes a request stays on it if and only if the request
      has the block that the leader proposed for this height. */
  lemma TakenIff(nd: Replica, r: Request, f: nat, proposals: seq<PrePrepare>)
    requires nd.chain != [] && nd.chain <= Proposed(proposals)
    requires IsValidBlock(nd.chain, r.block) && r.block.number == Number(nd.chain[|nd.chain| - 1]) + 1
    requires var d := Of(r); d !in nd.prepares && d !in nd.commits && d !in nd.commitSent && d !in nd.replied
    ensures var nd2 := WithPrepares(OnPrePrepare(nd, PrePrepare(r, Of(r), nd.seqId)).0, Of(r), 2 * f + 1, f);
            && nd2.chain != []
            && (WithCommits(nd2, Of(r), 2 * f + 1, f).chain <= Proposed(proposals)
                <==> |nd.chain| <= |proposals| && r.block == proposals[|nd.chain| - 1].request.block)
  {
    hide WithPrepares, WithCommits, OnPrePrepare, IsValidBlock, Proposed;
    AnyRequestIsTaken(nd, r, f);
    OneMoreIff(nd.chain, r.block, proposals);
  }

  lemma {:induction false} OneMoreIff(chain: seq<Block>, b: Block, proposals: seq<PrePrepare>)
    requires chain != [] && chain <= Proposed(proposals)
    ensures chain + [b] <= Proposed(proposals)
            <==> |chain| <= |proposals| && b == proposals[|chain| - 1].request.block
  {
    hide Proposed;
    assert (chain + [b])[|chain|] == b;
    if |chain| <= |proposals| {
      ProposedAt(proposals, |chain| - 1);
    }
  }

  /** So agreement with the leader ends where somebody else sends a pre-prepare: a replica in its
      first state takes a block although the leader has proposed none. */
  lemma {:induction false} ForeignProposal(f: nat)
    ensures exists r: Request ::
              var nd := Replica(1, map[], map[], map[], map[], {}, {}, 1, [Genesis], false, []);
              var nd2 := WithPrepares(OnPrePrepare(nd, PrePrepare(r, Of(r), 1)).0, Of(r), 2 * f + 1, f);
              nd2.chain != [] && !(WithCommits(nd2, Of(r), 2 * f + 1, f).chain <= Proposed([]))
  {
    var nd := Replica(1, map[], map[], map[], map[], {}, {}, 1, [Genesis], false, []);
    var r := Request(Block(Genesis, 1, true, []), 0);
    hide WithPrepares, WithCommits, OnPrePrepare;
    AnyRequestIsTaken(nd, r, f);
  }
}
