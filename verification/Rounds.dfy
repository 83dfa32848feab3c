/** The normal case of consensus: from every state of every run in which the correct nodes stand at
    the same block, the handlers take any proposed body to all their chains, whatever the faulty
    nodes do not do. */
module Rounds {
  import opened Core
  import opened Sums
  import opened Pbft
  import opened PbftInv
  import opened Agreement

  // ----- the stage of a node -----

  /** The stage counts the phases passed in a round: a handler that broadcasts raises it by one, a
      handler that ends the round sets it to one, and any other leaves it. */
  lemma StageCounts(nd: Replica, pp: PrePrepare, v: Vote, f: nat, leader: bool)
    requires nd.chain != []
    ensures OnPropose(nd, pp.request).stage == 2
    ensures var (nd', s) := OnPrePrepare(nd, pp); nd'.stage == nd.stage + if s.Broadcast? then 1 else 0
    ensures var (nd', s) := OnPrepare(nd, v, f); nd'.stage == nd.stage + if s.Broadcast? then 1 else 0
    ensures var (nd', s) := OnCommit(nd, v, f, leader);
            nd'.stage == if nd'.replied == nd.replied then nd.stage else 1
  {
  }

  // ----- runs -----

  function Last(run: seq<Shard>): Shard
    requires run != []
  {
    run[|run| - 1]
  }

  lemma Extend(run: seq<Shard>, acts: seq<Action>, a: Action) returns (run': seq<Shard>, acts': seq<Action>)
    requires IsRun(run, acts) && Shape(Last(run)) && Enabled(Last(run), a)
    ensures run' == run + [Next(Last(run), a)] && acts' == acts + [a] && IsRun(run', acts')
  {
    hide Next, Enabled, Init, Shape;
    run', acts' := run + [Next(Last(run), a)], acts + [a];
    forall k | 0 <= k < |acts'|
      ensures Step(run'[k], acts'[k], run'[k + 1])
    {
      if k < |acts| {
        assert run'[k] == run[k] && run'[k + 1] == run[k + 1];
      }
    }
  }

  /** Nodes have been handed only what was proposed or cast. */
  ghost predicate Handed(g: Shard) {
    && Shape(g)
    && forall i | 0 <= i < g.n :: g.seen[i] <= g.cast && forall j | j in g.got[i] :: j < |g.proposals|
  }

  lemma HandedNext(g: Shard, a: Action)
    requires Handed(g) && Enabled(g, a) && Shape(Next(g, a))
    ensures Handed(Next(g, a))
  {
    hide OnPrePrepare, OnPrepare, OnCommit, OnOld, OldRequests, NextRequest;
  }

  lemma HandedInit(g: Shard)
    requires Init(g)
    ensures Handed(g)
  {
  }

  lemma ShapeOf(g: Shard)
    requires Inv(g)
    ensures Shape(g)
  {
  }

  lemma {:induction false} RunHanded(run: seq<Shard>, acts: seq<Action>, k: nat)
    requires IsRun(run, acts) && k < |run|
    ensures Handed(run[k])
  {
    hide Inv, Shape, Next, Enabled, Handed, Init;
    RunInv(run, acts, k);
    ShapeOf(run[k]);
    if k == 0 {
      HandedInit(run[0]);
    } else {
      RunHanded(run, acts, k - 1);
      HandedNext(run[k - 1], acts[k - 1]);
    }
  }

  // ----- fresh values -----

  lemma {:induction false} Unused(s: set<nat>) returns (x: nat)
    ensures forall y | y in s :: y < x
    decreases |s|
  {
    if s == {} {
      x := 0;
    } else {
      var y :| y in s;
      x := Unused(s - {y});
      assert forall z | z in s :: z == y || z in s - {y};
      if x <= y {
        x := y + 1;
      }
    }
  }

  lemma FreshCopy(g: Shard) returns (copy: nat)
    ensures Fresh(g, copy)
  {
    var copies := set v | v in g.cast :: v.copy;
    copy := Unused(copies);
    forall v | v in g.cast
      ensures v.copy != copy
    {
      assert v.copy in copies;
    }
  }

  /** The digests a node keeps something under. */
  function DigestsOf(nd: Replica): set<Digest> {
    nd.prepares.Keys + nd.commits.Keys + nd.commitSent + nd.replied
  }

  function AllDigests(nodes: seq<Replica>): (s: set<Digest>)
    ensures forall i | 0 <= i < |nodes| :: DigestsOf(nodes[i]) <= s
  {
    if nodes == [] then {} else AllDigests(nodes[..|nodes| - 1]) + DigestsOf(nodes[|nodes| - 1])
  }

  /** A time at which the leader's next request has a digest nobody knows. */
  lemma FreshTime(nodes: seq<Replica>, nd: Replica, body: seq<Tx>) returns (time: nat)
    requires nd.chain != []
    ensures forall i | 0 <= i < |nodes| :: Of(NextRequest(nd, body, time)) !in DigestsOf(nodes[i])
  {
    var all := AllDigests(nodes);
    var times := set d | d in all && d.Of? :: d.request.time;
    time := Unused(times);
    assert NextRequest(nd, body, time).time !in times;
  }

  // ----- one node in one round -----

  /** The round of a request: the chain and the sequence number it is proposed at. */
  datatype Round = Round(chain: seq<Block>, q: nat, r: Request)

  ghost predicate RoundOk(c: Round) {
    c.chain != [] && IsValidBlock(c.chain, c.r.block) && c.r.block.number == Number(c.chain[|c.chain| - 1]) + 1
  }

  /** A node that has passed k phases of the round: none, pre-prepared, prepared, committed. */
  ghost predicate InPhase(nd: Replica, k: nat, c: Round, leader: bool) {
    var d := Of(c.r);
    if k == 3 then
      nd.chain == c.chain + [c.r.block] && nd.seqId == c.q + 1 && nd.stage == 1 && (leader ==> !nd.locked)
    else
      && nd.chain == c.chain && nd.seqId == c.q && nd.stage == k + (if leader then 2 else 1)
      && d !in nd.commits && d !in nd.replied
      && (k >= 1 ==> d in nd.pool && nd.pool[d] == c.r)
      && (k <= 1 ==> d !in nd.prepares && d !in nd.commitSent)
  }

  lemma PrePrepared(nd: Replica, c: Round, leader: bool)
    requires RoundOk(c) && InPhase(nd, 0, c, leader)
    ensures var (nd', s) := OnPrePrepare(nd, PrePrepare(c.r, Of(c.r), c.q));
            InPhase(nd', 1, c, leader) && s == Broadcast(PrepareVote, Of(c.r), c.q)
  {
  }

  function ToSet(votes: seq<Vote>): set<Vote> {
    set v | v in votes
  }

  ghost predicate Distinct(votes: seq<Vote>) {
    forall x, y | 0 <= x < y < |votes| :: votes[x] != votes[y]
  }

  ghost predicate For(votes: seq<Vote>, phase: Phase, c: Round) {
    forall x | 0 <= x < |votes| :: votes[x].phase == phase && votes[x].digest == Of(c.r) && votes[x].seq_ == c.q
  }

  lemma {:induction false} SetSize(votes: seq<Vote>)
    requires Distinct(votes)
    ensures |ToSet(votes)| == |votes|
  {
    if votes != [] {
      var last := |votes| - 1;
      SetSize(votes[..last]);
      assert ToSet(votes) == ToSet(votes[..last]) + {votes[last]};
      assert votes[last] !in ToSet(votes[..last]);
    }
  }

  lemma OneMoreVote(votes: seq<Vote>, k: nat)
    requires Distinct(votes) && k < |votes|
    ensures ToSet(votes[..k + 1]) == ToSet(votes[..k]) + {votes[k]} && |ToSet(votes[..k + 1])| == k + 1
  {
    SetSize(votes[..k + 1]);
  }

  /** Counting a prepare: below the quorum nothing else changes, at the quorum the node commits. */
  lemma PrepareCounts(nd: Replica, nd0: Replica, votes: seq<Vote>, k: nat, c: Round, f: nat, leader: bool)
    requires InPhase(nd0, 1, c, leader) && nd == nd0.(prepares := nd.prepares)
    requires Distinct(votes) && For(votes, PrepareVote, c) && k < |votes| && k <= 2 * f
    requires VotesFor(nd.prepares, Of(c.r)) == ToSet(votes[..k])
    ensures var (nd', s) := OnPrepare(nd, votes[k], f);
            if k < 2 * f then
              && nd' == nd0.(prepares := nd'.prepares) && s == Nothing
              && VotesFor(nd'.prepares, Of(c.r)) == ToSet(votes[..k + 1])
            else InPhase(nd', 2, c, leader) && s == Broadcast(CommitVote, Of(c.r), c.q)
  {
    OneMoreVote(votes, k);
  }

  lemma CommitCounts(nd: Replica, nd0: Replica, votes: seq<Vote>, k: nat, c: Round, f: nat, leader: bool)
    requires RoundOk(c) && InPhase(nd0, 2, c, leader) && nd == nd0.(commits := nd.commits)
    requires Distinct(votes) && For(votes, CommitVote, c) && k < |votes| && k <= 2 * f
    requires VotesFor(nd.commits, Of(c.r)) == ToSet(votes[..k])
    ensures nd.chain != []
    ensures var (nd', s) := OnCommit(nd, votes[k], f, leader);
            && s == Nothing
            && if k < 2 * f then
                 nd' == nd0.(commits := nd'.commits) && VotesFor(nd'.commits, Of(c.r)) == ToSet(votes[..k + 1])
               else InPhase(nd', 3, c, leader)
  {
    hide Conclude, RoundOk;
    OneMoreVote(votes, k);
    var v := votes[k];
    Concludes(nd.(commits := nd.commits[v.digest := VotesFor(nd.commits, v.digest) + {v}]), v, c, leader);
  }

  /** At the quorum the block is appended. */
  lemma Concludes(nd: Replica, v: Vote, c: Round, leader: bool)
    requires RoundOk(c) && v.digest == Of(c.r) && v.seq_ == c.q
    requires nd.chain == c.chain && nd.seqId == c.q && v.digest in nd.pool && nd.pool[v.digest] == c.r
    ensures nd.chain != [] && Conclude(nd, v, leader).1 == Nothing && InPhase(Conclude(nd, v, leader).0, 3, c, leader)
  {
  }

  // ----- handing over messages -----

  /** A step at node i: what it leaves alone. */
  ghost predicate StepAt(g: Shard, g': Shard, i: NodeId) {
    && Handed(g) && Handed(g') && i < g.n && i !in g.byz
    && g'.n == g.n && g'.f == g.f && g'.byz == g.byz && g'.proposals == g.proposals
    && g.cast <= g'.cast
    && forall k | 0 <= k < g.n && k != i ::
        g'.nodes[k] == g.nodes[k] && g'.seen[k] == g.seen[k] && g'.got[k] == g.got[k]
  }

  lemma StepAtTwice(g: Shard, m: Shard, g': Shard, i: NodeId)
    requires StepAt(g, m, i) && StepAt(m, g', i)
    ensures StepAt(g, g', i)
  {
  }

  lemma Idle(g: Shard, i: NodeId)
    requires Handed(g) && i < g.n && i !in g.byz
    ensures StepAt(g, g, i)
  {
  }

  /** The run goes on. */
  ghost predicate Continues(run: seq<Shard>, acts: seq<Action>, run': seq<Shard>, acts': seq<Action>) {
    run != [] && IsRun(run', acts') && run <= run' && acts <= acts'
  }

  lemma GoesOn(run: seq<Shard>, acts: seq<Action>, mid: seq<Shard>, mids: seq<Action>, run': seq<Shard>,
               acts': seq<Action>)
    requires Continues(run, acts, mid, mids) && Continues(mid, mids, run', acts')
    ensures Continues(run, acts, run', acts')
  {
    hide IsRun;
  }

  lemma IsContinued(run: seq<Shard>, acts: seq<Action>)
    requires IsRun(run, acts)
    ensures run != [] && Continues(run, acts, run, acts)
  {
    hide Step, Init;
  }

  lemma StillRun(run: seq<Shard>, acts: seq<Action>, run': seq<Shard>, acts': seq<Action>)
    requires Continues(run, acts, run', acts')
    ensures run' != [] && IsRun(run', acts')
  {
  }

  /** Node i is handed the pre-prepare. */
  lemma HandPrePrepare(run: seq<Shard>, acts: seq<Action>, i: NodeId, j: nat, c: Round)
    returns (run': seq<Shard>, acts': seq<Action>, v: Vote)
    requires IsRun(run, acts) && Handed(Last(run)) && RoundOk(c)
    requires var g := Last(run);
             && i < g.n && i !in g.byz && j < |g.proposals| && j !in g.got[i]
             && g.proposals[j] == PrePrepare(c.r, Of(c.r), c.q) && InPhase(g.nodes[i], 0, c, i == LEADER)
    ensures Continues(run, acts, run', acts')
    ensures var g, g' := Last(run), Last(run');
            && StepAt(g, g', i) && InPhase(g'.nodes[i], 1, c, i == LEADER) && g'.seen == g.seen
            && g'.cast == g.cast + {v} && v !in g.cast && For([v], PrepareVote, c)
  {
    var g := Last(run);
    var copy := FreshCopy(g);
    var a := DeliverPrePrepare(i, j, copy);
    PrePrepared(g.nodes[i], c, i == LEADER);
    v := Vote(PrepareVote, i, Of(c.r), c.q, copy);
    run', acts' := Extend(run, acts, a);
    RunHanded(run', acts', |run'| - 1);
    hide OnPrePrepare, RoundOk, IsRun;
    assert v !in g.cast;
  }

  /** Node i is handed one vote. */
  lemma HandVote(run: seq<Shard>, acts: seq<Action>, i: NodeId, v: Vote)
    returns (run': seq<Shard>, acts': seq<Action>, copy: nat)
    requires IsRun(run, acts) && Handed(Last(run))
    requires var g := Last(run);
             && i < g.n && i !in g.byz && v in g.cast && v !in g.seen[i]
             && g.nodes[i].stage >= if v.phase.PrepareVote? then 2 else 3
    ensures Continues(run, acts, run', acts')
    ensures var g, g' := Last(run), Last(run');
            var (nd, s) := if v.phase.PrepareVote? then OnPrepare(g.nodes[i], v, g.f)
                           else OnCommit(g.nodes[i], v, g.f, i == LEADER);
            && StepAt(g, g', i) && g'.nodes[i] == nd && g'.seen[i] == g.seen[i] + {v} && g'.got == g.got
            && (s == Nothing ==> g'.cast == g.cast)
            && (s.Broadcast? ==>
                  var w := Vote(s.phase, i, s.digest, s.seq_, copy); w !in g.cast && g'.cast == g.cast + {w})
  {
    var g := Last(run);
    copy := FreshCopy(g);
    run', acts' := Extend(run, acts, DeliverVote(i, v, copy));
    RunHanded(run', acts', |run'| - 1);
    hide OnPrepare, OnCommit, IsRun, Handed;
    ShapeOfHanded(g);
    VoteFrame(g, i, v, copy);
  }

  /** What handing over a vote changes. */
  lemma VoteFrame(g: Shard, i: NodeId, v: Vote, copy: nat)
    requires Shape(g) && Enabled(g, DeliverVote(i, v, copy))
    ensures var g' := Next(g, DeliverVote(i, v, copy));
            var (nd, s) := if v.phase.PrepareVote? then OnPrepare(g.nodes[i], v, g.f)
                           else OnCommit(g.nodes[i], v, g.f, i == LEADER);
            && g'.n == g.n && g'.f == g.f && g'.byz == g.byz && g'.proposals == g.proposals && g'.got == g.got
            && g'.nodes == g.nodes[i := nd] && g'.seen == g.seen[i := g.seen[i] + {v}]
            && g'.cast == if s.Broadcast? then g.cast + {Vote(s.phase, i, s.digest, s.seq_, copy)} else g.cast
  {
    hide OnPrepare, OnCommit;
  }

  ghost predicate Unseen(g: Shard, votes: seq<Vote>, i: NodeId)
    requires Shape(g) && i < g.n
  {
    forall y | 0 <= y < |votes| :: votes[y] in g.cast && votes[y] !in g.seen[i]
  }

  /** Node i has been handed the first k prepares of a list since g, fewer than a quorum. */
  ghost predicate PreparesHanded(g: Shard, m: Shard, i: NodeId, votes: seq<Vote>, k: nat, c: Round) {
    && StepAt(g, m, i) && m.cast == g.cast && k <= |votes|
    && m.nodes[i] == g.nodes[i].(prepares := m.nodes[i].prepares)
    && VotesFor(m.nodes[i].prepares, Of(c.r)) == ToSet(votes[..k])
    && m.seen[i] == g.seen[i] + ToSet(votes[..k])
  }

  /** The node is at the right phase and the votes are for it. */
  ghost predicate PreparesFor(g: Shard, i: NodeId, votes: seq<Vote>, c: Round) {
    && Handed(g) && i < g.n && i !in g.byz && InPhase(g.nodes[i], 1, c, i == LEADER)
    && Distinct(votes) && For(votes, PrepareVote, c) && Unseen(g, votes, i)
  }

  lemma PreparesStart(g: Shard, i: NodeId, votes: seq<Vote>, c: Round)
    requires PreparesFor(g, i, votes, c)
    ensures PreparesHanded(g, g, i, votes, 0, c)
  {
    Idle(g, i);
    assert ToSet(votes[..0]) == {};
  }

  /** The next vote can be handed over. */
  lemma PreparesNext(g: Shard, m: Shard, i: NodeId, votes: seq<Vote>, k: nat, c: Round)
    requires PreparesFor(g, i, votes, c) && PreparesHanded(g, m, i, votes, k, c) && k < |votes|
    ensures Handed(m) && i < m.n && i !in m.byz && votes[k] in m.cast && votes[k] !in m.seen[i]
    ensures votes[k].phase == PrepareVote && m.nodes[i].stage >= 2 && m.f == g.f && m.nodes[i].chain != []
  {
    assert votes[k] !in ToSet(votes[..k]);
  }

  /** What handing it over does to the node. */
  lemma PrepareCounted(g: Shard, m: Shard, i: NodeId, votes: seq<Vote>, k: nat, c: Round)
    requires PreparesFor(g, i, votes, c) && PreparesHanded(g, m, i, votes, k, c) && k < |votes| && k <= 2 * g.f
    ensures var (nd, s) := OnPrepare(m.nodes[i], votes[k], m.f);
            if k < 2 * g.f then
              && nd == g.nodes[i].(prepares := nd.prepares) && s == Nothing
              && VotesFor(nd.prepares, Of(c.r)) == ToSet(votes[..k + 1])
            else InPhase(nd, 2, c, i == LEADER) && s == Broadcast(CommitVote, Of(c.r), c.q)
  {
    PrepareCounts(m.nodes[i], g.nodes[i], votes, k, c, g.f, i == LEADER);
    hide OnPrepare, Handed, InPhase, For, Distinct, Unseen;
  }

  lemma PreparesMore(g: Shard, m: Shard, g': Shard, i: NodeId, votes: seq<Vote>, k: nat, c: Round)
    requires PreparesFor(g, i, votes, c) && PreparesHanded(g, m, i, votes, k, c) && k < |votes|
    requires StepAt(m, g', i) && g'.seen[i] == m.seen[i] + {votes[k]}
    ensures StepAt(g, g', i) && g'.seen[i] == g.seen[i] + ToSet(votes[..k + 1]) && m.cast == g.cast
    ensures g'.cast == m.cast && g'.nodes[i] == g.nodes[i].(prepares := g'.nodes[i].prepares)
            && VotesFor(g'.nodes[i].prepares, Of(c.r)) == ToSet(votes[..k + 1])
            ==> PreparesHanded(g, g', i, votes, k + 1, c)
  {
    hide Handed, InPhase, For, Unseen;
    OneMoreVote(votes, k);
    StepAtTwice(g, m, g', i);
  }

  lemma HandPrepare(run: seq<Shard>, acts: seq<Action>, g: Shard, i: NodeId, votes: seq<Vote>, k: nat, c: Round)
    returns (run': seq<Shard>, acts': seq<Action>, v: Vote)
    requires IsRun(run, acts) && PreparesFor(g, i, votes, c) && PreparesHanded(g, Last(run), i, votes, k, c)
    requires k < |votes| && k <= 2 * g.f
    ensures Continues(run, acts, run', acts')
    ensures var g' := Last(run');
            if k < 2 * g.f then PreparesHanded(g, g', i, votes, k + 1, c)
            else
              && StepAt(g, g', i) && InPhase(g'.nodes[i], 2, c, i == LEADER)
              && g'.seen[i] == g.seen[i] + ToSet(votes[..k + 1])
              && g'.cast == g.cast + {v} && v !in g.cast && For([v], CommitVote, c)
  {
    assert run != [];
    hide IsRun, Handed, InPhase, OnPrepare, PreparesFor, PreparesHanded, StepAt, For;
    var m := Last(run);
    PreparesNext(g, m, i, votes, k, c);
    PrepareCounted(g, m, i, votes, k, c);
    var copy;
    run', acts', copy := HandVote(run, acts, i, votes[k]);
    PreparesMore(g, m, Last(run'), i, votes, k, c);
    v := Vote(CommitVote, i, Of(c.r), c.q, copy);
    OneFor(v, c);
  }

  lemma OneFor(v: Vote, c: Round)
    requires v.digest == Of(c.r) && v.seq_ == c.q
    ensures For([v], v.phase, c)
  {
  }

  /** Node i is handed a quorum of prepares: it commits. */
  lemma PrepareNode(run: seq<Shard>, acts: seq<Action>, i: NodeId, votes: seq<Vote>, c: Round)
    returns (run': seq<Shard>, acts': seq<Action>, v: Vote)
    requires IsRun(run, acts) && PreparesFor(Last(run), i, votes, c) && |votes| == 2 * Last(run).f + 1
    ensures Continues(run, acts, run', acts')
    ensures var g, g' := Last(run), Last(run');
            && StepAt(g, g', i) && InPhase(g'.nodes[i], 2, c, i == LEADER) && g'.seen[i] == g.seen[i] + ToSet(votes)
            && g'.cast == g.cast + {v} && v !in g.cast && For([v], CommitVote, c)
  {
    assert run != [];
    hide IsRun, PreparesFor, PreparesHanded, InPhase, StepAt;
    var g := Last(run);
    PreparesStart(g, i, votes, c);
    run', acts' := run, acts;
    for k := 0 to 2 * g.f
      invariant Continues(run, acts, run', acts') && PreparesHanded(g, Last(run'), i, votes, k, c)
    {
      var w;
      run', acts', w := HandPrepare(run', acts', g, i, votes, k, c);
    }
    run', acts', v := HandPrepare(run', acts', g, i, votes, 2 * g.f, c);
    assert votes[..2 * g.f + 1] == votes;
  }

  // ----- the same for commits -----

  /** Node i has been handed the first k commits of a list since g, fewer than a quorum. */
  ghost predicate CommitsHanded(g: Shard, m: Shard, i: NodeId, votes: seq<Vote>, k: nat, c: Round) {
    && StepAt(g, m, i) && m.cast == g.cast && k <= |votes|
    && m.nodes[i] == g.nodes[i].(commits := m.nodes[i].commits)
    && VotesFor(m.nodes[i].commits, Of(c.r)) == ToSet(votes[..k])
    && m.seen[i] == g.seen[i] + ToSet(votes[..k])
  }

  /** The node is at the right phase and the votes are for it. */
  ghost predicate CommitsFor(g: Shard, i: NodeId, votes: seq<Vote>, c: Round) {
    && Handed(g) && i < g.n && i !in g.byz && InPhase(g.nodes[i], 2, c, i == LEADER) && RoundOk(c)
    && Distinct(votes) && For(votes, CommitVote, c) && Unseen(g, votes, i)
  }

  lemma CommitsStart(g: Shard, i: NodeId, votes: seq<Vote>, c: Round)
    requires CommitsFor(g, i, votes, c)
    ensures CommitsHanded(g, g, i, votes, 0, c)
  {
    Idle(g, i);
    assert ToSet(votes[..0]) == {};
  }

  /** The next vote can be handed over. */
  lemma CommitsNext(g: Shard, m: Shard, i: NodeId, votes: seq<Vote>, k: nat, c: Round)
    requires CommitsFor(g, i, votes, c) && CommitsHanded(g, m, i, votes, k, c) && k < |votes|
    ensures Handed(m) && i < m.n && i !in m.byz && votes[k] in m.cast && votes[k] !in m.seen[i]
    ensures votes[k].phase == CommitVote && m.nodes[i].stage >= 3 && m.f == g.f && m.nodes[i].chain != []
  {
    assert votes[k] !in ToSet(votes[..k]);
  }

  /** What handing it over does to the node. */
  lemma CommitCounted(g: Shard, m: Shard, i: NodeId, votes: seq<Vote>, k: nat, c: Round)
    requires CommitsFor(g, i, votes, c) && CommitsHanded(g, m, i, votes, k, c) && k < |votes| && k <= 2 * g.f
    ensures m.nodes[i].chain != []
    ensures var (nd, s) := OnCommit(m.nodes[i], votes[k], m.f, i == LEADER);
            && s == Nothing
            && if k < 2 * g.f then
                 && nd == g.nodes[i].(commits := nd.commits)
                 && VotesFor(nd.commits, Of(c.r)) == ToSet(votes[..k + 1])
               else InPhase(nd, 3, c, i == LEADER)
  {
    CommitCounts(m.nodes[i], g.nodes[i], votes, k, c, g.f, i == LEADER);
    hide OnCommit, Handed, InPhase, For, Distinct, RoundOk, Unseen;
  }

  lemma CommitsMore(g: Shard, m: Shard, g': Shard, i: NodeId, votes: seq<Vote>, k: nat, c: Round)
    requires CommitsFor(g, i, votes, c) && CommitsHanded(g, m, i, votes, k, c) && k < |votes|
    requires StepAt(m, g', i) && g'.cast == m.cast && g'.seen[i] == m.seen[i] + {votes[k]}
    ensures StepAt(g, g', i) && g'.cast == g.cast
    ensures g'.nodes[i] == g.nodes[i].(commits := g'.nodes[i].commits)
            && VotesFor(g'.nodes[i].commits, Of(c.r)) == ToSet(votes[..k + 1])
            ==> CommitsHanded(g, g', i, votes, k + 1, c)
  {
    hide Handed, InPhase, For, RoundOk, Unseen;
    OneMoreVote(votes, k);
    StepAtTwice(g, m, g', i);
  }

  lemma HandCommit(run: seq<Shard>, acts: seq<Action>, g: Shard, i: NodeId, votes: seq<Vote>, k: nat, c: Round)
    returns (run': seq<Shard>, acts': seq<Action>)
    requires IsRun(run, acts) && CommitsFor(g, i, votes, c) && CommitsHanded(g, Last(run), i, votes, k, c)
    requires k < |votes| && k <= 2 * g.f
    ensures Continues(run, acts, run', acts')
    ensures var g' := Last(run');
            if k < 2 * g.f then CommitsHanded(g, g', i, votes, k + 1, c)
            else StepAt(g, g', i) && InPhase(g'.nodes[i], 3, c, i == LEADER) && g'.cast == g.cast
  {
    assert run != [];
    hide IsRun, Handed, InPhase, OnCommit, CommitsFor, CommitsHanded, StepAt;
    var m := Last(run);
    CommitsNext(g, m, i, votes, k, c);
    CommitCounted(g, m, i, votes, k, c);
    var copy;
    run', acts', copy := HandVote(run, acts, i, votes[k]);
    CommitsMore(g, m, Last(run'), i, votes, k, c);
  }

  lemma CommitNode(run: seq<Shard>, acts: seq<Action>, i: NodeId, votes: seq<Vote>, c: Round)
    returns (run': seq<Shard>, acts': seq<Action>)
    requires IsRun(run, acts) && CommitsFor(Last(run), i, votes, c) && |votes| == 2 * Last(run).f + 1
    ensures Continues(run, acts, run', acts')
    ensures var g, g' := Last(run), Last(run');
            StepAt(g, g', i) && InPhase(g'.nodes[i], 3, c, i == LEADER) && g'.cast == g.cast
  {
    assert run != [];
    hide IsRun, CommitsFor, CommitsHanded, InPhase, StepAt;
    var g := Last(run);
    CommitsStart(g, i, votes, c);
    run', acts' := run, acts;
    for k := 0 to 2 * g.f
      invariant Continues(run, acts, run', acts') && CommitsHanded(g, Last(run'), i, votes, k, c)
    {
      run', acts' := HandCommit(run', acts', g, i, votes, k, c);
    }
    run', acts' := HandCommit(run', acts', g, i, votes, 2 * g.f, c);
  }

  // ----- all correct nodes -----

  /** The correct nodes below i have passed k + 1 phases, the others k. */
  ghost predicate Abreast(g: Shard, c: Round, k: nat, i: nat)
    requires Shape(g)
  {
    forall x | 0 <= x < g.n && x !in g.byz :: InPhase(g.nodes[x], if x < i then k + 1 else k, c, x == LEADER)
  }

  lemma AbreastStep(g: Shard, g': Shard, c: Round, k: nat, i: nat)
    requires StepAt(g, g', i) && Abreast(g, c, k, i) && InPhase(g'.nodes[i], k + 1, c, i == LEADER)
    ensures Abreast(g', c, k, i + 1)
  {
    hide InPhase, Handed;
  }

  lemma AbreastSkip(g: Shard, c: Round, k: nat, i: nat)
    requires Shape(g) && Abreast(g, c, k, i) && i in g.byz
    ensures Abreast(g, c, k, i + 1)
  {
    hide InPhase;
  }

  lemma NextPhase(g: Shard, c: Round, k: nat)
    requires Shape(g) && Abreast(g, c, k, g.n)
    ensures Abreast(g, c, k + 1, 0)
  {
    hide InPhase;
  }

  /** Votes of the correct nodes below i: distinct, cast, and not handed to the nodes from `to` on. */
  ghost predicate Collected(g: Shard, votes: seq<Vote>, phase: Phase, c: Round, i: nat, to: nat)
    requires Shape(g)
  {
    && |votes| == |Upto(i) - g.byz| && Distinct(votes) && For(votes, phase, c)
    && forall x | to <= x < g.n :: Unseen(g, votes, x)
  }

  lemma NoneCollected(g: Shard, phase: Phase, c: Round)
    requires Shape(g)
    ensures Collected(g, [], phase, c, 0, 0)
  {
    assert Upto(0) - g.byz == {};
  }

  /** One more vote, cast by node i. */
  lemma CollectMore(g: Shard, g': Shard, votes: seq<Vote>, v: Vote, phase: Phase, c: Round, i: nat)
    requires StepAt(g, g', i) && Collected(g, votes, phase, c, i, 0)
    requires g'.cast == g.cast + {v} && v !in g.cast && For([v], phase, c)
    requires forall y | 0 <= y < |votes| :: votes[y] !in g'.seen[i]
    requires v !in g'.seen[i]
    ensures Collected(g', votes + [v], phase, c, i + 1, 0)
  {
    hide StepAt, For, Distinct, Unseen;
    StepShape(g, g', i);
    assert Unseen(g, votes, i);
    assert Upto(i + 1) - g.byz == (Upto(i) - g.byz) + {i};
    ListMore(g, votes, v, phase, c, i);
    forall x | 0 <= x < g'.n
      ensures Unseen(g', votes + [v], x)
    {
      assert Unseen(g, votes, x);
      UnseenMore(g, g', votes, v, i, x);
    }
  }

  lemma StepShape(g: Shard, g': Shard, i: NodeId)
    requires StepAt(g, g', i)
    ensures Shape(g) && Shape(g') && g'.n == g.n && g'.byz == g.byz && i < g.n && i !in g.byz
  {
  }

  lemma ListMore(g: Shard, votes: seq<Vote>, v: Vote, phase: Phase, c: Round, i: nat)
    requires Shape(g) && i < g.n && Unseen(g, votes, i) && v !in g.cast
    requires Distinct(votes) && For(votes, phase, c) && For([v], phase, c)
    ensures Distinct(votes + [v]) && For(votes + [v], phase, c)
  {
    assert [v][0] == v;
  }

  lemma UnseenMore(g: Shard, g': Shard, votes: seq<Vote>, v: Vote, i: NodeId, x: NodeId)
    requires StepAt(g, g', i) && x < g.n && Unseen(g, votes, x) && g'.cast == g.cast + {v} && v !in g.cast
    requires v !in g'.seen[i] && forall y | 0 <= y < |votes| :: votes[y] !in g'.seen[i]
    ensures Unseen(g', votes + [v], x)
  {
  }

  lemma CollectSkip(g: Shard, votes: seq<Vote>, phase: Phase, c: Round, i: nat, to: nat)
    requires Shape(g) && Collected(g, votes, phase, c, i, to) && i in g.byz
    ensures Collected(g, votes, phase, c, i + 1, to)
  {
    hide Unseen, Distinct, For;
    assert Upto(i + 1) - g.byz == Upto(i) - g.byz;
  }

  /** There are enough correct nodes for a quorum. */
  lemma EnoughVotes(g: Shard)
    requires Shape(g) && 3 * g.f < g.n
    ensures |Upto(g.n) - g.byz| >= 2 * g.f + 1
  {
    hide Upto;
    assert Upto(g.n) == (Upto(g.n) - g.byz) + (Upto(g.n) * g.byz);
    SubsetCard(Upto(g.n) * g.byz, g.byz);
  }

  // ----- the phases of a round -----

  lemma PrePreparePhase(run: seq<Shard>, acts: seq<Action>, j: nat, c: Round)
    returns (run': seq<Shard>, acts': seq<Action>, votes: seq<Vote>)
    requires IsRun(run, acts) && Handed(Last(run)) && RoundOk(c) && Abreast(Last(run), c, 0, 0)
    requires var g := Last(run);
             && j < |g.proposals| && g.proposals[j] == PrePrepare(c.r, Of(c.r), c.q)
             && forall x | 0 <= x < g.n :: j !in g.got[x]
    ensures Continues(run, acts, run', acts') && Handed(Last(run')) && Frame(Last(run), Last(run'))
    ensures Abreast(Last(run'), c, 1, 0) && Collected(Last(run'), votes, PrepareVote, c, Last(run).n, 0)
  {
    hide InPhase, RoundOk, Abreast, Collected, Handed, IsRun, Continues, Upto;
    IsContinued(run, acts);
    ShapeOfHanded(Last(run));
    run', acts', votes := run, acts, [];
    NoneCollected(Last(run), PrepareVote, c);
    for i := 0 to Last(run).n
      invariant run' != [] && Continues(run, acts, run', acts') && Handed(Last(run')) && Frame(Last(run), Last(run'))
      invariant Shape(Last(run')) && Abreast(Last(run'), c, 0, i) && Collected(Last(run'), votes, PrepareVote, c, i, 0)
      invariant forall x | i <= x < Last(run).n :: j !in Last(run').got[x]
    {
      StillRun(run, acts, run', acts');
      var run1, acts1, votes1 := PrePrepareTurn(run', acts', i, j, c, votes);
      GoesOn(run, acts, run', acts', run1, acts1);
      run', acts', votes := run1, acts1, votes1;
    }
    NextPhase(Last(run'), c, 0);
  }

  lemma ShapeOfHanded(g: Shard)
    requires Handed(g)
    ensures Shape(g) && |g.got| == |g.seen| == |g.nodes| == g.n
  {
  }

  ghost predicate Frame(g: Shard, g': Shard) {
    g'.n == g.n && g'.f == g.f && g'.byz == g.byz && g'.proposals == g.proposals
  }

  lemma PrePrepareTurn(run: seq<Shard>, acts: seq<Action>, i: NodeId, j: nat, c: Round, votes: seq<Vote>)
    returns (run': seq<Shard>, acts': seq<Action>, votes': seq<Vote>)
    requires IsRun(run, acts) && Handed(Last(run)) && RoundOk(c)
    requires var g := Last(run);
             && i < g.n && j < |g.proposals| && g.proposals[j] == PrePrepare(c.r, Of(c.r), c.q)
             && j !in g.got[i] && Abreast(g, c, 0, i) && Collected(g, votes, PrepareVote, c, i, 0)
    ensures run' != [] && Continues(run, acts, run', acts') && |Last(run').got| == Last(run).n
    ensures var g, g' := Last(run), Last(run');
            && Handed(g') && Shape(g') && Frame(g, g') && Abreast(g', c, 0, i + 1)
                && Collected(g', votes', PrepareVote, c, i + 1, 0)
            && forall x | 0 <= x < g.n && x != i :: g'.got[x] == g.got[x]
  {
    hide InPhase, RoundOk, IsRun, Abreast, Collected, Continues, Handed, Shape, For, StepAt, Unseen;
    IsContinued(run, acts);
    var g := Last(run);
    ShapeOfHanded(g);
    if i in g.byz {
      run', acts', votes' := run, acts, votes;
      AbreastSkip(g, c, 0, i);
      CollectSkip(g, votes, PrepareVote, c, i, 0);
    } else {
      AtTurn(g, c, 0, i, votes, PrepareVote);
      var v;
      run', acts', v := HandPrePrepare(run, acts, i, j, c);
      StillRun(run, acts, run', acts');
      StepFacts(g, Last(run'), i);
      AbreastStep(g, Last(run'), c, 0, i);
      NewUnseen(g, Last(run'), i, votes, v);
      CollectMore(g, Last(run'), votes, v, PrepareVote, c, i);
      votes' := votes + [v];
    }
  }

  /** What is known of the node whose turn it is. */
  lemma AtTurn(g: Shard, c: Round, k: nat, i: NodeId, votes: seq<Vote>, phase: Phase)
    requires Shape(g) && Abreast(g, c, k, i) && Collected(g, votes, phase, c, i, 0) && i < g.n && i !in g.byz
    ensures InPhase(g.nodes[i], k, c, i == LEADER) && Unseen(g, votes, i) && For(votes, phase, c)
  {
  }

  lemma StepFacts(g: Shard, g': Shard, i: NodeId)
    requires StepAt(g, g', i)
    ensures Handed(g') && Shape(g') && Frame(g, g') && |g'.nodes| == |g'.seen| == |g'.got| == g.n
    ensures forall x | 0 <= x < g.n && x != i :: g'.got[x] == g.got[x]
  {
  }

  lemma NewUnseen(g: Shard, g': Shard, i: NodeId, votes: seq<Vote>, v: Vote)
    requires StepAt(g, g', i) && g'.seen == g.seen && Unseen(g, votes, i) && v !in g.cast
    ensures v !in g'.seen[i] && forall y | 0 <= y < |votes| :: votes[y] !in g'.seen[i]
  {
  }

  lemma PreparePhase(run: seq<Shard>, acts: seq<Action>, c: Round, votes: seq<Vote>)
    returns (run': seq<Shard>, acts': seq<Action>, commits: seq<Vote>)
    requires IsRun(run, acts) && Handed(Last(run)) && Abreast(Last(run), c, 1, 0)
    requires |votes| == 2 * Last(run).f + 1 && Distinct(votes) && For(votes, PrepareVote, c)
    requires forall x | 0 <= x < Last(run).n :: Unseen(Last(run), votes, x)
    ensures Continues(run, acts, run', acts') && Handed(Last(run')) && Frame(Last(run), Last(run'))
    ensures Abreast(Last(run'), c, 2, 0) && Collected(Last(run'), commits, CommitVote, c, Last(run).n, 0)
  {
    hide InPhase, Abreast, Collected, Handed, IsRun, Unseen, For, Distinct, Continues, Shape, Upto;
    IsContinued(run, acts);
    ShapeOfHanded(Last(run));
    run', acts', commits := run, acts, [];
    NoneCollected(Last(run), CommitVote, c);
    for i := 0 to Last(run).n
      invariant run' != [] && Continues(run, acts, run', acts') && Handed(Last(run')) && Frame(Last(run), Last(run'))
      invariant Shape(Last(run')) && Abreast(Last(run'), c, 1, i) && Collected(Last(run'), commits, CommitVote, c, i, 0)
      invariant forall x | i <= x < Last(run).n :: Unseen(Last(run'), votes, x)
    {
      StillRun(run, acts, run', acts');
      var run1, acts1, commits1 := PrepareTurn(run', acts', i, c, votes, commits);
      GoesOn(run, acts, run', acts', run1, acts1);
      run', acts', commits := run1, acts1, commits1;
    }
    NextPhase(Last(run'), c, 1);
  }

  lemma PrepareTurn(run: seq<Shard>, acts: seq<Action>, i: NodeId, c: Round, votes: seq<Vote>, commits: seq<Vote>)
    returns (run': seq<Shard>, acts': seq<Action>, commits': seq<Vote>)
    requires IsRun(run, acts) && Handed(Last(run)) && |votes| == 2 * Last(run).f + 1
    requires Distinct(votes) && For(votes, PrepareVote, c)
    requires var g := Last(run);
             && i < g.n && Abreast(g, c, 1, i) && Collected(g, commits, CommitVote, c, i, 0)
             && forall x | i <= x < g.n :: Unseen(g, votes, x)
    ensures run' != [] && Continues(run, acts, run', acts')
    ensures var g, g' := Last(run), Last(run');
            && Handed(g') && Shape(g') && Frame(g, g') && Abreast(g', c, 1, i + 1)
                && Collected(g', commits', CommitVote, c, i + 1, 0)
            && forall x | i < x < g.n :: Unseen(g', votes, x)
  {
    hide InPhase, IsRun, Abreast, Collected, Continues, Handed, Shape, For, StepAt, Unseen, Distinct;
    IsContinued(run, acts);
    var g := Last(run);
    ShapeOfHanded(g);
    if i in g.byz {
      run', acts', commits' := run, acts, commits;
      AbreastSkip(g, c, 1, i);
      CollectSkip(g, commits, CommitVote, c, i, 0);
    } else {
      AtTurn(g, c, 1, i, commits, CommitVote);
      var v;
      run', acts', v := PrepareNode(run, acts, i, votes, c);
      StillRun(run, acts, run', acts');
      StepFacts(g, Last(run'), i);
      AbreastStep(g, Last(run'), c, 1, i);
      CommitsUnseen(g, Last(run'), i, votes, commits, v, c);
      CollectMore(g, Last(run'), commits, v, CommitVote, c, i);
      commits' := commits + [v];
      StillUnseen(g, Last(run'), i, votes);
    }
  }

  lemma CommitsUnseen(g: Shard, g': Shard, i: NodeId, votes: seq<Vote>, commits: seq<Vote>, v: Vote, c: Round)
    requires StepAt(g, g', i) && g'.seen[i] == g.seen[i] + ToSet(votes) && For(votes, PrepareVote, c)
    requires Unseen(g, commits, i) && For(commits, CommitVote, c) && v !in g.cast && For([v], CommitVote, c)
    ensures v !in g'.seen[i] && forall y | 0 <= y < |commits| :: commits[y] !in g'.seen[i]
  {
    assert [v][0] == v;
  }

  lemma StillUnseen(g: Shard, g': Shard, i: NodeId, votes: seq<Vote>)
    requires StepAt(g, g', i) && forall x | i <= x < g.n :: Unseen(g, votes, x)
    ensures forall x | i < x < g.n :: Unseen(g', votes, x)
  {
    forall x | i < x < g.n
      ensures Unseen(g', votes, x)
    {
      assert Unseen(g, votes, x);
    }
  }

  lemma CommitPhase(run: seq<Shard>, acts: seq<Action>, c: Round, votes: seq<Vote>)
    returns (run': seq<Shard>, acts': seq<Action>)
    requires IsRun(run, acts) && Handed(Last(run)) && Abreast(Last(run), c, 2, 0) && RoundOk(c)
    requires |votes| == 2 * Last(run).f + 1 && Distinct(votes) && For(votes, CommitVote, c)
    requires forall x | 0 <= x < Last(run).n :: Unseen(Last(run), votes, x)
    ensures Continues(run, acts, run', acts') && Handed(Last(run')) && Frame(Last(run), Last(run'))
    ensures Abreast(Last(run'), c, 3, 0)
  {
    hide InPhase, RoundOk, Abreast, Handed, IsRun, Unseen, For, Distinct, Continues, Shape;
    IsContinued(run, acts);
    ShapeOfHanded(Last(run));
    run', acts' := run, acts;
    for i := 0 to Last(run).n
      invariant run' != [] && Continues(run, acts, run', acts') && Handed(Last(run')) && Frame(Last(run), Last(run'))
      invariant Shape(Last(run')) && Abreast(Last(run'), c, 2, i)
      invariant forall x | i <= x < Last(run).n :: Unseen(Last(run'), votes, x)
    {
      StillRun(run, acts, run', acts');
      var run1, acts1 := CommitTurn(run', acts', i, c, votes);
      GoesOn(run, acts, run', acts', run1, acts1);
      run', acts' := run1, acts1;
    }
    NextPhase(Last(run'), c, 2);
  }

  lemma CommitTurn(run: seq<Shard>, acts: seq<Action>, i: NodeId, c: Round, votes: seq<Vote>)
    returns (run': seq<Shard>, acts': seq<Action>)
    requires IsRun(run, acts) && Handed(Last(run)) && |votes| == 2 * Last(run).f + 1 && RoundOk(c)
    requires Distinct(votes) && For(votes, CommitVote, c)
    requires var g := Last(run);
             i < g.n && Abreast(g, c, 2, i) && forall x | i <= x < g.n :: Unseen(g, votes, x)
    ensures run' != [] && Continues(run, acts, run', acts')
    ensures var g, g' := Last(run), Last(run');
            && Handed(g') && Shape(g') && Frame(g, g') && Abreast(g', c, 2, i + 1)
            && forall x | i < x < g.n :: Unseen(g', votes, x)
  {
    var g := Last(run);
    if i in g.byz {
      IsContinued(run, acts);
      run', acts' := run, acts;
      AbreastSkip(g, c, 2, i);
    } else {
      assert InPhase(g.nodes[i], 2, c, i == LEADER) && Unseen(g, votes, i);
      hide InPhase, IsRun, RoundOk, Abreast, Continues;
      run', acts' := CommitNode(run, acts, i, votes, c);
      AbreastStep(g, Last(run'), c, 2, i);
      StillUnseen(g, Last(run'), i, votes);
    }
  }

  // ----- whole rounds -----

  /** The leader is idle, and all correct nodes stand at the same chain, sequence number and, the
      leader aside, at the first stage. */
  ghost predicate Level(g: Shard, chain: seq<Block>) {
    && Shape(g) && !g.nodes[LEADER].locked && chain != []
    && forall x | 0 <= x < g.n && x !in g.byz ::
         && g.nodes[x].chain == chain && g.nodes[x].seqId == g.nodes[LEADER].seqId
         && (x != LEADER ==> g.nodes[x].stage == 1)
  }

  /** The block with a given body on top of a chain. */
  function Above(chain: seq<Block>, body: seq<Tx>): Block
    requires chain != []
  {
    Block(chain[|chain| - 1], Number(chain[|chain| - 1]) + 1, true, body)
  }

  lemma ProposeRound(run: seq<Shard>, acts: seq<Action>, chain: seq<Block>, body: seq<Tx>)
    returns (run': seq<Shard>, acts': seq<Action>, c: Round)
    requires IsRun(run, acts) && Level(Last(run), chain)
    ensures Continues(run, acts, run', acts') && Handed(Last(run')) && RoundOk(c) && Abreast(Last(run'), c, 0, 0)
    ensures c.chain == chain && c.q == Last(run).nodes[LEADER].seqId && c.r.block == Above(chain, body)
    ensures var g, g' := Last(run), Last(run');
            && g'.n == g.n && g'.f == g.f && g'.byz == g.byz
            && g'.proposals == g.proposals + [PrePrepare(c.r, Of(c.r), c.q)]
            && forall x | 0 <= x < g.n :: |g.proposals| !in g'.got[x]
  {
    var g := Last(run);
    var nd := g.nodes[LEADER];
    var time := FreshTime(g.nodes, nd, body);
    RunHanded(run, acts, |run| - 1);
    c := Round(chain, nd.seqId, NextRequest(nd, body, time));
    run', acts' := Extend(run, acts, Propose(body, time));
    RunHanded(run', acts', |run'| - 1);
    hide IsRun;
    forall x | 0 <= x < g.n && x !in g.byz
      ensures InPhase(Last(run').nodes[x], 0, c, x == LEADER)
    {
      assert Of(c.r) !in DigestsOf(g.nodes[x]);
    }
  }

  /** From every such state of every run, for every body, there are steps after which every correct
      node has the block with this body on top of its chain, its sequence number is one higher and
      it is back at the first stage. */
  lemma RoundCompletes(run: seq<Shard>, acts: seq<Action>, chain: seq<Block>, body: seq<Tx>)
    returns (run': seq<Shard>, acts': seq<Action>)
    requires IsRun(run, acts) && Level(Last(run), chain) && 3 * Last(run).f < Last(run).n
    ensures Continues(run, acts, run', acts') && Level(Last(run'), chain + [Above(chain, body)])
    ensures var g, g' := Last(run), Last(run');
            && g'.n == g.n && g'.f == g.f && g'.byz == g.byz
            && g'.nodes[LEADER].seqId == g.nodes[LEADER].seqId + 1
            && forall x | 0 <= x < g.n && x !in g.byz :: g'.nodes[x].stage == 1
  {
    hide IsRun, RoundOk, InPhase, Handed, Abreast, Collected, Unseen, Distinct, For, Level, Continues, Shape, Upto;
    IsContinued(run, acts);
    var g := Last(run);
    LevelShape(g, chain);
    EnoughVotes(g);
    var run1, acts1, c := ProposeRound(run, acts, chain, body);
    StillRun(run, acts, run1, acts1);
    var run2, acts2, votes := PrePreparePhase(run1, acts1, |g.proposals|, c);
    StillRun(run1, acts1, run2, acts2);
    GoesOn(run, acts, run1, acts1, run2, acts2);
    ShapeOfHanded(Last(run2));
    FirstVotes(Last(run2), votes, PrepareVote, c, g.n, 2 * g.f + 1);
    var run3, acts3 := VotePhases(run2, acts2, c, votes[..2 * g.f + 1]);
    StillRun(run2, acts2, run3, acts3);
    GoesOn(run, acts, run2, acts2, run3, acts3);
    RoundDone(Last(run3), c);
    run', acts' := run3, acts3;
  }

  lemma LevelShape(g: Shard, chain: seq<Block>)
    requires Level(g, chain)
    ensures Shape(g) && g.n > 0 && |g.nodes| == g.n && chain != []
  {
  }

  lemma VotePhases(run: seq<Shard>, acts: seq<Action>, c: Round, votes: seq<Vote>)
    returns (run': seq<Shard>, acts': seq<Action>)
    requires IsRun(run, acts) && Handed(Last(run)) && RoundOk(c) && Abreast(Last(run), c, 1, 0)
    requires 3 * Last(run).f < Last(run).n
    requires |votes| == 2 * Last(run).f + 1 && Distinct(votes) && For(votes, PrepareVote, c)
    requires forall x | 0 <= x < Last(run).n :: Unseen(Last(run), votes, x)
    ensures Continues(run, acts, run', acts') && Shape(Last(run')) && Frame(Last(run), Last(run'))
    ensures Abreast(Last(run'), c, 3, 0)
  {
    var g := Last(run);
    EnoughVotes(g);
    hide IsRun, RoundOk, InPhase, Handed, Abreast, Unseen, Distinct, For;
    var commits;
    run', acts', commits := PreparePhase(run, acts, c, votes);
    ShapeOfHanded(Last(run'));
    FirstVotes(Last(run'), commits, CommitVote, c, g.n, 2 * g.f + 1);
    run', acts' := CommitPhase(run', acts', c, commits[..2 * g.f + 1]);
    ShapeOfHanded(Last(run'));
  }

  lemma {:induction false} FirstVotes(g: Shard, votes: seq<Vote>, phase: Phase, c: Round, i: nat, k: nat)
    requires Shape(g) && Collected(g, votes, phase, c, i, 0) && k <= |Upto(i) - g.byz|
    ensures k <= |votes| && Distinct(votes[..k]) && For(votes[..k], phase, c)
    ensures forall x | 0 <= x < g.n :: Unseen(g, votes[..k], x)
  {
    forall x | 0 <= x < g.n
      ensures Unseen(g, votes[..k], x)
    {
      assert Unseen(g, votes, x);
    }
  }

  lemma RoundDone(g: Shard, c: Round)
    requires Shape(g) && Abreast(g, c, 3, 0)
    ensures Level(g, c.chain + [c.r.block]) && |g.nodes| == g.n > 0 && g.nodes[LEADER].seqId == c.q + 1
    ensures forall x | 0 <= x < g.n && x !in g.byz :: g.nodes[x].stage == 1
  {
    assert InPhase(g.nodes[LEADER], 3, c, true);
    forall x | 0 <= x < g.n && x !in g.byz
      ensures InPhase(g.nodes[x], 3, c, x == LEADER)
    {
    }
  }

  /** The chain with the given bodies on top of the first block. */
  function ChainOf(bodies: seq<seq<Tx>>): (chain: seq<Block>)
    ensures |chain| == |bodies| + 1
  {
    if bodies == [] then [Genesis]
    else
      var rest := ChainOf(bodies[..|bodies| - 1]);
      rest + [Above(rest, bodies[|bodies| - 1])]
  }

  /** With more than three times as many nodes as faults, every list of bodies can become the chain
      of all correct nodes. */
  lemma {:induction false} EveryChainIsReached(g0: Shard, bodies: seq<seq<Tx>>)
    returns (run: seq<Shard>, acts: seq<Action>)
    requires Init(g0) && 3 * g0.f < g0.n
    ensures IsRun(run, acts) && run[0] == g0
    ensures var g := Last(run);
            && Shape(g) && g.n == g0.n && g.f == g0.f && g.byz == g0.byz && Level(g, ChainOf(bodies))
            && forall x | 0 <= x < g.n && x !in g.byz :: g.nodes[x].chain == ChainOf(bodies)
  {
    if bodies == [] {
      run, acts := [g0], [];
    } else {
      var rest := bodies[..|bodies| - 1];
      var run0, acts0 := EveryChainIsReached(g0, rest);
      hide IsRun, Init;
      run, acts := RoundCompletes(run0, acts0, ChainOf(rest), bodies[|bodies| - 1]);
    }
  }
}
