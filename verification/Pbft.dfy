/** The normal case of consensus inside one shard: one view, block requests only.

    Each handler runs to completion under the node's lock, so it is one step.  A handler that
    waits for an earlier stage is delivered later.  Hashes are injective: a block stands for its
    hash, and the digest of a request for the request. */
module Pbft {
  import opened Core

  type NodeId = nat

  datatype Block = Genesis | Block(parent: Block, number: nat, rootOk: bool, body: seq<Tx>)

  datatype Request = Request(block: Block, time: nat)

  /** The digest of a request, or bytes that are the digest of nothing. */
  datatype Digest = Of(request: Request) | Junk(bytes: nat)

  datatype PrePrepare = PrePrepare(request: Request, digest: Digest, seq_: nat)

  datatype Phase = PrepareVote | CommitVote

  /** A prepare or commit message.  `copy` tells apart messages with the same content. */
  datatype Vote = Vote(phase: Phase, from: NodeId, digest: Digest, seq_: nat, copy: nat)

  datatype Ask = Ask(from: NodeId, start: nat, end: nat)

  datatype Old = Old(to: NodeId, start: nat, end: nat, requests: seq<Request>)

  /** Messages are counted by identity: two messages of one sender are two votes. */
  type Votes = map<Digest, set<Vote>>

  datatype Replica = Replica(
    seqId: nat,
    pool: map<Digest, Request>,
    heights: map<nat, Digest>,
    prepares: Votes,
    commits: Votes,
    commitSent: set<Digest>,
    replied: set<Digest>,
    stage: int,
    chain: seq<Block>,
    // the leader's sequence lock: a proposal is pending
    locked: bool,
    // digests executed through commits, in order
    executed: seq<Digest>)

  /** What a handler sends. */
  datatype Sends = Nothing | Broadcast(phase: Phase, digest: Digest, seq_: nat) | AskLeader(start: nat, end: nat)

  function Number(b: Block): nat {
    if b.Genesis? then 0 else b.number
  }

  function VotesFor(votes: Votes, d: Digest): set<Vote> {
    if d in votes then votes[d] else {}
  }

  /** Appending a block: its height and its parent must fit, otherwise it is dropped. */
  function AddBlock(chain: seq<Block>, b: Block): seq<Block>
    requires chain != []
  {
    var head := chain[|chain| - 1];
    if b.Block? && b.number == Number(head) + 1 && b.parent == head then chain + [b] else chain
  }

  predicate IsValidBlock(chain: seq<Block>, b: Block)
    requires chain != []
  {
    b.Block? && b.parent == chain[|chain| - 1] && b.rootOk
  }

  function NextRequest(nd: Replica, body: seq<Tx>, time: nat): Request
    requires nd.chain != []
  {
    var head := nd.chain[|nd.chain| - 1];
    Request(Block(head, Number(head) + 1, true, body), time)
  }

  function OnPropose(nd: Replica, r: Request): Replica {
    nd.(pool := nd.pool[Of(r) := r], heights := nd.heights[nd.seqId := Of(r)], stage := 2, locked := true)
  }

  function Store(nd: Replica, r: Request, seq_: nat): Replica {
    nd.(pool := nd.pool[Of(r) := r], heights := nd.heights[seq_ := Of(r)])
  }

  function OnPrePrepare(nd: Replica, pp: PrePrepare): (Replica, Sends)
    requires nd.chain != []
  {
    if pp.seq_ < nd.seqId || pp.digest != Of(pp.request) then (nd, Nothing)
    else if nd.seqId < pp.seq_ then (Store(nd, pp.request, pp.seq_), Nothing)
    else if IsValidBlock(nd.chain, pp.request.block) then
      (Store(nd, pp.request, pp.seq_).(stage := nd.stage + 1), Broadcast(PrepareVote, pp.digest, pp.seq_))
    else (Store(nd, pp.request, pp.seq_), Nothing)
  }

  function OnPrepare(nd: Replica, v: Vote, f: nat): (Replica, Sends) {
    if v.seq_ < nd.seqId || v.digest !in nd.pool || nd.seqId < v.seq_ then (nd, Nothing)
    else
      var votes := VotesFor(nd.prepares, v.digest) + {v};
      var counted := nd.(prepares := nd.prepares[v.digest := votes]);
      if |votes| >= 2 * f + 1 && v.digest !in nd.commitSent then
        (counted.(commitSent := nd.commitSent + {v.digest}, stage := nd.stage + 1),
         Broadcast(CommitVote, v.digest, v.seq_))
      else (counted, Nothing)
  }

  /** The end of a round: the request is executed, or asked for if it is missing. */
  function Conclude(nd: Replica, v: Vote, leader: bool): (Replica, Sends)
    requires nd.chain != []
  {
    var ended := nd.(replied := nd.replied + {v.digest}, stage := 1, locked := nd.locked && !leader);
    if v.digest !in nd.pool then (ended, AskLeader(nd.seqId + 1, v.seq_))
    else
      (ended.(chain := AddBlock(nd.chain, nd.pool[v.digest].block), seqId := nd.seqId + 1,
              executed := nd.executed + [v.digest]),
       Nothing)
  }

  function OnCommit(nd: Replica, v: Vote, f: nat, leader: bool): (Replica, Sends)
    requires nd.chain != []
  {
    if v.seq_ < nd.seqId then (nd, Nothing)
    else
      var votes := VotesFor(nd.commits, v.digest) + {v};
      var counted := nd.(commits := nd.commits[v.digest := votes]);
      if |votes| >= 2 * f + 1 && v.digest !in nd.replied then Conclude(counted, v, leader) else (counted, Nothing)
  }

  /** The requests the leader still has for a range of heights, up to the first gap. */
  function OldRequests(nd: Replica, start: nat, end: nat): seq<Request>
    decreases end + 1 - start
  {
    if start > end || start !in nd.heights || nd.heights[start] !in nd.pool then []
    else [nd.pool[nd.heights[start]]] + OldRequests(nd, start + 1, end)
  }

  function AddBlocks(chain: seq<Block>, requests: seq<Request>): seq<Block>
    requires chain != []
    ensures AddBlocks(chain, requests) != []
  {
    if requests == [] then chain
    else AddBlock(AddBlocks(chain, requests[..|requests| - 1]), requests[|requests| - 1].block)
  }

  function StoreAll(nd: Replica, requests: seq<Request>, start: nat): (r: Replica)
    ensures r.chain == nd.chain
  {
    if requests == [] then nd
    else
      var last := |requests| - 1;
      var before := StoreAll(nd, requests[..last], start);
      Store(before, requests[last], start + last).(replied := before.replied + {Of(requests[last])})
  }

  /** Blocks are appended only if the answer is complete; the sequence number moves either way. */
  function CatchUp(nd: Replica, old_: Old): (r: Replica)
    requires nd.chain != []
    ensures r.chain != []
  {
    var added := if old_.end + 1 - old_.start == |old_.requests| then nd.(chain := AddBlocks(nd.chain, old_.requests))
        else nd;
    StoreAll(added, old_.requests, old_.start).(seqId := old_.end + 1)
  }

  /** The request for the next sequence number, if it is already here, is prepared. */
  function Resume(nd: Replica): (Replica, Sends)
    requires nd.chain != []
  {
    if nd.seqId in nd.heights && nd.heights[nd.seqId] in nd.pool then
      var r := nd.pool[nd.heights[nd.seqId]];
      if IsValidBlock(nd.chain, r.block) then
        (nd.(pool := nd.pool[Of(r) := r]), Broadcast(PrepareVote, Of(r), nd.seqId))
      else (nd, Nothing)
    else (nd, Nothing)
  }

  function OnOld(nd: Replica, old_: Old): (Replica, Sends)
    requires nd.chain != []
  {
    Resume(CatchUp(nd, old_))
  }

  // ----- the shard -----

  /** `proposals` are the leader's, in order; `cast` every vote sent; `seen` and `got` what each
      node has been handed.  A vote that is never handed over is lost. */
  datatype Shard = Shard(
    n: nat,
    f: nat,
    byz: set<NodeId>,
    catchUp: bool,
    nodes: seq<Replica>,
    proposals: seq<PrePrepare>,
    cast: set<Vote>,
    seen: seq<set<Vote>>,
    got: seq<set<nat>>,
    asks: set<Ask>,
    olds: set<Old>)

  const LEADER: NodeId := 0

  datatype Action =
    | Propose(body: seq<Tx>, time: nat)
    | DeliverPrePrepare(i: NodeId, j: nat, copy: nat)
    | DeliverVote(i: NodeId, v: Vote, copy: nat)
    | Forge(v: Vote)
    | Answer(ask: Ask)
    | DeliverOld(old_: Old, copy: nat)

  ghost predicate Shape(g: Shard) {
    && |g.nodes| == |g.seen| == |g.got| == g.n > 0
    && LEADER !in g.byz
    && (forall i | 0 <= i < g.n :: g.nodes[i].chain != [])
    && |g.byz| <= g.f
  }

  ghost predicate Fresh(g: Shard, copy: nat) {
    forall v | v in g.cast :: v.copy != copy
  }

  ghost predicate Enabled(g: Shard, a: Action)
    requires Shape(g)
  {
    match a
    case Propose(body, time) => !g.nodes[LEADER].locked
    case DeliverPrePrepare(i, j, copy) =>
      && i < g.n && i !in g.byz && j < |g.proposals| && j !in g.got[i] && Fresh(g, copy)
      && (g.nodes[i].stage >= 1 || g.proposals[j].seq_ < g.nodes[i].seqId)
    case DeliverVote(i, v, copy) =>
      && i < g.n && i !in g.byz && v in g.cast && v !in g.seen[i] && Fresh(g, copy)
      && (g.nodes[i].stage >= (if v.phase.PrepareVote? then 2 else 3) || v.seq_ < g.nodes[i].seqId)
    case Forge(v) =>
      // ASSUMPTION: faulty nodes only vote, with one message for each phase and digest; a
      // pre-prepare comes from the leader (the handler itself does not look at the sender)
      v.from in g.byz && v.from < g.n && forall w | w in g.cast :: !SameBallot(v, w)
    case Answer(ask) => g.catchUp && ask in g.asks
    case DeliverOld(old_, copy) => old_ in g.olds && old_.to < g.n && old_.to !in g.byz && Fresh(g, copy)
  }

  predicate SameBallot(v: Vote, w: Vote) {
    v.phase == w.phase && v.from == w.from && v.digest == w.digest
  }

  /** The effect of what node i sends. */
  function Sent(g: Shard, i: NodeId, s: Sends, copy: nat): Shard {
    match s
    case Nothing => g
    case Broadcast(phase, d, seq_) => g.(cast := g.cast + {Vote(phase, i, d, seq_, copy)})
    case AskLeader(start, end) => if g.catchUp then g.(asks := g.asks + {Ask(i, start, end)}) else g
  }

  ghost function Next(g: Shard, a: Action): Shard
    requires Shape(g) && Enabled(g, a)
  {
    match a
    case Propose(body, time) =>
      var nd := g.nodes[LEADER];
      var r := NextRequest(nd, body, time);
      g.(nodes := g.nodes[LEADER := OnPropose(nd, r)], proposals := g.proposals + [PrePrepare(r, Of(r), nd.seqId)])
    case DeliverPrePrepare(i, j, copy) =>
      var (nd, s) := OnPrePrepare(g.nodes[i], g.proposals[j]);
      Sent(g.(nodes := g.nodes[i := nd], got := g.got[i := g.got[i] + {j}]), i, s, copy)
    case DeliverVote(i, v, copy) =>
      var (nd, s) := if v.phase.PrepareVote? then OnPrepare(g.nodes[i], v, g.f)
          else OnCommit(g.nodes[i], v, g.f, i == LEADER);
      Sent(g.(nodes := g.nodes[i := nd], seen := g.seen[i := g.seen[i] + {v}]), i, s, copy)
    case Forge(v) => g.(cast := g.cast + {v})
    case Answer(ask) =>
      g.(asks := g.asks - {ask},
         olds := g.olds + {Old(ask.from, ask.start, ask.end, OldRequests(g.nodes[LEADER], ask.start, ask.end))})
    case DeliverOld(old_, copy) =>
      var (nd, s) := OnOld(g.nodes[old_.to], old_);
      Sent(g.(nodes := g.nodes[old_.to := nd], olds := g.olds - {old_}), old_.to, s, copy)
  }

  ghost predicate Init(g: Shard) {
    && Shape(g)
    && (forall i | 0 <= i < g.n ::
          && g.nodes[i] == Replica(1, map[], map[], map[], map[], {}, {}, 1, [Genesis], false, [])
          && g.seen[i] == {} && g.got[i] == {})
    && g.proposals == [] && g.cast == {} && g.asks == {} && g.olds == {}
  }
}
