/** What catching up does: the answer of the leader, the blocks it adds to a lagging replica, and the
    block a replica never asks for. */
module CatchUps {
  import opened Core
  import opened Pbft
  import opened PbftInv

  /** The request the node keeps for height h. */
  function Kept(nd: Replica, h: nat): Option<Request> {
    if h in nd.heights && nd.heights[h] in nd.pool then Some(nd.pool[nd.heights[h]]) else None
  }

  /** Entry k of r is the request the node keeps for height start + k. */
  predicate KeptAt(nd: Replica, start: nat, end: nat, r: seq<Request>, k: nat)
    requires k < |r|
  {
    start + k <= end && Kept(nd, start + k) == Some(r[k])
  }

  /** For consecutive heights from `start`, r lists the request the node keeps for each; it stops only
      at the end or at the first height the node keeps none for. */
  ghost predicate Lists(nd: Replica, start: nat, end: nat, r: seq<Request>) {
    && (forall k | 0 <= k < |r| :: KeptAt(nd, start, end, r, k))
    && (start + |r| > end || Kept(nd, start + |r|) == None)
  }

  lemma {:induction false} AnswerInFields(nd: Replica, start: nat, end: nat)
    ensures Lists(nd, start, end, OldRequests(nd, start, end))
    decreases end + 1 - start
  {
    if start <= end && Kept(nd, start).Some? {
      AnswerInFields(nd, start + 1, end);
      ListsOneMore(nd, start, end, OldRequests(nd, start + 1, end));
    }
  }

  lemma ListsOneMore(nd: Replica, start: nat, end: nat, rest: seq<Request>)
    requires start <= end && Kept(nd, start).Some? && Lists(nd, start + 1, end, rest)
    ensures Lists(nd, start, end, [Kept(nd, start).value] + rest)
  {
    hide Kept;
    var r := [Kept(nd, start).value] + rest;
    forall k | 0 <= k < |r|
      ensures KeptAt(nd, start, end, r, k)
    {
      assert k > 0 ==> KeptAt(nd, start + 1, end, rest, k - 1) && start + k == start + 1 + (k - 1);
    }
    assert start + |r| == start + 1 + |rest|;
  }

  /** The requests the leader proposed for the heights from `start`, k of them. */
  function Asked(proposals: seq<PrePrepare>, start: nat, k: nat): (r: seq<Request>)
    requires 1 <= start && start - 1 + k <= |proposals|
    ensures |r| == k
  {
    seq(k, i requires 0 <= i < k => proposals[start - 1 + i].request)
  }

  /** Adding them to a chain of the leader's blocks extends it as far as they reach if they start at
      most one above its last block, and otherwise not at all. */
  lemma {:induction false} AnswerExtends(proposals: seq<PrePrepare>, chain: seq<Block>, start: nat, k: nat)
    requires LinkInv(proposals) && chain != [] && chain <= Proposed(proposals)
    requires 1 <= start && start - 1 + k <= |proposals|
    ensures AddBlocks(chain, Asked(proposals, start, k))
            == if start <= |chain| < start + k then Proposed(proposals)[..start + k] else chain
  {
    hide Proposed, LinkInv, AddBlock;
    if k > 0 {
      AnswerExtends(proposals, chain, start, k - 1);
      var asked := Asked(proposals, start, k);
      assert asked[..k - 1] == Asked(proposals, start, k - 1);
      var before := AddBlocks(chain, asked[..k - 1]);
      assert before <= Proposed(proposals);
      OneFits(proposals, before, start + k - 1);
    }
  }

  lemma {:induction false} OneFits(proposals: seq<PrePrepare>, chain: seq<Block>, h: nat)
    requires LinkInv(proposals) && chain != [] && chain <= Proposed(proposals) && 1 <= h <= |proposals|
    ensures AddBlock(chain, proposals[h - 1].request.block)
            == if h == |chain| then Proposed(proposals)[..h + 1] else chain
  {
    ProposedAt(proposals, h - 1);
    ProposedNumber(proposals, |chain| - 1);
    ProposedNumber(proposals, h);
    assert chain[|chain| - 1] == Proposed(proposals)[|chain| - 1];
    if h == |chain| {
      assert chain + [proposals[h - 1].request.block] == Proposed(proposals)[..h + 1];
    }
  }

  /** A replica that is handed a complete answer has the leader's blocks up to its end if the answer
      starts at or below the replica's next block, and otherwise none of them; its sequence number
      moves behind the answer in any case. */
  lemma {:induction false} CatchUpExtends(proposals: seq<PrePrepare>, nd: Replica, to: NodeId, start: nat, end: nat)
    requires LinkInv(proposals) && nd.chain != [] && nd.chain <= Proposed(proposals)
    requires 1 <= start <= end + 1 <= |proposals| + 1
    ensures var nd' := CatchUp(nd, Old(to, start, end, Asked(proposals, start, end + 1 - start)));
            && nd'.seqId == end + 1
            && nd'.chain == if start <= |nd.chain| <= end then Proposed(proposals)[..end + 1] else nd.chain
  {
    AnswerExtends(proposals, nd.chain, start, end + 1 - start);
  }

  /** A replica asks from the height above its sequence number.  So, when its chain is as long as its
      sequence number says, the answer adds no block: the one it lacks was not asked for. */
  lemma {:induction false} OwnAskMissesOne(proposals: seq<PrePrepare>, nd: Replica, v: Vote, f: nat, leader: bool,
      to: NodeId)
    requires LinkInv(proposals) && nd.chain != [] && nd.chain <= Proposed(proposals) && |nd.chain| == nd.seqId
    requires OnCommit(nd, v, f, leader).1.AskLeader? && nd.seqId <= v.seq_ <= |proposals|
    ensures var (nd1, s) := OnCommit(nd, v, f, leader);
            && s.start == nd.seqId + 1 && s.end == v.seq_ && nd1.chain == nd.chain
            && var nd2 := CatchUp(nd1, Old(to, s.start, s.end, Asked(proposals, s.start, s.end + 1 - s.start)));
               nd2.chain == nd.chain && nd2.seqId == v.seq_ + 1
  {
    var (nd1, s) := OnCommit(nd, v, f, leader);
    assert s.start == nd.seqId + 1 && s.end == v.seq_ && nd1.chain == nd.chain;
    CatchUpExtends(proposals, nd1, to, s.start, s.end);
  }
}
