/** The consensus node as a program: each handler does to its fields what the protocol says. */
module PbftNode {
  import opened Core
  import opened Pbft

  lemma {:induction false} StoreNext(nd: Replica, requests: seq<Request>, k: nat, start: nat)
    requires k < |requests|
    ensures var before := StoreAll(nd, requests[..k], start);
            StoreAll(nd, requests[..k + 1], start)
            == Store(before, requests[k], start + k).(replied := before.replied + {Of(requests[k])})
  {
    assert requests[..k + 1][..k] == requests[..k];
  }

  /** A tally with one more message under its digest. */
  function Tallied(votes: Votes, v: Vote): Votes {
    votes[v.digest := VotesFor(votes, v.digest) + {v}]
  }

  class PbftConsensusNode {
    const nodeId: NodeId
    const view: NodeId
    const maliciousNums: nat
    var sequenceId: nat
    var requestPool: map<Digest, Request>
    var height2Digest: map<nat, Digest>
    var cntPrepareConfirm: Votes
    var cntCommitConfirm: Votes
    var isCommitBroadcast: set<Digest>
    var isReply: set<Digest>
    var pbftStage: int
    var chain: seq<Block>
    var sequenceLocked: bool
    ghost var executed: seq<Digest>

    constructor (id: NodeId, view_: NodeId, nodeNums: nat)
      requires nodeNums > 0
      ensures Valid() && nodeId == id && view == view_ && 3 * maliciousNums < nodeNums <= 3 * maliciousNums + 3
      ensures View() == Replica(1, map[], map[], map[], map[], {}, {}, 1, [Genesis], false, [])
    {
      nodeId, view, maliciousNums := id, view_, (nodeNums - 1) / 3;
      sequenceId := 1;
      requestPool, height2Digest := map[], map[];
      cntPrepareConfirm, cntCommitConfirm := map[], map[];
      isCommitBroadcast, isReply := {}, {};
      pbftStage := 1;
      chain := [Genesis];
      sequenceLocked := false;
      executed := [];
    }

    ghost predicate Valid()
      reads this
    {
      chain != []
    }

    ghost function View(): Replica
      reads this
    {
      Replica(sequenceId, requestPool, height2Digest, cntPrepareConfirm, cntCommitConfirm, isCommitBroadcast,
              isReply, pbftStage, chain, sequenceLocked, executed)
    }

    method Propose(body: seq<Tx>, time: nat) returns (pp: PrePrepare)
      requires Valid() && nodeId == view && !sequenceLocked
      modifies this
      ensures Valid()
      ensures pp == PrePrepare(NextRequest(old(View()), body, time), Of(pp.request), old(sequenceId))
      ensures View() == OnPropose(old(View()), pp.request)
    {
      sequenceLocked := true;
      var head := chain[|chain| - 1];
      var r := Request(Block(head, Number(head) + 1, true, body), time);
      requestPool := requestPool[Of(r) := r];
      pp := PrePrepare(r, Of(r), sequenceId);
      height2Digest := height2Digest[sequenceId := Of(r)];
      pbftStage := 2;
    }

    /** Appends a block whose height and parent fit. */
    method AddBlock(b: Block)
      requires Valid()
      modifies `chain
      ensures Valid() && chain == Pbft.AddBlock(old(chain), b)
      ensures chain == old(chain) || (chain == old(chain) + [b] && b.Block? && b.parent == old(chain)[|old(chain)| - 1])
    {
      var head := chain[|chain| - 1];
      if b.Genesis? || b.number != Number(head) + 1 {
        return;
      }
      if b.parent != head {
        return;
      }
      chain := chain + [b];
    }

    method HandlePrePrepare(pp: PrePrepare) returns (s: Sends)
      requires Valid()
      modifies this
      ensures Valid() && (View(), s) == OnPrePrepare(old(View()), pp)
    {
      s := Nothing;
      if pp.seq_ < sequenceId {
        return;
      }
      var flag := false;
      if Of(pp.request) != pp.digest {
        return;
      } else if sequenceId < pp.seq_ {
        requestPool := requestPool[Of(pp.request) := pp.request];
        height2Digest := height2Digest[pp.seq_ := Of(pp.request)];
      } else {
        flag := IsValidBlock(chain, pp.request.block);
        requestPool := requestPool[Of(pp.request) := pp.request];
        height2Digest := height2Digest[pp.seq_ := Of(pp.request)];
      }
      if flag {
        s := Broadcast(PrepareVote, pp.digest, pp.seq_);
        pbftStage := pbftStage + 1;
      }
    }

    /** Counts a message, by identity. */
    method Set2DMap(isPrepare: bool, v: Vote)
      modifies `cntPrepareConfirm, `cntCommitConfirm
      ensures isPrepare ==> cntCommitConfirm == old(cntCommitConfirm)
                            && cntPrepareConfirm == Tallied(old(cntPrepareConfirm), v)
      ensures !isPrepare ==> cntPrepareConfirm == old(cntPrepareConfirm)
                             && cntCommitConfirm == Tallied(old(cntCommitConfirm), v)
    {
      if isPrepare {
        if v.digest !in cntPrepareConfirm {
          cntPrepareConfirm := cntPrepareConfirm[v.digest := {}];
        }
        cntPrepareConfirm := cntPrepareConfirm[v.digest := cntPrepareConfirm[v.digest] + {v}];
      } else {
        if v.digest !in cntCommitConfirm {
          cntCommitConfirm := cntCommitConfirm[v.digest := {}];
        }
        cntCommitConfirm := cntCommitConfirm[v.digest := cntCommitConfirm[v.digest] + {v}];
      }
    }

    method HandlePrepare(v: Vote) returns (s: Sends)
      requires Valid()
      modifies this
      ensures Valid() && (View(), s) == OnPrepare(old(View()), v, maliciousNums)
    {
      s := Nothing;
      if v.seq_ < sequenceId {
        return;
      }
      if v.digest !in requestPool {
        return;
      } else if sequenceId < v.seq_ {
        return;
      }
      Set2DMap(true, v);
      var cnt := |cntPrepareConfirm[v.digest]|;
      if cnt >= 2 * maliciousNums + 1 && v.digest !in isCommitBroadcast {
        s := Broadcast(CommitVote, v.digest, v.seq_);
        isCommitBroadcast := isCommitBroadcast + {v.digest};
        pbftStage := pbftStage + 1;
      }
    }

    method HandleCommit(v: Vote) returns (s: Sends)
      requires Valid()
      modifies this
      ensures Valid() && (View(), s) == OnCommit(old(View()), v, maliciousNums, nodeId == view)
    {
      s := Nothing;
      if v.seq_ < sequenceId {
        return;
      }
      Set2DMap(false, v);
      var cnt := |cntCommitConfirm[v.digest]|;
      hide Pbft.Conclude;
      if cnt >= 2 * maliciousNums + 1 && v.digest !in isReply {
        s := Conclude(v);
      }
    }

    method Conclude(v: Vote) returns (s: Sends)
      requires Valid()
      modifies this
      ensures Valid() && (View(), s) == Pbft.Conclude(old(View()), v, nodeId == view)
    {
      s := Nothing;
      if v.digest !in requestPool {
        isReply := isReply + {v.digest};
        s := AskLeader(sequenceId + 1, v.seq_);
      } else {
        AddBlock(requestPool[v.digest].block);
        executed := executed + [v.digest];
        isReply := isReply + {v.digest};
        sequenceId := sequenceId + 1;
      }
      pbftStage := 1;
      if nodeId == view {
        sequenceLocked := false;
      }
    }

    method HandleRequestOldSeq(start: nat, end: nat) returns (old_: seq<Request>)
      ensures old_ == OldRequests(View(), start, end)
    {
      old_ := [];
      var height := start;
      while height <= end
        invariant start <= height
        invariant OldRequests(View(), start, end) == old_ + OldRequests(View(), height, end)
      {
        if height !in height2Digest {
          break;
        }
        if height2Digest[height] !in requestPool {
          break;
        }
        old_ := old_ + [requestPool[height2Digest[height]]];
        height := height + 1;
      }
    }

    method HandleForSequentialRequest(old_: Old)
      requires Valid()
      modifies `chain
      ensures Valid()
      ensures chain == if old_.end + 1 - old_.start == |old_.requests| then AddBlocks(old(chain), old_.requests)
              else old(chain)
    {
      if old_.end + 1 - old_.start == |old_.requests| {
        for k := 0 to |old_.requests|
          invariant Valid() && chain == AddBlocks(old(chain), old_.requests[..k])
        {
          AddBlock(old_.requests[k].block);
          assert old_.requests[..k + 1][..k] == old_.requests[..k];
        }
        assert old_.requests[..|old_.requests|] == old_.requests;
      }
    }

    method StoreOld(old_: Old)
      requires Valid()
      modifies `requestPool, `height2Digest, `isReply
      ensures Valid() && View() == StoreAll(old(View()), old_.requests, old_.start)
    {
      for k := 0 to |old_.requests|
        invariant Valid() && View() == StoreAll(old(View()), old_.requests[..k], old_.start)
      {
        var r := old_.requests[k];
        requestPool := requestPool[Of(r) := r];
        height2Digest := height2Digest[old_.start + k := Of(r)];
        isReply := isReply + {Of(r)};
        StoreNext(old(View()), old_.requests, k, old_.start);
        hide StoreAll;
      }
      assert old_.requests[..|old_.requests|] == old_.requests;
    }

    method HandleSendOldSeq(old_: Old) returns (s: Sends)
      requires Valid()
      modifies this
      ensures Valid() && (View(), s) == OnOld(old(View()), old_)
    {
      s := Nothing;
      HandleForSequentialRequest(old_);
      StoreOld(old_);
      sequenceId := old_.end + 1;
      s := Resume();
      hide StoreAll, AddBlocks, Pbft.Resume;
    }

    /** Prepares the next request if it is already here. */
    method Resume() returns (s: Sends)
      requires Valid()
      modifies `requestPool
      ensures Valid() && (View(), s) == Pbft.Resume(old(View()))
    {
      s := Nothing;
      if sequenceId in height2Digest && height2Digest[sequenceId] in requestPool {
        var r := requestPool[height2Digest[sequenceId]];
        if IsValidBlock(chain, r.block) {
          requestPool := requestPool[Of(r) := r];
          s := Broadcast(PrepareVote, Of(r), sequenceId);
        }
      }
    }
  }
}
