/** What shards report to the supervisor: the graph it builds from their blocks has no loop. */
module Reports {
  import opened Core
  import opened ClpaSpec
  import opened ClpaMoves
  import opened Protocol
  import opened ProtocolInv
  import opened ProtocolSafety
  import opened Bags
  import opened BagRuns
  import opened Supervisor

  /** The supervisor reads no transfer of an account to itself. */
  predicate HasTwoEnds(tx: Tx) {
    tx.sender != tx.recipient
  }

  /** In every run of such transfers, whatever part of a block's body is reported, it keeps a
      graph without loops free of them; so the supervisor stays `loopFree`. */
  lemma {:induction false} ReportsKeepLoopFree(states: seq<System>, acts: seq<Action>, n: nat, beta: nat, i: nat,
      s: ShardId,
                            txs: seq<Tx>, edges: seq<Edge>)
    requires n > 0 && IsRun(states, acts, n, beta) && InjectsKeep(acts, HasTwoEnds) && i < |states|
    requires s < |states[i].shards| && states[i].shards[s].phase.Proposed?
    requires (forall k | 0 <= k < |txs| :: txs[k] in states[i].shards[s].phase.body) && NoLoops(edges)
    ensures DifferentEnds(txs) && NoLoops(edges + EdgesOf(txs))
  {
    RunKeeps(states, acts, n, beta, i, HasTwoEnds);
    BodyKeeps(states[i], s, HasTwoEnds);
    hide Inv, Bag, IsRun, NoLoops, EdgesOf;
    NoSelfTransfers(edges, txs);
  }
}
