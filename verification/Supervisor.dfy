/** The supervisor of the CLPA deployments: it injects transactions, collects the executed ones
    as edges, and from time to time publishes a new placement. */
module Supervisor {
  import opened Core
  import opened ClpaSpec
  import opened ClpaMoves
  import opened Clpa
  import opened ProtocolInv

  /** An injection message: transactions for one shard. */
  datatype InjectTxs = InjectTxs(txs: seq<Tx>, toShard: ShardId)

  /** All transactions that a list of messages carries to a shard. */
  function Delivered(sent: seq<InjectTxs>, sid: ShardId): seq<Tx> {
    if sent == [] then []
    else Delivered(sent[..|sent| - 1], sid) + if sent[|sent| - 1].toShard == sid then sent[|sent| - 1].txs else []
  }

  /** The transactions whose sender lives in a shard, in order. */
  function Routed(txs: seq<Tx>, m: Placement, n: nat, sid: ShardId): seq<Tx>
    requires n > 0
  {
    if txs == [] then []
    else
      var tx := txs[|txs| - 1];
      Routed(txs[..|txs| - 1], m, n, sid) + if Place(m, n, tx.sender) == sid then [tx] else []
  }

  /** In fields: the transactions for a shard are those whose sender's account the published maps,
      applied in order to the default, place there, in order. */
  lemma {:induction false} RoutedInFields(txs: seq<Tx>, m: Placement, maps: seq<Placement>, n: nat, sid: ShardId)
    returns (at: seq<nat>)
    requires n > 0 && forall a: Address :: Place(m, n, a) == HomeAt(maps, n, |maps|, a)
    ensures |at| == |Routed(txs, m, n, sid)|
    ensures forall i, j | 0 <= i < j < |at| :: at[i] < at[j]
    ensures forall i | 0 <= i < |at| :: at[i] < |txs| && txs[at[i]] == Routed(txs, m, n, sid)[i]
    ensures forall j: nat | j < |txs| :: j in at <==> HomeAt(maps, n, |maps|, txs[j].sender) == sid
  {
    hide HomeAt, Place;
    at := [];
    if txs != [] {
      var last := |txs| - 1;
      at := RoutedInFields(txs[..last], m, maps, n, sid);
      var before := at;
      if HomeAt(maps, n, |maps|, txs[last].sender) == sid {
        at := at + [last];
      }
      forall j: nat | j < |txs|
        ensures j in at <==> HomeAt(maps, n, |maps|, txs[j].sender) == sid
      {
        if j < last {
          assert txs[..last][j] == txs[j];
          assert j in before <==> HomeAt(maps, n, |maps|, txs[j].sender) == sid;
        }
      }
    }
  }

  function EdgesOf(txs: seq<Tx>): seq<Edge> {
    if txs == [] then []
    else EdgesOf(txs[..|txs| - 1]) + [Edge(txs[|txs| - 1].sender, txs[|txs| - 1].recipient)]
  }

  /** The edge of a transfer joins its sender and its recipient. */
  lemma {:induction false} EdgesInFields(txs: seq<Tx>)
    ensures |EdgesOf(txs)| == |txs|
    ensures forall i | 0 <= i < |txs| :: EdgesOf(txs)[i].u == txs[i].sender && EdgesOf(txs)[i].v == txs[i].recipient
  {
    if txs != [] {
      EdgesInFields(txs[..|txs| - 1]);
    }
  }

  /** Transfers between different accounts never make an account its own neighbour. */
  lemma {:induction false} NoSelfTransfers(edges: seq<Edge>, txs: seq<Tx>)
    requires NoLoops(edges) && DifferentEnds(txs)
    ensures NoLoops(edges + EdgesOf(txs))
  {
    if txs == [] {
      assert edges + EdgesOf(txs) == edges;
    } else {
      var last := |txs| - 1;
      NoSelfTransfers(edges, txs[..last]);
      var before := edges + EdgesOf(txs[..last]);
      var e := Edge(txs[last].sender, txs[last].recipient);
      assert edges + EdgesOf(txs) == before + [e];
      assert (before + [e])[..|before|] == before;
    }
  }

  ghost predicate DifferentEnds(txs: seq<Tx>) {
    forall i | 0 <= i < |txs| :: txs[i].sender != txs[i].recipient
  }

  lemma {:induction false} DeliveredAppend(sent: seq<InjectTxs>, m: InjectTxs, sid: ShardId)
    ensures Delivered(sent + [m], sid) == Delivered(sent, sid) + if m.toShard == sid then m.txs else []
  {
    assert (sent + [m])[..|sent|] == sent;
  }

  /** The placement the published maps describe, one more map applied. */
  lemma {:induction false} HomeAfter(maps: seq<Placement>, m: Placement, n: nat, a: Address)
    requires n > 0
    ensures HomeAt(maps + [m], n, |maps| + 1, a) == if a in m then m[a] else HomeAt(maps, n, |maps|, a)
  {
    HomeStable(maps, m, n, |maps|, a);
  }

  lemma OneMoreEdge(edges: seq<Edge>, tx: Tx)
    ensures NoLoops(edges) && tx.sender != tx.recipient ==> NoLoops(edges + [Edge(tx.sender, tx.recipient)])
  {
    if NoLoops(edges) && tx.sender != tx.recipient {
      NoSelfTransfers(edges, [tx]);
      assert EdgesOf([tx]) == [Edge(tx.sender, tx.recipient)];
    }
  }

  ghost predicate Addressed(sent: seq<InjectTxs>, n: nat) {
    forall i | 0 <= i < |sent| :: sent[i].toShard < n
  }

  class CLPACommittee {
    const shardNum: nat
    const injectSpeed: nat
    var graph: CLPAState
    var modifiedMap: Placement
    var curEpoch: int
    /** The maps published so far. */
    ghost var maps: seq<Placement>
    /** No transfer of an account to itself has been reported. */
    ghost var loopFree: bool

    constructor (n: nat, speed: nat)
      requires n > 0 && speed > 0
      ensures Valid() && shardNum == n && injectSpeed == speed && maps == [] && fresh(graph) && loopFree
    {
      shardNum, injectSpeed := n, speed;
      graph := new CLPAState(0.5, 100, n, map[]);
      modifiedMap := map[];
      curEpoch := 0;
      maps := [];
      loopFree := true;
    }

    ghost predicate Valid()
      reads this, graph
    {
      && InRange()
      && graph.shardNum == shardNum && graph.GraphOk() && graph.PopulationOk()
      && Published()
      && Consistent()
      && (loopFree ==> NoLoops(graph.edges))
    }

    /** Routing follows the published maps. */
    ghost predicate Published()
      reads `modifiedMap, `maps
      requires shardNum > 0
    {
      forall a: Address :: Place(modifiedMap, shardNum, a) == HomeAt(maps, shardNum, |maps|, a)
    }

    /** The labels in the graph are the shards that transactions are routed to. */
    ghost predicate Consistent()
      reads this, graph
      requires shardNum > 0
    {
      && (forall a | a in graph.partitionMap :: graph.partitionMap[a] == Place(modifiedMap, shardNum, a))
      && modifiedMap.Keys <= graph.partitionMap.Keys
    }

    method FetchModifiedMap(key: Address) returns (sid: ShardId)
      requires Valid()
      ensures sid == Place(modifiedMap, shardNum, key) == HomeAt(maps, shardNum, |maps|, key) && sid < shardNum
      ensures key in graph.vertexSet ==> sid == graph.partitionMap[key]
    {
      HomeInRange(maps, shardNum, |maps|, key);
      assert Place(modifiedMap, shardNum, key) == HomeAt(maps, shardNum, |maps|, key);
      if key !in modifiedMap {
        sid := Addr2Shard(key, shardNum);
      } else {
        sid := modifiedMap[key];
      }
    }

    /** Every transaction goes, in order and exactly once, to the shard of its sender. */
    method TxSending(txlist: seq<Tx>) returns (sent: seq<InjectTxs>)
      requires Valid()
      ensures forall sid | 0 <= sid < shardNum :: Delivered(sent, sid) == Routed(txlist, modifiedMap, shardNum, sid)
      ensures forall i | 0 <= i < |sent| :: sent[i].toShard < shardNum
    {
      sent := [];
      var sendToShard: map<ShardId, seq<Tx>> := map[];
      assert txlist[..0] == [];
      SplitInit(modifiedMap, shardNum);
      hide Split;
      var idx := 0;
      while true
        invariant idx <= |txlist| && Addressed(sent, shardNum) && (idx == 0 ==> sendToShard == map[])
        invariant Split(sent, sendToShard, txlist[..idx], modifiedMap, shardNum)
        decreases |txlist| - idx
      {
        hide Valid, Addressed;
        sent, sendToShard := FlushBatch(txlist, idx, sent, sendToShard);
        if idx == |txlist| {
          assert txlist[..idx] == txlist;
          break;
        }
        sendToShard := QueueTx(txlist, idx, sent, sendToShard);
        idx := idx + 1;
      }
      SplitDone(sent, txlist, modifiedMap, shardNum);
    }

    method FlushBatch(txlist: seq<Tx>, idx: nat, sent0: seq<InjectTxs>, waiting: map<ShardId, seq<Tx>>)
      returns (sent: seq<InjectTxs>, left: map<ShardId, seq<Tx>>)
      requires Valid() && idx <= |txlist| && Addressed(sent0, shardNum) && (idx == 0 ==> waiting == map[])
      requires Split(sent0, waiting, txlist[..idx], modifiedMap, shardNum)
      ensures Addressed(sent, shardNum) && Split(sent, left, txlist[..idx], modifiedMap, shardNum)
      ensures idx == |txlist| ==> left == map[]
    {
      hide Split, Flushed, Addressed;
      sent, left := sent0, waiting;
      if idx > 0 && (idx % injectSpeed == 0 || idx == |txlist|) {
        sent := SendAll(sent, left);
        SplitFlush(sent0, waiting, sent, txlist[..idx], modifiedMap, shardNum);
        left := map[];
      }
    }

    method QueueTx(txlist: seq<Tx>, idx: nat, ghost sent: seq<InjectTxs>, waiting: map<ShardId, seq<Tx>>)
      returns (more: map<ShardId, seq<Tx>>)
      requires Valid() && idx < |txlist| && Split(sent, waiting, txlist[..idx], modifiedMap, shardNum)
      ensures Split(sent, more, txlist[..idx + 1], modifiedMap, shardNum)
    {
      hide Split, HomeAt;
      var sid := FetchModifiedMap(txlist[idx].sender);
      SplitStep(sent, waiting, txlist, idx, modifiedMap, shardNum);
      more := waiting[sid := Waiting(waiting, sid) + [txlist[idx]]];
    }

    method SendAll(sent0: seq<InjectTxs>, waiting: map<ShardId, seq<Tx>>) returns (sent: seq<InjectTxs>)
      requires Addressed(sent0, shardNum)
      ensures Flushed(sent0, waiting, sent, shardNum) && Addressed(sent, shardNum)
    {
      hide Delivered;
      sent := sent0;
      for s := 0 to shardNum
        invariant FlushedBelow(sent0, waiting, sent, shardNum, s)
        invariant Addressed(sent, shardNum)
      {
        FlushStep(sent0, waiting, sent, shardNum, s);
        sent := sent + [InjectTxs(Waiting(waiting, s), s)];
      }
    }

    /** Executed transfers become edges; the labels of new vertices are where they are routed. */
    method HandleBlockInfo(inner: seq<Tx>, relay2: seq<Tx>, bodyLength: nat, epoch: nat)
      requires Valid()
      modifies `curEpoch, `loopFree, graph
      ensures Valid() && graph == old(graph)
      ensures loopFree == (old(loopFree) && (bodyLength == 0 || (DifferentEnds(inner) && DifferentEnds(relay2))))
      ensures curEpoch == if old(curEpoch) == epoch - 1 then epoch else old(curEpoch)
      ensures graph.edges == old(graph.edges) + if bodyLength == 0 then [] else EdgesOf(inner) + EdgesOf(relay2)
    {
      hide Valid, EdgesOf;
      Bump(epoch);
      if bodyLength == 0 {
        return;
      }
      AddEdges(inner);
      AddEdges(relay2);
    }

    method Bump(epoch: nat)
      requires Valid()
      modifies `curEpoch
      ensures Valid() && curEpoch == if old(curEpoch) == epoch - 1 then epoch else old(curEpoch)
    {
      if curEpoch == epoch - 1 {
        curEpoch := epoch;
      }
    }

    method AddTransfer(tx: Tx)
      requires Valid()
      modifies `loopFree, graph
      ensures Valid() && graph.edges == old(graph.edges) + [Edge(tx.sender, tx.recipient)]
      ensures loopFree == (old(loopFree) && tx.sender != tx.recipient)
    {
      hide HomeAt, Published, Addr2Shard, Nbrs, NoLoops;
      ghost var edges := graph.edges;
      graph.AddEdge(tx.sender, tx.recipient);
      loopFree := loopFree && tx.sender != tx.recipient;
      OneMoreEdge(edges, tx);
    }

    method AddEdges(txs: seq<Tx>)
      requires Valid()
      modifies `loopFree, graph
      ensures Valid() && graph.edges == old(graph.edges) + EdgesOf(txs)
      ensures loopFree == (old(loopFree) && DifferentEnds(txs))
    {
      hide Valid;
      for i := 0 to |txs|
        invariant Valid() && graph.edges == old(graph.edges) + EdgesOf(txs[..i])
        invariant loopFree == (old(loopFree) && DifferentEnds(txs[..i]))
      {
        AddTransfer(txs[i]);
        assert txs[..i + 1][..i] == txs[..i];
      }
      assert txs[..|txs|] == txs;
    }

    /** One partition round: the published map is the change the algorithm made, and afterwards
        routing, the published maps and the labels the algorithm ended with agree.  As long as no
        transfer of an account to itself was reported, every move went where the scores of exact
        counters send it. */
    method PartitionRound()
      returns (mmap: Placement, ghost final: Placement, ghost log: seq<Move>, ghost orders: seq<seq<Address>>)
      requires Valid()
      modifies this, graph
      ensures Valid() && fresh(graph) && graph.edges == [] && maps == old(maps) + [mmap] && curEpoch == old(curEpoch)
      ensures loopFree == old(loopFree) && final == Replay(old(graph.partitionMap), log)
      ensures loopFree ==> AllJustified(old(graph.vertexSet), old(graph.edges), old(graph.partitionMap), shardNum,
                                        old(graph).weightPenalty, log)
      ensures Ran(old(graph.GraphOf()), old(graph.partitionMap), old(graph).maxIterations, orders, final, log)
      ensures forall v :: v in mmap <==> MovesOf(log, v) > 0
      ensures mmap.Keys <= old(graph.vertexSet)
      ensures SameShards(old(graph.vertexSet), old(graph.partitionMap), final)
      ensures forall v | v in old(graph.vertexSet) ::
                v in final && final[v] == Place(modifiedMap, shardNum, v) == HomeAt(maps, shardNum, |maps|, v)
      ensures forall a: Address | a !in old(graph.vertexSet) ::
                Place(modifiedMap, shardNum, a) == Place(old(modifiedMap), shardNum, a)
    {
      assert InRange() && Published();
      mmap, final, log, orders := RunClpa();
      hide HomeAt, Place, SameShards, AllJustified, Replay, Ran, MovesOf, InRange, Valid;
      Publish(mmap);
      assert Published() by {
        PublishedNow();
      }
    }

    ghost predicate InRange()
      reads `modifiedMap, `maps
    {
      && shardNum > 0 && injectSpeed > 0
      && (forall k, a | 0 <= k < |maps| && a in maps[k] :: maps[k][a] < shardNum)
      && (forall a | a in modifiedMap :: modifiedMap[a] < shardNum)
    }

    lemma PublishedNow()
      requires Valid()
      ensures Published()
    {
    }

    /** The change becomes part of the routing, and a new graph starts from it. */
    method Publish(mmap: Placement)
      requires InRange() && Published() && forall v | v in mmap :: mmap[v] < shardNum
      modifies `modifiedMap, `maps, `graph
      ensures Valid() && fresh(graph) && graph.edges == []
      ensures modifiedMap == old(modifiedMap) + mmap && maps == old(maps) + [mmap]
    {
      PublishedStep(modifiedMap, maps, mmap, shardNum);
      hide HomeAt, Place;
      MergeMap(mmap);
      maps := maps + [mmap];
      ClpaReset();
    }

    method RunClpa()
      returns (mmap: Placement, ghost final: Placement, ghost log: seq<Move>, ghost orders: seq<seq<Address>>)
      requires Valid()
      modifies graph
      ensures final == Replay(old(graph.partitionMap), log)
      ensures loopFree ==> AllJustified(old(graph.vertexSet), old(graph.edges), old(graph.partitionMap), shardNum,
                                        graph.weightPenalty, log)
      ensures Ran(old(graph.GraphOf()), old(graph.partitionMap), graph.maxIterations, orders, final, log)
      ensures forall v :: v in mmap <==> MovesOf(log, v) > 0
      ensures mmap.Keys <= old(graph.vertexSet) && SameShards(old(graph.vertexSet), old(graph.partitionMap), final)
      ensures forall v | v in mmap :: mmap[v] < shardNum
      ensures forall v | v in old(graph.vertexSet) :: v in final && final[v] == Place(modifiedMap + mmap, shardNum, v)
      ensures forall a: Address | a !in old(graph.vertexSet) ::
                Place(modifiedMap + mmap, shardNum, a) == Place(modifiedMap, shardNum, a)
    {
      hide HomeAt, SameShards, Addr2Shard, AllJustified, Replay, Ran, MovesOf;
      var cross: int;
      mmap, cross, log, orders := graph.ClpaPartition();
      final := graph.partitionMap;
      assert forall v | v in mmap :: mmap[v] == graph.partitionMap[v];
    }

    method MergeMap(mmap: Placement)
      modifies `modifiedMap
      ensures modifiedMap == old(modifiedMap) + mmap
    {
      var left := mmap.Keys;
      while left != {}
        invariant left <= mmap.Keys
        invariant modifiedMap == old(modifiedMap) + map a | a in mmap.Keys - left :: mmap[a]
      {
        var key :| key in left;
        modifiedMap := modifiedMap[key := mmap[key]];
        left := left - {key};
      }
    }

    method ClpaReset()
      requires shardNum > 0 && forall a | a in modifiedMap :: modifiedMap[a] < shardNum
      modifies `graph
      ensures fresh(graph) && graph.shardNum == shardNum && graph.GraphOk() && graph.PopulationOk()
      ensures graph.edges == [] && graph.partitionMap == modifiedMap
    {
      graph := new CLPAState(0.5, 100, shardNum, modifiedMap);
    }
  }

  function Waiting(m: map<ShardId, seq<Tx>>, sid: ShardId): seq<Tx> {
    if sid in m then m[sid] else []
  }

  /** What has been sent and what waits to be sent are the transactions seen, by shard, in order. */
  ghost predicate Split(sent: seq<InjectTxs>, waiting: map<ShardId, seq<Tx>>, txs: seq<Tx>, m: Placement, n: nat)
    requires n > 0
  {
    forall sid | 0 <= sid < n :: Delivered(sent, sid) + Waiting(waiting, sid) == Routed(txs, m, n, sid)
  }

  lemma SplitInit(m: Placement, n: nat)
    requires n > 0
    ensures Split([], map[], [], m, n)
  {
  }

  lemma {:induction false} SplitDone(sent: seq<InjectTxs>, txs: seq<Tx>, m: Placement, n: nat)
    requires n > 0 && Split(sent, map[], txs, m, n)
    ensures forall sid | 0 <= sid < n :: Delivered(sent, sid) == Routed(txs, m, n, sid)
  {
    forall sid | 0 <= sid < n
      ensures Delivered(sent, sid) == Routed(txs, m, n, sid)
    {
      assert Delivered(sent, sid) + Waiting(map[], sid) == Routed(txs, m, n, sid);
    }
  }

  ghost predicate Flushed(before: seq<InjectTxs>, waiting: map<ShardId, seq<Tx>>, sent: seq<InjectTxs>, n: nat) {
    forall sid | 0 <= sid < n :: Delivered(sent, sid) == Delivered(before, sid) + Waiting(waiting, sid)
  }

  /** The shards below s have been sent what was waiting for them. */
  ghost predicate FlushedBelow(before: seq<InjectTxs>, waiting: map<ShardId, seq<Tx>>, sent: seq<InjectTxs>, n: nat,
                               s: nat) {
    forall sid | 0 <= sid < n ::
      Delivered(sent, sid) == Delivered(before, sid) + if sid < s then Waiting(waiting, sid) else []
  }

  lemma FlushStep(before: seq<InjectTxs>, waiting: map<ShardId, seq<Tx>>, sent: seq<InjectTxs>, n: nat, s: nat)
    requires FlushedBelow(before, waiting, sent, n, s) && s < n
    ensures FlushedBelow(before, waiting, sent + [InjectTxs(Waiting(waiting, s), s)], n, s + 1)
  {
    hide Delivered, Waiting;
    var m := InjectTxs(Waiting(waiting, s), s);
    forall sid | 0 <= sid < n
      ensures Delivered(sent + [m], sid)
              == Delivered(before, sid) + if sid < s + 1 then Waiting(waiting, sid) else []
    {
      DeliveredAppend(sent, m, sid);
      assert Delivered(sent, sid) == Delivered(before, sid) + if sid < s then Waiting(waiting, sid) else [];
    }
  }

  lemma SplitFlush(before: seq<InjectTxs>, waiting: map<ShardId, seq<Tx>>, sent: seq<InjectTxs>, txs: seq<Tx>,
                   m: Placement, n: nat)
    requires n > 0 && Flushed(before, waiting, sent, n) && Split(before, waiting, txs, m, n)
    ensures Split(sent, map[], txs, m, n)
  {
    forall sid | 0 <= sid < n
      ensures Delivered(sent, sid) + Waiting(map[], sid) == Routed(txs, m, n, sid)
    {
      assert Delivered(before, sid) + Waiting(waiting, sid) == Routed(txs, m, n, sid);
    }
  }

  lemma SplitStep(sent: seq<InjectTxs>, waiting: map<ShardId, seq<Tx>>, txs: seq<Tx>, idx: nat, m: Placement, n: nat)
    requires n > 0 && idx < |txs| && Split(sent, waiting, txs[..idx], m, n)
    ensures var sid := Place(m, n, txs[idx].sender);
            Split(sent, waiting[sid := Waiting(waiting, sid) + [txs[idx]]], txs[..idx + 1], m, n)
  {
    assert txs[..idx + 1][..idx] == txs[..idx];
  }

  lemma PublishedStep(modified: Placement, maps: seq<Placement>, m: Placement, n: nat)
    requires n > 0 && forall a: Address :: Place(modified, n, a) == HomeAt(maps, n, |maps|, a)
    ensures forall a: Address :: Place(modified + m, n, a) == HomeAt(maps + [m], n, |maps| + 1, a)
  {
    forall a: Address
      ensures Place(modified + m, n, a) == HomeAt(maps + [m], n, |maps| + 1, a)
    {
      HomeAfter(maps, m, n, a);
    }
  }
}
