/** Every step of the protocol keeps the invariant. */
module ProtocolSteps {
  import opened Core
  import opened Ledger
  import opened Protocol
  import opened ProtocolInv

  // ----- from the shard that changed to the whole system -----

  /** Everything but shard x, its incoming injections and the channels at x is unchanged. */
  ghost predicate OnlyAt(g: System, g': System, x: ShardId)
    requires Shape(g) && x < g.n
  {
    && Shape(g') && g'.n == g.n && g'.maps == g.maps
    && (forall y | 0 <= y < g.n && y != x :: g'.shards[y] == g.shards[y] && g'.injects[y] == g.injects[y])
    && (forall s, t | 0 <= s < g.n && 0 <= t < g.n && s != x && t != x ::
          g'.relays[s][t] == g.relays[s][t] && g'.arrived[s][t] == g.arrived[s][t]
              && g'.readies[s][t] == g.readies[s][t] && g'.xfers[s][t] == g.xfers[s][t])
  }

  lemma Assemble(g: System, g': System, x: ShardId)
    requires Inv(g) && x < g.n && OnlyAt(g, g', x) && MapsInv(g')
    requires ShardAt(g', x)
    requires forall y | 0 <= y < g.n && y != x :: PairAt(g', x, y) && PairAt(g', y, x)
    ensures Inv(g')
  {
    hide ShardInv, PairInv;
    forall s | 0 <= s < g'.n
      ensures ShardAt(g', s)
    {
      assert ShardAt(g, s);
    }
    forall s, t | 0 <= s < g'.n && 0 <= t < g'.n && s != t
      ensures PairAt(g', s, t)
    {
      assert PairAt(g, s, t);
    }
  }

  // ----- changes that no channel can see -----

  ghost predicate SameSender(a: Shard, a': Shard) {
    && a'.round == a.round && a'.seqID == a.seqID && InMigration(a') == InMigration(a)
    && ReadyCount(a') == ReadyCount(a) && ExtractCount(a') == ExtractCount(a)
  }

  ghost predicate SameReceiver(b: Shard, b': Shard) {
    && b'.round == b.round && ReadyCount(b') == ReadyCount(b) && ExtractCount(b') == ExtractCount(b)
    && b'.readySet == b.readySet && b'.readySeq == b.readySeq
    && b'.heard == b.heard && b'.collected == b.collected
  }

  lemma PairUnseen(maps: seq<Placement>, n: nat, s: ShardId, t: ShardId, a: Shard, b: Shard, a': Shard, b': Shard,
                   relay: seq<Relay>, arrived: seq<nat>, ready: seq<nat>, xfer: seq<Xfer>)
    requires n > 0 && ExtractCount(a) <= |maps| && ExtractCount(b) <= |maps|
    requires PairInv(maps, n, s, t, a, b, relay, arrived, ready, xfer)
    requires SameSender(a, a') && SameReceiver(b, b')
    ensures PairInv(maps, n, s, t, a', b', relay, arrived, ready, xfer)
  {
    hide HomeAt, XferOk, RelayOk;
  }

  /** A step that changes one shard only, in ways no channel can see. */
  lemma LocalStep(g: System, g': System, x: ShardId)
    requires Inv(g) && x < g.n && OnlyAt(g, g', x)
    requires g'.modified == g.modified && g'.epoch == g.epoch && g'.infos == g.infos
    requires g'.relays == g.relays && g'.arrived == g.arrived && g'.readies == g.readies && g'.xfers == g.xfers
    requires SameSender(g.shards[x], g'.shards[x]) && SameReceiver(g.shards[x], g'.shards[x])
    requires ShardAt(g', x)
    ensures Inv(g')
  {
    hide ShardInv, PairInv;
    forall y | 0 <= y < g.n && y != x
      ensures PairAt(g', x, y) && PairAt(g', y, x)
    {
      assert PairAt(g, x, y) && PairAt(g, y, x);
      PairUnseen(g.maps, g.n, x, y, g.shards[x], g.shards[y], g'.shards[x], g'.shards[y],
                 g.relays[x][y], g.arrived[x][y], g.readies[x][y], g.xfers[x][y]);
      PairUnseen(g.maps, g.n, y, x, g.shards[y], g.shards[x], g'.shards[y], g'.shards[x],
                 g.relays[y][x], g.arrived[y][x], g.readies[y][x], g.xfers[y][x]);
    }
    Assemble(g, g', x);
  }

  lemma DeliverMapKeepsInv(g: System, s: ShardId)
    requires Inv(g) && Enabled(g, DeliverMap(s))
    ensures Inv(Next(g, DeliverMap(s)))
  {
    hide PairInv;
    assert ShardAt(g, s);
    var g' := Next(g, DeliverMap(s));
    assert ShardAt(g', s);
    LocalStep(g, g', s);
  }

  lemma DeliverInjectKeepsInv(g: System, s: ShardId, i: nat)
    requires Inv(g) && Enabled(g, DeliverInject(s, i))
    ensures Inv(Next(g, DeliverInject(s, i)))
  {
    hide PairInv, HomeAt;
    assert ShardAt(g, s);
    var g' := Next(g, DeliverInject(s, i));
    assert ShardAt(g', s);
    LocalStep(g, g', s);
  }

  lemma ProposeBlockKeepsInv(g: System, s: ShardId, k: nat)
    requires Inv(g) && Enabled(g, ProposeBlock(s, k))
    ensures Inv(Next(g, ProposeBlock(s, k)))
  {
    hide PairInv, HomeAt;
    assert ShardAt(g, s);
    var g' := Next(g, ProposeBlock(s, k));
    assert ShardAt(g', s);
    LocalStep(g, g', s);
  }

  // ----- the supervisor -----

  lemma InjectKeepsInv(g: System, tx: Tx)
    requires Inv(g) && Enabled(g, Inject(tx))
    ensures Inv(Next(g, Inject(tx)))
  {
    var s := Place(g.modified, g.n, tx.sender);
    assert s == HomeAt(g.maps, g.n, |g.maps|, tx.sender);
    HomeInRange(g.maps, g.n, |g.maps|, tx.sender);
    assert ShardAt(g, s);
    var g' := Next(g, Inject(tx));
    assert ExtractCount(g.shards[s]) == |g.maps|;
    assert ShardAt(g', s) by { hide HomeAt; }
    hide ShardInv, PairInv;
    LocalStep(g, g', s);
  }

  lemma ReceiveInfoKeepsInv(g: System, e: nat)
    requires Inv(g) && Enabled(g, ReceiveInfo(e))
    ensures Inv(Next(g, ReceiveInfo(e)))
  {
    hide ShardInv, PairInv;
    var g' := Next(g, ReceiveInfo(e));
    assert ShardAt(g, 0);
    assert ExtractCount(g.shards[0]) <= |g.maps| by { CountBound(g, 0); }
    forall s | 0 <= s < g'.n
      ensures ShardAt(g', s)
    {
      assert ShardAt(g, s);
    }
    forall s, t | 0 <= s < g'.n && 0 <= t < g'.n && s != t
      ensures PairAt(g', s, t)
    {
      assert PairAt(g, s, t);
    }
  }

  lemma CountBound(g: System, s: ShardId)
    requires Shape(g) && s < g.n && ShardAt(g, s)
    ensures ExtractCount(g.shards[s]) <= ReadyCount(g.shards[s]) <= |g.shards[s].changes| <= |g.maps|
  {
  }

  lemma HomesStable(maps: seq<Placement>, m: Placement, n: nat)
    requires n > 0
    ensures forall k: nat, a: Address | k <= |maps| :: HomeAt(maps + [m], n, k, a) == HomeAt(maps, n, k, a)
  {
    forall k: nat, a: Address | k <= |maps|
      ensures HomeAt(maps + [m], n, k, a) == HomeAt(maps, n, k, a)
    {
      HomeStable(maps, m, n, k, a);
    }
  }

  lemma ShardMoreMaps(maps: seq<Placement>, m: Placement, n: nat, s: ShardId, sh: Shard, inject: seq<Tx>)
    requires n > 0 && ShardInv(maps, n, s, sh, inject)
    ensures ShardInv(maps + [m], n, s, sh, inject)
  {
    HomesStable(maps, m, n);
    hide HomeAt;
    assert RoundInv(maps + [m], n, sh);
    assert TxsInv(maps + [m], n, s, sh, inject);
    assert PeersInv(maps + [m], n, s, sh);
  }

  lemma PairMoreMaps(maps: seq<Placement>, m: Placement, n: nat, s: ShardId, t: ShardId, a: Shard, b: Shard,
                     relay: seq<Relay>, arrived: seq<nat>, ready: seq<nat>, xfer: seq<Xfer>)
    requires n > 0 && ExtractCount(a) <= |maps| && ExtractCount(b) <= |maps|
    requires PairInv(maps, n, s, t, a, b, relay, arrived, ready, xfer)
    ensures PairInv(maps + [m], n, s, t, a, b, relay, arrived, ready, xfer)
  {
    HomesStable(maps, m, n);
    hide HomeAt;
    assert RelayInv(maps + [m], n, s, t, a, b, relay, arrived);
    assert XferInv(maps + [m], n, s, t, a, b, xfer);
  }

  lemma MapsMoreMaps(g: System, m: Placement)
    requires Shape(g) && MapsInv(g) && Enabled(g, SendMap(m))
    ensures MapsInv(Next(g, SendMap(m)))
  {
    var g' := Next(g, SendMap(m));
    HomesStable(g.maps, m, g.n);
    forall a
      ensures Place(g'.modified, g.n, a) == HomeAt(g'.maps, g.n, |g.maps| + 1, a)
    {
      assert Place(g.modified, g.n, a) == HomeAt(g.maps, g.n, |g.maps|, a);
    }
  }

  lemma SendMapKeepsInv(g: System, m: Placement)
    requires Inv(g) && Enabled(g, SendMap(m))
    ensures Inv(Next(g, SendMap(m)))
  {
    hide ShardInv, PairInv, MapsInv;
    var g' := Next(g, SendMap(m));
    MapsMoreMaps(g, m);
    forall s | 0 <= s < g'.n
      ensures ShardAt(g', s)
    {
      assert ShardAt(g, s);
      ShardMoreMaps(g.maps, m, g.n, s, g.shards[s], g.injects[s]);
    }
    forall s, t | 0 <= s < g'.n && 0 <= t < g'.n && s != t
      ensures PairAt(g', s, t)
    {
      assert PairAt(g, s, t);
      PairMoreMaps(g.maps, m, g.n, s, t, g.shards[s], g.shards[t], g.relays[s][t], g.arrived[s][t], g.readies[s][t],
                   g.xfers[s][t]);
    }
  }

  // ----- committing a block -----

  lemma {:induction false} OutToOk(body: seq<Tx>, pmap: Placement, n: nat, t: ShardId)
    requires n > 0
    ensures forall i | 0 <= i < |OutTo(body, pmap, n, t)| ::
              var tx := OutTo(body, pmap, n, t)[i]; tx.relayed && Place(pmap, n, tx.recipient) == t
  {
    if body != [] {
      OutToOk(body[..|body| - 1], pmap, n, t);
    }
  }

  lemma CommitSender(maps: seq<Placement>, n: nat, s: ShardId, t: ShardId, a: Shard, a': Shard, b: Shard,
                     relay: seq<Relay>, arrived: seq<nat>, ready: seq<nat>, xfer: seq<Xfer>, txs: seq<Tx>)
    requires n > 0 && ExtractCount(a) <= |maps| && ExtractCount(b) <= |maps|
    requires PairInv(maps, n, s, t, a, b, relay, arrived, ready, xfer)
    requires a.phase.Proposed? && a'.phase.Idle? && a'.round == a.round && a'.seqID == a.seqID + 1
    requires RelayOk(maps, n, a.round, t, txs)
    ensures PairInv(maps, n, s, t, a', b, relay + [Relay(txs, a.seqID)], arrived, ready, xfer)
  {
    hide HomeAt, XferOk, RelayOk;
    assert ExtractCount(b) == a.round;
  }

  lemma CommitBlockShard(g: System, s: ShardId)
    requires Inv(g) && Enabled(g, CommitBlock(s))
    ensures ShardAt(Next(g, CommitBlock(s)), s)
    ensures !BlockPanics(g.shards[s].phase.body, g.shards[s].pmap, s, g.n)
  {
    hide PairInv, HomeAt, Execute;
    var a := g.shards[s];
    assert ShardAt(g, s);
    assert forall i | 0 <= i < |a.phase.body| :: AtHome(g.maps, g.n, a.round, s, a.phase.body[i]);
  }

  lemma CommitBlockPair(g: System, s: ShardId, y: ShardId)
    requires Inv(g) && Enabled(g, CommitBlock(s)) && y < g.n && y != s
    ensures PairAt(Next(g, CommitBlock(s)), s, y) && PairAt(Next(g, CommitBlock(s)), y, s)
  {
    hide PairInv, HomeAt, Execute;
    CommitBlockShard(g, s);
    var a := g.shards[s];
    var g' := Next(g, CommitBlock(s));
    assert ShardAt(g, s);
    assert PairAt(g, s, y) && PairAt(g, y, s);
    var txs := OutTo(a.phase.body, a.pmap, g.n, y);
    OutToOk(a.phase.body, a.pmap, g.n, y);
    assert RelayOk(g.maps, g.n, a.round, y, txs);
    hide ShardInv;
    CommitSender(g.maps, g.n, s, y, a, g'.shards[s], g.shards[y], g.relays[s][y], g.arrived[s][y], g.readies[s][y],
                 g.xfers[s][y], txs);
    PairUnseen(g.maps, g.n, y, s, g.shards[y], a, g.shards[y], g'.shards[s],
               g.relays[y][s], g.arrived[y][s], g.readies[y][s], g.xfers[y][s]);
  }

  /** Committing a block keeps the invariant, and its "incorrect tx" panic is not reached. */
  lemma CommitBlockKeepsInv(g: System, s: ShardId)
    requires Inv(g) && Enabled(g, CommitBlock(s))
    ensures Inv(Next(g, CommitBlock(s)))
  {
    hide PairInv, ShardInv, HomeAt, Execute, BlockPanics;
    var g' := Next(g, CommitBlock(s));
    CommitBlockShard(g, s);
    forall y | 0 <= y < g.n && y != s
      ensures PairAt(g', s, y) && PairAt(g', y, s)
    {
      CommitBlockPair(g, s, y);
    }
    forall y | 0 <= y < g.n
      ensures g.shards[s].round <= ExtractCount(g'.shards[y])
    {
      if y != s {
        PairCounts(g, s, y);
      }
    }
    Assemble(g, g', s);
  }

  lemma PairCounts(g: System, s: ShardId, t: ShardId)
    requires Shape(g) && s < g.n && t < g.n && PairAt(g, s, t)
    ensures CountInv(g.shards[s], g.shards[t])
  {
  }
}
