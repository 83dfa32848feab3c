/** The migration steps of the protocol keep the invariant: readiness, barrier, extraction,
    collection, installation. */
module MigrationSteps {
  import opened Core
  import opened Sums
  import opened Extraction
  import opened Protocol
  import opened ProtocolInv
  import opened ProtocolSteps

  // ----- becoming ready -----

  lemma ReadySender(maps: seq<Placement>, n: nat, s: ShardId, t: ShardId, a: Shard, b: Shard,
                    relay: seq<Relay>, arrived: seq<nat>, ready: seq<nat>, xfer: seq<Xfer>)
    requires n > 0 && ExtractCount(a) <= |maps| && ExtractCount(b) <= |maps|
    requires PairInv(maps, n, s, t, a, b, relay, arrived, ready, xfer)
    requires a.phase.Idle?
    ensures PairInv(maps, n, s, t, SendReady(a, s), b, relay, arrived, ready + [a.seqID], xfer)
  {
    hide HomeAt, XferOk, RelayOk;
  }

  lemma ReadyReceiver(maps: seq<Placement>, n: nat, s: ShardId, t: ShardId, a: Shard, b: Shard,
                      relay: seq<Relay>, arrived: seq<nat>, ready: seq<nat>, xfer: seq<Xfer>)
    requires n > 0 && ExtractCount(a) <= |maps| && ExtractCount(b) <= |maps| && s != t
    requires PairInv(maps, n, s, t, a, b, relay, arrived, ready, xfer)
    requires b.phase.Idle?
    ensures PairInv(maps, n, s, t, a, SendReady(b, t), relay, arrived, ready, xfer)
  {
    hide HomeAt, XferOk, RelayOk;
  }

  lemma BecomeReadyKeepsInv(g: System, s: ShardId)
    requires Inv(g) && Enabled(g, BecomeReady(s))
    ensures Inv(Next(g, BecomeReady(s)))
  {
    hide PairInv, HomeAt;
    var g' := Next(g, BecomeReady(s));
    assert ShardAt(g, s);
    assert ShardAt(g', s);
    hide ShardInv;
    forall y | 0 <= y < g.n && y != s
      ensures PairAt(g', s, y) && PairAt(g', y, s)
    {
      assert PairAt(g, s, y) && PairAt(g, y, s);
      ReadySender(g.maps, g.n, s, y, g.shards[s], g.shards[y], g.relays[s][y], g.arrived[s][y], g.readies[s][y],
                  g.xfers[s][y]);
      ReadyReceiver(g.maps, g.n, y, s, g.shards[y], g.shards[s], g.relays[y][s], g.arrived[y][s], g.readies[y][s],
                    g.xfers[y][s]);
    }
    Assemble(g, g', s);
  }

  // ----- deliveries -----

  /** Two receiver states that a third shard's channels cannot tell apart. */
  ghost predicate SameFor(s: ShardId, b: Shard, b': Shard) {
    && b'.round == b.round && ReadyCount(b') == ReadyCount(b) && ExtractCount(b') == ExtractCount(b)
    && (s in b'.readySet <==> s in b.readySet)
    && (s in b'.readySeq <==> s in b.readySeq) && (s in b.readySeq ==> b'.readySeq[s] == b.readySeq[s])
    && (s in b'.heard <==> s in b.heard) && (s in b.heard ==> b'.heard[s] == b.heard[s])
    && (s in b'.collected <==> s in b.collected) && (s in b.collected ==> b'.collected[s] == b.collected[s])
  }

  lemma PairOther(maps: seq<Placement>, n: nat, s: ShardId, t: ShardId, a: Shard, b: Shard, b': Shard,
                  relay: seq<Relay>, arrived: seq<nat>, ready: seq<nat>, xfer: seq<Xfer>)
    requires n > 0 && ExtractCount(a) <= |maps| && ExtractCount(b) <= |maps|
    requires PairInv(maps, n, s, t, a, b, relay, arrived, ready, xfer)
    requires SameFor(s, b, b')
    ensures PairInv(maps, n, s, t, a, b', relay, arrived, ready, xfer)
  {
    hide HomeAt, XferOk, RelayOk;
  }

  /** A delivery from s to t: only what t knows of s changes. */
  lemma DeliveryStep(g: System, g': System, s: ShardId, t: ShardId)
    requires Inv(g) && s < g.n && t < g.n && s != t && OnlyAt(g, g', t)
    requires g'.modified == g.modified && g'.epoch == g.epoch && g'.infos == g.infos
    requires SameSender(g.shards[t], g'.shards[t])
    requires forall y | 0 <= y < g.n && y != s :: SameFor(y, g.shards[t], g'.shards[t])
    requires forall y | 0 <= y < g.n && y != t ::
               g'.relays[t][y] == g.relays[t][y] && g'.arrived[t][y] == g.arrived[t][y]
                   && g'.readies[t][y] == g.readies[t][y] && g'.xfers[t][y] == g.xfers[t][y]
    requires forall y | 0 <= y < g.n && y != s && y != t ::
               g'.relays[y][t] == g.relays[y][t] && g'.arrived[y][t] == g.arrived[y][t]
                   && g'.readies[y][t] == g.readies[y][t] && g'.xfers[y][t] == g.xfers[y][t]
    requires ShardAt(g', t) && PairAt(g', s, t)
    ensures Inv(g')
  {
    hide PairInv, ShardInv, HomeAt;
    forall y | 0 <= y < g.n && y != t
      ensures PairAt(g', t, y) && PairAt(g', y, t)
    {
      assert PairAt(g, t, y) && PairAt(g, y, t);
      PairUnseen(g.maps, g.n, t, y, g.shards[t], g.shards[y], g'.shards[t], g.shards[y],
                 g.relays[t][y], g.arrived[t][y], g.readies[t][y], g.xfers[t][y]);
      if y != s {
        PairOther(g.maps, g.n, y, t, g.shards[y], g.shards[t], g'.shards[t],
                  g.relays[y][t], g.arrived[y][t], g.readies[y][t], g.xfers[y][t]);
      }
    }
    Assemble(g, g', t);
  }

  lemma ReadyArrives(maps: seq<Placement>, n: nat, s: ShardId, t: ShardId, a: Shard, b: Shard,
                     relay: seq<Relay>, arrived: seq<nat>, ready: seq<nat>, xfer: seq<Xfer>)
    requires n > 0 && ExtractCount(a) <= |maps| && ExtractCount(b) <= |maps|
    requires PairInv(maps, n, s, t, a, b, relay, arrived, ready, xfer) && ready != []
    ensures PairInv(maps, n, s, t, a, OnReady(b, s, ready[0]), relay, arrived, ready[1..], xfer)
  {
    hide HomeAt, XferOk, RelayOk;
  }

  lemma DeliverReadyKeepsInv(g: System, s: ShardId, t: ShardId)
    requires Inv(g) && Enabled(g, DeliverReady(s, t))
    ensures Inv(Next(g, DeliverReady(s, t)))
  {
    hide PairInv, HomeAt;
    var g' := Next(g, DeliverReady(s, t));
    assert ShardAt(g, t);
    assert PairAt(g, s, t);
    assert ShardAt(g', t);
    hide ShardInv;
    ReadyArrives(g.maps, g.n, s, t, g.shards[s], g.shards[t], g.relays[s][t], g.arrived[s][t], g.readies[s][t],
                 g.xfers[s][t]);
    DeliveryStep(g, g', s, t);
  }

  lemma RelayArrives(maps: seq<Placement>, n: nat, s: ShardId, t: ShardId, a: Shard, b: Shard,
                     relay: seq<Relay>, arrived: seq<nat>, ready: seq<nat>, xfer: seq<Xfer>, i: nat)
    requires n > 0 && ExtractCount(a) <= |maps| && ExtractCount(b) <= |maps|
    requires PairInv(maps, n, s, t, a, b, relay, arrived, ready, xfer) && i < |relay|
    ensures PairInv(maps, n, s, t, a, OnRelay(b, s, relay[i]), relay[..i] + relay[i + 1..],
                    arrived + [relay[i].seqID], ready, xfer)
    ensures RelayOk(maps, n, ExtractCount(b), t, relay[i].txs)
  {
    hide HomeAt, XferOk, RelayOk;
  }

  lemma DeliverRelayShard(g: System, s: ShardId, t: ShardId, i: nat)
    requires Inv(g) && Enabled(g, DeliverRelay(s, t, i)) && ExtractCount(g.shards[t]) <= |g.maps|
    requires RelayOk(g.maps, g.n, ExtractCount(g.shards[t]), t, g.relays[s][t][i].txs)
    ensures ShardAt(Next(g, DeliverRelay(s, t, i)), t)
  {
    hide PairInv, HomeAt;
    assert ShardAt(g, t);
  }

  lemma DeliverRelayKeepsInv(g: System, s: ShardId, t: ShardId, i: nat)
    requires Inv(g) && Enabled(g, DeliverRelay(s, t, i))
    ensures Inv(Next(g, DeliverRelay(s, t, i)))
  {
    hide PairInv, ShardInv, HomeAt;
    var g' := Next(g, DeliverRelay(s, t, i));
    assert PairAt(g, s, t);
    RelayArrives(g.maps, g.n, s, t, g.shards[s], g.shards[t], g.relays[s][t], g.arrived[s][t], g.readies[s][t],
                 g.xfers[s][t], i);
    DeliverRelayShard(g, s, t, i);
    DeliveryStep(g, g', s, t);
  }

  lemma XferArrives(maps: seq<Placement>, n: nat, s: ShardId, t: ShardId, a: Shard, b: Shard,
                    relay: seq<Relay>, arrived: seq<nat>, ready: seq<nat>, xfer: seq<Xfer>)
    requires n > 0 && ExtractCount(a) <= |maps| && ExtractCount(b) <= |maps|
    requires PairInv(maps, n, s, t, a, b, relay, arrived, ready, xfer) && xfer != []
    ensures PairInv(maps, n, s, t, a, OnXfer(b, n, s, xfer[0]), relay, arrived, ready, xfer[1..])
  {
    hide HomeAt, XferOk, RelayOk;
  }

  /** A set of n - 1 shards other than s contains every shard other than s. */
  lemma AllOthers(keys: set<ShardId>, n: nat, s: ShardId)
    requires s < n && |keys| == n - 1 && forall p | p in keys :: p < n && p != s
    ensures forall p | 0 <= p < n && p != s :: p in keys
  {
    assert keys <= Upto(n) - {s};
    SubsetCard(keys, Upto(n) - {s});
  }

  lemma CollectOverOk(sh: Shard, maps: seq<Placement>, n: nat, s: ShardId, from: ShardId, x: Xfer)
    requires n > 0 && s < n && RoundInv(maps, n, sh) && PeersInv(maps, n, s, sh) && from < n && from != s
    ensures OnXfer(sh, n, from, x).collectOver ==>
            forall p | 0 <= p < n && p != s :: p in OnXfer(sh, n, from, x).collected
  {
    var collected := sh.collected[from := x];
    if |collected| == n - 1 {
      assert |collected.Keys| == |collected|;
      AllOthers(collected.Keys, n, s);
    }
  }

  lemma DeliverXferShard(g: System, s: ShardId, t: ShardId)
    requires Inv(g) && Enabled(g, DeliverXfer(s, t))
    ensures ShardAt(Next(g, DeliverXfer(s, t)), t)
  {
    assert ShardAt(g, t);
    hide Inv, PairInv, HomeAt;
    CollectKeeps(g.maps, g.n, t, g.shards[t], g.injects[t], s, g.xfers[s][t][0]);
    hide ShardInv, OnXfer;
  }

  lemma CollectKeeps(maps: seq<Placement>, n: nat, t: ShardId, sh: Shard, inject: seq<Tx>, from: ShardId, x: Xfer)
    requires n > 0 && t < n && from < n && from != t && ShardInv(maps, n, t, sh, inject)
    ensures ShardInv(maps, n, t, OnXfer(sh, n, from, x), inject)
  {
    hide HomeAt, AtHome, Arriving;
    CollectOverOk(sh, maps, n, t, from, x);
  }

  lemma DeliverXferKeepsInv(g: System, s: ShardId, t: ShardId)
    requires Inv(g) && Enabled(g, DeliverXfer(s, t))
    ensures Inv(Next(g, DeliverXfer(s, t)))
  {
    hide PairInv, ShardInv, HomeAt;
    var g' := Next(g, DeliverXfer(s, t));
    DeliverXferShard(g, s, t);
    assert PairAt(g, s, t);
    XferArrives(g.maps, g.n, s, t, g.shards[s], g.shards[t], g.relays[s][t], g.arrived[s][t], g.readies[s][t],
                g.xfers[s][t]);
    DeliveryStep(g, g', s, t);
  }

  // ----- the barrier -----

  /** What passing the barrier means for one peer: the peer is ready in the same round, and
      its announced number is its current one. */
  lemma BarrierPeer(maps: seq<Placement>, n: nat, s: ShardId, t: ShardId, a: Shard, b: Shard,
                    relay: seq<Relay>, arrived: seq<nat>, ready: seq<nat>, xfer: seq<Xfer>)
    requires n > 0 && ExtractCount(a) <= |maps| && ExtractCount(b) <= |maps|
    requires PairInv(maps, n, s, t, a, b, relay, arrived, ready, xfer)
    requires b.phase.Ready? && BarrierPasses(b, n) && s in b.readySet
    ensures a.round == b.round && ReadyCount(a) == b.round + 1
    ensures s in b.readySeq && b.readySeq[s] == a.seqID
    ensures ArrivedInv(s, a, b, relay, arrived) && forall i | 0 <= i < |relay| :: relay[i].seqID < a.seqID
  {
    hide HomeAt, XferOk, RelayOk;
  }

  lemma BarrierAll(g: System, t: ShardId)
    requires Inv(g) && t < g.n && g.shards[t].phase.Ready? && BarrierPasses(g.shards[t], g.n)
    ensures forall s | 0 <= s < g.n :: s in g.shards[t].readySet
  {
    assert ShardAt(g, t);
    assert g.shards[t].readySet <= Upto(g.n);
    SubsetCard(g.shards[t].readySet, Upto(g.n));
  }

  /** No relay from s has reached t ahead of one that was sent before it. */
  ghost predicate NoneOvertaken(g: System, s: ShardId, t: ShardId)
    requires Shape(g) && s < g.n && t < g.n
  {
    forall i, j | 0 <= i < |g.arrived[s][t]| && 0 <= j < |g.relays[s][t]| ::
        g.arrived[s][t][i] < g.relays[s][t][j].seqID
  }

  /** When a leader passes the readiness barrier, every peer is held in the migration of the same
      round, so that no block can be relayed to it before it has extracted.  No relay of the old
      map is on its way from a peer if and only if as many have arrived as the peer's readiness
      number tells.  What the barrier itself looks at is enough exactly when the peer has relayed
      nothing, or has been heard of and its relays have not overtaken each other. */
  lemma BarrierSafe(g: System, t: ShardId, s: ShardId)
    requires Inv(g) && t < g.n && s < g.n && s != t
    requires g.shards[t].phase.Ready? && BarrierPasses(g.shards[t], g.n)
    ensures InMigration(g.shards[s]) && g.shards[s].round == g.shards[t].round && s in g.shards[t].readySeq
    ensures g.relays[s][t] == [] <==> AllArrived(g, s, t)
    ensures g.relays[s][t] == [] <==>
              || g.shards[t].readySeq[s] == g.shards[t].round + 1
              || (s in g.shards[t].heard && NoneOvertaken(g, s, t))
  {
    BarrierAll(g, t);
    assert PairAt(g, s, t);
    BarrierPeer(g.maps, g.n, s, t, g.shards[s], g.shards[t], g.relays[s][t], g.arrived[s][t], g.readies[s][t],
                g.xfers[s][t]);
    var relay, arrived := g.relays[s][t], g.arrived[s][t];
    hide PairInv;
    if relay != [] && s in g.shards[t].heard {
      assert arrived[|arrived| - 1] >= relay[0].seqID;
    }
  }

  // ----- extraction -----

  lemma ExtractSender(maps: seq<Placement>, n: nat, s: ShardId, t: ShardId, a: Shard, a': Shard, b: Shard,
                      relay: seq<Relay>, arrived: seq<nat>, ready: seq<nat>, xfer: seq<Xfer>, x: Xfer)
    requires n > 0 && a.round < |maps| && ExtractCount(a) <= |maps| && ExtractCount(b) <= |maps|
    requires PairInv(maps, n, s, t, a, b, relay, arrived, ready, xfer)
    requires a.phase.Ready? && a' == a.(queue := a'.queue, phase := Extracted)
    requires b.round == a.round && ReadyCount(b) == a.round + 1
    requires XferOk(maps, n, a.round, s, t, x)
    ensures PairInv(maps, n, s, t, a', b, relay, arrived, ready, xfer + [x])
  {
    hide HomeAt, XferOk, RelayOk;
  }

  lemma ExtractReceiver(maps: seq<Placement>, n: nat, s: ShardId, t: ShardId, a: Shard, b: Shard, b': Shard,
                        relay: seq<Relay>, arrived: seq<nat>, ready: seq<nat>, xfer: seq<Xfer>)
    requires n > 0 && ExtractCount(a) <= |maps| && ExtractCount(b) < |maps|
    requires PairInv(maps, n, s, t, a, b, relay, arrived, ready, xfer)
    requires b.phase.Ready? && b' == b.(queue := b'.queue, phase := Extracted)
    requires a.round == b.round && ReadyCount(a) == b.round + 1
    requires forall i | 0 <= i < |relay| :: RelayOk(maps, n, b.round + 1, t, relay[i].txs)
    ensures PairInv(maps, n, s, t, a, b', relay, arrived, ready, xfer)
  {
    hide HomeAt, XferOk, RelayOk;
  }

  /** A transaction that is at home stays at home under the next map if and only if the account
      that decides it does not leave. */
  lemma StaysIff(maps: seq<Placement>, n: nat, s: ShardId, sh: Shard, tx: Tx)
    requires n > 0 && RoundInv(maps, n, sh) && sh.phase.Ready? && AtHome(maps, n, sh.round, s, tx)
    ensures sh.changes != [] && sh.round < |maps|
    ensures AtHome(maps, n, sh.round + 1, s, tx) <==> !Leaves(sh, s, tx)
  {
    assert sh.changes[|sh.changes| - 1] == maps[sh.round];
  }

  lemma RelaysStay(maps: seq<Placement>, n: nat, s: ShardId, sh: Shard, relay: seq<Relay>)
    requires n > 0 && RoundInv(maps, n, sh) && sh.phase.Ready? && sh.changes != [] && NoneLeaves(sh, s, relay)
    requires forall i | 0 <= i < |relay| :: RelayOk(maps, n, sh.round, s, relay[i].txs)
    ensures sh.round < |maps|
    ensures forall i | 0 <= i < |relay| :: RelayOk(maps, n, sh.round + 1, s, relay[i].txs)
  {
    forall i, j | 0 <= i < |relay| && 0 <= j < |relay[i].txs|
      ensures AtHome(maps, n, sh.round + 1, s, relay[i].txs[j])
    {
      StaysIff(maps, n, s, sh, relay[i].txs[j]);
    }
  }

  /** An extract takes along exactly the accounts that move, and transactions keyed by them. */
  lemma XferToOk(maps: seq<Placement>, n: nat, s: ShardId, t: ShardId, sh: Shard)
    requires n > 0 && t < n && s != t
    requires RoundInv(maps, n, sh) && sh.phase.Ready?
    ensures sh.changes != [] && sh.round < |maps|
    ensures XferOk(maps, n, sh.round, s, t, XferTo(sh, s, n, t))
  {
    hide HomeAt;
    var m := sh.changes[|sh.changes| - 1];
    assert m == maps[sh.round];
    var x := XferTo(sh, s, n, t);
    assert forall a :: Place(sh.pmap, n, a) == HomeAt(maps, n, sh.round, a);
    forall i | 0 <= i < |x.txs|
      ensures KeyOf(x.txs[i]) in m && m[KeyOf(x.txs[i])] == t
    {
      SentIsKeyed(RelayMode, sh.queue, Moving(sh, s, n), s, t, x.txs[i]);
    }
  }

  /** What stays in the queue belongs to the shard under the next map. */
  lemma RemainingAtHome(maps: seq<Placement>, n: nat, s: ShardId, sh: Shard)
    requires n > 0 && s < n
    requires forall k, a | 0 <= k < |maps| && a in maps[k] :: maps[k][a] < n
    requires RoundInv(maps, n, sh) && sh.phase.Ready? && AllAtHome(maps, n, sh.round, s, sh.queue)
    ensures sh.changes != [] && sh.round < |maps|
    ensures AllAtHome(maps, n, sh.round + 1, s, ExtractQueue(sh, s, n).queue)
  {
    var m := sh.changes[|sh.changes| - 1];
    assert m == maps[sh.round];
    var rest := ExtractQueue(sh, s, n).queue;
    forall i | 0 <= i < |rest|
      ensures AtHome(maps, n, sh.round + 1, s, rest[i])
    {
      var tx := rest[i];
      RemainingStays(RelayMode, sh.queue, Moving(sh, s, n), s, n, tx);
      var k :| 0 <= k < |sh.queue| && sh.queue[k] == tx;
      assert AtHome(maps, n, sh.round, s, sh.queue[k]);
      assert Place(sh.pmap, n, KeyOf(tx)) == s;
      hide FateOf, Moving, MovingTo;
      if KeyOf(tx) in m && m[KeyOf(tx)] != s {
        LeavesQueue(sh, s, n, tx);
        assert false;
      }
    }
  }

  /** A transaction whose account moves away does not stay. */
  lemma LeavesQueue(sh: Shard, s: ShardId, n: nat, tx: Tx)
    requires n > 0 && sh.changes != [] && Place(sh.pmap, n, KeyOf(tx)) == s
    requires var m := sh.changes[|sh.changes| - 1];
             KeyOf(tx) in m && m[KeyOf(tx)] != s && m[KeyOf(tx)] < n
    ensures FateOf(RelayMode, tx, Moving(sh, s, n)[sh.changes[|sh.changes| - 1][KeyOf(tx)]]) != Stay
  {
  }

  lemma ExtractShard(g: System, s: ShardId)
    requires Inv(g) && Enabled(g, Extract(s))
    ensures ShardAt(Next(g, Extract(s)), s)
  {
    hide PairInv, HomeAt;
    assert ShardAt(g, s);
    BarrierAll(g, s);
    RemainingAtHome(g.maps, g.n, s, g.shards[s]);
    InjectsStay(g.maps, g.n, s, g.shards[s], g.injects[s]);
    hide After, Leaves;
  }

  lemma InjectsStay(maps: seq<Placement>, n: nat, s: ShardId, sh: Shard, inject: seq<Tx>)
    requires n > 0 && RoundInv(maps, n, sh) && sh.phase.Ready? && sh.changes != []
    requires AllAtHome(maps, n, sh.round, s, inject) && forall i | 0 <= i < |inject| :: !Leaves(sh, s, inject[i])
    ensures sh.round < |maps| && AllAtHome(maps, n, sh.round + 1, s, inject)
  {
    forall i | 0 <= i < |inject|
      ensures AtHome(maps, n, sh.round + 1, s, inject[i])
    {
      StaysIff(maps, n, s, sh, inject[i]);
    }
  }

  lemma RelaysOnTheWay(g: System, s: ShardId, y: ShardId)
    requires Inv(g) && Enabled(g, Extract(s)) && y < g.n && y != s
    ensures g.shards[s].round < |g.maps|
    ensures forall i | 0 <= i < |g.relays[y][s]| ::
            RelayOk(g.maps, g.n, g.shards[s].round + 1, s, g.relays[y][s][i].txs)
  {
    assert ShardAt(g, s) && PairAt(g, y, s);
    hide HomeAt, RelayOk, Leaves;
    RelaysStay(g.maps, g.n, s, g.shards[s], g.relays[y][s]);
  }

  lemma ExtractPair(g: System, s: ShardId, y: ShardId)
    requires Inv(g) && Enabled(g, Extract(s)) && y < g.n && y != s
    ensures PairAt(Next(g, Extract(s)), s, y) && PairAt(Next(g, Extract(s)), y, s)
  {
    hide PairInv, HomeAt, After;
    var g' := Next(g, Extract(s));
    assert PairAt(g, s, y) && PairAt(g, y, s);
    BarrierAll(g, s);
    BarrierPeer(g.maps, g.n, y, s, g.shards[y], g.shards[s], g.relays[y][s], g.arrived[y][s], g.readies[y][s],
                g.xfers[y][s]);
    assert ShardAt(g, s);
    RelaysOnTheWay(g, s, y);
    XferToOk(g.maps, g.n, s, y, g.shards[s]);
    hide ShardInv;
    ExtractSender(g.maps, g.n, s, y, g.shards[s], g'.shards[s], g.shards[y],
                  g.relays[s][y], g.arrived[s][y], g.readies[s][y], g.xfers[s][y], XferTo(g.shards[s], s, g.n, y));
    ExtractReceiver(g.maps, g.n, y, s, g.shards[y], g.shards[s], g'.shards[s],
                    g.relays[y][s], g.arrived[y][s], g.readies[y][s], g.xfers[y][s]);
  }

  lemma ExtractKeepsInv(g: System, s: ShardId)
    requires Inv(g) && Enabled(g, Extract(s))
    ensures Inv(Next(g, Extract(s)))
  {
    hide PairInv, ShardInv, HomeAt, After;
    var g' := Next(g, Extract(s));
    ExtractShard(g, s);
    forall y | 0 <= y < g.n && y != s
      ensures PairAt(g', s, y) && PairAt(g', y, s)
    {
      ExtractPair(g, s, y);
    }
    Assemble(g, g', s);
  }

  /** Passing the barrier keeps the invariant if and only if nothing on its way to the leader is
      decided by an account that leaves it: the assumption made of the step is exact. */
  lemma ExtractSafeIff(g: System, s: ShardId)
    requires Inv(g) && s < g.n && g.shards[s].phase.Ready? && BarrierPasses(g.shards[s], g.n)
    ensures g.shards[s].changes != [] && (Inv(Extracting(g, s)) <==> NoneLate(g, s))
  {
    assert ShardAt(g, s);
    hide HomeAt, PairInv, XferTo, ExtractQueue, NoneLate;
    if NoneLate(g, s) {
      ExtractKeepsInv(g, s);
    } else {
      SomeLate(g, s);
    }
  }

  lemma SomeLate(g: System, s: ShardId)
    requires Inv(g) && s < g.n && g.shards[s].phase.Ready? && g.shards[s].changes != [] && !NoneLate(g, s)
    ensures !Inv(Extracting(g, s))
  {
    assert Shape(g);
    hide Inv, Extracting, Leaves;
    if i :| 0 <= i < |g.injects[s]| && Leaves(g.shards[s], s, g.injects[s][i]) {
      LateInjection(g, s, i);
    } else {
      var p :| 0 <= p < g.n && p != s && !NoneLeaves(g.shards[s], s, g.relays[p][s]);
      var relay := g.relays[p][s];
      var i, j :| 0 <= i < |relay| && 0 <= j < |relay[i].txs| && Leaves(g.shards[s], s, relay[i].txs[j]);
      LateRelay(g, s, p, i, j);
    }
  }

  /** The leader extracts, and its queue aside only its phase changes. */
  lemma AfterExtracting(g: System, s: ShardId)
    requires Shape(g) && s < g.n && g.shards[s].changes != []
    ensures var g' := Extracting(g, s);
            && g'.n == g.n && g'.maps == g.maps && g'.injects == g.injects && g'.relays == g.relays
            && |g'.shards| == |g.shards| && g'.shards[s].phase.Extracted? && g'.shards[s].round == g.shards[s].round
  {
    hide After, SentTo, AppendRow;
  }

  lemma LateInjection(g: System, s: ShardId, i: nat)
    requires Inv(g) && s < g.n && g.shards[s].phase.Ready? && g.shards[s].changes != []
    requires i < |g.injects[s]| && Leaves(g.shards[s], s, g.injects[s][i])
    ensures !Inv(Extracting(g, s))
  {
    var g' := Extracting(g, s);
    AfterExtracting(g, s);
    assert ShardAt(g, s);
    hide Extracting, PairInv, HomeAt, Leaves, PeersInv, MapsInv;
    StaysIff(g.maps, g.n, s, g.shards[s], g.injects[s][i]);
    assert Inv(g') ==> ShardAt(g', s);
  }

  lemma LateRelay(g: System, s: ShardId, p: ShardId, i: nat, j: nat)
    requires Inv(g) && s < g.n && p < g.n && p != s && g.shards[s].phase.Ready? && g.shards[s].changes != []
    requires i < |g.relays[p][s]| && j < |g.relays[p][s][i].txs| && Leaves(g.shards[s], s, g.relays[p][s][i].txs[j])
    ensures !Inv(Extracting(g, s))
  {
    var g' := Extracting(g, s);
    AfterExtracting(g, s);
    assert ShardAt(g, s) && PairAt(g, p, s);
    hide Extracting, HomeAt, Leaves, TxsInv, PeersInv, MapsInv, ReadyInv, XferInv, CountInv, ArrivedInv;
    StaysIff(g.maps, g.n, s, g.shards[s], g.relays[p][s][i].txs[j]);
    assert Inv(g') ==> PairAt(g', p, s);
  }

  // ----- collecting the extracts -----

  lemma {:induction false} MergedStatesKeys(collected: map<ShardId, Xfer>, order: seq<ShardId>, a: Address)
    requires forall i | 0 <= i < |order| :: order[i] in collected
    ensures a in MergedStates(collected, order) <==> exists i :: 0 <= i < |order| && a in collected[order[i]].states
  {
    if order != [] {
      var last := |order| - 1;
      MergedStatesKeys(collected, order[..last], a);
      if a in MergedStates(collected, order[..last]) {
        var i :| 0 <= i < last && a in collected[order[..last][i]].states;
        assert order[i] == order[..last][i];
      }
    }
  }

  lemma {:induction false} MergedTxsFrom(collected: map<ShardId, Xfer>, order: seq<ShardId>, k: nat)
    returns (i: nat, j: nat)
    requires forall i | 0 <= i < |order| :: order[i] in collected
    requires k < |MergedTxs(collected, order)|
    ensures i < |order| && j < |collected[order[i]].txs|
    ensures MergedTxs(collected, order)[k] == collected[order[i]].txs[j]
  {
    var last := |order| - 1;
    var before := MergedTxs(collected, order[..last]);
    if k < |before| {
      i, j := MergedTxsFrom(collected, order[..last], k);
    } else {
      i, j := last, k - |before|;
    }
  }

  lemma {:induction false} MergedTxsAll(collected: map<ShardId, Xfer>, order: seq<ShardId>, i: nat, j: nat)
    returns (k: nat)
    requires forall i | 0 <= i < |order| :: order[i] in collected
    requires i < |order| && j < |collected[order[i]].txs|
    ensures k < |MergedTxs(collected, order)| && MergedTxs(collected, order)[k] == collected[order[i]].txs[j]
  {
    var last := |order| - 1;
    if i < last {
      k := MergedTxsAll(collected, order[..last], i, j);
    } else {
      k := |MergedTxs(collected, order[..last])| + j;
    }
  }

  /** The new map does not place the deciding account of transaction j from shard p here; an account
      it does not list counts as placed in shard 0. */
  predicate Misplaced(collected: map<ShardId, Xfer>, m: Placement, s: ShardId, p: ShardId, j: nat) {
    && p in collected && j < |collected[p].txs|
    && var tx := collected[p].txs[j];
       var a := if tx.relayed then tx.recipient else tx.sender;
       if a in m then m[a] != s else s != 0
  }

  /** Proposing a migration panics exactly when an extract has such a transaction, whatever the order
      of merging. */
  lemma {:induction false} MergePanicsIff(collected: map<ShardId, Xfer>, order: seq<ShardId>, m: Placement, s: ShardId)
    requires Enumerates(order, collected.Keys)
    ensures MergePanics(MergedTxs(collected, order), m, s) <==> exists p, j :: Misplaced(collected, m, s, p, j)
  {
    var txs := MergedTxs(collected, order);
    if MergePanics(txs, m, s) {
      var k :| 0 <= k < |txs| && Lookup(m, KeyOf(txs[k])) != s;
      var i, j := MergedTxsFrom(collected, order, k);
      assert Misplaced(collected, m, s, order[i], j);
    }
    if p, j :| Misplaced(collected, m, s, p, j) {
      var i :| 0 <= i < |order| && order[i] == p;
      var k := MergedTxsAll(collected, order, i, j);
      assert Lookup(m, KeyOf(txs[k])) != s;
    }
  }

  /** The collected extracts hold the arriving accounts and their transactions, and the
      "error tx" panic is not reached. */
  lemma {:induction false} CollectedOk(maps: seq<Placement>, n: nat, s: ShardId, sh: Shard, order: seq<ShardId>)
    requires n > 0 && s < n && sh.round < |maps|
    requires forall k, a | 0 <= k < |maps| && a in maps[k] :: maps[k][a] < n
    requires Enumerates(order, sh.collected.Keys)
    requires forall p | 0 <= p < n && p != s :: p in sh.collected
    requires forall p | p in sh.collected :: p < n && p != s && XferOk(maps, n, sh.round, p, s, sh.collected[p])
    ensures forall a :: a in MergedStates(sh.collected, order) <==> Arriving(maps, n, sh.round, s, a)
    ensures AllAtHome(maps, n, sh.round + 1, s, MergedTxs(sh.collected, order))
    ensures !MergePanics(MergedTxs(sh.collected, order), maps[sh.round], s)
  {
    forall a
      ensures a in MergedStates(sh.collected, order) <==> Arriving(maps, n, sh.round, s, a)
    {
      MergedStatesKeys(sh.collected, order, a);
      if Arriving(maps, n, sh.round, s, a) {
        HomeInRange(maps, n, sh.round, a);
        var p := HomeAt(maps, n, sh.round, a);
        assert XferOk(maps, n, sh.round, p, s, sh.collected[p]);
        assert p in order;
      }
    }
    var txs := MergedTxs(sh.collected, order);
    forall k | 0 <= k < |txs|
      ensures KeyOf(txs[k]) in maps[sh.round] && maps[sh.round][KeyOf(txs[k])] == s
    {
      var i, j := MergedTxsFrom(sh.collected, order, k);
      assert XferOk(maps, n, sh.round, order[i], s, sh.collected[order[i]]);
    }
  }

  lemma CollectedFrom(g: System, s: ShardId)
    requires Inv(g) && s < g.n
    ensures g.shards[s].round <= |g.maps|
    ensures forall p | p in g.shards[s].collected ::
              p < g.n && p != s && g.shards[s].round < |g.maps|
              && XferOk(g.maps, g.n, g.shards[s].round, p, s, g.shards[s].collected[p])
              && ExtractCount(g.shards[p]) == g.shards[s].round + 1 && g.xfers[p][s] == []
  {
    hide HomeAt, XferOk, RelayOk;
    assert ShardAt(g, s);
    forall p | p in g.shards[s].collected
      ensures p < g.n && p != s && g.shards[s].round < |g.maps|
              && XferOk(g.maps, g.n, g.shards[s].round, p, s, g.shards[s].collected[p])
              && ExtractCount(g.shards[p]) == g.shards[s].round + 1 && g.xfers[p][s] == []
    {
      assert PairAt(g, p, s);
    }
  }

  lemma MergeShard(g: System, s: ShardId, order: seq<ShardId>)
    requires Inv(g) && Enabled(g, Merge(s, order))
    ensures ShardAt(Next(g, Merge(s, order)), s)
    ensures !Next(g, Merge(s, order)).shards[s].phase.Crashed?
  {
    hide PairInv, HomeAt, XferOk, MergedTxs, MergedStates;
    assert ShardAt(g, s);
    CollectedFrom(g, s);
    CollectedOk(g.maps, g.n, s, g.shards[s], order);
    hide Arriving;
  }

  /** Proposing a migration keeps the invariant; in particular it does not panic. */
  lemma MergeKeepsInv(g: System, s: ShardId, order: seq<ShardId>)
    requires Inv(g) && Enabled(g, Merge(s, order))
    ensures Inv(Next(g, Merge(s, order)))
  {
    hide PairInv, ShardInv, MergedTxs, MergedStates, Enumerates;
    MergeShard(g, s, order);
    LocalStep(g, Next(g, Merge(s, order)), s);
  }

  // ----- installing the map -----

  lemma InstallSender(maps: seq<Placement>, n: nat, s: ShardId, t: ShardId, a: Shard, a': Shard, b: Shard,
                      relay: seq<Relay>, arrived: seq<nat>, ready: seq<nat>, xfer: seq<Xfer>)
    requires n > 0 && ExtractCount(a) <= |maps| && ExtractCount(b) <= |maps|
    requires PairInv(maps, n, s, t, a, b, relay, arrived, ready, xfer)
    requires a.phase.Merged? && a'.phase.Idle? && a'.round == a.round + 1 && a'.seqID == a.seqID + 1
    requires ExtractCount(b) == a.round + 1
    requires b.round == a.round ==> s in b.readySet
    ensures PairInv(maps, n, s, t, a', b, relay, arrived, ready, xfer)
  {
    hide HomeAt, XferOk, RelayOk;
  }

  lemma InstallReceiver(maps: seq<Placement>, n: nat, s: ShardId, t: ShardId, a: Shard, b: Shard, b': Shard,
                        relay: seq<Relay>, arrived: seq<nat>, ready: seq<nat>, xfer: seq<Xfer>)
    requires n > 0 && ExtractCount(a) <= |maps| && ExtractCount(b) <= |maps|
    requires PairInv(maps, n, s, t, a, b, relay, arrived, ready, xfer)
    requires b.phase.Merged? && b'.phase.Idle? && b'.round == b.round + 1
    requires b'.readySet == {} && b'.collected == map[] && b'.heard == b.heard
    requires s in b.readySet && s in b.collected
    ensures PairInv(maps, n, s, t, a, b', relay, arrived, ready, xfer)
  {
    hide HomeAt, XferOk, RelayOk;
  }

  lemma InstallShard(g: System, s: ShardId)
    requires Inv(g) && Enabled(g, CommitPartition(s))
    ensures ShardAt(Next(g, CommitPartition(s)), s)
  {
    hide PairInv;
    assert ShardAt(g, s);
    var g' := Next(g, CommitPartition(s));
    var sh, sh' := g.shards[s], g'.shards[s];
    forall a
      ensures Place(sh'.pmap, g.n, a) == HomeAt(g.maps, g.n, sh'.round, a)
    {
      assert Place(sh.pmap, g.n, a) == HomeAt(g.maps, g.n, sh.round, a);
    }
    assert RoundInv(g'.maps, g'.n, sh');
    hide HomeAt;
    assert TxsInv(g'.maps, g'.n, s, sh', g'.injects[s]);
    assert PeersInv(g'.maps, g'.n, s, sh');
  }

  lemma InstallPair(g: System, s: ShardId, y: ShardId)
    requires Inv(g) && Enabled(g, CommitPartition(s)) && y < g.n && y != s
    ensures PairAt(Next(g, CommitPartition(s)), s, y) && PairAt(Next(g, CommitPartition(s)), y, s)
  {
    hide PairInv, HomeAt;
    var g' := Next(g, CommitPartition(s));
    assert ShardAt(g, s) && ShardAt(g, y);
    assert PairAt(g, s, y) && PairAt(g, y, s);
    CollectedFrom(g, s);
    InstallSender(g.maps, g.n, s, y, g.shards[s], g'.shards[s], g.shards[y],
                  g.relays[s][y], g.arrived[s][y], g.readies[s][y], g.xfers[s][y]);
    InstallReceiver(g.maps, g.n, y, s, g.shards[y], g.shards[s], g'.shards[s],
                    g.relays[y][s], g.arrived[y][s], g.readies[y][s], g.xfers[y][s]);
  }

  lemma CommitPartitionKeepsInv(g: System, s: ShardId)
    requires Inv(g) && Enabled(g, CommitPartition(s))
    ensures Inv(Next(g, CommitPartition(s)))
  {
    hide PairInv, ShardInv, HomeAt, Install;
    var g' := Next(g, CommitPartition(s));
    InstallShard(g, s);
    assert ExtractCount(g'.shards[s]) == ExtractCount(g.shards[s]) by { InstallCount(g, s); }
    forall y | 0 <= y < g.n && y != s
      ensures PairAt(g', s, y) && PairAt(g', y, s)
    {
      InstallPair(g, s, y);
    }
    Assemble(g, g', s);
  }

  lemma InstallCount(g: System, s: ShardId)
    requires Inv(g) && Enabled(g, CommitPartition(s))
    ensures ExtractCount(Next(g, CommitPartition(s)).shards[s]) == ExtractCount(g.shards[s])
  {
    assert ShardAt(g, s);
  }
}
