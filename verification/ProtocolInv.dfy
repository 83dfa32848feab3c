/** The invariant of the migration protocol.  It is indexed by how far each shard has come:
    a shard that has not yet extracted holds transactions that belong to it under the map
    it has installed, one that has extracted holds those of the next map. */
module ProtocolInv {
  import opened Core
  import opened Protocol

  /** The shard an account lives in after the first k maps. */
  ghost function HomeAt(maps: seq<Placement>, n: nat, k: nat, a: Address): ShardId
    requires n > 0 && k <= |maps|
  {
    if k == 0 then Addr2Shard(a, n)
    else if a in maps[k - 1] then maps[k - 1][a]
    else HomeAt(maps, n, k - 1, a)
  }

  ghost predicate AtHome(maps: seq<Placement>, n: nat, k: nat, s: ShardId, tx: Tx)
    requires n > 0 && k <= |maps|
  {
    HomeAt(maps, n, k, KeyOf(tx)) == s
  }

  ghost predicate AllAtHome(maps: seq<Placement>, n: nat, k: nat, s: ShardId, txs: seq<Tx>)
    requires n > 0 && k <= |maps|
  {
    forall i | 0 <= i < |txs| :: AtHome(maps, n, k, s, txs[i])
  }

  // ----- progress counters -----

  /** How many times a shard has announced that it is ready, and has extracted. */
  ghost function ReadyCount(sh: Shard): nat {
    sh.round + if InMigration(sh) then 1 else 0
  }

  ghost function ExtractCount(sh: Shard): nat {
    sh.round + if sh.phase.Extracted? || sh.phase.Merged? then 1 else 0
  }

  // ----- one shard -----

  /** The states of an installed migration are those of exactly the arriving accounts. */
  ghost predicate Arriving(maps: seq<Placement>, n: nat, k: nat, s: ShardId, a: Address)
    requires n > 0 && k < |maps|
  {
    a in maps[k] && maps[k][a] == s && HomeAt(maps, n, k, a) != s
  }

  ghost predicate RoundInv(maps: seq<Placement>, n: nat, sh: Shard)
    requires n > 0
  {
    && !sh.phase.Crashed?
    && sh.round <= |sh.changes| <= sh.round + 1
    && |sh.changes| <= |maps|
    && sh.changes == maps[..|sh.changes|]
    && (sh.partitionOn <==> |sh.changes| == sh.round + 1)
    && (InMigration(sh) ==> sh.partitionOn)
    && forall a :: Place(sh.pmap, n, a) == HomeAt(maps, n, sh.round, a)
  }

  ghost predicate TxsInv(maps: seq<Placement>, n: nat, s: ShardId, sh: Shard, inject: seq<Tx>)
    requires n > 0 && RoundInv(maps, n, sh)
  {
    && AllAtHome(maps, n, ExtractCount(sh), s, sh.queue)
    && AllAtHome(maps, n, ExtractCount(sh), s, inject)
    && (forall i | 0 <= i < |inject| :: !inject[i].relayed)
    && (sh.phase.Proposed? ==> AllAtHome(maps, n, sh.round, s, sh.phase.body))
  }

  ghost predicate PeersInv(maps: seq<Placement>, n: nat, s: ShardId, sh: Shard)
    requires n > 0 && RoundInv(maps, n, sh)
  {
    && (forall p | p in sh.readySet :: p < n)
    && (s in sh.readySet <==> InMigration(sh))
    && (forall p | p in sh.collected :: p < n && p != s)
    && (forall p | p in sh.heard :: p < n && p != s)
    && (sh.collectOver ==> forall p | 0 <= p < n && p != s :: p in sh.collected)
    && (sh.phase.Extracted? || sh.phase.Merged? ==> forall p | 0 <= p < n :: p in sh.readySet)
    && (sh.phase.Merged? ==>
          && sh.collectOver
          && sh.phase.msg.changes == maps[sh.round]
          && sh.phase.msg.atid == sh.round + 1
          && forall a :: a in sh.phase.msg.states <==> Arriving(maps, n, sh.round, s, a))
  }

  ghost predicate ShardInv(maps: seq<Placement>, n: nat, s: ShardId, sh: Shard, inject: seq<Tx>)
    requires n > 0
  {
    && RoundInv(maps, n, sh)
    && TxsInv(maps, n, s, sh, inject)
    && PeersInv(maps, n, s, sh)
  }

  // ----- a sender a (shard s), a receiver b (shard t) and the channels from s to t -----

  /** Nobody extracts before all are ready, nobody installs before all have extracted. */
  ghost predicate CountInv(a: Shard, b: Shard) {
    && ExtractCount(a) <= ReadyCount(b) && a.round <= ExtractCount(b)
    && ExtractCount(b) <= ReadyCount(a) && b.round <= ExtractCount(a)
  }

  ghost predicate ReadyInv(s: ShardId, a: Shard, b: Shard, ready: seq<nat>) {
    && |ready| <= 1
    && (|ready| == 1 ==> InMigration(a) && ready[0] == a.seqID && ReadyCount(a) > b.round)
    && (s in b.readySet ==> ReadyCount(a) > b.round)
    && (ReadyCount(a) == b.round + 1 && s in b.readySet ==>
          && ready == []
          && (a.round == b.round ==> s in b.readySeq && b.readySeq[s] == a.seqID))
  }

  ghost predicate RelayInv(maps: seq<Placement>, n: nat, s: ShardId, t: ShardId, a: Shard, b: Shard,
                           relay: seq<Relay>, arrived: seq<nat>)
    requires n > 0 && ExtractCount(b) <= |maps|
  {
    && (forall i | 0 <= i < |relay| :: relay[i].seqID < a.seqID)
    && (forall i | 0 <= i < |arrived| :: arrived[i] < a.seqID)
    && ArrivedInv(s, a, b, relay, arrived)
    && (forall i | 0 <= i < |relay| :: RelayOk(maps, n, ExtractCount(b), t, relay[i].txs))
  }

  /** Every number of the sender but the first and those of installed maps stands for a relay
      that is on its way or has arrived; the last to arrive is the one remembered. */
  ghost predicate ArrivedInv(s: ShardId, a: Shard, b: Shard, relay: seq<Relay>, arrived: seq<nat>) {
    && |relay| + |arrived| + 1 + a.round == a.seqID
    && (s in b.heard <==> arrived != [])
    && (s in b.heard ==> b.heard[s] == arrived[|arrived| - 1])
  }

  ghost predicate RelayOk(maps: seq<Placement>, n: nat, k: nat, t: ShardId, txs: seq<Tx>)
    requires n > 0 && k <= |maps|
  {
    AllAtHome(maps, n, k, t, txs) && forall i | 0 <= i < |txs| :: txs[i].relayed
  }

  /** An extract from s to t in the round that installs map k. */
  ghost predicate XferOk(maps: seq<Placement>, n: nat, k: nat, s: ShardId, t: ShardId, x: Xfer)
    requires n > 0 && k < |maps|
  {
    && (forall a :: a in x.states <==> Arriving(maps, n, k, t, a) && HomeAt(maps, n, k, a) == s)
    && (forall i | 0 <= i < |x.txs| :: KeyOf(x.txs[i]) in maps[k] && maps[k][KeyOf(x.txs[i])] == t)
  }

  ghost predicate XferInv(maps: seq<Placement>, n: nat, s: ShardId, t: ShardId, a: Shard, b: Shard, xfer: seq<Xfer>)
    requires n > 0 && ExtractCount(a) <= |maps|
  {
    && |xfer| <= 1
    && (xfer != [] || s in b.collected ==> ExtractCount(a) == b.round + 1)
    && (ExtractCount(a) == b.round + 1 ==> (xfer == [] <==> s in b.collected))
    && (xfer != [] ==> XferOk(maps, n, b.round, s, t, xfer[0]))
    && (s in b.collected ==> XferOk(maps, n, b.round, s, t, b.collected[s]))
  }

  ghost predicate PairInv(maps: seq<Placement>, n: nat, s: ShardId, t: ShardId, a: Shard, b: Shard,
                          relay: seq<Relay>, arrived: seq<nat>, ready: seq<nat>, xfer: seq<Xfer>)
    requires n > 0 && ExtractCount(a) <= |maps| && ExtractCount(b) <= |maps|
  {
    && CountInv(a, b)
    && ReadyInv(s, a, b, ready)
    && RelayInv(maps, n, s, t, a, b, relay, arrived)
    && XferInv(maps, n, s, t, a, b, xfer)
  }

  // ----- the system -----

  ghost predicate MapsInv(g: System)
    requires Shape(g)
  {
    && (forall k, a | 0 <= k < |g.maps| && a in g.maps[k] :: g.maps[k][a] < g.n)
    && g.epoch <= |g.maps| <= g.epoch + 1
    && (forall a :: Place(g.modified, g.n, a) == HomeAt(g.maps, g.n, |g.maps|, a))
    && (forall s | 0 <= s < g.n :: g.epoch <= ExtractCount(g.shards[s]))
    && (forall s, e | 0 <= s < g.n && e in g.infos :: e <= ExtractCount(g.shards[s]))
  }

  ghost predicate ShardAt(g: System, s: ShardId)
    requires Shape(g) && s < g.n
  {
    ShardInv(g.maps, g.n, s, g.shards[s], g.injects[s])
  }

  ghost predicate PairAt(g: System, s: ShardId, t: ShardId)
    requires Shape(g) && s < g.n && t < g.n
  {
    && ExtractCount(g.shards[s]) <= |g.maps| && ExtractCount(g.shards[t]) <= |g.maps|
    && PairInv(g.maps, g.n, s, t, g.shards[s], g.shards[t], g.relays[s][t], g.arrived[s][t], g.readies[s][t],
               g.xfers[s][t])
  }

  ghost predicate Inv(g: System) {
    && Shape(g)
    && MapsInv(g)
    && (forall s | 0 <= s < g.n :: ShardAt(g, s))
    && (forall s, t | 0 <= s < g.n && 0 <= t < g.n && s != t :: PairAt(g, s, t))
  }

  // ----- consequences -----

  lemma {:induction false} HomeInRange(maps: seq<Placement>, n: nat, k: nat, a: Address)
    requires n > 0 && k <= |maps|
    requires forall j, x | 0 <= j < |maps| && x in maps[j] :: maps[j][x] < n
    ensures HomeAt(maps, n, k, a) < n
  {
    if k > 0 {
      HomeInRange(maps, n, k - 1, a);
    }
  }

  /** Later maps do not change earlier placements. */
  lemma {:induction false} HomeStable(maps: seq<Placement>, m: Placement, n: nat, k: nat, a: Address)
    requires n > 0 && k <= |maps|
    ensures HomeAt(maps + [m], n, k, a) == HomeAt(maps, n, k, a)
  {
    if k > 0 {
      HomeStable(maps, m, n, k - 1, a);
    }
  }
}
