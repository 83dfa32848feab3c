/** What the steps of a migration wait for, in terms of the whole system. */
module Progress {
  import opened Core
  import opened Sums
  import opened Extraction
  import opened Protocol
  import opened ProtocolInv
  import opened MigrationSteps
  import opened ProtocolSafety

  // ----- the barrier -----

  /** The readiness of s has reached t, and the last relay that has arrived from s, if any, carries the
      number before the current one of s. */
  ghost predicate Heard(g: System, s: ShardId, t: ShardId)
    requires Shape(g) && s < g.n && t < g.n
  {
    var arrived := g.arrived[s][t];
    s in g.shards[t].readySet && (arrived != [] ==> arrived[|arrived| - 1] + 1 == g.shards[s].seqID)
  }

  /** A waiting leader passes the barrier exactly when that holds of every peer. */
  lemma BarrierIff(g: System, t: ShardId)
    requires Inv(g) && t < g.n && g.shards[t].phase.Ready?
    ensures BarrierPasses(g.shards[t], g.n) <==> forall s | 0 <= s < g.n && s != t :: Heard(g, s, t)
  {
    assert ShardAt(g, t);
    var sh := g.shards[t];
    forall s | 0 <= s < g.n && s != t
      ensures BarrierPasses(sh, g.n) ==> Heard(g, s, t)
      ensures Heard(g, s, t) && s in sh.heard ==> s in sh.readySeq && sh.readySeq[s] == sh.heard[s] + 1
    {
      PeerHeard(g, s, t);
    }
    if forall s | 0 <= s < g.n && s != t :: Heard(g, s, t) {
      PeersBelow(sh, g.maps, g.n, t);
      forall s | 0 <= s < g.n
        ensures s in sh.readySet
      {
        assert s != t ==> Heard(g, s, t);
      }
      assert sh.readySet == Upto(g.n);
    }
  }

  lemma {:induction false} PeersBelow(sh: Shard, maps: seq<Placement>, n: nat, t: ShardId)
    requires n > 0 && RoundInv(maps, n, sh) && PeersInv(maps, n, t, sh)
    ensures sh.readySet <= Upto(n) && forall p | p in sh.heard :: 0 <= p < n && p != t
  {
  }

  /** The number a peer announced in this round is its current one. */
  lemma PeerHeard(g: System, s: ShardId, t: ShardId)
    requires Inv(g) && s < g.n && t < g.n && s != t && g.shards[t].phase.Ready?
    ensures BarrierPasses(g.shards[t], g.n) ==> Heard(g, s, t)
    ensures Heard(g, s, t) && s in g.shards[t].heard ==>
              s in g.shards[t].readySeq && g.shards[t].readySeq[s] == g.shards[t].heard[s] + 1
  {
    hide HomeAt, XferOk, RelayOk;
    assert PairAt(g, s, t);
    if BarrierPasses(g.shards[t], g.n) {
      BarrierAll(g, t);
    }
  }

  // ----- collecting the extracts -----

  /** The extracts of all peers are here. */
  ghost predicate AllHere(sh: Shard, n: nat, s: ShardId) {
    forall p | 0 <= p < n && p != s :: p in sh.collected
  }

  /** The flag is set exactly when they are, if there are peers. */
  ghost predicate FlagOk(sh: Shard, n: nat, s: ShardId) {
    sh.collectOver <==> n > 1 && AllHere(sh, n, s)
  }

  ghost predicate FlagsOk(g: System) {
    forall s | 0 <= s < |g.shards| :: FlagOk(g.shards[s], g.n, s)
  }

  lemma NoneHere(sh: Shard, n: nat, s: ShardId)
    requires sh.collected == map[] && s < n
    ensures AllHere(sh, n, s) <==> n == 1
  {
    if n > 1 {
      var p := if s == 0 then 1 else 0;
      assert p !in sh.collected;
    }
  }

  lemma OneMoreHere(sh: Shard, n: nat, s: ShardId, from: ShardId, x: Xfer)
    requires s < n && from < n && from != s && FlagOk(sh, n, s)
    requires forall p | p in sh.collected :: p < n && p != s
    ensures FlagOk(OnXfer(sh, n, from, x), n, s)
  {
    var sh' := OnXfer(sh, n, from, x);
    assert |sh'.collected| == |sh'.collected.Keys|;
    FullIff(sh'.collected.Keys, n, s);
    assert AllHere(sh, n, s) ==> AllHere(sh', n, s);
    assert AllHere(sh', n, s) <==> forall p | 0 <= p < n && p != s :: p in sh'.collected.Keys;
    hide AllHere;
  }

  lemma FullIff(keys: set<ShardId>, n: nat, s: ShardId)
    requires s < n && forall p | p in keys :: p < n && p != s
    ensures |keys| == n - 1 <==> forall p | 0 <= p < n && p != s :: p in keys
  {
    if |keys| == n - 1 {
      AllOthers(keys, n, s);
    }
    if forall p | 0 <= p < n && p != s :: p in keys {
      assert keys == Upto(n) - {s};
    }
  }

  lemma FlagsNext(g: System, act: Action)
    requires Inv(g) && Enabled(g, act) && FlagsOk(g)
    ensures FlagsOk(Next(g, act))
  {
    var g' := Next(g, act);
    forall s | 0 <= s < |g'.shards|
      ensures FlagOk(g'.shards[s], g'.n, s)
    {
      FlagNext(g, act, s);
    }
  }

  lemma FlagNext(g: System, act: Action, s: ShardId)
    requires Inv(g) && Enabled(g, act) && s < g.n && FlagOk(g.shards[s], g.n, s)
    ensures |Next(g, act).shards| == g.n == Next(g, act).n && FlagOk(Next(g, act).shards[s], g.n, s)
  {
    LeaderByStep(g, act, s);
    CollectedBelow(g, s);
    hide Inv, Next, FlagOk, OnXfer;
    if act.DeliverXfer? && act.to == s {
      OneMoreHere(g.shards[s], g.n, s, act.from, g.xfers[act.from][s][0]);
    }
    CollectedSame(g.shards[s], Next(g, act).shards[s], g.n, s);
  }

  lemma CollectedBelow(g: System, s: ShardId)
    requires Inv(g) && s < g.n
    ensures forall p | p in g.shards[s].collected :: p < g.n && p != s
  {
    assert ShardAt(g, s);
    hide RoundInv, TxsInv;
  }

  /** Only an arriving extract and installing a map touch what has been collected, and the sequence
      number and the height move together. */
  ghost predicate LeaderMoves(g: System, act: Action, s: ShardId)
    requires Shape(g) && Enabled(g, act) && s < g.n
  {
    var g' := Next(g, act);
    && |g'.shards| == g.n == g'.n
    && var sh, sh' := g.shards[s], g'.shards[s];
       && sh'.seqID - sh'.height == sh.seqID - sh.height
       && if act.DeliverXfer? && act.to == s then
            sh' == OnXfer(sh, g.n, act.from, g.xfers[act.from][s][0])
          else if act == CommitPartition(s) then sh'.collected == map[] && !sh'.collectOver
          else sh'.collected == sh.collected && sh'.collectOver == sh.collectOver
  }

  lemma LeaderByStep(g: System, act: Action, s: ShardId)
    requires Shape(g) && Enabled(g, act) && s < g.n
    ensures LeaderMoves(g, act, s)
  {
    hide Shape, LeaderMoves, Enabled;
    if act.CommitBlock? || act.Merge? || act.CommitPartition? || act.Extract? {
      MovesByLeader(g, act, s);
    } else if act.DeliverXfer? || act.DeliverRelay? || act.DeliverReady? {
      MovesByDelivery(g, act, s);
    } else {
      MovesElse(g, act, s);
    }
  }

  lemma MovesByLeader(g: System, act: Action, s: ShardId)
    requires Shape(g) && Enabled(g, act) && s < g.n
    requires act.CommitBlock? || act.Merge? || act.CommitPartition? || act.Extract?
    ensures LeaderMoves(g, act, s)
  {
    hide AppendRow, RelaysOut, XfersOut, Install, BlockPanics, MergePanics, MergedTxs, MergedStates, After,
         BarrierPasses, NoneLate, Enumerates;
  }

  lemma MovesByDelivery(g: System, act: Action, s: ShardId)
    requires Shape(g) && Enabled(g, act) && s < g.n && (act.DeliverXfer? || act.DeliverRelay? || act.DeliverReady?)
    ensures LeaderMoves(g, act, s)
  {
    hide Pop, Remove, Note;
  }

  lemma MovesElse(g: System, act: Action, s: ShardId)
    requires Shape(g) && Enabled(g, act) && s < g.n
    requires !act.CommitBlock? && !act.Merge? && !act.CommitPartition? && !act.Extract?
    requires !act.DeliverXfer? && !act.DeliverRelay? && !act.DeliverReady?
    ensures LeaderMoves(g, act, s)
  {
    hide AppendRow;
  }

  lemma CollectedSame(sh: Shard, sh': Shard, n: nat, s: ShardId)
    requires s < n && FlagOk(sh, n, s)
    ensures sh'.collected == map[] && !sh'.collectOver ==> FlagOk(sh', n, s)
    ensures sh'.collected == sh.collected && sh'.collectOver == sh.collectOver ==> FlagOk(sh', n, s)
  {
    if sh'.collected == map[] {
      NoneHere(sh', n, s);
    }
  }

  lemma {:induction false} RunFlags(states: seq<System>, acts: seq<Action>, n: nat, beta: nat, i: nat)
    requires n > 0 && IsRun(states, acts, n, beta) && i < |states|
    ensures Inv(states[i]) && FlagsOk(states[i])
  {
    RunInv(states, acts, n, beta, i);
    if i == 0 {
      FirstFlags(n, beta);
    } else {
      RunFlags(states, acts, n, beta, i - 1);
      FlagsNext(states[i - 1], acts[i - 1]);
    }
  }

  lemma FirstFlags(n: nat, beta: nat)
    requires n > 0
    ensures FlagsOk(Init(n, beta))
  {
    forall s | 0 <= s < n
      ensures FlagOk(InitShard, n, s)
    {
      NoneHere(InitShard, n, s);
    }
  }

  /** In every run, a leader that has extracted can propose the migration exactly when every peer has
      extracted for the same round and its extract has arrived.  With a single shard it never can. */
  lemma MergesIff(states: seq<System>, acts: seq<Action>, n: nat, beta: nat, i: nat, s: ShardId)
    requires n > 0 && IsRun(states, acts, n, beta) && i < |states| && s < n
    requires states[i].n == n && Shape(states[i]) && states[i].shards[s].phase.Extracted?
    ensures var g := states[i];
            (exists order :: Enabled(g, Merge(s, order)))
            <==> n > 1 && forall p | 0 <= p < n && p != s ::
                   ExtractCount(g.shards[p]) == g.shards[s].round + 1 && g.xfers[p][s] == []
  {
    hide IsRun;
    RunFlags(states, acts, n, beta, i);
    var g := states[i];
    var order := Listed(g.shards[s].collected.Keys);
    assert Enabled(g, Merge(s, order)) <==> g.shards[s].collectOver by {
      assert ShardAt(g, s);
    }
    forall p | 0 <= p < n && p != s
      ensures p in g.shards[s].collected
              <==> ExtractCount(g.shards[p]) == g.shards[s].round + 1 && g.xfers[p][s] == []
    {
      HereIff(g, p, s);
    }
  }

  lemma HereIff(g: System, p: ShardId, s: ShardId)
    requires Inv(g) && p < g.n && s < g.n && p != s
    ensures p in g.shards[s].collected
            <==> ExtractCount(g.shards[p]) == g.shards[s].round + 1 && g.xfers[p][s] == []
  {
    hide HomeAt, XferOk, RelayOk, ReadyInv, RelayInv;
    assert PairAt(g, p, s);
  }

  /** A finite set of shards can be listed. */
  lemma Listed(keys: set<ShardId>) returns (order: seq<ShardId>)
    ensures Enumerates(order, keys)
  {
    order := [];
    var todo := keys;
    while todo != {}
      invariant todo <= keys && Enumerates(order, keys - todo)
      decreases todo
    {
      var k :| k in todo;
      order, todo := order + [k], todo - {k};
    }
    assert keys - todo == keys;
  }

  // ----- heights and epochs -----

  /** The sequence number of every leader is one above its height, through blocks and migrations. */
  lemma {:induction false} RunHeights(states: seq<System>, acts: seq<Action>, n: nat, beta: nat, i: nat, s: ShardId)
    requires n > 0 && IsRun(states, acts, n, beta) && i < |states| && s < n
    ensures |states[i].shards| == n && states[i].shards[s].seqID == states[i].shards[s].height + 1
  {
    RunSize(states, acts, n, beta, i);
    if i > 0 {
      RunSize(states, acts, n, beta, i - 1);
      RunHeights(states, acts, n, beta, i - 1, s);
      LeaderByStep(states[i - 1], acts[i - 1], s);
      hide Enabled, Next;
    }
  }

  /** When a shard that has installed every map commits a block, its report lets the supervisor send
      the next map. */
  lemma NextMapFollows(g: System, s: ShardId, m: Placement)
    requires Inv(g) && Enabled(g, CommitBlock(s)) && g.shards[s].round == |g.maps|
    requires forall a | a in m :: m[a] < g.n
    ensures var g1 := Next(g, CommitBlock(s));
            && Inv(g1) && Enabled(g1, ReceiveInfo(|g.maps|))
            && var g2 := Next(g1, ReceiveInfo(|g.maps|));
               Inv(g2) && Enabled(g2, SendMap(m)) && g2.epoch == |g.maps|
  {
    var g1 := Next(g, CommitBlock(s));
    InvNext(g, CommitBlock(s));
    assert |g.maps| in g1.infos && g1.maps == g.maps && g1.epoch == g.epoch && g1.n == g.n;
    assert MapsInv(g);
    hide Inv, CommitBody, RelaysOut, AppendRow, MapsInv;
    assert Enabled(g1, ReceiveInfo(|g.maps|));
    InvNext(g1, ReceiveInfo(|g.maps|));
    EpochMet(g);
  }

  lemma EpochMet(g: System)
    requires Inv(g)
    ensures g.epoch == |g.maps| || g.epoch + 1 == |g.maps|
  {
    assert MapsInv(g);
  }
}
