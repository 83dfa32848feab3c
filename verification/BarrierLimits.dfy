/** Runs of two shards that show what the assumptions of the migration protocol are for, and a
    run that completes a migration. */
module BarrierLimits {
  import opened Core
  import opened Ledger
  import opened Extraction
  import opened Protocol
  import opened ProtocolSafety
  import opened Limits

  // ----- to the barrier -----

  predicate AtRest(sh: Shard) {
    && sh.phase.Idle? && sh.changes == [] && sh.round == 0 && !sh.partitionOn && sh.pmap == map[]
    && sh.readySet == {} && sh.readySeq == map[] && sh.collected == map[] && !sh.collectOver
  }

  /** Two shards before the first map. */
  predicate Calm(g: System) {
    && Shape(g) && g.n == 2 && g.maps == [] && g.epoch == 0 && g.modified == map[] && g.beta == 1
    && AtRest(g.shards[0]) && AtRest(g.shards[1])
    && g.readies == Empty<nat>(2) && g.xfers == Empty<Xfer>(2)
  }

  /** A leader that has announced its readiness for map m and heard of the other's. */
  function Announced(sh: Shard, m: Placement, other: ShardId, otherSeq: nat): Shard {
    sh.(changes := [m], partitionOn := true, readySet := {0, 1}, readySeq := map[other := otherSeq], phase := Ready)
  }

  /** From before the first map to the barrier: both learn of a map and of each other's readiness;
      no relay, injection or account moves. */
  lemma ToBarrier(g: System, m: Placement) returns (g': System)
    requires Reachable(g, 2, 1) && Calm(g) && forall a | a in m :: m[a] < 2
    ensures Reachable(g', 2, 1) && Shape(g')
    ensures g' == g.(maps := [m], modified := g'.modified,
                     shards := [Announced(g.shards[0], m, 1, g.shards[1].seqID),
                                Announced(g.shards[1], m, 0, g.shards[0].seqID)])
  {
    hide Reachable;
    var g1 := Next(g, SendMap(m));
    ReachNext(g, SendMap(m), 2, 1);
    assert [] + [m] == [m];
    var g2 := Next(g1, DeliverMap(0));
    ReachNext(g1, DeliverMap(0), 2, 1);
    var g3 := Next(g2, DeliverMap(1));
    ReachNext(g2, DeliverMap(1), 2, 1);
    assert g3 == g.(maps := [m], modified := g1.modified,
                    shards := [g.shards[0].(changes := [m], partitionOn := true),
                               g.shards[1].(changes := [m], partitionOn := true)]);
    g' := BothReady(g3, m, g.shards[0], g.shards[1]);
  }

  lemma SameChannels<T>(c: Channels<T>, d: Channels<T>)
    requires Square(c, 2) && Square(d, 2)
    requires c[0][0] == d[0][0] && c[0][1] == d[0][1] && c[1][0] == d[1][0] && c[1][1] == d[1][1]
    ensures c == d
  {
    assert c[0] == d[0] && c[1] == d[1];
  }

  lemma BothReady(g: System, m: Placement, a: Shard, b: Shard) returns (g': System)
    requires Reachable(g, 2, 1) && Shape(g) && g.n == 2 && AtRest(a) && AtRest(b) && g.readies == Empty<nat>(2)
    requires g.shards == [a.(changes := [m], partitionOn := true), b.(changes := [m], partitionOn := true)]
    ensures Reachable(g', 2, 1) && Shape(g')
    ensures g' == g.(shards := [Announced(a, m, 1, b.seqID), Announced(b, m, 0, a.seqID)])
  {
    hide Reachable;
    var g1 := Next(g, BecomeReady(0));
    ReachNext(g, BecomeReady(0), 2, 1);
    var g2 := Next(g1, BecomeReady(1));
    ReachNext(g1, BecomeReady(1), 2, 1);
    assert g1.readies[0][1] == [] + [a.seqID] == [a.seqID] && g1.readies[1] == [[], []];
    assert g2.readies[1][0] == [] + [b.seqID] == [b.seqID] && g2.readies[0] == g1.readies[0];
    var g3 := Next(g2, DeliverReady(0, 1));
    ReachNext(g2, DeliverReady(0, 1), 2, 1);
    assert g3.readies[0][1] == [] && g3.readies[1][0] == [b.seqID];
    g' := Next(g3, DeliverReady(1, 0));
    ReachNext(g3, DeliverReady(1, 0), 2, 1);
    assert g'.readies[0][1] == [] && g'.readies[1][0] == [];
    SameChannels(g'.readies, Empty<nat>(2));
    assert {} + {1} + {0} == {0, 1} && {} + {0} + {1} == {0, 1};
    assert g'.shards == [Announced(a, m, 1, b.seqID), Announced(b, m, 0, a.seqID)];
  }

  // ----- what a late transaction does -----

  /** A transaction that reaches a leader after it has extracted, although the account that decides
      it has moved away: every block with it panics under the new map. */
  lemma LateTransactionPanics(sh: Shard, s: ShardId, n: nat, tx: Tx)
    requires n > 0 && sh.changes != [] && Leaves(sh, s, tx)
    ensures forall body | tx in body :: BlockPanics(body, sh.pmap + sh.changes[|sh.changes| - 1], s, n)
  {
    forall body | tx in body
      ensures BlockPanics(body, sh.pmap + sh.changes[|sh.changes| - 1], s, n)
    {
      var i :| 0 <= i < |body| && body[i] == tx;
    }
  }

  /** A leader passes the barrier although the transaction, which would make it panic, is still on
      its way to it: as a relay, or as an injection. */
  ghost predicate Unsafe(g: System, s: ShardId, tx: Tx) {
    && Shape(g) && s < g.n && g.shards[s].phase.Ready? && BarrierPasses(g.shards[s], g.n)
    && g.shards[s].changes != []
    && forall body | tx in body ::
         BlockPanics(body, g.shards[s].pmap + g.shards[s].changes[|g.shards[s].changes| - 1], s, g.n)
  }

  // ----- relays -----

  /** Committing the block puts the transaction on the channel to shard 1. */
  lemma CommitFirst(g: System, tx: Tx) returns (g': System)
    requires Crosses(tx) && Reachable(g, 2, 1)
    requires Shape(g) && g.n == 2 && g.shards == [Proposing(tx), A0] && g.injects == [[], []]
    requires g.relays == Empty<Relay>(2) && g.arrived == Empty<nat>(2) && g.readies == Empty<nat>(2)
             && g.xfers == Empty<Xfer>(2)
    requires g.maps == [] && g.modified == map[] && g.epoch == 0 && g.beta == 1
    ensures Reachable(g', 2, 1) && Calm(g') && g'.arrived == Empty<nat>(2)
    ensures g'.shards[1] == A0 && g'.shards[0].seqID == 2 && g'.shards[0].heard == map[] && g'.shards[0].queue == []
    ensures g'.relays[0][1] == [Relay([tx.(relayed := true)], 1)]
    ensures (g'.shards[0].accounts, g'.shards[0].book) == Execute(Env(0, 2, map[], 0, 1), map[], map[], [tx])
  {
    hide Reachable, Execute;
    assert [tx][..0] == [];
    assert OutTo([], map[], 2, 1) == [];
    assert OutTo([tx], map[], 2, 1) == [tx.(relayed := true)];
    assert !BlockPanics([tx], map[], 0, 2);
    g' := Next(g, CommitBlock(0));
    ReachNext(g, CommitBlock(0), 2, 1);
    assert g'.relays[0][1] == [] + [Relay([tx.(relayed := true)], 1)];
  }

  lemma FirstBlock(tx: Tx) returns (g: System)
    requires Crosses(tx)
    ensures Reachable(g, 2, 1) && Calm(g) && g.arrived == Empty<nat>(2)
    ensures g.shards[1] == A0 && g.shards[0].seqID == 2 && g.shards[0].heard == map[] && g.shards[0].queue == []
    ensures g.relays[0][1] == [Relay([tx.(relayed := true)], 1)]
    ensures (g.shards[0].accounts, g.shards[0].book) == Execute(Env(0, 2, map[], 0, 1), map[], map[], [tx])
  {
    var states0, acts0 := FirstSteps(tx, 1);
    var g3 := states0[3];
    assert Reachable(g3, 2, 1) by { assert states0[|states0| - 1] == g3; }
    hide IsRun, Init;
    g := CommitFirst(g3, tx);
  }

  /** The barrier ignores a shard no relay was ever received from: a leader can pass it while
      such a shard's first relay is still on its way. */
  lemma BarrierIgnoresUnheard()
    ensures exists g, tx ::
              && Reachable(g, 2, 1) && Unsafe(g, 1, tx)
              && g.shards[1].heard == map[] && exists i :: 0 <= i < |g.relays[0][1]| && g.relays[0][1][i].txs == [tx]
  {
    var tx := Transfer(1);
    var g1 := FirstBlock(tx);
    var m: Placement := map[1 := 0];
    var g := ToBarrier(g1, m);
    var late := tx.(relayed := true);
    hide Reachable;
    LateTransactionPanics(g.shards[1], 1, 2, late);
    assert Unsafe(g, 1, late);
    assert g.relays[0][1][0].txs == [late];
  }

  /** The barrier looks at the last relay only: when the second relay of a shard overtakes the
      first, a leader can pass the barrier while the first is still on its way. */
  lemma BarrierIgnoresOvertaken()
    ensures exists g, tx ::
              && Reachable(g, 2, 1) && Unsafe(g, 1, tx)
              && 0 in g.shards[1].heard && exists i :: 0 <= i < |g.relays[0][1]| && g.relays[0][1][i].txs == [tx]
  {
    var tx := Transfer(1);
    var g1 := FirstBlock(tx);
    var late := tx.(relayed := true);
    var g2 := SecondBlock(g1, Relay([late], 1));
    var m: Placement := map[1 := 0];
    var g := ToBarrier(g2, m);
    hide Reachable;
    LateTransactionPanics(g.shards[1], 1, 2, late);
    assert Unsafe(g, 1, late);
    assert g.relays[0][1][0].txs == [late];
  }

  /** Shard 0 commits an empty block, and its relay reaches shard 1 before the one sent earlier. */
  lemma SecondBlock(g: System, r: Relay) returns (g': System)
    requires Reachable(g, 2, 1) && Calm(g) && g.shards[1] == A0 && g.shards[0].seqID == 2 && g.shards[0].queue == []
    requires g.relays[0][1] == [r]
    ensures Reachable(g', 2, 1) && Calm(g') && g'.relays[0][1] == [r]
    ensures g'.shards[1].heard == map[0 := 2] && g'.shards[0].seqID == 3
  {
    hide Reachable, Execute;
    var g1 := Next(g, ProposeBlock(0, 0));
    ReachNext(g, ProposeBlock(0, 0), 2, 1);
    assert g1.shards[0].phase.body == [] && !BlockPanics([], map[], 0, 2);
    var g2 := Next(g1, CommitBlock(0));
    ReachNext(g1, CommitBlock(0), 2, 1);
    var second := RelaysOut(g1.shards[0], 2)[1];
    assert g2.relays[0][1] == [r] + [second] && second.seqID == 2;
    g' := Next(g2, DeliverRelay(0, 1, 1));
    ReachNext(g2, DeliverRelay(0, 1, 1), 2, 1);
    assert g'.relays[0][1] == [r, second][..1] + [r, second][2..] == [r];
  }

  // ----- injections -----

  /** The barrier knows nothing of injected transactions: a leader can pass it, with every relay
      arrived, while one is still on its way. */
  lemma BarrierIgnoresInjected()
    ensures exists g, tx ::
              && Reachable(g, 2, 1) && Unsafe(g, 0, tx) && g.n == 2 && AllArrived(g, 1, 0) && tx in g.injects[0]
  {
    var tx := Transfer(1);
    ReachInit(2, 1);
    var g0 := Init(2, 1);
    assert g0.shards == [A0, A0] && g0.injects == [[], []];
    var g1 := Next(g0, Inject(tx));
    ReachNext(g0, Inject(tx), 2, 1);
    assert [] + [tx] == [tx];
    assert g1.injects == [[tx], []];
    hide Reachable, Init;
    var m: Placement := map[0 := 1];
    var g := ToBarrier(g1, m);
    LateTransactionPanics(g.shards[0], 0, 2, tx);
    assert g.arrived[1][0] == [];
    assert Unsafe(g, 0, tx);
  }

  // ----- a complete migration -----

  /** The map of the run: account 1 moves from shard 1 to shard 0. */
  const Move1: Placement := map[1 := 0]

  /** The state of account 1 on its way. */
  const Moved1: Accounts := map[1 := AccountState(0, INIT_BALANCE)]

  /** The two leaders at the barrier, after extraction, after collection, and as they propose. */
  function Leader0(phase: Phase, collected: map<ShardId, Xfer>): Shard {
    Announced(A0, Move1, 1, 1).(phase := phase, collected := collected, collectOver := collected != map[])
  }

  function Leader1(phase: Phase, collected: map<ShardId, Xfer>): Shard {
    Announced(A0, Move1, 0, 1).(phase := phase, collected := collected, collectOver := collected != map[])
  }

  lemma Extractions(g: System) returns (g': System)
    requires Reachable(g, 2, 1) && Shape(g) && g.n == 2 && g.maps == [Move1] && g.injects == [[], []]
    requires g.shards == [Leader0(Ready, map[]), Leader1(Ready, map[])]
    requires g.relays == Empty<Relay>(2) && g.xfers == Empty<Xfer>(2)
    ensures Reachable(g', 2, 1) && Shape(g') && g'.n == 2 && g'.maps == g.maps
    ensures g'.shards == [Leader0(Extracted, map[]), Leader1(Extracted, map[])]
    ensures g'.xfers[0][1] == [Xfer(map[], [])] && g'.xfers[1][0] == [Xfer(Moved1, [])]
  {
    hide Reachable;
    Extract0();
    Extract1();
    hide ExtractQueue, XferTo;
    var g1 := Next(g, Extract(0));
    ReachNext(g, Extract(0), 2, 1);
    assert g1.xfers[0][1] == [] + [XferTo(g.shards[0], 0, 2, 1)];
    assert NoneLate(g1, 1);
    g' := Next(g1, Extract(1));
    ReachNext(g1, Extract(1), 2, 1);
    assert g'.xfers[1][0] == [] + [XferTo(g1.shards[1], 1, 2, 0)];
  }

  lemma Extract0()
    ensures var sh := Leader0(Ready, map[]);
            sh.changes != [] && ExtractQueue(sh, 0, 2) == Leader0(Extracted, map[])
                && XferTo(sh, 0, 2, 1) == Xfer(map[], [])
  {
    var sh := Leader0(Ready, map[]);
    assert MovingTo(sh, 0, 2, 1) == {};
    NothingQueued(Moving(sh, 0, 2), 0);
  }

  lemma Extract1()
    ensures var sh := Leader1(Ready, map[]);
            sh.changes != [] && ExtractQueue(sh, 1, 2) == Leader1(Extracted, map[])
                && XferTo(sh, 1, 2, 0) == Xfer(Moved1, [])
  {
    var sh := Leader1(Ready, map[]);
    assert MovingTo(sh, 1, 2, 0) == {1};
    NothingQueued(Moving(sh, 1, 2), 1);
    assert XferTo(sh, 1, 2, 0).states == Moved1;
  }

  lemma {:induction false} NothingQueued(moving: seq<set<Address>>, s: ShardId)
    requires |moving| == 2 && s < 2
    ensures After(RelayMode, [], moving, s, 2) == []
    ensures SentTo(RelayMode, [], moving, s, 0) == [] && SentTo(RelayMode, [], moving, s, 1) == []
  {
    assert After(RelayMode, [], moving, s, 0) == [];
    assert After(RelayMode, [], moving, s, 1) == [];
  }

  lemma Collections(g: System) returns (g': System)
    requires Reachable(g, 2, 1) && Shape(g) && g.n == 2
    requires g.shards == [Leader0(Extracted, map[]), Leader1(Extracted, map[])]
    requires g.xfers[0][1] == [Xfer(map[], [])] && g.xfers[1][0] == [Xfer(Moved1, [])]
    ensures Reachable(g', 2, 1) && Shape(g') && g'.n == 2 && g'.maps == g.maps
    ensures g'.shards == [Leader0(Extracted, map[1 := Xfer(Moved1, [])]), Leader1(Extracted, map[0 := Xfer(map[], [])])]
  {
    hide Reachable;
    var g1 := Next(g, DeliverXfer(1, 0));
    ReachNext(g, DeliverXfer(1, 0), 2, 1);
    assert |map[1 := Xfer(Moved1, [])]| == 1;
    assert g1.shards[0] == Leader0(Extracted, map[1 := Xfer(Moved1, [])]);
    g' := Next(g1, DeliverXfer(0, 1));
    ReachNext(g1, DeliverXfer(0, 1), 2, 1);
    var empty: Xfer := Xfer(map[], []);
    assert |map[0 := empty]| == 1;
  }

  lemma Proposals(g: System) returns (g': System, m0: Shard, m1: Shard)
    requires Reachable(g, 2, 1) && Shape(g) && g.n == 2
    requires g.shards == [Leader0(Extracted, map[1 := Xfer(Moved1, [])]), Leader1(Extracted, map[0 := Xfer(map[], [])])]
    ensures Reachable(g', 2, 1) && Shape(g') && g'.n == 2 && g'.shards == [m0, m1] && g'.maps == g.maps
    ensures Installs(m0, 0) && Installs(m1, 1) && TransferDo(m0, 0, 2, m0.phase.msg).accounts == Moved1
  {
    hide Reachable;
    m0 := Merge0();
    m1 := Merge1();
    hide ProposePartition, Enumerates, Installs, TransferDo, Leader0, Leader1;
    var g1 := Next(g, Merge(0, [1]));
    ReachNext(g, Merge(0, [1]), 2, 1);
    g' := Next(g1, Merge(1, [0]));
    ReachNext(g1, Merge(1, [0]), 2, 1);
  }

  lemma Installations(g: System, m0: Shard, m1: Shard) returns (g': System)
    requires Reachable(g, 2, 1) && Shape(g) && g.n == 2 && g.shards == [m0, m1]
    requires Installs(m0, 0) && Installs(m1, 1) && TransferDo(m0, 0, 2, m0.phase.msg).accounts == Moved1
    ensures Reachable(g', 2, 1) && Shape(g') && g'.n == 2
    ensures forall s | 0 <= s < 2 :: g'.shards[s].phase.Idle? && g'.shards[s].round == 1 && g'.shards[s].pmap == Move1
    ensures g'.shards[0].accounts == Moved1
  {
    hide Reachable, TransferDo;
    var g1 := Next(g, CommitPartition(0));
    ReachNext(g, CommitPartition(0), 2, 1);
    g' := Next(g1, CommitPartition(1));
    ReachNext(g1, CommitPartition(1), 2, 1);
  }

  /** A proposed migration whose commit installs the map of the run. */
  ghost predicate Installs(merged: Shard, s: ShardId) {
    && merged.phase.Merged? && merged.round == 0
    && var done := TransferDo(merged, s, 2, merged.phase.msg);
       done.phase.Idle? && done.round == 1 && done.pmap == Move1
  }

  lemma Merge0() returns (merged: Shard)
    ensures var sh := Leader0(Extracted, map[1 := Xfer(Moved1, [])]);
            && sh.round < |sh.changes| && sh.phase.Extracted? && sh.collectOver && Enumerates([1], sh.collected.Keys)
            && merged == ProposePartition(sh, 0, [1])
    ensures Installs(merged, 0) && TransferDo(merged, 0, 2, merged.phase.msg).accounts == Moved1
  {
    var c: map<ShardId, Xfer> := map[1 := Xfer(Moved1, [])];
    var sh := Leader0(Extracted, c);
    assert [1][..0] == [] && [1][0] == 1 && c.Keys == {1};
    assert MergedTxs(c, []) == [] && MergedTxs(c, [1]) == [];
    assert MergedStates(c, []) == map[] && MergedStates(c, [1]) == Moved1;
    merged := ProposePartition(sh, 0, [1]);
    assert map[] + Move1 == Move1;
    var done := TransferDo(merged, 0, 2, merged.phase.msg);
    assert done.accounts == Moved1;
  }

  lemma Merge1() returns (merged: Shard)
    ensures var sh := Leader1(Extracted, map[0 := Xfer(map[], [])]);
            && sh.round < |sh.changes| && sh.phase.Extracted? && sh.collectOver && Enumerates([0], sh.collected.Keys)
            && merged == ProposePartition(sh, 1, [0])
    ensures Installs(merged, 1)
  {
    var c: map<ShardId, Xfer> := map[0 := Xfer(map[], [])];
    var sh := Leader1(Extracted, c);
    assert [0][..0] == [] && [0][0] == 0 && c.Keys == {0};
    assert MergedTxs(c, []) == [] && MergedTxs(c, [0]) == [];
    merged := ProposePartition(sh, 1, [0]);
    assert map[] + Move1 == Move1;
  }

  /** A reachable state in which both shards are about to install the first map. */
  lemma BothMerged() returns (g: System, m0: Shard, m1: Shard)
    ensures Reachable(g, 2, 1) && Shape(g) && g.n == 2 && g.shards == [m0, m1] && g.maps == [Move1]
    ensures Installs(m0, 0) && Installs(m1, 1) && TransferDo(m0, 0, 2, m0.phase.msg).accounts == Moved1
  {
    ReachInit(2, 1);
    var g0 := Init(2, 1);
    assert g0.shards == [A0, A0] && g0.injects == [[], []];
    hide Reachable;
    var g1 := ToBarrier(g0, Move1);
    assert g1.shards == [Leader0(Ready, map[]), Leader1(Ready, map[])];
    var g2 := Extractions(g1);
    var g3 := Collections(g2);
    g, m0, m1 := Proposals(g3);
  }

  /** There is a run that passes the barrier, extracts, collects and installs: afterwards both
      shards have installed the map and shard 0 has the account that moved to it. */
  lemma MigrationCompletes()
    ensures exists g ::
              && Reachable(g, 2, 1) && Shape(g) && g.n == 2
              && (forall s | 0 <= s < 2 ::
                    g.shards[s].phase.Idle? && g.shards[s].round == 1 && g.shards[s].pmap == Move1)
              && g.shards[0].accounts == Moved1
  {
    hide Reachable;
    var g, m0, m1 := BothMerged();
    var g' := Installations(g, m0, m1);
  }
}
