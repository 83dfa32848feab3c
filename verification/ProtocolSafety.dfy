/** Safety of the migration protocol over every run. */
module ProtocolSafety {
  import opened Core
  import opened Protocol
  import opened ProtocolInv
  import opened ProtocolSteps
  import opened MigrationSteps

  lemma InvInit(n: nat, beta: nat)
    requires n > 0
    ensures Inv(Init(n, beta))
  {
    var g := Init(n, beta);
    forall s | 0 <= s < n
      ensures ShardAt(g, s)
    {
    }
    forall s, t | 0 <= s < n && 0 <= t < n && s != t
      ensures PairAt(g, s, t)
    {
    }
  }

  lemma InvNext(g: System, act: Action)
    requires Inv(g) && Enabled(g, act)
    ensures Inv(Next(g, act))
  {
    hide Inv, Next, Enabled;
    match act
    case SendMap(m) => SendMapKeepsInv(g, m);
    case DeliverMap(s) => DeliverMapKeepsInv(g, s);
    case Inject(tx) => InjectKeepsInv(g, tx);
    case DeliverInject(s, i) => DeliverInjectKeepsInv(g, s, i);
    case ProposeBlock(s, k) => ProposeBlockKeepsInv(g, s, k);
    case CommitBlock(s) => CommitBlockKeepsInv(g, s);
    case BecomeReady(s) => BecomeReadyKeepsInv(g, s);
    case DeliverReady(s, t) => DeliverReadyKeepsInv(g, s, t);
    case DeliverRelay(s, t, i) => DeliverRelayKeepsInv(g, s, t, i);
    case Extract(s) => ExtractKeepsInv(g, s);
    case DeliverXfer(s, t) => DeliverXferKeepsInv(g, s, t);
    case Merge(s, order) => MergeKeepsInv(g, s, order);
    case CommitPartition(s) => CommitPartitionKeepsInv(g, s);
    case ReceiveInfo(e) => ReceiveInfoKeepsInv(g, e);
  }

  /** A run of the system: the states it passes through and the steps between them. */
  ghost predicate IsRun(states: seq<System>, acts: seq<Action>, n: nat, beta: nat) {
    && |states| == |acts| + 1
    && states[0] == Init(n, beta)
    && forall i | 0 <= i < |acts| ::
         Shape(states[i]) && Enabled(states[i], acts[i]) && states[i + 1] == Next(states[i], acts[i])
  }

  lemma {:induction false} RunInv(states: seq<System>, acts: seq<Action>, n: nat, beta: nat, i: nat)
    requires n > 0 && IsRun(states, acts, n, beta) && i < |states|
    ensures Inv(states[i])
  {
    hide Inv, Next, Enabled, Init, Shape;
    if i == 0 {
      InvInit(n, beta);
    } else {
      RunInv(states, acts, n, beta, i - 1);
      InvNext(states[i - 1], acts[i - 1]);
    }
  }

  /** Through any number of migrations, every queued transaction sits where the account that
      decides it lives: under the installed map before the shard has extracted, under the
      next map afterwards.  Hence neither panic is ever reached. */
  lemma {:induction false} QueuedAtHome(states: seq<System>, acts: seq<Action>, n: nat, beta: nat, i: nat,
      s: ShardId, k: nat)
    requires n > 0 && IsRun(states, acts, n, beta) && i < |states| && s < n
    ensures states[i].n == n && |states[i].shards| == n
    ensures var sh := states[i].shards[s];
            && !sh.phase.Crashed?
            && ExtractCount(sh) <= |states[i].maps|
            && (k < |sh.queue| ==> HomeAt(states[i].maps, n, ExtractCount(sh), KeyOf(sh.queue[k])) == s)
            && (sh.phase.Proposed? && k < |sh.phase.body| ==>
                  HomeAt(states[i].maps, n, sh.round, KeyOf(sh.phase.body[k])) == s)
  {
    hide HomeAt, PairInv;
    RunInv(states, acts, n, beta, i);
    RunSize(states, acts, n, beta, i);
    var g := states[i];
    assert ShardAt(g, s);
    if k < |g.shards[s].queue| {
      assert AtHome(g.maps, n, ExtractCount(g.shards[s]), s, g.shards[s].queue[k]);
    }
  }

  lemma {:induction false} RunSize(states: seq<System>, acts: seq<Action>, n: nat, beta: nat, i: nat)
    requires IsRun(states, acts, n, beta) && i < |states|
    ensures states[i].n == n
  {
    if i > 0 {
      RunSize(states, acts, n, beta, i - 1);
      hide TransferDo, CommitBody, ProposePartition, ExtractQueue, RelaysOut, XfersOut, Enabled;
    }
  }

  /** A pending round is always the last map received, and shards that have installed equally
      many maps place every account alike, namely as the first so many maps say. */
  lemma {:induction false} PlacementsAgree(g: System, s: ShardId, t: ShardId, a: Address)
    requires Inv(g) && s < g.n && t < g.n
    ensures g.shards[s].partitionOn ==> g.shards[s].round == |g.shards[s].changes| - 1
    ensures g.shards[s].round <= |g.maps|
    ensures Place(g.shards[s].pmap, g.n, a) == HomeAt(g.maps, g.n, g.shards[s].round, a)
    ensures g.shards[s].round == g.shards[t].round ==>
              Place(g.shards[s].pmap, g.n, a) == Place(g.shards[t].pmap, g.n, a)
    ensures g.shards[s].round == |g.maps| ==> Place(g.shards[s].pmap, g.n, a) == Place(g.modified, g.n, a)
  {
    hide HomeAt, PairInv;
    assert ShardAt(g, s) && ShardAt(g, t);
  }

  // ----- why the assumptions are needed -----

  /** The leader after the migration it proposes has been committed. */
  function Migrated(sh: Shard, s: ShardId, n: nat, order: seq<ShardId>): Shard
    requires n > 0 && sh.round < |sh.changes|
    requires forall i | 0 <= i < |order| :: order[i] in sh.collected
    requires !MergePanics(MergedTxs(sh.collected, order), sh.changes[sh.round], s)
  {
    var merged := ProposePartition(sh, s, order);
    TransferDo(merged, s, n, merged.phase.msg)
  }

  /** The leader places every account as the maps it counts as installed say. */
  ghost predicate PlacedAsCounted(sh: Shard, n: nat) {
    n > 0 && sh.round <= |sh.changes| && forall a :: Place(sh.pmap, n, a) == HomeAt(sh.changes, n, sh.round, a)
  }

  ghost predicate MapsInRange(maps: seq<Placement>, n: nat) {
    forall i, a | 0 <= i < |maps| && a in maps[i] :: maps[i][a] < n
  }

  /** A leader with one map pending receives k more before it proposes.  Its placement is right
      after the commit, whatever these maps are, if and only if there are none of them. */
  lemma {:induction false} OnePendingIff(sh: Shard, s: ShardId, n: nat, order: seq<ShardId>, k: nat)
    requires n > 1 && |sh.changes| == sh.round + 1 && PlacedAsCounted(sh, n)
    requires forall i | 0 <= i < |order| :: order[i] in sh.collected
    requires !MergePanics(MergedTxs(sh.collected, order), sh.changes[sh.round], s)
    ensures (forall later: seq<Placement> | |later| == k && MapsInRange(later, n) ::
               PlacedAsCounted(Migrated(sh.(changes := sh.changes + later), s, n, order), n))
            <==> k == 0
  {
    hide MergePanics, MergedTxs, Migrated, PlacedAsCounted, MapsInRange;
    if k == 0 {
      forall later: seq<Placement> | |later| == k && MapsInRange(later, n)
        ensures PlacedAsCounted(Migrated(sh.(changes := sh.changes + later), s, n, order), n)
      {
        assert sh.changes + later == sh.changes;
        assert sh.(changes := sh.changes) == sh;
        PendingInstalled(sh, s, n, order);
      }
    } else {
      var later := LaterMisplaced(sh, s, n, order, k);
    }
  }

  lemma LaterMisplaced(sh: Shard, s: ShardId, n: nat, order: seq<ShardId>, k: nat) returns (later: seq<Placement>)
    requires n > 1 && |sh.changes| == sh.round + 1 && k > 0
    requires forall i | 0 <= i < |order| :: order[i] in sh.collected
    requires !MergePanics(MergedTxs(sh.collected, order), sh.changes[sh.round], s)
    ensures |later| == k && MapsInRange(later, n)
    ensures !PlacedAsCounted(Migrated(sh.(changes := sh.changes + later), s, n, order), n)
  {
    hide MergePanics, MergedTxs, MergedStates, Install, Addr2Shard;
    var m := sh.changes[sh.round];
    var x := Place(sh.pmap + m, n, 0);
    var elsewhere: Placement := map[0 := if x == 0 then 1 else 0];
    later := seq(k, i => elsewhere);
    var done := Migrated(sh.(changes := sh.changes + later), s, n, order);
    assert (sh.changes + later)[sh.round] == m;
    assert done.changes == sh.changes + later && done.round == |done.changes| && done.pmap == sh.pmap + m;
    assert done.changes[done.round - 1] == elsewhere;
    assert HomeAt(done.changes, n, done.round, 0) == elsewhere[0] != x == Place(done.pmap, n, 0);
  }

  lemma {:induction false} PendingInstalled(sh: Shard, s: ShardId, n: nat, order: seq<ShardId>)
    requires n > 0 && |sh.changes| == sh.round + 1 && PlacedAsCounted(sh, n)
    requires forall i | 0 <= i < |order| :: order[i] in sh.collected
    requires !MergePanics(MergedTxs(sh.collected, order), sh.changes[sh.round], s)
    ensures PlacedAsCounted(Migrated(sh, s, n, order), n)
  {
    hide MergePanics, MergedTxs, MergedStates, Install;
    var done := Migrated(sh, s, n, order);
    forall a
      ensures Place(done.pmap, n, a) == HomeAt(done.changes, n, done.round, a)
    {
      assert Place(sh.pmap, n, a) == HomeAt(sh.changes, n, sh.round, a);
    }
  }

  /** Two pending maps at shard 0 of two: the accounts that leave are those of the second map, the
      placement becomes that of the first, and both count as installed.  Account 2 has left a
      shard that still counts as its home, account 0 stays in one that no longer does. */
  lemma SecondMapSkipped()
    ensures var m1: Placement := map[0 := 1];
            var m2: Placement := map[0 := 0, 2 := 1];
            var sh := InitShard.(changes := [m1, m2], partitionOn := true, phase := Extracted,
                                 collected := map[1 := Xfer(map[], [])], collectOver := true);
            && MovingTo(sh, 0, 2, 1) == {2}
            && !MergePanics(MergedTxs(sh.collected, [1]), m1, 0)
            && var done := Migrated(sh, 0, 2, [1]);
               && done.round == 2 && Place(done.pmap, 2, 2) == 0 && Place(done.pmap, 2, 0) == 1
               && HomeAt(done.changes, 2, 2, 2) == 1 && HomeAt(done.changes, 2, 2, 0) == 0
  {
    var m1: Placement := map[0 := 1];
    var m2: Placement := map[0 := 0, 2 := 1];
    var sh := InitShard.(changes := [m1, m2], partitionOn := true, phase := Extracted,
                         collected := map[1 := Xfer(map[], [])], collectOver := true);
    assert [m1, m2][1] == m2 && [m1, m2][0] == m1;
    assert MergedTxs(sh.collected, [1]) == [];
    var done := Migrated(sh, 0, 2, [1]);
    assert done.changes == [m1, m2] && done.round == 2 && done.pmap == map[0 := 1];
  }

  ghost predicate Reachable(g: System, n: nat, beta: nat) {
    exists states, acts :: IsRun(states, acts, n, beta) && states[|states| - 1] == g
  }

  lemma ReachInit(n: nat, beta: nat)
    requires n > 0
    ensures Reachable(Init(n, beta), n, beta)
  {
    assert IsRun([Init(n, beta)], [], n, beta);
  }

  /** A run and one more step are a run. */
  lemma Extend(states: seq<System>, acts: seq<Action>, n: nat, beta: nat, act: Action) returns (states': seq<System>)
    requires IsRun(states, acts, n, beta)
    requires Shape(states[|acts|]) && Enabled(states[|acts|], act)
    ensures states' == states + [Next(states[|acts|], act)]
    ensures IsRun(states', acts + [act], n, beta)
  {
    hide Next, Enabled, Init, Shape;
    states' := states + [Next(states[|acts|], act)];
    var acts' := acts + [act];
    forall i | 0 <= i < |acts'|
      ensures Shape(states'[i]) && Enabled(states'[i], acts'[i]) && states'[i + 1] == Next(states'[i], acts'[i])
    {
      if i < |acts| {
        assert states'[i] == states[i] && states'[i + 1] == states[i + 1];
      }
    }
  }

  lemma ReachNext(g: System, act: Action, n: nat, beta: nat)
    requires Reachable(g, n, beta) && Shape(g) && Enabled(g, act)
    ensures Reachable(Next(g, act), n, beta)
  {
    hide Next, Enabled, Init, Shape;
    var states, acts :| IsRun(states, acts, n, beta) && states[|states| - 1] == g;
    var states' := Extend(states, acts, n, beta, act);
    assert states'[|states'| - 1] == Next(g, act);
  }
}
