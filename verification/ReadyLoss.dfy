/** A readiness announcement that reaches a shard before the shard has installed the previous map is
    forgotten when the shard installs it, and the next map is never installed. */
module ReadyLoss {
  import opened Core
  import opened Ledger
  import opened Extraction
  import opened Protocol
  import opened ProtocolInv
  import opened MigrationSteps
  import opened ProtocolSafety
  import opened BarrierLimits
  import opened BarrierBlocks
  import opened Progress

  /** Shard s has announced its readiness; the announcement has reached t, and t has forgotten it or
      is about to. */
  ghost predicate Lost(g: System, s: ShardId, t: ShardId) {
    && Shape(g) && s < g.n && t < g.n && s != t
    && InMigration(g.shards[s]) && g.readies[s][t] == []
    && ExtractCount(g.shards[t]) == g.shards[s].round
    && (g.shards[t].round == g.shards[s].round ==> s !in g.shards[t].readySet)
  }

  // ----- what keeps it so -----

  /** Shard s waits for t. */
  lemma LostWaits(g: System, s: ShardId, t: ShardId)
    requires Inv(g) && Lost(g, s, t)
    ensures !g.shards[s].collectOver && (g.shards[s].phase.Ready? || g.shards[s].phase.Extracted?)
  {
    HereIff(g, t, s);
    assert ShardAt(g, s);
    hide RoundInv, TxsInv, PairInv;
  }

  lemma NoneAnnounced(g: System, act: Action, s: ShardId, t: ShardId)
    requires Shape(g) && Enabled(g, act) && s < g.n && t < g.n && s != t && g.readies[s][t] == []
    requires !g.shards[s].phase.Idle?
    ensures Square(Next(g, act).readies, g.n) && Next(g, act).readies[s][t] == []
  {
    hide AppendRow, RelaysOut, XfersOut, CommitBody, TransferDo, ProposePartition, ExtractQueue, BarrierPasses,
         NoneLate, Enumerates, Remove, Note;
  }

  /** What has to stay as it is at t. */
  ghost predicate Forgotten(sh: Shard, s: ShardId, round: nat) {
    ExtractCount(sh) == round && (sh.round == round ==> s !in sh.readySet)
  }

  /** Shard t does not extract. */
  lemma ForgetsExtract(g: System, u: ShardId, s: ShardId, t: ShardId)
    requires Inv(g) && Lost(g, s, t) && Enabled(g, Extract(u))
    ensures Forgotten(Next(g, Extract(u)).shards[t], s, g.shards[s].round)
  {
    if u == t {
      BarrierAll(g, t);
    }
    hide Inv, XfersOut, After, NoneLate, BarrierPasses, AppendRow;
  }

  /** Installing the map of the round before makes it forget. */
  lemma ForgetsInstall(g: System, u: ShardId, s: ShardId, t: ShardId)
    requires Inv(g) && Lost(g, s, t) && Enabled(g, CommitPartition(u))
    ensures Forgotten(Next(g, CommitPartition(u)).shards[t], s, g.shards[s].round)
  {
    InstallCount(g, u);
    hide Inv, Install;
  }

  lemma ForgetsMerge(g: System, u: ShardId, order: seq<ShardId>, s: ShardId, t: ShardId)
    requires Inv(g) && Lost(g, s, t) && Enabled(g, Merge(u, order))
    ensures Forgotten(Next(g, Merge(u, order)).shards[t], s, g.shards[s].round)
  {
    MergeShard(g, u, order);
    hide Inv, MergedTxs, MergedStates, MergePanics, Enumerates, ShardInv;
  }

  lemma ForgetsBlock(g: System, u: ShardId, s: ShardId, t: ShardId)
    requires Lost(g, s, t) && Enabled(g, CommitBlock(u))
    ensures Forgotten(Next(g, CommitBlock(u)).shards[t], s, g.shards[s].round)
  {
    hide AppendRow, RelaysOut, CommitBody;
    BlockKeeps(g.shards[u], u, g.n, g.beta);
  }

  /** Until it installs a map, a shard keeps its round and forgets no announcement. */
  ghost predicate Remembers(sh: Shard, sh': Shard) {
    sh'.round == sh.round && sh.readySet <= sh'.readySet
  }

  lemma BlockKeeps(sh: Shard, s: ShardId, n: nat, beta: nat)
    requires n > 0 && sh.phase.Proposed?
    ensures var sh' := CommitBody(sh, s, n, beta);
            && Remembers(sh, sh') && sh'.readySet == sh.readySet && ExtractCount(sh') == ExtractCount(sh)
            && (sh'.phase.Idle? || sh'.phase.Crashed?)
  {
    hide BlockPanics, Execute;
  }

  lemma ForgetsDelivery(g: System, act: Action, s: ShardId, t: ShardId)
    requires Lost(g, s, t) && Enabled(g, act) && (act.DeliverXfer? || act.DeliverRelay? || act.DeliverReady?)
    ensures |Next(g, act).shards| == g.n && Forgotten(Next(g, act).shards[t], s, g.shards[s].round)
  {
    hide Pop, Remove, Note;
  }

  lemma ForgetsElse(g: System, act: Action, s: ShardId, t: ShardId)
    requires Lost(g, s, t) && Enabled(g, act)
    requires !act.Extract? && !act.CommitPartition? && !act.Merge? && !act.CommitBlock?
    requires !act.DeliverXfer? && !act.DeliverRelay? && !act.DeliverReady?
    ensures |Next(g, act).shards| == g.n && Forgotten(Next(g, act).shards[t], s, g.shards[s].round)
  {
    hide AppendRow;
  }

  lemma Forgets(g: System, act: Action, s: ShardId, t: ShardId)
    requires Inv(g) && Lost(g, s, t) && Enabled(g, act) && Shape(Next(g, act)) && Next(g, act).n == g.n
    ensures Forgotten(Next(g, act).shards[t], s, g.shards[s].round)
  {
    hide Inv, Next, Enabled, Forgotten;
    match act
    case Extract(u) => ForgetsExtract(g, u, s, t);
    case CommitPartition(u) => ForgetsInstall(g, u, s, t);
    case Merge(u, order) => ForgetsMerge(g, u, order, s, t);
    case CommitBlock(u) => ForgetsBlock(g, u, s, t);
    case DeliverXfer(_, _) => ForgetsDelivery(g, act, s, t);
    case DeliverRelay(_, _, _) => ForgetsDelivery(g, act, s, t);
    case DeliverReady(_, _) => ForgetsDelivery(g, act, s, t);
    case _ => ForgetsElse(g, act, s, t);
  }

  lemma LostStep(g: System, act: Action, s: ShardId, t: ShardId)
    requires Inv(g) && Lost(g, s, t) && Enabled(g, act)
    ensures Inv(Next(g, act)) && Lost(Next(g, act), s, t) && Next(g, act).shards[s].round == g.shards[s].round
  {
    InvNext(g, act);
    LostWaits(g, s, t);
    StaysWaiting(g, act, s);
    NoneAnnounced(g, act, s, t);
    assert Shape(Next(g, act));
    Forgets(g, act, s, t);
    hide Inv, Next, Enabled, ExtractCount;
  }

  // ----- announcements in time, and too early -----

  /** The readiness of s for the round it is in is announced to t, which has not installed the map of
      the round before: from then on neither shard ever installs the map that is announced. */
  lemma {:induction false} EarlyReadyLost(states: seq<System>, acts: seq<Action>, n: nat, beta: nat, k: nat, l: nat,
      s: ShardId, t: ShardId)
    requires n > 0 && IsRun(states, acts, n, beta) && k < l < |states| && acts[k] == DeliverReady(s, t)
    requires s < |states[k].shards| && t < |states[k].shards|
    requires states[k].shards[s].round > states[k].shards[t].round
    ensures Lost(states[l], s, t) && states[l].shards[s].round == states[k].shards[s].round
    decreases l
  {
    RunInv(states, acts, n, beta, l - 1);
    hide Next, Enabled, Init, Inv, Lost;
    if k == l - 1 {
      EarlyReady(states[k], s, t);
    } else {
      EarlyReadyLost(states, acts, n, beta, k, l - 1, s, t);
      LostStep(states[l - 1], acts[l - 1], s, t);
    }
  }

  lemma EarlyReady(g: System, s: ShardId, t: ShardId)
    requires Inv(g) && Enabled(g, DeliverReady(s, t)) && g.shards[s].round > g.shards[t].round
    ensures Lost(Next(g, DeliverReady(s, t)), s, t)
    ensures Next(g, DeliverReady(s, t)).shards[s].round == g.shards[s].round
  {
    hide HomeAt, XferOk, RelayOk, RelayInv, XferInv;
    assert PairAt(g, s, t);
  }

  /** Shard t knows that s is ready for the round, or is past it. */
  ghost predicate Noted(sh: Shard, s: ShardId, round: nat) {
    sh.round > round || (sh.round == round && s in sh.readySet)
  }

  lemma MergeRemembers(sh: Shard, s: ShardId, order: seq<ShardId>)
    requires sh.round < |sh.changes| && forall i | 0 <= i < |order| :: order[i] in sh.collected
    ensures Remembers(sh, ProposePartition(sh, s, order))
  {
    hide MergedTxs, MergedStates, MergePanics;
  }

  lemma LeaderRemembers(g: System, act: Action, t: ShardId)
    requires Shape(g) && Enabled(g, act) && t < g.n && (act.CommitBlock? || act.Extract? || act.Merge?)
    ensures |Next(g, act).shards| == g.n && Remembers(g.shards[t], Next(g, act).shards[t])
  {
    hide AppendRow, RelaysOut, XfersOut, After, BarrierPasses, NoneLate, Enumerates, CommitBody, ProposePartition;
    if act.CommitBlock? {
      BlockKeeps(g.shards[act.s], act.s, g.n, g.beta);
    } else if act.Merge? {
      OrderIn(g.shards[act.s].collected, act.order);
      MergeRemembers(g.shards[act.s], act.s, act.order);
    }
  }

  lemma OrderIn(collected: map<ShardId, Xfer>, order: seq<ShardId>)
    requires Enumerates(order, collected.Keys)
    ensures forall i | 0 <= i < |order| :: order[i] in collected
  {
  }

  lemma ElseRemembers(g: System, act: Action, t: ShardId)
    requires Shape(g) && Enabled(g, act) && t < g.n
    requires !act.CommitBlock? && !act.Extract? && !act.Merge? && !act.CommitPartition?
    ensures |Next(g, act).shards| == g.n && Remembers(g.shards[t], Next(g, act).shards[t])
  {
    hide AppendRow, Pop, Remove, Note;
  }

  lemma InstallMovesOn(g: System, u: ShardId, t: ShardId)
    requires Inv(g) && Enabled(g, CommitPartition(u)) && t < g.n
    ensures var sh' := Next(g, CommitPartition(u)).shards[t];
            if u == t then sh'.round == g.shards[t].round + 1 else sh' == g.shards[t]
  {
    InstallCount(g, u);
    hide Inv, Install;
  }

  lemma NotedStep(g: System, act: Action, s: ShardId, t: ShardId, round: nat)
    requires Inv(g) && Enabled(g, act) && t < g.n && Noted(g.shards[t], s, round)
    ensures |Next(g, act).shards| == g.n && Noted(Next(g, act).shards[t], s, round)
  {
    if act.CommitPartition? {
      InstallMovesOn(g, act.s, t);
    } else if act.CommitBlock? || act.Extract? || act.Merge? {
      LeaderRemembers(g, act, t);
    } else {
      ElseRemembers(g, act, t);
    }
    hide Inv, Next, Enabled;
  }

  /** An announcement that reaches a shard of the same round is noted until that shard installs the
      map.  There is no third case: the announcing shard is never behind. */
  lemma {:induction false} TimelyReadyNoted(states: seq<System>, acts: seq<Action>, n: nat, beta: nat, k: nat, l: nat,
      s: ShardId, t: ShardId)
    requires n > 0 && IsRun(states, acts, n, beta) && k < l < |states| && acts[k] == DeliverReady(s, t)
    requires s < |states[k].shards| && t < |states[k].shards|
    requires states[k].shards[s].round <= states[k].shards[t].round
    ensures states[k].shards[s].round == states[k].shards[t].round
    ensures t < |states[l].shards| && Noted(states[l].shards[t], s, states[k].shards[s].round)
    decreases l
  {
    RunInv(states, acts, n, beta, k);
    RunInv(states, acts, n, beta, l - 1);
    hide Next, Enabled, Init, Inv, Noted;
    TimelyReady(states[k], s, t);
    if k < l - 1 {
      TimelyReadyNoted(states, acts, n, beta, k, l - 1, s, t);
      NotedStep(states[l - 1], acts[l - 1], s, t, states[k].shards[s].round);
    }
  }

  lemma TimelyReady(g: System, s: ShardId, t: ShardId)
    requires Inv(g) && Enabled(g, DeliverReady(s, t)) && g.shards[s].round <= g.shards[t].round
    ensures g.shards[s].round == g.shards[t].round
    ensures Noted(Next(g, DeliverReady(s, t)).shards[t], s, g.shards[s].round)
  {
    hide HomeAt, XferOk, RelayOk, RelayInv, XferInv;
    assert PairAt(g, s, t);
  }

  /** It does happen: shard 0 installs the first map, commits a block, receives the second map and
      announces its readiness before shard 1 has installed the first. */
  lemma EarlyReadyHappens()
    ensures exists g :: Reachable(g, 2, 1) && Lost(g, 0, 1)
  {
    var g0, m0, m1 := BothMerged();
    hide Reachable, Lost;
    var g1 := OneInstalls(g0, m0, m1);
    var g2 := Reports(g1, m1);
    var g3 := SecondMap(g2, m1);
    ReachableInv(g3, 2, 1);
    EarlyReady(g3, 0, 1);
    ReachNext(g3, DeliverReady(0, 1), 2, 1);
    assert Lost(Next(g3, DeliverReady(0, 1)), 0, 1);
  }

  lemma ReachableInv(g: System, n: nat, beta: nat)
    requires n > 0 && Reachable(g, n, beta)
    ensures Inv(g)
  {
    hide Inv, Next, Enabled, Init, Shape;
    var states, acts :| IsRun(states, acts, n, beta) && states[|states| - 1] == g;
    RunInv(states, acts, n, beta, |states| - 1);
  }

  lemma OneInstalls(g: System, m0: Shard, m1: Shard) returns (g': System)
    requires Reachable(g, 2, 1) && Shape(g) && g.n == 2 && g.shards == [m0, m1] && g.maps == [Move1]
    requires Installs(m0, 0) && Installs(m1, 1)
    ensures Reachable(g', 2, 1) && Shape(g') && g'.n == 2 && g'.shards[1] == m1 && g'.maps == [Move1]
    ensures g'.shards[0].phase.Idle? && g'.shards[0].round == 1
  {
    hide Reachable, TransferDo;
    g' := Next(g, CommitPartition(0));
    ReachNext(g, CommitPartition(0), 2, 1);
  }

  /** Shard 0 commits an empty block of the new round, and its report arrives. */
  lemma Reports(g: System, m1: Shard) returns (g': System)
    requires Reachable(g, 2, 1) && Shape(g) && g.n == 2 && g.shards[1] == m1 && g.maps == [Move1]
    requires g.shards[0].phase.Idle? && g.shards[0].round == 1
    ensures Reachable(g', 2, 1) && Inv(g') && g'.n == 2 && g'.shards[1] == m1 && g'.maps == [Move1]
    ensures g'.shards[0].phase.Idle? && g'.shards[0].round == 1 && Enabled(g', SendMap(map[]))
  {
    hide Reachable, Inv, CommitBody, RelaysOut, AppendRow;
    ReachableInv(g, 2, 1);
    NotMigrating(g, 0);
    var g1 := EmptyBlock(g);
    ReachableInv(g1, 2, 1);
    BlockKeeps(g1.shards[0], 0, 2, g1.beta);
    var g2 := Next(g1, CommitBlock(0));
    NextMapFollows(g1, 0, map[]);
    NeverCrashed(g2, 0);
    ReachNext(g1, CommitBlock(0), 2, 1);
    g' := Next(g2, ReceiveInfo(1));
    ReachNext(g2, ReceiveInfo(1), 2, 1);
  }

  lemma EmptyBlock(g: System) returns (g': System)
    requires Reachable(g, 2, 1) && Shape(g) && g.n == 2 && g.shards[0].phase.Idle? && !g.shards[0].partitionOn
    ensures Reachable(g', 2, 1) && Shape(g') && g' == Put(g, 0, Propose(g.shards[0], 0))
  {
    hide Reachable, Inv;
    g' := Next(g, ProposeBlock(0, 0));
    ReachNext(g, ProposeBlock(0, 0), 2, 1);
  }

  lemma NotMigrating(g: System, s: ShardId)
    requires Inv(g) && s < g.n && g.shards[s].round == |g.maps|
    ensures !g.shards[s].partitionOn && |g.shards[s].changes| == g.shards[s].round
  {
    assert ShardAt(g, s);
    hide TxsInv, PeersInv, HomeAt;
  }

  lemma NeverCrashed(g: System, s: ShardId)
    requires Inv(g) && s < g.n
    ensures !g.shards[s].phase.Crashed?
  {
    assert ShardAt(g, s);
    hide TxsInv, PeersInv, HomeAt;
  }

  /** The second map reaches shard 0, which announces its readiness. */
  lemma SecondMap(g: System, m1: Shard) returns (g': System)
    requires Reachable(g, 2, 1) && Inv(g) && g.n == 2 && g.shards[1] == m1 && g.maps == [Move1] && m1.round == 0
    requires g.shards[0].phase.Idle? && g.shards[0].round == 1 && Enabled(g, SendMap(map[]))
    ensures Reachable(g', 2, 1) && Shape(g') && g'.n == 2 && Enabled(g', DeliverReady(0, 1))
    ensures g'.shards[0].round == 1 && g'.shards[1].round == 0
  {
    NotMigrating(g, 0);
    hide Reachable, Inv, AppendRow;
    var g1 := Next(g, SendMap(map[]));
    ReachNext(g, SendMap(map[]), 2, 1);
    var g2 := Next(g1, DeliverMap(0));
    ReachNext(g1, DeliverMap(0), 2, 1);
    g' := Next(g2, BecomeReady(0));
    ReachNext(g2, BecomeReady(0), 2, 1);
  }
}
