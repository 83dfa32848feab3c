/** When the barrier can never be passed again: the leader waits for a relay with the number before
    the one its peer announced, and there is none. */
module BarrierBlocks {
  import opened Core
  import opened Extraction
  import opened Protocol
  import opened ProtocolInv
  import opened MigrationSteps
  import opened ProtocolSafety
  import opened Holders
  import opened Limits
  import opened BarrierLimits

  /** Shard t has heard of shard s, but not last, and will not hear, of the relay with the number
      before the current one of s. */
  ghost predicate Silent(g: System, s: ShardId, t: ShardId)
    requires Shape(g) && s < g.n && t < g.n
  {
    && s in g.shards[t].heard && g.shards[t].heard[s] + 1 != g.shards[s].seqID
    && forall i | 0 <= i < |g.relays[s][t]| :: g.relays[s][t][i].seqID + 1 != g.shards[s].seqID
  }

  /** As long as s commits no block, t cannot extract for the round that s is in. */
  ghost predicate Muted(g: System, s: ShardId, t: ShardId) {
    && Shape(g) && s < g.n && t < g.n && s != t
    && Silent(g, s, t)
    && ExtractCount(g.shards[t]) == g.shards[s].round && !g.shards[s].phase.Merged?
  }

  // ----- what keeps it so -----

  /** Shard t does not extract. */
  lemma MutedWaits(g: System, s: ShardId, t: ShardId)
    requires Inv(g) && Muted(g, s, t) && g.shards[t].phase.Ready?
    ensures !BarrierPasses(g.shards[t], g.n)
  {
    if BarrierPasses(g.shards[t], g.n) {
      BarrierAll(g, t);
      assert PairAt(g, s, t);
      BarrierPeer(g.maps, g.n, s, t, g.shards[s], g.shards[t], g.relays[s][t], g.arrived[s][t], g.readies[s][t],
                  g.xfers[s][t]);
      assert false;
    }
  }

  /** Shard s does not merge: it waits for the extract of t. */
  lemma MutedCollects(g: System, s: ShardId, t: ShardId)
    requires Inv(g) && Muted(g, s, t)
    ensures !g.shards[s].collectOver
  {
    hide HomeAt, XferOk, RelayOk;
    assert ShardAt(g, s) && PairAt(g, t, s);
  }

  lemma MutedRelay(g: System, s: ShardId, t: ShardId, p: ShardId, q: ShardId, i: nat)
    requires Muted(g, s, t) && Enabled(g, DeliverRelay(p, q, i))
    ensures Muted(Next(g, DeliverRelay(p, q, i)), s, t)
  {
    var g' := Next(g, DeliverRelay(p, q, i));
    assert Shape(g');
    if p == s && q == t {
      var relay := g.relays[s][t];
      assert g'.relays[s][t] == relay[..i] + relay[i + 1..];
    }
  }

  /** What a step has to leave alone. */
  lemma MutedFrame(g: System, g': System, s: ShardId, t: ShardId)
    requires Muted(g, s, t) && Shape(g') && g'.n == g.n && g'.relays[s][t] == g.relays[s][t]
    requires g'.shards[s].seqID == g.shards[s].seqID && g'.shards[s].round == g.shards[s].round
    requires !g'.shards[s].phase.Merged?
    requires g'.shards[t].heard == g.shards[t].heard && ExtractCount(g'.shards[t]) == ExtractCount(g.shards[t])
    ensures Muted(g', s, t)
  {
  }

  lemma MutedBlock(g: System, s: ShardId, t: ShardId, u: ShardId)
    requires Muted(g, s, t) && Enabled(g, CommitBlock(u)) && u != s && Shape(Next(g, CommitBlock(u)))
    ensures Muted(Next(g, CommitBlock(u)), s, t)
  {
    var g' := Next(g, CommitBlock(u));
    hide BlockPanics, RelaysOut, AppendRow, Muted;
    assert Muted(g, s, t) ==> s < g.n && t < g.n && s != t;
    MutedFrame(g, g', s, t);
  }

  lemma MutedExtract(g: System, s: ShardId, t: ShardId, u: ShardId)
    requires Inv(g) && Muted(g, s, t) && Enabled(g, Extract(u)) && Shape(Next(g, Extract(u)))
    ensures Muted(Next(g, Extract(u)), s, t)
  {
    if g.shards[t].phase.Ready? {
      MutedWaits(g, s, t);
    }
    hide Inv, XfersOut, After, NoneLate, BarrierPasses, AppendRow, Silent;
    MutedFrame(g, Next(g, Extract(u)), s, t);
  }

  lemma MutedMerge(g: System, s: ShardId, t: ShardId, u: ShardId, order: seq<ShardId>)
    requires Inv(g) && Muted(g, s, t) && Enabled(g, Merge(u, order)) && Inv(Next(g, Merge(u, order)))
    ensures Muted(Next(g, Merge(u, order)), s, t)
  {
    MutedCollects(g, s, t);
    var g' := Next(g, Merge(u, order));
    assert ShardAt(g', u);
    hide PairInv, MapsInv, PeersInv, TxsInv, HomeAt, MergedStates, MergedTxs, MergePanics, Enumerates, Silent;
    MutedFrame(g, g', s, t);
  }

  lemma MutedInstall(g: System, s: ShardId, t: ShardId, u: ShardId)
    requires Inv(g) && Muted(g, s, t) && Enabled(g, CommitPartition(u)) && Shape(Next(g, CommitPartition(u)))
    ensures Muted(Next(g, CommitPartition(u)), s, t)
  {
    assert ShardAt(g, u);
    hide Inv, Install, TxsInv, HomeAt, Silent;
    MutedFrame(g, Next(g, CommitPartition(u)), s, t);
  }

  lemma MutedXfer(g: System, s: ShardId, t: ShardId, p: ShardId, q: ShardId)
    requires Muted(g, s, t) && Enabled(g, DeliverXfer(p, q)) && Shape(Next(g, DeliverXfer(p, q)))
    ensures Muted(Next(g, DeliverXfer(p, q)), s, t)
  {
    hide Pop, Silent;
    MutedFrame(g, Next(g, DeliverXfer(p, q)), s, t);
  }

  lemma MutedQuiet(g: System, act: Action, s: ShardId, t: ShardId)
    requires Muted(g, s, t) && Enabled(g, act) && Shape(Next(g, act))
    requires act.SendMap? || act.DeliverMap? || act.Inject? || act.DeliverInject? || act.ProposeBlock?
             || act.BecomeReady?
             || act.DeliverReady? || act.ReceiveInfo?
    ensures Muted(Next(g, act), s, t)
  {
    hide Pop, AppendRow, Silent;
    MutedFrame(g, Next(g, act), s, t);
  }

  /** Every step but a block of s keeps it so. */
  lemma MutedStep(g: System, act: Action, s: ShardId, t: ShardId)
    requires Inv(g) && Muted(g, s, t) && Enabled(g, act) && act != CommitBlock(s)
    ensures Inv(Next(g, act)) && Muted(Next(g, act), s, t)
  {
    InvNext(g, act);
    assert Shape(Next(g, act));
    hide Inv, Muted, Next, Enabled;
    match act
    case DeliverRelay(p, q, i) => MutedRelay(g, s, t, p, q, i);
    case CommitBlock(u) => MutedBlock(g, s, t, u);
    case Extract(u) => MutedExtract(g, s, t, u);
    case Merge(u, order) => MutedMerge(g, s, t, u, order);
    case CommitPartition(u) => MutedInstall(g, s, t, u);
    case DeliverXfer(p, q) => MutedXfer(g, s, t, p, q);
    case _ => MutedQuiet(g, act, s, t);
  }

  lemma {:induction false} StaysMuted(states: seq<System>, acts: seq<Action>, n: nat, beta: nat, k: nat, l: nat,
                                      s: ShardId, t: ShardId)
    requires n > 0 && IsRun(states, acts, n, beta) && k <= l < |states| && Muted(states[k], s, t)
    requires forall j | k <= j < l :: acts[j] != CommitBlock(s)
    ensures Inv(states[l]) && Muted(states[l], s, t)
    decreases l
  {
    hide Inv, Muted, Next, Enabled, Init;
    RunInv(states, acts, n, beta, l);
    if k < l {
      StaysMuted(states, acts, n, beta, k, l - 1, s, t);
      MutedStep(states[l - 1], acts[l - 1], s, t);
    }
  }

  // ----- for ever -----

  /** Shard s has announced its readiness, and t will never pass the barrier. */
  ghost predicate Blocked(g: System, s: ShardId, t: ShardId) {
    Muted(g, s, t) && (g.shards[s].phase.Ready? || g.shards[s].phase.Extracted?)
  }

  lemma BlockedStep(g: System, act: Action, s: ShardId, t: ShardId)
    requires Inv(g) && Blocked(g, s, t) && Enabled(g, act)
    ensures Inv(Next(g, act)) && Blocked(Next(g, act), s, t)
    ensures Next(g, act).n == g.n && Next(g, act).shards[s].round == g.shards[s].round
  {
    MutedStep(g, act, s, t);
    MutedCollects(g, s, t);
    StaysWaiting(g, act, s);
  }

  /** A leader that waits at the barrier, or for extracts that have not come, does not move on. */
  lemma StaysWaiting(g: System, act: Action, s: ShardId)
    requires Shape(g) && Enabled(g, act) && s < g.n && !g.shards[s].collectOver
    requires g.shards[s].phase.Ready? || g.shards[s].phase.Extracted?
    ensures var g' := Next(g, act);
            && g'.n == g.n && |g'.shards| == g.n
            && (g'.shards[s].phase.Ready? || g'.shards[s].phase.Extracted?) && g'.shards[s].round == g.shards[s].round
  {
    hide Pop, AppendRow, Remove, Note, XfersOut, After, MergedStates, MergedTxs, MergePanics, Install, BlockPanics,
         RelaysOut, NoneLate, BarrierPasses, Enumerates;
  }

  /** From then on no shard installs another map, whatever happens. */
  lemma {:induction false} BlockedForever(states: seq<System>, acts: seq<Action>, n: nat, beta: nat, k: nat, l: nat,
                                          s: ShardId, t: ShardId)
    requires n > 0 && IsRun(states, acts, n, beta) && k <= l < |states| && Blocked(states[k], s, t)
    ensures Inv(states[l]) && Blocked(states[l], s, t) && states[l].shards[s].round == states[k].shards[s].round
    ensures forall u | 0 <= u < |states[l].shards| :: states[l].shards[u].round <= states[k].shards[s].round
    decreases l
  {
    hide Inv, Muted, Next, Enabled, Init;
    RunInv(states, acts, n, beta, l);
    if k < l {
      BlockedForever(states, acts, n, beta, k, l - 1, s, t);
      BlockedStep(states[l - 1], acts[l - 1], s, t);
    }
    NoneAhead(states[l], s, t);
  }

  lemma NoneAhead(g: System, s: ShardId, t: ShardId)
    requires Inv(g) && Muted(g, s, t)
    ensures forall u | 0 <= u < |g.shards| :: g.shards[u].round <= g.shards[s].round
  {
    forall u | 0 <= u < |g.shards|
      ensures g.shards[u].round <= g.shards[s].round
    {
      Counts(g, u, t);
    }
  }

  // ----- how it comes about -----

  /** A shard that installs a migration has no relay with the number before its new one. */
  lemma InstallMutes(g: System, s: ShardId, t: ShardId)
    requires Inv(g) && Enabled(g, CommitPartition(s)) && t < g.n && t != s && s in g.shards[t].heard
    ensures Inv(Next(g, CommitPartition(s))) && Muted(Next(g, CommitPartition(s)), s, t)
  {
    var g' := Next(g, CommitPartition(s));
    InvNext(g, CommitPartition(s));
    assert Shape(g') && ShardAt(g, s) && PairAt(g, s, t) && PairAt(g, t, s);
    hide Install, HomeAt, XferOk, RelayOk, TxsInv, MapsInv;
    assert g.shards[t].heard[s] < g.shards[s].seqID;
  }

  /** A shard that others have heard of installs a migration and announces the next one without
      having committed a block in between: no map is ever installed again. */
  lemma QuietRoundBlocks(states: seq<System>, acts: seq<Action>, n: nat, beta: nat, k: nat, l: nat, m: nat, s: ShardId,
                         t: ShardId)
    requires n > 0 && IsRun(states, acts, n, beta) && k < l <= m < |states|
    requires acts[k] == CommitPartition(s) && t < |states[k].shards| && t != s && s in states[k].shards[t].heard
    requires forall j | k < j < l :: acts[j] != CommitBlock(s)
    requires s < |states[l].shards| && states[l].shards[s].phase.Ready?
    ensures forall u | 0 <= u < |states[m].shards| :: states[m].shards[u].round <= states[l].shards[s].round
  {
    RunInv(states, acts, n, beta, k);
    hide Inv, Muted, Next, Enabled, Init;
    InstallMutes(states[k], s, t);
    StaysMuted(states, acts, n, beta, k + 1, l, s, t);
    BlockedForever(states, acts, n, beta, l, m, s, t);
  }

  /** Relays that overtake each other do the same at once: a reachable state in which all relays
      have arrived, in the wrong order, and the first migration cannot be completed. */
  lemma OvertakingBlocks()
    ensures exists g :: Reachable(g, 2, 1) && Blocked(g, 0, 1) && g.relays[0][1] == [] && g.shards[0].round == 0
  {
    var g1 := FirstBlock(Transfer(1));
    var late := Transfer(1).(relayed := true);
    var g2 := SecondBlock(g1, Relay([late], 1));
    var g3 := Next(g2, DeliverRelay(0, 1, 0));
    ReachNext(g2, DeliverRelay(0, 1, 0), 2, 1);
    hide Reachable;
    assert g3.relays[0][1] == [] && g3.shards[1].heard == map[0 := 1];
    var g := ToBarrier(g3, map[1 := 0]);
    assert Blocked(g, 0, 1);
  }
}
