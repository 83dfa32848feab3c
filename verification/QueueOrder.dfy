/** The order in which a shard handles its transactions: first come, first served. */
module QueueOrder {
  import opened Core
  import opened Extraction
  import opened Protocol
  import opened ProtocolSafety

  /** What a step brings to shard s. */
  function Coming(g: System, act: Action, s: ShardId): seq<Tx>
    requires Shape(g) && Enabled(g, act)
  {
    match act
    case DeliverInject(t, i) => if t == s then [g.injects[s][i]] else []
    case DeliverRelay(p, t, i) => if t == s then g.relays[p][s][i].txs else []
    case _ => []
  }

  /** What a step puts into a proposed block of shard s. */
  function Going(g: System, act: Action, s: ShardId): seq<Tx>
    requires Shape(g) && Enabled(g, act)
  {
    match act
    case ProposeBlock(t, k) => if t == s then g.shards[s].queue[..k] else []
    case _ => []
  }

  ghost predicate StepsOf(states: seq<System>, acts: seq<Action>) {
    |states| == |acts| + 1
    && forall i | 0 <= i < |acts| ::
         Shape(states[i]) && Enabled(states[i], acts[i]) && states[i + 1] == Next(states[i], acts[i])
  }

  ghost function Came(states: seq<System>, acts: seq<Action>, s: ShardId, k: nat, l: nat): seq<Tx>
    requires StepsOf(states, acts) && k <= l <= |acts|
    decreases l
  {
    if k == l then [] else Came(states, acts, s, k, l - 1) + Coming(states[l - 1], acts[l - 1], s)
  }

  ghost function Went(states: seq<System>, acts: seq<Action>, s: ShardId, k: nat, l: nat): seq<Tx>
    requires StepsOf(states, acts) && k <= l <= |acts|
    decreases l
  {
    if k == l then [] else Went(states, acts, s, k, l - 1) + Going(states[l - 1], acts[l - 1], s)
  }

  /** The step does not take part in a migration of shard s. */
  predicate NoMigration(act: Action, s: ShardId) {
    !(act.Extract? && act.s == s) && !(act.Merge? && act.s == s)
  }

  ghost predicate Served(g: System, act: Action, s: ShardId)
    requires Shape(g) && Enabled(g, act) && s < g.n
  {
    var g' := Next(g, act);
    |g'.shards| == g.n && g.shards[s].queue + Coming(g, act, s) == Going(g, act, s) + g'.shards[s].queue
  }

  lemma QueueMoves(g: System, act: Action, s: ShardId)
    requires Shape(g) && Enabled(g, act) && s < g.n && (act.DeliverInject? || act.DeliverRelay? || act.ProposeBlock?)
    ensures Served(g, act, s)
  {
    hide Remove, Note;
  }

  lemma QueueStays(g: System, act: Action, s: ShardId)
    requires Shape(g) && Enabled(g, act) && s < g.n && NoMigration(act, s)
    requires act.CommitBlock? || act.Extract? || act.Merge? || act.CommitPartition?
    ensures Served(g, act, s)
  {
    hide AppendRow, RelaysOut, XfersOut, Install, BlockPanics, MergePanics, MergedTxs, MergedStates, After,
         BarrierPasses, NoneLate, Enumerates;
  }

  lemma QueueStep(g: System, act: Action, s: ShardId)
    requires Shape(g) && Enabled(g, act) && s < g.n && NoMigration(act, s)
    ensures Served(g, act, s)
  {
    if act.DeliverInject? || act.DeliverRelay? || act.ProposeBlock? {
      QueueMoves(g, act, s);
    } else if act.CommitBlock? || act.Extract? || act.Merge? || act.CommitPartition? {
      QueueStays(g, act, s);
    } else {
      hide AppendRow, Pop;
    }
  }

  /** Between two migrations, the queue and what has come since are, in order, what has been proposed
      since and the queue now. */
  lemma {:induction false} FirstComeFirstServed(states: seq<System>, acts: seq<Action>, n: nat, beta: nat, s: ShardId,
      k: nat, l: nat)
    requires n > 0 && IsRun(states, acts, n, beta) && s < n && k <= l <= |acts|
    requires forall i | k <= i < l :: NoMigration(acts[i], s)
    ensures StepsOf(states, acts) && |states[k].shards| == n == |states[l].shards|
    ensures states[k].shards[s].queue + Came(states, acts, s, k, l)
            == Went(states, acts, s, k, l) + states[l].shards[s].queue
    decreases l
  {
    hide Next, Enabled, Init, Coming, Going, NoMigration;
    assert StepsOf(states, acts);
    RunInv(states, acts, n, beta, k);
    RunSize(states, acts, n, beta, k);
    if k < l {
      FirstComeFirstServed(states, acts, n, beta, s, k, l - 1);
      RunSize(states, acts, n, beta, l - 1);
      QueueStep(states[l - 1], acts[l - 1], s);
      Chain(states[k].shards[s].queue, Came(states, acts, s, k, l - 1), Coming(states[l - 1], acts[l - 1], s),
            Went(states, acts, s, k, l - 1), states[l - 1].shards[s].queue, Going(states[l - 1], acts[l - 1], s),
            states[l].shards[s].queue);
    }
  }

  lemma Chain(q: seq<Tx>, came: seq<Tx>, coming: seq<Tx>, went: seq<Tx>, mid: seq<Tx>, going: seq<Tx>, end: seq<Tx>)
    requires q + came == went + mid && mid + coming == going + end
    ensures q + (came + coming) == (went + going) + end
  {
    calc {
      q + (came + coming);
      (q + came) + coming;
      went + (mid + coming);
      (went + going) + end;
    }
  }
}
