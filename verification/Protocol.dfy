/** The relay and account-migration protocol between shard leaders, as a transition system.

    Every shard is one sequential leader.  A message sent is put on a channel and delivered by
    a later step; relays and injected transactions are delivered in any order.  (Of readiness
    announcements and extracts at most one is on a channel, as the invariant shows.)  The
    environment is restricted in two ways, each marked ASSUMPTION below. */
module Protocol {
  import opened Core
  import opened Ledger
  import opened Extraction

  // ----- one leader -----

  /** Relayed transactions of one block, with the sender's sequence number. */
  datatype Relay = Relay(txs: seq<Tx>, seqID: nat)

  /** Account states and queued transactions handed to another shard. */
  datatype Xfer = Xfer(states: Accounts, txs: seq<Tx>)

  /** The request that installs a migration: changed placements, received states, and the
      number of maps known when it was proposed. */
  datatype TransferMsg = TransferMsg(changes: Placement, states: Accounts, atid: nat)

  /** Where the proposing routine of a leader stands. */
  datatype Phase =
    | Idle
    | Proposed(body: seq<Tx>)        // a block is being agreed on
    | Ready                          // waiting at the readiness barrier
    | Extracted                      // waiting for the other shards' extracts
    | Merged(msg: TransferMsg)       // the migration is being agreed on
    | Crashed                        // a log.Panic was reached

  datatype Shard = Shard(
    accounts: Accounts,
    book: Book,
    height: nat,
    pmap: Placement,
    queue: seq<Tx>,
    seqID: nat,
    heard: map<ShardId, nat>,        // last relay sequence number, by sender
    changes: seq<Placement>,         // maps received from the supervisor
    round: nat,                      // maps installed
    partitionOn: bool,
    readySet: set<ShardId>,
    readySeq: map<ShardId, nat>,
    collected: map<ShardId, Xfer>,
    collectOver: bool,
    phase: Phase)

  const InitShard := Shard(map[], map[], 0, map[], [], 1, map[], [], 0, false, {}, map[], map[], false, Idle)

  predicate InMigration(sh: Shard) {
    sh.phase.Ready? || sh.phase.Extracted? || sh.phase.Merged?
  }

  function OnRelay(sh: Shard, from: ShardId, r: Relay): Shard {
    sh.(queue := sh.queue + r.txs, heard := sh.heard[from := r.seqID])
  }

  function OnReady(sh: Shard, from: ShardId, nowSeq: nat): Shard {
    sh.(readySet := sh.readySet + {from}, readySeq := sh.readySeq[from := nowSeq])
  }

  function OnMap(sh: Shard, m: Placement): Shard {
    sh.(changes := sh.changes + [m], partitionOn := true)
  }

  function OnXfer(sh: Shard, n: nat, from: ShardId, x: Xfer): Shard {
    var collected := sh.collected[from := x];
    sh.(collected := collected, collectOver := sh.collectOver || |collected| == n - 1)
  }

  function OnInject(sh: Shard, txs: seq<Tx>): Shard {
    sh.(queue := sh.queue + txs)
  }

  function Propose(sh: Shard, k: nat): Shard
    requires k <= |sh.queue|
  {
    sh.(queue := sh.queue[k..], phase := Proposed(sh.queue[..k]))
  }

  function SendReady(sh: Shard, s: ShardId): Shard {
    sh.(readySet := sh.readySet + {s}, phase := Ready)
  }

  /** Every shard is ready, and from every shard ever heard of the last relay has arrived. */
  predicate BarrierPasses(sh: Shard, n: nat) {
    && |sh.readySet| == n
    && forall p | p in sh.heard :: p in sh.readySeq && sh.readySeq[p] == sh.heard[p] + 1
  }

  /** The accounts that leave shard s for shard i under the last map received. */
  function MovingTo(sh: Shard, s: ShardId, n: nat, i: ShardId): set<Address>
    requires n > 0 && sh.changes != []
  {
    var m := sh.changes[|sh.changes| - 1];
    set a | a in m && m[a] == i && m[a] != s && Place(sh.pmap, n, a) == s
  }

  function Moving(sh: Shard, s: ShardId, n: nat): (r: seq<set<Address>>)
    requires n > 0 && sh.changes != []
    ensures |r| == n && forall i | 0 <= i < n :: r[i] == MovingTo(sh, s, n, i)
  {
    seq(n, i requires 0 <= i => MovingTo(sh, s, n, i))
  }

  function ExtractQueue(sh: Shard, s: ShardId, n: nat): Shard
    requires n > 0 && sh.changes != []
  {
    sh.(queue := After(RelayMode, sh.queue, Moving(sh, s, n), s, n), phase := Extracted)
  }

  function XferTo(sh: Shard, s: ShardId, n: nat, i: ShardId): Xfer
    requires n > 0 && sh.changes != [] && i < n
  {
    Xfer(map a | a in MovingTo(sh, s, n, i) :: Read(sh.accounts, a, 0),
         SentTo(RelayMode, sh.queue, Moving(sh, s, n), s, i))
  }

  function XfersOut(sh: Shard, s: ShardId, n: nat): (r: seq<Xfer>)
    requires n > 0 && sh.changes != []
    ensures |r| == n && forall i | 0 <= i < n :: r[i] == XferTo(sh, s, n, i)
  {
    seq(n, i requires 0 <= i < n => XferTo(sh, s, n, i))
  }

  /** The collected states and transactions, in the order the collected messages are visited. */
  function MergedStates(collected: map<ShardId, Xfer>, order: seq<ShardId>): Accounts
    requires forall i | 0 <= i < |order| :: order[i] in collected
  {
    if order == [] then map[]
    else MergedStates(collected, order[..|order| - 1]) + collected[order[|order| - 1]].states
  }

  function MergedTxs(collected: map<ShardId, Xfer>, order: seq<ShardId>): seq<Tx>
    requires forall i | 0 <= i < |order| :: order[i] in collected
  {
    if order == [] then []
    else MergedTxs(collected, order[..|order| - 1]) + collected[order[|order| - 1]].txs
  }

  /** A map lookup that yields shard 0 for a missing key. */
  function Lookup(m: Placement, a: Address): ShardId {
    if a in m then m[a] else 0
  }

  /** The "error tx" panic of proposing a migration. */
  predicate MergePanics(txs: seq<Tx>, m: Placement, s: ShardId) {
    exists i :: 0 <= i < |txs| && Lookup(m, KeyOf(txs[i])) != s
  }

  function ProposePartition(sh: Shard, s: ShardId, order: seq<ShardId>): Shard
    requires sh.round < |sh.changes|
    requires forall i | 0 <= i < |order| :: order[i] in sh.collected
  {
    var txs := MergedTxs(sh.collected, order);
    if MergePanics(txs, sh.changes[sh.round], s) then sh.(phase := Crashed)
    else sh.(queue := sh.queue + txs,
             phase := Merged(TransferMsg(sh.changes[sh.round], MergedStates(sh.collected, order), |sh.changes|)))
  }

  /** The account state after installing those received states the map places here. */
  function Install(accounts: Accounts, states: Accounts, pmap: Placement, s: ShardId, n: nat): Accounts
    requires n > 0
  {
    accounts + map a | a in states && Place(pmap, n, a) == s :: states[a]
  }

  /** What committing a migration does to the leader. */
  function TransferDo(sh: Shard, s: ShardId, n: nat, msg: TransferMsg): Shard
    requires n > 0
  {
    var pmap := sh.pmap + msg.changes;
    sh.(pmap := pmap,
        accounts := Install(sh.accounts, msg.states, pmap, s, n),
        height := sh.height + 1,
        changes := if |sh.changes| != msg.atid then sh.changes + [msg.changes] else sh.changes,
        round := msg.atid,
        partitionOn := false,
        readySet := {},
        collected := map[],
        collectOver := false,
        seqID := sh.seqID + 1,
        phase := Idle)
  }

  /** The "incorrect tx" panic of committing a block. */
  predicate BlockPanics(body: seq<Tx>, pmap: Placement, s: ShardId, n: nat)
    requires n > 0
  {
    exists i :: 0 <= i < |body| && Place(pmap, n, KeyOf(body[i])) != s
  }

  /** The transactions of a body relayed to shard t, marked as relayed. */
  function OutTo(body: seq<Tx>, pmap: Placement, n: nat, t: ShardId): seq<Tx>
    requires n > 0
  {
    if body == [] then []
    else
      var last := |body| - 1;
      var before := OutTo(body[..last], pmap, n, t);
      if Place(pmap, n, body[last].recipient) == t then before + [body[last].(relayed := true)] else before
  }

  function RelaysOut(sh: Shard, n: nat): (r: seq<Relay>)
    requires n > 0 && sh.phase.Proposed?
    ensures |r| == n && forall t | 0 <= t < n :: r[t] == Relay(OutTo(sh.phase.body, sh.pmap, n, t), sh.seqID)
  {
    seq(n, t requires 0 <= t => Relay(OutTo(sh.phase.body, sh.pmap, n, t), sh.seqID))
  }

  function EnvOf(sh: Shard, s: ShardId, n: nat, beta: nat): Env {
    Env(s, n, sh.pmap, sh.height, beta)
  }

  /** Committing the proposed block.  The root computed when the block was built becomes
      current here; nothing else touches the state in between. */
  ghost function CommitBody(sh: Shard, s: ShardId, n: nat, beta: nat): Shard
    requires n > 0 && sh.phase.Proposed?
  {
    if BlockPanics(sh.phase.body, sh.pmap, s, n) then sh.(phase := Crashed)
    else
      var (accounts, book) := Execute(EnvOf(sh, s, n, beta), sh.accounts, sh.book, sh.phase.body);
      sh.(accounts := accounts, book := book, height := sh.height + 1, seqID := sh.seqID + 1, phase := Idle)
  }

  // ----- the system -----

  type Channels<T> = seq<seq<seq<T>>>

  datatype System = System(
    n: nat,
    beta: nat,
    shards: seq<Shard>,
    relays: Channels<Relay>,         // indexed by sender, then by receiver
    arrived: Channels<nat>,          // numbers of the relays delivered, in the order of arrival
    readies: Channels<nat>,
    xfers: Channels<Xfer>,
    injects: seq<seq<Tx>>,           // injected transactions on their way, by receiver
    maps: seq<Placement>,            // every map the supervisor has sent
    modified: Placement,             // the supervisor's merged map
    epoch: nat,                      // the supervisor's epoch
    infos: set<nat>)                 // epochs reported by shards

  datatype Action =
    | SendMap(m: Placement)
    | DeliverMap(s: ShardId)
    | Inject(tx: Tx)
    | DeliverInject(s: ShardId, i: nat)
    | ProposeBlock(s: ShardId, k: nat)
    | CommitBlock(s: ShardId)
    | BecomeReady(s: ShardId)
    | DeliverReady(from: ShardId, to: ShardId)
    | DeliverRelay(from: ShardId, to: ShardId, i: nat)
    | Extract(s: ShardId)
    | DeliverXfer(from: ShardId, to: ShardId)
    | Merge(s: ShardId, order: seq<ShardId>)
    | CommitPartition(s: ShardId)
    | ReceiveInfo(e: nat)

  predicate Square<T>(c: Channels<T>, n: nat) {
    |c| == n && forall s | 0 <= s < n :: |c[s]| == n
  }

  predicate Shape(g: System) {
    g.n > 0 && |g.shards| == g.n && |g.injects| == g.n
    && Square(g.relays, g.n) && Square(g.arrived, g.n) && Square(g.readies, g.n) && Square(g.xfers, g.n)
  }

  function Empty<T>(n: nat): (c: Channels<T>)
    ensures Square(c, n) && forall s, t | 0 <= s < n && 0 <= t < n :: c[s][t] == []
  {
    seq(n, s => seq(n, t => []))
  }

  function Init(n: nat, beta: nat): System {
    System(n, beta, seq(n, s => InitShard), Empty(n), Empty(n), Empty(n), Empty(n), seq(n, s => []), [], map[], 0, {})
  }

  /** Append one message per receiver to the sender's row. */
  function AppendRow<T>(row: seq<seq<T>>, s: ShardId, items: seq<T>): (r: seq<seq<T>>)
    requires |row| == |items|
    ensures |r| == |row|
    ensures forall t | 0 <= t < |row| :: r[t] == if t == s then row[t] else row[t] + [items[t]]
  {
    seq(|row|, t requires 0 <= t < |row| => if t == s then row[t] else row[t] + [items[t]])
  }

  function Constant<T>(n: nat, x: T): (r: seq<T>)
    ensures |r| == n && forall t | 0 <= t < n :: r[t] == x
  {
    seq(n, t => x)
  }

  predicate Waiting<T>(c: Channels<T>, n: nat, s: ShardId, t: ShardId)
    requires Square(c, n)
  {
    s < n && t < n && s != t && c[s][t] != []
  }

  /** Remove the oldest message from s to t. */
  function Pop<T>(c: Channels<T>, n: nat, s: ShardId, t: ShardId): (r: Channels<T>)
    requires Square(c, n) && Waiting(c, n, s, t)
    ensures Square(r, n)
    ensures forall a, b | 0 <= a < n && 0 <= b < n ::
              r[a][b] == if a == s && b == t then c[a][b][1..] else c[a][b]
  {
    c[s := c[s][t := c[s][t][1..]]]
  }

  /** Remove the i-th oldest message from s to t. */
  function Remove<T>(c: Channels<T>, n: nat, s: ShardId, t: ShardId, i: nat): (r: Channels<T>)
    requires Square(c, n) && s < n && t < n && i < |c[s][t]|
    ensures Square(r, n)
    ensures forall a, b | 0 <= a < n && 0 <= b < n ::
              r[a][b] == if a == s && b == t then c[a][b][..i] + c[a][b][i + 1..] else c[a][b]
  {
    c[s := c[s][t := c[s][t][..i] + c[s][t][i + 1..]]]
  }

  /** Note one more relay from s to t as arrived. */
  function Note(c: Channels<nat>, n: nat, s: ShardId, t: ShardId, x: nat): (r: Channels<nat>)
    requires Square(c, n) && s < n && t < n
    ensures Square(r, n)
    ensures forall a, b | 0 <= a < n && 0 <= b < n :: r[a][b] == if a == s && b == t then c[a][b] + [x] else c[a][b]
  {
    c[s := c[s][t := c[s][t] + [x]]]
  }

  /** As many relays from s have arrived at t as s had sent when it announced its readiness:
      its number then, less its start and one for every installed map. */
  predicate AllArrived(g: System, s: ShardId, t: ShardId)
    requires Shape(g) && s < g.n && t < g.n
  {
    s in g.shards[t].readySeq && |g.arrived[s][t]| + 1 + g.shards[t].round == g.shards[t].readySeq[s]
  }

  /** The account that decides a transaction leaves shard s under the last map received. */
  predicate Leaves(sh: Shard, s: ShardId, tx: Tx)
    requires sh.changes != []
  {
    var m := sh.changes[|sh.changes| - 1];
    KeyOf(tx) in m && m[KeyOf(tx)] != s
  }

  /** No transaction on its way to shard s, injected or relayed, is decided by an account that leaves. */
  predicate NoneLate(g: System, s: ShardId)
    requires Shape(g) && s < g.n && g.shards[s].changes != []
  {
    && (forall i | 0 <= i < |g.injects[s]| :: !Leaves(g.shards[s], s, g.injects[s][i]))
    && (forall p | 0 <= p < g.n && p != s :: NoneLeaves(g.shards[s], s, g.relays[p][s]))
  }

  predicate NoneLeaves(sh: Shard, s: ShardId, relay: seq<Relay>)
    requires sh.changes != []
  {
    forall i, j | 0 <= i < |relay| && 0 <= j < |relay[i].txs| :: !Leaves(sh, s, relay[i].txs[j])
  }

  predicate Enumerates(order: seq<ShardId>, keys: set<ShardId>) {
    && (forall i | 0 <= i < |order| :: order[i] in keys)
    && (forall k | k in keys :: k in order)
    && (forall i, j | 0 <= i < j < |order| :: order[i] != order[j])
  }

  predicate Enabled(g: System, act: Action)
    requires Shape(g)
  {
    match act
    case SendMap(m) =>
      // the supervisor waits until its epoch has caught up with the maps it sent
      g.epoch == |g.maps| && forall a | a in m :: m[a] < g.n
    case DeliverMap(s) =>
      // ASSUMPTION: a map reaches a shard only after the shard has installed the previous one
      s < g.n && |g.shards[s].changes| < |g.maps| && |g.shards[s].changes| == g.shards[s].round
    case Inject(tx) =>
      g.epoch == |g.maps| && !tx.relayed && !tx.hasBroker
    case DeliverInject(s, i) =>
      s < g.n && i < |g.injects[s]|
    case ProposeBlock(s, k) =>
      s < g.n && g.shards[s].phase.Idle? && !g.shards[s].partitionOn && k <= |g.shards[s].queue|
    case CommitBlock(s) =>
      s < g.n && g.shards[s].phase.Proposed?
    case BecomeReady(s) =>
      s < g.n && g.shards[s].phase.Idle? && g.shards[s].partitionOn
    case DeliverReady(s, t) => Waiting(g.readies, g.n, s, t)
    case DeliverRelay(s, t, i) => s < g.n && t < g.n && s != t && i < |g.relays[s][t]|
    case Extract(s) =>
      && s < g.n && g.shards[s].phase.Ready? && g.shards[s].changes != []
      && BarrierPasses(g.shards[s], g.n)
      // ASSUMPTION: what is still on its way to the shard is not decided by an account that leaves it
      && NoneLate(g, s)
    case DeliverXfer(s, t) => Waiting(g.xfers, g.n, s, t)
    case Merge(s, order) =>
      s < g.n && g.shards[s].phase.Extracted? && g.shards[s].collectOver
      && g.shards[s].round < |g.shards[s].changes| && Enumerates(order, g.shards[s].collected.Keys)
    case CommitPartition(s) =>
      s < g.n && g.shards[s].phase.Merged?
    case ReceiveInfo(e) =>
      e in g.infos
  }

  function Put(g: System, s: ShardId, sh: Shard): System
    requires s < |g.shards|
  {
    g.(shards := g.shards[s := sh])
  }

  function Extracting(g: System, s: ShardId): System
    requires Shape(g) && s < g.n && g.shards[s].changes != []
  {
    Put(g, s, ExtractQueue(g.shards[s], s, g.n)).(
      xfers := g.xfers[s := AppendRow(g.xfers[s], s, XfersOut(g.shards[s], s, g.n))])
  }

  ghost function Next(g: System, act: Action): System
    requires Shape(g) && Enabled(g, act)
  {
    match act
    case SendMap(m) =>
      g.(maps := g.maps + [m], modified := g.modified + m)
    case DeliverMap(s) =>
      Put(g, s, OnMap(g.shards[s], g.maps[|g.shards[s].changes|]))
    case Inject(tx) =>
      var s := Place(g.modified, g.n, tx.sender);
      if s < g.n then g.(injects := g.injects[s := g.injects[s] + [tx]]) else g
    case DeliverInject(s, i) =>
      Put(g, s, OnInject(g.shards[s], [g.injects[s][i]])).(
        injects := g.injects[s := g.injects[s][..i] + g.injects[s][i + 1..]])
    case ProposeBlock(s, k) =>
      Put(g, s, Propose(g.shards[s], k))
    case CommitBlock(s) =>
      Put(g, s, CommitBody(g.shards[s], s, g.n, g.beta)).(
        relays := g.relays[s := AppendRow(g.relays[s], s, RelaysOut(g.shards[s], g.n))],
        infos := g.infos + {g.shards[s].round})
    case BecomeReady(s) =>
      Put(g, s, SendReady(g.shards[s], s)).(
        readies := g.readies[s := AppendRow(g.readies[s], s, Constant(g.n, g.shards[s].seqID))])
    case DeliverReady(s, t) =>
      Put(g, t, OnReady(g.shards[t], s, g.readies[s][t][0])).(readies := Pop(g.readies, g.n, s, t))
    case DeliverRelay(s, t, i) =>
      Put(g, t, OnRelay(g.shards[t], s, g.relays[s][t][i])).(
        relays := Remove(g.relays, g.n, s, t, i),
        arrived := Note(g.arrived, g.n, s, t, g.relays[s][t][i].seqID))
    case Extract(s) => Extracting(g, s)
    case DeliverXfer(s, t) =>
      Put(g, t, OnXfer(g.shards[t], g.n, s, g.xfers[s][t][0])).(xfers := Pop(g.xfers, g.n, s, t))
    case Merge(s, order) =>
      Put(g, s, ProposePartition(g.shards[s], s, order))
    case CommitPartition(s) =>
      Put(g, s, TransferDo(g.shards[s], s, g.n, g.shards[s].phase.msg))
    case ReceiveInfo(e) =>
      if e == g.epoch + 1 then g.(epoch := e) else g
  }
}
