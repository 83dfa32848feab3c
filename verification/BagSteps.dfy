/** What each protocol step does to the bag of live transactions: only an injection adds one,
    only a committed block replaces its body by what it relays. */
module BagSteps {
  import opened Core
  import opened Ledger
  import opened Sums
  import opened Extraction
  import opened Protocol
  import opened ProtocolInv
  import opened ProtocolSteps
  import opened MigrationSteps
  import opened Bags

  /** A step inside one place that loses nothing. */
  lemma BagSame(g: System, g': System, x: ShardId)
    requires Shape(g) && Shape(g') && g'.n == g.n && x < g.n
    requires forall y | 0 <= y < g.n && y != x :: PlaceBag(g', y) == PlaceBag(g, y)
    requires PlaceBag(g', x) == PlaceBag(g, x)
    ensures Bag(g') == Bag(g)
  {
    hide PlaceBag;
    assert PlaceBags(g') == PlaceBags(g);
  }

  lemma InjectBag(g: System, tx: Tx)
    requires Inv(g) && Enabled(g, Inject(tx))
    ensures !tx.relayed
    ensures Shape(Next(g, Inject(tx))) && Bag(Next(g, Inject(tx))) == Bag(g) + multiset{tx}
  {
    hide ShardBag, BagSum, RelayRow, XferRow;
    var s := Place(g.modified, g.n, tx.sender);
    assert s == HomeAt(g.maps, g.n, |g.maps|, tx.sender);
    HomeInRange(g.maps, g.n, |g.maps|, tx.sender);
    var g' := Next(g, Inject(tx));
    BagAt(g, g', s, multiset{}, multiset{tx});
    assert Bag(g') == Bag(g') + multiset{};
  }

  lemma DeliverInjectBag(g: System, s: ShardId, i: nat)
    requires Inv(g) && Enabled(g, DeliverInject(s, i))
    ensures Shape(Next(g, DeliverInject(s, i))) && Bag(Next(g, DeliverInject(s, i))) == Bag(g)
  {
    hide BagSum, RelayRow, XferRow;
    var g' := Next(g, DeliverInject(s, i));
    var inj := g.injects[s];
    RemoveAt(inj, i);
    QueueMore(g.shards[s], [inj[i]], g.n);
    hide ShardBag;
    Shift(ShardBag(g.shards[s], g.n), BagSum(RelayRow(g.relays[s])), BagSum(XferRow(g.xfers[s])),
          multiset(inj[..i] + inj[i + 1..]), multiset{inj[i]});
    assert PlaceBag(g', s) == PlaceBag(g, s);
    hide PlaceBag;
    BagSame(g, g', s);
  }

  /** Queued transactions count as held. */
  lemma QueueMore(sh: Shard, txs: seq<Tx>, n: nat)
    ensures ShardBag(sh.(queue := sh.queue + txs), n) == ShardBag(sh, n) + multiset(txs)
  {
    hide BagSum, CollectedBags;
    Swap(multiset(sh.queue), multiset(txs), if sh.phase.Proposed? then multiset(sh.phase.body) else multiset{},
         if sh.phase.Merged? then multiset{} else BagSum(CollectedBags(sh.collected, n)));
  }

  lemma Swap<T>(q: multiset<T>, m: multiset<T>, p: multiset<T>, c: multiset<T>)
    ensures (q + m) + p + c == q + p + c + m
  {
  }

  lemma RemoveAt<T>(q: seq<T>, i: nat)
    requires i < |q|
    ensures multiset(q[..i] + q[i + 1..]) + multiset{q[i]} == multiset(q)
  {
    assert q == q[..i] + [q[i]] + q[i + 1..];
  }

  lemma Shift<T>(h: multiset<T>, r: multiset<T>, x: multiset<T>, i: multiset<T>, m: multiset<T>)
    ensures (h + m) + r + x + i == h + r + x + (i + m)
  {
  }

  lemma ProposedBag(sh: Shard, k: nat, n: nat)
    requires sh.phase.Idle? && k <= |sh.queue|
    ensures ShardBag(Propose(sh, k), n) == ShardBag(sh, n)
  {
    hide CollectedBags, BagSum;
    assert sh.queue == sh.queue[..k] + sh.queue[k..];
  }

  lemma ProposeBlockBag(g: System, s: ShardId, k: nat)
    requires Inv(g) && Enabled(g, ProposeBlock(s, k))
    ensures Shape(Next(g, ProposeBlock(s, k))) && Bag(Next(g, ProposeBlock(s, k))) == Bag(g)
  {
    hide ShardAt, PairAt, MapsInv, BagSum, RelayRow, XferRow, ShardBag, Propose;
    var g' := Next(g, ProposeBlock(s, k));
    ProposedBag(g.shards[s], k, g.n);
    assert PlaceBag(g', s) == PlaceBag(g, s);
    BagSame(g, g', s);
  }

  /** Committing a block takes its body out and puts its relayed halves in. */
  lemma {:induction false} CommitBlockBag(g: System, s: ShardId)
    requires Inv(g) && Enabled(g, CommitBlock(s))
    ensures Shape(Next(g, CommitBlock(s)))
    ensures var sh := g.shards[s];
            Bag(Next(g, CommitBlock(s))) + multiset(sh.phase.body)
            == Bag(g) + multiset(Crossing(sh.phase.body, sh.pmap, g.n, s))
  {
    hide BagSum, RelayBag, XferRow, CollectedBags, Execute, BlockPanics, HomeAt;
    var g' := Next(g, CommitBlock(s));
    var sh := g.shards[s];
    var out := multiset(Crossing(sh.phase.body, sh.pmap, g.n, s));
    CommitBlockShard(g, s);
    HomesInRange(g, s);
    OutsAreCrossing(sh.phase.body, sh.pmap, g.n, s);
    RelayRowAppend(g.relays[s], s, RelaysOut(sh, g.n), Outs(sh.phase.body, sh.pmap, g.n));
    assert BagSum(RelayRow(g'.relays[s])) == BagSum(RelayRow(g.relays[s])) + out;
    assert PlaceBag(g', s) + multiset(sh.phase.body) == PlaceBag(g, s) + out;
    BagAt(g, g', s, multiset(sh.phase.body), out);
  }

  lemma HomesInRange(g: System, s: ShardId)
    requires Inv(g) && s < g.n
    ensures forall a :: Place(g.shards[s].pmap, g.n, a) < g.n
  {
    assert ShardAt(g, s);
    forall a
      ensures Place(g.shards[s].pmap, g.n, a) < g.n
    {
      HomeInRange(g.maps, g.n, g.shards[s].round, a);
    }
  }

  lemma DeliverRelayBag(g: System, s: ShardId, t: ShardId, i: nat)
    requires Inv(g) && Enabled(g, DeliverRelay(s, t, i))
    ensures Shape(Next(g, DeliverRelay(s, t, i))) && Bag(Next(g, DeliverRelay(s, t, i))) == Bag(g)
  {
    hide BagSum, RelayRow, XferRow, CollectedBags;
    var g' := Next(g, DeliverRelay(s, t, i));
    RelayRowRemove(g.relays[s], t, i);
    assert g'.relays[s] == g.relays[s][t := g.relays[s][t][..i] + g.relays[s][t][i + 1..]];
    var moved := multiset(g.relays[s][t][i].txs);
    QueueMore(g.shards[t], g.relays[s][t][i].txs, g.n);
    HoldingsBag(g.shards[t].(queue := g'.shards[t].queue), g'.shards[t], g.n);
    hide ShardBag;
    assert PlaceBag(g, s) == PlaceBag(g', s) + moved;
    assert g'.relays[t] == g.relays[t];
    assert PlaceBag(g', t) == PlaceBag(g, t) + moved;
    forall y | 0 <= y < g.n && y != s && y != t
      ensures PlaceBag(g', y) == PlaceBag(g, y)
    {
      assert g'.relays[y] == g.relays[y];
    }
    BagMoves(g, g', s, t, moved);
  }

  /** An extract on its way has not been collected, and its receiver has not merged yet. */
  lemma XferUncollected(g: System, s: ShardId, t: ShardId)
    requires Inv(g) && Enabled(g, DeliverXfer(s, t))
    ensures s !in g.shards[t].collected && !g.shards[t].phase.Merged?
  {
    hide HomeAt, XferOk, RelayOk;
    assert PairAt(g, s, t) && ShardAt(g, t);
  }

  lemma DeliverXferBag(g: System, s: ShardId, t: ShardId)
    requires Inv(g) && Enabled(g, DeliverXfer(s, t))
    ensures Shape(Next(g, DeliverXfer(s, t))) && Bag(Next(g, DeliverXfer(s, t))) == Bag(g)
  {
    hide BagSum, RelayRow, XferRow, CollectedBags;
    var g' := Next(g, DeliverXfer(s, t));
    var x := g.xfers[s][t][0];
    XferUncollected(g, s, t);
    XferRowPop(g.xfers[s], t);
    CollectedAdd(g.shards[t].collected, g.n, s, x);
    assert ShardBag(g'.shards[t], g.n) == ShardBag(g.shards[t], g.n) + multiset(x.txs);
    hide ShardBag;
    assert g'.xfers[s] == g.xfers[s][t := g.xfers[s][t][1..]];
    assert PlaceBag(g, s) == PlaceBag(g', s) + multiset(x.txs);
    assert g'.xfers[t] == g.xfers[t];
    assert PlaceBag(g', t) == PlaceBag(g, t) + multiset(x.txs);
    forall y | 0 <= y < g.n && y != s && y != t
      ensures PlaceBag(g', y) == PlaceBag(g, y)
    {
      assert g'.xfers[y] == g.xfers[y];
    }
    BagMoves(g, g', s, t, multiset(x.txs));
  }

  lemma {:induction false} RelayModeCrossesNothing(q: seq<Tx>, moving: seq<set<Address>>, self: ShardId, k: nat)
    requires k <= |moving|
    ensures CrossedBy(RelayMode, q, moving, self, k) == []
  {
    if k > 0 {
      RelayModeCrossesNothing(q, moving, self, k - 1);
      var picked := Pick(RelayMode, After(RelayMode, q, moving, self, k - 1), moving[k - 1], Cross);
      if picked != [] {
        PickMember(RelayMode, After(RelayMode, q, moving, self, k - 1), moving[k - 1], Cross, picked[0]);
      }
    }
  }

  ghost function Sents(sh: Shard, s: ShardId, n: nat): (r: seq<seq<Tx>>)
    requires n > 0 && sh.changes != []
    ensures |r| == n && forall t | 0 <= t < n :: r[t] == SentTo(RelayMode, sh.queue, Moving(sh, s, n), s, t)
  {
    seq(n, t requires 0 <= t < n => SentTo(RelayMode, sh.queue, Moving(sh, s, n), s, t))
  }

  lemma QueueSplits(sh: Shard, s: ShardId, n: nat)
    requires n > 0 && sh.changes != []
    ensures multiset(sh.queue) == multiset(ExtractQueue(sh, s, n).queue) + BagSum(RowTxs(Sents(sh, s, n), s))
  {
    hide BagSum, After, SentTo;
    var moving := Moving(sh, s, n);
    ExtractionSplits(RelayMode, sh.queue, moving, s, n);
    RelayModeCrossesNothing(sh.queue, moving, s, n);
    SelfSendsNothing(sh.queue, moving, s);
    assert SentBags(RelayMode, sh.queue, moving, s, n) == RowTxs(Sents(sh, s, n), s);
  }

  lemma SelfSendsNothing(q: seq<Tx>, moving: seq<set<Address>>, s: ShardId)
    ensures s < |moving| ==> SentTo(RelayMode, q, moving, s, s) == []
  {
  }

  lemma NoXfersOut(g: System, s: ShardId, t: ShardId)
    requires Inv(g) && Enabled(g, Extract(s)) && t < g.n && t != s
    ensures g.xfers[s][t] == []
  {
    hide HomeAt, XferOk, RelayOk;
    assert PairAt(g, s, t) && PairAt(g, t, s);
    BarrierAll(g, s);
    BarrierPeer(g.maps, g.n, t, s, g.shards[t], g.shards[s], g.relays[t][s], g.arrived[t][s], g.readies[t][s],
                g.xfers[t][s]);
  }

  lemma ExtractBag(g: System, s: ShardId)
    requires Inv(g) && Enabled(g, Extract(s))
    ensures Shape(Next(g, Extract(s))) && Bag(Next(g, Extract(s))) == Bag(g)
  {
    hide BagSum, RelayRow, XferBag, CollectedBags, After, SentTo, HomeAt;
    var g' := Next(g, Extract(s));
    var sh := g.shards[s];
    QueueSplits(sh, s, g.n);
    forall t | 0 <= t < g.n && t != s
      ensures g.xfers[s][t] == []
    {
      NoXfersOut(g, s, t);
    }
    XferRowAppend(g.xfers[s], s, XfersOut(sh, s, g.n), Sents(sh, s, g.n));
    assert PlaceBag(g', s) == PlaceBag(g, s);
    BagSame(g, g', s);
  }

  /** The collected bags of the shards listed so far. */
  ghost function ListedBags(collected: map<ShardId, Xfer>, order: seq<ShardId>, n: nat): (r: seq<multiset<Tx>>)
    ensures |r| == n && forall p | 0 <= p < n :: r[p] == if p in order then FromPeer(collected, p) else multiset{}
  {
    seq(n, p requires 0 <= p => if p in order then FromPeer(collected, p) else multiset{})
  }

  lemma {:induction false} MergedBag(collected: map<ShardId, Xfer>, order: seq<ShardId>, n: nat)
    requires forall i | 0 <= i < |order| :: order[i] in collected && order[i] < n
    requires forall i, j | 0 <= i < j < |order| :: order[i] != order[j]
    ensures multiset(MergedTxs(collected, order)) == BagSum(ListedBags(collected, order, n))
  {
    if order == [] {
      BagSumEmpty(ListedBags(collected, order, n));
    } else {
      MergedBag(collected, order[..|order| - 1], n);
      MergedMore(collected, order);
      ListedMore(collected, order, n);
      hide MergedTxs, FromPeer, ListedBags, BagSum;
    }
  }

  lemma ListedMore(collected: map<ShardId, Xfer>, order: seq<ShardId>, n: nat)
    requires order != [] && forall i | 0 <= i < |order| :: order[i] in collected && order[i] < n
    requires forall i, j | 0 <= i < j < |order| :: order[i] != order[j]
    ensures BagSum(ListedBags(collected, order, n))
            == BagSum(ListedBags(collected, order[..|order| - 1], n)) + FromPeer(collected, order[|order| - 1])
  {
    var last := |order| - 1;
    var p := order[last];
    var bags, before := ListedBags(collected, order, n), ListedBags(collected, order[..last], n);
    hide FromPeer, BagSum;
    assert order == order[..last] + [p];
    assert p !in order[..last];
    assert bags == before[p := FromPeer(collected, p)];
    BagSumUpdate(before, p, FromPeer(collected, p));
    Vanish(BagSum(bags), BagSum(before) + FromPeer(collected, p));
  }

  lemma Vanish<T>(x: multiset<T>, y: multiset<T>)
    requires x + multiset{} == y
    ensures x == y
  {
  }

  lemma {:induction false} MergedMore(collected: map<ShardId, Xfer>, order: seq<ShardId>)
    requires order != [] && forall i | 0 <= i < |order| :: order[i] in collected
    ensures multiset(MergedTxs(collected, order))
            == multiset(MergedTxs(collected, order[..|order| - 1])) + FromPeer(collected, order[|order| - 1])
  {
  }

  lemma MergeBag(g: System, s: ShardId, order: seq<ShardId>)
    requires Inv(g) && Enabled(g, Merge(s, order))
    ensures Shape(Next(g, Merge(s, order))) && Bag(Next(g, Merge(s, order))) == Bag(g)
  {
    hide ShardAt, PairAt, MapsInv, ShardBag, BagSum, RelayRow, XferRow, Enumerates, ProposePartition;
    var g' := Next(g, Merge(s, order));
    MergeShardBag(g, s, order);
    assert PlaceBag(g', s) == PlaceBag(g, s);
    BagSame(g, g', s);
  }

  lemma MergeShardBag(g: System, s: ShardId, order: seq<ShardId>)
    requires Inv(g) && Enabled(g, Merge(s, order))
    ensures ShardBag(ProposePartition(g.shards[s], s, order), g.n) == ShardBag(g.shards[s], g.n)
  {
    hide BagSum, MergedTxs, MergedStates, HomeAt, XferOk, PairInv;
    var sh := g.shards[s];
    assert ShardAt(g, s);
    CollectedFrom(g, s);
    CollectedOk(g.maps, g.n, s, sh, order);
    MergedBag(sh.collected, order, g.n);
    assert ListedBags(sh.collected, order, g.n) == CollectedBags(sh.collected, g.n);
    hide CollectedBags, ListedBags;
    Join(multiset(sh.queue), BagSum(CollectedBags(sh.collected, g.n)));
  }

  lemma Join<T>(q: multiset<T>, m: multiset<T>)
    ensures (q + m) + multiset{} + multiset{} == q + multiset{} + m
  {
  }

  lemma CommitPartitionBag(g: System, s: ShardId)
    requires Inv(g) && Enabled(g, CommitPartition(s))
    ensures Shape(Next(g, CommitPartition(s))) && Bag(Next(g, CommitPartition(s))) == Bag(g)
  {
    hide BagSum, RelayRow, XferRow, CollectedBags;
    var g' := Next(g, CommitPartition(s));
    CollectedNone(g.n);
    assert PlaceBag(g', s) == PlaceBag(g, s);
    BagSame(g, g', s);
  }

  /** The steps that touch no transaction. */
  lemma QuietBag(g: System, act: Action)
    requires Inv(g) && Enabled(g, act)
    requires act.SendMap? || act.DeliverMap? || act.BecomeReady? || act.DeliverReady? || act.ReceiveInfo?
    ensures Shape(Next(g, act)) && Bag(Next(g, act)) == Bag(g)
  {
    var g' := Next(g, act);
    assert Shape(g') && g'.n == g.n && g'.relays == g.relays && g'.xfers == g.xfers && g'.injects == g.injects;
    forall s | 0 <= s < g.n
      ensures PlaceBag(g', s) == PlaceBag(g, s)
    {
      assert SameHoldings(g.shards[s], g'.shards[s]);
      HoldingsBag(g.shards[s], g'.shards[s], g.n);
      hide ShardBag;
    }
    hide PlaceBag;
    BagSame(g, g', 0);
  }

  ghost predicate SameHoldings(sh: Shard, sh': Shard) {
    && sh'.queue == sh.queue && sh'.collected == sh.collected
    && !sh.phase.Merged? == !sh'.phase.Merged?
    && !sh.phase.Proposed? == !sh'.phase.Proposed?
    && (sh.phase.Proposed? ==> sh'.phase == sh.phase)
  }

  lemma HoldingsBag(sh: Shard, sh': Shard, n: nat)
    requires SameHoldings(sh, sh')
    ensures ShardBag(sh', n) == ShardBag(sh, n)
  {
  }

  /** Only an injection adds a transaction, only a committed block takes some out. */
  lemma OtherBag(g: System, act: Action)
    requires Inv(g) && Enabled(g, act) && !act.Inject? && !act.CommitBlock?
    ensures Shape(Next(g, act)) && Bag(Next(g, act)) == Bag(g)
  {
    hide Inv, Enabled, Next, Bag;
    match act
    case DeliverInject(s, i) => DeliverInjectBag(g, s, i);
    case ProposeBlock(s, k) => ProposeBlockBag(g, s, k);
    case DeliverRelay(s, t, i) => DeliverRelayBag(g, s, t, i);
    case Extract(s) => ExtractBag(g, s);
    case DeliverXfer(s, t) => DeliverXferBag(g, s, t);
    case Merge(s, order) => MergeBag(g, s, order);
    case CommitPartition(s) => CommitPartitionBag(g, s);
    case _ => QuietBag(g, act);
  }
}
