/** Every step of the sharded system is a step of the single ledger, and what follows: balances
    survive migrations, money is conserved, every transaction is handled once. */
module Conservation {
  import opened Core
  import opened Sums
  import opened Ledger
  import opened Extraction
  import opened Protocol
  import opened ProtocolInv
  import opened ProtocolSteps
  import opened MigrationSteps
  import opened Bags
  import opened Holders
  import opened Bank
  import opened Refinement

  // ----- steps that leave the ledger alone -----

  ghost predicate SameMoney(sh: Shard, sh': Shard) {
    && sh'.accounts == sh.accounts && sh'.collected == sh.collected
    && sh'.round == sh.round && ExtractCount(sh') == ExtractCount(sh)
    && (sh'.phase.Merged? ==> sh'.phase == sh.phase)
  }

  /** A step in which one leader changes nothing but messages and queues. */
  lemma QueueStep(g: System, g': System, x: ShardId, bank: Bank)
    requires Shape(g) && Shape(g') && g'.n == g.n && g'.maps == g.maps && x < g.n && BalancesMatch(g, bank)
    requires g'.xfers == g.xfers
    requires forall y | 0 <= y < g.n && y != x :: g'.shards[y] == g.shards[y]
    requires SameMoney(g.shards[x], g'.shards[x])
    ensures BalancesMatch(g', bank)
  {
    hide HomeAt, StatesMatch;
    forall s | 0 <= s < g'.n
      ensures ShardMatchesAt(g', s, bank)
    {
      assert ShardMatchesAt(g, s, bank);
    }
  }

  lemma QueueSteps(g: System, act: Action, bank: Bank)
    requires Inv(g) && Enabled(g, act) && BalancesMatch(g, bank)
    requires act.DeliverMap? || act.Inject? || act.DeliverInject? || act.ProposeBlock? || act.BecomeReady?
             || act.ReceiveInfo?
    ensures Shape(Next(g, act)) && BalancesMatch(Next(g, act), bank)
  {
    hide BalancesMatch, HomeAt, AppendRow;
    var g' := Next(g, act);
    var x := if act.DeliverMap? || act.DeliverInject? || act.ProposeBlock? || act.BecomeReady? then act.s else 0;
    QueueStep(g, g', x, bank);
  }

  lemma DeliverySteps(g: System, act: Action, bank: Bank)
    requires Inv(g) && Enabled(g, act) && BalancesMatch(g, bank) && (act.DeliverReady? || act.DeliverRelay?)
    ensures Shape(Next(g, act)) && BalancesMatch(Next(g, act), bank)
  {
    hide BalancesMatch, HomeAt, Pop, Remove, Note;
    QueueStep(g, Next(g, act), act.to, bank);
  }

  lemma SendMapMatch(g: System, m: Placement, bank: Bank)
    requires Inv(g) && Enabled(g, SendMap(m)) && BalancesMatch(g, bank)
    ensures Shape(Next(g, SendMap(m))) && BalancesMatch(Next(g, SendMap(m)), bank)
  {
    assert Shape(g);
    hide StatesMatch, Inv;
    var g' := Next(g, SendMap(m));
    HomesStable(g.maps, m, g.n);
    hide HomeAt;
    forall s | 0 <= s < g'.n
      ensures ShardMatchesAt(g', s, bank)
    {
      assert ShardMatchesAt(g, s, bank);
    }
  }

  // ----- migration steps -----

  /** An extract carries the ledger's balances. */
  lemma XferToMatches(g: System, s: ShardId, t: ShardId, bank: Bank)
    requires Inv(g) && Enabled(g, Extract(s)) && ShardMatchesAt(g, s, bank) && t < g.n
    ensures StatesMatch(XferTo(g.shards[s], s, g.n, t).states, bank)
  {
    hide PairInv, HomeAt;
    assert ShardAt(g, s);
    var sh := g.shards[s];
    var states := XferTo(sh, s, g.n, t).states;
    forall a | a in states
      ensures states[a].balance == Bal(bank, a)
    {
      assert Place(sh.pmap, g.n, a) == HomeAt(g.maps, g.n, sh.round, a);
      assert Owns(g.maps, g.n, s, sh, a);
    }
  }

  lemma ExtractMatch(g: System, s: ShardId, bank: Bank)
    requires Inv(g) && Enabled(g, Extract(s)) && BalancesMatch(g, bank)
    ensures Shape(Next(g, Extract(s))) && BalancesMatch(Next(g, Extract(s)), bank)
  {
    hide PairInv, HomeAt, After, SentTo, StatesMatch;
    var g' := Next(g, Extract(s));
    assert ShardMatchesAt(g, s, bank);
    forall u, t | 0 <= u < g.n && 0 <= t < g.n && u != t
      ensures XferMatches(g'.xfers[u][t], bank)
    {
      assert XferMatches(g.xfers[u][t], bank);
      if u == s {
        XferToMatches(g, s, t, bank);
      }
    }
    CountBound(g, s);
    forall u | 0 <= u < g.n
      ensures ShardMatchesAt(g', u, bank)
    {
      assert ShardMatchesAt(g, u, bank);
      if u == s {
        assert forall a | Owns(g.maps, g.n, s, g'.shards[s], a) :: Owns(g.maps, g.n, s, g.shards[s], a);
      }
    }
  }

  lemma DeliverXferMatch(g: System, s: ShardId, t: ShardId, bank: Bank)
    requires Inv(g) && Enabled(g, DeliverXfer(s, t)) && BalancesMatch(g, bank)
    ensures Shape(Next(g, DeliverXfer(s, t))) && BalancesMatch(Next(g, DeliverXfer(s, t)), bank)
  {
    assert Shape(g);
    hide Inv, HomeAt, StatesMatch;
    var g' := Next(g, DeliverXfer(s, t));
    assert XferMatches(g.xfers[s][t], bank);
    forall u | 0 <= u < g.n
      ensures ShardMatchesAt(g', u, bank)
    {
      assert ShardMatchesAt(g, u, bank);
    }
    forall u, v | 0 <= u < g.n && 0 <= v < g.n && u != v
      ensures XferMatches(g'.xfers[u][v], bank)
    {
      assert XferMatches(g.xfers[u][v], bank);
    }
  }

  lemma {:induction false} MergedMatches(collected: map<ShardId, Xfer>, order: seq<ShardId>, bank: Bank)
    requires forall i | 0 <= i < |order| :: order[i] in collected
    requires forall p | p in collected :: StatesMatch(collected[p].states, bank)
    ensures StatesMatch(MergedStates(collected, order), bank)
  {
    if order != [] {
      var last := |order| - 1;
      MergedMatches(collected, order[..last], bank);
      assert StatesMatch(collected[order[last]].states, bank);
    }
  }

  lemma MergeMatch(g: System, s: ShardId, order: seq<ShardId>, bank: Bank)
    requires Inv(g) && Enabled(g, Merge(s, order)) && BalancesMatch(g, bank)
    ensures Shape(Next(g, Merge(s, order))) && BalancesMatch(Next(g, Merge(s, order)), bank)
  {
    hide PairInv, HomeAt, StatesMatch, MergedStates, MergedTxs, XferOk;
    var g' := Next(g, Merge(s, order));
    assert ShardMatchesAt(g, s, bank);
    assert ShardAt(g, s);
    CollectedFrom(g, s);
    CollectedOk(g.maps, g.n, s, g.shards[s], order);
    MergedMatches(g.shards[s].collected, order, bank);
    forall u | 0 <= u < g.n
      ensures ShardMatchesAt(g', u, bank)
    {
      assert ShardMatchesAt(g, u, bank);
    }
  }

  /** Installing a migration gives the new owner the ledger's balances, whatever stale state it
      still had. */
  lemma InstallMatches(g: System, s: ShardId, a: Address, bank: Bank)
    requires Inv(g) && Enabled(g, CommitPartition(s)) && ShardMatchesAt(g, s, bank)
    ensures var sh' := Next(g, CommitPartition(s)).shards[s];
            && ExtractCount(sh') <= |g.maps|
            && (Owns(g.maps, g.n, s, sh', a) ==> BalanceOf(sh'.accounts, a) == Bal(bank, a))
  {
    assert ShardAt(g, s);
    var sh := g.shards[s];
    var sh' := Next(g, CommitPartition(s)).shards[s];
    InstallShard(g, s);
    assert Place(sh'.pmap, g.n, a) == HomeAt(g.maps, g.n, sh'.round, a);
    if Owns(g.maps, g.n, s, sh', a) && a !in sh.phase.msg.states {
      assert !Arriving(g.maps, g.n, sh.round, s, a);
      assert Owns(g.maps, g.n, s, sh, a);
    }
  }

  lemma CommitPartitionMatch(g: System, s: ShardId, bank: Bank)
    requires Inv(g) && Enabled(g, CommitPartition(s)) && BalancesMatch(g, bank)
    ensures Shape(Next(g, CommitPartition(s))) && BalancesMatch(Next(g, CommitPartition(s)), bank)
  {
    assert Shape(g);
    hide Inv, HomeAt, StatesMatch, Install;
    var g' := Next(g, CommitPartition(s));
    assert ShardMatchesAt(g, s, bank);
    InstallMatches(g, s, 0, bank);
    forall a
      ensures Owns(g.maps, g.n, s, g'.shards[s], a) ==> BalanceOf(g'.shards[s].accounts, a) == Bal(bank, a)
    {
      InstallMatches(g, s, a, bank);
    }
    forall u | 0 <= u < g.n
      ensures ShardMatchesAt(g', u, bank)
    {
      assert ShardMatchesAt(g, u, bank);
    }
  }

  lemma QuietMatch(g: System, act: Action, bank: Bank)
    requires Inv(g) && Enabled(g, act) && BalancesMatch(g, bank) && !act.CommitBlock?
    ensures Shape(Next(g, act)) && BalancesMatch(Next(g, act), bank)
  {
    hide Inv, Enabled, Next, BalancesMatch;
    match act
    case SendMap(m) => SendMapMatch(g, m, bank);
    case Extract(s) => ExtractMatch(g, s, bank);
    case DeliverXfer(s, t) => DeliverXferMatch(g, s, t, bank);
    case Merge(s, order) => MergeMatch(g, s, order, bank);
    case CommitPartition(s) => CommitPartitionMatch(g, s, bank);
    case CommitBlock(_) =>
    case DeliverReady(_, _) => DeliverySteps(g, act, bank);
    case DeliverRelay(_, _, _) => DeliverySteps(g, act, bank);
    case _ => QueueSteps(g, act, bank);
  }

  // ----- blocks -----

  /** The balances recorded elsewhere are those of accounts the block does not touch. */
  lemma OthersKeep(g: System, s: ShardId, bank: Bank, bank': Bank)
    requires Inv(g) && s < g.n && g.shards[s].phase.Proposed? && BalancesMatch(g, bank)
    requires forall a | Place(g.shards[s].pmap, g.n, a) != s :: Bal(bank', a) == Bal(bank, a)
    ensures forall u | 0 <= u < g.n && u != s :: ShardMatchesAt(g, u, bank')
    ensures forall u, t | 0 <= u < g.n && 0 <= t < g.n && u != t :: XferMatches(g.xfers[u][t], bank')
    ensures forall p | p in g.shards[s].collected :: StatesMatch(g.shards[s].collected[p].states, bank')
  {
    hide Bal;
    forall u | 0 <= u < g.n && u != s
      ensures ShardMatchesAt(g, u, bank')
    {
      assert ShardMatchesAt(g, u, bank);
      forall a | Owns(g.maps, g.n, u, g.shards[u], a)
        ensures Bal(bank', a) == Bal(bank, a)
      {
        ElsewhereUntouched(g, s, u, a);
      }
      CollectedKeep(g, s, u, bank, bank');
      MergedKeep(g, s, u, bank, bank');
    }
    CollectedKeep(g, s, s, bank, bank');
    forall u, t | 0 <= u < g.n && 0 <= t < g.n && u != t
      ensures XferMatches(g.xfers[u][t], bank')
    {
      XferKeep(g, s, u, t, bank, bank');
    }
  }

  /** An account another shard owns is not placed at s by the map s has installed. */
  lemma ElsewhereUntouched(g: System, s: ShardId, u: ShardId, a: Address)
    requires Inv(g) && s < g.n && g.shards[s].phase.Proposed? && u < g.n && u != s
    requires ExtractCount(g.shards[u]) <= |g.maps| && Owns(g.maps, g.n, u, g.shards[u], a)
    ensures Place(g.shards[s].pmap, g.n, a) != s
  {
    hide PairInv;
    OneOwner(g, s, u, a);
    assert ShardAt(g, s);
  }

  lemma TransitUntouched(g: System, s: ShardId, u: ShardId, t: ShardId, a: Address)
    requires Inv(g) && s < g.n && g.shards[s].phase.Proposed? && u < g.n && t < g.n && u != t && InTransit(g, u, t, a)
    ensures Place(g.shards[s].pmap, g.n, a) != s
  {
    hide PairInv;
    TransitHasNoOwner(g, u, t, s, a);
    assert ShardAt(g, s);
  }

  lemma XferKeep(g: System, s: ShardId, u: ShardId, t: ShardId, bank: Bank, bank': Bank)
    requires Inv(g) && s < g.n && g.shards[s].phase.Proposed? && u < g.n && t < g.n && u != t
    requires XferMatches(g.xfers[u][t], bank)
    requires forall a | Place(g.shards[s].pmap, g.n, a) != s :: Bal(bank', a) == Bal(bank, a)
    ensures XferMatches(g.xfers[u][t], bank')
  {
    OneXfer(g, u, t);
    hide Inv, Bal;
    var xfer := g.xfers[u][t];
    forall i, a | 0 <= i < |xfer| && a in xfer[i].states
      ensures xfer[i].states[a].balance == Bal(bank', a)
    {
      assert StatesMatch(xfer[i].states, bank);
      assert InTransit(g, u, t, a);
      TransitUntouched(g, s, u, t, a);
    }
  }

  lemma OneXfer(g: System, u: ShardId, t: ShardId)
    requires Inv(g) && u < g.n && t < g.n && u != t
    ensures |g.xfers[u][t]| <= 1
  {
    hide HomeAt, XferOk, RelayOk;
    assert PairAt(g, u, t);
  }

  lemma CollectedKeep(g: System, s: ShardId, u: ShardId, bank: Bank, bank': Bank)
    requires Inv(g) && s < g.n && g.shards[s].phase.Proposed? && u < g.n && ShardMatchesAt(g, u, bank)
    requires forall a | Place(g.shards[s].pmap, g.n, a) != s :: Bal(bank', a) == Bal(bank, a)
    ensures forall p | p in g.shards[u].collected :: StatesMatch(g.shards[u].collected[p].states, bank')
  {
    CollectedFrom(g, u);
    hide Inv, Bal;
    forall p, a | p in g.shards[u].collected && a in g.shards[u].collected[p].states
      ensures g.shards[u].collected[p].states[a].balance == Bal(bank', a)
    {
      assert StatesMatch(g.shards[u].collected[p].states, bank);
      assert InTransit(g, p, u, a);
      TransitUntouched(g, s, p, u, a);
    }
  }

  /** The states a leader is about to install are those of accounts on their way to it. */
  lemma MergedKeep(g: System, s: ShardId, u: ShardId, bank: Bank, bank': Bank)
    requires Inv(g) && s < g.n && g.shards[s].phase.Proposed? && u < g.n && ShardMatchesAt(g, u, bank)
    requires forall a | Place(g.shards[s].pmap, g.n, a) != s :: Bal(bank', a) == Bal(bank, a)
    ensures g.shards[u].phase.Merged? ==> StatesMatch(g.shards[u].phase.msg.states, bank')
  {
    if g.shards[u].phase.Merged? {
      var states := g.shards[u].phase.msg.states;
      assert ShardAt(g, u);
      forall a | a in states
        ensures Bal(bank', a) == Bal(bank, a)
      {
        ArrivingInTransit(g, u, a);
        var p := HomeAt(g.maps, g.n, g.shards[u].round, a);
        TransitUntouched(g, s, p, u, a);
      }
    }
  }

  lemma {:induction false} ArrivingInTransit(g: System, u: ShardId, a: Address)
    requires Inv(g) && u < g.n && g.shards[u].phase.Merged? && a in g.shards[u].phase.msg.states
    ensures g.shards[u].round < |g.maps|
    ensures var p := HomeAt(g.maps, g.n, g.shards[u].round, a); p < g.n && p != u && InTransit(g, p, u, a)
  {
    assert ShardAt(g, u);
    var p := HomeAt(g.maps, g.n, g.shards[u].round, a);
    HomeInRange(g.maps, g.n, g.shards[u].round, a);
    CollectedFrom(g, u);
    assert p in g.shards[u].collected;
  }

  /** The body of a proposed block: plain, at home, and live. */
  lemma BodyFacts(g: System, s: ShardId, bank: Bank)
    requires Sim(g, bank) && Enabled(g, CommitBlock(s))
    ensures var sh := g.shards[s];
            && (forall i | 0 <= i < |sh.phase.body| ::
                  Plain(sh.phase.body[i]) && Place(sh.pmap, g.n, KeyOf(sh.phase.body[i])) == s)
            && multiset(sh.phase.body) <= bank.live
  {
    hide PairInv, HomeAt, BankInv, BalancesMatch;
    var sh := g.shards[s];
    assert ShardAt(g, s);
    BodyInBag(g, s);
    forall i | 0 <= i < |sh.phase.body|
      ensures Plain(sh.phase.body[i]) && Place(sh.pmap, g.n, KeyOf(sh.phase.body[i])) == s
    {
      assert sh.phase.body[i] in multiset(sh.phase.body);
      assert AtHome(g.maps, g.n, sh.round, s, sh.phase.body[i]);
    }
  }

  lemma BodyInBag(g: System, s: ShardId)
    requires Shape(g) && s < g.n && g.shards[s].phase.Proposed?
    ensures multiset(g.shards[s].phase.body) <= Bag(g)
  {
    hide BagSum, CollectedBags, RelayRow, XferRow;
    assert multiset(g.shards[s].phase.body) <= PlaceBag(g, s);
    hide PlaceBag;
    PartOfSum(PlaceBags(g), s);
  }

  lemma {:induction false} PartOfSum(bags: seq<multiset<Tx>>, i: nat)
    requires i < |bags|
    ensures bags[i] <= BagSum(bags)
  {
    if i < |bags| - 1 {
      PartOfSum(bags[..|bags| - 1], i);
    }
  }

  /** The committed block does to the shard's balances what the ledger does, and the ledger
      changes no balance recorded elsewhere. */
  lemma CommitBlockFacts(g: System, s: ShardId, bank: Bank)
    requires Sim(g, bank) && Enabled(g, CommitBlock(s))
    ensures var sh' := CommitBody(g.shards[s], s, g.n, g.beta);
            var bank' := BankStep(bank, g, CommitBlock(s));
            && sh' == g.shards[s].(accounts := sh'.accounts, height := sh'.height, seqID := sh'.seqID, phase := Idle)
            && LocalMatch(sh'.accounts, bank', g.shards[s].pmap, g.n, s)
            && (forall a | Place(g.shards[s].pmap, g.n, a) != s :: Bal(bank', a) == Bal(bank, a))
  {
    var sh := g.shards[s];
    BodyFacts(g, s, bank);
    OwnIsLocal(g, s, bank);
    CommitBlockShard(g, s);
    hide Sim, Inv, HomeAt, LocalMatch;
    ExecBlock(EnvOf(sh, s, g.n, g.beta), sh.accounts, sh.phase.body, bank);
    hide Execute, ApplyAll, Bal, BlockPanics;
  }

  lemma CommittedShardMatches(g: System, s: ShardId, sh': Shard, bank: Bank, bank': Bank)
    requires Inv(g) && s < g.n && g.shards[s].phase.Proposed? && BalancesMatch(g, bank)
    requires sh' == g.shards[s].(accounts := sh'.accounts, height := sh'.height, seqID := sh'.seqID, phase := Idle)
    requires LocalMatch(sh'.accounts, bank', g.shards[s].pmap, g.n, s)
    requires forall a | Place(g.shards[s].pmap, g.n, a) != s :: Bal(bank', a) == Bal(bank, a)
    ensures ExtractCount(sh') <= |g.maps| && ShardMatches(g.maps, g.n, s, sh', bank')
  {
    OthersKeep(g, s, bank, bank');
    LocalIsOwn(g, s, sh'.accounts, bank');
    hide Inv, BalancesMatch, HomeAt, StatesMatch, Bal, LocalMatch;
  }

  lemma CommitBlockMatch(g: System, s: ShardId, bank: Bank)
    requires Sim(g, bank) && Enabled(g, CommitBlock(s))
    ensures Shape(Next(g, CommitBlock(s)))
    ensures BalancesMatch(Next(g, CommitBlock(s)), BankStep(bank, g, CommitBlock(s)))
  {
    ShapeOf(g, bank);
    hide Inv, BankInv, CommitBody, ApplyAll, ShardMatches, XferMatches, Bal, LocalMatch, RelaysOut, AppendRow, Bag;
    var bank' := BankStep(bank, g, CommitBlock(s));
    CommitBlockFacts(g, s, bank);
    OthersKeep(g, s, bank, bank');
    var sh' := CommitBody(g.shards[s], s, g.n, g.beta);
    CommittedShardMatches(g, s, sh', bank, bank');
    var g' := Next(g, CommitBlock(s));
    assert g'.shards == g.shards[s := sh'] && g'.xfers == g.xfers && g'.maps == g.maps && g'.n == g.n;
    forall u | 0 <= u < g.n
      ensures ShardMatchesAt(g', u, bank')
    {
      if u != s {
        assert ShardMatchesAt(g, u, bank');
      }
    }
  }

  lemma ShapeOf(g: System, bank: Bank)
    requires Sim(g, bank)
    ensures Shape(g)
  {
  }

  /** Outside a migration, the accounts a shard owns are those its map places there. */
  lemma OwnIsLocal(g: System, s: ShardId, bank: Bank)
    requires Sim(g, bank) && s < g.n && g.shards[s].phase.Proposed?
    ensures LocalMatch(g.shards[s].accounts, bank, g.shards[s].pmap, g.n, s)
    ensures g.shards[s].book == map[]
  {
    hide PairInv, BankInv;
    assert ShardAt(g, s) && ShardMatchesAt(g, s, bank);
    var sh := g.shards[s];
    forall a | Place(sh.pmap, g.n, a) == s
      ensures BalanceOf(sh.accounts, a) == Bal(bank, a)
    {
      assert Owns(g.maps, g.n, s, sh, a);
    }
  }

  lemma LocalIsOwn(g: System, s: ShardId, accounts: Accounts, bank: Bank)
    requires Inv(g) && s < g.n && g.shards[s].phase.Proposed?
    requires LocalMatch(accounts, bank, g.shards[s].pmap, g.n, s)
    ensures ExtractCount(g.shards[s]) <= |g.maps|
    ensures forall a | HomeAt(g.maps, g.n, g.shards[s].round, a) == s :: BalanceOf(accounts, a) == Bal(bank, a)
  {
    hide PairInv;
    assert ShardAt(g, s);
    forall a | HomeAt(g.maps, g.n, g.shards[s].round, a) == s
      ensures BalanceOf(accounts, a) == Bal(bank, a)
    {
      assert Place(g.shards[s].pmap, g.n, a) == s;
    }
  }
}
