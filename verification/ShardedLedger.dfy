/** The main theorems about whole runs: the sharded system is one ledger. */
module ShardedLedger {
  import opened Core
  import opened Sums
  import opened Protocol
  import opened ProtocolInv
  import opened ProtocolSafety
  import opened Bags
  import opened BagSteps
  import opened Holders
  import opened Bank
  import opened Refinement
  import opened Conservation
  import opened Migration

  lemma InitBag(n: nat, beta: nat)
    requires n > 0
    ensures Shape(Init(n, beta)) && Bag(Init(n, beta)) == multiset{}
  {
    var g := Init(n, beta);
    hide BagSum;
    forall s | 0 <= s < n
      ensures PlaceBag(g, s) == multiset{}
    {
      CollectedNone(n);
      BagSumEmpty(RelayRow(g.relays[s]));
      BagSumEmpty(XferRow(g.xfers[s]));
    }
    hide PlaceBag;
    BagSumEmpty(PlaceBags(g));
  }

  lemma InitMatch(n: nat, beta: nat)
    requires n > 0
    ensures Shape(Init(n, beta)) && BalancesMatch(Init(n, beta), EmptyBank)
  {
    var g := Init(n, beta);
    hide HomeAt;
    forall s | 0 <= s < n
      ensures ShardMatchesAt(g, s, EmptyBank)
    {
    }
  }

  lemma EmptyBankOk()
    ensures BankInv(EmptyBank)
  {
    assert Minted([]) == 0 && MapSum<Address>(map[]) == 0 && BagValue(multiset{}) == 0;
  }

  lemma SimInit(n: nat, beta: nat)
    requires n > 0
    ensures Sim(Init(n, beta), EmptyBank)
  {
    InvInit(n, beta);
    EmptyBankOk();
    InitBag(n, beta);
    InitMatch(n, beta);
    hide Inv, BankInv, Bag, BalancesMatch, Empty;
  }

  lemma {:induction false} CrossingPlain(body: seq<Tx>, pmap: Placement, n: nat, s: ShardId)
    requires n > 0 && forall i | 0 <= i < |body| :: Plain(body[i])
    ensures forall tx | tx in Crossing(body, pmap, n, s) :: Plain(tx)
  {
    if body != [] {
      CrossingPlain(body[..|body| - 1], pmap, n, s);
    }
  }

  /** The block's effect on the ledger itself. */
  lemma CommitBlockBank(g: System, s: ShardId, bank: Bank)
    requires Sim(g, bank) && Enabled(g, CommitBlock(s))
    ensures var bank' := BankStep(bank, g, CommitBlock(s));
            && BankInv(bank') && Shape(Next(g, CommitBlock(s))) && Bag(Next(g, CommitBlock(s))) == bank'.live
            && forall tx | tx in bank'.live :: Plain(tx)
  {
    hide Inv, BalancesMatch, BankInv, CommitBody, Bag, RelaysOut, AppendRow, ApplyAll, Crossing;
    ShapeOf(g, bank);
    var sh := g.shards[s];
    var bank' := ApplyAll(bank, sh.pmap, g.n, s, sh.phase.body);
    BodyFacts(g, s, bank);
    CommitBlockBag(g, s);
    BodyApplies(bank, sh.pmap, g.n, s, sh.phase.body);
    CrossingPlain(sh.phase.body, sh.pmap, g.n, s);
    var body, out := multiset(sh.phase.body), multiset(Crossing(sh.phase.body, sh.pmap, g.n, s));
    Same(Bag(Next(g, CommitBlock(s))), bank'.live, bank.live, body, out);
    forall tx | tx in bank'.live
      ensures Plain(tx)
    {
      assert tx in bank.live + out;
    }
  }

  lemma SimCommitBlock(g: System, s: ShardId, bank: Bank)
    requires Sim(g, bank) && Enabled(g, CommitBlock(s))
    ensures Sim(Next(g, CommitBlock(s)), BankStep(bank, g, CommitBlock(s)))
  {
    hide Sim, Inv, Shape, Bag, Next, Enabled, BalancesMatch, BankInv, BankStep;
    SimParts(g, bank);
    InvNext(g, CommitBlock(s));
    CommitBlockBank(g, s, bank);
    CommitBlockMatch(g, s, bank);
    CommitBlockBooks(g, s, bank);
    MakeSim(Next(g, CommitBlock(s)), BankStep(bank, g, CommitBlock(s)));
  }

  lemma CommitBlockBooks(g: System, s: ShardId, bank: Bank)
    requires Sim(g, bank) && Enabled(g, CommitBlock(s))
    ensures Next(g, CommitBlock(s)).n == g.n && |Next(g, CommitBlock(s)).shards| == g.n
    ensures forall u | 0 <= u < g.n :: Next(g, CommitBlock(s)).shards[u].book == map[]
  {
    SimParts(g, bank);
    CommitBlockFacts(g, s, bank);
    hide Sim, Inv, BalancesMatch, BankInv, CommitBody, Bag, RelaysOut, AppendRow, BankStep, LocalMatch, Bal;
  }

  lemma Same<T>(x: multiset<T>, y: multiset<T>, live: multiset<T>, body: multiset<T>, out: multiset<T>)
    requires x + body == live + out && y + body == live + out
    ensures x == y && y <= live + out
  {
    forall t
      ensures x[t] == y[t] && y[t] <= (live + out)[t]
    {
      assert (x + body)[t] == (y + body)[t];
    }
  }

  lemma SimOther(g: System, act: Action, bank: Bank)
    requires Sim(g, bank) && Enabled(g, act) && PlainStep(bank, act) && !act.CommitBlock?
    ensures Sim(Next(g, act), BankStep(bank, g, act))
  {
    hide Sim, Inv, Shape, Bag, Next, Enabled, BalancesMatch, BankInv;
    SimParts(g, bank);
    InvNext(g, act);
    QuietMatch(g, act, bank);
    BooksKept(g, act);
    if act.Inject? {
      InjectBag(g, act.tx);
      SubmitKeepsInv(bank, act.tx);
      SubmitMatch(Next(g, act), bank, act.tx);
    } else {
      OtherBag(g, act);
    }
    MakeSim(Next(g, act), BankStep(bank, g, act));
  }

  lemma SimParts(g: System, bank: Bank)
    requires Sim(g, bank)
    ensures Inv(g) && Shape(g) && |g.shards| == g.n && BankInv(bank) && Bag(g) == bank.live && BalancesMatch(g, bank)
    ensures forall tx | tx in bank.live :: Plain(tx)
    ensures forall s | 0 <= s < g.n :: g.shards[s].book == map[]
  {
  }

  lemma MakeSim(g: System, bank: Bank)
    requires Inv(g) && BankInv(bank) && Shape(g) && Bag(g) == bank.live && BalancesMatch(g, bank)
    requires forall tx | tx in bank.live :: Plain(tx)
    requires forall s | 0 <= s < g.n :: g.shards[s].book == map[]
    ensures Sim(g, bank)
  {
  }

  lemma SubmitMatch(g: System, bank: Bank, tx: Tx)
    requires Shape(g) && BalancesMatch(g, bank)
    ensures BalancesMatch(g, Submit(bank, tx))
  {
    var bank' := Submit(bank, tx);
    assert forall a :: Bal(bank', a) == Bal(bank, a);
    hide Bal;
    forall s | 0 <= s < g.n
      ensures ShardMatchesAt(g, s, bank')
    {
      assert ShardMatchesAt(g, s, bank);
    }
    forall s, t | 0 <= s < g.n && 0 <= t < g.n && s != t
      ensures XferMatches(g.xfers[s][t], bank')
    {
      assert XferMatches(g.xfers[s][t], bank);
    }
  }

  lemma BooksKept(g: System, act: Action)
    requires Shape(g) && Enabled(g, act) && !act.CommitBlock?
    ensures Next(g, act).n == g.n && |Next(g, act).shards| == g.n
    ensures forall s | 0 <= s < g.n :: Next(g, act).shards[s].book == g.shards[s].book
  {
    if act.Extract? || act.DeliverXfer? || act.Merge? || act.CommitPartition? {
      MigrationKeepsBooks(g, act);
    } else {
      hide Pop, AppendRow;
    }
  }

  lemma MigrationKeepsBooks(g: System, act: Action)
    requires Shape(g) && Enabled(g, act) && (act.Extract? || act.DeliverXfer? || act.Merge? || act.CommitPartition?)
    ensures Next(g, act).n == g.n && |Next(g, act).shards| == g.n
    ensures forall s | 0 <= s < g.n :: Next(g, act).shards[s].book == g.shards[s].book
  {
    hide Pop, AppendRow, MergedStates, MergedTxs, Install, XfersOut, Moving, BarrierPasses, Enumerates;
  }

  /** Every step of the sharded system is the step of the single ledger that BankStep names. */
  lemma SimNext(g: System, act: Action, bank: Bank)
    requires Sim(g, bank) && Enabled(g, act) && PlainStep(bank, act)
    ensures Sim(Next(g, act), BankStep(bank, g, act))
  {
    hide Sim, Next, BankStep, Enabled;
    if act.CommitBlock? {
      SimCommitBlock(g, act.s, bank);
    } else {
      SimOther(g, act, bank);
    }
  }

  // ----- whole runs -----

  /** The ledger after the first i steps of a run. */
  ghost function BankAt(states: seq<System>, acts: seq<Action>, n: nat, beta: nat, i: nat): Bank
    requires IsRun(states, acts, n, beta) && i < |states|
  {
    if i == 0 then EmptyBank
    else BankStep(BankAt(states, acts, n, beta, i - 1), states[i - 1], acts[i - 1])
  }

  /** A run that injects only plain transfers with distinct hashes. */
  ghost predicate PlainRun(states: seq<System>, acts: seq<Action>, n: nat, beta: nat)
    requires IsRun(states, acts, n, beta)
  {
    forall i | 0 <= i < |acts| :: PlainStep(BankAt(states, acts, n, beta, i), acts[i])
  }

  lemma {:induction false} RunRefines(states: seq<System>, acts: seq<Action>, n: nat, beta: nat, i: nat)
    requires n > 0 && IsRun(states, acts, n, beta) && PlainRun(states, acts, n, beta) && i < |states|
    ensures Sim(states[i], BankAt(states, acts, n, beta, i))
  {
    hide Sim, Next, BankStep, Enabled, Init, Shape;
    if i == 0 {
      SimInit(n, beta);
    } else {
      RunRefines(states, acts, n, beta, i - 1);
      SimNext(states[i - 1], acts[i - 1], BankAt(states, acts, n, beta, i - 1));
    }
  }

  /** Over any plain run of blocks, relays and migrations: the authoritative balance of every
      account is the ledger's; the total of all gains plus the value relayed and not yet
      credited equals what unfunded cross-shard transfers minted; every transaction is debited
      at most once, credited at most once, and not credited before it is debited. */
  lemma {:induction false} MoneyConserved(states: seq<System>, acts: seq<Action>, n: nat, beta: nat, i: nat)
    requires n > 0 && IsRun(states, acts, n, beta) && PlainRun(states, acts, n, beta) && i < |states|
    ensures var g, bank := states[i], BankAt(states, acts, n, beta, i);
            && Inv(g)
            && (forall a, v :: Holds(g, a, v) <==> v == Bal(bank, a))
            && MapSum(bank.delta) + BagValue(Bag(g)) == Minted(bank.log)
            && LogOk(bank.log)
  {
    var g, bank := states[i], BankAt(states, acts, n, beta, i);
    RunRefines(states, acts, n, beta, i);
    hide BankAt;
    SimTotals(g, bank);
  }

  lemma SimTotals(g: System, bank: Bank)
    requires Sim(g, bank)
    ensures Inv(g) && LogOk(bank.log)
    ensures forall a, v :: Holds(g, a, v) <==> v == Bal(bank, a)
    ensures MapSum(bank.delta) + BagValue(Bag(g)) == Minted(bank.log)
  {
    hide Inv, BalancesMatch, Bag, MapSum, BagValue, Minted, LogOk, LiveOk, Holds, Bal;
    forall a, v
      ensures Holds(g, a, v) <==> v == Bal(bank, a)
    {
      SomeBalance(g, a);
      var w :| Holds(g, a, w);
      HeldIsBal(g, bank, a, w);
      if Holds(g, a, v) {
        HeldIsBal(g, bank, a, v);
      }
    }
  }
}
