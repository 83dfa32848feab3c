/** The money of the whole system over every run, bets and migrations included: authoritative
    balances, open stakes, value on its way and what settlements lose add up to what blocks have
    relayed without taking it from anybody. */
module MoneyRuns {
  import opened Core
  import opened Sums
  import opened Ledger
  import opened LedgerLaws
  import opened Protocol
  import opened ProtocolInv
  import opened ProtocolSteps
  import opened ProtocolSafety
  import opened Bags
  import opened BagSteps
  import opened Holders
  import opened Bank
  import opened Migration
  import opened ShardedLedger
  import opened BagRuns

  // ----- sums of gains -----

  /** Only the gains count, not which accounts are listed without one. */
  lemma {:induction false} SameSum(d: map<Address, int>, e: map<Address, int>)
    requires forall a :: Gain(d, a) == Gain(e, a)
    ensures MapSum(d) == MapSum(e)
    decreases |d|
  {
    hide MapSum, Gain;
    if d == map[] {
      NoGains(d);
      ZeroSum(e);
      ZeroSum(d);
    } else {
      var a :| a in d;
      Without(d, a);
      Without(e, a);
      assert Gain(d, a) == Gain(e, a);
      SameSum(d - {a}, e - {a});
    }
  }

  lemma NoGains(d: map<Address, int>)
    requires d == map[]
    ensures forall a :: Gain(d, a) == 0
  {
  }

  lemma {:induction false} ZeroSum(d: map<Address, int>)
    requires forall a :: Gain(d, a) == 0
    ensures MapSum(d) == 0
    decreases |d|
  {
    if d != map[] {
      hide MapSum, Gain;
      var a :| a in d;
      Without(d, a);
      ZeroSum(d - {a});
    }
  }

  lemma {:induction false} Without(d: map<Address, int>, a: Address)
    ensures MapSum(d - {a}) == MapSum(d) - Gain(d, a)
    ensures |d - {a}| == |d| - if a in d then 1 else 0
    ensures forall b :: Gain(d - {a}, b) == if b == a then 0 else Gain(d, b)
  {
    MapSumDelete(d, a);
    Fewer(d, a);
  }

  lemma Fewer(d: map<Address, int>, a: Address)
    ensures |d - {a}| == |d| - if a in d then 1 else 0
  {
    assert (d - {a}).Keys == d.Keys - {a};
    assert |(d - {a}).Keys| == |d.Keys| - if a in d then 1 else 0;
  }

  ghost function Plus(d: map<Address, int>, e: map<Address, int>): map<Address, int> {
    map a | a in d.Keys + e.Keys :: Gain(d, a) + Gain(e, a)
  }

  lemma {:induction false} PlusSum(d: map<Address, int>, e: map<Address, int>)
    ensures MapSum(Plus(d, e)) == MapSum(d) + MapSum(e)
    decreases |e|
  {
    if e == map[] {
      assert Plus(d, e) == d;
    } else {
      hide MapSum, Plus;
      var a :| a in e;
      Fewer(e, a);
      PlusSum(d, e - {a});
      MapSumDelete(e, a);
      PlusStep(d, e, a);
      MapSumUpdate(Plus(d, e - {a}), a, Gain(d, a) + e[a]);
    }
  }

  lemma PlusGain(d: map<Address, int>, e: map<Address, int>, a: Address)
    ensures Gain(Plus(d, e), a) == Gain(d, a) + Gain(e, a)
  {
  }

  lemma PlusStep(d: map<Address, int>, e: map<Address, int>, a: Address)
    requires a in e
    ensures Plus(d, e) == Plus(d, e - {a})[a := Gain(d, a) + e[a]]
    ensures Gain(Plus(d, e - {a}), a) == Gain(d, a)
  {
  }

  // ----- local and stale balances of one shard -----

  /** The gains of the accounts that live in the shard, or of those it only has an old state of. */
  ghost function Part(env: Env, accounts: Accounts, here: bool): map<Address, int>
    requires env.n > 0
  {
    map a | a in accounts && Local(env, a) == here :: accounts[a].balance - INIT_BALANCE
  }

  lemma Split(env: Env, accounts: Accounts)
    requires env.n > 0
    ensures Excess(accounts) == MapSum(Part(env, accounts, true)) + MapSum(Part(env, accounts, false))
  {
    PlusSum(Part(env, accounts, true), Part(env, accounts, false));
    assert Plus(Part(env, accounts, true), Part(env, accounts, false)) == Deviations(accounts);
  }

  lemma PartUpdate(env: Env, accounts: Accounts, a: Address, s: AccountState)
    requires env.n > 0
    ensures MapSum(Part(env, accounts[a := s], true))
            == MapSum(Part(env, accounts, true)) + if Local(env, a) then s.balance - BalanceOf(accounts, a) else 0
  {
    var part := Part(env, accounts, true);
    if Local(env, a) {
      assert Part(env, accounts[a := s], true) == part[a := s.balance - INIT_BALANCE];
      MapSumUpdate(part, a, s.balance - INIT_BALANCE);
    } else {
      assert Part(env, accounts[a := s], true) == part;
    }
  }

  /** A transaction that is where it belongs: where the account that decides it lives. */
  predicate Belongs(env: Env, tx: Tx)
    requires env.n > 0
  {
    !tx.hasBroker && Local(env, KeyOf(tx))
  }

  ghost predicate AllBelong(env: Env, txs: seq<Tx>)
    requires env.n > 0
  {
    forall i | 0 <= i < |txs| :: Belongs(env, txs[i])
  }

  lemma {:induction false} LoopStaysHere(env: Env, run: Run, txs: seq<Tx>, a: Address)
    requires env.n > 0 && AllBelong(env, txs) && !Local(env, a)
    ensures BalanceOf(ExecTxs(env, run, txs).accounts, a) == BalanceOf(run.accounts, a)
  {
    if txs != [] {
      LoopStaysHere(env, run, txs[..|txs| - 1], a);
    }
  }

  lemma {:induction false} LocalLoop(env: Env, run: Run, txs: seq<Tx>)
    requires env.n > 0 && AllBelong(env, txs)
    ensures var run' := ExecTxs(env, run, txs);
            MapSum(Part(env, run'.accounts, true)) + Stakes(run'.book)
            == MapSum(Part(env, run.accounts, true)) + Stakes(run.book) + Inflows(env, txs) - Outflows(env, run, txs)
  {
    var run' := ExecTxs(env, run, txs);
    LoopLaw(env, run, txs);
    Split(env, run.accounts);
    Split(env, run'.accounts);
    hide ExecTxs, Stakes, Excess, Inflows, Outflows, MapSum;
    forall a
      ensures Gain(Part(env, run'.accounts, false), a) == Gain(Part(env, run.accounts, false), a)
    {
      if !Local(env, a) {
        LoopStaysHere(env, run, txs, a);
      }
    }
    SameSum(Part(env, run'.accounts, false), Part(env, run.accounts, false));
  }

  // ----- settlement -----

  /** The stakes of those bets whose players live in the shard, or do not. */
  function StakesOf(env: Env, bets: seq<Bet>, here: bool): int
    requires env.n > 0
  {
    if bets == [] then 0
    else
      var b := bets[|bets| - 1];
      StakesOf(env, bets[..|bets| - 1], here) + if Local(env, b.player) == here then b.amount else 0
  }

  lemma {:induction false} StakesSplit(env: Env, bets: seq<Bet>)
    requires env.n > 0
    ensures SumBets(bets) == StakesOf(env, bets, true) + StakesOf(env, bets, false)
  {
    if bets != [] {
      StakesSplit(env, bets[..|bets| - 1]);
    }
  }

  lemma {:induction false} LocalPay(env: Env, accounts: Accounts, bets: seq<Bet>, q: int)
    requires env.n > 0
    ensures MapSum(Part(env, Pay(accounts, bets, q), true))
            == MapSum(Part(env, accounts, true)) + StakesOf(env, bets, true) * q
  {
    hide Part, MapSum;
    if bets != [] {
      var rest, b := bets[..|bets| - 1], bets[|bets| - 1];
      LocalPay(env, accounts, rest, q);
      PayOne(env, accounts, bets, q);
      hide Pay, Local;
      Distribute(StakesOf(env, rest, true), if Local(env, b.player) then b.amount else 0, q);
    }
  }

  lemma PayOne(env: Env, accounts: Accounts, bets: seq<Bet>, q: int)
    requires env.n > 0 && bets != []
    ensures var rest, b := bets[..|bets| - 1], bets[|bets| - 1];
            MapSum(Part(env, Pay(accounts, bets, q), true))
            == MapSum(Part(env, Pay(accounts, rest, q), true)) + (if Local(env, b.player) then b.amount else 0) * q
  {
    hide Part, MapSum;
    var b := bets[|bets| - 1];
    var before := Pay(accounts, bets[..|bets| - 1], q);
    var r := Read(before, b.player, 0);
    PartUpdate(env, before, b.player, r.(balance := r.balance + b.amount * q));
  }

  lemma Distribute(x: int, y: int, q: int)
    ensures (x + y) * q == x * q + y * q
  {
  }

  /** What settling the next height takes out of the book and pays to no account that lives here. */
  ghost function Lost(env: Env, run: Run): int
    requires env.n > 0
  {
    var h := env.height + 1;
    if run.cnt == 0 || h !in run.book then 0
    else if run.book[h].sums == map[] then EpochStakes(run.book[h])
    else
      var e := run.book[h];
      var star := Winner(h, e.sums.Keys);
      EpochStakes(e) - StakesOf(env, BetsOn(e, star), true) * Rate(e.sums[star], EpochStakes(e) - e.sums[star])
  }

  /** It is what the settlement burns and what it pays to winners whose accounts have moved away,
      which they never see. */
  lemma {:induction false} LostSplits(env: Env, run: Run)
    requires env.n > 0 && BookOk(run.book)
    ensures var h := env.height + 1;
            Lost(env, run) == BurnAfter(env, run)
              + if run.cnt == 0 || h !in run.book then 0
                else StakesOf(env, BetsOn(run.book[h], Winner(h, run.book[h].sums.Keys)), false)
                     * Rate(W(h, run.book), L(h, run.book))
  {
    var h := env.height + 1;
    if run.cnt != 0 && h in run.book {
      var e := run.book[h];
      var bets := BetsOn(e, Winner(h, e.sums.Keys));
      StakesSplit(env, bets);
      Distribute(StakesOf(env, bets, true), StakesOf(env, bets, false), Rate(W(h, run.book), L(h, run.book)));
      if W(h, run.book) > 0 {
        DivMod(L(h, run.book), W(h, run.book));
      }
    }
  }

  lemma LocalSettle(env: Env, run: Run)
    requires env.n > 0 && run.cnt != 0
    ensures var (accounts', book') := Settle(env.height + 1, run.accounts, run.book);
            MapSum(Part(env, accounts', true)) + Stakes(book') + Lost(env, run)
            == MapSum(Part(env, run.accounts, true)) + Stakes(run.book)
  {
    var h := env.height + 1;
    StakesDelete(run.book, h);
    if h in run.book && run.book[h].sums != map[] {
      var e := run.book[h];
      var star := Winner(h, e.sums.Keys);
      LocalPay(env, run.accounts, BetsOn(e, star), Rate(e.sums[star], EpochStakes(e) - e.sums[star]));
    } else {
      assert EpochStakes(Epoch(map[], map[])) == 0;
    }
  }

  lemma NothingLost(env: Env, run: Run)
    requires env.n > 0 && run.cnt == 0
    ensures Lost(env, run) == 0
  {
  }

  /** The equation of a block for the accounts that live in its shard. */
  lemma {:induction false} LocalEquation(env: Env, accounts: Accounts, book: Book, txs: seq<Tx>)
    requires env.n > 0 && AllBelong(env, txs)
    ensures var run0 := Run(accounts, book, 0);
            var (accounts', book') := Execute(env, accounts, book, txs);
            MapSum(Part(env, accounts', true)) + Stakes(book') + Lost(env, ExecTxs(env, run0, txs))
            == MapSum(Part(env, accounts, true)) + Stakes(book) + Inflows(env, txs) - Outflows(env, run0, txs)
  {
    hide ExecTxs, Settle, Inflows, Outflows, Part, MapSum, Stakes, Lost, AllBelong;
    var run0 := Run(accounts, book, 0);
    var run := ExecTxs(env, run0, txs);
    LocalLoop(env, run0, txs);
    if run.cnt != 0 {
      LocalSettle(env, run);
    } else {
      NoEffect(env, run0, txs);
      NothingLost(env, run);
    }
  }

  // ----- value on its way -----

  /** The value of the relayed transactions of a list. */
  function OnTheWay(txs: seq<Tx>): int {
    if txs == [] then 0
    else OnTheWay(txs[..|txs| - 1]) + if txs[|txs| - 1].relayed then txs[|txs| - 1].value else 0
  }

  lemma {:induction false} BagValueSeq(bag: multiset<Tx>, txs: seq<Tx>)
    ensures BagValue(bag + multiset(txs)) == BagValue(bag) + OnTheWay(txs)
  {
    hide BagValue;
    if txs == [] {
      assert bag + multiset(txs) == bag;
    } else {
      var rest, tx := txs[..|txs| - 1], txs[|txs| - 1];
      BagValueSeq(bag, rest);
      BagValueAdd(bag + multiset(rest), tx);
      assert txs == rest + [tx];
      assert bag + multiset(txs) == bag + multiset(rest) + multiset{tx};
    }
  }

  /** The transaction at index j of a body is relayed to another shard although its value is not
      taken from anybody: it is a bet, or its sender cannot pay when its turn comes. */
  predicate Unpaid(env: Env, run: Run, body: seq<Tx>, j: nat)
    requires env.n > 0 && j < |body|
  {
    && !body[j].relayed && !Local(env, body[j].recipient)
    && (body[j].bet || !Ledger.Funded(ExecTxs(env, run, body[..j]), body[j]))
  }

  function UnpaidValue(env: Env, run: Run, body: seq<Tx>): int
    requires env.n > 0
  {
    if body == [] then 0
    else
      var last := |body| - 1;
      UnpaidValue(env, run, body[..last]) + if Unpaid(env, run, body, last) then body[last].value else 0
  }

  /** What a body credits here was on its way; what it puts on its way is what it debits for others
      and what it does not debit at all. */
  lemma {:induction false} FlowsMatch(env: Env, run: Run, body: seq<Tx>)
    requires env.n > 0 && AllBelong(env, body)
    ensures OnTheWay(body) == Inflows(env, body)
    ensures OnTheWay(Crossing(body, env.pmap, env.n, env.shard)) == Outflows(env, run, body)
            + UnpaidValue(env, run, body)
  {
    if body != [] {
      var last := |body| - 1;
      FlowsMatch(env, run, body[..last]);
      hide ExecTxs, Crossing, Inflow, Outflow;
      assert Belongs(env, body[last]);
      OneFlow(env, ExecTxs(env, run, body[..last]), body[last]);
      hide Belongs, Ledger.Funded;
      CrossingStep(body, env.pmap, env.n, env.shard);
    }
  }

  lemma OneFlow(env: Env, run: Run, tx: Tx)
    requires env.n > 0 && Belongs(env, tx)
    ensures Inflow(env, tx) == if tx.relayed then tx.value else 0
    ensures Outflow(env, run, tx)
            + (if !tx.relayed && !Local(env, tx.recipient) && (tx.bet || !Ledger.Funded(run, tx)) then tx.value else 0)
            == if Local(env, tx.recipient) then 0 else tx.value
  {
  }

  lemma {:induction false} CrossingStep(body: seq<Tx>, pmap: Placement, n: nat, s: ShardId)
    requires n > 0 && body != []
    ensures var last := |body| - 1;
            OnTheWay(Crossing(body, pmap, n, s))
            == OnTheWay(Crossing(body[..last], pmap, n, s))
               + if Place(pmap, n, body[last].recipient) != s then body[last].value else 0
  {
    var last := |body| - 1;
    var before := Crossing(body[..last], pmap, n, s);
    var tx := body[last].(relayed := true);
    assert (before + [tx])[..|before|] == before;
  }

  // ----- the system -----

  /** All authoritative balances, counted from what every account starts with. */
  ghost function Wealth(g: System): int
    requires Inv(g)
  {
    MapSum(BankFor(g).delta)
  }

  ghost function OpenStakes(shards: seq<Shard>): int {
    if shards == [] then 0 else OpenStakes(shards[..|shards| - 1]) + Stakes(shards[|shards| - 1].book)
  }

  lemma {:induction false} OpenStakesUpdate(shards: seq<Shard>, s: nat, sh: Shard)
    requires s < |shards|
    ensures OpenStakes(shards[s := sh]) == OpenStakes(shards) + Stakes(sh.book) - Stakes(shards[s].book)
  {
    hide Stakes;
    var last := |shards| - 1;
    if s < last {
      OpenStakesUpdate(shards[..last], s, sh);
      assert shards[s := sh][..last] == shards[..last][s := sh];
    } else {
      assert shards[s := sh][..last] == shards[..last];
    }
  }

  lemma {:induction false} OpenStakesSame(shards: seq<Shard>, shards': seq<Shard>)
    requires |shards| == |shards'| && forall s | 0 <= s < |shards| :: shards'[s].book == shards[s].book
    ensures OpenStakes(shards') == OpenStakes(shards)
  {
    if shards != [] {
      OpenStakesSame(shards[..|shards| - 1], shards'[..|shards| - 1]);
    }
  }

  /** Balances, open stakes and value on its way. */
  ghost function Assets(g: System): int
    requires Inv(g)
  {
    assert Shape(g);
    Wealth(g) + OpenStakes(g.shards) + BagValue(Bag(g))
  }

  /** The balances depend on nothing but who holds what. */
  lemma WealthSame(g: System, g': System)
    requires Inv(g) && Inv(g') && forall a, v :: Holds(g, a, v) <==> Holds(g', a, v)
    ensures Wealth(g') == Wealth(g)
  {
    hide Inv, Holds, BankFor, MapSum;
    forall a
      ensures Gain(BankFor(g').delta, a) == Gain(BankFor(g).delta, a)
    {
      SomeBalance(g, a);
      var v :| Holds(g, a, v);
      BankForBal(g, a, v);
      BankForBal(g', a, v);
    }
    SameSum(BankFor(g').delta, BankFor(g).delta);
  }

  // ----- a committed block -----

  /** The shard after the block: the panic is not reached. */
  lemma Committed(g: System, s: ShardId)
    requires Inv(g) && Enabled(g, CommitBlock(s))
    ensures var g', sh := Next(g, CommitBlock(s)), g.shards[s];
            var (accounts, book) := Execute(EnvOf(sh, s, g.n, g.beta), sh.accounts, sh.book, sh.phase.body);
            && Inv(g') && g'.n == g.n && g'.maps == g.maps && g'.xfers == g.xfers
            && g'.shards == g.shards[s := sh.(accounts := accounts, book := book, height := sh.height + 1,
                                              seqID := sh.seqID + 1, phase := Idle)]
  {
    InvNext(g, CommitBlock(s));
    CommitBlockShard(g, s);
    hide Inv, Execute, BlockPanics, RelaysOut, AppendRow;
  }

  lemma OwnsLocal(g: System, s: ShardId, a: Address)
    requires Inv(g) && s < g.n && (g.shards[s].phase.Proposed? || g.shards[s].phase.Idle?)
    ensures HeldAt(g, s, a) <==> Place(g.shards[s].pmap, g.n, a) == s
  {
    hide PairInv;
    assert ShardAt(g, s);
  }

  /** The accounts that live in the shard have the balances the block gave them, and nobody else's
      balance changes. */
  lemma CommitHolds(g: System, s: ShardId, a: Address, v: int)
    requires Inv(g) && Enabled(g, CommitBlock(s))
    ensures var g' := Next(g, CommitBlock(s));
            && Inv(g') && |g'.shards| == g.n
            && if Place(g.shards[s].pmap, g.n, a) == s then
                 Holds(g, a, BalanceOf(g.shards[s].accounts, a)) && Holds(g', a, BalanceOf(g'.shards[s].accounts, a))
               else Holds(g, a, v) <==> Holds(g', a, v)
  {
    Committed(g, s);
    var g' := Next(g, CommitBlock(s));
    assert Shape(g) && Shape(g');
    OwnsLocal(g, s, a);
    OwnsLocal(g', s, a);
    hide Inv, Execute, Next, Enabled;
    if Place(g.shards[s].pmap, g.n, a) != s {
      forall u | 0 <= u < g.n
        ensures HeldAt(g', u, a) <==> HeldAt(g, u, a)
      {
      }
      HoldsSame(g, g', a, v);
    }
  }

  lemma CommitWealth(g: System, s: ShardId)
    requires Inv(g) && Enabled(g, CommitBlock(s))
    ensures var g' := Next(g, CommitBlock(s));
            var env := EnvOf(g.shards[s], s, g.n, g.beta);
            && Inv(g') && |g'.shards| == g.n
            && Wealth(g') + MapSum(Part(env, g.shards[s].accounts, true))
               == Wealth(g) + MapSum(Part(env, g'.shards[s].accounts, true))
  {
    Committed(g, s);
    var g' := Next(g, CommitBlock(s));
    var env := EnvOf(g.shards[s], s, g.n, g.beta);
    var d, d' := BankFor(g).delta, BankFor(g').delta;
    var l, l' := Part(env, g.shards[s].accounts, true), Part(env, g'.shards[s].accounts, true);
    hide Inv, Shape, Execute, Next, Enabled, BankFor, MapSum, Part, Gain;
    forall a
      ensures Gain(Plus(d', l), a) == Gain(Plus(d, l'), a)
    {
      GainsAfter(g, s, a);
      PlusGain(d', l, a);
      PlusGain(d, l', a);
    }
    hide Plus;
    SameSum(Plus(d', l), Plus(d, l'));
    PlusSum(d', l);
    PlusSum(d, l');
  }

  lemma GainsAfter(g: System, s: ShardId, a: Address)
    requires Inv(g) && Enabled(g, CommitBlock(s)) && Inv(Next(g, CommitBlock(s)))
             && s < |Next(g, CommitBlock(s)).shards|
    ensures var g' := Next(g, CommitBlock(s));
            var env := EnvOf(g.shards[s], s, g.n, g.beta);
            Gain(BankFor(g').delta, a) + Gain(Part(env, g.shards[s].accounts, true), a)
            == Gain(BankFor(g).delta, a) + Gain(Part(env, g'.shards[s].accounts, true), a)
  {
    var g' := Next(g, CommitBlock(s));
    SomeBalance(g, a);
    hide Inv, Next, Enabled, BankFor;
    var v :| Holds(g, a, v);
    hide Holds;
    CommitHolds(g, s, a, v);
    if Place(g.shards[s].pmap, g.n, a) == s {
      BankForBal(g, a, BalanceOf(g.shards[s].accounts, a));
      BankForBal(g', a, BalanceOf(g'.shards[s].accounts, a));
    } else {
      BankForBal(g, a, v);
      BankForBal(g', a, v);
    }
  }

  // ----- what the bag holds -----

  predicate HasNoBroker(tx: Tx) {
    !tx.hasBroker
  }

  predicate IsPositive(tx: Tx) {
    tx.value > 0
  }

  ghost predicate Brokerless(txs: multiset<Tx>) {
    AllKeep(txs, HasNoBroker)
  }

  ghost predicate Positive(txs: multiset<Tx>) {
    AllKeep(txs, IsPositive)
  }

  ghost predicate PositiveRun(acts: seq<Action>) {
    InjectsKeep(acts, IsPositive)
  }

  lemma RunBrokerless(states: seq<System>, acts: seq<Action>, n: nat, beta: nat, i: nat)
    requires n > 0 && IsRun(states, acts, n, beta) && i < |states|
    ensures Inv(states[i]) && Shape(states[i]) && Brokerless(Bag(states[i]))
  {
    forall k | 0 <= k < |acts|
      ensures InjectKeeps(acts[k], HasNoBroker)
    {
      assert Enabled(states[k], acts[k]);
    }
    RunKeeps(states, acts, n, beta, i, HasNoBroker);
    hide Inv, Bag;
  }

  lemma RunPositive(states: seq<System>, acts: seq<Action>, n: nat, beta: nat, i: nat)
    requires n > 0 && IsRun(states, acts, n, beta) && PositiveRun(acts) && i < |states|
    ensures Inv(states[i]) && Shape(states[i]) && Positive(Bag(states[i]))
  {
    RunKeeps(states, acts, n, beta, i, IsPositive);
    hide Inv, Bag;
  }

  // ----- one step -----

  function EnvAt(g: System, s: ShardId): Env
    requires s < |g.shards|
  {
    EnvOf(g.shards[s], s, g.n, g.beta)
  }

  function RunAt(g: System, s: ShardId): Run
    requires s < |g.shards|
  {
    Run(g.shards[s].accounts, g.shards[s].book, 0)
  }

  /** What the block that shard s is about to commit relays unpaid, and what its settlement loses. */
  function BlockUnpaid(g: System, s: ShardId): int
    requires Shape(g) && s < g.n && g.shards[s].phase.Proposed?
  {
    UnpaidValue(EnvAt(g, s), RunAt(g, s), g.shards[s].phase.body)
  }

  ghost function BlockLost(g: System, s: ShardId): int
    requires Shape(g) && s < g.n && g.shards[s].phase.Proposed?
  {
    Lost(EnvAt(g, s), ExecTxs(EnvAt(g, s), RunAt(g, s), g.shards[s].phase.body))
  }

  /** Every cross-shard transaction of that block is a transfer its sender can pay at its turn. */
  ghost predicate BlockFunded(g: System, s: ShardId)
    requires Shape(g) && s < g.n && g.shards[s].phase.Proposed?
  {
    forall j | 0 <= j < |g.shards[s].phase.body| :: !Unpaid(EnvAt(g, s), RunAt(g, s), g.shards[s].phase.body, j)
  }

  lemma BodyBelongs(g: System, s: ShardId)
    requires Inv(g) && Enabled(g, CommitBlock(s)) && Shape(g) && Brokerless(Bag(g))
    ensures AllBelong(EnvAt(g, s), g.shards[s].phase.body)
  {
    BodyKeeps(g, s, HasNoBroker);
    assert ShardAt(g, s);
    hide Inv, Bag, HomeAt;
    var sh := g.shards[s];
    forall i | 0 <= i < |sh.phase.body|
      ensures Belongs(EnvAt(g, s), sh.phase.body[i])
    {
      assert AtHome(g.maps, g.n, sh.round, s, sh.phase.body[i]);
    }
  }

  lemma CommitFlight(g: System, s: ShardId)
    requires Inv(g) && Enabled(g, CommitBlock(s)) && Shape(g) && AllBelong(EnvAt(g, s), g.shards[s].phase.body)
    ensures Shape(Next(g, CommitBlock(s)))
    ensures BagValue(Bag(Next(g, CommitBlock(s)))) + Inflows(EnvAt(g, s), g.shards[s].phase.body)
            == BagValue(Bag(g)) + Outflows(EnvAt(g, s), RunAt(g, s), g.shards[s].phase.body) + BlockUnpaid(g, s)
  {
    hide Inv, Next, Enabled, Shape, Bag, BagValue, Crossing, Inflows, Outflows, UnpaidValue, AllBelong;
    Proposing(g, s);
    CommitBlockBag(g, s);
    var body := g.shards[s].phase.body;
    FlowsMatch(EnvAt(g, s), RunAt(g, s), body);
    BagValueSeq(Bag(Next(g, CommitBlock(s))), body);
    BagValueSeq(Bag(g), Crossing(body, g.shards[s].pmap, g.n, s));
  }

  /** The accounts that live in the shard and the open stakes of all shards. */
  lemma CommitHere(g: System, s: ShardId)
    requires Inv(g) && Enabled(g, CommitBlock(s)) && Shape(g) && AllBelong(EnvAt(g, s), g.shards[s].phase.body)
    ensures var g', env, body := Next(g, CommitBlock(s)), EnvAt(g, s), g.shards[s].phase.body;
            && |g'.shards| == g.n
            && MapSum(Part(env, g'.shards[s].accounts, true)) + OpenStakes(g'.shards) + BlockLost(g, s)
               == MapSum(Part(env, g.shards[s].accounts, true)) + OpenStakes(g.shards)
                  + Inflows(env, body) - Outflows(env, RunAt(g, s), body)
  {
    Committed(g, s);
    hide Inv, Shape, Next, Enabled, Execute, Part, MapSum, Stakes, OpenStakes, Inflows, Outflows, Lost, ExecTxs,
        AllBelong;
    var sh := g.shards[s];
    LocalEquation(EnvAt(g, s), sh.accounts, sh.book, sh.phase.body);
    OpenStakesUpdate(g.shards, s, Next(g, CommitBlock(s)).shards[s]);
  }

  lemma CommitAssets(g: System, s: ShardId)
    requires Inv(g) && Enabled(g, CommitBlock(s)) && Shape(g) && Brokerless(Bag(g))
    ensures Inv(Next(g, CommitBlock(s)))
    ensures Assets(Next(g, CommitBlock(s))) + BlockLost(g, s) == Assets(g) + BlockUnpaid(g, s)
  {
    BodyBelongs(g, s);
    hide Inv, Next, Bag, BagValue, Wealth, Part, MapSum, OpenStakes, Inflows, Outflows, BlockUnpaid, BlockLost,
        AllBelong, Brokerless;
    CommitFlight(g, s);
    CommitWealth(g, s);
    CommitHere(g, s);
  }

  function StepUnpaid(g: System, act: Action): int
    requires Shape(g) && Enabled(g, act)
  {
    if act.CommitBlock? then BlockUnpaid(g, act.s) else 0
  }

  ghost function StepLost(g: System, act: Action): int
    requires Shape(g) && Enabled(g, act)
  {
    if act.CommitBlock? then BlockLost(g, act.s) else 0
  }

  ghost predicate StepFunded(g: System, act: Action)
    requires Shape(g) && Enabled(g, act)
  {
    act.CommitBlock? ==> BlockFunded(g, act.s)
  }

  lemma StepAssets(g: System, act: Action)
    requires Inv(g) && MergedInv(g) && Enabled(g, act) && Shape(g) && Brokerless(Bag(g))
    ensures Inv(Next(g, act))
    ensures Assets(Next(g, act)) + StepLost(g, act) == Assets(g) + StepUnpaid(g, act)
  {
    hide Inv, MergedInv, Next, Enabled, Bag, Brokerless, BlockLost, BlockUnpaid, Wealth, OpenStakes, BagValue;
    if act.CommitBlock? {
      CommitAssets(g, act.s);
    } else {
      InvNext(g, act);
      QuietWealth(g, act);
      BooksKept(g, act);
      QuietFlight(g, act);
      OpenStakesSame(g.shards, Next(g, act).shards);
    }
  }

  lemma QuietWealth(g: System, act: Action)
    requires Inv(g) && MergedInv(g) && Enabled(g, act) && !act.CommitBlock?
    ensures Inv(Next(g, act)) && Wealth(Next(g, act)) == Wealth(g)
  {
    InvNext(g, act);
    hide Inv, MergedInv, Next, Enabled, Holds, Wealth;
    forall a, v
      ensures Holds(g, a, v) <==> Holds(Next(g, act), a, v)
    {
      BalancesSurvive(g, act, a, v);
    }
    WealthSame(g, Next(g, act));
  }

  lemma QuietFlight(g: System, act: Action)
    requires Inv(g) && Enabled(g, act) && !act.CommitBlock?
    ensures Shape(g) && Shape(Next(g, act)) && BagValue(Bag(Next(g, act))) == BagValue(Bag(g))
  {
    assert Shape(g);
    hide Inv, Next, Enabled, Bag, BagValue;
    if act.Inject? {
      InjectBag(g, act.tx);
      BagValueAdd(Bag(g), act.tx);
    } else {
      OtherBag(g, act);
    }
  }

  // ----- whole runs -----

  /** What the committed blocks of the first i steps relayed unpaid, and what their settlements lost. */
  function RunUnpaid(states: seq<System>, acts: seq<Action>, i: nat): int
    requires i <= |acts| <= |states|
    requires forall k | 0 <= k < |acts| :: Shape(states[k]) && Enabled(states[k], acts[k])
  {
    if i == 0 then 0 else RunUnpaid(states, acts, i - 1) + StepUnpaid(states[i - 1], acts[i - 1])
  }

  ghost function RunLost(states: seq<System>, acts: seq<Action>, i: nat): int
    requires i <= |acts| <= |states|
    requires forall k | 0 <= k < |acts| :: Shape(states[k]) && Enabled(states[k], acts[k])
  {
    if i == 0 then 0 else RunLost(states, acts, i - 1) + StepLost(states[i - 1], acts[i - 1])
  }

  ghost predicate RunFunded(states: seq<System>, acts: seq<Action>, i: nat)
    requires i <= |acts| <= |states|
    requires forall k | 0 <= k < |acts| :: Shape(states[k]) && Enabled(states[k], acts[k])
  {
    forall k | 0 <= k < i :: StepFunded(states[k], acts[k])
  }

  lemma InitAssets(n: nat, beta: nat)
    requires n > 0
    ensures Inv(Init(n, beta)) && Assets(Init(n, beta)) == 0
  {
    var g := Init(n, beta);
    InvInit(n, beta);
    InitBag(n, beta);
    assert Known(g) == {};
    assert BankFor(g).delta == map[];
    NoStakes(g.shards);
  }

  lemma {:induction false} NoStakes(shards: seq<Shard>)
    requires forall s | 0 <= s < |shards| :: shards[s].book == map[]
    ensures OpenStakes(shards) == 0
  {
    if shards != [] {
      NoStakes(shards[..|shards| - 1]);
      assert StakesByTarget(map[]) == map[];
    }
  }

  /** In every state of every run, bets and migrations included: all authoritative balances, the
      open stakes, the value on its way and what settlements have lost add up to what blocks have
      relayed without taking it from anybody. */
  lemma {:induction false} MoneyEquation(states: seq<System>, acts: seq<Action>, n: nat, beta: nat, i: nat)
    requires n > 0 && IsRun(states, acts, n, beta) && i < |states|
    ensures Inv(states[i])
    ensures Assets(states[i]) + RunLost(states, acts, i) == RunUnpaid(states, acts, i)
  {
    hide Inv, Next, Enabled, Init, Assets, StepLost, StepUnpaid, MergedInv, Bag, Brokerless;
    if i == 0 {
      InitAssets(n, beta);
    } else {
      MoneyEquation(states, acts, n, beta, i - 1);
      RunMerged(states, acts, n, beta, i - 1);
      RunBrokerless(states, acts, n, beta, i - 1);
      StepAssets(states[i - 1], acts[i - 1]);
    }
  }

  // ----- when nothing is created -----

  /** With positive values the unpaid value of a body is never negative, and zero exactly when
      none of its transactions is relayed unpaid. */
  lemma {:induction false} UnpaidIff(env: Env, run: Run, body: seq<Tx>)
    requires env.n > 0 && forall i | 0 <= i < |body| :: body[i].value > 0
    ensures UnpaidValue(env, run, body) >= 0
    ensures UnpaidValue(env, run, body) == 0 <==> forall j | 0 <= j < |body| :: !Unpaid(env, run, body, j)
  {
    if body != [] {
      var last := |body| - 1;
      UnpaidIff(env, run, body[..last]);
      forall j | 0 <= j < last
        ensures Unpaid(env, run, body[..last], j) <==> Unpaid(env, run, body, j)
      {
        assert body[..last][..j] == body[..j];
      }
    }
  }

  lemma StepUnpaidIff(g: System, act: Action)
    requires Inv(g) && Enabled(g, act) && Shape(g) && Positive(Bag(g))
    ensures StepUnpaid(g, act) >= 0
    ensures StepUnpaid(g, act) == 0 <==> StepFunded(g, act)
  {
    if act.CommitBlock? {
      BodyKeeps(g, act.s, IsPositive);
      var body := g.shards[act.s].phase.body;
      hide Inv, Bag, Unpaid;
      UnpaidIff(EnvAt(g, act.s), RunAt(g, act.s), body);
    }
  }

  lemma {:induction false} RunUnpaidIff(states: seq<System>, acts: seq<Action>, n: nat, beta: nat, i: nat)
    requires n > 0 && IsRun(states, acts, n, beta) && PositiveRun(acts) && i < |states|
    ensures RunUnpaid(states, acts, i) >= 0
    ensures RunUnpaid(states, acts, i) == 0 <==> RunFunded(states, acts, i)
  {
    hide Inv, Bag, Positive, StepUnpaid, StepFunded, Next, Enabled, Init, Shape, PositiveRun;
    if i > 0 {
      RunUnpaidIff(states, acts, n, beta, i - 1);
      RunPositive(states, acts, n, beta, i - 1);
      StepUnpaidIff(states[i - 1], acts[i - 1]);
    }
  }

  /** With positive values, no money has been created up to a state of a run if and only if every
      cross-shard transaction committed before it was a transfer that its sender could pay, from
      the balance in its shard, at its turn.  Otherwise there is more of it. */
  lemma {:induction false} CreatedIff(states: seq<System>, acts: seq<Action>, n: nat, beta: nat, i: nat)
    requires n > 0 && IsRun(states, acts, n, beta) && PositiveRun(acts) && i < |states|
    ensures Inv(states[i]) && Assets(states[i]) + RunLost(states, acts, i) >= 0
    ensures Assets(states[i]) + RunLost(states, acts, i) == 0 <==> RunFunded(states, acts, i)
  {
    MoneyEquation(states, acts, n, beta, i);
    RunUnpaidIff(states, acts, n, beta, i);
    hide Inv, Assets, RunLost, RunUnpaid, RunFunded, Enabled, Next, Init;
  }
}
