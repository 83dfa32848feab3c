/** Migrations change no balance: whatever the run contains, bets included, every step but a
    committed block that touches an account leaves its authoritative balance as it was. */
module Migration {
  import opened Core
  import opened Ledger
  import opened Protocol
  import opened ProtocolInv
  import opened ProtocolSteps
  import opened MigrationSteps
  import opened ProtocolSafety
  import opened BagSteps
  import opened Holders
  import opened Bank
  import opened Refinement
  import opened Conservation

  /** The states a leader is about to install are the collected ones. */
  ghost predicate MergedFrom(sh: Shard) {
    sh.phase.Merged? ==>
      forall a | a in sh.phase.msg.states ::
        exists p :: p in sh.collected && a in sh.collected[p].states
            && sh.collected[p].states[a] == sh.phase.msg.states[a]
  }

  ghost predicate MergedInv(g: System) {
    forall s | 0 <= s < |g.shards| :: MergedFrom(g.shards[s])
  }

  lemma {:induction false} MergedStatesFrom(collected: map<ShardId, Xfer>, order: seq<ShardId>, a: Address)
    requires forall i | 0 <= i < |order| :: order[i] in collected
    requires a in MergedStates(collected, order)
    ensures exists p ::
              p in collected && a in collected[p].states && collected[p].states[a] == MergedStates(collected, order)[a]
  {
    var last := |order| - 1;
    if a !in collected[order[last]].states {
      MergedStatesFrom(collected, order[..last], a);
    }
  }

  lemma MergedInvNext(g: System, act: Action)
    requires Inv(g) && MergedInv(g) && Enabled(g, act)
    ensures MergedInv(Next(g, act))
  {
    if act.Merge? {
      var sh := g.shards[act.s];
      hide Inv, MergedStates, MergedTxs;
      forall a | a in MergedStates(sh.collected, act.order)
        ensures exists p :: p in sh.collected && a in sh.collected[p].states
                            && sh.collected[p].states[a] == MergedStates(sh.collected, act.order)[a]
      {
        MergedStatesFrom(sh.collected, act.order, a);
      }
    } else if act.DeliverXfer? {
      XferUncollected(g, act.from, act.to);
      hide Inv;
    } else {
      hide Inv;
      QuietMerged(g, act);
    }
  }

  lemma QuietMerged(g: System, act: Action)
    requires Shape(g) && MergedInv(g) && Enabled(g, act) && !act.Merge? && !act.DeliverXfer?
    ensures MergedInv(Next(g, act))
  {
    if act.CommitBlock? || act.Extract? || act.CommitPartition? || act.BecomeReady? || act.ProposeBlock? {
      LeaderPhases(g, act);
    } else {
      DeliveryPhases(g, act);
    }
    hide MergedFrom, Next, Enabled;
    var g' := Next(g, act);
    forall s | 0 <= s < |g'.shards|
      ensures MergedFrom(g'.shards[s])
    {
      assert MergedFrom(g.shards[s]);
      MergedFromKept(g.shards[s], g'.shards[s]);
    }
  }

  lemma LeaderPhases(g: System, act: Action)
    requires Shape(g) && Enabled(g, act)
    requires act.CommitBlock? || act.Extract? || act.CommitPartition? || act.BecomeReady? || act.ProposeBlock?
    ensures PhasesKept(g, Next(g, act))
  {
    if act.Extract? {
      ExtractPhases(g, act.s);
    } else {
      hide AppendRow, Install, Execute, RelaysOut, BlockPanics;
    }
  }

  lemma ExtractPhases(g: System, s: ShardId)
    requires Shape(g) && Enabled(g, Extract(s))
    ensures PhasesKept(g, Next(g, Extract(s)))
  {
    hide AppendRow, XfersOut, BarrierPasses, Moving, NoneLate;
  }

  /** A leader that is about to install a migration was so before, with the same extracts. */
  ghost predicate PhasesKept(g: System, g': System) {
    && |g'.shards| == |g.shards|
    && forall s | 0 <= s < |g.shards| ::
         g'.shards[s].phase.Merged? ==>
           g'.shards[s].phase == g.shards[s].phase && g'.shards[s].collected == g.shards[s].collected
  }

  lemma DeliveryPhases(g: System, act: Action)
    requires Shape(g) && Enabled(g, act)
    requires act.SendMap? || act.DeliverMap? || act.Inject? || act.DeliverInject? || act.DeliverReady?
             || act.DeliverRelay? || act.ReceiveInfo?
    ensures PhasesKept(g, Next(g, act))
  {
    hide Remove, Note, Pop;
  }

  lemma MergedFromKept(sh: Shard, sh': Shard)
    requires MergedFrom(sh) && (sh'.phase.Merged? ==> sh'.phase == sh.phase && sh'.collected == sh.collected)
    ensures MergedFrom(sh')
  {
  }

  // ----- a ledger that agrees with a given state -----

  /** All accounts some leader or extract has a state for. */
  ghost function Known(g: System): set<Address>
    requires Shape(g)
  {
    (set s, a | 0 <= s < g.n && a in g.shards[s].accounts :: a)
    + (set s, p, a | 0 <= s < g.n && p in g.shards[s].collected && a in g.shards[s].collected[p].states :: a)
    + (set s, t, a | 0 <= s < g.n && 0 <= t < g.n && g.xfers[s][t] != [] && a in g.xfers[s][t][0].states :: a)
  }

  ghost function BalanceIn(g: System, a: Address): (v: int)
    requires Inv(g)
    ensures Holds(g, a, v)
  {
    SomeBalance(g, a);
    var v :| Holds(g, a, v);
    v
  }

  ghost function BankFor(g: System): Bank
    requires Inv(g)
  {
    EmptyBank.(delta := map a | a in Known(g) :: BalanceIn(g, a) - INIT_BALANCE)
  }

  lemma BankForBal(g: System, a: Address, v: int)
    requires Inv(g) && Holds(g, a, v)
    ensures Bal(BankFor(g), a) == v
  {
    SameBalance(g, a, v, BalanceIn(g, a));
    if a !in Known(g) {
      hide Inv;
      UnknownBalance(g, a, v);
    }
  }

  lemma UnknownBalance(g: System, a: Address, v: int)
    requires Inv(g) && Holds(g, a, v) && a !in Known(g)
    ensures v == INIT_BALANCE
  {
    assert Shape(g);
    hide Inv, HeldAt;
    forall s, t | 0 <= s < g.n && 0 <= t < g.n
      ensures !HeldBetween(g, s, t, a, v)
    {
    }
    forall s | 0 <= s < g.n
      ensures a !in g.shards[s].accounts
    {
    }
  }

  lemma BankForMatches(g: System)
    requires Inv(g) && MergedInv(g)
    ensures BalancesMatch(g, BankFor(g))
  {
    assert Shape(g);
    var bank := BankFor(g);
    forall s | 0 <= s < g.n
      ensures ShardMatchesAt(g, s, bank)
    {
      BankForShard(g, s);
    }
    forall s, t | 0 <= s < g.n && 0 <= t < g.n && s != t
      ensures XferMatches(g.xfers[s][t], bank)
    {
      BankForXfer(g, s, t);
    }
  }

  lemma BankForXfer(g: System, s: ShardId, t: ShardId)
    requires Inv(g) && s < g.n && t < g.n && s != t
    ensures XferMatches(g.xfers[s][t], BankFor(g))
  {
    OneXfer(g, s, t);
    hide Inv, BankFor, Bal;
    var xfer := g.xfers[s][t];
    forall i, a | 0 <= i < |xfer| && a in xfer[i].states
      ensures xfer[i].states[a].balance == Bal(BankFor(g), a)
    {
      assert HeldBetween(g, s, t, a, xfer[i].states[a].balance);
      BankForBal(g, a, xfer[i].states[a].balance);
    }
  }

  lemma BankForCollected(g: System, s: ShardId, p: ShardId, a: Address)
    requires Inv(g) && s < g.n && p in g.shards[s].collected && a in g.shards[s].collected[p].states
    ensures g.shards[s].collected[p].states[a].balance == Bal(BankFor(g), a)
  {
    CollectedFrom(g, s);
    hide Inv, BankFor, Bal;
    assert HeldBetween(g, p, s, a, g.shards[s].collected[p].states[a].balance);
    BankForBal(g, a, g.shards[s].collected[p].states[a].balance);
  }

  lemma BankForShard(g: System, s: ShardId)
    requires Inv(g) && MergedInv(g) && s < g.n
    ensures ShardMatchesAt(g, s, BankFor(g))
  {
    Counts(g, s, s);
    hide Inv, BankFor, Bal;
    var bank, sh := BankFor(g), g.shards[s];
    forall a | Owns(g.maps, g.n, s, sh, a)
      ensures BalanceOf(sh.accounts, a) == Bal(bank, a)
    {
      assert HeldAt(g, s, a);
      BankForBal(g, a, BalanceOf(sh.accounts, a));
    }
    forall p, a | p in sh.collected && a in sh.collected[p].states
      ensures sh.collected[p].states[a].balance == Bal(bank, a)
    {
      BankForCollected(g, s, p, a);
    }
    assert MergedFrom(sh);
  }

  /** A matching ledger gives every authoritative balance. */
  lemma HeldIsBal(g: System, bank: Bank, a: Address, v: int)
    requires Inv(g) && BalancesMatch(g, bank) && Holds(g, a, v)
    ensures v == Bal(bank, a)
  {
    assert Shape(g);
    hide Inv, Owns, Bal;
    if s :| 0 <= s < g.n && HeldAt(g, s, a) && BalanceOf(g.shards[s].accounts, a) == v {
      assert ShardMatchesAt(g, s, bank);
    } else {
      var s, t :| 0 <= s < g.n && 0 <= t < g.n && s != t && HeldBetween(g, s, t, a, v);
      assert XferMatches(g.xfers[s][t], bank) && ShardMatchesAt(g, t, bank);
    }
  }

  /** Extraction, transfer and installation change no balance, even when an account returns to
      a shard that still has an old state of it; nor does any other step but a block. */
  lemma BalancesSurvive(g: System, act: Action, a: Address, v: int)
    requires Inv(g) && MergedInv(g) && Enabled(g, act) && !act.CommitBlock?
    ensures Inv(Next(g, act)) && (Holds(g, a, v) <==> Holds(Next(g, act), a, v))
  {
    var bank := BankFor(g);
    var g' := Next(g, act);
    InvNext(g, act);
    BankForMatches(g);
    QuietMatch(g, act, bank);
    SomeBalance(g, a);
    SomeBalance(g', a);
    hide Inv, BalancesMatch, Next, Enabled, Holds, BankFor, Bal;
    forall w | Holds(g, a, w)
      ensures w == Bal(bank, a)
    {
      HeldIsBal(g, bank, a, w);
    }
    forall w | Holds(g', a, w)
      ensures w == Bal(bank, a)
    {
      HeldIsBal(g', bank, a, w);
    }
  }

  // ----- blocks that do not touch an account -----

  ghost predicate NoBetsBy(book: Book, t: nat, a: Address) {
    t in book ==> forall p, i | p in book[t].byPair && 0 <= i < |book[t].byPair[p]| :: book[t].byPair[p][i].player != a
  }

  ghost predicate NotIn(txs: seq<Tx>, a: Address) {
    forall i | 0 <= i < |txs| :: txs[i].sender != a && txs[i].recipient != a
  }

  lemma {:induction false} LoopLeaves(env: Env, run: Run, txs: seq<Tx>, a: Address, t: nat)
    requires env.n > 0 && NotIn(txs, a) && NoBetsBy(run.book, t, a)
    ensures BalanceOf(ExecTxs(env, run, txs).accounts, a) == BalanceOf(run.accounts, a)
    ensures NoBetsBy(ExecTxs(env, run, txs).book, t, a)
  {
    if txs != [] {
      var last := |txs| - 1;
      LoopLeaves(env, run, txs[..last], a, t);
      hide ExecTxs;
      TxLeaves(env, ExecTxs(env, run, txs[..last]), last, txs[last], a, t);
    }
  }

  lemma TxLeaves(env: Env, run: Run, i: nat, tx: Tx, a: Address, t: nat)
    requires env.n > 0 && tx.sender != a && tx.recipient != a && NoBetsBy(run.book, t, a)
    ensures BalanceOf(ExecTx(env, run, i, tx).accounts, a) == BalanceOf(run.accounts, a)
    ensures NoBetsBy(ExecTx(env, run, i, tx).book, t, a)
  {
  }

  lemma {:induction false} PayLeaves(accounts: Accounts, bets: seq<Bet>, q: int, a: Address)
    requires forall i | 0 <= i < |bets| :: bets[i].player != a
    ensures BalanceOf(Pay(accounts, bets, q), a) == BalanceOf(accounts, a)
  {
    if bets != [] {
      PayLeaves(accounts, bets[..|bets| - 1], q, a);
    }
  }

  /** A block leaves an account alone that none of its transactions names and that has no bet on
      the block itself. */
  lemma BlockLeaves(env: Env, accounts: Accounts, book: Book, txs: seq<Tx>, a: Address)
    requires env.n > 0 && NotIn(txs, a) && NoBetsBy(book, env.height + 1, a)
    ensures BalanceOf(Execute(env, accounts, book, txs).0, a) == BalanceOf(accounts, a)
  {
    var run := ExecTxs(env, Run(accounts, book, 0), txs);
    var h := env.height + 1;
    LoopLeaves(env, Run(accounts, book, 0), txs, a, h);
    hide ExecTxs;
    if run.cnt != 0 && h in run.book && run.book[h].sums != map[] {
      var e := run.book[h];
      var star := Winner(h, e.sums.Keys);
      PayLeaves(run.accounts, BetsOn(e, star), Rate(e.sums[star], EpochStakes(e) - e.sums[star]), a);
    }
  }

  /** The block that shard s is about to commit touches the account. */
  ghost predicate Touches(g: System, s: ShardId, a: Address)
    requires Shape(g) && s < g.n && g.shards[s].phase.Proposed?
  {
    !NotIn(g.shards[s].phase.body, a) || !NoBetsBy(g.shards[s].book, g.shards[s].height + 1, a)
  }

  lemma CommitLeaves(g: System, s: ShardId, a: Address, v: int)
    requires Inv(g) && Enabled(g, CommitBlock(s)) && !Touches(g, s, a)
    ensures Inv(Next(g, CommitBlock(s))) && (Holds(g, a, v) <==> Holds(Next(g, CommitBlock(s)), a, v))
  {
    InvNext(g, CommitBlock(s));
    CommitBlockShard(g, s);
    var sh := g.shards[s];
    BlockLeaves(EnvOf(sh, s, g.n, g.beta), sh.accounts, sh.book, sh.phase.body, a);
    var g' := Next(g, CommitBlock(s));
    hide Inv, Execute, BlockPanics, RelaysOut, AppendRow;
    assert g'.shards[s] == sh.(accounts := g'.shards[s].accounts, book := g'.shards[s].book, height := sh.height + 1,
                               seqID := sh.seqID + 1, phase := Idle);
    forall u | 0 <= u < g.n
      ensures HeldAt(g', u, a) <==> HeldAt(g, u, a)
      ensures BalanceOf(g'.shards[u].accounts, a) == BalanceOf(g.shards[u].accounts, a)
      ensures g'.shards[u].collected == g.shards[u].collected
    {
    }
    HoldsSame(g, g', a, v);
  }

  lemma HoldsSame(g: System, g': System, a: Address, v: int)
    requires Inv(g) && Inv(g') && g'.n == g.n && Shape(g) && Shape(g') && g'.xfers == g.xfers
    requires forall u | 0 <= u < g.n ::
               && (HeldAt(g', u, a) <==> HeldAt(g, u, a))
               && (HeldAt(g, u, a) ==> BalanceOf(g'.shards[u].accounts, a) == BalanceOf(g.shards[u].accounts, a))
               && g'.shards[u].collected == g.shards[u].collected
    ensures Holds(g, a, v) <==> Holds(g', a, v)
  {
    hide Inv, HeldAt, BalanceOf;
    forall s, t | 0 <= s < g.n && 0 <= t < g.n
      ensures HeldBetween(g, s, t, a, v) <==> HeldBetween(g', s, t, a, v)
    {
    }
  }

  ghost predicate StepTouches(g: System, act: Action, a: Address)
    requires Shape(g) && Enabled(g, act)
  {
    act.CommitBlock? && Touches(g, act.s, a)
  }

  lemma StepLeaves(g: System, act: Action, a: Address, v: int)
    requires Inv(g) && MergedInv(g) && Enabled(g, act) && !StepTouches(g, act, a)
    ensures Inv(Next(g, act)) && (Holds(g, a, v) <==> Holds(Next(g, act), a, v))
  {
    hide Inv, MergedInv, Holds, Next, Enabled, Touches;
    if act.CommitBlock? {
      CommitLeaves(g, act.s, a, v);
    } else {
      BalancesSurvive(g, act, a, v);
    }
  }

  /** Over any stretch of a run whose committed blocks do not touch an account, so over a whole
      migration round while other shards go on with theirs, the account keeps its balance. */
  lemma {:induction false} RoundKeepsBalances(states: seq<System>, acts: seq<Action>, n: nat, beta: nat,
                                              from: nat, to: nat, a: Address, v: int)
    requires n > 0 && IsRun(states, acts, n, beta) && from <= to < |states|
    requires forall k | from <= k < to :: !StepTouches(states[k], acts[k], a)
    ensures Inv(states[from]) && Inv(states[to])
    ensures Holds(states[from], a, v) <==> Holds(states[to], a, v)
  {
    hide Inv, MergedInv, Holds, Next, Enabled, Init, Shape, StepTouches;
    RunInv(states, acts, n, beta, from);
    RunInv(states, acts, n, beta, to);
    if from < to {
      RoundKeepsBalances(states, acts, n, beta, from, to - 1, a, v);
      RunMerged(states, acts, n, beta, to - 1);
      StepLeaves(states[to - 1], acts[to - 1], a, v);
    }
  }

  lemma {:induction false} RunMerged(states: seq<System>, acts: seq<Action>, n: nat, beta: nat, i: nat)
    requires n > 0 && IsRun(states, acts, n, beta) && i < |states|
    ensures Inv(states[i]) && MergedInv(states[i])
  {
    RunInv(states, acts, n, beta, i);
    hide Inv, Next, Enabled, Shape;
    if i == 0 {
      assert MergedInv(Init(n, beta));
    } else {
      RunMerged(states, acts, n, beta, i - 1);
      MergedInvNext(states[i - 1], acts[i - 1]);
    }
  }
}
