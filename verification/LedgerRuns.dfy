/** What stays true over any run of blocks: balances stay non-negative, and a target height
    is settled at most once, by the block of that number. */
module LedgerRuns {
  import opened Core
  import opened Sums
  import opened Ledger
  import opened LedgerLaws

  // ----- no balance goes negative -----

  ghost predicate NonNegative(accounts: Accounts) {
    forall a | a in accounts :: accounts[a].balance >= 0
  }

  ghost predicate BetsNonNegative(bets: seq<Bet>) {
    forall i | 0 <= i < |bets| :: bets[i].amount >= 0
  }

  ghost predicate BookNonNegative(book: Book) {
    forall t, p | t in book && p in book[t].byPair :: BetsNonNegative(book[t].byPair[p])
  }

  lemma AppendBetNonNegative(book: Book, t: nat, p: Pair, player: Address, amount: int)
    requires BookNonNegative(book) && amount >= 0
    ensures BookNonNegative(AppendBet(book, t, p, player, amount))
  {
    var book' := AppendBet(book, t, p, player, amount);
    var e := EpochAt(book, t);
    assert BetsNonNegative(BetsOn(e, p) + [Bet(player, p, amount)]);
    forall u, r | u in book' && r in book'[u].byPair
      ensures BetsNonNegative(book'[u].byPair[r])
    {
      if u != t {
        assert u in book && r in book[u].byPair;
      } else if r != p {
        assert t in book && r in book[t].byPair;
      }
    }
  }

  lemma {:induction false} SumBetsNonNegative(bets: seq<Bet>)
    requires BetsNonNegative(bets)
    ensures SumBets(bets) >= 0
  {
    if bets != [] {
      SumBetsNonNegative(bets[..|bets| - 1]);
    }
  }

  lemma {:induction false} MapSumNonNegative<K>(m: map<K, int>)
    requires forall k | k in m :: m[k] >= 0
    ensures MapSum(m) >= 0
  {
    if m != map[] {
      var k :| k in m && MapSum(m) == m[k] + MapSum(m - {k});
      MapSumNonNegative(m - {k});
    }
  }

  /** The losers' stakes are never negative, so neither is the rate. */
  lemma LosersNonNegative(h: nat, book: Book)
    requires BookOk(book) && BookNonNegative(book) && h in book
    ensures L(h, book) >= 0
  {
    var e := book[h];
    var star := Winner(h, e.sums.Keys);
    MapSumRemove(e.sums, star);
    forall p | p in e.sums
      ensures e.sums[p] >= 0
    {
      SumBetsNonNegative(e.byPair[p]);
    }
    MapSumNonNegative(e.sums - {star});
  }

  predicate NotNegative(tx: Tx) {
    tx.value >= 0
  }

  /** What the body of a block does to an account, whatever the others hold. */
  lemma {:induction false} LoopSolvent(env: Env, run: Run, txs: seq<Tx>, a: Address)
    requires env.n > 0 && BalanceOf(run.accounts, a) >= 0 && forall i | 0 <= i < |txs| :: NotNegative(txs[i])
    ensures BalanceOf(ExecTxs(env, run, txs).accounts, a) >= 0
  {
    if txs != [] {
      LoopSolvent(env, run, txs[..|txs| - 1], a);
      assert NotNegative(txs[|txs| - 1]);
    }
  }

  lemma {:induction false} LoopBook(env: Env, run: Run, txs: seq<Tx>)
    requires env.n > 0 && BookNonNegative(run.book) && forall i | 0 <= i < |txs| :: NotNegative(txs[i])
    ensures BookNonNegative(ExecTxs(env, run, txs).book)
  {
    hide AppendBet, BookNonNegative;
    if txs != [] {
      var last := |txs| - 1;
      var tx := txs[last];
      LoopBook(env, run, txs[..last]);
      AppendBetNonNegative(ExecTxs(env, run, txs[..last]).book, tx.height, Pair(tx.pairI, tx.pairJ), tx.sender,
                           tx.value);
    }
  }

  lemma {:induction false} PaySolvent(accounts: Accounts, bets: seq<Bet>, q: int, a: Address)
    requires BalanceOf(accounts, a) >= 0 && BetsNonNegative(bets) && q >= 0
    ensures BalanceOf(Pay(accounts, bets, q), a) >= 0
  {
    if bets != [] {
      var last := |bets| - 1;
      PaySolvent(accounts, bets[..last], q, a);
      assert bets[last].amount * q >= 0;
    }
  }

  ghost predicate BookSound(book: Book) {
    BookOk(book) && BookNonNegative(book)
  }

  lemma SettleSolvent(h: nat, accounts: Accounts, book: Book, a: Address)
    requires BookSound(book)
    ensures BookSound(Settle(h, accounts, book).1)
    ensures BalanceOf(accounts, a) >= 0 ==> BalanceOf(Settle(h, accounts, book).0, a) >= 0
  {
    if h in book && BalanceOf(accounts, a) >= 0 {
      LosersNonNegative(h, book);
      var e := book[h];
      var bets := BetsOn(e, Winner(h, e.sums.Keys));
      assert BetsNonNegative(bets);
      if W(h, book) > 0 {
        assert Rate(W(h, book), L(h, book)) >= 0;
        PaySolvent(accounts, bets, Rate(W(h, book), L(h, book)), a);
      }
    }
  }

  lemma BlockSolvent(env: Env, accounts: Accounts, book: Book, txs: seq<Tx>, a: Address)
    requires env.n > 0 && BookSound(book) && forall i | 0 <= i < |txs| :: NotNegative(txs[i])
    ensures BookSound(Execute(env, accounts, book, txs).1)
    ensures BalanceOf(accounts, a) >= 0 ==> BalanceOf(Execute(env, accounts, book, txs).0, a) >= 0
  {
    hide ExecTxs, Settle, BookSound, BalanceOf, NotNegative;
    var run0 := Run(accounts, book, 0);
    var run := ExecTxs(env, run0, txs);
    LoopSound(env, run0, txs);
    SettleSolvent(env.height + 1, run.accounts, run.book, a);
    if BalanceOf(accounts, a) >= 0 {
      LoopSolvent(env, run0, txs, a);
    }
  }

  lemma {:induction false} LoopSound(env: Env, run: Run, txs: seq<Tx>)
    requires env.n > 0 && BookSound(run.book) && forall i | 0 <= i < |txs| :: NotNegative(txs[i])
    ensures BookSound(ExecTxs(env, run, txs).book)
  {
    LoopBook(env, run, txs);
    BookStaysOk(env, run, txs);
  }

  /** With non-negative transfer values no balance becomes negative, settlement included. */
  lemma BlockNonNegative(env: Env, accounts: Accounts, book: Book, txs: seq<Tx>)
    requires env.n > 0 && BookOk(book) && BookNonNegative(book) && NonNegative(accounts)
    requires forall i | 0 <= i < |txs| :: txs[i].value >= 0
    ensures NonNegative(Execute(env, accounts, book, txs).0)
    ensures BookNonNegative(Execute(env, accounts, book, txs).1)
  {
    var accounts' := Execute(env, accounts, book, txs).0;
    BlockSolvent(env, accounts, book, txs, 0);
    hide Execute, BookOk, BookNonNegative;
    forall a | a in accounts'
      ensures accounts'[a].balance >= 0
    {
      BlockSolvent(env, accounts, book, txs, a);
    }
  }

  // ----- runs of blocks -----

  /** A node between two blocks; `height` is the number of its current block. */
  datatype Node = Node(accounts: Accounts, book: Book, height: nat)

  /** A transaction block, executed under the partition map then in force, or the block
      that installs migrated account states. */
  datatype Op = Block(pmap: Placement, txs: seq<Tx>) | Adopt(states: Accounts)

  datatype Config = Config(shard: ShardId, n: nat, beta: nat)

  function EnvOf(c: Config, node: Node, pmap: Placement): Env {
    Env(c.shard, c.n, pmap, node.height, c.beta)
  }

  /** Execute an operation and append its block. */
  ghost function Step(c: Config, node: Node, op: Op): Node
    requires c.n > 0
  {
    match op
    case Block(pmap, txs) =>
      var (accounts, book) := Execute(EnvOf(c, node, pmap), node.accounts, node.book, txs);
      Node(accounts, book, node.height + 1)
    case Adopt(states) =>
      Node(node.accounts + states, node.book, node.height + 1)
  }

  ghost function Steps(c: Config, node: Node, ops: seq<Op>): Node
    requires c.n > 0
  {
    if ops == [] then node else Step(c, Steps(c, node, ops[..|ops| - 1]), ops[|ops| - 1])
  }

  /** The targets an operation pays out: its own block number, or nothing. */
  ghost function Settled(c: Config, node: Node, op: Op): seq<nat>
    requires c.n > 0
  {
    if op.Block?
       && var run := ExecTxs(EnvOf(c, node, op.pmap), Run(node.accounts, node.book, 0), op.txs);
          run.cnt > 0 && node.height + 1 in run.book
    then [node.height + 1] else []
  }

  ghost function SettledIn(c: Config, node: Node, ops: seq<Op>): seq<nat>
    requires c.n > 0
  {
    if ops == [] then []
    else
      var rest := ops[..|ops| - 1];
      SettledIn(c, node, rest) + Settled(c, Steps(c, node, rest), ops[|ops| - 1])
  }

  /** The bets on target t are the same in both books. */
  ghost predicate SameEpoch(book: Book, book': Book, t: nat) {
    (t in book <==> t in book') && (t in book ==> book[t] == book'[t])
  }

  lemma {:induction false} LoopKeepsEpoch(env: Env, run: Run, txs: seq<Tx>, t: nat)
    requires env.n > 0 && t < env.height + env.beta
    ensures SameEpoch(run.book, ExecTxs(env, run, txs).book, t)
  {
    if txs != [] {
      LoopKeepsEpoch(env, run, txs[..|txs| - 1], t);
    }
  }

  lemma StepKeepsEpoch(c: Config, node: Node, op: Op, t: nat)
    requires c.n > 0 && c.beta >= 1 && t <= node.height
    ensures SameEpoch(node.book, Step(c, node, op).book, t)
  {
    if op.Block? {
      LoopKeepsEpoch(EnvOf(c, node, op.pmap), Run(node.accounts, node.book, 0), op.txs, t);
    }
  }

  /** Once block t has been appended, the bets on t never change again. */
  lemma {:induction false} EpochFrozen(c: Config, node: Node, ops: seq<Op>, t: nat)
    requires c.n > 0 && c.beta >= 1 && t <= node.height
    ensures Steps(c, node, ops).height == node.height + |ops|
    ensures SameEpoch(node.book, Steps(c, node, ops).book, t)
  {
    if ops != [] {
      var last := |ops| - 1;
      EpochFrozen(c, node, ops[..last], t);
      StepKeepsEpoch(c, Steps(c, node, ops[..last]), ops[last], t);
    }
  }

  /** A log of settled targets: increasing, all above `from`, and none of them in the book any more. */
  ghost predicate SettledLog(log: seq<nat>, from: nat, node: Node) {
    && (forall i, j | 0 <= i < j < |log| :: log[i] < log[j])
    && (forall i | 0 <= i < |log| :: from < log[i] <= node.height && log[i] !in node.book)
  }

  /** Over any run, a target is settled at most once, by the block of that number, and its
      bets are gone from the book from then on: no bet is paid twice. */
  lemma {:induction false} SettledOnce(c: Config, node: Node, ops: seq<Op>)
    requires c.n > 0 && c.beta >= 1
    ensures Steps(c, node, ops).height == node.height + |ops|
    ensures SettledLog(SettledIn(c, node, ops), node.height, Steps(c, node, ops))
  {
    if ops != [] {
      var last := |ops| - 1;
      var rest := ops[..last];
      var mid := Steps(c, node, rest);
      var log0 := SettledIn(c, node, rest);
      SettledOnce(c, node, rest);
      forall i | 0 <= i < |log0|
        ensures log0[i] !in Step(c, mid, ops[last]).book
      {
        StepKeepsEpoch(c, mid, ops[last], log0[i]);
      }
    }
  }

  // ----- targets that are never settled -----

  /** A transaction that changes nothing on the accounts as they are: it is neither debited nor
      credited here, its sender cannot pay, or it is a bet that comes too late. */
  predicate Idle(env: Env, accounts: Accounts, tx: Tx)
    requires env.n > 0
  {
    if DebitsHere(env, tx) then BalanceOf(accounts, tx.sender) < tx.value || (tx.bet && WindowClosed(env, tx))
    else !Local(env, tx.recipient) && !tx.hasBroker
  }

  ghost predicate AllIdle(env: Env, accounts: Accounts, txs: seq<Tx>)
    requires env.n > 0
  {
    forall i | 0 <= i < |txs| :: Idle(env, accounts, txs[i])
  }

  /** A body counts no modified account if and only if each of its transactions, on the accounts
      before the block, changes nothing. */
  lemma {:induction false} NoEffectIff(env: Env, run: Run, txs: seq<Tx>)
    requires env.n > 0
    ensures ExecTxs(env, run, txs).cnt == run.cnt <==> AllIdle(env, run.accounts, txs)
  {
    if txs != [] {
      var last := |txs| - 1;
      NoEffectIff(env, run, txs[..last]);
      NoEffect(env, run, txs[..last]);
      var before := ExecTxs(env, run, txs[..last]);
      assert Idle(env, before.accounts, txs[last]) <==> ExecTx(env, before, last, txs[last]).cnt == before.cnt;
      hide ExecTxs;
      if before.cnt == run.cnt {
        assert BalanceOf(before.accounts, txs[last].sender) == BalanceOf(run.accounts, txs[last].sender);
      }
    }
  }

  /** An operation that changes nothing but the height, or installs migrated states. */
  ghost predicate Passes(c: Config, node: Node, op: Op)
    requires c.n > 0
  {
    op.Adopt? || AllIdle(EnvOf(c, node, op.pmap), node.accounts, op.txs)
  }

  lemma StepSettlesIff(c: Config, node: Node, op: Op)
    requires c.n > 0
    ensures node.height + 1 in Step(c, node, op).book <==> node.height + 1 in node.book && Passes(c, node, op)
    ensures Passes(c, node, op) ==> Step(c, node, op).book == node.book
  {
    if op.Block? {
      var env, run0 := EnvOf(c, node, op.pmap), Run(node.accounts, node.book, 0);
      NoEffectIff(env, run0, op.txs);
      NoEffect(env, run0, op.txs);
      hide ExecTxs, AllIdle;
    }
  }

  lemma {:induction false} StepsSplit(c: Config, node: Node, ops: seq<Op>, k: nat)
    requires c.n > 0 && k <= |ops|
    ensures Steps(c, node, ops) == Steps(c, Steps(c, node, ops[..k]), ops[k..])
  {
    if k == |ops| {
      assert ops[..k] == ops;
    } else {
      var last := |ops| - 1;
      StepsSplit(c, node, ops[..last], k);
      assert ops[..last][..k] == ops[..k];
      assert ops[..last][k..] == ops[k..][..last - k];
      assert ops[k..][last - k] == ops[last];
    }
  }

  /** After any run past the block of number t, the bets on t are still in the book, never to be
      paid, if and only if there were some when the block was built and the block passed them
      over: it installed a migration, or no transaction of it took effect. */
  lemma {:induction false} NeverSettledIff(c: Config, node: Node, ops: seq<Op>, t: nat)
    requires c.n > 0 && c.beta >= 1 && node.height < t <= node.height + |ops|
    ensures var k := t - node.height - 1;
            var before := Steps(c, node, ops[..k]);
            && (t in Steps(c, node, ops).book <==> t in before.book && Passes(c, before, ops[k]))
            && (t in Steps(c, node, ops).book ==> Steps(c, node, ops).book[t] == before.book[t])
  {
    hide Steps, Step, Passes;
    var k := t - node.height - 1;
    var before := Steps(c, node, ops[..k]);
    EpochFrozen(c, node, ops[..k], 0);
    StepSettlesIff(c, before, ops[k]);
    LaterSteps(c, node, ops, k);
    EpochFrozen(c, Step(c, before, ops[k]), ops[k + 1..], t);
  }

  lemma {:induction false} LaterSteps(c: Config, node: Node, ops: seq<Op>, k: nat)
    requires c.n > 0 && k < |ops|
    ensures var before := Steps(c, node, ops[..k]);
            && Steps(c, node, ops) == Steps(c, Step(c, before, ops[k]), ops[k + 1..])
            && Step(c, before, ops[k]).height == before.height + 1
  {
    StepsSplit(c, node, ops, k + 1);
    assert ops[..k + 1][..k] == ops[..k];
    hide Execute;
  }

  /** The closing window is what this rests on: an appended block's bets are safe from every
      later block if and only if the window is at least one block. */
  lemma WindowIff(c: Config, node: Node)
    requires c.n > 0
    ensures (forall op: Op, t: nat | t <= node.height :: SameEpoch(node.book, Step(c, node, op).book, t))
            <==> c.beta >= 1
  {
    if c.beta >= 1 {
      forall op: Op, t: nat | t <= node.height
        ensures SameEpoch(node.book, Step(c, node, op).book, t)
      {
        StepKeepsEpoch(c, node, op, t);
      }
    } else {
      var op := LateBet(c, node);
      assert !SameEpoch(node.book, Step(c, node, op).book, node.height);
    }
  }

  /** Without a window, a bet on the block just appended is still booked. */
  lemma LateBet(c: Config, node: Node) returns (op: Op)
    requires c.n > 0 && c.beta == 0
    ensures !SameEpoch(node.book, Step(c, node, op).book, node.height)
  {
    var tx := Tx(0, 0, BalanceOf(node.accounts, 0), 0, false, false, false, None, None, None,
                 true, node.height, 0, 0);
    op := Block(map[0 := c.shard], [tx]);
    var env := EnvOf(c, node, op.pmap);
    var run0 := Run(node.accounts, node.book, 0);
    assert op.txs[..0] == [];
    assert ExecTxs(env, run0, op.txs) == ExecTx(env, run0, 0, tx);
    var book' := AppendBet(node.book, node.height, Pair(0, 0), 0, tx.value);
    var e := EpochAt(node.book, node.height);
    assert |BetsOn(book'[node.height], Pair(0, 0))| == |BetsOn(e, Pair(0, 0))| + 1;
  }
}
