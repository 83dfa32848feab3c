/** Cross-shard bets: booked or rolled back where they are placed, and relayed all the same. */
module BetLimits {
  import opened Core
  import opened Ledger
  import opened LedgerLaws
  import opened Protocol
  import opened ProtocolSafety
  import opened Limits
  import opened BarrierLimits

  /** A bet of account 0 on block `target`, addressed to account 1 of the other shard. */
  function CrossBet(value: int, target: nat): Tx {
    Transfer(value).(bet := true, height := target)
  }

  /** Where bets are placed, balances and open stakes together are what they were, up to what the
      settlement of the block burns, whether the bets are booked, rolled back or not funded. */
  lemma {:induction false} BetKeepsMoney(env: Env, accounts: Accounts, book: Book, txs: seq<Tx>)
    requires env.n > 0 && BookOk(book) && forall i | 0 <= i < |txs| :: DebitsHere(env, txs[i]) && txs[i].bet
    ensures var run := ExecTxs(env, Run(accounts, book, 0), txs);
            var (accounts', book') := Execute(env, accounts, book, txs);
            && BookOk(run.book)
            && Excess(accounts') + Stakes(book') + BurnAfter(env, run) == Excess(accounts) + Stakes(book)
  {
    LedgerEquation(env, accounts, book, txs);
    BetsDoNotFlow(env, Run(accounts, book, 0), txs);
    hide Execute, ExecTxs, Excess, Stakes, BurnAfter;
  }

  lemma {:induction false} BetsDoNotFlow(env: Env, run: Run, txs: seq<Tx>)
    requires env.n > 0 && forall i | 0 <= i < |txs| :: DebitsHere(env, txs[i]) && txs[i].bet
    ensures Inflows(env, txs) == 0 && Outflows(env, run, txs) == 0
  {
    if txs != [] {
      BetsDoNotFlow(env, run, txs[..|txs| - 1]);
    }
  }

  lemma FirstBet(env: Env, tx: Tx)
    requires env.n > 0 && DebitsHere(env, tx) && tx.bet && tx.height != env.height + 1
    ensures var (accounts, book) := Execute(env, map[], map[], [tx]);
            Excess(accounts) + Stakes(book) == 0
  {
    BetKeepsMoney(env, map[], map[], [tx]);
    assert [tx][..0] == [];
    var run0 := Run(map[], map[], 0);
    assert ExecTxs(env, run0, [tx]) == ExecTx(env, run0, 0, tx);
    assert Excess(map[]) == 0 && Stakes(map[]) == 0;
  }

  /** For every value and every target but the next block there is a reachable state in which the
      shard of the bet has kept all its money, as balances or stakes, and the value of the bet is
      on its way to be credited in the other shard. */
  lemma BetIsRelayed(value: int, target: nat)
    requires target != 1
    ensures exists g ::
              && Reachable(g, 2, 1) && Shape(g) && g.n == 2
              && Excess(g.shards[0].accounts) + Stakes(g.shards[0].book) == 0
              && g.relays[0][1] == [Relay([CrossBet(value, target).(relayed := true)], 1)]
  {
    var tx := CrossBet(value, target);
    var g := FirstBlock(tx);
    FirstBet(Env(0, 2, map[], 0, 1), tx);
    hide Reachable, Execute, Excess, Stakes;
  }
}
