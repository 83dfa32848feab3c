/** Laws of block execution: the exact ledger equation of a block, the payout of a
    settlement, and what stays true over every run of blocks. */
module LedgerLaws {
  import opened Core
  import opened Sums
  import opened Ledger

  // ----- money -----

  ghost function Deviations(accounts: Accounts): map<Address, int> {
    map a | a in accounts :: accounts[a].balance - INIT_BALANCE
  }

  /** Total balance, counted from the balance every account starts with. */
  ghost function Excess(accounts: Accounts): int {
    MapSum(Deviations(accounts))
  }

  lemma ExcessUpdate(accounts: Accounts, a: Address, s: AccountState)
    ensures Excess(accounts[a := s]) == Excess(accounts) + s.balance - BalanceOf(accounts, a)
  {
    var d := Deviations(accounts);
    assert Deviations(accounts[a := s]) == d[a := s.balance - INIT_BALANCE];
    MapSumUpdate(d, a, s.balance - INIT_BALANCE);
  }

  lemma StakesUpdate(book: Book, t: nat, e: Epoch)
    ensures Stakes(book[t := e]) == Stakes(book) + EpochStakes(e) - EpochStakes(EpochAt(book, t))
  {
    assert StakesByTarget(book[t := e]) == StakesByTarget(book)[t := EpochStakes(e)];
    MapSumUpdate(StakesByTarget(book), t, EpochStakes(e));
  }

  lemma StakesDelete(book: Book, t: nat)
    ensures Stakes(book - {t}) == Stakes(book) - EpochStakes(EpochAt(book, t))
  {
    assert StakesByTarget(book - {t}) == StakesByTarget(book) - {t};
    MapSumDelete(StakesByTarget(book), t);
  }

  /** A bet adds its amount to the open stakes. */
  lemma AppendBetLaw(book: Book, t: nat, p: Pair, player: Address, amount: int)
    ensures Stakes(AppendBet(book, t, p, player, amount)) == Stakes(book) + amount
  {
    hide MapSum, Stakes;
    var e := EpochAt(book, t);
    MapSumUpdate(e.sums, p, StakeOn(e, p) + amount);
    StakesUpdate(book, t, AppendBet(book, t, p, player, amount)[t]);
  }

  /** A bet keeps the stake sums true. */
  lemma AppendBetKeepsBook(book: Book, t: nat, p: Pair, player: Address, amount: int)
    requires BookOk(book)
    ensures BookOk(AppendBet(book, t, p, player, amount))
  {
    var e := EpochAt(book, t);
    var e' := AppendBet(book, t, p, player, amount)[t];
    assert (BetsOn(e, p) + [Bet(player, p, amount)])[..|BetsOn(e, p)|] == BetsOn(e, p);
    assert p in e'.sums;
    assert EpochOk(e');
  }

  // ----- one transaction -----

  /** Value that reaches a local account although this shard debits nobody for it. */
  function Inflow(env: Env, tx: Tx): int
    requires env.n > 0
  {
    if !DebitsHere(env, tx) && (Local(env, tx.recipient) || tx.hasBroker) then tx.value else 0
  }

  /** Value that leaves a local account, not into the bet book, although nobody here is credited. */
  function Outflow(env: Env, run: Run, tx: Tx): int
    requires env.n > 0
  {
    if DebitsHere(env, tx) && Funded(run, tx) && !tx.bet && !Local(env, tx.recipient) && !tx.hasBroker
    then tx.value else 0
  }

  lemma CreditLaw(env: Env, run: Run, i: nat, tx: Tx)
    requires env.n > 0
    ensures Credit(env, run, i, tx).book == run.book
    ensures Excess(Credit(env, run, i, tx).accounts) == Excess(run.accounts)
              + (if Local(env, tx.recipient) || tx.hasBroker then tx.value else 0)
  {
    var r := Read(run.accounts, tx.recipient, i);
    ExcessUpdate(run.accounts, tx.recipient, r.(balance := r.balance + tx.value));
  }

  /** A debit and its rollback leave every balance as it was. */
  lemma RollbackLaw(accounts: Accounts, a: Address, i: nat, v: int)
    ensures var s := Read(accounts, a, i);
            Excess(accounts[a := s.(balance := s.balance - v)]) == Excess(accounts) - v
    ensures var s := Read(accounts, a, i);
            Excess(accounts[a := s.(balance := s.balance - v)][a := s]) == Excess(accounts)
    ensures var s := Read(accounts, a, i);
            forall x :: BalanceOf(accounts[a := s.(balance := s.balance - v)][a := s], x) == BalanceOf(accounts, x)
  {
    var s := Read(accounts, a, i);
    ExcessUpdate(accounts, a, s.(balance := s.balance - v));
    ExcessUpdate(accounts[a := s.(balance := s.balance - v)], a, s);
  }

  /** Balances plus open stakes. */
  ghost function Money(run: Run): int {
    Excess(run.accounts) + Stakes(run.book)
  }

  lemma BetLaw(env: Env, run: Run, i: nat, tx: Tx)
    requires env.n > 0 && DebitsHere(env, tx) && Funded(run, tx) && tx.bet
    ensures Money(ExecTx(env, run, i, tx)) == Money(run)
  {
    RollbackLaw(run.accounts, tx.sender, i, tx.value);
    if !WindowClosed(env, tx) {
      AppendBetLaw(run.book, tx.height, Pair(tx.pairI, tx.pairJ), tx.sender, tx.value);
    }
  }

  lemma TransferLaw(env: Env, run: Run, i: nat, tx: Tx)
    requires env.n > 0 && DebitsHere(env, tx) && Funded(run, tx) && !tx.bet
    ensures Money(ExecTx(env, run, i, tx)) == Money(run) - Outflow(env, run, tx)
  {
    var s := Read(run.accounts, tx.sender, i);
    var debited := Run(run.accounts[tx.sender := s.(balance := s.balance - tx.value)], run.book, run.cnt + 1);
    RollbackLaw(run.accounts, tx.sender, i, tx.value);
    CreditLaw(env, debited, i, tx);
    assert ExecTx(env, run, i, tx) == Credit(env, debited, i, tx);
  }

  /** Balances plus open stakes change by exactly what flows in and out. */
  lemma TxLaw(env: Env, run: Run, i: nat, tx: Tx)
    requires env.n > 0
    ensures Money(ExecTx(env, run, i, tx)) == Money(run) + Inflow(env, tx) - Outflow(env, run, tx)
  {
    if !DebitsHere(env, tx) {
      CreditLaw(env, run, i, tx);
    } else if !Funded(run, tx) {
      assert ExecTx(env, run, i, tx) == run;
    } else if tx.bet {
      BetLaw(env, run, i, tx);
    } else {
      TransferLaw(env, run, i, tx);
    }
  }

  /** In fields, for every account: the sender of a funded transaction that is debited here loses the
      value, unless it is a bet that comes too late; the recipient gains it, if it lives here, unless
      the transaction is a bet or its sender is debited here and cannot pay.  Nobody else is touched. */
  lemma TxInFields(env: Env, run: Run, i: nat, tx: Tx, a: Address)
    requires env.n > 0
    ensures var here := !tx.relayed && (Place(env.pmap, env.n, tx.sender) == env.shard || tx.hasBroker);
            var there := Place(env.pmap, env.n, tx.recipient) == env.shard || tx.hasBroker;
            var pays := here && BalanceOf(run.accounts, tx.sender) >= tx.value;
            var late := tx.height < env.height + env.beta;
            BalanceOf(ExecTx(env, run, i, tx).accounts, a)
            == BalanceOf(run.accounts, a)
               - (if a == tx.sender && pays && !(tx.bet && late) then tx.value else 0)
               + (if a == tx.recipient && there && (if here then pays && !tx.bet else true) then tx.value else 0)
  {
  }

  /** An account's nonce never changes once it is there; an account that a transaction brings into
      the state gets the index of that transaction. */
  lemma NonceInFields(env: Env, run: Run, i: nat, tx: Tx, a: Address)
    requires env.n > 0
    ensures var after := ExecTx(env, run, i, tx).accounts;
            && (a in run.accounts ==> a in after && after[a].nonce == run.accounts[a].nonce)
            && (a in after && a !in run.accounts ==> after[a].nonce == i && (a == tx.sender || a == tx.recipient))
  {
  }

  /** A committed cross-shard transaction is relayed in any case.  The value that is relayed has
      been taken out of the shard if and only if it is not a bet and its sender could pay. */
  lemma RelayPaidIff(env: Env, run: Run, i: nat, tx: Tx)
    requires env.n > 0 && DebitsHere(env, tx) && !Local(env, tx.recipient) && !tx.hasBroker && tx.value > 0
    ensures Money(ExecTx(env, run, i, tx)) + tx.value == Money(run) <==> !tx.bet && Funded(run, tx)
  {
    TxLaw(env, run, i, tx);
  }

  // ----- one block -----

  function Inflows(env: Env, txs: seq<Tx>): int
    requires env.n > 0
  {
    if txs == [] then 0 else Inflows(env, txs[..|txs| - 1]) + Inflow(env, txs[|txs| - 1])
  }

  function Outflows(env: Env, run: Run, txs: seq<Tx>): int
    requires env.n > 0
  {
    if txs == [] then 0
    else
      var rest := txs[..|txs| - 1];
      Outflows(env, run, rest) + Outflow(env, ExecTxs(env, run, rest), txs[|txs| - 1])
  }

  lemma {:induction false} LoopLaw(env: Env, run: Run, txs: seq<Tx>)
    requires env.n > 0
    ensures Money(ExecTxs(env, run, txs)) == Money(run) + Inflows(env, txs) - Outflows(env, run, txs)
  {
    if txs != [] {
      var last := |txs| - 1;
      LoopLaw(env, run, txs[..last]);
      TxLaw(env, ExecTxs(env, run, txs[..last]), last, txs[last]);
    }
  }

  /** A body that counts no modified account booked no bet and moved no money:
      returning the old root loses nothing. */
  lemma {:induction false} NoEffect(env: Env, run: Run, txs: seq<Tx>)
    requires env.n > 0
    ensures ExecTxs(env, run, txs).cnt >= run.cnt
    ensures ExecTxs(env, run, txs).cnt == run.cnt ==>
              && ExecTxs(env, run, txs).book == run.book
              && Inflows(env, txs) == 0 && Outflows(env, run, txs) == 0
              && (forall a :: BalanceOf(ExecTxs(env, run, txs).accounts, a) == BalanceOf(run.accounts, a))
  {
    if txs != [] {
      NoEffect(env, run, txs[..|txs| - 1]);
    }
  }

  // ----- settlement -----

  lemma {:induction false} PayLaw(accounts: Accounts, bets: seq<Bet>, q: int)
    ensures Excess(Pay(accounts, bets, q)) == Excess(accounts) + SumBets(bets) * q
  {
    if bets != [] {
      var b := bets[|bets| - 1];
      var before := Pay(accounts, bets[..|bets| - 1], q);
      PayLaw(accounts, bets[..|bets| - 1], q);
      var r := Read(before, b.player, 0);
      ExcessUpdate(before, b.player, r.(balance := r.balance + b.amount * q));
      assert (SumBets(bets[..|bets| - 1]) + b.amount) * q == SumBets(bets[..|bets| - 1]) * q + b.amount * q;
    }
  }

  /** Stakes on the winning pair, and on all others, of the bets settled at height h. */
  ghost function W(h: nat, book: Book): int
    requires h in book && EpochOk(book[h])
  {
    book[h].sums[Winner(h, book[h].sums.Keys)]
  }

  ghost function L(h: nat, book: Book): int
    requires h in book && EpochOk(book[h])
  {
    EpochStakes(book[h]) - W(h, book)
  }

  /** Stakes that a settlement at height h takes out of circulation: everything staked
      except what the winners are paid. */
  ghost function Burned(h: nat, book: Book): int
    requires BookOk(book)
  {
    if h !in book then 0
    else if W(h, book) > 0 then W(h, book) + L(h, book) % W(h, book)
    else W(h, book) + L(h, book)
  }

  /** The winner is a pair somebody bet on; the total paid is W * (L div W), never more than
      the losers' stakes, and L mod W of those stays undistributed.  The winners' own
      stakes are not returned. */
  lemma SettlementPayout(h: nat, accounts: Accounts, book: Book)
    requires BookOk(book) && h in book
    ensures Winner(h, book[h].sums.Keys) in book[h].byPair
    ensures BetsOn(book[h], Winner(h, book[h].sums.Keys)) != []
    ensures W(h, book) > 0 ==>
              var paid := Excess(Settle(h, accounts, book).0) - Excess(accounts);
              && paid == W(h, book) * (L(h, book) / W(h, book))
              && L(h, book) - paid == L(h, book) % W(h, book)
              && (L(h, book) >= 0 ==> 0 <= paid <= L(h, book))
    ensures W(h, book) <= 0 ==> Settle(h, accounts, book).0 == accounts
    ensures h !in Settle(h, accounts, book).1
  {
    var e := book[h];
    var star := Winner(h, e.sums.Keys);
    PayLaw(accounts, BetsOn(e, star), Rate(W(h, book), L(h, book)));
    if W(h, book) > 0 {
      DivMod(L(h, book), W(h, book));
    }
  }

  lemma DivMod(l: int, w: int)
    requires w > 0
    ensures w * (l / w) == l - l % w
    ensures l >= 0 ==> 0 <= w * (l / w) <= l
  {
  }

  lemma SettleLaw(h: nat, accounts: Accounts, book: Book)
    requires BookOk(book)
    ensures var (accounts', book') := Settle(h, accounts, book);
            && Excess(accounts') + Stakes(book') + Burned(h, book) == Excess(accounts) + Stakes(book)
            && BookOk(book')
  {
    StakesDelete(book, h);
    if h in book {
      SettlementPayout(h, accounts, book);
    } else {
      assert EpochStakes(Epoch(map[], map[])) == 0;
    }
  }

  lemma {:induction false} BookStaysOk(env: Env, run: Run, txs: seq<Tx>)
    requires env.n > 0 && BookOk(run.book)
    ensures BookOk(ExecTxs(env, run, txs).book)
  {
    if txs != [] {
      var last := |txs| - 1;
      BookStaysOk(env, run, txs[..last]);
      var tx := txs[last];
      AppendBetKeepsBook(ExecTxs(env, run, txs[..last]).book, tx.height, Pair(tx.pairI, tx.pairJ), tx.sender, tx.value);
    }
  }

  /** Stakes burned after the loop: none when the block has no effect. */
  ghost function BurnAfter(env: Env, run: Run): int
    requires BookOk(run.book)
  {
    if run.cnt == 0 then 0 else Burned(env.height + 1, run.book)
  }

  lemma FinishLaw(env: Env, accounts: Accounts, run: Run)
    requires BookOk(run.book)
    ensures var (accounts', book') := Finish(env, accounts, run);
            && BookOk(book')
            && Excess(accounts') + Stakes(book') + BurnAfter(env, run)
               == (if run.cnt == 0 then Excess(accounts) + Stakes(run.book) else Money(run))
  {
    hide Settle, Burned, Excess, Stakes;
    SettleLaw(env.height + 1, run.accounts, run.book);
  }

  /** The exact ledger equation of every block, whatever it contains. */
  lemma {:induction false} LedgerEquation(env: Env, accounts: Accounts, book: Book, txs: seq<Tx>)
    requires env.n > 0 && BookOk(book)
    ensures BookOk(ExecTxs(env, Run(accounts, book, 0), txs).book)
    ensures var (accounts', book') := Execute(env, accounts, book, txs);
            && BookOk(book')
            && (Excess(accounts') - Excess(accounts)) + (Stakes(book') - Stakes(book))
               + BurnAfter(env, ExecTxs(env, Run(accounts, book, 0), txs))
               == Inflows(env, txs) - Outflows(env, Run(accounts, book, 0), txs)
  {
    var run0 := Run(accounts, book, 0);
    BookStaysOk(env, run0, txs);
    FinishLaw(env, accounts, ExecTxs(env, run0, txs));
    LoopLaw(env, run0, txs);
    NoEffect(env, run0, txs);
  }
}
