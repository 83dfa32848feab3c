/** A replica that already has a block's state root does not execute the block.  When this costs
    it a bet. */
module Replica {
  import opened Core
  import opened Ledger
  import opened LedgerLaws
  import opened LedgerRuns
  import opened Blockchain

  /** The bet at index j of a body is booked: this shard debits its sender, who can pay when its
      turn comes, and its target is outside the closing window. */
  predicate Booked(env: Env, run: Run, txs: seq<Tx>, j: nat)
    requires env.n > 0 && j < |txs|
  {
    var tx := txs[j];
    tx.bet && DebitsHere(env, tx) && Funded(ExecTxs(env, run, txs[..j]), tx) && !WindowClosed(env, tx)
  }

  function Bets(book: Book, t: nat, p: Pair): nat {
    |BetsOn(EpochAt(book, t), p)|
  }

  /** A target that no booked bet names keeps its bets. */
  lemma {:induction false} OtherTargetsStay(env: Env, run: Run, txs: seq<Tx>, t: nat)
    requires env.n > 0
    requires forall j | 0 <= j < |txs| && Booked(env, run, txs, j) :: txs[j].height != t
    ensures SameEpoch(run.book, ExecTxs(env, run, txs).book, t)
  {
    if txs != [] {
      var last := |txs| - 1;
      PrefixBooked(env, run, txs);
      OtherTargetsStay(env, run, txs[..last], t);
      assert Booked(env, run, txs, last) ==> txs[last].height != t;
    }
  }

  lemma PrefixBooked(env: Env, run: Run, txs: seq<Tx>)
    requires env.n > 0 && txs != []
    ensures forall j | 0 <= j < |txs| - 1 :: Booked(env, run, txs[..|txs| - 1], j) <==> Booked(env, run, txs, j)
  {
    forall j | 0 <= j < |txs| - 1
      ensures Booked(env, run, txs[..|txs| - 1], j) <==> Booked(env, run, txs, j)
    {
      assert txs[..|txs| - 1][..j] == txs[..j];
    }
  }

  /** One pass of the loop adds one bet if it books it, and none otherwise. */
  lemma BetStep(env: Env, run: Run, i: nat, tx: Tx, t: nat, p: Pair)
    requires env.n > 0
    ensures var run' := ExecTx(env, run, i, tx);
            var books := tx.bet && DebitsHere(env, tx) && Funded(run, tx) && !WindowClosed(env, tx);
            && (t in run.book ==> t in run'.book)
            && Bets(run'.book, t, p)
               == Bets(run.book, t, p) + if books && tx.height == t && Pair(tx.pairI, tx.pairJ) == p then 1 else 0
  {
  }

  /** No bet is lost in the loop, and a booked one is there afterwards. */
  lemma {:induction false} BetsGrow(env: Env, run: Run, txs: seq<Tx>, t: nat, p: Pair)
    requires env.n > 0
    ensures t in run.book ==> t in ExecTxs(env, run, txs).book
    ensures Bets(ExecTxs(env, run, txs).book, t, p) >= Bets(run.book, t, p)
  {
    if txs != [] {
      var last := |txs| - 1;
      BetsGrow(env, run, txs[..last], t, p);
      BetStep(env, ExecTxs(env, run, txs[..last]), last, txs[last], t, p);
      hide ExecTx, Bets;
    }
  }

  lemma {:induction false} BookedIsThere(env: Env, run: Run, txs: seq<Tx>, j: nat)
    requires env.n > 0 && j < |txs| && Booked(env, run, txs, j)
    ensures var t, p := txs[j].height, Pair(txs[j].pairI, txs[j].pairJ);
            Bets(ExecTxs(env, run, txs).book, t, p) > Bets(run.book, t, p)
  {
    var last := |txs| - 1;
    var t, p := txs[j].height, Pair(txs[j].pairI, txs[j].pairJ);
    BetStep(env, ExecTxs(env, run, txs[..last]), last, txs[last], t, p);
    if j < last {
      PrefixBooked(env, run, txs);
      hide ExecTx, Bets;
      BookedIsThere(env, run, txs[..last], j);
    } else {
      hide ExecTx, Bets;
      BetsGrow(env, run, txs[..last], t, p);
    }
  }

  lemma BooksEqual(book: Book, book': Book)
    requires forall t: nat :: SameEpoch(book, book', t)
    ensures book == book'
  {
    forall t: nat
      ensures t in book <==> t in book'
      ensures t in book ==> book[t] == book'[t]
    {
      assert SameEpoch(book, book', t);
    }
    assert book.Keys == book'.Keys;
  }

  /** After a body, and without the target that is settled, the book is the old one exactly when
      that target had no bets and every booked bet names it. */
  lemma {:induction false} LoopBookIff(env: Env, run: Run, txs: seq<Tx>, h: nat)
    requires env.n > 0
    ensures ExecTxs(env, run, txs).book - {h} == run.book
            <==> h !in run.book && forall j | 0 <= j < |txs| && Booked(env, run, txs, j) :: txs[j].height == h
  {
    hide Booked, ExecTxs;
    var book' := ExecTxs(env, run, txs).book - {h};
    if j :| 0 <= j < |txs| && Booked(env, run, txs, j) && txs[j].height != h {
      BookedIsThere(env, run, txs, j);
      assert EpochAt(book', txs[j].height) == EpochAt(ExecTxs(env, run, txs).book, txs[j].height);
    } else if h !in run.book {
      forall t: nat
        ensures SameEpoch(book', run.book, t)
      {
        if t != h {
          OtherTargetsStay(env, run, txs, t);
        }
      }
      BooksEqual(book', run.book);
    }
  }

  /** A replica equal to the leader has the leader's bet book after appending the leader's block
      if and only if the block's root was new to it, or no transaction of the block took effect,
      or nobody had bet on the block itself and every bet booked in it is on the block itself. */
  lemma {:induction false} BookAgreesIff(env: Env, accounts: Accounts, book: Book, roots: set<Accounts>, b: Block)
    requires env.n > 0
    requires b.root == Execute(env, accounts, book, b.body).0
    ensures BookAfterAdd(env, accounts, book, roots, b) == Execute(env, accounts, book, b.body).1
            <==> || b.root !in roots
                 || ExecTxs(env, Run(accounts, book, 0), b.body).cnt == 0
                 || (env.height + 1 !in book
                     && forall j | 0 <= j < |b.body| && Booked(env, Run(accounts, book, 0), b.body, j) ::
                          b.body[j].height == env.height + 1)
  {
    var run0 := Run(accounts, book, 0);
    NoEffect(env, run0, b.body);
    LoopBookIff(env, run0, b.body, env.height + 1);
  }

  /** The failing case is real: a bet and an incoming transfer of the same amount restore the
      root the replica already has, so the replica never books the bet. */
  lemma MissesBet()
    ensures exists env: Env, accounts: Accounts, book: Book, b: Block ::
              && env.n > 0 && b.root == Execute(env, accounts, book, b.body).0
              && BookAfterAdd(env, accounts, book, {accounts}, b) != Execute(env, accounts, book, b.body).1
  {
    var env := Env(1, 2, map[], 0, 1);
    var accounts: Accounts := map[7 := AccountState(0, 10)];
    var tx1 := Tx(7, 9, 5, 1, false, false, false, None, None, None, true, 9, 0, 0);
    var tx2 := Tx(8, 7, 5, 2, true, false, false, None, None, None, true, 9, 0, 0);
    var book: Book := map[];
    var run0 := Run(accounts, book, 0);
    var txs := [tx1, tx2];
    assert txs[..1] == [tx1] && txs[..1][..0] == [];
    assert ExecTxs(env, run0, txs[..1]) == ExecTx(env, run0, 0, tx1);
    var run1 := ExecTx(env, run0, 0, tx1);
    assert run1.accounts == map[7 := AccountState(0, 5)];
    var run2 := ExecTxs(env, run0, txs);
    assert run2 == ExecTx(env, run1, 1, tx2);
    assert run2.accounts == accounts && run2.cnt == 2 && 9 in run2.book && 1 !in run2.book;
    var b := Block.Block(1, 0, 1, accounts, txs);
    assert Execute(env, accounts, book, txs) == (run2.accounts, run2.book - {1});
    assert BookAfterAdd(env, accounts, book, {accounts}, b) != Execute(env, accounts, book, b.body).1;
  }
}
