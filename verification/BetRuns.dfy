/** Whose bets they are: what the book holds, and what a settlement pays, in terms of the
    transactions that placed the bets. */
module BetRuns {
  import opened Core
  import opened Ledger
  import opened LedgerLaws
  import opened LedgerRuns
  import opened Replica

  // ----- the bets of one body -----

  /** The bets on pair p of target t that a body places, in body order: one for every booked
      transaction that names them, by its sender and of its value. */
  function Placed(env: Env, run: Run, txs: seq<Tx>, t: nat, p: Pair): seq<Bet>
    requires env.n > 0
  {
    if txs == [] then []
    else
      var last := |txs| - 1;
      var tx := txs[last];
      Placed(env, run, txs[..last], t, p)
      + if Booked(env, run, txs, last) && tx.height == t && tx.pairI == p.i && tx.pairJ == p.j
        then [Bet(tx.sender, p, tx.value)] else []
  }

  /** After a body the bets on a pair are those before it, followed by those the body places. */
  lemma {:induction false} BodyBets(env: Env, run: Run, txs: seq<Tx>, t: nat, p: Pair)
    requires env.n > 0
    ensures BetsOn(EpochAt(ExecTxs(env, run, txs).book, t), p)
            == BetsOn(EpochAt(run.book, t), p) + Placed(env, run, txs, t, p)
  {
    if txs != [] {
      var last := |txs| - 1;
      BodyBets(env, run, txs[..last], t, p);
      TxBets(env, ExecTxs(env, run, txs[..last]), last, txs[last], t, p);
      hide ExecTx;
    }
  }

  lemma TxBets(env: Env, run: Run, i: nat, tx: Tx, t: nat, p: Pair)
    requires env.n > 0
    ensures var books := tx.bet && DebitsHere(env, tx) && Funded(run, tx) && !WindowClosed(env, tx);
            BetsOn(EpochAt(ExecTx(env, run, i, tx).book, t), p)
            == BetsOn(EpochAt(run.book, t), p)
               + if books && tx.height == t && tx.pairI == p.i && tx.pairJ == p.j
                   then [Bet(tx.sender, p, tx.value)] else []
  {
  }

  // ----- the bets of a run -----

  /** The bets on a pair that an operation places, and that all operations of a run place. */
  ghost function PlacedBy(c: Config, node: Node, op: Op, t: nat, p: Pair): seq<Bet>
    requires c.n > 0
  {
    if op.Block? then Placed(EnvOf(c, node, op.pmap), Run(node.accounts, node.book, 0), op.txs, t, p) else []
  }

  ghost function PlacedIn(c: Config, node: Node, ops: seq<Op>, t: nat, p: Pair): seq<Bet>
    requires c.n > 0
  {
    if ops == [] then []
    else
      var rest := ops[..|ops| - 1];
      PlacedIn(c, node, rest, t, p) + PlacedBy(c, Steps(c, node, rest), ops[|ops| - 1], t, p)
  }

  lemma StepBets(c: Config, node: Node, op: Op, t: nat, p: Pair)
    requires c.n > 0 && t != node.height + 1
    ensures BetsOn(EpochAt(Step(c, node, op).book, t), p)
            == BetsOn(EpochAt(node.book, t), p) + PlacedBy(c, node, op, t, p)
  {
    if op.Block? {
      var env, run0 := EnvOf(c, node, op.pmap), Run(node.accounts, node.book, 0);
      BodyBets(env, run0, op.txs, t, p);
      hide ExecTxs, Placed;
    }
  }

  /** As long as block t is not built, the bets on a pair of target t are exactly those that the
      transactions of the run placed, in order. */
  lemma {:induction false} RunBets(c: Config, node: Node, ops: seq<Op>, t: nat, p: Pair)
    requires c.n > 0 && node.book == map[] && node.height + |ops| < t
    ensures Steps(c, node, ops).height == node.height + |ops|
    ensures BetsOn(EpochAt(Steps(c, node, ops).book, t), p) == PlacedIn(c, node, ops, t, p)
  {
    if ops != [] {
      var rest := ops[..|ops| - 1];
      RunBets(c, node, rest, t, p);
      StepBets(c, Steps(c, node, rest), ops[|ops| - 1], t, p);
      hide PlacedBy, Execute;
    }
  }

  lemma {:induction false} RunBookOk(c: Config, node: Node, ops: seq<Op>)
    requires c.n > 0 && BookOk(node.book)
    ensures BookOk(Steps(c, node, ops).book)
  {
    if ops != [] {
      var rest := ops[..|ops| - 1];
      RunBookOk(c, node, rest);
      var mid, op := Steps(c, node, rest), ops[|ops| - 1];
      if op.Block? {
        LedgerEquation(EnvOf(c, mid, op.pmap), mid.accounts, mid.book, op.txs);
      }
      hide BookOk, Execute;
    }
  }

  // ----- what a settlement pays -----

  /** What an account has staked in a list of bets. */
  function OwnStake(bets: seq<Bet>, a: Address): int {
    if bets == [] then 0
    else OwnStake(bets[..|bets| - 1], a) + if bets[|bets| - 1].player == a then bets[|bets| - 1].amount else 0
  }

  lemma {:induction false} PayOwn(accounts: Accounts, bets: seq<Bet>, q: int, a: Address)
    ensures BalanceOf(Pay(accounts, bets, q), a) == BalanceOf(accounts, a) + OwnStake(bets, a) * q
  {
    if bets != [] {
      var rest, b := bets[..|bets| - 1], bets[|bets| - 1];
      PayOwn(accounts, rest, q, a);
      PayOne(Pay(accounts, rest, q), b, q, a);
      hide Pay;
      assert (OwnStake(rest, a) + if b.player == a then b.amount else 0) * q
             == OwnStake(rest, a) * q + (if b.player == a then b.amount else 0) * q;
    }
  }

  lemma PayOne(accounts: Accounts, b: Bet, q: int, a: Address)
    ensures var r := Read(accounts, b.player, 0);
            BalanceOf(accounts[b.player := r.(balance := r.balance + b.amount * q)], a)
            == BalanceOf(accounts, a) + (if b.player == a then b.amount else 0) * q
  {
  }

  /** The pair that wins height h, and what is paid there for a stake of `own` on it. */
  ghost function Star(h: nat, book: Book): Pair
    requires BookOk(book)
  {
    if h in book then Winner(h, book[h].sums.Keys) else Pair(0, 0)
  }

  ghost function Gain(h: nat, book: Book, own: int): int
    requires BookOk(book)
  {
    if h in book && W(h, book) > 0 then own * (L(h, book) / W(h, book)) else 0
  }

  /** A settlement adds to every account the rate times what the account itself has staked on the
      winning pair, and nothing else. */
  lemma {:induction false} SettleOwn(h: nat, accounts: Accounts, book: Book, a: Address)
    requires BookOk(book)
    ensures BalanceOf(Settle(h, accounts, book).0, a)
            == BalanceOf(accounts, a) + Gain(h, book, OwnStake(BetsOn(EpochAt(book, h), Star(h, book)), a))
  {
    if h in book && W(h, book) > 0 {
      PayOwn(accounts, BetsOn(book[h], Winner(h, book[h].sums.Keys)), L(h, book) / W(h, book), a);
    }
  }

  lemma NoStakeNoGain(h: nat, book: Book)
    requires BookOk(book)
    ensures Gain(h, book, 0) == 0
  {
  }

  lemma NothingBooked()
    ensures BookOk(map[])
  {
  }

  lemma {:induction false} BlockOwn(env: Env, accounts: Accounts, book: Book, txs: seq<Tx>, a: Address)
    requires env.n > 0 && BookOk(book)
    ensures var run := ExecTxs(env, Run(accounts, book, 0), txs);
            var h := env.height + 1;
            && BookOk(run.book)
            && BalanceOf(Execute(env, accounts, book, txs).0, a)
               == BalanceOf(run.accounts, a)
                  + if run.cnt == 0 then 0
                      else Gain(h, run.book, OwnStake(BetsOn(EpochAt(run.book, h), Star(h, run.book)), a))
  {
    var run0 := Run(accounts, book, 0);
    var run := ExecTxs(env, run0, txs);
    BookStaysOk(env, run0, txs);
    NoEffect(env, run0, txs);
    hide ExecTxs, Settle, BookOk, Gain, OwnStake, Star;
    SettleOwn(env.height + 1, run.accounts, run.book, a);
  }

  // ----- end to end -----

  /** The loop over a block's body, from the state after a run. */
  ghost function LoopOf(c: Config, node: Node, op: Op): Run
    requires c.n > 0 && op.Block?
  {
    ExecTxs(EnvOf(c, node, op.pmap), Run(node.accounts, node.book, 0), op.txs)
  }

  /** The block of number t, after any run that starts with an empty book, pays to every account
      exactly the rate times the values that this account staked itself, in booked transactions of
      the run and of the block, on the winning pair of target t. */
  lemma {:induction false} BettorsArePaid(c: Config, node: Node, ops: seq<Op>, op: Op, a: Address)
    requires c.n > 0 && node.book == map[] && op.Block?
    ensures var before := Steps(c, node, ops);
            var run, t := LoopOf(c, before, op), node.height + |ops| + 1;
            && before.height + 1 == t && BookOk(run.book)
            && BalanceOf(Step(c, before, op).accounts, a)
               == BalanceOf(run.accounts, a)
                  + if run.cnt == 0 then 0
                    else Gain(t, run.book, OwnStake(PlacedIn(c, node, ops + [op], t, Star(t, run.book)), a))
  {
    hide Steps, Execute, ExecTxs, BookOk, Gain, OwnStake, Star, PlacedIn, BalanceOf, EpochAt, BetsOn, StakeOn, SumBets;
    var before := Steps(c, node, ops);
    var t := node.height + |ops| + 1;
    RunBets(c, node, ops, t, Pair(0, 0));
    NothingBooked();
    RunBookOk(c, node, ops);
    BlockOwn(EnvOf(c, before, op.pmap), before.accounts, before.book, op.txs, a);
    BlockBets(c, node, ops, op, t, Star(t, LoopOf(c, before, op).book));
  }

  /** The bets and the stake on a pair of target t when the block of number t is settled are those
      that the transactions of the run and of the block placed. */
  lemma {:induction false} BlockBets(c: Config, node: Node, ops: seq<Op>, op: Op, t: nat, p: Pair)
    requires c.n > 0 && node.book == map[] && t == node.height + |ops| + 1 && op.Block?
    ensures var before := Steps(c, node, ops);
            var run := ExecTxs(EnvOf(c, before, op.pmap), Run(before.accounts, before.book, 0), op.txs);
            && BetsOn(EpochAt(run.book, t), p) == PlacedIn(c, node, ops + [op], t, p)
            && StakeOn(EpochAt(run.book, t), p) == SumBets(PlacedIn(c, node, ops + [op], t, p))
  {
    var before := Steps(c, node, ops);
    RunBookOk(c, node, ops);
    BookStaysOk(EnvOf(c, before, op.pmap), Run(before.accounts, before.book, 0), op.txs);
    RunBets(c, node, ops, t, p);
    BodyBets(EnvOf(c, before, op.pmap), Run(before.accounts, before.book, 0), op.txs, t, p);
    assert (ops + [op])[..|ops|] == ops;
    hide ExecTxs, Placed, Steps;
  }

  /** The account is the sender of no booked bet of the run. */
  ghost predicate PlacesNone(c: Config, node: Node, ops: seq<Op>, a: Address)
    requires c.n > 0
  {
    forall k | 0 <= k < |ops| && ops[k].Block? :: OpPlacesNone(c, Steps(c, node, ops[..k]), ops[k], a)
  }

  ghost predicate OpPlacesNone(c: Config, node: Node, op: Op, a: Address)
    requires c.n > 0 && op.Block?
  {
    forall j | 0 <= j < |op.txs| && Booked(EnvOf(c, node, op.pmap), Run(node.accounts, node.book, 0), op.txs, j) ::
      op.txs[j].sender != a
  }

  lemma {:induction false} NoOwnBets(env: Env, run: Run, txs: seq<Tx>, t: nat, p: Pair, a: Address)
    requires env.n > 0 && forall j | 0 <= j < |txs| && Booked(env, run, txs, j) :: txs[j].sender != a
    ensures OwnStake(Placed(env, run, txs, t, p), a) == 0
  {
    if txs != [] {
      var last := |txs| - 1;
      PrefixBooked(env, run, txs);
      NoOwnBets(env, run, txs[..last], t, p, a);
      assert Booked(env, run, txs, last) ==> txs[last].sender != a;
      hide Booked, OwnStake;
      var before, b := Placed(env, run, txs[..last], t, p), Bet(txs[last].sender, p, txs[last].value);
      OneMoreBet(before, b, a);
    }
  }

  lemma {:induction false} OneMoreBet(bets: seq<Bet>, b: Bet, a: Address)
    ensures OwnStake(bets + [b], a) == OwnStake(bets, a) + if b.player == a then b.amount else 0
    ensures bets + [] == bets
  {
    assert (bets + [b])[..|bets|] == bets;
  }

  lemma {:induction false} OwnStakeSum(x: seq<Bet>, y: seq<Bet>, a: Address)
    ensures OwnStake(x + y, a) == OwnStake(x, a) + OwnStake(y, a)
  {
    if y == [] {
      assert x + y == x;
    } else {
      var rest := y[..|y| - 1];
      OwnStakeSum(x, rest, a);
      assert (x + y)[..|x + y| - 1] == x + rest;
    }
  }

  lemma {:induction false} NoneInRun(c: Config, node: Node, ops: seq<Op>, t: nat, p: Pair, a: Address)
    requires c.n > 0 && PlacesNone(c, node, ops, a)
    ensures OwnStake(PlacedIn(c, node, ops, t, p), a) == 0
  {
    if ops != [] {
      var last := |ops| - 1;
      var rest := ops[..last];
      forall k | 0 <= k < |rest| && rest[k].Block?
        ensures OpPlacesNone(c, Steps(c, node, rest[..k]), rest[k], a)
      {
        assert rest[..k] == ops[..k];
      }
      hide Steps, OpPlacesNone;
      NoneInRun(c, node, rest, t, p, a);
      NoneInOp(c, Steps(c, node, rest), ops[last], t, p, a);
      hide PlacedBy;
      OwnStakeSum(PlacedIn(c, node, rest, t, p), PlacedBy(c, Steps(c, node, rest), ops[last], t, p), a);
    }
  }

  lemma {:induction false} NoneInOp(c: Config, node: Node, op: Op, t: nat, p: Pair, a: Address)
    requires c.n > 0 && (op.Block? ==> OpPlacesNone(c, node, op, a))
    ensures OwnStake(PlacedBy(c, node, op, t, p), a) == 0
  {
    if op.Block? {
      NoOwnBets(EnvOf(c, node, op.pmap), Run(node.accounts, node.book, 0), op.txs, t, p, a);
    }
  }

  /** An account that has sent no booked bet gains nothing from the settlement of any block of any
      run that starts with an empty book. */
  lemma {:induction false} NoBetNoGain(c: Config, node: Node, ops: seq<Op>, op: Op, a: Address)
    requires c.n > 0 && node.book == map[] && op.Block? && PlacesNone(c, node, ops + [op], a)
    ensures var before := Steps(c, node, ops);
            BalanceOf(Step(c, before, op).accounts, a) == BalanceOf(LoopOf(c, before, op).accounts, a)
  {
    hide Steps, Step, LoopOf, PlacesNone, PlacedIn, BookOk, OwnStake, BalanceOf, Star, Gain;
    var before := Steps(c, node, ops);
    var run, t := LoopOf(c, before, op), node.height + |ops| + 1;
    BettorsArePaid(c, node, ops, op, a);
    NoneInRun(c, node, ops + [op], t, Star(t, run.book), a);
    NoStakeNoGain(t, run.book);
  }
}
