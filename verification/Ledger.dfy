/** Block execution and the Game2Earn bet book, as functions on values.

    `Execute` says what one call of GetUpdateStatusTrie does to the account state and to
    the bet book; the laws below are about every block and every run of blocks. */
module Ledger {
  import opened Core
  import opened Sums

  /** A pair of players' numbers that can be bet on. */
  datatype Pair = Pair(i: nat, j: nat)

  datatype Bet = Bet(player: Address, pair: Pair, amount: int)

  /** All bets on one target height, with the stake sum kept for each pair. */
  datatype Epoch = Epoch(byPair: map<Pair, seq<Bet>>, sums: map<Pair, int>)

  /** The bet book, by target height. */
  type Book = map<nat, Epoch>

  /** What execution reads but does not change. */
  datatype Env = Env(shard: ShardId, n: nat, pmap: Placement, height: nat, beta: nat)

  /** The state of the transaction loop. */
  datatype Run = Run(accounts: Accounts, book: Book, cnt: nat)

  predicate Local(env: Env, a: Address)
    requires env.n > 0
  {
    Place(env.pmap, env.n, a) == env.shard
  }

  // ----- the bet book -----

  function EpochAt(book: Book, target: nat): Epoch {
    if target in book then book[target] else Epoch(map[], map[])
  }

  function BetsOn(e: Epoch, p: Pair): seq<Bet> {
    if p in e.byPair then e.byPair[p] else []
  }

  function StakeOn(e: Epoch, p: Pair): int {
    if p in e.sums then e.sums[p] else 0
  }

  /** The book after one more bet. */
  function AppendBet(book: Book, target: nat, p: Pair, player: Address, amount: int): Book {
    var e := EpochAt(book, target);
    book[target := Epoch(
      e.byPair[p := BetsOn(e, p) + [Bet(player, p, amount)]],
      e.sums[p := StakeOn(e, p) + amount])]
  }

  function SumBets(bets: seq<Bet>): int {
    if bets == [] then 0 else SumBets(bets[..|bets| - 1]) + bets[|bets| - 1].amount
  }

  /** The kept sums agree with the bets, and no pair is listed without a bet. */
  ghost predicate EpochOk(e: Epoch) {
    && e.sums != map[]
    && e.sums.Keys == e.byPair.Keys
    && forall p | p in e.sums :: e.byPair[p] != [] && e.sums[p] == SumBets(e.byPair[p])
  }

  ghost predicate BookOk(book: Book) {
    forall t | t in book :: EpochOk(book[t])
  }

  /** Stakes of one epoch, and of the whole book. */
  ghost function EpochStakes(e: Epoch): int {
    MapSum(e.sums)
  }

  ghost function StakesByTarget(book: Book): map<nat, int> {
    map t | t in book :: EpochStakes(book[t])
  }

  ghost function Stakes(book: Book): int {
    MapSum(StakesByTarget(book))
  }

  // ----- the transaction loop -----

  /** The second half of the loop body: credit a local recipient. */
  function Credit(env: Env, run: Run, i: nat, tx: Tx): Run
    requires env.n > 0
  {
    if Local(env, tx.recipient) || tx.hasBroker then
      var r := Read(run.accounts, tx.recipient, i);
      run.(accounts := run.accounts[tx.recipient := r.(balance := r.balance + tx.value)],
           cnt := run.cnt + 1)
    else run
  }

  /** True when this shard is the one to debit the sender. */
  predicate DebitsHere(env: Env, tx: Tx)
    requires env.n > 0
  {
    !tx.relayed && (Local(env, tx.sender) || tx.hasBroker)
  }

  predicate Funded(run: Run, tx: Tx) {
    BalanceOf(run.accounts, tx.sender) >= tx.value
  }

  /** A bet whose target is closer than the closing window is rolled back. */
  predicate WindowClosed(env: Env, tx: Tx) {
    tx.height < env.height + env.beta
  }

  /** One pass of the loop, over the transaction at index i. */
  function ExecTx(env: Env, run: Run, i: nat, tx: Tx): Run
    requires env.n > 0
  {
    if DebitsHere(env, tx) then
      var s := Read(run.accounts, tx.sender, i);
      if s.balance < tx.value then run
      else
        var debited := run.accounts[tx.sender := s.(balance := s.balance - tx.value)];
        if tx.bet then
          if WindowClosed(env, tx) then run.(accounts := debited[tx.sender := s])
          else Run(debited, AppendBet(run.book, tx.height, Pair(tx.pairI, tx.pairJ), tx.sender, tx.value), run.cnt + 1)
        else Credit(env, Run(debited, run.book, run.cnt + 1), i, tx)
    else Credit(env, run, i, tx)
  }

  function ExecTxs(env: Env, run: Run, txs: seq<Tx>): Run
    requires env.n > 0
  {
    if txs == [] then run
    else
      var last := |txs| - 1;
      ExecTx(env, ExecTxs(env, run, txs[..last]), last, txs[last])
  }

  // ----- settlement -----

  /** The order the winner is chosen in: by first number, then by second. */
  predicate Less(p: Pair, q: Pair) {
    p.i < q.i || (p.i == q.i && p.j < q.j)
  }

  function Below(keys: set<Pair>, p: Pair): set<Pair> {
    set k | k in keys && Less(k, p)
  }

  /** The winner of height h is the pair of rank h modulo the number of pairs bet on. */
  ghost predicate Wins(h: nat, keys: set<Pair>, p: Pair)
    requires keys != {}
  {
    p in keys && |Below(keys, p)| == h % |keys|
  }

  ghost function Winner(h: nat, keys: set<Pair>): (p: Pair)
    requires keys != {}
    ensures Wins(h, keys, p)
  {
    RankExists(keys, h % |keys|);
    assert exists p :: p in keys && |Below(keys, p)| == h % |keys| && Wins(h, keys, p);
    var p :| Wins(h, keys, p);
    p
  }

  /** The number of pairs bet on that have a smaller first number than the winner, or the same first
      and a smaller second, is the height modulo the number of pairs. */
  lemma WinnerInFields(h: nat, sums: map<Pair, int>)
    requires sums != map[]
    ensures var p := Winner(h, sums.Keys);
            p in sums && |set k | k in sums && (k.i < p.i || (k.i == p.i && k.j < p.j))| == h % |sums|
  {
    var p := Winner(h, sums.Keys);
    assert Below(sums.Keys, p) == set k | k in sums && (k.i < p.i || (k.i == p.i && k.j < p.j));
    assert |sums.Keys| == |sums|;
  }

  /** Credit a winner's gain, one bet after the other. */
  function Pay(accounts: Accounts, bets: seq<Bet>, q: int): Accounts {
    if bets == [] then accounts
    else
      var b := bets[|bets| - 1];
      var before := Pay(accounts, bets[..|bets| - 1], q);
      var r := Read(before, b.player, 0);
      before[b.player := r.(balance := r.balance + b.amount * q)]
  }

  /** The rate paid for each staked unit on the winning pair. */
  function Rate(w: int, l: int): int {
    if w > 0 then l / w else 0
  }

  /** Settle the bets on height h, if there are any. */
  ghost function Settle(h: nat, accounts: Accounts, book: Book): (Accounts, Book) {
    if h in book && book[h].sums != map[] then
      var e := book[h];
      var star := Winner(h, e.sums.Keys);
      var w := e.sums[star];
      var l := EpochStakes(e) - w;
      (if w > 0 then Pay(accounts, BetsOn(e, star), Rate(w, l)) else accounts, book - {h})
    else (accounts, book - {h})
  }

  /** After the loop: keep the old root if nothing was modified, otherwise settle the next height. */
  ghost function Finish(env: Env, accounts: Accounts, run: Run): (Accounts, Book) {
    if run.cnt == 0 then (accounts, run.book)
    else Settle(env.height + 1, run.accounts, run.book)
  }

  /** The account state and bet book after one block body has been executed. */
  ghost function Execute(env: Env, accounts: Accounts, book: Book, txs: seq<Tx>): (Accounts, Book)
    requires env.n > 0
  {
    Finish(env, accounts, ExecTxs(env, Run(accounts, book, 0), txs))
  }

  // ----- ranks -----

  /** Every rank below the number of keys is taken. */
  lemma {:induction false} RankExists(keys: set<Pair>, r: nat)
    requires r < |keys|
    ensures exists p :: p in keys && |Below(keys, p)| == r
    decreases |keys|
  {
    var m := MaxPair(keys);
    var rest := keys - {m};
    assert Below(keys, m) == rest;
    if r < |rest| {
      RankExists(rest, r);
      var p :| p in rest && |Below(rest, p)| == r;
      assert Below(keys, p) == Below(rest, p);
    } else {
      assert |Below(keys, m)| == r;
    }
  }

  lemma {:induction false} MaxPair(keys: set<Pair>) returns (m: Pair)
    requires keys != {}
    ensures m in keys && forall k | k in keys :: k == m || Less(k, m)
    decreases |keys|
  {
    m :| m in keys;
    if keys != {m} {
      var rest := MaxPair(keys - {m});
      assert forall k | k in keys :: k == m || k in keys - {m};
      if Less(m, rest) {
        m := rest;
      }
    }
  }

  /** A key's rank identifies it. */
  lemma RankUnique(keys: set<Pair>, p: Pair, q: Pair)
    requires p in keys && q in keys
    requires |Below(keys, p)| == |Below(keys, q)|
    ensures p == q
  {
    if Less(p, q) {
      RankMonotone(keys, p, q);
    } else if Less(q, p) {
      RankMonotone(keys, q, p);
    }
  }

  lemma RankMonotone(keys: set<Pair>, p: Pair, q: Pair)
    requires p in keys && Less(p, q)
    ensures |Below(keys, p)| < |Below(keys, q)|
  {
    assert p in Below(keys, q) && p !in Below(keys, p);
    assert Below(keys, p) + {p} <= Below(keys, q);
    SubsetCard(Below(keys, p) + {p}, Below(keys, q));
  }
}
