/** The sharded system refines one ledger: for transfers that are not bets, every run of
    blocks, relays and migrations is, balance by balance and transaction by transaction, a run
    of the single ledger of module Bank. */
module Refinement {
  import opened Core
  import opened Ledger
  import LedgerLaws
  import opened Protocol
  import opened ProtocolInv
  import opened Bags
  import opened Holders
  import opened Bank

  predicate Plain(tx: Tx) {
    !tx.bet && !tx.hasBroker
  }

  // ----- the simulation relation -----

  ghost predicate StatesMatch(states: Accounts, bank: Bank) {
    forall a | a in states :: states[a].balance == Bal(bank, a)
  }

  /** Every balance a leader is responsible for is the ledger's. */
  ghost predicate ShardMatches(maps: seq<Placement>, n: nat, s: ShardId, sh: Shard, bank: Bank)
    requires n > 0 && ExtractCount(sh) <= |maps|
  {
    && (forall a | Owns(maps, n, s, sh, a) :: BalanceOf(sh.accounts, a) == Bal(bank, a))
    && (forall p | p in sh.collected :: StatesMatch(sh.collected[p].states, bank))
    && (sh.phase.Merged? ==> StatesMatch(sh.phase.msg.states, bank))
  }

  ghost predicate XferMatches(xfer: seq<Xfer>, bank: Bank) {
    forall i | 0 <= i < |xfer| :: StatesMatch(xfer[i].states, bank)
  }

  ghost predicate ShardMatchesAt(g: System, s: ShardId, bank: Bank)
    requires Shape(g) && s < g.n
  {
    ExtractCount(g.shards[s]) <= |g.maps| && ShardMatches(g.maps, g.n, s, g.shards[s], bank)
  }

  ghost predicate BalancesMatch(g: System, bank: Bank)
    requires Shape(g)
  {
    && (forall s | 0 <= s < g.n :: ShardMatchesAt(g, s, bank))
    && (forall s, t | 0 <= s < g.n && 0 <= t < g.n && s != t :: XferMatches(g.xfers[s][t], bank))
  }

  ghost predicate Sim(g: System, bank: Bank) {
    && Inv(g)
    && BankInv(bank)
    && Bag(g) == bank.live
    && (forall tx | tx in bank.live :: Plain(tx))
    && (forall s | 0 <= s < g.n :: g.shards[s].book == map[])
    && BalancesMatch(g, bank)
  }

  // ----- steps of the ledger -----

  ghost function ApplyAll(bank: Bank, pmap: Placement, n: nat, s: ShardId, body: seq<Tx>): Bank
    requires n > 0
  {
    if body == [] then bank
    else
      var last := |body| - 1;
      Apply(ApplyAll(bank, pmap, n, s, body[..last]), body[last], Place(pmap, n, body[last].recipient) != s)
  }

  /** What a step of the system is to the ledger: an injection submits a transaction, a
      committed block executes its transactions one by one, everything else is nothing. */
  ghost function BankStep(bank: Bank, g: System, act: Action): Bank
    requires Shape(g) && Enabled(g, act)
  {
    match act
    case Inject(tx) => Submit(bank, tx)
    case CommitBlock(s) => ApplyAll(bank, g.shards[s].pmap, g.n, s, g.shards[s].phase.body)
    case _ => bank
  }

  /** Injected transactions are plain transfers with fresh hashes. */
  predicate PlainStep(bank: Bank, act: Action) {
    act.Inject? ==> Plain(act.tx) && act.tx.hash !in bank.seen
  }

  // ----- a block on the ledger -----

  /** Every transaction of the body is live when its turn comes, and the body is replaced by
      its relayed halves. */
  lemma {:induction false} BodyApplies(bank: Bank, pmap: Placement, n: nat, s: ShardId, body: seq<Tx>)
    requires n > 0 && BankInv(bank) && multiset(body) <= bank.live
    requires forall i | 0 <= i < |body| && body[i].relayed :: Place(pmap, n, body[i].recipient) == s
    ensures BankInv(ApplyAll(bank, pmap, n, s, body))
    ensures ApplyAll(bank, pmap, n, s, body).live + multiset(body) == bank.live + multiset(Crossing(body, pmap, n, s))
  {
    hide BankInv;
    if body != [] {
      var last := |body| - 1;
      var tx := body[last];
      var before := ApplyAll(bank, pmap, n, s, body[..last]);
      assert body == body[..last] + [tx];
      assert multiset(body) == multiset(body[..last]) + multiset{tx};
      BodyApplies(bank, pmap, n, s, body[..last]);
      var out := multiset(Crossing(body[..last], pmap, n, s));
      StillThere(before.live, bank.live, multiset(body[..last]), out, tx);
      ApplyKeepsInv(before, tx, Place(pmap, n, tx.recipient) != s);
      ApplyBag(before, tx, Place(pmap, n, tx.recipient) != s);
      hide Apply;
      LiveStep(before.live, bank.live, multiset(body[..last]), out, tx);
    }
  }

  lemma StillThere(now: multiset<Tx>, live: multiset<Tx>, done: multiset<Tx>, out: multiset<Tx>, tx: Tx)
    requires now + done == live + out && done + multiset{tx} <= live
    ensures tx in now
  {
    assert (now + done)[tx] == (live + out)[tx];
  }

  lemma ApplyBag(bank: Bank, tx: Tx, cross: bool)
    requires tx in bank.live && (tx.relayed ==> !cross)
    ensures Apply(bank, tx, cross).live == bank.live - multiset{tx}
            + (if cross then multiset{Relayed(tx)} else multiset{})
  {
  }

  lemma LiveStep(now: multiset<Tx>, live: multiset<Tx>, done: multiset<Tx>, out: multiset<Tx>, tx: Tx)
    requires now + done == live + out && tx in now
    ensures (now - multiset{tx} + multiset{Relayed(tx)}) + (done + multiset{tx}) == live + (out + multiset{Relayed(tx)})
    ensures (now - multiset{tx} + multiset{}) + (done + multiset{tx}) == live + out
  {
    forall x
      ensures (now - multiset{tx} + multiset{Relayed(tx)} + (done + multiset{tx}))[x] ==
              (live + (out + multiset{Relayed(tx)}))[x]
      ensures (now - multiset{tx} + multiset{} + (done + multiset{tx}))[x] == (live + out)[x]
    {
      assert (now + done)[x] == (live + out)[x];
    }
  }

  // ----- a block on the accounts -----

  ghost predicate LocalMatch(accounts: Accounts, bank: Bank, pmap: Placement, n: nat, s: ShardId)
    requires n > 0
  {
    forall a | Place(pmap, n, a) == s :: BalanceOf(accounts, a) == Bal(bank, a)
  }

  /** Changing one local balance on both sides keeps them equal. */
  lemma MatchChange(accounts: Accounts, bank: Bank, bank': Bank, pmap: Placement, n: nat, s: ShardId,
                    a: Address, st: AccountState, v: int)
    requires n > 0 && LocalMatch(accounts, bank, pmap, n, s) && Place(pmap, n, a) == s
    requires st.balance == BalanceOf(accounts, a) + v && bank'.delta == Add(bank.delta, a, v)
    ensures LocalMatch(accounts[a := st], bank', pmap, n, s)
    ensures forall x | x != a :: Bal(bank', x) == Bal(bank, x)
  {
    forall x | Place(pmap, n, x) == s
      ensures BalanceOf(accounts[a := st], x) == Bal(bank', x)
    {
      assert BalanceOf(accounts, x) == Bal(bank, x);
    }
  }

  /** Only the gains of a bank matter for the balances. */
  lemma MatchDelta(accounts: Accounts, bank: Bank, bank': Bank, pmap: Placement, n: nat, s: ShardId)
    requires n > 0 && LocalMatch(accounts, bank, pmap, n, s) && bank'.delta == bank.delta
    ensures LocalMatch(accounts, bank', pmap, n, s)
    ensures forall x :: Bal(bank', x) == Bal(bank, x)
  {
    assert forall x :: Bal(bank', x) == Bal(bank, x);
  }

  lemma ExecCredit(env: Env, run: Run, i: nat, tx: Tx, bank: Bank, bank': Bank)
    requires env.n > 0 && Plain(tx) && Place(env.pmap, env.n, tx.recipient) == env.shard
    requires LocalMatch(run.accounts, bank, env.pmap, env.n, env.shard)
    requires bank'.delta == Add(bank.delta, tx.recipient, tx.value)
    ensures LocalMatch(Ledger.Credit(env, run, i, tx).accounts, bank', env.pmap, env.n, env.shard)
    ensures forall a | Place(env.pmap, env.n, a) != env.shard :: Bal(bank', a) == Bal(bank, a)
    ensures Ledger.Credit(env, run, i, tx).book == run.book
  {
    hide LocalMatch;
    var r := Read(run.accounts, tx.recipient, i);
    MatchChange(run.accounts, bank, bank', env.pmap, env.n, env.shard, tx.recipient,
                r.(balance := r.balance + tx.value), tx.value);
  }

  lemma ExecDebit(env: Env, run: Run, i: nat, tx: Tx, bank: Bank, bank': Bank) returns (run': Run)
    requires env.n > 0 && Plain(tx) && !tx.relayed && Place(env.pmap, env.n, tx.sender) == env.shard
    requires LocalMatch(run.accounts, bank, env.pmap, env.n, env.shard) && Bal(bank, tx.sender) >= tx.value
    requires bank'.delta == Add(bank.delta, tx.sender, -tx.value)
    ensures ExecTx(env, run, i, tx) == Ledger.Credit(env, run', i, tx) && run'.book == run.book
    ensures LocalMatch(run'.accounts, bank', env.pmap, env.n, env.shard)
    ensures forall a | Place(env.pmap, env.n, a) != env.shard :: Bal(bank', a) == Bal(bank, a)
  {
    assert BalanceOf(run.accounts, tx.sender) == Bal(bank, tx.sender);
    hide LocalMatch;
    var s := Read(run.accounts, tx.sender, i);
    run' := Run(run.accounts[tx.sender := s.(balance := s.balance - tx.value)], run.book, run.cnt + 1);
    MatchChange(run.accounts, bank, bank', env.pmap, env.n, env.shard, tx.sender, s.(balance := s.balance - tx.value),
                -tx.value);
  }

  /** Executing one transaction at the shard it belongs to does to the local balances what the
      ledger does, and the ledger touches no other balance. */
  lemma ExecOne(env: Env, run: Run, i: nat, tx: Tx, bank: Bank)
    requires env.n > 0 && Plain(tx) && Place(env.pmap, env.n, KeyOf(tx)) == env.shard
    requires LocalMatch(run.accounts, bank, env.pmap, env.n, env.shard)
    ensures var bank' := Apply(bank, tx, Place(env.pmap, env.n, tx.recipient) != env.shard);
            && LocalMatch(ExecTx(env, run, i, tx).accounts, bank', env.pmap, env.n, env.shard)
            && (forall a | Place(env.pmap, env.n, a) != env.shard :: Bal(bank', a) == Bal(bank, a))
            && ExecTx(env, run, i, tx).book == run.book
  {
    hide LocalMatch, Bal, Add;
    var cross := Place(env.pmap, env.n, tx.recipient) != env.shard;
    var bank' := Apply(bank, tx, cross);
    if tx.relayed {
      ExecCredit(env, run, i, tx, bank, bank');
    } else if Bal(bank, tx.sender) < tx.value {
      ExecUnfunded(env, run, i, tx, bank);
      MatchDelta(run.accounts, bank, bank', env.pmap, env.n, env.shard);
    } else if cross {
      var run1 := ExecDebit(env, run, i, tx, bank, bank');
    } else {
      var bank1 := bank.(delta := Add(bank.delta, tx.sender, -tx.value));
      var run1 := ExecDebit(env, run, i, tx, bank, bank1);
      ExecCredit(env, run1, i, tx, bank1, bank');
    }
  }

  lemma ExecUnfunded(env: Env, run: Run, i: nat, tx: Tx, bank: Bank)
    requires env.n > 0 && !tx.relayed && Place(env.pmap, env.n, tx.sender) == env.shard
    requires LocalMatch(run.accounts, bank, env.pmap, env.n, env.shard) && Bal(bank, tx.sender) < tx.value
    ensures ExecTx(env, run, i, tx) == run
  {
    assert BalanceOf(run.accounts, tx.sender) == Bal(bank, tx.sender);
  }

  lemma {:induction false} ExecAll(env: Env, run: Run, body: seq<Tx>, bank: Bank)
    requires env.n > 0
    requires forall i | 0 <= i < |body| :: Plain(body[i]) && Place(env.pmap, env.n, KeyOf(body[i])) == env.shard
    requires LocalMatch(run.accounts, bank, env.pmap, env.n, env.shard)
    ensures var bank' := ApplyAll(bank, env.pmap, env.n, env.shard, body);
            && LocalMatch(ExecTxs(env, run, body).accounts, bank', env.pmap, env.n, env.shard)
            && (forall a | Place(env.pmap, env.n, a) != env.shard :: Bal(bank', a) == Bal(bank, a))
            && ExecTxs(env, run, body).book == run.book
  {
    hide LocalMatch, Apply, ExecTx, Bal;
    if body != [] {
      var last := |body| - 1;
      ExecAll(env, run, body[..last], bank);
      ExecOne(env, ExecTxs(env, run, body[..last]), last, body[last],
              ApplyAll(bank, env.pmap, env.n, env.shard, body[..last]));
    }
  }

  lemma {:induction false} ExecBlock(env: Env, accounts: Accounts, body: seq<Tx>, bank: Bank)
    requires env.n > 0
    requires forall i | 0 <= i < |body| :: Plain(body[i]) && Place(env.pmap, env.n, KeyOf(body[i])) == env.shard
    requires LocalMatch(accounts, bank, env.pmap, env.n, env.shard)
    ensures var bank' := ApplyAll(bank, env.pmap, env.n, env.shard, body);
            && LocalMatch(Execute(env, accounts, map[], body).0, bank', env.pmap, env.n, env.shard)
            && (forall a | Place(env.pmap, env.n, a) != env.shard :: Bal(bank', a) == Bal(bank, a))
            && Execute(env, accounts, map[], body).1 == map[]
  {
    var run0 := Run(accounts, map[], 0);
    ExecAll(env, run0, body, bank);
    LedgerLaws.NoEffect(env, run0, body);
    var run := ExecTxs(env, run0, body);
    assert run.book - {env.height + 1} == map[];
    hide ExecTxs, ApplyAll, Bal;
  }
}
