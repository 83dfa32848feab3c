/** Conservation of money over runs of transfers: without bets nothing is staked and nothing is
    lost, so the ledger's total is exactly what was relayed although its sender could not pay. */
module FundedRuns {
  import opened Core
  import opened Sums
  import opened Ledger
  import opened Protocol
  import opened ProtocolInv
  import opened ProtocolSafety
  import opened Bags
  import opened Holders
  import opened Bank
  import opened Refinement
  import opened Conservation
  import opened Migration
  import opened ShardedLedger
  import opened MoneyRuns

  lemma {:induction false} PlainBooksNothing(env: Env, run: Run, txs: seq<Tx>)
    requires env.n > 0 && forall i | 0 <= i < |txs| :: Plain(txs[i])
    ensures ExecTxs(env, run, txs).book == run.book
  {
    if txs != [] {
      PlainBooksNothing(env, run, txs[..|txs| - 1]);
    }
  }

  lemma StepLosesNothing(g: System, act: Action, bank: Bank)
    requires Sim(g, bank) && Enabled(g, act)
    ensures StepLost(g, act) == 0
  {
    if act.CommitBlock? {
      BodyFacts(g, act.s, bank);
      OwnIsLocal(g, act.s, bank);
      hide Sim, ExecTxs, Lost;
      PlainBooksNothing(EnvAt(g, act.s), RunAt(g, act.s), g.shards[act.s].phase.body);
      NoBetsNoLoss(EnvAt(g, act.s), ExecTxs(EnvAt(g, act.s), RunAt(g, act.s), g.shards[act.s].phase.body));
    }
  }

  lemma NoBetsNoLoss(env: Env, run: Run)
    requires env.n > 0 && run.book == map[]
    ensures Lost(env, run) == 0
  {
  }

  lemma {:induction false} RunLosesNothing(states: seq<System>, acts: seq<Action>, n: nat, beta: nat, i: nat)
    requires n > 0 && IsRun(states, acts, n, beta) && PlainRun(states, acts, n, beta) && i < |states|
    ensures RunLost(states, acts, i) == 0
  {
    hide Sim, StepLost, Next, Enabled, Init, Shape, BankAt;
    if i > 0 {
      RunLosesNothing(states, acts, n, beta, i - 1);
      RunRefines(states, acts, n, beta, i - 1);
      StepLosesNothing(states[i - 1], acts[i - 1], BankAt(states, acts, n, beta, i - 1));
    }
  }

  /** Nothing is staked, and the balances of the system are those of the ledger. */
  lemma PlainAssets(g: System, bank: Bank)
    requires Sim(g, bank)
    ensures Inv(g) && Shape(g) && Assets(g) == MapSum(bank.delta) + BagValue(Bag(g))
  {
    SimParts(g, bank);
    SimTotals(g, bank);
    hide Sim, Inv, BankFor, MapSum, Bag, BagValue, OpenStakes, Holds, BalancesMatch, BankInv, Minted;
    forall a
      ensures Gain(BankFor(g).delta, a) == Gain(bank.delta, a)
    {
      assert Holds(g, a, Bal(bank, a));
      BankForBal(g, a, Bal(bank, a));
    }
    SameSum(BankFor(g).delta, bank.delta);
    NoStakes(g.shards);
  }

  /** In every state of a plain run, the gains of all accounts plus the value on its way are
      exactly the value that blocks have relayed unpaid. */
  lemma {:induction false} TotalIsUnpaid(states: seq<System>, acts: seq<Action>, n: nat, beta: nat, i: nat)
    requires n > 0 && IsRun(states, acts, n, beta) && PlainRun(states, acts, n, beta) && i < |states|
    ensures Inv(states[i]) && Shape(states[i])
    ensures MapSum(BankAt(states, acts, n, beta, i).delta) + BagValue(Bag(states[i])) == RunUnpaid(states, acts, i)
  {
    MoneyEquation(states, acts, n, beta, i);
    RunLosesNothing(states, acts, n, beta, i);
    RunRefines(states, acts, n, beta, i);
    hide Sim, BankAt, RunUnpaid, RunLost, PlainRun, Next, Enabled, Init, Assets;
    PlainAssets(states[i], BankAt(states, acts, n, beta, i));
  }

  /** With positive values, money is conserved up to a state of a plain run if and only if every
      block committed before it was funded: each of its cross-shard transfers could be paid from
      the balance its sender had, in the shard, when its turn came. */
  lemma {:induction false} ConservedIff(states: seq<System>, acts: seq<Action>, n: nat, beta: nat, i: nat)
    requires n > 0 && IsRun(states, acts, n, beta) && PlainRun(states, acts, n, beta) && PositiveRun(acts)
             && i < |states|
    ensures Shape(states[i])
    ensures MapSum(BankAt(states, acts, n, beta, i).delta) + BagValue(Bag(states[i])) == 0
            <==> RunFunded(states, acts, i)
  {
    TotalIsUnpaid(states, acts, n, beta, i);
    RunUnpaidIff(states, acts, n, beta, i);
    hide BankAt, RunUnpaid, RunFunded, PlainRun, Enabled, Next, Init;
  }
}
