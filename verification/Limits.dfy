/** Runs that show where conservation ends. */
module Limits {
  import opened Core
  import opened Protocol
  import opened ProtocolSafety
  import opened Bank
  import opened Refinement
  import opened ShardedLedger

  /** A transaction from account 0 (shard 0) to account 1 (shard 1) of two shards. */
  predicate Crosses(tx: Tx) {
    tx.sender == 0 && tx.recipient == 1 && !tx.relayed && !tx.hasBroker
  }

  /** A transfer, not a bet, of this kind. */
  function Transfer(value: int): Tx {
    Tx(0, 1, value, 7, false, false, false, None, None, None, false, 0, 0, 0)
  }

  const A0 := InitShard

  /** Shard 0 while the block with the transfer is agreed on, and after it. */
  function Proposing(tx: Tx): Shard {
    A0.(phase := Proposed([tx]))
  }

  /** Two shards before anything was relayed or mapped, shard 1 still in its first state. */
  ghost predicate Early(g: System, beta: nat, sh: Shard, inject: seq<Tx>) {
    && Shape(g) && g.n == 2 && g.shards == [sh, A0] && g.injects == [inject, []]
    && g.relays == Empty<Relay>(2) && g.arrived == Empty<nat>(2) && g.readies == Empty<nat>(2)
       && g.xfers == Empty<Xfer>(2)
    && g.maps == [] && g.modified == map[] && g.epoch == 0 && g.beta == beta
  }

  lemma InjectEarly(g: System, beta: nat, tx: Tx)
    requires Early(g, beta, A0, []) && Crosses(tx)
    ensures Enabled(g, Inject(tx)) && Early(Next(g, Inject(tx)), beta, A0, [tx])
  {
    assert [] + [tx] == [tx];
  }

  lemma DeliverEarly(g: System, beta: nat, tx: Tx)
    requires Early(g, beta, A0, [tx])
    ensures Enabled(g, DeliverInject(0, 0)) && Early(Next(g, DeliverInject(0, 0)), beta, A0.(queue := [tx]), [])
  {
    assert [tx][..0] + [tx][1..] == [];
    assert A0.queue + [tx] == [tx];
  }

  lemma ProposeEarly(g: System, beta: nat, tx: Tx)
    requires Early(g, beta, A0.(queue := [tx]), [])
    ensures Enabled(g, ProposeBlock(0, 1)) && Early(Next(g, ProposeBlock(0, 1)), beta, Proposing(tx), [])
  {
    assert [tx][..1] == [tx] && [tx][1..] == [];
  }

  /** The first steps: the transfer is injected and delivered, and a block with it is proposed. */
  lemma FirstSteps(tx: Tx, beta: nat) returns (states: seq<System>, acts: seq<Action>)
    requires Crosses(tx)
    ensures acts == [Inject(tx), DeliverInject(0, 0), ProposeBlock(0, 1)]
    ensures IsRun(states, acts, 2, beta)
    ensures Early(states[3], beta, Proposing(tx), [])
  {
    var g0 := Init(2, beta);
    assert Early(g0, beta, A0, []) by {
      assert g0.shards == [A0, A0] && g0.injects == [[], []];
    }
    hide Next, Enabled, Init;
    var g1 := Next(g0, Inject(tx));
    InjectEarly(g0, beta, tx);
    var g2 := Next(g1, DeliverInject(0, 0));
    DeliverEarly(g1, beta, tx);
    var g3 := Next(g2, ProposeBlock(0, 1));
    ProposeEarly(g2, beta, tx);
    states, acts := [g0, g1, g2, g3], [Inject(tx), DeliverInject(0, 0), ProposeBlock(0, 1)];
  }

  // ----- an unfunded cross-shard transfer -----

  /** The ledger along the run of FirstSteps and the commit of the block. */
  lemma {:induction false} BankOfCommit(states: seq<System>, acts: seq<Action>, tx: Tx)
    requires tx == Transfer(tx.value)
    requires acts == [Inject(tx), DeliverInject(0, 0), ProposeBlock(0, 1), CommitBlock(0)]
    requires IsRun(states, acts, 2, 1) && states[3].shards == [Proposing(tx), A0] && states[3].n == 2
    ensures PlainRun(states, acts, 2, 1)
    ensures BankAt(states, acts, 2, 1, 4) == Apply(Submit(EmptyBank, tx), tx, true)
  {
    hide Next, Init, Apply;
    var b1 := Submit(EmptyBank, tx);
    assert BankAt(states, acts, 2, 1, 0) == EmptyBank;
    assert BankAt(states, acts, 2, 1, 1) == b1;
    assert BankAt(states, acts, 2, 1, 2) == b1;
    assert BankAt(states, acts, 2, 1, 3) == b1;
    assert [tx][..0] == [];
    assert ApplyAll(b1, map[], 2, 0, [tx]) == Apply(b1, tx, true);
  }

  /** Conservation needs funded senders: an unfunded cross-shard transfer is not debited, yet
      it is relayed, and its value exists from then on. */
  lemma UnfundedRelayMints(v: int)
    requires v > INIT_BALANCE
    ensures exists states, acts ::
              && IsRun(states, acts, 2, 1) && |acts| == 4 && PlainRun(states, acts, 2, 1)
              && Total(BankAt(states, acts, 2, 1, 4)) == v
  {
    var tx := Transfer(v);
    var states0, acts0 := FirstSteps(tx, 1);
    var states := Extend(states0, acts0, 2, 1, CommitBlock(0));
    var acts := acts0 + [CommitBlock(0)];
    assert acts == [Inject(tx), DeliverInject(0, 0), ProposeBlock(0, 1), CommitBlock(0)];
    assert states[3] == states0[3];
    BankOfCommit(states, acts, tx);
    RunRefines(states, acts, 2, 1, 4);
    MintOnce(tx);
    hide IsRun, BankAt, PlainRun, Sim, Total;
    SimTotal(states[4], BankAt(states, acts, 2, 1, 4));
  }

  lemma SimTotal(g: System, bank: Bank)
    requires Sim(g, bank)
    ensures Total(bank) == Minted(bank.log)
  {
  }

  lemma MintOnce(tx: Tx)
    requires tx == Transfer(tx.value) && tx.value > INIT_BALANCE
    ensures Minted(Apply(Submit(EmptyBank, tx), tx, true).log) == tx.value
  {
    var log := Apply(Submit(EmptyBank, tx), tx, true).log;
    assert log == [Mint(7, tx.value)];
    assert log[..0] == [];
  }
}
