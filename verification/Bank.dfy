/** The specification the sharded system is measured against: one ledger, without shards,
    migrations or messages. */
module Bank {
  import opened Core
  import opened Sums

  datatype Event = Debit(h: Hash) | Mint(h: Hash, value: int) | Credit(h: Hash)

  datatype Bank = Bank(
    delta: map<Address, int>,        // what each account has gained since the start
    live: multiset<Tx>,              // submitted and not finished; relayed ones are half done
    log: seq<Event>,
    seen: set<Hash>)

  const EmptyBank := Bank(map[], multiset{}, [], {})

  function Gain(delta: map<Address, int>, a: Address): int {
    if a in delta then delta[a] else 0
  }

  function Bal(bank: Bank, a: Address): int {
    INIT_BALANCE + Gain(bank.delta, a)
  }

  function Add(delta: map<Address, int>, a: Address, v: int): map<Address, int> {
    delta[a := Gain(delta, a) + v]
  }

  function Relayed(tx: Tx): Tx {
    tx.(relayed := true)
  }

  function Submit(bank: Bank, tx: Tx): Bank {
    bank.(live := bank.live + multiset{tx}, seen := bank.seen + {tx.hash})
  }

  /** Execute one transaction.  A cross-shard transfer is debited now and credited when its
      relayed half is executed; one whose sender is not funded is relayed all the same. */
  function Apply(bank: Bank, tx: Tx, cross: bool): Bank {
    var rest := bank.live - multiset{tx};
    var half := rest + multiset{Relayed(tx)};
    if tx.relayed then
      bank.(delta := Add(bank.delta, tx.recipient, tx.value), live := rest, log := bank.log + [Credit(tx.hash)])
    else if Bal(bank, tx.sender) < tx.value then
      if cross then bank.(live := half, log := bank.log + [Mint(tx.hash, tx.value)]) else bank.(live := rest)
    else if cross then
      bank.(delta := Add(bank.delta, tx.sender, -tx.value), live := half, log := bank.log + [Debit(tx.hash)])
    else
      bank.(delta := Add(Add(bank.delta, tx.sender, -tx.value), tx.recipient, tx.value), live := rest,
            log := bank.log + [Debit(tx.hash), Credit(tx.hash)])
  }

  // ----- totals -----

  ghost function BagValue(bag: multiset<Tx>): int {
    if bag == multiset{} then 0
    else
      var tx :| tx in bag;
      (if tx.relayed then tx.value else 0) + BagValue(bag - multiset{tx})
  }

  lemma {:induction false} BagValueRemove(bag: multiset<Tx>, tx: Tx)
    requires tx in bag
    ensures BagValue(bag) == (if tx.relayed then tx.value else 0) + BagValue(bag - multiset{tx})
    decreases |bag|
  {
    var first :| first in bag
              && BagValue(bag) == (if first.relayed then first.value else 0) + BagValue(bag - multiset{first});
    if first != tx {
      BagValueRemove(bag - multiset{first}, tx);
      BagValueRemove(bag - multiset{tx}, first);
      assert bag - multiset{first} - multiset{tx} == bag - multiset{tx} - multiset{first};
    }
  }

  lemma {:induction false} BagValueAdd(bag: multiset<Tx>, tx: Tx)
    ensures BagValue(bag + multiset{tx}) == BagValue(bag) + if tx.relayed then tx.value else 0
  {
    BagValueRemove(bag + multiset{tx}, tx);
    assert bag + multiset{tx} - multiset{tx} == bag;
  }

  function Minted(log: seq<Event>): int {
    if log == [] then 0
    else Minted(log[..|log| - 1]) + var e := log[|log| - 1]; if e.Mint? then e.value else 0
  }

  /** All gains, plus the value debited or minted but not yet credited. */
  ghost function Total(bank: Bank): int {
    MapSum(bank.delta) + BagValue(bank.live)
  }

  lemma {:induction false} AddTotal(delta: map<Address, int>, a: Address, v: int)
    ensures MapSum(Add(delta, a, v)) == MapSum(delta) + v
  {
    MapSumUpdate(delta, a, Gain(delta, a) + v);
  }

  lemma {:induction false} MintedStep(log: seq<Event>, e: Event)
    ensures Minted(log + [e]) == Minted(log) + if e.Mint? then e.value else 0
  {
    assert (log + [e])[..|log|] == log;
  }

  /** Executing a live transaction changes the total by exactly what it mints. */
  lemma ApplyConserves(bank: Bank, tx: Tx, cross: bool)
    requires tx in bank.live
    ensures Total(Apply(bank, tx, cross)) - Minted(Apply(bank, tx, cross).log)
            == Total(bank) - Minted(bank.log)
  {
    hide MapSum, BagValue, Minted;
    var rest := bank.live - multiset{tx};
    BagValueRemove(bank.live, tx);
    BagValueAdd(rest, Relayed(tx));
    if tx.relayed {
      AddTotal(bank.delta, tx.recipient, tx.value);
      MintedStep(bank.log, Credit(tx.hash));
    } else if Bal(bank, tx.sender) < tx.value {
      MintedStep(bank.log, Mint(tx.hash, tx.value));
    } else if cross {
      AddTotal(bank.delta, tx.sender, -tx.value);
      MintedStep(bank.log, Debit(tx.hash));
    } else {
      AddTotal(bank.delta, tx.sender, -tx.value);
      AddTotal(Add(bank.delta, tx.sender, -tx.value), tx.recipient, tx.value);
      MintedStep(bank.log, Debit(tx.hash));
      MintedStep(bank.log + [Debit(tx.hash)], Credit(tx.hash));
      assert bank.log + [Debit(tx.hash), Credit(tx.hash)] == bank.log + [Debit(tx.hash)] + [Credit(tx.hash)];
    }
  }

  // ----- each transaction once -----

  ghost predicate Opened(log: seq<Event>, h: Hash) {
    exists i :: 0 <= i < |log| && !log[i].Credit? && log[i].h == h
  }

  ghost predicate Credited(log: seq<Event>, h: Hash) {
    Credit(h) in log
  }

  /** Every transaction is debited (or minted) at most once and credited at most once, and
      never credited before it has been debited (or minted). */
  ghost predicate LogOk(log: seq<Event>) {
    && (forall i, j | 0 <= i < j < |log| && log[i].h == log[j].h :: !log[i].Credit? && log[j].Credit?)
    && (forall j | 0 <= j < |log| && log[j].Credit? :: Opened(log[..j], log[j].h))
  }

  /** No two live transactions share a hash; an unrelayed one has left no trace, a relayed
      one has been opened and not been credited. */
  ghost predicate LiveOk(bank: Bank) {
    && (forall tx | tx in bank.live :: bank.live[tx] == 1)
    && (forall x, y | x in bank.live && y in bank.live && x.hash == y.hash :: x == y)
    && (forall tx | tx in bank.live :: tx.hash in bank.seen)
    && (forall i | 0 <= i < |bank.log| :: bank.log[i].h in bank.seen)
    && (forall tx | tx in bank.live :: !Credited(bank.log, tx.hash) && (Opened(bank.log, tx.hash) <==> tx.relayed))
  }

  ghost predicate BankInv(bank: Bank) {
    && Total(bank) == Minted(bank.log)
    && LogOk(bank.log)
    && LiveOk(bank)
  }

  lemma OpenedMore(log: seq<Event>, e: Event, h: Hash)
    ensures Opened(log + [e], h) <==> Opened(log, h) || (!e.Credit? && e.h == h)
    ensures Credited(log + [e], h) <==> Credited(log, h) || e == Credit(h)
  {
    var log' := log + [e];
    if Opened(log, h) {
      var i :| 0 <= i < |log| && !log[i].Credit? && log[i].h == h;
      assert log'[i] == log[i];
    }
    assert log'[|log|] == e;
  }

  lemma Logged(log: seq<Event>, i: nat)
    requires i < |log|
    ensures if log[i].Credit? then Credited(log, log[i].h) else Opened(log, log[i].h)
  {
  }

  lemma LogMore(log: seq<Event>, e: Event)
    requires LogOk(log)
    requires if e.Credit? then Opened(log, e.h) && !Credited(log, e.h) else !Opened(log, e.h) && !Credited(log, e.h)
    ensures LogOk(log + [e])
  {
    var log' := log + [e];
    forall j | 0 <= j < |log'| && log'[j].Credit?
      ensures Opened(log'[..j], log'[j].h)
    {
      assert log'[..j] == log[..j];
      assert j == |log| ==> log[..j] == log;
    }
    forall i, j | 0 <= i < j < |log'| && log'[i].h == log'[j].h
      ensures !log'[i].Credit? && log'[j].Credit?
    {
      if j == |log| {
        Logged(log, i);
      }
    }
  }

  lemma SubmitKeepsInv(bank: Bank, tx: Tx)
    requires BankInv(bank) && !tx.relayed && tx.hash !in bank.seen
    ensures BankInv(Submit(bank, tx))
  {
    hide MapSum, BagValue, Minted, LogOk;
    BagValueAdd(bank.live, tx);
    var b := Submit(bank, tx);
    assert tx !in bank.live;
    assert !Opened(bank.log, tx.hash) && !Credited(bank.log, tx.hash);
    assert LiveOk(b);
  }

  /** Closing a live transaction: it leaves, and nothing else was logged under its hash. */
  lemma LiveCloses(bank: Bank, tx: Tx, log': seq<Event>, delta': map<Address, int>)
    requires LiveOk(bank) && tx in bank.live
    requires forall h | h != tx.hash ::
               (Opened(log', h) <==> Opened(bank.log, h)) && (Credited(log', h) <==> Credited(bank.log, h))
    requires forall i | 0 <= i < |log'| :: log'[i].h in bank.seen
    ensures LiveOk(bank.(live := bank.live - multiset{tx}, log := log', delta := delta'))
  {
    hide Opened, Credited;
    var live' := bank.live - multiset{tx};
    forall x | x in live'
      ensures x in bank.live && x != tx && x.hash != tx.hash && live'[x] == 1
    {
      assert bank.live[tx] == 1;
    }
  }

  /** Opening a live transaction: its relayed half takes its place. */
  lemma LiveOpens(bank: Bank, tx: Tx, e: Event, delta': map<Address, int>)
    requires LiveOk(bank) && tx in bank.live && !tx.relayed
    requires !e.Credit? && e.h == tx.hash
    ensures LiveOk(bank.(live := bank.live - multiset{tx} + multiset{Relayed(tx)}, log := bank.log + [e],
                         delta := delta'))
  {
    var log' := bank.log + [e];
    forall h
      ensures Opened(log', h) <==> Opened(bank.log, h) || h == tx.hash
      ensures Credited(log', h) <==> Credited(bank.log, h)
    {
      OpenedMore(bank.log, e, h);
    }
    LiveCloses(bank, tx, log', delta');
    hide Opened, Credited;
    var closed := bank.live - multiset{tx};
    assert bank.live[tx] == 1;
    assert forall x | x in closed :: x in bank.live && x != tx && x.hash != tx.hash;
  }

  lemma ApplyLive(bank: Bank, tx: Tx, cross: bool)
    requires LiveOk(bank) && LogOk(bank.log) && tx in bank.live
    ensures LiveOk(Apply(bank, tx, cross))
    ensures LogOk(Apply(bank, tx, cross).log)
  {
    hide LogOk, LiveOk;
    var bank' := Apply(bank, tx, cross);
    TraceOf(bank, tx);
    if tx.relayed {
      LogMore(bank.log, Credit(tx.hash));
      forall h
        ensures Opened(bank'.log, h) <==> Opened(bank.log, h)
        ensures Credited(bank'.log, h) <==> Credited(bank.log, h) || h == tx.hash
      {
        OpenedMore(bank.log, Credit(tx.hash), h);
      }
      LiveCloses(bank, tx, bank'.log, bank'.delta);
    } else if Bal(bank, tx.sender) < tx.value {
      if cross {
        LogMore(bank.log, Mint(tx.hash, tx.value));
        LiveOpens(bank, tx, Mint(tx.hash, tx.value), bank.delta);
      } else {
        LiveCloses(bank, tx, bank.log, bank.delta);
      }
    } else if cross {
      LogMore(bank.log, Debit(tx.hash));
      LiveOpens(bank, tx, Debit(tx.hash), bank'.delta);
    } else {
      LocalTransferLive(bank, tx);
    }
  }

  lemma TraceOf(bank: Bank, tx: Tx)
    requires LiveOk(bank) && tx in bank.live
    ensures tx.hash in bank.seen && forall i | 0 <= i < |bank.log| :: bank.log[i].h in bank.seen
    ensures !Credited(bank.log, tx.hash) && (Opened(bank.log, tx.hash) <==> tx.relayed)
  {
  }

  lemma LocalTransferLive(bank: Bank, tx: Tx)
    requires LiveOk(bank) && LogOk(bank.log) && tx in bank.live
    requires !tx.relayed && Bal(bank, tx.sender) >= tx.value
    ensures LiveOk(Apply(bank, tx, false))
    ensures LogOk(Apply(bank, tx, false).log)
  {
    hide LogOk, LiveOk, Opened, Credited;
    var bank' := Apply(bank, tx, false);
    assert bank'.log == bank.log + [Debit(tx.hash)] + [Credit(tx.hash)];
    TraceOf(bank, tx);
    TransferLog(bank.log, tx.hash);
    hide Apply;
    LiveCloses(bank, tx, bank'.log, bank'.delta);
  }

  /** A local transfer is debited and credited at once. */
  lemma TransferLog(log: seq<Event>, x: Hash)
    requires LogOk(log) && !Opened(log, x) && !Credited(log, x)
    ensures var log' := log + [Debit(x)] + [Credit(x)];
            && LogOk(log')
            && forall h ::
                 (Opened(log', h) <==> Opened(log, h) || h == x) && (Credited(log', h) <==> Credited(log, h) || h == x)
  {
    hide LogOk;
    var d, c := Debit(x), Credit(x);
    OpenedMore(log, d, x);
    LogMore(log, d);
    LogMore(log + [d], c);
    forall h
      ensures Opened(log + [d] + [c], h) <==> Opened(log, h) || h == x
      ensures Credited(log + [d] + [c], h) <==> Credited(log, h) || h == x
    {
      OpenedMore(log, d, h);
      OpenedMore(log + [d], c, h);
    }
  }

  /** The single ledger conserves money and handles every transaction once. */
  lemma ApplyKeepsInv(bank: Bank, tx: Tx, cross: bool)
    requires BankInv(bank) && tx in bank.live
    ensures BankInv(Apply(bank, tx, cross))
  {
    hide LogOk, LiveOk, Total, Apply, Minted;
    ApplyConserves(bank, tx, cross);
    ApplyLive(bank, tx, cross);
  }
}
