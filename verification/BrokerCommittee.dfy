/** The broker committee as a program, and the worker's sorting of executed legs. */
module BrokerCommittee {
  import opened Core
  import opened BrokerLegs

  /** Transactions of one class, in order. */
  function OfClass(body: seq<Tx>, c: Class): seq<Tx> {
    if body == [] then []
    else OfClass(body[..|body| - 1], c) + if ClassOf(body[|body| - 1]) == c then [body[|body| - 1]] else []
  }

  /** The worker's report on a block: every transaction in exactly one of three lists, by class. */
  method Classify(body: seq<Tx>) returns (inner: seq<Tx>, broker1: seq<Tx>, broker2: seq<Tx>)
    ensures inner == OfClass(body, Inner) && broker1 == OfClass(body, Broker1) && broker2 == OfClass(body, Broker2)
    ensures multiset(inner) + multiset(broker1) + multiset(broker2) == multiset(body)
  {
    inner, broker1, broker2 := [], [], [];
    for i := 0 to |body|
      invariant inner == OfClass(body[..i], Inner) && broker1 == OfClass(body[..i], Broker1)
                && broker2 == OfClass(body[..i], Broker2)
    {
      var tx := body[i];
      var isInner := tx.rawHash == None;
      var isBroker1 := !isInner && tx.originalSender == Some(tx.sender);
      var isBroker2 := !isInner && tx.finalRecipient == Some(tx.recipient);
      assert body[..i + 1][..i] == body[..i];
      if isBroker2 {
        broker2 := broker2 + [tx];
      } else if isBroker1 {
        broker1 := broker1 + [tx];
      } else {
        inner := inner + [tx];
      }
    }
    assert body[..|body|] == body;
    ClassesCover(body);
  }

  /** Every transaction is in exactly one list. */
  ghost predicate Covered(body: seq<Tx>) {
    multiset(OfClass(body, Inner)) + multiset(OfClass(body, Broker1)) + multiset(OfClass(body, Broker2))
    == multiset(body)
  }

  lemma {:induction false} ClassesCover(body: seq<Tx>)
    ensures Covered(body)
  {
    if body == [] {
      assert OfClass(body, Inner) == OfClass(body, Broker1) == OfClass(body, Broker2) == [];
    } else {
      hide Covered;
      ClassesCover(body[..|body| - 1]);
      CoverStep(body);
    }
  }

  lemma CoverStep(body: seq<Tx>)
    requires body != [] && Covered(body[..|body| - 1])
    ensures Covered(body)
  {
    hide ClassOf, OfClass;
    var last := |body| - 1;
    LastClass(body, Inner);
    LastClass(body, Broker1);
    LastClass(body, Broker2);
    assert body == body[..last] + [body[last]];
    OneMore(OfClass(body[..last], Inner), OfClass(body[..last], Broker1), OfClass(body[..last], Broker2),
            body[..last], body[last],
            OfClass(body, Inner), OfClass(body, Broker1), OfClass(body, Broker2), body, ClassOf(body[last]));
  }

  lemma {:induction false} LastClass(body: seq<Tx>, c: Class)
    requires body != []
    ensures var last := |body| - 1;
            OfClass(body, c)
            == if ClassOf(body[last]) == c then OfClass(body[..last], c) + [body[last]] else OfClass(body[..last], c)
  {
  }

  lemma OneMore<T>(a: seq<T>, b: seq<T>, c: seq<T>, s: seq<T>, x: T, a': seq<T>, b': seq<T>, c': seq<T>, s': seq<T>,
                   k: Class)
    requires multiset(a) + multiset(b) + multiset(c) == multiset(s) && s' == s + [x]
    requires a' == if k == Inner then a + [x] else a
    requires b' == if k == Broker1 then b + [x] else b
    requires c' == if k == Broker2 then c + [x] else c
    ensures multiset(a') + multiset(b') + multiset(c') == multiset(s')
  {
  }

  // ----- dealing -----

  /** A transfer needs a broker when it crosses shards and neither end is a broker. */
  predicate NeedsBroker(tx: Tx, brokers: seq<Address>, n: nat)
    requires n > 0
  {
    Addr2Shard(tx.recipient, n) != Addr2Shard(tx.sender, n) && tx.recipient !in brokers && tx.sender !in brokers
  }

  function RawMegsOf(txs: seq<Tx>, brokers: seq<Address>, n: nat): (megs: seq<RawMeg>)
    requires n > 0 && brokers != []
    ensures |megs| <= |txs|
  {
    if txs == [] then []
    else
      var tx := txs[|txs| - 1];
      RawMegsOf(txs[..|txs| - 1], brokers, n) + if NeedsBroker(tx, brokers, n) then [RawMeg(tx, brokers[0])] else []
  }

  function Marked(tx: Tx, brokers: seq<Address>): Tx {
    if tx.recipient in brokers || tx.sender in brokers
    then tx.(hasBroker := true, senderIsBroker := tx.sender in brokers)
    else tx
  }

  function DirectOf(txs: seq<Tx>, brokers: seq<Address>, n: nat): seq<Tx>
    requires n > 0
  {
    if txs == [] then []
    else
      var tx := txs[|txs| - 1];
      DirectOf(txs[..|txs| - 1], brokers, n) + if NeedsBroker(tx, brokers, n) then [] else [Marked(tx, brokers)]
  }

  /** In fields: the two ends have different default shards and neither is a broker. */
  ghost predicate CrossesUnbrokered(tx: Tx, brokers: seq<Address>, n: nat)
    requires n > 0
  {
    Addr2Shard(tx.sender, n) != Addr2Shard(tx.recipient, n) && tx.sender !in brokers && tx.recipient !in brokers
  }

  ghost predicate DealtAs(tx: Tx, m: RawMeg, broker: Address) {
    m.tx == tx && m.broker == broker
  }

  /** A returned transaction is the original, except that with a broker at one of its ends it is
      marked as brokered, and as sent by a broker exactly when its sender is one. */
  ghost predicate ReturnedAs(tx: Tx, out: Tx, brokers: seq<Address>) {
    && out == tx.(hasBroker := out.hasBroker, senderIsBroker := out.senderIsBroker)
    && (if tx.sender in brokers || tx.recipient in brokers
        then out.hasBroker && (out.senderIsBroker <==> tx.sender in brokers)
        else out == tx)
  }

  /** Increasing positions of a batch, exactly those whose transactions cross shards without a
      broker, or exactly the others. */
  ghost predicate Positions(at: seq<nat>, txs: seq<Tx>, brokers: seq<Address>, n: nat, dealt: bool)
    requires n > 0
  {
    && (forall i, j | 0 <= i < j < |at| :: at[i] < at[j])
    && (forall i | 0 <= i < |at| :: at[i] < |txs|)
    && forall j: nat | j < |txs| :: j in at <==> CrossesUnbrokered(txs[j], brokers, n) == dealt
  }

  lemma PositionsStep(at: seq<nat>, txs: seq<Tx>, brokers: seq<Address>, n: nat, dealt: bool)
    requires n > 0 && txs != [] && Positions(at, txs[..|txs| - 1], brokers, n, dealt)
    ensures var last := |txs| - 1;
            Positions(if CrossesUnbrokered(txs[last], brokers, n) == dealt then at + [last] else at,
                txs, brokers, n, dealt)
  {
    hide CrossesUnbrokered;
    var last := |txs| - 1;
    var at' := if CrossesUnbrokered(txs[last], brokers, n) == dealt then at + [last] else at;
    forall j: nat | j < |txs|
      ensures j in at' <==> CrossesUnbrokered(txs[j], brokers, n) == dealt
    {
      if j < last {
        assert txs[..last][j] == txs[j];
        assert j in at <==> CrossesUnbrokered(txs[j], brokers, n) == dealt;
      }
    }
  }

  /** The raw messages are the transactions at these positions. */
  ghost predicate DealtFrom(at: seq<nat>, txs: seq<Tx>, megs: seq<RawMeg>, broker: Address) {
    |at| == |megs| && forall i | 0 <= i < |at| :: at[i] < |txs| && DealtAs(txs[at[i]], megs[i], broker)
  }

  /** The returned transactions are those at these positions. */
  ghost predicate ReturnedFrom(at: seq<nat>, txs: seq<Tx>, out: seq<Tx>, brokers: seq<Address>) {
    |at| == |out| && forall i | 0 <= i < |at| :: at[i] < |txs| && ReturnedAs(txs[at[i]], out[i], brokers)
  }

  lemma DealtMore(at: seq<nat>, txs: seq<Tx>, megs: seq<RawMeg>, broker: Address)
    requires txs != [] && DealtFrom(at, txs[..|txs| - 1], megs, broker)
    ensures DealtFrom(at, txs, megs, broker)
    ensures DealtFrom(at + [|txs| - 1], txs, megs + [RawMeg(txs[|txs| - 1], broker)], broker)
  {
    forall i | 0 <= i < |at|
      ensures at[i] < |txs| && DealtAs(txs[at[i]], megs[i], broker)
    {
      assert txs[..|txs| - 1][at[i]] == txs[at[i]];
    }
  }

  lemma ReturnedMore(at: seq<nat>, txs: seq<Tx>, out: seq<Tx>, brokers: seq<Address>)
    requires txs != [] && ReturnedFrom(at, txs[..|txs| - 1], out, brokers)
    ensures ReturnedFrom(at, txs, out, brokers)
    ensures ReturnedFrom(at + [|txs| - 1], txs, out + [Marked(txs[|txs| - 1], brokers)], brokers)
  {
    MarkedInFields(txs[|txs| - 1], brokers);
    hide ReturnedAs, Marked;
    forall i | 0 <= i < |at|
      ensures at[i] < |txs| && ReturnedAs(txs[at[i]], out[i], brokers)
    {
      assert txs[..|txs| - 1][at[i]] == txs[at[i]];
    }
  }

  /** A transaction of the batch becomes a raw message, in order, if and only if its ends have
      different default shards and neither is a broker. */
  lemma {:induction false} DealtInFields(txs: seq<Tx>, brokers: seq<Address>, n: nat) returns (at: seq<nat>)
    requires n > 0 && brokers != []
    ensures Positions(at, txs, brokers, n, true) && DealtFrom(at, txs, RawMegsOf(txs, brokers, n), brokers[0])
  {
    at := [];
    if txs != [] {
      var last := |txs| - 1;
      at := DealtInFields(txs[..last], brokers, n);
      PositionsStep(at, txs, brokers, n, true);
      BatchStep(txs, brokers, n);
      DealtMore(at, txs, RawMegsOf(txs[..last], brokers, n), brokers[0]);
      hide Positions, DealtFrom, RawMegsOf, DirectOf, CrossesUnbrokered;
      if CrossesUnbrokered(txs[last], brokers, n) {
        at := at + [last];
      }
    }
  }

  /** Every other one is returned, in order, with nothing but its broker marks changed. */
  lemma {:induction false} ReturnedInFields(txs: seq<Tx>, brokers: seq<Address>, n: nat) returns (at: seq<nat>)
    requires n > 0 && brokers != []
    ensures Positions(at, txs, brokers, n, false) && ReturnedFrom(at, txs, DirectOf(txs, brokers, n), brokers)
  {
    at := [];
    if txs != [] {
      var last := |txs| - 1;
      at := ReturnedInFields(txs[..last], brokers, n);
      PositionsStep(at, txs, brokers, n, false);
      BatchStep(txs, brokers, n);
      ReturnedMore(at, txs, DirectOf(txs[..last], brokers, n), brokers);
      hide Positions, ReturnedFrom, RawMegsOf, DirectOf, Marked, CrossesUnbrokered;
      if !CrossesUnbrokered(txs[last], brokers, n) {
        at := at + [last];
      }
    }
  }

  lemma BatchStep(txs: seq<Tx>, brokers: seq<Address>, n: nat)
    requires n > 0 && brokers != [] && txs != []
    ensures var rest, tx := txs[..|txs| - 1], txs[|txs| - 1];
            var megs, direct := RawMegsOf(rest, brokers, n), DirectOf(rest, brokers, n);
            if CrossesUnbrokered(tx, brokers, n)
            then RawMegsOf(txs, brokers, n) == megs + [RawMeg(tx, brokers[0])] && DirectOf(txs, brokers, n) == direct
            else RawMegsOf(txs, brokers, n) == megs && DirectOf(txs, brokers, n) == direct + [Marked(tx, brokers)]
  {
    hide Addr2Shard, Marked;
  }

  lemma MarkedInFields(tx: Tx, brokers: seq<Address>)
    ensures ReturnedAs(tx, Marked(tx, brokers), brokers)
  {
  }

  function HashesOf(txs: seq<Tx>): seq<Hash> {
    seq(|txs|, i requires 0 <= i < |txs| => txs[i].hash)
  }

  function RawHashes(megs: seq<RawMeg>): seq<Hash> {
    seq(|megs|, i requires 0 <= i < |megs| => megs[i].tx.hash)
  }

  /** Every transaction of the batch is dealt or returned, and none twice. */
  lemma {:induction false} BatchCovered(txs: seq<Tx>, brokers: seq<Address>, n: nat)
    requires n > 0 && brokers != []
    ensures multiset(RawHashes(RawMegsOf(txs, brokers, n))) + multiset(HashesOf(DirectOf(txs, brokers, n)))
            == multiset(HashesOf(txs))
  {
    if txs != [] {
      var rest, tx := txs[..|txs| - 1], txs[|txs| - 1];
      BatchCovered(rest, brokers, n);
      BatchStep(txs, brokers, n);
      LastHash(txs);
      LastHash(DirectOf(rest, brokers, n) + [Marked(tx, brokers)]);
      LastRawHash(RawMegsOf(rest, brokers, n), RawMeg(tx, brokers[0]));
      var direct := DirectOf(rest, brokers, n) + [Marked(tx, brokers)];
      assert direct[..|direct| - 1] == DirectOf(rest, brokers, n);
      hide RawMegsOf, DirectOf, CrossesUnbrokered, HashesOf, RawHashes;
    }
  }

  lemma LastRawHash(megs: seq<RawMeg>, m: RawMeg)
    ensures RawHashes(megs + [m]) == RawHashes(megs) + [m.tx.hash]
  {
  }

  lemma LastHash(txs: seq<Tx>)
    requires txs != []
    ensures HashesOf(txs) == HashesOf(txs[..|txs| - 1]) + [txs[|txs| - 1].hash]
  {
  }

  /** The first legs, and the second legs, of a list of transfers. */
  function Legs1(megs: seq<RawMeg>, hashes: seq<Hash>): seq<Tx>
    requires |hashes| >= |megs|
  {
    seq(|megs|, i requires 0 <= i < |megs| => Leg1(megs[i], hashes[i]))
  }

  function Legs2(megs: seq<RawMeg>, broker: Address, hashes: seq<Hash>): seq<Tx>
    requires |hashes| >= |megs|
  {
    seq(|megs|, i requires 0 <= i < |megs| => Leg2(megs[i], broker, hashes[i]))
  }

  /** A transfer that needs a broker has no broker at either end, so its first leg is recognised. */
  lemma {:induction false} DealtLegsAreRecognised(txs: seq<Tx>, brokers: seq<Address>, n: nat, hashes: seq<Hash>,
      i: nat)
    requires n > 0 && brokers != [] && |hashes| >= |RawMegsOf(txs, brokers, n)| && i < |RawMegsOf(txs, brokers, n)|
    ensures var m := RawMegsOf(txs, brokers, n)[i];
            && m.tx in txs && m.broker == brokers[0] && m.tx.sender !in brokers && m.tx.recipient !in brokers
            && ClassOf(Legs1(RawMegsOf(txs, brokers, n), hashes)[i]) == Broker1
            && ClassOf(Legs2(RawMegsOf(txs, brokers, n), brokers[0], hashes)[i]) == Broker2
  {
    DealtNeedBroker(txs, brokers, n, i);
  }

  lemma {:induction false} DealtNeedBroker(txs: seq<Tx>, brokers: seq<Address>, n: nat, i: nat)
    requires n > 0 && brokers != [] && i < |RawMegsOf(txs, brokers, n)|
    ensures var m := RawMegsOf(txs, brokers, n)[i];
            m.tx in txs && m.broker == brokers[0] && NeedsBroker(m.tx, brokers, n)
  {
    var last := |txs| - 1;
    if i < |RawMegsOf(txs[..last], brokers, n)| {
      DealtNeedBroker(txs[..last], brokers, n, i);
    }
  }

  lemma {:induction false} AcceptedNext(rawMegs: set<RawMeg>, cs: seq<Confirm>, i: nat)
    requires i < |cs|
    ensures if cs[i].meg in rawMegs then
              && Accepted(rawMegs, cs[i..]) == [cs[i]] + Accepted(rawMegs, cs[i + 1..])
              && Accepted(rawMegs, cs[i..])[1..] == Accepted(rawMegs, cs[i + 1..])
              && MegsOf(Accepted(rawMegs, cs[i..])) == [cs[i].meg] + MegsOf(Accepted(rawMegs, cs[i + 1..]))
            else Accepted(rawMegs, cs[i..]) == Accepted(rawMegs, cs[i + 1..])
  {
    assert cs[i..][1..] == cs[i + 1..];
  }

  class BrokerCommitteeMod {
    const shardNum: nat
    const brokerAddress: seq<Address>
    var confirm1Pool: map<Hash, RawMeg>
    var confirm2Pool: map<Hash, RawMeg>
    var brokerRawMegs: set<RawMeg>
    var rawTx2BrokerTx: map<Hash, seq<Hash>>

    constructor (n: nat, brokers: seq<Address>)
      requires n > 0 && brokers != []
      ensures shardNum == n && brokerAddress == brokers && View() == Desk(map[], map[], {}, map[])
    {
      shardNum, brokerAddress := n, brokers;
      confirm1Pool, confirm2Pool, brokerRawMegs, rawTx2BrokerTx := map[], map[], {}, map[];
    }

    ghost function View(): Desk
      reads this
    {
      Desk(confirm1Pool, confirm2Pool, brokerRawMegs, rawTx2BrokerTx)
    }

    method IsBroker(address: Address) returns (yes: bool)
      ensures yes <==> address in brokerAddress
    {
      for i := 0 to |brokerAddress|
        invariant address !in brokerAddress[..i]
      {
        if brokerAddress[i] == address {
          return true;
        }
      }
      return false;
    }

    /** Splits a batch: direct transactions are returned, the others become first legs. */
    method DealTxByBroker(txs: seq<Tx>, hashes: seq<Hash>) returns (itxs: seq<Tx>, sent: seq<Tx>)
      requires shardNum > 0 && brokerAddress != [] && |hashes| >= |txs|
      modifies `brokerRawMegs, `confirm1Pool
      ensures View() == Issue(old(View()), RawMegsOf(txs, brokerAddress, shardNum), hashes)
      ensures itxs == DirectOf(txs, brokerAddress, shardNum)
      ensures sent == Legs1(RawMegsOf(txs, brokerAddress, shardNum), hashes)
    {
      itxs := [];
      var megs: seq<RawMeg> := [];
      for i := 0 to |txs|
        invariant itxs == DirectOf(txs[..i], brokerAddress, shardNum)
                  && megs == RawMegsOf(txs[..i], brokerAddress, shardNum)
        invariant View() == old(View())
      {
        var tx := txs[i];
        assert txs[..i + 1][..i] == txs[..i];
        var recipientIsBroker := IsBroker(tx.recipient);
        var senderIsBroker := IsBroker(tx.sender);
        if Addr2Shard(tx.recipient, shardNum) != Addr2Shard(tx.sender, shardNum)
           && !recipientIsBroker && !senderIsBroker {
          megs := megs + [RawMeg(tx, brokerAddress[0])];
        } else {
          if recipientIsBroker || senderIsBroker {
            tx := tx.(hasBroker := true, senderIsBroker := senderIsBroker);
          }
          itxs := itxs + [tx];
        }
      }
      assert txs[..|txs|] == txs;
      sent := HandleBrokerRawMag(megs, hashes);
    }

    method HandleBrokerRawMag(megs: seq<RawMeg>, hashes: seq<Hash>) returns (sent: seq<Tx>)
      requires |hashes| >= |megs|
      modifies `brokerRawMegs, `confirm1Pool
      ensures View() == Issue(old(View()), megs, hashes) && sent == Legs1(megs, hashes)
    {
      for i := 0 to |megs|
        invariant brokerRawMegs == old(brokerRawMegs) + (set m | m in megs[..i]) && confirm1Pool == old(confirm1Pool)
      {
        brokerRawMegs := brokerRawMegs + {megs[i]};
        assert megs[..i + 1] == megs[..i] + [megs[i]];
      }
      assert megs[..|megs|] == megs;
      sent := HandleBrokerType1Mes(megs, hashes);
    }

    method HandleBrokerType1Mes(megs: seq<RawMeg>, hashes: seq<Hash>) returns (sent: seq<Tx>)
      requires |hashes| >= |megs|
      modifies `confirm1Pool
      ensures confirm1Pool == EnterAll(old(confirm1Pool), megs, hashes) && sent == Legs1(megs, hashes)
    {
      sent := [];
      for i := 0 to |megs|
        invariant sent == Legs1(megs[..i], hashes)
        invariant EnterAll(confirm1Pool, megs[i..], hashes[i..]) == EnterAll(old(confirm1Pool), megs, hashes)
      {
        sent := sent + [Leg1(megs[i], hashes[i])];
        confirm1Pool := confirm1Pool[hashes[i] := megs[i]];
        assert megs[i..][1..] == megs[i + 1..] && hashes[i..][1..] == hashes[i + 1..];
      }
      assert megs[..|megs|] == megs;
    }

    method HandleBrokerType2Mes(megs: seq<RawMeg>, hashes: seq<Hash>) returns (sent: seq<Tx>)
      requires |hashes| >= |megs| && brokerAddress != []
      modifies `confirm2Pool
      ensures confirm2Pool == EnterAll(old(confirm2Pool), megs, hashes) && sent == Legs2(megs, brokerAddress[0], hashes)
    {
      sent := [];
      for i := 0 to |megs|
        invariant sent == Legs2(megs[..i], brokerAddress[0], hashes)
        invariant EnterAll(confirm2Pool, megs[i..], hashes[i..]) == EnterAll(old(confirm2Pool), megs, hashes)
      {
        sent := sent + [Leg2(megs[i], brokerAddress[0], hashes[i])];
        confirm2Pool := confirm2Pool[hashes[i] := megs[i]];
        assert megs[i..][1..] == megs[i + 1..] && hashes[i..][1..] == hashes[i + 1..];
      }
      assert megs[..|megs|] == megs;
    }

    method Lookup(pool: map<Hash, RawMeg>, txs: seq<Tx>) returns (cs: seq<Confirm>)
      ensures cs == Found(pool, txs)
    {
      cs := [];
      for i := 0 to |txs|
        invariant cs + Found(pool, txs[i..]) == Found(pool, txs)
      {
        if txs[i].hash in pool {
          cs := cs + [Confirm(txs[i].hash, pool[txs[i].hash])];
        }
        assert txs[i..][1..] == txs[i + 1..];
      }
    }

    /** Handles a report of executed legs. */
    method CreateConfirm(txs: seq<Tx>, hashes: seq<Hash>) returns (sent: seq<Tx>)
      requires |hashes| >= |txs| && brokerAddress != []
      modifies `rawTx2BrokerTx, `confirm2Pool
      ensures View() == Report(old(View()), txs, hashes)
      ensures sent == Legs2(MegsOf(Accepted(old(brokerRawMegs), Found(old(confirm1Pool), txs))), brokerAddress[0],
                            hashes)
    {
      var confirm1s := Lookup(confirm1Pool, txs);
      var confirm2s := Lookup(confirm2Pool, txs);
      sent := [];
      if |confirm1s| != 0 {
        sent := HandleTx1ConfirmMag(confirm1s, hashes);
      }
      if |confirm2s| != 0 {
        HandleTx2ConfirmMag(confirm2s);
      }
    }

    method HandleTx1ConfirmMag(cs: seq<Confirm>, hashes: seq<Hash>) returns (sent: seq<Tx>)
      requires |hashes| >= |cs| && brokerAddress != []
      modifies `rawTx2BrokerTx, `confirm2Pool
      ensures View() == Confirm1(old(View()), Accepted(brokerRawMegs, cs), hashes)
      ensures sent == Legs2(MegsOf(Accepted(brokerRawMegs, cs)), brokerAddress[0], hashes)
    {
      var megs: seq<RawMeg> := [];
      ghost var all := Accepted(brokerRawMegs, cs);
      assert cs[0..] == cs;
      for i := 0 to |cs|
        invariant megs + MegsOf(Accepted(brokerRawMegs, cs[i..])) == MegsOf(all) && confirm2Pool == old(confirm2Pool)
        invariant AppendAll(rawTx2BrokerTx, Accepted(brokerRawMegs, cs[i..])) == AppendAll(old(rawTx2BrokerTx), all)
      {
        AcceptedNext(brokerRawMegs, cs, i);
        hide Accepted;
        if cs[i].meg in brokerRawMegs {
          rawTx2BrokerTx := Append(rawTx2BrokerTx, cs[i]);
          megs := megs + [cs[i].meg];
        }
      }
      assert cs[|cs|..] == [] && megs + [] == megs;
      assert megs == MegsOf(all) && rawTx2BrokerTx == AppendAll(old(rawTx2BrokerTx), all);
      sent := HandleBrokerType2Mes(megs, hashes);
    }

    method HandleTx2ConfirmMag(cs: seq<Confirm>)
      modifies `rawTx2BrokerTx
      ensures rawTx2BrokerTx == AppendAll(old(rawTx2BrokerTx), cs)
    {
      for i := 0 to |cs|
        invariant AppendAll(rawTx2BrokerTx, cs[i..]) == AppendAll(old(rawTx2BrokerTx), cs)
      {
        assert cs[i..][1..] == cs[i + 1..];
        rawTx2BrokerTx := Append(rawTx2BrokerTx, cs[i]);
      }
    }
  }
}
