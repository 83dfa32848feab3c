/** Cross-shard transfers through a broker account: the committee splits a transfer into two legs
    and issues the second when the first is reported executed. */
module BrokerLegs {
  import opened Core

  /** A cross-shard transfer and the broker chosen for it.  Its digest is taken to be injective. */
  datatype RawMeg = RawMeg(tx: Tx, broker: Address)

  /** A leg that was reported: its hash and the transfer it belongs to. */
  datatype Confirm = Confirm(hash: Hash, meg: RawMeg)

  datatype Desk = Desk(
    confirm1: map<Hash, RawMeg>,
    confirm2: map<Hash, RawMeg>,
    rawMegs: set<RawMeg>,
    legs: map<Hash, seq<Hash>>)

  // ----- the two legs -----

  function Leg1(m: RawMeg, h: Hash): Tx {
    m.tx.(recipient := m.broker, hash := h, relayed := false, hasBroker := false, senderIsBroker := false, bet := true,
          originalSender := Some(m.tx.sender), finalRecipient := Some(m.tx.recipient), rawHash := Some(m.tx.hash))
  }

  function Leg2(m: RawMeg, broker: Address, h: Hash): Tx {
    m.tx.(sender := broker, hash := h, relayed := false, hasBroker := false, senderIsBroker := false, bet := true,
          originalSender := Some(m.tx.sender), finalRecipient := Some(m.tx.recipient), rawHash := Some(m.tx.hash))
  }

  datatype Class = Inner | Broker1 | Broker2

  /** The list a worker puts an executed transaction in. */
  function ClassOf(tx: Tx): Class {
    if tx.rawHash == None then Inner
    else if tx.finalRecipient == Some(tx.recipient) then Broker2
    else if tx.originalSender == Some(tx.sender) then Broker1
    else Inner
  }

  /** The shard a leg is injected into: the sender's, or the recipient's if the sender is a broker. */
  function LegShard(tx: Tx, brokers: set<Address>, n: nat): ShardId
    requires n > 0
  {
    Addr2Shard(if tx.sender in brokers then tx.recipient else tx.sender, n)
  }

  /** Both legs carry the value from the original sender to the broker and from a broker to the
      final recipient, each into the shard of the account that is not a broker.  The second leg is
      always recognised; the first exactly when the broker is not the final recipient. */
  lemma LegsCarryTransfer(m: RawMeg, broker: Address, brokers: set<Address>, n: nat, h1: Hash, h2: Hash)
    requires n > 0 && broker in brokers && m.broker in brokers && m.tx.sender !in brokers
    ensures var tx1 := Leg1(m, h1);
            var tx2 := Leg2(m, broker, h2);
            && tx1.value == tx2.value == m.tx.value
            && tx1.sender == m.tx.sender && tx1.recipient == m.broker && tx2.sender == broker
               && tx2.recipient == m.tx.recipient
            && LegShard(tx1, brokers, n) == Addr2Shard(m.tx.sender, n)
               && LegShard(tx2, brokers, n) == Addr2Shard(m.tx.recipient, n)
            && ClassOf(tx2) == Broker2
            && (ClassOf(tx1) == Broker1 <==> m.tx.recipient != m.broker)
  {
  }

  /** The other fields: each leg names the transfer and its two ends, and carries its bet. */
  lemma LegsInFields(m: RawMeg, broker: Address, h1: Hash, h2: Hash)
    ensures forall tx | tx == Leg1(m, h1) || tx == Leg2(m, broker, h2) ::
              && tx.rawHash == Some(m.tx.hash) && tx.originalSender == Some(m.tx.sender)
              && tx.finalRecipient == Some(m.tx.recipient)
              && tx.bet && tx.height == m.tx.height && tx.pairI == m.tx.pairI && tx.pairJ == m.tx.pairJ
              && !tx.relayed && !tx.hasBroker && !tx.senderIsBroker
    ensures Leg1(m, h1).hash == h1 && Leg2(m, broker, h2).hash == h2
  {
  }

  // ----- the confirmation lists -----

  function ListOf(legs: map<Hash, seq<Hash>>, r: Hash): seq<Hash> {
    if r in legs then legs[r] else []
  }

  function Append(legs: map<Hash, seq<Hash>>, c: Confirm): map<Hash, seq<Hash>> {
    legs[c.meg.tx.hash := ListOf(legs, c.meg.tx.hash) + [c.hash]]
  }

  function AppendAll(legs: map<Hash, seq<Hash>>, cs: seq<Confirm>): map<Hash, seq<Hash>>
    decreases |cs|
  {
    if cs == [] then legs else AppendAll(Append(legs, cs[0]), cs[1..])
  }

  /** Legs entered into a pool, under the hashes they get. */
  function EnterAll(pool: map<Hash, RawMeg>, megs: seq<RawMeg>, hashes: seq<Hash>): map<Hash, RawMeg>
    requires |hashes| >= |megs|
    decreases |megs|
  {
    if megs == [] then pool else EnterAll(pool[hashes[0] := megs[0]], megs[1..], hashes[1..])
  }

  function MegsOf(cs: seq<Confirm>): (ms: seq<RawMeg>)
    ensures |ms| == |cs|
  {
    if cs == [] then [] else [cs[0].meg] + MegsOf(cs[1..])
  }

  /** The reported transactions that a pool knows, in order. */
  function Found(pool: map<Hash, RawMeg>, txs: seq<Tx>): (cs: seq<Confirm>)
    ensures |cs| <= |txs|
  {
    if txs == [] then []
    else (if txs[0].hash in pool then [Confirm(txs[0].hash, pool[txs[0].hash])] else []) + Found(pool, txs[1..])
  }

  function Accepted(rawMegs: set<RawMeg>, cs: seq<Confirm>): (as_: seq<Confirm>)
    ensures |as_| <= |cs|
  {
    if cs == [] then [] else (if cs[0].meg in rawMegs then [cs[0]] else []) + Accepted(rawMegs, cs[1..])
  }

  /** A reported leg is confirmed if and only if a pool knows its hash and its transfer was dealt;
      all others are skipped. */
  lemma {:induction false} ConfirmedIff(pool: map<Hash, RawMeg>, rawMegs: set<RawMeg>, txs: seq<Tx>, c: Confirm)
    ensures c in Accepted(rawMegs, Found(pool, txs))
            <==> && c.hash in pool && c.meg == pool[c.hash] && c.meg in rawMegs
                 && exists tx :: tx in txs && tx.hash == c.hash
  {
    AcceptedMember(rawMegs, Found(pool, txs), c);
    FoundMember(pool, txs, c);
  }

  lemma {:induction false} FoundMember(pool: map<Hash, RawMeg>, txs: seq<Tx>, c: Confirm)
    ensures c in Found(pool, txs)
            <==> c.hash in pool && c.meg == pool[c.hash] && exists tx :: tx in txs && tx.hash == c.hash
  {
    if txs != [] {
      FoundMember(pool, txs[1..], c);
      assert txs == [txs[0]] + txs[1..];
      assert forall tx :: tx in txs <==> tx == txs[0] || tx in txs[1..];
    }
  }

  lemma {:induction false} AcceptedMember(rawMegs: set<RawMeg>, cs: seq<Confirm>, c: Confirm)
    ensures c in Accepted(rawMegs, cs) <==> c in cs && c.meg in rawMegs
  {
    if cs != [] {
      AcceptedMember(rawMegs, cs[1..], c);
      assert cs == [cs[0]] + cs[1..];
    }
  }

  /** First legs issued for new transfers. */
  function Issue(d: Desk, megs: seq<RawMeg>, hashes: seq<Hash>): Desk
    requires |hashes| >= |megs|
  {
    d.(rawMegs := d.rawMegs + (set m | m in megs), confirm1 := EnterAll(d.confirm1, megs, hashes))
  }

  /** First legs reported: each is listed and its second leg is issued. */
  function Confirm1(d: Desk, cs: seq<Confirm>, hashes: seq<Hash>): Desk
    requires |hashes| >= |cs|
  {
    d.(legs := AppendAll(d.legs, cs), confirm2 := EnterAll(d.confirm2, MegsOf(cs), hashes))
  }

  function Confirm2(d: Desk, cs: seq<Confirm>): Desk {
    d.(legs := AppendAll(d.legs, cs))
  }

  /** A report of executed legs; both pools are consulted before either is changed. */
  function Report(d: Desk, txs: seq<Tx>, hashes: seq<Hash>): Desk
    requires |hashes| >= |txs|
  {
    Confirm2(Confirm1(d, Accepted(d.rawMegs, Found(d.confirm1, txs)), hashes), Found(d.confirm2, txs))
  }

  // ----- the invariant -----

  /** The list of a transfer holds its first leg, and possibly its second leg after it. */
  ghost predicate ListOk(d: Desk, r: Hash, list: seq<Hash>) {
    && 1 <= |list| <= 2
    && list[0] in d.confirm1 && d.confirm1[list[0]].tx.hash == r
    && (|list| == 2 ==> list[1] in d.confirm2 && d.confirm2[list[1]].tx.hash == r)
  }

  ghost predicate ListsOk(d: Desk) {
    forall r | r in d.legs :: ListOk(d, r, d.legs[r])
  }

  /** No two hashes of a pool stand for the same transfer. */
  ghost predicate Single(pool: map<Hash, RawMeg>) {
    forall h, k | h in pool && k in pool && pool[h].tx.hash == pool[k].tx.hash :: h == k
  }

  ghost predicate PoolsOk(d: Desk) {
    && Single(d.confirm1) && Single(d.confirm2) && d.confirm1.Keys !! d.confirm2.Keys
    && (forall h | h in d.confirm1 :: d.confirm1[h] in d.rawMegs)
    && (forall m | m in d.rawMegs :: exists h :: h in d.confirm1 && d.confirm1[h] == m)
  }

  /** The second leg is issued exactly when the first is listed. */
  ghost predicate IssuedOk(d: Desk) {
    && (forall h | h in d.confirm2 :: d.confirm2[h] in d.rawMegs && d.confirm2[h].tx.hash in d.legs)
    && (forall r | r in d.legs :: exists h :: h in d.confirm2 && d.confirm2[h].tx.hash == r)
  }

  ghost predicate DeskOk(d: Desk) {
    ListsOk(d) && PoolsOk(d) && IssuedOk(d)
  }

  ghost predicate FreshHash(d: Desk, h: Hash) {
    h !in d.confirm1 && h !in d.confirm2
  }

  lemma IssueOne(d: Desk, m: RawMeg, h: Hash)
    requires DeskOk(d) && FreshHash(d, h) && forall k | k in d.rawMegs :: k.tx.hash != m.tx.hash
    ensures DeskOk(d.(rawMegs := d.rawMegs + {m}, confirm1 := d.confirm1[h := m]))
  {
    var d' := d.(rawMegs := d.rawMegs + {m}, confirm1 := d.confirm1[h := m]);
    IssuePools(d, m, h);
    ListsStay(d, d');
    hide PoolsOk, ListsOk;
  }

  lemma ListsStay(d: Desk, d': Desk)
    requires ListsOk(d) && d'.legs == d.legs && d'.confirm2 == d.confirm2
    requires forall h | h in d.confirm1 :: h in d'.confirm1 && d'.confirm1[h] == d.confirm1[h]
    ensures ListsOk(d')
  {
    forall r | r in d'.legs
      ensures ListOk(d', r, d'.legs[r])
    {
      assert ListOk(d, r, d.legs[r]);
    }
  }

  lemma IssuePools(d: Desk, m: RawMeg, h: Hash)
    requires PoolsOk(d) && FreshHash(d, h) && forall k | k in d.rawMegs :: k.tx.hash != m.tx.hash
    ensures PoolsOk(d.(rawMegs := d.rawMegs + {m}, confirm1 := d.confirm1[h := m]))
  {
    var pool := d.confirm1[h := m];
    forall k | k in d.rawMegs + {m}
      ensures exists x :: x in pool && pool[x] == k
    {
      if k == m {
        assert pool[h] == k;
      } else {
        var x :| x in d.confirm1 && d.confirm1[x] == k;
        assert pool[x] == k;
      }
    }
  }

  lemma Confirm1One(d: Desk, c: Confirm, h: Hash)
    requires DeskOk(d) && c.hash in d.confirm1 && d.confirm1[c.hash] == c.meg && FreshHash(d, h)
             && c.meg.tx.hash !in d.legs
    ensures DeskOk(d.(legs := Append(d.legs, c), confirm2 := d.confirm2[h := c.meg]))
  {
    var d' := d.(legs := Append(d.legs, c), confirm2 := d.confirm2[h := c.meg]);
    assert c.meg in d.rawMegs;
    hide PoolsOk, IssuedOk, ListsOk;
    IssueSecond(d, c, h);
    ListFirst(d, c, h);
  }

  lemma ListFirst(d: Desk, c: Confirm, h: Hash)
    requires ListsOk(d) && c.hash in d.confirm1 && d.confirm1[c.hash] == c.meg && FreshHash(d, h)
             && c.meg.tx.hash !in d.legs
    ensures ListsOk(d.(legs := Append(d.legs, c), confirm2 := d.confirm2[h := c.meg]))
  {
    var d' := d.(legs := Append(d.legs, c), confirm2 := d.confirm2[h := c.meg]);
    forall r | r in d'.legs
      ensures ListOk(d', r, d'.legs[r])
    {
      if r != c.meg.tx.hash {
        assert ListOk(d, r, d.legs[r]);
      }
    }
  }

  lemma IssueSecond(d: Desk, c: Confirm, h: Hash)
    requires PoolsOk(d) && IssuedOk(d) && c.meg in d.rawMegs && FreshHash(d, h) && c.meg.tx.hash !in d.legs
    ensures var d' := d.(legs := Append(d.legs, c), confirm2 := d.confirm2[h := c.meg]);
            PoolsOk(d') && IssuedOk(d')
  {
    var d' := d.(legs := Append(d.legs, c), confirm2 := d.confirm2[h := c.meg]);
    SecondPool(d, c, h);
    hide PoolsOk;
    assert d'.confirm2[h].tx.hash == c.meg.tx.hash;
    forall r | r in d'.legs
      ensures exists x :: x in d'.confirm2 && d'.confirm2[x].tx.hash == r
    {
      if r != c.meg.tx.hash {
        var x :| x in d.confirm2 && d.confirm2[x].tx.hash == r;
        assert d'.confirm2[x].tx.hash == r;
      }
    }
  }

  lemma SecondPool(d: Desk, c: Confirm, h: Hash)
    requires PoolsOk(d) && IssuedOk(d) && FreshHash(d, h) && c.meg.tx.hash !in d.legs
    ensures PoolsOk(d.(legs := Append(d.legs, c), confirm2 := d.confirm2[h := c.meg]))
  {
  }

  lemma Confirm2One(d: Desk, c: Confirm)
    requires DeskOk(d) && c.hash in d.confirm2 && d.confirm2[c.hash] == c.meg && |ListOf(d.legs, c.meg.tx.hash)| == 1
    ensures DeskOk(d.(legs := Append(d.legs, c)))
  {
    var d' := d.(legs := Append(d.legs, c));
    forall r | r in d'.legs
      ensures ListOk(d', r, d'.legs[r])
    {
      assert ListOk(d, r, d.legs[r]);
    }
  }

  // ----- batches -----

  ghost predicate AllFresh(d: Desk, hashes: seq<Hash>) {
    && (forall i | 0 <= i < |hashes| :: FreshHash(d, hashes[i]))
    && (forall i, j | 0 <= i < j < |hashes| :: hashes[i] != hashes[j])
  }

  /** Transfers that are new, with different hashes. */
  ghost predicate AllNew(d: Desk, megs: seq<RawMeg>) {
    && (forall i, m | 0 <= i < |megs| && m in d.rawMegs :: megs[i].tx.hash != m.tx.hash)
    && (forall i, j | 0 <= i < j < |megs| :: megs[i].tx.hash != megs[j].tx.hash)
  }

  /** Dealing a batch of new transfers keeps the desk in order and lists nothing. */
  lemma {:induction false} IssueKeeps(d: Desk, megs: seq<RawMeg>, hashes: seq<Hash>)
    requires DeskOk(d) && |hashes| >= |megs| && AllFresh(d, hashes) && AllNew(d, megs)
    ensures DeskOk(Issue(d, megs, hashes)) && Issue(d, megs, hashes).legs == d.legs
    decreases |megs|
  {
    if megs == [] {
      assert Issue(d, megs, hashes) == d;
    } else {
      var d1 := d.(rawMegs := d.rawMegs + {megs[0]}, confirm1 := d.confirm1[hashes[0] := megs[0]]);
      IssueOne(d, megs[0], hashes[0]);
      assert AllFresh(d1, hashes[1..]) && AllNew(d1, megs[1..]);
      assert d1.rawMegs + (set m | m in megs[1..]) == d.rawMegs + (set m | m in megs);
      hide DeskOk, AllFresh, AllNew;
      IssueKeeps(d1, megs[1..], hashes[1..]);
      assert Issue(d, megs, hashes) == Issue(d1, megs[1..], hashes[1..]);
    }
  }

  /** Different first legs, none of them listed yet. */
  ghost predicate NewFirst(d: Desk, cs: seq<Confirm>) {
    && (forall i | 0 <= i < |cs| ::
          cs[i].hash in d.confirm1 && d.confirm1[cs[i].hash] == cs[i].meg && cs[i].meg.tx.hash !in d.legs)
    && (forall i, j | 0 <= i < j < |cs| :: cs[i].hash != cs[j].hash)
  }

  /** Different second legs whose transfers have only the first listed. */
  ghost predicate NewSecond(d: Desk, cs: seq<Confirm>) {
    && (forall i | 0 <= i < |cs| ::
          cs[i].hash in d.confirm2 && d.confirm2[cs[i].hash] == cs[i].meg && |ListOf(d.legs, cs[i].meg.tx.hash)| == 1)
    && (forall i, j | 0 <= i < j < |cs| :: cs[i].hash != cs[j].hash)
  }

  ghost function FirstStep(d: Desk, c: Confirm, h: Hash): Desk {
    d.(legs := Append(d.legs, c), confirm2 := d.confirm2[h := c.meg])
  }

  lemma FirstStepKeeps(d: Desk, cs: seq<Confirm>, hashes: seq<Hash>, later: seq<Confirm>)
    requires DeskOk(d) && cs != [] && |hashes| >= |cs| && AllFresh(d, hashes) && NewFirst(d, cs) && NewSecond(d, later)
    ensures var d1 := FirstStep(d, cs[0], hashes[0]);
            DeskOk(d1) && AllFresh(d1, hashes[1..]) && NewFirst(d1, cs[1..]) && NewSecond(d1, later)
  {
    Confirm1One(d, cs[0], hashes[0]);
    assert Single(d.confirm1);
    hide DeskOk, AllFresh, NewFirst, NewSecond, Single;
    FirstStepRest(d, cs, hashes, later);
  }

  lemma FirstStepRest(d: Desk, cs: seq<Confirm>, hashes: seq<Hash>, later: seq<Confirm>)
    requires Single(d.confirm1) && cs != [] && |hashes| >= |cs| && AllFresh(d, hashes) && NewFirst(d, cs)
             && NewSecond(d, later)
    ensures var d1 := FirstStep(d, cs[0], hashes[0]);
            AllFresh(d1, hashes[1..]) && NewFirst(d1, cs[1..]) && NewSecond(d1, later)
  {
    var d1 := FirstStep(d, cs[0], hashes[0]);
    assert NewSecond(d1, later) by {
      assert FreshHash(d, hashes[0]) && cs[0].meg.tx.hash !in d.legs;
    }
    assert AllFresh(d1, hashes[1..]);
  }

  lemma {:induction false} Confirm1Keeps(d: Desk, cs: seq<Confirm>, hashes: seq<Hash>, later: seq<Confirm>)
    requires DeskOk(d) && |hashes| >= |cs| && AllFresh(d, hashes) && NewFirst(d, cs) && NewSecond(d, later)
    ensures DeskOk(Confirm1(d, cs, hashes)) && NewSecond(Confirm1(d, cs, hashes), later)
    decreases |cs|
  {
    if cs == [] {
      assert Confirm1(d, cs, hashes) == d;
    } else {
      var d1 := FirstStep(d, cs[0], hashes[0]);
      FirstStepKeeps(d, cs, hashes, later);
      assert MegsOf(cs)[1..] == MegsOf(cs[1..]);
      assert Confirm1(d, cs, hashes) == Confirm1(d1, cs[1..], hashes[1..]);
      hide DeskOk, AllFresh, NewFirst, NewSecond;
      Confirm1Keeps(d1, cs[1..], hashes[1..], later);
    }
  }

  lemma {:induction false} Confirm2Keeps(d: Desk, cs: seq<Confirm>)
    requires DeskOk(d) && NewSecond(d, cs)
    ensures DeskOk(Confirm2(d, cs))
    decreases |cs|
  {
    if cs == [] {
      assert Confirm2(d, cs) == d;
    } else {
      var d1 := d.(legs := Append(d.legs, cs[0]));
      Confirm2One(d, cs[0]);
      assert Single(d.confirm2);
      SecondStepRest(d, cs);
      hide DeskOk, NewSecond, Single;
      Confirm2Keeps(d1, cs[1..]);
      assert Confirm2(d, cs) == Confirm2(d1, cs[1..]);
    }
  }

  lemma SecondStepRest(d: Desk, cs: seq<Confirm>)
    requires Single(d.confirm2) && cs != [] && NewSecond(d, cs)
    ensures NewSecond(d.(legs := Append(d.legs, cs[0])), cs[1..])
  {
    forall i | 1 <= i < |cs|
      ensures cs[i].meg.tx.hash != cs[0].meg.tx.hash
    {
      assert cs[i].hash != cs[0].hash;
    }
  }

  // ----- reports -----

  /** Every leg is reported at most once, now or before. */
  ghost predicate ReportedOnce(d: Desk, txs: seq<Tx>) {
    && (forall i | 0 <= i < |txs| :: !Listed(d, txs[i].hash))
    && (forall i, j | 0 <= i < j < |txs| :: txs[i].hash != txs[j].hash)
  }

  /** A leg of the desk that is in the list of its transfer already. */
  ghost predicate Listed(d: Desk, h: Hash) {
    || (h in d.confirm1 && h in ListOf(d.legs, d.confirm1[h].tx.hash))
    || (h in d.confirm2 && h in ListOf(d.legs, d.confirm2[h].tx.hash))
  }

  lemma {:induction false} FoundIn(pool: map<Hash, RawMeg>, txs: seq<Tx>)
    requires forall i, j | 0 <= i < j < |txs| :: txs[i].hash != txs[j].hash
    ensures forall c | c in Found(pool, txs) ::
              c.hash in pool && c.meg == pool[c.hash] && exists i | 0 <= i < |txs| :: txs[i].hash == c.hash
    ensures forall i, j | 0 <= i < j < |Found(pool, txs)| :: Found(pool, txs)[i].hash != Found(pool, txs)[j].hash
  {
    if txs != [] {
      FoundIn(pool, txs[1..]);
      forall c | c in Found(pool, txs[1..])
        ensures c.hash != txs[0].hash && exists i | 0 <= i < |txs| :: txs[i].hash == c.hash
      {
        var i :| 0 <= i < |txs[1..]| && txs[1..][i].hash == c.hash;
        assert txs[i + 1].hash == c.hash;
      }
    }
  }

  lemma {:induction false} AllAccepted(rawMegs: set<RawMeg>, cs: seq<Confirm>)
    requires forall i | 0 <= i < |cs| :: cs[i].meg in rawMegs
    ensures Accepted(rawMegs, cs) == cs
  {
    if cs != [] {
      AllAccepted(rawMegs, cs[1..]);
    }
  }

  /** Reports in which every leg appears once keep every list empty, [first] or [first, second]. */
  lemma ReportKeeps(d: Desk, txs: seq<Tx>, hashes: seq<Hash>)
    requires DeskOk(d) && |hashes| >= |txs| && AllFresh(d, hashes) && ReportedOnce(d, txs)
    ensures DeskOk(Report(d, txs, hashes))
  {
    var first := Found(d.confirm1, txs);
    var second := Found(d.confirm2, txs);
    FoundIn(d.confirm1, txs);
    FoundIn(d.confirm2, txs);
    FirstUnlisted(d, txs, first);
    SecondUnlisted(d, txs, second);
    AllAccepted(d.rawMegs, first);
    hide DeskOk, NewFirst, NewSecond, Found, Accepted;
    Confirm1Keeps(d, first, hashes, second);
    Confirm2Keeps(Confirm1(d, first, hashes), second);
  }

  lemma FirstListed(d: Desk, h: Hash)
    requires DeskOk(d) && h in d.confirm1
    ensures Listed(d, h) <==> d.confirm1[h].tx.hash in d.legs
  {
    var r := d.confirm1[h].tx.hash;
    if r in d.legs {
      assert ListOk(d, r, d.legs[r]);
      assert d.legs[r][0] == h;
    }
  }

  lemma SecondListed(d: Desk, h: Hash)
    requires DeskOk(d) && h in d.confirm2
    ensures ListOk(d, d.confirm2[h].tx.hash, ListOf(d.legs, d.confirm2[h].tx.hash))
    ensures Listed(d, h) <==> |ListOf(d.legs, d.confirm2[h].tx.hash)| == 2
  {
    var r := d.confirm2[h].tx.hash;
    assert ListOk(d, r, d.legs[r]);
    if |d.legs[r]| == 2 {
      assert d.legs[r][1] == h;
    }
  }

  lemma FirstUnlisted(d: Desk, txs: seq<Tx>, cs: seq<Confirm>)
    requires DeskOk(d) && ReportedOnce(d, txs)
    requires forall c | c in cs ::
               c.hash in d.confirm1 && c.meg == d.confirm1[c.hash] && exists i | 0 <= i < |txs| :: txs[i].hash == c.hash
    requires forall i, j | 0 <= i < j < |cs| :: cs[i].hash != cs[j].hash
    ensures NewFirst(d, cs)
  {
    forall i | 0 <= i < |cs|
      ensures cs[i].meg.tx.hash !in d.legs
    {
      var c := cs[i];
      assert c in cs;
      FirstListed(d, c.hash);
    }
  }

  lemma SecondUnlisted(d: Desk, txs: seq<Tx>, cs: seq<Confirm>)
    requires DeskOk(d) && ReportedOnce(d, txs)
    requires forall c | c in cs ::
               c.hash in d.confirm2 && c.meg == d.confirm2[c.hash] && exists i | 0 <= i < |txs| :: txs[i].hash == c.hash
    requires forall i, j | 0 <= i < j < |cs| :: cs[i].hash != cs[j].hash
    ensures NewSecond(d, cs)
  {
    forall i | 0 <= i < |cs|
      ensures |ListOf(d.legs, cs[i].meg.tx.hash)| == 1
    {
      var c := cs[i];
      assert c in cs;
      SecondListed(d, c.hash);
    }
  }

  /** For one reported transaction the condition is exact: the lists stay in order if and only if
      the transaction is not a leg that is listed already. */
  lemma ReportIff(d: Desk, tx: Tx, h: Hash)
    requires DeskOk(d) && FreshHash(d, h)
    ensures ListsOk(Report(d, [tx], [h])) <==> !Listed(d, tx.hash)
  {
    if Listed(d, tx.hash) {
      TwiceBreaks(d, tx, h);
    } else {
      ReportKeeps(d, [tx], [h]);
    }
  }

  lemma TwiceBreaks(d: Desk, tx: Tx, h: Hash)
    requires DeskOk(d) && FreshHash(d, h) && Listed(d, tx.hash)
    ensures !ListsOk(Report(d, [tx], [h]))
  {
    var m := if tx.hash in d.confirm1 then d.confirm1[tx.hash] else d.confirm2[tx.hash];
    var r := m.tx.hash;
    var d' := Report(d, [tx], [h]);
    OneReported(d, tx, h, Confirm(tx.hash, m));
    if tx.hash in d.confirm1 {
      FirstListed(d, tx.hash);
    } else {
      SecondListed(d, tx.hash);
    }
    assert ListOk(d, r, d.legs[r]);
    assert d.confirm1.Keys !! d'.confirm2.Keys;
    hide Report, DeskOk;
    assert d'.legs[r] == d.legs[r] + [tx.hash];
    assert !ListOk(d', r, d'.legs[r]);
  }

  lemma OneReported(d: Desk, tx: Tx, h: Hash, c: Confirm)
    requires DeskOk(d) && c.hash == tx.hash
    requires if tx.hash in d.confirm1 then c.meg == d.confirm1[tx.hash]
             else tx.hash in d.confirm2 && c.meg == d.confirm2[tx.hash]
    ensures Report(d, [tx], [h]).legs == Append(d.legs, c)
    ensures Report(d, [tx], [h]).confirm2.Keys <= d.confirm2.Keys + {h}
  {
    var first, second := Found(d.confirm1, [tx]), Found(d.confirm2, [tx]);
    assert [tx][1..] == [] && [c][1..] == [] && [h][1..] == [] && MegsOf([c]) == [c.meg] && [c.meg][1..] == [];
    assert AppendAll(d.legs, [c]) == Append(d.legs, c);
    if tx.hash in d.confirm1 {
      assert first == [c] && second == [];
      AllAccepted(d.rawMegs, first);
      assert EnterAll(d.confirm2, [c.meg], [h]) == d.confirm2[h := c.meg];
    } else {
      assert first == [] && second == [c];
    }
  }

  // ----- runs -----

  datatype Event = Deal(megs: seq<RawMeg>, hashes: seq<Hash>) | Executed(txs: seq<Tx>, hashes: seq<Hash>)

  /** New transfers have new hashes, issued legs get new hashes, and a leg is reported once. */
  ghost predicate EventOk(d: Desk, e: Event) {
    match e
    case Deal(megs, hashes) => |hashes| >= |megs| && AllFresh(d, hashes) && AllNew(d, megs)
    case Executed(txs, hashes) => |hashes| >= |txs| && AllFresh(d, hashes) && ReportedOnce(d, txs)
  }

  ghost function After(d: Desk, e: Event): Desk
    requires EventOk(d, e)
  {
    match e
    case Deal(megs, hashes) => Issue(d, megs, hashes)
    case Executed(txs, hashes) => Report(d, txs, hashes)
  }

  ghost predicate IsRun(run: seq<Desk>, events: seq<Event>) {
    && |run| == |events| + 1 && run[0] == Desk(map[], map[], {}, map[])
    && forall k | 0 <= k < |events| :: EventOk(run[k], events[k]) && run[k + 1] == After(run[k], events[k])
  }

  lemma {:induction false} RunKeeps(run: seq<Desk>, events: seq<Event>, k: nat)
    requires IsRun(run, events) && k < |run|
    ensures DeskOk(run[k])
  {
    if k > 0 {
      hide DeskOk, Issue, Report, AllFresh, AllNew, ReportedOnce;
      RunKeeps(run, events, k - 1);
      match events[k - 1] {
        case Deal(megs, hashes) => IssueKeeps(run[k - 1], megs, hashes);
        case Executed(txs, hashes) => ReportKeeps(run[k - 1], txs, hashes);
      }
    }
  }

  /** At any moment of a run, the list of a transfer is empty, its first leg, or its first and its
      second leg; and the second leg has been issued exactly when the list is not empty. */
  lemma LegsInOrder(run: seq<Desk>, events: seq<Event>, k: nat, m: RawMeg)
    requires IsRun(run, events) && k < |run| && m in run[k].rawMegs
    ensures exists h1 :: h1 in run[k].confirm1 && run[k].confirm1[h1] == m
              && var list := ListOf(run[k].legs, m.tx.hash);
                 || list == [] || list == [h1]
                 || exists h2 :: h2 in run[k].confirm2 && run[k].confirm2[h2] == m && list == [h1, h2]
    ensures ListOf(run[k].legs, m.tx.hash) != [] <==> exists h2 :: h2 in run[k].confirm2 && run[k].confirm2[h2] == m
  {
    RunKeeps(run, events, k);
    var d := run[k];
    var r := m.tx.hash;
    var h1 :| h1 in d.confirm1 && d.confirm1[h1] == m;
    forall h2 | h2 in d.confirm2 && d.confirm2[h2].tx.hash == r
      ensures d.confirm2[h2] == m
    {
      SameTransfer(d, d.confirm2[h2], m);
    }
    if r in d.legs {
      assert ListOk(d, r, d.legs[r]);
      assert d.legs[r][0] == h1;
      if |d.legs[r]| == 2 {
        assert d.legs[r] == [h1, d.legs[r][1]];
      } else {
        assert d.legs[r] == [h1];
      }
      var h2 :| h2 in d.confirm2 && d.confirm2[h2].tx.hash == r;
      assert d.confirm2[h2] == m;
    }
  }

  lemma SameTransfer(d: Desk, m: RawMeg, m': RawMeg)
    requires PoolsOk(d) && m in d.rawMegs && m' in d.rawMegs && m.tx.hash == m'.tx.hash
    ensures m == m'
  {
    var h :| h in d.confirm1 && d.confirm1[h] == m;
    var h' :| h' in d.confirm1 && d.confirm1[h'] == m';
    assert h == h';
  }

  // ----- a transfer from end to end -----

  /** The transfer of a leg is awaited under the hash of that leg. */
  lemma {:induction false} EnteredAt(pool: map<Hash, RawMeg>, megs: seq<RawMeg>, hashes: seq<Hash>, i: nat)
    requires |hashes| >= |megs| && i < |megs| && forall k, l | 0 <= k < l < |megs| :: hashes[k] != hashes[l]
    ensures var pool' := EnterAll(pool, megs, hashes); hashes[i] in pool' && pool'[hashes[i]] == megs[i]
    decreases |megs|
  {
    if i == 0 {
      OthersStay(pool[hashes[0] := megs[0]], megs[1..], hashes[1..], hashes[0]);
    } else {
      EnteredAt(pool[hashes[0] := megs[0]], megs[1..], hashes[1..], i - 1);
    }
  }

  lemma {:induction false} OthersStay(pool: map<Hash, RawMeg>, megs: seq<RawMeg>, hashes: seq<Hash>, h: Hash)
    requires |hashes| >= |megs| && h in pool && forall k | 0 <= k < |megs| :: hashes[k] != h
    ensures var pool' := EnterAll(pool, megs, hashes); h in pool' && pool'[h] == pool[h]
    decreases |megs|
  {
    if megs != [] {
      OthersStay(pool[hashes[0] := megs[0]], megs[1..], hashes[1..], h);
    }
  }

  /** A new transfer whose two legs are reported one after the other ends with both on its list, in
      order, and each of them was awaited when it was reported. */
  lemma TransferCompletes(d: Desk, m: RawMeg, broker: Address, h1: Hash, h2: Hash)
    requires DeskOk(d) && AllFresh(d, [h1, h2]) && m.tx.hash !in d.legs
    ensures var d1 := Issue(d, [m], [h1]);
            var d2 := Report(d1, [Leg1(m, h1)], [h2]);
            var d3 := Report(d2, [Leg2(m, broker, h2)], [h1]);
            && h1 in d1.confirm1 && d1.confirm1[h1] == m && h2 in d2.confirm2 && d2.confirm2[h2] == m
            && ListOf(d1.legs, m.tx.hash) == [] && ListOf(d2.legs, m.tx.hash) == [h1]
            && ListOf(d3.legs, m.tx.hash) == [h1, h2]
            && forall r | r != m.tx.hash :: ListOf(d3.legs, r) == ListOf(d.legs, r)
  {
    assert [h1, h2][0] == h1 && [h1, h2][1] == h2;
    var d1 := Issue(d, [m], [h1]);
    OneEntered(d.confirm1, m, h1);
    assert d1.confirm1 == d.confirm1[h1 := m] && m in d1.rawMegs;
    var c1, c2 := Confirm(h1, m), Confirm(h2, m);
    ReportFirst(d1, c1, Leg1(m, h1), h2);
    var d2 := Report(d1, [Leg1(m, h1)], [h2]);
    ReportSecond(d2, c2, Leg2(m, broker, h2), h1);
  }

  lemma ReportFirst(d: Desk, c: Confirm, tx: Tx, h: Hash)
    requires tx.hash == c.hash && c.hash in d.confirm1 && d.confirm1[c.hash] == c.meg && c.meg in d.rawMegs
    requires c.hash !in d.confirm2
    ensures Report(d, [tx], [h]) == d.(legs := Append(d.legs, c), confirm2 := d.confirm2[h := c.meg])
  {
    OneFound(d.confirm1, tx);
    OneFound(d.confirm2, tx);
    OneAppended(d.legs, c);
    OneEntered(d.confirm2, c.meg, h);
    assert [c][1..] == [] && Accepted(d.rawMegs, [c]) == [c] && MegsOf([c]) == [c.meg];
  }

  lemma ReportSecond(d: Desk, c: Confirm, tx: Tx, h: Hash)
    requires tx.hash == c.hash && c.hash in d.confirm2 && d.confirm2[c.hash] == c.meg && c.hash !in d.confirm1
    ensures Report(d, [tx], [h]) == d.(legs := Append(d.legs, c))
  {
    OneFound(d.confirm1, tx);
    OneFound(d.confirm2, tx);
    OneAppended(d.legs, c);
  }

  lemma {:induction false} OneEntered(pool: map<Hash, RawMeg>, m: RawMeg, h: Hash)
    ensures EnterAll(pool, [m], [h]) == pool[h := m]
  {
    assert [m][1..] == [] && EnterAll(pool[h := m], [], [h][1..]) == pool[h := m];
  }

  lemma {:induction false} OneAppended(legs: map<Hash, seq<Hash>>, c: Confirm)
    ensures AppendAll(legs, [c]) == Append(legs, c)
  {
    assert [c][1..] == [] && AppendAll(Append(legs, c), []) == Append(legs, c);
  }

  lemma {:induction false} OneFound(pool: map<Hash, RawMeg>, tx: Tx)
    ensures Found(pool, [tx]) == if tx.hash in pool then [Confirm(tx.hash, pool[tx.hash])] else []
  {
    assert [tx][1..] == [];
  }
}
