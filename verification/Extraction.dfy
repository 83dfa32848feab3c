/** Taking the queued transactions of migrating accounts out of a transaction pool, in
    relay mode and in broker mode. */
module Extraction {
  import opened Core
  import opened Sums

  datatype Mode = RelayMode | BrokerMode

  /** What one pass over the queue does with a transaction: leave it in the pool, send it
      to the pass's destination shard, or hand it back as having become cross-shard. */
  datatype Fate = Stay | Send | Cross

  function FateOf(mode: Mode, tx: Tx, moving: set<Address>): Fate {
    match mode
    case RelayMode =>
      if KeyOf(tx) in moving then Send else Stay
    case BrokerMode =>
      if tx.rawHash.None? then
        if tx.hasBroker then
          if (if tx.senderIsBroker then tx.recipient else tx.sender) in moving then Send else Stay
        else if tx.sender in moving || tx.recipient in moving then Cross
        else Stay
      else if tx.finalRecipient == Some(tx.recipient) then
        if tx.recipient in moving then Send else Stay
      else if tx.originalSender == Some(tx.sender) then
        if tx.sender in moving then Send else Stay
      else Stay
  }

  /** The transactions of a queue with a given fate, in queue order. */
  function Pick(mode: Mode, q: seq<Tx>, moving: set<Address>, fate: Fate): seq<Tx> {
    if q == [] then []
    else
      var last := |q| - 1;
      var before := Pick(mode, q[..last], moving, fate);
      if FateOf(mode, q[last], moving) == fate then before + [q[last]] else before
  }

  /** One pass splits the queue exactly. */
  lemma {:induction false} PickSplits(mode: Mode, q: seq<Tx>, moving: set<Address>)
    ensures multiset(q) == multiset(Pick(mode, q, moving, Stay)) + multiset(Pick(mode, q, moving, Send))
                           + multiset(Pick(mode, q, moving, Cross))
  {
    if q != [] {
      var last := |q| - 1;
      PickSplits(mode, q[..last], moving);
      assert q == q[..last] + [q[last]];
    }
  }

  lemma {:induction false} PickMember(mode: Mode, q: seq<Tx>, moving: set<Address>, fate: Fate, tx: Tx)
    ensures tx in Pick(mode, q, moving, fate) <==> tx in q && FateOf(mode, tx, moving) == fate
  {
    if q != [] {
      var last := |q| - 1;
      PickMember(mode, q[..last], moving, fate, tx);
      assert q == q[..last] + [q[last]];
    }
  }

  /** What is picked keeps the queue's order: it is the queue read at increasing positions. */
  lemma {:induction false} PickKeepsOrder(mode: Mode, q: seq<Tx>, moving: set<Address>, fate: Fate)
    returns (at: seq<nat>)
    ensures |at| == |Pick(mode, q, moving, fate)|
    ensures forall i | 0 <= i < |at| :: at[i] < |q| && q[at[i]] == Pick(mode, q, moving, fate)[i]
    ensures forall i, j | 0 <= i < j < |at| :: at[i] < at[j]
  {
    at := [];
    if q != [] {
      var last := |q| - 1;
      at := PickKeepsOrder(mode, q[..last], moving, fate);
      if FateOf(mode, q[last], moving) == fate {
        at := at + [last];
      }
    }
  }

  // ----- one pass per destination shard -----

  /** The queue after the passes for destinations 0 .. k-1, the own shard being skipped. */
  function After(mode: Mode, q: seq<Tx>, moving: seq<set<Address>>, self: ShardId, k: nat): seq<Tx>
    requires k <= |moving|
  {
    if k == 0 then q
    else
      var before := After(mode, q, moving, self, k - 1);
      if k - 1 == self then before else Pick(mode, before, moving[k - 1], Stay)
  }

  /** What the pass for destination i sends. */
  function SentTo(mode: Mode, q: seq<Tx>, moving: seq<set<Address>>, self: ShardId, i: nat): seq<Tx>
    requires i < |moving|
  {
    if i == self then [] else Pick(mode, After(mode, q, moving, self, i), moving[i], Send)
  }

  /** What the first k passes hand back as cross-shard. */
  function CrossedBy(mode: Mode, q: seq<Tx>, moving: seq<set<Address>>, self: ShardId, k: nat): seq<Tx>
    requires k <= |moving|
  {
    if k == 0 then []
    else
      var before := CrossedBy(mode, q, moving, self, k - 1);
      if k - 1 == self then before
      else before + Pick(mode, After(mode, q, moving, self, k - 1), moving[k - 1], Cross)
  }

  function SentBags(mode: Mode, q: seq<Tx>, moving: seq<set<Address>>, self: ShardId, k: nat): (r: seq<multiset<Tx>>)
    requires k <= |moving|
    ensures |r| == k
  {
    seq(k, i requires 0 <= i < k => multiset(SentTo(mode, q, moving, self, i)))
  }

  /** All passes together split the queue exactly into what remains, what was sent to each
      shard and what became cross-shard. */
  lemma {:induction false} ExtractionSplits(mode: Mode, q: seq<Tx>, moving: seq<set<Address>>, self: ShardId, k: nat)
    requires k <= |moving|
    ensures multiset(q) == multiset(After(mode, q, moving, self, k))
                           + BagSum(SentBags(mode, q, moving, self, k))
                           + multiset(CrossedBy(mode, q, moving, self, k))
  {
    if k > 0 {
      hide FateOf, Pick;
      ExtractionSplits(mode, q, moving, self, k - 1);
      var bags := SentBags(mode, q, moving, self, k);
      assert bags[..k - 1] == SentBags(mode, q, moving, self, k - 1);
      if k - 1 != self {
        var before := After(mode, q, moving, self, k - 1);
        PickSplits(mode, before, moving[k - 1]);
        Regroup(multiset(q), multiset(before), BagSum(bags[..k - 1]), multiset(CrossedBy(mode, q, moving, self, k - 1)),
                multiset(Pick(mode, before, moving[k - 1], Stay)), bags[k - 1],
                multiset(Pick(mode, before, moving[k - 1], Cross)));
      }
    }
  }

  lemma Regroup<T>(q: multiset<T>, a: multiset<T>, s: multiset<T>, c: multiset<T>,
                   a': multiset<T>, s': multiset<T>, c': multiset<T>)
    requires q == a + s + c && a == a' + s' + c'
    ensures q == a' + (s + s') + (c + c')
  {
  }

  /** What remains was in the queue and is wanted by no pass. */
  lemma {:induction false} RemainingStays(mode: Mode, q: seq<Tx>, moving: seq<set<Address>>, self: ShardId, k: nat,
                                          tx: Tx)
    requires k <= |moving| && tx in After(mode, q, moving, self, k)
    ensures tx in q
    ensures forall i | 0 <= i < k && i != self :: FateOf(mode, tx, moving[i]) == Stay
  {
    if k > 0 {
      if k - 1 != self {
        PickMember(mode, After(mode, q, moving, self, k - 1), moving[k - 1], Stay, tx);
      }
      RemainingStays(mode, q, moving, self, k - 1, tx);
    }
  }

  /** What is sent to a shard was in the queue, is keyed by an account moving to that
      shard, and was wanted by no earlier pass. */
  lemma SentIsKeyed(mode: Mode, q: seq<Tx>, moving: seq<set<Address>>, self: ShardId, i: nat, tx: Tx)
    requires i < |moving| && tx in SentTo(mode, q, moving, self, i)
    ensures i != self && tx in q && FateOf(mode, tx, moving[i]) == Send
    ensures tx.sender in moving[i] || tx.recipient in moving[i]
    ensures forall k | 0 <= k < i && k != self :: FateOf(mode, tx, moving[k]) == Stay
  {
    PickMember(mode, After(mode, q, moving, self, i), moving[i], Send, tx);
    RemainingStays(mode, q, moving, self, i, tx);
  }

  /** In the fields of a transaction: it goes to the shard that `moving` leaves for.  In relay mode
      this is so when the sender moves, or the recipient of a relayed one.  In broker mode, for a
      brokered transfer, when its end that is not a broker moves; for a second leg, when the final
      recipient does; for a first leg, when the original sender does. */
  ghost predicate Follows(mode: Mode, tx: Tx, moving: set<Address>) {
    match mode
    case RelayMode =>
      || (!tx.relayed && tx.sender in moving)
      || (tx.relayed && tx.recipient in moving)
    case BrokerMode =>
      || (tx.rawHash.None? && tx.hasBroker && tx.senderIsBroker && tx.recipient in moving)
      || (tx.rawHash.None? && tx.hasBroker && !tx.senderIsBroker && tx.sender in moving)
      || (tx.rawHash.Some? && tx.finalRecipient == Some(tx.recipient) && tx.recipient in moving)
      || (tx.rawHash.Some? && tx.finalRecipient != Some(tx.recipient) && tx.originalSender == Some(tx.sender)
          && tx.sender in moving)
  }

  /** It is an inner-shard transfer, of broker mode and without a broker, of which an end moves. */
  ghost predicate Splits(mode: Mode, tx: Tx, moving: set<Address>) {
    mode == BrokerMode && tx.rawHash.None? && !tx.hasBroker && (tx.sender in moving || tx.recipient in moving)
  }

  /** A queued transaction remains after the first k passes if and only if none of them concerns it. */
  lemma {:induction false} RemainsIff(mode: Mode, q: seq<Tx>, moving: seq<set<Address>>, self: ShardId, k: nat, tx: Tx)
    requires k <= |moving|
    ensures tx in After(mode, q, moving, self, k)
            <==> tx in q && forall i | 0 <= i < k && i != self ::
                              !Follows(mode, tx, moving[i]) && !Splits(mode, tx, moving[i])
  {
    if k > 0 {
      RemainsIff(mode, q, moving, self, k - 1, tx);
      if k - 1 != self {
        PickMember(mode, After(mode, q, moving, self, k - 1), moving[k - 1], Stay, tx);
      }
    }
  }

  /** It is sent by pass i if and only if that pass is the first that concerns it and it follows the
      accounts of that pass. */
  lemma SentIff(mode: Mode, q: seq<Tx>, moving: seq<set<Address>>, self: ShardId, i: nat, tx: Tx)
    requires i < |moving|
    ensures tx in SentTo(mode, q, moving, self, i)
            <==> && i != self && tx in q && Follows(mode, tx, moving[i])
                 && forall k | 0 <= k < i && k != self ::
                      !Follows(mode, tx, moving[k]) && !Splits(mode, tx, moving[k])
  {
    RemainsIff(mode, q, moving, self, i, tx);
    if i != self {
      PickMember(mode, After(mode, q, moving, self, i), moving[i], Send, tx);
    }
  }

  /** What becomes cross-shard is an inner-shard transfer of which an end moves away. */
  lemma {:induction false} CrossedIsInner(mode: Mode, q: seq<Tx>, moving: seq<set<Address>>, self: ShardId, k: nat,
                                          tx: Tx)
    requires k <= |moving| && tx in CrossedBy(mode, q, moving, self, k)
    ensures mode == BrokerMode && tx in q && tx.rawHash.None? && !tx.hasBroker
    ensures exists i :: 0 <= i < k && i != self && (tx.sender in moving[i] || tx.recipient in moving[i])
  {
    var before := After(mode, q, moving, self, k - 1);
    if tx in CrossedBy(mode, q, moving, self, k - 1) {
      CrossedIsInner(mode, q, moving, self, k - 1, tx);
    } else {
      PickMember(mode, before, moving[k - 1], Cross, tx);
      RemainingStays(mode, q, moving, self, k - 1, tx);
    }
  }

  // ----- the loops themselves -----

  class TxPool {
    var queue: seq<Tx>

    constructor ()
      ensures queue == []
    {
      queue := [];
    }

    method AddTxs2Pool(txs: seq<Tx>)
      modifies this
      ensures queue == old(queue) + txs
    {
      queue := queue + txs;
    }

    /** Take up to max transactions from the head of the queue. */
    method PackTxs(max: nat) returns (packed: seq<Tx>)
      modifies this
      ensures old(queue) == packed + queue
      ensures |packed| == if max < |old(queue)| then max else |old(queue)|
    {
      var num := if |queue| < max then |queue| else max;
      packed := queue[..num];
      queue := queue[num..];
    }

    /** One pass of relay mode: two indices over the queue, overwriting it in place. */
    method ExtractRelay(moving: set<Address>) returns (sent: seq<Tx>)
      modifies this
      ensures queue == Pick(RelayMode, old(queue), moving, Stay)
      ensures sent == Pick(RelayMode, old(queue), moving, Send)
    {
      sent := [];
      var first := 0;
      ghost var q := queue;
      for second := 0 to |queue|
        invariant |queue| == |q| && first <= second
        invariant forall k | second <= k < |q| :: queue[k] == q[k]
        invariant queue[..first] == Pick(RelayMode, q[..second], moving, Stay)
        invariant sent == Pick(RelayMode, q[..second], moving, Send)
      {
        var ptx := queue[second];
        assert q[..second + 1][..second] == q[..second];
        ghost var kept := queue[..first];
        var condition1 := ptx.sender in moving && !ptx.relayed;
        var condition2 := ptx.recipient in moving && ptx.relayed;
        if condition1 || condition2 {
          sent := sent + [ptx];
        } else {
          queue := queue[first := ptx];
          first := first + 1;
          assert queue[..first] == kept + [ptx];
        }
      }
      assert q[..|q|] == q;
      queue := queue[..first];
    }

    /** One pass of broker mode. */
    method ExtractBroker(moving: set<Address>, crossed0: seq<Tx>) returns (sent: seq<Tx>, crossed: seq<Tx>)
      modifies this
      ensures queue == Pick(BrokerMode, old(queue), moving, Stay)
      ensures sent == Pick(BrokerMode, old(queue), moving, Send)
      ensures crossed == crossed0 + Pick(BrokerMode, old(queue), moving, Cross)
    {
      sent, crossed := [], crossed0;
      var first := 0;
      ghost var q := queue;
      for second := 0 to |queue|
        invariant |queue| == |q| && first <= second
        invariant forall k | second <= k < |q| :: queue[k] == q[k]
        invariant queue[..first] == Pick(BrokerMode, q[..second], moving, Stay)
        invariant sent == Pick(BrokerMode, q[..second], moving, Send)
        invariant crossed == crossed0 + Pick(BrokerMode, q[..second], moving, Cross)
      {
        var ptx := queue[second];
        assert q[..second + 1][..second] == q[..second];
        ghost var kept := queue[..first];
        var beSend, beRemoved := false, false;
        var ok1, ok2 := ptx.sender in moving, ptx.recipient in moving;
        if ptx.rawHash.None? {
          if ptx.hasBroker {
            if ptx.senderIsBroker {
              beSend, beRemoved := ok2, ok2;
            } else {
              beSend, beRemoved := ok1, ok1;
            }
          } else if ok1 || ok2 {
            crossed := crossed + [ptx];
            beRemoved := true;
          }
        } else if ptx.finalRecipient == Some(ptx.recipient) {
          beSend, beRemoved := ok2, ok2;
        } else if ptx.originalSender == Some(ptx.sender) {
          beSend, beRemoved := ok1, ok1;
        }
        if beSend {
          sent := sent + [ptx];
        }
        if !beRemoved {
          queue := queue[first := ptx];
          first := first + 1;
          assert queue[..first] == kept + [ptx];
        }
      }
      assert q[..|q|] == q;
      queue := queue[..first];
    }
  }
}
