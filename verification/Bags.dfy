/** The transactions alive in the sharded system, wherever they are, as one bag; and what
    each protocol step does to that bag. */
module Bags {
  import opened Core
  import opened Sums
  import opened Protocol

  ghost function RelayBag(relay: seq<Relay>): multiset<Tx> {
    if relay == [] then multiset{} else multiset(relay[0].txs) + RelayBag(relay[1..])
  }

  ghost function XferBag(xfer: seq<Xfer>): multiset<Tx> {
    if xfer == [] then multiset{} else multiset(xfer[0].txs) + XferBag(xfer[1..])
  }

  ghost function RelayRow(row: seq<seq<Relay>>): (r: seq<multiset<Tx>>)
    ensures |r| == |row| && forall t | 0 <= t < |row| :: r[t] == RelayBag(row[t])
  {
    seq(|row|, t requires 0 <= t < |row| => RelayBag(row[t]))
  }

  ghost function XferRow(row: seq<seq<Xfer>>): (r: seq<multiset<Tx>>)
    ensures |r| == |row| && forall t | 0 <= t < |row| :: r[t] == XferBag(row[t])
  {
    seq(|row|, t requires 0 <= t < |row| => XferBag(row[t]))
  }

  ghost function FromPeer(collected: map<ShardId, Xfer>, p: ShardId): multiset<Tx> {
    if p in collected then multiset(collected[p].txs) else multiset{}
  }

  ghost function CollectedBags(collected: map<ShardId, Xfer>, n: nat): (r: seq<multiset<Tx>>)
    ensures |r| == n && forall p | 0 <= p < n :: r[p] == FromPeer(collected, p)
  {
    seq(n, p requires 0 <= p => FromPeer(collected, p))
  }

  /** What a leader holds.  Collected transactions join the queue when the migration is proposed. */
  ghost function ShardBag(sh: Shard, n: nat): multiset<Tx> {
    multiset(sh.queue)
    + (if sh.phase.Proposed? then multiset(sh.phase.body) else multiset{})
    + (if sh.phase.Merged? then multiset{} else BagSum(CollectedBags(sh.collected, n)))
  }

  /** What shard s holds, has sent and is about to be injected with. */
  ghost function PlaceBag(g: System, s: ShardId): multiset<Tx>
    requires Shape(g) && s < g.n
  {
    ShardBag(g.shards[s], g.n) + BagSum(RelayRow(g.relays[s])) + BagSum(XferRow(g.xfers[s])) + multiset(g.injects[s])
  }

  ghost function PlaceBags(g: System): (r: seq<multiset<Tx>>)
    requires Shape(g)
    ensures |r| == g.n && forall s | 0 <= s < g.n :: r[s] == PlaceBag(g, s)
  {
    seq(g.n, s requires 0 <= s < g.n => PlaceBag(g, s))
  }

  ghost function Bag(g: System): multiset<Tx>
    requires Shape(g)
  {
    BagSum(PlaceBags(g))
  }

  // ----- from one place to the whole -----

  /** One place loses one bag and gains another. */
  lemma BagAt(g: System, g': System, x: ShardId, minus: multiset<Tx>, plus: multiset<Tx>)
    requires Shape(g) && Shape(g') && g'.n == g.n && x < g.n
    requires forall y | 0 <= y < g.n && y != x :: PlaceBag(g', y) == PlaceBag(g, y)
    requires PlaceBag(g', x) + minus == PlaceBag(g, x) + plus
    ensures Bag(g') + minus == Bag(g) + plus
  {
    hide PlaceBag, BagSum;
    var bags := PlaceBags(g);
    assert PlaceBags(g') == bags[x := PlaceBag(g', x)];
    BagSumUpdate(bags, x, PlaceBag(g', x));
    Cancel(Bag(g'), Bag(g), PlaceBag(g', x), PlaceBag(g, x), minus, plus);
  }

  lemma Cancel<T>(b': multiset<T>, b: multiset<T>, p': multiset<T>, p: multiset<T>, minus: multiset<T>,
                  plus: multiset<T>)
    requires b' + p == b + p' && p' + minus == p + plus
    ensures b' + minus == b + plus
  {
    forall x
      ensures (b' + minus)[x] == (b + plus)[x]
    {
      assert (b' + p)[x] == (b + p')[x] && (p' + minus)[x] == (p + plus)[x];
    }
  }

  /** A bag moves from one place to another. */
  lemma BagMoves(g: System, g': System, s: ShardId, t: ShardId, moved: multiset<Tx>)
    requires Shape(g) && Shape(g') && g'.n == g.n && s < g.n && t < g.n && s != t
    requires forall y | 0 <= y < g.n && y != s && y != t :: PlaceBag(g', y) == PlaceBag(g, y)
    requires PlaceBag(g, s) == PlaceBag(g', s) + moved
    requires PlaceBag(g', t) == PlaceBag(g, t) + moved
    ensures Bag(g') == Bag(g)
  {
    hide PlaceBag, BagSum;
    var bags := PlaceBags(g);
    var bags1 := bags[s := PlaceBag(g', s)];
    assert PlaceBags(g') == bags1[t := PlaceBag(g', t)];
    BagSumUpdate(bags, s, PlaceBag(g', s));
    BagSumUpdate(bags1, t, PlaceBag(g', t));
    Cancel(BagSum(bags1), Bag(g), PlaceBag(g', s), PlaceBag(g, s), moved, multiset{});
    Cancel(Bag(g'), BagSum(bags1), PlaceBag(g', t), PlaceBag(g, t), multiset{}, moved);
    calc {
      Bag(g');
      Bag(g') + multiset{};
      BagSum(bags1) + moved;
      Bag(g) + multiset{};
      Bag(g);
    }
  }

  // ----- rows -----

  lemma {:induction false} RelayBagAppend(relay: seq<Relay>, r: Relay)
    ensures RelayBag(relay + [r]) == RelayBag(relay) + multiset(r.txs)
  {
    if relay == [] {
      assert [r][1..] == [];
    } else {
      RelayBagAppend(relay[1..], r);
      assert (relay + [r])[1..] == relay[1..] + [r];
    }
  }

  ghost function RowTxs(items: seq<seq<Tx>>, s: ShardId): (r: seq<multiset<Tx>>)
    ensures |r| == |items| && forall t | 0 <= t < |items| :: r[t] == if t == s then multiset{} else multiset(items[t])
  {
    seq(|items|, t requires 0 <= t < |items| => if t == s then multiset{} else multiset(items[t]))
  }

  lemma RelayRowAppend(row: seq<seq<Relay>>, s: ShardId, items: seq<Relay>, txs: seq<seq<Tx>>)
    requires |row| == |items| == |txs| && forall t | 0 <= t < |items| :: items[t].txs == txs[t]
    ensures BagSum(RelayRow(AppendRow(row, s, items))) == BagSum(RelayRow(row)) + BagSum(RowTxs(txs, s))
  {
    hide BagSum, RelayBag;
    var row' := AppendRow(row, s, items);
    forall t | 0 <= t < |row|
      ensures RelayRow(row')[t] == RelayRow(row)[t] + RowTxs(txs, s)[t]
    {
      RelayBagAppend(row[t], items[t]);
    }
    BagSumAdd(RelayRow(row), RowTxs(txs, s), RelayRow(row'));
  }

  lemma XferRowAppend(row: seq<seq<Xfer>>, s: ShardId, items: seq<Xfer>, txs: seq<seq<Tx>>)
    requires |row| == |items| == |txs| && forall t | 0 <= t < |items| :: items[t].txs == txs[t]
    requires forall t | 0 <= t < |row| && t != s :: row[t] == []
    ensures BagSum(XferRow(AppendRow(row, s, items))) == BagSum(XferRow(row)) + BagSum(RowTxs(txs, s))
  {
    hide BagSum;
    var row' := AppendRow(row, s, items);
    forall t | 0 <= t < |row|
      ensures XferRow(row')[t] == XferRow(row)[t] + RowTxs(txs, s)[t]
    {
      if t != s {
        assert row'[t] == [items[t]] && row'[t][1..] == [];
      }
    }
    BagSumAdd(XferRow(row), RowTxs(txs, s), XferRow(row'));
  }

  lemma {:induction false} RelayBagRemove(relay: seq<Relay>, i: nat)
    requires i < |relay|
    ensures RelayBag(relay) == RelayBag(relay[..i] + relay[i + 1..]) + multiset(relay[i].txs)
  {
    if i == 0 {
      assert relay[..0] + relay[1..] == relay[1..];
    } else {
      RelayBagRemove(relay[1..], i - 1);
      var rest := relay[..i] + relay[i + 1..];
      assert rest[1..] == relay[1..][..i - 1] + relay[1..][i..];
    }
  }

  lemma RelayRowRemove(row: seq<seq<Relay>>, t: ShardId, i: nat)
    requires t < |row| && i < |row[t]|
    ensures BagSum(RelayRow(row))
            == BagSum(RelayRow(row[t := row[t][..i] + row[t][i + 1..]])) + multiset(row[t][i].txs)
  {
    var rest := row[t][..i] + row[t][i + 1..];
    var row' := row[t := rest];
    RelayBagRemove(row[t], i);
    assert RelayRow(row') == RelayRow(row)[t := RelayBag(rest)];
    hide BagSum, RelayBag;
    BagSumUpdate(RelayRow(row), t, RelayBag(rest));
    Cancel(BagSum(RelayRow(row')), BagSum(RelayRow(row)), RelayBag(rest), RelayBag(row[t]), multiset(row[t][i].txs),
           multiset{});
  }

  lemma XferRowPop(row: seq<seq<Xfer>>, t: ShardId)
    requires t < |row| && row[t] != []
    ensures BagSum(XferRow(row)) == BagSum(XferRow(row[t := row[t][1..]])) + multiset(row[t][0].txs)
  {
    var row' := row[t := row[t][1..]];
    assert XferRow(row') == XferRow(row)[t := XferBag(row[t][1..])];
    hide BagSum;
    BagSumUpdate(XferRow(row), t, XferBag(row[t][1..]));
    Cancel(BagSum(XferRow(row')), BagSum(XferRow(row)), XferBag(row[t][1..]), XferBag(row[t]), multiset(row[t][0].txs),
           multiset{});
  }

  lemma CollectedAdd(collected: map<ShardId, Xfer>, n: nat, p: ShardId, x: Xfer)
    requires p < n && p !in collected
    ensures BagSum(CollectedBags(collected[p := x], n)) == BagSum(CollectedBags(collected, n)) + multiset(x.txs)
  {
    var bags := CollectedBags(collected, n);
    assert CollectedBags(collected[p := x], n) == bags[p := multiset(x.txs)];
    hide BagSum;
    BagSumUpdate(bags, p, multiset(x.txs));
  }

  lemma CollectedNone(n: nat)
    ensures BagSum(CollectedBags(map[], n)) == multiset{}
  {
    BagSumEmpty(CollectedBags(map[], n));
  }

  // ----- the transactions a block relays -----

  /** The cross-shard transactions of a body, marked as relayed. */
  ghost function Crossing(body: seq<Tx>, pmap: Placement, n: nat, s: ShardId): seq<Tx>
    requires n > 0
  {
    if body == [] then []
    else
      var last := |body| - 1;
      var before := Crossing(body[..last], pmap, n, s);
      if Place(pmap, n, body[last].recipient) != s then before + [body[last].(relayed := true)] else before
  }

  ghost function Outs(body: seq<Tx>, pmap: Placement, n: nat): (r: seq<seq<Tx>>)
    requires n > 0
    ensures |r| == n && forall t | 0 <= t < n :: r[t] == OutTo(body, pmap, n, t)
  {
    seq(n, t requires 0 <= t => OutTo(body, pmap, n, t))
  }

  /** The relay messages to the other shards carry exactly the crossing transactions. */
  lemma {:induction false} OutsAreCrossing(body: seq<Tx>, pmap: Placement, n: nat, s: ShardId)
    requires n > 0
    requires forall a :: Place(pmap, n, a) < n
    ensures BagSum(RowTxs(Outs(body, pmap, n), s)) == multiset(Crossing(body, pmap, n, s))
  {
    var bags := RowTxs(Outs(body, pmap, n), s);
    if body == [] {
      BagSumEmpty(bags);
    } else {
      var last := |body| - 1;
      var d := Place(pmap, n, body[last].recipient);
      var before := RowTxs(Outs(body[..last], pmap, n), s);
      OutsAreCrossing(body[..last], pmap, n, s);
      if d == s {
        assert bags == before;
      } else {
        var more := before[d] + multiset{body[last].(relayed := true)};
        assert bags == before[d := more];
        hide BagSum;
        BagSumUpdate(before, d, more);
        Cancel(BagSum(bags), BagSum(before), more, before[d], multiset{}, multiset{body[last].(relayed := true)});
      }
    }
  }
}
