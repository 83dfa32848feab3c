/** What a leader relays and reports after a block, in the fields of the transactions. */
module RelayLaws {
  import opened Core
  import opened Protocol

  // ----- relays -----

  /** Increasing positions of a body, exactly those whose recipient is placed at shard t. */
  ghost predicate At(at: seq<nat>, body: seq<Tx>, pmap: Placement, n: nat, t: ShardId)
    requires n > 0
  {
    && (forall i, j | 0 <= i < j < |at| :: at[i] < at[j])
    && (forall i | 0 <= i < |at| :: at[i] < |body|)
    && forall j: nat | j < |body| :: j in at <==> Place(pmap, n, body[j].recipient) == t
  }

  /** A relayed transaction is the original with its relay mark set, and nothing else changed. */
  ghost predicate Relays(tx: Tx, out: Tx) {
    out.relayed && tx == out.(relayed := tx.relayed)
  }

  ghost predicate RelaysFrom(at: seq<nat>, body: seq<Tx>, out: seq<Tx>) {
    |at| == |out| && forall i | 0 <= i < |at| :: at[i] < |body| && Relays(body[at[i]], out[i])
  }

  lemma AtStep(at: seq<nat>, body: seq<Tx>, pmap: Placement, n: nat, t: ShardId)
    requires n > 0 && body != [] && At(at, body[..|body| - 1], pmap, n, t)
    ensures var last := |body| - 1;
            At(if Place(pmap, n, body[last].recipient) == t then at + [last] else at, body, pmap, n, t)
  {
    hide Place;
    var last := |body| - 1;
    var at' := if Place(pmap, n, body[last].recipient) == t then at + [last] else at;
    forall j: nat | j < |body|
      ensures j in at' <==> Place(pmap, n, body[j].recipient) == t
    {
      if j < last {
        assert body[..last][j] == body[j];
        assert j in at <==> Place(pmap, n, body[j].recipient) == t;
      }
    }
  }

  lemma RelaysMore(at: seq<nat>, body: seq<Tx>, out: seq<Tx>)
    requires body != [] && RelaysFrom(at, body[..|body| - 1], out)
    ensures RelaysFrom(at, body, out)
    ensures RelaysFrom(at + [|body| - 1], body, out + [body[|body| - 1].(relayed := true)])
  {
    var last := |body| - 1;
    assert Relays(body[last], body[last].(relayed := true));
    hide Relays;
    forall i | 0 <= i < |at|
      ensures at[i] < |body| && Relays(body[at[i]], out[i])
    {
      assert body[..last][at[i]] == body[at[i]];
    }
  }

  /** What is relayed to shard t are the transactions of the body whose recipient is placed there,
      in body order, each marked as relayed and otherwise as it was. */
  lemma {:induction false} RelayedInFields(body: seq<Tx>, pmap: Placement, n: nat, t: ShardId) returns (at: seq<nat>)
    requires n > 0
    ensures At(at, body, pmap, n, t) && RelaysFrom(at, body, OutTo(body, pmap, n, t))
  {
    at := [];
    if body != [] {
      var last := |body| - 1;
      at := RelayedInFields(body[..last], pmap, n, t);
      AtStep(at, body, pmap, n, t);
      RelaysMore(at, body, OutTo(body[..last], pmap, n, t));
      hide At, RelaysFrom, Place;
      if Place(pmap, n, body[last].recipient) == t {
        at := at + [last];
      }
    }
  }

  // ----- the report to the supervisor -----

  /** A transaction that stays in the shard, one that leaves it, one that has arrived in it. */
  datatype Kind = Inner | Relay1 | Relay2

  function KindOf(tx: Tx, pmap: Placement, n: nat, s: ShardId): Kind
    requires n > 0
  {
    if Place(pmap, n, tx.recipient) != s then Relay1 else if tx.relayed then Relay2 else Inner
  }

  function OfKind(body: seq<Tx>, pmap: Placement, n: nat, s: ShardId, k: Kind): seq<Tx>
    requires n > 0
  {
    if body == [] then []
    else
      var last := |body| - 1;
      OfKind(body[..last], pmap, n, s, k) + if KindOf(body[last], pmap, n, s) == k then [body[last]] else []
  }

  /** Every transaction of a body is reported in exactly one of the three lists. */
  lemma {:induction false} KindsCover(body: seq<Tx>, pmap: Placement, n: nat, s: ShardId)
    requires n > 0
    ensures multiset(OfKind(body, pmap, n, s, Inner)) + multiset(OfKind(body, pmap, n, s, Relay1))
            + multiset(OfKind(body, pmap, n, s, Relay2)) == multiset(body)
  {
    if body != [] {
      var rest, tx := body[..|body| - 1], body[|body| - 1];
      KindsCover(rest, pmap, n, s);
      assert body == rest + [tx];
      LastKind(body, pmap, n, s);
      hide OfKind, KindOf;
      OneMore(OfKind(rest, pmap, n, s, Inner), OfKind(rest, pmap, n, s, Relay1), OfKind(rest, pmap, n, s, Relay2),
              rest, tx, KindOf(tx, pmap, n, s));
    }
  }

  lemma LastKind(body: seq<Tx>, pmap: Placement, n: nat, s: ShardId)
    requires n > 0 && body != []
    ensures var rest, tx := body[..|body| - 1], body[|body| - 1];
            forall k: Kind :: OfKind(body, pmap, n, s, k)
                              == Grown(OfKind(rest, pmap, n, s, k), tx, KindOf(tx, pmap, n, s) == k)
  {
  }

  function Grown(txs: seq<Tx>, tx: Tx, more: bool): seq<Tx> {
    if more then txs + [tx] else txs
  }

  lemma OneMore(a: seq<Tx>, b: seq<Tx>, c: seq<Tx>, all: seq<Tx>, tx: Tx, k: Kind)
    requires multiset(a) + multiset(b) + multiset(c) == multiset(all)
    ensures multiset(Grown(a, tx, k == Inner)) + multiset(Grown(b, tx, k == Relay1))
            + multiset(Grown(c, tx, k == Relay2)) == multiset(all + [tx])
  {
  }

  /** In fields, for a body that does not panic: the inner list has the transactions both ends of
      which live here, the first relay list those whose recipient lives elsewhere, and the second
      those that arrived as relays. */
  lemma {:induction false} ReportInFields(body: seq<Tx>, pmap: Placement, n: nat, s: ShardId, tx: Tx)
    requires n > 0 && !BlockPanics(body, pmap, s, n)
    ensures tx in OfKind(body, pmap, n, s, Inner)
            <==> tx in body && !tx.relayed && Place(pmap, n, tx.sender) == s && Place(pmap, n, tx.recipient) == s
    ensures tx in OfKind(body, pmap, n, s, Relay1)
            <==> tx in body && !tx.relayed && Place(pmap, n, tx.sender) == s && Place(pmap, n, tx.recipient) != s
    ensures tx in OfKind(body, pmap, n, s, Relay2)
            <==> tx in body && tx.relayed && Place(pmap, n, tx.recipient) == s
  {
    if body != [] {
      var last := |body| - 1;
      var rest := body[..last];
      forall i | 0 <= i < |rest|
        ensures Place(pmap, n, KeyOf(rest[i])) == s
      {
        assert rest[i] == body[i];
      }
      ReportInFields(rest, pmap, n, s, tx);
      assert Place(pmap, n, KeyOf(body[last])) == s;
      assert body == rest + [body[last]];
    }
  }
}
