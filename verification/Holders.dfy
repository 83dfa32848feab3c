/** Who holds the authoritative balance of an account: exactly one shard, or exactly one
    extract on its way between two shards. */
module Holders {
  import opened Core
  import opened Protocol
  import opened ProtocolInv
  import opened ProtocolSteps

  /** Shard s holds account a: its installed map places a here, and so does the map it has
      already extracted for. */
  ghost predicate Owns(maps: seq<Placement>, n: nat, s: ShardId, sh: Shard, a: Address)
    requires n > 0 && ExtractCount(sh) <= |maps|
  {
    HomeAt(maps, n, sh.round, a) == s && HomeAt(maps, n, ExtractCount(sh), a) == s
  }

  /** The extract from s to t that carries account a, sent and not yet installed. */
  ghost predicate Carries(x: Xfer, a: Address) {
    a in x.states
  }

  ghost predicate InTransit(g: System, s: ShardId, t: ShardId, a: Address)
    requires Shape(g) && s < g.n && t < g.n
  {
    || (g.xfers[s][t] != [] && Carries(g.xfers[s][t][0], a))
    || (s in g.shards[t].collected && Carries(g.shards[t].collected[s], a))
  }

  /** What the invariant says about an account on its way from s to t. */
  lemma {:induction false} TransitFacts(g: System, s: ShardId, t: ShardId, a: Address)
    requires Inv(g) && s < g.n && t < g.n && s != t && InTransit(g, s, t, a)
    ensures var r := g.shards[t].round;
            && r + 1 <= |g.maps|
            && ExtractCount(g.shards[s]) == r + 1
            && HomeAt(g.maps, g.n, r, a) == s && HomeAt(g.maps, g.n, r + 1, a) == t
  {
    assert PairAt(g, s, t);
    hide RelayOk;
  }

  lemma Counts(g: System, s: ShardId, t: ShardId)
    requires Inv(g) && s < g.n && t < g.n
    ensures ExtractCount(g.shards[s]) <= |g.maps|
    ensures g.shards[s].round <= ExtractCount(g.shards[t]) <= ReadyCount(g.shards[s]) <= g.shards[s].round + 1
  {
    hide HomeAt, XferOk, RelayOk;
    assert ShardAt(g, s);
    if s != t {
      PairCounts(g, s, t);
    }
  }

  /** At most one shard holds an account. */
  lemma OneOwner(g: System, s: ShardId, t: ShardId, a: Address)
    requires Inv(g) && s < g.n && t < g.n && s != t
    ensures ExtractCount(g.shards[s]) <= |g.maps| && ExtractCount(g.shards[t]) <= |g.maps|
    ensures !(Owns(g.maps, g.n, s, g.shards[s], a) && Owns(g.maps, g.n, t, g.shards[t], a))
  {
    hide Inv;
    Counts(g, s, t);
    Counts(g, t, s);
  }

  /** An account on its way is held by no shard. */
  lemma TransitHasNoOwner(g: System, s: ShardId, t: ShardId, u: ShardId, a: Address)
    requires Inv(g) && s < g.n && t < g.n && s != t && u < g.n && InTransit(g, s, t, a)
    ensures ExtractCount(g.shards[u]) <= |g.maps|
    ensures !Owns(g.maps, g.n, u, g.shards[u], a)
  {
    hide Inv;
    TransitFacts(g, s, t, a);
    Counts(g, u, t);
    Counts(g, t, u);
  }

  /** An account is on its way along at most one channel. */
  lemma OneTransit(g: System, s: ShardId, t: ShardId, s': ShardId, t': ShardId, a: Address)
    requires Inv(g) && s < g.n && t < g.n && s != t && s' < g.n && t' < g.n && s' != t'
    requires InTransit(g, s, t, a) && InTransit(g, s', t', a)
    ensures s == s' && t == t'
  {
    hide Inv, InTransit;
    TransitFacts(g, s, t, a);
    TransitFacts(g, s', t', a);
    Counts(g, s, t');
    Counts(g, t, t');
    Counts(g, t', t);
  }

  /** A shard that no other is behind. */
  lemma {:induction false} Slowest(g: System, k: nat) returns (m: ShardId)
    requires Shape(g) && 0 < k <= g.n
    ensures m < k && forall s | 0 <= s < k :: g.shards[m].round <= g.shards[s].round
  {
    if k == 1 {
      m := 0;
    } else {
      m := Slowest(g, k - 1);
      if g.shards[k - 1].round < g.shards[m].round {
        m := k - 1;
      }
    }
  }

  /** Every account is held somewhere. */
  lemma SomeHolder(g: System, a: Address)
    requires Inv(g)
    ensures forall s | 0 <= s < g.n :: ExtractCount(g.shards[s]) <= |g.maps|
    ensures (exists s :: 0 <= s < g.n && Owns(g.maps, g.n, s, g.shards[s], a))
         || (exists s, t :: 0 <= s < g.n && 0 <= t < g.n && s != t && InTransit(g, s, t, a))
  {
    forall s | 0 <= s < g.n
      ensures ExtractCount(g.shards[s]) <= |g.maps|
    {
      Counts(g, s, s);
    }
    var m := Slowest(g, g.n);
    var r := g.shards[m].round;
    HomeInRange(g.maps, g.n, r, a);
    var o := HomeAt(g.maps, g.n, r, a);
    Counts(g, m, o);
    Counts(g, o, m);
    if !Owns(g.maps, g.n, o, g.shards[o], a) {
      HomeInRange(g.maps, g.n, r + 1, a);
      var t := HomeAt(g.maps, g.n, r + 1, a);
      Counts(g, m, t);
      Counts(g, t, m);
      if g.shards[t].round == r && t != o {
        MustBeInTransit(g, o, t, a);
      } else {
        assert Owns(g.maps, g.n, t, g.shards[t], a);
      }
    }
  }

  lemma {:induction false} MustBeInTransit(g: System, s: ShardId, t: ShardId, a: Address)
    requires Inv(g) && s < g.n && t < g.n && s != t
    requires ExtractCount(g.shards[s]) == g.shards[t].round + 1 <= |g.maps|
    requires HomeAt(g.maps, g.n, g.shards[t].round, a) == s && HomeAt(g.maps, g.n, g.shards[t].round + 1, a) == t
    ensures InTransit(g, s, t, a)
  {
    assert PairAt(g, s, t);
    assert Arriving(g.maps, g.n, g.shards[t].round, t, a);
  }

  // ----- the authoritative balance -----

  /** v is the balance of a where a is held. */
  ghost predicate Holds(g: System, a: Address, v: int)
    requires Inv(g)
  {
    || (exists s :: 0 <= s < g.n && HeldAt(g, s, a) && BalanceOf(g.shards[s].accounts, a) == v)
    || (exists s, t :: 0 <= s < g.n && 0 <= t < g.n && s != t && HeldBetween(g, s, t, a, v))
  }

  ghost predicate HeldAt(g: System, s: ShardId, a: Address)
    requires Shape(g) && s < g.n
  {
    ExtractCount(g.shards[s]) <= |g.maps| && Owns(g.maps, g.n, s, g.shards[s], a)
  }

  ghost predicate HeldBetween(g: System, s: ShardId, t: ShardId, a: Address, v: int)
    requires Shape(g) && s < g.n && t < g.n
  {
    || (g.xfers[s][t] != [] && a in g.xfers[s][t][0].states && g.xfers[s][t][0].states[a].balance == v)
    || (s in g.shards[t].collected && a in g.shards[t].collected[s].states
        && g.shards[t].collected[s].states[a].balance == v)
  }

  /** Every account has exactly one authoritative balance in every state. */
  lemma ExactlyOneBalance(g: System, a: Address)
    requires Inv(g)
    ensures exists v :: Holds(g, a, v)
    ensures forall v, w | Holds(g, a, v) && Holds(g, a, w) :: v == w
  {
    SomeBalance(g, a);
    forall v, w | Holds(g, a, v) && Holds(g, a, w)
      ensures v == w
    {
      SameBalance(g, a, v, w);
    }
  }

  lemma SomeBalance(g: System, a: Address)
    requires Inv(g)
    ensures exists v :: Holds(g, a, v)
  {
    SomeHolder(g, a);
    hide Inv;
    if s :| 0 <= s < g.n && Owns(g.maps, g.n, s, g.shards[s], a) {
      assert HeldAt(g, s, a);
      assert Holds(g, a, BalanceOf(g.shards[s].accounts, a));
    } else {
      var s, t :| 0 <= s < g.n && 0 <= t < g.n && s != t && InTransit(g, s, t, a);
      var x := if g.xfers[s][t] != [] && Carries(g.xfers[s][t][0], a) then g.xfers[s][t][0]
               else g.shards[t].collected[s];
      assert HeldBetween(g, s, t, a, x.states[a].balance);
      assert Holds(g, a, x.states[a].balance);
    }
  }

  /** The channel and the collected extract never both carry the account. */
  lemma OneCopy(g: System, s: ShardId, t: ShardId)
    requires Inv(g) && s < g.n && t < g.n && s != t
    ensures g.xfers[s][t] == [] || s !in g.shards[t].collected
  {
    hide HomeAt, XferOk, RelayOk;
    assert PairAt(g, s, t);
  }

  lemma SameBalance(g: System, a: Address, v: int, w: int)
    requires Inv(g) && Holds(g, a, v) && Holds(g, a, w)
    ensures v == w
  {
    assert Shape(g);
    hide Inv, Owns;
    if s :| 0 <= s < g.n && HeldAt(g, s, a) && BalanceOf(g.shards[s].accounts, a) == v {
      forall u | 0 <= u < g.n && u != s
        ensures !HeldAt(g, u, a)
      {
        OneOwner(g, s, u, a);
      }
      forall u, t, x | 0 <= u < g.n && 0 <= t < g.n && u != t
        ensures !HeldBetween(g, u, t, a, x)
      {
        if InTransit(g, u, t, a) {
          TransitHasNoOwner(g, u, t, s, a);
        }
      }
    } else {
      var s, t :| 0 <= s < g.n && 0 <= t < g.n && s != t && HeldBetween(g, s, t, a, v);
      OneCopy(g, s, t);
      forall u | 0 <= u < g.n
        ensures !HeldAt(g, u, a)
      {
        TransitHasNoOwner(g, s, t, u, a);
      }
      var s', t' :| 0 <= s' < g.n && 0 <= t' < g.n && s' != t' && HeldBetween(g, s', t', a, w);
      OneTransit(g, s, t, s', t', a);
    }
  }
}
