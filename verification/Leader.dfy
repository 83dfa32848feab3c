/** A shard leader as the program runs it: an object whose handlers update its fields.  Every
    handler is proved to do to the object what the protocol's step does to the shard. */
module Leader {
  import opened Core
  import opened Ledger
  import opened Extraction
  import opened Blockchain
  import opened Protocol
  import opened RelayLaws

  class Leader {
    const s: ShardId
    const n: nat
    const chain: BlockChain
    const pool: TxPool
    var seqID: nat
    var heard: map<ShardId, nat>
    var changes: seq<Placement>
    var round: nat
    var partitionOn: bool
    var readySet: set<ShardId>
    var readySeq: map<ShardId, nat>
    var collected: map<ShardId, Xfer>
    var collectOver: bool

    constructor (s: ShardId, n: nat, beta: nat, genesis: Hash)
      requires s < n
      ensures Valid() && fresh(chain) && fresh(chain.book) && fresh(pool)
      ensures this.s == s && this.n == n && chain.beta == beta
      ensures View(Idle) == InitShard
    {
      this.s, this.n := s, n;
      chain := new BlockChain(s, n, beta, genesis);
      pool := new TxPool();
      seqID, heard, changes, round, partitionOn := 1, map[], [], 0, false;
      readySet, readySeq, collected, collectOver := {}, map[], map[], false;
    }

    ghost predicate Valid()
      reads this, chain
    {
      s < n && chain.shard == s && chain.n == n && chain.Valid()
    }

    /** The leader as a shard of the protocol; the phase is where its proposing routine stands. */
    ghost function View(phase: Phase): Shard
      reads this, chain, chain.book, pool
    {
      Shard(chain.current.root, chain.book.data, chain.current.number, chain.pmap, pool.queue, seqID,
            heard, changes, round, partitionOn, readySet, readySeq, collected, collectOver, phase)
    }

    // ----- messages from outside -----

    method HandleRelay(from: ShardId, relay: Relay)
      requires Valid()
      modifies this`heard, pool
      ensures Valid() && forall p: Phase :: View(p) == OnRelay(old(View(p)), from, relay)
    {
      pool.AddTxs2Pool(relay.txs);
      heard := heard[from := relay.seqID];
    }

    method HandleInjectTx(txs: seq<Tx>)
      requires Valid()
      modifies pool
      ensures Valid() && forall p: Phase :: View(p) == OnInject(old(View(p)), txs)
    {
      pool.AddTxs2Pool(txs);
    }

    method HandlePartitionMsg(m: Placement)
      requires Valid()
      modifies this`changes, this`partitionOn
      ensures Valid() && forall p: Phase :: View(p) == OnMap(old(View(p)), m)
    {
      changes := changes + [m];
      partitionOn := true;
    }

    method HandlePartitionReady(from: ShardId, nowSeq: nat)
      requires Valid()
      modifies this`readySet, this`readySeq
      ensures Valid() && forall p: Phase :: View(p) == OnReady(old(View(p)), from, nowSeq)
    {
      readySet := readySet + {from};
      readySeq := readySeq[from := nowSeq];
    }

    method HandleAccountStateAndTx(from: ShardId, x: Xfer)
      requires Valid()
      modifies this`collected, this`collectOver
      ensures Valid() && forall p: Phase :: View(p) == OnXfer(old(View(p)), n, from, x)
    {
      collected := collected[from := x];
      if |collected| == n - 1 {
        collectOver := true;
      }
    }

    // ----- the migration routine -----

    /** Announce readiness; returns the sequence number that is broadcast. */
    method SendPartitionReady() returns (nowSeq: nat)
      requires Valid()
      modifies this`readySet
      ensures Valid() && View(Ready) == SendReady(old(View(Idle)), s) && nowSeq == seqID
    {
      readySet := readySet + {s};
      nowSeq := seqID;
    }

    /** The readiness test, visiting the heard shards in any order. */
    method GetPartitionReady() returns (ok: bool)
      requires Valid()
      ensures ok <==> BarrierPasses(View(Ready), n)
    {
      var flag := true;
      var todo := heard.Keys;
      while todo != {}
        invariant todo <= heard.Keys
        invariant flag <==> forall p | p in heard && p !in todo :: p in readySeq && readySeq[p] == heard[p] + 1
        decreases |todo|
      {
        var p :| p in todo;
        if p !in readySeq || readySeq[p] != heard[p] + 1 {
          flag := false;
        }
        todo := todo - {p};
      }
      ok := |readySet| == n && flag;
    }

    /** The accounts that have to leave, in any order. */
    method AccountsToFetch() returns (addrs: seq<Address>)
      requires Valid() && changes != []
      ensures var m := changes[|changes| - 1];
              forall a :: a in addrs <==> a in m && m[a] != s && Place(chain.pmap, n, a) == s
    {
      addrs := [];
      var m := changes[|changes| - 1];
      var todo := m.Keys;
      while todo != {}
        invariant todo <= m.Keys
        invariant forall a :: a in addrs <==> a in m && a !in todo && m[a] != s && Place(chain.pmap, n, a) == s
        decreases |todo|
      {
        var a :| a in todo;
        if m[a] != s && chain.GetPartitionMap(a) == s {
          addrs := addrs + [a];
        }
        todo := todo - {a};
      }
    }

    /** The states of those leaving accounts that go to shard i. */
    method StatesFor(i: ShardId, addrs: seq<Address>, fetched: seq<AccountState>) returns (states: Accounts)
      requires Valid() && changes != [] && |fetched| == |addrs|
      requires var m := changes[|changes| - 1];
               forall a :: a in addrs <==> a in m && m[a] != s && Place(chain.pmap, n, a) == s
      requires forall k | 0 <= k < |addrs| :: fetched[k] == Read(chain.current.root, addrs[k], 0)
      ensures states == map a | a in MovingTo(View(Ready), s, n, i) :: Read(chain.current.root, a, 0)
    {
      var m := changes[|changes| - 1];
      states := map[];
      for k := 0 to |addrs|
        invariant forall a :: a in states <==> a in addrs[..k] && m[a] == i
        invariant forall a | a in states :: states[a] == Read(chain.current.root, a, 0)
      {
        if m[addrs[k]] == i {
          states := states[addrs[k] := fetched[k]];
        }
      }
      assert addrs[..|addrs|] == addrs;
    }

    /** One destination: the states that go there and, out of the pool, the transactions. */
    method ExtractFor(i: ShardId, addrs: seq<Address>, fetched: seq<AccountState>) returns (x: Xfer)
      requires Valid() && changes != [] && |fetched| == |addrs|
      requires var m := changes[|changes| - 1];
               forall a :: a in addrs <==> a in m && m[a] != s && Place(chain.pmap, n, a) == s
      requires forall k | 0 <= k < |addrs| :: fetched[k] == Read(chain.current.root, addrs[k], 0)
      modifies pool
      ensures x.states == old(map a | a in MovingTo(View(Ready), s, n, i) :: Read(chain.current.root, a, 0))
      ensures x.txs == Pick(RelayMode, old(pool.queue), old(MovingTo(View(Ready), s, n, i)), Send)
      ensures pool.queue == Pick(RelayMode, old(pool.queue), old(MovingTo(View(Ready), s, n, i)), Stay)
    {
      hide Pick, FateOf;
      var states := StatesFor(i, addrs, fetched);
      assert states.Keys == MovingTo(View(Ready), s, n, i);
      var txs := pool.ExtractRelay(states.Keys);
      x := Xfer(states, txs);
    }

    /** Take the leaving accounts and their queued transactions out, one destination after the
        other; the result lists the extract for every shard. */
    method SendAccountsAndTxs() returns (out: seq<Xfer>)
      requires Valid() && changes != []
      modifies pool
      ensures Valid()
      ensures View(Extracted) == ExtractQueue(old(View(Ready)), s, n)
      ensures out == XfersOut(old(View(Ready)), s, n)
    {
      hide Pick, FateOf;
      ghost var sh := View(Ready);
      ghost var moving := Moving(sh, s, n);
      var addrs := AccountsToFetch();
      var fetched := chain.FetchAccounts(addrs);
      out := [];
      for i := 0 to n
        invariant pool.queue == After(RelayMode, sh.queue, moving, s, i)
        invariant |out| == i && forall k | 0 <= k < i :: out[k] == XferTo(sh, s, n, k)
      {
        var x := Xfer(map[], []);
        if i != s {
          assert MovingTo(View(Ready), s, n, i) == MovingTo(sh, s, n, i) == moving[i];
          x := ExtractFor(i, addrs, fetched);
        } else {
          assert MovingTo(sh, s, n, i) == {};
        }
        assert x == XferTo(sh, s, n, i);
        out := out + [x];
      }
    }

    /** Propose the migration from the collected extracts, visited in any order; None stands for
        the "error tx" panic. */
    method ProposePartition() returns (msg: Option<TransferMsg>, ghost order: seq<ShardId>)
      requires Valid() && round < |changes|
      modifies pool
      ensures Valid() && Enumerates(order, collected.Keys)
      ensures msg.None? <==> MergePanics(MergedTxs(collected, order), changes[round], s)
      ensures msg.Some? ==> View(Merged(msg.value)) == Protocol.ProposePartition(old(View(Extracted)), s, order)
    {
      var states: Accounts, txs: seq<Tx> := map[], [];
      order := [];
      var todo := collected.Keys;
      while todo != {}
        invariant todo <= collected.Keys
        invariant forall p :: p in order <==> p in collected.Keys && p !in todo
        invariant forall i, j | 0 <= i < j < |order| :: order[i] != order[j]
        invariant states == MergedStates(collected, order) && txs == MergedTxs(collected, order)
        decreases |todo|
      {
        var p :| p in todo;
        states := states + collected[p].states;
        txs := txs + collected[p].txs;
        todo := todo - {p};
        assert (order + [p])[..|order|] == order;
        order := order + [p];
      }
      for i := 0 to |txs|
        invariant forall k | 0 <= k < i :: Lookup(changes[round], KeyOf(txs[k])) == s
      {
        if !txs[i].relayed && Lookup(changes[round], txs[i].sender) != s {
          return None, order;
        }
        if txs[i].relayed && Lookup(changes[round], txs[i].recipient) != s {
          return None, order;
        }
      }
      pool.AddTxs2Pool(txs);
      msg := Some(TransferMsg(changes[round], states, |changes|));
    }

    /** Enter the changed placements into the partition map, in any order. */
    method UpdatePartitionMaps(m: Placement)
      requires Valid()
      modifies chain`pmap
      ensures Valid() && chain.pmap == old(chain.pmap) + m
    {
      var todo := m;
      while todo != map[]
        invariant todo.Keys <= m.Keys && forall a | a in todo :: todo[a] == m[a]
        invariant forall a :: a in chain.pmap <==> a in old(chain.pmap) || (a in m && a !in todo)
        invariant forall a | a in chain.pmap ::
                    chain.pmap[a] == if a in m && a !in todo then m[a] else old(chain.pmap)[a]
        decreases |todo|
      {
        var a :| a in todo;
        chain.UpdatePartitionMap(a, todo[a]);
        todo := todo - {a};
      }
    }

    /** Add the received account states in a block of their own. */
    method AddStates(received: Accounts, hash: Hash)
      requires Valid()
      modifies chain`current, chain`roots
      ensures Valid() && chain.current.number == old(chain.current).number + 1
      ensures chain.current.root == Install(old(chain.current).root, received, chain.pmap, s, n)
    {
      var addrs, states := ListStates(received);
      ghost var env := chain.EnvNow();
      AdoptedIsInstall(env, chain.current.root, addrs, states, received);
      chain.AddAccounts(addrs, states, hash);
    }

    /** Forget the finished round. */
    method ResetRound(msg: TransferMsg)
      requires Valid()
      modifies this
      ensures Valid()
      ensures View(Idle) == old(View(Idle)).(
                changes := if old(|changes|) != msg.atid then old(changes) + [msg.changes] else old(changes),
                round := msg.atid, partitionOn := false, readySet := {}, collected := map[], collectOver := false)
    {
      if |changes| != msg.atid {
        changes := changes + [msg.changes];
      }
      round := msg.atid;
      collected := map[];
      partitionOn := false;
      collectOver := false;
      readySet := {};
    }

    /** Install a migration that has been agreed on. */
    method CommitPartition(msg: TransferMsg, hash: Hash)
      requires Valid()
      modifies this, chain`pmap, chain`current, chain`roots
      ensures Valid() && View(Idle) == TransferDo(old(View(Merged(msg))), s, n, msg)
    {
      hide Install, Place;
      UpdatePartitionMaps(msg.changes);
      AddStates(msg.states, hash);
      ResetRound(msg);
      seqID := seqID + 1;
    }

    // ----- a block -----

    /** Execute a body and append its block; the root is there already when it is appended. */
    method AppendOwnBlock(body: seq<Tx>, hash: Hash)
      requires Valid()
      modifies chain`current, chain`roots, chain.book
      ensures Valid() && chain.current.number == old(chain.current).number + 1
      ensures (chain.current.root, chain.book.data)
              == Execute(old(chain.EnvNow()), old(chain.current).root, old(chain.book.data), body)
    {
      hide Execute;
      var b := chain.GenerateBlock(body, hash);
      chain.AddBlock(b);
    }

    /** Pack, execute, append and relay one block; `hash` is the hash of its header.  None stands
        for the "incorrect tx" panic. */
    method RunBlock(max: nat, hash: Hash) returns (relays: Option<seq<Relay>>, ghost k: nat)
      requires Valid()
      modifies this`seqID, pool, chain`current, chain`roots, chain.book
      ensures k == if max < |old(pool.queue)| then max else |old(pool.queue)|
      ensures var proposed := Propose(old(View(Idle)), k);
              && (relays.None? <==> BlockPanics(proposed.phase.body, proposed.pmap, s, n))
              && (relays.Some? ==> && Valid() && |relays.value| == n
                                   && View(Idle) == CommitBody(proposed, s, n, chain.beta)
                                   && forall t | 0 <= t < n && t != s :: relays.value[t] == RelaysOut(proposed, n)[t])
    {
      hide Execute, OutTo, BlockPanics;
      ghost var sh := View(Idle);
      var body := pool.PackTxs(max);
      k := |body|;
      assert sh.queue[..k] == body && sh.queue[k..] == pool.queue;
      ghost var proposed := Propose(sh, k);
      assert proposed == sh.(queue := pool.queue, phase := Proposed(body));
      assert EnvOf(proposed, s, n, chain.beta) == chain.EnvNow();
      AppendOwnBlock(body, hash);
      var out, inner, relay2 := RelayPool(body);
      if out.None? {
        return None, k;
      }
      relays := Some(RelayMsgs(out.value, n, seqID));
      seqID := seqID + 1;
    }

    /** Sort the cross-shard transactions of a committed body by destination, and list what is
        reported to the supervisor: inner transactions, and those that arrived as relays. */
    method RelayPool(body: seq<Tx>)
      returns (out: Option<map<ShardId, seq<Tx>>>, inner: seq<Tx>, relay2: seq<Tx>)
      requires Valid()
      ensures out.None? <==> BlockPanics(body, chain.pmap, s, n)
      ensures out.Some? ==> forall t | 0 <= t < n && t != s ::
                (if t in out.value then out.value[t] else []) == OutTo(body, chain.pmap, n, t)
      ensures out.Some? ==> && inner == OfKind(body, chain.pmap, n, s, Kind.Inner)
                            && relay2 == OfKind(body, chain.pmap, n, s, Relay2)
    {
      inner, relay2 := [], [];
      var relayPool: map<ShardId, seq<Tx>> := map[];
      for i := 0 to |body|
        invariant forall k | 0 <= k < i :: Place(chain.pmap, n, KeyOf(body[k])) == s
        invariant Pooled(relayPool, body[..i], chain.pmap, n, s)
        invariant inner == OfKind(body[..i], chain.pmap, n, s, Kind.Inner)
        invariant relay2 == OfKind(body[..i], chain.pmap, n, s, Relay2)
      {
        var tx := body[i];
        assert body[..i + 1][..i] == body[..i];
        var ssid, rsid := chain.GetPartitionMap(tx.sender), chain.GetPartitionMap(tx.recipient);
        if !tx.relayed && ssid != s {
          return None, inner, relay2;
        }
        if tx.relayed && rsid != s {
          return None, inner, relay2;
        }
        PooledStep(relayPool, body, i, chain.pmap, n, s);
        if rsid != s {
          var row := if rsid in relayPool then relayPool[rsid] else [];
          relayPool := relayPool[rsid := row + [tx.(relayed := true)]];
        } else if tx.relayed {
          relay2 := relay2 + [tx];
        } else {
          inner := inner + [tx];
        }
      }
      assert body[..|body|] == body;
      out := Some(relayPool);
    }
  }

  /** The pool has, for every other shard, what a body sends it. */
  ghost predicate Pooled(relayPool: map<ShardId, seq<Tx>>, body: seq<Tx>, pmap: Placement, n: nat, s: ShardId)
    requires n > 0
  {
    forall t | 0 <= t < n && t != s :: (if t in relayPool then relayPool[t] else []) == OutTo(body, pmap, n, t)
  }

  lemma PooledStep(relayPool: map<ShardId, seq<Tx>>, body: seq<Tx>, i: nat, pmap: Placement, n: nat, s: ShardId)
    requires n > 0 && i < |body| && Pooled(relayPool, body[..i], pmap, n, s)
    requires Place(pmap, n, KeyOf(body[i])) == s
    ensures var tx := body[i];
            var rsid := Place(pmap, n, tx.recipient);
            var row := if rsid in relayPool then relayPool[rsid] else [];
            Pooled(if rsid == s then relayPool else relayPool[rsid := row + [tx.(relayed := true)]],
                   body[..i + 1], pmap, n, s)
  {
    assert body[..i + 1][..i] == body[..i];
  }

  function RelayMsgs(relayPool: map<ShardId, seq<Tx>>, n: nat, seqID: nat): (r: seq<Relay>)
    ensures |r| == n
    ensures forall t | 0 <= t < n :: r[t] == Relay(if t in relayPool then relayPool[t] else [], seqID)
  {
    seq(n, t requires 0 <= t => Relay(if t in relayPool then relayPool[t] else [], seqID))
  }

  /** The entries of a map as two parallel lists, in any order. */
  method ListStates(m: Accounts) returns (addrs: seq<Address>, states: seq<AccountState>)
    ensures |addrs| == |states|
    ensures forall a :: a in addrs <==> a in m
    ensures forall i | 0 <= i < |addrs| :: addrs[i] in m && states[i] == m[addrs[i]]
  {
    addrs, states := [], [];
    var todo := m.Keys;
    while todo != {}
      invariant todo <= m.Keys && |addrs| == |states|
      invariant forall a :: a in addrs <==> a in m && a !in todo
      invariant forall i | 0 <= i < |addrs| :: addrs[i] in m && states[i] == m[addrs[i]]
      decreases |todo|
    {
      var a :| a in todo;
      addrs, states := addrs + [a], states + [m[a]];
      todo := todo - {a};
    }
  }

  /** The order in which received states are installed does not matter. */
  lemma {:induction false} AdoptedAt(env: Env, accounts: Accounts, addrs: seq<Address>, states: seq<AccountState>,
                                     m: Accounts)
    requires env.n > 0 && |addrs| == |states|
    requires forall i | 0 <= i < |addrs| :: addrs[i] in m && states[i] == m[addrs[i]]
    ensures Adopted(env, accounts, addrs, states) == accounts + Coming(env, addrs, m)
  {
    if addrs != [] {
      var last := |addrs| - 1;
      AdoptedAt(env, accounts, addrs[..last], states[..last], m);
      OneMoreComing(env, accounts, addrs, m);
    } else {
      assert accounts + map[] == accounts;
    }
  }

  /** The states of the listed accounts that live here. */
  ghost function Coming(env: Env, addrs: seq<Address>, m: Accounts): Accounts
    requires env.n > 0
  {
    map a | a in m && a in addrs && Local(env, a) :: m[a]
  }

  lemma OneMoreComing(env: Env, accounts: Accounts, addrs: seq<Address>, m: Accounts)
    requires env.n > 0 && addrs != [] && addrs[|addrs| - 1] in m
    ensures var a := addrs[|addrs| - 1];
            var before := accounts + Coming(env, addrs[..|addrs| - 1], m);
            accounts + Coming(env, addrs, m) == if Local(env, a) then before[a := m[a]] else before
  {
    hide Local;
    assert addrs == addrs[..|addrs| - 1] + [addrs[|addrs| - 1]];
  }

  lemma {:induction false} AdoptedIsInstall(env: Env, accounts: Accounts, addrs: seq<Address>,
      states: seq<AccountState>, m: Accounts)
    requires env.n > 0 && |addrs| == |states|
    requires forall a :: a in addrs <==> a in m
    requires forall i | 0 <= i < |addrs| :: addrs[i] in m && states[i] == m[addrs[i]]
    ensures Adopted(env, accounts, addrs, states) == Install(accounts, m, env.pmap, env.shard, env.n)
  {
    AdoptedAt(env, accounts, addrs, states, m);
  }
}
