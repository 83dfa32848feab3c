/** The blockchain object of one node and its bet book, updated in place. */
module Blockchain {
  import opened Core
  import opened Sums
  import opened Ledger

  /** A block.  State roots are injective, so a root is the account state it commits to. */
  datatype Block = Block(number: nat, parent: Hash, hash: Hash, root: Accounts, body: seq<Tx>)

  class G2EBook {
    var data: Book

    constructor ()
      ensures data == map[]
    {
      data := map[];
    }

    method AppendBet(target: nat, pair: Pair, player: Address, amount: int)
      modifies this
      ensures data == Ledger.AppendBet(old(data), target, pair, player, amount)
    {
      var e: Epoch;
      if target in data {
        e := data[target];
      } else {
        e := Epoch(map[], map[]);
      }
      var bets := if pair in e.byPair then e.byPair[pair] else [];
      e := e.(byPair := e.byPair[pair := bets + [Bet(player, pair, amount)]]);
      if pair !in e.sums {
        e := e.(sums := e.sums[pair := 0]);
      }
      e := e.(sums := e.sums[pair := e.sums[pair] + amount]);
      data := data[target := e];
      ghost var e0 := EpochAt(old(data), target);
      assert e.sums == e0.sums[pair := StakeOn(e0, pair) + amount];
    }

    method GetEpoch(target: nat) returns (e: Option<Epoch>)
      ensures e == if target in data then Some(data[target]) else None
    {
      e := if target in data then Some(data[target]) else None;
    }

    method Cleanup(target: nat)
      modifies this
      ensures data == old(data) - {target}
    {
      data := data - {target};
    }
  }

  // ----- choosing the winner -----

  ghost predicate Sorted(s: seq<Pair>) {
    forall i, j | 0 <= i < j < |s| :: Less(s[i], s[j])
  }

  /** A sequence that lists a set. */
  ghost predicate Lists(s: seq<Pair>, keys: set<Pair>) {
    forall p :: p in s <==> p in keys
  }

  /** In a sorted list of the keys, the index of a key is its rank. */
  lemma {:induction false} SortedRank(s: seq<Pair>, keys: set<Pair>, i: nat)
    requires Sorted(s) && Lists(s, keys) && i < |s|
    ensures Below(keys, s[i]) == set k | 0 <= k < i :: s[k]
    ensures |Below(keys, s[i])| == i
  {
    PrefixCard(s, i);
    forall p
      ensures p in Below(keys, s[i]) <==> p in set k | 0 <= k < i :: s[k]
    {
      if p in Below(keys, s[i]) {
        var k :| 0 <= k < |s| && s[k] == p;
        assert k <= i || Less(s[i], s[k]);
      }
    }
  }

  lemma {:induction false} PrefixCard(s: seq<Pair>, i: nat)
    requires Sorted(s) && i <= |s|
    ensures |set k | 0 <= k < i :: s[k]| == i
  {
    if i > 0 {
      PrefixCard(s, i - 1);
      var prefix := set k | 0 <= k < i - 1 :: s[k];
      assert (set k | 0 <= k < i :: s[k]) == prefix + {s[i - 1]};
      assert s[i - 1] !in prefix;
    }
  }

  lemma SortedCard(s: seq<Pair>, keys: set<Pair>)
    requires Sorted(s) && Lists(s, keys)
    ensures |s| == |keys|
  {
    PrefixCard(s, |s|);
    assert keys == set k | 0 <= k < |s| :: s[k];
  }

  /** Insert a new key into a sorted list. */
  method Insert(s: seq<Pair>, p: Pair) returns (r: seq<Pair>)
    requires Sorted(s) && p !in s
    ensures Sorted(r)
    ensures forall q :: q in r <==> q == p || q in s
  {
    var k := |s|;
    while k > 0 && Less(p, s[k - 1])
      invariant 0 <= k <= |s|
      invariant forall j | k <= j < |s| :: Less(p, s[j])
    {
      k := k - 1;
    }
    r := s[..k] + [p] + s[k..];
    assert s == s[..k] + s[k..];
  }

  /** The pairs bet on are collected in whatever order the map yields them, sorted, and
      the one at index h modulo their number wins: the result is a function of h and of
      the set of pairs alone. */
  method ChooseWinningPair(h: nat, e: Epoch) returns (p: Pair)
    ensures e.sums == map[] ==> p == Pair(0, 0)
    ensures e.sums != map[] ==>
              && p == Winner(h, e.sums.Keys) && p in e.sums
              && |set k | k in e.sums && (k.i < p.i || (k.i == p.i && k.j < p.j))| == h % |e.sums|
  {
    var keys: seq<Pair> := [];
    var rest := e.sums.Keys;
    while rest != {}
      invariant rest <= e.sums.Keys
      invariant Sorted(keys) && Lists(keys, e.sums.Keys - rest)
      decreases |rest|
    {
      var k :| k in rest;
      rest := rest - {k};
      keys := Insert(keys, k);
    }
    if |keys| == 0 {
      assert forall p :: p in keys <==> p in e.sums.Keys;
      assert e.sums.Keys == {};
      return Pair(0, 0);
    }
    SortedCard(keys, e.sums.Keys);
    assert keys[0] in e.sums.Keys;
    p := keys[h % |keys|];
    SortedRank(keys, e.sums.Keys, h % |keys|);
    RankUnique(e.sums.Keys, p, Winner(h, e.sums.Keys));
    WinnerInFields(h, e.sums);
  }

  /** The sums over the winning pair and over all others, again in any order. */
  method WinnersAndLosers(e: Epoch, star: Pair) returns (w: int, l: int)
    ensures w == StakeOn(e, star)
    ensures w + l == EpochStakes(e)
  {
    w, l := 0, 0;
    var todo := e.sums;
    while todo != map[]
      invariant todo.Keys <= e.sums.Keys && forall p | p in todo :: todo[p] == e.sums[p]
      invariant w == if star in todo then 0 else StakeOn(e, star)
      invariant w + l + MapSum(todo) == EpochStakes(e)
      decreases |todo|
    {
      var p :| p in todo;
      MapSumRemove(todo, p);
      if p == star {
        w := w + todo[p];
      } else {
        l := l + todo[p];
      }
      todo := todo - {p};
    }
  }

  // ----- the chain -----

  class BlockChain {
    const shard: ShardId
    const n: nat
    const beta: nat
    const book: G2EBook
    var pmap: Placement
    var current: Block
    /** The state tries present in the trie database. */
    var roots: set<Accounts>

    constructor (shard: ShardId, n: nat, beta: nat, genesis: Hash)
      requires n > 0
      ensures Valid()
      ensures this.shard == shard && this.n == n && this.beta == beta
      ensures pmap == map[] && book.data == map[] && fresh(book)
      ensures current.number == 0 && current.hash == genesis && current.root == map[]
    {
      this.shard, this.n, this.beta := shard, n, beta;
      pmap := map[];
      current := Block(0, 0, genesis, map[], []);
      roots := {map[]};
      book := new G2EBook();
    }

    /** The state trie of the current block can always be opened. */
    ghost predicate Valid()
      reads this
    {
      n > 0 && current.root in roots
    }

    ghost function EnvNow(): Env
      reads this
    {
      Env(shard, n, pmap, current.number, beta)
    }

    method UpdatePartitionMap(key: Address, val: ShardId)
      modifies this`pmap
      ensures pmap == old(pmap)[key := val]
    {
      pmap := pmap[key := val];
    }

    function GetPartitionMap(key: Address): (s: ShardId)
      requires n > 0
      reads this
      ensures key !in pmap ==> s < n
    {
      Place(pmap, n, key)
    }

    /** The transaction loop of block execution. */
    method ExecuteBody(txs: seq<Tx>) returns (st: Accounts, cnt: nat)
      requires Valid()
      modifies book
      ensures Run(st, book.data, cnt) == ExecTxs(EnvNow(), Run(current.root, old(book.data), 0), txs)
    {
      st, cnt := current.root, 0;
      ghost var run0 := Run(st, book.data, 0);
      for i := 0 to |txs|
        invariant Run(st, book.data, cnt) == ExecTxs(EnvNow(), run0, txs[..i])
      {
        var tx := txs[i];
        assert txs[..i + 1][..i] == txs[..i];
        assert ExecTxs(EnvNow(), run0, txs[..i + 1]) == ExecTx(EnvNow(), Run(st, book.data, cnt), i, tx);
        if !tx.relayed && (GetPartitionMap(tx.sender) == shard || tx.hasBroker) {
          var s := if tx.sender in st then st[tx.sender] else AccountState(i, INIT_BALANCE);
          if s.balance < tx.value {
            continue;
          }
          s := s.(balance := s.balance - tx.value);
          st := st[tx.sender := s];
          cnt := cnt + 1;
          if tx.bet {
            if tx.height < current.number + beta {
              s := s.(balance := s.balance + tx.value);
              st := st[tx.sender := s];
              cnt := cnt - 1;
              continue;
            }
            book.AppendBet(tx.height, Pair(tx.pairI, tx.pairJ), tx.sender, tx.value);
            continue;
          }
        }
        if GetPartitionMap(tx.recipient) == shard || tx.hasBroker {
          var r := if tx.recipient in st then st[tx.recipient] else AccountState(i, INIT_BALANCE);
          r := r.(balance := r.balance + tx.value);
          st := st[tx.recipient := r];
          cnt := cnt + 1;
        }
      }
      assert txs[..|txs|] == txs;
    }

    /** Pay the bets on the winning pair. */
    method PayWinners(st0: Accounts, bets: seq<Bet>, q: int) returns (st: Accounts)
      ensures st == Pay(st0, bets, q)
    {
      st := st0;
      for i := 0 to |bets|
        invariant st == Pay(st0, bets[..i], q)
      {
        assert bets[..i + 1][..i] == bets[..i];
        var gain := bets[i].amount * q;
        var r := if bets[i].player in st then st[bets[i].player] else AccountState(0, INIT_BALANCE);
        st := st[bets[i].player := r.(balance := r.balance + gain)];
      }
      assert bets[..|bets|] == bets;
    }

    /** Settlement of the height about to be built. */
    method SettleNext(h: nat, st0: Accounts) returns (st: Accounts)
      modifies book
      ensures (st, book.data) == Settle(h, st0, old(book.data))
    {
      st := st0;
      var found := book.GetEpoch(h);
      if found.Some? {
        var e := found.value;
        var star := ChooseWinningPair(h, e);
        var w, l := WinnersAndLosers(e, star);
        var q := if w > 0 then l / w else 0;
        if w > 0 {
          st := PayWinners(st, if star in e.byPair then e.byPair[star] else [], q);
        }
        book.Cleanup(h);
      } else {
        assert book.data == book.data - {h};
      }
    }

    /** Execute a block body on the current state; returns the root and stores its trie. */
    method GetUpdateStatusTrie(txs: seq<Tx>) returns (root: Accounts)
      requires Valid()
      modifies this`roots, book
      ensures Valid() && root in roots && old(roots) <= roots <= old(roots) + {root}
      ensures (root, book.data) == Execute(EnvNow(), current.root, old(book.data), txs)
    {
      hide Settle;
      if |txs| == 0 {
        return current.root;
      }
      var st, cnt := ExecuteBody(txs);
      if cnt == 0 {
        return current.root;
      }
      root := SettleNext(current.number + 1, st);
      roots := roots + {root};
    }

    /** Build a block over the given transactions; `hash` is the hash of its header. */
    method GenerateBlock(txs: seq<Tx>, hash: Hash) returns (b: Block)
      requires Valid()
      modifies this`roots, book
      ensures Valid() && b.root in roots
      ensures (b.root, book.data) == Execute(EnvNow(), current.root, old(book.data), txs)
      ensures b == Block(current.number + 1, current.hash, hash, b.root, txs)
    {
      var root := GetUpdateStatusTrie(txs);
      b := Block(current.number + 1, current.hash, hash, root, txs);
    }

    /** Append a block that follows the current one; its body is executed only when its
        state trie is not there yet. */
    method AddBlock(b: Block)
      requires Valid()
      modifies this`current, this`roots, book
      ensures var follows := b.number == old(current).number + 1 && b.parent == old(current).hash;
              && (!follows ==> current == old(current) && roots == old(roots) && book.data == old(book.data))
              && (follows ==> current == b
                              && book.data == BookAfterAdd(old(EnvNow()), old(current).root, old(book.data),
                                                           old(roots), b))
              && (follows && b.root in old(roots) ==> Valid() && roots == old(roots))
              && (follows && b.root == Execute(old(EnvNow()), old(current).root, old(book.data), b.body).0 ==> Valid())
    {
      if b.number != current.number + 1 {
        return;
      }
      if b.parent != current.hash {
        return;
      }
      if b.root !in roots {
        var _ := GetUpdateStatusTrie(b.body);
      }
      current := b;
    }

    /** Install migrated account states in a block of their own. */
    method AddAccounts(addrs: seq<Address>, states: seq<AccountState>, hash: Hash)
      requires Valid() && |addrs| == |states|
      modifies this`current, this`roots
      ensures Valid()
      ensures current == Block(old(current).number + 1, old(current).hash, hash,
                               Adopted(old(EnvNow()), old(current).root, addrs, states), [])
    {
      var st := current.root;
      for i := 0 to |addrs|
        invariant st == Adopted(EnvNow(), current.root, addrs[..i], states[..i])
      {
        assert addrs[..i + 1][..i] == addrs[..i] && states[..i + 1][..i] == states[..i];
        if GetPartitionMap(addrs[i]) == shard {
          st := st[addrs[i] := states[i]];
        }
      }
      assert addrs[..|addrs|] == addrs && states[..|addrs|] == states;
      roots := roots + {st};
      current := Block(current.number + 1, current.hash, hash, st, []);
    }

    /** The states of the given accounts, in order; a missing one reads as a fresh account. */
    method FetchAccounts(addrs: seq<Address>) returns (res: seq<AccountState>)
      ensures |res| == |addrs|
      ensures forall i | 0 <= i < |addrs| :: res[i] == Read(current.root, addrs[i], 0)
    {
      res := [];
      for i := 0 to |addrs|
        invariant |res| == i
        invariant forall k | 0 <= k < i :: res[k] == Read(current.root, addrs[k], 0)
      {
        var s := if addrs[i] in current.root then current.root[addrs[i]] else AccountState(0, INIT_BALANCE);
        res := res + [s];
      }
    }
  }

  /** The state after installing those of the given accounts that the map places here. */
  function Adopted(env: Env, accounts: Accounts, addrs: seq<Address>, states: seq<AccountState>): Accounts
    requires env.n > 0 && |addrs| == |states|
  {
    if addrs == [] then accounts
    else
      var last := |addrs| - 1;
      var before := Adopted(env, accounts, addrs[..last], states[..last]);
      if Local(env, addrs[last]) then before[addrs[last] := states[last]] else before
  }

  // ----- a replica that skips execution -----

  /** The bet book after a block has been appended. */
  ghost function BookAfterAdd(env: Env, accounts: Accounts, book: Book, roots: set<Accounts>, b: Block): Book
    requires env.n > 0
  {
    if b.root in roots then book else Execute(env, accounts, book, b.body).1
  }
}
