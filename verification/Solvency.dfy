/** No account is ever overdrawn: over every run with non-negative values, bets and migrations
    included, the authoritative balance of every account is not negative. */
module Solvency {
  import opened Core
  import opened Ledger
  import opened LedgerRuns
  import opened Protocol
  import opened ProtocolInv
  import opened ProtocolSafety
  import opened Bags
  import opened Holders
  import opened Migration
  import opened ShardedLedger
  import opened BagRuns
  import opened MoneyRuns

  // ----- the system -----

  ghost predicate BooksSound(g: System) {
    forall s | 0 <= s < |g.shards| :: BookSound(g.shards[s].book)
  }

  ghost predicate Solvent(g: System)
    requires Inv(g)
  {
    forall a, v | Holds(g, a, v) :: v >= 0
  }

  lemma CommitSolvent(g: System, s: ShardId)
    requires Inv(g) && Enabled(g, CommitBlock(s)) && Shape(g)
    requires Solvent(g) && BooksSound(g) && AllKeep(Bag(g), NotNegative)
    ensures Inv(Next(g, CommitBlock(s))) && Solvent(Next(g, CommitBlock(s))) && BooksSound(Next(g, CommitBlock(s)))
  {
    Committed(g, s);
    BodyKeeps(g, s, NotNegative);
    var g' := Next(g, CommitBlock(s));
    var sh := g.shards[s];
    var env := EnvAt(g, s);
    assert BookSound(sh.book);
    BlockSolvent(env, sh.accounts, sh.book, sh.phase.body, 0);
    hide Inv, Next, Enabled, Bag, Execute, BookSound, Holds, BalanceOf;
    forall a, v | Holds(g', a, v)
      ensures v >= 0
    {
      CommitHolds(g, s, a, v);
      if Place(sh.pmap, g.n, a) == s {
        BlockSolvent(env, sh.accounts, sh.book, sh.phase.body, a);
        SameBalance(g', a, v, BalanceOf(g'.shards[s].accounts, a));
      }
    }
  }

  lemma QuietSolvent(g: System, act: Action)
    requires Inv(g) && MergedInv(g) && Enabled(g, act) && !act.CommitBlock? && Solvent(g) && BooksSound(g)
    ensures Inv(Next(g, act)) && Solvent(Next(g, act)) && BooksSound(Next(g, act))
  {
    assert Shape(g);
    InvNext(g, act);
    BooksKept(g, act);
    hide Inv, MergedInv, Next, Enabled, Holds, BookSound;
    forall a, v | Holds(Next(g, act), a, v)
      ensures v >= 0
    {
      BalancesSurvive(g, act, a, v);
    }
  }

  lemma StepSolvent(g: System, act: Action)
    requires Inv(g) && MergedInv(g) && Enabled(g, act) && Shape(g)
    requires Solvent(g) && BooksSound(g) && AllKeep(Bag(g), NotNegative)
    ensures Inv(Next(g, act)) && Solvent(Next(g, act)) && BooksSound(Next(g, act))
  {
    hide Inv, MergedInv, Next, Enabled, Solvent, BooksSound, Bag, AllKeep;
    if act.CommitBlock? {
      CommitSolvent(g, act.s);
    } else {
      QuietSolvent(g, act);
    }
  }

  lemma InitSolvent(n: nat, beta: nat)
    requires n > 0
    ensures Inv(Init(n, beta)) && Solvent(Init(n, beta)) && BooksSound(Init(n, beta))
  {
    InvInit(n, beta);
    hide Inv, HomeAt;
  }

  /** In every state of every run that injects non-negative values, every account's authoritative
      balance is not negative, wherever it lives or on its way between shards, and every bet book
      has true sums and no negative bet. */
  lemma {:induction false} NeverOverdrawn(states: seq<System>, acts: seq<Action>, n: nat, beta: nat, i: nat)
    requires n > 0 && IsRun(states, acts, n, beta) && InjectsKeep(acts, NotNegative) && i < |states|
    ensures Inv(states[i]) && Solvent(states[i]) && BooksSound(states[i])
  {
    hide Inv, Next, Enabled, Init, MergedInv, Solvent, BooksSound, Bag, AllKeep;
    if i == 0 {
      InitSolvent(n, beta);
    } else {
      NeverOverdrawn(states, acts, n, beta, i - 1);
      RunMerged(states, acts, n, beta, i - 1);
      RunKeeps(states, acts, n, beta, i - 1, NotNegative);
      StepSolvent(states[i - 1], acts[i - 1]);
    }
  }
}
