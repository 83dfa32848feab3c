/** What every transaction in the system keeps over a run: any property of injected transactions
    that marking a transaction as relayed does not change. */
module BagRuns {
  import opened Core
  import opened Protocol
  import opened ProtocolInv
  import opened ProtocolSafety
  import opened Bags
  import opened BagSteps
  import opened Conservation
  import opened ShardedLedger

  /** A property that a transaction still has when it is relayed. */
  ghost predicate Lasting(keep: Tx -> bool) {
    forall tx | keep(tx) :: keep(tx.(relayed := true))
  }

  ghost predicate AllKeep(txs: multiset<Tx>, keep: Tx -> bool) {
    forall tx | tx in txs :: keep(tx)
  }

  ghost predicate InjectsKeep(acts: seq<Action>, keep: Tx -> bool) {
    forall i | 0 <= i < |acts| :: InjectKeeps(acts[i], keep)
  }

  ghost predicate InjectKeeps(act: Action, keep: Tx -> bool) {
    act.Inject? ==> keep(act.tx)
  }

  lemma {:induction false} CrossingKeeps(body: seq<Tx>, pmap: Placement, n: nat, s: ShardId, keep: Tx -> bool)
    requires n > 0 && Lasting(keep) && AllKeep(multiset(body), keep)
    ensures AllKeep(multiset(Crossing(body, pmap, n, s)), keep)
  {
    if body != [] {
      var last := |body| - 1;
      assert body == body[..last] + [body[last]];
      CrossingKeeps(body[..last], pmap, n, s, keep);
      assert body[last] in multiset(body);
    }
  }

  /** The body of a proposed block is among the transactions of the system. */
  lemma BodyKeeps(g: System, s: ShardId, keep: Tx -> bool)
    requires Shape(g) && s < g.n && g.shards[s].phase.Proposed? && AllKeep(Bag(g), keep)
    ensures AllKeep(multiset(g.shards[s].phase.body), keep)
    ensures forall i | 0 <= i < |g.shards[s].phase.body| :: keep(g.shards[s].phase.body[i])
  {
    BodyInBag(g, s);
    hide Bag;
    forall i | 0 <= i < |g.shards[s].phase.body|
      ensures keep(g.shards[s].phase.body[i])
    {
      assert g.shards[s].phase.body[i] in multiset(g.shards[s].phase.body);
    }
  }

  lemma Proposing(g: System, s: ShardId)
    requires Shape(g) && Enabled(g, CommitBlock(s))
    ensures g.n > 0 && s < g.n && |g.shards| == g.n && g.shards[s].phase.Proposed?
  {
  }

  lemma CommitKeeps(g: System, s: ShardId, keep: Tx -> bool)
    requires Inv(g) && Enabled(g, CommitBlock(s)) && Shape(g) && Lasting(keep) && AllKeep(Bag(g), keep)
    ensures Shape(Next(g, CommitBlock(s))) && AllKeep(Bag(Next(g, CommitBlock(s))), keep)
  {
    hide Inv, Next, Enabled, Bag, Crossing, Lasting, Shape;
    Proposing(g, s);
    CommitBlockBag(g, s);
    BodyKeeps(g, s, keep);
    var sh := g.shards[s];
    CrossingKeeps(sh.phase.body, sh.pmap, g.n, s, keep);
    var bag, out := Bag(Next(g, CommitBlock(s))), multiset(Crossing(sh.phase.body, sh.pmap, g.n, s));
    forall tx | tx in bag
      ensures tx in Bag(g) || tx in out
    {
      assert tx in bag + multiset(sh.phase.body);
      assert tx in Bag(g) + out;
    }
  }

  lemma StepKeeps(g: System, act: Action, keep: Tx -> bool)
    requires Inv(g) && Enabled(g, act) && Shape(g) && Lasting(keep) && AllKeep(Bag(g), keep) && InjectKeeps(act, keep)
    ensures Shape(Next(g, act)) && AllKeep(Bag(Next(g, act)), keep)
  {
    hide Inv, Next, Enabled, Bag, Lasting;
    if act.CommitBlock? {
      CommitKeeps(g, act.s, keep);
    } else if act.Inject? {
      InjectBag(g, act.tx);
    } else {
      OtherBag(g, act);
    }
  }

  /** In every state of a run every transaction, queued, proposed, extracted or on its way, has
      the property that the injected ones have. */
  lemma {:induction false} RunKeeps(states: seq<System>, acts: seq<Action>, n: nat, beta: nat, i: nat, keep: Tx -> bool)
    requires n > 0 && IsRun(states, acts, n, beta) && i < |states| && Lasting(keep) && InjectsKeep(acts, keep)
    ensures Inv(states[i]) && Shape(states[i]) && AllKeep(Bag(states[i]), keep)
  {
    hide Inv, Next, Enabled, Init, Bag, AllKeep, Lasting, InjectKeeps;
    RunInv(states, acts, n, beta, i);
    if i == 0 {
      InitBag(n, beta);
      NoneKeeps(keep);
    } else {
      RunKeeps(states, acts, n, beta, i - 1, keep);
      StepKeeps(states[i - 1], acts[i - 1], keep);
    }
  }

  lemma NoneKeeps(keep: Tx -> bool)
    ensures AllKeep(multiset{}, keep)
  {
  }
}
