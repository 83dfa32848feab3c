# A verified model of a sharded blockchain emulator

BlockEmulator runs several blockchain shards that exchange transactions and, from time to time, move
accounts between shards. This project models its core in Dafny and proves what the design relies on.

The model has five parts.

* **The ledger of one shard** (`Ledger`, `LedgerLaws`, `LedgerRuns`, `BetRuns`, `Blockchain`, `Replica`).
  Block execution debits local senders, credits local recipients, books bets and settles the bets on the
  block that is being built. `Ledger` gives the meaning as functions; `Blockchain` holds the classes that
  update the state in place, each method proved equal to those functions; `BetRuns` follows the bets of one
  account from the transactions that place them to what is paid for them; `Replica` compares the bet books
  of a leader and a replica.
* **Migration** (`Extraction`, `Protocol`, `ProtocolInv`, `ProtocolSteps`, `MigrationSteps`,
  `ProtocolSafety`, `Progress`, `QueueOrder`, `RelayLaws`, `BarrierLimits`, `BarrierBlocks`, `ReadyLoss`,
  `Leader`). All shard leaders, the supervisor's maps and the channels between them form one transition
  system in which messages may be delayed, and relays and injected transactions arrive in any order.
  `Progress` says what each step of a migration waits for, `QueueOrder` in which order transactions are
  handled and `RelayLaws` what a committed block sends and reports. `BarrierLimits` has runs that show what
  the assumptions are for; `BarrierBlocks` and `ReadyLoss` say when a migration can never be completed.
  `Leader` is the program of one leader, proved step by step to do what the transition system says.
* **The sharded system as one ledger** (`Bank`, `Bags`, `BagSteps`, `Holders`, `Refinement`,
  `Conservation`, `Migration`, `ShardedLedger`, `BagRuns`, `MoneyRuns`, `FundedRuns`, `Solvency`, `Limits`,
  `BetLimits`). The whole system with blocks, relays and migrations refines a single ledger without shards.
  Exactly-once execution and the survival of balances are consequences. `MoneyRuns` has the equation for
  all money of the system over every run, with bets, `FundedRuns` the exact condition for conservation, and
  `Solvency` that no account is ever overdrawn.
* **The partition algorithm and its supervisor** (`ClpaSpec`, `ClpaMoves`, `Clpa`, `Supervisor`, `Reports`):
  constrained label propagation with its incrementally maintained counters, and the routing that follows
  its results. `ClpaMoves` says exactly which moves a run makes.
* **Consensus inside a shard and the broker committee** (`Pbft`, `PbftInv`, `PbftSafety`, `Agreement`,
  `Rounds`, `CatchUps`, `Heights`, `PbftNode`; `BrokerLegs`, `BrokerCommittee`). `Agreement` has what no run
  can do, `Rounds` that every chain can be agreed on, and `CatchUps` and `Heights` what a lagging replica
  gets.

`Core` and `Sums` hold the shared types and sums over maps.

## How the program is represented

* An address is the number its hexadecimal text denotes. Hashes and digests are injective, so a hash is a
  number, a block in `Pbft` contains its parent, and a state root is the account map itself.
* An account that is missing from the state reads as the initial balance everywhere, as in the program.
* Heights, sequence numbers and amounts are unbounded, as amounts are in the program.
* Go maps are visited in an arbitrary order. The loops here pick elements in any order, and the contracts
  show that the order does not matter.
* A handler runs under the node's lock and is one step. A handler that waits for a condition is a step
  that is enabled when the condition holds. Network, clock and hash values are parameters.
* The migration system restricts its environment in two ways, each marked ASSUMPTION in `Protocol.dfy`: a map
  reaches a shard only after the shard has installed the previous one; and what is still on its way to a
  shard when it extracts, relayed or injected, is not decided by an account that leaves the shard. Both are
  exact. `ProtocolSafety.OnePendingIff` and `ProtocolSafety.SecondMapSkipped` show what happens without the
  first. `MigrationSteps.ExtractSafeIff` shows that extraction keeps the invariant if and only if the second
  holds; `BarrierLimits.BarrierIgnoresUnheard`, `BarrierLimits.BarrierIgnoresOvertaken` and
  `BarrierLimits.BarrierIgnoresInjected` are runs in which the program passes the barrier without it.
  `MigrationSteps.BarrierSafe` says exactly when the program's own check covers the relays.
  `BarrierLimits.MigrationCompletes` is a run that meets both and installs a map.
* The consensus model has one restriction, marked ASSUMPTION in `Pbft.dfy`: pre-prepares come from the
  leader, and up to f faulty nodes vote for anything, with one message for each phase and digest. Faulty
  votes and catch-up traffic may come together. `Agreement.AnyRequestIsTaken` and `Agreement.TakenIff` say
  what a replica does with a pre-prepare of anybody else, and `Agreement.ForeignProposal` is a case in
  which it leaves the leader's chain.
* The refinement to the single ledger is about runs of transfers, `Plain` transactions. The program's own
  constructor (`core/transaction.go:102`) marks every transaction as a bet, so these runs exclude what it
  builds. Everything else covers bets: the ledger of one shard, the migration invariant, the ownership
  results, `Migration.RoundKeepsBalances`, `MoneyRuns.MoneyEquation` and `MoneyRuns.CreatedIff`.

## What turned out not to hold

Each of these is a lemma with a concrete case or an exact condition; the code is modelled as it is.

* A cross-shard transfer whose sender cannot pay is relayed all the same, and its value appears at the
  recipient (`Limits.UnfundedRelayMints`). A cross-shard bet is booked or rolled back in the sender's shard
  and relayed as well, so that its value is credited a second time (`LedgerLaws.RelayPaidIff`,
  `BetLimits.BetIsRelayed`). Over any run, money is created exactly when one of these two happens
  (`MoneyRuns.CreatedIff`, and `FundedRuns.ConservedIff` for transfers).
* At settlement the winners' own stakes are not returned, and a winner whose account has moved away is paid
  in the shard it left, where the payment is lost (`MoneyRuns.LostSplits`).
* The readiness barrier compares the peer's number with the last relay received. It does not notice a relay
  of a peer it has never heard of, nor one that was overtaken (`MigrationSteps.BarrierSafe`,
  `BarrierLimits.BarrierIgnoresUnheard`, `BarrierLimits.BarrierIgnoresOvertaken`), nor an injected transaction
  (`BarrierLimits.BarrierIgnoresInjected`). If the account that decides such a transaction leaves, every
  block with the transaction panics (`BarrierLimits.LateTransactionPanics`).
* The barrier waits for a relay with the number before the one the peer announces, and sometimes there is
  none to come: when the peer has committed no block since its last migration, or when its last two relays
  arrived in the wrong order. Then no map is ever installed again (`BarrierBlocks.QuietRoundBlocks`,
  `BarrierBlocks.OvertakingBlocks`, `BarrierBlocks.BlockedForever`).
* A shard that is told of a peer's readiness for the next map before it has installed the current one
  forgets it on installing, and the next map is never installed (`ReadyLoss.EarlyReadyLost`,
  `ReadyLoss.EarlyReadyHappens`).
* With a single shard a migration is never proposed, because no extract arrives (`Progress.MergesIff`).
* When a second map arrives before the first is installed, accounts leave by the second map, the placement
  becomes that of the first, and both count as installed, so the second is never installed
  (`ProtocolSafety.OnePendingIff`, `ProtocolSafety.SecondMapSkipped`).
* A replica that already has a block's state root does not execute the block and misses its bets
  (`Replica.BookAgreesIff`, `Replica.MissesBet`).
* Bets on a block are never paid if that block installs a migration or has no effect
  (`LedgerRuns.NeverSettledIff`).
* Bets on a block that is already appended are still accepted when the closing window is zero
  (`LedgerRuns.WindowIff`, `LedgerRuns.LateBet`).
* A self-loop in the graph makes the incremental edge counts wrong (`ClpaSpec.IncrementalIff`,
  `ClpaSpec.LoopMiscounts`), and adding a vertex twice counts it twice (`Clpa.CLPAState.AddVertex`). The
  final recount of a run is right in any case.
* Votes are counted by message object, so repeated messages of one node count as several votes
  (`Agreement.OneSenderSuffices`). A correct node that catches up may repeat a prepare
  (`Agreement.AnsweredTwice`, `Agreement.CountedTwice`), but never a commit.
* Quorums of 2f+1 share a correct node only with 3f+1 nodes; the program also accepts 3f+2 and 3f+3
  (`Agreement.MeetIff`).
* A replica that misses a request asks for the heights above its sequence number, so not for the one it
  lacks: the answer adds no block, and its sequence number moves on (`CatchUps.OwnAskMissesOne`,
  `CatchUps.CatchUpExtends`).
* The pre-prepare handler does not look at the sender (`Agreement.AnyRequestIsTaken`,
  `Agreement.ForeignProposal`).
* A leg that is reported twice breaks its confirmation list (`BrokerLegs.ReportIff`).

## Model

| member | source | states |
|---|---|---|
| Core.Addr2ShardInDigits | utils/utils_partition.go:11-21 | the default shard depends on the last eight digits only, and differs from their number by a multiple of the shard count |
| Ledger.Winner | chain/blockchain.go:495-511 | the winner is one of the pairs bet on, and its rank, the number of pairs below it, is the height modulo the number of pairs |
| Ledger.WinnerInFields | chain/blockchain.go:495-511 | in the numbers of the pairs: those with a smaller first number than the winner, or the same first and a smaller second, are as many as the height modulo the number of pairs |
| Ledger.RankExists | chain/blockchain.go:496-510 | every rank below the number of pairs is taken by a pair, so a winner exists for every height |
| Ledger.RankUnique | chain/blockchain.go:501-506 | a pair is determined by its rank, so the winner does not depend on the order the pairs are collected in |
| LedgerLaws.AppendBetLaw | chain/g2e_book.go:28-41 | a bet adds its amount to the open stakes and nothing else |
| LedgerLaws.AppendBetKeepsBook | chain/g2e_book.go:28-41 | after every bet each stored sum still equals the sum of the bets on its pair |
| LedgerLaws.RollbackLaw | chain/blockchain.go:131-138 | debiting a late bet and rolling it back leaves every balance, and so the total, as it was |
| LedgerLaws.TxLaw | chain/blockchain.go:97-172 | one transaction, of any kind, changes balances plus open stakes by exactly the value credited without a local debit minus the value debited without a local credit |
| LedgerLaws.TxInFields | chain/blockchain.go:97-172 | for each account by itself, in the fields of the transaction: the sender loses the value if it is debited here, funded and not a bet that comes too late; the recipient gains it if it lives here, unless the transaction is a bet or its sender is debited here and cannot pay; nobody else is touched |
| LedgerLaws.NonceInFields | chain/blockchain.go:104-112 | a nonce never changes once the account is there, and an account that a transaction brings in gets the index of the transaction |
| LedgerLaws.NoEffect | chain/blockchain.go:174-176 | a body that counts no modified account booked no bet, moved no value and left every balance unchanged, so returning the old root early loses nothing |
| LedgerLaws.SettlementPayout | chain/blockchain.go:180-224 | the winning pair has bets; the total paid is W * (L div W), never more than the losers' stakes, and exactly L mod W of them stays undistributed; with W = 0 nothing is paid; the target leaves the book |
| LedgerLaws.LedgerEquation | chain/blockchain.go:84-240 | for every block: change of balances plus change of open stakes plus what settlement burns equals inflow minus outflow, and the book's sums stay true |
| LedgerRuns.LosersNonNegative | chain/blockchain.go:187-200 | with non-negative bets the losers' stakes, and so the rate, are not negative |
| LedgerRuns.BlockNonNegative | chain/blockchain.go:84-240 | with non-negative values no balance and no bet becomes negative, settlement included |
| LedgerRuns.BlockSolvent | chain/blockchain.go:84-240 | for each account by itself: if its balance is not negative and no value is, then neither is its balance after the block, whatever the others hold, and the book stays sound |
| LedgerRuns.EpochFrozen | chain/blockchain.go:130-142 | once block t has been appended, no later block of any run changes the bets on t |
| LedgerRuns.SettledOnce | chain/blockchain.go:178-224 | over any run a target is settled at most once, only by the block of that number, and its bets are gone afterwards, so no bet is paid twice |
| LedgerRuns.NoEffectIff | chain/blockchain.go:97-176 | a body counts no modified account if and only if each of its transactions, on the balances before the block, is neither debited nor credited here, or cannot be paid, or is a bet that comes too late |
| LedgerRuns.NeverSettledIff | chain/blockchain.go:174-224 | after any run past block t the bets on t are still in the book, unchanged and never to be paid, if and only if there were some when the block was built and the block installed a migration or had no effect |
| LedgerRuns.WindowIff | chain/blockchain.go:129-138 | the bets on appended blocks are safe from every next block if and only if the closing window is at least one |
| LedgerRuns.LateBet | chain/blockchain.go:129-142 | with window zero, from any state, some block books a bet on the block just appended |
| BetRuns.BodyBets | chain/blockchain.go:129-142 | after a body the bets on a target and pair are those before it followed by one for each transaction that places one, in body order, with the sender as player and the value as amount |
| BetRuns.RunBets | chain/blockchain.go:129-142 | over every run of blocks that starts with an empty book, the bets on a target whose block is not built yet are those that the bodies of the run placed, in order |
| BetRuns.SettleOwn | chain/blockchain.go:178-224 | settlement changes the balance of each account by its own stake on the winning pair times the rate, and of no other account |
| BetRuns.BettorsArePaid | chain/blockchain.go:97-224 | from the bodies of a run to the payment: the block a target names pays to every account exactly the rate times what this account itself placed, in the run and in the block, on the winning pair |
| BetRuns.BlockBets | chain/blockchain.go:84-240 | when the block of a target is settled, the bets and the stake on each of its pairs are those that the run and the block itself placed |
| BetRuns.NoBetNoGain | chain/blockchain.go:178-224 | an account that has sent no booked bet gains nothing from the settlement of any block of any run |
| Blockchain.G2EBook.AppendBet | chain/g2e_book.go:28-41 | the in-place update is the book with the bet appended to its pair and added to the pair's sum |
| Blockchain.SortedRank | chain/blockchain.go:501-510 | in a sorted duplicate-free list of the pairs the index of a pair is its rank |
| Blockchain.ChooseWinningPair | chain/blockchain.go:495-511 | collecting the pairs in any order, sorting and indexing gives a pair that was bet on, and the pairs with a smaller first number, or the same first and a smaller second, are as many as the height modulo the number of pairs |
| Blockchain.WinnersAndLosers | chain/blockchain.go:184-193 | visiting the sums in any order gives the winner's stake and the total of all other stakes |
| Blockchain.BlockChain.ExecuteBody | chain/blockchain.go:97-172 | the loop over the body computes the accounts, the book and the count of the functional ledger, which `LedgerLaws.TxInFields` and `BetRuns.BodyBets` characterise by the fields of the transactions |
| Blockchain.BlockChain.PayWinners | chain/blockchain.go:203-221 | every bet on the winning pair is paid its amount times the rate, in order |
| Blockchain.BlockChain.SettleNext | chain/blockchain.go:178-224 | settlement of the next height is the functional one, whatever order the maps are visited in |
| Blockchain.BlockChain.GetUpdateStatusTrie | chain/blockchain.go:84-240 | the returned root and the new book are a function of the state and the body, including both early returns, so equal nodes stay equal |
| Blockchain.BlockChain.GenerateBlock | chain/blockchain.go:243-268 | the block extends the current one by one, carries the root of executing its body, and the book has the bets of that body |
| Blockchain.BlockChain.AddBlock | chain/blockchain.go:306-325 | a block that does not follow is dropped without effect; one that follows becomes current, and is executed exactly when its root is new |
| Blockchain.BlockChain.AddAccounts | chain/blockchain.go:391-444 | received states of accounts that live here are installed, all others ignored, in a block of their own without transactions |
| Blockchain.BlockChain.FetchAccounts | chain/blockchain.go:447-469 | the states come back in the order asked for, a missing account as a fresh one |
| Replica.LoopBookIff | chain/blockchain.go:97-142 | after a body, and without the target that is settled, the book is the old one if and only if that target had no bets and every bet the body booked names it |
| Replica.BookAgreesIff | chain/blockchain.go:317-323 | a replica equal to the leader has the leader's book after appending the block if and only if the root was new to it, or no transaction took effect, or nobody had bet on the block itself and every accepted bet of the body (local, funded at its turn, window open) is on the block itself |
| Replica.MissesBet | chain/blockchain.go:317-323 | there is a block with a bet whose root the replica already has, so that the books differ afterwards |
| Extraction.PickSplits | consensus_shard/pbft_all/accountTransfer_module.go:86-103 | one pass splits the queue, as a multiset, into what stays, what is sent and what becomes cross-shard |
| Extraction.PickKeepsOrder | consensus_shard/pbft_all/accountTransfermod_Broker.go:87-126 | each part of a pass is the queue read at increasing positions |
| Extraction.ExtractionSplits | consensus_shard/pbft_all/accountTransfermod_Broker.go:72-126 | after the passes for all destinations the old queue equals what remains plus what was sent to each shard plus what became cross-shard, in both modes |
| Extraction.RemainingStays | consensus_shard/pbft_all/accountTransfer_module.go:88-103 | whatever remains was queued and is wanted by none of the passes |
| Extraction.SentIsKeyed | consensus_shard/pbft_all/accountTransfer_module.go:90-97 | whatever is sent to a shard was queued, is keyed by an account moving to that shard, and was wanted by no earlier pass |
| Extraction.CrossedIsInner | consensus_shard/pbft_all/accountTransfermod_Broker.go:96-108 | whatever becomes cross-shard is an inner-shard transfer without a broker of which one end moves away |
| Extraction.RemainsIff | consensus_shard/pbft_all/accountTransfermod_Broker.go:87-126 | in fields and in both modes: a transaction remains if and only if it was queued and, in no pass, the account that decides it moves and, without a broker, neither of its ends does |
| Extraction.SentIff | consensus_shard/pbft_all/accountTransfermod_Broker.go:87-126 | in fields and in both modes: a transaction is sent to a shard if and only if it was queued, the account that decides it moves there, and no earlier pass has taken it |
| Extraction.TxPool.PackTxs | core/txpool.go:56-66 | the longest prefix within the limit is taken, and packed plus rest is the old queue |
| Extraction.TxPool.ExtractRelay | consensus_shard/pbft_all/accountTransfer_module.go:86-103 | the two-index loop that overwrites the queue leaves exactly the staying transactions and returns exactly the sent ones, each in queue order |
| Extraction.TxPool.ExtractBroker | consensus_shard/pbft_all/accountTransfermod_Broker.go:87-126 | the branching loop leaves the staying transactions, returns the sent ones and appends those turned cross-shard, each in queue order; `Extraction.RemainsIff` and `Extraction.SentIff` say which these are |
| ProtocolInv.HomeStable | supervisor/committee/committee_clpa.go:142-152 | publishing another map does not change the placement after the earlier ones |
| ProtocolSteps.CommitBlockKeepsInv | consensus_shard/pbft_all/pbftInside_moduleCLPA.go:76-128 | committing a block keeps the invariant, and its "incorrect tx" panic is not reached |
| MigrationSteps.BarrierPeer | consensus_shard/pbft_all/accountTransfer_module.go:40-55 | when the barrier passes, a peer is ready in the same round, its announced number is its current one, and every relay it ever sent has arrived or is on its way with a smaller number |
| MigrationSteps.BarrierSafe | consensus_shard/pbft_all/accountTransfer_module.go:17-55 | when a leader passes the barrier, every peer is held in the migration of the same round, so that no relay of the new map can reach it before it has extracted; no relay of the old map is on its way from a peer if and only if as many have arrived as the peer's number tells, which is so if and only if the peer has relayed nothing, or has been heard of and none of its relays was overtaken |
| MigrationSteps.StaysIff | consensus_shard/pbft_all/accountTransfer_module.go:60-66 | a transaction that is at home stays at home under the next map if and only if the account that decides it does not leave |
| MigrationSteps.ExtractSafeIff | consensus_shard/pbft_all/accountTransfer_module.go:58-122 | extracting at a passed barrier keeps the invariant if and only if nothing on its way to the leader, relayed or injected, is decided by an account that leaves |
| MigrationSteps.RemainingAtHome | consensus_shard/pbft_all/accountTransfer_module.go:58-103 | what stays in the queue after extraction belongs to the shard under the next map |
| MigrationSteps.XferToOk | consensus_shard/pbft_all/accountTransfer_module.go:60-111 | an extract carries exactly the accounts that move from one shard to the other, and only transactions keyed by them |
| MigrationSteps.CollectedOk | consensus_shard/pbft_all/accountTransfer_module.go:132-151 | the collected extracts hold the states of exactly the arriving accounts, and the "error tx" panic is not reached, in any order of merging |
| MigrationSteps.MergePanicsIff | consensus_shard/pbft_all/accountTransfer_module.go:142-151 | proposing a migration panics if and only if some extract has a transaction whose deciding account the map does not place here, where an account the map does not list counts as placed in shard 0, whatever the order of merging |
| ProtocolSafety.InvNext | consensus_shard/pbft_all/accountTransfer_module.go:17-209 | every step of any leader, the supervisor or the network, relays and injections in any order, keeps the invariant that is indexed by how far each shard has come |
| ProtocolSafety.RunInv | consensus_shard/pbft_all/accountTransfer_module.go:17-209 | the invariant holds in every state of every run |
| ProtocolSafety.QueuedAtHome | consensus_shard/pbft_all/pbftInside_moduleCLPA.go:101-121 | in every state of every run each queued transaction sits where its deciding account lives, under the old map before the shard has extracted and under the new one after, and no leader has panicked |
| ProtocolSafety.PlacementsAgree | chain/blockchain.go:69-76 | a pending round is the last map received; shards that installed equally many maps place every account alike, as those maps applied in order to the default; with all maps installed this is the supervisor's placement |
| ProtocolSafety.OnePendingIff | consensus_shard/pbft_all/accountTransfer_module.go:160-194 | a leader with one map pending receives k more before it proposes: whatever these are, after the commit every account is placed as the counted maps say, if and only if k is zero |
| ProtocolSafety.SecondMapSkipped | consensus_shard/pbft_all/accountTransfer_module.go:60-66 | two pending maps at one shard: the accounts that leave are those of the second, the placement becomes that of the first, and both count as installed |
| Progress.BarrierIff | consensus_shard/pbft_all/accountTransfer_module.go:40-55 | in terms of the whole system: a waiting leader passes the barrier if and only if the readiness of every peer has reached it and the last relay that has arrived from a peer, if any, has the number before the peer's current one |
| Progress.MergesIff | consensus_shard/pbft_all/pbftOutside_moduleCLPA.go:123-138 | in every run a leader that has extracted can propose the migration if and only if there are other shards, all of them have extracted for the same round, and all their extracts have arrived |
| Progress.RunHeights | consensus_shard/pbft_all/accountTransfer_module.go:178-209 | through blocks and migrations the sequence number of every leader stays one above its height |
| Progress.NextMapFollows | supervisor/committee/committee_clpa.go:154-156 | when a shard that has installed every map commits a block, its report lets the supervisor send the next one |
| QueueOrder.FirstComeFirstServed | core/txpool.go:37-66 | over every stretch of a run without a migration of the shard: the queue before and what arrived since are, in order, what was proposed since and the queue after |
| RelayLaws.RelayedInFields | consensus_shard/pbft_all/pbftInside_moduleCLPA.go:101-121 | what a body relays to a shard is, in body order, each transaction whose recipient lives there, unchanged but for the mark |
| RelayLaws.KindsCover | consensus_shard/pbft_all/pbftInside_moduleCLPA.go:101-121 | the lists of inner, relayed and arrived transactions hold every transaction of the body exactly once |
| RelayLaws.ReportInFields | consensus_shard/pbft_all/pbftInside_moduleCLPA.go:101-121 | in fields: which transactions of a body that does not panic are in each of the three lists |
| Bank.ApplyConserves | chain/blockchain.go:97-172 | executing a live transaction changes balances plus value in flight by exactly what it mints |
| Bank.ApplyKeepsInv | chain/blockchain.go:97-172 | on the single ledger the total equals what was minted, no hash is debited or credited twice and no credit precedes its debit |
| BagSteps.CommitBlockBag | consensus_shard/pbft_all/pbftInside_moduleCLPA.go:96-128 | committing a block takes its body out of the live transactions and puts its relayed halves in, each once |
| BagSteps.OtherBag | consensus_shard/pbft_all/accountTransfer_module.go:58-151 | no step but an injection or a committed block changes the multiset of live transactions: migration loses and duplicates none |
| Holders.OneOwner | consensus_shard/pbft_all/accountTransfer_module.go:58-209 | no two shards hold the same account |
| Holders.TransitHasNoOwner | consensus_shard/pbft_all/accountTransfer_module.go:67-117 | an account on its way between shards is held by none |
| Holders.OneTransit | consensus_shard/pbft_all/accountTransfer_module.go:78-84 | an account is on its way along at most one channel |
| Holders.SomeHolder | consensus_shard/pbft_all/accountTransfer_module.go:58-209 | every account is held by a shard or is on its way |
| Holders.ExactlyOneBalance | consensus_shard/pbft_all/accountTransfer_module.go:58-209 | in every state every account has one authoritative balance and no second one |
| Refinement.ExecOne | chain/blockchain.go:97-172 | executing one transaction where it belongs does to the local balances what the single ledger does, and the ledger touches no other balance |
| Refinement.BodyApplies | consensus_shard/pbft_all/pbftInside_moduleCLPA.go:101-121 | every transaction of a body is live when its turn comes, and the body is replaced by its relayed halves |
| Conservation.InstallMatches | chain/blockchain.go:391-444 | installing a migration gives the new owner the ledger's balances, whatever stale state it still had |
| Conservation.CommitBlockMatch | chain/blockchain.go:84-172 | a committed block keeps every recorded balance of the whole system equal to the ledger's |
| Migration.BalancesSurvive | consensus_shard/pbft_all/accountTransfer_module.go:58-209 | no step other than a committed block changes any account's balance, even when an account returns to a shard with an old state of it |
| Migration.BlockLeaves | chain/blockchain.go:84-240 | a block leaves an account's balance alone if none of its transactions names the account and the account has no bet on the block |
| Migration.RoundKeepsBalances | consensus_shard/pbft_all/accountTransfer_module.go:58-209 | over any stretch of a run whose committed blocks do not touch an account, so over a whole migration round while other shards commit blocks, the account keeps its balance; bets may be present |
| ShardedLedger.SimNext | consensus_shard/pbft_all/pbftInside_moduleCLPA.go:22-128 | every step of the sharded system is the named step of the single ledger |
| ShardedLedger.RunRefines | consensus_shard/pbft_all/pbftInside_moduleCLPA.go:22-128 | every run of non-bet transfers with distinct hashes refines the run of the single ledger |
| ShardedLedger.MoneyConserved | chain/blockchain.go:97-172 | over every such run each account's authoritative balance is the ledger's, all gains plus the value in flight equal what was minted, and every transfer is debited once at most, credited once at most and never credited first |
| MoneyRuns.LocalEquation | chain/blockchain.go:84-240 | for every block of transactions that are where they belong: the balances of the accounts that live in the shard, plus open stakes, plus what the settlement pays to none of them, change by inflow minus outflow |
| MoneyRuns.LostSplits | chain/blockchain.go:203-221 | what a settlement takes from the stakes and pays to no account of the shard is what it burns plus what it pays to winners whose accounts have moved away |
| MoneyRuns.FlowsMatch | consensus_shard/pbft_all/pbftInside_moduleCLPA.go:101-121 | what a body credits is the value of its relayed transactions; what it relays is what it debits for other shards plus the value of cross-shard bets and of transfers that could not be paid |
| MoneyRuns.CommitAssets | consensus_shard/pbft_all/pbftInside_moduleCLPA.go:37-128 | a committed block changes all authoritative balances of the system plus open stakes plus value on its way by what it relays unpaid minus what its settlement loses |
| MoneyRuns.MoneyEquation | consensus_shard/pbft_all/pbftInside_moduleCLPA.go:37-128 | in every state of every run, with bets and migrations: all authoritative balances, open stakes, value on its way and losses of settlements add up to what blocks relayed without taking it from anybody |
| MoneyRuns.CreatedIff | consensus_shard/pbft_all/pbftInside_moduleCLPA.go:101-121 | with positive values the same sum is zero if and only if every cross-shard transaction committed before was a transfer its sender could pay at its turn, and positive otherwise |
| FundedRuns.TotalIsUnpaid | consensus_shard/pbft_all/pbftInside_moduleCLPA.go:101-121 | in every state of every run of transfers the ledger's gains plus the value in flight equal the value the committed blocks relayed unpaid |
| FundedRuns.ConservedIff | consensus_shard/pbft_all/pbftInside_moduleCLPA.go:110-113 | with positive values, in every state of every run of transfers all gains plus the value in flight are zero if and only if every block committed before could pay for each of its cross-shard transfers from the balance the sender had at its turn |
| BagRuns.RunKeeps | consensus_shard/pbft_all/pbftInside_moduleCLPA.go:101-121 | in every state of every run each transaction, queued, proposed, extracted or on its way, has every property that all injected ones have and relaying keeps |
| Solvency.NeverOverdrawn | chain/blockchain.go:84-240 | in every state of every run with non-negative values, bets and migrations included, no authoritative balance is negative and every bet book has true sums and no negative bet |
| Limits.UnfundedRelayMints | consensus_shard/pbft_all/pbftInside_moduleCLPA.go:110-113 | for every value above the initial balance there is a run of four steps after which that value exists in addition |
| LedgerLaws.RelayPaidIff | consensus_shard/pbft_all/pbftInside_moduleCLPA.go:101-113 | the value that is relayed for a committed cross-shard transaction was taken out of the balances and stakes of the shard if and only if it is not a bet and the sender could pay |
| BetLimits.BetKeepsMoney | chain/blockchain.go:129-142 | from any accounts and book, a block of bets keeps balances plus stakes of its shard as they were, up to what its settlement burns, whether the bets are booked, rolled back or not funded |
| BetLimits.BetIsRelayed | consensus_shard/pbft_all/pbftInside_moduleCLPA.go:101-113 | for every value and every target but the next block there is a reachable state in which the shard of a cross-shard bet has kept all its money and the value is on its way to be credited elsewhere |
| BarrierLimits.LateTransactionPanics | consensus_shard/pbft_all/pbftInside_moduleCLPA.go:101-121 | if the account that decides a transaction leaves, every block with the transaction in it panics under the new map |
| BarrierLimits.BarrierIgnoresUnheard | consensus_shard/pbft_all/accountTransfer_module.go:49-54 | there is a reachable state in which a leader passes the barrier while the first relay of a peer it has not heard of, with a transaction that will panic, is on its way |
| BarrierLimits.BarrierIgnoresOvertaken | consensus_shard/pbft_all/accountTransfer_module.go:49-54 | there is a reachable state in which a leader passes the barrier after a peer's second relay has overtaken the first, with a transaction that will panic in the first |
| BarrierLimits.BarrierIgnoresInjected | consensus_shard/pbft_all/accountTransfer_module.go:40-55 | there is a reachable state in which a leader passes the barrier with all relays arrived while an injected transaction that will panic is on its way |
| BarrierLimits.MigrationCompletes | consensus_shard/pbft_all/accountTransfer_module.go:17-209 | there is a run that passes the barrier, extracts, collects and installs: both shards end with the new map, and the account that moved is where the map says |
| BarrierBlocks.MutedStep | consensus_shard/pbft_all/accountTransfer_module.go:40-55 | if a leader has heard of a peer, but not last and not in future of the relay before its current number, then every step but a block of that peer keeps it so, and the leader does not extract |
| BarrierBlocks.BlockedForever | consensus_shard/pbft_all/accountTransfer_module.go:40-55 | once such a peer has announced its readiness, no shard installs another map in any continuation of the run |
| BarrierBlocks.InstallMutes | consensus_shard/pbft_all/accountTransfer_module.go:178-209 | every shard that installs a migration is such a peer for all that have heard of it |
| BarrierBlocks.QuietRoundBlocks | consensus_shard/pbft_all/accountTransfer_module.go:17-55 | over every run: a shard others have heard of that installs a migration and announces the next without a block in between ends all migration |
| BarrierBlocks.OvertakingBlocks | consensus_shard/pbft_all/accountTransfer_module.go:49-54 | there is a reachable state in which all relays have arrived, in the wrong order, and the first migration can never be completed |
| ReadyLoss.LostStep | consensus_shard/pbft_all/accountTransfer_module.go:200-209 | once a readiness announcement is forgotten, or is to be forgotten on installing, no step changes that, and the announcing shard stays in its round |
| ReadyLoss.EarlyReadyLost | consensus_shard/pbft_all/pbftOutside_moduleCLPA.go:105-120 | over every run: an announcement that arrives before the receiver has installed the previous map is lost, and neither shard ever installs the map it announces |
| ReadyLoss.TimelyReadyNoted | consensus_shard/pbft_all/pbftOutside_moduleCLPA.go:105-120 | over every run: any other announcement comes from a shard of the same round and is remembered until the receiver installs the map |
| ReadyLoss.EarlyReadyHappens | consensus_shard/pbft_all/accountTransfer_module.go:205-205 | there is a reachable state in which an announcement is lost |
| Leader.Leader.HandleRelay | consensus_shard/pbft_all/pbftOutside_moduleCLPA.go:40-52 | the handler is the protocol's relay step: transactions queued in order, the sender's number recorded |
| Leader.Leader.HandleInjectTx | consensus_shard/pbft_all/pbftOutside_moduleCLPA.go:81-89 | the handler is the protocol's injection step |
| Leader.Leader.HandlePartitionMsg | consensus_shard/pbft_all/pbftOutside_moduleCLPA.go:93-102 | the handler is the protocol's map step |
| Leader.Leader.HandlePartitionReady | consensus_shard/pbft_all/pbftOutside_moduleCLPA.go:105-120 | the handler is the protocol's readiness step |
| Leader.Leader.HandleAccountStateAndTx | consensus_shard/pbft_all/pbftOutside_moduleCLPA.go:123-138 | the handler is the protocol's collection step, complete exactly when all other shards have sent |
| Leader.Leader.SendPartitionReady | consensus_shard/pbft_all/accountTransfer_module.go:17-37 | the announced number is the current sequence number and the state is the protocol's |
| Leader.Leader.GetPartitionReady | consensus_shard/pbft_all/accountTransfer_module.go:40-55 | visiting the peers in any order decides exactly the protocol's barrier condition |
| Leader.Leader.AccountsToFetch | consensus_shard/pbft_all/accountTransfer_module.go:60-66 | the list holds exactly the accounts that have to leave, whatever order the map is visited in |
| Leader.Leader.SendAccountsAndTxs | consensus_shard/pbft_all/accountTransfer_module.go:58-122 | the nested loops leave the protocol's queue and produce the protocol's extract for every shard |
| Leader.Leader.ProposePartition | consensus_shard/pbft_all/accountTransfer_module.go:132-175 | merging the extracts in any order gives the protocol's proposal for that order, and fails exactly where the protocol panics |
| Leader.Leader.CommitPartition | consensus_shard/pbft_all/accountTransfer_module.go:178-209 | installing an agreed migration, in any order of its maps, is the protocol's step on partition map, accounts and round |
| Leader.Leader.RelayPool | consensus_shard/pbft_all/pbftInside_moduleCLPA.go:96-121 | each cross-shard transaction is marked and filed under its recipient's shard in body order, the reported lists are the inner and the arrived transactions, and the result is missing exactly when the panic is reached |
| Leader.Leader.RunBlock | consensus_shard/pbft_all/pbftInside_moduleCLPA.go:37-128 | packing, executing, appending and relaying a block is the protocol's propose step followed by its commit step |
| Leader.AdoptedIsInstall | chain/blockchain.go:391-444 | the order in which received states are installed does not matter |
| ClpaSpec.EdgesSplit | partition/partition_CLPA.go:134-136 | the edges at a shard are its cross edges plus its inner edges |
| ClpaSpec.DoubleCount | partition/partition_CLPA.go:112-126 | over all adjacency lists every cross edge is seen once from each side and every inner edge twice, so the halving of the inner count is exact |
| ClpaSpec.CrossTwice | partition/partition_CLPA.go:128-132 | every cross edge is counted at exactly two shards, so the halving of the total is exact |
| ClpaSpec.EdgeTotals | partition/partition_CLPA.go:102-143 | the edge counts of all shards add up to the number of edges plus the cross edges |
| ClpaSpec.MoveError | partition/partition_CLPA.go:146-160 | how far the incremental update is from a recount, for every graph: with m loops at the moved vertex it misses m at both shards and 2m cross edges |
| ClpaSpec.IncrementalIff | partition/partition_CLPA.go:146-160 | the incremental update equals a recount at every shard if and only if the moved vertex is not in its own adjacency list |
| ClpaSpec.LoopMiscounts | partition/partition_CLPA.go:146-160 | moving a vertex with a loop leaves -1 edges at the old shard and 0 at the new one, where there is one |
| ClpaSpec.PopulationTotal | partition/partition_CLPA.go:255-261 | the populations of all shards add up to the number of vertices |
| ClpaMoves.ScoreLaw | partition/partition_CLPA.go:215-228 | the score of a shard times the degree is the number of neighbours that live in it, weighted by one less the penalty times its load over the least load |
| ClpaMoves.LeastLaw | partition/partition_CLPA.go:162-167 | the least count is a lower bound that is attained, unless all are above the largest integer |
| ClpaMoves.ElectedUnique | partition/partition_CLPA.go:241-254 | the scores send a vertex to exactly one shard |
| ClpaMoves.VisitMoves | partition/partition_CLPA.go:238-264 | a visit moves the vertex if and only if it has been moved less than 50 times, the scores send it elsewhere and its shard has another member, and then there; otherwise nothing changes |
| ClpaMoves.RunExact | partition/partition_CLPA.go:231-265 | in a graph without loops, after every part of a run the counters the next visit decides by are those of a recount |
| ClpaMoves.QuietPassIsFinal | partition/partition_CLPA.go:233-265 | after a pass that moves nothing no later pass moves anything, in any order |
| Clpa.CLPAState.constructor | partition/partition_CLPA.go:171-177 | a new state is empty and consistent, with the preset labels |
| Clpa.CLPAState.AddVertex | partition/partition_CLPA.go:47-56 | a known label is kept, a new vertex gets the default shard, and right populations stay right if and only if the vertex was not in the graph |
| Clpa.CLPAState.AddEdge | partition/partition_CLPA.go:59-70 | the edge is recorded once, both ends are vertices, old labels are kept, and the populations stay right |
| Clpa.CLPAState.Link | partition/graph.go:31-45 | the adjacency lists are again those of the edge list with the new edge |
| Clpa.CLPAState.CountDirected | partition/partition_CLPA.go:112-126 | visiting the adjacency lists in any order gives the cross edges of each shard and twice its inner edges |
| Clpa.CLPAState.ComputeEdges2Shard | partition/partition_CLPA.go:102-143 | whatever the counters held, they equal a count over the edge list afterwards and add up |
| Clpa.CLPAState.ChangeShardRecompute | partition/partition_CLPA.go:146-168 | every counter changes by the sum of what each neighbour contributes, and the minimum is recomputed |
| Clpa.CLPAState.GetShardScore | partition/partition_CLPA.go:215-228 | the loop computes the share of neighbours in the shard, weighted by the shard's load |
| Clpa.CLPAState.ChooseShard | partition/partition_CLPA.go:241-254 | the result is the shard of the first neighbour with the highest score above the floor, or the own shard if no score is above it |
| Clpa.CLPAState.Relocate | partition/partition_CLPA.go:255-264 | populations stay right, and right edge counters stay right if and only if the vertex is not its own neighbour |
| Clpa.CLPAState.Visit | partition/partition_CLPA.go:238-264 | one turn of the loop is the visit of `ClpaMoves`: labels, counters and log, and so exactly the due move |
| Clpa.CLPAState.Pass | partition/partition_CLPA.go:237-265 | visiting every vertex once, in any order, makes exactly the moves that are due at their turn, keeps the run invariant and moves each vertex once at most |
| Clpa.CLPAState.ClpaPartition | partition/partition_CLPA.go:231-274 | over the whole run: the labels and the log are those of as many passes as there are iterations, each over all vertices in some order, with every due move made and no other; the returned map has exactly the moved vertices and is the overlay from the old labels to the new; labels stay below the shard number; populations are right and sum to the vertices; a shard has members afterwards exactly if it had some before; no vertex moves more than 50 times or more often than there are iterations; the counters are those of a recount; and in a graph without loops every single move goes where the scores of recounted counters send it |
| Clpa.CLPAState.StableInitPartition | partition/partition_CLPA.go:197-212 | fails exactly when there are more shards than vertices; otherwise no shard is empty and sizes differ by at most one |
| Clpa.DealOut | partition/partition_CLPA.go:202-209 | dealing vertices out in any order gives every shard its exact share |
| Supervisor.NoSelfTransfers | supervisor/committee/committee_relay.go:45-46 | transfers between different accounts keep the graph free of loops |
| Reports.ReportsKeepLoopFree | supervisor/committee/committee_relay.go:45-46 | in every run that injects only transfers between different accounts, whatever part of a block is reported keeps the graph free of loops |
| Supervisor.RoutedInFields | supervisor/committee/committee_clpa.go:66-103 | the transactions for a shard are, in order, those whose sender the published maps, applied in order to the default, place there |
| Supervisor.EdgesInFields | supervisor/committee/committee_clpa.go:214-230 | every reported transfer is an edge from its sender to its recipient, in order |
| Supervisor.CLPACommittee.FetchModifiedMap | supervisor/committee/committee_clpa.go:66-72 | the shard is the one all published maps in order give, and the label of the account if it is a vertex |
| Supervisor.CLPACommittee.TxSending | supervisor/committee/committee_clpa.go:74-103 | whatever the batch size, every transaction is sent exactly once and in order to the shard of its sender |
| Supervisor.CLPACommittee.HandleBlockInfo | supervisor/committee/committee_clpa.go:214-230 | executed transfers become edges in order, the epoch follows only its successor, labels, routing and published maps still agree, and the graph stays free of loops as long as no transfer of an account to itself is reported |
| Supervisor.CLPACommittee.PartitionRound | supervisor/committee/committee_clpa.go:142-152 | the published map is the change the algorithm made, by exactly the moves that were due in its passes, and names the vertices that moved; afterwards its final labels, the routing and the published maps agree on every vertex while all other accounts stay where they were; and in every round before a transfer of an account to itself is reported, every move went where the scores of exact counters send it |
| Supervisor.CLPACommittee.MergeMap | supervisor/committee/committee_clpa.go:148-150 | merging in any order gives the overlay |
| Supervisor.CLPACommittee.ClpaReset | supervisor/committee/committee_clpa.go:206-212 | the new graph is empty and starts from the routing labels |
| PbftInv.QuorumIsProposal | consensus_shard/pbft_all/messageHandle.go:173-207 | a quorum that any node counts contains a correct voter and is for a request the leader proposed |
| PbftInv.AddBlockKeeps | chain/blockchain.go:306-325 | of all proposals the append guard admits only the next one of the proposal chain |
| PbftSafety.LeaderCommits | consensus_shard/pbft_all/messageHandle.go:240-281 | a commit quorum at the leader is for the pending proposal, so its lock is held when it is released and its chain grows by that proposal |
| Agreement.InvNext | consensus_shard/pbft_all/messageHandle.go:44-382 | every proposal, delivery, faulty vote and catch-up step, in any combination, keeps the consensus invariant |
| Agreement.RunInv | consensus_shard/pbft_all/messageHandle.go:44-382 | the consensus invariant holds in every state of every run |
| Agreement.ProposedStays | consensus_shard/pbft_all/messageHandle.go:44-78 | what the leader has proposed is never withdrawn or replaced |
| Agreement.ChainIsPrefix | consensus_shard/pbft_all/messageHandle.go:213-283 | under any delay, loss and reordering every correct replica's chain is a prefix of the leader's proposal chain |
| Agreement.ReplicasAgree | consensus_shard/pbft_all/pbftInside_module.go:55-62 | two correct replicas, at any two moments of a run, have the same block at every height both have |
| Agreement.ExecutedOnQuorum | consensus_shard/pbft_all/messageHandle.go:173-272 | with faulty votes and catch-up: an executed digest was executed once, on the commits of 2f+1 different nodes; each correct one of these had counted 2f+1 prepares, of different nodes where nobody catches up, and the correct ones that cast them hold the request |
| Agreement.CommitterPrepared | consensus_shard/pbft_all/messageHandle.go:173-207 | a correct node that has committed has counted 2f+1 prepares, of different nodes where nobody catches up, and the correct ones that cast them hold the request |
| Agreement.QuorumsMeet | consensus_shard/pbft_all/messageHandle.go:187-240 | with n nodes two quorums share at least 4f+2-n nodes, one of them correct if n is at most 3f+1 |
| Agreement.MeetIff | consensus_shard/pbft_all/pbft.go:111-120 | for the fault bound the program computes, any two sets of 2f+1 nodes share one outside any set of f if and only if there are 3f+1 nodes |
| Agreement.AnsweredTwice | consensus_shard/pbft_all/messageHandle.go:336-382 | a replica whose request for old blocks is answered twice with nothing prepares its next request twice |
| Agreement.CountedTwice | consensus_shard/pbft_all/toolFuncs.go:22-34 | a replica that receives two prepare messages of one node counts two votes |
| Agreement.OneSenderSuffices | consensus_shard/pbft_all/toolFuncs.go:22-34 | from any state that holds the request, 2f+1 commit messages of a single sender execute it, and 2f do not |
| Agreement.AnyRequestIsTaken | consensus_shard/pbft_all/messageHandle.go:90-146 | any request that fits the chain, whoever sent it, is prepared, and with 2f+1 prepares and 2f+1 commits of different nodes its block is appended |
| Agreement.TakenIff | consensus_shard/pbft_all/messageHandle.go:90-146 | a replica on the leader's chain that takes a request in this way stays on it if and only if the request has the block the leader proposed for this height |
| Agreement.ForeignProposal | consensus_shard/pbft_all/messageHandle.go:90-146 | a replica in its first state appends a block although the leader has proposed none |
| Rounds.StageCounts | consensus_shard/pbft_all/messageHandle.go:44-283 | the stage counts the phases passed in a round: a handler that broadcasts raises it by one, one that ends the round sets it to one, and any other leaves it |
| Rounds.RoundCompletes | consensus_shard/pbft_all/messageHandle.go:44-283 | from every state of a run in which the correct nodes are level, for every number of nodes above 3f and every body, there are steps after which every correct node has the proposed block, the next sequence number and the first stage |
| Rounds.EveryChainIsReached | consensus_shard/pbft_all/messageHandle.go:44-283 | every list of bodies is the chain of every correct node in some run |
| Heights.KeptIsProposed | consensus_shard/pbft_all/messageHandle.go:109-145 | in every run, what a correct node keeps for a height is what the leader proposed for it, and the leader keeps all it has proposed |
| Heights.HandedStays | consensus_shard/pbft_all/messageHandle.go:109-145 | in every run, a proposal handed to a correct node before the node is past its height is kept for good |
| Heights.AnswerIsComplete | consensus_shard/pbft_all/messageHandle.go:302-314 | in every run, the leader's answer for proposed heights is the requests of all of them, in order |
| Heights.CaughtUpPrepares | consensus_shard/pbft_all/messageHandle.go:336-382 | a replica whose chain reaches the start of a complete answer has the leader's blocks up to its end, and prepares the next request if it keeps it already |
| CatchUps.AnswerInFields | consensus_shard/pbft_all/messageHandle.go:302-314 | an answer lists the kept requests of consecutive heights and stops only at the end or at the first height without one |
| CatchUps.CatchUpExtends | consensus_shard/pbft_all/pbftInside_module.go:163-178 | a complete answer adds the leader's blocks up to its end if it starts at or below the next block of the replica, and otherwise none; the sequence number moves behind it in both cases |
| CatchUps.OwnAskMissesOne | consensus_shard/pbft_all/messageHandle.go:243-262 | the heights a replica in line asks for start one too high, so that the complete answer adds no block |
| PbftNode.PbftConsensusNode.constructor | consensus_shard/pbft_all/pbft.go:111-120 | the fault bound is the largest f with 3f below the number of nodes |
| PbftNode.PbftConsensusNode.Propose | consensus_shard/pbft_all/messageHandle.go:53-77 | the proposal extends the leader's chain by one and the state is the protocol's |
| PbftNode.PbftConsensusNode.AddBlock | chain/blockchain.go:306-325 | the chain grows only by a block whose parent is its head, and otherwise stays |
| PbftNode.PbftConsensusNode.HandlePrePrepare | consensus_shard/pbft_all/messageHandle.go:109-145 | the handler is the protocol's pre-prepare step, including the stale, false-digest and future cases and the stage that lets votes in; `Rounds.RoundCompletes` shows that the step leads on |
| PbftNode.PbftConsensusNode.Set2DMap | consensus_shard/pbft_all/toolFuncs.go:22-34 | a message is counted under its digest, by identity, and the other tally stays |
| PbftNode.PbftConsensusNode.HandlePrepare | consensus_shard/pbft_all/messageHandle.go:169-207 | the handler is the protocol's prepare step |
| PbftNode.PbftConsensusNode.HandleCommit | consensus_shard/pbft_all/messageHandle.go:229-282 | the handler is the protocol's commit step, including the request for missing blocks |
| PbftNode.PbftConsensusNode.HandleRequestOldSeq | consensus_shard/pbft_all/messageHandle.go:302-314 | the loop returns the known requests up to the first gap |
| PbftNode.PbftConsensusNode.HandleForSequentialRequest | consensus_shard/pbft_all/pbftInside_module.go:163-178 | a complete answer is appended block by block through the guard, an incomplete one not at all |
| PbftNode.PbftConsensusNode.HandleSendOldSeq | consensus_shard/pbft_all/messageHandle.go:336-382 | the handler is the protocol's catch-up step |
| BrokerLegs.LegsCarryTransfer | supervisor/committee/committee_broker.go:210-242 | both legs carry the raw value between sender, broker and recipient, each into the shard of the account that is not a broker; the second leg is always recognised, the first if and only if the broker is not the final recipient |
| BrokerLegs.LegsInFields | supervisor/committee/committee_broker.go:210-242 | each leg names the transfer and its two ends, carries its bet and has no mark |
| BrokerLegs.ConfirmedIff | supervisor/committee/committee_broker.go:161-305 | a reported transaction is confirmed as a first leg if and only if its hash is awaited and its transfer was dealt |
| BrokerLegs.EnteredAt | supervisor/committee/committee_broker.go:210-230 | the legs of a batch are awaited under the hashes they got, one by one |
| BrokerLegs.TransferCompletes | supervisor/committee/committee_broker.go:161-323 | a dealt transfer whose first leg and then second leg is reported ends with both listed in order, and the lists of all others stay |
| BrokerLegs.IssueKeeps | supervisor/committee/committee_broker.go:265-281 | dealing a batch of new transfers keeps the desk in order and lists nothing |
| BrokerLegs.ReportKeeps | supervisor/committee/committee_broker.go:161-182 | a report in which every leg appears once keeps every list empty, [first] or [first, second] |
| BrokerLegs.ReportIff | supervisor/committee/committee_broker.go:161-182 | for one reported transaction the lists stay in order if and only if it is not a leg that is listed already |
| BrokerLegs.RunKeeps | supervisor/committee/committee_broker.go:161-323 | the desk is in order at every moment of every run with new hashes and single reports |
| BrokerLegs.LegsInOrder | supervisor/committee/committee_broker.go:161-323 | at every moment of such a run the list of a transfer is empty, its first leg, or both in order, and its second leg exists exactly when the first is listed |
| BrokerCommittee.Classify | consensus_shard/pbft_all/pbftInside_moduleBroker.go:68-84 | the three lists are the body by class in order and together hold every transaction exactly once |
| BrokerCommittee.DealtLegsAreRecognised | supervisor/committee/committee_broker.go:184-208 | the legs of every transfer the committee splits are put in their right lists by the workers |
| BrokerCommittee.DealtInFields | supervisor/committee/committee_broker.go:184-208 | in fields: the transfers dealt to the broker are, in order, those whose ends have different default shards and are no brokers |
| BrokerCommittee.ReturnedInFields | supervisor/committee/committee_broker.go:184-208 | in fields: all others are returned in order, unchanged but for the marks, which tell whether an end is a broker and whether the sender is |
| BrokerCommittee.BatchCovered | supervisor/committee/committee_broker.go:184-208 | the hashes of a batch are those of the dealt and of the returned transactions, each once |
| BrokerCommittee.BrokerCommitteeMod.IsBroker | broker/broker.go:25-32 | true exactly for the listed addresses |
| BrokerCommittee.BrokerCommitteeMod.DealTxByBroker | supervisor/committee/committee_broker.go:184-208 | cross-shard transfers without a broker become first legs, all others are returned in order and marked, and the desk has the new transfers; `BrokerCommittee.DealtInFields` and `BrokerCommittee.ReturnedInFields` say in fields which these are |
| BrokerCommittee.BrokerCommitteeMod.HandleBrokerRawMag | supervisor/committee/committee_broker.go:265-281 | the transfers are recorded and their first legs issued in order |
| BrokerCommittee.BrokerCommitteeMod.HandleBrokerType1Mes | supervisor/committee/committee_broker.go:210-230 | a first leg is made and awaited for every transfer |
| BrokerCommittee.BrokerCommitteeMod.HandleBrokerType2Mes | supervisor/committee/committee_broker.go:232-253 | a second leg is made and awaited for every transfer |
| BrokerCommittee.BrokerCommitteeMod.CreateConfirm | supervisor/committee/committee_broker.go:161-182 | handling a report is the report step of the desk, and the second legs of the accepted transfers are sent |
| BrokerCommittee.BrokerCommitteeMod.HandleTx1ConfirmMag | supervisor/committee/committee_broker.go:283-305 | each known first leg is listed and its second leg issued; unknown ones are skipped |
| BrokerCommittee.BrokerCommitteeMod.HandleTx2ConfirmMag | supervisor/committee/committee_broker.go:307-323 | each second leg is listed in order |

## Left out

- View change: prepared requests are not carried over, so the agreement results are about one view.
- A leader that proposes two different requests for one sequence number, and runs in which followers send pre-prepares.
- Partition requests inside consensus; the consensus model has block requests only.
- Liveness: nothing is said about when messages arrive. `Rounds`, `Progress` and `Heights` say what each step waits for and that completing runs exist, not that they happen.
- The relay variant with Merkle proofs, the search for the block of a transaction and the Bloom filter.
- Bets in the single-ledger refinement, and so what the program's own constructor builds: a bet stays booked in the shard where it was placed while its account may migrate, and a cross-shard bet is relayed as well. `MoneyRuns` covers their money, not that each is handled once.
- Balances of broker accounts: the legs are not marked as brokered, so these accounts change only in their home shard.
- Migration in broker mode beyond its extraction loop, and the committee that combines brokers with migration.
- Reading transactions from files, batching by bytes, metrics, logs, encoding, storage and the network.
- Copying and printing of graphs, the unused initial partition by address, and erasing of edges.
- A malformed address, on which the default-shard computation panics.
- Clpa.CLPAState.GetShardScore: uses real numbers and has no score when the least edge count is zero, where the floating-point quotient for a positive penalty never exceeds the floor; rounding is not modelled.
- Leader.Leader.RunBlock: no message is delivered between proposing and committing; the transition system allows it.
- PbftNode.PbftConsensusNode.HandleCommit: the lock that delays a second request for old blocks is not modelled, so more requests are possible than in the program.
- Agreement.ExecutedOnQuorum: faulty nodes send one message per phase and digest, because votes are counted by message; that the prepares are of different nodes is stated for runs without catch-up, because `Agreement.AnsweredTwice` shows it false with it.
- Agreement.CommitterPrepared: the same holds of the prepares it is about.
- Agreement.InvNext: a pre-prepare sent by a follower is not a step; `Agreement.ForeignProposal` shows that agreement with the leader ends there.
- Agreement.RunInv: is about runs in which only the leader sends pre-prepares, for the same reason.
- Agreement.ChainIsPrefix: is about runs in which only the leader sends pre-prepares, for the same reason.
- Agreement.ReplicasAgree: is about runs in which only the leader sends pre-prepares, for the same reason.
- The time stamp given to a pooled transaction without one.
