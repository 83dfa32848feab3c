/** Transactions, account states and account placement, shared by every module. */
module Core {

  /** An account address.  Addresses are fixed-length hexadecimal strings; the model
      uses the number such a string denotes. */
  type Address = nat

  type ShardId = nat

  /** Transaction hashes and block hashes are taken to be injective. */
  type Hash = nat

  /** A finite map from accounts to shards: a partition map or one round's changes to it. */
  type Placement = map<Address, ShardId>

  const INIT_BALANCE: int := 100000000000000000000000000000000000000000000

  datatype Option<+T> = None | Some(value: T)

  datatype AccountState = AccountState(nonce: nat, balance: int)

  type Accounts = map<Address, AccountState>

  datatype Tx = Tx(
    sender: Address,
    recipient: Address,
    value: int,
    hash: Hash,
    relayed: bool,
    // set on transfers from or to a broker account
    hasBroker: bool,
    senderIsBroker: bool,
    // set on the two legs of a brokered transfer only
    originalSender: Option<Address>,
    finalRecipient: Option<Address>,
    rawHash: Option<Hash>,
    // Game2Earn bet: flag, target height and the pair that is bet on
    bet: bool,
    height: nat,
    pairI: nat,
    pairJ: nat)

  /** The default shard of an account: its last eight hexadecimal digits, modulo the shard count. */
  function Addr2Shard(a: Address, n: nat): (s: ShardId)
    requires n > 0
    ensures s < n
  {
    (a % 0x1_0000_0000) % n
  }

  /** Only the last eight digits count; a number of eight digits is reduced modulo the shard count. */
  lemma Addr2ShardInDigits(rest: nat, digits: nat, n: nat)
    requires n > 0 && digits < 0x1_0000_0000
    ensures exists k: nat :: Addr2Shard(rest * 0x1_0000_0000 + digits, n) + k * n == digits
  {
    var a := rest * 0x1_0000_0000 + digits;
    assert a % 0x1_0000_0000 == digits;
    assert Addr2Shard(a, n) + digits / n * n == digits;
  }

  /** The shard a partition map names for an account, with the default for unlisted ones. */
  function Place(m: Placement, n: nat, a: Address): ShardId
    requires n > 0
  {
    if a in m then m[a] else Addr2Shard(a, n)
  }

  /** The account that decides which shard must hold a queued transaction:
      the sender until the transaction has been relayed, the recipient afterwards. */
  function KeyOf(tx: Tx): Address {
    if tx.relayed then tx.recipient else tx.sender
  }

  /** Balance of an account; an account missing from the state reads as INIT_BALANCE. */
  function BalanceOf(accounts: Accounts, a: Address): int {
    if a in accounts then accounts[a].balance else INIT_BALANCE
  }

  /** State of an account, created with the given nonce if it is missing. */
  function Read(accounts: Accounts, a: Address, nonce: nat): AccountState {
    if a in accounts then accounts[a] else AccountState(nonce, INIT_BALANCE)
  }
}
