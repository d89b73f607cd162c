/** The program's accounts: configuration, wagers, exposure counters, pending admin transfer. */
module Accounts {
  import opened Types
  import opened Tokens

  type Allowlist = s: seq<Address> | |s| == RESOLVER_ALLOWLIST_LEN
    witness [DEFAULT, DEFAULT, DEFAULT, DEFAULT]

  datatype Config = Config(
    admin: Address,
    mint: Address,
    feeBps: u16,
    feeDestination: Address,
    rentCollector: Address,
    minStake: u64,
    maxStake: u64,
    maxOpenPerWallet: u8,
    resolverAllowlist: Allowlist,
    resolverCount: u8,
    paused: bool,
    maxWindow: i64,
    maxTotalOpen: u64,
    totalOpenValue: u64)
  {
    predicate ResolverAllowed(key: Address)
      requires resolverCount <= RESOLVER_ALLOWLIST_LEN
    {
      key in resolverAllowlist[..resolverCount]
    }
  }

  datatype WagerState = Funding | Active | Resolved | Cancelled

  datatype Wager = Wager(
    state: WagerState,
    sideA: Address,
    sideB: Address,
    stake: u64,
    mint: Address,
    fundedA: bool,
    fundedB: bool,
    refundedA: bool,
    refundedB: bool,
    resolver: Address,
    termsHash: nat,              // the 32 hash bytes read as one number
    deadlineFund: i64,
    deadlineResolve: i64,
    feeBps: u16,
    feeDestination: Address,
    rentCollector: Address,
    nonce: u64,
    cancelProposedBy: Address)
  {
    predicate IsParticipant(key: Address) { key == sideA || key == sideB }

    predicate FullyExited() { (!fundedA || refundedA) && (!fundedB || refundedB) }

    /** The side's stake is in the vault: funded and not refunded. */
    predicate Holds(side: Address) {
      (side == sideA && fundedA && !refundedA) || (side == sideB && fundedB && !refundedB)
    }

    /** What the vault owes the two sides. */
    function Outstanding(): nat {
      (if fundedA && !refundedA then stake else 0) + (if fundedB && !refundedB then stake else 0)
    }

    /** The number of this wager's sides that wallet occupies with a stake still in. */
    function HeldBy(wallet: Address): nat {
      (if wallet == sideA && fundedA && !refundedA then 1 else 0)
      + (if wallet == sideB && fundedB && !refundedB then 1 else 0)
    }

    function Counterparty(side: Address): Address { if side == sideA then sideB else sideA }

    /** Strictly after the deadline that ends the wager in its current state. */
    predicate Due(now: i64) {
      match state
      case Funding => now > deadlineFund
      case Active => now > deadlineResolve
      case Cancelled => true
      case Resolved => false
    }
  }

  datatype State = State(
    config: Config,
    wagers: map<Address, Wager>,     // keyed by the wager's program address
    counters: map<Address, u8>,      // keyed by wallet
    tokens: TokenMap,
    pending: Option<Address>,        // the proposed admin, while a transfer is pending
    now: i64)

  function Vault(id: Address, w: Wager): Address { AtaOf(id, w.mint) }

  function Count(counters: map<Address, u8>, wallet: Address): u8 {
    if wallet in counters then counters[wallet] else 0
  }

  /** One decrement of a wallet's counter, which saturates at zero. */
  function Decrement(counters: map<Address, u8>, wallet: Address): map<Address, u8>
    requires wallet in counters
  {
    counters[wallet := SaturatingSub(counters[wallet], 1)]
  }

  // ---- what the account framework checks before a handler runs ----

  function LoadWager(s: State, id: Address): Result<Wager> {
    var isLive := id in s.wagers;
    :- Need(isLive, AccountMissing);
    var w := s.wagers[id];
    :- Need(id == WagerPda(w.sideA, w.nonce), ConstraintSeeds);
    Ok(w)
  }

  function LoadAta(t: TokenMap, owner: Address, mint: Address): (r: Result<Address>)
    ensures r.Ok? <==> IsAta(t, owner, mint)
    ensures r.Ok? ==> r.value == AtaOf(owner, mint)
  {
    var a := AtaOf(owner, mint);
    :- Need(a in t, AccountMissing);
    :- Need(t[a].owner == owner && t[a].mint == mint, ConstraintTokenOwner);
    Ok(a)
  }
}
