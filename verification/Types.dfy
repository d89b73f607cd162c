/** Integer widths, addresses and results shared by every part of the model. */
module Types {

  const U8_MAX: int := 0xFF
  const U16_MAX: int := 0xFFFF
  const U64_MAX: int := 0xFFFF_FFFF_FFFF_FFFF
  const I64_MIN: int := -0x8000_0000_0000_0000
  const I64_MAX: int := 0x7FFF_FFFF_FFFF_FFFF

  type u8 = x: int | 0 <= x <= U8_MAX
  type u16 = x: int | 0 <= x <= U16_MAX
  type u64 = x: int | 0 <= x <= U64_MAX
  type i64 = x: int | I64_MIN <= x <= I64_MAX

  /** Hard ceilings fixed in code, out of the admin's reach. */
  const MAX_FEE_BPS: u16 := 1_000
  const RESOLVER_ALLOWLIST_LEN: nat := 4
  const MAX_WINDOW_CAP: i64 := 180 * 86_400

  function SaturatingSub(a: u64, b: u64): u64 {
    if b <= a then a - b else 0
  }

  function SaturatingDouble(a: u64): u64 {
    if 2 * a <= U64_MAX then 2 * a else U64_MAX
  }

  /** An account address. Derived addresses are free constructors, so derivation is injective and a
      derived address never coincides with a key somebody holds. */
  datatype Address =
    | Key(id: nat)                            // a key pair's public key; Key(0) is the default key
    | WagerPda(sideA: Address, nonce: u64)    // the program address of one wager
    | AtaOf(owner: Address, mint: Address)    // the associated token account of an owner

  const DEFAULT: Address := Key(0)

  /** Only key pairs sign transactions: a derived address has no private key. */
  predicate CanSign(a: Address) { a.Key? }

  datatype Option<+T> = None | Some(value: T)

  datatype Error =
    // raised by the runtime, the account framework or the token program
    | MissingSignature | AccountMissing | AccountInUse | ConstraintSeeds | ConstraintTokenOwner
    | ConstraintClose | DuplicateMutable | Panic
    | AccountFrozen | InsufficientFunds | MintMismatch | OwnerMismatch | BalanceOverflow
    | NonZeroBalance | SelfClose
    // raised by the program
    | FeeTooHigh | BadStakeBounds | BadResolverList | BadWindow | NotAdmin
    | Paused | StakeTooSmall | StakeTooLarge | ResolverNotAllowed | ResolverIsParticipant
    | SelfWager | OpenSideNotAllowed | BadDeadlines | WindowTooLong | EmptyTermsHash
    | NotFunding | FundingClosed | AlreadyFunded | NotAParticipant | WalletCapExceeded
    | GlobalCapExceeded | SideNotFunded
    | NotActive | ResolveExpired | WinnerNotParticipant | NotResolver
    | RefundNotDue | AlreadyExited | NotFullyExited | CloseNotDue
    | CancelWindowClosed | CancelAlreadyOpen | CancelNotOpen | CannotAcceptOwnProposal
    | WrongTokenOwner | WrongMint | WrongFeeDestination | MathOverflow | DefaultAddress
    | BadExposureCaps | BadNewAdmin | NotProposedAdmin | NotCounterparty

  datatype Result<+T> = Ok(value: T) | Err(error: Error) {
    predicate IsFailure() { Err? }
    function PropagateFailure<U>(): Result<U> requires Err? { Err(error) }
    function Extract(): T requires Ok? { value }
  }

  datatype Outcome = Pass | Fail(error: Error) {
    predicate IsFailure() { Fail? }
    function PropagateFailure<U>(): Result<U> requires Fail? { Err(error) }
  }

  function Need(condition: bool, error: Error): Outcome {
    if condition then Pass else Fail(error)
  }
}
