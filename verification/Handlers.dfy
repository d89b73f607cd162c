/** Every instruction as a function from ledger state to ledger state or error. The Ledger class
    carries out the same instructions step by step and is verified against these functions. */
module Handlers {
  import opened Types
  import opened Tokens
  import opened Accounts
  import opened Payout

  // ---- configuration ----

  function ValidateConfigValues(feeBps: u16, minStake: u64, maxStake: u64, resolvers: seq<Address>,
                                maxWindow: i64, maxOpenPerWallet: u8, maxTotalOpen: u64): Result<()>
  {
    var feeInRange := feeBps <= MAX_FEE_BPS;
    :- Need(feeInRange, FeeTooHigh);
    :- Need(minStake > 0 && minStake <= maxStake, BadStakeBounds);
    :- Need(resolvers != [] && |resolvers| <= RESOLVER_ALLOWLIST_LEN && DEFAULT !in resolvers, BadResolverList);
    :- Need(maxWindow > 0 && maxWindow <= MAX_WINDOW_CAP, BadWindow);
    :- Need(maxOpenPerWallet > 0 && maxStake <= maxTotalOpen / 2, BadExposureCaps);
    Ok(())
  }

  /** The resolvers followed by default keys up to the fixed capacity. */
  function Padded(resolvers: seq<Address>): (a: Allowlist)
    requires |resolvers| <= RESOLVER_ALLOWLIST_LEN
  {
    resolvers + seq(RESOLVER_ALLOWLIST_LEN - |resolvers|, _ => DEFAULT)
  }

  datatype InitializeConfigArgs = InitializeConfigArgs(
    mint: Address, feeBps: u16, feeDestination: Address, rentCollector: Address, minStake: u64, maxStake: u64,
    maxOpenPerWallet: u8, resolvers: seq<Address>, maxWindow: i64, maxTotalOpen: u64)

  function InitializeConfig(authority: Address, args: InitializeConfigArgs): Result<Config> {
    var _ :- ValidateConfigValues(args.feeBps, args.minStake, args.maxStake, args.resolvers, args.maxWindow,
                            args.maxOpenPerWallet, args.maxTotalOpen);
    :- Need(args.mint != DEFAULT && args.feeDestination != DEFAULT && args.rentCollector != DEFAULT, DefaultAddress);
    Ok(Config(authority, args.mint, args.feeBps, args.feeDestination, args.rentCollector, args.minStake,
              args.maxStake, args.maxOpenPerWallet, Padded(args.resolvers), |args.resolvers|, false,
              args.maxWindow, args.maxTotalOpen, 0))
  }

  datatype UpdateConfigArgs = UpdateConfigArgs(
    feeBps: Option<u16>, feeDestination: Option<Address>, rentCollector: Option<Address>, minStake: Option<u64>,
    maxStake: Option<u64>, maxOpenPerWallet: Option<u8>, resolvers: Option<seq<Address>>, paused: Option<bool>,
    maxWindow: Option<i64>, maxTotalOpen: Option<u64>)

  function Or<T>(o: Option<T>, default: T): T { if o.Some? then o.value else default }

  function MergeConfig(c: Config, args: UpdateConfigArgs): Result<Config> {
    var countInRange := c.resolverCount <= RESOLVER_ALLOWLIST_LEN;
    :- Need(countInRange, Panic);
    var resolvers := Or(args.resolvers, c.resolverAllowlist[..c.resolverCount]);
    var feeBps := Or(args.feeBps, c.feeBps);
    var minStake := Or(args.minStake, c.minStake);
    var maxStake := Or(args.maxStake, c.maxStake);
    var maxWindow := Or(args.maxWindow, c.maxWindow);
    var maxOpenPerWallet := Or(args.maxOpenPerWallet, c.maxOpenPerWallet);
    var maxTotalOpen := Or(args.maxTotalOpen, c.maxTotalOpen);
    var _ :- ValidateConfigValues(feeBps, minStake, maxStake, resolvers, maxWindow, maxOpenPerWallet, maxTotalOpen);
    :- Need(args.feeDestination != Some(DEFAULT) && args.rentCollector != Some(DEFAULT), DefaultAddress);
    Ok(c.(feeBps := feeBps, minStake := minStake, maxStake := maxStake, maxWindow := maxWindow,
          maxOpenPerWallet := maxOpenPerWallet, maxTotalOpen := maxTotalOpen,
          feeDestination := Or(args.feeDestination, c.feeDestination),
          rentCollector := Or(args.rentCollector, c.rentCollector),
          resolverAllowlist := if args.resolvers.Some? then Padded(resolvers) else c.resolverAllowlist,
          resolverCount := if args.resolvers.Some? then |resolvers| else c.resolverCount,
          paused := Or(args.paused, c.paused)))
  }

  function UpdateConfig(s: State, admin: Address, args: UpdateConfigArgs): Result<State> {
    var isAdmin := admin == s.config.admin;
    :- Need(isAdmin, NotAdmin);
    var config :- MergeConfig(s.config, args);
    Ok(s.(config := config))
  }

  function ProposeAdmin(s: State, admin: Address, newAdmin: Address): Result<State> {
    var isAdmin := admin == s.config.admin;
    :- Need(isAdmin, NotAdmin);
    :- Need(newAdmin != DEFAULT && newAdmin != s.config.admin, BadNewAdmin);
    Ok(s.(pending := Some(newAdmin)))
  }

  function AcceptAdmin(s: State, newAdmin: Address): Result<State> {
    var isPending := s.pending.Some?;
    :- Need(isPending, AccountMissing);
    :- Need(s.pending.value == newAdmin, NotProposedAdmin);
    Ok(s.(config := s.config.(admin := newAdmin), pending := None))
  }

  function CancelAdminTransfer(s: State, admin: Address): Result<State> {
    var isPending := s.pending.Some?;
    :- Need(isPending, AccountMissing);
    :- Need(admin == s.config.admin, NotAdmin);
    Ok(s.(pending := None))
  }

  // ---- opening a wager ----

  datatype CreateWagerArgs = CreateWagerArgs(
    nonce: u64, sideA: Address, sideB: Address, stake: u64, termsHash: nat, deadlineFund: i64,
    deadlineResolve: i64, resolver: Address)

  function FreshWager(config: Config, args: CreateWagerArgs): Wager {
    Wager(Funding, args.sideA, args.sideB, args.stake, config.mint, false, false, false, false, args.resolver,
          args.termsHash, args.deadlineFund, args.deadlineResolve, config.feeBps, config.feeDestination,
          config.rentCollector, args.nonce, DEFAULT)
  }

  /** init_if_needed: a vault somebody created in advance is taken over with whatever it holds. */
  function OpenVault(t: TokenMap, id: Address, mint: Address): Result<TokenMap> {
    var vault := AtaOf(id, mint);
    if vault !in t then Ok(t[vault := TokenAccount(id, mint, 0, false)])
    else
      :- Need(IsAta(t, id, mint), ConstraintTokenOwner);
      Ok(t)
  }

  function CreateWager(s: State, args: CreateWagerArgs): Result<State> {
    var id := WagerPda(args.sideA, args.nonce);
    :- Need(id !in s.wagers, AccountInUse);
    var tokens :- OpenVault(s.tokens, id, s.config.mint);
    :- Need(!s.config.paused, Paused);
    :- Need(args.stake >= s.config.minStake, StakeTooSmall);
    :- Need(args.stake <= s.config.maxStake, StakeTooLarge);
    :- Need(s.config.resolverCount <= RESOLVER_ALLOWLIST_LEN, Panic);
    :- Need(s.config.ResolverAllowed(args.resolver), ResolverNotAllowed);
    :- Need(args.resolver != args.sideA && args.resolver != args.sideB, ResolverIsParticipant);
    :- Need(args.sideB != DEFAULT, OpenSideNotAllowed);
    :- Need(args.sideA != DEFAULT, OpenSideNotAllowed);
    :- Need(args.sideB != args.sideA, SelfWager);
    :- Need(s.now < args.deadlineFund && args.deadlineFund < args.deadlineResolve, BadDeadlines);
    :- Need(args.deadlineFund - s.now <= I64_MAX, Panic);
    :- Need(args.deadlineFund - s.now <= s.config.maxWindow, WindowTooLong);
    :- Need(args.deadlineResolve - args.deadlineFund <= I64_MAX, Panic);
    :- Need(args.deadlineResolve - args.deadlineFund <= s.config.maxWindow, WindowTooLong);
    :- Need(args.termsHash != 0, EmptyTermsHash);
    Ok(s.(wagers := s.wagers[id := FreshWager(s.config, args)], tokens := tokens))
  }

  // ---- stakes in and out ----

  /** Whether the staker may fund, and if so whether as side A. */
  function SideToFund(w: Wager, staker: Address, now: i64): Result<bool> {
    var isFunding := w.state == Funding;
    :- Need(isFunding, NotFunding);
    :- Need(now <= w.deadlineFund, FundingClosed);
    var isA := staker == w.sideA;
    :- Need(w.IsParticipant(staker), NotAParticipant);
    :- Need(!(if isA then w.fundedA else w.fundedB), AlreadyFunded);
    Ok(isA)
  }

  /** The accumulator after one more stake, if the wallet and the deployment have room for it. */
  function TotalWithinCaps(config: Config, count: u8, stake: u64): Result<u64> {
    var walletHasRoom := count < config.maxOpenPerWallet;
    :- Need(walletHasRoom, WalletCapExceeded);
    :- Need(config.totalOpenValue + stake <= U64_MAX, MathOverflow);
    :- Need(config.totalOpenValue + stake <= config.maxTotalOpen, GlobalCapExceeded);
    Ok(config.totalOpenValue + stake)
  }

  /** The wager with one more side funded; the second stake locks it. */
  function WithStake(w: Wager, isA: bool): Wager {
    var staked := if isA then w.(fundedA := true) else w.(fundedB := true);
    if staked.fundedA && staked.fundedB then staked.(state := Active) else staked
  }

  /** The books after one side's stake has arrived. */
  function AcceptSide(s: State, id: Address, w: Wager, side: Address, tokens: TokenMap): State
    requires s.config.totalOpenValue + w.stake <= U64_MAX && Count(s.counters, side) + 1 <= U8_MAX
  {
    s.(config := s.config.(totalOpenValue := s.config.totalOpenValue + w.stake),
       wagers := s.wagers[id := w], counters := s.counters[side := Count(s.counters, side) + 1], tokens := tokens)
  }

  /** The account constraints: any token account the staker owns, but only the wager's own vault. */
  function StakeAccounts(s: State, staker: Address, id: Address, stakerToken: Address): Result<Wager> {
    var w :- LoadWager(s, id);
    :- Need(stakerToken in s.tokens, AccountMissing);
    var vault :- LoadAta(s.tokens, id, w.mint);
    :- Need(stakerToken != vault, DuplicateMutable);
    :- Need(s.tokens[stakerToken].owner == staker, WrongTokenOwner);
    :- Need(s.tokens[stakerToken].mint == w.mint, WrongMint);
    Ok(w)
  }

  function StakeSide(s: State, staker: Address, id: Address, stakerToken: Address): Result<State> {
    var w :- StakeAccounts(s, staker, id, stakerToken);
    var isA :- SideToFund(w, staker, s.now);
    var _ :- TotalWithinCaps(s.config, Count(s.counters, staker), w.stake);
    FundSide(s, staker, id, w, stakerToken, isA)
  }

  /** The transfer in, and the books after it. */
  function FundSide(s: State, staker: Address, id: Address, w: Wager, stakerToken: Address, isA: bool): Result<State>
    requires s.config.totalOpenValue + w.stake <= U64_MAX && Count(s.counters, staker) + 1 <= U8_MAX
  {
    var tokens :- Transfer(s.tokens, stakerToken, Vault(id, w), staker, w.stake);
    Ok(AcceptSide(s, id, WithStake(w, isA), staker, tokens))
  }

  /** The books after one side's stake has left: counter and accumulator saturate on the way down. */
  function ReleaseSide(s: State, id: Address, w: Wager, side: Address, tokens: TokenMap): State
    requires side in s.counters
  {
    s.(config := s.config.(totalOpenValue := SaturatingSub(s.config.totalOpenValue, w.stake)),
       wagers := s.wagers[id := w], counters := Decrement(s.counters, side), tokens := tokens)
  }

  function UnstakeSide(s: State, staker: Address, id: Address): Result<State> {
    var w :- LoadWager(s, id);
    :- Need(staker in s.counters, AccountMissing);
    var stakerToken :- LoadAta(s.tokens, staker, w.mint);
    var vault :- LoadAta(s.tokens, id, w.mint);
    :- Need(stakerToken != vault, DuplicateMutable);
    :- Need(w.state == Funding, NotFunding);
    :- Need(s.now <= w.deadlineFund, FundingClosed);
    var isA := staker == w.sideA;
    :- Need(w.IsParticipant(staker), NotAParticipant);
    :- Need(if isA then w.fundedA else w.fundedB, SideNotFunded);
    var tokens :- Transfer(s.tokens, vault, stakerToken, id, w.stake);
    Ok(ReleaseSide(s, id, if isA then w.(fundedA := false) else w.(fundedB := false), staker, tokens))
  }

  function RefundSide(s: State, id: Address, side: Address): Result<State> {
    var w :- LoadWager(s, id);
    var sideToken :- LoadAta(s.tokens, side, w.mint);
    :- Need(side in s.counters, AccountMissing);
    var vault :- LoadAta(s.tokens, id, w.mint);
    :- Need(sideToken != vault, DuplicateMutable);
    :- Need(w.Due(s.now), RefundNotDue);
    :- Need(w.IsParticipant(side), NotAParticipant);
    var isA := side == w.sideA;
    :- Need(if isA then w.fundedA else w.fundedB, SideNotFunded);
    :- Need(!(if isA then w.refundedA else w.refundedB), AlreadyExited);
    var tokens :- Transfer(s.tokens, vault, sideToken, id, w.stake);
    Ok(ReleaseSide(s, id, if isA then w.(refundedA := true) else w.(refundedB := true), side, tokens))
  }

  // ---- settlement ----

  /** The books after a settlement that ends both sides' exposure and closes the wager account. */
  function ReleaseBoth(s: State, id: Address, w: Wager, pot: u64, tokens: TokenMap): State
    requires w.sideA in s.counters && w.sideB in s.counters
  {
    s.(config := s.config.(totalOpenValue := SaturatingSub(s.config.totalOpenValue, pot)),
       wagers := s.wagers - {id}, counters := Decrement(Decrement(s.counters, w.sideA), w.sideB),
       tokens := tokens)
  }

  /** What resolve and concede do once the pot is split: pay, close, release. */
  function SettleTo(s: State, id: Address, w: Wager, winnerToken: Address, split: Split): Result<State>
    requires w.sideA in s.counters && w.sideB in s.counters && split.payout + split.fee <= U64_MAX
  {
    var paid :- PayWinnerAndCloseVault(s.tokens, id, Vault(id, w), winnerToken, w.feeDestination, w.rentCollector,
                                       split.payout, split.fee);
    Ok(ReleaseBoth(s, id, w, split.payout + split.fee, paid.tokens))
  }

  function Resolve(s: State, resolver: Address, id: Address, winnerAccount: Address, winner: Address): Result<State> {
    var w :- LoadWager(s, id);
    :- Need(resolver == w.resolver, NotResolver);
    :- Need(w.rentCollector != id, ConstraintClose);
    var winnerToken :- LoadAta(s.tokens, winnerAccount, w.mint);
    :- Need(w.feeDestination in s.tokens, AccountMissing);
    var vault :- LoadAta(s.tokens, id, w.mint);
    :- Need(winnerToken != w.feeDestination && winnerToken != vault && w.feeDestination != vault, DuplicateMutable);
    :- Need(w.sideA in s.counters && w.sideB in s.counters, AccountMissing);
    :- Need(w.state == Active, NotActive);
    :- Need(s.now <= w.deadlineResolve, ResolveExpired);
    :- Need(w.IsParticipant(winner), WinnerNotParticipant);
    :- Need(winnerAccount == winner, WinnerNotParticipant);
    var split :- SplitPot(w.stake, w.feeBps);
    SettleTo(s, id, w, winnerToken, split)
  }

  function Concede(s: State, conceder: Address, id: Address, winnerAccount: Address): Result<State> {
    var w :- LoadWager(s, id);
    :- Need(w.rentCollector != id, ConstraintClose);
    var winnerToken :- LoadAta(s.tokens, winnerAccount, w.mint);
    :- Need(w.feeDestination in s.tokens, AccountMissing);
    var vault :- LoadAta(s.tokens, id, w.mint);
    :- Need(winnerToken != w.feeDestination && winnerToken != vault && w.feeDestination != vault, DuplicateMutable);
    :- Need(w.sideA in s.counters && w.sideB in s.counters, AccountMissing);
    :- Need(w.state == Active, NotActive);
    :- Need(s.now <= w.deadlineResolve, ResolveExpired);
    :- Need(w.IsParticipant(conceder), NotAParticipant);
    :- Need(winnerAccount == w.Counterparty(conceder), NotCounterparty);
    var split :- SplitPot(w.stake, w.feeBps);
    SettleTo(s, id, w, winnerToken, split)
  }

  // ---- cancellation by consent ----

  function CancelPropose(s: State, participant: Address, id: Address): Result<State> {
    var w :- LoadWager(s, id);
    :- Need(w.state == Active, CancelWindowClosed);
    :- Need(s.now <= w.deadlineResolve, CancelWindowClosed);
    :- Need(w.IsParticipant(participant), NotAParticipant);
    :- Need(w.cancelProposedBy == DEFAULT, CancelAlreadyOpen);
    Ok(s.(wagers := s.wagers[id := w.(cancelProposedBy := participant)]))
  }

  function CancelClear(s: State, participant: Address, id: Address): Result<State> {
    var w :- LoadWager(s, id);
    :- Need(w.IsParticipant(participant), NotAParticipant);
    :- Need(w.cancelProposedBy != DEFAULT, CancelNotOpen);
    Ok(s.(wagers := s.wagers[id := w.(cancelProposedBy := DEFAULT)]))
  }

  /** Both stakes home, whatever is left to the fee account, then the close. */
  function ReturnStakesAndCloseVault(t: TokenMap, authority: Address, vault: Address, sideAToken: Address,
                                     sideBToken: Address, feeToken: Address, rentCollector: Address,
                                     stake: u64): Result<TokenMap>
  {
    var t1 :- Transfer(t, vault, sideAToken, authority, stake);
    var t2 :- Transfer(t1, vault, sideBToken, authority, stake);
    var swept :- SweepAndCloseVault(t2, authority, vault, feeToken, rentCollector);
    Ok(swept.tokens)
  }

  function CancelAccept(s: State, acceptor: Address, id: Address): Result<State> {
    var w :- LoadWager(s, id);
    :- Need(w.rentCollector != id, ConstraintClose);
    var sideAToken :- LoadAta(s.tokens, w.sideA, w.mint);
    var sideBToken :- LoadAta(s.tokens, w.sideB, w.mint);
    :- Need(w.sideA in s.counters && w.sideB in s.counters, AccountMissing);
    :- Need(w.feeDestination in s.tokens, AccountMissing);
    var vault :- LoadAta(s.tokens, id, w.mint);
    :- Need(sideAToken != sideBToken && sideAToken != w.feeDestination && sideAToken != vault
            && sideBToken != w.feeDestination && sideBToken != vault && w.feeDestination != vault, DuplicateMutable);
    :- Need(w.state == Active, CancelWindowClosed);
    :- Need(s.now <= w.deadlineResolve, CancelWindowClosed);
    :- Need(w.cancelProposedBy != DEFAULT, CancelNotOpen);
    :- Need(w.IsParticipant(acceptor), NotAParticipant);
    :- Need(acceptor != w.cancelProposedBy, CannotAcceptOwnProposal);
    var tokens :- ReturnStakesAndCloseVault(s.tokens, id, vault, sideAToken, sideBToken, w.feeDestination,
                                            w.rentCollector, w.stake);
    Ok(ReleaseBoth(s, id, w, SaturatingDouble(w.stake), tokens))
  }

  // ---- reclaiming a finished wager ----

  function CloseExpired(s: State, id: Address, feeToken: Option<Address>): Result<State> {
    var w :- LoadWager(s, id);
    :- Need(w.rentCollector != id, ConstraintClose);
    var vault :- LoadAta(s.tokens, id, w.mint);
    :- Need(feeToken.Some? ==> feeToken.value in s.tokens, AccountMissing);
    :- Need(feeToken != Some(vault), DuplicateMutable);
    :- Need(w.Due(s.now), CloseNotDue);
    :- Need(w.FullyExited(), NotFullyExited);
    var surplus := s.tokens[vault].amount;
    var swept :-
      if surplus > 0 then
        :- Need(feeToken == Some(w.feeDestination), WrongFeeDestination);
        Transfer(s.tokens, vault, w.feeDestination, id, surplus)
      else Ok(s.tokens);
    var tokens :- Close(swept, vault, w.rentCollector, id);
    Ok(s.(wagers := s.wagers - {id}, tokens := tokens))
  }
}
