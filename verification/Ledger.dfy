/** The program at work: the accounts as mutable state, each handler in the order of its source. */
module LedgerProgram {
  import opened Types
  import opened Tokens
  import opened Accounts
  import opened Payout
  import opened Handlers
  import opened Policy
  import opened Steps

  /** A handler did what its function says. What it wrote before failing is undone by the runtime. */
  predicate Carried(r: Result<()>, after: State, expected: Result<State>) {
    match expected
    case Ok(s) => r.Ok? && after == s
    case Err(e) => r == Err(e)
  }

  /** Resets all four slots, then writes the resolvers into the first ones. */
  method WriteAllowlist(resolvers: seq<Address>) returns (allowlist: Allowlist)
    requires |resolvers| <= RESOLVER_ALLOWLIST_LEN
    ensures allowlist[..|resolvers|] == resolvers
    ensures forall i :: |resolvers| <= i < RESOLVER_ALLOWLIST_LEN ==> allowlist[i] == DEFAULT
  {
    allowlist := [DEFAULT, DEFAULT, DEFAULT, DEFAULT];
    for i := 0 to |resolvers|
      invariant allowlist[..i] == resolvers[..i]
      invariant forall j :: i <= j < RESOLVER_ALLOWLIST_LEN ==> allowlist[j] == DEFAULT
    {
      allowlist := allowlist[i := resolvers[i]];
    }
  }

  method HandleInitializeConfig(authority: Address, args: InitializeConfigArgs) returns (r: Result<Config>)
    ensures r == InitializeConfig(authority, args)
    ensures r.Ok? ==> SetUpAs(r.value, authority, args)
  {
    InitializesExactly(authority, args);
    var _ :- ValidateConfigValues(args.feeBps, args.minStake, args.maxStake, args.resolvers, args.maxWindow,
                                  args.maxOpenPerWallet, args.maxTotalOpen);
    :- Need(args.mint != DEFAULT && args.feeDestination != DEFAULT && args.rentCollector != DEFAULT, DefaultAddress);
    var allowlist := WriteAllowlist(args.resolvers);
    assert allowlist == Padded(args.resolvers);
    return Ok(Config(authority, args.mint, args.feeBps, args.feeDestination, args.rentCollector, args.minStake,
                     args.maxStake, args.maxOpenPerWallet, allowlist, |args.resolvers|, false, args.maxWindow,
                     args.maxTotalOpen, 0));
  }

  /** A token account as a handler holds it: the amount is the one read when the accounts were loaded, and goes
      stale when tokens move, until it is reloaded. */
  class LoadedAccount {
    const key: Address
    var amount: u64

    constructor (key: Address, amount: u64)
      ensures this.key == key && this.amount == amount
    {
      this.key, this.amount := key, amount;
    }
  }

  class Ledger {
    var config: Config
    var wagers: map<Address, Wager>
    var counters: map<Address, u8>
    var tokens: TokenMap
    var pending: Option<Address>
    var now: i64

    function Snapshot(): State
      reads this
    {
      State(config, wagers, counters, tokens, pending, now)
    }

    constructor (s: State)
      ensures Snapshot() == s
    {
      config, wagers, counters, tokens, pending, now := s.config, s.wagers, s.counters, s.tokens, s.pending, s.now;
    }

    method Restore(s: State)
      modifies this
      ensures Snapshot() == s
    {
      config, wagers, counters, tokens, pending, now := s.config, s.wagers, s.counters, s.tokens, s.pending, s.now;
    }

    // ---- the token program ----

    method MoveTokens(from: Address, to: Address, authority: Address, amount: u64) returns (r: Result<()>)
      modifies this`tokens
      ensures match Transfer(old(tokens), from, to, authority, amount)
              case Ok(t) => r.Ok? && tokens == t
              case Err(e) => r == Err(e) && tokens == old(tokens)
    {
      var bothExist := from in tokens && to in tokens;
      :- Need(bothExist, AccountMissing);
      :- Need(!tokens[from].frozen && !tokens[to].frozen, AccountFrozen);
      :- Need(amount <= tokens[from].amount, InsufficientFunds);
      :- Need(tokens[from].mint == tokens[to].mint, MintMismatch);
      :- Need(tokens[from].owner == authority, OwnerMismatch);
      if from != to {
        :- Need(tokens[to].amount + amount <= U64_MAX, BalanceOverflow);
        tokens := tokens[from := tokens[from].(amount := tokens[from].amount - amount)];
        tokens := tokens[to := tokens[to].(amount := tokens[to].amount + amount)];
      }
      return Ok(());
    }

    method CloseTokenAccount(account: Address, destination: Address, authority: Address) returns (r: Result<()>)
      modifies this`tokens
      ensures match Close(old(tokens), account, destination, authority)
              case Ok(t) => r.Ok? && tokens == t
              case Err(e) => r == Err(e) && tokens == old(tokens)
    {
      var isThere := account in tokens;
      :- Need(isThere, AccountMissing);
      :- Need(account != destination, SelfClose);
      :- Need(tokens[account].amount == 0, NonZeroBalance);
      :- Need(tokens[account].owner == authority, OwnerMismatch);
      tokens := tokens - {account};
      return Ok(());
    }

    method Load(key: Address) returns (account: LoadedAccount)
      ensures fresh(account) && account.key == key && account.amount == AmountAt(tokens, key)
    {
      account := new LoadedAccount(key, AmountAt(tokens, key));
    }

    method Reload(account: LoadedAccount)
      modifies account
      ensures account.amount == AmountAt(tokens, account.key)
    {
      account.amount := AmountAt(tokens, account.key);
    }

    // ---- configuration ----

    method HandleUpdateConfig(admin: Address, args: UpdateConfigArgs) returns (r: Result<()>)
      modifies this`config
      ensures Carried(r, Snapshot(), UpdateConfig(old(Snapshot()), admin, args))
      ensures r.Ok? <==> admin == old(config).admin && AsksForValid(old(config), args)
      ensures r.Ok? ==> Updated(old(config), args, config)
    {
      UpdatesExactly(Snapshot(), admin, args);
      var isAdmin := admin == config.admin;
      :- Need(isAdmin, NotAdmin);
      r := MergeInPlace(args);
    }

    method MergeInPlace(args: UpdateConfigArgs) returns (r: Result<()>)
      modifies this`config
      ensures match MergeConfig(old(config), args)
              case Ok(c) => r.Ok? && config == c
              case Err(e) => r == Err(e)
    {
      var countInRange := config.resolverCount <= RESOLVER_ALLOWLIST_LEN;
      :- Need(countInRange, Panic);
      var feeBps := Or(args.feeBps, config.feeBps);
      var minStake := Or(args.minStake, config.minStake);
      var maxStake := Or(args.maxStake, config.maxStake);
      var maxWindow := Or(args.maxWindow, config.maxWindow);
      var maxOpenPerWallet := Or(args.maxOpenPerWallet, config.maxOpenPerWallet);
      var maxTotalOpen := Or(args.maxTotalOpen, config.maxTotalOpen);
      var resolvers := Or(args.resolvers, config.resolverAllowlist[..config.resolverCount]);
      var _ :- ValidateConfigValues(feeBps, minStake, maxStake, resolvers, maxWindow, maxOpenPerWallet, maxTotalOpen);
      WriteValues(feeBps, minStake, maxStake, maxWindow, maxOpenPerWallet, maxTotalOpen);
      if args.feeDestination.Some? {
        :- Need(args.feeDestination.value != DEFAULT, DefaultAddress);
        config := config.(feeDestination := args.feeDestination.value);
      }
      if args.rentCollector.Some? {
        :- Need(args.rentCollector.value != DEFAULT, DefaultAddress);
        config := config.(rentCollector := args.rentCollector.value);
      }
      if args.resolvers.Some? { WriteResolvers(resolvers); }
      if args.paused.Some? { config := config.(paused := args.paused.value); }
      return Ok(());
    }

    method WriteValues(feeBps: u16, minStake: u64, maxStake: u64, maxWindow: i64, maxOpenPerWallet: u8,
                       maxTotalOpen: u64)
      modifies this`config
      ensures config == old(config).(feeBps := feeBps, minStake := minStake, maxStake := maxStake,
                                     maxWindow := maxWindow, maxOpenPerWallet := maxOpenPerWallet,
                                     maxTotalOpen := maxTotalOpen)
    {
      config := config.(feeBps := feeBps);
      config := config.(minStake := minStake);
      config := config.(maxStake := maxStake);
      config := config.(maxWindow := maxWindow);
      config := config.(maxOpenPerWallet := maxOpenPerWallet);
      config := config.(maxTotalOpen := maxTotalOpen);
    }

    method WriteResolvers(resolvers: seq<Address>)
      requires |resolvers| <= RESOLVER_ALLOWLIST_LEN
      modifies this`config
      ensures config == old(config).(resolverAllowlist := Padded(resolvers), resolverCount := |resolvers|)
    {
      var allowlist := WriteAllowlist(resolvers);
      assert allowlist == Padded(resolvers);
      config := config.(resolverAllowlist := allowlist);
      config := config.(resolverCount := |resolvers|);
    }

    method HandleProposeAdmin(admin: Address, newAdmin: Address) returns (r: Result<()>)
      modifies this`pending
      ensures Carried(r, Snapshot(), ProposeAdmin(old(Snapshot()), admin, newAdmin))
      ensures r.Ok? <==> admin == config.admin && newAdmin != DEFAULT && newAdmin != admin
      ensures pending == if r.Ok? then Some(newAdmin) else old(pending)
    {
      var isAdmin := admin == config.admin;
      :- Need(isAdmin, NotAdmin);
      :- Need(newAdmin != DEFAULT && newAdmin != config.admin, BadNewAdmin);
      pending := Some(newAdmin);
      return Ok(());
    }

    method HandleAcceptAdmin(newAdmin: Address) returns (r: Result<()>)
      modifies this`config, this`pending
      ensures Carried(r, Snapshot(), AcceptAdmin(old(Snapshot()), newAdmin))
      ensures r.Ok? <==> old(pending) == Some(newAdmin)
      ensures r.Ok? ==> config == old(config).(admin := newAdmin) && pending == None
    {
      var isPending := pending.Some?;
      :- Need(isPending, AccountMissing);
      :- Need(pending.value == newAdmin, NotProposedAdmin);
      config := config.(admin := newAdmin);
      pending := None;
      return Ok(());
    }

    method HandleCancelAdminTransfer(admin: Address) returns (r: Result<()>)
      modifies this`pending
      ensures Carried(r, Snapshot(), CancelAdminTransfer(old(Snapshot()), admin))
      ensures r.Ok? <==> admin == config.admin && old(pending).Some?
      ensures pending == if r.Ok? then None else old(pending)
    {
      var isPending := pending.Some?;
      :- Need(isPending, AccountMissing);
      :- Need(admin == config.admin, NotAdmin);
      pending := None;
      return Ok(());
    }

    // ---- opening and funding ----

    method HandleCreateWager(args: CreateWagerArgs) returns (r: Result<()>)
      modifies this`wagers, this`tokens
      ensures Carried(r, Snapshot(), CreateWager(old(Snapshot()), args))
      ensures r.Ok? ==> var id := WagerPda(args.sideA, args.nonce);
                        id !in old(wagers) && id in wagers && OpensOn(wagers[id], args, config)
                        && wagers == old(wagers)[id := wagers[id]]
    {
      var id := WagerPda(args.sideA, args.nonce);
      var vault := AtaOf(id, config.mint);
      :- Need(id !in wagers, AccountInUse);
      if vault !in tokens {
        tokens := tokens[vault := TokenAccount(id, config.mint, 0, false)];
      } else {
        :- Need(tokens[vault].owner == id && tokens[vault].mint == config.mint, ConstraintTokenOwner);
      }
      :- Need(!config.paused, Paused);
      :- Need(args.stake >= config.minStake, StakeTooSmall);
      :- Need(args.stake <= config.maxStake, StakeTooLarge);
      :- Need(config.resolverCount <= RESOLVER_ALLOWLIST_LEN, Panic);
      :- Need(config.ResolverAllowed(args.resolver), ResolverNotAllowed);
      :- Need(args.resolver != args.sideA && args.resolver != args.sideB, ResolverIsParticipant);
      :- Need(args.sideB != DEFAULT, OpenSideNotAllowed);
      :- Need(args.sideA != DEFAULT, OpenSideNotAllowed);
      :- Need(args.sideB != args.sideA, SelfWager);
      :- Need(now < args.deadlineFund && args.deadlineFund < args.deadlineResolve, BadDeadlines);
      :- Need(args.deadlineFund - now <= I64_MAX, Panic);
      :- Need(args.deadlineFund - now <= config.maxWindow, WindowTooLong);
      :- Need(args.deadlineResolve - args.deadlineFund <= I64_MAX, Panic);
      :- Need(args.deadlineResolve - args.deadlineFund <= config.maxWindow, WindowTooLong);
      :- Need(args.termsHash != 0, EmptyTermsHash);
      wagers := wagers[id := Wager(
        Funding, args.sideA, args.sideB, args.stake, config.mint, false, false, false, false, args.resolver,
        args.termsHash, args.deadlineFund, args.deadlineResolve, config.feeBps, config.feeDestination,
        config.rentCollector, args.nonce, DEFAULT)];
      return Ok(());
    }

    method CheckSideToFund(w: Wager, staker: Address) returns (r: Result<bool>)
      ensures r == SideToFund(w, staker, now)
    {
      var isFunding := w.state == Funding;
      :- Need(isFunding, NotFunding);
      :- Need(now <= w.deadlineFund, FundingClosed);
      var isA, isB := staker == w.sideA, staker == w.sideB;
      :- Need(isA || isB, NotAParticipant);
      if isA {
        :- Need(!w.fundedA, AlreadyFunded);
      } else {
        :- Need(!w.fundedB, AlreadyFunded);
      }
      return Ok(isA);
    }

    method HandleStakeSide(staker: Address, id: Address, stakerToken: Address) returns (r: Result<()>)
      modifies this
      ensures Carried(r, Snapshot(), StakeSide(old(Snapshot()), staker, id, stakerToken))
    {
      var w :- StakeAccounts(Snapshot(), staker, id, stakerToken);
      var isA :- CheckSideToFund(w, staker);
      var newTotal :- TotalWithinCaps(config, Count(counters, staker), w.stake);
      r := TakeStake(staker, id, w, stakerToken, isA, newTotal);
    }

    method TakeStake(staker: Address, id: Address, w: Wager, stakerToken: Address, isA: bool, newTotal: u64)
      returns (r: Result<()>)
      requires id in wagers && w == wagers[id] && newTotal == config.totalOpenValue + w.stake
      requires Count(counters, staker) < U8_MAX
      modifies this
      ensures Carried(r, Snapshot(), FundSide(old(Snapshot()), staker, id, w, stakerToken, isA))
    {
      var vault := Vault(id, w);
      var _ :- MoveTokens(stakerToken, vault, staker, w.stake);
      AcceptBooks(id, staker, isA, newTotal);
      return Ok(());
    }

    /** The wallet cap is below 256, so the counter's checked addition cannot fail. */
    method AcceptBooks(id: Address, staker: Address, isA: bool, newTotal: u64)
      requires id in wagers && newTotal == config.totalOpenValue + wagers[id].stake
      requires Count(counters, staker) < U8_MAX
      modifies this`config, this`wagers, this`counters
      ensures Snapshot() == AcceptSide(old(Snapshot()), id, WithStake(old(wagers)[id], isA), staker, tokens)
    {
      config := config.(totalOpenValue := newTotal);
      counters := counters[staker := Count(counters, staker) + 1];
      MarkFunded(id, isA);
    }

    /** The second stake locks the wager. */
    method MarkFunded(id: Address, isA: bool)
      requires id in wagers
      modifies this`wagers
      ensures wagers == old(wagers)[id := WithStake(old(wagers)[id], isA)]
    {
      if isA {
        wagers := wagers[id := wagers[id].(fundedA := true)];
      } else {
        wagers := wagers[id := wagers[id].(fundedB := true)];
      }
      var nowActive := wagers[id].fundedA && wagers[id].fundedB;
      if nowActive { wagers := wagers[id := wagers[id].(state := Active)]; }
    }

    method HandleUnstakeSide(staker: Address, id: Address) returns (r: Result<()>)
      modifies this
      ensures Carried(r, Snapshot(), UnstakeSide(old(Snapshot()), staker, id))
    {
      var w :- LoadWager(Snapshot(), id);
      :- Need(staker in counters, AccountMissing);
      var stakerToken :- LoadAta(tokens, staker, w.mint);
      var vault :- LoadAta(tokens, id, w.mint);
      :- Need(stakerToken != vault, DuplicateMutable);
      :- Need(w.state == Funding, NotFunding);
      :- Need(now <= w.deadlineFund, FundingClosed);
      var isA, isB := staker == w.sideA, staker == w.sideB;
      :- Need(isA || isB, NotAParticipant);
      if isA {
        :- Need(w.fundedA, SideNotFunded);
      } else {
        :- Need(w.fundedB, SideNotFunded);
      }
      var amount := w.stake;
      var _ :- MoveTokens(vault, stakerToken, id, amount);
      ReleaseSideBooks(id, staker, if isA then w.(fundedA := false) else w.(fundedB := false));
      return Ok(());
    }

    /** Saturating on the way down, so that bookkeeping cannot fail an exit. */
    method ReleaseSideBooks(id: Address, side: Address, left: Wager)
      requires side in counters
      modifies this`config, this`wagers, this`counters
      ensures Snapshot() == ReleaseSide(old(Snapshot()), id, left, side, tokens)
    {
      config := config.(totalOpenValue := SaturatingSub(config.totalOpenValue, left.stake));
      counters := counters[side := SaturatingSub(counters[side], 1)];
      wagers := wagers[id := left];
    }

    method CheckDue(w: Wager) returns (due: bool)
      ensures due == w.Due(now)
    {
      match w.state {
        case Funding => due := now > w.deadlineFund;
        case Active => due := now > w.deadlineResolve;
        case Cancelled => due := true;
        case Resolved => due := false;
      }
    }

    method HandleRefundSide(id: Address, side: Address) returns (r: Result<()>)
      modifies this
      ensures Carried(r, Snapshot(), RefundSide(old(Snapshot()), id, side))
    {
      var w :- LoadWager(Snapshot(), id);
      var sideToken :- LoadAta(tokens, side, w.mint);
      :- Need(side in counters, AccountMissing);
      var vault :- LoadAta(tokens, id, w.mint);
      :- Need(sideToken != vault, DuplicateMutable);
      var due := CheckDue(w);
      :- Need(due, RefundNotDue);
      :- Need(w.IsParticipant(side), NotAParticipant);
      var isA := side == w.sideA;
      var funded, refunded := w.fundedB, w.refundedB;
      if isA { funded, refunded := w.fundedA, w.refundedA; }
      :- Need(funded, SideNotFunded);
      :- Need(!refunded, AlreadyExited);
      var amount := w.stake;
      var _ :- MoveTokens(vault, sideToken, id, amount);
      ReleaseSideBooks(id, side, if isA then w.(refundedA := true) else w.(refundedB := true));
      return Ok(());
    }

    // ---- settlement ----

    /** The amount loaded with the vault is stale once something has been paid out; the reload is what makes the
        sweep exact. */
    method SweepAndClose(authority: Address, vault: LoadedAccount, feeToken: Address, rentCollector: Address)
      returns (r: Result<u64>)
      modifies this`tokens, vault
      ensures match SweepAndCloseVault(old(tokens), authority, vault.key, feeToken, rentCollector)
              case Ok(paid) => r == Ok(paid.surplus) && tokens == paid.tokens && vault.amount == paid.surplus
              case Err(e) => r == Err(e)
    {
      Reload(vault);
      var surplus := vault.amount;
      if surplus > 0 {
        var _ :- MoveTokens(vault.key, feeToken, authority, surplus);
      }
      var _ :- CloseTokenAccount(vault.key, rentCollector, authority);
      return Ok(surplus);
    }

    method PayWinnerAndClose(authority: Address, vault: LoadedAccount, winnerToken: Address, feeToken: Address,
                             rentCollector: Address, payout: u64, fee: u64) returns (r: Result<u64>)
      modifies this`tokens, vault
      ensures match PayWinnerAndCloseVault(old(tokens), authority, vault.key, winnerToken, feeToken, rentCollector,
                                           payout, fee)
              case Ok(paid) => r == Ok(paid.surplus) && tokens == paid.tokens
              case Err(e) => r == Err(e)
    {
      var _ :- MoveTokens(vault.key, winnerToken, authority, payout);
      if fee > 0 {
        var _ :- MoveTokens(vault.key, feeToken, authority, fee);
      }
      r := SweepAndClose(authority, vault, feeToken, rentCollector);
    }

    /** Both sides' counters and the accumulator, then the wager, whose account closes. */
    method ReleaseBooks(id: Address, pot: u64, ended: Wager)
      requires id in wagers && wagers[id].sideA in counters && wagers[id].sideB in counters
      modifies this`config, this`wagers, this`counters
      ensures Snapshot() == ReleaseBoth(old(Snapshot()), id, old(wagers)[id], pot, tokens)
    {
      var w := wagers[id];
      counters := counters[w.sideA := SaturatingSub(counters[w.sideA], 1)];
      counters := counters[w.sideB := SaturatingSub(counters[w.sideB], 1)];
      config := config.(totalOpenValue := SaturatingSub(config.totalOpenValue, pot));
      wagers := wagers[id := ended];
      wagers := wagers - {id};
      assert wagers == old(wagers) - {id};
    }

    method Settle(id: Address, w: Wager, vault: LoadedAccount, winnerToken: Address, split: Split)
      returns (r: Result<()>)
      requires id in wagers && w == wagers[id] && w.sideA in counters && w.sideB in counters
               && vault.key == Vault(id, w)
      requires split.payout + split.fee <= U64_MAX
      modifies this, vault
      ensures Carried(r, Snapshot(), SettleTo(old(Snapshot()), id, w, winnerToken, split))
    {
      var pot := split.payout + split.fee;
      var _ :- PayWinnerAndClose(id, vault, winnerToken, w.feeDestination, w.rentCollector, split.payout, split.fee);
      ReleaseBooks(id, pot, w.(state := Resolved));
      return Ok(());
    }

    method HandleResolve(resolver: Address, id: Address, winnerAccount: Address, winner: Address)
      returns (r: Result<()>)
      modifies this
      ensures Carried(r, Snapshot(), Resolve(old(Snapshot()), resolver, id, winnerAccount, winner))
    {
      var w :- LoadWager(Snapshot(), id);
      :- Need(resolver == w.resolver, NotResolver);
      :- Need(w.rentCollector != id, ConstraintClose);
      var winnerToken :- LoadAta(tokens, winnerAccount, w.mint);
      :- Need(w.feeDestination in tokens, AccountMissing);
      var vault :- LoadAta(tokens, id, w.mint);
      :- Need(winnerToken != w.feeDestination && winnerToken != vault && w.feeDestination != vault, DuplicateMutable);
      :- Need(w.sideA in counters && w.sideB in counters, AccountMissing);
      :- Need(w.state == Active, NotActive);
      :- Need(now <= w.deadlineResolve, ResolveExpired);
      :- Need(w.IsParticipant(winner), WinnerNotParticipant);
      :- Need(winnerAccount == winner, WinnerNotParticipant);
      var loaded := Load(vault);
      var split :- SplitPot(w.stake, w.feeBps);
      r := Settle(id, w, loaded, winnerToken, split);
    }

    method HandleConcede(conceder: Address, id: Address, winnerAccount: Address) returns (r: Result<()>)
      modifies this
      ensures Carried(r, Snapshot(), Concede(old(Snapshot()), conceder, id, winnerAccount))
    {
      var w :- LoadWager(Snapshot(), id);
      :- Need(w.rentCollector != id, ConstraintClose);
      var winnerToken :- LoadAta(tokens, winnerAccount, w.mint);
      :- Need(w.feeDestination in tokens, AccountMissing);
      var vault :- LoadAta(tokens, id, w.mint);
      :- Need(winnerToken != w.feeDestination && winnerToken != vault && w.feeDestination != vault, DuplicateMutable);
      :- Need(w.sideA in counters && w.sideB in counters, AccountMissing);
      :- Need(w.state == Active, NotActive);
      :- Need(now <= w.deadlineResolve, ResolveExpired);
      :- Need(w.IsParticipant(conceder), NotAParticipant);
      var winner := w.Counterparty(conceder);
      :- Need(winnerAccount == winner, NotCounterparty);
      var loaded := Load(vault);
      var split :- SplitPot(w.stake, w.feeBps);
      r := Settle(id, w, loaded, winnerToken, split);
    }

    // ---- cancellation ----

    method HandleCancelPropose(participant: Address, id: Address) returns (r: Result<()>)
      modifies this`wagers
      ensures Carried(r, Snapshot(), CancelPropose(old(Snapshot()), participant, id))
    {
      var w :- LoadWager(Snapshot(), id);
      :- Need(w.state == Active, CancelWindowClosed);
      :- Need(now <= w.deadlineResolve, CancelWindowClosed);
      :- Need(w.IsParticipant(participant), NotAParticipant);
      :- Need(w.cancelProposedBy == DEFAULT, CancelAlreadyOpen);
      wagers := wagers[id := wagers[id].(cancelProposedBy := participant)];
      return Ok(());
    }

    method HandleCancelClear(participant: Address, id: Address) returns (r: Result<()>)
      modifies this`wagers
      ensures Carried(r, Snapshot(), CancelClear(old(Snapshot()), participant, id))
    {
      var w :- LoadWager(Snapshot(), id);
      :- Need(w.IsParticipant(participant), NotAParticipant);
      :- Need(w.cancelProposedBy != DEFAULT, CancelNotOpen);
      wagers := wagers[id := wagers[id].(cancelProposedBy := DEFAULT)];
      return Ok(());
    }

    /** The loop over the two homes, the reload, the sweep and the close. */
    method ReturnStakesAndClose(authority: Address, vault: LoadedAccount, sideAToken: Address, sideBToken: Address,
                                feeToken: Address, rentCollector: Address, stake: u64) returns (r: Result<()>)
      modifies this`tokens, vault
      ensures match ReturnStakesAndCloseVault(old(tokens), authority, vault.key, sideAToken, sideBToken, feeToken,
                                              rentCollector, stake)
              case Ok(t) => r.Ok? && tokens == t
              case Err(e) => r == Err(e)
    {
      var key, homes := vault.key, [sideAToken, sideBToken];
      for i := 0 to |homes|
        invariant i == 0 ==> tokens == old(tokens)
        invariant 1 <= i ==> Transfer(old(tokens), key, sideAToken, authority, stake).Ok?
        invariant i == 1 ==> tokens == Transfer(old(tokens), key, sideAToken, authority, stake).value
        invariant i == 2 ==> Ok(tokens) == Transfer(Transfer(old(tokens), key, sideAToken, authority, stake).value,
                                                    key, sideBToken, authority, stake)
      {
        var _ :- MoveTokens(key, homes[i], authority, stake);
      }
      var _ :- SweepAndClose(authority, vault, feeToken, rentCollector);
      return Ok(());
    }

    method HandleCancelAccept(acceptor: Address, id: Address) returns (r: Result<()>)
      modifies this
      ensures Carried(r, Snapshot(), CancelAccept(old(Snapshot()), acceptor, id))
    {
      var w :- LoadWager(Snapshot(), id);
      :- Need(w.rentCollector != id, ConstraintClose);
      var sideAToken :- LoadAta(tokens, w.sideA, w.mint);
      var sideBToken :- LoadAta(tokens, w.sideB, w.mint);
      :- Need(w.sideA in counters && w.sideB in counters, AccountMissing);
      :- Need(w.feeDestination in tokens, AccountMissing);
      var vault :- LoadAta(tokens, id, w.mint);
      :- Need(sideAToken != sideBToken && sideAToken != w.feeDestination && sideAToken != vault
              && sideBToken != w.feeDestination && sideBToken != vault && w.feeDestination != vault, DuplicateMutable);
      :- Need(w.state == Active, CancelWindowClosed);
      :- Need(now <= w.deadlineResolve, CancelWindowClosed);
      :- Need(w.cancelProposedBy != DEFAULT, CancelNotOpen);
      :- Need(w.IsParticipant(acceptor), NotAParticipant);
      :- Need(acceptor != w.cancelProposedBy, CannotAcceptOwnProposal);
      var loaded := Load(vault);
      var _ :- ReturnStakesAndClose(id, loaded, sideAToken, sideBToken, w.feeDestination, w.rentCollector, w.stake);
      ReleaseBooks(id, SaturatingDouble(w.stake), w.(state := Cancelled, refundedA := true, refundedB := true));
      return Ok(());
    }

    // ---- reclaiming ----

    method HandleCloseExpired(id: Address, feeToken: Option<Address>) returns (r: Result<()>)
      modifies this`wagers, this`tokens
      ensures Carried(r, Snapshot(), CloseExpired(old(Snapshot()), id, feeToken))
    {
      var w :- LoadWager(Snapshot(), id);
      :- Need(w.rentCollector != id, ConstraintClose);
      var vault :- LoadAta(tokens, id, w.mint);
      var loaded := Load(vault);
      :- Need(feeToken.Some? ==> feeToken.value in tokens, AccountMissing);
      :- Need(feeToken != Some(vault), DuplicateMutable);
      var due := CheckDue(w);
      :- Need(due, CloseNotDue);
      :- Need(w.FullyExited(), NotFullyExited);
      var surplus := loaded.amount;
      if surplus > 0 {
        :- Need(feeToken.Some?, WrongFeeDestination);
        :- Need(feeToken.value == w.feeDestination, WrongFeeDestination);
        var _ :- MoveTokens(vault, feeToken.value, id, surplus);
      }
      var _ :- CloseTokenAccount(vault, w.rentCollector, id);
      wagers := wagers - {id};
      return Ok(());
    }

    // ---- the runtime ----

    method DispatchConfig(step: Step) returns (r: Result<()>)
      requires step.UpdateConfigIx? || step.ProposeAdminIx? || step.AcceptAdminIx? || step.CancelAdminTransferIx?
      modifies this
      ensures Carried(r, Snapshot(), Execute(old(Snapshot()), step))
    {
      match step
      case UpdateConfigIx(admin, updates) => r := HandleUpdateConfig(admin, updates);
      case ProposeAdminIx(admin, newAdmin) => r := HandleProposeAdmin(admin, newAdmin);
      case AcceptAdminIx(newAdmin) => r := HandleAcceptAdmin(newAdmin);
      case CancelAdminTransferIx(admin) => r := HandleCancelAdminTransfer(admin);
    }

    method DispatchStake(step: Step) returns (r: Result<()>)
      requires step.CreateWagerIx? || step.StakeSideIx? || step.UnstakeSideIx? || step.RefundSideIx?
               || step.CloseExpiredIx?
      modifies this
      ensures Carried(r, Snapshot(), Execute(old(Snapshot()), step))
    {
      match step
      case CreateWagerIx(_, args) => r := HandleCreateWager(args);
      case StakeSideIx(staker, id, stakerToken) => r := HandleStakeSide(staker, id, stakerToken);
      case UnstakeSideIx(staker, id) => r := HandleUnstakeSide(staker, id);
      case RefundSideIx(_, id, side) => r := HandleRefundSide(id, side);
      case CloseExpiredIx(_, id, feeToken) => r := HandleCloseExpired(id, feeToken);
    }

    method DispatchActive(step: Step) returns (r: Result<()>)
      requires step.ResolveIx? || step.ConcedeIx? || step.CancelProposeIx? || step.CancelClearIx?
               || step.CancelAcceptIx?
      modifies this
      ensures Carried(r, Snapshot(), Execute(old(Snapshot()), step))
    {
      match step
      case ResolveIx(resolver, id, winnerAccount, winner) => r := HandleResolve(resolver, id, winnerAccount, winner);
      case ConcedeIx(conceder, id, winnerAccount) => r := HandleConcede(conceder, id, winnerAccount);
      case CancelProposeIx(participant, id) => r := HandleCancelPropose(participant, id);
      case CancelClearIx(participant, id) => r := HandleCancelClear(participant, id);
      case CancelAcceptIx(acceptor, id) => r := HandleCancelAccept(acceptor, id);
    }

    method DispatchOutside(step: Step) returns (r: Result<()>)
      requires step.Tick? || step.SplTransfer? || step.SplClose? || step.SplOpen? || step.SplSetOwner?
               || step.SplSetFrozen?
      modifies this
      ensures Carried(r, Snapshot(), Execute(old(Snapshot()), step))
    {
      match step
      case Tick(seconds) =>
        :- Need(now + seconds <= I64_MAX, Panic);
        now := now + seconds;
        return Ok(());
      case SplTransfer(authority, source, to, amount) => r := MoveTokens(source, to, authority, amount);
      case SplClose(authority, account, destination) => r := CloseTokenAccount(account, destination, authority);
      case SplOpen(_, account, owner, mint) =>
        :- Need(account !in tokens && MayOpen(account, owner, mint), AccountInUse);
        tokens := tokens[account := TokenAccount(owner, mint, 0, false)];
        return Ok(());
      case SplSetOwner(authority, account, newOwner) =>
        :- Need(account in tokens, AccountMissing);
        :- Need(!tokens[account].frozen, AccountFrozen);
        :- Need(tokens[account].owner == authority, OwnerMismatch);
        tokens := tokens[account := tokens[account].(owner := newOwner)];
        return Ok(());
      case SplSetFrozen(_, account, frozen) =>
        :- Need(account in tokens, AccountMissing);
        tokens := tokens[account := tokens[account].(frozen := frozen)];
        return Ok(());
    }

    /** Verify the signature, run the handler, and on failure undo everything it wrote. */
    method Process(step: Step) returns (r: Result<()>)
      modifies this
      ensures Snapshot() == Next(old(Snapshot()), step)
      ensures match Apply(old(Snapshot()), step)
              case Ok(_) => r.Ok?
              case Err(e) => r == Err(e)
    {
      var before := Snapshot();
      var signer := Signer(step);
      :- Need(signer.Some? ==> CanSign(signer.value), MissingSignature);
      match step {
        case UpdateConfigIx(_, _) => r := DispatchConfig(step);
        case ProposeAdminIx(_, _) => r := DispatchConfig(step);
        case AcceptAdminIx(_) => r := DispatchConfig(step);
        case CancelAdminTransferIx(_) => r := DispatchConfig(step);
        case CreateWagerIx(_, _) => r := DispatchStake(step);
        case StakeSideIx(_, _, _) => r := DispatchStake(step);
        case UnstakeSideIx(_, _) => r := DispatchStake(step);
        case RefundSideIx(_, _, _) => r := DispatchStake(step);
        case CloseExpiredIx(_, _, _) => r := DispatchStake(step);
        case ResolveIx(_, _, _, _) => r := DispatchActive(step);
        case ConcedeIx(_, _, _) => r := DispatchActive(step);
        case CancelProposeIx(_, _) => r := DispatchActive(step);
        case CancelClearIx(_, _) => r := DispatchActive(step);
        case CancelAcceptIx(_, _) => r := DispatchActive(step);
        case _ => r := DispatchOutside(step);
      }
      if r.Err? { Restore(before); }
    }
  }
}
