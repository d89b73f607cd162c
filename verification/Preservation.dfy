/** Every step keeps the invariant, so it holds in every reachable state. */
module Preservation {
  import opened Types
  import opened Tokens
  import opened Accounts
  import opened Handlers
  import opened Policy
  import opened Payout
  import opened Steps
  import opened History
  import opened Invariant
  import opened Exits

  // ---- the books ----

  /** A wager changes, and the books with it: by one stake in (1), one stake out (-1), or not at all (0). */
  lemma BooksFollow(s: State, s': State, id: Address, w: Wager, side: Address, change: int)
    requires BooksSound(s) && id in s.wagers && s'.wagers == s.wagers[id := w]
    requires w.Outstanding() == s.wagers[id].Outstanding() + change * w.stake
    requires forall k :: w.HeldBy(k) == s.wagers[id].HeldBy(k) + (if k == side then change else 0)
    requires s'.config.totalOpenValue == s.config.totalOpenValue + change * w.stake
    requires forall k :: Count(s'.counters, k) == Count(s.counters, k) + (if k == side then change else 0)
    ensures BooksSound(s')
  {
    BooksAfterReplace(s.wagers, id, w);
    forall k ensures Count(s'.counters, k) == Held(s'.wagers, k) {
      assert Count(s.counters, k) == Held(s.wagers, k);
    }
  }

  /** A wager ends, and the books release what it still held. */
  lemma BooksFollowRemoval(s: State, s': State, id: Address)
    requires BooksSound(s) && id in s.wagers && s'.wagers == s.wagers - {id}
    requires s'.config.totalOpenValue == s.config.totalOpenValue - s.wagers[id].Outstanding()
    requires forall k :: Count(s'.counters, k) == Count(s.counters, k) - s.wagers[id].HeldBy(k)
    ensures BooksSound(s')
  {
    BooksAfterRemove(s.wagers, id);
    forall k ensures Count(s'.counters, k) == Held(s'.wagers, k) {
      assert Count(s.counters, k) == Held(s.wagers, k);
    }
  }

  lemma BooksFollowCreation(s: State, s': State, id: Address, w: Wager)
    requires BooksSound(s) && id !in s.wagers && s'.wagers == s.wagers[id := w]
    requires !w.fundedA && !w.fundedB
    requires s'.config.totalOpenValue == s.config.totalOpenValue && s'.counters == s.counters
    ensures BooksSound(s')
  {
    BooksAfterReplace(s.wagers, id, w);
    forall k ensures Count(s'.counters, k) == Held(s'.wagers, k) {
      assert Count(s.counters, k) == Held(s.wagers, k);
    }
  }

  // ---- the wagers ----

  ghost predicate TokensSound(t: TokenMap) { VaultsUncontrolled(t) && SupplyFits(t) }

  lemma OthersAreSound(s: State, id: Address)
    requires WagersSound(s)
    ensures OtherVaults(s.wagers, s.tokens, id)
  {
    forall j <- s.wagers ensures j.WagerPda? && VaultSound(s.tokens, j, s.wagers[j]) {
      assert WagerSound(s.config.mint, s.now, j, s.wagers[j]);
    }
  }

  /** One wager is replaced by a sound one, the vaults of the others are still sound. */
  lemma WagersFollow(s: State, s': State, id: Address, w: Wager)
    requires WagersSound(s) && s'.wagers == s.wagers[id := w]
    requires s'.config.mint == s.config.mint && s'.now == s.now
    requires WagerSound(s.config.mint, s.now, id, w) && VaultSound(s'.tokens, id, w)
    requires OtherVaults(s.wagers, s'.tokens, id)
    ensures WagersSound(s')
  {
    forall j <- s'.wagers
      ensures WagerSound(s'.config.mint, s'.now, j, s'.wagers[j]) && VaultSound(s'.tokens, j, s'.wagers[j])
    {
      if j != id { assert WagerSound(s.config.mint, s.now, j, s.wagers[j]); }
    }
  }

  lemma WagersFollowRemoval(s: State, s': State, id: Address)
    requires WagersSound(s) && s'.wagers == s.wagers - {id}
    requires s'.config.mint == s.config.mint && s'.now == s.now
    requires OtherVaults(s.wagers, s'.tokens, id)
    ensures WagersSound(s')
  {
    forall j <- s'.wagers
      ensures WagerSound(s'.config.mint, s'.now, j, s'.wagers[j]) && VaultSound(s'.tokens, j, s'.wagers[j])
    {
      assert WagerSound(s.config.mint, s.now, j, s.wagers[j]);
    }
  }

  /** Nothing but the books, the wagers and the tokens has changed. */
  predicate SameElsewhere(s: State, s': State) {
    && s' == s.(config := s'.config, wagers := s'.wagers, counters := s'.counters, tokens := s'.tokens)
    && s'.config == s.config.(totalOpenValue := s'.config.totalOpenValue)
  }

  lemma Assemble(s: State, s': State)
    requires Inv(s) && SameElsewhere(s, s')
    requires BooksSound(s') && WagersSound(s') && TokensSound(s'.tokens)
    ensures Inv(s')
  {
  }

  // ---- one side's stake moves ----

  lemma WentHomeKeepsBooks(s: State, s': State, id: Address, w: Wager, side: Address)
    requires BooksSound(s) && id in s.wagers && WentHome(s, s', id, w, side)
    requires w.Outstanding() == s.wagers[id].Outstanding() - w.stake
    requires forall k :: w.HeldBy(k) == s.wagers[id].HeldBy(k) - (if k == side then 1 else 0)
    ensures BooksSound(s')
  {
    BooksFollow(s, s', id, w, side, -1);
  }

  lemma WentHomeKeepsTokens(s: State, s': State, id: Address, w: Wager, side: Address)
    requires TokensSound(s.tokens) && OtherVaults(s.wagers, s.tokens, id) && WentHome(s, s', id, w, side)
    requires id.WagerPda? && VaultSound(s.tokens, id, w.(fundedA := false, fundedB := false))
    requires w.Outstanding() + w.stake <= s.tokens[Vault(id, w)].amount
    requires s.tokens[Vault(id, w)].mint == s.tokens[AtaOf(side, w.mint)].mint
    ensures TokensSound(s'.tokens) && OtherVaults(s.wagers, s'.tokens, id) && VaultSound(s'.tokens, id, w)
  {
    MoveKeepsTokens(s.tokens, Vault(id, w), AtaOf(side, w.mint), w.stake);
  }

  lemma WentHomeKeeps(s: State, s': State, id: Address, w: Wager, side: Address)
    requires Inv(s) && id in s.wagers && s.wagers[id].Holds(side) && WentHome(s, s', id, w, side)
    requires WagerSound(s.config.mint, s.now, id, w) && w.stake == s.wagers[id].stake
    requires w.Outstanding() == s.wagers[id].Outstanding() - w.stake
    requires forall k :: w.HeldBy(k) == s.wagers[id].HeldBy(k) - (if k == side then 1 else 0)
    requires s.tokens[Vault(id, w)].mint == s.tokens[AtaOf(side, w.mint)].mint
    ensures Inv(s')
  {
    assert WagerSound(s.config.mint, s.now, id, s.wagers[id]) && VaultSound(s.tokens, id, s.wagers[id]);
    WentHomeKeepsBooks(s, s', id, w, side);
    OthersAreSound(s, id);
    WentHomeKeepsTokens(s, s', id, w, side);
    WagersFollow(s, s', id, w);
    Assemble(s, s');
  }

  lemma UnstakeSideKeeps(s: State, staker: Address, id: Address)
    requires Inv(s) && UnstakeSide(s, staker, id).Ok?
    ensures Inv(UnstakeSide(s, staker, id).value)
  {
    UnstakeSideExactly(s, staker, id);
    assert WagerSound(s.config.mint, s.now, id, s.wagers[id]);
    WentHomeKeeps(s, UnstakeSide(s, staker, id).value, id, Unstaked(s.wagers[id], staker), staker);
  }

  lemma RefundSideKeeps(s: State, id: Address, side: Address)
    requires Inv(s) && RefundSide(s, id, side).Ok?
    ensures Inv(RefundSide(s, id, side).value)
  {
    RefundSideExactly(s, id, side);
    assert WagerSound(s.config.mint, s.now, id, s.wagers[id]);
    WentHomeKeeps(s, RefundSide(s, id, side).value, id, Refunded(s.wagers[id], side), side);
  }

  /** All that a stake needs besides room under the caps. */
  predicate OpenToStake(s: State, staker: Address, id: Address, source: Address) {
    && id in s.wagers
    && var w := s.wagers[id];
    && id == WagerPda(w.sideA, w.nonce) && IsAta(s.tokens, id, w.mint)
    && w.state == Funding && s.now <= w.deadlineFund && w.IsParticipant(staker)
    && !(if staker == w.sideA then w.fundedA else w.fundedB)
    && source != Vault(id, w) && source in s.tokens && s.tokens[source].mint == w.mint
    && Transfer(s.tokens, source, Vault(id, w), staker, w.stake).Ok?
  }

  predicate RoomUnderCaps(c: Config, count: u8, stake: u64) {
    count < c.maxOpenPerWallet && c.totalOpenValue + stake <= c.maxTotalOpen
  }

  /** Exactly when a stake is accepted. Unlike the exits, it reads the live configuration and the balance. */
  predicate CanStake(s: State, staker: Address, id: Address, source: Address) {
    OpenToStake(s, staker, id, source) && RoomUnderCaps(s.config, Count(s.counters, staker), s.wagers[id].stake)
  }

  lemma StakeSideExactly(s: State, staker: Address, id: Address, source: Address)
    ensures StakeSide(s, staker, id, source).Ok? <==> CanStake(s, staker, id, source)
    ensures CanStake(s, staker, id, source) ==>
            var w := s.wagers[id];
            StakeSide(s, staker, id, source).value
              == AcceptSide(s, id, WithStake(w, staker == w.sideA), staker,
                            Move(s.tokens, source, Vault(id, w), w.stake))
  {
  }

  lemma AcceptSideKeeps(s: State, id: Address, w: Wager, side: Address, source: Address)
    requires Inv(s) && id in s.wagers && CanSign(side)
    requires s.config.totalOpenValue + w.stake <= U64_MAX && Count(s.counters, side) + 1 <= U8_MAX
    requires WagerSound(s.config.mint, s.now, id, w)
    requires w.Outstanding() == s.wagers[id].Outstanding() + w.stake
    requires forall k :: w.HeldBy(k) == s.wagers[id].HeldBy(k) + (if k == side then 1 else 0)
    requires source != Vault(id, w) && Transfer(s.tokens, source, Vault(id, w), side, w.stake).Ok?
    ensures Inv(AcceptSide(s, id, w, side, Move(s.tokens, source, Vault(id, w), w.stake)))
  {
    var s' := AcceptSide(s, id, w, side, Move(s.tokens, source, Vault(id, w), w.stake));
    BooksFollow(s, s', id, w, side, 1);
    OthersAreSound(s, id);
    TransferKeeps(s.wagers, s.tokens, source, Vault(id, w), side, w.stake, id);
    assert VaultSound(s.tokens, id, s.wagers[id]);
    WagersFollow(s, s', id, w);
    Assemble(s, s');
  }

  lemma StakeSideKeeps(s: State, staker: Address, id: Address, source: Address)
    requires Inv(s) && CanSign(staker) && StakeSide(s, staker, id, source).Ok?
    ensures Inv(StakeSide(s, staker, id, source).value)
  {
    StakeSideExactly(s, staker, id, source);
    var w := s.wagers[id];
    assert WagerSound(s.config.mint, s.now, id, w);
    AcceptSideKeeps(s, id, WithStake(w, staker == w.sideA), staker, source);
  }

  // ---- a wager ends ----

  lemma BothReleasedKeeps(s: State, s': State, id: Address)
    requires Inv(s) && ActiveInTime(s, id) && BothReleased(s, s', id)
    requires TokensSound(s'.tokens) && OtherVaults(s.wagers, s'.tokens, id)
    ensures Inv(s')
  {
    ActiveInTimeIsReady(s, id);
    BooksFollowRemoval(s, s', id);
    WagersFollowRemoval(s, s', id);
    Assemble(s, s');
  }

  lemma PayKeepsTokens(wagers: map<Address, Wager>, tokens: TokenMap, id: Address, vault: Address, win: Address,
                       fd: Address, rent: Address, payout: u64, fee: u64, t': TokenMap)
    requires TokensSound(tokens) && OtherVaults(wagers, tokens, id)
    requires PayWinnerAndCloseVault(tokens, id, vault, win, fd, rent, payout, fee).Ok?
    requires t' == PayWinnerAndCloseVault(tokens, id, vault, win, fd, rent, payout, fee).value.tokens
    ensures TokensSound(t') && OtherVaults(wagers, t', id)
  {
    var t := tokens;
    TransferKeeps(wagers, t, vault, win, id, payout, id);
    t := Transfer(t, vault, win, id, payout).value;
    if fee > 0 {
      TransferKeeps(wagers, t, vault, fd, id, fee, id);
      t := Transfer(t, vault, fd, id, fee).value;
    }
    var surplus := t[vault].amount;
    if surplus > 0 {
      TransferKeeps(wagers, t, vault, fd, id, surplus, id);
      t := Transfer(t, vault, fd, id, surplus).value;
    }
    CloseKeeps(wagers, t, vault, rent, id, id);
  }

  lemma PaymentKeepsTokens(wagers: map<Address, Wager>, tokens: TokenMap, id: Address, w: Wager, winner: Address,
                           t: TokenMap)
    requires TokensSound(tokens) && OtherVaults(wagers, tokens, id) && PotFee(w) <= 2 * w.stake <= U64_MAX
    requires Payment(tokens, id, w, winner).Ok? && t == Payment(tokens, id, w, winner).value.tokens
    ensures TokensSound(t) && OtherVaults(wagers, t, id)
  {
    var split := SplitOf(w);
    PayKeepsTokens(wagers, tokens, id, Vault(id, w), AtaOf(winner, w.mint), w.feeDestination, w.rentCollector,
                   split.payout, split.fee, t);
  }

  lemma ResolveKeeps(s: State, resolver: Address, id: Address, winnerAccount: Address, winner: Address)
    requires Inv(s) && Resolve(s, resolver, id, winnerAccount, winner).Ok?
    ensures Inv(Resolve(s, resolver, id, winnerAccount, winner).value)
  {
    ResolveExactly(s, resolver, id, winnerAccount, winner);
    ActiveInTimeIsReady(s, id);
    ResolveOpened(s, resolver, id, winnerAccount, winner);
    OthersAreSound(s, id);
    PaymentKeepsTokens(s.wagers, s.tokens, id, s.wagers[id], winner,
                       Payment(s.tokens, id, s.wagers[id], winner).value.tokens);
    ReleaseBothReleases(s, id, Payment(s.tokens, id, s.wagers[id], winner).value.tokens);
    BothReleasedKeeps(s, Resolve(s, resolver, id, winnerAccount, winner).value, id);
  }

  lemma ConcedeKeeps(s: State, conceder: Address, id: Address, winner: Address)
    requires Inv(s) && Concede(s, conceder, id, winner).Ok?
    ensures Inv(Concede(s, conceder, id, winner).value)
  {
    ConcedeExactly(s, conceder, id, winner);
    ActiveInTimeIsReady(s, id);
    ConcedeOpened(s, conceder, id, winner);
    OthersAreSound(s, id);
    PaymentKeepsTokens(s.wagers, s.tokens, id, s.wagers[id], winner,
                       Payment(s.tokens, id, s.wagers[id], winner).value.tokens);
    ReleaseBothReleases(s, id, Payment(s.tokens, id, s.wagers[id], winner).value.tokens);
    BothReleasedKeeps(s, Concede(s, conceder, id, winner).value, id);
  }

  lemma ReturnKeepsTokens(wagers: map<Address, Wager>, tokens: TokenMap, id: Address, w: Wager)
    requires TokensSound(tokens) && OtherVaults(wagers, tokens, id) && Return(tokens, id, w).Ok?
    ensures TokensSound(Return(tokens, id, w).value) && OtherVaults(wagers, Return(tokens, id, w).value, id)
  {
    var vault, a, b, t := Vault(id, w), AtaOf(w.sideA, w.mint), AtaOf(w.sideB, w.mint), tokens;
    TransferKeeps(wagers, t, vault, a, id, w.stake, id);
    t := Transfer(t, vault, a, id, w.stake).value;
    TransferKeeps(wagers, t, vault, b, id, w.stake, id);
    t := Transfer(t, vault, b, id, w.stake).value;
    var surplus := t[vault].amount;
    if surplus > 0 {
      TransferKeeps(wagers, t, vault, w.feeDestination, id, surplus, id);
      t := Transfer(t, vault, w.feeDestination, id, surplus).value;
    }
    CloseKeeps(wagers, t, vault, w.rentCollector, id, id);
  }

  lemma CancelAcceptKeeps(s: State, acceptor: Address, id: Address)
    requires Inv(s) && CancelAccept(s, acceptor, id).Ok?
    ensures Inv(CancelAccept(s, acceptor, id).value)
  {
    CancelAcceptExactly(s, acceptor, id);
    ActiveInTimeIsReady(s, id);
    CancelAcceptOpened(s, acceptor, id);
    OthersAreSound(s, id);
    ReturnKeepsTokens(s.wagers, s.tokens, id, s.wagers[id]);
    ReleaseBothReleases(s, id, Return(s.tokens, id, s.wagers[id]).value);
    BothReleasedKeeps(s, CancelAccept(s, acceptor, id).value, id);
  }

  lemma SweepKeepsTokens(s: State, id: Address, feeToken: Option<Address>)
    requires TokensSound(s.tokens) && OtherVaults(s.wagers, s.tokens, id) && CloseExpired(s, id, feeToken).Ok?
    ensures var t := CloseExpired(s, id, feeToken).value.tokens; TokensSound(t) && OtherVaults(s.wagers, t, id)
  {
    var w, vault, t := s.wagers[id], Vault(id, s.wagers[id]), s.tokens;
    var surplus := t[vault].amount;
    if surplus > 0 {
      TransferKeeps(s.wagers, t, vault, w.feeDestination, id, surplus, id);
      t := Transfer(t, vault, w.feeDestination, id, surplus).value;
    }
    CloseKeeps(s.wagers, t, vault, w.rentCollector, id, id);
  }

  lemma CloseExpiredKeeps(s: State, id: Address, feeToken: Option<Address>)
    requires Inv(s) && CloseExpired(s, id, feeToken).Ok?
    ensures Inv(CloseExpired(s, id, feeToken).value)
  {
    var s' := CloseExpired(s, id, feeToken).value;
    CloseExpiredExactly(s, id, feeToken);
    OthersAreSound(s, id);
    SweepKeepsTokens(s, id, feeToken);
    BooksFollowRemoval(s, s', id);
    WagersFollowRemoval(s, s', id);
    Assemble(s, s');
  }

  // ---- a wager opens ----

  /** Exactly when a wager opens. */
  predicate CanCreate(s: State, args: CreateWagerArgs) {
    var id, vault := WagerPda(args.sideA, args.nonce), AtaOf(WagerPda(args.sideA, args.nonce), s.config.mint);
    && id !in s.wagers && (vault in s.tokens ==> IsAta(s.tokens, id, s.config.mint))
    && !s.config.paused && s.config.minStake <= args.stake <= s.config.maxStake
    && s.config.resolverCount <= RESOLVER_ALLOWLIST_LEN && s.config.ResolverAllowed(args.resolver)
    && args.resolver != args.sideA && args.resolver != args.sideB
    && args.sideA != DEFAULT && args.sideB != DEFAULT && args.sideA != args.sideB
    && s.now < args.deadlineFund < args.deadlineResolve
    && args.deadlineFund - s.now <= s.config.maxWindow && args.deadlineResolve - args.deadlineFund <= s.config.maxWindow
    && args.termsHash != 0
  }

  lemma CreateWagerExactly(s: State, args: CreateWagerArgs)
    ensures CreateWager(s, args).Ok? <==> CanCreate(s, args)
    ensures CanCreate(s, args) ==>
            var id, vault := WagerPda(args.sideA, args.nonce), AtaOf(WagerPda(args.sideA, args.nonce), s.config.mint);
            CreateWager(s, args).value
              == s.(wagers := s.wagers[id := FreshWager(s.config, args)],
                    tokens := if vault in s.tokens then s.tokens
                              else s.tokens[vault := TokenAccount(id, s.config.mint, 0, false)])
    ensures CanCreate(s, args) ==> OpensOn(FreshWager(s.config, args), args, s.config)
  {
  }

  lemma FreshWagerSound(c: Config, now: i64, args: CreateWagerArgs)
    requires ConfigSound(c) && 0 <= now < args.deadlineFund < args.deadlineResolve
    requires c.minStake <= args.stake <= c.maxStake && args.termsHash != 0
    requires args.resolver != args.sideA && args.resolver != args.sideB
    requires args.sideA != DEFAULT && args.sideB != DEFAULT && args.sideA != args.sideB
    requires args.deadlineFund - now <= c.maxWindow && args.deadlineResolve - args.deadlineFund <= c.maxWindow
    ensures WagerSound(c.mint, now, WagerPda(args.sideA, args.nonce), FreshWager(c, args))
  {
  }

  lemma CreateWagerKeeps(s: State, args: CreateWagerArgs)
    requires Inv(s) && CreateWager(s, args).Ok?
    ensures Inv(CreateWager(s, args).value)
  {
    CreateWagerExactly(s, args);
    var s', id := CreateWager(s, args).value, WagerPda(args.sideA, args.nonce);
    var vault := AtaOf(id, s.config.mint);
    BooksFollowCreation(s, s', id, FreshWager(s.config, args));
    FreshWagerSound(s.config, s.now, args);
    OthersAreSound(s, id);
    if vault !in s.tokens { UpdateKeepsTokens(s.tokens, vault, TokenAccount(id, s.config.mint, 0, false)); }
    WagersFollow(s, s', id, FreshWager(s.config, args));
    Assemble(s, s');
  }

  // ---- only the record of a proposal changes ----

  lemma ProposalKeeps(s: State, id: Address, proposer: Address)
    requires Inv(s) && id in s.wagers
    requires proposer != DEFAULT ==> s.wagers[id].state == Active && s.wagers[id].IsParticipant(proposer)
    ensures Inv(s.(wagers := s.wagers[id := s.wagers[id].(cancelProposedBy := proposer)]))
  {
    var w := s.wagers[id].(cancelProposedBy := proposer);
    var s' := s.(wagers := s.wagers[id := w]);
    assert WagerSound(s.config.mint, s.now, id, s.wagers[id]) && VaultSound(s.tokens, id, s.wagers[id]);
    BooksFollow(s, s', id, w, DEFAULT, 0);
    OthersAreSound(s, id);
    WagersFollow(s, s', id, w);
    Assemble(s, s');
  }

  // ---- configuration ----

  lemma MergeKeeps(c: Config, args: UpdateConfigArgs)
    requires ConfigSound(c) && MergeConfig(c, args).Ok?
    ensures var c' := MergeConfig(c, args).value;
            && ConfigSound(c')
            && c'.admin == c.admin && c'.mint == c.mint && c'.totalOpenValue == c.totalOpenValue
  {
    var c' := MergeConfig(c, args).value;
    if args.resolvers.Some? { assert c'.resolverAllowlist[..c'.resolverCount] == args.resolvers.value; }
  }

  lemma ConfigOnly(s: State, c: Config, pending: Option<Address>)
    requires Inv(s) && ConfigSound(c) && c.mint == s.config.mint && c.totalOpenValue == s.config.totalOpenValue
    requires pending.Some? ==> pending.value != DEFAULT && pending.value != c.admin
    ensures Inv(s.(config := c, pending := pending))
  {
    var s' := s.(config := c, pending := pending);
    assert BooksSound(s');
    forall j <- s'.wagers
      ensures WagerSound(s'.config.mint, s'.now, j, s'.wagers[j]) && VaultSound(s'.tokens, j, s'.wagers[j])
    {
      assert WagerSound(s.config.mint, s.now, j, s.wagers[j]);
    }
  }

  predicate IsAdmin(step: Step) {
    step.UpdateConfigIx? || step.ProposeAdminIx? || step.AcceptAdminIx? || step.CancelAdminTransferIx?
  }

  lemma AdminStepKeeps(s: State, step: Step)
    requires Inv(s) && IsAdmin(step) && Apply(s, step).Ok?
    ensures Inv(Apply(s, step).value)
  {
    var s' := Apply(s, step).value;
    if step.UpdateConfigIx? { MergeKeeps(s.config, step.updates); }
    assert s' == s.(config := s'.config, pending := s'.pending);
    ConfigOnly(s, s'.config, s'.pending);
  }

  // ---- outside the program ----

  predicate IsOutside(step: Step) {
    step.Tick? || step.SplTransfer? || step.SplClose? || step.SplOpen? || step.SplSetOwner? || step.SplSetFrozen?
  }

  lemma TokensAndTimeOnly(s: State, tokens: TokenMap, now: i64)
    requires Inv(s) && s.now <= now && TokensSound(tokens) && OtherVaults(s.wagers, tokens, DEFAULT)
    ensures Inv(s.(tokens := tokens, now := now))
  {
    var s' := s.(tokens := tokens, now := now);
    forall id <- s'.wagers
      ensures WagerSound(s'.config.mint, s'.now, id, s'.wagers[id]) && VaultSound(s'.tokens, id, s'.wagers[id])
    {
      assert WagerSound(s.config.mint, s.now, id, s.wagers[id]);
      assert id != DEFAULT;
    }
  }

  /** What others do with the token program leaves every vault covered. */
  lemma OutsideKeepsTokens(s: State, step: Step)
    requires TokensSound(s.tokens) && OtherVaults(s.wagers, s.tokens, DEFAULT)
    requires IsOutside(step) && Apply(s, step).Ok?
    ensures var t := Apply(s, step).value.tokens; TokensSound(t) && OtherVaults(s.wagers, t, DEFAULT)
  {
    match step
    case Tick(seconds) =>
    case SplTransfer(authority, source, to, amount) =>
      TransferKeeps(s.wagers, s.tokens, source, to, authority, amount, DEFAULT);
    case SplClose(authority, account, destination) =>
      CloseKeeps(s.wagers, s.tokens, account, destination, authority, DEFAULT);
    case SplOpen(_, account, owner, mint) =>
      UpdateKeepsTokens(s.tokens, account, TokenAccount(owner, mint, 0, false));
    case SplSetOwner(authority, account, newOwner) =>
      UpdateKeepsTokens(s.tokens, account, s.tokens[account].(owner := newOwner));
    case SplSetFrozen(_, account, frozen) =>
      UpdateKeepsTokens(s.tokens, account, s.tokens[account].(frozen := frozen));
  }

  lemma OutsideTouchesTokensAndTime(s: State, step: Step)
    requires IsOutside(step) && Apply(s, step).Ok?
    ensures var s' := Apply(s, step).value; s' == s.(tokens := s'.tokens, now := s'.now) && s.now <= s'.now
  {
  }

  lemma OutsideKeeps(s: State, step: Step)
    requires Inv(s) && IsOutside(step) && Apply(s, step).Ok?
    ensures Inv(Apply(s, step).value)
  {
    OthersAreSound(s, DEFAULT);
    OutsideKeepsTokens(s, step);
    OutsideTouchesTokensAndTime(s, step);
    TokensAndTimeOnly(s, Apply(s, step).value.tokens, Apply(s, step).value.now);
  }

  // ---- all steps ----

  lemma OpeningStepKeeps(s: State, step: Step)
    requires Inv(s) && (step.CreateWagerIx? || step.StakeSideIx?) && Apply(s, step).Ok?
    ensures Inv(Apply(s, step).value)
  {
    match step
    case CreateWagerIx(_, args) => CreateWagerKeeps(s, args);
    case StakeSideIx(staker, id, stakerToken) => StakeSideKeeps(s, staker, id, stakerToken);
  }

  lemma LeavingStepKeeps(s: State, step: Step)
    requires Inv(s) && (step.UnstakeSideIx? || step.RefundSideIx? || step.CloseExpiredIx?) && Apply(s, step).Ok?
    ensures Inv(Apply(s, step).value)
  {
    match step
    case UnstakeSideIx(staker, id) => UnstakeSideKeeps(s, staker, id);
    case RefundSideIx(_, id, side) => RefundSideKeeps(s, id, side);
    case CloseExpiredIx(_, id, feeToken) => CloseExpiredKeeps(s, id, feeToken);
  }

  lemma SettleStepKeeps(s: State, step: Step)
    requires Inv(s) && (step.ResolveIx? || step.ConcedeIx? || step.CancelAcceptIx?) && Apply(s, step).Ok?
    ensures Inv(Apply(s, step).value)
  {
    match step
    case ResolveIx(resolver, id, winnerAccount, winner) => ResolveKeeps(s, resolver, id, winnerAccount, winner);
    case ConcedeIx(conceder, id, winnerAccount) => ConcedeKeeps(s, conceder, id, winnerAccount);
    case CancelAcceptIx(acceptor, id) => CancelAcceptKeeps(s, acceptor, id);
  }

  lemma ProposalStepKeeps(s: State, step: Step)
    requires Inv(s) && (step.CancelProposeIx? || step.CancelClearIx?) && Apply(s, step).Ok?
    ensures Inv(Apply(s, step).value)
  {
    match step
    case CancelProposeIx(participant, id) => ProposalKeeps(s, id, participant);
    case CancelClearIx(participant, id) => ProposalKeeps(s, id, DEFAULT);
  }

  lemma NextKeeps(s: State, step: Step)
    requires Inv(s)
    ensures Inv(Next(s, step))
  {
    if Apply(s, step).Ok? {
      if IsOutside(step) { OutsideKeeps(s, step); }
      else if IsAdmin(step) { AdminStepKeeps(s, step); }
      else if step.ResolveIx? || step.ConcedeIx? || step.CancelAcceptIx? { SettleStepKeeps(s, step); }
      else if step.CancelProposeIx? || step.CancelClearIx? { ProposalStepKeeps(s, step); }
      else if step.CreateWagerIx? || step.StakeSideIx? { OpeningStepKeeps(s, step); }
      else { LeavingStepKeeps(s, step); }
    }
  }

  lemma GenesisSound(s: State, authority: Address, args: InitializeConfigArgs)
    requires IsGenesis(s, authority, args)
    ensures Inv(s)
  {
    assert s.config.resolverAllowlist[..s.config.resolverCount] == args.resolvers;
  }

  lemma {:induction false} RunKeeps(s: State, steps: seq<Step>)
    requires Inv(s)
    ensures Inv(Run(s, steps))
    decreases |steps|
  {
    if steps != [] {
      RunKeeps(s, steps[..|steps| - 1]);
      NextKeeps(Run(s, steps[..|steps| - 1]), steps[|steps| - 1]);
    }
  }

  lemma LogKeeps(start: State, log: seq<Entry>)
    requires Inv(start) && IsLog(start, log)
    ensures Inv(Last(start, log))
  {
    var steps := LogIsRun(start, log);
    RunKeeps(start, steps);
  }

  lemma LogKeepsUntil(start: State, log: seq<Entry>, k: nat)
    requires Inv(start) && IsLog(start, log) && k < |log|
    ensures Inv(log[k].before) && Last(start, log[..k]) == log[k].before && Last(start, log[..k + 1]) == log[k].after
  {
    LogPrefix(start, log, k);
    LogKeeps(start, log[..k]);
  }

  /** The invariant holds in every reachable state. */
  lemma ReachableSound(s: State)
    requires Reachable(s)
    ensures Inv(s)
  {
    var genesis, authority, args, steps :| IsGenesis(genesis, authority, args) && s == Run(genesis, steps);
    GenesisSound(genesis, authority, args);
    RunKeeps(genesis, steps);
  }
}
