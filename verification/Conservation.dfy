/** Tokens are neither created nor destroyed, and the open stakes are always backed by them. */
module Conservation {
  import opened Types
  import opened Sums
  import opened Tokens
  import opened Accounts
  import opened Handlers
  import opened Payout
  import opened Steps
  import opened Invariant
  import opened Preservation

  // ---- no step changes the amount in circulation ----

  lemma TransferConserves(t: TokenMap, from: Address, to: Address, authority: Address, amount: u64, mint: Address)
    requires Transfer(t, from, to, authority, amount).Ok?
    ensures Circulating(Transfer(t, from, to, authority, amount).value, mint) == Circulating(t, mint)
  {
    if from != to { MoveConserves(t, from, to, amount, mint); }
  }

  lemma SweepConserves(t: TokenMap, authority: Address, vault: Address, fd: Address, rent: Address, mint: Address)
    requires SweepAndCloseVault(t, authority, vault, fd, rent).Ok?
    ensures Circulating(SweepAndCloseVault(t, authority, vault, fd, rent).value.tokens, mint) == Circulating(t, mint)
  {
    var surplus := AmountAt(t, vault);
    var swept := if surplus > 0 then Transfer(t, vault, fd, authority, surplus).value else t;
    if surplus > 0 { TransferConserves(t, vault, fd, authority, surplus, mint); }
    RemoveEmptyConserves(swept, vault, mint);
  }

  lemma PaymentConserves(t: TokenMap, authority: Address, vault: Address, win: Address, fd: Address, rent: Address,
                         payout: u64, fee: u64, mint: Address)
    requires PayWinnerAndCloseVault(t, authority, vault, win, fd, rent, payout, fee).Ok?
    ensures Circulating(PayWinnerAndCloseVault(t, authority, vault, win, fd, rent, payout, fee).value.tokens, mint)
            == Circulating(t, mint)
  {
    TransferConserves(t, vault, win, authority, payout, mint);
    var t1 := Transfer(t, vault, win, authority, payout).value;
    if fee > 0 { TransferConserves(t1, vault, fd, authority, fee, mint); }
    var t2 := if fee > 0 then Transfer(t1, vault, fd, authority, fee).value else t1;
    SweepConserves(t2, authority, vault, fd, rent, mint);
  }

  lemma ReturnConserves(t: TokenMap, authority: Address, vault: Address, a: Address, b: Address, fd: Address,
                        rent: Address, stake: u64, mint: Address)
    requires ReturnStakesAndCloseVault(t, authority, vault, a, b, fd, rent, stake).Ok?
    ensures Circulating(ReturnStakesAndCloseVault(t, authority, vault, a, b, fd, rent, stake).value, mint)
            == Circulating(t, mint)
  {
    TransferConserves(t, vault, a, authority, stake, mint);
    var t1 := Transfer(t, vault, a, authority, stake).value;
    TransferConserves(t1, vault, b, authority, stake, mint);
    SweepConserves(Transfer(t1, vault, b, authority, stake).value, authority, vault, fd, rent, mint);
  }

  lemma CloseExpiredConserves(s: State, id: Address, feeToken: Option<Address>, mint: Address)
    requires CloseExpired(s, id, feeToken).Ok?
    ensures Circulating(CloseExpired(s, id, feeToken).value.tokens, mint) == Circulating(s.tokens, mint)
  {
    var w := s.wagers[id];
    var vault := Vault(id, w);
    var surplus := s.tokens[vault].amount;
    var swept := if surplus > 0 then Transfer(s.tokens, vault, w.feeDestination, id, surplus).value else s.tokens;
    if surplus > 0 { TransferConserves(s.tokens, vault, w.feeDestination, id, surplus, mint); }
    RemoveEmptyConserves(swept, vault, mint);
  }

  lemma SettlementConserves(s: State, step: Step, mint: Address)
    requires (step.ResolveIx? || step.ConcedeIx? || step.CancelAcceptIx?) && Apply(s, step).Ok?
    ensures Circulating(Apply(s, step).value.tokens, mint) == Circulating(s.tokens, mint)
  {
    var id := step.id;
    var w := s.wagers[id];
    if step.CancelAcceptIx? {
      ReturnConserves(s.tokens, id, Vault(id, w), AtaOf(w.sideA, w.mint), AtaOf(w.sideB, w.mint), w.feeDestination,
                      w.rentCollector, w.stake, mint);
    } else {
      var split := SplitPot(w.stake, w.feeBps).value;
      PaymentConserves(s.tokens, id, Vault(id, w), AtaOf(step.winnerAccount, w.mint), w.feeDestination,
                       w.rentCollector, split.payout, split.fee, mint);
    }
  }

  lemma SideConserves(s: State, step: Step, mint: Address)
    requires (step.StakeSideIx? || step.UnstakeSideIx? || step.RefundSideIx?) && Apply(s, step).Ok?
    ensures Circulating(Apply(s, step).value.tokens, mint) == Circulating(s.tokens, mint)
  {
    var id := step.id;
    var w := s.wagers[id];
    match step
    case StakeSideIx(staker, _, source) => TransferConserves(s.tokens, source, Vault(id, w), staker, w.stake, mint);
    case UnstakeSideIx(staker, _) =>
      TransferConserves(s.tokens, Vault(id, w), AtaOf(staker, w.mint), id, w.stake, mint);
    case RefundSideIx(_, _, side) => TransferConserves(s.tokens, Vault(id, w), AtaOf(side, w.mint), id, w.stake, mint);
  }

  lemma OutsideConserves(s: State, step: Step, mint: Address)
    requires IsOutside(step) && Apply(s, step).Ok?
    ensures Circulating(Apply(s, step).value.tokens, mint) == Circulating(s.tokens, mint)
  {
    match step
    case Tick(_) =>
    case SplTransfer(authority, source, to, amount) => TransferConserves(s.tokens, source, to, authority, amount, mint);
    case SplClose(_, account, _) => RemoveEmptyConserves(s.tokens, account, mint);
    case SplOpen(_, account, owner, m) => UpdateConserves(s.tokens, account, TokenAccount(owner, m, 0, false), mint);
    case SplSetOwner(_, account, newOwner) =>
      UpdateConserves(s.tokens, account, s.tokens[account].(owner := newOwner), mint);
    case SplSetFrozen(_, account, frozen) =>
      UpdateConserves(s.tokens, account, s.tokens[account].(frozen := frozen), mint);
  }

  lemma CreateConserves(s: State, args: CreateWagerArgs, mint: Address)
    requires CreateWager(s, args).Ok?
    ensures Circulating(CreateWager(s, args).value.tokens, mint) == Circulating(s.tokens, mint)
  {
    CreateWagerExactly(s, args);
    var id := WagerPda(args.sideA, args.nonce);
    var vault := AtaOf(id, s.config.mint);
    if vault !in s.tokens { UpdateConserves(s.tokens, vault, TokenAccount(id, s.config.mint, 0, false), mint); }
  }

  lemma NextConserves(s: State, step: Step, mint: Address)
    ensures Circulating(Next(s, step).tokens, mint) == Circulating(s.tokens, mint)
  {
    if Apply(s, step).Ok? {
      if IsOutside(step) { OutsideConserves(s, step, mint); }
      else if step.ResolveIx? || step.ConcedeIx? || step.CancelAcceptIx? { SettlementConserves(s, step, mint); }
      else if step.StakeSideIx? || step.UnstakeSideIx? || step.RefundSideIx? { SideConserves(s, step, mint); }
      else if step.CreateWagerIx? { CreateConserves(s, step.args, mint); }
      else if step.CloseExpiredIx? { CloseExpiredConserves(s, step.id, step.feeToken, mint); }
    }
  }

  /** Over any run, from any state whatever, the tokens of every mint stay constant in total. */
  lemma {:induction false} RunConserves(s: State, steps: seq<Step>, mint: Address)
    ensures Circulating(Run(s, steps).tokens, mint) == Circulating(s.tokens, mint)
    decreases |steps|
  {
    if steps != [] {
      RunConserves(s, steps[..|steps| - 1], mint);
      NextConserves(Run(s, steps[..|steps| - 1]), steps[|steps| - 1], mint);
    }
  }

  // ---- open stakes are backed ----

  ghost function VaultFn(t: TokenMap): (Address, Wager) -> int { (id, w: Wager) => AmountAt(t, Vault(id, w)) }

  /** Distinct wagers have distinct vaults, so what their vaults hold together is part of what circulates. */
  lemma {:induction false} VaultsWithinCirculation(wagers: map<Address, Wager>, t: TokenMap, mint: Address)
    requires forall id <- wagers :: wagers[id].mint == mint && IsAta(t, id, mint)
    ensures SumOver(wagers, VaultFn(t)) <= Circulating(t, mint)
    decreases |wagers|
  {
    if wagers == map[] {
      SumOverNonNegative(t, OfMint(mint));
    } else {
      var id :| id in wagers;
      var vault, rest := AtaOf(id, mint), wagers - {id};
      SumOverRemove(wagers, VaultFn(t), id);
      SumOverRemove(t, OfMint(mint), vault);
      assert rest.Keys == wagers.Keys - {id};
      SumOverSame(rest, VaultFn(t), VaultFn(t - {vault}));
      VaultsWithinCirculation(rest, t - {vault}, mint);
    }
  }

  lemma OpenValueBacked(s: State)
    requires Inv(s)
    ensures s.config.totalOpenValue <= SumOver(s.wagers, VaultFn(s.tokens))
    ensures SumOver(s.wagers, VaultFn(s.tokens)) <= Circulating(s.tokens, s.config.mint) <= U64_MAX
  {
    forall id <- s.wagers
      ensures s.wagers[id].mint == s.config.mint && IsAta(s.tokens, id, s.config.mint)
      ensures OutstandingFn()(id, s.wagers[id]) <= VaultFn(s.tokens)(id, s.wagers[id])
    {
      assert WagerSound(s.config.mint, s.now, id, s.wagers[id]) && VaultSound(s.tokens, id, s.wagers[id]);
    }
    SumOverMonotone(s.wagers, OutstandingFn(), VaultFn(s.tokens));
    VaultsWithinCirculation(s.wagers, s.tokens, s.config.mint);
  }

  lemma HeldStakeFits(s: State, source: Address, stake: nat)
    requires Inv(s) && source in s.tokens && CanSign(s.tokens[source].owner)
    requires s.tokens[source].mint == s.config.mint && stake <= s.tokens[source].amount
    ensures s.config.totalOpenValue + stake <= U64_MAX
  {
    OpenValueBacked(s);
    var mint, rest := s.config.mint, s.tokens - {source};
    forall j <- s.wagers ensures s.wagers[j].mint == mint && IsAta(rest, j, mint) && AtaOf(j, mint) != source {
      assert WagerSound(mint, s.now, j, s.wagers[j]) && VaultSound(s.tokens, j, s.wagers[j]);
    }
    SumOverSame(s.wagers, VaultFn(s.tokens), VaultFn(rest));
    VaultsWithinCirculation(s.wagers, rest, mint);
    SumOverRemove(s.tokens, OfMint(mint), source);
    assert Circulating(s.tokens, mint) <= U64_MAX;
  }

  /** Somebody who holds the stake cannot overflow the accumulator: the stake is in circulation besides the vaults. */
  lemma StakeNeverOverflows(s: State, staker: Address, id: Address, source: Address)
    requires Reachable(s) && CanSign(staker) && id in s.wagers
    requires source in s.tokens && s.tokens[source].owner == staker && s.tokens[source].mint == s.wagers[id].mint
    requires s.wagers[id].stake <= s.tokens[source].amount
    ensures s.config.totalOpenValue + s.wagers[id].stake <= U64_MAX
    ensures StakeSide(s, staker, id, source) != Err(MathOverflow)
  {
    ReachableSound(s);
    assert WagerSound(s.config.mint, s.now, id, s.wagers[id]);
    HeldStakeFits(s, source, s.wagers[id].stake);
    OnlyTheAccumulatorOverflows(s, staker, id, source);
  }

  lemma OnlyTheAccumulatorOverflows(s: State, staker: Address, id: Address, source: Address)
    requires id in s.wagers && s.config.totalOpenValue + s.wagers[id].stake <= U64_MAX
    ensures StakeSide(s, staker, id, source) != Err(MathOverflow)
  {
  }
}
