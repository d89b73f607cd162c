/** From a sound ledger, exactly when each exit succeeds and exactly what it does. None of the conditions
    mentions a balance, a counter or the accumulator: an exit never fails on the books, on a short vault
    or on an overflow, and no subtraction saturates. */
module Exits {
  import opened Types
  import opened Tokens
  import opened Accounts
  import opened Handlers
  import opened Payout
  import opened Steps
  import opened Invariant

  /** An owner's canonical account exists, is still the owner's and is not frozen. */
  predicate Usable(t: TokenMap, owner: Address, mint: Address) {
    IsAta(t, owner, mint) && !t[AtaOf(owner, mint)].frozen
  }

  /** The wager's pinned accounts allow its vault to be closed after paying remainder to the fee account. */
  predicate CanSweep(t: TokenMap, id: Address, w: Wager, remainder: int) {
    && w.rentCollector != id && w.rentCollector != Vault(id, w)
    && (remainder > 0 ==> Receives(t, w.feeDestination, w.mint) && w.feeDestination != Vault(id, w)
                          && Vault(id, w) in t && !t[Vault(id, w)].frozen)
  }

  predicate ActiveInTime(s: State, id: Address) {
    id in s.wagers && s.wagers[id].state == Active && s.now <= s.wagers[id].deadlineResolve
  }

  /** With the supply in 64 bits a transfer never overflows its destination. */
  lemma TransferWhen(t: TokenMap, from: Address, to: Address, authority: Address, amount: u64)
    requires SupplyFits(t) && from != to
    ensures Transfer(t, from, to, authority, amount).Ok? <==>
            && from in t && to in t && !t[from].frozen && !t[to].frozen && amount <= t[from].amount
            && t[from].mint == t[to].mint && t[from].owner == authority
  {
    if from in t && to in t && t[from].mint == t[to].mint && amount <= t[from].amount {
      PairWithinCirculation(t, from, to);
      assert Circulating(t, t[from].mint) <= U64_MAX;
    }
  }

  lemma SupplyAfter(t: TokenMap, from: Address, to: Address, authority: Address, amount: u64)
    requires SupplyFits(t) && Transfer(t, from, to, authority, amount).Ok?
    ensures SupplyFits(Transfer(t, from, to, authority, amount).value)
  {
    if from != to {
      var t' := Move(t, from, to, amount);
      forall mint ensures Circulating(t', mint) <= U64_MAX {
        MoveConserves(t, from, to, amount, mint);
        assert Circulating(t, mint) <= U64_MAX;
      }
    }
  }

  // ---- one side leaves ----

  /** From s to s', side's stake has gone home; w is what the wager has become. */
  predicate WentHome(s: State, s': State, id: Address, w: Wager, side: Address) {
    var vault, home := Vault(id, w), AtaOf(side, w.mint);
    && vault in s.tokens && home in s.tokens && vault != home
    && w.stake <= s.tokens[vault].amount && s.tokens[home].amount + w.stake <= U64_MAX
    && w.stake <= s.config.totalOpenValue && side in s.counters && 1 <= s.counters[side]
    && s' == s.(config := s.config.(totalOpenValue := s.config.totalOpenValue - w.stake),
                wagers := s.wagers[id := w],
                counters := s.counters[side := s.counters[side] - 1],
                tokens := Move(s.tokens, vault, home, w.stake))
  }

  predicate SideCanGoHome(s: State, id: Address, side: Address) {
    && id in s.wagers && s.wagers[id].Holds(side)
    && Usable(s.tokens, side, s.wagers[id].mint)
    && IsAta(s.tokens, id, s.wagers[id].mint) && !s.tokens[Vault(id, s.wagers[id])].frozen
  }

  /** The books and the vault cover a side that has its stake in. */
  predicate SideCovered(s: State, id: Address, w: Wager, side: Address) {
    && id == WagerPda(w.sideA, w.nonce) && CanSign(side) && w.sideA != w.sideB
    && IsAta(s.tokens, id, w.mint)
    && w.stake <= s.tokens[Vault(id, w)].amount && w.stake <= s.config.totalOpenValue
    && side in s.counters && 1 <= s.counters[side]
  }

  lemma SideIsCovered(s: State, id: Address, side: Address)
    requires Inv(s) && id in s.wagers && s.wagers[id].Holds(side)
    ensures SideCovered(s, id, s.wagers[id], side)
  {
    var w := s.wagers[id];
    assert WagerSound(s.config.mint, s.now, id, w) && VaultSound(s.tokens, id, w);
    BooksCover(s, id);
    assert 1 <= w.HeldBy(side) <= Count(s.counters, side);
  }

  /** The flags unstake_side does not read are as it would want them. */
  lemma FundedBeforeDeadlineHolds(s: State, id: Address)
    requires WagersSound(s) && id in s.wagers && !s.wagers[id].Due(s.now)
    ensures id == WagerPda(s.wagers[id].sideA, s.wagers[id].nonce)
    ensures !s.wagers[id].refundedA && !s.wagers[id].refundedB && s.wagers[id].sideA != s.wagers[id].sideB
  {
    assert WagerSound(s.config.mint, s.now, id, s.wagers[id]);
  }

  function Unstaked(w: Wager, side: Address): Wager {
    if side == w.sideA then w.(fundedA := false) else w.(fundedB := false)
  }

  function Refunded(w: Wager, side: Address): Wager {
    if side == w.sideA then w.(refundedA := true) else w.(refundedB := true)
  }

  lemma UnstakeSideOpened(s: State, staker: Address, id: Address)
    requires SupplyFits(s.tokens)
    requires id in s.wagers && s.wagers[id].Holds(staker) ==> SideCovered(s, id, s.wagers[id], staker)
    requires id in s.wagers && s.wagers[id].state == Funding && s.now <= s.wagers[id].deadlineFund ==>
             !s.wagers[id].refundedA && !s.wagers[id].refundedB
    ensures UnstakeSide(s, staker, id).Ok? <==>
            && SideCanGoHome(s, id, staker) && s.wagers[id].state == Funding && s.now <= s.wagers[id].deadlineFund
    ensures UnstakeSide(s, staker, id).Ok? ==>
            WentHome(s, UnstakeSide(s, staker, id).value, id, Unstaked(s.wagers[id], staker), staker)
  {
    if id in s.wagers && s.wagers[id].Holds(staker) {
      var w := s.wagers[id];
      TransferWhen(s.tokens, Vault(id, w), AtaOf(staker, w.mint), id, w.stake);
    }
  }

  lemma UnstakeSideExactly(s: State, staker: Address, id: Address)
    requires Inv(s)
    ensures UnstakeSide(s, staker, id).Ok? <==>
            && SideCanGoHome(s, id, staker) && s.wagers[id].state == Funding && s.now <= s.wagers[id].deadlineFund
    ensures UnstakeSide(s, staker, id).Ok? ==>
            WentHome(s, UnstakeSide(s, staker, id).value, id, Unstaked(s.wagers[id], staker), staker)
  {
    if id in s.wagers {
      if s.wagers[id].Holds(staker) { SideIsCovered(s, id, staker); }
      if !s.wagers[id].Due(s.now) { FundedBeforeDeadlineHolds(s, id); }
    }
    UnstakeSideOpened(s, staker, id);
  }

  lemma RefundSideOpened(s: State, id: Address, side: Address)
    requires SupplyFits(s.tokens)
    requires id in s.wagers && s.wagers[id].Holds(side) ==> SideCovered(s, id, s.wagers[id], side)
    requires id in s.wagers ==> s.wagers[id].sideA != s.wagers[id].sideB
    ensures RefundSide(s, id, side).Ok? <==> SideCanGoHome(s, id, side) && s.wagers[id].Due(s.now)
    ensures RefundSide(s, id, side).Ok? ==>
            WentHome(s, RefundSide(s, id, side).value, id, Refunded(s.wagers[id], side), side)
  {
    if id in s.wagers && s.wagers[id].Holds(side) {
      var w := s.wagers[id];
      TransferWhen(s.tokens, Vault(id, w), AtaOf(side, w.mint), id, w.stake);
    }
  }

  lemma RefundSideExactly(s: State, id: Address, side: Address)
    requires Inv(s)
    ensures RefundSide(s, id, side).Ok? <==> SideCanGoHome(s, id, side) && s.wagers[id].Due(s.now)
    ensures RefundSide(s, id, side).Ok? ==>
            WentHome(s, RefundSide(s, id, side).value, id, Refunded(s.wagers[id], side), side)
  {
    if id in s.wagers {
      assert WagerSound(s.config.mint, s.now, id, s.wagers[id]);
      if s.wagers[id].Holds(side) { SideIsCovered(s, id, side); }
    }
    RefundSideOpened(s, id, side);
  }

  // ---- both sides leave ----

  /** Both sides' exposure has ended, the wager is gone, and only the token accounts are left to say. */
  predicate BothReleased(s: State, s': State, id: Address) {
    && id in s.wagers
    && var w := s.wagers[id];
    && w.sideA in s.counters && 1 <= s.counters[w.sideA] && w.sideB in s.counters && 1 <= s.counters[w.sideB]
    && 2 * w.stake <= s.config.totalOpenValue
    && s' == s.(config := s.config.(totalOpenValue := s.config.totalOpenValue - 2 * w.stake),
                wagers := s.wagers - {id},
                counters := s.counters[w.sideA := s.counters[w.sideA] - 1][w.sideB := s.counters[w.sideB] - 1],
                tokens := s'.tokens)
  }

  function PotFee(w: Wager): nat { 2 * w.stake * w.feeBps / 10_000 }

  lemma FeeAtMostTenth(pot: nat, bps: nat)
    requires bps <= 1_000
    ensures 10 * (pot * bps / 10_000) <= pot
  {
    assert pot * bps <= pot * 1_000;
  }

  lemma SplitPotOnWager(mint: Address, now: i64, id: Address, w: Wager)
    requires WagerSound(mint, now, id, w)
    ensures 10 * PotFee(w) <= 2 * w.stake
    ensures SplitPot(w.stake, w.feeBps) == Ok(Split(2 * w.stake - PotFee(w), PotFee(w)))
  {
    FeeAtMostTenth(2 * w.stake, w.feeBps);
  }

  /** The books and the vault cover an Active wager in time, and its pot splits. */
  predicate Ready(s: State, id: Address) {
    && id in s.wagers
    && var w := s.wagers[id];
    && IsAta(s.tokens, id, w.mint) && 2 * w.stake <= s.tokens[Vault(id, w)].amount
    && w.sideA in s.counters && 1 <= s.counters[w.sideA] && w.sideB in s.counters && 1 <= s.counters[w.sideB]
    && 2 * w.stake <= s.config.totalOpenValue && 0 < 2 * w.stake <= U64_MAX && 10 * PotFee(w) <= 2 * w.stake
    && SplitPot(w.stake, w.feeBps) == Ok(Split(2 * w.stake - PotFee(w), PotFee(w)))
    && id == WagerPda(w.sideA, w.nonce) && w.sideA != w.sideB && CanSign(w.sideA) && CanSign(w.sideB)
    && w.sideA != DEFAULT && w.sideB != DEFAULT
    && (w.cancelProposedBy != DEFAULT ==> w.IsParticipant(w.cancelProposedBy))
    && !w.refundedA && !w.refundedB && w.fundedA && w.fundedB
  }

  lemma ActiveInTimeIsReady(s: State, id: Address)
    requires Inv(s) && ActiveInTime(s, id)
    ensures Ready(s, id)
  {
    var w := s.wagers[id];
    assert WagerSound(s.config.mint, s.now, id, w) && VaultSound(s.tokens, id, w);
    BooksCover(s, id);
    assert w.HeldBy(w.sideA) == 1 && w.HeldBy(w.sideB) == 1;
    SplitPotOnWager(s.config.mint, s.now, id, w);
  }

  lemma ReleaseBothReleases(s: State, id: Address, tokens: TokenMap)
    requires Ready(s, id)
    ensures BothReleased(s, ReleaseBoth(s, id, s.wagers[id], 2 * s.wagers[id].stake, tokens), id)
    ensures ReleaseBoth(s, id, s.wagers[id], 2 * s.wagers[id].stake, tokens).tokens == tokens
  {
    var w := s.wagers[id];
    var c := Decrement(s.counters, w.sideA);
    assert c == s.counters[w.sideA := s.counters[w.sideA] - 1];
    assert Decrement(c, w.sideB) == c[w.sideB := c[w.sideB] - 1];
  }

  // ---- settlement ----

  /** One balance grows and nothing else changes. */
  function Credit(t: TokenMap, a: Address, amount: int): TokenMap {
    if a in t && 0 <= t[a].amount + amount <= U64_MAX then t[a := t[a].(amount := t[a].amount + amount)] else t
  }

  predicate Fits(t: TokenMap, a: Address, amount: int) {
    0 <= amount && (amount > 0 ==> a in t && t[a].amount + amount <= U64_MAX)
  }

  /** The vault is gone: the winner has the payout and the fee account everything else that was in it. */
  predicate Emptied(t: TokenMap, t': TokenMap, vault: Address, winnerToken: Address, feeToken: Address, payout: int) {
    && vault in t && vault != winnerToken && vault != feeToken && winnerToken != feeToken
    && Fits(t, winnerToken, payout) && Fits(t, feeToken, t[vault].amount - payout)
    && t' == Credit(Credit(t - {vault}, winnerToken, payout), feeToken, t[vault].amount - payout)
  }

  /** The accounts a winner-paying exit names are there and distinct. */
  predicate NamesPayees(t: TokenMap, id: Address, w: Wager, winner: Address) {
    && IsAta(t, winner, w.mint) && w.feeDestination in t
    && w.feeDestination != AtaOf(winner, w.mint) && w.feeDestination != Vault(id, w) && w.rentCollector != id
  }

  /** And nothing in their state blocks the transfers or the close. */
  predicate CanPay(t: TokenMap, id: Address, w: Wager, winner: Address) {
    && NamesPayees(t, id, w, winner) && Usable(t, winner, w.mint)
    && IsAta(t, id, w.mint) && !t[Vault(id, w)].frozen
    && CanSweep(t, id, w, t[Vault(id, w)].amount - (2 * w.stake - PotFee(w)))
  }

  function Payment(t: TokenMap, id: Address, w: Wager, winner: Address): Result<Paid>
    requires PotFee(w) <= 2 * w.stake <= U64_MAX
  {
    PayWinnerAndCloseVault(t, id, Vault(id, w), AtaOf(winner, w.mint), w.feeDestination, w.rentCollector,
                           2 * w.stake - PotFee(w), PotFee(w))
  }

  lemma MoveThenDrop(t: TokenMap, vault: Address, to: Address, amount: u64)
    requires vault in t && to in t && vault != to
    requires amount <= t[vault].amount && t[to].amount + amount <= U64_MAX
    ensures Move(t, vault, to, amount) - {vault} == Credit(t - {vault}, to, amount)
  {
  }

  lemma CreditTwice(t: TokenMap, a: Address, x: nat, y: nat)
    requires a in t && t[a].amount + x + y <= U64_MAX
    ensures Credit(Credit(t, a, x), a, y) == Credit(t, a, x + y)
  {
  }

  lemma PayWhen(t: TokenMap, id: Address, vault: Address, win: Address, fd: Address, rent: Address, payout: u64,
                fee: u64)
    requires SupplyFits(t) && vault in t && t[vault].owner == id && payout + fee <= t[vault].amount
    requires win in t && t[win].mint == t[vault].mint && fd in t && win != fd && win != vault && fd != vault
    ensures PayWinnerAndCloseVault(t, id, vault, win, fd, rent, payout, fee).Ok? <==>
            && !t[win].frozen && !t[vault].frozen && rent != vault
            && (t[vault].amount > payout ==> t[fd].mint == t[vault].mint && !t[fd].frozen)
  {
    TransferWhen(t, vault, win, id, payout);
    if Transfer(t, vault, win, id, payout).Ok? {
      var t1 := Transfer(t, vault, win, id, payout).value;
      SupplyAfter(t, vault, win, id, payout);
      if fee > 0 { TransferWhen(t1, vault, fd, id, fee); }
      if fee == 0 || Transfer(t1, vault, fd, id, fee).Ok? {
        var t2 := if fee > 0 then Transfer(t1, vault, fd, id, fee).value else t1;
        if fee > 0 { SupplyAfter(t1, vault, fd, id, fee); }
        if t2[vault].amount > 0 { TransferWhen(t2, vault, fd, id, t2[vault].amount); }
      }
    }
  }

  /** Whatever way the fee account's share is split in two, it arrives whole. */
  lemma PayEmpties(t: TokenMap, id: Address, vault: Address, win: Address, fd: Address, rent: Address, payout: u64,
                   fee: u64)
    requires vault in t && payout + fee <= t[vault].amount && win != fd && win != vault && fd != vault
    requires fd in t
    requires PayWinnerAndCloseVault(t, id, vault, win, fd, rent, payout, fee).Ok?
    ensures Emptied(t, PayWinnerAndCloseVault(t, id, vault, win, fd, rent, payout, fee).value.tokens, vault, win, fd,
                    payout)
  {
    var t1 := Move(t, vault, win, payout);
    MoveThenDrop(t, vault, win, payout);
    var t2 := if fee > 0 then Move(t1, vault, fd, fee) else t1;
    if fee > 0 { MoveThenDrop(t1, vault, fd, fee); }
    var surplus := t2[vault].amount;
    if surplus > 0 { MoveThenDrop(t2, vault, fd, surplus); }
    CreditTwice(t1 - {vault}, fd, fee, surplus);
  }

  lemma PaymentExactly(s: State, id: Address, winner: Address)
    requires SupplyFits(s.tokens) && Ready(s, id) && CanSign(winner)
    requires NamesPayees(s.tokens, id, s.wagers[id], winner)
    ensures var w := s.wagers[id];
            && (Payment(s.tokens, id, w, winner).Ok? <==> CanPay(s.tokens, id, w, winner))
            && (Payment(s.tokens, id, w, winner).Ok? ==>
                  Emptied(s.tokens, Payment(s.tokens, id, w, winner).value.tokens, Vault(id, w), AtaOf(winner, w.mint),
                          w.feeDestination, 2 * w.stake - PotFee(w)))
  {
    var w := s.wagers[id];
    PayWhen(s.tokens, id, Vault(id, w), AtaOf(winner, w.mint), w.feeDestination, w.rentCollector,
            2 * w.stake - PotFee(w), PotFee(w));
    if Payment(s.tokens, id, w, winner).Ok? {
      PayEmpties(s.tokens, id, Vault(id, w), AtaOf(winner, w.mint), w.feeDestination, w.rentCollector,
                 2 * w.stake - PotFee(w), PotFee(w));
    }
  }

  predicate Settled(s: State, s': State, id: Address, winner: Address) {
    && BothReleased(s, s', id)
    && var w := s.wagers[id];
       Emptied(s.tokens, s'.tokens, Vault(id, w), AtaOf(winner, w.mint), w.feeDestination, 2 * w.stake - PotFee(w))
  }

  /** Active, in time, and payable to this winner. */
  predicate Settleable(s: State, id: Address, winner: Address) {
    ActiveInTime(s, id) && s.wagers[id].IsParticipant(winner) && CanPay(s.tokens, id, s.wagers[id], winner)
  }

  /** The part of Ready that a settlement checks. */
  predicate Settling(s: State, id: Address, w: Wager) {
    && id in s.wagers && w == s.wagers[id] && w.state == Active && s.now <= w.deadlineResolve
    && id == WagerPda(w.sideA, w.nonce) && IsAta(s.tokens, id, w.mint) && w.sideA in s.counters && w.sideB in s.counters
    && CanSign(w.sideA) && CanSign(w.sideB)
    && PotFee(w) <= 2 * w.stake <= U64_MAX
       && SplitPot(w.stake, w.feeBps) == Ok(Split(2 * w.stake - PotFee(w), PotFee(w)))
  }

  predicate Names(s: State, id: Address, winner: Address) {
    id in s.wagers && s.wagers[id].IsParticipant(winner) && NamesPayees(s.tokens, id, s.wagers[id], winner)
  }

  lemma ResolveRejects(s: State, resolver: Address, id: Address, winnerAccount: Address, winner: Address)
    requires Resolve(s, resolver, id, winnerAccount, winner).Ok?
    ensures Names(s, id, winner) && resolver == s.wagers[id].resolver && winnerAccount == winner
  {
  }

  /** The split of a pot that splits. */
  function SplitOf(w: Wager): Split
    requires PotFee(w) <= 2 * w.stake <= U64_MAX
  {
    Split(2 * w.stake - PotFee(w), PotFee(w))
  }

  lemma SettleToPays(s: State, id: Address, w: Wager, winner: Address)
    requires Settling(s, id, w)
    ensures var r, paid := SettleTo(s, id, w, AtaOf(winner, w.mint), SplitOf(w)), Payment(s.tokens, id, w, winner);
            && (r.Ok? <==> paid.Ok?)
            && (r.Ok? ==> r.value == ReleaseBoth(s, id, w, 2 * w.stake, paid.value.tokens))
  {
    SettleToReleases(s, id, w, AtaOf(winner, w.mint), SplitOf(w));
  }

  lemma SettleToReleases(s: State, id: Address, w: Wager, winnerToken: Address, split: Split)
    requires w.sideA in s.counters && w.sideB in s.counters && split.payout + split.fee <= U64_MAX
    ensures var r := SettleTo(s, id, w, winnerToken, split);
            var paid := PayWinnerAndCloseVault(s.tokens, id, Vault(id, w), winnerToken, w.feeDestination,
                                               w.rentCollector,
                                               split.payout, split.fee);
            && (r.Ok? <==> paid.Ok?)
            && (r.Ok? ==> r.value == ReleaseBoth(s, id, w, split.payout + split.fee, paid.value.tokens))
  {
  }

  lemma ResolveAccepts(s: State, id: Address, w: Wager, winner: Address)
    requires Settling(s, id, w) && Names(s, id, winner)
    ensures Resolve(s, w.resolver, id, winner, winner) == SettleTo(s, id, w, AtaOf(winner, w.mint), SplitOf(w))
  {
  }

  lemma ResolveOpened(s: State, resolver: Address, id: Address, winnerAccount: Address, winner: Address)
    requires id in s.wagers && Settling(s, id, s.wagers[id])
    ensures var w, r := s.wagers[id], Resolve(s, resolver, id, winnerAccount, winner);
            && (r.Ok? <==> && resolver == w.resolver && w.IsParticipant(winner) && winnerAccount == winner
                           && NamesPayees(s.tokens, id, w, winner) && Payment(s.tokens, id, w, winner).Ok?)
            && (r.Ok? ==> r.value == ReleaseBoth(s, id, w, 2 * w.stake, Payment(s.tokens, id, w, winner).value.tokens))
  {
    if Resolve(s, resolver, id, winnerAccount, winner).Ok? { ResolveRejects(s, resolver, id, winnerAccount, winner); }
    if Names(s, id, winner) {
      ResolveAccepts(s, id, s.wagers[id], winner);
      SettleToPays(s, id, s.wagers[id], winner);
    }
  }

  /** A payable wager, once paid and released, is settled. */
  lemma PaymentSettles(s: State, id: Address, winner: Address)
    requires SupplyFits(s.tokens) && ActiveInTime(s, id) && Ready(s, id) && s.wagers[id].IsParticipant(winner)
    ensures var w := s.wagers[id];
            && (Settleable(s, id, winner)
                <==> NamesPayees(s.tokens, id, w, winner) && Payment(s.tokens, id, w, winner).Ok?)
            && (Settleable(s, id, winner) ==>
                  Settled(s, ReleaseBoth(s, id, w, 2 * w.stake, Payment(s.tokens, id, w, winner).value.tokens), id,
                          winner))
  {
    var w := s.wagers[id];
    if NamesPayees(s.tokens, id, w, winner) {
      PaymentExactly(s, id, winner);
      if Payment(s.tokens, id, w, winner).Ok? {
        ReleaseBothReleases(s, id, Payment(s.tokens, id, w, winner).value.tokens);
      }
    }
  }

  lemma ResolveFrom(s: State, resolver: Address, id: Address, winnerAccount: Address, winner: Address)
    requires SupplyFits(s.tokens) && (ActiveInTime(s, id) ==> Ready(s, id))
    ensures var r := Resolve(s, resolver, id, winnerAccount, winner);
            && (r.Ok? <==> Settleable(s, id, winner) && resolver == s.wagers[id].resolver && winnerAccount == winner)
            && (r.Ok? ==> Settled(s, r.value, id, winner))
  {
    if ActiveInTime(s, id) {
      ResolveOpened(s, resolver, id, winnerAccount, winner);
      if s.wagers[id].IsParticipant(winner) { PaymentSettles(s, id, winner); }
    }
  }

  lemma ResolveExactly(s: State, resolver: Address, id: Address, winnerAccount: Address, winner: Address)
    requires Inv(s)
    ensures var r := Resolve(s, resolver, id, winnerAccount, winner);
            && (r.Ok? <==> Settleable(s, id, winner) && resolver == s.wagers[id].resolver && winnerAccount == winner)
            && (r.Ok? ==> Settled(s, r.value, id, winner))
  {
    if ActiveInTime(s, id) { ActiveInTimeIsReady(s, id); }
    ResolveFrom(s, resolver, id, winnerAccount, winner);
  }

  lemma ConcedeRejects(s: State, conceder: Address, id: Address, winner: Address)
    requires Concede(s, conceder, id, winner).Ok?
    ensures Names(s, id, winner) && s.wagers[id].IsParticipant(conceder)
            && winner == s.wagers[id].Counterparty(conceder)
  {
  }

  lemma ConcedeAccepts(s: State, conceder: Address, id: Address, w: Wager, winner: Address)
    requires Settling(s, id, w) && Names(s, id, winner) && w.IsParticipant(conceder)
             && winner == w.Counterparty(conceder)
    ensures Concede(s, conceder, id, winner) == SettleTo(s, id, w, AtaOf(winner, w.mint), SplitOf(w))
  {
  }

  lemma ConcedeOpened(s: State, conceder: Address, id: Address, winner: Address)
    requires id in s.wagers && Settling(s, id, s.wagers[id])
    ensures var w, r := s.wagers[id], Concede(s, conceder, id, winner);
            && (r.Ok? <==> && w.IsParticipant(conceder) && winner == w.Counterparty(conceder)
                           && NamesPayees(s.tokens, id, w, winner) && Payment(s.tokens, id, w, winner).Ok?)
            && (r.Ok? ==> r.value == ReleaseBoth(s, id, w, 2 * w.stake, Payment(s.tokens, id, w, winner).value.tokens))
  {
    if Concede(s, conceder, id, winner).Ok? { ConcedeRejects(s, conceder, id, winner); }
    if Names(s, id, winner) && s.wagers[id].IsParticipant(conceder) && winner == s.wagers[id].Counterparty(conceder) {
      ConcedeAccepts(s, conceder, id, s.wagers[id], winner);
      SettleToPays(s, id, s.wagers[id], winner);
    }
  }

  lemma ConcedeFrom(s: State, conceder: Address, id: Address, winner: Address)
    requires SupplyFits(s.tokens) && (ActiveInTime(s, id) ==> Ready(s, id))
    ensures var r := Concede(s, conceder, id, winner);
            && (r.Ok? <==> Settleable(s, id, winner) && s.wagers[id].IsParticipant(conceder)
                           && winner == s.wagers[id].Counterparty(conceder))
            && (r.Ok? ==> Settled(s, r.value, id, winner))
  {
    if ActiveInTime(s, id) {
      ConcedeOpened(s, conceder, id, winner);
      if s.wagers[id].IsParticipant(winner) { PaymentSettles(s, id, winner); }
    }
  }

  lemma ConcedeExactly(s: State, conceder: Address, id: Address, winner: Address)
    requires Inv(s)
    ensures var r := Concede(s, conceder, id, winner);
            && (r.Ok? <==> Settleable(s, id, winner) && s.wagers[id].IsParticipant(conceder)
                           && winner == s.wagers[id].Counterparty(conceder))
            && (r.Ok? ==> Settled(s, r.value, id, winner))
  {
    if ActiveInTime(s, id) { ActiveInTimeIsReady(s, id); }
    ConcedeFrom(s, conceder, id, winner);
  }

  // ---- cancellation ----

  /** Both canonical accounts usable, the fee account there and distinct, the vault closable. */
  predicate CanReturnStakes(t: TokenMap, id: Address, w: Wager) {
    && Usable(t, w.sideA, w.mint) && Usable(t, w.sideB, w.mint)
    && IsAta(t, id, w.mint) && !t[Vault(id, w)].frozen
    && w.feeDestination in t && w.feeDestination != Vault(id, w)
    && w.feeDestination != AtaOf(w.sideA, w.mint) && w.feeDestination != AtaOf(w.sideB, w.mint)
    && CanSweep(t, id, w, t[Vault(id, w)].amount - 2 * w.stake)
  }

  /** Each side has its stake, the fee account the surplus alone, the vault is gone. */
  predicate StakesReturned(t: TokenMap, t': TokenMap, vault: Address, a: Address, b: Address, feeToken: Address,
                           stake: int) {
    && vault in t && a != b && vault != a && vault != b && vault != feeToken && feeToken != a && feeToken != b
    && Fits(t, a, stake) && Fits(t, b, stake) && Fits(t, feeToken, t[vault].amount - 2 * stake)
    && t' == Credit(Credit(Credit(t - {vault}, a, stake), b, stake), feeToken, t[vault].amount - 2 * stake)
  }

  predicate CalledOff(s: State, s': State, id: Address) {
    && BothReleased(s, s', id)
    && var w := s.wagers[id];
       StakesReturned(s.tokens, s'.tokens, Vault(id, w), AtaOf(w.sideA, w.mint), AtaOf(w.sideB, w.mint),
                      w.feeDestination, w.stake)
  }

  lemma ReturnStakesWhen(t: TokenMap, id: Address, vault: Address, a: Address, b: Address, fd: Address, rent: Address,
                         stake: u64)
    requires SupplyFits(t) && vault in t && t[vault].owner == id && 2 * stake <= t[vault].amount
    requires a in t && b in t && t[a].mint == t[vault].mint && t[b].mint == t[vault].mint && fd in t
    requires a != b && a != vault && b != vault && fd != vault && fd != a && fd != b
    ensures ReturnStakesAndCloseVault(t, id, vault, a, b, fd, rent, stake).Ok? <==>
            && !t[a].frozen && !t[b].frozen && !t[vault].frozen && rent != vault
            && (t[vault].amount > 2 * stake ==> t[fd].mint == t[vault].mint && !t[fd].frozen)
  {
    TransferWhen(t, vault, a, id, stake);
    if Transfer(t, vault, a, id, stake).Ok? {
      SupplyAfter(t, vault, a, id, stake);
      var t1 := Transfer(t, vault, a, id, stake).value;
      TransferWhen(t1, vault, b, id, stake);
      if Transfer(t1, vault, b, id, stake).Ok? {
        SupplyAfter(t1, vault, b, id, stake);
        var t2 := Transfer(t1, vault, b, id, stake).value;
        if t2[vault].amount > 0 { TransferWhen(t2, vault, fd, id, t2[vault].amount); }
      }
    }
  }

  lemma ReturnStakesReturns(t: TokenMap, id: Address, vault: Address, a: Address, b: Address, fd: Address,
                            rent: Address, stake: u64)
    requires vault in t && 2 * stake <= t[vault].amount
    requires a != b && a != vault && b != vault && fd != vault && fd != a && fd != b
    requires ReturnStakesAndCloseVault(t, id, vault, a, b, fd, rent, stake).Ok?
    ensures StakesReturned(t, ReturnStakesAndCloseVault(t, id, vault, a, b, fd, rent, stake).value, vault, a, b, fd,
                           stake)
  {
    var t1 := Move(t, vault, a, stake);
    MoveThenDrop(t, vault, a, stake);
    var t2 := Move(t1, vault, b, stake);
    MoveThenDrop(t1, vault, b, stake);
    if t2[vault].amount > 0 { MoveThenDrop(t2, vault, fd, t2[vault].amount); }
  }

  function Return(t: TokenMap, id: Address, w: Wager): Result<TokenMap> {
    ReturnStakesAndCloseVault(t, id, Vault(id, w), AtaOf(w.sideA, w.mint), AtaOf(w.sideB, w.mint), w.feeDestination,
                              w.rentCollector, w.stake)
  }

  predicate NamesReturnees(t: TokenMap, id: Address, w: Wager) {
    && IsAta(t, w.sideA, w.mint) && IsAta(t, w.sideB, w.mint)
    && w.feeDestination in t && w.feeDestination != Vault(id, w) && w.rentCollector != id
    && w.feeDestination != AtaOf(w.sideA, w.mint) && w.feeDestination != AtaOf(w.sideB, w.mint)
  }

  lemma CancelAcceptOpened(s: State, acceptor: Address, id: Address)
    requires ActiveInTime(s, id) && Ready(s, id)
    ensures var w, r := s.wagers[id], CancelAccept(s, acceptor, id);
            && (r.Ok? <==> && w.cancelProposedBy != DEFAULT && w.IsParticipant(acceptor)
                           && acceptor != w.cancelProposedBy
                           && NamesReturnees(s.tokens, id, w) && Return(s.tokens, id, w).Ok?)
            && (r.Ok? ==> r.value == ReleaseBoth(s, id, w, 2 * w.stake, Return(s.tokens, id, w).value))
  {
  }

  predicate Cancelable(s: State, id: Address) {
    ActiveInTime(s, id) && s.wagers[id].cancelProposedBy != DEFAULT && CanReturnStakes(s.tokens, id, s.wagers[id])
  }

  lemma ReturnCallsOff(s: State, id: Address)
    requires SupplyFits(s.tokens) && Ready(s, id)
    ensures var w := s.wagers[id];
            && (CanReturnStakes(s.tokens, id, w) <==> NamesReturnees(s.tokens, id, w) && Return(s.tokens, id, w).Ok?)
            && (CanReturnStakes(s.tokens, id, w) ==>
                  CalledOff(s, ReleaseBoth(s, id, w, 2 * w.stake, Return(s.tokens, id, w).value), id))
  {
    var w := s.wagers[id];
    var vault, a, b := Vault(id, w), AtaOf(w.sideA, w.mint), AtaOf(w.sideB, w.mint);
    if NamesReturnees(s.tokens, id, w) {
      ReturnStakesWhen(s.tokens, id, vault, a, b, w.feeDestination, w.rentCollector, w.stake);
      if Return(s.tokens, id, w).Ok? {
        ReturnStakesReturns(s.tokens, id, vault, a, b, w.feeDestination, w.rentCollector, w.stake);
        ReleaseBothReleases(s, id, Return(s.tokens, id, w).value);
      }
    }
  }

  lemma CancelAcceptFrom(s: State, acceptor: Address, id: Address)
    requires SupplyFits(s.tokens) && (ActiveInTime(s, id) ==> Ready(s, id))
    ensures var r := CancelAccept(s, acceptor, id);
            && (r.Ok? <==> Cancelable(s, id) && acceptor == s.wagers[id].Counterparty(s.wagers[id].cancelProposedBy))
            && (r.Ok? ==> CalledOff(s, r.value, id))
  {
    if ActiveInTime(s, id) {
      CancelAcceptOpened(s, acceptor, id);
      ReturnCallsOff(s, id);
    }
  }

  lemma CancelAcceptExactly(s: State, acceptor: Address, id: Address)
    requires Inv(s)
    ensures var r := CancelAccept(s, acceptor, id);
            && (r.Ok? <==> Cancelable(s, id) && acceptor == s.wagers[id].Counterparty(s.wagers[id].cancelProposedBy))
            && (r.Ok? ==> CalledOff(s, r.value, id))
  {
    if ActiveInTime(s, id) { ActiveInTimeIsReady(s, id); }
    CancelAcceptFrom(s, acceptor, id);
  }

  // ---- reclaiming ----

  predicate Closable(s: State, id: Address, feeToken: Option<Address>) {
    && id in s.wagers
    && var w := s.wagers[id];
    && w.Due(s.now) && w.FullyExited() && IsAta(s.tokens, id, w.mint)
    && CanSweep(s.tokens, id, w, s.tokens[Vault(id, w)].amount)
    && (feeToken.Some? ==> feeToken.value in s.tokens && feeToken.value != Vault(id, w))
    && (s.tokens[Vault(id, w)].amount > 0 ==> feeToken == Some(w.feeDestination))
  }

  /** The wager is gone and all its vault held is with the fee account; the books do not move. */
  predicate Reclaimed(s: State, s': State, id: Address) {
    && id in s.wagers
    && var w := s.wagers[id];
       var vault := Vault(id, w);
    && vault in s.tokens && (s.tokens[vault].amount > 0 ==> vault != w.feeDestination)
    && Fits(s.tokens, w.feeDestination, s.tokens[vault].amount)
    && s' == s.(wagers := s.wagers - {id},
                tokens := Credit(s.tokens - {vault}, w.feeDestination, s.tokens[vault].amount))
  }

  lemma CloseExpiredOpened(s: State, id: Address, feeToken: Option<Address>)
    requires SupplyFits(s.tokens)
    requires id in s.wagers
             ==> id == WagerPda(s.wagers[id].sideA, s.wagers[id].nonce) && IsAta(s.tokens, id, s.wagers[id].mint)
    ensures var r := CloseExpired(s, id, feeToken);
            && (r.Ok? <==> Closable(s, id, feeToken))
            && (r.Ok? ==> Reclaimed(s, r.value, id))
  {
    if id in s.wagers {
      var w := s.wagers[id];
      var vault := Vault(id, w);
      if w.feeDestination != vault {
        TransferWhen(s.tokens, vault, w.feeDestination, id, s.tokens[vault].amount);
      }
    }
  }

  lemma CloseExpiredExactly(s: State, id: Address, feeToken: Option<Address>)
    requires Inv(s)
    ensures var r := CloseExpired(s, id, feeToken);
            && (r.Ok? <==> Closable(s, id, feeToken))
            && (r.Ok? ==> Reclaimed(s, r.value, id))
  {
    if id in s.wagers {
      assert WagerSound(s.config.mint, s.now, id, s.wagers[id]) && VaultSound(s.tokens, id, s.wagers[id]);
    }
    CloseExpiredOpened(s, id, feeToken);
  }
}
