/** The inductive invariant of the ledger. */
module Invariant {
  import opened Types
  import opened Sums
  import opened Tokens
  import opened Accounts
  import opened Handlers
  import opened Steps

  // ---- what the books should say ----

  ghost function OutstandingFn(): (Address, Wager) -> int { (id, w: Wager) => w.Outstanding() }

  ghost function HeldFn(wallet: Address): (Address, Wager) -> int { (id, w: Wager) => w.HeldBy(wallet) }

  /** The stakes in play: over live wagers, stake times the sides funded and not refunded. */
  ghost function TotalOpen(wagers: map<Address, Wager>): int { SumOver(wagers, OutstandingFn()) }

  /** The live wager sides a wallet holds funded and not refunded. */
  ghost function Held(wagers: map<Address, Wager>, wallet: Address): int { SumOver(wagers, HeldFn(wallet)) }

  ghost predicate BooksSound(s: State) {
    && s.config.totalOpenValue == TotalOpen(s.wagers)
    && forall wallet :: Count(s.counters, wallet) == Held(s.wagers, wallet)
  }

  // ---- what each wager satisfies ----

  /** Time stands in for the flag checks that unstake, resolve, concede and cancel_accept leave out: a
      refunded side means that the deadline of the wager's current state has passed. */
  ghost predicate WagerSound(mint: Address, now: i64, id: Address, w: Wager) {
    && id == WagerPda(w.sideA, w.nonce) && w.mint == mint
    && (w.state == Funding || w.state == Active)
    && (w.state == Active <==> w.fundedA && w.fundedB)
    && (w.refundedA ==> w.fundedA) && (w.refundedB ==> w.fundedB)
    && (w.refundedA || w.refundedB ==> w.Due(now))
    && w.sideA != w.sideB && w.sideA != DEFAULT && w.sideB != DEFAULT
    && !w.IsParticipant(w.resolver) && w.termsHash != 0
    && (w.fundedA ==> CanSign(w.sideA)) && (w.fundedB ==> CanSign(w.sideB))
    && 0 < w.stake && 2 * w.stake <= U64_MAX && w.feeBps <= MAX_FEE_BPS
    && 0 < w.deadlineFund < w.deadlineResolve <= now + 2 * MAX_WINDOW_CAP
    && (w.cancelProposedBy != DEFAULT ==> w.state == Active && w.IsParticipant(w.cancelProposedBy))
  }

  /** The vault is the wager's own and covers what it owes. */
  ghost predicate VaultSound(t: TokenMap, id: Address, w: Wager) {
    IsAta(t, id, w.mint) && w.Outstanding() <= t[Vault(id, w)].amount
  }

  ghost predicate WagersSound(s: State) {
    forall id <- s.wagers ::
      WagerSound(s.config.mint, s.now, id, s.wagers[id]) && VaultSound(s.tokens, id, s.wagers[id])
  }

  predicate DerivedKeys(wagers: map<Address, Wager>) { forall id <- wagers :: id.WagerPda? }

  lemma LiveKeysAreDerived(s: State)
    requires WagersSound(s)
    ensures DerivedKeys(s.wagers)
  {
    forall id <- s.wagers ensures id.WagerPda? { assert WagerSound(s.config.mint, s.now, id, s.wagers[id]); }
  }

  /** The values pass the initialization checks; the allowlist is a prefix of real keys, then defaults. */
  ghost predicate ConfigSound(c: Config) {
    && 1 <= c.resolverCount <= RESOLVER_ALLOWLIST_LEN
    && ValidateConfigValues(c.feeBps, c.minStake, c.maxStake, c.resolverAllowlist[..c.resolverCount], c.maxWindow,
                            c.maxOpenPerWallet, c.maxTotalOpen).Ok?
    && (forall i :: c.resolverCount <= i < RESOLVER_ALLOWLIST_LEN ==> c.resolverAllowlist[i] == DEFAULT)
    && c.mint != DEFAULT && c.feeDestination != DEFAULT && c.rentCollector != DEFAULT
  }

  ghost predicate PendingSound(s: State) {
    s.pending.Some? ==> s.pending.value != DEFAULT && s.pending.value != s.config.admin
  }

  ghost predicate Inv(s: State) {
    && BooksSound(s) && WagersSound(s) && ConfigSound(s.config) && PendingSound(s)
    && VaultsUncontrolled(s.tokens) && SupplyFits(s.tokens) && 0 <= s.now
  }

  // ---- the books under one change ----

  lemma BooksAfterReplace(wagers: map<Address, Wager>, id: Address, w: Wager)
    ensures TotalOpen(wagers[id := w])
            == TotalOpen(wagers) - (if id in wagers then wagers[id].Outstanding() else 0) + w.Outstanding()
    ensures forall k ::
      Held(wagers[id := w], k) == Held(wagers, k) - (if id in wagers then wagers[id].HeldBy(k) else 0) + w.HeldBy(k)
  {
    SumOverUpdate(wagers, OutstandingFn(), id, w);
    forall k
      ensures Held(wagers[id := w], k)
              == Held(wagers, k) - (if id in wagers then wagers[id].HeldBy(k) else 0) + w.HeldBy(k)
    {
      SumOverUpdate(wagers, HeldFn(k), id, w);
    }
  }

  lemma BooksAfterRemove(wagers: map<Address, Wager>, id: Address)
    requires id in wagers
    ensures TotalOpen(wagers - {id}) == TotalOpen(wagers) - wagers[id].Outstanding()
    ensures forall k :: Held(wagers - {id}, k) == Held(wagers, k) - wagers[id].HeldBy(k)
  {
    SumOverRemove(wagers, OutstandingFn(), id);
    forall k ensures Held(wagers - {id}, k) == Held(wagers, k) - wagers[id].HeldBy(k) {
      SumOverRemove(wagers, HeldFn(k), id);
    }
  }

  /** The books cover every wager, so a release never saturates. */
  lemma BooksCover(s: State, id: Address)
    requires BooksSound(s) && id in s.wagers
    ensures s.wagers[id].Outstanding() <= s.config.totalOpenValue
    ensures forall k :: s.wagers[id].HeldBy(k) <= Count(s.counters, k)
  {
    SumOverAtLeast(s.wagers, OutstandingFn(), id);
    forall k ensures s.wagers[id].HeldBy(k) <= Count(s.counters, k) {
      SumOverAtLeast(s.wagers, HeldFn(k), id);
      assert Count(s.counters, k) == Held(s.wagers, k);
    }
  }

  // ---- tokens under one change ----

  lemma MoveKeepsTokens(t: TokenMap, from: Address, to: Address, amount: u64)
    requires VaultsUncontrolled(t) && SupplyFits(t)
    requires from in t && to in t && from != to && t[from].mint == t[to].mint
    requires amount <= t[from].amount && t[to].amount + amount <= U64_MAX
    ensures VaultsUncontrolled(Move(t, from, to, amount)) && SupplyFits(Move(t, from, to, amount))
  {
    forall mint ensures Circulating(Move(t, from, to, amount), mint) <= U64_MAX {
      MoveConserves(t, from, to, amount, mint);
      assert Circulating(t, mint) <= U64_MAX;
    }
  }

  lemma RemoveEmptyKeepsTokens(t: TokenMap, a: Address)
    requires VaultsUncontrolled(t) && SupplyFits(t)
    requires a in t && t[a].amount == 0
    ensures VaultsUncontrolled(t - {a}) && SupplyFits(t - {a})
  {
    forall mint ensures Circulating(t - {a}, mint) <= U64_MAX {
      RemoveEmptyConserves(t, a, mint);
      assert Circulating(t, mint) <= U64_MAX;
    }
  }

  lemma UpdateKeepsTokens(t: TokenMap, a: Address, x: TokenAccount)
    requires VaultsUncontrolled(t) && SupplyFits(t)
    requires if a in t then t[a].mint == x.mint && t[a].amount == x.amount else x.amount == 0
    requires a.AtaOf? && a.owner.WagerPda? ==> x.owner == a.owner && x.mint == a.mint
    ensures VaultsUncontrolled(t[a := x]) && SupplyFits(t[a := x])
  {
    var t' := t[a := x];
    forall mint ensures Circulating(t', mint) <= U64_MAX {
      UpdateConserves(t, a, x, mint);
      assert Circulating(t, mint) <= U64_MAX;
    }
  }

  /** The vaults of all wagers but one are sound. With DEFAULT for id, which is no wager, all of them are. */
  ghost predicate OtherVaults(wagers: map<Address, Wager>, t: TokenMap, id: Address) {
    forall j <- wagers :: j != id ==> j.WagerPda? && VaultSound(t, j, wagers[j])
  }

  /** A transfer signed by a key, or by the wager id, takes nothing from any other wager's vault. */
  lemma TransferKeeps(wagers: map<Address, Wager>, t: TokenMap, from: Address, to: Address, authority: Address,
                      amount: u64, id: Address)
    requires VaultsUncontrolled(t) && SupplyFits(t) && OtherVaults(wagers, t, id)
    requires authority == id || CanSign(authority)
    requires Transfer(t, from, to, authority, amount).Ok?
    ensures var t' := Transfer(t, from, to, authority, amount).value;
            VaultsUncontrolled(t') && SupplyFits(t') && OtherVaults(wagers, t', id)
  {
    if from != to { MoveKeepsTokens(t, from, to, amount); }
  }

  lemma CloseKeeps(wagers: map<Address, Wager>, t: TokenMap, account: Address, destination: Address,
                   authority: Address, id: Address)
    requires VaultsUncontrolled(t) && SupplyFits(t) && OtherVaults(wagers, t, id)
    requires authority == id || CanSign(authority)
    requires Close(t, account, destination, authority).Ok?
    ensures var t' := Close(t, account, destination, authority).value;
            VaultsUncontrolled(t') && SupplyFits(t') && OtherVaults(wagers, t', id)
  {
    RemoveEmptyKeepsTokens(t, account);
  }
}
