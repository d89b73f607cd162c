/** The part of the SPL token program the escrow relies on. */
module Tokens {
  import opened Types
  import opened Sums

  datatype TokenAccount = TokenAccount(owner: Address, mint: Address, amount: u64, frozen: bool)

  type TokenMap = map<Address, TokenAccount>

  function AmountAt(t: TokenMap, a: Address): u64 {
    if a in t then t[a].amount else 0
  }

  /** The account constraint "associated token account of owner for mint". The owner recorded in the
      account is checked too, because a wallet can hand its own account to another owner. */
  predicate IsAta(t: TokenMap, owner: Address, mint: Address) {
    var a := AtaOf(owner, mint);
    a in t && t[a].owner == owner && t[a].mint == mint
  }

  /** Can receive tokens of the mint right now. */
  predicate Receives(t: TokenMap, a: Address, mint: Address) {
    a in t && t[a].mint == mint && !t[a].frozen
  }

  /** Two balances change and nothing else. */
  function Move(t: TokenMap, from: Address, to: Address, amount: u64): TokenMap
    requires from in t && to in t && from != to
    requires amount <= t[from].amount && t[to].amount + amount <= U64_MAX
  {
    t[from := t[from].(amount := t[from].amount - amount)]
     [to := t[to].(amount := t[to].amount + amount)]
  }

  function Transfer(t: TokenMap, from: Address, to: Address, authority: Address, amount: u64): (r: Result<TokenMap>)
    ensures r.Ok? <==>
              && from in t && to in t && !t[from].frozen && !t[to].frozen && amount <= t[from].amount
              && t[from].mint == t[to].mint && t[from].owner == authority
              && (from != to ==> t[to].amount + amount <= U64_MAX)
    ensures r.Ok? ==> r.value == if from == to then t else Move(t, from, to, amount)
  {
    var bothExist := from in t && to in t;
    :- Need(bothExist, AccountMissing);
    :- Need(!t[from].frozen && !t[to].frozen, AccountFrozen);
    :- Need(amount <= t[from].amount, InsufficientFunds);
    :- Need(t[from].mint == t[to].mint, MintMismatch);
    :- Need(t[from].owner == authority, OwnerMismatch);
    if from == to then Ok(t)
    else
      :- Need(t[to].amount + amount <= U64_MAX, BalanceOverflow);
      Ok(Move(t, from, to, amount))
  }

  function Close(t: TokenMap, account: Address, destination: Address, authority: Address): Result<TokenMap> {
    var isThere := account in t;
    :- Need(isThere, AccountMissing);
    :- Need(account != destination, SelfClose);
    :- Need(t[account].amount == 0, NonZeroBalance);
    :- Need(t[account].owner == authority, OwnerMismatch);
    Ok(t - {account})
  }

  // ---- totals ----

  ghost function OfMint(mint: Address): (Address, TokenAccount) -> int {
    (a, x: TokenAccount) => if x.mint == mint then x.amount else 0
  }

  /** All the tokens of one mint. */
  ghost function Circulating(t: TokenMap, mint: Address): int {
    SumOver(t, OfMint(mint))
  }

  lemma MoveConserves(t: TokenMap, from: Address, to: Address, amount: u64, mint: Address)
    requires from in t && to in t && from != to && t[from].mint == t[to].mint
    requires amount <= t[from].amount && t[to].amount + amount <= U64_MAX
    ensures Circulating(Move(t, from, to, amount), mint) == Circulating(t, mint)
  {
    var debited := t[from := t[from].(amount := t[from].amount - amount)];
    SumOverUpdate(t, OfMint(mint), from, debited[from]);
    SumOverUpdate(debited, OfMint(mint), to, t[to].(amount := t[to].amount + amount));
  }

  lemma RemoveEmptyConserves(t: TokenMap, a: Address, mint: Address)
    requires a in t && t[a].amount == 0
    ensures Circulating(t - {a}, mint) == Circulating(t, mint)
  {
    SumOverRemove(t, OfMint(mint), a);
  }

  lemma UpdateConserves(t: TokenMap, a: Address, x: TokenAccount, mint: Address)
    requires if a in t then t[a].mint == x.mint && t[a].amount == x.amount else x.amount == 0
    ensures Circulating(t[a := x], mint) == Circulating(t, mint)
  {
    SumOverUpdate(t, OfMint(mint), a, x);
  }

  /** Two accounts of one mint hold at most what circulates, so a transfer between them cannot overflow. */
  lemma PairWithinCirculation(t: TokenMap, a: Address, b: Address)
    requires a in t && b in t && a != b && t[a].mint == t[b].mint
    ensures t[a].amount + t[b].amount <= Circulating(t, t[a].mint)
  {
    var f := OfMint(t[a].mint);
    SumOverRemove(t, f, a);
    SumOverAtLeast(t - {a}, f, b);
  }
}
