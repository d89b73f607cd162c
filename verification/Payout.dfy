/** The fee split and the transfers that empty a vault (payout.rs). */
module Payout {
  import opened Types
  import opened Tokens

  datatype Split = Split(payout: u64, fee: u64)

  function SplitPot(stake: u64, feeBps: u16): Result<Split> {
    var potFits := 2 * stake <= U64_MAX;
    :- Need(potFits, MathOverflow);
    var pot := 2 * stake;
    var fee := pot * feeBps / 10_000;
    :- Need(fee <= U64_MAX, MathOverflow);
    :- Need(fee <= pot, MathOverflow);
    Ok(Split(pot - fee, fee))
  }

  datatype Paid = Paid(tokens: TokenMap, surplus: u64)

  /** Whatever the vault still holds goes to the fee account, and the vault closes. */
  function SweepAndCloseVault(t: TokenMap, authority: Address, vault: Address, feeToken: Address,
                              rentCollector: Address): Result<Paid>
  {
    var surplus := AmountAt(t, vault);
    var swept :- if surplus > 0 then Transfer(t, vault, feeToken, authority, surplus) else Ok(t);
    var closed :- Close(swept, vault, rentCollector, authority);
    Ok(Paid(closed, surplus))
  }

  /** Why the sweep reloads: once anything has been paid out, a transfer of the amount loaded before fails. */
  lemma StaleSweepFails(t: TokenMap, authority: Address, vault: Address, to: Address, feeToken: Address, paid: u64)
    requires to != vault && 0 < paid && Transfer(t, vault, to, authority, paid).Ok?
    ensures Transfer(Transfer(t, vault, to, authority, paid).value, vault, feeToken, authority, t[vault].amount).Err?
  {
  }

  /** Winner first, then the fee, then the sweep and the close. */
  function PayWinnerAndCloseVault(t: TokenMap, authority: Address, vault: Address, winnerToken: Address,
                                  feeToken: Address, rentCollector: Address, payout: u64, fee: u64): Result<Paid>
  {
    var t1 :- Transfer(t, vault, winnerToken, authority, payout);
    var t2 :- if fee > 0 then Transfer(t1, vault, feeToken, authority, fee) else Ok(t1);
    SweepAndCloseVault(t2, authority, vault, feeToken, rentCollector)
  }
}
