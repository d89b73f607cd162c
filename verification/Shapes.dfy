/** What one step can change: one wager at most, never its terms, and one falling balance at most. */
module Shapes {
  import opened Types
  import opened Tokens
  import opened Accounts
  import opened Payout
  import opened Handlers
  import opened Steps
  import opened Preservation

  // ---- wagers ----

  /** Two ledgers that differ at most in what the admin controls. */
  predicate Twins(s: State, s': State) {
    && s' == s.(config := s'.config, pending := s'.pending)
    && s'.config.totalOpenValue == s.config.totalOpenValue
  }

  lemma AdminMovesToTwin(s: State, step: Step)
    requires IsAdmin(step)
    ensures Twins(s, Next(s, step))
  {
  }

  /** The two records differ at most in how far the wager has got. */
  predicate SameTerms(w: Wager, w': Wager) {
    w' == w.(state := w'.state, fundedA := w'.fundedA, fundedB := w'.fundedB, refundedA := w'.refundedA,
             refundedB := w'.refundedB, cancelProposedBy := w'.cancelProposedBy)
  }

  lemma StepReplacesOneWager(s: State, step: Step)
    requires Apply(s, step).Ok? && (step.StakeSideIx? || step.UnstakeSideIx? || step.RefundSideIx?
                                    || step.CancelProposeIx? || step.CancelClearIx?)
    ensures step.id in s.wagers
    ensures var s' := Apply(s, step).value;
            && step.id in s'.wagers && s'.wagers == s.wagers[step.id := s'.wagers[step.id]]
            && SameTerms(s.wagers[step.id], s'.wagers[step.id])
  {
    if step.StakeSideIx? { StakeSideExactly(s, step.staker, step.id, step.stakerToken); }
  }

  lemma StepEndsOneWager(s: State, step: Step)
    requires Apply(s, step).Ok? && EndsWager(step)
    ensures step.id in s.wagers && Apply(s, step).value.wagers == s.wagers - {step.id}
  {
  }

  lemma StepOpensOneWager(s: State, step: Step)
    requires step.CreateWagerIx? && Apply(s, step).Ok?
    ensures var id := WagerPda(step.args.sideA, step.args.nonce);
            id !in s.wagers && Apply(s, step).value.wagers == s.wagers[id := FreshWager(s.config, step.args)]
  {
    CreateWagerExactly(s, step.args);
  }

  /** Whoever signs it, no step changes the stake, the sides, the deadlines, the resolver, the fee or any
      destination of a live wager. */
  lemma TermsArePinned(s: State, step: Step, id: Address)
    requires id in s.wagers && id in Next(s, step).wagers
    ensures SameTerms(s.wagers[id], Next(s, step).wagers[id])
  {
    if Apply(s, step).Ok? {
      if step.CreateWagerIx? { StepOpensOneWager(s, step); }
      else if EndsWager(step) { StepEndsOneWager(s, step); }
      else if IsAdmin(step) { AdminMovesToTwin(s, step); }
      else if IsOutside(step) { OutsideTouchesTokensAndTime(s, step); }
      else { StepReplacesOneWager(s, step); }
    }
  }

  // ---- balances ----

  /** The only account whose balance a step can lower. */
  function Payer(s: State, step: Step): Option<Address> {
    match step
    case StakeSideIx(_, _, source) => Some(source)
    case UnstakeSideIx(_, id) => if id in s.wagers then Some(Vault(id, s.wagers[id])) else None
    case RefundSideIx(_, id, _) => if id in s.wagers then Some(Vault(id, s.wagers[id])) else None
    case ResolveIx(_, id, _, _) => if id in s.wagers then Some(Vault(id, s.wagers[id])) else None
    case ConcedeIx(_, id, _) => if id in s.wagers then Some(Vault(id, s.wagers[id])) else None
    case CancelAcceptIx(_, id) => if id in s.wagers then Some(Vault(id, s.wagers[id])) else None
    case CloseExpiredIx(_, id, _) => if id in s.wagers then Some(Vault(id, s.wagers[id])) else None
    case SplTransfer(_, source, _, _) => Some(source)
    case _ => None
  }

  predicate NoOtherFalls(t: TokenMap, t': TokenMap, payer: Option<Address>) {
    forall a <- t :: payer != Some(a) ==> t[a].amount <= AmountAt(t', a)
  }

  lemma SettlementOnlyEmptiesVault(s: State, step: Step)
    requires (step.ResolveIx? || step.ConcedeIx?) && Apply(s, step).Ok?
    ensures NoOtherFalls(s.tokens, Apply(s, step).value.tokens, Payer(s, step))
  {
    var w, split := s.wagers[step.id], SplitPot(s.wagers[step.id].stake, s.wagers[step.id].feeBps).value;
    PaymentOnlyEmptiesVault(s.tokens, step.id, Vault(step.id, w), AtaOf(step.winnerAccount, w.mint), w.feeDestination,
                            w.rentCollector, split.payout, split.fee);
  }

  lemma PaymentOnlyEmptiesVault(t: TokenMap, id: Address, vault: Address, win: Address, fd: Address, rent: Address,
                                payout: u64, fee: u64)
    requires PayWinnerAndCloseVault(t, id, vault, win, fd, rent, payout, fee).Ok?
    ensures NoOtherFalls(t, PayWinnerAndCloseVault(t, id, vault, win, fd, rent, payout, fee).value.tokens, Some(vault))
  {
    var t1 := Transfer(t, vault, win, id, payout).value;
    assert NoOtherFalls(t, t1, Some(vault));
    var t2 := if fee > 0 then Transfer(t1, vault, fd, id, fee).value else t1;
    assert NoOtherFalls(t1, t2, Some(vault));
    SweepOnlyEmptiesVault(t2, id, vault, fd, rent);
  }

  lemma SweepOnlyEmptiesVault(t: TokenMap, id: Address, vault: Address, fd: Address, rent: Address)
    requires SweepAndCloseVault(t, id, vault, fd, rent).Ok?
    ensures NoOtherFalls(t, SweepAndCloseVault(t, id, vault, fd, rent).value.tokens, Some(vault))
  {
  }

  lemma CancelOnlyEmptiesVault(s: State, step: Step)
    requires step.CancelAcceptIx? && Apply(s, step).Ok?
    ensures NoOtherFalls(s.tokens, Apply(s, step).value.tokens, Payer(s, step))
  {
    var id, w, t := step.id, s.wagers[step.id], s.tokens;
    var vault, a, b := Vault(id, w), AtaOf(w.sideA, w.mint), AtaOf(w.sideB, w.mint);
    var t1 := Transfer(t, vault, a, id, w.stake).value;
    assert NoOtherFalls(t, t1, Some(vault));
    var t2 := Transfer(t1, vault, b, id, w.stake).value;
    assert NoOtherFalls(t1, t2, Some(vault));
    SweepOnlyEmptiesVault(t2, id, vault, w.feeDestination, w.rentCollector);
  }

  lemma SideOnlyPayerFalls(s: State, step: Step)
    requires (step.UnstakeSideIx? || step.RefundSideIx? || step.CloseExpiredIx?) && Apply(s, step).Ok?
    ensures NoOtherFalls(s.tokens, Apply(s, step).value.tokens, Payer(s, step))
  {
  }

  lemma OutsideOnlyPayerFalls(s: State, step: Step)
    requires IsOutside(step) && Apply(s, step).Ok?
    ensures NoOtherFalls(s.tokens, Apply(s, step).value.tokens, Payer(s, step))
  {
  }

  lemma OpeningOnlyPayerFalls(s: State, step: Step)
    requires (step.CreateWagerIx? || step.StakeSideIx?) && Apply(s, step).Ok?
    ensures NoOtherFalls(s.tokens, Apply(s, step).value.tokens, Payer(s, step))
  {
    if step.CreateWagerIx? { CreateWagerExactly(s, step.args); }
    else { StakeSideExactly(s, step.staker, step.id, step.stakerToken); }
  }

  lemma OnlyPayerFalls(s: State, step: Step)
    requires Apply(s, step).Ok?
    ensures NoOtherFalls(s.tokens, Apply(s, step).value.tokens, Payer(s, step))
  {
    if step.ResolveIx? || step.ConcedeIx? { SettlementOnlyEmptiesVault(s, step); }
    else if step.CancelAcceptIx? { CancelOnlyEmptiesVault(s, step); }
    else if step.CreateWagerIx? || step.StakeSideIx? { OpeningOnlyPayerFalls(s, step); }
    else if IsOutside(step) { OutsideOnlyPayerFalls(s, step); }
    else if IsAdmin(step) { AdminMovesToTwin(s, step); }
    else if step.CancelProposeIx? || step.CancelClearIx? { }
    else { SideOnlyPayerFalls(s, step); }
  }
}
