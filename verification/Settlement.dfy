/** Settling a locked wager: what the pot becomes, and why a concession is a resolution. */
module Settlement {
  import opened Types
  import opened Tokens
  import opened Accounts
  import opened Payout
  import opened Handlers
  import opened Steps
  import opened History
  import opened Invariant
  import opened Exits
  import opened Preservation
  import opened Shapes

  // ---- the split ----

  lemma FloorBounds(x: nat)
    ensures 10_000 * (x / 10_000) <= x < 10_000 * (x / 10_000) + 10_000
  {
  }

  lemma FeeWithinPot(pot: nat, bps: nat)
    ensures pot * bps / 10_000 <= pot <==> pot * bps < 10_000 * pot + 10_000
  {
    FloorBounds(pot * bps);
  }

  /** The split never loses a unit, the fee is the floor of the rate, and it fails exactly when the pot does
      not fit 64 bits or a rate beyond 100% would take more than the pot. */
  lemma SplitPotExactly(stake: u64, bps: u16)
    ensures var r, pot := SplitPot(stake, bps), 2 * stake;
            && (r.Ok? <==> pot <= U64_MAX && pot * bps < 10_000 * pot + 10_000)
            && (r.Err? ==> r == Err(MathOverflow))
            && (r.Ok? ==> && r.value.payout + r.value.fee == pot
                          && 10_000 * r.value.fee <= pot * bps < 10_000 * r.value.fee + 10_000)
  {
    FeeWithinPot(2 * stake, bps);
    FloorBounds(2 * stake * bps);
  }

  /** On a wager of any reachable state the split never errs and the fee is at most a tenth. */
  lemma SplitPotNeverErrs(s: State, id: Address)
    requires Reachable(s) && id in s.wagers
    ensures var w := s.wagers[id];
            && 10 * PotFee(w) <= 2 * w.stake <= U64_MAX
            && SplitPot(w.stake, w.feeBps) == Ok(Split(2 * w.stake - PotFee(w), PotFee(w)))
  {
    ReachableSound(s);
    SplitPotOnWager(s.config.mint, s.now, id, s.wagers[id]);
  }

  // ---- fees over a run ----

  predicate IsSettlement(e: Entry) {
    e.ok && (e.step.ResolveIx? || e.step.ConcedeIx?) && e.step.id in e.before.wagers
  }

  datatype FeeLedger = FeeLedger(settlements: nat, pots: nat, fees: nat, exact: nat)

  /** Settlements so far, their pots, the fees taken, and the fees before rounding in ten-thousandths. */
  function FeesTaken(log: seq<Entry>): FeeLedger
    decreases |log|
  {
    if log == [] then FeeLedger(0, 0, 0, 0)
    else
      var f, e := FeesTaken(log[..|log| - 1]), log[|log| - 1];
      if !IsSettlement(e) then f
      else
        var w := e.before.wagers[e.step.id];
        FeeLedger(f.settlements + 1, f.pots + 2 * w.stake, f.fees + PotFee(w), f.exact + 2 * w.stake * w.feeBps)
  }

  lemma SettledFeeArrives(s: State, s': State, id: Address, winner: Address)
    requires Settled(s, s', id, winner)
    ensures var w, t, t' := s.wagers[id], s.tokens, s'.tokens;
            && Vault(id, w) in t && Vault(id, w) !in t'
            && AmountAt(t', w.feeDestination)
               == AmountAt(t, w.feeDestination) + PotFee(w) + (t[Vault(id, w)].amount - 2 * w.stake)
  {
  }

  /** The fee of each settlement arrives at the pinned account, with whatever surplus the vault held. */
  lemma FeeArrives(s: State, step: Step)
    requires Inv(s) && (step.ResolveIx? || step.ConcedeIx?) && Apply(s, step).Ok?
    ensures step.id in s.wagers
    ensures var w, t, t' := s.wagers[step.id], s.tokens, Apply(s, step).value.tokens;
            && Vault(step.id, w) in t && Vault(step.id, w) !in t'
            && AmountAt(t', w.feeDestination)
               == AmountAt(t, w.feeDestination) + PotFee(w) + (t[Vault(step.id, w)].amount - 2 * w.stake)
  {
    match step
    case ResolveIx(resolver, id, winnerAccount, winner) =>
      ResolveExactly(s, resolver, id, winnerAccount, winner);
      SettledFeeArrives(s, Resolve(s, resolver, id, winnerAccount, winner).value, id, winner);
    case ConcedeIx(conceder, id, winner) =>
      ConcedeExactly(s, conceder, id, winner);
      SettledFeeArrives(s, Concede(s, conceder, id, winner).value, id, winner);
  }

  /** Over any run the fees are at most a tenth of the pots, and short of the exact rate by less than one unit
      a settlement. */
  lemma {:induction false} FeesOverRun(start: State, authority: Address, args: InitializeConfigArgs, log: seq<Entry>)
    requires IsGenesis(start, authority, args) && IsLog(start, log)
    ensures var f := FeesTaken(log);
            && 10 * f.fees <= f.pots
            && 10_000 * f.fees <= f.exact <= 10_000 * f.fees + 9_999 * f.settlements
    decreases |log|
  {
    if log != [] {
      var n := |log| - 1;
      LogOfFront(start, log);
      FeesOverRun(start, authority, args, log[..n]);
      if IsSettlement(log[n]) {
        GenesisSound(start, authority, args);
        LogKeeps(start, log[..n]);
        var s, id := log[n].before, log[n].step.id;
        SplitPotOnWager(s.config.mint, s.now, id, s.wagers[id]);
        FloorBounds(2 * s.wagers[id].stake * s.wagers[id].feeBps);
      }
    }
  }

  // ---- concession ----

  /** In every reachable state a concession by one side is possible exactly when a resolution for the other is,
      signer aside, and makes the same ledger; and it can name no other winner. */
  lemma ConcessionIsResolution(s: State, id: Address, conceder: Address)
    requires Reachable(s) && id in s.wagers && s.wagers[id].IsParticipant(conceder)
    ensures var w := s.wagers[id];
            var other := w.Counterparty(conceder);
            var c, r := Concede(s, conceder, id, other), Resolve(s, w.resolver, id, other, other);
            && (c.Ok? <==> r.Ok?) && (c.Ok? ==> c.value == r.value)
    ensures forall named :: named != s.wagers[id].Counterparty(conceder) ==> Concede(s, conceder, id, named).Err?
  {
    ReachableSound(s);
    var w := s.wagers[id];
    var other := w.Counterparty(conceder);
    assert WagerSound(s.config.mint, s.now, id, w);
    ConcedeExactly(s, conceder, id, other);
    ResolveExactly(s, w.resolver, id, other, other);
    if ActiveInTime(s, id) {
      ActiveInTimeIsReady(s, id);
      SamePayment(s, id, conceder);
    }
    forall named | named != other
      ensures Concede(s, conceder, id, named).Err?
    {
      ConcedeExactly(s, conceder, id, named);
    }
  }

  /** No exit open to the wager at the time leaves the conceder's account with less than conceding does; in time
      that is the settlements and the cancellation. Payoff compares whole lives, refunds after the deadline included. */
  lemma ConcessionYieldsLeast(s: State, id: Address, conceder: Address, step: Step)
    requires Reachable(s) && id in s.wagers
    requires Concede(s, conceder, id, s.wagers[id].Counterparty(conceder)).Ok?
    requires (step.ResolveIx? || step.ConcedeIx? || step.CancelAcceptIx? || step.RefundSideIx? || step.UnstakeSideIx?)
             && step.id == id && Apply(s, step).Ok?
    ensures var home := AtaOf(conceder, s.wagers[id].mint);
            AmountAt(Concede(s, conceder, id, s.wagers[id].Counterparty(conceder)).value.tokens, home)
            <= AmountAt(Apply(s, step).value.tokens, home)
  {
    ReachableSound(s);
    if TakesFees(s, id, conceder) {
      ConcedeExactly(s, conceder, id, s.wagers[id].Counterparty(conceder));
      FeeTakersExitAlike(s, id, conceder, step);
    } else {
      ConcessionGivesNothing(s, id, conceder);
      OnlyPayerFalls(s, step);
      assert Payer(s, step) == Some(Vault(id, s.wagers[id]));
    }
  }

  /** A side whose own account is the pinned fee destination cannot be paid as a winner or as a staker. */
  predicate TakesFees(s: State, id: Address, side: Address) {
    id in s.wagers && s.wagers[id].feeDestination == AtaOf(side, s.wagers[id].mint)
  }

  lemma FeeTakerResolvesAlike(s: State, id: Address, side: Address, step: Step)
    requires Inv(s) && TakesFees(s, id, side) && s.wagers[id].IsParticipant(side)
    requires step.ResolveIx? && step.id == id && Execute(s, step).Ok?
    ensures Execute(s, step) == Concede(s, side, id, s.wagers[id].Counterparty(side))
  {
    ResolveExactly(s, step.resolver, id, step.winnerAccount, step.winner);
    ActiveInTimeIsReady(s, id);
    SamePayment(s, id, side);
  }

  lemma FeeTakerConcedesAlike(s: State, id: Address, side: Address, step: Step)
    requires Inv(s) && TakesFees(s, id, side) && s.wagers[id].IsParticipant(side)
    requires step.ConcedeIx? && step.id == id && Execute(s, step).Ok?
    ensures Execute(s, step) == Concede(s, side, id, s.wagers[id].Counterparty(side))
  {
    ConcedeExactly(s, step.conceder, id, step.winnerAccount);
  }

  lemma FeeTakerHasNoCancel(s: State, id: Address, side: Address, step: Step)
    requires Inv(s) && TakesFees(s, id, side) && s.wagers[id].IsParticipant(side)
    requires step.CancelAcceptIx? && step.id == id
    ensures Execute(s, step).Err?
  {
    CancelAcceptExactly(s, step.acceptor, id);
  }

  lemma NoRefundInTime(s: State, id: Address, step: Step)
    requires Inv(s) && ActiveInTime(s, id) && step.RefundSideIx? && step.id == id
    ensures Execute(s, step).Err?
  {
    RefundSideExactly(s, id, step.side);
  }

  lemma NoUnstakeInTime(s: State, id: Address, step: Step)
    requires Inv(s) && ActiveInTime(s, id) && step.UnstakeSideIx? && step.id == id
    ensures Execute(s, step).Err?
  {
    UnstakeSideExactly(s, step.staker, id);
  }

  /** So all the exits open to the wager pay the other side, and make the same ledger as the concession. */
  lemma FeeTakersExitAlike(s: State, id: Address, conceder: Address, step: Step)
    requires Inv(s) && TakesFees(s, id, conceder) && ActiveInTime(s, id) && s.wagers[id].IsParticipant(conceder)
    requires (step.ResolveIx? || step.ConcedeIx? || step.CancelAcceptIx? || step.RefundSideIx? || step.UnstakeSideIx?)
             && step.id == id && Execute(s, step).Ok?
    ensures Execute(s, step) == Concede(s, conceder, id, s.wagers[id].Counterparty(conceder))
  {
    if step.ResolveIx? { FeeTakerResolvesAlike(s, id, conceder, step); }
    else if step.ConcedeIx? { FeeTakerConcedesAlike(s, id, conceder, step); }
    else if step.CancelAcceptIx? { FeeTakerHasNoCancel(s, id, conceder, step); }
    else if step.RefundSideIx? { NoRefundInTime(s, id, step); }
    else { NoUnstakeInTime(s, id, step); }
  }

  lemma SamePayment(s: State, id: Address, conceder: Address)
    requires ActiveInTime(s, id) && Ready(s, id) && s.wagers[id].IsParticipant(conceder)
    ensures var w := s.wagers[id];
            var other := w.Counterparty(conceder);
            var c, r := Concede(s, conceder, id, other), Resolve(s, w.resolver, id, other, other);
            (c.Ok? <==> r.Ok?) && (c.Ok? ==> c.value == r.value)
  {
    var other := s.wagers[id].Counterparty(conceder);
    ConcedeOpened(s, conceder, id, other);
    ResolveOpened(s, s.wagers[id].resolver, id, other, other);
  }

  lemma ConcessionGivesNothing(s: State, id: Address, conceder: Address)
    requires Inv(s) && id in s.wagers
    requires Concede(s, conceder, id, s.wagers[id].Counterparty(conceder)).Ok?
    requires s.wagers[id].feeDestination != AtaOf(conceder, s.wagers[id].mint)
    ensures var home := AtaOf(conceder, s.wagers[id].mint);
            && home != Vault(id, s.wagers[id])
            && AmountAt(Concede(s, conceder, id, s.wagers[id].Counterparty(conceder)).value.tokens, home)
               == AmountAt(s.tokens, home)
  {
    ConcedeExactly(s, conceder, id, s.wagers[id].Counterparty(conceder));
    ActiveInTimeIsReady(s, id);
  }
}
