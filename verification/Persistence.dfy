/** The way out of an overdue wager stays open: of all the steps there are, only the owners of the accounts it
    relies on, and whoever can freeze them, can shut it. */
module Persistence {
  import opened Types
  import opened Tokens
  import opened Accounts
  import opened Handlers
  import opened Steps
  import opened History
  import opened Invariant
  import opened Exits
  import opened Preservation
  import opened Shapes
  import opened Liveness

  /** Not an account the program ever closes. */
  predicate Lasting(a: Address) { !(a.AtaOf? && a.owner.WagerPda?) }

  // ---- what instructions do to accounts ----

  /** Every account but one is still there, and differs at most in its balance. */
  predicate Kept(t: TokenMap, t': TokenMap, but: Option<Address>) {
    forall a <- t :: but != Some(a) ==> a in t' && t'[a] == t[a].(amount := t'[a].amount)
  }

  /** The vault is gone and everything else differs at most in its balance. */
  predicate ClosedOut(t: TokenMap, t': TokenMap, vault: Address) {
    t'.Keys == t.Keys - {vault} && forall a <- t' :: t'[a] == t[a].(amount := t'[a].amount)
  }

  lemma ClosedOutKeeps(t: TokenMap, t': TokenMap, vault: Address)
    requires ClosedOut(t, t', vault)
    ensures Kept(t, t', Some(vault))
  {
    forall a <- t | a != vault ensures a in t' { assert a in t'.Keys; }
  }

  /** The vault of the wager that a step ends. */
  function ClosedVault(s: State, step: Step): Option<Address> {
    if EndsWager(step) && step.id in s.wagers then Some(Vault(step.id, s.wagers[step.id])) else None
  }

  lemma SettledKeeps(s: State, s': State, id: Address, winner: Address)
    requires Settled(s, s', id, winner)
    ensures ClosedOut(s.tokens, s'.tokens, Vault(id, s.wagers[id]))
  {
  }

  lemma CalledOffKeeps(s: State, s': State, id: Address)
    requires CalledOff(s, s', id)
    ensures ClosedOut(s.tokens, s'.tokens, Vault(id, s.wagers[id]))
  {
  }

  lemma ReclaimedKeeps(s: State, s': State, id: Address)
    requires Reclaimed(s, s', id)
    ensures ClosedOut(s.tokens, s'.tokens, Vault(id, s.wagers[id]))
  {
  }

  /** The step has closed its wager's vault and shut nothing else. */
  predicate ClosesOut(s: State, step: Step)
    requires EndsWager(step) && Execute(s, step).Ok?
  {
    step.id in s.wagers && ClosedOut(s.tokens, Execute(s, step).value.tokens, Vault(step.id, s.wagers[step.id]))
  }

  lemma ResolveClosesOut(s: State, step: Step)
    requires Inv(s) && step.ResolveIx? && Execute(s, step).Ok?
    ensures ClosesOut(s, step)
  {
    ResolveExactly(s, step.resolver, step.id, step.winnerAccount, step.winner);
    SettledKeeps(s, Execute(s, step).value, step.id, step.winner);
  }

  lemma ConcedeClosesOut(s: State, step: Step)
    requires Inv(s) && step.ConcedeIx? && Execute(s, step).Ok?
    ensures ClosesOut(s, step)
  {
    ConcedeExactly(s, step.conceder, step.id, step.winnerAccount);
    SettledKeeps(s, Execute(s, step).value, step.id, step.winnerAccount);
  }

  lemma CancelClosesOut(s: State, step: Step)
    requires Inv(s) && step.CancelAcceptIx? && Execute(s, step).Ok?
    ensures ClosesOut(s, step)
  {
    CancelAcceptExactly(s, step.acceptor, step.id);
    CalledOffKeeps(s, Execute(s, step).value, step.id);
  }

  lemma CloseClosesOut(s: State, step: Step)
    requires Inv(s) && step.CloseExpiredIx? && Execute(s, step).Ok?
    ensures ClosesOut(s, step)
  {
    CloseExpiredExactly(s, step.id, step.feeToken);
    ReclaimedKeeps(s, Execute(s, step).value, step.id);
  }

  lemma WentHomeKeepsAccounts(s: State, s': State, id: Address, w: Wager, side: Address)
    requires WentHome(s, s', id, w, side)
    ensures Kept(s.tokens, s'.tokens, None)
  {
  }

  lemma UnstakeKeepsAccounts(s: State, staker: Address, id: Address)
    requires Inv(s) && UnstakeSide(s, staker, id).Ok?
    ensures Kept(s.tokens, UnstakeSide(s, staker, id).value.tokens, None)
  {
    UnstakeSideExactly(s, staker, id);
    WentHomeKeepsAccounts(s, UnstakeSide(s, staker, id).value, id, Unstaked(s.wagers[id], staker), staker);
  }

  lemma RefundKeepsAccounts(s: State, id: Address, side: Address)
    requires Inv(s) && RefundSide(s, id, side).Ok?
    ensures Kept(s.tokens, RefundSide(s, id, side).value.tokens, None)
  {
    RefundSideExactly(s, id, side);
    WentHomeKeepsAccounts(s, RefundSide(s, id, side).value, id, Refunded(s.wagers[id], side), side);
  }

  lemma StakeKeepsAccounts(s: State, staker: Address, id: Address, source: Address)
    requires StakeSide(s, staker, id, source).Ok?
    ensures Kept(s.tokens, StakeSide(s, staker, id, source).value.tokens, None)
  {
    StakeSideExactly(s, staker, id, source);
    MoveKeepsAccounts(s.tokens, source, Vault(id, s.wagers[id]), s.wagers[id].stake);
  }

  lemma MoveKeepsAccounts(t: TokenMap, from: Address, to: Address, amount: u64)
    requires from in t && to in t && from != to && amount <= t[from].amount && t[to].amount + amount <= U64_MAX
    ensures Kept(t, Move(t, from, to, amount), None)
  {
  }

  lemma CreateKeepsAccounts(s: State, args: CreateWagerArgs)
    requires CreateWager(s, args).Ok?
    ensures Kept(s.tokens, CreateWager(s, args).value.tokens, None)
  {
    CreateWagerExactly(s, args);
  }

  lemma EndingsKeepAccounts(s: State, step: Step)
    requires Inv(s) && EndsWager(step) && Execute(s, step).Ok?
    ensures ClosesOut(s, step)
  {
    if step.ResolveIx? { ResolveClosesOut(s, step); }
    else if step.ConcedeIx? { ConcedeClosesOut(s, step); }
    else if step.CancelAcceptIx? { CancelClosesOut(s, step); }
    else { CloseClosesOut(s, step); }
  }

  lemma TransfersKeepAccounts(s: State, step: Step)
    requires Inv(s) && Execute(s, step).Ok?
    requires step.CreateWagerIx? || step.StakeSideIx? || step.UnstakeSideIx? || step.RefundSideIx?
    ensures Kept(s.tokens, Execute(s, step).value.tokens, None)
  {
    match step
    case CreateWagerIx(_, args) => CreateKeepsAccounts(s, args);
    case StakeSideIx(staker, id, source) => StakeKeepsAccounts(s, staker, id, source);
    case UnstakeSideIx(staker, id) => UnstakeKeepsAccounts(s, staker, id);
    case RefundSideIx(_, id, side) => RefundKeepsAccounts(s, id, side);
  }

  lemma OthersMoveNothing(s: State, step: Step)
    requires IsAdmin(step) || step.CancelProposeIx? || step.CancelClearIx?
    ensures Execute(s, step).Ok? ==> Execute(s, step).value.tokens == s.tokens
  {
  }

  lemma InstructionsKeepAccounts(s: State, step: Step)
    requires Inv(s) && !IsOutside(step) && Execute(s, step).Ok?
    ensures Kept(s.tokens, Execute(s, step).value.tokens, ClosedVault(s, step))
  {
    if EndsWager(step) {
      EndingsKeepAccounts(s, step);
      ClosedOutKeeps(s.tokens, Execute(s, step).value.tokens, Vault(step.id, s.wagers[step.id]));
    } else if step.CreateWagerIx? || step.StakeSideIx? || step.UnstakeSideIx? || step.RefundSideIx? {
      TransfersKeepAccounts(s, step);
    }
    else { OthersMoveNothing(s, step); }
  }

  // ---- what an overdue wager still allows ----

  /** Stakes, unstakes, settlements and proposals all had their time before the deadline. */
  lemma EarlyStepsAreOver(s: State, step: Step)
    requires step.StakeSideIx? || step.UnstakeSideIx? || step.CancelProposeIx? || EndsWager(step)
    requires Overdue(s, step.id)
    ensures step.CloseExpiredIx? || Execute(s, step).Err?
  {
  }

  lemma CloseNeedsExit(s: State, id: Address, feeToken: Option<Address>)
    requires CloseExpired(s, id, feeToken).Ok?
    ensures id in s.wagers && s.wagers[id].FullyExited()
  {
  }

  /** The record of an overdue wager changes only by a refund, by the clearing of a proposal, and at the end
      by a close once both sides are out. */
  predicate OverdueChange(w: Wager, step: Step, id: Address, after: Option<Wager>) {
    match after
    case None => step.CloseExpiredIx? && step.id == id && w.FullyExited()
    case Some(w') => || w' == w.(cancelProposedBy := w'.cancelProposedBy)
                     || (step.RefundSideIx? && step.id == id && w' == Refunded(w, step.side))
  }

  function At(s: State, id: Address): Option<Wager> { if id in s.wagers then Some(s.wagers[id]) else None }

  lemma OverdueUnderEnding(s: State, step: Step, id: Address)
    requires Overdue(s, id)
    requires EndsWager(step) && Apply(s, step).Ok?
    ensures OverdueChange(s.wagers[id], step, id, At(Apply(s, step).value, id))
    ensures At(Apply(s, step).value, id) != None ==> step.id != id
  {
    StepEndsOneWager(s, step);
    if step.id == id {
      EarlyStepsAreOver(s, step);
      CloseNeedsExit(s, id, step.feeToken);
    }
  }

  lemma OverdueUnderReplacement(s: State, step: Step, id: Address)
    requires Overdue(s, id)
    requires Apply(s, step).Ok? && (step.StakeSideIx? || step.UnstakeSideIx? || step.RefundSideIx?
                                    || step.CancelProposeIx? || step.CancelClearIx?)
    ensures OverdueChange(s.wagers[id], step, id, At(Apply(s, step).value, id))
  {
    StepReplacesOneWager(s, step);
    if step.id == id {
      if step.RefundSideIx? { RefundMarksSide(s, id, step.side); }
      else if step.CancelClearIx? { ClearTouchesProposal(s, step.participant, id); }
      else { EarlyStepsAreOver(s, step); }
    }
  }

  lemma RefundMarksSide(s: State, id: Address, side: Address)
    requires RefundSide(s, id, side).Ok?
    ensures id in s.wagers && RefundSide(s, id, side).value.wagers == s.wagers[id := Refunded(s.wagers[id], side)]
  {
  }

  lemma ClearTouchesProposal(s: State, participant: Address, id: Address)
    requires CancelClear(s, participant, id).Ok?
    ensures id in s.wagers
    ensures CancelClear(s, participant, id).value.wagers == s.wagers[id := s.wagers[id].(cancelProposedBy := DEFAULT)]
  {
  }

  lemma OthersKeepRecord(s: State, step: Step, id: Address)
    requires id in s.wagers && Apply(s, step).Ok? && (step.CreateWagerIx? || IsAdmin(step) || IsOutside(step))
    ensures At(Apply(s, step).value, id) == Some(s.wagers[id])
  {
    if step.CreateWagerIx? { StepOpensOneWager(s, step); }
    else if IsAdmin(step) { AdminMovesToTwin(s, step); }
    else { OutsideTouchesTokensAndTime(s, step); }
  }

  lemma OverdueUnderStep(s: State, step: Step, id: Address)
    requires Overdue(s, id)
    requires Apply(s, step).Ok?
    ensures OverdueChange(s.wagers[id], step, id, At(Apply(s, step).value, id))
    ensures At(Apply(s, step).value, id) != None && ClosedVault(s, step) != None ==> step.id != id
  {
    if EndsWager(step) { OverdueUnderEnding(s, step, id); }
    else if step.CreateWagerIx? || IsAdmin(step) || IsOutside(step) { OthersKeepRecord(s, step, id); }
    else { OverdueUnderReplacement(s, step, id); }
  }

  lemma ClosedVaultsAreVaults(s: State, step: Step)
    requires WagersSound(s) && ClosedVault(s, step).Some?
    ensures !Lasting(ClosedVault(s, step).value) && ClosedVault(s, step).value.owner == step.id
  {
    assert WagerSound(s.config.mint, s.now, step.id, s.wagers[step.id]);
  }

  lemma TimeRunsOn(s: State, step: Step)
    requires Apply(s, step).Ok?
    ensures s.now <= Apply(s, step).value.now
  {
    if IsOutside(step) { OutsideTouchesTokensAndTime(s, step); }
    else { InstructionsTakeNoTime(s, step); }
  }

  lemma InstructionsTakeNoTime(s: State, step: Step)
    requires !IsOutside(step) && Apply(s, step).Ok?
    ensures Apply(s, step).value.now == s.now
  {
    if step.ResolveIx? || step.ConcedeIx? || step.CancelAcceptIx? { SettlementsTakeNoTime(s, step); }
    else if step.CreateWagerIx? { CreateWagerExactly(s, step.args); }
  }

  lemma SettlementsTakeNoTime(s: State, step: Step)
    requires (step.ResolveIx? || step.ConcedeIx? || step.CancelAcceptIx?) && Apply(s, step).Ok?
    ensures Apply(s, step).value.now == s.now
  {
  }

  // ---- the accounts the way out relies on ----

  /** The step does not freeze or close account a. */
  predicate LeavesOpen(step: Step, a: Address) {
    match step
    case SplSetFrozen(_, account, frozen) => account == a ==> !frozen
    case SplClose(_, account, _) => account != a
    case _ => true
  }

  /** Nor does it hand the account to another owner. */
  predicate LeavesAlone(step: Step, a: Address) {
    LeavesOpen(step, a) && (step.SplSetOwner? ==> step.account != a)
  }

  /** The account can do from t' on whatever it could do in t. */
  predicate StaysOpen(t: TokenMap, t': TokenMap, a: Address) {
    a in t ==> a in t' && t'[a].mint == t[a].mint && (t'[a].frozen ==> t[a].frozen)
  }

  predicate StaysOwned(t: TokenMap, t': TokenMap, a: Address) {
    StaysOpen(t, t', a) && (a in t ==> t'[a].owner == t[a].owner)
  }

  /** The acts of owners and freezers shut the accounts they name and no others. */
  lemma OutsidersShutOnlyTheirs(s: State, step: Step, a: Address)
    requires IsOutside(step) && Apply(s, step).Ok?
    ensures LeavesOpen(step, a) ==> StaysOpen(s.tokens, Apply(s, step).value.tokens, a)
    ensures LeavesAlone(step, a) ==> StaysOwned(s.tokens, Apply(s, step).value.tokens, a)
  {
  }

  lemma KeptStays(t: TokenMap, t': TokenMap, but: Option<Address>, a: Address)
    requires Kept(t, t', but) && but != Some(a)
    ensures StaysOwned(t, t', a)
  {
  }

  /** Instructions shut no account but the vault of a wager they end. */
  lemma StepsShutOnlyNamed(s: State, step: Step, a: Address)
    requires Inv(s) && Apply(s, step).Ok? && ClosedVault(s, step) != Some(a)
    ensures LeavesOpen(step, a) ==> StaysOpen(s.tokens, Apply(s, step).value.tokens, a)
    ensures LeavesAlone(step, a) ==> StaysOwned(s.tokens, Apply(s, step).value.tokens, a)
  {
    if IsOutside(step) { OutsidersShutOnlyTheirs(s, step, a); }
    else {
      InstructionsKeepAccounts(s, step);
      KeptStays(s.tokens, Apply(s, step).value.tokens, ClosedVault(s, step), a);
    }
  }

  // ---- one side's refund ----

  /** A side's refund is due and nothing stands in its way. */
  predicate RefundOpen(s: State, id: Address, side: Address) {
    Overdue(s, id) && SideCanGoHome(s, id, side)
  }

  lemma RefundOpenMeansOpen(s: State, id: Address, side: Address)
    requires Inv(s) && RefundOpen(s, id, side)
    ensures RefundSide(s, id, side).Ok?
  {
    OverdueIsSound(s, id);
    RefundSideExactly(s, id, side);
  }

  /** The side's refund has been taken: its stake has gone home. */
  predicate TakesRefund(e: Entry, id: Address, side: Address) {
    && e.ok && e.step.RefundSideIx? && e.step.id == id && e.step.side == side && id in e.before.wagers
    && AmountAt(e.after.tokens, AtaOf(side, e.before.wagers[id].mint))
       == AmountAt(e.before.tokens, AtaOf(side, e.before.wagers[id].mint)) + e.before.wagers[id].stake
  }

  lemma RefundOnlyOfSides(s: State, id: Address, side: Address)
    requires Inv(s) && RefundSide(s, id, side).Ok?
    ensures id in s.wagers && s.wagers[id].IsParticipant(side)
    ensures var home := AtaOf(side, s.wagers[id].mint);
            AmountAt(RefundSide(s, id, side).value.tokens, home) == AmountAt(s.tokens, home) + s.wagers[id].stake
  {
    RefundSideExactly(s, id, side);
    SideIsCovered(s, id, side);
  }

  lemma StaysRefundable(s: State, s': State, step: Step, id: Address, side: Address)
    requires RefundOpen(s, id, side) && s.wagers[id].sideA != s.wagers[id].sideB && s.now <= s'.now
    requires OverdueChange(s.wagers[id], step, id, At(s', id)) && VaultsUncontrolled(s'.tokens) && id.WagerPda?
    requires step.RefundSideIx? && step.id == id ==> step.side != side && s.wagers[id].IsParticipant(step.side)
    requires StaysOwned(s.tokens, s'.tokens, AtaOf(side, s.wagers[id].mint))
    requires StaysOpen(s.tokens, s'.tokens, Vault(id, s.wagers[id]))
    ensures RefundOpen(s', id, side) && s'.wagers[id].mint == s.wagers[id].mint
  {
  }

  lemma SideSpared(s: State, step: Step, id: Address, side: Address)
    requires Inv(s) && id in s.wagers && CanSign(side) && Apply(s, step).Ok?
    requires LeavesAlone(step, AtaOf(side, s.wagers[id].mint)) && LeavesOpen(step, Vault(id, s.wagers[id]))
    requires ClosedVault(s, step) != Some(Vault(id, s.wagers[id]))
    ensures StaysOwned(s.tokens, Apply(s, step).value.tokens, AtaOf(side, s.wagers[id].mint))
    ensures StaysOpen(s.tokens, Apply(s, step).value.tokens, Vault(id, s.wagers[id]))
  {
    if ClosedVault(s, step).Some? { ClosedVaultsAreVaults(s, step); }
    StepsShutOnlyNamed(s, step, AtaOf(side, s.wagers[id].mint));
    StepsShutOnlyNamed(s, step, Vault(id, s.wagers[id]));
  }

  lemma RefundRecordStays(s: State, step: Step, id: Address, side: Address, s': State)
    requires Inv(s) && RefundOpen(s, id, side) && Apply(s, step) == Ok(s')
    requires !(step.RefundSideIx? && step.id == id && step.side == side)
    ensures s.wagers[id].sideA != s.wagers[id].sideB && id.WagerPda? && CanSign(side) && s.now <= s'.now
    ensures OverdueChange(s.wagers[id], step, id, At(s', id))
    ensures step.RefundSideIx? && step.id == id ==> s.wagers[id].IsParticipant(step.side)
    ensures ClosedVault(s, step) != Some(Vault(id, s.wagers[id]))
  {
    OverdueIsSound(s, id);
    assert WagerSound(s.config.mint, s.now, id, s.wagers[id]);
    OverdueUnderStep(s, step, id);
    TimeRunsOn(s, step);
    if step.RefundSideIx? { RefundOnlyOfSides(s, step.id, step.side); }
    if ClosedVault(s, step).Some? { ClosedVaultsAreVaults(s, step); }
  }

  /** A side only ever waits for its own account: while its refund is due, its own account usable and the vault
      not frozen, every step but those that shut one of these two leaves the refund open, or is that refund. The
      other side's account, the fee account and the collector do not matter. */
  lemma RefundStaysOpen(s: State, step: Step, id: Address, side: Address, s': State)
    requires Inv(s) && RefundOpen(s, id, side) && Apply(s, step) == Ok(s')
    requires LeavesAlone(step, AtaOf(side, s.wagers[id].mint)) && LeavesOpen(step, Vault(id, s.wagers[id]))
    requires !(step.RefundSideIx? && step.id == id && step.side == side)
    ensures RefundOpen(s', id, side) && s'.wagers[id].mint == s.wagers[id].mint
  {
    RefundRecordStays(s, step, id, side, s');
    SideSpared(s, step, id, side);
    NextKeeps(s, step);
    StaysRefundable(s, s', step, id, side);
  }

  lemma RefundStaysOpenAt(e: Entry, id: Address, side: Address)
    requires Inv(e.before) && RefundOpen(e.before, id, side) && Faithful(e)
    requires LeavesAlone(e.step, AtaOf(side, e.before.wagers[id].mint))
             && LeavesOpen(e.step, Vault(id, e.before.wagers[id]))
    ensures Inv(e.after)
    ensures TakesRefund(e, id, side)
            || (RefundOpen(e.after, id, side) && e.after.wagers[id].mint == e.before.wagers[id].mint)
  {
    NextKeeps(e.before, e.step);
    if e.ok {
      if e.step.RefundSideIx? && e.step.id == id && e.step.side == side { RefundOnlyOfSides(e.before, id, side); }
      else { RefundStaysOpen(e.before, e.step, id, side, e.after); }
    }
  }

  /** Over any run in which nobody shuts the side's own account or the vault, the refund is open to anybody until
      it has been taken. */
  lemma {:induction false} RefundWaits(start: State, log: seq<Entry>, id: Address, side: Address)
    requires Inv(start) && RefundOpen(start, id, side) && IsLog(start, log)
    requires forall e <- log :: LeavesAlone(e.step, AtaOf(side, start.wagers[id].mint))
                                && LeavesOpen(e.step, Vault(id, start.wagers[id]))
    ensures (exists e <- log :: TakesRefund(e, id, side))
            || (&& RefundOpen(Last(start, log), id, side) && RefundSide(Last(start, log), id, side).Ok?
                && Last(start, log).wagers[id].mint == start.wagers[id].mint)
    decreases |log|
  {
    if log == [] {
      RefundOpenMeansOpen(start, id, side);
    } else {
      var n := |log| - 1;
      LogOfFront(start, log);
      LogKeeps(start, log[..n]);
      RefundWaits(start, log[..n], id, side);
      assert forall e <- log[..n] :: e in log;
      if !exists e <- log[..n] :: TakesRefund(e, id, side) {
        assert log[n] in log;
        RefundStaysOpenAt(log[n], id, side);
        if RefundOpen(log[n].after, id, side) { RefundOpenMeansOpen(log[n].after, id, side); }
      }
    }
  }

  // ---- the whole rescue ----

  /** What the vault holds beyond the stakes. */
  function Surplus(s: State, id: Address): int
    requires id in s.wagers
  {
    AmountAt(s.tokens, Vault(id, s.wagers[id])) - s.wagers[id].Outstanding()
  }

  /** Ready for any donation: the vault is not frozen, and the pinned fee account can take a surplus and is not
      itself a vault. */
  predicate Secure(t: TokenMap, id: Address, w: Wager) {
    && Vault(id, w) in t && !t[Vault(id, w)].frozen
    && Receives(t, w.feeDestination, w.mint) && Lasting(w.feeDestination)
  }

  /** The step shuts none of the accounts the way out relies on: the homes of the sides still in, the vault, and
      the fee account where it is ready. */
  predicate Spares(t: TokenMap, id: Address, w: Wager, step: Step) {
    && (w.Holds(w.sideA) ==> LeavesAlone(step, AtaOf(w.sideA, w.mint)))
    && (w.Holds(w.sideB) ==> LeavesAlone(step, AtaOf(w.sideB, w.mint)))
    && LeavesOpen(step, Vault(id, w)) && (Secure(t, id, w) ==> LeavesOpen(step, w.feeDestination))
  }

  /** What Spares comes to for the accounts themselves. */
  predicate Spared(t: TokenMap, t': TokenMap, id: Address, w: Wager) {
    && (w.Holds(w.sideA) ==> StaysOwned(t, t', AtaOf(w.sideA, w.mint)))
    && (w.Holds(w.sideB) ==> StaysOwned(t, t', AtaOf(w.sideB, w.mint)))
    && StaysOpen(t, t', Vault(id, w)) && (Secure(t, id, w) ==> StaysOpen(t, t', w.feeDestination))
  }

  lemma StepSpares(s: State, step: Step, id: Address)
    requires Inv(s) && Overdue(s, id) && Spares(s.tokens, id, s.wagers[id], step) && Apply(s, step).Ok?
    requires ClosedVault(s, step) != Some(Vault(id, s.wagers[id]))
    ensures Spared(s.tokens, Apply(s, step).value.tokens, id, s.wagers[id])
  {
    var w := s.wagers[id];
    OverdueIsSound(s, id);
    if ClosedVault(s, step).Some? { ClosedVaultsAreVaults(s, step); }
    if w.Holds(w.sideA) { StepsShutOnlyNamed(s, step, AtaOf(w.sideA, w.mint)); }
    if w.Holds(w.sideB) { StepsShutOnlyNamed(s, step, AtaOf(w.sideB, w.mint)); }
    StepsShutOnlyNamed(s, step, Vault(id, w));
    if Secure(s.tokens, id, w) { StepsShutOnlyNamed(s, step, w.feeDestination); }
  }

  lemma ClearStays(t: TokenMap, t': TokenMap, id: Address, w: Wager, step: Step, w': Wager)
    requires Clear(t, id, w) && Spared(t, t', id, w) && OverdueChange(w, step, id, Some(w')) && Vault(id, w) in t
    requires w.Outstanding() <= t[Vault(id, w)].amount && w.sideA != w.sideB && id.WagerPda?
    ensures Secure(t, id, w) ==> Secure(t', id, w')
    ensures Secure(t, id, w) || AmountAt(t', Vault(id, w)) == w'.Outstanding() ==> Clear(t', id, w')
    ensures SidesIn(w') <= SidesIn(w)
  {
  }

  /** What becomes of the way out from s to s', one step later. */
  predicate WayOut(s: State, s': State, id: Address)
    requires id in s.wagers
  {
    match At(s', id)
    case None => SidesIn(s.wagers[id]) == 0
    case Some(w') =>
      && SidesIn(w') <= SidesIn(s.wagers[id])
      && (Secure(s.tokens, id, s.wagers[id]) ==> Secure(s'.tokens, id, w'))
      && (Secure(s.tokens, id, s.wagers[id]) || Surplus(s', id) == 0 ==> Rescuable(s', id))
  }

  lemma WayOutStays(s: State, s': State, step: Step, id: Address)
    requires WagersSound(s) && Rescuable(s, id) && s.now <= s'.now && OverdueChange(s.wagers[id], step, id, At(s', id))
    requires id in s'.wagers ==> Spared(s.tokens, s'.tokens, id, s.wagers[id])
    ensures WayOut(s, s', id)
  {
    OverdueIsSound(s, id);
    if id in s'.wagers { ClearStays(s.tokens, s'.tokens, id, s.wagers[id], step, s'.wagers[id]); }
  }

  /** The way out stays open under every step but the acts of owners and freezers on the accounts it relies on.
      The wager stays overdue, with no more sides in, until somebody closes it with both sides out. A fee account
      that is ready stays ready; where it is not, the way out stays open as long as nothing is donated. */
  lemma RescueStaysOpen(s: State, step: Step, id: Address)
    requires Inv(s) && Rescuable(s, id) && Spares(s.tokens, id, s.wagers[id], step) && Apply(s, step).Ok?
    ensures WayOut(s, Apply(s, step).value, id)
  {
    assert WagerSound(s.config.mint, s.now, id, s.wagers[id]);
    OverdueUnderStep(s, step, id);
    TimeRunsOn(s, step);
    if id in Apply(s, step).value.wagers {
      if ClosedVault(s, step).Some? { ClosedVaultsAreVaults(s, step); }
      StepSpares(s, step, id);
    }
    WayOutStays(s, Apply(s, step).value, step, id);
  }

  /** An entry of a run that leaves wager id live and shuts nothing it relies on. */
  predicate ShutsNothing(e: Entry, id: Address) {
    id in e.before.wagers && id in e.after.wagers && Spares(e.before.tokens, id, e.before.wagers[id], e.step)
  }

  /** And that makes no surplus for a fee account that cannot take it: the account was ready when the run started,
      or it is ready now, or there is no surplus. */
  predicate Harmless(start: State, e: Entry, id: Address) {
    && ShutsNothing(e, id)
    && (ReadyFor(start, id) || ReadyFor(e.before, id) || (id in e.after.wagers && Surplus(e.after, id) == 0))
  }

  predicate ReadyFor(s: State, id: Address) { id in s.wagers && Secure(s.tokens, id, s.wagers[id]) }

  /** From s to s' the rescue has stayed open, got no longer, and the fee account is ready if it was. */
  predicate StillOpen(s: State, s': State, id: Address) {
    && id in s.wagers && Rescuable(s', id) && SidesIn(s'.wagers[id]) <= SidesIn(s.wagers[id])
    && (ReadyFor(s, id) ==> ReadyFor(s', id))
  }

  lemma HarmlessEntryLeavesOpen(start: State, e: Entry, id: Address)
    requires Faithful(e) && Inv(e.before) && StillOpen(start, e.before, id) && Harmless(start, e, id)
    ensures StillOpen(start, e.after, id)
  {
    if e.ok { RescueStaysOpen(e.before, e.step, id); }
  }

  lemma HarmlessLeavesOpen(start: State, log: seq<Entry>, k: nat, id: Address)
    requires Inv(start) && IsLog(start, log) && k < |log| && Harmless(start, log[k], id)
    requires StillOpen(start, Last(start, log[..k]), id)
    ensures StillOpen(start, Last(start, log[..k + 1]), id)
  {
    LogKeepsUntil(start, log, k);
    LogPrefix(start, log, k);
    HarmlessEntryLeavesOpen(start, log[k], id);
  }

  lemma {:induction false} HarmlessSoFar(start: State, log: seq<Entry>, n: nat, id: Address)
    requires Inv(start) && Rescuable(start, id) && IsLog(start, log) && n <= |log|
    requires forall k :: 0 <= k < |log| ==> Harmless(start, log[k], id)
    ensures StillOpen(start, Last(start, log[..n]), id)
    decreases n
  {
    if n != 0 {
      HarmlessSoFar(start, log, n - 1, id);
      HarmlessLeavesOpen(start, log, n - 1, id);
    }
  }

  /** Over any run of harmless steps, donations to a wager with a ready fee account included, as long as the wager is
      not closed the same rescue is there to be taken by anybody, and it never gets longer. */
  lemma NothingStopsRescue(start: State, log: seq<Entry>, id: Address)
    requires Inv(start) && Rescuable(start, id) && IsLog(start, log)
    requires forall k :: 0 <= k < |log| ==> Harmless(start, log[k], id)
    ensures Inv(Last(start, log)) && StillOpen(start, Last(start, log), id)
  {
    LogKeeps(start, log);
    HarmlessSoFar(start, log, |log|, id);
    assert log[..|log|] == log;
  }

  lemma AnybodyRescuesLater(start: State, log: seq<Entry>, id: Address, anybody: Address) returns (rescue: seq<Entry>)
    requires Reachable(start) && Rescuable(start, id) && IsLog(start, log) && CanSign(anybody)
    requires forall k :: 0 <= k < |log| ==> Harmless(start, log[k], id)
    ensures |rescue| <= SidesIn(start.wagers[id]) + 1 <= 3 && IsLog(start, log + rescue)
            && IsRescue(rescue, id, anybody)
    ensures Rescued(Last(start, log), Last(start, log + rescue), id)
  {
    ReachableSound(start);
    NothingStopsRescue(start, log, id);
    rescue := Rescue(Last(start, log), id, anybody);
    LogsJoin(start, log, rescue);
  }
}
