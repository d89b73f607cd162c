/** The cached aggregates: what they say in every reachable state, and that no update of them ever clamps. */
module Books {
  import opened Types
  import opened Tokens
  import opened Accounts
  import opened Handlers
  import opened Steps
  import opened Invariant
  import opened Exits
  import opened Preservation

  /** The accumulator is the sum over live wagers of stake times the sides in; each wallet's counter, absent
      meaning zero, is the number of live sides it has in; and every side in has a counter account. */
  lemma BooksAreExact(s: State)
    requires Reachable(s)
    ensures s.config.totalOpenValue == TotalOpen(s.wagers)
    ensures forall wallet :: Count(s.counters, wallet) == Held(s.wagers, wallet)
    ensures forall id, side ::
              id in s.wagers && s.wagers[id].Holds(side) ==> side in s.counters && 1 <= s.counters[side]
  {
    ReachableSound(s);
    forall id, side | id in s.wagers && s.wagers[id].Holds(side) ensures side in s.counters && 1 <= s.counters[side] {
      SideIsCovered(s, id, side);
    }
  }

  function OutstandingAt(s: State, id: Address): nat { if id in s.wagers then s.wagers[id].Outstanding() else 0 }

  function HeldAt(s: State, id: Address, wallet: Address): nat {
    if id in s.wagers then s.wagers[id].HeldBy(wallet) else 0
  }

  predicate IsExit(step: Step) {
    step.UnstakeSideIx? || step.RefundSideIx? || step.ResolveIx? || step.ConcedeIx? || step.CancelAcceptIx?
      || step.CloseExpiredIx?
  }

  /** From s to s' the books release exactly what wager id gives up. */
  ghost predicate ReleasesExactly(s: State, s': State, id: Address) {
    && s'.config.totalOpenValue == s.config.totalOpenValue - OutstandingAt(s, id) + OutstandingAt(s', id)
    && forall wallet :: Count(s'.counters, wallet)
         == Count(s.counters, wallet) - HeldAt(s, id, wallet) + HeldAt(s', id, wallet)
  }

  lemma SideReleasesExactly(s: State, s': State, id: Address, w: Wager, side: Address)
    requires id in s.wagers && WentHome(s, s', id, w, side)
    requires w.Outstanding() == s.wagers[id].Outstanding() - w.stake
    requires forall k :: w.HeldBy(k) == s.wagers[id].HeldBy(k) - (if k == side then 1 else 0)
    ensures ReleasesExactly(s, s', id)
  {
  }

  lemma BothReleaseExactly(s: State, s': State, id: Address)
    requires Ready(s, id) && BothReleased(s, s', id)
    ensures ReleasesExactly(s, s', id)
  {
  }

  lemma UnstakeNeverClamps(s: State, staker: Address, id: Address)
    requires Inv(s) && UnstakeSide(s, staker, id).Ok?
    ensures ReleasesExactly(s, UnstakeSide(s, staker, id).value, id)
  {
    UnstakeSideExactly(s, staker, id);
    assert WagerSound(s.config.mint, s.now, id, s.wagers[id]);
    SideReleasesExactly(s, UnstakeSide(s, staker, id).value, id, Unstaked(s.wagers[id], staker), staker);
  }

  lemma RefundNeverClamps(s: State, id: Address, side: Address)
    requires Inv(s) && RefundSide(s, id, side).Ok?
    ensures ReleasesExactly(s, RefundSide(s, id, side).value, id)
  {
    RefundSideExactly(s, id, side);
    assert WagerSound(s.config.mint, s.now, id, s.wagers[id]);
    SideReleasesExactly(s, RefundSide(s, id, side).value, id, Refunded(s.wagers[id], side), side);
  }

  lemma CloseReleasesNothing(s: State, s': State, id: Address)
    requires Reclaimed(s, s', id) && s.wagers[id].FullyExited()
    ensures ReleasesExactly(s, s', id)
  {
  }

  lemma CloseNeverClamps(s: State, id: Address, feeToken: Option<Address>)
    requires Inv(s) && CloseExpired(s, id, feeToken).Ok?
    ensures ReleasesExactly(s, CloseExpired(s, id, feeToken).value, id)
  {
    CloseExpiredExactly(s, id, feeToken);
    CloseReleasesNothing(s, CloseExpired(s, id, feeToken).value, id);
  }

  lemma BothNeverClamp(s: State, s': State, id: Address)
    requires Inv(s) && ActiveInTime(s, id) && BothReleased(s, s', id)
    ensures ReleasesExactly(s, s', id)
  {
    ActiveInTimeIsReady(s, id);
    BothReleaseExactly(s, s', id);
  }

  lemma ResolveNeverClamps(s: State, resolver: Address, id: Address, winnerAccount: Address, winner: Address)
    requires Inv(s) && Resolve(s, resolver, id, winnerAccount, winner).Ok?
    ensures ReleasesExactly(s, Resolve(s, resolver, id, winnerAccount, winner).value, id)
  {
    ResolveExactly(s, resolver, id, winnerAccount, winner);
    BothNeverClamp(s, Resolve(s, resolver, id, winnerAccount, winner).value, id);
  }

  lemma ConcedeNeverClamps(s: State, conceder: Address, id: Address, winner: Address)
    requires Inv(s) && Concede(s, conceder, id, winner).Ok?
    ensures ReleasesExactly(s, Concede(s, conceder, id, winner).value, id)
  {
    ConcedeExactly(s, conceder, id, winner);
    BothNeverClamp(s, Concede(s, conceder, id, winner).value, id);
  }

  lemma CancelNeverClamps(s: State, acceptor: Address, id: Address)
    requires Inv(s) && CancelAccept(s, acceptor, id).Ok?
    ensures ReleasesExactly(s, CancelAccept(s, acceptor, id).value, id)
  {
    CancelAcceptExactly(s, acceptor, id);
    BothNeverClamp(s, CancelAccept(s, acceptor, id).value, id);
  }

  /** Although every decrement in the program saturates, none ever clamps in a reachable state. */
  lemma ExitsNeverClamp(s: State, step: Step)
    requires Reachable(s) && IsExit(step) && Apply(s, step).Ok?
    ensures ReleasesExactly(s, Apply(s, step).value, step.id)
  {
    ReachableSound(s);
    match step
    case UnstakeSideIx(staker, id) => UnstakeNeverClamps(s, staker, id);
    case RefundSideIx(_, id, side) => RefundNeverClamps(s, id, side);
    case ResolveIx(resolver, id, winnerAccount, winner) => ResolveNeverClamps(s, resolver, id, winnerAccount, winner);
    case ConcedeIx(conceder, id, winnerAccount) => ConcedeNeverClamps(s, conceder, id, winnerAccount);
    case CancelAcceptIx(acceptor, id) => CancelNeverClamps(s, acceptor, id);
    case CloseExpiredIx(_, id, feeToken) => CloseNeverClamps(s, id, feeToken);
  }

  // ---- the flags the exits do not read ----

  lemma AcceptedBeforeDeadline(s: State, step: Step)
    requires Apply(s, step).Ok?
    requires step.UnstakeSideIx? || step.ResolveIx? || step.ConcedeIx? || step.CancelAcceptIx?
    ensures step.id in s.wagers && !s.wagers[step.id].Due(s.now)
    ensures !step.UnstakeSideIx? ==> s.wagers[step.id].state == Active
  {
  }

  /** unstake, resolve, concede and cancel_accept look at deadlines only. Because time does not run back,
      a wager they accept has had neither side refunded. */
  lemma TimeStandsForFlags(s: State, step: Step)
    requires Reachable(s) && Apply(s, step).Ok?
    requires step.UnstakeSideIx? || step.ResolveIx? || step.ConcedeIx? || step.CancelAcceptIx?
    ensures step.id in s.wagers && !s.wagers[step.id].refundedA && !s.wagers[step.id].refundedB
    ensures !step.UnstakeSideIx? ==> s.wagers[step.id].Outstanding() == 2 * s.wagers[step.id].stake
  {
    ReachableSound(s);
    AcceptedBeforeDeadline(s, step);
    assert WagerSound(s.config.mint, s.now, step.id, s.wagers[step.id]);
  }

  /** Every live wager is Funding or Active, and Active exactly when both sides are funded. */
  lemma StatesOfLiveWagers(s: State, id: Address)
    requires Reachable(s) && id in s.wagers
    ensures var w := s.wagers[id];
            && (w.state == Funding || w.state == Active)
            && (w.state == Active <==> w.fundedA && w.fundedB)
            && (w.refundedA ==> w.fundedA) && (w.refundedB ==> w.fundedB)
            && (w.refundedA || w.refundedB ==> s.now > if w.state == Active then w.deadlineResolve else w.deadlineFund)
            && IsAta(s.tokens, id, w.mint) && w.Outstanding() <= s.tokens[Vault(id, w)].amount
  {
    ReachableSound(s);
    assert WagerSound(s.config.mint, s.now, id, s.wagers[id]) && VaultSound(s.tokens, id, s.wagers[id]);
  }

  // ---- the circuit breaker ----

  /** The largest maxTotalOpen in force so far. */
  function LargestCap(s: State, steps: seq<Step>): nat
    decreases |steps|
  {
    if steps == [] then s.config.maxTotalOpen
    else
      var before, now := LargestCap(s, steps[..|steps| - 1]), Run(s, steps).config.maxTotalOpen;
      if before < now then now else before
  }

  lemma OnlyStakesRaise(s: State, step: Step)
    requires !step.StakeSideIx?
    ensures Next(s, step).config.totalOpenValue <= s.config.totalOpenValue
  {
    if IsExit(step) { ExitsOnlyLower(s, step); }
    else if step.CreateWagerIx? { CreateWagerExactly(s, step.args); }
  }

  lemma ExitsOnlyLower(s: State, step: Step)
    requires IsExit(step)
    ensures Next(s, step).config.totalOpenValue <= s.config.totalOpenValue
  {
    if step.ResolveIx? || step.ConcedeIx? || step.CancelAcceptIx? { SettlementsOnlyLower(s, step); }
  }

  lemma SettlementsOnlyLower(s: State, step: Step)
    requires step.ResolveIx? || step.ConcedeIx? || step.CancelAcceptIx?
    ensures Next(s, step).config.totalOpenValue <= s.config.totalOpenValue
  {
  }

  /** A step that raises the accumulator ends within the cap in force. */
  lemma RaisesStayWithinCap(s: State, step: Step)
    ensures var s' := Next(s, step);
            s'.config.totalOpenValue <= s.config.totalOpenValue || s'.config.totalOpenValue <= s'.config.maxTotalOpen
  {
    if step.StakeSideIx? { StakeSideExactly(s, step.staker, step.id, step.stakerToken); }
    else { OnlyStakesRaise(s, step); }
  }

  lemma {:induction false} OpenValueWithinLargestCap(s: State, authority: Address, args: InitializeConfigArgs,
                                                     steps: seq<Step>)
    requires IsGenesis(s, authority, args)
    ensures Run(s, steps).config.totalOpenValue <= LargestCap(s, steps)
    decreases |steps|
  {
    if steps != [] {
      var front := steps[..|steps| - 1];
      OpenValueWithinLargestCap(s, authority, args, front);
      RaisesStayWithinCap(Run(s, front), steps[|steps| - 1]);
    }
  }
}
