/** Once every live wager is past the deadline of its state, anybody can empty the escrow, the work is finite, and
    every order of doing it ends in the same ledger. */
module Drain {
  import opened Types
  import opened Sums
  import opened Tokens
  import opened Accounts
  import opened Handlers
  import opened Steps
  import opened History
  import opened Invariant
  import opened Exits
  import opened Preservation
  import opened Shapes

  predicate IsDrain(step: Step) { step.RefundSideIx? || step.CloseExpiredIx? || step.CancelClearIx? }

  /** Every live wager is past the deadline that ends it in its current state: the funding deadline if it never
      locked, the resolve deadline if it did. */
  predicate AllOver(s: State) { forall id <- s.wagers :: s.wagers[id].Due(s.now) }

  predicate IsLiveVault(s: State, a: Address) {
    a.AtaOf? && a.owner in s.wagers && s.wagers[a.owner].mint == a.mint
  }

  /** Nothing outside the program stands in this wager's way: accounts exist and are not frozen, and the pinned
      destinations are not the program's own accounts. */
  predicate Unblocked(s: State, id: Address, w: Wager) {
    && (w.Holds(w.sideA) ==> Usable(s.tokens, w.sideA, w.mint))
    && (w.Holds(w.sideB) ==> Usable(s.tokens, w.sideB, w.mint))
    && IsAta(s.tokens, id, w.mint) && !s.tokens[Vault(id, w)].frozen
    && w.rentCollector != id && w.rentCollector != Vault(id, w)
    && !IsLiveVault(s, w.feeDestination)
    && (w.Outstanding() < s.tokens[Vault(id, w)].amount ==> Receives(s.tokens, w.feeDestination, w.mint))
  }

  predicate Unobstructed(s: State) { forall id <- s.wagers :: Unblocked(s, id, s.wagers[id]) }

  // ---- the work left ----

  function WorkOf(w: Wager): nat {
    (if w.fundedA && !w.refundedA then 1 else 0) + (if w.fundedB && !w.refundedB then 1 else 0)
    + (if w.cancelProposedBy != DEFAULT then 1 else 0) + 1
  }

  ghost function WorkFn(): (Address, Wager) -> int { (id, w: Wager) => WorkOf(w) }

  /** Over live wagers: sides in, open proposals, and one close each. */
  ghost function Work(s: State): int { SumOver(s.wagers, WorkFn()) }

  lemma WorkIsNatural(s: State)
    ensures 0 <= Work(s)
  {
    SumOverNonNegative(s.wagers, WorkFn());
  }

  lemma RefundShrinks(s: State, id: Address, side: Address)
    requires Inv(s) && RefundSide(s, id, side).Ok?
    ensures Work(RefundSide(s, id, side).value) == Work(s) - 1
  {
    RefundSideExactly(s, id, side);
    assert WagerSound(s.config.mint, s.now, id, s.wagers[id]);
    SumOverUpdate(s.wagers, WorkFn(), id, Refunded(s.wagers[id], side));
  }

  lemma CloseShrinks(s: State, id: Address, feeToken: Option<Address>)
    requires Inv(s) && CloseExpired(s, id, feeToken).Ok?
    ensures Work(CloseExpired(s, id, feeToken).value) < Work(s)
  {
    CloseExpiredExactly(s, id, feeToken);
    SumOverRemove(s.wagers, WorkFn(), id);
  }

  lemma ClearShrinks(s: State, participant: Address, id: Address)
    requires CancelClear(s, participant, id).Ok?
    ensures Work(CancelClear(s, participant, id).value) == Work(s) - 1
  {
    SumOverUpdate(s.wagers, WorkFn(), id, s.wagers[id].(cancelProposedBy := DEFAULT));
  }

  // ---- what everybody is entitled to ----

  /** What wager id still has for account a: a stake if a is a home of a side that is in, the surplus if a is
      the pinned fee account. */
  function DueTo(t: TokenMap, a: Address, id: Address, w: Wager): int {
    (if a == AtaOf(w.sideA, w.mint) && w.fundedA && !w.refundedA then w.stake else 0)
    + (if a == AtaOf(w.sideB, w.mint) && w.fundedB && !w.refundedB then w.stake else 0)
    + (if a == w.feeDestination then AmountAt(t, Vault(id, w)) - w.Outstanding() else 0)
  }

  ghost function DueFn(t: TokenMap, a: Address): (Address, Wager) -> int { (id, w: Wager) => DueTo(t, a, id, w) }

  ghost function Entitled(s: State, a: Address): int {
    AmountAt(s.tokens, a) + SumOver(s.wagers, DueFn(s.tokens, a))
  }

  /** From s to s' the drain has advanced: nobody's entitlement has changed, and nothing has changed but
      balances, progress flags, and wagers and vaults that are gone. */
  ghost predicate Advanced(s: State, s': State) {
    && s' == s.(config := s'.config, wagers := s'.wagers, counters := s'.counters, tokens := s'.tokens)
    && s'.config == s.config.(totalOpenValue := s'.config.totalOpenValue)
    && s'.counters.Keys == s.counters.Keys
    && (forall id <- s'.wagers :: id in s.wagers && SameTerms(s.wagers[id], s'.wagers[id]))
    && (forall a :: a in s'.tokens <==> a in s.tokens && (IsLiveVault(s, a) ==> IsLiveVault(s', a)))
    && (forall a <- s'.tokens :: s'.tokens[a] == s.tokens[a].(amount := s'.tokens[a].amount))
    && (forall a :: !IsLiveVault(s, a) ==> Entitled(s', a) == Entitled(s, a))
  }

  lemma AdvancedTransitive(s: State, m: State, s': State)
    requires Advanced(s, m) && Advanced(m, s')
    ensures Advanced(s, s')
  {
    forall a | !IsLiveVault(s, a) ensures Entitled(s', a) == Entitled(s, a) {
      assert !IsLiveVault(m, a);
      assert Entitled(m, a) == Entitled(s, a);
    }
  }

  lemma AdvancedReflexive(s: State)
    ensures Advanced(s, s)
  {
  }

  /** Two token maps that agree on every vault but one owe the same for all the other wagers. */
  lemma OthersOweTheSame(wagers: map<Address, Wager>, t: TokenMap, t': TokenMap, id: Address, a: Address)
    requires forall j <- wagers :: j != id ==> AmountAt(t, Vault(j, wagers[j])) == AmountAt(t', Vault(j, wagers[j]))
    ensures SumOver(wagers - {id}, DueFn(t, a)) == SumOver(wagers - {id}, DueFn(t', a))
  {
    SumOverSame(wagers - {id}, DueFn(t, a), DueFn(t', a));
  }

  /** A refund pays out of what was due, so the side's entitlement stays, as everybody else's does. */
  lemma RefundKeepsEntitlement(s: State, s': State, id: Address, side: Address, a: Address)
    requires DerivedKeys(s.wagers) && id in s.wagers && s.wagers[id].Holds(side) && CanSign(side)
    requires s.wagers[id].sideA != s.wagers[id].sideB
    requires WentHome(s, s', id, Refunded(s.wagers[id], side), side)
    requires !IsLiveVault(s, a)
    ensures Entitled(s', a) == Entitled(s, a)
  {
    var w, w' := s.wagers[id], Refunded(s.wagers[id], side);
    SumOverRemove(s.wagers, DueFn(s.tokens, a), id);
    SumOverRemove(s'.wagers, DueFn(s'.tokens, a), id);
    assert s'.wagers - {id} == s.wagers - {id};
    OthersOweTheSame(s.wagers, s.tokens, s'.tokens, id, a);
  }

  lemma RefundAdvances(s: State, id: Address, side: Address)
    requires Inv(s) && RefundSide(s, id, side).Ok?
    ensures Advanced(s, RefundSide(s, id, side).value)
  {
    RefundSideExactly(s, id, side);
    SideIsCovered(s, id, side);
    LiveKeysAreDerived(s);
    RefundShapeAdvances(s, RefundSide(s, id, side).value, id, side);
  }

  lemma RefundShapeAdvances(s: State, s': State, id: Address, side: Address)
    requires DerivedKeys(s.wagers) && id in s.wagers && s.wagers[id].Holds(side) && CanSign(side)
    requires s.wagers[id].sideA != s.wagers[id].sideB
    requires WentHome(s, s', id, Refunded(s.wagers[id], side), side)
    ensures Advanced(s, s')
  {
    forall a | !IsLiveVault(s, a) ensures Entitled(s', a) == Entitled(s, a) {
      RefundKeepsEntitlement(s, s', id, side, a);
    }
  }

  /** A close hands the fee account what was due to it. */
  lemma CloseKeepsEntitlement(s: State, s': State, id: Address, a: Address)
    requires DerivedKeys(s.wagers) && Reclaimed(s, s', id) && s.wagers[id].FullyExited()
    requires !IsLiveVault(s, s.wagers[id].feeDestination) && !IsLiveVault(s, a)
    ensures Entitled(s', a) == Entitled(s, a)
  {
    var w := s.wagers[id];
    SumOverRemove(s.wagers, DueFn(s.tokens, a), id);
    OthersOweTheSame(s.wagers, s.tokens, s'.tokens, id, a);
  }

  lemma CloseShapeAdvances(s: State, s': State, id: Address)
    requires DerivedKeys(s.wagers) && Reclaimed(s, s', id) && s.wagers[id].FullyExited()
    requires !IsLiveVault(s, s.wagers[id].feeDestination)
    ensures Advanced(s, s')
  {
    forall a | !IsLiveVault(s, a) ensures Entitled(s', a) == Entitled(s, a) {
      CloseKeepsEntitlement(s, s', id, a);
    }
    assert IsLiveVault(s, Vault(id, s.wagers[id]));
  }

  lemma CloseAdvances(s: State, id: Address, feeToken: Option<Address>)
    requires Inv(s) && Unobstructed(s) && CloseExpired(s, id, feeToken).Ok?
    ensures Advanced(s, CloseExpired(s, id, feeToken).value)
  {
    CloseExpiredExactly(s, id, feeToken);
    LiveKeysAreDerived(s);
    CloseShapeAdvances(s, CloseExpired(s, id, feeToken).value, id);
  }

  lemma ClearAdvances(s: State, participant: Address, id: Address)
    requires CancelClear(s, participant, id).Ok?
    ensures Advanced(s, CancelClear(s, participant, id).value)
  {
    var s' := CancelClear(s, participant, id).value;
    forall a | !IsLiveVault(s, a) ensures Entitled(s', a) == Entitled(s, a) {
      SumOverUpdate(s.wagers, DueFn(s.tokens, a), id, s.wagers[id].(cancelProposedBy := DEFAULT));
    }
  }

  // ---- one step ----

  /** Same accounts as before, up to balances. */
  predicate SameAccounts(t: TokenMap, t': TokenMap) {
    t'.Keys == t.Keys && forall a <- t :: t'[a] == t[a].(amount := t'[a].amount)
  }

  lemma UnblockedElsewhere(s: State, s': State, id: Address, w: Wager, w': Wager)
    requires Unblocked(s, id, w) && SameAccounts(s.tokens, s'.tokens) && SameTerms(w, w')
    requires (w'.Holds(w.sideA) ==> w.Holds(w.sideA)) && (w'.Holds(w.sideB) ==> w.Holds(w.sideB))
    requires forall a :: IsLiveVault(s', a) == IsLiveVault(s, a)
    requires AmountAt(s'.tokens, Vault(id, w)) - w'.Outstanding() == AmountAt(s.tokens, Vault(id, w)) - w.Outstanding()
    ensures Unblocked(s', id, w')
  {
  }

  lemma RefundStaysUnblocked(s: State, s': State, id: Address, side: Address, j: Address)
    requires id.WagerPda? && j.WagerPda? && id in s.wagers && s.wagers[id].Holds(side) && CanSign(side)
    requires s.wagers[id].sideA != s.wagers[id].sideB
    requires WentHome(s, s', id, Refunded(s.wagers[id], side), side)
    requires j in s.wagers && Unblocked(s, j, s.wagers[j])
    ensures Unblocked(s', j, s'.wagers[j])
  {
    UnblockedElsewhere(s, s', j, s.wagers[j], s'.wagers[j]);
  }

  lemma RefundStaysUnobstructed(s: State, s': State, id: Address, side: Address)
    requires DerivedKeys(s.wagers) && Unobstructed(s) && id in s.wagers && s.wagers[id].Holds(side) && CanSign(side)
    requires s.wagers[id].sideA != s.wagers[id].sideB
    requires WentHome(s, s', id, Refunded(s.wagers[id], side), side)
    ensures Unobstructed(s')
  {
    forall j <- s'.wagers ensures Unblocked(s', j, s'.wagers[j]) {
      assert Unblocked(s, j, s.wagers[j]);
      RefundStaysUnblocked(s, s', id, side, j);
    }
  }

  lemma CloseStaysUnblocked(s: State, s': State, id: Address, j: Address)
    requires Unobstructed(s) && Reclaimed(s, s', id) && j in s'.wagers && DerivedKeys(s.wagers)
    requires s.wagers[j].Holds(s.wagers[j].sideA) ==> CanSign(s.wagers[j].sideA)
    requires s.wagers[j].Holds(s.wagers[j].sideB) ==> CanSign(s.wagers[j].sideB)
    ensures Unblocked(s', j, s'.wagers[j])
  {
    var vault := Vault(id, s.wagers[id]);
    assert IsLiveVault(s, vault) && IsLiveVault(s, Vault(j, s.wagers[j]));
    assert Unblocked(s, j, s.wagers[j]) && Unblocked(s, id, s.wagers[id]);
    assert forall a <- s.tokens ::
             a != vault ==> a in s'.tokens && s'.tokens[a] == s.tokens[a].(amount := s'.tokens[a].amount);
  }

  lemma CloseStaysUnobstructed(s: State, s': State, id: Address)
    requires WagersSound(s) && Unobstructed(s) && Reclaimed(s, s', id)
    ensures Unobstructed(s')
  {
    LiveKeysAreDerived(s);
    forall j <- s'.wagers ensures Unblocked(s', j, s'.wagers[j]) {
      assert WagerSound(s.config.mint, s.now, j, s.wagers[j]);
      CloseStaysUnblocked(s, s', id, j);
    }
  }

  lemma ClearStaysUnobstructed(s: State, participant: Address, id: Address)
    requires Unobstructed(s) && CancelClear(s, participant, id).Ok?
    ensures Unobstructed(CancelClear(s, participant, id).value)
  {
    var s' := CancelClear(s, participant, id).value;
    assert forall a :: IsLiveVault(s', a) == IsLiveVault(s, a);
    forall j <- s'.wagers ensures Unblocked(s', j, s'.wagers[j]) {
      UnblockedElsewhere(s, s', j, s.wagers[j], s'.wagers[j]);
    }
  }

  /** A sound ledger in which every wager is over and nothing is in the way. */
  ghost predicate Drainable(s: State) { Inv(s) && AllOver(s) && Unobstructed(s) }

  lemma RefundDrains(s: State, id: Address, side: Address)
    requires Drainable(s) && RefundSide(s, id, side).Ok?
    ensures var s' := RefundSide(s, id, side).value; Drainable(s') && Advanced(s, s') && Work(s') < Work(s)
  {
    RefundSideExactly(s, id, side);
    SideIsCovered(s, id, side);
    RefundSideKeeps(s, id, side);
    RefundAdvances(s, id, side);
    RefundShrinks(s, id, side);
    LiveKeysAreDerived(s);
    RefundStaysUnobstructed(s, RefundSide(s, id, side).value, id, side);
  }

  lemma CloseDrains(s: State, id: Address, feeToken: Option<Address>)
    requires Drainable(s) && CloseExpired(s, id, feeToken).Ok?
    ensures var s' := CloseExpired(s, id, feeToken).value; Drainable(s') && Advanced(s, s') && Work(s') < Work(s)
  {
    CloseExpiredExactly(s, id, feeToken);
    CloseExpiredKeeps(s, id, feeToken);
    CloseAdvances(s, id, feeToken);
    CloseShrinks(s, id, feeToken);
    CloseStaysUnobstructed(s, CloseExpired(s, id, feeToken).value, id);
  }

  lemma ClearStaysOver(s: State, participant: Address, id: Address)
    requires AllOver(s) && CancelClear(s, participant, id).Ok?
    ensures AllOver(CancelClear(s, participant, id).value)
  {
    var s' := CancelClear(s, participant, id).value;
    forall j <- s'.wagers ensures s'.wagers[j].Due(s'.now) { assert s.wagers[j].Due(s.now); }
  }

  lemma ClearDrains(s: State, participant: Address, id: Address)
    requires Drainable(s) && CancelClear(s, participant, id).Ok?
    ensures var s' := CancelClear(s, participant, id).value; Drainable(s') && Advanced(s, s') && Work(s') < Work(s)
  {
    ProposalKeeps(s, id, DEFAULT);
    ClearStaysOver(s, participant, id);
    ClearAdvances(s, participant, id);
    ClearShrinks(s, participant, id);
    ClearStaysUnobstructed(s, participant, id);
  }

  lemma DrainStep(s: State, step: Step, s': State)
    requires Drainable(s) && IsDrain(step) && Apply(s, step) == Ok(s')
    ensures Drainable(s') && Advanced(s, s') && Work(s') < Work(s)
  {
    if step.RefundSideIx? { RefundDrains(s, step.id, step.side); }
    else if step.CloseExpiredIx? { CloseDrains(s, step.id, step.feeToken); }
    else { ClearDrains(s, step.participant, step.id); }
  }

  // ---- all orders ----

  /** A drain: a log of successful refunds, closes and clears. */
  predicate IsDrainLog(log: seq<Entry>) { forall k :: 0 <= k < |log| ==> log[k].ok && IsDrain(log[k].step) }

  lemma DrainEntry(e: Entry)
    requires Faithful(e) && e.ok && IsDrain(e.step) && Drainable(e.before)
    ensures Drainable(e.after) && Advanced(e.before, e.after) && Work(e.after) < Work(e.before)
  {
    DrainStep(e.before, e.step, e.after);
  }

  lemma {:induction false} DrainAdvances(start: State, log: seq<Entry>)
    requires Drainable(start) && IsLog(start, log) && IsDrainLog(log)
    ensures Drainable(Last(start, log)) && Advanced(start, Last(start, log))
    ensures |log| + Work(Last(start, log)) <= Work(start)
    decreases |log|
  {
    if log == [] { AdvancedReflexive(start); }
    else {
      var n := |log| - 1;
      LogOfFront(start, log);
      DrainAdvances(start, log[..n]);
      DrainEntry(log[n]);
      AdvancedTransitive(start, log[n].before, log[n].after);
    }
  }

  /** No drain step, by any signer, succeeds. */
  ghost predicate Stuck(s: State) { forall step :: IsDrain(step) ==> Apply(s, step).Err? }

  function SweepTo(s: State, id: Address, w: Wager): Option<Address> {
    if AmountAt(s.tokens, Vault(id, w)) > 0 then Some(w.feeDestination) else None
  }

  lemma OverMeansDue(s: State, id: Address)
    requires WagersSound(s) && AllOver(s) && id in s.wagers
    ensures s.wagers[id].Due(s.now) && id.WagerPda? && VaultSound(s.tokens, id, s.wagers[id])
  {
    assert WagerSound(s.config.mint, s.now, id, s.wagers[id]) && VaultSound(s.tokens, id, s.wagers[id]);
  }

  lemma RefundIsOpen(s: State, id: Address, side: Address)
    requires Drainable(s) && id in s.wagers && s.wagers[id].Holds(side)
    ensures RefundSide(s, id, side).Ok?
  {
    OverMeansDue(s, id);
    assert Unblocked(s, id, s.wagers[id]);
    RefundSideExactly(s, id, side);
  }

  lemma CloseIsOpen(s: State, id: Address)
    requires Drainable(s) && id in s.wagers && s.wagers[id].FullyExited()
    ensures CloseExpired(s, id, SweepTo(s, id, s.wagers[id])).Ok?
  {
    OverMeansDue(s, id);
    assert Unblocked(s, id, s.wagers[id]) && IsLiveVault(s, Vault(id, s.wagers[id]));
    CloseExpiredExactly(s, id, SweepTo(s, id, s.wagers[id]));
  }

  /** Neither a refund nor a close asks who signs. */
  lemma AnybodySigns(s: State, anybody: Address, id: Address, side: Address, feeToken: Option<Address>)
    requires CanSign(anybody)
    ensures Apply(s, RefundSideIx(anybody, id, side)) == RefundSide(s, id, side)
    ensures Apply(s, CloseExpiredIx(anybody, id, feeToken)) == CloseExpired(s, id, feeToken)
  {
  }

  /** As long as a wager is left, anybody at all has a step to take. */
  lemma SomebodyCanStep(s: State, anybody: Address) returns (step: Step)
    requires Drainable(s) && s.wagers != map[] && CanSign(anybody)
    ensures IsDrain(step) && Signer(step) == Some(anybody) && Apply(s, step).Ok?
  {
    var id :| id in s.wagers;
    step := WagerCanStep(s, id, anybody);
  }

  lemma WagerCanStep(s: State, id: Address, anybody: Address) returns (step: Step)
    requires Drainable(s) && id in s.wagers && CanSign(anybody)
    ensures (step.RefundSideIx? || step.CloseExpiredIx?) && Signer(step) == Some(anybody) && Apply(s, step).Ok?
  {
    var w := s.wagers[id];
    var side := if w.Holds(w.sideA) then w.sideA else w.sideB;
    if w.FullyExited() { CloseIsOpen(s, id); } else { RefundIsOpen(s, id, side); }
    step := StepOn(s, id, w, anybody, side);
  }

  lemma StepOn(s: State, id: Address, w: Wager, anybody: Address, side: Address) returns (step: Step)
    requires CanSign(anybody) && (CloseExpired(s, id, SweepTo(s, id, w)).Ok? || RefundSide(s, id, side).Ok?)
    ensures (step.RefundSideIx? || step.CloseExpiredIx?) && Signer(step) == Some(anybody) && Apply(s, step).Ok?
  {
    AnybodySigns(s, anybody, id, side, SweepTo(s, id, w));
    if RefundSide(s, id, side).Ok? { step := RefundSideIx(anybody, id, side); }
    else { step := CloseExpiredIx(anybody, id, SweepTo(s, id, w)); }
  }

  /** The drained ledger: no wagers, empty books, no vaults, and every other account holding all it was owed. */
  ghost predicate Drained(s: State, f: State) {
    && f == s.(config := f.config, wagers := map[], counters := f.counters, tokens := f.tokens)
    && f.config == s.config.(totalOpenValue := 0)
    && f.counters == (map wallet | wallet in s.counters :: 0)
    && (forall a :: a in f.tokens <==> a in s.tokens && !IsLiveVault(s, a))
    && (forall a <- f.tokens ::
          f.tokens[a] == s.tokens[a].(amount := f.tokens[a].amount) && f.tokens[a].amount == Entitled(s, a))
  }

  lemma DrainedIsUnique(s: State, f: State, g: State)
    requires Drained(s, f) && Drained(s, g)
    ensures f == g
  {
    assert f.tokens.Keys == g.tokens.Keys;
    assert forall a <- f.tokens :: f.tokens[a] == g.tokens[a];
  }

  lemma EmptyIsDrained(s: State, f: State)
    requires Inv(f) && Advanced(s, f) && f.wagers == map[]
    ensures Drained(s, f)
  {
    forall wallet <- f.counters ensures f.counters[wallet] == 0 {
      assert Count(f.counters, wallet) == Held(f.wagers, wallet) == 0;
    }
    assert f.config.totalOpenValue == TotalOpen(f.wagers) == 0;
    forall a <- f.tokens ensures f.tokens[a].amount == Entitled(s, a) && !IsLiveVault(s, a) {
      assert !IsLiveVault(f, a);
      assert Entitled(f, a) == f.tokens[a].amount;
    }
  }

  /** Termination and confluence. From a reachable ledger in which every wager is over and nothing obstructs,
      a drain in any order, by any signers, takes at most Work steps, and one that cannot go on has reached
      the one drained ledger. */
  lemma EveryDrainEndsTheSame(start: State, log: seq<Entry>)
    requires Reachable(start) && AllOver(start) && Unobstructed(start)
    requires IsLog(start, log) && IsDrainLog(log)
    ensures |log| <= Work(start)
    ensures Stuck(Last(start, log)) <==> Last(start, log).wagers == map[]
    ensures Stuck(Last(start, log)) ==> Drained(start, Last(start, log))
  {
    ReachableSound(start);
    DrainAdvances(start, log);
    var f := Last(start, log);
    WorkIsNatural(f);
    if f.wagers != map[] {
      var step := SomebodyCanStep(f, Key(1));
    } else {
      EmptyIsDrained(start, f);
      EmptyIsStuck(f);
    }
  }

  lemma EmptyIsStuck(s: State)
    requires s.wagers == map[]
    ensures Stuck(s)
  {
    forall step | IsDrain(step) ensures Apply(s, step).Err? {
    }
  }

  lemma ExtendLog(start: State, log: seq<Entry>, step: Step) returns (longer: seq<Entry>)
    requires IsLog(start, log) && IsDrainLog(log) && IsDrain(step) && Apply(Last(start, log), step).Ok?
    ensures IsLog(start, longer) && IsDrainLog(longer) && |longer| == |log| + 1
    ensures Last(start, longer) == Apply(Last(start, log), step).value
  {
    var s := Last(start, log);
    var e := Entry(s, step, true, Next(s, step));
    longer := log + [e];
    forall k | 0 <= k < |longer| ensures Faithful(longer[k]) {
      if k < |log| { assert Faithful(log[k]); assert longer[k] == log[k]; }
    }
  }

  /** And a drain by one signer of no standing does reach it. */
  lemma {:induction false} AnybodyCanDrain(start: State, log: seq<Entry>, anybody: Address) returns (whole: seq<Entry>)
    requires Drainable(start) && IsLog(start, log) && IsDrainLog(log) && CanSign(anybody)
    ensures IsLog(start, whole) && IsDrainLog(whole) && Drained(start, Last(start, whole))
    decreases Work(Last(start, log))
  {
    DrainAdvances(start, log);
    var s := Last(start, log);
    WorkIsNatural(s);
    if s.wagers == map[] {
      EmptyIsDrained(start, s);
      whole := log;
    } else {
      var step := SomebodyCanStep(s, anybody);
      DrainStep(s, step, Next(s, step));
      var longer := ExtendLog(start, log, step);
      whole := AnybodyCanDrain(start, longer, anybody);
    }
  }
}
