/** One whole life of a wager, from create to close: what everybody put in and got out. */
module Payoff {
  import opened Types
  import opened Tokens
  import opened Accounts
  import opened Handlers
  import opened Steps
  import opened History
  import opened Invariant
  import opened Exits
  import opened Preservation
  import opened Books
  import opened Shapes
  import opened Consent

  // ---- accounts of a life ----

  function Delta(e: Entry, a: Address): int { AmountAt(e.after.tokens, a) - AmountAt(e.before.tokens, a) }

  predicate IsExitOf(step: Step, id: Address) { IsExit(step) && step.id == id }

  predicate IsStakeIn(step: Step, id: Address) { step.StakeSideIx? && step.id == id }

  function PutAt(e: Entry, id: Address, side: Address): int {
    if e.ok && IsStakeIn(e.step, id) && e.step.staker == side && id in e.before.wagers
    then e.before.wagers[id].stake else 0
  }

  /** What side has staked into wager id. */
  function Put(log: seq<Entry>, id: Address, side: Address): int
    decreases |log|
  {
    if log == [] then 0 else Put(log[..|log| - 1], id, side) + PutAt(log[|log| - 1], id, side)
  }

  /** By how much the exits of wager id, all together, have raised the balance of account a. */
  function Got(log: seq<Entry>, id: Address, a: Address): int
    decreases |log|
  {
    if log == [] then 0
    else
      var e := log[|log| - 1];
      Got(log[..|log| - 1], id, a) + if IsExitOf(e.step, id) then Delta(e, a) else 0
  }

  /** What has come into the vault of wager id other than by its stakes, and out other than by its exits. */
  function Donated(log: seq<Entry>, id: Address, vault: Address): int
    decreases |log|
  {
    if log == [] then 0
    else
      var e := log[|log| - 1];
      Donated(log[..|log| - 1], id, vault)
      + if IsExitOf(e.step, id) || IsStakeIn(e.step, id) then 0 else Delta(e, vault)
  }

  function InA(w: Wager): int { if w.fundedA && !w.refundedA then w.stake else 0 }
  function InB(w: Wager): int { if w.fundedB && !w.refundedB then w.stake else 0 }

  /** What account a has coming, when x goes to side A, y to side B and z to the fee account. */
  function Share(w: Wager, a: Address, x: int, y: int, z: int): int {
    (if a == AtaOf(w.sideA, w.mint) then x else 0) + (if a == AtaOf(w.sideB, w.mint) then y else 0)
    + (if a == w.feeDestination then z else 0)
  }

  // ---- one step ----

  /** A side comes in. */
  predicate EnteredVault(s: State, s': State, id: Address, staker: Address) {
    && id in s.wagers && id in s'.wagers
    && var w, w' := s.wagers[id], s'.wagers[id];
    && SameTerms(w, w') && w.sideA != w.sideB
    && AmountAt(s'.tokens, Vault(id, w)) == AmountAt(s.tokens, Vault(id, w)) + w.stake
    && (if staker == w.sideA then InA(w') == InA(w) + w.stake && InB(w') == InB(w)
        else staker == w.sideB && InA(w') == InA(w) && InB(w') == InB(w) + w.stake)
  }

  lemma StakeEnters(s: State, staker: Address, id: Address, source: Address)
    requires WagersSound(s) && StakeSide(s, staker, id, source).Ok?
    ensures EnteredVault(s, StakeSide(s, staker, id, source).value, id, staker)
  {
    StakeSideExactly(s, staker, id, source);
    assert WagerSound(s.config.mint, s.now, id, s.wagers[id]);
  }

  /** A side goes home: the stake leaves the vault for its home and no other account notices. */
  predicate LeftVault(s: State, s': State, id: Address, side: Address) {
    && id in s.wagers && id in s'.wagers
    && var w, w' := s.wagers[id], s'.wagers[id];
    && SameTerms(w, w') && w.sideA != w.sideB && CanSign(side) && id.WagerPda?
    && AmountAt(s'.tokens, Vault(id, w)) == AmountAt(s.tokens, Vault(id, w)) - w.stake
    && (if side == w.sideA then InA(w') == InA(w) - w.stake && InB(w') == InB(w)
        else side == w.sideB && InA(w') == InA(w) && InB(w') == InB(w) - w.stake)
    && (forall a <- s.tokens :: a != Vault(id, w) ==>
          AmountAt(s'.tokens, a) == s.tokens[a].amount + if a == AtaOf(side, w.mint) then w.stake else 0)
    && s'.tokens.Keys == s.tokens.Keys && AtaOf(side, w.mint) in s.tokens
  }

  lemma WentHomeLeft(s: State, s': State, id: Address, w: Wager, side: Address)
    requires WentHome(s, s', id, w, side) && id in s.wagers && s.wagers[id].Holds(side)
    requires w == Unstaked(s.wagers[id], side) || w == Refunded(s.wagers[id], side)
    requires w.sideA != w.sideB && CanSign(side) && id.WagerPda? && AtaOf(side, w.mint) != Vault(id, w)
    ensures LeftVault(s, s', id, side)
  {
  }

  lemma UnstakeLeaves(s: State, staker: Address, id: Address)
    requires Inv(s) && UnstakeSide(s, staker, id).Ok?
    ensures LeftVault(s, UnstakeSide(s, staker, id).value, id, staker)
  {
    UnstakeSideExactly(s, staker, id);
    SideIsCovered(s, id, staker);
    WentHomeLeft(s, UnstakeSide(s, staker, id).value, id, Unstaked(s.wagers[id], staker), staker);
  }

  lemma RefundLeaves(s: State, id: Address, side: Address)
    requires Inv(s) && RefundSide(s, id, side).Ok?
    ensures LeftVault(s, RefundSide(s, id, side).value, id, side)
  {
    RefundSideExactly(s, id, side);
    SideIsCovered(s, id, side);
    WentHomeLeft(s, RefundSide(s, id, side).value, id, Refunded(s.wagers[id], side), side);
  }

  lemma OthersKeepStakes(s: State, step: Step, id: Address)
    requires Apply(s, step).Ok? && !IsExitOf(step, id) && !IsStakeIn(step, id)
    requires id in s.wagers && id in Apply(s, step).value.wagers
    ensures var w' := Apply(s, step).value.wagers[id]; InA(w') == InA(s.wagers[id]) && InB(w') == InB(s.wagers[id])
  {
    if step.CreateWagerIx? { StepOpensOneWager(s, step); }
    else if IsAdmin(step) { AdminMovesToTwin(s, step); }
    else if IsOutside(step) { OutsideTouchesTokensAndTime(s, step); }
    else if step.CancelProposeIx? || step.CancelClearIx? { }
    else if EndsWager(step) { StepEndsOneWager(s, step); }
    else { StepReplacesOneWager(s, step); }
  }

  /** What one step of the life does to the accounts of the life. */
  ghost predicate EntryBalances(e: Entry, id: Address, a: Address)
    requires id in e.before.wagers && id in e.after.wagers
  {
    var w, w' := e.before.wagers[id], e.after.wagers[id];
    var touches := IsExitOf(e.step, id) || IsStakeIn(e.step, id);
    && SameTerms(w, w')
    && (touches ==> Delta(e, Vault(id, w)) == InA(w') + InB(w') - InA(w) - InB(w))
    && (!touches ==> InA(w') == InA(w) && InB(w') == InB(w))
    && (a != Vault(id, w) ==>
          (if IsExitOf(e.step, id) then Delta(e, a) else 0)
          == Share(w, a, PutAt(e, id, w.sideA) + InA(w) - InA(w'), PutAt(e, id, w.sideB) + InB(w) - InB(w'), 0))
  }

  lemma EnterBalances(e: Entry, id: Address, a: Address)
    requires e.ok && IsStakeIn(e.step, id) && EnteredVault(e.before, e.after, id, e.step.staker)
    ensures EntryBalances(e, id, a)
  {
  }

  lemma LeaveBalances(e: Entry, id: Address, side: Address, a: Address)
    requires e.ok && IsExitOf(e.step, id) && LeftVault(e.before, e.after, id, side)
    ensures EntryBalances(e, id, a)
  {
  }

  lemma StakeTouches(e: Entry, staker: Address, id: Address, source: Address, a: Address)
    requires e.ok && e.step == StakeSideIx(staker, id, source) && Execute(e.before, e.step) == Ok(e.after)
             && Inv(e.before)
    ensures id in e.before.wagers && id in e.after.wagers && EntryBalances(e, id, a)
  {
    StakeEnters(e.before, staker, id, source);
    EnterBalances(e, id, a);
  }

  lemma UnstakeTouches(e: Entry, staker: Address, id: Address, a: Address)
    requires e.ok && e.step == UnstakeSideIx(staker, id) && Execute(e.before, e.step) == Ok(e.after) && Inv(e.before)
    ensures id in e.before.wagers && id in e.after.wagers && EntryBalances(e, id, a)
  {
    UnstakeLeaves(e.before, staker, id);
    LeaveBalances(e, id, staker, a);
  }

  lemma RefundTouches(e: Entry, id: Address, side: Address, a: Address)
    requires e.ok && e.step.RefundSideIx? && e.step.id == id && e.step.side == side
    requires Execute(e.before, e.step) == Ok(e.after) && Inv(e.before)
    ensures id in e.before.wagers && id in e.after.wagers && EntryBalances(e, id, a)
  {
    RefundLeaves(e.before, id, side);
    LeaveBalances(e, id, side, a);
  }

  lemma TouchBalances(e: Entry, id: Address, a: Address)
    requires e.ok && Execute(e.before, e.step) == Ok(e.after) && Inv(e.before)
    requires e.step.StakeSideIx? || e.step.UnstakeSideIx? || e.step.RefundSideIx?
    requires e.step.id == id && id in e.before.wagers && id in e.after.wagers
    ensures EntryBalances(e, id, a)
  {
    if e.step.StakeSideIx? { StakeTouches(e, e.step.staker, id, e.step.stakerToken, a); }
    else if e.step.UnstakeSideIx? { UnstakeTouches(e, e.step.staker, id, a); }
    else { RefundTouches(e, id, e.step.side, a); }
  }

  lemma FailureBalances(e: Entry, id: Address, a: Address)
    requires !e.ok && e.after == e.before && id in e.before.wagers
    ensures EntryBalances(e, id, a)
  {
  }

  lemma EveryEntryBalances(e: Entry, id: Address, a: Address)
    requires Faithful(e) && Inv(e.before) && id in e.before.wagers && id in e.after.wagers
    ensures EntryBalances(e, id, a)
  {
    if !e.ok {
      FailureBalances(e, id, a);
    } else {
      if IsExitOf(e.step, id) || IsStakeIn(e.step, id) {
        if EndsWager(e.step) { StepEndsOneWager(e.before, e.step); }
        else { TouchBalances(e, id, a); }
      } else {
        TermsArePinned(e.before, e.step, id);
        OthersKeepStakes(e.before, e.step, id);
      }
    }
  }

  // ---- a life so far ----

  /** The log opens wager id with its first entry. */
  predicate OpensFirst(log: seq<Entry>, id: Address) {
    && log != [] && log[0].ok && log[0].step.CreateWagerIx?
    && id == WagerPda(log[0].step.args.sideA, log[0].step.args.nonce)
  }

  /** So far everybody has out what they put in, less what is still in, and the vault has the rest. */
  ghost predicate Balanced(start: State, log: seq<Entry>, id: Address, a: Address) {
    var s := Last(start, log);
    && id in s.wagers
    && var w := s.wagers[id];
       var vault := Vault(id, w);
    && AmountAt(s.tokens, vault) == InA(w) + InB(w) + AmountAt(start.tokens, vault) + Donated(log, id, vault)
    && (a != vault ==>
          Got(log, id, a) == Share(w, a, Put(log, id, w.sideA) - InA(w), Put(log, id, w.sideB) - InB(w), 0))
  }

  lemma BalancedNext(start: State, log: seq<Entry>, id: Address, a: Address)
    requires log != [] && Balanced(start, log[..|log| - 1], id, a)
    requires var e := log[|log| - 1];
             && e.before == Last(start, log[..|log| - 1]) && id in e.before.wagers && id in e.after.wagers
                && EntryBalances(e, id, a)
    ensures Balanced(start, log, id, a)
  {
  }

  lemma BalancedFirst(start: State, log: seq<Entry>, id: Address, a: Address)
    requires |log| == 1 && IsLog(start, log) && OpensFirst(log, id)
    ensures Balanced(start, log, id, a)
  {
    assert Faithful(log[0]);
    CreateWagerExactly(start, log[0].step.args);
    assert log[..0] == [];
  }

  lemma {:induction false} LifeSoFar(start: State, log: seq<Entry>, id: Address, a: Address)
    requires Inv(start) && IsLog(start, log) && OpensFirst(log, id)
    requires forall k :: 0 <= k < |log| ==> id in log[k].after.wagers
    ensures Inv(Last(start, log)) && Balanced(start, log, id, a)
    decreases |log|
  {
    var n := |log| - 1;
    LogOfFront(start, log);
    if n == 0 {
      NextKeeps(start, log[0].step);
      BalancedFirst(start, log, id, a);
    } else {
      LifeSoFar(start, log[..n], id, a);
      NextKeeps(log[n].before, log[n].step);
      EveryEntryBalances(log[n], id, a);
      BalancedNext(start, log, id, a);
    }
  }

  // ---- the end of a life ----

  datatype Nets = Nets(a: int, b: int, fee: int)

  function WinnerTakes(w: Wager, winner: Address): Nets {
    var fee := PotFee(w);
    if winner == w.sideA then Nets(w.stake - fee, 0 - w.stake, fee) else Nets(0 - w.stake, w.stake - fee, fee)
  }

  /** What a life that ends with this step is worth to the two sides and in fees. */
  function NetsOf(w: Wager, last: Step): Nets {
    match last
    case ResolveIx(_, _, _, winner) => WinnerTakes(w, winner)
    case ConcedeIx(_, _, winner) => WinnerTakes(w, winner)
    case _ => Nets(0, 0, 0)
  }

  /** From s to s' the wager has ended: on top of the nets, each side has what it still had in, and the fee
      account what the vault held beyond the stakes. */
  predicate EndsWith(s: State, s': State, id: Address, a: Address, nets: Nets) {
    && id in s.wagers
    && var w := s.wagers[id];
       var vault := Vault(id, w);
    && vault !in s'.tokens
    && (a != vault ==> AmountAt(s'.tokens, a) - AmountAt(s.tokens, a)
                       == Share(w, a, nets.a + InA(w), nets.b + InB(w),
                                nets.fee + AmountAt(s.tokens, vault) - InA(w) - InB(w)))
  }

  lemma SettledEnds(s: State, s': State, id: Address, winner: Address, a: Address)
    requires Ready(s, id) && s.wagers[id].IsParticipant(winner) && Settled(s, s', id, winner)
    ensures EndsWith(s, s', id, a, WinnerTakes(s.wagers[id], winner))
  {
  }

  lemma CalledOffEnds(s: State, s': State, id: Address, a: Address)
    requires Ready(s, id) && CalledOff(s, s', id)
    ensures EndsWith(s, s', id, a, Nets(0, 0, 0))
  {
  }

  lemma ReclaimedEnds(s: State, s': State, id: Address, a: Address)
    requires Reclaimed(s, s', id) && s.wagers[id].FullyExited()
    ensures EndsWith(s, s', id, a, Nets(0, 0, 0))
  {
  }

  lemma ResolveEnds(s: State, resolver: Address, id: Address, winnerAccount: Address, winner: Address, a: Address)
    requires Inv(s) && Resolve(s, resolver, id, winnerAccount, winner).Ok?
    ensures id in s.wagers
    ensures EndsWith(s, Resolve(s, resolver, id, winnerAccount, winner).value, id, a, WinnerTakes(s.wagers[id], winner))
  {
    ResolveExactly(s, resolver, id, winnerAccount, winner);
    ActiveInTimeIsReady(s, id);
    SettledEnds(s, Resolve(s, resolver, id, winnerAccount, winner).value, id, winner, a);
  }

  lemma ConcedeEnds(s: State, conceder: Address, id: Address, winner: Address, a: Address)
    requires Inv(s) && Concede(s, conceder, id, winner).Ok?
    ensures id in s.wagers
    ensures EndsWith(s, Concede(s, conceder, id, winner).value, id, a, WinnerTakes(s.wagers[id], winner))
  {
    ConcedeExactly(s, conceder, id, winner);
    ActiveInTimeIsReady(s, id);
    SettledEnds(s, Concede(s, conceder, id, winner).value, id, winner, a);
  }

  lemma CancelEnds(s: State, acceptor: Address, id: Address, a: Address)
    requires Inv(s) && CancelAccept(s, acceptor, id).Ok?
    ensures EndsWith(s, CancelAccept(s, acceptor, id).value, id, a, Nets(0, 0, 0))
  {
    CancelAcceptExactly(s, acceptor, id);
    ActiveInTimeIsReady(s, id);
    CalledOffEnds(s, CancelAccept(s, acceptor, id).value, id, a);
  }

  lemma CloseEnds(s: State, id: Address, feeToken: Option<Address>, a: Address)
    requires Inv(s) && CloseExpired(s, id, feeToken).Ok?
    ensures EndsWith(s, CloseExpired(s, id, feeToken).value, id, a, Nets(0, 0, 0))
  {
    CloseExpiredExactly(s, id, feeToken);
    ReclaimedEnds(s, CloseExpired(s, id, feeToken).value, id, a);
  }

  lemma EndingEnds(s: State, step: Step, a: Address)
    requires Inv(s) && EndsWager(step) && Execute(s, step).Ok?
    ensures step.id in s.wagers
    ensures EndsWith(s, Execute(s, step).value, step.id, a, NetsOf(s.wagers[step.id], step))
  {
    match step
    case ResolveIx(resolver, id, winnerAccount, winner) => ResolveEnds(s, resolver, id, winnerAccount, winner, a);
    case ConcedeIx(conceder, id, winner) => ConcedeEnds(s, conceder, id, winner, a);
    case CancelAcceptIx(acceptor, id) => CancelEnds(s, acceptor, id, a);
    case CloseExpiredIx(_, id, feeToken) => CloseEnds(s, id, feeToken, a);
  }

  /** Only an exit of its own ends a wager. */
  lemma OnlyOwnExitsEnd(s: State, step: Step, id: Address)
    requires Apply(s, step).Ok? && id in s.wagers && id !in Apply(s, step).value.wagers
    ensures EndsWager(step) && step.id == id
  {
    if EndsWager(step) { StepEndsOneWager(s, step); }
    else if step.CreateWagerIx? { StepOpensOneWager(s, step); }
    else if IsAdmin(step) { AdminMovesToTwin(s, step); }
    else if IsOutside(step) { OutsideTouchesTokensAndTime(s, step); }
    else { StepReplacesOneWager(s, step); }
  }

  lemma LastEntryEnds(e: Entry, id: Address, a: Address)
    requires Faithful(e) && Inv(e.before) && id in e.before.wagers && id !in e.after.wagers
    ensures e.ok && IsExitOf(e.step, id) && !IsStakeIn(e.step, id)
    ensures EndsWith(e.before, e.after, id, a, NetsOf(e.before.wagers[id], e.step))
  {
    OnlyOwnExitsEnd(e.before, e.step, id);
    EndingEnds(e.before, e.step, a);
  }

  /** A log of exactly one life: create first, close last, live between. */
  predicate IsLife(log: seq<Entry>, id: Address) {
    && OpensFirst(log, id) && 2 <= |log|
    && (forall k :: 0 <= k < |log| - 1 ==> id in log[k].after.wagers)
    && id !in log[|log| - 1].after.wagers
  }

  /** The exits of wager id, on terms w, have left account a exactly as rich as a life with these nets makes it. */
  predicate PaidOff(start: State, log: seq<Entry>, id: Address, a: Address, w: Wager, nets: Nets) {
    var vault := Vault(id, w);
    && vault !in Last(start, log).tokens
    && (a != vault ==>
          Got(log, id, a) == Share(w, a, Put(log, id, w.sideA) + nets.a, Put(log, id, w.sideB) + nets.b,
                                   nets.fee + AmountAt(start.tokens, vault) + Donated(log, id, vault)))
  }

  /** The payoff of a whole life, through any number of stakes and unstakes, whatever else happens between. The
      exits of the wager leave account a exactly this much richer: side A's home by what A put in plus A's net,
      side B's likewise, the pinned fee account by the fee plus all that the vault held or was given besides
      stakes, and every other account by nothing. The nets are zero for both sides, or stake less fee for the
      winner and minus the stake for the loser, and with the fee they add up to zero. */
  lemma LifePaysOff(start: State, log: seq<Entry>, id: Address, a: Address)
    requires Inv(start) && IsLog(start, log) && IsLife(log, id)
    ensures var w := log[0].after.wagers[id];
            var nets := NetsOf(w, log[|log| - 1].step);
            PaidOff(start, log, id, a, w, nets) && nets.a + nets.b + nets.fee == 0
  {
    var n := |log| - 1;
    LifeUntilItsEnd(start, log, id, a);
    LifeAddsUp(start, log, id, a, log[n].before.wagers[id], NetsOf(log[n].before.wagers[id], log[n].step));
    TermsDecide(start, log, id, a, log[0].after.wagers[id], log[n].before.wagers[id], log[n].step);
  }

  lemma LifeUntilItsEnd(start: State, log: seq<Entry>, id: Address, a: Address)
    requires Inv(start) && IsLog(start, log) && IsLife(log, id)
    ensures var n := |log| - 1;
            var e := log[n];
            && Balanced(start, log[..n], id, a) && e.before == Last(start, log[..n]) && id in e.before.wagers
            && SameTerms(log[0].after.wagers[id], e.before.wagers[id]) && IsExitOf(e.step, id)
            && EndsWith(e.before, e.after, id, a, NetsOf(e.before.wagers[id], e.step))
  {
    var n := |log| - 1;
    LogOfFront(start, log);
    LifeSoFar(start, log[..n], id, a);
    SameTermsThroughout(start, log[..n], id);
    LastEntryEnds(log[n], id, a);
  }

  lemma TermsDecide(start: State, log: seq<Entry>, id: Address, a: Address, w: Wager, w': Wager, last: Step)
    requires SameTerms(w, w') && PaidOff(start, log, id, a, w', NetsOf(w', last))
    ensures PaidOff(start, log, id, a, w, NetsOf(w, last))
  {
  }

  lemma {:induction false} SameTermsThroughout(start: State, log: seq<Entry>, id: Address)
    requires IsLog(start, log) && log != []
    requires forall k :: 0 <= k < |log| ==> id in log[k].after.wagers
    ensures SameTerms(log[0].after.wagers[id], Last(start, log).wagers[id])
    decreases |log|
  {
    var n := |log| - 1;
    LogOfFront(start, log);
    if n > 0 {
      SameTermsThroughout(start, log[..n], id);
      TermsArePinned(log[n].before, log[n].step, id);
    }
  }

  lemma LifeAddsUp(start: State, log: seq<Entry>, id: Address, a: Address, w: Wager, nets: Nets)
    requires log != [] && Balanced(start, log[..|log| - 1], id, a)
    requires var e := log[|log| - 1];
             && e.before == Last(start, log[..|log| - 1]) && id in e.before.wagers && w == e.before.wagers[id]
             && IsExitOf(e.step, id) && EndsWith(e.before, e.after, id, a, nets)
    ensures PaidOff(start, log, id, a, w, nets)
  {
  }

  // ---- the worst a life can end ----

  /** What a life that ends with a concession by side leaves in its account: what it put in less the stake, and
      fee and surplus if that account is the pinned fee account. */
  function ConcededWorth(w: Wager, side: Address, put: int, given: int): int {
    put - w.stake + if w.feeDestination == AtaOf(side, w.mint) then PotFee(w) + given else 0
  }

  lemma ConcessionPaysOther(s: State, conceder: Address, id: Address, winner: Address)
    requires Concede(s, conceder, id, winner).Ok?
    ensures id in s.wagers && s.wagers[id].IsParticipant(conceder) && winner == s.wagers[id].Counterparty(conceder)
  {
  }

  lemma ConcessionEndsIt(e: Entry, id: Address)
    requires Faithful(e) && e.step.ConcedeIx? && id in e.before.wagers && id !in e.after.wagers
    ensures e.step.winnerAccount == e.before.wagers[id].Counterparty(e.step.conceder)
  {
    OnlyOwnExitsEnd(e.before, e.step, id);
    ConcessionPaysOther(e.before, e.step.conceder, id, e.step.winnerAccount);
  }

  lemma OpensSound(start: State, log: seq<Entry>, id: Address)
    requires Inv(start) && IsLog(start, log) && OpensFirst(log, id)
    ensures id in log[0].after.wagers
    ensures var w := log[0].after.wagers[id];
            && w.sideA != w.sideB && id.WagerPda? && 10 * PotFee(w) <= 2 * w.stake
  {
    assert Faithful(log[0]);
    StepOpensOneWager(start, log[0].step);
    NextKeeps(start, log[0].step);
    var s := log[0].after;
    SplitPotOnWager(s.config.mint, s.now, id, s.wagers[id]);
  }

  lemma NetsAreBounded(w: Wager, last: Step)
    requires 10 * PotFee(w) <= 2 * w.stake
    ensures var nets := NetsOf(w, last);
            && 0 - w.stake <= nets.a && 0 - w.stake <= nets.b
            && 0 - w.stake + PotFee(w) <= nets.a + nets.fee && 0 - w.stake + PotFee(w) <= nets.b + nets.fee
  {
  }

  /** Conceding is the worst a side can do: no life, however it ends, refunds after the deadline included, leaves a
      side with less than one that ends with its own concession, and one that does leaves it with exactly that. */
  lemma NoLifeIsWorseThanConceding(start: State, log: seq<Entry>, id: Address, side: Address)
    requires Inv(start) && IsLog(start, log) && IsLife(log, id) && CanSign(side)
             && log[0].after.wagers[id].IsParticipant(side)
    ensures var w, last := log[0].after.wagers[id], log[|log| - 1].step;
            var given := AmountAt(start.tokens, Vault(id, w)) + Donated(log, id, Vault(id, w));
            var got, worth := Got(log, id, AtaOf(side, w.mint)), ConcededWorth(w, side, Put(log, id, side), given);
            && worth <= got && (last.ConcedeIx? && last.conceder == side ==> got == worth)
  {
    var n, w := |log| - 1, log[0].after.wagers[id];
    var last := log[n].step;
    LifePaysOff(start, log, id, AtaOf(side, w.mint));
    OpensSound(start, log, id);
    NetsAreBounded(w, last);
    if last.ConcedeIx? && last.conceder == side { ConcededLast(start, log, id); }
  }

  lemma ConcededLast(start: State, log: seq<Entry>, id: Address)
    requires Inv(start) && IsLog(start, log) && IsLife(log, id) && log[|log| - 1].step.ConcedeIx?
    ensures var last := log[|log| - 1].step; last.winnerAccount == log[0].after.wagers[id].Counterparty(last.conceder)
  {
    var n := |log| - 1;
    LogOfFront(start, log);
    SameTermsThroughout(start, log[..n], id);
    ConcessionEndsIt(log[n], id);
  }

  // ---- donations ----

  /** What comes into a live wager's vault beside its stakes is given for good: steps not its own never draw on it. */
  lemma OthersOnlyGive(s: State, step: Step, id: Address)
    requires Inv(s) && id in s.wagers && Apply(s, step).Ok? && !IsExitOf(step, id)
    ensures var vault := Vault(id, s.wagers[id]);
            AmountAt(s.tokens, vault) <= AmountAt(Apply(s, step).value.tokens, vault)
  {
    assert VaultSound(s.tokens, id, s.wagers[id]);
    OnlyPayerFalls(s, step);
    if Payer(s, step) == Some(Vault(id, s.wagers[id])) { VaultPaysForItsWager(s, step, id); }
  }

  lemma GiftAt(e: Entry, id: Address)
    requires Faithful(e) && Inv(e.before) && id in e.before.wagers && !IsExitOf(e.step, id)
    ensures 0 <= Delta(e, Vault(id, e.before.wagers[id]))
  {
    if e.ok { OthersOnlyGive(e.before, e.step, id); }
  }

  /** So the surplus of a life is never negative. */
  lemma {:induction false} DonationsAreGifts(start: State, log: seq<Entry>, id: Address)
    requires Inv(start) && IsLog(start, log) && OpensFirst(log, id)
    requires forall k :: 0 <= k < |log| - 1 ==> id in log[k].after.wagers
    ensures id in log[0].after.wagers && 0 <= Donated(log, id, Vault(id, log[0].after.wagers[id]))
    decreases |log|
  {
    var n := |log| - 1;
    LogOfFront(start, log);
    if n == 0 {
      BalancedFirst(start, log, id, DEFAULT);
    } else {
      DonationsAreGifts(start, log[..n], id);
      LifeSoFar(start, log[..n], id, DEFAULT);
      SameTermsThroughout(start, log[..n], id);
      if !IsExitOf(log[n].step, id) { GiftAt(log[n], id); }
    }
  }
}
