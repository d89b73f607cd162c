/** Funds never strand: a bound on the wait, and a way out that anybody can take. */
module Liveness {
  import opened Types
  import opened Tokens
  import opened Accounts
  import opened Handlers
  import opened Steps
  import opened History
  import opened Invariant
  import opened Exits
  import opened Preservation
  import opened Drain

  // ---- the wait ----

  /** A wager opens with its last deadline at most two maximal windows away, and no subtraction of times panics. */
  lemma CreationBoundsWait(s: State, args: CreateWagerArgs)
    requires Reachable(s)
    ensures CreateWager(s, args) != Err(Panic)
    ensures CreateWager(s, args).Ok? ==> s.now < args.deadlineFund < args.deadlineResolve <= s.now + 2 * MAX_WINDOW_CAP
  {
    ReachableSound(s);
    CreateWagerExactly(s, args);
  }

  lemma TimePasses(s: State, seconds: nat)
    requires s.now + seconds <= I64_MAX
    ensures Next(s, Tick(seconds)) == s.(now := s.now + seconds)
  {
  }

  /** So from any reachable ledger that wait is enough for every live wager to be past all its deadlines. */
  lemma WaitingEndsEveryWager(s: State, later: State)
    requires Reachable(s) && s.now + 2 * MAX_WINDOW_CAP + 1 <= I64_MAX
    requires later == Next(s, Tick(2 * MAX_WINDOW_CAP + 1))
    ensures AllOver(later) && later.wagers == s.wagers
            && forall id <- s.wagers :: s.wagers[id].deadlineResolve < later.now
  {
    ReachableSound(s);
    TimePasses(s, 2 * MAX_WINDOW_CAP + 1);
    forall id <- s.wagers ensures s.wagers[id].deadlineResolve < later.now && s.wagers[id].Due(later.now) {
      assert WagerSound(s.config.mint, s.now, id, s.wagers[id]);
    }
  }

  // ---- the way out ----

  /** Past the deadline that ends the wager in its current state. */
  predicate Overdue(s: State, id: Address) { id in s.wagers && s.wagers[id].Due(s.now) }

  /** What has to be in order outside the program: the homes of the sides still in, the vault not frozen if there
      is anything in it, the pinned fee account only if there is a surplus for it, and a rent collector that is
      not the wager's own. */
  predicate Clear(t: TokenMap, id: Address, w: Wager) {
    && (w.Holds(w.sideA) ==> Usable(t, w.sideA, w.mint)) && (w.Holds(w.sideB) ==> Usable(t, w.sideB, w.mint))
    && w.rentCollector != id && w.rentCollector != Vault(id, w)
    && (0 < AmountAt(t, Vault(id, w)) ==> !t[Vault(id, w)].frozen)
    && (w.Outstanding() < AmountAt(t, Vault(id, w)) ==>
          Receives(t, w.feeDestination, w.mint) && w.feeDestination != Vault(id, w))
  }

  /** Overdue, with nothing in the way. */
  predicate Rescuable(s: State, id: Address) { Overdue(s, id) && Clear(s.tokens, id, s.wagers[id]) }

  /** A log of successful refunds and closes of wager id, all signed by anybody. */
  predicate IsRescue(log: seq<Entry>, id: Address, anybody: Address) {
    forall e <- log ::
      && e.ok && Signer(e.step) == Some(anybody)
      && (e.step.RefundSideIx? || e.step.CloseExpiredIx?) && e.step.id == id
  }

  /** Everybody has what the wager still had for them, and its vault is gone. */
  predicate PaidOut(t: TokenMap, t': TokenMap, id: Address, w: Wager) {
    && t'.Keys == t.Keys - {Vault(id, w)}
    && (forall a <- t' :: t'[a] == t[a].(amount := t'[a].amount) && t'[a].amount == t[a].amount + DueTo(t, a, id, w))
  }

  /** From s to f the wager has ended, the books have released what it held, everybody is paid, and nothing
      else has changed. */
  ghost predicate Rescued(s: State, f: State, id: Address) {
    && id in s.wagers
    && var w := s.wagers[id];
    && f == s.(config := s.config.(totalOpenValue := f.config.totalOpenValue), wagers := s.wagers - {id},
               counters := f.counters, tokens := f.tokens)
    && f.config.totalOpenValue == s.config.totalOpenValue - w.Outstanding()
    && (forall wallet :: Count(f.counters, wallet) == Count(s.counters, wallet) - w.HeldBy(wallet))
    && PaidOut(s.tokens, f.tokens, id, w)
  }

  function SidesIn(w: Wager): nat {
    (if w.fundedA && !w.refundedA then 1 else 0) + (if w.fundedB && !w.refundedB then 1 else 0)
  }

  lemma OverdueIsSound(s: State, id: Address)
    requires WagersSound(s) && Overdue(s, id)
    ensures id == WagerPda(s.wagers[id].sideA, s.wagers[id].nonce)
    ensures s.wagers[id].sideA != s.wagers[id].sideB && VaultSound(s.tokens, id, s.wagers[id])
    ensures s.wagers[id].Holds(s.wagers[id].sideA) ==> CanSign(s.wagers[id].sideA)
    ensures s.wagers[id].Holds(s.wagers[id].sideB) ==> CanSign(s.wagers[id].sideB)
  {
    assert WagerSound(s.config.mint, s.now, id, s.wagers[id]) && VaultSound(s.tokens, id, s.wagers[id]);
  }

  lemma ReclaimedIsRescued(s: State, s': State, id: Address)
    requires Reclaimed(s, s', id) && SidesIn(s.wagers[id]) == 0
    ensures Rescued(s, s', id)
  {
  }

  lemma CloseRescues(s: State, id: Address)
    requires Inv(s) && Rescuable(s, id) && SidesIn(s.wagers[id]) == 0
    ensures var r := CloseExpired(s, id, SweepTo(s, id, s.wagers[id])); r.Ok? && Rescued(s, r.value, id)
  {
    var feeToken := SweepTo(s, id, s.wagers[id]);
    OverdueIsSound(s, id);
    CloseExpiredExactly(s, id, feeToken);
    ReclaimedIsRescued(s, CloseExpired(s, id, feeToken).value, id);
  }

  /** A side and a wager whose stake has just gone home. */
  predicate OneLess(w: Wager, w': Wager, side: Address) {
    w.Holds(side) && CanSign(side) && w.sideA != w.sideB && w' == Refunded(w, side)
  }

  lemma StaysClear(t: TokenMap, id: Address, w: Wager, w': Wager, side: Address)
    requires OneLess(w, w', side) && id.WagerPda? && Clear(t, id, w) && Vault(id, w) in t
    requires w.stake <= t[Vault(id, w)].amount && t[AtaOf(side, w.mint)].amount + w.stake <= U64_MAX
    ensures Clear(Move(t, Vault(id, w), AtaOf(side, w.mint), w.stake), id, w')
    ensures SidesIn(w') == SidesIn(w) - 1
  {
  }

  lemma RefundHelps(s: State, id: Address, side: Address)
    requires Inv(s) && Rescuable(s, id) && s.wagers[id].Holds(side)
    ensures var r, w := RefundSide(s, id, side), s.wagers[id];
            r.Ok? && OneLess(w, Refunded(w, side), side) && WentHome(s, r.value, id, Refunded(w, side), side)
  {
    OverdueIsSound(s, id);
    RefundSideExactly(s, id, side);
  }

  /** What a refund has paid and what the rest of the rescue pays add up to what was due. */
  lemma PaymentsCompose(t: TokenMap, t': TokenMap, id: Address, w: Wager, w': Wager, side: Address)
    requires OneLess(w, w', side) && id.WagerPda?
    requires var vault, home := Vault(id, w), AtaOf(side, w.mint);
             && vault in t && home in t && w.stake <= t[vault].amount && t[home].amount + w.stake <= U64_MAX
             && PaidOut(Move(t, vault, home, w.stake), t', id, w')
    ensures PaidOut(t, t', id, w)
  {
    var vault, home := Vault(id, w), AtaOf(side, w.mint);
    forall a <- t'
      ensures t'[a] == t[a].(amount := t'[a].amount) && t'[a].amount == t[a].amount + DueTo(t, a, id, w)
    {
      DueAfterRefund(t, id, w, w', side, a);
    }
  }

  /** What account a has and is due stays the same. */
  lemma DueAfterRefund(t: TokenMap, id: Address, w: Wager, w': Wager, side: Address, a: Address)
    requires OneLess(w, w', side) && id.WagerPda? && a in t && a != Vault(id, w)
    requires var vault, home := Vault(id, w), AtaOf(side, w.mint);
             vault in t && home in t && w.stake <= t[vault].amount && t[home].amount + w.stake <= U64_MAX
    ensures var m := Move(t, Vault(id, w), AtaOf(side, w.mint), w.stake);
            && m[a] == t[a].(amount := m[a].amount)
            && m[a].amount + DueTo(m, a, id, w') == t[a].amount + DueTo(t, a, id, w)
  {
  }

  lemma RescueComposes(s: State, m: State, f: State, id: Address, w: Wager, side: Address)
    requires id in s.wagers && OneLess(s.wagers[id], w, side) && id.WagerPda?
    requires WentHome(s, m, id, w, side) && Rescued(m, f, id)
    ensures Rescued(s, f, id)
  {
    assert m.wagers - {id} == s.wagers - {id};
    PaymentsCompose(s.tokens, f.tokens, id, s.wagers[id], w, side);
  }

  lemma RefundEntry(s: State, id: Address, anybody: Address, side: Address) returns (log: seq<Entry>)
    requires RefundSide(s, id, side).Ok? && CanSign(anybody)
    ensures |log| == 1 && IsLog(s, log) && IsRescue(log, id, anybody) && Last(s, log) == RefundSide(s, id, side).value
  {
    var e := Entry(s, RefundSideIx(anybody, id, side), true, RefundSide(s, id, side).value);
    assert Faithful(e);
    log := [e];
  }

  lemma CloseEntry(s: State, id: Address, anybody: Address, feeToken: Option<Address>) returns (log: seq<Entry>)
    requires CloseExpired(s, id, feeToken).Ok? && CanSign(anybody)
    ensures |log| == 1 && IsLog(s, log) && IsRescue(log, id, anybody)
            && Last(s, log) == CloseExpired(s, id, feeToken).value
  {
    var e := Entry(s, CloseExpiredIx(anybody, id, feeToken), true, CloseExpired(s, id, feeToken).value);
    assert Faithful(e);
    log := [e];
  }

  lemma FirstRefund(s: State, m: State, id: Address, side: Address)
    requires Inv(s) && Rescuable(s, id) && s.wagers[id].Holds(side)
    requires RefundSide(s, id, side) == Ok(m)
    ensures Inv(m) && OneLess(s.wagers[id], Refunded(s.wagers[id], side), side) && id.WagerPda?
    ensures WentHome(s, m, id, Refunded(s.wagers[id], side), side)
    ensures Rescuable(m, id) && SidesIn(m.wagers[id]) == SidesIn(s.wagers[id]) - 1
  {
    RefundHelps(s, id, side);
    RefundSideKeeps(s, id, side);
    OverdueIsSound(s, id);
    StaysClear(s.tokens, id, s.wagers[id], Refunded(s.wagers[id], side), side);
  }

  lemma {:induction false} Rescue(s: State, id: Address, anybody: Address) returns (log: seq<Entry>)
    requires Inv(s) && Rescuable(s, id) && CanSign(anybody)
    ensures |log| == SidesIn(s.wagers[id]) + 1 && IsLog(s, log) && IsRescue(log, id, anybody)
    ensures Rescued(s, Last(s, log), id)
    decreases SidesIn(s.wagers[id])
  {
    var w := s.wagers[id];
    if SidesIn(w) == 0 {
      CloseRescues(s, id);
      log := CloseEntry(s, id, anybody, SweepTo(s, id, w));
    } else {
      var side := if w.Holds(w.sideA) then w.sideA else w.sideB;
      RefundHelps(s, id, side);
      var m := RefundSide(s, id, side).value;
      FirstRefund(s, m, id, side);
      var first := RefundEntry(s, id, anybody, side);
      var rest := Rescue(m, id, anybody);
      log := first + rest;
      LogsJoin(s, first, rest);
      RescueComposes(s, m, Last(m, rest), id, Refunded(w, side), side);
    }
  }

  /** Funds never strand: past the deadline of its state, whether it ever locked or not, at most two refunds and one
      close by any signer at all return every stake still in, sweep the rest to the pinned account, and end the
      wager. */
  lemma NeverStrands(s: State, id: Address, anybody: Address) returns (log: seq<Entry>)
    requires Reachable(s) && Rescuable(s, id) && CanSign(anybody)
    ensures |log| <= 3 && IsLog(s, log) && IsRescue(log, id, anybody)
    ensures Rescued(s, Last(s, log), id)
  {
    ReachableSound(s);
    log := Rescue(s, id, anybody);
  }

  // ---- exactly when ----

  lemma ClosableIsRescuable(s: State, id: Address, feeToken: Option<Address>)
    requires Closable(s, id, feeToken)
    ensures Rescuable(s, id)
  {
  }

  lemma CloseNeedsRescuable(s: State, id: Address, feeToken: Option<Address>)
    requires Inv(s) && CloseExpired(s, id, feeToken).Ok?
    ensures Rescuable(s, id)
  {
    CloseExpiredExactly(s, id, feeToken);
    ClosableIsRescuable(s, id, feeToken);
  }

  lemma WasClear(t: TokenMap, id: Address, w: Wager, w': Wager, side: Address)
    requires OneLess(w, w', side) && id.WagerPda? && Vault(id, w) in t && !t[Vault(id, w)].frozen
             && Usable(t, side, w.mint)
    requires w.stake <= t[Vault(id, w)].amount && t[AtaOf(side, w.mint)].amount + w.stake <= U64_MAX
    requires Clear(Move(t, Vault(id, w), AtaOf(side, w.mint), w.stake), id, w')
    ensures Clear(t, id, w)
  {
  }

  lemma RefundNeedsRescuable(s: State, id: Address, side: Address, s': State)
    requires Inv(s) && RefundSide(s, id, side) == Ok(s')
    ensures id in s.wagers && id in s'.wagers
    ensures Clear(s'.tokens, id, s'.wagers[id]) ==> Rescuable(s, id)
  {
    RefundSideExactly(s, id, side);
    SideIsCovered(s, id, side);
    var t, w := s.tokens, s.wagers[id];
    if Clear(Move(t, Vault(id, w), AtaOf(side, w.mint), w.stake), id, Refunded(w, side)) {
      WasClear(t, id, w, Refunded(w, side), side);
    }
  }

  /** One step of a rescue that gets through needed a deadline passed, and a clear wager if the rest did. */
  lemma RescueStepNeedsRescuable(e: Entry, id: Address, anybody: Address)
    requires Faithful(e) && IsRescue([e], id, anybody) && Inv(e.before)
    requires id in e.after.wagers ==> Clear(e.after.tokens, id, e.after.wagers[id])
    ensures Rescuable(e.before, id)
  {
    assert e in [e];
    if e.step.RefundSideIx? { RefundNeedsRescuable(e.before, id, e.step.side, e.after); }
    else { CloseNeedsRescuable(e.before, id, e.step.feeToken); }
  }

  lemma {:induction false} RescueNeedsRescuable(start: State, log: seq<Entry>, id: Address, anybody: Address)
    requires Inv(start) && IsLog(start, log) && IsRescue(log, id, anybody) && id in start.wagers
    requires if id in Last(start, log).wagers then Rescuable(Last(start, log), id) else log != []
    ensures Rescuable(start, id)
    decreases |log|
  {
    if log != [] {
      var n := |log| - 1;
      LogOfFront(start, log);
      LogKeeps(start, log[..n]);
      assert forall e <- [log[n]] :: e in log;
      RescueStepNeedsRescuable(log[n], id, anybody);
      RescueNeedsRescuable(start, log[..n], id, anybody);
    }
  }

  /** The condition is exact: a live wager can be ended by refunds and closes if and only if the deadline of its
      state has passed and it is clear. */
  lemma EndedExactlyWhenRescuable(s: State, id: Address, anybody: Address)
    requires Reachable(s) && id in s.wagers && CanSign(anybody)
    ensures Rescuable(s, id)
            <==> exists log :: IsLog(s, log) && IsRescue(log, id, anybody) && id !in Last(s, log).wagers
  {
    ReachableSound(s);
    if Rescuable(s, id) {
      var log := Rescue(s, id, anybody);
    }
    if log :| IsLog(s, log) && IsRescue(log, id, anybody) && id !in Last(s, log).wagers {
      RescueNeedsRescuable(s, log, id, anybody);
    }
  }
}
