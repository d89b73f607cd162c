/** With nothing else at stake, every wager that opens can be locked: the caps leave room for two stakes. */
module Lockability {
  import opened Types
  import opened Sums
  import opened Tokens
  import opened Accounts
  import opened Handlers
  import opened Steps
  import opened History
  import opened Invariant
  import opened Exits
  import opened Preservation
  import opened Books
  import opened Shapes
  import opened Persistence

  /** A token account from which owner can pay the stake. */
  predicate CanPayFrom(t: TokenMap, source: Address, owner: Address, mint: Address, stake: u64) {
    source in t && t[source].owner == owner && t[source].mint == mint && !t[source].frozen && stake <= t[source].amount
  }

  /** If id has all the stakes there are, a wallet with no stake in id has none anywhere. */
  lemma NobodyElseHolds(s: State, id: Address, wallet: Address)
    requires BooksSound(s) && id in s.wagers && s.config.totalOpenValue == s.wagers[id].Outstanding()
    requires s.wagers[id].HeldBy(wallet) == 0 && forall j <- s.wagers :: 1 <= s.wagers[j].stake
    ensures Count(s.counters, wallet) == 0
  {
    var rest := s.wagers - {id};
    SumOverRemove(s.wagers, OutstandingFn(), id);
    SumOverRemove(s.wagers, HeldFn(wallet), id);
    SumOverMonotone(rest, HeldFn(wallet), OutstandingFn());
    assert Count(s.counters, wallet) == Held(s.wagers, wallet);
  }

  lemma RoomForOneMore(s: State, id: Address, staker: Address)
    requires Inv(s) && id in s.wagers && s.config.totalOpenValue == s.wagers[id].Outstanding()
    requires s.wagers[id].stake <= s.config.maxStake && s.wagers[id].state == Funding
    requires s.wagers[id].IsParticipant(staker) && !s.wagers[id].Holds(staker) && s.now <= s.wagers[id].deadlineFund
    ensures Count(s.counters, staker) < s.config.maxOpenPerWallet
    ensures s.config.totalOpenValue + s.wagers[id].stake <= s.config.maxTotalOpen
  {
    forall j <- s.wagers ensures 1 <= s.wagers[j].stake { assert WagerSound(s.config.mint, s.now, j, s.wagers[j]); }
    assert WagerSound(s.config.mint, s.now, id, s.wagers[id]);
    NobodyElseHolds(s, id, staker);
  }

  /** A side may stake into a wager that holds the only stakes there are, until its funding deadline. */
  lemma SideCanStake(s: State, id: Address, staker: Address, source: Address)
    requires Inv(s) && id in s.wagers && s.config.totalOpenValue == s.wagers[id].Outstanding()
    requires s.wagers[id].stake <= s.config.maxStake && s.wagers[id].state == Funding
    requires s.wagers[id].IsParticipant(staker) && !s.wagers[id].Holds(staker) && s.now <= s.wagers[id].deadlineFund
    requires CanSign(staker) && CanPayFrom(s.tokens, source, staker, s.wagers[id].mint, s.wagers[id].stake)
    requires !s.tokens[Vault(id, s.wagers[id])].frozen
    ensures StakeSide(s, staker, id, source).Ok? && source != Vault(id, s.wagers[id])
  {
    var w := s.wagers[id];
    assert WagerSound(s.config.mint, s.now, id, w) && VaultSound(s.tokens, id, w);
    RoomForOneMore(s, id, staker);
    TransferWhen(s.tokens, source, Vault(id, w), staker, w.stake);
    StakeSideExactly(s, staker, id, source);
  }

  // ---- waiting for the stakes ----

  /** Wager id, still in Funding, stands on record w, whose stakes are all there are. */
  predicate Waiting(s: State, id: Address, w: Wager) {
    && id in s.wagers && s.wagers[id] == w && w.state == Funding && w.cancelProposedBy == DEFAULT
    && s.config.totalOpenValue == w.Outstanding()
  }

  /** No stake comes in or goes out. Everything else may happen: other wagers open and end, the configuration and
      the admin change, tokens and time move. */
  predicate Quiet(e: Entry) { e.ok ==> !e.step.StakeSideIx? && !e.step.UnstakeSideIx? }

  lemma NotDueYet(s: State, step: Step)
    requires EndsWager(step) || step.RefundSideIx? || step.CancelProposeIx? || step.CancelClearIx?
    requires step.id in s.wagers && s.wagers[step.id].state == Funding && s.now <= s.wagers[step.id].deadlineFund
    requires s.wagers[step.id].cancelProposedBy == DEFAULT
    ensures Execute(s, step).Err?
  {
  }

  /** Before the funding deadline only stakes and unstakes touch the record of an unlocked wager. */
  lemma RecordStays(s: State, step: Step, id: Address)
    requires id in s.wagers && s.wagers[id].state == Funding && s.now <= s.wagers[id].deadlineFund
    requires s.wagers[id].cancelProposedBy == DEFAULT
    requires Apply(s, step).Ok? && !step.StakeSideIx? && !step.UnstakeSideIx?
    ensures At(Apply(s, step).value, id) == Some(s.wagers[id])
  {
    if step.CreateWagerIx? || IsAdmin(step) || IsOutside(step) { OthersKeepRecord(s, step, id); }
    else {
      if step.id == id { NotDueYet(s, step); }
      if EndsWager(step) { StepEndsOneWager(s, step); } else { StepReplacesOneWager(s, step); }
    }
  }

  lemma QuietKeepsWaiting(e: Entry, id: Address, w: Wager)
    requires Faithful(e) && Quiet(e) && Waiting(e.before, id, w) && e.before.now <= w.deadlineFund
    requires BooksSound(e.after)
    ensures Waiting(e.after, id, w)
  {
    if e.ok {
      RecordStays(e.before, e.step, id);
      OnlyStakesRaise(e.before, e.step);
      BooksCover(e.after, id);
    }
  }

  lemma TimeAt(start: State, log: seq<Entry>, k: nat)
    requires IsLog(start, log) && k < |log|
    ensures log[k].before.now <= log[k].after.now
  {
    LogPrefix(start, log, k);
    if log[k].ok { TimeRunsOn(log[k].before, log[k].step); }
  }

  lemma QuietAt(start: State, log: seq<Entry>, k: nat, id: Address, w: Wager)
    requires Inv(start) && IsLog(start, log) && k + 1 < |log| && Quiet(log[k]) && Waiting(log[k].before, id, w)
    requires log[k].before.now <= w.deadlineFund
    ensures Waiting(log[k + 1].before, id, w)
  {
    LogPrefix(start, log, k);
    LogKeepsUntil(start, log, k + 1);
    QuietKeepsWaiting(log[k], id, w);
  }

  lemma {:induction false} StaysWaiting(start: State, log: seq<Entry>, a: nat, b: nat, id: Address, w: Wager)
    requires Inv(start) && IsLog(start, log) && a <= b < |log| && Waiting(log[a].before, id, w)
    requires log[b].before.now <= w.deadlineFund && forall k :: a <= k < b ==> Quiet(log[k])
    ensures Waiting(log[b].before, id, w)
    decreases b
  {
    if a < b {
      TimeAt(start, log, b - 1);
      StaysWaiting(start, log, a, b - 1, id, w);
      QuietAt(start, log, b - 1, id, w);
    }
  }

  // ---- the opening and the stakes ----

  lemma OpeningWaits(e: Entry, args: CreateWagerArgs, payer: Address)
    requires Faithful(e) && e.ok && e.step == CreateWagerIx(payer, args) && e.before.config.totalOpenValue == 0
    ensures var w := FreshWager(e.before.config, args);
            Waiting(e.after, WagerPda(args.sideA, args.nonce), w) && w.sideA != w.sideB
  {
    CreateWagerExactly(e.before, args);
  }

  /** At entry k side x stakes, able to pay, in time, and with the stake within the bound then in force. */
  predicate StakesAt(log: seq<Entry>, k: nat, id: Address, w: Wager, x: Address, source: Address) {
    && k < |log| && log[k].step == StakeSideIx(x, id, source) && CanSign(x) && w.IsParticipant(x)
    && var s := log[k].before;
    && s.now <= w.deadlineFund && w.stake <= s.config.maxStake && CanPayFrom(s.tokens, source, x, w.mint, w.stake)
    && Vault(id, w) in s.tokens && !s.tokens[Vault(id, w)].frozen
  }

  lemma StakeLands(e: Entry, id: Address, x: Address, source: Address)
    requires CanSign(x) && Faithful(e) && e.step == StakeSideIx(x, id, source)
    requires StakeSide(e.before, x, id, source).Ok?
    ensures e.ok && id in e.before.wagers && id in e.after.wagers
    ensures var w := e.before.wagers[id];
            && e.after.wagers[id] == WithStake(w, x == w.sideA)
            && e.after.config.totalOpenValue == e.before.config.totalOpenValue + w.stake
  {
    StakeSideExactly(e.before, x, id, source);
  }

  /** A stake into a waiting wager gets through. */
  lemma StakeArrives(start: State, log: seq<Entry>, k: nat, id: Address, w: Wager, x: Address, source: Address)
    requires Inv(start) && IsLog(start, log) && StakesAt(log, k, id, w, x, source)
    requires Waiting(log[k].before, id, w) && !w.Holds(x)
    ensures log[k].ok && At(log[k].after, id) == Some(WithStake(w, x == w.sideA))
    ensures log[k].after.config.totalOpenValue == w.Outstanding() + w.stake
  {
    LogPrefix(start, log, k);
    LogKeepsUntil(start, log, k);
    SideCanStake(log[k].before, id, x, source);
    StakeLands(log[k], id, x, source);
  }

  predicate AreTheSides(w: Wager, x: Address, y: Address) {
    (x == w.sideA && y == w.sideB) || (x == w.sideB && y == w.sideA)
  }

  /** The first stake leaves the wager waiting for the other side's, and the second locks it. */
  lemma TwoStakesLock(w: Wager, x: Address, y: Address)
    requires AreTheSides(w, x, y) && w.sideA != w.sideB && w.state == Funding
    requires !w.fundedA && !w.fundedB && !w.refundedA && !w.refundedB
    ensures var w1 := WithStake(w, x == w.sideA);
            var w2 := WithStake(w1, y == w.sideA);
            && !w.Holds(x) && !w1.Holds(y) && w1 == w.(fundedA := w1.fundedA, fundedB := w1.fundedB)
            && w.Outstanding() == 0 && w1.Outstanding() == w.stake
            && w2.state == Active && w2.Outstanding() == 2 * w.stake
  {
  }

  /** From the opening to the state in which the second stake arrives. */
  lemma FirstStakeArrives(start: State, log: seq<Entry>, i: nat, j: nat, id: Address, w: Wager, x: Address, y: Address,
                          source: Address)
    requires Inv(start) && IsLog(start, log) && 0 < i < j < |log| && Waiting(log[1].before, id, w)
    requires AreTheSides(w, x, y) && w.sideA != w.sideB
    requires !w.fundedA && !w.fundedB && !w.refundedA && !w.refundedB
    requires StakesAt(log, i, id, w, x, source) && log[j].before.now <= w.deadlineFund
    requires forall k :: 0 < k < j && k != i ==> Quiet(log[k])
    ensures log[i].ok && Waiting(log[j].before, id, WithStake(w, x == w.sideA))
  {
    TwoStakesLock(w, x, y);
    StaysWaiting(start, log, 1, i, id, w);
    StakeArrives(start, log, i, id, w, x, source);
    StaysWaiting(start, log, i + 1, j, id, WithStake(w, x == w.sideA));
  }

  /** Lockability: in any run that opens a wager when no stake is outstanding, both sides' stakes get through and lock
      it, in either order and whatever else happens, as long as each is able to pay and in time when it stakes, the
      bound on stakes has not been lowered under this one, and no other stake moves. */
  lemma EveryWagerCanLock(start: State, log: seq<Entry>, args: CreateWagerArgs, payer: Address, i: nat, j: nat,
                          x: Address, y: Address, sourceX: Address, sourceY: Address)
    requires Reachable(start) && start.config.totalOpenValue == 0 && IsLog(start, log) && 0 < i < j < |log|
    requires log[0].ok && log[0].step == CreateWagerIx(payer, args)
    requires var id, w := WagerPda(args.sideA, args.nonce), FreshWager(start.config, args);
             && AreTheSides(w, x, y) && StakesAt(log, i, id, w, x, sourceX) && StakesAt(log, j, id, w, y, sourceY)
    requires forall k :: 0 < k < j && k != i ==> Quiet(log[k])
    ensures var id := WagerPda(args.sideA, args.nonce);
            && log[i].ok && log[j].ok && id in log[j].after.wagers
            && log[j].after.wagers[id].state == Active && log[j].after.wagers[id].Outstanding() == 2 * args.stake
  {
    ReachableSound(start);
    var id, w := WagerPda(args.sideA, args.nonce), FreshWager(start.config, args);
    LogPrefix(start, log, 0);
    OpeningWaits(log[0], args, payer);
    TwoStakesLock(w, x, y);
    FirstStakeArrives(start, log, i, j, id, w, x, y, sourceX);
    StakeArrives(start, log, j, id, WithStake(w, x == w.sideA), y, sourceY);
  }
}
