/** What the two sides staked on: the terms of a live wager are the ones its creation named. */
module Terms {
  import opened Types
  import opened Accounts
  import opened Handlers
  import opened Policy
  import opened Steps
  import opened History
  import opened Preservation
  import opened Shapes
  import opened Settings

  /** A wager comes to be only by an opening, on the terms of its arguments. */
  lemma OnlyOpeningsAdd(s: State, step: Step, id: Address)
    requires id !in s.wagers && id in Next(s, step).wagers
    ensures step.CreateWagerIx? && Apply(s, step).Ok? && id == WagerPda(step.args.sideA, step.args.nonce)
    ensures OpensOn(Next(s, step).wagers[id], step.args, s.config)
  {
    if step.CreateWagerIx? { StepOpensOneWager(s, step); CreateWagerExactly(s, step.args); }
    else if EndsWager(step) { StepEndsOneWager(s, step); }
    else if IsAdmin(step) { AdminMovesToTwin(s, step); }
    else if IsOutside(step) { OutsideTouchesTokensAndTime(s, step); }
    else { StepReplacesOneWager(s, step); }
  }

  lemma EntryKeepsTerms(e: Entry, id: Address)
    requires Faithful(e) && id in e.after.wagers
    ensures id in e.before.wagers ==> SameTerms(e.before.wagers[id], e.after.wagers[id])
    ensures id !in e.before.wagers ==>
            && e.ok && e.step.CreateWagerIx? && id == WagerPda(e.step.args.sideA, e.step.args.nonce)
            && OpensOn(e.after.wagers[id], e.step.args, e.before.config)
  {
    if id in e.before.wagers { TermsArePinned(e.before, e.step, id); } else { OnlyOpeningsAdd(e.before, e.step, id); }
  }

  /** Entry i opened the wager on the terms of record w, and it has been live ever since. */
  predicate OpenedAt(log: seq<Entry>, i: nat, id: Address, w: Wager) {
    && i < |log| && log[i].ok && log[i].step.CreateWagerIx? && id !in log[i].before.wagers
    && id == WagerPda(log[i].step.args.sideA, log[i].step.args.nonce)
    && AgreedTerms(w, log[i].step.args, log[i].before.config)
    && forall k :: i <= k < |log| ==> id in log[k].after.wagers
  }

  /** In any run the stake, the sides, the terms hash, the resolver and the deadlines of a live wager are those named
      by the creation that opened this life of it, and its fee and destinations those configured at that moment. */
  lemma {:induction false} LiveTermsWereAgreed(start: State, log: seq<Entry>, id: Address) returns (i: nat)
    requires IsLog(start, log) && start.wagers == map[] && id in Last(start, log).wagers
    ensures OpenedAt(log, i, id, Last(start, log).wagers[id])
    decreases |log|
  {
    var n := |log| - 1;
    LogOfFront(start, log);
    EntryKeepsTerms(log[n], id);
    if id in log[n].before.wagers { i := LiveTermsWereAgreed(start, log[..n], id); } else { i := n; }
  }

  /** So the fee a live wager will pay, and where, is what an admin had last set when it opened, whatever any admin
      has set since. */
  lemma FeeWasSetBeforeOpening(start: State, authority: Address, args: InitializeConfigArgs, log: seq<Entry>,
                               id: Address) returns (i: nat)
    requires IsGenesis(start, authority, args) && IsLog(start, log) && id in Last(start, log).wagers
    ensures var w := Last(start, log).wagers[id];
            && OpenedAt(log, i, id, w)
            && w.mint == args.mint
            && CameFrom(args, log[..i], FeeBps, Number(w.feeBps))
            && CameFrom(args, log[..i], FeeDestination, Account(w.feeDestination))
            && CameFrom(args, log[..i], RentCollector, Account(w.rentCollector))
  {
    i := LiveTermsWereAgreed(start, log, id);
    LogPrefix(start, log, i);
    MintIsFixed(start, authority, args, log[..i]);
    EverySettingWasNamed(start, authority, args, log[..i], FeeBps);
    EverySettingWasNamed(start, authority, args, log[..i], FeeDestination);
    EverySettingWasNamed(start, authority, args, log[..i], RentCollector);
  }
}
