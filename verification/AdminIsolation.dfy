/** What the admin can and cannot do to a live wager. */
module AdminIsolation {
  import opened Types
  import opened Sums
  import opened Tokens
  import opened Accounts
  import opened Handlers
  import opened Steps
  import opened Preservation
  import opened Shapes

  /** Everything except the admin's own steps and the two steps that open exposure. */
  predicate IsSettledLaw(step: Step) { !IsAdmin(step) && !step.CreateWagerIx? && !step.StakeSideIx? }

  predicate SameVerdict(r: Result<State>, r': Result<State>) {
    match r
    case Ok(s) => r'.Ok? && Twins(s, r'.value)
    case Err(e) => r' == Err(e)
  }

  lemma SettleIgnoresAdmin(s: State, s': State, step: Step)
    requires Twins(s, s') && (step.ResolveIx? || step.ConcedeIx?)
    ensures SameVerdict(Execute(s, step), Execute(s', step))
  {
  }

  lemma CancelIgnoresAdmin(s: State, s': State, step: Step)
    requires Twins(s, s') && (step.CancelAcceptIx? || step.CancelProposeIx? || step.CancelClearIx?)
    ensures SameVerdict(Execute(s, step), Execute(s', step))
  {
  }

  lemma UnstakeIgnoresAdmin(s: State, s': State, step: Step)
    requires Twins(s, s') && step.UnstakeSideIx?
    ensures SameVerdict(Execute(s, step), Execute(s', step))
  {
  }

  lemma RefundIgnoresAdmin(s: State, s': State, step: Step)
    requires Twins(s, s') && step.RefundSideIx?
    ensures SameVerdict(Execute(s, step), Execute(s', step))
  {
  }

  lemma CloseIgnoresAdmin(s: State, s': State, step: Step)
    requires Twins(s, s') && step.CloseExpiredIx?
    ensures SameVerdict(Execute(s, step), Execute(s', step))
  {
  }

  lemma OutsideIgnoresAdmin(s: State, s': State, step: Step)
    requires Twins(s, s') && IsOutside(step)
    ensures SameVerdict(Execute(s, step), Execute(s', step))
  {
  }

  /** An exit comes out the same in both ledgers, error for error, and leaves twins behind. */
  lemma ExitsIgnoreAdmin(s: State, s': State, step: Step)
    requires Twins(s, s') && IsSettledLaw(step)
    ensures SameVerdict(Apply(s, step), Apply(s', step))
    ensures Twins(Next(s, step), Next(s', step))
  {
    if step.ResolveIx? || step.ConcedeIx? { SettleIgnoresAdmin(s, s', step); }
    else if step.CancelAcceptIx? || step.CancelProposeIx? || step.CancelClearIx? { CancelIgnoresAdmin(s, s', step); }
    else if IsOutside(step) { OutsideIgnoresAdmin(s, s', step); }
    else if step.CloseExpiredIx? { CloseIgnoresAdmin(s, s', step); }
    else if step.UnstakeSideIx? { UnstakeIgnoresAdmin(s, s', step); }
    else { RefundIgnoresAdmin(s, s', step); }
  }

  function WithoutAdmin(steps: seq<Step>): seq<Step>
    decreases |steps|
  {
    if steps == [] then []
    else
      var front, last := WithoutAdmin(steps[..|steps| - 1]), steps[|steps| - 1];
      if IsAdmin(last) then front else front + [last]
  }

  /** The error, if any, of each step that is not the admin's. */
  function Verdicts(s: State, steps: seq<Step>): seq<Option<Error>>
    decreases |steps|
  {
    if steps == [] then []
    else
      var front, last := steps[..|steps| - 1], steps[|steps| - 1];
      var r := Apply(Run(s, front), last);
      if IsAdmin(last) then Verdicts(s, front)
      else Verdicts(s, front) + [if r.Ok? then None else Some(r.error)]
  }

  /** Two runs: strike every admin step out of any run of exits, and each remaining step has the same verdict,
      and the wagers, counters, token balances and accumulator end the same. */
  lemma {:induction false} AdminCannotInterfere(s: State, steps: seq<Step>)
    requires forall step <- steps :: IsAdmin(step) || IsSettledLaw(step)
    ensures Twins(Run(s, WithoutAdmin(steps)), Run(s, steps))
    ensures Verdicts(s, WithoutAdmin(steps)) == Verdicts(s, steps)
    decreases |steps|
  {
    if steps != [] {
      var front, last := steps[..|steps| - 1], steps[|steps| - 1];
      AdminCannotInterfere(s, front);
      var kept := WithoutAdmin(front);
      if IsAdmin(last) {
        AdminMovesToTwin(Run(s, front), last);
      } else {
        ExitsIgnoreAdmin(Run(s, kept), Run(s, front), last);
        assert (kept + [last])[..|kept + [last]| - 1] == kept;
      }
    }
  }

  // ---- the exposure caps do reach a live wager ----

  /** A stake into a live wager is judged by the caps in force when it arrives, not by those of its creation. */
  lemma StakeReadsCurrentCaps(s: State, s': State, staker: Address, id: Address, source: Address)
    requires Twins(s, s')
    ensures StakeSide(s', staker, id, source).Ok? <==>
            OpenToStake(s, staker, id, source)
              && RoomUnderCaps(s'.config, Count(s.counters, staker), s.wagers[id].stake)
    ensures StakeSide(s, staker, id, source).Ok? && StakeSide(s', staker, id, source).Ok? ==>
            Twins(StakeSide(s, staker, id, source).value, StakeSide(s', staker, id, source).value)
  {
    StakeSideExactly(s, staker, id, source);
    StakeSideExactly(s', staker, id, source);
  }

  /** Hence an admin step changes the outcome of a stake that was possible if and only if it leaves no room for it. */
  lemma AdminBlocksStakeExactlyByCaps(s: State, step: Step, staker: Address, id: Address, source: Address)
    requires IsAdmin(step) && StakeSide(s, staker, id, source).Ok?
    ensures StakeSide(Next(s, step), staker, id, source).Ok? <==>
            RoomUnderCaps(Next(s, step).config, Count(s.counters, staker), s.wagers[id].stake)
  {
    AdminMovesToTwin(s, step);
    StakeReadsCurrentCaps(s, s, staker, id, source);
    StakeReadsCurrentCaps(s, Next(s, step), staker, id, source);
  }

  // ---- over runs, they are all that does ----

  /** Whether each step that is not the admin's gets through. */
  function Successes(s: State, steps: seq<Step>): seq<bool>
    decreases |steps|
  {
    if steps == [] then []
    else
      var front, last := steps[..|steps| - 1], steps[|steps| - 1];
      if IsAdmin(last) then Successes(s, front) else Successes(s, front) + [Apply(Run(s, front), last).Ok?]
  }

  /** In t and t' the caps say the same of a stake that nothing else stands in the way of. */
  predicate CapsAgree(t: State, t': State, step: Step) {
    step.StakeSideIx? && CanSign(step.staker) && OpenToStake(t, step.staker, step.id, step.stakerToken) ==>
      var stake, count := t.wagers[step.id].stake, Count(t.counters, step.staker);
      RoomUnderCaps(t.config, count, stake) == RoomUnderCaps(t'.config, count, stake)
  }

  /** Every stake of the run finds the caps as it would have found them without the admin. */
  predicate CapsAgreeThroughout(s: State, steps: seq<Step>)
    decreases |steps|
  {
    steps == [] ||
    var front, last := steps[..|steps| - 1], steps[|steps| - 1];
    CapsAgreeThroughout(s, front) && CapsAgree(Run(s, WithoutAdmin(front)), Run(s, front), last)
  }

  lemma StakeIgnoresAdminButForCaps(s: State, s': State, step: Step)
    requires Twins(s, s') && step.StakeSideIx?
    ensures Apply(s, step).Ok? == Apply(s', step).Ok? <==> CapsAgree(s, s', step)
    ensures Apply(s, step).Ok? == Apply(s', step).Ok? ==> Twins(Next(s, step), Next(s', step))
  {
    StakeReadsCurrentCaps(s, s, step.staker, step.id, step.stakerToken);
    StakeReadsCurrentCaps(s, s', step.staker, step.id, step.stakerToken);
  }

  lemma StepIgnoresAdminButForCaps(s: State, s': State, step: Step)
    requires Twins(s, s') && !IsAdmin(step) && !step.CreateWagerIx?
    ensures Apply(s, step).Ok? == Apply(s', step).Ok? <==> CapsAgree(s, s', step)
    ensures Apply(s, step).Ok? == Apply(s', step).Ok? ==> Twins(Next(s, step), Next(s', step))
  {
    if step.StakeSideIx? { StakeIgnoresAdminButForCaps(s, s', step); } else { ExitsIgnoreAdmin(s, s', step); }
  }

  lemma SuccessesSnoc(s: State, steps: seq<Step>, step: Step)
    requires !IsAdmin(step)
    ensures Successes(s, steps + [step]) == Successes(s, steps) + [Apply(Run(s, steps), step).Ok?]
  {
    assert (steps + [step])[..|steps|] == steps;
  }

  lemma SnocsAgree(a: seq<bool>, b: seq<bool>, x: bool, y: bool)
    requires |a| == |b|
    ensures a + [x] == b + [y] <==> a == b && x == y
  {
    assert (a + [x])[..|a|] == a && (b + [y])[..|b|] == b;
    assert (a + [x])[|a|] == x && (b + [y])[|b|] == y;
  }

  /** Two runs with stakes in them: strike every admin step out of any run on wagers already open, and every
      remaining step succeeds or fails as before if and only if every stake finds the caps saying the same; and
      then the wagers, counters, balances and accumulator end the same. */
  lemma {:induction false} AdminInterferesExactlyByCaps(s: State, steps: seq<Step>)
    requires forall step <- steps :: !step.CreateWagerIx?
    ensures Successes(s, WithoutAdmin(steps)) == Successes(s, steps) <==> CapsAgreeThroughout(s, steps)
    ensures CapsAgreeThroughout(s, steps) ==> Twins(Run(s, WithoutAdmin(steps)), Run(s, steps))
    ensures |Successes(s, WithoutAdmin(steps))| == |Successes(s, steps)|
    decreases |steps|
  {
    if steps != [] {
      var front, last := steps[..|steps| - 1], steps[|steps| - 1];
      AdminInterferesExactlyByCaps(s, front);
      var kept := WithoutAdmin(front);
      if IsAdmin(last) {
        AdminMovesToTwin(Run(s, front), last);
      } else {
        SuccessesSnoc(s, kept, last);
        RunSnoc(s, kept, last);
        SnocsAgree(Successes(s, kept), Successes(s, front), Apply(Run(s, kept), last).Ok?,
                   Apply(Run(s, front), last).Ok?);
        if CapsAgreeThroughout(s, front) { StepIgnoresAdminButForCaps(Run(s, kept), Run(s, front), last); }
      }
    }
  }

  // ---- a run in which they do ----

  const FIRST_CONFIG := InitializeConfigArgs(Key(2), 100, Key(3), Key(4), 1, 10, 1, [Key(5)], 100, 20)
  const FIRST_WAGER := CreateWagerArgs(0, Key(6), Key(7), 10, 1, 50, 90, Key(5))
  const TIGHTER_CAPS := UpdateConfigArgs(None, None, None, None, Some(1), None, None, None, None, Some(2))

  /** Configured, and one wallet holds all the tokens there are. */
  function FirstLedger(): State {
    State(InitializeConfig(Key(1), FIRST_CONFIG).value, map[], map[],
          map[Key(10) := TokenAccount(Key(6), Key(2), 10, false)], None, 0)
  }

  lemma FirstLedgerIsGenesis()
    ensures IsGenesis(FirstLedger(), Key(1), FIRST_CONFIG)
  {
    var t: TokenMap := map[];
    var x := TokenAccount(Key(6), Key(2), 10, false);
    var t' := t[Key(10) := x];
    assert FirstLedger().tokens == t';
    forall mint ensures Circulating(t', mint) <= U64_MAX { SumOverUpdate(t, OfMint(mint), Key(10), x); }
  }

  /** Ten are at stake in a wager that has opened under the caps of its creation; nobody has staked yet. */
  function OpenedLedger(): State { Next(FirstLedger(), CreateWagerIx(Key(6), FIRST_WAGER)) }

  lemma FirstWagerOpens()
    ensures CreateWager(FirstLedger(), FIRST_WAGER).Ok?
            && OpenedLedger() == CreateWager(FirstLedger(), FIRST_WAGER).value
    ensures OpenedLedger().config == FirstLedger().config
  {
    var c := FirstLedger().config;
    assert c.resolverAllowlist[..c.resolverCount] == [Key(5)];
    CreateWagerExactly(FirstLedger(), FIRST_WAGER);
  }

  lemma OpenedLedgerIsReachable()
    ensures Reachable(OpenedLedger())
  {
    FirstLedgerIsGenesis();
    RunSnoc(FirstLedger(), [], CreateWagerIx(Key(6), FIRST_WAGER));
  }

  lemma TighterCapsBlock(s: State)
    requires s == CreateWager(FirstLedger(), FIRST_WAGER).value && s.config == FirstLedger().config
    requires CreateWager(FirstLedger(), FIRST_WAGER).Ok?
    ensures var id, tighter := WagerPda(Key(6), 0), UpdateConfig(s, Key(1), TIGHTER_CAPS);
            && id in s.wagers && tighter.Ok? && StakeSide(s, Key(6), id, Key(10)).Ok?
            && StakeSide(tighter.value, Key(6), id, Key(10)) == Err(GlobalCapExceeded)
  {
    CreateWagerExactly(FirstLedger(), FIRST_WAGER);
    StakeSideExactly(s, Key(6), WagerPda(Key(6), 0), Key(10));
  }

  /** The guarantee that configuration changes reach future wagers only does not hold of the caps: in this
      reachable ledger side A can stake into its live wager, and after one update by the admin it cannot. */
  lemma CapsReachLiveWagers()
    ensures var s, id := OpenedLedger(), WagerPda(Key(6), 0);
            var tighter := UpdateConfig(s, Key(1), TIGHTER_CAPS);
            && Reachable(s) && id in s.wagers && tighter.Ok?
            && StakeSide(s, Key(6), id, Key(10)).Ok?
            && StakeSide(tighter.value, Key(6), id, Key(10)) == Err(GlobalCapExceeded)
  {
    OpenedLedgerIsReachable();
    FirstWagerOpens();
    TighterCapsBlock(OpenedLedger());
  }
}
