/** Who has to sign before a locked wager's money moves, over whole runs. */
module Consent {
  import opened Types
  import opened Tokens
  import opened Accounts
  import opened Handlers
  import opened Steps
  import opened History
  import opened Invariant
  import opened Exits
  import opened Preservation
  import opened Shapes

  /** The pinned resolver, the side that loses, or the second of the two sides after the first. */
  predicate Consented(w: Wager, step: Step) {
    match step
    case ResolveIx(resolver, _, _, winner) => CanSign(resolver) && resolver == w.resolver && w.IsParticipant(winner)
    case ConcedeIx(conceder, _, winner) =>
      CanSign(conceder) && w.IsParticipant(conceder) && winner == w.Counterparty(conceder) && winner != conceder
    case CancelAcceptIx(acceptor, _) =>
      CanSign(acceptor) && w.IsParticipant(w.cancelProposedBy) && acceptor == w.Counterparty(w.cancelProposedBy)
      && w.cancelProposedBy != DEFAULT && acceptor != w.cancelProposedBy
    case _ => false
  }

  /** A transfer out of an account is signed by the account's owner. */
  lemma OwnerSignsTransfers(s: State, step: Step, vault: Address)
    requires Apply(s, step).Ok? && Payer(s, step) == Some(vault) && (step.StakeSideIx? || step.SplTransfer?)
    ensures vault in s.tokens && CanSign(s.tokens[vault].owner)
  {
    if step.StakeSideIx? { StakeSideExactly(s, step.staker, step.id, step.stakerToken); }
  }

  lemma PayersOfVaults(s: State, step: Step, id: Address, mint: Address)
    requires id.WagerPda? && AtaOf(id, mint) in s.tokens && s.tokens[AtaOf(id, mint)].owner == id
    requires Apply(s, step).Ok? && Payer(s, step) == Some(AtaOf(id, mint))
    ensures (step.UnstakeSideIx? || step.RefundSideIx? || step.ResolveIx? || step.ConcedeIx? || step.CancelAcceptIx?
             || step.CloseExpiredIx?) && step.id == id
  {
    if step.StakeSideIx? || step.SplTransfer? { OwnerSignsTransfers(s, step, AtaOf(id, mint)); }
  }

  /** Only a step on the wager itself can draw on its vault: no key pair owns it. */
  lemma VaultPaysForItsWager(s: State, step: Step, id: Address)
    requires Inv(s) && id in s.wagers && Apply(s, step).Ok?
    requires Payer(s, step) == Some(Vault(id, s.wagers[id]))
    ensures step.UnstakeSideIx? || step.RefundSideIx? || step.ResolveIx? || step.ConcedeIx? || step.CancelAcceptIx?
            || step.CloseExpiredIx?
    ensures step.id == id
  {
    assert WagerSound(s.config.mint, s.now, id, s.wagers[id]) && VaultSound(s.tokens, id, s.wagers[id]);
    PayersOfVaults(s, step, id, s.wagers[id].mint);
  }

  lemma EarlyExitNotDraw(s: State, step: Step, id: Address)
    requires ActiveInTime(s, id) && (step.UnstakeSideIx? || step.RefundSideIx? || step.CloseExpiredIx?) && step.id == id
    ensures Apply(s, step).Err?
  {
  }

  lemma SettlementNeedsConsent(s: State, step: Step, id: Address)
    requires Inv(s) && ActiveInTime(s, id) && Apply(s, step).Ok?
    requires (step.ResolveIx? || step.ConcedeIx? || step.CancelAcceptIx?) && step.id == id
    ensures Consented(s.wagers[id], step)
  {
    ActiveInTimeIsReady(s, id);
    match step
    case ResolveIx(resolver, _, winnerAccount, winner) => ResolveExactly(s, resolver, id, winnerAccount, winner);
    case ConcedeIx(conceder, _, winnerAccount) => ConcedeExactly(s, conceder, id, winnerAccount);
    case CancelAcceptIx(acceptor, _) => CancelAcceptExactly(s, acceptor, id);
  }

  /** While a wager is Active and in time, its vault is drawn on only with consent. */
  lemma VaultFallsOnlyByConsent(s: State, step: Step, id: Address)
    requires Inv(s) && ActiveInTime(s, id)
    requires AmountAt(Next(s, step).tokens, Vault(id, s.wagers[id])) < AmountAt(s.tokens, Vault(id, s.wagers[id]))
    ensures Consented(s.wagers[id], step) && step.id == id
  {
    assert Apply(s, step).Ok?;
    assert VaultSound(s.tokens, id, s.wagers[id]);
    OnlyPayerFalls(s, step);
    VaultPaysForItsWager(s, step, id);
    if step.ResolveIx? || step.ConcedeIx? || step.CancelAcceptIx? { SettlementNeedsConsent(s, step, id); }
    else { EarlyExitNotDraw(s, step, id); }
  }

  // ---- an open proposal has a history ----

  /** Entry i of the log is a successful proposal by who, the wager has been live ever since, and no
      proposal on it has been cleared since. */
  predicate ProposedAt(log: seq<Entry>, i: nat, id: Address, who: Address) {
    && i < |log| && log[i].ok && log[i].step == CancelProposeIx(who, id) && CanSign(who)
    && (forall k :: i <= k < |log| ==> id in log[k].before.wagers)
    && (forall k :: i < k < |log| ==> !(log[k].ok && log[k].step.CancelClearIx? && log[k].step.id == id))
  }

  /** A side proposes exactly while the wager is Active, in time and without an open proposal. */
  lemma CancelProposesExactly(s: State, participant: Address, id: Address)
    requires Inv(s)
    ensures var r := CancelPropose(s, participant, id);
            && (r.Ok? <==> ActiveInTime(s, id) && s.wagers[id].IsParticipant(participant)
                           && s.wagers[id].cancelProposedBy == DEFAULT)
            && (r.Ok? ==> r.value == s.(wagers := s.wagers[id := s.wagers[id].(cancelProposedBy := participant)]))
  {
    if id in s.wagers { assert WagerSound(s.config.mint, s.now, id, s.wagers[id]); }
  }

  /** Either side clears an open proposal, its own or the other's, at any time. */
  lemma CancelClearsExactly(s: State, participant: Address, id: Address)
    requires Inv(s)
    ensures var r := CancelClear(s, participant, id);
            && (r.Ok? <==> id in s.wagers && s.wagers[id].IsParticipant(participant)
                           && s.wagers[id].cancelProposedBy != DEFAULT)
            && (r.Ok? ==> r.value == s.(wagers := s.wagers[id := s.wagers[id].(cancelProposedBy := DEFAULT)]))
  {
    if id in s.wagers { assert WagerSound(s.config.mint, s.now, id, s.wagers[id]); }
  }

  /** One step can open a proposal only by proposing. */
  lemma ProposalComesFromProposing(s: State, step: Step, id: Address)
    requires id in Next(s, step).wagers && Next(s, step).wagers[id].cancelProposedBy != DEFAULT
    ensures var who := Next(s, step).wagers[id].cancelProposedBy;
            || (step == CancelProposeIx(who, id) && CanSign(who) && Apply(s, step).Ok? && id in s.wagers)
            || (id in s.wagers && s.wagers[id].cancelProposedBy == who
                && !(step.CancelClearIx? && step.id == id && Apply(s, step).Ok?))
  {
    if Apply(s, step).Ok? {
      if step.CreateWagerIx? { StepOpensOneWager(s, step); }
      else if EndsWager(step) { StepEndsOneWager(s, step); }
      else if IsAdmin(step) { AdminMovesToTwin(s, step); }
      else if IsOutside(step) { OutsideTouchesTokensAndTime(s, step); }
      else { StepKeepsOrSetsProposal(s, step, id); }
    }
  }

  lemma StepKeepsOrSetsProposal(s: State, step: Step, id: Address)
    requires Apply(s, step).Ok? && id in Apply(s, step).value.wagers
    requires step.StakeSideIx? || step.UnstakeSideIx? || step.RefundSideIx? || step.CancelProposeIx?
             || step.CancelClearIx?
    ensures id in s.wagers
    ensures var before, after := s.wagers[id].cancelProposedBy, Apply(s, step).value.wagers[id].cancelProposedBy;
            || (before == after && !(step.CancelClearIx? && step.id == id))
            || (step.CancelProposeIx? && step.id == id && step.participant == after && CanSign(after))
            || (step.CancelClearIx? && step.id == id && after == DEFAULT)
  {
    if step.StakeSideIx? { StakeSideExactly(s, step.staker, step.id, step.stakerToken); }
  }

  /** In any run, an open proposal was signed by the side it names, in this life of the wager, with no clear since. */
  lemma {:induction false} OpenProposalWasSigned(start: State, log: seq<Entry>, id: Address) returns (i: nat)
    requires IsLog(start, log) && start.wagers == map[]
    requires id in Last(start, log).wagers && Last(start, log).wagers[id].cancelProposedBy != DEFAULT
    ensures ProposedAt(log, i, id, Last(start, log).wagers[id].cancelProposedBy)
    decreases |log|
  {
    var n := |log| - 1;
    LogOfFront(start, log);
    var who := log[n].after.wagers[id].cancelProposedBy;
    ProposalSource(log[n], id);
    if log[n].ok && log[n].step == CancelProposeIx(who, id) {
      i := n;
    } else {
      i := OpenProposalWasSigned(start, log[..n], id);
    }
  }

  lemma ProposalSource(e: Entry, id: Address)
    requires Faithful(e) && id in e.after.wagers && e.after.wagers[id].cancelProposedBy != DEFAULT
    ensures id in e.before.wagers
    ensures var who := e.after.wagers[id].cancelProposedBy;
            || (e.ok && e.step == CancelProposeIx(who, id) && CanSign(who))
            || (e.before.wagers[id].cancelProposedBy == who && !(e.ok && e.step.CancelClearIx? && e.step.id == id))
  {
    ProposalComesFromProposing(e.before, e.step, id);
  }

  lemma FallByConsent(e: Entry, id: Address)
    requires Faithful(e) && Inv(e.before) && ActiveInTime(e.before, id)
    requires var vault := Vault(id, e.before.wagers[id]);
             AmountAt(e.after.tokens, vault) < AmountAt(e.before.tokens, vault)
    ensures e.ok && Consented(e.before.wagers[id], e.step) && e.step.id == id
  {
    VaultFallsOnlyByConsent(e.before, e.step, id);
  }

  /** Consent over runs: whenever a step of a run lowers the vault of an Active wager in time, it is signed by
      the pinned resolver, or by the side it makes lose, or by one side after the other side signed a proposal
      in the same life of the wager that nobody has cleared. */
  lemma LockedMoneyMovesByConsent(start: State, authority: Address, args: InitializeConfigArgs, log: seq<Entry>,
                                  k: nat, id: Address)
    requires IsGenesis(start, authority, args) && IsLog(start, log) && k < |log| && ActiveInTime(log[k].before, id)
    requires var vault := Vault(id, log[k].before.wagers[id]);
             AmountAt(log[k].after.tokens, vault) < AmountAt(log[k].before.tokens, vault)
    ensures var w, step := log[k].before.wagers[id], log[k].step;
            && log[k].ok && Consented(w, step) && step.id == id
            && (step.CancelAcceptIx? ==> exists i: nat :: ProposedAt(log[..k], i, id, w.Counterparty(step.acceptor)))
  {
    LogPrefix(start, log, k);
    LogEndsSound(start, authority, args, log[..k]);
    FallByConsent(log[k], id);
    var s, step := log[k].before, log[k].step;
    assert WagerSound(s.config.mint, s.now, id, s.wagers[id]);
    if step.CancelAcceptIx? {
      var i := OpenProposalWasSigned(start, log[..k], id);
      assert ProposedAt(log[..k], i, id, s.wagers[id].Counterparty(step.acceptor));
    }
  }

  lemma LogEndsSound(start: State, authority: Address, args: InitializeConfigArgs, log: seq<Entry>)
    requires IsGenesis(start, authority, args) && IsLog(start, log)
    ensures Inv(Last(start, log))
  {
    GenesisSound(start, authority, args);
    LogKeeps(start, log);
  }
}
