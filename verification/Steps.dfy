/** Runs: any sequence of program instructions and of events outside the program. */
module Steps {
  import opened Types
  import opened Tokens
  import opened Accounts
  import opened Handlers

  datatype Step =
    // program instructions; the first argument of each is the signer
    | UpdateConfigIx(admin: Address, updates: UpdateConfigArgs)
    | ProposeAdminIx(admin: Address, newAdmin: Address)
    | AcceptAdminIx(newAdmin: Address)
    | CancelAdminTransferIx(admin: Address)
    | CreateWagerIx(payer: Address, args: CreateWagerArgs)
    | StakeSideIx(staker: Address, id: Address, stakerToken: Address)
    | UnstakeSideIx(staker: Address, id: Address)
    | ResolveIx(resolver: Address, id: Address, winnerAccount: Address, winner: Address)
    | ConcedeIx(conceder: Address, id: Address, winnerAccount: Address)
    | RefundSideIx(cranker: Address, id: Address, side: Address)
    | CancelProposeIx(participant: Address, id: Address)
    | CancelClearIx(participant: Address, id: Address)
    | CancelAcceptIx(acceptor: Address, id: Address)
    | CloseExpiredIx(cranker: Address, id: Address, feeToken: Option<Address>)
    // time, and what others do with the token program
    | Tick(seconds: nat)
    | SplTransfer(authority: Address, source: Address, to: Address, amount: u64)
    | SplClose(authority: Address, account: Address, destination: Address)
    | SplOpen(payer: Address, account: Address, owner: Address, mint: Address)
    | SplSetOwner(authority: Address, account: Address, newOwner: Address)
    | SplSetFrozen(freezer: Address, account: Address, frozen: bool)

  function Signer(step: Step): Option<Address> {
    match step
    case UpdateConfigIx(admin, _) => Some(admin)
    case ProposeAdminIx(admin, _) => Some(admin)
    case AcceptAdminIx(newAdmin) => Some(newAdmin)
    case CancelAdminTransferIx(admin) => Some(admin)
    case CreateWagerIx(payer, _) => Some(payer)
    case StakeSideIx(staker, _, _) => Some(staker)
    case UnstakeSideIx(staker, _) => Some(staker)
    case ResolveIx(resolver, _, _, _) => Some(resolver)
    case ConcedeIx(conceder, _, _) => Some(conceder)
    case RefundSideIx(cranker, _, _) => Some(cranker)
    case CancelProposeIx(participant, _) => Some(participant)
    case CancelClearIx(participant, _) => Some(participant)
    case CancelAcceptIx(acceptor, _) => Some(acceptor)
    case CloseExpiredIx(cranker, _, _) => Some(cranker)
    case Tick(_) => None
    case SplTransfer(authority, _, _, _) => Some(authority)
    case SplClose(authority, _, _) => Some(authority)
    case SplOpen(payer, _, _, _) => Some(payer)
    case SplSetOwner(authority, _, _) => Some(authority)
    case SplSetFrozen(freezer, _, _) => Some(freezer)
  }

  predicate EndsWager(step: Step) {
    step.ResolveIx? || step.ConcedeIx? || step.CancelAcceptIx? || step.CloseExpiredIx?
  }

  /** A token account is created at a key that signs for itself, or at the address derived for its owner. */
  predicate MayOpen(account: Address, owner: Address, mint: Address) {
    account.Key? || account == AtaOf(owner, mint)
  }

  function Execute(s: State, step: Step): Result<State> {
    match step
    case UpdateConfigIx(admin, updates) => UpdateConfig(s, admin, updates)
    case ProposeAdminIx(admin, newAdmin) => ProposeAdmin(s, admin, newAdmin)
    case AcceptAdminIx(newAdmin) => AcceptAdmin(s, newAdmin)
    case CancelAdminTransferIx(admin) => CancelAdminTransfer(s, admin)
    case CreateWagerIx(_, args) => CreateWager(s, args)
    case StakeSideIx(staker, id, stakerToken) => StakeSide(s, staker, id, stakerToken)
    case UnstakeSideIx(staker, id) => UnstakeSide(s, staker, id)
    case ResolveIx(resolver, id, winnerAccount, winner) => Resolve(s, resolver, id, winnerAccount, winner)
    case ConcedeIx(conceder, id, winnerAccount) => Concede(s, conceder, id, winnerAccount)
    case RefundSideIx(_, id, side) => RefundSide(s, id, side)
    case CancelProposeIx(participant, id) => CancelPropose(s, participant, id)
    case CancelClearIx(participant, id) => CancelClear(s, participant, id)
    case CancelAcceptIx(acceptor, id) => CancelAccept(s, acceptor, id)
    case CloseExpiredIx(_, id, feeToken) => CloseExpired(s, id, feeToken)
    case Tick(seconds) =>
      :- Need(s.now + seconds <= I64_MAX, Panic);
      Ok(s.(now := s.now + seconds))
    case SplTransfer(authority, source, to, amount) =>
      var tokens :- Transfer(s.tokens, source, to, authority, amount);
      Ok(s.(tokens := tokens))
    case SplClose(authority, account, destination) =>
      var tokens :- Close(s.tokens, account, destination, authority);
      Ok(s.(tokens := tokens))
    case SplOpen(_, account, owner, mint) =>
      :- Need(account !in s.tokens && MayOpen(account, owner, mint), AccountInUse);
      Ok(s.(tokens := s.tokens[account := TokenAccount(owner, mint, 0, false)]))
    case SplSetOwner(authority, account, newOwner) =>
      :- Need(account in s.tokens, AccountMissing);
      :- Need(!s.tokens[account].frozen, AccountFrozen);
      :- Need(s.tokens[account].owner == authority, OwnerMismatch);
      Ok(s.(tokens := s.tokens[account := s.tokens[account].(owner := newOwner)]))
    case SplSetFrozen(_, account, frozen) =>
      :- Need(account in s.tokens, AccountMissing);
      Ok(s.(tokens := s.tokens[account := s.tokens[account].(frozen := frozen)]))
  }

  /** The runtime verifies the signature first. */
  function Apply(s: State, step: Step): Result<State> {
    var signer := Signer(step);
    :- Need(signer.Some? ==> CanSign(signer.value), MissingSignature);
    Execute(s, step)
  }

  /** A step that fails leaves the ledger as it was. */
  function Next(s: State, step: Step): State {
    var r := Apply(s, step);
    if r.Ok? then r.value else s
  }

  function Run(s: State, steps: seq<Step>): State
    decreases |steps|
  {
    if steps == [] then s else Next(Run(s, steps[..|steps| - 1]), steps[|steps| - 1])
  }

  // ---- where runs start ----

  /** No key pair controls a wager's vault address: only its own program address can own it. */
  ghost predicate VaultsUncontrolled(t: TokenMap) {
    forall a <- t :: a.AtaOf? && a.owner.WagerPda? ==> t[a].owner == a.owner && t[a].mint == a.mint
  }

  ghost predicate SupplyFits(t: TokenMap) {
    forall mint :: Circulating(t, mint) <= U64_MAX
  }

  /** The ledger right after initialize_config, over any token accounts at all. */
  ghost predicate IsGenesis(s: State, authority: Address, args: InitializeConfigArgs) {
    && CanSign(authority)
    && InitializeConfig(authority, args) == Ok(s.config)
    && s.wagers == map[] && s.counters == map[] && s.pending == None
    && 0 <= s.now
    && VaultsUncontrolled(s.tokens) && SupplyFits(s.tokens)
  }

  ghost predicate Reachable(s: State) {
    exists genesis, authority, args, steps :: IsGenesis(genesis, authority, args) && s == Run(genesis, steps)
  }

  lemma RunSnoc(s: State, steps: seq<Step>, step: Step)
    ensures Run(s, steps + [step]) == Next(Run(s, steps), step)
  {
    assert (steps + [step])[..|steps|] == steps;
  }
}
