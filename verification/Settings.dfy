/** The configuration stays valid, and every value in it is the last that somebody with the right to named. */
module Settings {
  import opened Types
  import opened Accounts
  import opened Handlers
  import opened Policy
  import opened Steps
  import opened History
  import opened Preservation

  /** After initialization and any run the stored values are valid, and the allowlist is one to four real keys
      followed by default keys. */
  lemma ConfigStaysValid(s: State)
    requires Reachable(s)
    ensures var c := s.config;
            && c.resolverCount <= 4
            && var resolvers := c.resolverAllowlist[..c.resolverCount];
            && ValidValues(c.feeBps, c.minStake, c.maxStake, resolvers, c.maxWindow, c.maxOpenPerWallet, c.maxTotalOpen)
            && ListsExactly(c, resolvers)
            && c.mint != Key(0) && c.feeDestination != Key(0) && c.rentCollector != Key(0)
  {
    ReachableSound(s);
    var c := s.config;
    ValidatesExactly(c.feeBps, c.minStake, c.maxStake, c.resolverAllowlist[..c.resolverCount], c.maxWindow,
                     c.maxOpenPerWallet, c.maxTotalOpen);
  }

  // ---- who changes it ----

  /** An update, proposal or withdrawal signed by the admin of the moment, or the proposed key's acceptance. */
  predicate ActsOnPolicy(s: State, step: Step) {
    || ((step.UpdateConfigIx? || step.ProposeAdminIx? || step.CancelAdminTransferIx?) && step.admin == s.config.admin)
    || (step.AcceptAdminIx? && s.pending == Some(step.newAdmin))
  }

  /** Every other step, whoever signs it, leaves the configuration alone, but for the accumulator, and the proposal. */
  lemma OthersKeepPolicy(s: State, step: Step)
    requires !ActsOnPolicy(s, step)
    ensures var s' := Next(s, step);
            s'.config == s.config.(totalOpenValue := s'.config.totalOpenValue) && s'.pending == s.pending
  {
    if IsAdmin(step) { OthersFailOnPolicy(s, step); }
    else if step.CreateWagerIx? { CreateWagerExactly(s, step.args); }
    else if step.StakeSideIx? { StakeSideExactly(s, step.staker, step.id, step.stakerToken); }
    else if step.ResolveIx? || step.ConcedeIx? { SettlementsKeepPolicy(s, step); }
    else if step.CancelAcceptIx? || step.CancelProposeIx? || step.CancelClearIx? { CancelsKeepPolicy(s, step); }
    else if IsOutside(step) { if Apply(s, step).Ok? { OutsideTouchesTokensAndTime(s, step); } }
    else { SidesKeepPolicy(s, step); }
  }

  lemma OthersFailOnPolicy(s: State, step: Step)
    requires IsAdmin(step) && !ActsOnPolicy(s, step)
    ensures Apply(s, step).Err?
  {
    match step
    case UpdateConfigIx(admin, updates) => UpdatesExactly(s, admin, updates);
    case ProposeAdminIx(admin, newAdmin) => ProposesExactly(s, admin, newAdmin);
    case AcceptAdminIx(newAdmin) => AcceptsExactly(s, newAdmin);
    case CancelAdminTransferIx(admin) => WithdrawsExactly(s, admin);
  }

  lemma SettlementsKeepPolicy(s: State, step: Step)
    requires step.ResolveIx? || step.ConcedeIx?
    ensures var s' := Next(s, step);
            s'.config == s.config.(totalOpenValue := s'.config.totalOpenValue) && s'.pending == s.pending
  {
  }

  lemma CancelsKeepPolicy(s: State, step: Step)
    requires step.CancelAcceptIx? || step.CancelProposeIx? || step.CancelClearIx?
    ensures var s' := Next(s, step);
            s'.config == s.config.(totalOpenValue := s'.config.totalOpenValue) && s'.pending == s.pending
  {
  }

  lemma SidesKeepPolicy(s: State, step: Step)
    requires step.UnstakeSideIx? || step.RefundSideIx? || step.CloseExpiredIx?
    ensures var s' := Next(s, step);
            s'.config == s.config.(totalOpenValue := s'.config.totalOpenValue) && s'.pending == s.pending
  {
  }

  // ---- where each value comes from ----

  datatype Setting =
    | FeeBps | FeeDestination | RentCollector | MinStake | MaxStake | MaxOpenPerWallet | Resolvers | PauseSwitch
    | MaxWindow | MaxTotalOpen

  datatype Value = Number(n: int) | Account(key: Address) | List(keys: seq<Address>) | Switch(on: bool)

  function Current(c: Config, x: Setting): Value {
    match x
    case FeeBps => Number(c.feeBps)
    case FeeDestination => Account(c.feeDestination)
    case RentCollector => Account(c.rentCollector)
    case MinStake => Number(c.minStake)
    case MaxStake => Number(c.maxStake)
    case MaxOpenPerWallet => Number(c.maxOpenPerWallet)
    case Resolvers => List(if c.resolverCount <= 4 then c.resolverAllowlist[..c.resolverCount] else [])
    case PauseSwitch => Switch(c.paused)
    case MaxWindow => Number(c.maxWindow)
    case MaxTotalOpen => Number(c.maxTotalOpen)
  }

  function Initial(args: InitializeConfigArgs, x: Setting): Value {
    match x
    case FeeBps => Number(args.feeBps)
    case FeeDestination => Account(args.feeDestination)
    case RentCollector => Account(args.rentCollector)
    case MinStake => Number(args.minStake)
    case MaxStake => Number(args.maxStake)
    case MaxOpenPerWallet => Number(args.maxOpenPerWallet)
    case Resolvers => List(args.resolvers)
    case PauseSwitch => Switch(false)
    case MaxWindow => Number(args.maxWindow)
    case MaxTotalOpen => Number(args.maxTotalOpen)
  }

  function Wrap<T>(named: Option<T>, wrap: T -> Value): Option<Value> {
    if named.Some? then Some(wrap(named.value)) else None
  }

  function Named(args: UpdateConfigArgs, x: Setting): Option<Value> {
    match x
    case FeeBps => Wrap(args.feeBps, n => Number(n))
    case FeeDestination => Wrap(args.feeDestination, key => Account(key))
    case RentCollector => Wrap(args.rentCollector, key => Account(key))
    case MinStake => Wrap(args.minStake, n => Number(n))
    case MaxStake => Wrap(args.maxStake, n => Number(n))
    case MaxOpenPerWallet => Wrap(args.maxOpenPerWallet, n => Number(n))
    case Resolvers => Wrap(args.resolvers, keys => List(keys))
    case PauseSwitch => Wrap(args.paused, on => Switch(on))
    case MaxWindow => Wrap(args.maxWindow, n => Number(n))
    case MaxTotalOpen => Wrap(args.maxTotalOpen, n => Number(n))
  }

  /** An accepted update that names the setting. */
  predicate Names(e: Entry, x: Setting) { e.ok && e.step.UpdateConfigIx? && Named(e.step.updates, x).Some? }

  /** Entry i, signed by the admin of its time, set x to v, and no accepted update has named x since. */
  predicate SetAt(log: seq<Entry>, i: nat, x: Setting, v: Value) {
    && i < |log| && log[i].ok && log[i].step.UpdateConfigIx?
    && log[i].step.admin == log[i].before.config.admin && CanSign(log[i].step.admin)
    && Named(log[i].step.updates, x) == Some(v)
    && forall k :: i < k < |log| ==> !Names(log[k], x)
  }

  /** The value is the one last named by an admin, or the initializer's if none has named one. */
  ghost predicate CameFrom(args: InitializeConfigArgs, log: seq<Entry>, x: Setting, v: Value) {
    || (v == Initial(args, x) && forall e <- log :: !Names(e, x))
    || exists i: nat :: SetAt(log, i, x, v)
  }

  /** What an entry does to a setting. */
  lemma EntrySets(e: Entry, x: Setting)
    requires Faithful(e)
    ensures Current(e.after.config, x)
            == if Names(e, x) then Named(e.step.updates, x).value else Current(e.before.config, x)
    ensures Names(e, x) ==> e.step.admin == e.before.config.admin && CanSign(e.step.admin)
  {
    if e.step.UpdateConfigIx? { UpdatesExactly(e.before, e.step.admin, e.step.updates); }
    else if IsAdmin(e.step) { RoleLeavesSettings(e.before, e.step, x); }
    else { OthersKeepPolicy(e.before, e.step); }
  }

  lemma RoleLeavesSettings(s: State, step: Step, x: Setting)
    requires IsAdmin(step) && !step.UpdateConfigIx?
    ensures Current(Next(s, step).config, x) == Current(s.config, x)
  {
  }

  lemma FirstSettings(authority: Address, args: InitializeConfigArgs, x: Setting)
    requires InitializeConfig(authority, args).Ok?
    ensures Current(InitializeConfig(authority, args).value, x) == Initial(args, x)
  {
    InitializesExactly(authority, args);
  }

  lemma CameFromGrows(args: InitializeConfigArgs, log: seq<Entry>, e: Entry, x: Setting, v: Value)
    requires CameFrom(args, log, x, v) && !Names(e, x)
    ensures CameFrom(args, log + [e], x, v)
  {
    if i: nat :| SetAt(log, i, x, v) { assert SetAt(log + [e], i, x, v); }
  }

  /** In any run, each of the ten settings has the value in the last accepted update that names it, which the admin
      of its time signed, and until there is one the value it was initialized with. */
  lemma {:induction false} EverySettingWasNamed(start: State, authority: Address, args: InitializeConfigArgs,
                                                log: seq<Entry>, x: Setting)
    requires IsGenesis(start, authority, args) && IsLog(start, log)
    ensures CameFrom(args, log, x, Current(Last(start, log).config, x))
    decreases |log|
  {
    if log == [] {
      FirstSettings(authority, args, x);
    } else {
      var n := |log| - 1;
      LogOfFront(start, log);
      EntrySets(log[n], x);
      if Names(log[n], x) {
        assert SetAt(log, n, x, Current(log[n].after.config, x));
      } else {
        EverySettingWasNamed(start, authority, args, log[..n], x);
        CameFromGrows(args, log[..n], log[n], x, Current(log[n].after.config, x));
        assert log[..n] + [log[n]] == log;
      }
    }
  }

  /** The mint is fixed for the life of the program: no step of any kind changes it. */
  lemma {:induction false} MintIsFixed(start: State, authority: Address, args: InitializeConfigArgs, log: seq<Entry>)
    requires IsGenesis(start, authority, args) && IsLog(start, log)
    ensures Last(start, log).config.mint == args.mint
    decreases |log|
  {
    if log == [] {
      InitializesExactly(authority, args);
    } else {
      LogOfFront(start, log);
      MintIsFixed(start, authority, args, log[..|log| - 1]);
      EntryKeepsMint(log[|log| - 1]);
    }
  }

  lemma EntryKeepsMint(e: Entry)
    requires Faithful(e)
    ensures e.after.config.mint == e.before.config.mint
  {
    if e.step.UpdateConfigIx? { UpdatesExactly(e.before, e.step.admin, e.step.updates); }
    else if !IsAdmin(e.step) { OthersKeepPolicy(e.before, e.step); }
  }

  /** So in any run a resolver is allowed exactly when it is in the list last named. */
  lemma AllowedMeansListed(start: State, authority: Address, args: InitializeConfigArgs, log: seq<Entry>)
    requires IsGenesis(start, authority, args) && IsLog(start, log)
    ensures var c := Last(start, log).config;
            && c.resolverCount <= RESOLVER_ALLOWLIST_LEN
            && exists keys :: CameFrom(args, log, Resolvers, List(keys))
                              && forall key :: c.ResolverAllowed(key) <==> key in keys
  {
    GenesisSound(start, authority, args);
    LogKeeps(start, log);
    EverySettingWasNamed(start, authority, args, log, Resolvers);
  }

  const NO_CHANGE := UpdateConfigArgs(None, None, None, None, None, None, None, None, None, None)

  /** From any reachable state the admin can always make the update that changes nothing, and it changes nothing. */
  lemma EmptyUpdateIsIdentity(s: State)
    requires Reachable(s)
    ensures UpdateConfig(s, s.config.admin, NO_CHANGE) == Ok(s)
  {
    ReachableSound(s);
  }
}
