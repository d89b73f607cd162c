/** What the admin's instructions and an opening do, field by field. */
module Policy {
  import opened Types
  import opened Accounts
  import opened Handlers

  // ---- which configurations are valid ----

  /** A fee of at most a tenth, ordered stake bounds, one to four real resolvers, a window of at most 180 days, and
      room under the caps for one wager per wallet and for two stakes of the largest size. */
  predicate ValidValues(feeBps: u16, minStake: u64, maxStake: u64, resolvers: seq<Address>, maxWindow: i64,
                        maxOpenPerWallet: u8, maxTotalOpen: u64)
  {
    && feeBps <= 1_000 && 0 < minStake <= maxStake && 1 <= |resolvers| <= 4 && Key(0) !in resolvers
    && 0 < maxWindow <= 15_552_000 && 0 < maxOpenPerWallet && 2 * maxStake <= maxTotalOpen
  }

  lemma ValidatesExactly(feeBps: u16, minStake: u64, maxStake: u64, resolvers: seq<Address>, maxWindow: i64,
                         maxOpenPerWallet: u8, maxTotalOpen: u64)
    ensures ValidateConfigValues(feeBps, minStake, maxStake, resolvers, maxWindow, maxOpenPerWallet, maxTotalOpen).Ok?
            <==> ValidValues(feeBps, minStake, maxStake, resolvers, maxWindow, maxOpenPerWallet, maxTotalOpen)
  {
  }

  /** The allowlist is the resolvers in order, then default keys. */
  predicate ListsExactly(c: Config, resolvers: seq<Address>) {
    && c.resolverCount == |resolvers| <= 4 && c.resolverAllowlist[..c.resolverCount] == resolvers
    && forall i :: |resolvers| <= i < 4 ==> c.resolverAllowlist[i] == Key(0)
  }

  // ---- initialization ----

  predicate SetUpAs(c: Config, authority: Address, args: InitializeConfigArgs) {
    && c.admin == authority && c.mint == args.mint && c.feeBps == args.feeBps
    && c.feeDestination == args.feeDestination && c.rentCollector == args.rentCollector
    && c.minStake == args.minStake && c.maxStake == args.maxStake && c.maxOpenPerWallet == args.maxOpenPerWallet
    && ListsExactly(c, args.resolvers) && !c.paused
    && c.maxWindow == args.maxWindow && c.maxTotalOpen == args.maxTotalOpen && c.totalOpenValue == 0
  }

  /** Initialization accepts exactly the valid values with real destinations, and stores each in its field. */
  lemma InitializesExactly(authority: Address, args: InitializeConfigArgs)
    ensures var r := InitializeConfig(authority, args);
            && (r.Ok? <==> ValidValues(args.feeBps, args.minStake, args.maxStake, args.resolvers, args.maxWindow,
                                       args.maxOpenPerWallet, args.maxTotalOpen)
                           && args.mint != Key(0) && args.feeDestination != Key(0) && args.rentCollector != Key(0))
            && (r.Ok? ==> SetUpAs(r.value, authority, args))
  {
    if InitializeConfig(authority, args).Ok? {
      assert Padded(args.resolvers)[..|args.resolvers|] == args.resolvers;
    }
  }

  // ---- updates ----

  /** A named value takes effect, and one that is not named stays. */
  predicate Takes<T(==)>(named: Option<T>, before: T, after: T) {
    after == if named.Some? then named.value else before
  }

  predicate Updated(c: Config, args: UpdateConfigArgs, c': Config) {
    && Takes(args.feeBps, c.feeBps, c'.feeBps)
    && Takes(args.feeDestination, c.feeDestination, c'.feeDestination)
    && Takes(args.rentCollector, c.rentCollector, c'.rentCollector)
    && Takes(args.minStake, c.minStake, c'.minStake) && Takes(args.maxStake, c.maxStake, c'.maxStake)
    && Takes(args.maxOpenPerWallet, c.maxOpenPerWallet, c'.maxOpenPerWallet)
    && Takes(args.paused, c.paused, c'.paused) && Takes(args.maxWindow, c.maxWindow, c'.maxWindow)
    && Takes(args.maxTotalOpen, c.maxTotalOpen, c'.maxTotalOpen)
    && (if args.resolvers.Some? then ListsExactly(c', args.resolvers.value)
        else c'.resolverAllowlist == c.resolverAllowlist && c'.resolverCount == c.resolverCount)
    && c'.admin == c.admin && c'.mint == c.mint && c'.totalOpenValue == c.totalOpenValue
  }

  /** The values that would be in force after an update are valid, and no destination is set to the default key. */
  predicate AsksForValid(c: Config, args: UpdateConfigArgs) {
    && c.resolverCount <= 4
    && ValidValues(Or(args.feeBps, c.feeBps), Or(args.minStake, c.minStake), Or(args.maxStake, c.maxStake),
                   Or(args.resolvers, c.resolverAllowlist[..c.resolverCount]), Or(args.maxWindow, c.maxWindow),
                   Or(args.maxOpenPerWallet, c.maxOpenPerWallet), Or(args.maxTotalOpen, c.maxTotalOpen))
    && args.feeDestination != Some(Key(0)) && args.rentCollector != Some(Key(0))
  }

  /** An update gets through exactly when the admin signs it and what it asks for is valid; then every field has the
      value named for it, or else the one it had, and nothing besides the configuration changes. */
  lemma UpdatesExactly(s: State, admin: Address, args: UpdateConfigArgs)
    ensures var r := UpdateConfig(s, admin, args);
            && (r.Ok? <==> admin == s.config.admin && AsksForValid(s.config, args))
            && (admin != s.config.admin ==> r == Err(NotAdmin))
            && (r.Ok? ==> Updated(s.config, args, r.value.config) && r.value == s.(config := r.value.config))
  {
    if UpdateConfig(s, admin, args).Ok? && args.resolvers.Some? {
      var resolvers := args.resolvers.value;
      assert Padded(resolvers)[..|resolvers|] == resolvers;
    }
  }

  // ---- the admin role ----

  /** The admin proposes any key but the default one and its own, and a new proposal replaces the old. */
  lemma ProposesExactly(s: State, admin: Address, newAdmin: Address)
    ensures var r := ProposeAdmin(s, admin, newAdmin);
            && (r.Ok? <==> admin == s.config.admin && newAdmin != Key(0) && newAdmin != s.config.admin)
            && (r.Ok? ==> r.value == s.(pending := Some(newAdmin)))
  {
  }

  /** The proposed key, and nobody else, takes the role. */
  lemma AcceptsExactly(s: State, newAdmin: Address)
    ensures var r := AcceptAdmin(s, newAdmin);
            && (r.Ok? <==> s.pending == Some(newAdmin))
            && (r.Ok? ==> r.value == s.(config := s.config.(admin := newAdmin), pending := None))
  {
  }

  /** The admin, and nobody else, withdraws a pending proposal. */
  lemma WithdrawsExactly(s: State, admin: Address)
    ensures var r := CancelAdminTransfer(s, admin);
            && (r.Ok? <==> admin == s.config.admin && s.pending.Some?)
            && (r.Ok? ==> r.value == s.(pending := None))
  {
  }

  // ---- the record of a wager ----

  /** The terms on record are those the creation named, and the fee and destinations those configured at the time. */
  predicate AgreedTerms(w: Wager, args: CreateWagerArgs, c: Config) {
    && w.sideA == args.sideA && w.sideB == args.sideB && w.stake == args.stake && w.resolver == args.resolver
    && w.termsHash == args.termsHash && w.nonce == args.nonce
    && w.deadlineFund == args.deadlineFund && w.deadlineResolve == args.deadlineResolve
    && w.mint == c.mint && w.feeBps == c.feeBps
    && w.feeDestination == c.feeDestination && w.rentCollector == c.rentCollector
  }

  /** And nothing has happened to it yet. */
  predicate OpensOn(w: Wager, args: CreateWagerArgs, c: Config) {
    && AgreedTerms(w, args, c) && w.state == Funding && w.cancelProposedBy == Key(0)
    && !w.fundedA && !w.fundedB && !w.refundedA && !w.refundedB
  }
}
