/** The program refines the shadow model, in both directions: an action succeeds exactly when the shadow says
    it must, and the two stay in step. */
module Refinement {
  import opened Types
  import opened Tokens
  import opened Accounts
  import opened Handlers
  import opened Steps
  import opened History
  import opened Invariant
  import opened Exits
  import opened Preservation
  import opened Shapes
  import opened Payoff
  import opened Persistence
  import Shadow

  // ---- what the two have to do with each other ----

  /** The configuration of a sequence and its resolver. */
  datatype Fixture = Fixture(config: Config, resolver: Address)

  /** The actors are ordinary wallets, the resolver is none of them, and the pinned destinations are not theirs. */
  predicate FixtureSound(fx: Fixture, actors: set<Address>) {
    && !fx.config.paused && CanSign(fx.config.admin) && CanSign(fx.config.rentCollector)
    && CanSign(fx.resolver) && fx.resolver !in actors
    && fx.config.resolverCount <= RESOLVER_ALLOWLIST_LEN && fx.config.ResolverAllowed(fx.resolver)
    && Lasting(fx.config.feeDestination)
    && (forall a <- actors :: CanSign(a) && a != DEFAULT && fx.config.feeDestination != AtaOf(a, fx.config.mint))
  }

  function RulesOf(c: Config, resolver: Address): Shadow.Rules {
    Shadow.Rules(c.maxOpenPerWallet, c.maxTotalOpen, c.minStake, c.maxStake, c.maxWindow, resolver)
  }

  /** A live wager as the shadow sees it. */
  function Picture(w: Wager): Shadow.MWager {
    Shadow.MWager(w.sideA, w.sideB, w.stake, w.feeBps, w.deadlineFund, w.deadlineResolve,
                  if w.state == Funding then Shadow.MFunding else Shadow.MActive,
                  w.fundedA, w.fundedB, w.refundedA, w.refundedB,
                  if w.cancelProposedBy == DEFAULT then None else Some(w.cancelProposedBy), false)
  }

  /** What every wager of a sequence has in common. */
  predicate OfFixture(fx: Fixture, w: Wager) {
    && w.mint == fx.config.mint && w.resolver == fx.resolver
    && w.feeDestination == fx.config.feeDestination && w.rentCollector == fx.config.rentCollector
  }

  predicate ConfigMatches(fx: Fixture, m: Shadow.Model, c: Config) {
    && c == fx.config.(feeBps := c.feeBps, totalOpenValue := c.totalOpenValue)
    && c.feeBps == m.feeBpsCurrent && c.totalOpenValue == m.totalOpen
  }

  predicate WalletsMatch(mint: Address, balances: map<Address, int>, t: TokenMap) {
    forall a <- balances :: Usable(t, a, mint) && t[AtaOf(a, mint)].amount == balances[a]
  }

  predicate FeesMatch(c: Config, feeBalance: int, t: TokenMap) {
    Receives(t, c.feeDestination, c.mint) && t[c.feeDestination].amount == feeBalance
  }

  predicate CountersMatch(counters: map<Address, int>, chain: map<Address, u8>) {
    forall a <- counters :: counters[a] == Count(chain, a)
  }

  /** Closed means gone, and open means the same. */
  predicate WagersMatch(fx: Fixture, m: Shadow.Model, wagers: map<Address, Wager>) {
    && (forall id <- m.wagers :: id in wagers <==> !m.wagers[id].closed)
    && (forall id <- wagers :: id in m.wagers && m.wagers[id] == Picture(wagers[id]) && OfFixture(fx, wagers[id])
                               && wagers[id].sideA in m.balances && wagers[id].sideB in m.balances)
  }

  /** Each vault holds exactly its wager's stakes, and there is no vault without its wager. */
  predicate VaultsMatch(mint: Address, wagers: map<Address, Wager>, t: TokenMap) {
    && (forall id <- wagers ::
          var v := AtaOf(id, mint); v in t && !t[v].frozen && t[v].amount == wagers[id].Outstanding())
    && (forall a <- t :: a.AtaOf? && a.owner.WagerPda? && a.mint == mint ==> a.owner in wagers)
  }

  predicate Matches(fx: Fixture, m: Shadow.Model, s: State) {
    && m.counters.Keys == m.balances.Keys && FixtureSound(fx, m.balances.Keys)
    && ConfigMatches(fx, m, s.config)
    && WalletsMatch(fx.config.mint, m.balances, s.tokens) && FeesMatch(fx.config, m.feeBalance, s.tokens)
    && CountersMatch(m.counters, s.counters)
    && WagersMatch(fx, m, s.wagers) && VaultsMatch(fx.config.mint, s.wagers, s.tokens)
  }

  ghost predicate Simulates(fx: Fixture, m: Shadow.Model, s: State) { Inv(s) && Matches(fx, m, s) }

  function SideOf(m: Shadow.Model, id: Address, ofA: bool): Address
    requires id in m.wagers
  {
    if ofA then m.wagers[id].sa else m.wagers[id].sb
  }

  /** The transaction that carries out an action. */
  function StepOf(fx: Fixture, m: Shadow.Model, action: Shadow.Action, now: i64): Step
    requires Shadow.Drawn(RulesOf(fx.config, fx.resolver), m, now, action)
  {
    var mint := fx.config.mint;
    match action
    case Create(args) => CreateWagerIx(Key(1), args)
    case Stake(actor, id) => StakeSideIx(actor, id, AtaOf(actor, mint))
    case Unstake(actor, id) => UnstakeSideIx(actor, id)
    case Concede(actor, id, namesSelf) => ConcedeIx(actor, id, Shadow.Named(m.wagers[id], actor, namesSelf))
    case Resolve(id, winner) => ResolveIx(fx.resolver, id, winner, winner)
    case Refund(id, ofA) => RefundSideIx(Key(1), id, SideOf(m, id, ofA))
    case Close(id) => CloseExpiredIx(Key(1), id, Some(fx.config.feeDestination))
    case Propose(actor, id) => CancelProposeIx(actor, id)
    case Clear(actor, id) => CancelClearIx(actor, id)
    case Accept(actor, id) => CancelAcceptIx(actor, id)
    case ChangeFee(bps) => UpdateConfigIx(fx.config.admin, FeeUpdate(bps))
    case Warp(seconds) => Tick(seconds)
  }

  function FeeUpdate(bps: u16): UpdateConfigArgs {
    UpdateConfigArgs(Some(bps), None, None, None, None, None, None, None, None, None)
  }

  // ---- what the shadow sees of one open wager ----

  /** Everything an action on wager id needs to know. */
  predicate Seen(fx: Fixture, m: Shadow.Model, s: State, id: Address) {
    && id in s.wagers && id in m.wagers
    && var w := s.wagers[id];
    && m.wagers[id] == Picture(w) && OfFixture(fx, w) && w.mint == fx.config.mint
    && w.sideA in m.balances && w.sideB in m.balances && w.sideA != w.sideB
    && w.sideA != DEFAULT && w.sideB != DEFAULT && CanSign(w.sideA) && CanSign(w.sideB)
    && id == WagerPda(w.sideA, w.nonce) && (w.state == Funding || w.state == Active)
    && (w.state == Active <==> w.fundedA && w.fundedB) && (w.refundedA ==> w.fundedA) && (w.refundedB ==> w.fundedB)
    && (w.refundedA || w.refundedB ==> w.Due(s.now))
    && IsAta(s.tokens, id, w.mint) && !s.tokens[Vault(id, w)].frozen && s.tokens[Vault(id, w)].amount == w.Outstanding()
    && Usable(s.tokens, w.sideA, w.mint) && Usable(s.tokens, w.sideB, w.mint)
    && Receives(s.tokens, w.feeDestination, w.mint) && Lasting(w.feeDestination) && CanSign(w.rentCollector)
    && w.feeDestination != AtaOf(w.sideA, w.mint) && w.feeDestination != AtaOf(w.sideB, w.mint)
  }

  lemma OpenIsSeen(fx: Fixture, m: Shadow.Model, s: State, id: Address)
    requires Simulates(fx, m, s) && id in m.wagers
    ensures id in s.wagers <==> !m.wagers[id].closed
    ensures id in s.wagers ==> Seen(fx, m, s, id)
  {
    if id in s.wagers {
      var w := s.wagers[id];
      assert WagerSound(s.config.mint, s.now, id, w) && VaultSound(s.tokens, id, w);
      assert Usable(s.tokens, w.sideA, w.mint) && Usable(s.tokens, w.sideB, w.mint);
    }
  }

  // ---- the verdicts agree ----

  lemma StakeVerdictSeen(fx: Fixture, m: Shadow.Model, s: State, actor: Address, id: Address)
    requires Seen(fx, m, s, id) && SupplyFits(s.tokens) && ConfigMatches(fx, m, s.config)
    requires actor in m.balances && actor in m.counters && CanSign(actor)
    requires Usable(s.tokens, actor, fx.config.mint)
             && s.tokens[AtaOf(actor, fx.config.mint)].amount == m.balances[actor]
    requires m.counters[actor] == Count(s.counters, actor)
    ensures StakeSide(s, actor, id, AtaOf(actor, fx.config.mint)).Ok?
            <==> Shadow.OkStake(RulesOf(fx.config, fx.resolver), m, s.now, actor, m.wagers[id])
  {
    var w, source := s.wagers[id], AtaOf(actor, fx.config.mint);
    StakeSideExactly(s, actor, id, source);
    TransferWhen(s.tokens, source, Vault(id, w), actor, w.stake);
  }

  lemma StakeVerdict(fx: Fixture, m: Shadow.Model, s: State, actor: Address, id: Address)
    requires Simulates(fx, m, s) && actor in m.balances && id in m.wagers
    ensures actor in m.counters
    ensures StakeSide(s, actor, id, AtaOf(actor, fx.config.mint)).Ok?
            <==> Shadow.OkStake(RulesOf(fx.config, fx.resolver), m, s.now, actor, m.wagers[id])
  {
    assert actor in m.counters.Keys;
    OpenIsSeen(fx, m, s, id);
    if id in s.wagers { StakeVerdictSeen(fx, m, s, actor, id); }
    else { StakeSideExactly(s, actor, id, AtaOf(actor, fx.config.mint)); }
  }

  lemma UnstakeVerdict(fx: Fixture, m: Shadow.Model, s: State, actor: Address, id: Address)
    requires Simulates(fx, m, s) && actor in m.balances && id in m.wagers
    ensures UnstakeSide(s, actor, id).Ok? <==> Shadow.OkUnstake(s.now, actor, m.wagers[id])
  {
    OpenIsSeen(fx, m, s, id);
    UnstakeSideExactly(s, actor, id);
    if id in s.wagers { UnstakeVerdictSeen(fx, m, s, actor, id); }
  }

  lemma UnstakeVerdictSeen(fx: Fixture, m: Shadow.Model, s: State, actor: Address, id: Address)
    requires Seen(fx, m, s, id)
    ensures SideCanGoHome(s, id, actor) && s.wagers[id].state == Funding && s.now <= s.wagers[id].deadlineFund
            <==> Shadow.OkUnstake(s.now, actor, m.wagers[id])
  {
  }

  predicate OkRefund(now: int, w: Shadow.MWager, side: Address) {
    !w.closed && w.Due(now) && w.IsSide(side) && w.Funded(side) && !w.Refunded(side)
  }

  lemma RefundVerdict(fx: Fixture, m: Shadow.Model, s: State, id: Address, side: Address)
    requires Simulates(fx, m, s) && id in m.wagers
    ensures RefundSide(s, id, side).Ok? <==> OkRefund(s.now, m.wagers[id], side)
  {
    OpenIsSeen(fx, m, s, id);
    RefundSideExactly(s, id, side);
    if id in s.wagers { RefundVerdictSeen(fx, m, s, id, side); }
  }

  lemma RefundVerdictSeen(fx: Fixture, m: Shadow.Model, s: State, id: Address, side: Address)
    requires Seen(fx, m, s, id)
    ensures SideCanGoHome(s, id, side) && s.wagers[id].Due(s.now) <==> OkRefund(s.now, m.wagers[id], side)
  {
  }

  lemma PlayIsActiveInTime(fx: Fixture, m: Shadow.Model, s: State, id: Address)
    requires Simulates(fx, m, s) && id in m.wagers
    ensures ActiveInTime(s, id) <==> Shadow.InPlay(s.now, m.wagers[id])
  {
    OpenIsSeen(fx, m, s, id);
  }

  lemma SeenIsPayable(fx: Fixture, m: Shadow.Model, s: State, id: Address, winner: Address)
    requires Seen(fx, m, s, id) && s.wagers[id].IsParticipant(winner)
    ensures CanPay(s.tokens, id, s.wagers[id], winner)
  {
  }

  lemma ResolveVerdict(fx: Fixture, m: Shadow.Model, s: State, id: Address, winner: Address)
    requires Simulates(fx, m, s) && id in m.wagers
    ensures Resolve(s, fx.resolver, id, winner, winner).Ok?
            <==> Shadow.InPlay(s.now, m.wagers[id]) && m.wagers[id].IsSide(winner)
  {
    OpenIsSeen(fx, m, s, id);
    PlayIsActiveInTime(fx, m, s, id);
    ResolveExactly(s, fx.resolver, id, winner, winner);
    if id in s.wagers && s.wagers[id].IsParticipant(winner) { SeenIsPayable(fx, m, s, id, winner); }
  }

  lemma ConcedeVerdict(fx: Fixture, m: Shadow.Model, s: State, actor: Address, id: Address, namesSelf: bool)
    requires Simulates(fx, m, s) && actor in m.balances && id in m.wagers
    ensures Concede(s, actor, id, Shadow.Named(m.wagers[id], actor, namesSelf)).Ok?
            <==> Shadow.InPlay(s.now, m.wagers[id]) && m.wagers[id].IsSide(actor) && !namesSelf
  {
    OpenIsSeen(fx, m, s, id);
    PlayIsActiveInTime(fx, m, s, id);
    ConcedeExactly(s, actor, id, Shadow.Named(m.wagers[id], actor, namesSelf));
    if ActiveInTime(s, id) { NamedVerdictSeen(fx, m, s, actor, id, namesSelf); }
  }

  lemma NamedVerdictSeen(fx: Fixture, m: Shadow.Model, s: State, actor: Address, id: Address, namesSelf: bool)
    requires Seen(fx, m, s, id) && ActiveInTime(s, id)
    ensures var winner := Shadow.Named(m.wagers[id], actor, namesSelf);
            Settleable(s, id, winner) && s.wagers[id].IsParticipant(actor) && winner == s.wagers[id].Counterparty(actor)
            <==> m.wagers[id].IsSide(actor) && !namesSelf
  {
    var winner := Shadow.Named(m.wagers[id], actor, namesSelf);
    if s.wagers[id].IsParticipant(winner) { SeenIsPayable(fx, m, s, id, winner); }
  }

  lemma SeenIsReturnable(fx: Fixture, m: Shadow.Model, s: State, id: Address)
    requires Seen(fx, m, s, id)
    ensures CanReturnStakes(s.tokens, id, s.wagers[id])
  {
  }

  lemma AcceptVerdict(fx: Fixture, m: Shadow.Model, s: State, actor: Address, id: Address)
    requires Simulates(fx, m, s) && actor in m.balances && id in m.wagers
    ensures CancelAccept(s, actor, id).Ok? <==>
            && Shadow.InPlay(s.now, m.wagers[id]) && m.wagers[id].IsSide(actor)
            && m.wagers[id].proposal != None && m.wagers[id].proposal != Some(actor)
  {
    OpenIsSeen(fx, m, s, id);
    PlayIsActiveInTime(fx, m, s, id);
    CancelAcceptExactly(s, actor, id);
    if ActiveInTime(s, id) {
      ActiveInTimeIsReady(s, id);
      AcceptVerdictSeen(fx, m, s, actor, id);
    }
  }

  lemma AcceptVerdictSeen(fx: Fixture, m: Shadow.Model, s: State, actor: Address, id: Address)
    requires Seen(fx, m, s, id) && ActiveInTime(s, id) && Ready(s, id)
    ensures Cancelable(s, id) && actor == s.wagers[id].Counterparty(s.wagers[id].cancelProposedBy) <==>
            m.wagers[id].IsSide(actor) && m.wagers[id].proposal != None && m.wagers[id].proposal != Some(actor)
  {
    SeenIsReturnable(fx, m, s, id);
  }

  lemma CloseVerdict(fx: Fixture, m: Shadow.Model, s: State, id: Address)
    requires Simulates(fx, m, s) && id in m.wagers
    ensures CloseExpired(s, id, Some(fx.config.feeDestination)).Ok?
            <==> !m.wagers[id].closed && m.wagers[id].Due(s.now) && m.wagers[id].FullyExited()
  {
    OpenIsSeen(fx, m, s, id);
    CloseExpiredExactly(s, id, Some(fx.config.feeDestination));
    if id in s.wagers { CloseVerdictSeen(fx, m, s, id); }
  }

  lemma CloseVerdictSeen(fx: Fixture, m: Shadow.Model, s: State, id: Address)
    requires Seen(fx, m, s, id)
    ensures Closable(s, id, Some(fx.config.feeDestination)) <==> m.wagers[id].Due(s.now) && m.wagers[id].FullyExited()
  {
  }

  lemma ProposeVerdict(fx: Fixture, m: Shadow.Model, s: State, actor: Address, id: Address)
    requires Simulates(fx, m, s) && actor in m.balances && id in m.wagers
    ensures CancelPropose(s, actor, id).Ok?
            <==> Shadow.InPlay(s.now, m.wagers[id]) && m.wagers[id].IsSide(actor) && m.wagers[id].proposal == None
    ensures CancelClear(s, actor, id).Ok?
            <==> !m.wagers[id].closed && m.wagers[id].proposal != None && m.wagers[id].IsSide(actor)
  {
    OpenIsSeen(fx, m, s, id);
    if id in s.wagers { ProposeVerdictSeen(fx, m, s, actor, id); }
  }

  lemma ProposeVerdictSeen(fx: Fixture, m: Shadow.Model, s: State, actor: Address, id: Address)
    requires Seen(fx, m, s, id)
    ensures CancelPropose(s, actor, id).Ok?
            <==> Shadow.InPlay(s.now, m.wagers[id]) && m.wagers[id].IsSide(actor) && m.wagers[id].proposal == None
    ensures CancelClear(s, actor, id).Ok? <==> m.wagers[id].proposal != None && m.wagers[id].IsSide(actor)
  {
  }

  lemma CreateVerdict(fx: Fixture, m: Shadow.Model, s: State, args: CreateWagerArgs)
    requires Simulates(fx, m, s) && Shadow.Drawn(RulesOf(fx.config, fx.resolver), m, s.now, Shadow.Create(args))
    ensures CreateWager(s, args).Ok? <==> Shadow.OkCreate(RulesOf(fx.config, fx.resolver), s.now, args)
  {
    CreateWagerExactly(s, args);
    var id := WagerPda(args.sideA, args.nonce);
    assert id !in s.wagers;
    assert AtaOf(id, fx.config.mint) !in s.tokens;
  }

  lemma FeeVerdict(fx: Fixture, m: Shadow.Model, s: State, bps: u16)
    requires Simulates(fx, m, s)
    ensures UpdateConfig(s, fx.config.admin, FeeUpdate(bps)).Ok? <==> bps <= MAX_FEE_BPS
    ensures bps <= MAX_FEE_BPS ==>
            UpdateConfig(s, fx.config.admin, FeeUpdate(bps)).value == s.(config := s.config.(feeBps := bps))
  {
  }

  // ---- the two stay in step: a stake moves ----

  /** Amount has moved from home to vault, or back if it is negative. */
  predicate Shifted(t: TokenMap, t': TokenMap, home: Address, vault: Address, amount: int) {
    && t'.Keys == t.Keys && home != vault && home in t && vault in t
    && (forall a <- t' :: t'[a] == t[a].(amount := t'[a].amount)
          && t'[a].amount == t[a].amount + if a == vault then amount else if a == home then -amount else 0)
  }

  lemma WalletsShift(mint: Address, balances: map<Address, int>, t: TokenMap, t': TokenMap, actor: Address,
                     id: Address, amount: int)
    requires WalletsMatch(mint, balances, t) && Shifted(t, t', AtaOf(actor, mint), AtaOf(id, mint), amount)
    requires actor in balances && id.WagerPda? && forall a <- balances :: CanSign(a)
    ensures WalletsMatch(mint, Shadow.Add(balances, actor, -amount), t')
  {
    forall a <- balances
      ensures AtaOf(a, mint) in t' && AtaOf(a, mint) != AtaOf(id, mint)
    {
      assert AtaOf(a, mint) in t'.Keys;
    }
  }

  lemma VaultsShift(mint: Address, wagers: map<Address, Wager>, t: TokenMap, t': TokenMap, home: Address, id: Address,
                    w: Wager, amount: int)
    requires VaultsMatch(mint, wagers, t) && Shifted(t, t', home, AtaOf(id, mint), amount) && Lasting(home)
    requires id in wagers && w.Outstanding() == wagers[id].Outstanding() + amount && DerivedKeys(wagers)
    ensures VaultsMatch(mint, wagers[id := w], t')
  {
    forall j <- wagers ensures AtaOf(j, mint) in t' && AtaOf(j, mint) != home { assert AtaOf(j, mint) in t'.Keys; }
    forall a <- t' ensures a in t { assert a in t'.Keys; }
  }

  lemma WagersReplace(fx: Fixture, m: Shadow.Model, m': Shadow.Model, wagers: map<Address, Wager>, id: Address,
                      w: Wager)
    requires WagersMatch(fx, m, wagers) && id in wagers && SameTerms(wagers[id], w)
    requires m'.wagers == m.wagers[id := Picture(w)] && m'.balances.Keys == m.balances.Keys
    ensures WagersMatch(fx, m', wagers[id := w])
  {
    assert forall a :: a in m.balances <==> a in m'.balances.Keys;
  }

  predicate CountersShifted(c: map<Address, u8>, c': map<Address, u8>, side: Address, count: int) {
    && side in c' && Count(c', side) == Count(c, side) + count
    && forall a <- c'.Keys + c.Keys :: a != side ==> Count(c', a) == Count(c, a)
  }

  lemma CountersShift(counters: map<Address, int>, c: map<Address, u8>, c': map<Address, u8>, actor: Address,
                      count: int)
    requires CountersMatch(counters, c) && CountersShifted(c, c', actor, count)
    ensures CountersMatch(Shadow.Add(counters, actor, count), c')
  {
    forall a <- counters | a != actor ensures Count(c', a) == Count(c, a) {
      if a in c || a in c' { assert a in c'.Keys + c.Keys; }
    }
  }

  /** From s to s' wager id has become w and one side's stake has moved. */
  predicate StakeMoved(fx: Fixture, s: State, s': State, id: Address, w: Wager, side: Address, amount: int,
                       count: int) {
    && id in s.wagers && s'.wagers == s.wagers[id := w] && SameTerms(s.wagers[id], w)
    && w.IsParticipant(side) && w.Outstanding() == s.wagers[id].Outstanding() + amount
    && s'.config == s.config.(totalOpenValue := s'.config.totalOpenValue)
    && s'.config.totalOpenValue == s.config.totalOpenValue + amount
    && CountersShifted(s.counters, s'.counters, side, count)
    && Shifted(s.tokens, s'.tokens, AtaOf(side, fx.config.mint), AtaOf(id, fx.config.mint), amount)
  }

  lemma FeesShift(c: Config, feeBalance: int, t: TokenMap, t': TokenMap, home: Address, vault: Address, amount: int)
    requires FeesMatch(c, feeBalance, t) && Shifted(t, t', home, vault, amount) && c.feeDestination != home
             && c.feeDestination != vault
    ensures FeesMatch(c, feeBalance, t')
  {
    assert c.feeDestination in t'.Keys;
  }

  lemma TokensShift(fx: Fixture, m: Shadow.Model, s: State, t': TokenMap, id: Address, w: Wager, side: Address,
                    amount: int)
    requires Matches(fx, m, s) && DerivedKeys(s.wagers) && id in s.wagers && side in m.balances
    requires w.Outstanding() == s.wagers[id].Outstanding() + amount
    requires Shifted(s.tokens, t', AtaOf(side, fx.config.mint), AtaOf(id, fx.config.mint), amount)
    ensures WalletsMatch(fx.config.mint, Shadow.Add(m.balances, side, -amount), t')
            && FeesMatch(fx.config, m.feeBalance, t')
    ensures VaultsMatch(fx.config.mint, s.wagers[id := w], t')
  {
    var mint := fx.config.mint;
    assert CanSign(side) && fx.config.feeDestination != AtaOf(side, mint);
    WalletsShift(mint, m.balances, s.tokens, t', side, id, amount);
    VaultsShift(mint, s.wagers, s.tokens, t', AtaOf(side, mint), id, w, amount);
    FeesShift(fx.config, m.feeBalance, s.tokens, t', AtaOf(side, mint), AtaOf(id, mint), amount);
  }

  lemma KeysStay(b: map<Address, int>, a: Address, amount: int)
    ensures Shadow.Add(b, a, amount).Keys == b.Keys
  {
  }

  lemma BooksShift(fx: Fixture, m: Shadow.Model, s: State, s': State, id: Address, w: Wager, mw: Shadow.MWager,
                   side: Address,
                   amount: int, count: int)
    requires mw == Picture(w) && ConfigMatches(fx, m, s.config) && CountersMatch(m.counters, s.counters)
             && WagersMatch(fx, m, s.wagers)
    requires StakeMoved(fx, s, s', id, w, side, amount, count)
    ensures var m' := Shadow.MoveStake(m, side, id, mw, amount, count);
            && ConfigMatches(fx, m', s'.config) && CountersMatch(m'.counters, s'.counters)
               && WagersMatch(fx, m', s'.wagers)
            && m'.counters.Keys == m.counters.Keys && m'.balances.Keys == m.balances.Keys && side in m.balances
  {
    CountersShift(m.counters, s.counters, s'.counters, side, count);
    KeysStay(m.balances, side, -amount);
    KeysStay(m.counters, side, count);
    WagersReplace(fx, m, Shadow.MoveStake(m, side, id, Picture(w), amount, count), s.wagers, id, w);
  }

  lemma MoveMatches(fx: Fixture, m: Shadow.Model, s: State, s': State, id: Address, w: Wager, mw: Shadow.MWager,
                    side: Address,
                    amount: int, count: int)
    requires Matches(fx, m, s) && DerivedKeys(s.wagers) && StakeMoved(fx, s, s', id, w, side, amount, count)
    requires mw == Picture(w)
    ensures Matches(fx, Shadow.MoveStake(m, side, id, mw, amount, count), s')
  {
    BooksShift(fx, m, s, s', id, w, mw, side, amount, count);
    TokensShift(fx, m, s, s'.tokens, id, w, side, amount);
  }

  lemma WentHomeMoves(fx: Fixture, s: State, s': State, id: Address, w: Wager, side: Address)
    requires WentHome(s, s', id, w, side) && id in s.wagers && s.wagers[id].Holds(side) && w.mint == fx.config.mint
    requires w == Unstaked(s.wagers[id], side) || w == Refunded(s.wagers[id], side)
    requires s.wagers[id].sideA != s.wagers[id].sideB
    ensures StakeMoved(fx, s, s', id, w, side, 0 - w.stake, -1)
  {
  }

  lemma UnstakeMoves(fx: Fixture, s: State, actor: Address, id: Address, amount: int)
    requires Inv(s) && UnstakeSide(s, actor, id).Ok? && s.config.mint == fx.config.mint
    requires id in s.wagers && amount == 0 - s.wagers[id].stake
    ensures StakeMoved(fx, s, UnstakeSide(s, actor, id).value, id, Unstaked(s.wagers[id], actor), actor, amount, -1)
  {
    UnstakeSideExactly(s, actor, id);
    SideIsCovered(s, id, actor);
    assert WagerSound(s.config.mint, s.now, id, s.wagers[id]);
    WentHomeMoves(fx, s, UnstakeSide(s, actor, id).value, id, Unstaked(s.wagers[id], actor), actor);
  }

  lemma RefundMoves(fx: Fixture, s: State, id: Address, side: Address, amount: int)
    requires Inv(s) && RefundSide(s, id, side).Ok? && s.config.mint == fx.config.mint
    requires id in s.wagers && amount == 0 - s.wagers[id].stake
    ensures StakeMoved(fx, s, RefundSide(s, id, side).value, id, Refunded(s.wagers[id], side), side, amount, -1)
  {
    RefundSideExactly(s, id, side);
    SideIsCovered(s, id, side);
    assert WagerSound(s.config.mint, s.now, id, s.wagers[id]);
    WentHomeMoves(fx, s, RefundSide(s, id, side).value, id, Refunded(s.wagers[id], side), side);
  }

  lemma Pictures(w: Wager, side: Address)
    ensures Picture(Unstaked(w, side)) == Picture(w).SetFunded(side, false)
    ensures Picture(Refunded(w, side)) == Picture(w).SetRefunded(side)
  {
  }

  lemma PictureStaked(w: Wager, side: Address)
    requires w.state == Funding
    ensures Picture(WithStake(w, side == w.sideA)) == Picture(w).SetFunded(side, true).Locked()
  {
  }

  lemma UnstakeSteps(fx: Fixture, m: Shadow.Model, s: State, actor: Address, id: Address)
    requires Simulates(fx, m, s) && id in m.wagers && UnstakeSide(s, actor, id).Ok?
    ensures Matches(fx, Shadow.MoveStake(m, actor, id, m.wagers[id].SetFunded(actor, false), 0 - m.wagers[id].stake,
                                         -1),
                    UnstakeSide(s, actor, id).value)
  {
    var mw, amount := m.wagers[id].SetFunded(actor, false), 0 - m.wagers[id].stake;
    OpenIsSeen(fx, m, s, id);
    assert id in s.wagers;
    UnstakeMoves(fx, s, actor, id, amount);
    LiveKeysAreDerived(s);
    Pictures(s.wagers[id], actor);
    MoveMatches(fx, m, s, UnstakeSide(s, actor, id).value, id, Unstaked(s.wagers[id], actor), mw, actor, amount, -1);
  }

  lemma RefundSteps(fx: Fixture, m: Shadow.Model, s: State, id: Address, side: Address)
    requires Simulates(fx, m, s) && id in m.wagers && RefundSide(s, id, side).Ok?
    ensures Matches(fx, Shadow.MoveStake(m, side, id, m.wagers[id].SetRefunded(side), 0 - m.wagers[id].stake, -1),
                    RefundSide(s, id, side).value)
  {
    var mw, amount := m.wagers[id].SetRefunded(side), 0 - m.wagers[id].stake;
    OpenIsSeen(fx, m, s, id);
    assert id in s.wagers;
    RefundMoves(fx, s, id, side, amount);
    LiveKeysAreDerived(s);
    Pictures(s.wagers[id], side);
    MoveMatches(fx, m, s, RefundSide(s, id, side).value, id, Refunded(s.wagers[id], side), mw, side, amount, -1);
  }

  lemma StakeMoves(fx: Fixture, s: State, id: Address, actor: Address)
    requires id in s.wagers
    requires var w, source := s.wagers[id], AtaOf(actor, fx.config.mint);
             && w.mint == fx.config.mint && w.sideA != w.sideB && CanStake(s, actor, id, source)
             && (w.refundedA ==> w.fundedA) && (w.refundedB ==> w.fundedB)
    ensures StakeMoved(fx, s, StakeSide(s, actor, id, AtaOf(actor, fx.config.mint)).value, id,
                       WithStake(s.wagers[id], actor == s.wagers[id].sideA), actor, s.wagers[id].stake, 1)
  {
    StakeSideExactly(s, actor, id, AtaOf(actor, fx.config.mint));
  }

  lemma StakeSteps(fx: Fixture, m: Shadow.Model, s: State, actor: Address, id: Address)
    requires Simulates(fx, m, s) && id in m.wagers && StakeSide(s, actor, id, AtaOf(actor, fx.config.mint)).Ok?
    ensures Matches(fx, Shadow.MoveStake(m, actor, id, m.wagers[id].SetFunded(actor, true).Locked(),
                                         m.wagers[id].stake, 1),
                    StakeSide(s, actor, id, AtaOf(actor, fx.config.mint)).value)
  {
    OpenIsSeen(fx, m, s, id);
    var source := AtaOf(actor, fx.config.mint);
    StakeSideExactly(s, actor, id, source);
    LiveKeysAreDerived(s);
    var s', w := StakeSide(s, actor, id, source).value, WithStake(s.wagers[id], actor == s.wagers[id].sideA);
    StakeMoves(fx, s, id, actor);
    PictureStaked(s.wagers[id], actor);
    MoveMatches(fx, m, s, s', id, w, m.wagers[id].SetFunded(actor, true).Locked(), actor, m.wagers[id].stake, 1);
  }

  // ---- the two stay in step: a wager ends ----

  /** The vault is gone, and each account has its share of what was in it. */
  predicate SharedOut(t: TokenMap, t': TokenMap, id: Address, w: Wager, toA: int, toB: int, fee: int) {
    ClosedOut(t, t', Vault(id, w)) && forall a <- t' :: t'[a].amount == t[a].amount + Share(w, a, toA, toB, fee)
  }

  lemma WalletsEnd(fx: Fixture, balances: map<Address, int>, t: TokenMap, t': TokenMap, id: Address, w: Wager,
                   toA: int, toB: int, fee: int)
    requires FixtureSound(fx, balances.Keys) && OfFixture(fx, w) && WalletsMatch(fx.config.mint, balances, t)
    requires SharedOut(t, t', id, w, toA, toB, fee) && id.WagerPda? && w.sideA in balances && w.sideB in balances
             && w.sideA != w.sideB
    ensures WalletsMatch(fx.config.mint, Shadow.Add(Shadow.Add(balances, w.sideA, toA), w.sideB, toB), t')
  {
    var mint := fx.config.mint;
    forall a <- balances
      ensures AtaOf(a, mint) in t'
      ensures Share(w, AtaOf(a, mint), toA, toB, fee)
              == (if a == w.sideA then toA else 0) + (if a == w.sideB then toB else 0)
    {
      assert a in balances.Keys;
      assert AtaOf(a, mint) in t'.Keys;
    }
  }

  lemma FeesEnd(fx: Fixture, actors: set<Address>, feeBalance: int, t: TokenMap, t': TokenMap, id: Address, w: Wager,
                toA: int, toB: int, fee: int)
    requires FixtureSound(fx, actors) && OfFixture(fx, w) && FeesMatch(fx.config, feeBalance, t)
    requires SharedOut(t, t', id, w, toA, toB, fee) && id.WagerPda? && w.sideA in actors && w.sideB in actors
    ensures FeesMatch(fx.config, feeBalance + fee, t')
  {
    assert fx.config.feeDestination in t'.Keys;
  }

  lemma VaultsEnd(fx: Fixture, actors: set<Address>, wagers: map<Address, Wager>, t: TokenMap, t': TokenMap,
                  id: Address, w: Wager, toA: int, toB: int, fee: int)
    requires FixtureSound(fx, actors) && OfFixture(fx, w) && VaultsMatch(fx.config.mint, wagers, t)
             && DerivedKeys(wagers)
    requires SharedOut(t, t', id, w, toA, toB, fee) && id in wagers && w.sideA in actors && w.sideB in actors
    ensures VaultsMatch(fx.config.mint, wagers - {id}, t')
  {
    var mint := fx.config.mint;
    forall j <- wagers | j != id
      ensures AtaOf(j, mint) in t' && t'[AtaOf(j, mint)] == t[AtaOf(j, mint)]
    {
      assert AtaOf(j, mint) in t'.Keys;
    }
    forall a <- t' ensures a in t && a != AtaOf(id, mint) { assert a in t'.Keys; }
  }

  lemma WagersEnd(fx: Fixture, m: Shadow.Model, m': Shadow.Model, wagers: map<Address, Wager>, id: Address)
    requires WagersMatch(fx, m, wagers) && id in wagers
    requires m'.wagers == m.wagers[id := m.wagers[id].(closed := true)] && m'.balances.Keys == m.balances.Keys
    ensures WagersMatch(fx, m', wagers - {id})
  {
    assert forall a :: a in m.balances <==> a in m'.balances.Keys;
  }

  lemma TokensEnd(fx: Fixture, m: Shadow.Model, s: State, t': TokenMap, id: Address, w: Wager, toA: int, toB: int,
                  fee: int)
    requires Matches(fx, m, s) && DerivedKeys(s.wagers) && id in s.wagers && w == s.wagers[id] && w.sideA != w.sideB
    requires SharedOut(s.tokens, t', id, w, toA, toB, fee)
    ensures WalletsMatch(fx.config.mint, Shadow.Add(Shadow.Add(m.balances, w.sideA, toA), w.sideB, toB), t')
    ensures FeesMatch(fx.config, m.feeBalance + fee, t') && VaultsMatch(fx.config.mint, s.wagers - {id}, t')
  {
    assert OfFixture(fx, w) && w.sideA in m.balances && w.sideB in m.balances;
    WalletsEnd(fx, m.balances, s.tokens, t', id, w, toA, toB, fee);
    FeesEnd(fx, m.balances.Keys, m.feeBalance, s.tokens, t', id, w, toA, toB, fee);
    VaultsEnd(fx, m.balances.Keys, s.wagers, s.tokens, t', id, w, toA, toB, fee);
  }

  lemma CountersEnd(counters: map<Address, int>, c: map<Address, u8>, c': map<Address, u8>, a: Address, b: Address)
    requires CountersMatch(counters, c) && a in c && b in c && a != b && 1 <= c[a] && 1 <= c[b]
    requires c' == c[a := c[a] - 1][b := c[b] - 1]
    ensures CountersMatch(Shadow.Add(Shadow.Add(counters, a, -1), b, -1), c')
  {
  }

  lemma BooksEnd(fx: Fixture, m: Shadow.Model, s: State, s': State, id: Address, toA: int, toB: int, fee: int)
    requires ConfigMatches(fx, m, s.config) && CountersMatch(m.counters, s.counters) && WagersMatch(fx, m, s.wagers)
    requires BothReleased(s, s', id) && s.wagers[id].sideA != s.wagers[id].sideB && id in m.wagers
    ensures var m' := Shadow.End(m, id, m.wagers[id], toA, toB, fee);
            && ConfigMatches(fx, m', s'.config) && CountersMatch(m'.counters, s'.counters)
               && WagersMatch(fx, m', s'.wagers)
            && m'.counters.Keys == m.counters.Keys && m'.balances.Keys == m.balances.Keys
  {
    var w := s.wagers[id];
    assert m.wagers[id] == Picture(w);
    CountersEnd(m.counters, s.counters, s'.counters, w.sideA, w.sideB);
    WagersEnd(fx, m, Shadow.End(m, id, m.wagers[id], toA, toB, fee), s.wagers, id);
  }

  lemma EndMatches(fx: Fixture, m: Shadow.Model, s: State, s': State, id: Address, toA: int, toB: int, fee: int)
    requires Matches(fx, m, s) && DerivedKeys(s.wagers) && BothReleased(s, s', id)
             && s.wagers[id].sideA != s.wagers[id].sideB
    requires SharedOut(s.tokens, s'.tokens, id, s.wagers[id], toA, toB, fee)
    ensures id in m.wagers && Matches(fx, Shadow.End(m, id, m.wagers[id], toA, toB, fee), s')
  {
    assert m.wagers[id] == Picture(s.wagers[id]);
    BooksEnd(fx, m, s, s', id, toA, toB, fee);
    TokensEnd(fx, m, s, s'.tokens, id, s.wagers[id], toA, toB, fee);
  }

  /** The three shares of a settled pot. */
  predicate Splits(w: Wager, winner: Address, toA: int, toB: int, fee: int) {
    && fee == PotFee(w)
    && toA == (if winner == w.sideA then 2 * w.stake - fee else 0)
    && toB == (if winner == w.sideA then 0 else 2 * w.stake - fee)
  }

  lemma SettledShares(s: State, s': State, id: Address, winner: Address, toA: int, toB: int, fee: int)
    requires Ready(s, id) && s.wagers[id].IsParticipant(winner) && Settled(s, s', id, winner)
    requires s.tokens[Vault(id, s.wagers[id])].amount == 2 * s.wagers[id].stake
             && Splits(s.wagers[id], winner, toA, toB, fee)
    ensures SharedOut(s.tokens, s'.tokens, id, s.wagers[id], toA, toB, fee)
  {
  }

  lemma SettleIsEnd(m: Shadow.Model, id: Address, w: Wager, mw: Shadow.MWager, winner: Address)
    returns (toA: int, toB: int, fee: int)
    requires mw == Picture(w)
    ensures Splits(w, winner, toA, toB, fee) && Shadow.Settle(m, id, mw, winner) == Shadow.End(m, id, mw, toA, toB, fee)
  {
    fee := PotFee(w);
    toA, toB := if winner == w.sideA then 2 * w.stake - fee else 0, if winner == w.sideA then 0 else 2 * w.stake - fee;
  }

  lemma CalledOffShares(s: State, s': State, id: Address)
    requires Ready(s, id) && CalledOff(s, s', id)
    requires s.tokens[Vault(id, s.wagers[id])].amount == 2 * s.wagers[id].stake
    ensures var w := s.wagers[id]; SharedOut(s.tokens, s'.tokens, id, w, w.stake, w.stake, 0)
  {
  }

  /** What the settlement of an open wager needs: it is ready, and its vault holds the pot and no more. */
  lemma PotIsExact(fx: Fixture, m: Shadow.Model, s: State, id: Address)
    requires Simulates(fx, m, s) && ActiveInTime(s, id)
    ensures id in m.wagers && m.wagers[id] == Picture(s.wagers[id]) && DerivedKeys(s.wagers)
    ensures Ready(s, id) && s.tokens[Vault(id, s.wagers[id])].amount == 2 * s.wagers[id].stake
  {
    ActiveInTimeIsReady(s, id);
    LiveKeysAreDerived(s);
    assert OfFixture(fx, s.wagers[id]);
  }

  lemma SettledMatches(fx: Fixture, m: Shadow.Model, s: State, s': State, id: Address, winner: Address)
    requires Matches(fx, m, s) && DerivedKeys(s.wagers) && Ready(s, id) && s.wagers[id].IsParticipant(winner)
    requires s.tokens[Vault(id, s.wagers[id])].amount == 2 * s.wagers[id].stake
    requires id in m.wagers && m.wagers[id] == Picture(s.wagers[id]) && Settled(s, s', id, winner)
    ensures Matches(fx, Shadow.Settle(m, id, m.wagers[id], winner), s')
  {
    var w := s.wagers[id];
    var toA, toB, fee := SettleIsEnd(m, id, w, m.wagers[id], winner);
    SettledShares(s, s', id, winner, toA, toB, fee);
    EndMatches(fx, m, s, s', id, toA, toB, fee);
  }

  lemma ResolveSteps(fx: Fixture, m: Shadow.Model, s: State, resolver: Address, id: Address, winner: Address)
    requires Simulates(fx, m, s) && Resolve(s, resolver, id, winner, winner).Ok?
    ensures id in m.wagers
            && Matches(fx, Shadow.Settle(m, id, m.wagers[id], winner), Resolve(s, resolver, id, winner, winner).value)
  {
    ResolveExactly(s, resolver, id, winner, winner);
    PotIsExact(fx, m, s, id);
    SettledMatches(fx, m, s, Resolve(s, resolver, id, winner, winner).value, id, winner);
  }

  lemma ConcedeSteps(fx: Fixture, m: Shadow.Model, s: State, actor: Address, id: Address, winner: Address)
    requires Simulates(fx, m, s) && Concede(s, actor, id, winner).Ok?
    ensures id in m.wagers && winner == m.wagers[id].Other(actor)
    ensures Matches(fx, Shadow.Settle(m, id, m.wagers[id], winner), Concede(s, actor, id, winner).value)
  {
    ConcedeExactly(s, actor, id, winner);
    PotIsExact(fx, m, s, id);
    SettledMatches(fx, m, s, Concede(s, actor, id, winner).value, id, winner);
  }

  lemma AcceptSteps(fx: Fixture, m: Shadow.Model, s: State, actor: Address, id: Address)
    requires Simulates(fx, m, s) && CancelAccept(s, actor, id).Ok?
    ensures id in m.wagers
    ensures Matches(fx, Shadow.End(m, id, m.wagers[id], m.wagers[id].stake, m.wagers[id].stake, 0),
                    CancelAccept(s, actor, id).value)
  {
    CancelAcceptExactly(s, actor, id);
    PotIsExact(fx, m, s, id);
    CalledOffMatches(fx, m, s, CancelAccept(s, actor, id).value, id);
  }

  lemma CalledOffMatches(fx: Fixture, m: Shadow.Model, s: State, s': State, id: Address)
    requires Matches(fx, m, s) && DerivedKeys(s.wagers) && Ready(s, id)
    requires s.tokens[Vault(id, s.wagers[id])].amount == 2 * s.wagers[id].stake
    requires id in m.wagers && m.wagers[id] == Picture(s.wagers[id]) && CalledOff(s, s', id)
    ensures Matches(fx, Shadow.End(m, id, m.wagers[id], m.wagers[id].stake, m.wagers[id].stake, 0), s')
  {
    CalledOffShares(s, s', id);
    EndMatches(fx, m, s, s', id, m.wagers[id].stake, m.wagers[id].stake, 0);
  }

  /** Closed in the shadow, and nothing else. */
  function CloseOnly(m: Shadow.Model, id: Address): Shadow.Model
    requires id in m.wagers
  {
    m.(wagers := m.wagers[id := m.wagers[id].(closed := true)])
  }

  lemma ReclaimedShares(s: State, s': State, id: Address)
    requires Reclaimed(s, s', id) && s.tokens[Vault(id, s.wagers[id])].amount == 0
    ensures SharedOut(s.tokens, s'.tokens, id, s.wagers[id], 0, 0, 0)
  {
  }

  lemma AddNothing(b: map<Address, int>, a: Address)
    ensures Shadow.Add(b, a, 0) == b
  {
  }

  lemma ReclaimedMatches(fx: Fixture, m: Shadow.Model, s: State, s': State, id: Address)
    requires Matches(fx, m, s) && DerivedKeys(s.wagers) && Reclaimed(s, s', id)
    requires s.wagers[id].sideA != s.wagers[id].sideB && s.tokens[Vault(id, s.wagers[id])].amount == 0
    ensures id in m.wagers && Matches(fx, CloseOnly(m, id), s')
  {
    var w := s.wagers[id];
    ReclaimedShares(s, s', id);
    TokensEnd(fx, m, s, s'.tokens, id, w, 0, 0, 0);
    AddNothing(m.balances, w.sideA);
    AddNothing(m.balances, w.sideB);
    WagersEnd(fx, m, CloseOnly(m, id), s.wagers, id);
  }

  lemma CloseSteps(fx: Fixture, m: Shadow.Model, s: State, id: Address, feeToken: Option<Address>)
    requires Simulates(fx, m, s) && CloseExpired(s, id, feeToken).Ok?
    ensures id in m.wagers && Matches(fx, CloseOnly(m, id), CloseExpired(s, id, feeToken).value)
  {
    CloseExpiredExactly(s, id, feeToken);
    LiveKeysAreDerived(s);
    assert OfFixture(fx, s.wagers[id]) && WagerSound(s.config.mint, s.now, id, s.wagers[id]);
    ReclaimedMatches(fx, m, s, CloseExpired(s, id, feeToken).value, id);
  }

  // ---- the two stay in step: everything else ----

  lemma PictureProposed(w: Wager, who: Address)
    ensures Picture(w.(cancelProposedBy := who)) == Picture(w).(proposal := if who == DEFAULT then None else Some(who))
  {
  }

  lemma VaultsStay(mint: Address, wagers: map<Address, Wager>, t: TokenMap, id: Address, w: Wager)
    requires VaultsMatch(mint, wagers, t) && id in wagers && w.Outstanding() == wagers[id].Outstanding()
    ensures VaultsMatch(mint, wagers[id := w], t)
  {
  }

  lemma ProposalMatches(fx: Fixture, m: Shadow.Model, s: State, id: Address, who: Address, mw: Shadow.MWager)
    requires Matches(fx, m, s) && id in s.wagers && mw == Picture(s.wagers[id].(cancelProposedBy := who))
    ensures Matches(fx, m.(wagers := m.wagers[id := mw]),
                    s.(wagers := s.wagers[id := s.wagers[id].(cancelProposedBy := who)]))
  {
    var w := s.wagers[id].(cancelProposedBy := who);
    WagersReplace(fx, m, m.(wagers := m.wagers[id := mw]), s.wagers, id, w);
    VaultsStay(fx.config.mint, s.wagers, s.tokens, id, w);
  }

  lemma WagersOpen(fx: Fixture, m: Shadow.Model, m': Shadow.Model, wagers: map<Address, Wager>, id: Address, w: Wager)
    requires WagersMatch(fx, m, wagers) && id !in m.wagers && OfFixture(fx, w) && w.sideA in m.balances
             && w.sideB in m.balances
    requires m' == m.(wagers := m.wagers[id := Picture(w)])
    ensures WagersMatch(fx, m', wagers[id := w])
  {
  }

  lemma TokensOpen(fx: Fixture, m: Shadow.Model, s: State, id: Address, w: Wager)
    requires FixtureSound(fx, m.balances.Keys) && WalletsMatch(fx.config.mint, m.balances, s.tokens)
    requires FeesMatch(fx.config, m.feeBalance, s.tokens) && VaultsMatch(fx.config.mint, s.wagers, s.tokens)
    requires id.WagerPda? && AtaOf(id, fx.config.mint) !in s.tokens && w.Outstanding() == 0
    ensures var t' := s.tokens[AtaOf(id, fx.config.mint) := TokenAccount(id, fx.config.mint, 0, false)];
            && WalletsMatch(fx.config.mint, m.balances, t') && FeesMatch(fx.config, m.feeBalance, t')
            && VaultsMatch(fx.config.mint, s.wagers[id := w], t')
  {
  }

  lemma OpenedMatches(fx: Fixture, m: Shadow.Model, s: State, s': State, args: CreateWagerArgs)
    requires Matches(fx, m, s) && args.sideA in m.balances && args.sideB in m.balances && args.resolver == fx.resolver
    requires var id := WagerPda(args.sideA, args.nonce);
             && id !in m.wagers && AtaOf(id, fx.config.mint) !in s.tokens
             && s' == s.(wagers := s.wagers[id := FreshWager(s.config, args)],
                         tokens := s.tokens[AtaOf(id, fx.config.mint) := TokenAccount(id, fx.config.mint, 0, false)])
    ensures Matches(fx, Shadow.Opened(m, args), s')
  {
    var id, w := WagerPda(args.sideA, args.nonce), FreshWager(s.config, args);
    OpenedPicture(fx, m, s.config, args);
    WagersOpen(fx, m, Shadow.Opened(m, args), s.wagers, id, w);
    TokensOpen(fx, m, s, id, w);
  }

  lemma OpenedPicture(fx: Fixture, m: Shadow.Model, c: Config, args: CreateWagerArgs)
    requires ConfigMatches(fx, m, c) && args.resolver == fx.resolver
    ensures var w := FreshWager(c, args);
            && OfFixture(fx, w) && w.Outstanding() == 0
            && Shadow.Opened(m, args) == m.(wagers := m.wagers[WagerPda(args.sideA, args.nonce) := Picture(w)])
  {
  }

  lemma CreateSteps(fx: Fixture, m: Shadow.Model, s: State, args: CreateWagerArgs)
    requires Simulates(fx, m, s) && Shadow.Drawn(RulesOf(fx.config, fx.resolver), m, s.now, Shadow.Create(args))
    requires CreateWager(s, args).Ok?
    ensures Matches(fx, Shadow.Opened(m, args), CreateWager(s, args).value)
  {
    CreateWagerExactly(s, args);
    var id := WagerPda(args.sideA, args.nonce);
    assert id !in s.wagers;
    assert AtaOf(id, fx.config.mint) !in s.tokens;
    OpenedMatches(fx, m, s, CreateWager(s, args).value, args);
  }

  // ---- one action ----

  /** The verdict is the shadow's, and a success leaves the two matching. */
  predicate Agrees(fx: Fixture, m: Shadow.Model, now: i64, action: Shadow.Action, r: Result<State>)
    requires Shadow.Drawn(RulesOf(fx.config, fx.resolver), m, now, action) && m.counters.Keys == m.balances.Keys
  {
    var rules := RulesOf(fx.config, fx.resolver);
    && (r.Ok? <==> Shadow.Ok(rules, m, now, action))
    && (r.Ok? ==> Matches(fx, Shadow.Effect(rules, m, now, action), r.value))
  }

  ghost predicate Drawable(fx: Fixture, m: Shadow.Model, s: State, action: Shadow.Action) {
    Simulates(fx, m, s) && Shadow.Drawn(RulesOf(fx.config, fx.resolver), m, s.now, action)
  }

  /** What the shadow says and does for each remaining action, in one place. */
  lemma Effects(fx: Fixture, m: Shadow.Model, now: i64, action: Shadow.Action)
    requires Shadow.Drawn(RulesOf(fx.config, fx.resolver), m, now, action) && m.counters.Keys == m.balances.Keys
    ensures var rules := RulesOf(fx.config, fx.resolver);
            var m' := Shadow.Effect(rules, m, now, action);
            Shadow.Ok(rules, m, now, action) ==>
              match action
              case Create(args) => m' == Shadow.Opened(m, args)
              case Stake(actor, id) =>
                var w := m.wagers[id];
                m' == Shadow.MoveStake(m, actor, id, w.SetFunded(actor, true).Locked(), w.stake, 1)
              case Concede(actor, id, _) => m' == Shadow.Settle(m, id, m.wagers[id], m.wagers[id].Other(actor))
              case Resolve(id, winner) => m' == Shadow.Settle(m, id, m.wagers[id], winner)
              case Close(id) => m' == CloseOnly(m, id)
              case ChangeFee(bps) => m' == m.(feeBpsCurrent := bps)
              case Warp(_) => m' == m
              case _ => true
  {
  }

  lemma CreateAgrees(fx: Fixture, m: Shadow.Model, s: State, args: CreateWagerArgs)
    requires Drawable(fx, m, s, Shadow.Create(args))
    ensures Agrees(fx, m, s.now, Shadow.Create(args), CreateWager(s, args))
  {
    Effects(fx, m, s.now, Shadow.Create(args));
    CreateVerdict(fx, m, s, args);
    if CreateWager(s, args).Ok? { CreateSteps(fx, m, s, args); }
  }

  lemma StakeAgrees(fx: Fixture, m: Shadow.Model, s: State, actor: Address, id: Address)
    requires Drawable(fx, m, s, Shadow.Stake(actor, id))
    ensures Agrees(fx, m, s.now, Shadow.Stake(actor, id), StakeSide(s, actor, id, AtaOf(actor, fx.config.mint)))
  {
    Effects(fx, m, s.now, Shadow.Stake(actor, id));
    StakeVerdict(fx, m, s, actor, id);
    if StakeSide(s, actor, id, AtaOf(actor, fx.config.mint)).Ok? { StakeSteps(fx, m, s, actor, id); }
  }

  lemma UnstakeEffect(fx: Fixture, m: Shadow.Model, now: i64, actor: Address, id: Address)
    requires actor in m.balances && id in m.wagers && m.counters.Keys == m.balances.Keys
    ensures var rules, action := RulesOf(fx.config, fx.resolver), Shadow.Unstake(actor, id);
            && (Shadow.Ok(rules, m, now, action) <==> Shadow.OkUnstake(now, actor, m.wagers[id]))
            && (Shadow.Ok(rules, m, now, action) ==>
                  Shadow.Effect(rules, m, now, action)
                  == Shadow.MoveStake(m, actor, id, m.wagers[id].SetFunded(actor, false), 0 - m.wagers[id].stake, -1))
  {
  }

  lemma UnstakeAgrees(fx: Fixture, m: Shadow.Model, s: State, actor: Address, id: Address)
    requires Drawable(fx, m, s, Shadow.Unstake(actor, id))
    ensures Agrees(fx, m, s.now, Shadow.Unstake(actor, id), UnstakeSide(s, actor, id))
  {
    UnstakeVerdict(fx, m, s, actor, id);
    UnstakeEffect(fx, m, s.now, actor, id);
    if UnstakeSide(s, actor, id).Ok? { UnstakeSteps(fx, m, s, actor, id); }
  }

  lemma RefundAgrees(fx: Fixture, m: Shadow.Model, s: State, id: Address, ofA: bool)
    requires Drawable(fx, m, s, Shadow.Refund(id, ofA))
    ensures Agrees(fx, m, s.now, Shadow.Refund(id, ofA), RefundSide(s, id, SideOf(m, id, ofA)))
  {
    var side := SideOf(m, id, ofA);
    RefundVerdict(fx, m, s, id, side);
    RefundOfSide(fx, m, s.now, id, ofA, side);
    if RefundSide(s, id, side).Ok? { RefundSteps(fx, m, s, id, side); }
  }

  lemma RefundOfSide(fx: Fixture, m: Shadow.Model, now: i64, id: Address, ofA: bool, side: Address)
    requires id in m.wagers && m.counters.Keys == m.balances.Keys && side == SideOf(m, id, ofA)
    ensures var rules, action := RulesOf(fx.config, fx.resolver), Shadow.Refund(id, ofA);
            && (Shadow.Ok(rules, m, now, action) <==> OkRefund(now, m.wagers[id], side))
            && (Shadow.Ok(rules, m, now, action) ==>
                  Shadow.Effect(rules, m, now, action)
                  == Shadow.MoveStake(m, side, id, m.wagers[id].SetRefunded(side), 0 - m.wagers[id].stake, -1))
  {
  }

  lemma ConcedeAgrees(fx: Fixture, m: Shadow.Model, s: State, actor: Address, id: Address, namesSelf: bool)
    requires Drawable(fx, m, s, Shadow.Concede(actor, id, namesSelf))
    ensures Agrees(fx, m, s.now, Shadow.Concede(actor, id, namesSelf),
                   Concede(s, actor, id, Shadow.Named(m.wagers[id], actor, namesSelf)))
  {
    Effects(fx, m, s.now, Shadow.Concede(actor, id, namesSelf));
    ConcedeVerdict(fx, m, s, actor, id, namesSelf);
    var winner := Shadow.Named(m.wagers[id], actor, namesSelf);
    if Concede(s, actor, id, winner).Ok? { ConcedeSteps(fx, m, s, actor, id, winner); }
  }

  lemma ResolveAgrees(fx: Fixture, m: Shadow.Model, s: State, id: Address, winner: Address)
    requires Drawable(fx, m, s, Shadow.Resolve(id, winner))
    ensures Agrees(fx, m, s.now, Shadow.Resolve(id, winner), Resolve(s, fx.resolver, id, winner, winner))
  {
    Effects(fx, m, s.now, Shadow.Resolve(id, winner));
    ResolveVerdict(fx, m, s, id, winner);
    if Resolve(s, fx.resolver, id, winner, winner).Ok? { ResolveSteps(fx, m, s, fx.resolver, id, winner); }
  }

  predicate OkAccept(now: int, actor: Address, w: Shadow.MWager) {
    Shadow.InPlay(now, w) && w.IsSide(actor) && w.proposal != None && w.proposal != Some(actor)
  }

  lemma AcceptEffect(fx: Fixture, m: Shadow.Model, now: i64, actor: Address, id: Address)
    requires actor in m.balances && id in m.wagers && m.counters.Keys == m.balances.Keys
    ensures var rules, action := RulesOf(fx.config, fx.resolver), Shadow.Accept(actor, id);
            && (Shadow.Ok(rules, m, now, action) <==> OkAccept(now, actor, m.wagers[id]))
            && (Shadow.Ok(rules, m, now, action) ==>
                  Shadow.Effect(rules, m, now, action)
                  == Shadow.End(m, id, m.wagers[id], m.wagers[id].stake, m.wagers[id].stake, 0))
  {
  }

  lemma AcceptAgrees(fx: Fixture, m: Shadow.Model, s: State, actor: Address, id: Address)
    requires Drawable(fx, m, s, Shadow.Accept(actor, id))
    ensures Agrees(fx, m, s.now, Shadow.Accept(actor, id), CancelAccept(s, actor, id))
  {
    AcceptVerdict(fx, m, s, actor, id);
    AcceptEffect(fx, m, s.now, actor, id);
    if CancelAccept(s, actor, id).Ok? { AcceptSteps(fx, m, s, actor, id); }
  }

  lemma CloseAgrees(fx: Fixture, m: Shadow.Model, s: State, id: Address)
    requires Drawable(fx, m, s, Shadow.Close(id))
    ensures Agrees(fx, m, s.now, Shadow.Close(id), CloseExpired(s, id, Some(fx.config.feeDestination)))
  {
    Effects(fx, m, s.now, Shadow.Close(id));
    CloseVerdict(fx, m, s, id);
    if CloseExpired(s, id, Some(fx.config.feeDestination)).Ok? {
      CloseSteps(fx, m, s, id, Some(fx.config.feeDestination));
    }
  }

  lemma ProposalsRecorded(s: State, actor: Address, id: Address)
    ensures CancelPropose(s, actor, id).Ok? ==>
              && id in s.wagers && s.wagers[id].IsParticipant(actor)
              && CancelPropose(s, actor, id).value
                 == s.(wagers := s.wagers[id := s.wagers[id].(cancelProposedBy := actor)])
    ensures CancelClear(s, actor, id).Ok? ==>
              && id in s.wagers
              && CancelClear(s, actor, id).value
                 == s.(wagers := s.wagers[id := s.wagers[id].(cancelProposedBy := DEFAULT)])
  {
  }

  lemma PicturesOfProposals(fx: Fixture, m: Shadow.Model, s: State, actor: Address, id: Address)
    requires Seen(fx, m, s, id)
    ensures s.wagers[id].IsParticipant(actor) ==>
              m.wagers[id].(proposal := Some(actor)) == Picture(s.wagers[id].(cancelProposedBy := actor))
    ensures m.wagers[id].(proposal := None) == Picture(s.wagers[id].(cancelProposedBy := DEFAULT))
  {
    PictureProposed(s.wagers[id], actor);
    PictureProposed(s.wagers[id], DEFAULT);
  }

  lemma ProposeSteps(fx: Fixture, m: Shadow.Model, s: State, actor: Address, id: Address)
    requires Simulates(fx, m, s) && id in m.wagers && CancelPropose(s, actor, id).Ok?
    ensures Matches(fx, m.(wagers := m.wagers[id := m.wagers[id].(proposal := Some(actor))]),
                    CancelPropose(s, actor, id).value)
  {
    OpenIsSeen(fx, m, s, id);
    ProposalsRecorded(s, actor, id);
    PicturesOfProposals(fx, m, s, actor, id);
    ProposalMatches(fx, m, s, id, actor, m.wagers[id].(proposal := Some(actor)));
  }

  lemma ClearSteps(fx: Fixture, m: Shadow.Model, s: State, actor: Address, id: Address)
    requires Simulates(fx, m, s) && id in m.wagers && CancelClear(s, actor, id).Ok?
    ensures Matches(fx, m.(wagers := m.wagers[id := m.wagers[id].(proposal := None)]), CancelClear(s, actor, id).value)
  {
    OpenIsSeen(fx, m, s, id);
    ProposalsRecorded(s, actor, id);
    PicturesOfProposals(fx, m, s, actor, id);
    ProposalMatches(fx, m, s, id, DEFAULT, m.wagers[id].(proposal := None));
  }

  lemma ProposeEffect(fx: Fixture, m: Shadow.Model, now: i64, actor: Address, id: Address)
    requires actor in m.balances && id in m.wagers && m.counters.Keys == m.balances.Keys
    ensures var rules, w := RulesOf(fx.config, fx.resolver), m.wagers[id];
            var propose, clear := Shadow.Propose(actor, id), Shadow.Clear(actor, id);
            && (Shadow.Ok(rules, m, now, propose) <==> Shadow.InPlay(now, w) && w.IsSide(actor) && w.proposal == None)
            && (Shadow.Ok(rules, m, now, propose) ==>
                  Shadow.Effect(rules, m, now, propose) == m.(wagers := m.wagers[id := w.(proposal := Some(actor))]))
            && (Shadow.Ok(rules, m, now, clear) <==> !w.closed && w.proposal != None && w.IsSide(actor))
            && (Shadow.Ok(rules, m, now, clear) ==>
                  Shadow.Effect(rules, m, now, clear) == m.(wagers := m.wagers[id := w.(proposal := None)]))
  {
  }

  lemma ProposeAgrees(fx: Fixture, m: Shadow.Model, s: State, actor: Address, id: Address)
    requires Drawable(fx, m, s, Shadow.Propose(actor, id))
    ensures Agrees(fx, m, s.now, Shadow.Propose(actor, id), CancelPropose(s, actor, id))
  {
    ProposeVerdict(fx, m, s, actor, id);
    ProposeEffect(fx, m, s.now, actor, id);
    if CancelPropose(s, actor, id).Ok? { ProposeSteps(fx, m, s, actor, id); }
  }

  lemma ClearAgrees(fx: Fixture, m: Shadow.Model, s: State, actor: Address, id: Address)
    requires Drawable(fx, m, s, Shadow.Clear(actor, id))
    ensures Agrees(fx, m, s.now, Shadow.Clear(actor, id), CancelClear(s, actor, id))
  {
    ProposeVerdict(fx, m, s, actor, id);
    ProposeEffect(fx, m, s.now, actor, id);
    if CancelClear(s, actor, id).Ok? { ClearSteps(fx, m, s, actor, id); }
  }

  lemma FeeAgrees(fx: Fixture, m: Shadow.Model, s: State, bps: u16)
    requires Drawable(fx, m, s, Shadow.ChangeFee(bps))
    ensures Agrees(fx, m, s.now, Shadow.ChangeFee(bps), UpdateConfig(s, fx.config.admin, FeeUpdate(bps)))
  {
    Effects(fx, m, s.now, Shadow.ChangeFee(bps));
    FeeVerdict(fx, m, s, bps);
  }

  lemma TimeMatches(fx: Fixture, m: Shadow.Model, s: State, now: i64)
    requires Matches(fx, m, s)
    ensures Matches(fx, m, s.(now := now))
  {
  }

  lemma WarpAgrees(fx: Fixture, m: Shadow.Model, s: State, seconds: nat)
    requires Drawable(fx, m, s, Shadow.Warp(seconds))
    ensures Agrees(fx, m, s.now, Shadow.Warp(seconds), Ok(s.(now := s.now + seconds)))
  {
    Effects(fx, m, s.now, Shadow.Warp(seconds));
    TimeMatches(fx, m, s, s.now + seconds);
  }

  lemma SignersSign(fx: Fixture, m: Shadow.Model, action: Shadow.Action, now: i64)
    requires Shadow.Drawn(RulesOf(fx.config, fx.resolver), m, now, action) && FixtureSound(fx, m.balances.Keys)
    ensures var signer := Signer(StepOf(fx, m, action, now)); signer.Some? ==> CanSign(signer.value)
  {
  }

  /** The handler that an action reaches. */
  function Reached(fx: Fixture, m: Shadow.Model, s: State, action: Shadow.Action): Result<State>
    requires Shadow.Drawn(RulesOf(fx.config, fx.resolver), m, s.now, action)
  {
    match action
    case Create(args) => CreateWager(s, args)
    case Stake(actor, id) => StakeSide(s, actor, id, AtaOf(actor, fx.config.mint))
    case Unstake(actor, id) => UnstakeSide(s, actor, id)
    case Refund(id, ofA) => RefundSide(s, id, SideOf(m, id, ofA))
    case Concede(actor, id, namesSelf) => Concede(s, actor, id, Shadow.Named(m.wagers[id], actor, namesSelf))
    case Resolve(id, winner) => Resolve(s, fx.resolver, id, winner, winner)
    case Accept(actor, id) => CancelAccept(s, actor, id)
    case Close(id) => CloseExpired(s, id, Some(fx.config.feeDestination))
    case Propose(actor, id) => CancelPropose(s, actor, id)
    case Clear(actor, id) => CancelClear(s, actor, id)
    case ChangeFee(bps) => UpdateConfig(s, fx.config.admin, FeeUpdate(bps))
    case Warp(seconds) => Ok(s.(now := s.now + seconds))
  }

  predicate MovesStake(action: Shadow.Action) { action.Create? || action.Stake? || action.Unstake? || action.Refund? }

  predicate EndsIt(action: Shadow.Action) { action.Concede? || action.Resolve? || action.Accept? || action.Close? }

  lemma StakeStepReaches(fx: Fixture, m: Shadow.Model, s: State, action: Shadow.Action)
    requires Shadow.Drawn(RulesOf(fx.config, fx.resolver), m, s.now, action) && MovesStake(action)
    ensures Execute(s, StepOf(fx, m, action, s.now)) == Reached(fx, m, s, action)
  {
  }

  lemma EndStepReaches(fx: Fixture, m: Shadow.Model, s: State, action: Shadow.Action)
    requires Shadow.Drawn(RulesOf(fx.config, fx.resolver), m, s.now, action) && EndsIt(action)
    ensures Execute(s, StepOf(fx, m, action, s.now)) == Reached(fx, m, s, action)
  {
  }

  lemma OtherStepReaches(fx: Fixture, m: Shadow.Model, s: State, action: Shadow.Action)
    requires Shadow.Drawn(RulesOf(fx.config, fx.resolver), m, s.now, action) && !MovesStake(action) && !EndsIt(action)
    ensures Execute(s, StepOf(fx, m, action, s.now)) == Reached(fx, m, s, action)
  {
  }

  lemma StakeActionsAgree(fx: Fixture, m: Shadow.Model, s: State, action: Shadow.Action)
    requires Drawable(fx, m, s, action) && MovesStake(action)
    ensures Agrees(fx, m, s.now, action, Reached(fx, m, s, action))
  {
    match action
    case Create(args) => CreateAgrees(fx, m, s, args);
    case Stake(actor, id) => StakeAgrees(fx, m, s, actor, id);
    case Unstake(actor, id) => UnstakeAgrees(fx, m, s, actor, id);
    case Refund(id, ofA) => RefundAgrees(fx, m, s, id, ofA);
  }

  lemma EndActionsAgree(fx: Fixture, m: Shadow.Model, s: State, action: Shadow.Action)
    requires Drawable(fx, m, s, action) && EndsIt(action)
    ensures Agrees(fx, m, s.now, action, Reached(fx, m, s, action))
  {
    match action
    case Concede(actor, id, namesSelf) => ConcedeAgrees(fx, m, s, actor, id, namesSelf);
    case Resolve(id, winner) => ResolveAgrees(fx, m, s, id, winner);
    case Accept(actor, id) => AcceptAgrees(fx, m, s, actor, id);
    case Close(id) => CloseAgrees(fx, m, s, id);
  }

  lemma OtherActionsAgree(fx: Fixture, m: Shadow.Model, s: State, action: Shadow.Action)
    requires Drawable(fx, m, s, action) && !MovesStake(action) && !EndsIt(action)
    ensures Agrees(fx, m, s.now, action, Reached(fx, m, s, action))
  {
    match action
    case Propose(actor, id) => ProposeAgrees(fx, m, s, actor, id);
    case Clear(actor, id) => ClearAgrees(fx, m, s, actor, id);
    case ChangeFee(bps) => FeeAgrees(fx, m, s, bps);
    case Warp(seconds) => WarpAgrees(fx, m, s, seconds);
  }

  /** One action: the handler succeeds exactly when the shadow says it must, and the two stay in step. */
  lemma ActionsAgree(fx: Fixture, m: Shadow.Model, s: State, action: Shadow.Action)
    requires Drawable(fx, m, s, action)
    ensures Agrees(fx, m, s.now, action, Execute(s, StepOf(fx, m, action, s.now)))
  {
    if MovesStake(action) {
      StakeActionsAgree(fx, m, s, action);
      StakeStepReaches(fx, m, s, action);
    } else if EndsIt(action) {
      EndActionsAgree(fx, m, s, action);
      EndStepReaches(fx, m, s, action);
    } else {
      OtherActionsAgree(fx, m, s, action);
      OtherStepReaches(fx, m, s, action);
    }
  }

  /** The transaction is signed, so the runtime lets it through to the handler. */
  lemma SignedReachesHandler(s: State, step: Step)
    requires Signer(step).Some? ==> CanSign(Signer(step).value)
    ensures Apply(s, step) == Execute(s, step)
  {
  }

  lemma OneAction(fx: Fixture, m: Shadow.Model, s: State, action: Shadow.Action, step: Step, s': State)
    requires Drawable(fx, m, s, action) && step == StepOf(fx, m, action, s.now) && s' == Next(s, step)
    ensures Apply(s, step).Ok? <==> Shadow.Ok(RulesOf(fx.config, fx.resolver), m, s.now, action)
    ensures Simulates(fx, Shadow.Effect(RulesOf(fx.config, fx.resolver), m, s.now, action), s')
  {
    ActionsAgree(fx, m, s, action);
    SignersSign(fx, m, action, s.now);
    SignedReachesHandler(s, step);
    NextKeeps(s, step);
  }

  // ---- whole sequences ----

  lemma KindOfStep(fx: Fixture, m: Shadow.Model, action: Shadow.Action, now: i64)
    requires Shadow.Drawn(RulesOf(fx.config, fx.resolver), m, now, action)
    ensures if action.Warp? then StepOf(fx, m, action, now) == Tick(action.seconds)
            else !IsOutside(StepOf(fx, m, action, now))
  {
  }

  lemma ClockRuns(s: State, step: Step, action: Shadow.Action)
    requires if action.Warp? then step == Tick(action.seconds) && s.now + action.seconds <= I64_MAX
             else !IsOutside(step)
    ensures Next(s, step).now == Shadow.Clock(s.now, action)
  {
    if !action.Warp? && Apply(s, step).Ok? { InstructionsTakeNoTime(s, step); }
  }

  lemma ClockOf(fx: Fixture, m: Shadow.Model, s: State, action: Shadow.Action, step: Step, s': State)
    requires Shadow.Drawn(RulesOf(fx.config, fx.resolver), m, s.now, action)
    requires step == StepOf(fx, m, action, s.now) && s' == Next(s, step)
    ensures s'.now == Shadow.Clock(s.now, action)
  {
    KindOfStep(fx, m, action, s.now);
    ClockRuns(s, step, action);
  }

  lemma EntryOf(fx: Fixture, m: Shadow.Model, s: State, action: Shadow.Action) returns (log: seq<Entry>)
    requires Drawable(fx, m, s, action)
    ensures |log| == 1 && IsLog(s, log) && log[0].step == StepOf(fx, m, action, s.now)
    ensures log[0].ok == Shadow.Ok(RulesOf(fx.config, fx.resolver), m, s.now, action)
    ensures Simulates(fx, Shadow.Effect(RulesOf(fx.config, fx.resolver), m, s.now, action), Last(s, log))
    ensures Last(s, log).now == Shadow.Clock(s.now, action)
  {
    log := LogOfOne(s, StepOf(fx, m, action, s.now));
    OneAction(fx, m, s, action, log[0].step, log[0].after);
    ClockOf(fx, m, s, action, log[0].step, log[0].after);
  }

  /** The log carries out the actions one by one, each with the verdict of the shadow at that point. */
  predicate InStep(fx: Fixture, m: Shadow.Model, now: i64, actions: seq<Shadow.Action>, log: seq<Entry>)
    requires m.counters.Keys == m.balances.Keys && Shadow.AllDrawn(RulesOf(fx.config, fx.resolver), m, now, actions)
    decreases |actions|
  {
    && |log| == |actions|
    && (actions == [] ||
        var rules := RulesOf(fx.config, fx.resolver);
        && log[0].step == StepOf(fx, m, actions[0], now)
        && log[0].ok == Shadow.Ok(rules, m, now, actions[0])
        && InStep(fx, Shadow.Effect(rules, m, now, actions[0]), Shadow.Clock(now, actions[0]), actions[1..], log[1..]))
  }

  /** Refinement over runs: carry out any sequence the fuzzer can draw, and the program accepts and rejects
      exactly what the shadow does, transaction by transaction, with the same balances, counters, accumulator
      and wagers at the end. */
  lemma {:induction false} SequencesAgree(fx: Fixture, m: Shadow.Model, s: State, actions: seq<Shadow.Action>)
    returns (log: seq<Entry>)
    requires Simulates(fx, m, s) && Shadow.AllDrawn(RulesOf(fx.config, fx.resolver), m, s.now, actions)
    ensures IsLog(s, log) && InStep(fx, m, s.now, actions, log)
    ensures Simulates(fx, Shadow.Play(RulesOf(fx.config, fx.resolver), m, s.now, actions), Last(s, log))
    decreases |actions|
  {
    if actions == [] {
      log := [];
    } else {
      var first := EntryOf(fx, m, s, actions[0]);
      var m' := Shadow.Effect(RulesOf(fx.config, fx.resolver), m, s.now, actions[0]);
      var rest := SequencesAgree(fx, m', Last(s, first), actions[1..]);
      log := first + rest;
      LogsJoin(s, first, rest);
      assert log[1..] == rest;
    }
  }

  // ---- what the fuzzer checks after every action ----

  /** Each balance, the fee balance, each counter and the accumulator are equal; each open wager's vault holds what
      the shadow expects; a closed wager is gone, and its vault with it. */
  lemma MatchingLedgersPass(fx: Fixture, m: Shadow.Model, s: State)
    requires Simulates(fx, m, s)
    ensures forall a <- m.balances :: AmountAt(s.tokens, AtaOf(a, fx.config.mint)) == m.balances[a]
    ensures AmountAt(s.tokens, fx.config.feeDestination) == m.feeBalance
    ensures forall a <- m.counters :: Count(s.counters, a) == m.counters[a]
    ensures s.config.totalOpenValue == m.totalOpen
    ensures forall id <- m.wagers ::
              if m.wagers[id].closed then id !in s.wagers && (id.WagerPda? ==> AtaOf(id, fx.config.mint) !in s.tokens)
              else id in s.wagers && AmountAt(s.tokens, AtaOf(id, fx.config.mint)) == m.wagers[id].VaultExpected()
  {
    forall id <- m.wagers | !m.wagers[id].closed
      ensures id in s.wagers && AmountAt(s.tokens, AtaOf(id, fx.config.mint)) == m.wagers[id].VaultExpected()
    {
      OpenIsSeen(fx, m, s, id);
    }
  }

  // ---- where sequences start ----

  /** The shadow of a fresh deployment with these wallets. */
  function FreshModel(c: Config, actors: set<Address>, t: TokenMap): Shadow.Model {
    Shadow.Model(map a | a in actors :: AmountAt(t, AtaOf(a, c.mint)), AmountAt(t, c.feeDestination),
                 map a | a in actors :: 0, 0, c.feeBps, map[])
  }

  /** Usable wallets, a usable fee account, and nothing sent ahead to the vault of a wager still to come. */
  predicate DonationFree(c: Config, actors: set<Address>, t: TokenMap) {
    && (forall a <- actors :: Usable(t, a, c.mint)) && Receives(t, c.feeDestination, c.mint)
    && (forall a <- t :: !(a.AtaOf? && a.owner.WagerPda? && a.mint == c.mint))
  }

  lemma FreshSimulates(s: State, authority: Address, args: InitializeConfigArgs, resolver: Address,
                       actors: set<Address>)
    requires IsGenesis(s, authority, args) && FixtureSound(Fixture(s.config, resolver), actors)
             && DonationFree(s.config, actors, s.tokens)
    ensures Simulates(Fixture(s.config, resolver), FreshModel(s.config, actors, s.tokens), s)
  {
    GenesisSound(s, authority, args);
    var m := FreshModel(s.config, actors, s.tokens);
    assert m.balances.Keys == actors == m.counters.Keys;
  }

  /** From any donation-free deployment, over any sequence. */
  lemma ProgramRefinesShadow(s: State, authority: Address, args: InitializeConfigArgs, resolver: Address,
                             actors: set<Address>,
                             actions: seq<Shadow.Action>) returns (log: seq<Entry>)
    requires IsGenesis(s, authority, args) && FixtureSound(Fixture(s.config, resolver), actors)
             && DonationFree(s.config, actors, s.tokens)
    requires var m := FreshModel(s.config, actors, s.tokens);
             && m.counters.Keys == m.balances.Keys && Shadow.AllDrawn(RulesOf(s.config, resolver), m, s.now, actions)
    ensures var fx, m := Fixture(s.config, resolver), FreshModel(s.config, actors, s.tokens);
            && IsLog(s, log) && InStep(fx, m, s.now, actions, log)
            && Simulates(fx, Shadow.Play(RulesOf(s.config, resolver), m, s.now, actions), Last(s, log))
  {
    FreshSimulates(s, authority, args, resolver, actors);
    log := SequencesAgree(Fixture(s.config, resolver), FreshModel(s.config, actors, s.tokens), s, actions);
  }
}
