/** The rules of the escrow written a second time, with no token program, no accounts and no saturation: the
    shadow model that the repository's state-machine fuzzer compares the program with. */
module Shadow {
  import opened Types
  import opened Handlers

  datatype MState = MFunding | MActive

  datatype MWager = MWager(
    sa: Address, sb: Address, stake: int, feeBps: int, dFund: int, dResolve: int, state: MState,
    fundedA: bool, fundedB: bool, refundedA: bool, refundedB: bool, proposal: Option<Address>, closed: bool)
  {
    predicate IsSide(actor: Address) { actor == sa || actor == sb }

    predicate Funded(actor: Address) { if actor == sa then fundedA else fundedB }

    predicate Refunded(actor: Address) { if actor == sa then refundedA else refundedB }

    function SetFunded(actor: Address, funded: bool): MWager {
      if actor == sa then this.(fundedA := funded) else this.(fundedB := funded)
    }

    function Locked(): MWager { if fundedA && fundedB then this.(state := MActive) else this }

    function SetRefunded(actor: Address): MWager {
      if actor == sa then this.(refundedA := true) else this.(refundedB := true)
    }

    function Other(actor: Address): Address { if actor == sa then sb else sa }

    function VaultExpected(): int {
      (if fundedA && !refundedA then stake else 0) + (if fundedB && !refundedB then stake else 0)
    }

    predicate FullyExited() { (!fundedA || refundedA) && (!fundedB || refundedB) }

    predicate Due(now: int) { match state case MFunding => now > dFund case MActive => now > dResolve }
  }

  /** Wallet balances and counters by actor; wagers by address, kept after they close. */
  datatype Model = Model(
    balances: map<Address, int>, feeBalance: int, counters: map<Address, int>, totalOpen: int,
    feeBpsCurrent: int, wagers: map<Address, MWager>)

  /** The configuration that stays fixed during a sequence. */
  datatype Rules = Rules(capPerWallet: int, globalCap: int, minStake: int, maxStake: int, maxWindow: int,
                         resolver: Address)

  datatype Action =
    | Create(args: CreateWagerArgs)
    | Stake(actor: Address, id: Address)
    | Unstake(actor: Address, id: Address)
    | Concede(actor: Address, id: Address, namesSelf: bool)
    | Resolve(id: Address, winner: Address)
    | Refund(id: Address, ofA: bool)
    | Close(id: Address)
    | Propose(actor: Address, id: Address)
    | Clear(actor: Address, id: Address)
    | Accept(actor: Address, id: Address)
    | ChangeFee(bps: u16)
    | Warp(seconds: nat)

  /** What may be drawn: a nonce never used, the configured resolver, actors of the fixture, wagers created before. */
  predicate Drawn(rules: Rules, m: Model, now: i64, action: Action) {
    match action
    case Create(args) =>
      && args.sideA in m.balances && (args.sideB in m.balances || args.sideB == DEFAULT)
      && args.resolver == rules.resolver && WagerPda(args.sideA, args.nonce) !in m.wagers
    case Stake(actor, id) => actor in m.balances && id in m.wagers
    case Unstake(actor, id) => actor in m.balances && id in m.wagers
    case Concede(actor, id, _) => actor in m.balances && id in m.wagers
    case Resolve(id, _) => id in m.wagers
    case Refund(id, _) => id in m.wagers
    case Close(id) => id in m.wagers
    case Propose(actor, id) => actor in m.balances && id in m.wagers
    case Clear(actor, id) => actor in m.balances && id in m.wagers
    case Accept(actor, id) => actor in m.balances && id in m.wagers
    case ChangeFee(_) => true
    case Warp(seconds) => now + seconds <= I64_MAX
  }

  /** The winner a concession names: the other side, or the conceder itself. */
  function Named(w: MWager, actor: Address, namesSelf: bool): Address {
    if w.IsSide(actor) && !namesSelf then w.Other(actor) else actor
  }

  predicate OkCreate(rules: Rules, now: int, args: CreateWagerArgs) {
    && args.sideB != args.sideA && args.sideB != DEFAULT && args.termsHash != 0
    && rules.minStake <= args.stake <= rules.maxStake
    && now < args.deadlineFund < args.deadlineResolve
    && args.deadlineFund - now <= rules.maxWindow && args.deadlineResolve - args.deadlineFund <= rules.maxWindow
  }

  predicate OkStake(rules: Rules, m: Model, now: int, actor: Address, w: MWager)
    requires actor in m.balances && actor in m.counters
  {
    && !w.closed && w.state == MFunding && now <= w.dFund && w.IsSide(actor) && !w.Funded(actor)
    && m.counters[actor] < rules.capPerWallet && m.totalOpen + w.stake <= rules.globalCap
       && w.stake <= m.balances[actor]
  }

  predicate OkUnstake(now: int, actor: Address, w: MWager) {
    !w.closed && w.state == MFunding && now <= w.dFund && w.IsSide(actor) && w.Funded(actor)
  }

  /** Open, locked and in time. */
  predicate InPlay(now: int, w: MWager) { !w.closed && w.state == MActive && now <= w.dResolve }

  /** Whether the action must succeed. */
  predicate Ok(rules: Rules, m: Model, now: i64, action: Action)
    requires Drawn(rules, m, now, action) && m.counters.Keys == m.balances.Keys
  {
    match action
    case Create(args) => OkCreate(rules, now, args)
    case Stake(actor, id) => OkStake(rules, m, now, actor, m.wagers[id])
    case Unstake(actor, id) => OkUnstake(now, actor, m.wagers[id])
    case Concede(actor, id, namesSelf) => InPlay(now, m.wagers[id]) && m.wagers[id].IsSide(actor) && !namesSelf
    case Resolve(id, winner) => InPlay(now, m.wagers[id]) && m.wagers[id].IsSide(winner)
    case Refund(id, ofA) =>
      var w := m.wagers[id];
      var side := if ofA then w.sa else w.sb;
      !w.closed && w.Due(now) && w.Funded(side) && !w.Refunded(side)
    case Close(id) => !m.wagers[id].closed && m.wagers[id].Due(now) && m.wagers[id].FullyExited()
    case Propose(actor, id) => InPlay(now, m.wagers[id]) && m.wagers[id].IsSide(actor) && m.wagers[id].proposal == None
    case Clear(actor, id) => !m.wagers[id].closed && m.wagers[id].proposal != None && m.wagers[id].IsSide(actor)
    case Accept(actor, id) =>
      && InPlay(now, m.wagers[id]) && m.wagers[id].IsSide(actor)
      && m.wagers[id].proposal != None && m.wagers[id].proposal != Some(actor)
    case ChangeFee(bps) => bps <= MAX_FEE_BPS
    case Warp(_) => true
  }

  // ---- effects, with plain additions and subtractions ----

  function Add(b: map<Address, int>, a: Address, amount: int): map<Address, int> {
    if a in b then b[a := b[a] + amount] else b
  }

  /** A stake moves between an actor and a wager: amount is positive on the way in, negative on the way out. */
  function MoveStake(m: Model, actor: Address, id: Address, w: MWager, amount: int, count: int): Model {
    m.(balances := Add(m.balances, actor, -amount), counters := Add(m.counters, actor, count),
       totalOpen := m.totalOpen + amount, wagers := m.wagers[id := w])
  }

  /** A wager ends, with so much to each side and in fees; both sides' exposure ends with it. */
  function End(m: Model, id: Address, w: MWager, toA: int, toB: int, fee: int): Model {
    m.(balances := Add(Add(m.balances, w.sa, toA), w.sb, toB), feeBalance := m.feeBalance + fee,
       counters := Add(Add(m.counters, w.sa, -1), w.sb, -1), totalOpen := m.totalOpen - 2 * w.stake,
       wagers := m.wagers[id := w.(closed := true)])
  }

  function Settle(m: Model, id: Address, w: MWager, winner: Address): Model {
    var pot := 2 * w.stake;
    var fee := pot * w.feeBps / 10_000;
    if winner == w.sa then End(m, id, w, pot - fee, 0, fee) else End(m, id, w, 0, pot - fee, fee)
  }

  function Opened(m: Model, args: CreateWagerArgs): Model {
    m.(wagers := m.wagers[WagerPda(args.sideA, args.nonce) :=
         MWager(args.sideA, args.sideB, args.stake, m.feeBpsCurrent, args.deadlineFund, args.deadlineResolve, MFunding,
                false, false, false, false, None, false)])
  }

  /** What an action that must succeed does, and one that must fail does not do. */
  function Effect(rules: Rules, m: Model, now: i64, action: Action): (m': Model)
    requires Drawn(rules, m, now, action) && m.counters.Keys == m.balances.Keys
    ensures m'.counters.Keys == m'.balances.Keys == m.balances.Keys
  {
    if !Ok(rules, m, now, action) then m else
      match action
      case Create(args) => Opened(m, args)
      case Stake(actor, id) =>
        MoveStake(m, actor, id, m.wagers[id].SetFunded(actor, true).Locked(), m.wagers[id].stake, 1)
      case Unstake(actor, id) =>
        MoveStake(m, actor, id, m.wagers[id].SetFunded(actor, false), 0 - m.wagers[id].stake, -1)
      case Concede(actor, id, _) => Settle(m, id, m.wagers[id], m.wagers[id].Other(actor))
      case Resolve(id, winner) => Settle(m, id, m.wagers[id], winner)
      case Refund(id, ofA) =>
        var side := if ofA then m.wagers[id].sa else m.wagers[id].sb;
        MoveStake(m, side, id, m.wagers[id].SetRefunded(side), 0 - m.wagers[id].stake, -1)
      case Close(id) => m.(wagers := m.wagers[id := m.wagers[id].(closed := true)])
      case Propose(actor, id) => m.(wagers := m.wagers[id := m.wagers[id].(proposal := Some(actor))])
      case Clear(_, id) => m.(wagers := m.wagers[id := m.wagers[id].(proposal := None)])
      case Accept(_, id) => End(m, id, m.wagers[id], m.wagers[id].stake, m.wagers[id].stake, 0)
      case ChangeFee(bps) => m.(feeBpsCurrent := bps)
      case Warp(_) => m
  }

  // ---- sequences ----

  function Clock(now: i64, action: Action): int { if action.Warp? then now + action.seconds else now }

  /** A sequence that can be drawn, action by action. */
  predicate AllDrawn(rules: Rules, m: Model, now: i64, actions: seq<Action>)
    requires m.counters.Keys == m.balances.Keys
    decreases |actions|
  {
    actions == [] ||
    (Drawn(rules, m, now, actions[0])
     && AllDrawn(rules, Effect(rules, m, now, actions[0]), Clock(now, actions[0]), actions[1..]))
  }

  /** Where the shadow ends up. */
  function Play(rules: Rules, m: Model, now: i64, actions: seq<Action>): Model
    requires m.counters.Keys == m.balances.Keys && AllDrawn(rules, m, now, actions)
    decreases |actions|
  {
    if actions == [] then m
    else Play(rules, Effect(rules, m, now, actions[0]), Clock(now, actions[0]), actions[1..])
  }
}
