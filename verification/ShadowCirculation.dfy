/** The fuzzer's last check: the shadow neither mints nor burns. Every token is with an actor, in fees, or in a
    vault. */
module ShadowCirculation {
  import opened Types
  import opened Sums
  import opened Accounts
  import opened History
  import opened Refinement
  import Shadow

  ghost function BalanceFn(): (Address, int) -> int { (a, balance: int) => balance }

  ghost function VaultFn(): (Address, Shadow.MWager) -> int {
    (id, w: Shadow.MWager) => if w.closed then 0 else w.VaultExpected()
  }

  /** With the actors, in fees, and in the vaults of open wagers. */
  ghost function Minted(m: Shadow.Model): int {
    SumOver(m.balances, BalanceFn()) + m.feeBalance + SumOver(m.wagers, VaultFn())
  }

  lemma AddAdds(balances: map<Address, int>, a: Address, amount: int)
    requires a in balances
    ensures SumOver(Shadow.Add(balances, a, amount), BalanceFn()) == SumOver(balances, BalanceFn()) + amount
  {
    SumOverUpdate(balances, BalanceFn(), a, balances[a] + amount);
  }

  lemma ReplaceVault(wagers: map<Address, Shadow.MWager>, id: Address, w: Shadow.MWager)
    ensures SumOver(wagers[id := w], VaultFn())
            == SumOver(wagers, VaultFn()) - (if id in wagers then VaultFn()(id, wagers[id]) else 0) + VaultFn()(id, w)
  {
    SumOverUpdate(wagers, VaultFn(), id, w);
  }

  lemma MoveConserves(m: Shadow.Model, actor: Address, id: Address, w: Shadow.MWager, amount: int, count: int)
    requires actor in m.balances && id in m.wagers && !m.wagers[id].closed && !w.closed
    requires w.VaultExpected() == m.wagers[id].VaultExpected() + amount
    ensures Minted(Shadow.MoveStake(m, actor, id, w, amount, count)) == Minted(m)
  {
    AddAdds(m.balances, actor, -amount);
    ReplaceVault(m.wagers, id, w);
  }

  lemma EndConserves(m: Shadow.Model, id: Address, w: Shadow.MWager, toA: int, toB: int, fee: int)
    requires id in m.wagers && w == m.wagers[id] && !w.closed && w.sa in m.balances && w.sb in m.balances
    requires toA + toB + fee == w.VaultExpected()
    ensures Minted(Shadow.End(m, id, w, toA, toB, fee)) == Minted(m)
  {
    AddAdds(m.balances, w.sa, toA);
    AddAdds(Shadow.Add(m.balances, w.sa, toA), w.sb, toB);
    ReplaceVault(m.wagers, id, w.(closed := true));
  }

  lemma SettleConserves(m: Shadow.Model, id: Address, w: Shadow.MWager, winner: Address)
    requires id in m.wagers && w == m.wagers[id] && !w.closed && w.sa in m.balances && w.sb in m.balances
    requires w.VaultExpected() == 2 * w.stake
    ensures Minted(Shadow.Settle(m, id, w, winner)) == Minted(m)
  {
    var fee := 2 * w.stake * w.feeBps / 10_000;
    if winner == w.sa { EndConserves(m, id, w, 2 * w.stake - fee, 0, fee); }
    else { EndConserves(m, id, w, 0, 2 * w.stake - fee, fee); }
  }

  /** What an action on an open wager needs to know to conserve. */
  predicate Known(m: Shadow.Model, id: Address, now: int) {
    && id in m.wagers && !m.wagers[id].closed
    && var w := m.wagers[id];
    && w.sa in m.balances && w.sb in m.balances && w.sa != w.sb
    && (w.state == Shadow.MActive <==> w.fundedA && w.fundedB)
    && (w.refundedA ==> w.fundedA) && (w.refundedB ==> w.fundedB) && (w.refundedA || w.refundedB ==> w.Due(now))
  }

  lemma OpenIsKnown(fx: Fixture, m: Shadow.Model, s: State, id: Address)
    requires Simulates(fx, m, s) && id in m.wagers && !m.wagers[id].closed
    ensures Known(m, id, s.now)
  {
    OpenIsSeen(fx, m, s, id);
  }

  lemma StakeActionsConserve(rules: Shadow.Rules, m: Shadow.Model, now: i64, action: Shadow.Action)
    requires Shadow.Drawn(rules, m, now, action) && m.counters.Keys == m.balances.Keys
             && Shadow.Ok(rules, m, now, action)
    requires (action.Stake? || action.Unstake? || action.Refund?) && Known(m, action.id, now)
    ensures Minted(Shadow.Effect(rules, m, now, action)) == Minted(m)
  {
    var id := action.id;
    var w := m.wagers[id];
    match action
    case Stake(actor, _) => MoveConserves(m, actor, id, w.SetFunded(actor, true).Locked(), w.stake, 1);
    case Unstake(actor, _) => MoveConserves(m, actor, id, w.SetFunded(actor, false), 0 - w.stake, -1);
    case Refund(_, ofA) =>
      var side := if ofA then w.sa else w.sb;
      MoveConserves(m, side, id, w.SetRefunded(side), 0 - w.stake, -1);
  }

  lemma EndActionsConserve(rules: Shadow.Rules, m: Shadow.Model, now: i64, action: Shadow.Action)
    requires Shadow.Drawn(rules, m, now, action) && m.counters.Keys == m.balances.Keys
             && Shadow.Ok(rules, m, now, action)
    requires EndsIt(action) && Known(m, action.id, now)
    ensures Minted(Shadow.Effect(rules, m, now, action)) == Minted(m)
  {
    var id := action.id;
    var w := m.wagers[id];
    match action
    case Concede(actor, _, _) => SettleConserves(m, id, w, w.Other(actor));
    case Resolve(_, winner) => SettleConserves(m, id, w, winner);
    case Accept(_, _) => EndConserves(m, id, w, w.stake, w.stake, 0);
    case Close(_) => ReplaceVault(m.wagers, id, w.(closed := true));
  }

  lemma OtherActionsConserve(rules: Shadow.Rules, m: Shadow.Model, now: i64, action: Shadow.Action)
    requires Shadow.Drawn(rules, m, now, action) && m.counters.Keys == m.balances.Keys
             && Shadow.Ok(rules, m, now, action)
    requires action.Create? || action.Propose? || action.Clear? || action.ChangeFee? || action.Warp?
    ensures Minted(Shadow.Effect(rules, m, now, action)) == Minted(m)
  {
    match action
    case Create(args) =>
      var id := WagerPda(args.sideA, args.nonce);
      ReplaceVault(m.wagers, id, Shadow.Opened(m, args).wagers[id]);
    case Propose(actor, id) => ReplaceVault(m.wagers, id, m.wagers[id].(proposal := Some(actor)));
    case Clear(_, id) => ReplaceVault(m.wagers, id, m.wagers[id].(proposal := None));
    case ChangeFee(_) =>
    case Warp(_) =>
  }

  predicate DrawsOnWager(action: Shadow.Action) {
    action.Stake? || action.Unstake? || action.Refund? || EndsIt(action)
  }

  lemma KnownConserves(rules: Shadow.Rules, m: Shadow.Model, now: i64, action: Shadow.Action)
    requires Shadow.Drawn(rules, m, now, action) && m.counters.Keys == m.balances.Keys
             && Shadow.Ok(rules, m, now, action)
    requires DrawsOnWager(action) ==> Known(m, action.id, now)
    ensures Minted(Shadow.Effect(rules, m, now, action)) == Minted(m)
  {
    if EndsIt(action) { EndActionsConserve(rules, m, now, action); }
    else if DrawsOnWager(action) { StakeActionsConserve(rules, m, now, action); }
    else { OtherActionsConserve(rules, m, now, action); }
  }

  /** No action changes the total. That the program's own ledger keeps its total is Conservation.RunConserves. */
  lemma ActionsConserve(fx: Fixture, m: Shadow.Model, s: State, action: Shadow.Action)
    requires Drawable(fx, m, s, action)
    ensures Minted(Shadow.Effect(RulesOf(fx.config, fx.resolver), m, s.now, action)) == Minted(m)
  {
    var rules := RulesOf(fx.config, fx.resolver);
    if Shadow.Ok(rules, m, s.now, action) {
      if DrawsOnWager(action) { OpenIsKnown(fx, m, s, action.id); }
      KnownConserves(rules, m, s.now, action);
    }
  }

  /** Over any sequence that can be drawn. */
  lemma {:induction false} SequencesConserve(fx: Fixture, m: Shadow.Model, s: State, actions: seq<Shadow.Action>)
    requires Simulates(fx, m, s) && Shadow.AllDrawn(RulesOf(fx.config, fx.resolver), m, s.now, actions)
    ensures Minted(Shadow.Play(RulesOf(fx.config, fx.resolver), m, s.now, actions)) == Minted(m)
    decreases |actions|
  {
    if actions != [] {
      ActionsConserve(fx, m, s, actions[0]);
      var log := EntryOf(fx, m, s, actions[0]);
      var m' := Shadow.Effect(RulesOf(fx.config, fx.resolver), m, s.now, actions[0]);
      SequencesConserve(fx, m', Last(s, log), actions[1..]);
    }
  }
}
