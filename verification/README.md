# Verification of the shake escrow

A Dafny model of the on-chain wager escrow in `programs/shake-escrow`, with proofs about single
instructions, about every reachable ledger, and about whole runs.

Two parties stake equal amounts into a vault, a pinned resolver names the winner among the two, and
after the deadlines anybody may crank each side's refund and reclaim the accounts. The program keeps two
cached aggregates (`total_open_value` and one exposure counter per wallet), lowers them with saturating
arithmetic, and in four of its exits looks at the clock instead of at the refund flags. Most of what is
proved here says why that is safe.

## How the model is built

- **State.** One ledger: the `Config` account, a map of live wagers keyed by program address, a map of
  exposure counters keyed by wallet, a map of SPL token accounts, the pending admin transfer, the clock.
  Integer widths are subset types (`u8`, `u16`, `u64`, `i64`), so every plain addition and subtraction of
  the source carries a proof obligation, and every saturating one is written out.
- **Instructions.** `Handlers` gives each instruction as a function from ledger to ledger or error, with
  the account constraints first and then the guards of the handler in the order of the source.
  `LedgerProgram` is the program at work: a class whose methods update its fields step by step as the Rust
  does (including writes made before a failing check, the loops over the allowlist and over the two refunds,
  and the vault as a loaded account whose amount goes stale until it is reloaded), each verified against its
  function. `Process` is the
  runtime: signature, dispatch, and rollback of everything a failed handler wrote.
- **Runs.** A step is one of the program's instructions, the passing of time, or anything a key holder can
  do with the token program alone: transfer (donations into vaults included), close, open, hand an account
  to another owner, and freezing or thawing. `Reachable` is every ledger that any sequence of steps leads to from
  an initialized deployment over arbitrary token accounts. `History` writes runs down as logs with their
  intermediate ledgers and verdicts.
- **Invariant.** `Invariant.Inv` says that both aggregates equal sums over the unbounded map of wagers,
  that every vault is its wager's own and covers what it owes, that a refunded side implies a passed
  deadline, and that the configuration is valid. `Preservation` shows that every step keeps it.
- **Configuration, role and record.** `Policy` states exactly when initialization, an update and each of the three
  steps of a handover succeeds, and what is then in every field; and what the record of a new wager must hold.
- **Exits.** `Exits` states for every exit exactly when it succeeds in a sound ledger and the exact ledger
  it makes. No condition mentions a balance, a counter or the accumulator.
- **Whole-run theorems.** `Books`, `Conservation`, `Settings`, `Terms`, `Consent`, `Custody`, `Settlement`,
  `AdminIsolation`, `Drain`, `Liveness`, `Persistence`, `Payoff`, `Lockability`, and `Refinement`, which compares the program with the
  shadow model of the state-machine fuzzer (`Shadow`, `ShadowCirculation`) in both directions.

## Hypotheses

- The clock does not run back and starts non-negative.
- The supply of every mint fits 64 bits.
- Associated-token and program addresses are injective and are never keys somebody holds; a wager's
  program address does not sign outside the program. A token account at a wager's vault address, where
  one exists before the program runs, belongs to that wager and mint, since nobody else can open it.
- The account framework rejects two mutable accounts that are the same; a failed instruction changes
  nothing.
- An account the caller must pass and that is pinned by address (fee account, rent collector, config,
  counters) is the pinned one: the model looks it up instead of receiving it.

Theorems that promise a success state what lies outside the program and must be in order: the paid sides'
canonical accounts exist, are still theirs and are not frozen, the vault is not frozen, and the pinned fee
account and rent collector are not in the way (`Exits.CanPay`, `Exits.CanReturnStakes`, `Exits.CanSweep`,
`Liveness.Clear`). These conditions are necessary as well as sufficient; `Liveness.Clear` asks nothing of the
fee account unless there is a surplus for it. What is due is judged by the deadline of the state a wager is in:
the funding deadline for one that never locked. `Drain.Unblocked` asks a little more, so that each step leaves
it true. `Persistence` shows that only the owners of the accounts relied on, and whoever can freeze them, can
undo them, and that a donation can do harm only where the fee account could not take it.

## Where the code and its documentation differ

The program's own README (its lines 23 to 26) promises that configuration changes (caps, fee, allowlist,
pause) apply to future wagers only. For the exposure caps this is not so: `stake_side.rs:71-85` reads the live configuration, so an admin
who lowers a cap below what a live wager still needs blocks its remaining stakes.
`AdminIsolation.CapsReachLiveWagers` is a run in which this happens, and
`AdminIsolation.AdminBlocksStakeExactlyByCaps` says exactly when: a stake that was possible stays possible
after an admin step if and only if the new caps have room for it. Every other step on a live wager is out
of the admin's reach (`AdminIsolation.AdminCannotInterfere`).

## Model

| member | source | states |
|---|---|---|
| `LedgerProgram.WriteAllowlist` | programs/shake-escrow/src/instructions/initialize_config.rs:106-110 | the loop leaves the resolvers in order in the first slots and default keys in the rest |
| `LedgerProgram.HandleInitializeConfig` | programs/shake-escrow/src/instructions/initialize_config.rs:75-117 | validates, rejects default addresses, and stores every argument in its field, with the signer as admin, not paused, nothing at stake |
| `LedgerProgram.Ledger.MoveTokens` | programs/shake-escrow/src/instructions/payout.rs:39-50 | the token program's transfer: fails on a missing or frozen account, a short balance, a mint or owner mismatch, and then changes nothing |
| `LedgerProgram.Ledger.HandleUpdateConfig` | programs/shake-escrow/src/instructions/update_config.rs:36-84 | accepted exactly from the admin and with valid values; each named value takes effect and the others stay; writing in place agrees with validating and merging first, although it can fail after it has written |
| `LedgerProgram.Ledger.HandleProposeAdmin` | programs/shake-escrow/src/instructions/admin_transfer.rs:31-41 | succeeds exactly for the admin naming a key that is neither the default one nor its own; a new proposal replaces the old |
| `LedgerProgram.Ledger.HandleAcceptAdmin` | programs/shake-escrow/src/instructions/admin_transfer.rs:64-70 | succeeds exactly for the proposed key, which takes the role, and the proposal closes |
| `LedgerProgram.Ledger.HandleCancelAdminTransfer` | programs/shake-escrow/src/instructions/admin_transfer.rs:90-95 | succeeds exactly for the admin while a proposal is pending, which is then gone |
| `LedgerProgram.Ledger.HandleCreateWager` | programs/shake-escrow/src/instructions/create_wager.rs:55-127 | guards in order, a pre-created vault taken over, a fresh wager with every agreed term, the terms hash included, and the fee and destinations configured at the moment |
| `LedgerProgram.Ledger.HandleStakeSide` | programs/shake-escrow/src/instructions/stake_side.rs:47-124 | guards, caps, transfer in, then accumulator, counter, flag, and activation by the second stake |
| `LedgerProgram.Ledger.HandleUnstakeSide` | programs/shake-escrow/src/instructions/unstake_side.rs:45-102 | transfer out, saturating books, flag cleared |
| `LedgerProgram.Ledger.HandleRefundSide` | programs/shake-escrow/src/instructions/refund_side.rs:48-108 | the state-dependent deadline, transfer out, saturating books, refund flag |
| `LedgerProgram.Ledger.SweepAndClose` | programs/shake-escrow/src/instructions/payout.rs:65-90 | after the reload everything left goes to the fee account and the vault closes |
| `Payout.StaleSweepFails` | programs/shake-escrow/src/instructions/payout.rs:65-80 | once anything has been paid out, sweeping the amount loaded before, without the reload, fails |
| `LedgerProgram.Ledger.PayWinnerAndClose` | programs/shake-escrow/src/instructions/payout.rs:29-91 | winner, fee if any, sweep, close, in that order |
| `LedgerProgram.Ledger.HandleResolve` | programs/shake-escrow/src/instructions/resolve.rs:70-127 | the pinned resolver's settlement, books released, wager gone |
| `LedgerProgram.Ledger.HandleConcede` | programs/shake-escrow/src/instructions/concede.rs:71-139 | the losing side's settlement, with the computed counterparty as winner |
| `LedgerProgram.Ledger.HandleCancelPropose` | programs/shake-escrow/src/instructions/cancel.rs:26-46 | a participant opens the one proposal an Active wager in time can have |
| `LedgerProgram.Ledger.HandleCancelClear` | programs/shake-escrow/src/instructions/cancel.rs:63-79 | either participant clears an open proposal |
| `LedgerProgram.Ledger.ReturnStakesAndClose` | programs/shake-escrow/src/instructions/cancel.rs:171-212 | the loop over the two homes, the reload, the sweep, the close |
| `LedgerProgram.Ledger.HandleCancelAccept` | programs/shake-escrow/src/instructions/cancel.rs:147-233 | the other side accepts: both stakes home, books released, wager gone |
| `LedgerProgram.Ledger.HandleCloseExpired` | programs/shake-escrow/src/instructions/close_expired.rs:40-100 | due and fully exited, surplus only to the pinned fee account, vault and wager gone |
| `LedgerProgram.Ledger.Process` | programs/shake-escrow/src/instructions/update_config.rs:59-72 | whatever a handler wrote before failing is undone: success makes the handler's ledger, an error leaves the ledger as it was |
| `Settlement.SplitPotExactly` | programs/shake-escrow/src/instructions/payout.rs:11-22 | payout and fee add up to the pot, the fee is the floor of the rate, and the split errs exactly when the pot or the fee does not fit |
| `Settlement.SplitPotNeverErrs` | programs/shake-escrow/src/instructions/payout.rs:11-22 | on any wager of any reachable ledger the split succeeds and the fee is at most a tenth of the pot |
| `Settlement.FeesOverRun` | programs/shake-escrow/src/instructions/payout.rs:6-22 | over any run the fees are at most a tenth of the pots and less than one unit a settlement below the exact rate |
| `Settlement.FeeArrives` | programs/shake-escrow/src/instructions/payout.rs:51-80 | each settlement raises the pinned fee account by the fee plus exactly the donated surplus |
| `Settlement.ConcessionIsResolution` | programs/shake-escrow/src/instructions/concede.rs:71-125 | a concession is possible exactly when a resolution for the other side is, and makes the same ledger |
| `Settlement.ConcessionYieldsLeast` | programs/shake-escrow/src/instructions/concede.rs:81-93 | no settlement or cancellation open to the wager at the same time leaves the conceder with less |
| `Payoff.NoLifeIsWorseThanConceding` | README.md:20-22 | no life of a wager, however it ends, leaves a side with less than one that ends with its own concession, refunds after the deadline included |
| `Exits.UnstakeSideExactly` | programs/shake-escrow/src/instructions/unstake_side.rs:45-102 | exactly when an unstake succeeds and the exact ledger after it, without saturation |
| `Exits.RefundSideExactly` | programs/shake-escrow/src/instructions/refund_side.rs:48-108 | exactly when a refund succeeds and the exact ledger after it, without saturation |
| `Exits.ResolveExactly` | programs/shake-escrow/src/instructions/resolve.rs:70-114 | exactly when a resolution succeeds; winner has pot less fee, the fee account all else, the vault is gone |
| `Exits.ConcedeExactly` | programs/shake-escrow/src/instructions/concede.rs:71-125 | exactly when a concession succeeds and to whom it pays |
| `Exits.CancelAcceptExactly` | programs/shake-escrow/src/instructions/cancel.rs:147-225 | exactly when the acceptance succeeds; both stakes home, surplus to the fee account, vault gone |
| `Exits.CloseExpiredExactly` | programs/shake-escrow/src/instructions/close_expired.rs:40-93 | exactly when a close succeeds; the surplus goes to the pinned account and the books do not move |
| `Exits.PayEmpties` | programs/shake-escrow/src/instructions/payout.rs:29-91 | whatever was donated, payment and sweep leave exactly zero before the close |
| `Exits.ReturnStakesReturns` | programs/shake-escrow/src/instructions/cancel.rs:171-212 | whatever was donated, the two refunds and the sweep leave exactly zero before the close |
| `Exits.PayWhen` | programs/shake-escrow/src/instructions/payout.rs:29-91 | the payment sequence fails only on a frozen or foreign account or a self-closing vault, never on a balance |
| `Preservation.StakeSideExactly` | programs/shake-escrow/src/instructions/stake_side.rs:47-114 | exactly when a stake is accepted and the exact ledger after it |
| `Preservation.CreateWagerExactly` | programs/shake-escrow/src/instructions/create_wager.rs:55-112 | exactly when a wager opens, the exact ledger after it, and every field of the new record against the arguments and the configuration |
| `Preservation.StakeSideKeeps` | programs/shake-escrow/src/instructions/stake_side.rs:71-114 | a stake keeps the invariant |
| `Preservation.UnstakeSideKeeps` | programs/shake-escrow/src/instructions/unstake_side.rs:84-94 | an unstake keeps the invariant |
| `Preservation.RefundSideKeeps` | programs/shake-escrow/src/instructions/refund_side.rs:91-100 | a refund keeps the invariant |
| `Preservation.ResolveKeeps` | programs/shake-escrow/src/instructions/resolve.rs:70-127 | a resolution keeps the invariant |
| `Preservation.ConcedeKeeps` | programs/shake-escrow/src/instructions/concede.rs:71-139 | a concession keeps the invariant |
| `Preservation.CancelAcceptKeeps` | programs/shake-escrow/src/instructions/cancel.rs:147-233 | an accepted cancellation keeps the invariant |
| `Preservation.CloseExpiredKeeps` | programs/shake-escrow/src/instructions/close_expired.rs:40-100 | a close keeps the invariant |
| `Preservation.CreateWagerKeeps` | programs/shake-escrow/src/instructions/create_wager.rs:93-112 | an opening keeps the invariant, also over a key used before and a vault with tokens in it |
| `Preservation.MergeKeeps` | programs/shake-escrow/src/instructions/update_config.rs:39-82 | an update leaves a valid configuration and cannot touch mint, admin or accumulator |
| `Preservation.NextKeeps` | programs/shake-escrow/src/state.rs:10-96 | every instruction, by any signer, and every outside event keeps the invariant |
| `Preservation.ReachableSound` | programs/shake-escrow/src/state.rs:10-96 | the invariant holds in every reachable ledger |
| `Books.BooksAreExact` | programs/shake-escrow/src/instructions/stake_side.rs:71-103 | in every reachable ledger the accumulator is the sum of stakes in, each counter the number of sides in, and every side in has a counter |
| `Books.ExitsNeverClamp` | programs/shake-escrow/src/instructions/refund_side.rs:91-93 | no saturating decrement ever clamps: every exit releases exactly what its wager gives up |
| `Books.TimeStandsForFlags` | programs/shake-escrow/src/instructions/unstake_side.rs:49-64 | unstake, resolve, concede and cancel_accept, which do not look at the refund flags, only ever accept wagers with no side refunded |
| `Books.StatesOfLiveWagers` | programs/shake-escrow/src/instructions/refund_side.rs:55-71 | live wagers are Funding or Active, Active exactly when both sides are funded, refunded only after the state's deadline, and backed by their vault |
| `Books.RaisesStayWithinCap` | programs/shake-escrow/src/instructions/stake_side.rs:76-86 | a step that raises the accumulator ends within the cap in force |
| `Books.OpenValueWithinLargestCap` | programs/shake-escrow/src/instructions/stake_side.rs:76-100 | the accumulator never exceeds the largest cap in force so far |
| `Conservation.NextConserves` | programs/shake-escrow/src/instructions/payout.rs:39-80 | no step creates or destroys a token of any mint |
| `Conservation.RunConserves` | programs/shake-escrow/src/instructions/payout.rs:39-80 | over any run, from any ledger at all, the total of every mint is constant |
| `Conservation.OpenValueBacked` | programs/shake-escrow/src/state.rs:35-36 | the accumulator is at most what the vaults hold together, and that at most what circulates |
| `Conservation.StakeNeverOverflows` | programs/shake-escrow/src/instructions/stake_side.rs:76-82 | the checked addition never errs for a staker who holds the stake |
| `Shapes.TermsArePinned` | README.md:23-26 | no step, whoever signs it, changes stake, sides, deadlines, resolver, fee or destinations of a live wager |
| `Shapes.OnlyPayerFalls` | README.md:15-16 | a step lowers at most one balance, the one it draws on |
| `Consent.VaultFallsOnlyByConsent` | programs/shake-escrow/src/instructions/concede.rs:81-93 | a locked wager's vault falls only by the resolver, the losing side, or the second of both sides |
| `Consent.OpenProposalWasSigned` | programs/shake-escrow/src/instructions/cancel.rs:31-40 | in any run an open proposal was signed by the side it names, in this life of the wager, with no clear since |
| `Consent.LockedMoneyMovesByConsent` | programs/shake-escrow/src/instructions/cancel.rs:152-162 | the consent theorem over runs, for all three ways a locked vault can fall |
| `Consent.CancelProposesExactly` | programs/shake-escrow/src/instructions/cancel.rs:26-47 | exactly when a side can propose to cancel, and that only the proposer is recorded |
| `Consent.CancelClearsExactly` | programs/shake-escrow/src/instructions/cancel.rs:63-80 | exactly when a side can clear a proposal, and that only the proposer is reset |
| `Policy.ValidatesExactly` | programs/shake-escrow/src/instructions/initialize_config.rs:46-73 | the rules in numbers: fee, ordered stake bounds, one to four real resolvers, window, caps |
| `Policy.InitializesExactly` | programs/shake-escrow/src/instructions/initialize_config.rs:75-117 | exactly which arguments are accepted, and one equation for every field of the configuration |
| `Policy.UpdatesExactly` | programs/shake-escrow/src/instructions/update_config.rs:28-84 | succeeds if and only if the admin signs and the resulting values are valid; every field then has the named value or the one it had |
| `Policy.ProposesExactly` | programs/shake-escrow/src/instructions/admin_transfer.rs:11-41 | a proposal succeeds if and only if the admin makes it for a key that is neither default nor its own, a pending one notwithstanding |
| `Policy.AcceptsExactly` | programs/shake-escrow/src/instructions/admin_transfer.rs:46-70 | an acceptance succeeds if and only if the signer is the proposed key |
| `Policy.WithdrawsExactly` | programs/shake-escrow/src/instructions/admin_transfer.rs:73-95 | a withdrawal succeeds if and only if the admin signs and a proposal is pending |
| `Settings.ConfigStaysValid` | programs/shake-escrow/src/instructions/initialize_config.rs:46-73 | in every reachable ledger the stored values meet the rules in numbers and the allowlist is one to four real keys, then defaults |
| `Settings.EverySettingWasNamed` | programs/shake-escrow/src/instructions/update_config.rs:11-14 | in any run each of the ten settings is the one in the last accepted update that names it, signed by the admin of its time, else the initializer's |
| `Settings.MintIsFixed` | programs/shake-escrow/src/state.rs:12-13 | over any run the mint is the one the program was initialized with |
| `Settings.AllowedMeansListed` | programs/shake-escrow/src/state.rs:40-44 | a resolver is allowed exactly when it is in the list last named, over any run |
| `Settings.EmptyUpdateIsIdentity` | programs/shake-escrow/src/instructions/update_config.rs:39-82 | the update that names nothing always succeeds and changes nothing |
| `Settings.OthersKeepPolicy` | programs/shake-escrow/src/instructions/update_config.rs:28-34 | a step that is neither signed by the admin of the moment nor the proposed key's acceptance changes no setting and no proposal, whatever its kind |
| `Terms.OnlyOpeningsAdd` | programs/shake-escrow/src/instructions/create_wager.rs:92-112 | a wager comes to be only by a creation, with every field as named or configured |
| `Terms.LiveTermsWereAgreed` | README.md:23-26 | in any run the terms hash and all other terms of a live wager are those of the creation that opened this life of it |
| `Terms.FeeWasSetBeforeOpening` | README.md:23-26 | the fee and destinations of a live wager are those an admin had last set when it opened, whatever has been set since |
| `Custody.PendingWasProposed` | programs/shake-escrow/src/instructions/admin_transfer.rs:31-41 | a pending proposal was signed by the admin of its time and is the latest move on the role |
| `Custody.AdminCameByHandover` | programs/shake-escrow/src/instructions/admin_transfer.rs:31-95 | the admin is the initializer or signed to accept an unreplaced, unwithdrawn proposal of its predecessor |
| `Custody.ProposalStands` | programs/shake-escrow/src/instructions/admin_transfer.rs:8-12 | over any run a proposal stays acceptable until the proposed key takes the role or the admin of the moment withdraws or replaces it |
| `Custody.PendingIsAnotherKey` | programs/shake-escrow/src/instructions/admin_transfer.rs:32-37 | a pending proposal is never the default key and never the admin |
| `AdminIsolation.ExitsIgnoreAdmin` | programs/shake-escrow/src/instructions/create_wager.rs:103-109 | in two ledgers that differ only in what the admin controls, each exit has the same verdict and the same effect |
| `AdminIsolation.AdminCannotInterfere` | README.md:23-26 | admin steps struck out of any run of exits change no verdict, wager, counter, balance or accumulator |
| `AdminIsolation.StakeReadsCurrentCaps` | programs/shake-escrow/src/instructions/stake_side.rs:71-86 | a stake into a live wager is judged by the caps in force when it arrives |
| `AdminIsolation.AdminBlocksStakeExactlyByCaps` | programs/shake-escrow/src/instructions/stake_side.rs:71-86 | an admin step blocks a possible stake if and only if the new caps have no room for it |
| `AdminIsolation.AdminInterferesExactlyByCaps` | programs/shake-escrow/src/instructions/stake_side.rs:71-86 | with stakes in the run too, striking the admin steps changes some outcome if and only if some stake finds the caps deciding differently |
| `AdminIsolation.CapsReachLiveWagers` | README.md:23-26 | a reachable ledger in which lowering the caps blocks a stake into a live wager |
| `Drain.DrainStep` | programs/shake-escrow/src/instructions/refund_side.rs:48-108 | each refund, close or clear lowers the work left and changes nobody's entitlement |
| `Drain.EveryDrainEndsTheSame` | programs/shake-escrow/src/instructions/close_expired.rs:40-100 | once every live wager is past the deadline of its state, locked or not, every order of refunds, closes and clears ends within the bound, and all that cannot go on have reached the same empty ledger |
| `Drain.DrainedIsUnique` | programs/shake-escrow/src/instructions/close_expired.rs:61-93 | the drained ledger, with every stake at its owner and every surplus at the pinned account, is one ledger |
| `Drain.AnybodyCanDrain` | README.md:17-19 | one signer of no standing can take a drain to its end from wherever it is |
| `Liveness.CreationBoundsWait` | programs/shake-escrow/src/instructions/create_wager.rs:82-90 | a wager's last deadline is at most two maximal windows after its creation, and no subtraction of times panics |
| `Liveness.WaitingEndsEveryWager` | programs/shake-escrow/src/constants.rs:23-26 | from any reachable ledger that wait brings every live wager past all its deadlines |
| `Liveness.NeverStrands` | programs/shake-escrow/src/instructions/refund_side.rs:55-71 | past the deadline of its state, whether it ever locked or not, at most two refunds and one close, by any signer, return every stake and end the wager; an unusable fee account stands in the way only of a surplus |
| `Liveness.EndedExactlyWhenRescuable` | programs/shake-escrow/src/instructions/close_expired.rs:40-53 | a live wager can be ended by some run of refunds and closes if and only if the deadline of its state has passed and the accounts they need are in order |
| `Persistence.RescueStaysOpen` | programs/shake-escrow/src/instructions/close_expired.rs:44-53 | no instruction, no passing of time and no use of the token program shuts that way out, but the acts of owners and freezers on the accounts it relies on |
| `Persistence.NothingStopsRescue` | README.md:17-19 | over any run of such steps, donations to a wager with a ready fee account included, the rescue stays open and gets no longer |
| `Persistence.AnybodyRescuesLater` | README.md:17-19 | after any such run anybody can still take it |
| `Persistence.RefundStaysOpen` | programs/shake-escrow/src/instructions/refund_side.rs:6-8 | a due refund, from the funding deadline on if the wager never locked, depends on the side's own account and the vault alone |
| `Persistence.RefundWaits` | programs/shake-escrow/src/instructions/refund_side.rs:6-8 | over any run in which nobody shuts those two, a side's due refund succeeds whenever it is tried until it is taken, whatever the other side's account is |
| `Payoff.LifePaysOff` | programs/shake-escrow/src/instructions/resolve.rs:74-114 | over a whole life from create to close each side's net is zero, or stake less fee and minus the stake; the fee account has fee plus surplus; nobody else gains |
| `Payoff.LifeSoFar` | programs/shake-escrow/src/instructions/unstake_side.rs:66-94 | at any point of a life everybody has out what they put in less what is still in, and the vault has the rest |
| `Payoff.DonationsAreGifts` | programs/shake-escrow/src/instructions/create_wager.rs:43-47 | what enters a vault besides stakes never leaves it but by the wager's own exits |
| `Lockability.SideCanStake` | programs/shake-escrow/src/instructions/initialize_config.rs:64-71 | a side can stake into a wager that holds the only stakes there are |
| `Lockability.EveryWagerCanLock` | programs/shake-escrow/src/instructions/initialize_config.rs:64-71 | in any run that opens a wager with no stake outstanding, the stakes of both sides get through in either order and make it Active, whatever happens in between short of other stakes moving, a side unable to pay, a frozen vault or a lowered bound |
| `Refinement.StakeVerdict` | programs/shake-escrow/tests/fuzz_state_machine.rs:214-244 | a stake succeeds exactly when the shadow model says so |
| `Refinement.UnstakeVerdict` | programs/shake-escrow/tests/fuzz_state_machine.rs:245-272 | an unstake succeeds exactly when the shadow model says so, though it reads no refund flag |
| `Refinement.ConcedeVerdict` | programs/shake-escrow/tests/fuzz_state_machine.rs:273-314 | a concession succeeds exactly when the shadow model says so |
| `Refinement.ResolveVerdict` | programs/shake-escrow/tests/fuzz_state_machine.rs:315-349 | a resolution succeeds exactly when the shadow model says so |
| `Refinement.RefundVerdict` | programs/shake-escrow/tests/fuzz_state_machine.rs:350-377 | a refund succeeds exactly when the shadow model says so |
| `Refinement.CloseVerdict` | programs/shake-escrow/tests/fuzz_state_machine.rs:378-402 | a close succeeds exactly when the shadow model says so |
| `Refinement.ProposeVerdict` | programs/shake-escrow/tests/fuzz_state_machine.rs:404-441 | proposing and clearing succeed exactly when the shadow model says so |
| `Refinement.AcceptVerdict` | programs/shake-escrow/tests/fuzz_state_machine.rs:442-466 | an acceptance succeeds exactly when the shadow model says so |
| `Refinement.CreateVerdict` | programs/shake-escrow/tests/fuzz_state_machine.rs:143-212 | the valid creations succeed and the invalid ones fail |
| `Refinement.MoveMatches` | programs/shake-escrow/tests/fuzz_state_machine.rs:233-244 | when a stake moves in or out, plain arithmetic in the shadow and saturating arithmetic in the program stay equal |
| `Refinement.EndMatches` | programs/shake-escrow/tests/fuzz_state_machine.rs:301-312 | when a wager ends, balances, fees, counters and accumulator stay equal, and closed means gone |
| `Refinement.MatchingLedgersPass` | programs/shake-escrow/tests/fuzz_state_machine.rs:495-529 | ledgers in the relation pass the checks the fuzzer makes after an action: balances, fees, counters, accumulator, each vault as expected, closed means gone |
| `ShadowCirculation.SequencesConserve` | programs/shake-escrow/tests/fuzz_state_machine.rs:530-533 | over any sequence every token of the shadow is with an actor, in fees or in an open vault; none appears or disappears |
| `Refinement.OneAction` | programs/shake-escrow/tests/fuzz_state_machine.rs:141-533 | one action: same verdict, and the simulation relation is kept |
| `Refinement.SequencesAgree` | programs/shake-escrow/tests/fuzz_state_machine.rs:99-533 | any sequence of actions: same verdict at every transaction and matching ledgers at the end |
| `Refinement.ProgramRefinesShadow` | programs/shake-escrow/tests/fuzz_state_machine.rs:99-533 | the same from any donation-free deployment |

## Left out

- Program-address derivation, bumps, discriminators, serialization and account space: addresses are free constructors.
- Lamports: an account exists or does not; who pays and receives rent is not tracked.
- Events and error numbers; which of two failing account constraints is reported first is a choice of the model.
- Minting, burning, delegates, multisig and native token accounts, and Token-2022: the token program is transfer, close, open, change of owner and freeze.
- The wager's terms hash is one number that must not be zero; how it is computed is not modelled.
- The upgrade-authority check of initialize_config and program upgrades: the initializer is given.
- Shadow: modelled on values, because lemmas use it as a specification; the fuzzer updates its copy in place.
- Shadow: the fuzzer's random draws, its three actors and its concrete amounts; any set of actors, any amounts and any sequence are covered instead.
- LedgerProgram.Ledger: account maps are values held in fields, so aliasing between account objects is not captured; the framework's duplicate check is a guard.
