# StreamPay: a verified model

StreamPay escrows a token and releases it to recipients linearly over time. This project
models the contract's storage, its entrypoints, its vesting arithmetic and its administration
timelock, and proves what they keep over every run: exact token conservation, when the escrow
is fully backed, that it can always be paid out, that a batch refines single creations, that
the event log determines the state, and that the timelock holds.

`dafny verify dfyconfig.toml` checks everything.

## How it is built

| file | what it holds |
|---|---|
| `Arithmetic.dfy`, `Wrappers.dfy`, `Types.dfy` | 128- and 64-bit integers with checked operations, options and results, the contract's data, errors, events and limits |
| `Vesting.dfy` | input normalization and the vesting functions, a one-formula reference (`Accrued`) and the laws connecting the two |
| `Token.dfy` | the token: balances and one conserving, trapping `Transfer` |
| `Machine.dfy` | each entrypoint as a function from a state to an outcome; calls, clock ticks and outside transfers as actions; runs as sequences of actions |
| `Contract.dfy` | the contract as a class whose entrypoints rewrite its fields step by step (with the two loops of a batch), proved against `Machine`; `Serve` is one invocation with the host's rollback |
| `Entrypoints.dfy`, `Faults.dfy` | for each entrypoint, in every well-formed state: exactly when it succeeds, its answer, the whole next state with every balance, and which fact each fault stands for |
| `Runs.dfy`, `StreamTable.dfy` | sums and conditions over runs; the table invariant and how one stream may change |
| `Escrow.dfy`, `Accounts.dfy`, `Supply.dfy` | token conservation; the account of each stream and of each address; tracked supply and cap |
| `Solvency.dfy`, `Drain.dfy`, `Lifecycle.dfy` | backing of all claims, paying everything out, completion, path independence |
| `Batch.dfy`, `Replay.dfy`, `Authorization.dfy`, `Timelock.dfy` | batch against iteration, event replay, consent, administration |
| `Counterexamples.dfy` | concrete runs on which documented invariants fail |

Modelling decisions:

- A run starts anywhere in a well-formed state, in particular freshly deployed, and interleaves
  invocations, clock ticks and token transfers between outside accounts. Ledger time never decreases.
- A call that returns an error or traps leaves the whole state as it was: the host rolls it back.
- `transfer` moves exactly the amount; it traps when the payer is too poor or the payee's `i128`
  balance would overflow. That everything issued fits an `i128` is assumed only where a payout
  must succeed (it is part of `Funded`) and is proved to be kept by every step.
- `require_auth` is a set of authorizing accounts per invocation. StreamPay never calls a contract
  that calls it back, so its own account never authorizes anything; hence it is never a sender. It
  can be named as a recipient, and then a cancellation pays it its own tokens: `SelfPaid`.

Where the code and its documentation (paths in StreamPay's own repository) disagree, the model follows the code:

- `docs/invariants.md:20` calls completed streams immutable. `cancel` accepts them
  (`src/lib.rs:671-673`); it moves nothing (`Lifecycle.CancellingCompletedIsIdle`), and it is the only
  change a terminal stream admits (`Lifecycle.TerminalStreamChangesIff`).
- `README.md:195` says `withdrawn` only ever increases. `cancel` sets it to what has vested
  (`src/lib.rs:685`), which a stretched stream may not have reached: `Solvency.StepWithdrawnFallsIff` and
  `Solvency.WithdrawnNeverFallsIff` say exactly when it falls, `Solvency.OverpaysIff` what a caller can
  check beforehand.
- `docs/invariants.md:28-36` equates balance and escrow. An extension may leave less vested than
  withdrawn (`src/lib.rs:487`); cancelling then overpays. `Escrow.BalanceIsEscrowIff` and
  `Solvency.SolventRunIff` give the exact conditions, `Solvency.AffordableIff` the guard a sender can
  compute, `Counterexamples.ExtensionCanBreakSolvency` a run.
- `README.md:192-193` says the contract never holds less than its active streams. The same run leaves it
  45 tokens short. `Escrow.EscrowBackedIff` and `Solvency.EscrowBackedUnlessUncovered` say exactly which runs
  keep it, `Solvency.StepUncoversIff` which cancellation breaks it.
- `docs/invariants.md:40-44` equates tracked supply and escrow. A batch adds nothing to it
  (`src/lib.rs:391-424`) and an underflow resets it (`src/lib.rs:652`, `src/lib.rs:705`).
  The equation holds throughout a run iff no batch succeeds in it (`Supply.SupplyIsEscrowIff`); what is
  tracked instead is exact iff no payout underflows it (`Supply.SupplyTracksEscrowIff`).
- `README.md:196-197` says an overflow returns `Overflow`. An underflow of tracked supply resets it instead:
  `Counterexamples.TwoBatchesResetSupply`. `Supply.NoReset` is the condition on the state before a payout, and
  `Supply.StepSupply` and `Supply.SupplyTracksEscrowIff` are exact about it.
- `docs/entrypoint-reference.md:18-21` bounds all escrow by the cap. A batch skips it
  (`Counterexamples.BatchIgnoresCap`): `Supply.EscrowWithinCapIff` and `Supply.StepWithinCapIff`.
- A batch also skips the "start now" shorthand: `Batch.BatchRefinesIteration`.
- `docs/initialization.md:23` has every entrypoint answer `NotInitialized`. Those that name a stream do not:
  `Faults.NothingBeforeInitialization`.
- `docs/entrypoint-reference.md:33` and `src/lib.rs:300-302` provide for `AmountBelowMinimum`; with both minima at 1
  it is unreachable: `Faults.NeverBelowMinimum`.
- `README.md:95` says the administrator cannot change at once. `set_admin` does
  (`src/lib.rs:186-199`): `Timelock.AdminChangesIff`, `Timelock.SetAdminSkipsTimelock`.

## Model

| member | source | states |
|---|---|---|
| Vesting.VestedRefinesAccrued | src/vesting.rs:17-31 | the three-branch checked computation returns exactly total times clamped elapsed over duration, rounded down; it overflows strictly inside the window when the product leaves the range, and never otherwise |
| Vesting.AccruedRemainder | src/vesting.rs:25-30 | rounding loses less than one unit: the remainder lies in [0, duration) |
| Vesting.AccruedFull | src/vesting.rs:17-31 | vesting stays in [0, total], is 0 up to the start, and equals the total exactly from the end on |
| Vesting.AccruedGrowsWithTime | src/vesting.rs:25-30 | vesting never runs backwards in time |
| Vesting.AccruedGrowsWithTotal | src/vesting.rs:25-30 | a larger total never vests less |
| Vesting.AccruedShrinksWithEnd | src/vesting.rs:25-30 | a later end never vests more |
| Vesting.UnvestedComplementsVested | src/vesting.rs:34-37 | vested and unvested partition the total, and unvested fails only when vested does |
| Vesting.OverflowFreeIff | src/vesting.rs:28 | a stream is overflow-free at all u64 times iff total * (end - start - 1) fits an i128; any total up to 2^63 is |
| Vesting.SplittingBound | src/vesting.rs:25-30 | k streams over one window vest together at most what their sum vests, and at most k - 1 less, at every time |
| Vesting.TopUpAccrual | src/lib.rs:447-462 | a top-up adds to the vested sum what it would vest alone, or one unit more |
| Vesting.ProgressIsExact | src/vesting.rs:55-75 | progress in basis points is the clamped elapsed share, at most 10 000, and its cast to u32 loses nothing |
| Vesting.PercentIsExact | src/lib.rs:559-570 | the withdrawn share is exact, at most 10 000, loses nothing to the cast, and fails only when the scaled amount overflows |
| Vesting.BasisPointsAgree | src/lib.rs:559-570 | with no more withdrawn than vested, the withdrawn share never exceeds the elapsed share |
| Vesting.BasisPointsMeetAfterWithdrawal | src/vesting.rs:64-75 | for totals of 10 000 or more the two shares differ by at most one right after a withdrawal |
| Vesting.SummaryIsExact | src/lib.rs:588-610 | every field of the summary, and the withdrawable amount, as the stream, its accrual and the unwithdrawn part of that; overflow is the only failure |
| Vesting.ElapsedIsClamped | src/vesting.rs:55-57 | elapsed time counts from the start, is zero exactly up to it, and is the whole window exactly from the end on |
| Token.TransferMovesExactly | src/lib.rs:322-324 | a transfer moves exactly the amount, touches no third account and keeps the total issued |
| Token.TransferIff | src/lib.rs:322-324 | whatever is issued, a transfer succeeds iff the payer has the amount and another payee has room for it, and then every balance is as it should be |
| Token.TransferSucceedsIff | src/lib.rs:646-648 | with everything issued within an i128, a transfer fails iff the payer holds too little |
| StreamPay.StreamPayContract.constructor | src/storage.rs:103-164 | a fresh contract reads every key at its default |
| StreamPay.StreamPayContract.CreateStream | src/lib.rs:281-346 | the checks, transfer and writes in source order refine the machine's creation |
| StreamPay.StreamPayContract.ValidateRequests | src/lib.rs:370-389 | the first loop returns the first fault of the batch or the exact running total |
| StreamPay.StreamPayContract.OpenRequests | src/lib.rs:402-420 | the second loop stores and announces every request under consecutive ids, and returns those ids |
| StreamPay.StreamPayContract.CreateStreamBatch | src/lib.rs:355-424 | the two loops around one transfer refine the machine's batch |
| StreamPay.StreamPayContract.TopUp | src/lib.rs:432-468 | in-place top-up refines the machine's step |
| StreamPay.StreamPayContract.ExtendStream | src/lib.rs:477-498 | in-place extension refines the machine's step |
| StreamPay.StreamPayContract.Withdraw | src/lib.rs:617-657 | write, transfer and supply update in source order refine the machine's step |
| StreamPay.StreamPayContract.Cancel | src/lib.rs:664-710 | write, two conditional payouts and supply update in source order refine the machine's step |
| StreamPay.StreamPayContract.Serve | src/lib.rs:57-711 | one invocation is exactly one machine step: a call that fails at any point, even after a transfer, leaves no trace |
| Entrypoints.InitializeIs | src/lib.rs:62-73 | initialization succeeds iff there is no administrator, and then names administrator and token and changes nothing else |
| Entrypoints.ScheduleIs | src/lib.rs:104-129 | scheduling succeeds iff the administrator authorizes it for someone else and the clock allows it; it puts that account in line for exactly 86 400 seconds later, answers that time, and changes nothing else |
| Entrypoints.ExecuteIs | src/lib.rs:135-152 | execution succeeds, for any caller, iff a transfer is pending and its time has come |
| Entrypoints.RevokeIs | src/lib.rs:157-173 | revocation succeeds iff the administrator authorizes it and something is pending, due or not |
| Entrypoints.SetAdminIs | src/lib.rs:186-199 | set_admin succeeds iff the administrator authorizes it, and installs the account given |
| Entrypoints.SetSupplyCapIs | src/lib.rs:250-267 | a cap change succeeds iff the administrator authorizes it and the cap is positive, and stores exactly that cap, higher or lower |
| Entrypoints.CreateIs | src/lib.rs:281-346 | a creation succeeds iff amount, window, cap, balances and counter allow it, each written out; it stores exactly the requested stream, with start now for a requested zero, under the next id |
| Entrypoints.CanCreateBatchIff | src/lib.rs:361-400 | a batch succeeds iff every request is proper and the sender, the contract and the counter can take their sum |
| Entrypoints.CreateBatchIs | src/lib.rs:391-424 | it adds exactly the requests as streams, with ids and events in their order, for one payment of the sum, and leaves tracked supply alone |
| Entrypoints.TopUpIs | src/lib.rs:432-468 | a top-up succeeds iff made by the sender of an active stream for a positive amount that total, supply, cap and balances allow, at any time; it answers the new total and changes nothing but total, supply and two balances |
| Entrypoints.ExtendIs | src/lib.rs:477-498 | an extension succeeds iff made by the sender of an active stream to a later end; it stores and announces exactly that end and changes nothing else |
| Entrypoints.WithdrawIs | src/lib.rs:617-657 | a withdrawal succeeds iff made by the recipient of an active stream with something new vested that the balances allow; its exact answer, stream, supply, event and every balance |
| Entrypoints.CanCancelIff | src/lib.rs:664-697 | a cancellation succeeds iff made by a party of a stream not yet cancelled whose accrual fits and whose two shares can be paid in turn |
| Entrypoints.CancelIs | src/lib.rs:675-708 | it raises the recipient by the positive part of what was due and the sender by what had not vested, and no third account moves but the contract; also where the two are one account or the recipient is the contract |
| Entrypoints.OtherwiseNothingChanges | src/lib.rs:57-711 | a failed call leaves no trace, a later ledger moves the clock alone, an outside transfer exactly two balances |
| StreamTable.ValidateBatchIff | src/lib.rs:370-389 | a batch validates iff every request is valid and their sum fits an i128, and yields that sum |
| StreamTable.OpenAllOpens | src/lib.rs:402-420 | a batch adds exactly its requests under consecutive fresh ids and leaves older streams alone |
| StreamTable.WithdrawRewrites | src/lib.rs:631-655 | a successful withdrawal pays the strictly positive gap up to exactly what has vested and completes the stream iff its window is over |
| StreamTable.CancelRewrites | src/lib.rs:675-708 | a successful cancellation sets withdrawn to what has vested, changes every balance by exactly the two shares, and releases all that was unpaid |
| StreamTable.RunWellFormed | docs/invariants.md:5-22 | over every run ids are exactly 0 .. counter - 1, windows are proper, 0 <= withdrawn <= total, active streams hold something, completed ones are paid in full after their end |
| StreamTable.StepEvolves | src/lib.rs:432-710 | one step changes at most the stream it names, and only in the permitted ways |
| StreamTable.RunEvolves | docs/invariants.md:5-22 | over every run parties and start are fixed, total and end never fall, completed and cancelled streams keep their amounts |
| Escrow.StepSurplus | src/lib.rs:281-710 | one step changes the unbacked balance by exactly gifts, less overpaid cancellations, plus self-payments |
| Escrow.Conservation | src/lib.rs:281-710 | over every run the balance is the active escrow plus the initial surplus, gifts and self-payments, less what insolvent cancellations overpaid |
| Escrow.BalanceIsEscrowIff | docs/invariants.md:32-36 | the balance equals the escrow throughout a run iff no step gives, overpays or self-pays |
| Escrow.EscrowBackedIff | README.md:192-193 | the contract never holds less than its active streams do, throughout a run, iff it did not to begin with and no cancellation overpays more than the surplus it finds |
| Accounts.StreamAccountBalances | src/lib.rs:281-710 | over every run, through cancellation and after it, what was escrowed for a stream is what was paid out of it plus what it still holds, less what an insolvent cancellation overpaid |
| Accounts.WithdrawnIsWhatWasReceived | src/lib.rs:631-697 | over every run, through cancellation, withdrawn is all the recipient has received less what was overdrawn, and every receipt and refund is that change of the party's balance |
| Accounts.SettlementsArePathIndependent | src/lib.rs:631-697 | two runs ending in a withdrawal or a cancellation at the same time with the same total and end have paid the recipient the same net of overdrafts, in tokens: exactly what has vested |
| Accounts.AccountStatement | src/lib.rs:281-710 | over every run every account's balance is what it was plus its receipts, refunds and outside transfers less its deposits |
| Supply.StepSupply | src/lib.rs:281-710 | each step moves tracked supply as the real sum moves, except for batches and for the reset of a payout that would underflow it |
| Supply.SupplyIsEscrowIff | docs/invariants.md:40-44 | where the documented equation holds to begin with, it holds throughout a run iff no batch succeeds in it |
| Supply.SupplyTracksEscrowIff | src/lib.rs:650-653 | tracked supply is the escrow sum less all batch amounts throughout a run iff no payout takes it below the 128-bit range |
| Supply.SupplyIsEscrowWithoutBatches | src/lib.rs:231-233 | without batches tracked supply is the escrow sum, unconditionally |
| Supply.BatchLeavesSupplyBehind | src/lib.rs:391-424 | a batch always raises the escrow by its amount and the tracked supply by nothing |
| Supply.CapHoldsUntilChanged | src/lib.rs:244-267 | until the next cap change tracked supply stays within the new cap or its value then; without batches so does the real escrow |
| Supply.StepWithinCapIff | src/lib.rs:250-424 | a step takes the escrow over the cap iff it escrows more than the cap has room for or sets a cap below the escrow; with all escrow tracked only a batch or a new cap can |
| Supply.EscrowWithinCapIff | docs/entrypoint-reference.md:18-21 | all tokens in escrow stay within the cap throughout a run iff they were to begin with and every step is within it |
| Solvency.UntouchedStreamsExtendHonestly | src/lib.rs:477-498 | extending before the start or before any withdrawal never breaks solvency |
| Solvency.AffordableIff | src/lib.rs:487-493 | the undivided guard on total, withdrawn, the new end and the time decides whether a stretched stream will have vested what was withdrawn |
| Solvency.StepSolventIff | src/lib.rs:487-493 | a solvent state stays solvent over a step iff the step is not an accepted extension that fails the sender's guard |
| Solvency.SolventRunIff | src/lib.rs:477-498 | a run stays solvent throughout iff every extension in it meets that guard |
| Solvency.RunFunded | src/lib.rs:281-710 | honest runs keep every claim backed by tokens and never shrink the surplus |
| Solvency.FundedFromDeployment | src/storage.rs:103-164 | the same from deployment on: every claim is backed and the tokens the contract began with stay untouched |
| Solvency.WithdrawNeedsOnlyBalance | src/lib.rs:617-648 | with everything issued within an i128, funded or not, a withdrawal with something to pay fails only if the contract holds less than that |
| Solvency.CancelNeedsOnlyBalance | src/lib.rs:664-697 | likewise for a cancellation and its two shares, with the recipient being the contract apart |
| Solvency.WithdrawSucceedsIff | src/lib.rs:617-648 | in a funded state a withdrawal succeeds iff made by the recipient of an active stream with fitting arithmetic and something newly vested; it never traps for lack of tokens |
| Solvency.CancelSucceedsIff | src/lib.rs:664-697 | in a funded state a cancellation by a party of a stream not yet cancelled succeeds whenever its arithmetic fits; neither payout can fail |
| Solvency.CancelDistributesEscrowIff | docs/invariants.md:24-30 | the amounts that really move add up to the unpaid escrow, and withdrawn does not fall, iff no more was withdrawn than had vested |
| Solvency.StepWithdrawnFallsIff | src/lib.rs:675-685 | in any well-formed state a step lowers withdrawn iff it is a cancellation of that stream that overpays |
| Solvency.OverpaysIff | src/lib.rs:664-697 | a cancellation overpays iff a party makes it, the arithmetic fits, less has vested than was withdrawn, and the contract still holds the refund |
| Solvency.SelfPaysIff | src/lib.rs:675-697 | a cancellation pays the contract itself iff the sender makes it, the contract is the recipient and due something, the arithmetic fits, and each share fits the balance |
| Solvency.StepUncoversIff | src/lib.rs:664-697 | a backed escrow stops being backed iff a party cancels a stream overdrawn by more than the surplus, the arithmetic fits and the refund is covered by the balance |
| Solvency.EscrowBackedUnlessUncovered | README.md:192-193 | from a backed state on the escrow stays backed throughout a run iff no such cancellation is made in it |
| Solvency.WithdrawnNeverFallsIff | README.md:195 | withdrawn never falls over a run iff no step of it overpays on the stream |
| Solvency.HonestRunsNeverLowerWithdrawn | src/types.rs:68-70 | in particular it never falls over a run of honest extensions |
| Solvency.RunBasisPoints | src/lib.rs:543-570 | over honest runs the withdrawn share never exceeds the elapsed share of any stream |
| Faults.WithdrawFaults | src/lib.rs:618-648 | in every well-formed state each fault of an authorized withdrawal is equivalent to a fact about the stream or two balances |
| Faults.CancelFaults | src/lib.rs:665-697 | an authorized cancellation fails only for a missing, foreign, already cancelled, overflowing or unpayable stream, each iff |
| Faults.AuthTrapIff | src/lib.rs:104-666 | a call traps for authorization iff the account it asks for did not give it and it has not answered `NotInitialized` |
| Faults.AdminFaults | src/lib.rs:104-260 | each error of an authorized administration call is equivalent to a fact about the office, the clock or the argument |
| Faults.CreateFaults | src/lib.rs:292-324 | amount, window, past end, cap, overflow and transfer: each fault of a creation iff its condition |
| Faults.BatchFaults | src/lib.rs:361-400 | a batch answers for the first request at fault, and only without one for ids and balances |
| Faults.TopUpFaults | src/lib.rs:433-459 | each fault of an authorized top-up iff its condition |
| Faults.ExtendFaults | src/lib.rs:478-489 | each fault of an authorized extension iff its condition |
| Faults.NeverBelowMinimum | src/constants.rs:57-64 | `AmountBelowMinimum` is never returned: the check before it covers it |
| Faults.NothingBeforeInitialization | docs/initialization.md:21-23 | before initialization only initializing succeeds, and `NotInitialized` is answered by exactly the other calls that name no stream |
| Drain.DrainInAnyOrder | src/lib.rs:617-657 | past their ends, any active streams can be withdrawn in any order: each call succeeds, completes its stream in full and touches nothing else |
| Drain.DrainEverything | README.md:64-65 | draining all active streams pays out exactly what was outstanding and leaves the surplus |
| Lifecycle.CompletionIsStable | src/lib.rs:641-643 | a completed stream stays paid in full and past its end for ever |
| Lifecycle.CancellingCompletedIsIdle | src/lib.rs:671-706 | cancelling a completed stream succeeds, moves no token, releases nothing and changes only the label |
| Lifecycle.TerminalStreamChangesIff | docs/invariants.md:20 | a stream that is not active changes in a step iff it is completed and one of its parties cancels it |
| Lifecycle.StatusChanges | src/lib.rs:624-673 | statuses change only by cancel to Cancelled, or by a withdrawal after the end from Active to Completed |
| Lifecycle.WithdrawnIsWhatWasPaid | src/lib.rs:637-648 | until cancellation, withdrawn is the sum of all payouts of the run |
| Lifecycle.WithdrawalsArePathIndependent | src/lib.rs:631-640 | two runs ending in a withdrawal at the same time with the same total and end have paid the same: exactly what has vested |
| Lifecycle.EndMovesOnlyByExtension | src/lib.rs:491-493 | without a successful extension of a stream its end never moves |
| Lifecycle.SummaryPredictsWithdrawal | src/lib.rs:588-610 | the summary's withdrawable amount is what a withdrawal in that state pays |
| Lifecycle.WithdrawalAlignsBasisPoints | src/lib.rs:559-570 | after a withdrawal from 10 000 units or more the two basis-point views differ by at most one |
| Batch.EachDoneIff | src/lib.rs:281-346 | creating requests one by one succeeds iff all are valid, the sender and the balance limits cover their sum, ids suffice, and the sum stays under the cap |
| Batch.BatchDoneIff | src/lib.rs:355-424 | a batch succeeds under the same conditions without the cap |
| Batch.SameStreamsIff | src/normalize.rs:22-28 | a batch and single creations store streams alike in all but the start, zero against now for a requested zero, and wholly alike iff no request uses that shorthand (or now is zero) |
| Batch.BatchRefinesIteration | src/lib.rs:348-424 | iteration succeeds iff the batch does and the cap allows the sum; then ids, counter, balances and events agree, supply differs by the sum, and streams by exactly the starts of requests for zero |
| Replay.LogRebuildsTable | src/events.rs:9-98 | after every run, folding the log with its consistency checks (parties, statuses, amounts, ends, office) rebuilds parties, totals, withdrawn amounts, statuses, extended ends and the pending administrator, ignoring no event |
| Replay.LogRebuildsFromDeployment | src/events.rs:9-98 | from deployment on the log alone determines all of this |
| Authorization.NobodyPaysWithoutConsent | src/lib.rs:292 | an account that authorizes nothing and sends nothing never loses tokens over a run |
| Authorization.StreamsChangeOnlyByConsent | src/lib.rs:432-498 | a stream changes only with its sender's or recipient's authorization, its total and end only with its sender's |
| Timelock.AdminOnlyMovesBy | src/lib.rs:104-199 | when scheduling, executing, revoking and setting succeed, both ways, what they change, and that nothing else moves the office |
| Timelock.PendingHasOrigin | src/storage.rs:65-82 | the pending account was named by the latest schedule, one delay before the recorded time |
| Timelock.ExecutionHonoursTimelock | src/lib.rs:135-152 | every executed transfer installs the account of the latest schedule at least 86 400 seconds later with nothing in between |
| Timelock.InLineIsPending | src/lib.rs:104-129 | a schedule that nothing has replaced, revoked or executed is what the contract holds as pending |
| Timelock.ExecutesIff | src/lib.rs:135-152 | after any run execution succeeds iff some schedule is in line and a day old; it then installs the account that schedule named, and before that it answers that the timelock has not expired |
| Timelock.RevocationStaysOpen | src/lib.rs:157-173 | after any run with a schedule in line, due or not, the administrator's revocation succeeds and execution is then refused |
| Timelock.TransfersTakeDays | src/constants.rs:16-20 | k executed transfers take at least k days since the start of the run |
| Timelock.PendingIsNewWithoutSetAdmin | src/lib.rs:116-118 | without set_admin every execution really changes the administrator |
| Timelock.PendingIsNewIff | src/lib.rs:186-199 | throughout a run an execution would install someone new iff no set_admin in it names the pending account |
| Timelock.InitializedOnce | src/lib.rs:62-73 | after the first initialization the administrator's office is never vacant, the token never changes and every further attempt is refused |
| Timelock.AdminChangesIff | src/lib.rs:146-199 | the administrator is replaced in a step iff a due transfer to someone else executes or the administrator authorizes set_admin to someone else |
| Timelock.SetAdminSkipsTimelock | src/lib.rs:186-199 | set_admin takes effect in the same second and leaves the pending transfer standing, to be executed idly later |
| Counterexamples.ExtensionCanBreakSolvency | src/lib.rs:487-493 | a seven-step run in which withdrawn falls from 50 to 5 and the contract ends 45 tokens short |
| Counterexamples.BatchIgnoresCap | src/lib.rs:355-424 | under a cap of 1 a creation of 100 is refused and a batch of it accepted |
| Counterexamples.BatchIgnoresStartNow | src/lib.rs:407-415 | a batch stream started "now" at time 10 is already half vested, a single creation is not |
| Counterexamples.TwoBatchesResetSupply | src/lib.rs:650-653 | a reachable state in which a withdrawal resets tracked supply to zero and loses the batched amounts |

## Left out

- Storage TTL and rent (`extend_ttl`, `BUMP_THRESHOLD`, `BUMP_EXTEND`): host behaviour without effect on the modelled values.
- `upgrade` and its event: after it the code itself is another.
- The token contract's internals (trustlines, clawback, minting): one token, a balance map and a conserving transfer. The token key is written once and kept; which ledger it names is fixed.
- `require_auth` internals: signatures and nonces; an authorizing set per invocation stands for them.
- Event topics and their encoding: events are values of a datatype.
- Lookups in the views: `percent_withdrawn`, `progress_bps`, `elapsed`, `get_summary` are modelled on the stream they find; that a missing id answers `StreamNotFound` is left out.
- Plain getters (`get_admin`, `get_token`, `get_status`, `is_active`, `duration`, `stream_counter`): they return a field.
- Instruction and memory budgets: a call may also fail by exhausting them, which is one more rolled-back call.
