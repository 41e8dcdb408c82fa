# FARM backend: models of its money paths, with proofs

The FARM backend is a custodial wallet service. Money moves in it by guarded database steps: compare-and-set updates,
conditional updates, short transactions, and compensation in `catch` blocks. This project models those steps in Dafny and
proves what they keep in every interleaving.

## How it is organised

For each money path there are two kinds of module.

- A **protocol** module (`Ledger`, `OutboxRows`, `Delivery`, `Deposits`, `LinkUses`, `InvoiceHolds`, `Intents`, `Mandates`,
  `Milestones`, `DepositScan`, `Payouts`) holds the rows and every call that is under way as one value. Each database
  statement or transaction, each provider answer and each crash is one `Event`; `Step` performs it and `Run` performs any
  sequence. A call keeps what it read, however stale. Theorems are about `Run` for every sequence of events.
- A **service** module (`EscrowService`, `ChainSync`, `DepositPoller`, `DepositService`, `LinkService`, `InvoiceService`,
  `IntentService`, `MandateService`, `MilestoneService`, `PayoutService`) holds a class with the rows as fields and the
  service's methods written statement by statement, with the source's loops and early returns. The escrow class equates its
  rows after each method with a `Ledger` function. The others keep a ghost `trace`, and `Valid()` says that the fields are
  what the protocol reaches by that trace. So every uninterrupted call is a run of the protocol, and the theorems about runs
  apply to it.

Beside the protocols, `EscrowRules`, `LinkRules`, `InvoiceRules`, `IntentRules`, `MilestoneRules` and `PayoutRules` say with the
statuses and amounts written out exactly when each step takes effect and what it leaves behind; `MandateEnds` and
`DepositOutcomes` say what the end of a mandate stops and what a paid deposit comes to.

`EscrowProofs` proves the escrow results, `DeliveryLimits` says exactly what `Delivery` rests on, `Simulation` and `ChainWorld`
relate ledger, outbox and chain, `Fees` holds the fee arithmetic, and `Checkouts`, `Sums` and `Wrappers` are shared.

Ledger amounts are integers of 1e-8 FARM, other amounts are cents. Decimals are exact; `Number.EPSILON` in the fee code is
exact half-up rounding.

## What the proofs rest on

- One database statement or one `$transaction` is one atomic step.
- `WalletsService.sendFunds`, `WithdrawService.createWithdrawal` and provider verification succeed completely or change
  nothing. Where code that runs after them can throw, that is an event of its own.
- The status of a transfer and the round are two answers of the network, each about the moment it was given.
- A transfer's id is the hash of its content, so two transfers signed for one row are two only if their last valid rounds
  differ. The model takes every signing for a transfer of its own. `Delivery.AtMostOnce` does not need them to differ; runs that
  are said to send twice have different ones (`DeliveryLimits.DistinctIds`).
- One clock that does not go back. A step may compare with a reading that is a little older.
- Wallets have a fixed chain account, and accounts are fixed while ledger and chain are compared.
- `transactions` rows in `Ledger` are completed ones.
- A crash is a call that never takes another step.

## Findings

Each of these is a lemma below.

- **Outbox.** A row reaches the chain at most once in every run of safe claims and safe answers (`Delivery.AtMostOnce`). Fresh
  claims, true answers, and a chain that takes no transfer between the answers on its status and on the round make a run safe
  (`Delivery.GuardedRunsAreSafe`). Each is needed, and `DeliveryLimits.ClaimSafeIff`, `UnknownSafeIff` and `RoundSafeIff` say
  exactly which claims and answers are safe.
  - The claim compares only `status`. With one worker it is always fresh (`Delivery.SoloRunsAreFresh`), but the admin endpoint
    at src/chain-wallet/chain-wallet.controller.ts:42-45 runs the sender without looking at the `busy` flag, and two workers
    can send a row twice (`DeliveryLimits.StaleClaimSendsTwice`).
  - An indexer error is reported as an unknown transfer (src/chain-wallet/algorand-wallet.client.ts:208-213), and then one
    worker is enough (`DeliveryLimits.WrongAnswerSendsTwice`).
  - The status is asked for before the round (src/chain-wallet/chain-sync.service.ts:256-267). A transfer that is confirmed in
    between, in its last valid round, is signed again by one worker although every answer was true
    (`DeliveryLimits.LateRoundSendsTwice`). Asking for the status only after that round needs no luck
    (`Delivery.LateAsksAreSafe`).
- **Stranded rows.** A crash between claim and outcome leaves a row as being sent for ever: nothing looks for such rows
  (`Delivery.CrashStrands`, `Delivery.StrandedForEver`).
- **Ledger and chain.** For everybody except the platform the chain is ahead of the ledger by exactly the fees of releases
  whose fee took the whole part, because a net amount of zero falls back to the full amount
  (`ChainWorld.LedgerMatchesChain`, `ChainWorld.RunAgreesIff`). A fee of 60 percent on a one-cent part does it
  (`Simulation.OneCentReleaseDisagrees`).
- **Stopped calls.** A call that stops between its claim and its outcome is never taken up by another: a link use stays taken
  (`LinkUses.StoppedJobsKeepUses`), an invoice reads as paid (`InvoiceHolds.StoppedPaymentSettles`), an intent stays in
  processing (`Intents.StoppedPaymentBlocks`), a payout key is refused (`Payouts.StoppedRequestKeepsKey`), and an agent request
  goes on counting against its day and month (`Mandates.StoppedRequestBinds`).
- **Completed deposits.** A deposit transaction that reads as completed has been credited once and in full. The converse can
  fail: a failing call that had read the rows before overwrites the completed status
  (`DepositOutcomes.CompletedExactlyWhenCredited`, `DepositOutcomes.StaleFailureHidesCredit`).
- **Deposits.** Within the deposit service, a reference is settled at most once exactly when it does not start as a creditable
  transaction without a deposit row to guard it (`Deposits.SettledAtMostOnceIff`). Otherwise an unguarded `failDeposit` can
  hide the first credit from the second. Guarded writes alone are safe from every start
  (`Deposits.SettledOnceWithoutFailures`).
- **Late throws.** Payment links, invoices, milestones, agent requests and API payouts treat anything that throws after the
  money moved as a failure. Each can then pay or charge again, once per such throw (`LinkUses.LateThrowTakesTwo`,
  `InvoiceHolds.LateThrowChargesTwo`, `Milestones.ThrowPaysMilestoneTwice`, `Mandates.ThrowPaysTwice`,
  `Payouts.ThrowPaysTwice`).
- **Late web payments.** A checkout that completes after its hold ended has charged its payer, and may find the use sold or
  the invoice paid (`LinkUses.LateCompletionChargesTwo`, `InvoiceHolds.LateCompletionChargesTwo`). Late throws and these are
  all: `LinkUses.ChargedEquation` and `InvoiceHolds.ChargedEquation` account for every payer charged.
- **Dropped web payments.** Once a row reads completed, only the job that claimed it can apply or record its payment; if
  that job stops, the payment is neither, in every later run (`LinkUses.OnlyItsJobSettles`,
  `InvoiceHolds.OnlyItsJobSettles`). A payment exception that cannot be written is lost as well, since that error is ignored.
- **Milestones.** The list is written back unconditionally, so racing releases can pay one milestone twice and another never
  (`Milestones.RacePaysMilestoneTwice`). One release at a time pays a milestone once, plus once for every time a release of
  it threw after paying (`Milestones.SerialRunsAgree`). The contract's amount is respected all the same
  (`Milestones.NeverOverpaid`).
- **Mandates.** The daily sum goes by the day a request was created, and leaves out requests that were paid and failed or
  expired afterwards. Payments of one day (month) exceed the cap by at most what was carried over from earlier ones and
  what was dropped in that way (`Mandates.DayPaysCapCarriedAndDropped`, `Mandates.MonthPaysCapCarriedAndDropped`), and each of
  the two happens (`Mandates.MidnightPaysTwice`,
  `Mandates.ThrowPaysTwice`).
- **Deposit polling.** It catches up exactly when no round holds as many transfers as a page, the last round aside
  (`DepositScan.CatchesUpIff`). Polls may overlap, and a late one moves the cursor back (`DepositScan.LateStoreMovesBack`);
  nothing is lost or recorded twice by that (`DepositScan.RecordedIff`, `DepositScan.RecordedOnce`).
- **Agent refunds** are guarded on the whole balance and can eat into a lock (`EscrowProofs.SendBackSolventIff`). With
  edited rules and cent amounts they are the only step that can leave more locked in a wallet than it holds
  (`EscrowProofs.RunSolventIff`).
- **Fees.** A cap holds up to the rounding of the highest fee (`Fees.CapRespectedIff`); on amounts below a cent a fee can
  exceed the amount (`Fees.SubCentFeeExceedsAmount`).
- **Releasing a link use twice** would free another payer's use: the comment at
  src/business-ops/business-web-checkout.service.ts:197 holds for invoices only. The protocol never does it, which is part of
  `LinkUses.RunKeepsInv`.
- **Cancelling an escrow** never applies to any contract, because creation funds it at once (`EscrowProofs.CancelNeverApplies`).

## Model

| member | source | states |
|---|---|---|
| `Fees.DefaultPercent` | src/fees/fee-defaults.ts:30-38 | whatever the environment setting holds, the percentage used is between 0 and 100: a setting in that range itself, and for one outside it the built-in one |
| `Fees.FeeUnits` | src/escrow/escrow.service.ts:724-725 | an escrow fee is never negative and always a whole number of cents |
| `Fees.FeeFollowsRule` | src/fees/fee-defaults.ts:53-60 | for every rule, amount and precision the fee is percentage plus flat part, kept between minimum and cap, rounded to the nearest step, halves up; nothing for no amount |
| `Fees.FeeUnitsFollowRule` | src/escrow/escrow.service.ts:898-899 | the same in ledger units: within half a cent of what the rule says |
| `Fees.FeeUnitsNear` | src/escrow/escrow.service.ts:724-725 | a percentage fee is within half a cent of that percentage of the amount |
| `Fees.FeeUnitsMonotone` | src/escrow/escrow.service.ts:724-725 | and never falls when the amount grows |
| `Fees.BuiltInFeesOnHundred` | src/fees/fee-defaults.ts:16-27 | what each built-in percentage charges on 100 FARM |
| `Fees.FeeMonotone` | src/fees/fee-defaults.ts:53-60 | for every rule with non-negative fields the fee is non-negative and never falls when the amount grows |
| `Fees.FeeWithinRoundedCap` | src/fees/fee-defaults.ts:57-59 | a positive cap bounds the fee up to the cap's own rounding, and the bound is reached |
| `Fees.CapRespectedIff` | src/fees/fee-defaults.ts:57-59 | for every rule with a cap: it holds for all amounts if and only if rounding the highest fee the rule can bring does not take that above the cap |
| `Fees.FeeAtMostAmount` | src/admin/admin.service.ts:758-773 | a rule as the fee editor writes it never charges more than an amount in whole steps |
| `Fees.FeeBelowAmountIff` | src/fees/fee-defaults.ts:53-60 | such a rule leaves the payee something if and only if the unpaid percentage is worth more than half a step |
| `Fees.FeeUnitsBelowAmountIff` | src/escrow/escrow.service.ts:724-725 | the same for escrow fees in ledger units on whole cents |
| `Fees.BuiltInFeeBelowAmount` | src/fees/fee-defaults.ts:16-27 | with every built-in percentage the payee of a positive cent amount gets something |
| `Fees.SubCentFeeExceedsAmount` | src/fees/fee-defaults.ts:53-60 | an amount below a cent whose fee exceeds it |
| `Fees.PartsNearShare` | src/fees/fee-defaults.ts:53-60 | the fees of n parts are within n/2 steps of the exact percentage of their sum |
| `Fees.SplittingBound` | src/escrow/escrow.service.ts:724-725 | paying in n parts changes the total fee by at most (n+1)/2 steps against one release of the sum |
| `Fees.UnitFeesNear` | src/escrow/escrow.service.ts:724-725 | escrow fees on n parts are together within n/2 cents of the percentage of their sum |
| `Fees.UnitSplittingBound` | src/escrow/escrow.service.ts:724-725 | and within (n+1)/2 cents of the fee on one release of the sum |
| `EscrowProofs.StepKeepsInv` | src/escrow/escrow.service.ts:196-265 | every escrow transaction keeps locks equal to open contracts, contracts within their amounts, and every contract conserved |
| `EscrowProofs.RunKeepsInv` | src/escrow/escrow.service.ts:726-800 | in every interleaving each wallet's lock is what its active and disputed contracts still hold plus a constant, also when wallets coincide, and paid + fees + refunded + locked = amount for each contract |
| `EscrowProofs.OpeningInv` | src/escrow/escrow.service.ts:196-237 | where those runs start: before the first escrow the invariant says that every lock belongs to other services |
| `EscrowProofs.PaidWithinAmount` | src/escrow/escrow.service.ts:728-745 | parts and fees paid out of a contract never exceed its amount, and reach it exactly when it is completed |
| `EscrowProofs.CompletesIff` | src/escrow/escrow.service.ts:728-752 | an active contract completes exactly when a part equals what is left or the rest is released |
| `EscrowProofs.CancelNeverApplies` | src/escrow/escrow.service.ts:554-590 | no reachable contract is pending or cancelled, so a cancellation never changes anything |
| `EscrowProofs.ClosedStays` | src/escrow/escrow.service.ts:866-961 | after completion or refund a contract row never changes and no more money moves for it |
| `EscrowProofs.StepConservesMoney` | src/escrow/escrow.service.ts:67-88 | no escrow transaction and no agent refund changes the sum of all balances |
| `EscrowProofs.StepSolvent` | src/escrow/escrow.service.ts:196-237 | with edited rules and cent amounts no escrow step or deposit breaks 0 <= locked <= balance in any wallet |
| `EscrowProofs.RunSolventIff` | src/escrow/escrow.service.ts:866-920 | along a run every state is solvent if and only if every agent refund took an amount that was available |
| `EscrowProofs.SendBackSolventIff` | src/agent-payments/agent-payments.service.ts:478-489 | an agent refund keeps the business wallet solvent if and only if the amount was available, not merely in the balance |
| `EscrowRules.CreatesExactly` | src/escrow/escrow.service.ts:176-265 | when an escrow is created, and what every wallet gains, loses and has locked |
| `EscrowRules.PaysPartExactly` | src/escrow/escrow.service.ts:698-800 | when a part is paid out of an active contract, what every wallet gains and loses, and that the last part and no other completes it |
| `EscrowRules.ReleasesExactly` | src/escrow/escrow.service.ts:866-961 | a release pays out the rest of an active contract for a party and of a disputed one for an administrator, and of no other |
| `EscrowRules.RefundsExactly` | src/escrow/escrow.service.ts:1037-1089 | a refund unlocks the rest under the same rule, and moves nothing else |
| `EscrowRules.DisputesExactly` | src/escrow/escrow.service.ts:377-420 | only an active contract becomes disputed, whatever it has paid out |
| `EscrowRules.DisputeWaits` | src/escrow/escrow.service.ts:866-888 | in every run a disputed contract stays as it is and none of its money moves until an administrator releases or refunds it |
| `EscrowRules.DecisionEnds` | src/admin/admin.service.ts:556-562 | and that decision completes or refunds it |
| `EscrowRules.DecidesDisputesOnly` | src/escrow/escrow.service.ts:866-888 | while on a contract in any other state an administrator changes nothing |
| `EscrowRules.SendsBackExactly` | src/agent-payments/agent-payments.service.ts:478-489 | an agent refund moves the amount exactly when the business has it |
| `EscrowRules.CreditsExactly` | src/chain-wallet/chain-wallet.service.ts:415-470 | a detected deposit is credited in full, once |
| `EscrowService.Escrows.CreditSuperadminWalletInTx` | src/escrow/escrow.service.ts:67-88 | credits the platform wallet, found only when there is a fee |
| `EscrowService.Escrows.CreateEscrow` | src/escrow/escrow.service.ts:196-265 | locks the amount and takes the fee from the buyer, or changes nothing |
| `EscrowService.Escrows.RaiseDispute` | src/escrow/escrow.service.ts:377-420 | only an active contract becomes disputed |
| `EscrowService.Escrows.CancelEscrow` | src/escrow/escrow.service.ts:554-590 | only a pending contract becomes cancelled |
| `EscrowService.Escrows.ReleasePartial` | src/escrow/escrow.service.ts:698-800 | pays a part of an active contract within what is left, completing it with the last part; all writes or none |
| `EscrowService.Escrows.ExecuteRelease` | src/escrow/escrow.service.ts:848-961 | pays out all that is left, of an active contract for a party and of a disputed one for an administrator (`EscrowRules.ReleasesExactly`); all writes or none |
| `EscrowService.Escrows.ExecuteRefund` | src/escrow/escrow.service.ts:1037-1089 | unlocks all that is left for the buyer, under the same rule (`EscrowRules.RefundsExactly`) |
| `EscrowService.Escrows.ProcessAutoReleases` | src/escrow/escrow.service.ts:676-696 | releases the listed contracts in turn and counts those released, failures not stopping the loop |
| `EscrowService.SweepCompletesListed` | src/escrow/escrow.service.ts:676-696 | the sweep completes exactly the active contracts it was given |
| `EscrowService.SweepCountsListed` | src/escrow/escrow.service.ts:676-696 | and counts each of them once |
| `OutboxRows.EnqueueSplit` | src/chain-wallet/chain-sync.service.ts:125-207 | committing a scan is committing its transactions one by one |
| `OutboxRows.EnqueueOneRows` | src/chain-wallet/chain-sync.service.ts:189-205 | a marked transaction adds no row, an unmarked one exactly its legs |
| `OutboxRows.WholeCentsMove` | src/chain-wallet/chain-sync.service.ts:9-10 | what moves on chain is the whole cents of an amount |
| `OutboxRows.EnqueueKeys` | src/chain-wallet/chain-sync.service.ts:119-124 | however often and late scans commit, there is one row at most per transaction and leg, and none is missing for a marked transaction |
| `Simulation.EnqueueTracks` | src/chain-wallet/chain-sync.service.ts:125-207 | a scan changes nobody's total of queued and not yet scanned effects |
| `Simulation.RecordedTracksIff` | src/chain-wallet/chain-sync.service.ts:158-187 | a new ledger row keeps the account of ledger and chain exact when and only when the wallets moved by what its legs will do, less a fee that took the whole part |
| `Simulation.PayOutTracks` | src/chain-wallet/chain-sync.service.ts:169-171 | paying out a part, whatever the fee, keeps that account exact: a fee that takes the whole part is paid to the seller as well |
| `Simulation.LedgerStepTracks` | src/escrow/escrow.service.ts:726-794 | every committed ledger transaction keeps the account exact for every user off the platform wallet |
| `Simulation.AgreesIff` | src/chain-wallet/chain-sync.service.ts:169-171 | ledger and chain agree for a user if and only if no release to that user had a fee that took the whole part |
| `Simulation.OneCentReleaseDisagrees` | src/chain-wallet/chain-sync.service.ts:169-171 | an escrow and a one-cent release at 60 percent, both with rules the fee editor writes, after which they disagree |
| `Delivery.StepKeepsInv` | src/chain-wallet/chain-sync.service.ts:237-319 | each step with a safe claim or answer keeps: a superseded transfer can no longer be taken by the chain, one owner per row, a sent row's transfer is confirmed |
| `Delivery.RunKeepsInv` | src/chain-wallet/chain-sync.service.ts:237-319 | the same in every run of safe claims and answers, with crashes, failed writes, lost submissions, delays and retries |
| `Delivery.AtMostOnce` | src/chain-wallet/chain-sync.service.ts:237-319 | in all these runs each row has at most one confirmed transfer, and exactly one once it is marked sent |
| `Delivery.GuardedRunsAreSafe` | src/chain-wallet/chain-sync.service.ts:254-273 | runs with fresh claims, true answers, and no transfer confirmed between the answers on its status and on the round are such runs |
| `Delivery.LateAsksAreSafe` | src/chain-wallet/chain-sync.service.ts:256-267 | so are runs with fresh claims and true answers that ask for a status only after the last valid round, whatever is confirmed when |
| `Delivery.SoloRunsAreFresh` | src/chain-wallet/chain-sync.service.ts:37-48 | with one attempt per row at a time every claim is fresh, which is what the busy flag provides |
| `Delivery.ChainPlusUndelivered` | src/chain-wallet/chain-sync.service.ts:237-319 | whatever is weighed, confirmed transfers plus undelivered rows make up all rows: nothing twice, nothing lost |
| `DeliveryLimits.StaleClaimSendsTwice` | src/chain-wallet/chain-sync.service.ts:238-242 | two workers, all answers true, one row confirmed twice, by transfers with different last valid rounds |
| `DeliveryLimits.WrongAnswerSendsTwice` | src/chain-wallet/algorand-wallet.client.ts:201-214 | one worker, one untrue "unknown", one row confirmed twice, by transfers with different last valid rounds |
| `DeliveryLimits.LateRoundSendsTwice` | src/chain-wallet/chain-sync.service.ts:256-267 | one worker, all claims fresh and all answers true: a transfer confirmed between the two answers is signed again, and both are confirmed |
| `DeliveryLimits.ClaimSafeIff` | src/chain-wallet/chain-sync.service.ts:238-242 | a claim that matches on the status keeps all later guarded runs, with ids that can be told apart, to one confirmation per row if and only if it is fresh or the row's stored transfer can no longer reach the chain |
| `DeliveryLimits.UnknownSafeIff` | src/chain-wallet/algorand-wallet.client.ts:201-214 | an answer "unknown" does so if and only if the row's stored transfer is not confirmed |
| `DeliveryLimits.RoundSafeIff` | src/chain-wallet/chain-sync.service.ts:264-273 | an answer on the round that lets the attempt go on does so if and only if the row's stored transfer can no longer reach the chain |
| `Delivery.CrashStrands` | src/chain-wallet/chain-sync.service.ts:238-319 | a crash of the attempt that owns a row leaves the row as being sent with nobody on it |
| `Delivery.StrandedForEver` | src/chain-wallet/chain-sync.service.ts:221-242 | such a row never changes again in any run |
| `ChainWorld.GoLiveTracksIff` | src/chain-wallet/chain-sync.service.ts:86-117 | when the outbox is switched on with all earlier transactions marked, every invariant holds, and the account is exact if and only if ledger and chain were matched first |
| `ChainWorld.NextKeepsInv` | src/chain-wallet/chain-sync.service.ts:125-207 | ledger, scans, senders and chain keep their invariants together |
| `ChainWorld.RunTracks` | src/chain-wallet/chain-sync.service.ts:125-207 | the account stays exact in every interleaved run |
| `ChainWorld.LedgerMatchesChain` | src/chain-wallet/chain-sync.service.ts:18-26 | for every user off the platform: FARM on chain + unsent legs + unscanned transactions = available balance + received but uncredited FARM + fees of releases to the user that took the whole part |
| `ChainWorld.RunAgreesIff` | src/chain-wallet/chain-sync.service.ts:18-26 | after every interleaved run ledger and chain agree for a user if and only if no release to the user had such a fee |
| `ChainSync.Worker.FindUnmarked` | src/chain-wallet/chain-sync.service.ts:129-144 | finds the oldest unmarked transactions up to the limit, leaving out none before the last it finds |
| `ChainSync.Worker.BuildLegs` | src/chain-wallet/chain-sync.service.ts:159-187 | the legs of one transaction: nothing when settled, net amount to the receiver, fee to the reserve, releases paid by the reserve |
| `ChainSync.Worker.EnqueueScan` | src/chain-wallet/chain-sync.service.ts:125-207 | the loops commit exactly the specified scan, and count the rows they add |
| `ChainSync.Worker.CheckPrevious` | src/chain-wallet/chain-sync.service.ts:254-273 | a stored transfer that confirmed settles the row; the attempt goes on exactly when none is stored, or it is neither confirmed nor pending and expired by the round asked for afterwards |
| `ChainSync.Worker.SendRow` | src/chain-wallet/chain-sync.service.ts:274-311 | the row is sent exactly when every check passes and the wait returns for a confirmed transfer; otherwise it is failed or blocked; a transfer is signed and stored exactly when destination, funds and signer are there |
| `ChainSync.Worker.ProcessOne` | src/chain-wallet/chain-sync.service.ts:237-319 | a claimed row is sent exactly when its stored transfer had confirmed, or it was clear to send and every check and the wait pass; otherwise it ends as blocked or failed, with one more try |
| `ChainSync.Worker.Process` | src/chain-wallet/chain-sync.service.ts:221-235 | tries exactly the oldest due rows, read together, one after another; each ends as that rule says, and the count is of those sent |
| `ChainSync.Worker.FindDue` | src/chain-wallet/chain-sync.service.ts:224-231 | finds the oldest rows that are due and may be tried, up to the limit, leaving out none before the last it finds |
| `ChainSync.Worker.Tick` | src/chain-wallet/chain-sync.service.ts:36-48 | a tick during another changes nothing; otherwise it commits exactly one scan, tries the oldest twenty due rows of what that leaves, each with its outcome, and no others |
| `ChainSync.Worker.NeverSentTwice` | src/chain-wallet/chain-sync.service.ts:237-319 | whatever the worker has done, no row reached the chain twice and a sent row did once |
| `DepositScan.PollsRefineFullScan` | src/chain-wallet/chain-wallet.service.ts:217-276 | after any overlapping polls and chain growth the records are those of one full scan up to where inserted pages have reached |
| `DepositScan.RecordedIff` | src/chain-wallet/chain-wallet.service.ts:239-262 | a transfer is recorded if and only if it moves something to a custodial address from another one, for FARM none of the service's own, and an inserted page reached it since go-live; every round before the cursor was reached, though the cursor may move back |
| `DepositScan.RecordedOnce` | src/chain-wallet/chain-wallet.service.ts:263-270 | nothing is recorded twice |
| `DepositScan.OwnTransfersIgnored` | src/chain-wallet/chain-wallet.service.ts:238-246 | FARM sent by the reserve or a custodial account, as by the outbox, is never a deposit |
| `DepositScan.CatchesUpIff` | src/chain-wallet/algorand-wallet.client.ts:268-280 | after any run, polling on reads a standing chain to its end if and only if it is read already or no page-long stretch of one round from the cursor on has anything behind it |
| `DepositScan.CrowdedRoundBlocks` | src/chain-wallet/chain-wallet.service.ts:271-280 | a crowded round in the way is never passed, however polls overlap and whatever the chain adds |
| `DepositScan.LateStoreMovesBack` | src/chain-wallet/chain-wallet.service.ts:271-280 | two overlapping polls, the later end of which moves the cursor back |
| `DepositScan.OnePoll` | src/chain-wallet/chain-wallet.service.ts:214-280 | the four steps of a poll that nothing interleaves with are the poll the service class performs |
| `DepositPoller.Poller.PollAsset` | src/chain-wallet/chain-wallet.service.ts:217-280 | filter, insertion, count and cursor loops perform exactly one poll |
| `DepositPoller.Poller.PollDeposits` | src/chain-wallet/chain-wallet.service.ts:198-284 | every asset is polled once and the count is the number of rows added |
| `DepositPoller.Poller.Tick` | src/chain-wallet/chain-wallet.service.ts:174-186 | a tick during another changes nothing |
| `Deposits.RouteOf` | src/deposit/deposit.service.ts:846-938 | paths that settle a deposit row are chosen only for a pending one; what each path comes to is stated by `FinalizeSuccessfulDeposit` |
| `Deposits.RunKeepsSafe` | src/deposit/deposit.service.ts:846-938 | from guarded rows, in every run of finalizing and failing calls there is one settlement at most, and none while the deposit row is missing or pending |
| `Deposits.SettledAtMostOnceIff` | src/deposit/deposit.service.ts:1332-1412 | all runs settle at most once if and only if the rows do not start as a creditable transaction without a deposit row that can guard it |
| `Deposits.CreditedTwice` | src/deposit/deposit.service.ts:1147-1170 | from every other start, a run that settles twice |
| `Deposits.SettledOnceWithoutFailures` | src/deposit/deposit.service.ts:846-938 | without unguarded failure writes every start is settled at most once |
| `Deposits.SettlementsPayInFull` | src/deposit/deposit.service.ts:994-1090 | in every run each settlement credits the deposit's amount to the cent, a merchant sale split into net and fee, or the transaction's amount where no row guards it |
| `Deposits.CreditsInFull` | src/deposit/deposit.service.ts:996-998 | splitting a sale loses nothing, whatever the rule |
| `DepositOutcomes.CompletedExactlyWhenCredited` | src/deposit/deposit.service.ts:846-938 | in every run from a deposit on its way: credited once at most and then in full; its transaction reads as completed only if it was, and exactly then unless a failure was written |
| `DepositOutcomes.StaleFailureHidesCredit` | src/deposit/deposit.service.ts:1147-1170 | a run in which a failure written from a stale read overwrites the completed status of a credited deposit |
| `DepositOutcomes.ExpiresExactly` | src/deposit/deposit.service.ts:348-366 | a failure reported by the provider fails what is still open, each row under its own guard |
| `DepositOutcomes.SaleSplit` | src/deposit/deposit.service.ts:994-1090 | of a sale the first credit is the merchant's and the second the platform's, its percentage to the cent |
| `DepositService.DepositRecords.FinalizeSuccessfulDeposit` | src/deposit/deposit.service.ts:720-938 | one verified call credits a deposit on its way in full and marks it successful; over all statuses, exactly which rows it credits, which it answers as done without a credit, and which it refuses |
| `DepositService.DepositRecords.FinalizeMerchantQrDeposit` | src/deposit/deposit.service.ts:940-1124 | settles a pending deposit once as net and fee |
| `DepositService.DepositRecords.FinalizePendingDepositWithTransaction` | src/deposit/deposit.service.ts:1206-1280 | settles a pending deposit once and completes its transaction |
| `DepositService.DepositRecords.CreditPendingDepositWithWallet` | src/deposit/deposit.service.ts:1435-1534 | the same for a pending transaction that is no deposit |
| `DepositService.DepositRecords.CompletePendingTransaction` | src/deposit/deposit.service.ts:1282-1330 | completes a transaction without a settlement |
| `DepositService.DepositRecords.CreditPendingTransactionDeposit` | src/deposit/deposit.service.ts:1332-1433 | credits a waiting transaction whose wallet is known, after reading it again |
| `DepositService.DepositRecords.FailDeposit` | src/deposit/deposit.service.ts:1126-1204 | an uninterrupted failure marks what is not final and settles nothing |
| `LinkUses.RunKeepsInv` | src/business-ops/business-web-checkout.service.ts:162-209 | in every interleaving each use is held by exactly one job, open checkout or applied payment, and the count stays within the limit |
| `LinkUses.ReleaseNeverBlocked` | src/business-ops/business-web-checkout.service.ts:198-203 | an owed release always finds a use to give back |
| `LinkUses.NeverOversold` | src/business-ops/business-commerce.service.ts:495-533 | payments that keep a use never exceed the limit |
| `LinkUses.NoUseLost` | src/business-ops/business-web-checkout.service.ts:215-330 | with nothing in flight every use belongs to a payment or an open checkout |
| `LinkRules.ReservesExactly` | src/business-ops/business-web-checkout.service.ts:168-179 | a web checkout takes a use exactly of a link that is active, on time and not used up |
| `LinkRules.PaysExactly` | src/business-ops/business-commerce.service.ts:483-507 | an app payment reads the same, and reserves exactly while the link is active and not used up |
| `LinkRules.AnswersExactly` | src/business-ops/business-web-checkout.service.ts:215-275 | what each provider answer makes of a pending and of an expired checkout |
| `LinkRules.AppliesExactly` | src/business-ops/business-web-checkout.service.ts:283-308 | a late payment is applied exactly when a use is left |
| `LinkRules.ShutLinkTakesNobody` | src/business-ops/business-commerce.service.ts:432-437 | in every run a link past its time or switched off takes no payer who had not read it as open before; switched off, not even these get a use |
| `LinkUses.StoppedJobsKeepUses` | src/business-ops/business-web-checkout.service.ts:113-155 | in every run without a step of n jobs that stopped while holding a use, payments that keep a use and open checkouts stay n below the limit |
| `LinkUses.ChargedEquation` | src/business-ops/business-commerce.service.ts:507-533 | everybody charged is a payment that keeps a use, an app payment undone after its money moved, or a completed web payment that was not applied |
| `LinkUses.ChargedWithinMax` | src/business-ops/business-commerce.service.ts:507-533 | if nothing throws after a payment and no checkout expires before its provider decides, no more payers are charged than the link allows |
| `LinkUses.OnlyItsJobSettles` | src/business-ops/business-web-checkout.service.ts:267-308 | a late payment stays unapplied and unrecorded exactly until the job that claimed it takes its last step, in every run |
| `LinkUses.LateCompletionChargesTwo` | src/business-ops/business-web-checkout.service.ts:283-308 | a link for one payment that charges two without any throw: an expired checkout completes after its use was sold |
| `LinkUses.LateThrowTakesTwo` | src/business-ops/business-commerce.service.ts:507-533 | a link for one payment that takes two after a late throw |
| `LinkService.LinkRecord.Reserve` | src/business-ops/business-web-checkout.service.ts:168-179 | takes a use exactly of an active link that is on time and below its limit |
| `LinkService.LinkRecord.StartCheckout` | src/business-ops/business-web-checkout.service.ts:91-159 | a failed start gives its use back, a successful one leaves an open checkout holding it |
| `LinkService.LinkRecord.PayLink` | src/business-ops/business-commerce.service.ts:483-534 | an app payment keeps a use exactly when it goes through |
| `LinkService.LinkRecord.Settle` | src/business-ops/business-web-checkout.service.ts:335-343 | a late payment takes a use again or becomes an exception |
| `LinkService.LinkRecord.Reconcile` | src/business-ops/business-web-checkout.service.ts:215-330 | the row and the uses after every answer, case by case |
| `InvoiceHolds.RunKeepsInv` | src/business-ops/business-commerce.service.ts:582-625 | in every interleaving an invoice reads as settled exactly while one payment stands behind it, and an unexpired hold keeps it payable or cancelled |
| `InvoiceHolds.SettledAtMostOnce` | src/business-ops/business-web-checkout.service.ts:344-362 | at most one payment settles an invoice, and with no app payment in flight it is settled exactly when one did |
| `InvoiceRules.TakesExactly` | src/business-ops/business-commerce.service.ts:571-596 | an app payment claims exactly an invoice that is still payable and held by nobody |
| `InvoiceRules.HoldsExactly` | src/business-ops/business-web-checkout.service.ts:180-194 | so does a web checkout with its hold |
| `InvoiceRules.AnswersExactly` | src/business-ops/business-web-checkout.service.ts:215-275 | what each provider answer makes of a pending and of an expired checkout |
| `InvoiceRules.AppliesExactly` | src/business-ops/business-web-checkout.service.ts:344-362 | a web payment is applied exactly to a payable invoice held by it or by nobody |
| `InvoiceRules.CancelsExactly` | src/business-ops/business-commerce.service.ts:336-352 | only drafts and payable invoices are cancelled |
| `InvoiceRules.CancelledStays` | src/business-ops/business-commerce.service.ts:336-352 | in every run a cancelled invoice stays cancelled and no payment settles it |
| `InvoiceHolds.UnsettledHasOneJob` | src/business-ops/business-web-checkout.service.ts:267-308 | a completed web payment is neither applied nor recorded exactly while one job is still to do so, and never two |
| `InvoiceHolds.OnlyItsJobSettles` | src/business-ops/business-web-checkout.service.ts:267-308 | and it stays so in every run in which that job takes no further step |
| `InvoiceHolds.StoppedPaymentSettles` | src/business-ops/business-commerce.service.ts:582-625 | an app payment that stops after its claim leaves the invoice settled by no payment in every run without a step of it |
| `InvoiceHolds.OwnHoldApplies` | src/business-ops/business-web-checkout.service.ts:180-194 | a web payment completing under its own unexpired hold is applied if and only if the invoice was not cancelled |
| `InvoiceHolds.ChargedEquation` | src/business-ops/business-commerce.service.ts:595-625 | everybody charged is the one payment that stands, an app payment undone after its money moved, or a completed web payment that was not applied |
| `InvoiceHolds.ChargedOnce` | src/business-ops/business-commerce.service.ts:595-625 | if nothing throws after a payment, and completed web payments keep their own unexpired hold on an uncancelled invoice until they are applied, one payer at most is charged |
| `InvoiceHolds.LateThrowChargesTwo` | src/business-ops/business-commerce.service.ts:606-625 | a run in which two payers are charged for one invoice |
| `InvoiceHolds.LateCompletionChargesTwo` | src/business-ops/business-web-checkout.service.ts:283-308 | a run in which two are charged without any throw: the hold expires, the invoice is paid in the app, the web payment completes |
| `InvoiceService.InvoiceRecord.PayInvoice` | src/business-ops/business-commerce.service.ts:564-626 | marks the invoice overdue when it is, settles a free payable one exactly when the payment goes through, and otherwise leaves it payable |
| `InvoiceService.InvoiceRecord.StartCheckout` | src/business-ops/business-web-checkout.service.ts:91-159 | holds a free payable invoice, and gives the hold back when the provider fails |
| `InvoiceService.InvoiceRecord.ReleaseHold` | src/business-ops/business-web-checkout.service.ts:203-208 | clears only the holder's own hold |
| `InvoiceService.InvoiceRecord.Settle` | src/business-ops/business-web-checkout.service.ts:344-362 | applies a payment to a payable invoice that is its own, free or past its hold |
| `InvoiceService.InvoiceRecord.Reconcile` | src/business-ops/business-web-checkout.service.ts:215-330 | row, status and hold after every answer, case by case |
| `InvoiceService.InvoiceRecord.CancelInvoice` | src/business-ops/business-commerce.service.ts:336-352 | cancels only drafts and payable invoices |
| `Intents.RunKeepsInv` | src/agent-payments/agent-payments.service.ts:303-353 | while an intent is processing exactly one call owns it, and transfers, refunds and status stay in step |
| `Intents.PaidAtMostOnce` | src/agent-payments/agent-payments.service.ts:294-374 | a live intent is paid once at most; outside processing a transfer exists if and only if it reads as paid; cancelled and expired ones were never paid |
| `Intents.StoppedPaymentBlocks` | src/agent-payments/agent-payments.service.ts:303-346 | a payment that stops after its claim leaves the intent in processing in every run without a step of it: nothing pays, cancels, expires or refunds it |
| `Intents.RefundedWithinAmount` | src/agent-payments/agent-payments.service.ts:439-466 | with any stale reads the refunded amount is the sum of the refund rows and within the amount, the status says exactly how much, and a key is used once |
| `Intents.NoRefundInBetween` | src/agent-payments/agent-payments.service.ts:454-464 | an equal refunded amount proves that no refund came in between |
| `IntentRules.ClaimsExactly` | src/agent-payments/agent-payments.service.ts:314-320 | a payer claims an intent exactly while it waits for payment and its time has not come |
| `IntentRules.EndsExactly` | src/agent-payments/agent-payments.service.ts:141-150 | cancelling and expiring touch only an intent that waits for payment |
| `IntentRules.RefundBeginsExactly` | src/agent-payments/agent-payments.service.ts:428-448 | a refund begins exactly for a paid intent, under a new key, for what is asked or all that is left |
| `IntentRules.RefundsExactly` | src/agent-payments/agent-payments.service.ts:450-489 | and is written exactly when nothing was refunded since, the key is still new and the wallets allow it, with all it changes |
| `IntentRules.RefundOfAllIsFull` | src/agent-payments/agent-payments.service.ts:439-449 | whatever happens between read and write, a refund without an amount that is written leaves the intent fully refunded |
| `Intents.RefundsConserveMoney` | src/agent-payments/agent-payments.service.ts:466-489 | the business wallet loses and the payer's gains exactly what was refunded, and the former never goes negative |
| `IntentService.IntentRecord.ExpireIntents` | src/agent-payments/agent-payments.service.ts:141-150 | only an unpaid intent past its time expires |
| `IntentService.IntentRecord.CancelIntent` | src/agent-payments/agent-payments.service.ts:243-257 | only an unpaid intent within its time is cancelled |
| `IntentService.IntentRecord.PayIntent` | src/agent-payments/agent-payments.service.ts:294-374 | one transfer exactly when the intent is payable and the payment succeeds; a failed one leaves it payable; the payer of an intent already paid is answered as having paid |
| `IntentService.IntentRecord.RefundTx` | src/agent-payments/agent-payments.service.ts:450-545 | all writes of a refund or none, decided by the compare on amount and status, the wallets and the key |
| `IntentService.IntentRecord.RefundIntent` | src/agent-payments/agent-payments.service.ts:421-553 | refunds what is asked or all that is left exactly when the key is new, that much is left and the wallets allow it; a used key is answered with the refund it made |
| `IntentService.IntentRecord.FindKey` | src/agent-payments/agent-payments.service.ts:428-438 | finds the refund row with the key if there is one |
| `Mandates.RunKeepsInv` | src/agent-payments/agent-payments.service.ts:899-920 | in every interleaving, throws after a payment included, the requests that passed a day's or month's check and count, or were paid and count, stay within the caps |
| `Mandates.CapsSurviveRaces` | src/agent-payments/agent-payments.service.ts:695-730 | requests of one day (month) that hold a passed check or were paid, and still count, never total more than its cap |
| `Mandates.PaidOnlyAfterChecks` | src/agent-payments/agent-payments.service.ts:714-730 | money moves only for a request being processed that passed both checks and is within the cap per payment, and once for each |
| `MandateEnds.EndedMandateStops` | src/agent-payments/agent-payments.service.ts:714-716 | once a mandate is revoked or past its last day, in every run: no creation begins, no confirmation passes its check, and whatever is paid later is paid by a call that had passed before |
| `MandateEnds.EndedMandatePaysNothing` | src/agent-payments/agent-payments.service.ts:714-716 | so with no such call under way nothing is created and nothing paid, ever after |
| `MandateEnds.SpentIsUsed` | src/agent-payments/agent-payments.service.ts:695-712 | the two sums are over the requests of the day (month) that are pending, processing or confirmed |
| `Mandates.DayPaysCapCarriedAndDropped` | src/agent-payments/agent-payments.service.ts:913-942 | in every run, what is paid on a day exceeds the cap by no more than what was carried into the day and what was paid under requests that stopped counting afterwards |
| `Mandates.MonthPaysCapCarriedAndDropped` | src/agent-payments/agent-payments.service.ts:913-942 | the same for what is paid in a month and the monthly cap |
| `Mandates.DayPaysCapPlusCarried` | src/agent-payments/agent-payments.service.ts:695-712 | if nothing throws after a payment, what is paid on a day exceeds the cap by no more than what was carried into the day |
| `Mandates.MonthPaysCapPlusCarried` | src/agent-payments/agent-payments.service.ts:695-712 | the same for months |
| `Mandates.StoppedRequestCounts` | src/agent-payments/agent-payments.service.ts:902-920 | a confirmation that stops after its claim leaves its request in processing, unchanged, in every run without a step of it |
| `Mandates.StoppedRequestBinds` | src/agent-payments/agent-payments.service.ts:695-712 | and in all these runs nothing else passes the sum of the request's day or month unless it fits beside it |
| `Mandates.MidnightPaysTwice` | src/agent-payments/agent-payments.service.ts:695-712 | a run that pays twice the daily cap on one day |
| `Mandates.ThrowPaysTwice` | src/agent-payments/agent-payments.service.ts:927-942 | a run that does so with nothing carried over: a paid request goes back to pending, the user rejects it, and as much is paid again |
| `MandateService.MandateRecord.CreateAgentRequest` | src/agent-payments/agent-payments.service.ts:786-803 | adds a pending request exactly when none is under way for the intent, the mandate is active and within its time, and the amount fits its cap and what is left of the day's and the month's |
| `MandateService.MandateRecord.CheckCaps` | src/agent-payments/agent-payments.service.ts:714-730 | the verdict of mandate and limits over the other requests, in the same terms; a request that breaks one has failed |
| `MandateService.MandateRecord.ConfirmRequest` | src/agent-payments/agent-payments.service.ts:882-946 | a pending request that ran out expires; another is confirmed exactly when it is allowed, paid and nothing throws; otherwise it fails, or goes back to pending |
| `MandateService.MandateRecord.RevokeMandate` | src/agent-payments/agent-payments.service.ts:663-684 | only an active mandate is revoked, and its pending requests, and no others, are cancelled with it |
| `Milestones.PayIsLedgerStep` | src/escrow/escrow.service.ts:728-752 | the contract row used here moves as the escrow service's partial release moves it |
| `Milestones.NeverOverpaid` | src/business-ops/business-escrow.service.ts:394-443 | in every interleaving, throws after a payment included, what is paid out equals what the contract has released, within its amount, and reaching the amount completes it |
| `MilestoneRules.BeginsExactly` | src/business-ops/business-escrow.service.ts:335-392 | which milestones of a funded escrow can be requested and released |
| `MilestoneRules.WritesExactly` | src/business-ops/business-escrow.service.ts:394-404 | a request or claim is written exactly when the list is still the one that was read |
| `MilestoneRules.PaysExactly` | src/business-ops/business-escrow.service.ts:405-420 | a claimed milestone is paid, to the cent, exactly when allowed and left in the active contract |
| `MilestoneRules.EndsExactly` | src/business-ops/business-escrow.service.ts:421-443 | what is written after a payment and after a failure |
| `MilestoneRules.FollowsExactly` | src/business-ops/business-escrow.service.ts:49-90 | an open row follows the status of its contract |
| `Milestones.SerialRunsAgree` | src/business-ops/business-escrow.service.ts:394-443 | with one call at a time each milestone is paid once if it reads as released, plus once for each release of it that threw after paying; releasing all completes the contract |
| `Milestones.SerialRunsPayOnce` | src/business-ops/business-escrow.service.ts:394-443 | so without such throws released milestones are paid exactly once, others never, and together they are the contract's released amount |
| `Milestones.ThrowPaysMilestoneTwice` | src/business-ops/business-escrow.service.ts:437-443 | one call at a time: a throw after the payment writes the old list back, and the first milestone is paid twice |
| `Milestones.RacePaysMilestoneTwice` | src/business-ops/business-escrow.service.ts:421-443 | racing releases that pay the second of three milestones twice and the third never |
| `MilestoneService.BookRecord.RequestMilestone` | src/business-ops/business-escrow.service.ts:335-375 | marks exactly a pending milestone of a funded escrow |
| `MilestoneService.BookRecord.ReleaseMilestone` | src/business-ops/business-escrow.service.ts:377-444 | an uninterrupted release pays and marks the milestone, or leaves everything as it was; if something throws after the payment, it pays and leaves the list as it was |
| `MilestoneService.BookRecord.ReleasePartial` | src/escrow/escrow.service.ts:728-752 | pays within what is left and reports whether the contract is complete |
| `Payouts.RunKeepsInv` | src/business-api/api-payouts.service.ts:98-225 | in every interleaving the payout's status accounts for every withdrawal and every call that holds the key |
| `Payouts.OneWithdrawalPlusDisowned` | src/business-api/api-payouts.service.ts:98-137 | one call at most is withdrawing, all withdrawals are of the first request, and there is one, plus one per call that threw after its withdrawal |
| `PayoutRules.InsertsExactly` | src/business-api/api-payouts.service.ts:98-112 | the first request under a key takes it |
| `PayoutRules.AnswersExactly` | src/business-api/api-payouts.service.ts:113-127 | what a taken key answers, by request and status |
| `PayoutRules.RetriesExactly` | src/business-api/api-payouts.service.ts:128-137 | of those that try a failed key again one takes it |
| `Payouts.AnswersAgree` | src/business-api/api-payouts.service.ts:139-225 | in every run all answers that name a withdrawal name the same one; without throws there is no other |
| `Payouts.StoredResponseStands` | src/business-api/api-payouts.service.ts:115-122 | once submitted, in every run, each later request with the same content gets the stored response |
| `Payouts.StoppedRequestKeepsKey` | src/business-api/api-payouts.service.ts:123-137 | a request that stops with the key in hand keeps it in every run without a step of it: nothing is withdrawn, and every other request is refused |
| `Payouts.ThrowPaysTwice` | src/business-api/api-payouts.service.ts:206-224 | a run in which the permitted retry pays again |
| `PayoutService.PayoutRecord.ClaimKey` | src/business-api/api-payouts.service.ts:98-137 | only a fresh or failed key is taken; a submitted one replays, anything else conflicts |
| `PayoutService.PayoutRecord.Create` | src/business-api/api-payouts.service.ts:62-225 | withdraws only for a fresh or failed key, stores the response on success, and otherwise changes nothing |

## Left out

- Controllers, validation, notifications, e-mail, websockets, caches, audit rows and outgoing webhooks: no state the properties depend on. A write that throws after money moved is an event.
- Cryptography, signing, SDK and provider clients: a signed transfer is its row, its last valid round and how far it got.
- `sendFunds` and `createWithdrawal` themselves: their wallet effects appear only as "a transfer went through".
- Milestones.NeverOverpaid: partial releases of the same contract made directly, not through milestones, are not events of that protocol; `EscrowProofs.PaidWithinAmount` covers them for the contract.
- Milestones.SerialRunsAgree: timestamps inside the milestone JSON are not modelled, so the compare on the list succeeds at least as often as in the source. Creating and sending a business escrow are left out.
- MilestoneService.BookRecord.ReleaseMilestone: the statuses funded, in progress and release requested of a business escrow are one state here, because milestones can be released in each.
- Mandates.RunKeepsInv: expiry of a mandate is in whole days; expiry, rejection and cancellation of a pending request are one event, so no property depends on their times.
- MandateService.MandateRecord.CreateAgentRequest: the answer with the request already open for the intent is a refusal here, and that there is one is a parameter, because one mandate is followed and not its intents.
- IntentService.IntentRecord.CancelIntent: the pending agent requests of the intent, which the source cancels with it, are rows of the mandate protocol and are not touched here.
- EscrowService.Escrows.CancelEscrow: the source reads the status and then writes without a guard, here that is one guarded write; no reachable contract is pending (`EscrowProofs.CancelNeverApplies`), so neither form ever writes.
- Intents.PaidAtMostOnce: creation with an Idempotency-Key is left out; one intent is followed.
- Deposits.SettledAtMostOnceIff: the transaction row exists and the deposit reference is unique, as the schema enforces; the crypto deposit's start-up failure, which comes before any payment, is left out.
- Deposits.RunKeepsSafe: the webhook service has a finalization of its own, with its own credit paths, on the same rows (src/webhook/webhook.service.ts:1562-1710, 2101-2480), and deletes stale deposit rows (src/webhook/webhook.service.ts:2036-2090), which is how a reference comes to have no row to guard it. These are no events of the protocol, so its results are about the deposit service alone.
- DepositService.DepositRecords.CompletePendingTransaction: the receiver wallet that the source records on a transaction without one is not recorded; a completed transaction is not credited again, so nothing later depends on it.
- Deposits.SettlementsPayInFull: credits are ledger entries; which wallet receives them is left out.
- DepositScan.RecordedIff: custodial addresses are fixed, and the indexer returns confirmed transfers in ascending order. Native ALGO polling is left out.
- ChainSync.Worker.Process: which rows are due is a parameter in place of the back-off time.
- ChainWorld.LedgerMatchesChain: the go-live marking by creation time is a position in the transaction table.
- DepositPoller.Poller.PollDeposits: the poll of native ALGO, which reads payments per address from a cursor of its own, is not part of it.
- DepositPoller.Poller.Tick: crediting the detected deposits is a ledger event (`DoCreditDeposit`), not part of the tick here.
- Funding a business escrow: it claims the row, creates the contract, stores the contract's id, and puts the row back if any of that throws, so a failed write of the id lets the request be funded a second time. It has the shape of `Payouts` and is not modelled again.
- Invoice line items and totals, and link creation: plain sums and single writes.
- LinkService.LinkRecord.Reconcile: the loop over pending checkouts calls it row by row and is not modelled.
- IvoryPay deposits, AI spend caps, sessions, codes and PINs, reporting, wallet provisioning and chain reconciliation.
