# Money engine of the creator-support API

A creator is supported by fans. A support is paid through a provider, split into a platform fee and a net
amount, credited to the creator's pending balance, and settled to the available balance after a hold. The
creator withdraws from the available balance; an admin moves the request to processing, and a second admin
completes or rejects it. Every one of these actions is one database transaction that combines a guarded
row update, a balance change, a wallet transaction (a snapshot of the balances) and a balanced posting
batch in a double-entry ledger. Beside the money, an applied payment unlocks a reward, casts a paid vote
and queues two outbox events, which background workers claim, project into counters or deliver.

This project models those transactions and proves what they keep, for every interleaving.

## How the model is built

- `Tables` holds the rows. Money is integer cents. Rows are never deleted, so a row's position is its id.
- `Engine` and `Postings` say, as functions from state to state, what each transaction does when it commits.
  `Steps` turns them into a state machine: `Next` takes one step, `After` a whole run. A transaction that
  throws leaves the state as it was. Steps of payments, settlements, withdrawals, outbox workers and the
  environment (new users, switched-off wallets and rewards, new campaigns) come in any order.
- A webhook or verify call reads the support row in one step and acts on that snapshot in a later one, with
  any steps between: snapshots are arbitrarily stale. A processor run's reading of its batch and its claims,
  re-reads, deliveries and releases are separate steps as well, for any number of overlapping runs; a run claims
  only what it has read.
- `Invariants` says what holds between transactions; `ClosedForms` computes every balance from the status
  columns alone. `Bookkeeping`, `Surroundings` and the four `...Proofs` modules prove that each step keeps
  the invariant, and `Safety` that every reachable state has it.
- `Orders`, `Confirmations`, `Requests`, `StatusChanges` and `OutboxSteps` say of each operation exactly when it
  succeeds, what each error means, and which rows and amounts it writes, in terms of the rows alone; over runs they
  say where an order, a paid support, a released amount and a repeated request come from. `FullCycle` takes one
  support from the order to the payout.
- `Conservation`, `Payments`, `Refusals`, `Webhooks`, `Withdrawals`, `Bulk`, `SettlementPass`,
  `Starvation`, `Reconciliation`, `Lease`, `Redelivery` and `Projections` draw the conclusions. `Retry`, `Names` and `Texts`
  stand alone.
- `Services` is the imperative form: a class `Store` whose fields are the tables and whose methods follow the
  services step by step, with every check and every error, and roll back on a throw. Each is proved to do
  exactly what the engine's step says; `Effects` holds the table-by-table states in between. The engine leaves
  out the checks that never fire, so these proofs also show that they never fire: a locked balance too small,
  a negative balance, an unbalanced posting, a row count other than one, a duplicate posting or wallet
  transaction met after a balance change, a vote already recorded, a reopened outbox event. The outbox
  processor is proved with arbitrary steps of everybody else between any two of its own.

## What was found

- A payment that is reported failed on a stale snapshot overwrites the status of a support that another call
  has applied in the meantime. The settlement query asks for the completed status, so the credited net amount
  stays in the pending balance for good. `Payments.FailureStrandsIff` gives the exact condition,
  `Payments.StrandedForever` the consequence, `Payments.StrandingIsReachable` a run of eight steps. Stranded
  supports are the only ones settlement passes over (`Payments.RipeIffNotStranded`).
- A paid order for a reward that has meanwhile sold out, or been unlocked by the same supporter, is never
  applied by any later run (`Refusals.DeniedForever`), and a pending order can still be applied exactly if
  neither is the case (`Refusals.ApplicableIff`). Two supporters who pay for the last unit get there in
  twelve steps (`Refusals.RaceIsReachable`).
- A first webhook that ends in an error leaves its event row unprocessed: every later webhook for that
  reference is refused, for good, and only a verify call can still have the payment confirmed
  (`Webhooks.StuckForever`, `Webhooks.StuckIsReachable`; `Webhooks.AdmissionIff` says exactly who is admitted).
- A notification can go out twice in three ways, and in no other. A claim that outlives the five minutes by a
  millisecond is claimed again (`Redelivery.WindowIsExact`); an update that fails after Telegram accepted the
  message frees the event for another send, with no time passing at all (`Redelivery.SentAgain`); and when two
  runs have read the same batch, a claim query that throws sends its run to the catch block, which clears the mark
  of an event that the other has claimed meanwhile (`Redelivery.FreedUnderHolder`). `Lease.OneHolderIff` and `Lease.DeliveredOnceIff` are the exact
  conditions, `Redelivery.SecondDelivery` shows that each of the three does lead on to a second delivery.
- Settlement takes the earliest supports first and skips those of switched-off wallets without setting them
  aside, so these can starve the rest. With limit L, some schedule of passes releases a support of an active
  wallet exactly if fewer than L blocked ones are due before it (`Starvation.ReleasableIff`), and every schedule does
  exactly if fewer than L are due before it or at the same moment (`Starvation.SurelyReleasedIff`); a pass is
  idle, always or by some order of equal times, exactly if this fails for all that is owed
  (`Starvation.EveryPassIdlesIff`, `Starvation.SomePassIdlesIff`). For every L a run from the empty database starves
  the system for good (`Starvation.StarvationIsReachable`), while k < L blocked supports slow each pass to L - k
  (`Starvation.PassesDrainOwed`).
- Two Telegram username candidates with suffixes of different lengths can be the same string, exactly when
  the longer suffix is the shorter one behind the characters it displaces (`Names.CandidatesCoincideIff`,
  `Names.CandidatesCanCoincide`), so the counting argument works within one digit length only.

## Model

| member | source | states |
|---|---|---|
| `Safety.StepKeeps` | api/src/support/support.service.ts:115-271 | any single step, taken in a state that satisfies the invariant, leads to one that does: rows, keys, closed forms, mirrored and agreeing books, control accounts, audits, perks, events, counters and calls |
| `Safety.ReachableIsSafe` | api/src/wallet/wallet-balance.service.ts:11-168 | every state of every run from the empty database satisfies the whole invariant, whatever the interleaving and however stale the snapshots |
| `ClosedForms.ExpectedFollows` | api/src/wallet/wallet-balance.service.ts:11-136 | the status change behind each of the five movements changes the balances computed from statuses exactly as the movement changes the balance columns, for the owner and for nobody else |
| `ClosedForms.ControlsFollow` | api/src/wallet/wallet-accounting.service.ts:73-276 | the entries of each movement change the three control accounts exactly as the status change behind it changes captured amounts, fees and payouts |
| `Postings.EntriesMatchMove` | api/src/wallet/wallet-accounting.service.ts:73-276 | the entries posted for a movement add to each creator account of its owner what the balance service adds to the column, and nothing to any other wallet |
| `Postings.EntriesBalance` | api/src/wallet/wallet-accounting.service.ts:296-315 | every movement of an order with gross = fee + net posts debits equal to credits |
| `Bookkeeping.PostKeepsMoney` | api/src/wallet/wallet-ledger.service.ts:29-95 | posting a movement with its status change keeps the closed forms, the mirror of the books, the agreement of the three records and the control accounts together |
| `Bookkeeping.GuardsHold` | api/src/wallet/wallet-balance.service.ts:85-168 | no balance is negative, the locked balance covers every open withdrawal and the pending balance every unsettled support, so the insufficiency checks cannot fail |
| `Conservation.WalletConserves` | api/src/wallet/wallet-balance.service.ts:37-136 | a wallet's total earned is its available, pending and locked balance plus what was paid out |
| `Conservation.MoneyIsConserved` | api/src/wallet/wallet-accounting.service.ts:73-315 | over every run, gross captured = fees + all wallet balances + completed payouts |
| `Conservation.TrialBalanceIsZero` | api/src/wallet/wallet-accounting.service.ts:278-356 | over every run the six accounts sum to zero, every batch is balanced, and the control accounts hold the captured amounts, the fees and the payouts |
| `Reconciliation.ExpectedFromEntries` | api/src/wallet/wallet-reconciliation.service.ts:225-247 | the accumulating loop computes, per account, the signed sum of the entries |
| `Reconciliation.FoldIsJournal` | api/src/wallet/wallet-reconciliation.service.ts:225-247 | the fold of a wallet's selected entries, in whatever order they arrive, is the wallet's balance in the whole journal |
| `Reconciliation.MismatchFields` | api/src/wallet/wallet-reconciliation.service.ts:270-291 | each field is listed iff it differs, and nothing is listed iff the balances are equal |
| `Reconciliation.BuildReport` | api/src/wallet/wallet-reconciliation.service.ts:127-202 | the report has one row, in order, for each checked wallet whose columns differ from its journal, for any order of the fetched entries |
| `Reconciliation.ReportIsComplete` | api/src/wallet/wallet-reconciliation.service.ts:164-195 | a checked wallet has a row iff its columns differ from its journal, one row each in the order of the wallets; every row carries the wallet's columns, journal and latest snapshot and lists exactly the fields in which columns, or snapshot, and journal differ |
| `Reconciliation.RecordsAgree` | api/src/wallet/wallet-reconciliation.service.ts:127-247 | in every reachable state the columns, the fold of the entries in any order, the latest snapshot and the closed form by status are equal and non-negative, so every report is empty |
| `Orders.PreparedIff` | api/src/support/support-validation.service.ts:59-242 | a wish is accepted iff creator, reward, campaign, link, poll and option exist, belong together and are open, the supporter is signed in where needed and the reward neither sold out nor owned, and a feature request has a message; the order is exactly what was wished, at the price of the reward, the poll or the number of coffees |
| `Orders.RefusalIsTrue` | api/src/support/support-validation.service.ts:67-205 | each error of the validation names something that does stand against the wish |
| `Orders.OrderIsStored` | api/src/support/support.service.ts:65-103 | placing an order adds one pending row with the creator, amount, supporter, reward, vote, campaign and link of the order, a fee of five per cent to the nearest cent and the rest as the net amount, and changes nothing else; it is possible iff the rows it refers to exist |
| `Orders.EverySupportWasOrdered` | api/src/support/support.service.ts:65-103 | every support of every run was placed by one step of the run and still carries what that order said, fee and net included |
| `Orders.RevenueIsFivePercent` | api/src/support/support-validation.service.ts:222-223 | after every run the revenue account holds five per cent of what was captured, up to half a cent for each applied support |
| `Confirmations.CallOpensIff` | api/src/support/support.service.ts:130-200 | a verify call is opened iff its support exists and is not completed, with the answer for each other case; a webhook iff its reference is new |
| `Confirmations.SnapshotTakenIff` | api/src/support/support.service.ts:206-217 | the call ends for a missing, failed or applied support, with its own reply for each, and else keeps the row as it is |
| `Confirmations.UselessAnswer` | api/src/support/support.service.ts:219-241 | wrong details and an unreachable provider end the call in their error and change nothing else |
| `Confirmations.FailureAnswer` | api/src/support/support-payment.service.ts:106-144 | the answer that a payment failed writes the failed status of a support that was pending when read, or nothing, and touches no wallet, book, perk or event |
| `Confirmations.SuccessReply` | api/src/support/support-payment.service.ts:146-212 | the answer that a payment succeeded is confirmed iff the support was pending when read, is not applied, and its reward is on, not sold out and not owned; each other reply has exactly its own cause and writes nothing |
| `Confirmations.OnlyVerifiedAmountsCount` | api/src/support/support.service.ts:219-249 | a payment is confirmed iff the provider reports a success for its own reference, in birr and over exactly the amount of the order, and nothing else stands against it; another amount or currency ends in the conflict |
| `Confirmations.ConfirmationWrites` | api/src/support/support-payment.service.ts:146-212 | a confirmation writes exactly the paid row due after the hold days, the creator's pending balance and earnings, one wallet transaction, one batch of three entries, the platform's earning, the reward and the vote ordered, and two fresh events |
| `Confirmations.AppliedIffConfirmed` | api/src/support/support.service.ts:219-271 | after every run a support is applied iff some step of the run was a successful answer of the provider to a call for it, and its reply a confirmation |
| `Confirmations.ConfirmedOnce` | api/src/support/support-transition.service.ts:62-118 | no two steps of a run confirm the same support |
| `Confirmations.HoldIsKept` | api/src/support/support-payment.service.ts:153-158 | after any further steps the support is still dated at the confirmed payment and due exactly its hold days, of 86,400,000 milliseconds each, later |
| `Confirmations.SettlementWrites` | api/src/support/support-settlement.service.ts:85-130 | a settlement releases iff the support is completed, held, credited and due and its wallet on; then the net amount goes from pending to available in wallet and books, and else nothing changes |
| `Confirmations.ReleasedAfterHold` | api/src/support/support-settlement.service.ts:60-104 | after every run the money of a support is released iff some settlement released it, and that came no earlier than the hold days after the confirmed payment |
| `Payments.PostingsMirrorStatus` | api/src/wallet/wallet-accounting.service.ts:317-355 | each movement has exactly one batch and exactly one wallet transaction if the status says it happened, and none otherwise |
| `Payments.AppliedAtMostOnce` | api/src/support/support-payment.service.ts:146-212 | a support is confirmed to exactly one call if it is applied, with exactly one credit, capture batch, projection and Telegram event, unlock and vote where ordered; at most one webhook call per reference is admitted |
| `Payments.PerksAreExact` | api/src/support/support-reward.service.ts:7-52 | claimed counts equal unlocks and never exceed the limit, nobody unlocks a reward twice, an option's votes equal its paid votes |
| `Payments.ApplyFailsIff` | api/src/support/support-payment.service.ts:163-205 | applying a payment throws iff the snapshot is not pending, or the support is unapplied and its reward is off, sold out or already owned; no other throw on the way is reachable |
| `Refusals.DeniedForever` | api/src/support/support-reward.service.ts:21-42 | a support whose reward is sold out or owned by its supporter is not applied by any later run, whatever the provider answers and however many calls try |
| `Refusals.DeniedCallRaises` | api/src/support/support-payment.service.ts:163-178 | every call that is told such a payment succeeded ends in an error and changes neither supports nor wallets |
| `Refusals.ApplicableIff` | api/src/support/support-reward.service.ts:21-42 | some run applies a pending support iff its reward is neither sold out nor owned by its supporter |
| `Refusals.RaceIsReachable` | api/src/support/support-validation.service.ts:188-207 | from the empty database two validated orders of two registered supporters for one unit are both paid, and the second call ends with the reward no longer available |
| `Webhooks.AdmissionIff` | api/src/support/support.service.ts:130-168 | after any run a webhook is admitted iff it is the first for its reference, answered as a duplicate iff the first ended without throwing and its event was closed, and refused otherwise |
| `Webhooks.StuckForever` | api/src/support/support.service.ts:140-178 | after a first webhook that threw, in every later run each further webhook for the reference is refused, and a call to which the payment is confirmed is a verify call |
| `Webhooks.StuckIsReachable` | api/src/support/support.service.ts:157-178 | a run of six steps from the empty database gets a first webhook stuck |
| `Payments.PreparedStaysPlaceable` | api/src/support/support-validation.service.ts:59-242 | validation yields an order for the creator's own existing rows, a reward or a vote but not both, at the price asked, and for a registered supporter or nobody it can be inserted after any further run |
| `Payments.RunMarches` | api/src/support/support-transition.service.ts:62-118 | over every run the order of a support never changes, the application mark and what was written with it stay, and a settled support stays settled, although its status is not monotone |
| `Payments.FailureStrandsIff` | api/src/support/support-transition.service.ts:36-59 | marking a payment failed strands a credited support iff the support is applied and unsettled while the snapshot still says pending |
| `Payments.StrandedForever` | api/src/support/support-settlement.service.ts:60-104 | no later run settles a stranded support; the pending balance keeps covering its net amount |
| `Payments.StrandingIsReachable` | api/src/support/support-payment.service.ts:106-144 | a concrete run of one verify and one webhook call strands a support |
| `Payments.RipeIffNotStranded` | api/src/support/support-settlement.service.ts:61-69 | an applied, held and due support is picked up by settlement iff it is not stranded |
| `Fees.FeeIsNearest` | api/src/support/support-validation.service.ts:215-223 | no whole cent is nearer to five per cent than the fee, it is off by at most half a cent, apart from an exact tie it is the only such cent, and 0 <= fee <= amount, so fee and net split the amount exactly |
| `WithdrawalProofs.NormalizeIsExact` | api/src/wallet/wallet.service.ts:52-65 | a finite amount is accepted with a given number of cents iff it is positive and its machine product with 100 is within 1e-8 of that number, for any rounding of the product by less than half a cent |
| `WithdrawalProofs.ProductIsClose` | api/src/wallet/wallet.service.ts:57-58 | a double-precision product rounds by less than that for amounts up to forty trillion |
| `WithdrawalProofs.AcceptedIsEnough` | api/src/wallet/wallet.service.ts:53-55 | only finite positive amounts are accepted, and one that passes the minimum is at least ten thousand cents however the product was rounded |
| `Texts.NormalizedIsTrimmed` | api/src/wallet/wallet.service.ts:67-69 | a note is dropped iff it is missing or blank; else it is kept without the white space at its ends, and normalizing again changes nothing |
| `WithdrawalProofs.LatestIsOnly` | api/src/wallet/wallet.service.ts:795-803 | with at most one status audit on record, the latest one is that one, whatever the timestamps |
| `WithdrawalProofs.TrailGrows` | api/src/wallet/wallet.service.ts:950-979 | the audit written with an accepted change extends the trail to the one the new status calls for |
| `Requests.AcceptedIff` | api/src/wallet/wallet.service.ts:172-231 | a request is accepted iff amount, user, identity and account are in order and its key belongs to the same request, or is new and the wallet is on and covers it; each error has exactly its own cause |
| `Requests.RequestWrites` | api/src/wallet/wallet.service.ts:227-274 | an accepted request with a new key adds exactly one pending withdrawal with the user, amount, channel, account, note and key of the request and locks its amount in wallet and books; one with a bound key returns that withdrawal and changes nothing |
| `Requests.RepeatReturnsTheSame` | api/src/wallet/wallet.service.ts:199-225 | after an accepted request with a key and any further run, the same request is accepted again, returns the same withdrawal and changes nothing |
| `Engine.FindByKey` | api/src/wallet/wallet.service.ts:200-214 | finds a withdrawal of this user with this key if there is one, and none otherwise |
| `Withdrawals.TableMatchesGuards` | api/src/wallet/withdrawal-transition.service.ts:4-75 | each timestamp is set iff the status says so, and the transition table accepts exactly the rows that the conditional updates match |
| `Withdrawals.UpdateFailsOnlyIf` | api/src/wallet/wallet.service.ts:780-827 | a status change fails only for a missing actor or row, a repeated or disallowed status, or the maker acting as checker; a processing withdrawal is refused to its maker only |
| `Withdrawals.StepProgresses` | api/src/wallet/withdrawal-transition.service.ts:24-75 | any step leaves a withdrawal alone or advances it along the table, its terms unchanged |
| `Withdrawals.FinalIsForever` | api/src/wallet/wallet.service.ts:786-793 | a completed or rejected withdrawal never changes in any later run |
| `Withdrawals.MakerIsNotChecker` | api/src/wallet/wallet.service.ts:795-827 | every finalized withdrawal has exactly two status audits, processing then final, by different actors; while processing, the latest audit is the processing one |
| `Withdrawals.KeyNamesOneWithdrawal` | api/src/wallet/wallet.service.ts:199-225 | in every reachable state a user's idempotency key belongs to at most one withdrawal |
| `Withdrawals.ResubmissionIsInert` | api/src/wallet/wallet.service.ts:71-97 | resubmitting a used key changes nothing; it returns the owner of the key, and only if amount, method, account and note are the same |
| `Withdrawals.DuplicatesLeaveNoTrace` | api/src/wallet/wallet.service.ts:172-274 | dropping all resubmissions from any run leads to the same state |
| `StatusChanges.UpdateSucceedsIff` | api/src/wallet/withdrawal-transition.service.ts:4-22 | a status change succeeds iff actor and withdrawal exist, the change is pending to processing or processing to completed or rejected, and the one who started it does not also finish it; each error has exactly its own cause |
| `StatusChanges.UpdateWrites` | api/src/wallet/wallet.service.ts:829-1004 | a successful change writes the status with its timestamps, one audit with its actor and both statuses, and for a final status takes the amount out of the locked balance, in wallet and books; an unsuccessful one writes nothing |
| `StatusChanges.CanBeFinalized` | api/src/wallet/wallet.service.ts:758-1004 | in every safe state any two different users can take any pending withdrawal to completed or to rejected, with the balances that follow |
| `StatusChanges.PresentIff` | api/src/wallet/wallet.service.ts:720-723 | blank ids are dropped from the selection, and no others |
| `StatusChanges.BulkWrites` | api/src/wallet/wallet.service.ts:725-732 | in any serialization order a bulk request writes exactly the withdrawals that a single update could have moved |
| `StatusChanges.FailuresAreTrue` | api/src/wallet/wallet.service.ts:734-756 | the report lists, in the order of the ids, each id that was given up or could not have been moved alone, with its true reason, and no other |
| `FullCycle.PayoutIsReachable` | api/src/wallet/wallet.service.ts:758-1004 | a run from the empty database takes a support of two hundred birr from the order over payment, hold and request to a completed payout of a hundred and fifty |
| `Bulk.Unique` | api/src/wallet/wallet.service.ts:720-723 | the ids without repetition, none lost and none added |
| `Bulk.OutcomesAreIndependent` | api/src/wallet/wallet.service.ts:725-732 | wherever an id comes in the serialization, its update ends as it would have ended alone |
| `Bulk.OrderDoesNotMatter` | api/src/wallet/wallet.service.ts:716-756 | every serialization order of the updates leads to the same withdrawals and the same wallets |
| `SettlementPass.NothingEarly` | api/src/support/support-settlement.service.ts:88-103 | a settlement changes at most its own support, from held to available, and not before it is due |
| `SettlementPass.PassReleasesPayable` | api/src/support/support-settlement.service.ts:83-144 | a pass releases exactly the items of its batch whose wallet is active, and counts them |
| `SettlementPass.PassReleasesAll` | api/src/support/support-settlement.service.ts:83-144 | with all wallets active a pass releases its whole batch and nothing else; the inconsistency check never fails |
| `SettlementPass.PassTakesEarliest` | api/src/support/support-settlement.service.ts:60-81 | with limit L and M matured supports a pass releases min(L, M), and of those due by any earlier cutoff it takes L, or all |
| `SettlementPass.PassesDrain` | api/src/support/support-settlement.service.ts:60-144 | the supports due by a cutoff shrink by L with every pass, so ceil(M / L) passes leave none |
| `SettlementPass.DrainedUnlessStranded` | api/src/support/support-settlement.service.ts:61-69 | when none is left, every applied support due by the cutoff is settled or stranded |
| `SettlementPass.PassIsIdleIff` | api/src/support/support-settlement.service.ts:85-141 | a pass releases nothing iff no item of its batch has an active wallet, and then changes nothing |
| `Starvation.PassesDrainOwed` | api/src/support/support-settlement.service.ts:60-144 | with k blocked supports (wallet switched off) due by a cutoff and a limit L of at least k, n passes release n * (L - k) of the payable ones due by then, or all of them |
| `Starvation.EveryPassIdlesIff` | api/src/support/support-settlement.service.ts:68-69 | every batch the query may return releases nothing iff before each payable matured support at least L blocked ones are due |
| `Starvation.SomePassIdlesIff` | api/src/support/support-settlement.service.ts:68-69 | some batch the query may return releases nothing iff before each payable matured support, or at the same time, at least L blocked ones are due |
| `Starvation.PassesStarve` | api/src/support/support-settlement.service.ts:60-144 | a payable support behind at least L blocked ones that are due earlier is left untouched by any number of passes, whatever else they release |
| `Starvation.ReleasableIff` | api/src/support/support-settlement.service.ts:60-144 | some schedule of passes releases a payable matured support iff fewer than L blocked ones are due before it |
| `Starvation.SurelyReleasedIff` | api/src/support/support-settlement.service.ts:60-144 | every schedule of passes, one for each payable support due by then, releases it iff fewer than L blocked ones are due before it or at the same time |
| `Starvation.StarvedForever` | api/src/support/support-settlement.service.ts:60-144 | once something is payable and every batch is idle, no number of passes at whatever later times changes anything |
| `Starvation.StarvationIsReachable` | api/src/support/support-settlement.service.ts:60-144 | for every limit L a run of registrations, L supports of one creator, a later one of another, and a switched-off wallet leads from the empty database to such a state |
| `OutboxSteps.ColumnsChangeIff` | api/src/support/support-outbox-processor.service.ts:45-192 | deliveries, processed mark and claim of an event change at exactly these steps and to these values: an accepted send, a recorded notification or projection, a successful claim, a catch block |
| `OutboxSteps.HoldsChangeIff` | api/src/support/support-outbox-processor.service.ts:45-192 | a worker holds an event iff its claim found it unprocessed and unclaimed or claimed before its bound, and until it records, gives up or finds it processed |
| `OutboxSteps.FreshRunReads` | api/src/support/support-outbox-processor.service.ts:25-43 | a new run reads the oldest events, at most fifty, that are unprocessed and not claimed within the last 300,000 milliseconds, and changes none |
| `Lease.OwnershipIff` | api/src/support/support-outbox-processor.service.ts:45-64 | while an event has at most one holder, a step ends that iff it is a claim of what a worker holds by a claim that is stale for the claimant, or the catch block of a claim that threw |
| `Lease.DeliveryIff` | api/src/support/support-outbox-processor.service.ts:170-192 | while an event is accepted at most once and not open for another send, an undisturbing step ends that iff it gives the event up between an accepted send and its record |
| `Lease.OneHolderIff` | api/src/support/support-outbox-processor.service.ts:25-64 | throughout a run an event has at most one holder iff no step of the run steals it or frees it under its holder, for any number of overlapping processor runs |
| `Lease.DeliveredOnceIff` | api/src/support/support-outbox-processor.service.ts:110-192 | and it is moreover accepted at most once and never open for a second send iff in addition no worker gives it up after an accepted send |
| `Lease.OneHolderAtATime` | api/src/support/support-outbox-processor.service.ts:25-64 | if no claim outlives five minutes, an event has at most one holder at any time iff no claim that throws frees it |
| `Redelivery.SecondDelivery` | api/src/support/support-outbox-processor.service.ts:110-192 | from the state that a steal, a freeing or a forgotten send of a Telegram event leaves, some further steps of the workers get it accepted a second time |
| `Redelivery.WindowIsExact` | api/src/support/support-outbox-processor.service.ts:12-26 | a run from the empty database in which no claim is older than five minutes and one millisecond gives an event two holders and goes on to deliver it twice |
| `Redelivery.SentAgain` | api/src/support/support-outbox-processor.service.ts:170-192 | a run from the empty database in which no time passes and every event has one holder delivers a notification twice |
| `Redelivery.FreedUnderHolder` | api/src/support/support-outbox-processor.service.ts:46-124 | two runs read the same batch, one claims an event and the claim of the other throws: a run from the empty database in which no time passes frees the event under its holder and goes on to deliver it twice |
| `OutboxProofs.ProjectionCounts` | api/src/support/support-projection.service.ts:78-96 | projecting one unprocessed event moves revenue and conversions of its campaign and its link by what the event is worth, and no other counter |
| `Projections.CountersCountEachOnce` | api/src/support/support-projection.service.ts:78-96 | revenue and conversions of every campaign and every deep link are sums over supports in which each counts once, iff its projection event is processed |
| `Projections.CountersAreExact` | api/src/support/support-projection.service.ts:78-96 | revenue and conversions of campaigns and links equal the sums over processed projection events, and exactly the applied supports have one event of each kind |
| `Projections.ProcessedStaysProcessed` | api/src/support/support-outbox.service.ts:41-49 | over every run no event disappears, changes what it is for, or becomes unprocessed again |
| `Retry.RunSerializable` | api/src/wallet/wallet.service.ts:106-126 | returns iff exactly one of the attempts made committed, and it is the last; retries only after serialization failures, at most the given number of times; the trailing error needs a limit of zero |
| `Names.Pigeonhole` | api/src/auth/auth.service.ts:730-739 | if every candidate of a range of distinct candidates is taken, the range is no longer than the number of taken names |
| `Names.SuffixIsBounded` | api/src/auth/auth.service.ts:737-738 | with n taken names the username loop never tries a suffix beyond 10^(d-1) + n, d being the least digit length with more than n numerals |
| `Names.SuffixIsShort` | api/src/auth/auth.service.ts:737-738 | with fewer than 9 * 10^c taken names every suffix tried has at most c + 1 digits |
| `Names.CandidatesCoincideIff` | api/src/auth/auth.service.ts:737-738 | candidates with suffixes of different lengths are the same string iff the longer suffix is the shorter one behind the characters of the base that it displaces |
| `Names.UsernamesDiffer` | api/src/auth/auth.service.ts:737-738 | candidates with suffixes of equal length differ |
| `Names.CandidatesCanCoincide` | api/src/auth/auth.service.ts:726-738 | a preferred name of twenty characters is its own base, and its candidates for suffixes 2 and 12 are the same string |
| `Names.SanitizedIsWord` | api/src/auth/auth.service.ts:742-749 | a sanitized name has 3 to 20 word characters and does not start with an underscore |
| `Names.GenerateTelegramUsername` | api/src/auth/auth.service.ts:721-740 | the loop ends with a free name, the base or the first free candidate, of at most twenty characters while fewer than 9 * 10^16 names are taken |
| `Names.SanitizedIsCore` | api/src/auth/auth.service.ts:742-749 | a preferred name becomes its replacement without the underscores at the ends, cut to twenty characters, if three or more are left, and else nothing |
| `Names.ReplacedInPlace` | api/src/auth/auth.service.ts:744 | letters, digits and underscores stay in their places, and every other character of the basic plane becomes an underscore |
| `Names.SluggedInPlace` | api/src/creator/creator.service.ts:673-676 | slug characters stay in their places, capitals become small letters and everything else a dash, for text without the three special cases of lower-casing |
| `Names.NumeralReads` | api/src/creator/creator.service.ts:686 | a suffix consists of digits without a leading zero and reads back as its number |
| `Names.SluggingIsIdempotent` | api/src/creator/creator.service.ts:673-676 | sanitizing yields slug characters within the limit and leaves its own results alone |
| `Names.FirstFreeSlug` | api/src/creator/creator.service.ts:677-687 | the loop ends with a free slug, the base or the first free candidate, after at most n + 2 lookups when n are taken |
| `Names.GenerateUniqueSlug` | api/src/creator/creator.service.ts:672-688 | a free slug of slug characters from the sanitized text, of at most thirty characters while fewer than 99 are taken |
| `Names.GenerateUniqueDeepLinkSlug` | api/src/creator/creator.service.ts:715-734 | the same for deep links, of at most ninety characters while fewer than 999 are taken |
| `Services.Store.ReserveWithdrawalFunds` | api/src/wallet/wallet-balance.service.ts:11-35 | moves the amount from available to locked if the wallet is active and covers it, else changes nothing |
| `Services.Store.CreditPending` | api/src/wallet/wallet-balance.service.ts:37-57 | adds the amount to pending and to total earned |
| `Services.Store.SettlePending` | api/src/wallet/wallet-balance.service.ts:59-83 | moves the amount from pending to available if the wallet is active and covers it, else changes nothing |
| `Services.Store.ReleaseLocked` | api/src/wallet/wallet-balance.service.ts:85-136 | takes the amount out of locked, back to available or not, behind the snapshot and insufficiency checks |
| `Services.Store.CreateWalletTransaction` | api/src/wallet/wallet-ledger.service.ts:29-95 | appends the snapshot unless its key is on record, which it accepts silently |
| `Services.Store.CreatePostingBatch` | api/src/wallet/wallet-accounting.service.ts:278-356 | refuses entries whose debits and credits differ; else appends the batch unless its key is on record |
| `Services.Store.Record` | api/src/wallet/wallet-accounting.service.ts:73-276 | posts the entries of each of the five movements; a capture with gross other than net plus fee is refused |
| `Services.Store.RequestWithdrawal` | api/src/wallet/wallet.service.ts:172-274 | exactly the engine's request, result and error included, and the invariant is kept; an error leaves every table as it was |
| `Services.Store.MoveToProcessing` | api/src/wallet/withdrawal-transition.service.ts:24-47 | updates the row iff it is pending and unmarked, and says how many rows it updated |
| `Services.Store.Finalize` | api/src/wallet/withdrawal-transition.service.ts:49-75 | updates the row iff it is processing and not processed, with the timestamp that belongs to the final status |
| `Effects.FinalFacts` | api/src/wallet/withdrawal-transition.service.ts:33-65 | in a safe state a pending withdrawal matches the conditional update, and a processing one matches its own, is covered by the locked balance, and has neither payout nor release on record |
| `Services.Store.CheckStatusChange` | api/src/wallet/wallet.service.ts:780-827 | all checks in the order of the source, with the engine's verdict; the checks that repeat the transition table add nothing |
| `Services.Store.UpdateWithdrawalStatus` | api/src/wallet/wallet.service.ts:758-1004 | exactly the engine's status change, error included, and the invariant is kept; an error leaves every table as it was |
| `Services.Store.BulkUpdateWithdrawals` | api/src/wallet/wallet.service.ts:716-756 | for any serialization order and any set of updates given up after failing to serialize, succeeded + failed = requested = number of distinct ids, and the failed list is what each id would have given alone, or that it was given up |
| `Effects.SettleFacts` | api/src/support/support-settlement.service.ts:87-130 | in a safe state a ripe support is covered by the pending balance and has no settlement on record, so settling it fails iff the wallet is inactive |
| `Services.Store.SettleSupport` | api/src/support/support-settlement.service.ts:87-130 | exactly the engine's settlement of one support, result and error included |
| `Services.Store.ReleaseMaturedSupports` | api/src/support/support-settlement.service.ts:83-144 | the loop ends in the state and with the count of the pass, failing items skipped |
| `Services.Store.CreateSupport` | api/src/support/support.service.ts:65-103 | inserts the pending support with the fee split of the draft |
| `Services.Store.MarkPaymentCompleted` | api/src/support/support-transition.service.ts:62-118 | checks the snapshot's statuses, then compares and sets the application mark of the row |
| `Services.Store.MarkPaymentFailed` | api/src/support/support-payment.service.ts:106-144 | writes the failed status on the word of the snapshot alone |
| `Services.Store.ApplyRewardEntitlements` | api/src/support/support-reward.service.ts:7-52 | claims iff the reward is active and not sold out and no unique key of the unlock is taken, with the error of each other case; the claim count ends as the number of unlocks |
| `Services.Store.RecordPaidVote` | api/src/support/support-poll.service.ts:7-41 | counts and records one vote, unless this support has voted or the option is missing; every error leaves counts and votes alone |
| `Services.Store.CreditPendingSupport` | api/src/support/support-wallet.service.ts:13-52 | credits the pending balance, appends its snapshot unless it is on record, and sets the platform earning; a missing wallet or a negative balance is refused |
| `Services.Store.EnqueuePaymentCompleted` | api/src/support/support-outbox.service.ts:12-83 | upserts the projection and the Telegram event, an existing one being reopened |
| `Effects.EnqueueInserts` | api/src/support/support-outbox.service.ts:41-80 | for a support without events, which every support applied in a reachable state is at that moment, both upserts insert and nothing is reopened |
| `Effects.ApplyFacts` | api/src/support/support-payment.service.ts:163-205 | an unapplied support has left no wallet transaction, batch, unlock, vote or event, so no uniqueness check can fail on its own account |
| `Services.Store.ApplyCompletedPayment` | api/src/support/support-payment.service.ts:146-212 | exactly the engine's application, result and error included, for any snapshot of the same order; an error leaves every table as it was |
| `Services.Store.HandleWebhook` | api/src/support/support.service.ts:130-155 | admits the first webhook for a reference and no other; a later one is told it was processed, or refused while it was not |
| `Services.Store.VerifyAndComplete` | api/src/support/support.service.ts:181-200 | opens a verify call unless the support is missing or already completed |
| `Services.Store.GetSupportForPayment` | api/src/support/support.service.ts:206-217 | the call takes its snapshot, or ends if the support is missing, failed or applied |
| `Services.Store.ProcessPayment` | api/src/support/support.service.ts:219-271 | the provider's answer is judged by status, reference, currency and amount in the order of the source, and fails, refuses or applies the payment from the snapshot; the call ends with that reply |
| `Services.Store.CloseWebhookEvent` | api/src/support/support.service.ts:157-178 | the webhook event is marked processed iff the call did not throw |
| `Services.Store.QueryBatch` | api/src/support/support-outbox-processor.service.ts:27-43 | reads the oldest claimable events, at most fifty, oldest first; the run may then claim these and no others |
| `Services.Store.ClaimEvent` | api/src/support/support-outbox-processor.service.ts:47-64 | claims the event iff it is unprocessed and unclaimed or claimed before the run's stale bound |
| `Services.Store.ApplyPaymentCompletedProjection` | api/src/support/support-projection.service.ts:78-96 | adds the gross amount and one conversion to the campaign and to the link of the support, and to nothing else |
| `Services.Store.ProjectEvent` | api/src/support/support-outbox-processor.service.ts:71-109 | moves the counters and marks the event processed, or neither if it is processed already |
| `Services.Store.InspectEvent` | api/src/support/support-outbox-processor.service.ts:129-143 | the re-read says whether the event still waits; if not, the worker lets go |
| `Services.Store.NotifyCreator` | api/src/support/support-outbox-processor.service.ts:170-176 | the send leaves the row's claim and processed mark alone, and the worker goes on to record the answer |
| `Services.Store.FinishDelivery` | api/src/support/support-outbox-processor.service.ts:184-192 | the update after success or a final refusal marks the event processed |
| `Services.Store.ReleaseEvent` | api/src/support/support-outbox-processor.service.ts:110-125 | a throw frees the event again without looking at the row |
| `Services.Store.ResetEvent` | api/src/support/support-outbox-processor.service.ts:110-125 | a claim that throws frees the event too, although this worker holds nothing |
| `Services.Store.ProcessTelegramEvent` | api/src/support/support-outbox-processor.service.ts:129-193 | re-read, send, record or give up, in this order, each where the state machine allows it, with any steps of others between |
| `Services.Store.ProcessEvent` | api/src/support/support-outbox-processor.service.ts:45-126 | with any steps of others between its own, the worker takes exactly the steps of handling the event, up to a failed claim or a re-read that finds it done; undisturbed, the event ends processed or free and no other event changes |
| `Services.Store.ProcessPendingEvents` | api/src/support/support-outbox-processor.service.ts:25-127 | with any steps of others between its own, a run claims nothing but its batch, takes each step where the state machine allows it, and holds nothing in the end; undisturbed, exactly the fifty oldest claimable events, or all, are handled |

## Left out

- Fees.FeeIsNearest: the source rounds a binary floating-point product; the model rounds the exact value and lets an exact tie go either way, and prices are whole cents.
- WithdrawalProofs.NormalizeIsExact: from 10^21 on the source prints amounts in exponent form; such amounts are not treated apart.
- Services.Store.RequestWithdrawal: identity verification and "active account of this user" are inputs of the request.
- Services.Store.Record: one method for the five builders of the source; provider transactions, descriptions and metadata are not modelled.
- Services.Store.ReleaseLocked: one method for completing and rejecting, which differ in one line.
- Services.Store.ApplyPaymentCompletedProjection: only the revenue and conversion counters; supporter totals, feature requests, notifications and fan badges are not modelled, and equality of supporter totals with distinct supporters is not true of the code.
- Services.Store.HandleWebhook: signature check, parsing and the missing-reference error are not modelled.
- Refusals.ApplicableIff: that a reward is switched on or off is a step of the environment, as no service of the repository performs it; the half that applies a pending order may need such a step.
- Starvation.StarvationIsReachable: a wallet is switched off by the environment too; no service of the repository performs it.
- Lease.OneHolderIff: all workers share one clock, and a catch block whose own update fails just leaves the claim in force.
- Reconciliation.BuildReport: wallets and wallet transactions come in the order of insertion; ties and skew of database timestamps are not modelled.
- Names.GenerateTelegramUsername: the taken names do not change during the loop, and numerals are exact beyond 2^53.
- Names.GenerateUniqueSlug: the taken slugs do not change during the loop.
- Payments.PreparedStaysPlaceable: what the catalogue tables answer (publication, ownership, prices, open polls) is an input of the validation.
- Settlement and payment statuses that no code writes (reserved, paid out, refunded) exist in the model and stay unreached.
- Isolation: each transaction is one atomic step; the read-committed anomalies of transactions that are not serializable are not modelled beyond the stale snapshot.
- Chapa and Telegram calls are nondeterministic: any status, reference, currency and amount, or no answer; accepted, refused, or thrown.
- Payment attempts, provider transactions, notifications, admin notes and payout batches carry no balance and are left out.
- Listing, search, dashboards, metrics, escalation of mismatches, sessions, account masking and the front end are left out as easy or foreign.
