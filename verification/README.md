# The money of a donation platform, modelled in Dafny

Podkrepi.bg keeps the donations, withdrawals and transfers of its campaigns as rows in a database, and the balances of
the campaigns' vaults beside them. The balances are changed by independently written services: provider events, bank
imports, administrators, withdrawals, transfers. No code checks that they still agree with the rows. This project
models those services and proves that they do, and that the protocols around them are safe: finalizing an IRIS
payment, converting Stripe subscriptions to another currency, single-use payment sessions.

How it is built:

- `Ledgers` gives the tables as one value and each service call as a function from tables to tables or an error.
  `Databases` has the services themselves, as methods that write a class's tables step by step; each is proved to
  leave exactly what its function says, or to throw and leave the tables alone.
- Which row a `findFirst` returns and which id a new row gets are choices of the database. They are fields of `Op`, and
  every theorem holds for every choice.
- A run is any sequence of calls. Each interactive database transaction is one step. `Overlaps` takes the withdrawal and
  transfer calls and the invalidation apart, because they read outside their transaction, and a removal writes in two
  statements.
- What a vault is off its records is a `Drift`. Every call has one, spelled out in `DriftOf`, and the laws of the books
  follow from it, for runs that start anywhere.
- `Conversions` and `IrisPay` are state machines whose steps are single calls to the database, to Stripe or to IRIS,
  interleaved with anything else the environment may do. `StripeServices` has the conversion as the service runs it,
  with a fault possible at each external call, and webhooks and new subscriptions between any two of them.
- Amounts are unbounded integers (cents), rates and fees exact decimals, and `Math.round(x)` is the floor of `x + 1/2`.

Where the code does not do what it seems meant for, the code is kept, a lemma says exactly when it does, and
`Failures` and `ConversionFailures` have a concrete case:

- A succeeded event for a succeeded payment rewrites the amount and leaves the vault alone, an update that settles a
  transfer and changes its target at once pays the old one, and a withdrawal created in a final status blocks money for
  good (`FaithfulExactly`, `StepKeepsBooksExactly`).
- Settling a transfer and removing a succeeded withdrawal raise a balance without the check that completes a campaign
  (`StepStaysOnTargetExactly`).
- Two settlements of the same request that overlap both move the money (`OverlapsKeepBooksExactly`,
  `LateWithdrawalUpdateExactly`, `LateTransferUpdateExactly`), and a reservation whose room is gone when it is written
  overdraws (`LateWithdrawalExactly`, `LateTransferExactly`).
- An invalidation reads its payment outside its transaction: two that overlap debit the vault twice, and one that
  overlaps the money's arrival leaves it in the vault (`LateInvalidationExactly`).
- A removal that stops between its two statements leaves the vault wrong (`BooksExactlyWithoutRemovals`).
- A refund webhook that overtakes its payment is dropped, so delivery order does matter behind it
  (`WebhookOrderIrrelevantExactly`).
- A batch increment skips vaults whose balance does not exceed the increment (`BatchMatchesEachExactly`).
- A payment session is consumed twice if its second request is held up past the token's expiry and a purge
  (`SingleUseExactly`).
- A conversion that crashed after creating the new subscription and is run again, or overlaps another, leaves the other
  new subscription live in Stripe (`EveryCreationStaysLive`); a late created or updated event of the old subscription
  adds a second record (`LateEventAddsARecordExactly`).

The hypotheses the theorems rest on are predicates: `Conservation.WellFormed`, `IsPositive` and, for balanced books,
`IsFaithful` for the ledger, `Overlaps.IsProper` for overlapping calls, `Conversions.Undisturbed` for the conversion,
`IrisPay.Enabled` for IRIS.

## Model

| member | source | states |
|---|---|---|
| `PaymentStatuses.StatusPolicy` | apps/api/src/donations/helpers/donation-status-updates.ts:4-60 | The unhandled-change error is unreachable; a change is allowed exactly if the status is kept, goes from succeeded to refund, or goes from initial, incomplete, payment requested, waiting, declined or guaranteed to anything but initial; the rank never falls |
| `PaymentStatuses.Ranks` | apps/api/src/donations/helpers/donation-status-updates.ts:4-17 | The rank tells initial, undecided, decided and refunded statuses apart, each by its name |
| `PaymentStatuses.OutcomeFromKinds` | apps/api/src/donations/helpers/donation-status-updates.ts:40-60 | Whether a payment ends up succeeded is told by the set of delivered kinds alone, for any order and repetition |
| `PaymentStatuses.OrderIrrelevantExactly` | apps/api/src/donations/helpers/donation-status-updates.ts:40-60 | Order and repetition matter for exactly these deliveries: an undecided payment, money arrived, no refund, and another final event |
| `PaymentStatuses.ContradictoryOrders` | apps/api/src/donations/helpers/donation-status-updates.ts:40-60 | For each such delivery there are two orders with different outcomes |
| `PaymentStatuses.WebhookOutcome` | apps/api/src/stripe/events/stripe-payment.service.ts:156-212 | Behind the refund webhook exactly the refunds before the first other event are lost; a payment ends up paid exactly if the rest of the events say so |
| `PaymentStatuses.WebhookIsServiceOnceKnown` | apps/api/src/stripe/events/stripe-payment.service.ts:156-212 | Once the payment is known the webhook changes nothing about the service's answer |
| `PaymentStatuses.WebhookOrderIrrelevantExactly` | apps/api/src/stripe/events/stripe-payment.service.ts:156-212 | Behind the refund webhook, order and repetition of an unknown payment matter for exactly the deliveries in which money arrived and any other final event came, a refund included; for a known payment exactly as for the service |
| `PaymentStatuses.PaidDelivery` | apps/api/src/stripe/events/stripe-payment.service.ts:168-177 | Every such set has a delivery that ends paid: its refunds first, which are dropped |
| `PaymentStatuses.UnpaidDelivery` | apps/api/src/stripe/events/stripe-payment.service.ts:168-177 | and one that does not |
| `PaymentStatuses.WebhookOrderMatters` | apps/api/src/stripe/events/stripe-payment.service.ts:168-177 | Refund then succeeded ends succeeded, the other order ends refunded |
| `Conservation.LedgerInvariant` | apps/api/src/donations/donations.service.ts:530-726 | Over every run of events, bank imports, admin updates, invalidations, withdrawal and transfer calls, each vault's amount is succeeded payments less succeeded withdrawals less transfers out plus transfers in, and its blocked amount the sum of its open withdrawals and outgoing transfers |
| `Conservation.LedgerDrift` | apps/api/src/donations/donations.service.ts:530-726 | Over every run whatever, faithful calls or not, a vault is as far from its records as the drifts of the calls add up to; the drift of a call is spelled out and is 0 for all but three kinds of misuse |
| `Conservation.StepDrifts` | apps/api/src/donations/donations.service.ts:904-1039 | One call moves each vault away from its records by its drift, in whatever state the books are |
| `Conservation.FaithfulExactly` | apps/api/src/donations/donations.service.ts:912-963 | A call that goes through drifts nowhere exactly if it is faithful: stored amount on a succeeded payment, request created open, settlement keeping its target |
| `Conservation.StepKeepsBooksExactly` | apps/api/src/donations/donations.service.ts:904-1039 | On balanced books a call leaves balanced books exactly if it throws or is faithful |
| `Conservation.SucceededPaymentEventExactly` | apps/api/src/donations/donations.service.ts:912-963 | An allowed event on a succeeded payment keeps the books exactly if it carries the stored amount |
| `Conservation.CreatedWithdrawalExactly` | apps/api/src/withdrawal/withdrawal.service.ts:14-31 | Creating a withdrawal keeps the books exactly if it starts open |
| `Conservation.WithdrawalCallDrift` | apps/api/src/withdrawal/withdrawal.service.ts:14-145 | Creating, settling, rejecting, editing and removing a withdrawal move exactly what its row changes, but for a creation in a closed status |
| `Conservation.RemovalDrift` | apps/api/src/withdrawal/withdrawal.service.ts:121-145 | Both statements of a removal together undo exactly what the withdrawal still moved or blocked |
| `Conservation.CreateTransferDrift` | apps/api/src/transfer/transfer.service.ts:21-39 | Blocking for a transfer moves what its row says, but for a creation in a closed status |
| `Conservation.UpdateTransferExactly` | apps/api/src/transfer/transfer.service.ts:71-156 | Updating a transfer keeps the books exactly if a settlement leaves the target vault alone |
| `Conservation.UpdateTransferDrift` | apps/api/src/transfer/transfer.service.ts:71-156 | A settlement that redirects pays the old target and records the new one; every other update moves what the row says |
| `Conservation.EventDrift` | apps/api/src/donations/donations.service.ts:904-1039 | The first event of a payment and every later one move what the row says, but for another amount on a succeeded payment |
| `Conservation.PaymentCallDrift` | apps/api/src/donations/donations.service.ts:530-726 | Bank imports, administrators' updates and invalidations always move what the row says |
| `Overlaps.OverlapsKeepBooksExactly` | apps/api/src/withdrawal/withdrawal.service.ts:14-145 | However the reads, writes, deletions and repayments of withdrawal, transfer and invalidation calls interleave with everything else, both sums hold for every vault, up to the removals under way, exactly if no update decided a request that was closed by then and what invalidations got wrong about outdated payments cancels out for every vault |
| `Overlaps.FreshOverlapsKeepBooks` | apps/api/src/donations/donations.service.ts:699-726 | In particular if every invalidation writes while its payment has paid what it had as it was read |
| `Overlaps.OverlapsDrift` | apps/api/src/transfer/transfer.service.ts:21-156 | Under every interleaving, double decisions and outdated invalidations included, each vault is as far from its records, up to removals, as the drifts of the steps add up to |
| `Overlaps.DecidingAgainDrifts` | apps/api/src/withdrawal/withdrawal.service.ts:54-119 | Deciding a closed request lowers a blocked amount below its records; ProperDriftInAll: no step ever raises it back |
| `Overlaps.BooksExactlyWithoutRemovals` | apps/api/src/withdrawal/withdrawal.service.ts:121-145 | The books themselves hold in such a state exactly if no removal under way, or crashed, owes anything |
| `Overlaps.OverlapsOverdraw` | apps/api/src/withdrawal/withdrawal.service.ts:14-31 | amount - blocked stays above minus the reversals and the reservations written after their room was gone |
| `Overlaps.LateWithdrawalExactly` | apps/api/src/withdrawal/withdrawal.service.ts:15-31 | A withdrawal decided earlier keeps the books whenever it is written, and the free balance non-negative exactly if its room is still there |
| `Overlaps.LateTransferExactly` | apps/api/src/transfer/transfer.service.ts:21-39 | The same for a transfer |
| `Overlaps.LateWithdrawalUpdateExactly` | apps/api/src/withdrawal/withdrawal.service.ts:54-119 | An update decided on an open withdrawal keeps the books exactly if the withdrawal is still open as it is written or the status is left alone |
| `Overlaps.LateTransferUpdateExactly` | apps/api/src/transfer/transfer.service.ts:71-156 | An update decided on an open transfer keeps the books exactly if it still fits the transfer: open, settled towards the vault that was read, no settled transfer redirected |
| `Overlaps.LateInvalidationExactly` | apps/api/src/donations/donations.service.ts:699-726 | An invalidation keeps the books exactly if the payment as it is written has paid what it had as it was read, outside the transaction |
| `Overlaps.HalvesMakeAnInvalidation` | apps/api/src/donations/donations.service.ts:456-468 | Read and written in the same tables, its halves are the whole invalidation |
| `Overlaps.HalvesMakeWithdrawalCalls` | apps/api/src/withdrawal/withdrawal.service.ts:14-119 | Reading and writing in the same tables is the whole call |
| `Overlaps.HalvesMakeTransferCalls` | apps/api/src/transfer/transfer.service.ts:21-156 | The same for transfers |
| `AvailableBalance.AvailableBalanceBound` | apps/api/src/withdrawal/withdrawal.service.ts:20-28 | With R what refunds and invalidations took from a vault, every run keeps amount - blocked + R >= 0, whether or not its calls are faithful and its books balanced |
| `AvailableBalance.BlockedWithinAmount` | apps/api/src/transfer/transfer.service.ts:28-37 | A run without reversals keeps 0 <= blocked <= amount, faithful or not, from any tables whose blocked amount covers its records |
| `AvailableBalance.BlockedNeverShort` | apps/api/src/withdrawal/withdrawal.service.ts:14-145 | No call leaves less blocked than the records hold |
| `AvailableBalance.FreeStep` | apps/api/src/donations/donations.service.ts:699-718 | Only a reversal lowers the free balance, apart from a reservation that fits |
| `CampaignCompletion.CompletionInvariant` | apps/api/src/campaign/campaign.service.ts:629-661 | Over every run, faithful or not, in which no settled transfer and no removed withdrawal overshoots, an unfinished campaign with a positive target has less than its target |
| `CampaignCompletion.CompleteForGood` | apps/api/src/campaign/campaign.service.ts:629-661 | A complete campaign stays complete over every run, refunds included |
| `CampaignCompletion.CreditCompletesExactly` | apps/api/src/vault/vault.service.ts:141-151 | A credit leaves the campaign complete exactly if it was, or its total reaches a target other than 0 |
| `CampaignCompletion.StepStaysOnTargetExactly` | apps/api/src/vault/vault.service.ts:141-162 | A call keeps open campaigns below their targets exactly if it is no settlement or removal whose money, moved without the check, reaches one |
| `PaymentCalls.EventExactly` | apps/api/src/donations/donations.service.ts:861-1039 | What an event leaves, by the names of the statuses: an undecided payment that succeeds, or a succeeded one that is refunded, is rewritten and its vault, and no other, moves by the net; other allowed changes rewrite the payment alone; the rest, and a movement of nothing, leave the tables equal; a new payment has all the event says |
| `PaymentCalls.KnownPaymentExactly` | apps/api/src/donations/donations.service.ts:904-979 | Goes through for a known payment exactly unless it would move an amount that is not positive, and then leaves just that |
| `PaymentCalls.MoneyForUndecidedIsCredited` | apps/api/src/donations/donations.service.ts:904-963 | Whatever came before, a decline included: a succeeded event with a positive net for an undecided payment goes through, leaves it succeeded and its vault raised by the net |
| `PaymentCalls.NewPaymentExactly` | apps/api/src/donations/donations.service.ts:981-1039 | A new payment is created exactly if there is a vault and, if succeeded, the net is positive |
| `PaymentCalls.NewPaymentIsItsCampaigns` | apps/api/src/donations/donations.service.ts:981-1039 | It is in a vault of the event's campaign; not found exactly if that has none |
| `PaymentCalls.PlaceholderIsClaimedExactly` | apps/api/src/donations/donations.service.ts:1041-1072 | An event of an unknown intent takes over an open subscription payment of the same donor and charge exactly if there is one, and then adds no payment |
| `PaymentCalls.BankPaymentExactly` | apps/api/src/donations/donations.service.ts:530-555 | A new bank payment goes through exactly with a positive amount for a known vault; it is succeeded and anonymous and its money in the vault |
| `PaymentCalls.AdminUpdateExactly` | apps/api/src/donations/donations.service.ts:587-669 | Refused exactly for a succeeded payment that is to become something else, an unknown donor or donation, or nothing to credit; else the named status and donor are set, the rest stays, and money arrives exactly on the way to succeeded |
| `PaymentCalls.InvalidationExactly` | apps/api/src/donations/donations.service.ts:699-726 | Refused exactly for a succeeded payment of no money; else the payment is invalid, is else unchanged, and only money it had brought in is taken back |
| `PaymentCalls.UnknownPaymentsAreRefused` | apps/api/src/donations/donations.service.ts:587-726 | Updates and invalidations of unknown payments are not found |
| `Requests.WithdrawalLife` | apps/api/src/withdrawal/withdrawal.service.ts:14-145 | Over any run of any calls that do not remove it, a withdrawal keeps vault and amount, never changes once closed, and is settled only by an approved update that names both |
| `Requests.TransferLife` | apps/api/src/transfer/transfer.service.ts:21-156 | The same for a transfer, whose target may change while it is open |
| `Requests.CreateWithdrawalExactly` | apps/api/src/withdrawal/withdrawal.service.ts:14-31 | Accepted exactly if what is free in the vault covers it; stored as given, and blocked |
| `Requests.UpdateWithdrawalExactly` | apps/api/src/withdrawal/withdrawal.service.ts:54-119 | Goes through exactly for an open withdrawal, named with its vault and amount, and approved if it is settled; settling pays out what was blocked, declining or cancelling frees it, anything else moves nothing |
| `Requests.RemoveWithdrawalExactly` | apps/api/src/withdrawal/withdrawal.service.ts:121-145 | A removal gives back what a succeeded withdrawal took, frees what an open one blocked, and moves nothing for one declined or cancelled |
| `Requests.CreateTransferExactly` | apps/api/src/transfer/transfer.service.ts:21-39 | Accepted exactly if both vaults exist and what is free in the source covers it |
| `Requests.UpdateTransferGoesThroughExactly` | apps/api/src/transfer/transfer.service.ts:71-156 | The same as for a withdrawal, with a target that may be replaced by a known vault |
| `Requests.SettlementMovesTheMoney` | apps/api/src/transfer/transfer.service.ts:71-156 | A settlement moves the amount from what the source blocks to the target the transfer had, and touches no other vault |
| `Requests.UnknownRequestsAreRefused` | apps/api/src/withdrawal/withdrawal.service.ts:54-145 | Updates and removals of unknown requests are refused |
| `CampaignSummary.SummaryAgreesWithLedger` | apps/api/src/campaign/campaign.service.ts:98-139 | The SQL aggregate is what the records say, column by column: reached is the succeeded payments into the campaign's vaults, guaranteed the guaranteed ones, withdrawn the succeeded withdrawals, blocked the open withdrawals and outgoing transfers, current what is paid less withdrawn less sent plus received less blocked; for any number of vaults |
| `CampaignSummary.SummaryAgreesAlongRuns` | apps/api/src/campaign/campaign.service.ts:951-961 | It is so in every state an honest run reaches |
| `CampaignSummary.BlockedFollowsRecords` | apps/api/src/campaign/campaign.service.ts:98-139 | The blocked column of a campaign's vaults is what its open withdrawals and outgoing transfers add up to |
| `CampaignSummary.SharesAddUp` | apps/api/src/campaign/campaign.service.ts:98-139 | Grouping rows by vault and adding up the groups of a campaign's vaults counts each row of theirs once |
| `CampaignSummary.NullReadsAsZero` | apps/api/src/campaign/campaign.service.ts:951-961 | Vaults without donations or withdrawals, null in the query, add nothing to the summary, nor do campaigns without vaults |
| `PaymentHistory.PaymentLife` | apps/api/src/donations/donations.service.ts:904-979 | Over any run of provider events a payment's rank never falls, it is credited at most once and only while undecided, debited at most once and only while it holds money, and holds what was credited and not debited |
| `PaymentHistory.EventEffect` | apps/api/src/donations/donations.service.ts:861-979 | One event changes the status of at most one payment, by the policy, and money moves exactly on the transitions into succeeded and out of it |
| `PaymentHistory.OneIntentOnePayment` | apps/api/src/donations/donations.service.ts:1041-1072 | After an intent's first event, exactly the events of that intent resolve to its payment, a claimed placeholder included |
| `PaymentHistory.BoundForGood` | apps/api/src/donations/donations.service.ts:1041-1072 | A bound intent stays bound to its payment, and no other intent takes it |
| `PaymentHistory.BoundResolves` | apps/api/src/donations/donations.service.ts:1041-1072 | An event finds the payment exactly if it carries the bound intent |
| `PaymentHistory.EventBinds` | apps/api/src/donations/donations.service.ts:861-934 | An event that is not thrown out binds its intent |
| `DeliveryOrder.MoneyFromDelivered` | apps/api/src/donations/donations.service.ts:875-979 | The money in any set of vaults is told by the set of delivered events: an undecided intent adds its net amount exactly if a succeeded event and no refund came |
| `DeliveryOrder.DeliveryOrderIrrelevant` | apps/api/src/donations/donations.service.ts:875-979 | Two runs that delivered the same set of events leave the same balance in every vault |
| `DeliveryOrder.DeliveryOrderIrrelevantInTotal` | apps/api/src/donations/donations.service.ts:1041-1072 | With open placeholders they leave the same total |
| `DeliveryOrder.StandingAndMoneyAfter` | apps/api/src/donations/donations.service.ts:904-979 | After any run each intent stands where its own events put it, and vaults and standing intents moved by the same money |
| `StripeEvents.CapturedChargesReachTheirVaults` | apps/api/src/stripe/events/stripe-payment.service.ts:38-212 | For any order and number of Stripe's events, refunds that overtake their payments and are dropped included, every vault is raised by the net of exactly its charges whose own events end paid behind the webhooks |
| `StripeEvents.CapturedExactly` | apps/api/src/stripe/events/stripe-payment.service.ts:156-212 | Unless both canceled and captured, a charge is in its vault exactly if it succeeded and no refund came after its first other event |
| `StripeEvents.SameEventsSameVaults` | apps/api/src/stripe/events/stripe-payment.service.ts:38-212 | Two deliveries of the same events leave the same in every vault if no charge's kinds are contested |
| `StripeEvents.KindsPassedOn` | apps/api/src/stripe/events/stripe-payment.service.ts:168-177 | The webhooks hold back exactly the refunds before the first other event of an unknown intent |
| `StripeEvents.StripeFollowsThePlan` | apps/api/src/donations/helpers/payment-intent-helpers.ts:35-87 | Every event that moves money carries the one positive net amount of its charge, those of intents may carry another |
| `StripeEvents.CapturedChargeIsRecorded` | apps/api/src/stripe/events/stripe-payment.service.ts:118-153 | A captured charge leaves its payment, if new or undecided, a succeeded card payment of the charge's net, by the card's country, and that net in its vault |
| `StripeEvents.OtherIntentsAreRecorded` | apps/api/src/stripe/events/stripe-payment.service.ts:38-97 | Created, failed and canceled intents move no money |
| `BankImports.ImportCreditsNewIds` | apps/api/src/donations/donations.service.ts:530-555 | An import raises each vault by the first creditable movement of each new external id |
| `BankImports.OneSuccessPerNewId` | apps/api/src/donations/donations.service.ts:530-555 | One result per movement, SUCCESS once per new external id |
| `BankImports.ResultsTell` | apps/api/src/bank-transactions-file/bank-transactions-file.controller.ts:90-146 | Each result, from the list alone: SUCCESS for the first creditable movement of a new id, UPDATED if the campaign is known and the payment was there by then, FAILED otherwise |
| `BankImports.KnownIdsChangeNothing` | apps/api/src/donations/donations.service.ts:530-540 | A list of known ids changes nothing and reports no success |
| `BankImports.ImportIsIdempotent` | apps/api/src/donations/donations.service.ts:530-555 | Importing any part of a file again, in any order, changes nothing |
| `BatchVaults.PreparedSums` | apps/api/src/vault/vault.service.ts:187-197 | The update object holds exactly the listed vaults, each with the sum of its donations |
| `BatchVaults.PreparedAnyOrder` | apps/api/src/vault/vault.service.ts:187-197 | It is the same for any order of the donations |
| `BatchVaults.BatchMatchesEachExactly` | apps/api/src/vault/vault.service.ts:235-254 | A batch does what one update per donation does exactly if every listed vault holds more than its part |
| `BatchVaults.DecrementManyIsAllOrNothing` | apps/api/src/vault/vault.service.ts:199-216 | The guarded decrement goes through exactly if every listed vault holds more than its part; it is then one decrement per donation and leaves every listed vault strictly positive |
| `BatchVaults.IncrementManyRaisesExactly` | apps/api/src/vault/vault.service.ts:218-254 | The increment raises exactly the listed vaults whose balance exceeds it |
| `StripeFees.FeeRoundTrip` | apps/api/src/donations/helpers/stripe-fee-calculator.ts:15-61 | Charging for a net amount, rounded, nets that amount, rounded, for every amount and region |
| `StripeFees.NetIsNearest` | apps/api/src/donations/helpers/stripe-fee-calculator.ts:50-61 | The net is the nearest cent to 98.8, 97.5 or 97.1 percent of the charge, by region, less 50 cents, told in whole numbers |
| `StripeFees.ChargeIsNearest` | apps/api/src/donations/helpers/stripe-fee-calculator.ts:15-39 | The charge for a net amount is the nearest cent to what leaves it, likewise |
| `StripeFees.NetByCountry` | apps/api/src/donations/helpers/stripe-fee-calculator.ts:64-100 | Of 10000 cents a card of any of the 27 countries of the union leaves 9830, one of GB or UK 9700, any other or unknown one 9660 |
| `StripeFees.NetIsMonotone` | apps/api/src/donations/helpers/payment-intent-helpers.ts:65-87 | A larger charge nets no less |
| `StripeFees.NetByRegion` | apps/api/src/donations/helpers/stripe-fee-calculator.ts:50-70 | European cards net at least what British do, those at least what others do |
| `StripeFees.NetIsPositiveExactly` | apps/api/src/donations/helpers/payment-intent-helpers.ts:65-87 | The net is positive exactly from 52 cents in Europe and Britain, 53 elsewhere, and below the charge |
| `StripeFees.MinimumChargeIsCredited` | apps/api/src/vault/vault.service.ts:164-185 | A charge of 100 cents or more passes the vault's guard and raises the vault by less than the charge |
| `Money.EurRoundTrip` | apps/api/src/common/money.ts:25-62 | Euro to leva to euro is the identity on cents |
| `Money.BgnRoundTrip` | apps/api/src/common/money.ts:25-62 | Leva to euro to leva is off by at most one, and exact exactly on images of euro amounts |
| `Money.RatesAgree` | apps/api/src/common/money.ts:36-62 | Dividing by the rate and multiplying by the tabled inverse round alike |
| `Money.FixedRateConverts` | apps/api/src/common/money.ts:52-62 | There is a fixed rate exactly between leva and euro, and it converts to the nearest cent at 195583 stotinki to 100000 euro cents in the right direction, told in whole numbers |
| `Money.LevaBecomeEuro` | apps/api/src/common/money.ts:36-62 | Converting leva at the tabled rate is the conversion by division; 1000 become 511 |
| `Money.EuroBecomeLeva` | apps/api/src/common/money.ts:52-62 | 100000 euro cents become 195583 stotinki |
| `Money.IrisSumRoundTrip` | apps/api/src/iris-pay/iris-pay.service.ts:366-379 | Any amount printed with two decimals, with dot or comma and blanks around, is read back |
| `Money.ThousandsSeparatorRefused` | apps/api/src/iris-pay/iris-pay.service.ts:366-379 | A sum with a thousands comma and a decimal dot is refused |
| `Money.SumIsReadableExactly` | apps/api/src/iris-pay/iris-pay.service.ts:366-377 | Readable are exactly the sums of digits, then perhaps a dot or comma and more digits, with blanks around |
| `Money.SumIsReadToTheNearestCent` | apps/api/src/iris-pay/iris-pay.service.ts:366-379 | Each is read to the nearest cent, however many digits follow the separator, told in whole numbers |
| `PaymentSessions.SingleUse` | apps/api/src/iris-pay/services/payment-session.service.ts:41-99 | In every run of sessions, checks, consumptions, clock ticks and purges in which requests consume in time, no jti is consumed twice |
| `PaymentSessions.SingleUseExactly` | apps/api/src/iris-pay/services/payment-session.service.ts:69-99 | A run consumes a jti twice exactly if its schedule has two requests that spend the jti and between them a purge later than the token's expiry |
| `PaymentSessions.GoneWasPurged` | apps/api/src/iris-pay/services/payment-session.service.ts:91-99 | A used token's row is gone only if such a purge ran |
| `PaymentSessions.HeldUpIsTwice` | apps/api/src/iris-pay/services/payment-session.service.ts:69-99 | and then a request that was held up consumes the token again |
| `PaymentSessions.AcceptedAgainOnlyAfterExpiry` | apps/api/src/iris-pay/services/payment-session.service.ts:69-99 | A used token is accepted again exactly if its row is gone, and then it has expired |
| `PaymentSessions.ValidIsInTime` | apps/api/src/iris-pay/services/payment-session.service.ts:41-64 | A token that validates as it is consumed is consumed in time |
| `PaymentSessions.TokenLivesFiveMinutes` | apps/api/src/iris-pay/services/payment-session.service.ts:32-64 | A token is good for the step it was issued for alone, for exactly five minutes on the clock of whole seconds |
| `PaymentSessions.ConsumedExactly` | apps/api/src/iris-pay/services/payment-session.service.ts:69-89 | Accepted exactly if the token names itself and its expiry and has no row; the row expires with the token |
| `PaymentSessions.LateConsumptionRepeats` | apps/api/src/iris-pay/iris-pay.controller.ts:55-64 | Validation and consumption being separate, a held-up request consumes its token a second time |
| `PaymentSessions.SessionStore.CreateInitialSession` | apps/api/src/iris-pay/services/payment-session.service.ts:32-39 | A token that was not issued before |
| `PaymentSessions.SessionStore.ValidateSession` | apps/api/src/iris-pay/services/payment-session.service.ts:41-64 | Accepts exactly initial tokens that have not expired |
| `PaymentSessions.SessionStore.ConsumeSession` | apps/api/src/iris-pay/services/payment-session.service.ts:69-89 | In time, accepts a token exactly if it was never consumed, and keeps every jti consumed once; keeps the invariant behind the run theorems |
| `PaymentSessions.SessionStore.PurgeExpiredSessions` | apps/api/src/iris-pay/services/payment-session.service.ts:91-99 | Exactly the expired rows go, the count says how many, and every used token that has not expired keeps its row |
| `IrisPay.CreditedExactlyOnce` | apps/api/src/iris-pay/iris-pay.service.ts:236-325 | Under every interleaving of checkouts, finalize and webhook calls, each split into read, poll and commit, a payment is credited at most once, by the IRIS sum, exactly if it succeeded, in tables that need not be balanced and whatever other calls do to other payments |
| `IrisPay.BeforeAnyCheckout` | apps/api/src/iris-pay/iris-pay.service.ts:165-234 | The law starts from any tables before the first checkout |
| `IrisPay.BooksStayBalanced` | apps/api/src/iris-pay/iris-pay.service.ts:236-325 | Balanced books stay balanced under these interleavings if the other calls are faithful |
| `IrisPay.DecidedStays` | apps/api/src/iris-pay/iris-pay.service.ts:236-325 | Once decided, a status stays under every later commit |
| `IrisPay.StaleAnswerChangesNothing` | apps/api/src/iris-pay/iris-pay.service.ts:236-325 | A stale waiting or failed answer committed after success changes nothing |
| `IrisPay.CommitFindsItsPayment` | apps/api/src/iris-pay/iris-pay.service.ts:280-325 | The commit resolves to the payment that was read |
| `IrisPay.CommitGains` | apps/api/src/donations/donations.service.ts:904-979 | A commit adds the IRIS sum on the way to succeeded and moves no money otherwise |
| `IrisPay.CommitWrites` | apps/api/src/donations/donations.service.ts:904-979 | A commit writes nothing, or its own payment with the polled status and sum |
| `IrisPay.CheckoutIsPlanned` | apps/api/src/iris-pay/iris-pay.service.ts:165-234 | A checkout, at any time, adds an initial payment of the donor into the campaign's vault to those the law is about, with nothing credited; without a vault, or with a known hook, it changes nothing |
| `IrisPay.AnswerDecides` | apps/api/src/iris-pay/iris-pay.service.ts:236-325 | However long the commit is in coming and whatever happens meanwhile: a payment still undecided then is succeeded, with the sum IRIS holds credited to its vault once, exactly if the answer was CONFIRMED in any letter case; otherwise it is declined for FAILED, waiting for anything else, and nothing is credited |
| `IrisPay.CommitDecides` | apps/api/src/iris-pay/iris-pay.service.ts:280-325 | The same for one commit in well-formed tables; only a confirmation of no money is thrown out |
| `IrisPay.AnswersByName` | apps/api/src/iris-pay/iris-pay.service.ts:424-436 | Which answers mean success, decline and waiting, letter by letter |
| `IrisPay.UnreadableAnswerEndsTheCall` | apps/api/src/iris-pay/iris-pay.service.ts:236-325 | No answer, a foreign currency or an unreadable sum ends the call with nothing written |
| `Conversions.ConversionIsSafe` | apps/api/src/stripe/stripe.service.ts:897-1173 | Under every interleaving of any number of attempts on this and other subscriptions, crashes, new subscriptions and webhooks, every deletion event Stripe may send included, the donation keeps one record; it is not canceled by the conversion's own cancellations, and is the record of before, under the old id or the mark, or bound to a live successor at the converted amount. Nothing is asked of deletions, only that nobody else cancels the subscription |
| `Conversions.FairRunIsSafe` | apps/api/src/stripe/stripe.service.ts:897-1173 | The same if others cancel the old subscription, as long as its events are harmless |
| `Conversions.UndisturbedIsAllowed` | apps/api/src/stripe/events/stripe-payment.service.ts:335-349 | As long as nobody else cancels the subscription, every deletion event Stripe may send is harmless: the old one's carries the conversion's comment, the successors have none |
| `Conversions.OwnDeletionChangesNothing` | apps/api/src/stripe/events/stripe-payment.service.ts:335-349 | From any state and over any run: once an attempt has canceled a subscription, no deletion event of it changes a record |
| `Conversions.DeletionIsHarmlessExactly` | apps/api/src/stripe/events/stripe-payment.service.ts:335-386 | A deletion of the old subscription keeps the invariant exactly if a conversion canceled it, the record no longer carries it or was canceled before, or it names no campaign |
| `Conversions.SuccessorsDeletionCancels` | apps/api/src/stripe/events/stripe-payment.service.ts:335-386 | A bound record follows its successor: when somebody cancels that, its deletion cancels the record |
| `Conversions.MarkHidesTheRecord` | apps/api/src/stripe/stripe.service.ts:1138-1173 | Marking takes the record away from the events of the old subscription and changes nothing else |
| `Conversions.CreatedEventMirrorsExactly` | apps/api/src/stripe/events/stripe-payment.service.ts:215-297 | A created event adds one record, with the subscription's id, donor, amount, known currency and status, exactly if none carries its id and the event is complete |
| `Conversions.BoundMirrorsSuccessor` | apps/api/src/stripe/stripe.service.ts:1072-1131 | A bound record shows its successor: id, donor, amount, currency |
| `Subscriptions.OwnDeletionIsIgnored` | apps/api/src/stripe/stripe.service.ts:993-1000 | The deletion event that carries the comment of the conversion's cancellation is ignored |
| `Subscriptions.CancellationIsRecognised` | apps/api/src/stripe/stripe.service.ts:993-1000 | The comment is currency_conversion: and the currency, and is recognised |
| `Subscriptions.OtherDeletionCancels` | apps/api/src/stripe/events/stripe-payment.service.ts:335-386 | A deletion with no comment or any other cancels the record it finds |
| `Subscriptions.CommentIsRecognisedExactly` | apps/api/src/stripe/events/stripe-payment.service.ts:341-349 | A comment is recognised exactly if its first twenty characters are currency_conversion: |
| `Subscriptions.StatusNames` | apps/api/src/donations/helpers/payment-intent-helpers.ts:131-150 | Every status is read back from its name; any other name reads as active |
| `Subscriptions.CurrenciesRead` | apps/api/src/donations/helpers/payment-intent-helpers.ts:152-163 | Three currencies are kept, everything else reads as leva |
| `Conversions.HarmlessExactly` | apps/api/src/stripe/events/stripe-payment.service.ts:215-386 | A webhook keeps the invariant exactly if it is harmless: about another donation, or on time without canceling the record, or late without being complete; no other event is ruled out |
| `Conversions.SideBySide` | apps/api/src/stripe/stripe.service.ts:573-944 | Any number of donations converted side by side all stay in order, and every one an attempt has finished is bound |
| `Conversions.RunKeepsInv` | apps/api/src/stripe/stripe.service.ts:964-1173 | The invariant behind it holds over every run |
| `Conversions.OneFinishedAttemptConverts` | apps/api/src/stripe/stripe.service.ts:1072-1131 | Whatever crashed before, one attempt that runs to its end leaves the record bound to a live successor, for good |
| `Conversions.RetryConverts` | apps/api/src/stripe/stripe.service.ts:573-696 | From any state that crashed or unfinished attempts can leave, one undisturbed single conversion binds the record, cancels the old subscription, and leaves an already bound record alone |
| `Conversions.BindingStep` | apps/api/src/stripe/stripe.service.ts:1072-1131 | The rebind binds the one record, to its own attempt's successor if it was unbound |
| `Conversions.BoundForGood` | apps/api/src/stripe/events/stripe-payment.service.ts:215-386 | A bound record stays bound to the same subscription |
| `Conversions.EveryCreationStaysLive` | apps/api/src/stripe/stripe.service.ts:964-1067 | The live successors are as many as the creations, so a retry after a crash past the creation leaves one more than the record uses |
| `Conversions.LateEventAddsARecordExactly` | apps/api/src/stripe/events/stripe-payment.service.ts:215-332 | In a conversion whose record no longer carries the old id, a late created or updated event of the old subscription leaves two records standing for the donation exactly if it is complete and no conversion made that subscription |
| `Conversions.DeletionTouchesTheRecordExactly` | apps/api/src/stripe/events/stripe-payment.service.ts:335-386 | In a conversion, a deletion of the old subscription cancels the donation's record exactly if the record still carries the old id and the event names a campaign and no conversion, and never touches another record |
| `Conversions.EventOnTimeSetsTheStatusExactly` | apps/api/src/stripe/events/stripe-payment.service.ts:215-332 | A created or updated event on time never adds a record, and sets the record's status exactly if it is an update with campaign and person |
| `Failures.ChangedAmount` | apps/api/src/donations/donations.service.ts:912-963 | On any balanced tables: a succeeded event with another amount unbalances the books; EventBreaks is a concrete case |
| `Failures.RedirectedSettlement` | apps/api/src/transfer/transfer.service.ts:85-132 | So does a settlement that redirects; TransferBreaks is a case |
| `Failures.CreatedClosed` | apps/api/src/withdrawal/withdrawal.service.ts:14-31 | So does a withdrawal created settled; CreationsBreak has the cases |
| `Failures.TransferCreatedClosed` | apps/api/src/transfer/transfer.service.ts:21-39 | and a transfer |
| `Failures.WithdrawalSettledTwice` | apps/api/src/withdrawal/withdrawal.service.ts:54-119 | Two settlements of a withdrawal, both read while it was open, pay it out twice; OverlapsBreak is a case |
| `Failures.TransferSettledTwice` | apps/api/src/transfer/transfer.service.ts:71-156 | Two settlements of a transfer unbalance the books; SettlementsBreak is a case |
| `Failures.RedirectedMeanwhile` | apps/api/src/transfer/transfer.service.ts:71-156 | So does an edit of the target that read the transfer before it was settled; RedirectionBreaks is a case |
| `Failures.InvalidatedTwice` | apps/api/src/donations/donations.service.ts:699-726 | Two invalidations of a payment, both read while it was paid, debit its vault twice; InvalidationsBreak is a case |
| `Failures.InvalidatedMeanwhile` | apps/api/src/donations/donations.service.ts:699-726 | An invalidation that read the payment before its money came in leaves the money in the vault |
| `Failures.BalancedFails` | apps/api/src/donations/donations.service.ts:699-726 | The concrete cases, all from one balanced ledger |
| `Failures.ReservedTwice` | apps/api/src/withdrawal/withdrawal.service.ts:15-31 | Two reservations that fit one at a time overdraw on balanced books; OverlapsOverbook is a case |
| `Failures.RemovalCrashed` | apps/api/src/withdrawal/withdrawal.service.ts:121-145 | A removal that stops between its statements unbalances the books; RemovalBreaks is a case |
| `Failures.SettledPastTheTarget` | apps/api/src/transfer/transfer.service.ts:115-132 | A settlement can take a campaign past its target and leave it active; SettlementOversteps is a case |
| `Failures.RemovedPastTheTarget` | apps/api/src/withdrawal/withdrawal.service.ts:121-145 | So can a removal; RemovalOversteps is a case |
| `Failures.BatchSkipsAPoorVault` | apps/api/src/vault/vault.service.ts:235-254 | A batch increment passes over a vault a single increment raises; BatchFails is a case |
| `ConversionFailures.LateEvent` | apps/api/src/stripe/events/stripe-payment.service.ts:215-332 | After a conversion that ended well, one complete late event of the old subscription leaves two records; LateEventLeavesTwoRecords is a case |
| `ConversionFailures.CrashedAndRunAgain` | apps/api/src/stripe/stripe.service.ts:964-1067 | Crashed past the creation and run again, a conversion ends with two live subscriptions; CrashLeavesTwoLive is a case |
| `ConversionFailures.OverlappingAttemptsLeaveTwoLive` | apps/api/src/stripe/stripe.service.ts:573-696 | Two overlapping attempts that both end well leave one record and two live subscriptions; OverlapLeavesTwoLive is a case |
| `StripeServices.BothStatusesMakeAWholeRun` | apps/api/src/stripe/stripe.service.ts:713-833 | Paging through active, then trialing, over a listing the run itself changes, with webhooks and new subscriptions at every point: every subscription in these statuses at the start is reported once, exactly the convertible ones come across are attempted, each once, those the run creates are only ever skipped, and every counted success is replaced in Stripe and bound locally |
| `StripeServices.WholeRunAttempts` | apps/api/src/stripe/stripe.service.ts:713-833 | So of the subscriptions at the start exactly the active and trialing ones in the source currency are attempted, and none of the run's own making |
| `StripeServices.AttemptsExactly` | apps/api/src/stripe/stripe.service.ts:838-944 | Attempted are exactly the visited subscriptions in the source currency, none in a dry run |
| `StripeServices.ResultsAreTrue` | apps/api/src/stripe/stripe.service.ts:838-944 | Each result says what the subscription's price is and whether anything failed; those about subscriptions of the run's own making are skips |
| `StripeServices.SuccessesConvert` | apps/api/src/stripe/stripe.service.ts:838-944 | Each counted success is replaced at the converted amount and bound, for the rest of the run |
| `StripeServices.UsedRateConverts` | apps/api/src/stripe/stripe.service.ts:719-729 | There is no rate exactly for a given 0, or for none given and another pair than leva and euro; the rate used converts to the nearest cent at the given rate, or at the fixed one in the right direction |
| `StripeServices.TallyCounts` | apps/api/src/stripe/stripe.service.ts:783-793 | The counts are the numbers of failed results, of successes in the source currency, and of the rest |
| `StripeServices.ListingsAreApart` | apps/api/src/stripe/stripe.service.ts:753-769 | The trialing listing, taken after the active one was worked through, shows none of it again, and together they show all |
| `StripeServices.ListingAfterPage` | apps/api/src/stripe/stripe.service.ts:761-806 | A listing is its page and the listing below the page's last entry, even after the page was worked on |
| `StripeServices.ListingIsExact` | apps/api/src/stripe/stripe.service.ts:544-548 | The listing shows exactly the subscriptions of the status below the cursor, newest first |
| `StripeServices.AttemptStep` | apps/api/src/stripe/stripe.service.ts:897-917 | A step of an attempt keeps every donation in order, the attempted one and all others, and what was bound bound |
| `StripeServices.MayHappenKeeps` | apps/api/src/stripe/events/stripe-payment.service.ts:215-386 | So does whatever else happens meanwhile, webhooks and new subscriptions in any number and order |
| `StripeServices.StripeService.ConvertSubscriptionsCurrency` | apps/api/src/stripe/stripe.service.ts:713-833 | Refused with nothing changed exactly without a rate or with a page size Stripe does not take; else a whole run, with the numbers of failed and converted results and the rest as counts, every converted amount the nearest cent at the given rate, or at 1.95583 leva per euro if none was given |
| `StripeServices.StripeService.ConvertStatus` | apps/api/src/stripe/stripe.service.ts:755-808 | The paging loop ends and visits exactly what one listing at its start would show |
| `StripeServices.StripeService.ConvertPage` | apps/api/src/stripe/stripe.service.ts:771-800 | The inner loop handles the page's subscriptions in order, with the counts of their results |
| `StripeServices.StripeService.ProcessSubscriptionConversion` | apps/api/src/stripe/stripe.service.ts:838-944 | One subscription: attempted exactly if convertible and no dry run, a true result, bound and replaced on success |
| `StripeServices.StripeService.ConvertSingleSubscriptionCurrency` | apps/api/src/stripe/stripe.service.ts:573-696 | Succeeds exactly if nothing fails; then the subscription is canceled with the conversion's comment, replaced at the nearest cent at the given or the fixed rate, and its donations bound, whatever earlier attempts left |
| `StripeServices.StripeService.Attempt` | apps/api/src/stripe/stripe.service.ts:897-917 | What is left in Stripe for each failing call, next to what else happens between the calls; every donation in order; bound on success |
| `StripeServices.StripeService.UpdateSubscriptionCurrency` | apps/api/src/stripe/stripe.service.ts:964-1067 | Cancel, with the comment its deletion event is ignored for, swallowing a cancellation that has happened, and create; what each failure leaves |
| `StripeServices.StripeService.UpdateLocalRecurringDonation` | apps/api/src/stripe/stripe.service.ts:1072-1131 | The marked record is rebound, else the one with the plain id |
| `StripeServices.StripeService.MarkRecurringDonationForConversion` | apps/api/src/stripe/stripe.service.ts:1138-1173 | The record is marked unless one already is |
| `StripeServices.StripeService.HandleSubscriptionCreated` | apps/api/src/stripe/events/stripe-payment.service.ts:215-297 | What the event leaves of the records, error cases included |
| `StripeServices.StripeService.HandleSubscriptionUpdated` | apps/api/src/stripe/events/stripe-payment.service.ts:300-332 | What the event leaves of the records |
| `StripeServices.StripeService.HandleSubscriptionDeleted` | apps/api/src/stripe/events/stripe-payment.service.ts:335-386 | What the event leaves of the records |
| `StripeServices.StripeService.FindSubscriptionByExtId` | apps/api/src/recurring-donation/recurring-donation.service.ts:185-191 | A record with the id, or none exists |
| `StripeServices.StripeService.UpdateStatus` | apps/api/src/recurring-donation/recurring-donation.service.ts:193-214 | The record gets the status, others are left alone |
| `Databases.CampaignRows` | apps/api/src/campaign/campaign.service.ts:650-652 | Summing a campaign's vaults is summing the campaign's column over all vaults |
| `Databases.Database.UpdateVaultAmount` | apps/api/src/vault/vault.service.ts:164-185 | Only positive amounts move, in the named vault |
| `Databases.Database.IncrementVaultAmount` | apps/api/src/vault/vault.service.ts:141-151 | The credit and the completion of the campaign it may cause |
| `Databases.Database.DecrementVaultAmount` | apps/api/src/vault/vault.service.ts:156-162 | The debit, with no completion |
| `Databases.Database.CampaignAmount` | apps/api/src/campaign/campaign.service.ts:650-652 | The loop over the vaults yields the campaign's total |
| `Databases.Database.UpdateCampaignStatusIfTargetReached` | apps/api/src/campaign/campaign.service.ts:629-676 | Completes a campaign exactly if its total reached a target other than 0 |
| `Databases.Database.UpdateManyVaults` | apps/api/src/vault/vault.service.ts:235-254 | The batch statement's effect on every vault |
| `Databases.Database.DecrementManyVaults` | apps/api/src/vault/vault.service.ts:199-216 | Aborts with nothing changed if any vault would fail, else the batch |
| `Databases.Database.FindExistingDonation` | apps/api/src/donations/donations.service.ts:1041-1072 | A payment with the intent, else an open placeholder the event may claim, else none exists |
| `Databases.Database.CreateIncomingDonation` | apps/api/src/donations/donations.service.ts:981-1039 | The new payment and its credit |
| `Databases.Database.UpdateDonationIfAllowed` | apps/api/src/donations/donations.service.ts:904-979 | The rewritten payment and the credit or debit, or the skip |
| `Databases.Database.UpdateDonationPayment` | apps/api/src/donations/donations.service.ts:861-902 | The step of the ledger the event is, for the rows the database chose, or nothing if anything throws |
| `Databases.Database.CreateUpdateBankPayment` | apps/api/src/donations/donations.service.ts:530-555 | A new id is recorded and credited, a known one left alone |
| `Databases.Database.ImportBankPayments` | apps/api/src/bank-transactions-file/bank-transactions-file.controller.ts:90-150 | The loop is the fold the import theorems are about |
| `Databases.Database.Update` | apps/api/src/donations/donations.service.ts:587-669 | The edited payment and its credit, or nothing if anything throws; balanced books stay balanced exactly if the call is faithful, open campaigns below target exactly unless it overshoots |
| `Databases.Database.Invalidate` | apps/api/src/donations/donations.service.ts:699-726 | The debit of a succeeded payment and the new status, or nothing; balanced books stay balanced exactly if the call is faithful, open campaigns below target exactly unless it overshoots |
| `Databases.Database.CreateWithdrawal` | apps/api/src/withdrawal/withdrawal.service.ts:14-31 | The row and the blocked amount, if it fits; balanced books stay balanced exactly if the call is faithful, open campaigns below target exactly unless it overshoots; the free balance stays non-negative |
| `Databases.Database.UpdateWithdrawal` | apps/api/src/withdrawal/withdrawal.service.ts:54-119 | Settle, release or edit an open withdrawal; balanced books stay balanced exactly if the call is faithful, open campaigns below target exactly unless it overshoots; no free balance falls |
| `Databases.Database.RemoveWithdrawal` | apps/api/src/withdrawal/withdrawal.service.ts:121-145 | Undo what the withdrawal still moved or blocked; balanced books stay balanced exactly if the call is faithful, open campaigns below target exactly unless it overshoots; no free balance falls |
| `Databases.Database.CreateTransfer` | apps/api/src/transfer/transfer.service.ts:21-39 | The row and the blocked amount, if it fits; balanced books stay balanced exactly if the call is faithful, open campaigns below target exactly unless it overshoots; the free balance stays non-negative |
| `Databases.Database.UpdateTransfer` | apps/api/src/transfer/transfer.service.ts:71-156 | Settle between two vaults, release, or edit an open transfer; balanced books stay balanced exactly if the call is faithful, open campaigns below target exactly unless it overshoots; no free balance falls |
| `Databases.Database.FinalizePayment` | apps/api/src/iris-pay/iris-pay.service.ts:236-325 | An undisturbed finalize is read, poll and commit of the interleaving model; in well-formed tables a decided payment is answered from its row, CONFIRMED in any letter case leaves an undecided one succeeded and its vault raised by the sum, FAILED leaves it declined and anything else waiting, with no vault moved, and each failure leaves the tables equal |

## Left out

- Expenses: approval lowers a blocked amount that creation never raised, so they belong to no balance law.
- Soft deletion of succeeded payments, the affiliate paths and `createInitialDonationFromIntent`: they change a status without the matching movement of the vault.
- Widths of integer columns and floating point: amounts are unbounded integers and arithmetic is exact; `toMoney` is not modelled.
- HTTP clients, token signatures, cookies, roles, e-mails, sockets, logging, Excel export, listing and search queries.
- The loop that reads an uploaded bank file: its rows are given as built payments with the answer whether their campaign was found.
- `storeIrisMetadata`, the donor count of the campaign summary, `cancel` of a recurring donation, and the cancelling of subscriptions when a campaign completes.
- Invoice events build the same data as charges, from the invoice's metadata, and are not modelled apart; the lookups of campaign and person and the comparison of currencies before an event is applied are not.
- The country lookup: names that are properties of every JavaScript object are not countries here.
- Database isolation levels: each interactive transaction is one atomic step, but for what it reads through another client.
- Databases.Database.Invalidate: one undisturbed call; that it reads outside its transaction is modelled in `Overlaps`.
- Databases.Database.RemoveWithdrawal: one undisturbed call; its two statements are steps of `Overlaps`.
- Webhook handlers are one step each.
- StripeServices.StripeService.ConvertSubscriptionsCurrency: other conversions, and changes of status by Stripe, do not happen while the loops run; they interleave with attempts in `Conversions` only.
- Failing list calls, delays between conversions and logging in the bulk conversion; the trial period, customer and payment method of a created subscription.
- Subscription ids are numbers in the order of creation, and the prefix `converting:` is a constructor; ids that start with the prefix themselves are not modelled.
- Conversions.Undisturbed: rules out the created and updated webhooks that cancel the record or add a second one (HarmlessExactly), the cancellation of the old subscription or a successor by others, the conversion of a successor, and foreign subscriptions that name this one as converted. FairRunIsSafe has the cancellation of the old subscription by others, if no deletion of it cancels the record (DeletionIsHarmlessExactly).
- Stripe's events show a subscription as it is: a deletion comes only for a canceled subscription, with the comment it was canceled with.
- `toUpperCase` of an IRIS answer: letters outside ASCII are left as they are.
- Requests for amounts that are not positive; the services do not refuse them.
- Overlapping attempts of one conversion are taken to convert to the same currency and amount.
