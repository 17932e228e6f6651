# A verified model of the gateway

The gateway sells model tokens, spends them on runs, and forwards requests to services that may
be slow, dead or half-alive. This project models its three connected cores in Dafny and proves
what they keep over whole histories.

**The ledger, its settlement and the contract.** A balance is replayed from append-only signed
rows and drawn from two pools: perishable grants and kept purchases. `Ledger` is that replay,
`Pools` which pool each row moves and what of a purchase stays, `Store` the three tables behind
it, `Catalog` what is on sale and what pays for it, and `Billing` the service's commands, each a
function from books to books that a method of `BillingService` is proved to carry out.
`BillingTerms` says what those commands do in the prices, instants, memos and amounts they are
given. `Settlement` says what one
settling promises, `WeeklySettling` what any number of weeks of them come to. `BillingRuns` cuts
`confirm` at its awaits and lets any number of calls overlap; `BillingHistory` and `FreeGrants`
are what every such history keeps with a settling one step, and `PaidInvoices` what can become of
an invoice once it reads paid. `SplitSettling` cuts a settling, too, at its awaits, among all the
rest; `OverlappingSettlings` is what two of them at once can do, and `SettlingsInTurn` what holds
when an account's settlings take turns. `Reconciliation` is the sweep over open invoices.
`SubscriptionsContract` is the contract on the Stellar ledger, `ContractTerms` who may do what to
it, `ContractHistory` its histories with a clock, and `ChainAndLedger` both machines side by side. `Pricing` and `Money` are the
arithmetic underneath, the latter with the text form of an amount.

**The resilience chain.** `Breaker` is one instance's circuit breaker under overlapping calls,
`Retry` the attempts at one instance over a transport that may answer anything, and `Balancer`
puts the load balancer over the breakers over the retries.

**Run orchestration.** `Runs` is a run as a value with its table of moves. `Orchestration` cuts
every command at its waits, so that a write may land long after the value it was computed from
was replaced; `RunHistory` is what holds all the same, and `FrozenRuns` when what a run has
reached is there to stay. `Orchestrator` is the orchestrator itself, one command at a time,
proved to be those steps in a row, and `OrchestratorTerms` what each command stores and what it
keeps. `StreamScan` reads an agent's stream in chunks; `RunStore` and
`RunLog` are the two bounded buffers, compared with their full histories, and `LiveReader` is a
reader that follows a log while it grows.

`dafny verify dfyconfig.toml` checks everything.

## Where the code and its words disagree

The model follows the code; each of these is a lemma below.

- A grant is promised "exactly once per period paid for"; renewing a plan early, in a stretch
  already granted, is paid for and grants nothing (`APeriodGrantsIffItsStretchIsNew`;
  `RenewingEarlyGrantsOnce` reaches it from an empty chain and ledger).
- A period's key names a plan and an instant, not an account, while uniqueness is global. Two
  accounts first seen at one instant share one free week (`FirstWeekLandsIffItsKeyIsFree`,
  `SameInstantCollides`), two renewing at one instant collide the same way
  (`FreeRenewalClosedForm`, `RenewalsCollide`), and of two paid periods that end at one instant
  the second keeps its whole grant, though granted tokens are said never to roll over
  (`SharedEndKeepsTheGrant`, `ExtendedPeriodsCollide`).
- `settle_period` is said to be idempotent because its grant is keyed on the period. The key is
  made of the clock each call read, so two calls that overlap on one free period that is over
  both grant the week (`OverlapGrantsTwice`), and so do two first readings of an account
  (`FirstReadsGrantTwice`). A second grant for a week can still land exactly when another
  settling is in flight on a key not yet written, or the row is still due in that week
  (`SecondGrantIffOverlapOrDue`); settlings that take turns never do it (`WeeksStayApartInTurn`).
- Nor is it idempotent where it awaits between reading the balance and writing the expiry: what
  is spent there is forgiven, exactly as far as the reading has grown old
  (`StepForgives`, `ChargeInBetweenIsForgiven`); with no debit and no other expiry landing in
  between, nothing is (`UndisturbedForgivesNothing`, `NothingForgivenWhenSpendsUnread`).
- `confirm` is called safe to repeat. A call that read the invoice before it was paid can still
  write "expired" over "paid", and only such a call can (`PaidCanBeLostIffReadEarlier`); and an
  invoice marked paid whose delivery was cut off can be credited only by a call that already
  holds it, never by repeating `confirm` (`CreditableIffHeld`, `CutOffDeliveryStrands`).
- A payment that lands after its invoice lapsed is said to be matched by `reconcile`, which only
  walks pending invoices (`LatePaymentIsFoundIffPending`).
- A chain with nothing live to say is said to leave the free plan to have its say; once a paid
  plan has ended, no settling starts the free one again (`PaidPeriodEndsForGood`, `FreeWeekGrantedIffDue`).
- An approved plan is said to be frozen; it is exactly when no command in flight still holds an
  older value of the run (`FrozenIffNothingIsStale`; `StaleRejectionIsReached` is one that does).
  The table of moves lets a delivered run only be reset, which no command does; yet it stays
  delivered exactly when no other command on it is in flight but one holding that delivery. A
  second `generate` that read the approved run takes it back to generating and loses the
  artifact (`DeliveryStandsIffNothingIsStale`, `SecondGenerateUndoesADelivery`).
- A reader of a run's log is promised everything said so far and then everything said next. It
  is given all of it exactly when nothing is appended while it hands a slice over and the log
  drops nothing meanwhile (`HeardEverythingIffNothingMissed`).
- The run log is said to evict the run least recently appended to; it evicts the one created
  first, which is that run exactly when every later one was appended to no earlier
  (`ForgottenIsLeastRecentIff`).
- A half-open circuit is said to let a single probe through; it does exactly when no other call is
  in flight, since any call's verdict frees the slot (`OneProbeIffNobodyElseIsInFlight`).

## Model

| member | source | states |
|---|---|---|
| Ledger.ComputeBalance | src/gateway/domain/billing.py:459-488 | the loop over the rows computes the replay the other lemmas are about, debts included |
| Ledger.PoolsAddUp | src/gateway/domain/billing.py:459-488 | the two pools always sum to the signed rows plus what clamped expiries threw away, and grants never go negative |
| Ledger.BalanceIsSignedSum | src/gateway/domain/billing.py:459-488 | a balance is the signed sum floored at zero exactly when no expiry was clamped, or the account is in debt all the same |
| Ledger.ExpiryForgivesItsExcess | src/gateway/application/billing_service.py:539-553 | an expiry written after any rows forgives exactly what it takes back beyond the grant those rows leave |
| Pools.RowMovesItsPool | src/gateway/domain/billing.py:459-488 | which pool a row of each kind moves, and by how much, after any lawful rows; a debit reaches what was bought only once nothing granted is left |
| Pools.UnspentIsEverythingBought | src/gateway/domain/billing.py:459-488 | with no debit, the bought pool is the sum of the purchases and refunds, whatever was granted and expired |
| Pools.ShownOfThePools | src/gateway/domain/billing.py:459-488 | a debt is shown taken out of the grant, and neither pool is shown negative |
| Pools.BoughtIsKept | src/gateway/application/billing_service.py:392-553 | from any lawful ledger, over any overlapping commands but charges of an account, what it bought and has left never falls |
| Pools.PackIsKept | src/gateway/application/billing_service.py:278-305 | over any history: a pack delivered is still there in full, as bought tokens, after any settlings, deliveries and credits without a charge |
| Ledger.SummariseUsage | src/gateway/domain/billing.py:760-777 | the loop computes tokens, runs and cost of the usage rows since an instant |
| Pools.SummaryIsOfTheWindow | src/gateway/domain/billing.py:760-777 | tokens, runs and cost are those of exactly the usage rows at or after the instant, or of all without one |
| Ledger.RowsReconcile | src/gateway/domain/billing.py:760-777 | credits, lifetime usage, expiries and adjustments account for every signed token |
| Ledger.ExpiryIsNeverClamped | src/gateway/application/billing_service.py:539-553 | an expiry written from the balance it reads is never clamped, empties the grant and leaves purchases alone, with or without a debt |
| Ledger.RenewalClosedForm | src/gateway/application/billing_service.py:457-467 | from any lawful ledger with nothing forgiven, whichever of the two rows land: the balance after a renewal in terms of the signed sum S before it; with both, the plan's tokens, or those less the debt, purchases unchanged |
| Ledger.ManyRenewals | src/gateway/application/billing_service.py:457-467 | over any number of renewals of both rows with nothing in between: nothing rolls over, nothing bought is lost, and a debt is worked off grant by grant |
| Ledger.SpendingWeeks | src/gateway/application/billing_service.py:457-467 | with anything bought and spent in the weeks between, and whichever rows land: after each renewal purchases are as before it, at most one grant is held if the expiry landed, and with both rows every overspent token still counts |
| Pricing.ScaledIsNearest | src/gateway/domain/billing.py:129-133 | scaling is the nearest micro, halves going up, for either sign, and an error exactly by a zero denominator |
| Pricing.CostIsNearest | src/gateway/domain/billing.py:281-282 | tokens list at the nearest micro of their share of the price of a million, and fewer than none at nothing |
| Pricing.MarkedUpIsNearest | src/gateway/domain/billing.py:291-305 | the margin is so many ten-thousandths of the cost, to the nearest micro |
| Pricing.NeverSellsMoreThanWasPaid | src/gateway/domain/billing.py:281-289 | tokens sold are the largest number the money covers; they never list for more than was paid, and one more would cost at least it |
| Pricing.SplittingAPurchase | src/gateway/domain/billing.py:284-289 | two purchases never yield more tokens than one, and at most one fewer |
| Pricing.BillableCoversTheCost | src/gateway/domain/billing.py:291-305 | a run is free exactly when simulated, or with no call and no token; a costless one is debited its tokens or the minimum; one with a cost, the tokens that cost times ten thousand and the margin buys, to within a token and half a micro, or the minimum |
| Money.ParseOfShow | src/gateway/domain/billing.py:90-118 | an amount survives being written and read back exactly when its micros have no more digits than decimals carry (28 by default) |
| Money.ParseIsNearest | src/gateway/domain/billing.py:90-103 | a text that fits is read to the nearest micro, halves away from zero |
| Money.SignedParseIsNearest | src/gateway/domain/billing.py:90-103 | and so it is with its sign, rounding away from zero on either side |
| Money.DecimalsAreRead | src/gateway/domain/billing.py:90-103 | what is read of a text is its digits as one number and where its point stands, of exactly the texts of digits and at most one point |
| Money.AmountsAreDecimals | src/gateway/domain/billing.py:90-103 | a text is an amount, or too long a one, exactly when its sign aside it has a digit and is digits and at most one point; what is read has no more digits than decimals carry |
| Money.HalfEvenIsNearest | src/gateway/domain/billing.py:90-103 | what decimals carry of a longer number is the nearest multiple of the unit, and of two as near the even one |
| Money.ShownWithoutTrailingZeros | src/gateway/domain/billing.py:110-118 | an amount is written with no point at its end, no zero after one, and a sign exactly when negative |
| Catalog.FirstPlanIsNamed | src/gateway/domain/billing.py:241-254 | the plan found for an id carries that id |
| Catalog.ProductIsTheFirstListed | src/gateway/domain/billing.py:241-254 | a product is found exactly when it is listed: the first plan of that id, or with no such plan the first such pack |
| Catalog.FirstFreeIsFree | src/gateway/application/billing_service.py:419-422 | the plan every account starts on has price zero |
| Catalog.FreePlanIsTheFirstAtZero | src/gateway/application/billing_service.py:419-422 | it is the first plan listed at price zero, and there is none exactly when no price is zero |
| Catalog.SettlingIsPayingFor | src/gateway/domain/billing.py:650-668 | a payment settles an invoice exactly when memo, destination and the letters of the asset agree, both amounts parse, and ten thousand times the one is at least 9900 times the other |
| Catalog.HowMuchPays | src/gateway/domain/billing.py:650-668 | an overpayment settles, so does one unit short of a hundred or more, exactly 99 hundredths is enough, and half never is |
| Store.BillingStore.Append | src/gateway/infrastructure/billing/sqlite_store.py:134-162 | a row whose key is taken is not written, and the answer is the row that was |
| Store.BillingStore.AllEntries | src/gateway/infrastructure/billing/sqlite_store.py:179-183 | every row of the account, oldest first |
| Store.BillingStore.Entries | src/gateway/infrastructure/billing/sqlite_store.py:164-177 | the most recent rows, still oldest first |
| Store.BillingStore.PutInvoice | src/gateway/infrastructure/billing/sqlite_store.py:187-220 | an invoice already there keeps its terms; only status, hash and payer change |
| Store.BillingStore.PutSubscription | src/gateway/infrastructure/billing/sqlite_store.py:236-252 | one row per account, replaced whole |
| Store.AppendIsIdempotent | src/gateway/infrastructure/billing/sqlite_store.py:134-162 | writing a fact again changes nothing and answers with the same row; keys stay unique and rows stay put |
| Store.OfIsTheAccount | src/gateway/infrastructure/billing/sqlite_store.py:179-183 | what is listed for an account is exactly its rows |
| Store.RecentIsTheTail | src/gateway/infrastructure/billing/sqlite_store.py:164-177 | the short list is the end of the full one, as long as asked for |
| Billing.BillingService.AccountBalance | src/gateway/application/billing_service.py:155-157 | the balance replayed from all of an account's rows, never from a short list |
| Billing.BillingService.Checkout | src/gateway/application/billing_service.py:180-229 | exactly which sales are refused and with which error, a plan at price zero among them, and every field of the invoice, which freezes the product's tokens and price |
| Billing.BillingService.Credit | src/gateway/application/billing_service.py:354-378 | negative credits are refused, any other is one idempotent row |
| Billing.BillingService.Charge | src/gateway/application/billing_service.py:392-415 | one debit keyed on the run, exactly when something is billable |
| Billing.BillingService.Authorize | src/gateway/application/billing_service.py:380-390 | after settling, allowed exactly when the total covers both the need and the reserve |
| Billing.BillingService.SettlePeriod | src/gateway/application/billing_service.py:424-470 | the chain first and it wins; else a free plan begins or renews, or a paid period ends |
| BillingTerms.OverIsRenewedIffItsPriceIsZero | src/gateway/application/billing_service.py:454-470 | a running period that is over, with nothing live on chain, is renewed for the length of its plan exactly when that plan is still on sale at price zero; any other ends and writes no new period grant |
| BillingTerms.OverWritesTheseRows | src/gateway/application/billing_service.py:454-470 | and the rows written for it: minus the grant shown, on the key of the old end, and the tokens of a plan at price zero, on the key of the new one |
| BillingTerms.FirstReadingStartsTheFreePlan | src/gateway/application/billing_service.py:510-527 | an account with no row begins a period of the first plan at price zero, granted on its end |
| BillingTerms.LiveChainIsMirrored | src/gateway/application/billing_service.py:472-508 | the chain wins exactly when it reports a period of a plan on sale that ends after now; its instants become the row, its start the key |
| BillingTerms.SettlingAnswersWithItsRow | src/gateway/application/billing_service.py:424-470 | what a settling answers with is the row it leaves the account with, in every branch |
| Billing.BillingService.MirrorChain | src/gateway/application/billing_service.py:472-508 | a live on-chain period of a known plan is copied and granted once, keyed on its start |
| Billing.BillingService.BeginFree | src/gateway/application/billing_service.py:510-527 | the first free period, and its grant |
| Billing.BillingService.ExpireGrant | src/gateway/application/billing_service.py:539-553 | minus exactly the grant the balance shows, or nothing |
| Billing.BillingService.Deliver | src/gateway/application/billing_service.py:278-305 | the invoice's frozen tokens as a grant or a purchase, and for a plan its subscription |
| BillingTerms.DeliveryCreditsTheInvoice | src/gateway/application/billing_service.py:278-305 | the invoice's own tokens and price to its own account, as a grant for a plan and a purchase for a pack, and a plan's period from now |
| Billing.BillingService.Confirm | src/gateway/application/billing_service.py:231-258 | every outcome of one call with nothing interleaved, errors included |
| BillingTerms.ConfirmPaysIffPaidFor | src/gateway/application/billing_service.py:231-258 | an unpaid invoice is paid exactly when the payment found is for it by memo, destination, asset and amount, lapses exactly when none was found and it was not pending before its deadline, and is otherwise as it was |
| BillingTerms.PaidExactlyByAPaymentForIt | src/gateway/application/billing_service.py:231-258 | in every reachable state, whatever is interleaved: one step makes an unpaid invoice read paid exactly when a call that read it decides on such a payment |
| BillingTerms.PaidWasPaidFor | src/gateway/application/billing_service.py:231-258 | so whatever reads paid, in any history, was paid for, and by a payment on record |
| BillingTerms.ConfirmAnswersWithItsInvoice | src/gateway/application/billing_service.py:231-258 | it answers with the invoice it leaves, and raises exactly for an unknown id, a network that cannot be asked, or a paid product no longer sold |
| BillingRuns.InARowTheyConfirm | src/gateway/application/billing_service.py:231-305 | from any state, the steps of one call with nothing in between are the whole call, whatever the payment and the product |
| Billing.BillingService.Reconcile | src/gateway/application/billing_service.py:260-276 | the sweep confirms each listed invoice in turn, skips those that raise, and lists the paid ones |
| Reconciliation.SweepListsThePaid | src/gateway/application/billing_service.py:260-276 | which invoices a sweep settles is decided by the books it began with, whatever confirming the others did |
| Reconciliation.SweepSettlesThePaid | src/gateway/application/billing_service.py:260-276 | a listed invoice is marked paid exactly when its payment was found, and credited if its product is still sold |
| Reconciliation.UnlistedIsUntouched | src/gateway/application/billing_service.py:260-276 | an invoice that is not listed keeps its row and is not credited |
| Reconciliation.LatePaymentIsFoundIffPending | src/gateway/infrastructure/billing/sqlite_store.py:226-234 | a sweep over all pending invoices finds a late payment exactly when its invoice is still pending; confirming it directly always does |
| Settlement.SettlingTwiceIsSettlingOnce | src/gateway/application/billing_service.py:424-470 | settling again at the same instant with the same chain answer changes nothing |
| Settlement.FirstWeekLandsIffItsKeyIsFree | src/gateway/domain/billing.py:534-542 | an account without a subscription, whatever rows it has, with nothing live on chain, gets its first week exactly when no row of any account holds that week's key |
| Settlement.SameInstantCollides | src/gateway/domain/billing.py:534-542 | of two accounts first seen at one instant, the second is subscribed and granted nothing |
| Settlement.RenewalWritesTheseRows | src/gateway/application/billing_service.py:457-467 | a due free period, with nothing live on chain, is renewed by an expiry of what is left and a new grant, each unless its key is taken |
| Settlement.FreeRenewalClosedForm | src/gateway/application/billing_service.py:424-470 | the balance after it, in closed form of everything credited and debited before and of which keys were free |
| Settlement.RenewalsCollide | src/gateway/domain/billing.py:534-542 | two accounts begun at different instants and renewed at one: the second loses its old week, is given no new one, and stays subscribed |
| Settlement.MirroringAddsOnTop | src/gateway/application/billing_service.py:472-508 | a mirrored period adds its tokens once and takes nothing an earlier plan granted |
| Settlement.PaidPeriodEnds | src/gateway/application/billing_service.py:454-470 | a lapsed paid period, whatever the chain answers short of a live one, keeps purchases and takes back its grant unless a row holds the key of its end; it has ended either way |
| Settlement.PaidPeriodEndsForGood | src/gateway/application/billing_service.py:454-470 | and no later settling with nothing live on chain changes anything |
| Settlement.SharedEndKeepsTheGrant | src/gateway/application/billing_service.py:539-553 | of two accounts whose paid periods end at one instant, the second keeps its whole grant exactly when the first had any left, or the key was taken before |
| Settlement.ExtendedPeriodsCollide | src/gateway/infrastructure/billing/subscriptions.py:62-73 | such accounts are reached: two stretches of one plan with different starts and one end, both mirrored, then both settled |
| Settlement.FreeWeekGrantedIffDue | src/gateway/application/billing_service.py:424-537 | a settling grants a free week exactly when nothing is live on chain, and either there is no subscription or an active free one is due, and the key is free |
| WeeklySettling.WeeksAreSettlings | src/gateway/application/billing_service.py:424-467 | any number of settlings, each finding a free period over, with any rows of any accounts recorded before each, leave exactly the rows of so many weeks |
| WeeklySettling.AfterEveryWeek | src/gateway/application/billing_service.py:424-467 | so after each of them the account holds what it bought and did not spend and at most one grant, unless the expiry's key was taken, and owes what it overspent |
| WeeklySettling.IdleWeeks | src/gateway/application/billing_service.py:424-467 | an account that is only read, with no later key of its plan taken, has both rows land every week, holds one grant however many, and works a debt off |
| SplitSettling.InARowTheySettle | src/gateway/application/billing_service.py:447-470 | the steps of a settling, with nothing in between, are the settling, for every chain answer and every branch |
| SplitSettling.StepForgives | src/gateway/application/billing_service.py:539-553 | under any interleaving, a step forgives an account exactly what a landing expiry takes back beyond what is still granted, and any other step nothing |
| SplitSettling.BalanceUnderSplitting | src/gateway/domain/billing.py:459-488 | in every history a balance is the signed sum plus what was so forgiven, floored at zero |
| SplitSettling.UndisturbedForgivesNothing | src/gateway/application/billing_service.py:539-553 | after any history: with no debit and no other expiry of the account landing between a settling's reading and its expiry, it forgives nothing, whatever else goes on |
| SplitSettling.NothingForgivenWhenSpendsUnread | src/gateway/application/billing_service.py:539-553 | in a history in which no debit or expiry of an account lands while another settling of it holds a reading of its grant, nothing is forgiven it, and its total is the signed sum floored at zero |
| SplitSettling.ChargeInBetweenIsForgiven | src/gateway/application/billing_service.py:539-553 | a charge between the reading and the writing is forgiven as far as the grant that was read covered it |
| OverlappingSettlings.OverlapGrantsTwice | src/gateway/application/billing_service.py:454-467 | from any state, two settlings of one free period that is over, at different clocks, taken in step: both grants land and nothing is forgiven, as one renewal with twice the tokens |
| OverlappingSettlings.FirstReadsGrantTwice | src/gateway/application/billing_service.py:510-527 | two first readings of an account at different clocks: both begin the free plan and both grant |
| OverlappingSettlings.SecondGrantIffOverlapOrDue | src/gateway/application/billing_service.py:424-537 | after any history, with the account's settlings in flight begun at an instant or later: some continuation that reads it only in the week from there grants it again, on another key than a given one, exactly when another settling of it is in flight on an unwritten key, or at an instant of that week its row is due, or missing, and that instant's key is unwritten |
| SettlingsInTurn.WeeksStayApartInTurn | src/gateway/application/billing_service.py:424-537 | with settlings cut at their awaits, in every history that reads an account only while no other settling of it is in flight, its free weeks stay apart |
| SettlingsInTurn.FreeGrantRateInTurn | src/gateway/application/billing_service.py:424-537 | so any span holds at most 1 + its whole weeks of them |
| BillingRuns.StepKeepsInvoices | src/gateway/application/billing_service.py:231-305 | every step of every overlapping call keeps: unique keys, frozen terms, earned rows, and every paid invoice credited, carried or cut off |
| BillingRuns.InvoicesStaySound | src/gateway/application/billing_service.py:231-305 | so every reachable state has them |
| BillingHistory.ConfirmedAtMostOnce | src/gateway/application/billing_service.py:231-305 | however many confirms overlap, one row per invoice, with the terms frozen at checkout, against a payment that settles it; with no call left, paid means credited unless a delivery was cut off |
| BillingHistory.HistoryOnlyGrows | src/gateway/infrastructure/billing/sqlite_store.py:134-220 | no row is ever edited or removed and no invoice's terms ever change, from any state on |
| PaidInvoices.PaidIsOverwrittenExactlyWhen | src/gateway/application/billing_service.py:243-256 | one step takes "paid" away from an invoice exactly when a call that read it unpaid finds no payment after its deadline, or it is issued anew |
| PaidInvoices.PaidCanBeLostIffReadEarlier | src/gateway/application/billing_service.py:243-256 | from any reachable state, some continuation does so, short of issuing it anew, exactly when a call in flight read it before it was paid |
| PaidInvoices.LapsedYetDelivered | src/gateway/application/billing_service.py:243-256 | such a race is reached: a delivered invoice written off as expired, its tokens kept |
| PaidInvoices.PaymentIsRemembered | src/gateway/application/billing_service.py:243-256 | an invoice that reads paid was paid by a payment that a call found |
| PaidInvoices.StrandedForever | src/gateway/application/billing_service.py:237-241 | an invoice marked paid, uncredited and held by no call is never credited by any later step |
| PaidInvoices.CreditableIffHeld | src/gateway/application/billing_service.py:231-258 | a paid, uncredited invoice whose product is still sold can still be credited exactly when a call in flight holds it |
| PaidInvoices.CutOffDeliveryStrands | src/gateway/application/billing_service.py:256-258 | cutting one call between its two writes reaches such a state |
| BillingHistory.NothingIsEverForgiven | src/gateway/application/billing_service.py:539-553 | with settling one step, no reachable ledger has a clamped expiry, for any account |
| BillingHistory.BalanceIsWhatHappened | src/gateway/domain/billing.py:459-488 | with settling one step, in every reachable ledger the total is the signed sum floored at zero, and it reconciles with usage, credits and expiries |
| FreeGrants.SpacedCount | src/gateway/domain/billing.py:515-526 | instants a week apart: a span holds at most one more than it holds whole weeks |
| FreeGrants.WeeksStayApart | src/gateway/application/billing_service.py:424-537 | with settling one step, in every history consecutive free grants to an account are a week apart |
| FreeGrants.FreeGrantRate | src/gateway/application/billing_service.py:424-537 | with settling one step, any span holds at most 1 + its whole weeks of them, however often the account is read |
| SubscriptionsContract.Contract.Initialise | contracts/subscriptions/src/lib.rs:158-165 | once only |
| SubscriptionsContract.Contract.SetPlan | contracts/subscriptions/src/lib.rs:171-189 | admin only, a price and a period, listed once; a refusal changes nothing |
| ContractTerms.PlansAreSetByTheAdmin | contracts/subscriptions/src/lib.rs:171-189 | a plan is set exactly by the administrator, with a positive price and period, and no other plan changes |
| SubscriptionsContract.Contract.Subscribe | contracts/subscriptions/src/lib.rs:197-248 | the payment and the record land together or not at all; early same-plan renewals extend, anything else starts now |
| ContractTerms.SubscribersPayForThemselves | contracts/subscriptions/src/lib.rs:197-248 | a subscribe succeeds exactly when the subscriber signed, the plan is on sale, they hold its price and nothing overflows; it moves that price and one period, and nothing of anybody else |
| ContractTerms.NobodyPaysUnsigned | contracts/subscriptions/src/lib.rs:158-310 | over any history: an account that signs none of it, the contract aside, has spent nothing, and its period and receipt are as they were |
| ContractTerms.OnlyTheAdminGoverns | contracts/subscriptions/src/lib.rs:158-310 | over any history its administrator signs none of, plans, their list, the token and the administrator are as they were, and the contract has paid nothing out |
| SubscriptionsContract.Contract.IsActive | contracts/subscriptions/src/lib.rs:260-269 | active exactly while the recorded end is still ahead |
| SubscriptionsContract.Contract.Withdraw | contracts/subscriptions/src/lib.rs:292-301 | admin only, a positive amount no more than is held |
| ContractTerms.TheAdminWithdraws | contracts/subscriptions/src/lib.rs:292-301 | a withdrawal succeeds exactly by the administrator, for a positive amount the contract holds, and moves just that |
| SubscriptionsContract.Contract.SetAdmin | contracts/subscriptions/src/lib.rs:305-310 | both administrators must sign |
| ContractHistory.StepAdds | contracts/subscriptions/src/lib.rs:197-248 | every call and every tick keeps each subscriber's paid time accounted for, to the second |
| ContractHistory.PaidTimeIsKept | contracts/subscriptions/src/lib.rs:171-269 | a stretch is exactly as long as the periods bought in it, whatever set_plan did; time lived active is what was bought less what is left and what switching gave up; periods counts the subscribes |
| ContractHistory.MovingConserves | contracts/subscriptions/src/lib.rs:197-215 | a transfer creates and destroys nothing and touches only its two ends |
| ContractHistory.MoneyIsConserved | contracts/subscriptions/src/lib.rs:158-301 | over any history: held is charged less withdrawn elsewhere, total tokens are constant, and the plan list names each stored plan once |
| ChainAndLedger.TheyAlwaysAgree | src/gateway/application/billing_service.py:472-508 | over every schedule, each on-chain grant names a stretch its account really opened and grants the catalog's tokens |
| ChainAndLedger.GrantsNeverExceedTheReceipt | contracts/subscriptions/src/lib.rs:197-248 | an account's on-chain grants are at most the stretches it opened, and those at most the periods on its receipt |
| ChainAndLedger.LiveStretchIsGranted | src/gateway/application/billing_service.py:472-508 | a live stretch that is read has exactly one row, this account's unless another opened the same plan in the same second |
| ChainAndLedger.APeriodGrantsIffItsStretchIsNew | src/gateway/infrastructure/billing/subscriptions.py:62-73 | a period paid for and then read adds one grant exactly when its stretch has no row yet |
| ChainAndLedger.RenewingEarlyGrantsOnce | contracts/subscriptions/src/lib.rs:197-248 | from an empty chain and ledger, an account that pays for a second period while its first runs has two on its receipt and one grant |
| Breaker.CircuitBreaker.TryAcquire | src/gateway/infrastructure/resilience/circuit_breaker.py:55-65 | who is admitted in which state, and the state left |
| Breaker.CircuitBreaker.OnSuccess | src/gateway/infrastructure/resilience/circuit_breaker.py:67-71 | closes from half-open and forgets failures |
| Breaker.CircuitBreaker.OnFailure | src/gateway/infrastructure/resilience/circuit_breaker.py:73-79 | counts, or trips |
| Breaker.CircuitBreaker.OnAbort | src/gateway/infrastructure/resilience/circuit_breaker.py:81-83 | no verdict: only the slot is freed |
| Breaker.AlwaysSound | src/gateway/infrastructure/resilience/circuit_breaker.py:55-90 | under any overlap: a taken slot means half-open and its taker in flight; closed means fewer failures than the threshold, and exactly the trailing run of them |
| Breaker.OpenIsLeftByWaiting | src/gateway/infrastructure/resilience/circuit_breaker.py:55-90 | an open breaker changes exactly on an acquire a full timeout after it opened; no late verdict moves it |
| Breaker.RefusalsHaveACause | src/gateway/infrastructure/resilience/circuit_breaker.py:55-65 | refused exactly while waiting or while the slot's taker is in flight, so it cannot wedge |
| Breaker.AnyVerdictFreesTheSlot | src/gateway/infrastructure/resilience/circuit_breaker.py:67-89 | in every reachable state any verdict of any call in flight frees a taken slot |
| Breaker.OneProbeIffNobodyElseIsInFlight | src/gateway/infrastructure/resilience/circuit_breaker.py:55-89 | while a probe is out, nobody is admitted before it reports, whatever the others do, exactly when it is the only call in flight |
| Breaker.StragglerFreesTheSlot | src/gateway/infrastructure/resilience/circuit_breaker.py:81-83 | the other case is reached: a call from an earlier closed phase outlives it, and two probes are out |
| Breaker.DeadInstanceIsRarelyReached | src/gateway/infrastructure/resilience/circuit_breaker.py:55-90 | from any reachable state, an instance that always fails is reached at most threshold + window / timeout times in a window |
| Retry.BackoffDoublesToTheCap | src/gateway/infrastructure/resilience/retry.py:51-52 | waits double until the cap and stay there |
| Retry.GoesOnWhileItMayHelp | src/gateway/infrastructure/resilience/retry.py:87-123 | a sequence goes on after a timeout, an instance out of reach or a listed status, and stops there only at the last attempt, cancelled, or where nothing may be repeated |
| Retry.RetryingClient.Attempts | src/gateway/infrastructure/resilience/retry.py:87-123 | for any transport and any cancellation while waiting: the calls one sequence may make, how it ends, every response but the returned one closed once, and the waits |
| Retry.OpenedIsExact | src/gateway/infrastructure/resilience/retry.py:87-123 | the responses listed as opened are exactly those, each once |
| Retry.AttemptsAreDetermined | src/gateway/infrastructure/resilience/retry.py:87-123 | for any behaviour of the transport there is one sequence of calls, up to where a wait is cancelled |
| Balancer.GuardedClient.Admit | src/gateway/infrastructure/resilience/circuit_breaker.py:128-138 | before the await only the target's own breaker moves |
| Balancer.GuardedClient.Conclude | src/gateway/infrastructure/resilience/circuit_breaker.py:138-154 | one verdict per call, read off how it ended |
| Balancer.FailingCallsOpenIt | src/gateway/infrastructure/resilience/circuit_breaker.py:138-154 | a closed breaker opens on exactly as many failed calls, or answers with a failing status, in a row as it was short of its threshold |
| Balancer.GuardedClient.Send | src/gateway/infrastructure/resilience/circuit_breaker.py:128-154 | refused, with no call made, exactly when its target's breaker does not admit it; otherwise one sequence of attempts, while others may move any breaker, and one verdict on whatever breaker it then finds |
| Balancer.LoadBalancer.NextRotation | src/gateway/infrastructure/resilience/load_balancer.py:82-86 | the instances in order from this service's turn, which moves on by one |
| Balancer.LoadBalancer.Pinned | src/gateway/infrastructure/resilience/load_balancer.py:42-50 | a request that names its instance goes there and nowhere else |
| Balancer.LoadBalancer.Balanced | src/gateway/infrastructure/resilience/load_balancer.py:42-71 | the visits made, what the caller gets, the trace of calls, and every response but the one handed on closed exactly once |
| Balancer.GivesUpOnlyWhenItMust | src/gateway/infrastructure/resilience/load_balancer.py:42-92 | a request fails over exactly past an open circuit and a failure that was unsent or may be repeated; it ends without a response only with every instance visited, cancelled, or after a failure that was sent and may not be repeated |
| Balancer.ReplyIsTheLastCalled | src/gateway/infrastructure/resilience/load_balancer.py:69-71 | the caller gets what the last instance called gave, and an open circuit exactly when none was called |
| Balancer.OnlyTheLastCanHaveBeenSent | src/gateway/infrastructure/resilience/load_balancer.py:89-92 | failing over happens only while nothing can have been done twice |
| Balancer.DeliveredAtMostOnce | src/gateway/infrastructure/resilience/load_balancer.py:42-92 | of the calls one POST or PATCH causes, all but the last ended without being sent, for any transport and breakers (section 9.2.2 of RFC 9110) |
| Balancer.EachInstanceAtMostOnce | src/gateway/infrastructure/resilience/load_balancer.py:42-86 | no instance twice, and at most n times the attempts of calls (n when not idempotent) |
| Balancer.RotationIsAPermutation | src/gateway/infrastructure/resilience/load_balancer.py:82-86 | a rotation visits every instance once |
| Balancer.StartsAreDealtRound | src/gateway/infrastructure/resilience/load_balancer.py:82-86 | over any requests to any services, each instance of a service has had all full rounds, and those before its turn one start more |
| Balancer.RoundRobinIsFair | src/gateway/infrastructure/resilience/load_balancer.py:82-86 | start counts of a service's instances differ by at most one |
| Balancer.StartIsTheTurn | src/gateway/infrastructure/resilience/load_balancer.py:82-86 | and a rotation starts with the instance its turn points at |
| Runs.AnswersAreMerged | src/gateway/domain/runs.py:207-216 | merging two rounds loses no answer: every question keeps its place, once, with its latest value |
| Runs.AnsweringLosesNothing | src/gateway/domain/runs.py:207-216 | a run answered again keeps every answer at its place, with the later value where it was asked again, has every new one, once, and changes nothing else |
| Runs.AnEventLeadsToOneState | src/gateway/domain/runs.py:84-113 | the table of moves by columns: each event leads to one state, from the states named and no others |
| Runs.MovesBringOnlyTheirOwn | src/gateway/domain/runs.py:184-241 | a move changes the state, and asking, proposing and delivering also what they bring; only asking counts a round |
| Runs.RunsStartFromAnIdea | src/gateway/domain/runs.py:167-176 | a run starts exactly from an idea that says something in at most 4000 characters, stripped of white space, with nothing else in it |
| Runs.StripDropsWhiteEnds | src/gateway/domain/runs.py:169-171 | stripping drops the white space at either end, all of it and nothing else |
| Runs.QuestionsSaySomething | src/gateway/application/orchestration.py:435-449 | the questions served are those that say something, in order |
| Runs.PlansSayWhatForAndSomething | src/gateway/application/orchestration.py:452-460 | an answer is a plan exactly when it names a purpose and holds an item |
| Orchestration.StepKeepsTheGate | src/gateway/application/orchestration.py:139-278 | every step of every overlapping command keeps the approval gate and the ledger of runs |
| Orchestration.TheGateAlwaysHolds | src/gateway/application/orchestration.py:139-278 | so every reachable state has it |
| RunHistory.OnlyApprovedPlansAreBuilt | src/gateway/application/orchestration.py:182-205 | under every interleaving, a run stored as approved, generating or delivered holds a plan an approve command took from review; stored rounds never exceed the cap |
| RunHistory.EarningsComeFromDelivery | src/gateway/application/orchestration.py:250-278 | a run earns a debit only by ending a stream with an artifact and a measured consumption |
| RunHistory.DebitedAtMostOnce | src/gateway/application/orchestration.py:259-278 | at most one row per run ever, after a delivery, and a stored charge is that row's |
| FrozenRuns.PromiseStaysKept | src/gateway/domain/runs.py:189-235 | with nothing stale in flight, no sequence of commands changes an approved plan or takes the run back before the gate; nor, in the second form, a delivered run out of its delivery |
| FrozenRuns.StaleCommandOverwrites | src/gateway/application/orchestration.py:163-180 | any one stale command can be carried through to overwrite it |
| FrozenRuns.FrozenIffNothingIsStale | src/gateway/application/orchestration.py:163-205 | an approved plan is frozen exactly when no command in flight holds an older value |
| FrozenRuns.DeliveryStandsIffNothingIsStale | src/gateway/application/orchestration.py:182-257 | a delivered run stays delivered, with its artifact, exactly when no other command on it is in flight but one holding that delivery, or an answer it is too late for |
| FrozenRuns.StaleRejectionIsReached | src/gateway/application/orchestration.py:169-190 | from the start: a plan rejected by one command and approved by another reads approved with the rejection still in flight |
| FrozenRuns.SecondGenerateUndoesADelivery | src/gateway/application/orchestration.py:192-257 | from the start: of two `generate` calls on one approved run the first delivers, and the second takes the artifact away |
| Orchestrator.RunOrchestrator.Start | src/gateway/application/orchestration.py:139-161 | one `start` is its steps in a row, and stores the run or nothing; an account that may not pay is refused before any agent is asked |
| OrchestratorTerms.StartStoresAQuestionOrAPlan | src/gateway/application/orchestration.py:139-161 | what a `start` stores for every pair of answers of the agent: the first questions, the second, a plan, or nothing |
| Orchestrator.RunOrchestrator.Answer | src/gateway/application/orchestration.py:163-167 | one `answer` is its steps in a row; the run it stores has every answer it had at its place, with the later value, every one given, once each, and its idea and account |
| OrchestratorTerms.AnswersAreKeptOrNothingIsStored | src/gateway/application/orchestration.py:163-167 | an `answer` stores a run that kept every answer, with the next questions while fewer than two rounds were served, or the plan; or it stores nothing |
| OrchestratorTerms.RunsHaveOneAnswerEach | src/gateway/domain/runs.py:207-216 | in every reachable state, whatever is interleaved, a run has one answer to each question |
| Orchestrator.RunOrchestrator.Reject | src/gateway/application/orchestration.py:169-180 | one `reject` is its steps in a row, and what it stores holds the new plan |
| OrchestratorTerms.RejectionStoresTheNextPlan | src/gateway/application/orchestration.py:169-180 | a rejection stores the next plan, in review again, exactly when the run was in review, the feedback says something and the answer is a plan |
| Orchestrator.RunOrchestrator.Approve | src/gateway/application/orchestration.py:182-190 | one `approve` is its steps in a row, and succeeds exactly from review |
| Orchestrator.RunOrchestrator.Generate | src/gateway/application/orchestration.py:192-257 | one `generate`, however its stream goes, is its steps in a row, and the log ends holding what a late reader is told |
| OrchestratorTerms.GenerationEndsAsItsStreamDoes | src/gateway/application/orchestration.py:192-257 | only an approved run is generated; it stays generating when its stream never opens or is let go, fails when it breaks or names no artifact, and else is delivered with the artifact found |
| OrchestratorTerms.DeliveryIsDebitedOnce | src/gateway/application/orchestration.py:259-278 | a delivery is debited what its measured consumption is worth, on the key of the run, and the run stores what its one row says |
| Orchestrator.AfterKeepsTheGate | src/gateway/application/orchestration.py:139-278 | any steps taken from a state with the gate keep it, so each command does |
| Orchestrator.ChunksDoNotMatterToARun | src/gateway/application/orchestration.py:212-257 | however a whole stream is cut into chunks, the runs and the ledger end the same |
| StreamScan.StreamScan.Feed | src/gateway/application/orchestration.py:498-504 | one chunk: the complete lines read in order, the bounded tail kept |
| StreamScan.StreamScan.Read | src/gateway/application/orchestration.py:506-528 | what one line changes |
| StreamScan.OnlyDataLinesTell | src/gateway/application/orchestration.py:506-528 | a line tells something only if it starts with `data: ` and decodes: the project and usage of a `done`, or the id an artifact step mentions |
| StreamScan.LinesRejoin | src/gateway/application/orchestration.py:498-504 | cutting into lines loses no byte |
| StreamScan.ReadAlikeIffNoLineIsLong | src/gateway/application/orchestration.py:498-504 | a stream is read as the same lines whatever its chunks exactly when no line is longer than the tail kept |
| StreamScan.ChunksDoNotMatter | src/gateway/application/orchestration.py:498-528 | then artifact, usage and tail are those of feeding it whole |
| StreamScan.LongEventIsLost | src/gateway/application/orchestration.py:498-504 | a longer event whose newline comes in a later chunk is not heard |
| StreamScan.TailIsBounded | src/gateway/application/orchestration.py:466-504 | the tail kept is at most 8192 bytes whatever is fed |
| StreamScan.TheEndOfALineIsKept | src/gateway/application/orchestration.py:498-504 | of a piece of a line all of it is kept, or its last 8192 bytes |
| StreamScan.DoneWinsOverMentions | src/gateway/application/orchestration.py:506-528 | the last `done` naming a project wins, the first artifact step is only the fallback, the last usage counts |
| RunStore.InMemoryRunStore.Put | src/gateway/infrastructure/runs.py:43-53 | swept, moved to the end, evicted from the front |
| RunStore.InMemoryRunStore.Get | src/gateway/infrastructure/runs.py:55-61 | swept, then looked up |
| RunStore.InMemoryRunStore.Sweep | src/gateway/infrastructure/runs.py:63-69 | deleting the expired one by one leaves exactly the rest, in order |
| RunStore.GetAgreesWithHistory | src/gateway/infrastructure/runs.py:43-69 | `get` answers only with the last value put, unexpired; and does so when fewer than the maximum of other runs were put since |
| RunStore.GetFindsExactly | src/gateway/infrastructure/runs.py:43-69 | when runs are put in the order they moved, it finds a run exactly under those conditions |
| RunLog.InMemoryRunLog.Start | src/gateway/infrastructure/run_log.py:55-61 | eviction first, then an empty log in its old place or a new last one |
| RunLog.InMemoryRunLog.Append | src/gateway/infrastructure/run_log.py:63-70 | the log grows by the chunk, then is trimmed, its recorded size kept true |
| RunLog.InMemoryRunLog.End | src/gateway/infrastructure/run_log.py:72-76 | ends a log there is, and nothing else |
| RunLog.InMemoryRunLog.Evict | src/gateway/infrastructure/run_log.py:123-134 | forgets from the front until there is room |
| RunLog.InMemoryRunLog.Follow | src/gateway/infrastructure/run_log.py:86-107 | a reader with nothing in between is given exactly the log's chunks, then stops, or waits when the log has not ended |
| LiveReader.HeardEverythingIffNothingMissed | src/gateway/infrastructure/run_log.py:86-107 | a reader that has caught up was given all the log held and all appended since, in order, exactly when nothing was appended while it handed a slice over and no append made the log drop a chunk |
| RunLog.TrimmedIsTheLongest | src/gateway/infrastructure/run_log.py:68-69 | trimming leaves the longest non-empty suffix that fits, else the last chunk |
| RunLog.TrimAsItComes | src/gateway/infrastructure/run_log.py:63-70 | trimming chunk by chunk keeps what trimming the whole history at once would |
| RunLog.LogsAgreeWithHistory | src/gateway/infrastructure/run_log.py:55-134 | over any history of calls, a log is exactly that suffix of what was appended since its start; never too many logs; sizes are true |
| RunLog.EndedIffItWasEnded | src/gateway/infrastructure/run_log.py:55-84 | over any history a log reads ended exactly when it was ended since it was last made |
| RunLog.EvictedKeepsTheNewest | src/gateway/infrastructure/run_log.py:123-126 | eviction leaves the logs created last |
| RunLog.OrderIsOfCreation | src/gateway/infrastructure/run_log.py:55-61 | over any history the order of eviction is that of creation, appends and restarts notwithstanding |
| RunLog.StartForgetsTheFirstCreated | src/gateway/infrastructure/run_log.py:55-61 | at capacity a start forgets the log created first, even when it only replaces another; restarting that one empties it and puts it last |
| RunLog.ForgottenIsLeastRecentIff | src/gateway/infrastructure/run_log.py:33-35 | the log forgotten is the one least recently appended to exactly when every log created later was appended to no earlier |
| RunLog.AppendingDoesNotSaveALog | src/gateway/infrastructure/run_log.py:33-35 | from any full history, appending to the log created first makes it the most recent, and it is forgotten next all the same |

## Left out

- References: the store's text keys are a datatype of a prefix and what follows it, so two kinds of key never collide; plan ids are taken to hold no colon.
- Row ids and memos: random and descriptive; a repeated row id, which the store raises on, does not occur.
- Clocks: a command reads its clock once, and instants are whole ticks; delays are reals, rounding not modelled.
- Settling at its awaits: the chain is asked before the subscription row is looked up, with an await between; as what it answered is an argument, both are one step. A settling reads its clock once, and its grant's row carries that instant.
- FreeGrants.FreeGrantRate: with each settling one step; `SettlingsInTurn` has them cut, taking turns. Both hold when the chain names only paid plans, which the contract's refusal of a zero price suggests and nothing enforces.
- SplitSettling.UndisturbedForgivesNothing: one way; a debit in between may also be made good by a grant that lands in between, so that nothing is forgiven all the same. `NothingForgivenIffReadingsWereCurrent` is the two-way form, on the values read.
- Billing.BillingService.Checkout: the quote of an asset and the invoice id are arguments, and the catalog does not change.
- Catalog: plans and packs carry non-negative token counts; the concrete default catalog is data.
- Payment amounts: whole ten-millionths, or absent when the text does not parse; asset codes are compared after upper-casing ASCII letters only.
- Money.ParseOfShow: exponents, underscores, infinities, digits outside ASCII and surrounding whitespace, which a decimal text may also have, are not part of the model.
- SubscriptionsContract.Contract.Subscribe: the payment token is the standard asset contract, its own overflow aside; contract events, storage lifetimes and plan prices beyond 128 bits are not modelled.
- ChainAndLedger: the gateway credits its own catalog's tokens, not the count stored on chain with the plan; the model does as the gateway does.
- Stellar, Horizon and RPC calls, signatures and transaction building: what the network or the contract answered is an argument.
- Reconciliation: which pending invoices the query lists, and in which order, is an argument.
- x402 payments: they credit through `Credit` with their own key, which the histories include; the wire shapes are not modelled.
- Balancer.RoundRobinIsFair: a service's number of instances does not change.
- Breaker.DeadInstanceIsRarelyReached: one call at a time and a clock that does not go back; the other breaker lemmas allow any overlap and any clock.
- Retry.RetryingClient.Attempts: a cancellation while a response is being closed counts as one during the wait that follows; the transport's responses are listed in call order; streams and plain responses are treated alike.
- RunOrchestrator: its runs are a plain map, with eviction and expiry the machine's own step; `RunStore` is proved on its own. Timestamps and error texts of a run are left out.
- Orchestrator.RunOrchestrator.Start: what `authorize` said is an argument, and the rows it wrote are steps of the ledger's own; the console and the download are easy additions over the run's state.
- Planning answers: a JSON answer is what the gateway reads of it (texts of questions, purpose, counts of items); `prompt_for` is not modelled.
- StreamScan: decoding a line and finding an artifact id in it are given functions of the line.
- RunLog.InMemoryRunLog.Follow: one pass over the log with nothing in between; `LiveReader` has the log grow and be trimmed meanwhile, but not be restarted or forgotten under its reader. A limit of zero logs, which would raise, is excluded.
- RunLog: the parallel dictionaries of chunks, sizes and flags, always updated together, are one map of records; wake-up events are left out.
- HTTP routes, settings, health checks, header policy, identity and logging: wiring.
