# Verified models of the shop, payout, credit, generation and subscription protocols

The backend is a set of protocols that lock a row, commit an intent, call a provider that may
lose replies, answer late or answer from a stale read, lock again and settle. This project states
each protocol as a machine over its committed rows and proves what every run of it keeps.

## How the models are built

- Each protocol has a function `Do(state, step)`: one step is one committed transaction (or one
  operation of the provider, a worker or the clock) together with the choices the environment made:
  replies, crashes, rollbacks, late deliveries. A handler that refuses answers with an unchanged
  state. `Run` folds `Do` over any sequence of steps, and the main results quantify over all runs.
- Handlers that update rows in place are also written as classes and methods (`Session`,
  `PayoutRow`, the `Desk` classes, `Listener`, `Store`, `Board`) with the source's order of tests
  and assignments and its loops; each method is proved to perform exactly the step of the machine.
- The `...Safety`, `...Runs` and `...Stock` files prove what no run can break. The `...Laws` files prove
  the other half: exactly when a request, reply or report takes effect and what it then leaves, in the
  statuses and amounts themselves, and that each protocol reaches its end when its environment answers.
- Tables are sequences; the position of a row is its id and deleted rows stay as tombstones. Money
  is whole cents, rates are basis points, credits are integers, times are integers. Identifiers,
  keys and digests are abstract values compared for equality.
- `Common.dfy` holds the shared vocabulary and sums over tables.

| files | protocol |
|---|---|
| `Pricing`, `OrderRows`, `Shop`, `ShopSafety`, `ShopPrices`, `ShopStock`, `ShopLaws`, `ShopSession`, `Refunds`, `RefundLaws`, `RefundShop` | orders, stock holds, two-transaction capture, review, refunds |
| `Payouts`, `PayoutSafety`, `PayoutLaws`, `PayoutRow`, `Solvency`, `SolvencyLaws` | creator payouts and the balance they draw on |
| `Credits`, `CreditSafety`, `CreditHistory`, `LoginHistory`, `GenerationCosts`, `CreditRuns`, `CreditLaws`, `CreditDesk`, `Calendar`, `CalendarLaws` | balances, holds, rewards, grants and the credit log |
| `Results`, `ResultSafety`, `ResultLaws`, `ResultStrays`, `ResultListener` | at-least-once delivery of generation results |
| `Queues`, `QueueOrder`, `QueueLaws`, `QueueDesk` | priority promotion of queued jobs and reported positions |
| `Subscriptions`, `SubscriptionSafety`, `SubscriptionRuns`, `SubscriptionRetries`, `SubscriptionLaws`, `SubscriptionDesk` | subscription contracts, cancel intents, the selected contract |
| `Withdrawal`, `WithdrawalLaws`, `Ledger`, `LedgerWindows`, `LedgerLaws`, `Forum`, `ForumLaws` | resumable deletion, public ledger, comment trees |

## Assumptions about the outside

- PayPal payouts: a sender id is recognised for 30 days, a request is delivered within a day,
  terminal statuses are final except that a successful payment may come back, a batch whose header
  says denied or canceled holds no successful item, and a document says only what was true of its
  batch at some earlier time.
- PayPal refunds and subscriptions: a document may be stale but never invents a refund or the end of
  a contract; an end at the provider is final. A create request for a subscription is recognised for
  72 hours and delivered within one hour.
- Row locks make a transaction atomic; the clock does not run backwards. What a handler reads before
  its lock is not part of that: the clock of a login, the item of a deletion and the stock seen by a
  new or merged line are read earlier and are parameters of the step.
- Generation results: one listener runs, and workers report on rows that exist. In `ResultSafety` a
  Redis command whose outcome the listener cannot know ends it, apart from the acknowledgement and the
  first requeue, which may raise after being executed; `ResultStrays` has the listener that goes on
  after a lost reply of the pop or after both requeues failed.
- Nothing writes an object back into storage while it is being withdrawn.

## Where the code does not keep a promise

- **Two deletions of one item subtract its price twice** (`routers/order.py:765-784`). The handler
  reads the item, then waits for the order's lock, and never reads the item again. A second request that
  waited there subtracts the price of an item that is gone. The price never exceeds the sum of the
  items (`ShopSafety.EditsKeepPrices`), but it is that sum exactly while no such deletion happens with
  something priced left (`ShopPrices.StepSummedIff`, over runs `ShopPrices.PricesAreSumsIff`); the clamp
  at zero acts exactly when the item was dearer than all that is left (`ShopPrices.DeletionPrice`).
  `ShopPrices.OverlapUndercharges` is a run that ends in a checkout below the price of the items.
- **A stale confirmation settles a rejected order again** (`routers/order.py:304-306`). The second
  transaction of a confirmation re-locks the row and returns early only for paid, shipping and
  completed orders. If an administrator rejects the order between the two transactions of another
  confirmation, that confirmation settles the order once more, whether its refund is pending or done.
  - Stock: the consumed flag is cleared. `ShopStock.ConservedIff` and `Refunds.AccountedIff` give the
    exact condition for one step, `ShopStock.GapLosesStock` the run, and `ShopStock.StockConserved`
    conservation without that interleaving.
  - Refunds: a refunded order stays refunded exactly when no such confirmation lands
    (`Refunds.RefundedFinalIff`); otherwise it can be approved and produced although the buyer has the
    money back (`Refunds.RefundedGetsProduced`). A second rejection restarts the six hours of the
    refund request, so the same key can be posted at any later time and be executed twice
    (`Refunds.StaleFinishPaysTwice`). What holds without a stale confirmation is
    `Refunds.RefundedMeansPaidBack`; what holds in spite of it is `Refunds.RefundedOnlyIfPaidBack`.
- **A second refund also needs a forgetful provider** (`figure_orders.py:94-99`). At most one refund is
  made over every run exactly when the request key is remembered for six hours plus the delivery
  delay and no confirmation of the order is between its transactions at the rejection
  (`Refunds.OneRefundIff`); the six-hour cut-off of the handler alone leaves no room for a request that
  was sent in time and arrives late (`Refunds.ForgetfulProviderPaysTwice`).
- **A login that waits past midnight is paid out of turn** (`backend_utils.py:131-160`). The clock is
  read before the Redis lock and the row lock, and the day it read is compared and stored under the
  lock. If the day ended meanwhile, the stored day moves back, the log gets a second line for the
  present day, and a day already paid is paid again (`LoginHistory.StaleLoginReopensDay`). One line per
  day and per month holds exactly when no paying login outlives the day it read
  (`LoginHistory.OnceIffPrompt`); a day stays paid exactly when no login pays for an earlier one
  (`LoginHistory.DayClosedIff`).
- **A result can be lost while results are being recovered** (`routers/generate.py:880-884`). The
  message is popped from one list and pushed to the other by two commands. A crash between them
  loses it exactly when it was not applied before and no other copy waits (`ResultSafety.LostIff`);
  `ResultSafety.GapLosesMessage` is such a run.
- **A lost reply lets a late report undo a failure** (`routers/generate.py:1046-1106`). When the reply of
  the pop is lost, or both requeues fail, the listener goes on and the message stays in the processing
  list until the next restart. Nothing is lost (`ResultStrays.StrayLostIff`), and messages taken in turn
  are applied in order (`ResultStrays.StrayDrainedIsInOrder`), but a message taken while another waits
  there overtakes it (`ResultStrays.Overtaken`). A failed row takes any status, so the progress report
  that comes back after the failure leaves the generation running and refunded
  (`ResultStrays.StrayUndoesFailure`).
- **A cancellation can drop out of the retries** (`subscription_lifecycle.py:138-147`). Merging an
  attempt moves its cancel intent to the surviving row but not its `next_check_at`, and the retry job
  only picks rows where that is set. `SubscriptionRetries.StepRetriedIff` gives the exact condition for
  every transaction: the surviving row was open and unscheduled, the reply does not end it, and nothing
  later in the transaction schedules it. `SubscriptionRetries.MergeForgetsRetry` gives two runs: a
  checkout that sends an attempt cancelled meanwhile and stops after the commit in `select_contract`,
  and a pass of the retry job whose create reply carries an unknown status and therefore raises after
  the merge. In both the contract stays "cancellation pending" until something else touches it.
- **A reply with an empty parent id disappears** (`routers/forum.py:644-657`, `schemas.py:310-312`).
  An empty string skips the parent check but is stored, so the comment is neither first-level nor a
  reply. The tree of a post holds every comment exactly when no comment was stored that way
  (`Forum.TreeIsPermutation`).

## Model

| member | source | states |
|---|---|---|
| Pricing.Portion | creator_referrals.py:96-97 | the result is the rounding of cents * rate: at most half a cent away, a tie going up; a rate of at most 100 % never exceeds the base |
| Pricing.PriceOffer | creator_referrals.py:100-108 | 0 <= discount <= subtotal, discount + total = subtotal + shipping, the commission is the net at its rate to the nearest cent, and 0 without an offer |
| Pricing.TwoRoundings | creator_referrals.py:100-106 | the promotion is taken from the subtotal and the creator discount from what is left, each to the nearest cent |
| Pricing.NetNearExact | creator_referrals.py:100-106 | both roundings together stay within one cent of the exact product of the two rates |
| Pricing.NetMonotone | creator_referrals.py:100-108 | a dearer cart never costs less and a larger promotion never costs more |
| ShopSafety.EditsKeepPrices | routers/order.py:574-582 | merging and deleting items keep discount and total the repricing of the price and the price at most the sum of the items, even if another request removed the item first |
| ShopSafety.StepValid | routers/order.py:260-322 | every transaction keeps all row invariants: price at most the items, total its repricing, not both reserved and consumed, reserved only while unpaid, vouchers bound to their order and total |
| ShopSafety.RunValid | routers/order.py:260-322 | the same over every run |
| ShopSafety.CaptureFreezesOrder | routers/order.py:300-304 | after capture_started, no later transaction changes voucher, items or total, and none cancels, expires or deletes the order |
| ShopSafety.OneVoucherPerOrder | routers/order.py:260-322 | all capture calls ever made for an order, over any interleaving of confirmations, name one voucher and charge the order's total |
| ShopSafety.NothingShipsUnreviewed | routers/figure_admin.py:117-138 | in every reachable store a print order is in production, shipped or completed only with an approval on record, also when payments, reviews and refunds overlap |
| ShopSafety.FromOpening | routers/order.py:260-322 | all of these together, from a shop without orders |
| ShopPrices.DeletionPrice | routers/order.py:781-784 | how far a deletion leaves the price below the items: not at all, or by the price of an item that is gone, down to zero; when the clamp acts |
| ShopPrices.StepSummedIff | routers/order.py:765-784 | a transaction leaves an order charging the sum of its items if and only if it is not a deletion of a priced item that was removed before its lock, with something priced left |
| ShopPrices.PricesAreSumsIff | routers/order.py:765-784 | every order charges the sum of its items in every state of a run if and only if the run has no such deletion |
| ShopPrices.CapturesChargeItems | routers/order.py:260-322 | from a shop without orders, no capture is over more than the items of its order cost at its rates, and each is over exactly that in a run without such a deletion |
| ShopPrices.OverlapUndercharges | routers/order.py:765-784 | from any open order with two priced items, two overlapping deletions of one and a checkout make a voucher over less than the rest costs |
| ShopLaws.CheckoutIff | routers/order.py:814-886 | a checkout goes through exactly with an address and every piece on the shelf; the pieces leave it for thirty minutes and the voucher is over the total |
| ShopLaws.HoldReturns | order_inventory.py:56-87 | an overdue hold and one of a cancelled order go back piece by piece; a hold that is not due stays |
| ShopLaws.PlacedOrder | routers/order.py:467-600 | a print order is accepted exactly for a known model and a quantity within the stock seen, and holds its pieces at the priced total |
| ShopLaws.MergedLine | routers/order.py:560-582 | a merged line adds exactly its pieces and price, within ten pieces and the stock seen |
| ShopLaws.RemovedItem | routers/order.py:781-804 | a removed item takes its piece and price with it; the last one cancels the order without shipping |
| ShopLaws.FinishSettles | routers/order.py:304-319 | an unsettled order is captured once for its total, and becomes paid and waiting for review exactly when the payment is captured or completed |
| ShopLaws.OrderIsDelivered | routers/order.py:260-322 | from any store an open order whose pieces are on the shelf can be paid, approved, produced and delivered, with one capture over its total and exactly its pieces gone |
| ShopStock.StepUnits | order_inventory.py:36-65 | per model, stock + reserved + consumed quantities move exactly by an administrator's edit and by what a stale confirmation loses |
| ShopStock.ConservedIff | routers/order.py:300-319 | one step conserves the sum if and only if it is not a stale confirmation of a rejected order that holds the model |
| ShopStock.StockConserved | order_inventory.py:36-87 | over every run in which no order is rejected between the two transactions of a confirmation, the sum changes only by administrators' edits |
| ShopStock.GapLosesStock | routers/order.py:304-319 | from any checked-out order a run with such a rejection ends with exactly the order's quantities missing |
| ShopSession.Quantities | order_inventory.py:24-25 | the counter holds each ordered model with its quantity and nothing else |
| ShopSession.TakeAll | order_inventory.py:42-50 | the loop takes the quantities of all models or, if any is short, none |
| ShopSession.GiveAll | order_inventory.py:60-63 | the loop gives back exactly the quantities of each model |
| ShopSession.MarkPaid | routers/order.py:310-318 | the columns of a settled order: paid, time, capture, review state, backorder mark, consumed in place of reserved |
| ShopSession.MarkReviewed | routers/figure_admin.py:84-100 | a decision applies once, to paid orders awaiting review; a rejection queues the refund |
| ShopSession.ApplyFinding | figure_orders.py:26-54 | a refund document is applied only when id, amount, capture and status fit; otherwise a person is asked |
| ShopSession.Investigate | figure_orders.py:64-99 | which document decides, and that a refund is posted only without a known refund, for one completed capture, within six hours |
| ShopSession.Session.ReserveInventory | order_inventory.py:36-53 | holds every model of a print order for 30 minutes, or changes nothing |
| ShopSession.Session.ReleaseInventory | order_inventory.py:56-65 | gives the hold back |
| ShopSession.Session.ReleaseOverdue | order_inventory.py:78-87 | one overdue hold is released with its voucher, after the row was locked again |
| ShopSession.Session.ExpireInventoryHolds | order_inventory.py:68-87 | the sweep releases exactly the overdue holds, one transaction each, and leaves none overdue |
| ShopSession.Session.CancelOrder | routers/order.py:670-690 | cancels only unpaid orders that are not being captured, and gives their hold back |
| ShopSession.Session.DeleteOrderItem | routers/order.py:759-810 | takes away the price of the item that was read before the lock, removes the item, reprices, drops voucher and hold, and cancels the emptied order |
| ShopSession.Session.MergeIntoOrder | routers/order.py:541-582 | adds a line to an open cart within stock and limits, reprices and reopens its checkout |
| ShopSession.Session.CreatePaypalOrder | routers/order.py:814-886 | holds stock, then keeps or replaces the voucher, which is bound to the order and its total |
| ShopSession.Session.BeginCapture | routers/order.py:260-303 | first transaction of a confirmation: verified voucher, held stock or backorder, capture_started |
| ShopSession.Session.SettleCapture | routers/order.py:304-319 | second transaction: a settled order is left alone, else the voucher is captured and the order paid |
| ShopSession.Session.Review | routers/figure_admin.py:78-104 | the review transaction |
| ShopSession.Session.UpdateFulfillment | routers/figure_admin.py:117-138 | approved orders move from preparing to printing, shipping and completed, in that order only |
| ShopSession.Session.ProcessRefund | figure_orders.py:58-109 | one refund transaction; consumed stock returns with the completed refund |
| Refunds.OneRefundIff | figure_orders.py:81-99 | with crashes, lost replies, late deliveries, retries, reviews and confirmations, at most one refund carries the order's key over every run if and only if the provider remembers it for six hours plus the delay and no confirmation is between its two transactions at the rejection |
| Refunds.OneRefundUnlessStale | figure_orders.py:81-99 | at most one refund in every run in which no stale confirmation settles the order again |
| Refunds.RefundedOnlyIfPaidBack | figure_orders.py:26-55 | over every run, stale confirmations included, an order says refunded only with a completed provider refund of its full total |
| Refunds.RefundedMeansPaidBack | figure_orders.py:26-55 | unless a stale confirmation settles it again, the order stays under its refund, keeps its pieces while it is pending and puts them back exactly once |
| Refunds.AccountedIff | routers/order.py:304-319 | one step keeps the count of held and returned pieces if and only if it is not a stale confirmation of an order that holds them |
| Refunds.RefundedFinalIff | routers/order.py:304-310 | a step leaves a refunded order refunded if and only if it is not a stale confirmation |
| Refunds.RefundedGetsProduced | routers/order.py:304-310 | from any refunded order with a live confirmation a run puts it into production while the buyer keeps the refund |
| Refunds.StaleFinishPaysTwice | figure_orders.py:91-99 | whatever the provider remembers, a run with a stale confirmation and a second rejection makes two refunds and loses the pieces |
| Refunds.ForgetfulProviderPaysTwice | figure_orders.py:94-99 | with a shorter memory a concrete run pays twice |
| RefundLaws.RefundedIff | figure_orders.py:26-49 | a waiting order becomes refunded if and only if the deciding document is a completed refund of its full total with a fitting id and capture; then it gives up its pieces |
| RefundLaws.OtherAnswers | figure_orders.py:26-55 | what pending, failed, misfitting and missing answers leave behind |
| RefundLaws.PersonIsAsked | figure_orders.py:64-99 | with an unclear payment, several refunds or after six hours a person is asked and nothing is posted |
| RefundLaws.PiecesReturn | figure_orders.py:41-49 | the shelf gets exactly the consumed quantities of the order, with the completed refund and not otherwise |
| RefundLaws.CompletedIsRecorded | figure_orders.py:58-109 | once the provider completed a refund of the full total, an answered synchronisation closes the order, whatever was lost before |
| RefundLaws.RejectedEndsRefunded | figure_orders.py:58-109 | from any rejection a run with a lost reply and a crash ends refunded, paid back, with the pieces returned once |
| RefundShop.ShopStepIsRefundStep | routers/order.py:260-322 | every transaction of the shop acts on an order under capture as a step of the refund machine, with the same number of live confirmations |
| RefundShop.RefundIsSync | figure_orders.py:58-109 | with answers that invent no refund, the shop's refund transaction is an uninterrupted refund step of the refund machine |
| RefundShop.RejectionIsRejected | routers/figure_admin.py:84-100 | a first rejection of a paid print order in the shop is the state where the refund results begin; an order rejected again after a stale confirmation may carry a refund id and is not in it |
| PayoutSafety.StepInv | creator_payouts.py:129-183 | every claim, call, reply, crash, expired lease and late delivery keeps the invariant |
| PayoutSafety.AtMostOneBatch | creator_payouts.py:129-183 | one payout yields at most one provider batch over every run |
| PayoutSafety.ClosedIsFinal | creator_payouts.py:129-183 | those states are final, and from then on the provider never holds an unreturned payment for it |
| PayoutSafety.PaidOnlyReturns | creator_payouts.py:122-124 | a paid payout is paid or returned after every further run |
| PayoutSafety.RequestedPayout | creator_payouts.py:129-183 | these from the request on: one batch, the requested amount, closed for good and without an unreturned payment |
| PayoutLaws.SettlesAs | creator_payouts.py:92-126 | which status each of PayPal's item statuses leaves: paid exactly for a success, or for a paid payout whose money did not come back |
| PayoutLaws.MisfitNeedsPerson | creator_payouts.py:92-121 | a document about another payout, batch, recipient or amount moves no money and asks for a person |
| PayoutLaws.ErrorSettlesAs | creator_payouts.py:163-183 | an error fails the payout exactly when PayPal rejected the first create request outright; otherwise the money stays held |
| PayoutLaws.CheckTimes | creator_payouts.py:180-181 | the times between checks: 1, 2, 4, 8 and then 15 minutes, a day once paid |
| PayoutLaws.SuccessIsRecorded | creator_payouts.py:129-183 | from every reachable state of an open payout whose money has gone out, the next answered check records it as paid, even if the batch id was lost |
| PayoutLaws.RequestEndsPaid | creator_payouts.py:129-183 | every approved request can end paid with its amount and its one batch, however long PayPal takes |
| PayoutRow.PayoutRow.ClaimLease | creator_payouts.py:134-155 | the lease, the attempt number and the call they commit to, with every refusal |
| PayoutRow.PayoutRow.ApplyPaypalResult | creator_payouts.py:92-126 | which documents change the row, to what, and which raise |
| PayoutRow.PayoutRow.CheckInterval | creator_payouts.py:180-180 | the doubling interval is between 30 and 900 seconds, a day once paid |
| PayoutRow.PayoutRow.Settle | creator_payouts.py:163-183 | a reply counts only for the current attempt; ambiguous failures keep the money held |
| PayoutRow.PayoutRow.Review | routers/creators.py:252-267 | only a payout awaiting review is approved or rejected |
| Solvency.NeverOverdrawn | creator_payouts.py:60-70 | in every reachable state held + paid <= eligible commission for every creator, so the adjustment is 0 and no payout is rejected as balance_changed |
| Solvency.OnePayoutPerRequest | routers/creators.py:207-220 | a request key owns one payout however often it is sent |
| SolvencyLaws.RequestIff | routers/creators.py:204-220 | a request is accepted exactly for a new key and an amount covered by eligible commission neither held nor paid, and is then held |
| SolvencyLaws.CommissionCanBeRequested | routers/creators.py:204-220 | the commission of a completed order can be requested three days after its payment, whatever else was sold |
| Solvency.CompletedForGood | routers/figure_admin.py:117-138 | a completed order keeps its commission, owner and eligibility over every later run |
| Calendar.MonthOfIff | backend_utils.py:164-166 | a day is in a month exactly between the two firsts |
| CalendarLaws.FirstIsGregorian | backend_utils.py:164-166 | the first of every month is on the day where the Gregorian calendar has it, by the closed formula of leap years |
| Calendar.WindowEnds | backend_utils.py:164-166 | the window ends one microsecond before the next month, leap years included |
| Calendar.WindowIsMonth | backend_utils.py:164-173 | an instant is in the computed window if and only if it is in the same calendar month |
| Credits.FindHold | routers/space_billing.py:125-125 | the row of a reservation id, or that there is none |
| Credits.OldestLegacy | backend_utils.py:245-254 | the oldest unkeyed grant of the subscription since the payment, whatever the order of the rows |
| CreditSafety.StepFunded | routers/space_billing.py:131-178 | every mover keeps holds covered by balances, ids unique and budgets respected |
| CreditHistory.StepLogged | routers/generate.py:770-785 | every mover changes the balance by what it logs; the clamp at zero never acts |
| CreditHistory.StepBooked | backend_utils.py:234-284 | no step counts a grant, refund, purchase or hosting hour a second time |
| GenerationCosts.StepCosted | routers/generate.py:993-1039 | the log lines of a generation add up to minus its debit, or to zero once refunded |
| CreditRuns.HoldsAlwaysCovered | credit_balance.py:2-5 | in every reachable state holds <= balance, the spendable amount is the exact difference, and the balance is the opening balance plus the lines logged since |
| CreditRuns.CaptureNeverFails | routers/space_billing.py:168-177 | capturing any reserved hold in any reachable state passes the balance check, lowers the balance by exactly one and leaves the spendable amount alone |
| CreditRuns.HostingOnce | routers/space_billing.py:85-196 | per reservation id one row, a debit if and only if captured and then exactly one of one credit; reserved + captured per authorization never exceed its budget |
| CreditRuns.SettledForGood | routers/space_billing.py:159-177 | captured and released (tombstones included) are final under duplicated, late or reordered messages |
| LoginHistory.RewardsOncePerDayAndMonth | backend_utils.py:129-226 | while no paying login outlives the day it read, the log holds one daily line per user and day and one monthly line per user and month |
| LoginHistory.OnceIffPrompt | backend_utils.py:131-160 | after a step, once per day and month holds in every prompt continuation if and only if the step is not a login that pays for a day that is over |
| LoginHistory.DaysPaidOnce | backend_utils.py:131-160 | each day is paid at most once, in order, while no login pays for a day before the recorded one |
| LoginHistory.DayClosedIff | backend_utils.py:131-160 | the recorded day is not paid again in any forward continuation if and only if the step is not a login that pays for an earlier day |
| LoginHistory.StaleLoginReopensDay | backend_utils.py:131-160 | a run in which a login waits past midnight pays one day twice |
| CreditRuns.RewardedOnceEach | backend_utils.py:129-226 | two daily lines of a user are on different days, two monthly lines in different months, while no paying login outlives its day |
| CreditRuns.CreditedOnce | backend_utils.py:234-284 | one line per paid cycle (adopted grants included), purchase and refund |
| CreditRuns.SaleOnce | routers/webhooks.py:132-204 | a sale id is credited once: the same sale delivered again, after any run and with any content, changes nothing |
| CreditRuns.RefundUndoesDebit | routers/generate.py:978-1039 | a refunded generation cost its owner nothing, any other exactly its debit, also for rows older than stored charges |
| CreditRuns.LoginPays | backend_utils.py:129-226 | a login whose day still lasts: the first of a UTC day pays the daily reward, the first of a calendar month ten credits more, any other nothing |
| CreditLaws.ChargeIff | routers/generate.py:770-785 | a generation is charged exactly when the balance that is not held covers it, and then exactly its cost |
| CreditLaws.RefundGivesBack | routers/generate.py:993-1039 | the first refund gives exactly the charged credits back, later ones nothing |
| CreditLaws.GrantAdds | backend_utils.py:235-284 | the first grant of a payment adds exactly its credits, a historical line is adopted instead, a known payment changes nothing |
| CreditLaws.ReserveIff | routers/space_billing.py:131-150 | a reservation is accepted exactly for a new id under an enabled authorization with budget and a free credit left |
| CreditLaws.EarlyRelease | routers/space_billing.py:159-177 | a release before its reservation leaves a tombstone that refuses the reservation |
| CreditLaws.HourIsBilledOnce | routers/space_billing.py:131-178 | an hour reserved, captured, repeated and released late costs one credit, in one line and one row |
| CreditDesk.Desk.AvailableBalance | credit_balance.py:2-5 | never negative; together with the open reservations exactly the balance while they are covered; an open reservation always leaves less than the balance |
| CreditDesk.Desk.ChargeGeneration | routers/generate.py:770-785 | a debit succeeds exactly when the spendable balance covers it |
| CreditDesk.Desk.RefundGeneration | routers/generate.py:993-1039 | one refund per generation; a missing user changes nothing |
| CreditDesk.Desk.AwardDailyLogin | backend_utils.py:129-226 | the monthly and daily rewards of a first login of the day that was read |
| CreditDesk.Desk.AwardSubscription | backend_utils.py:235-284 | known payment: nothing; historical grant: adopted; otherwise credited |
| CreditDesk.Desk.RecordSale | routers/webhooks.py:153-204 | a recorded sale is left alone, a new one is recorded and granted |
| CreditDesk.Desk.CapturePurchase | routers/credit.py:154-195 | a payment is credited unless it was before |
| CreditDesk.Desk.DisableEarlier | routers/space_billing.py:102-104 | the loop turns off exactly the earlier authorizations of the entity |
| CreditDesk.Desk.Authorize | routers/space_billing.py:85-109 | an operation id creates one authorization and repeating it changes nothing |
| CreditDesk.Desk.Reserve | routers/space_billing.py:131-150 | a hold is taken only under an enabled authorization with budget and credits left |
| CreditDesk.Desk.Settle | routers/space_billing.py:153-178 | capture and release, their conflicts, and the tombstone of an early release |
| CreditDesk.Desk.Revoke | routers/space_billing.py:186-196 | exactly this authorization is turned off, and only while its owner exists |
| ResultSafety.ApplyTwice | routers/generate.py:901-975 | applying a result and its refund twice is applying it once |
| ResultSafety.SuccessIsFinal | routers/generate.py:908-914 | over every run, whatever is delivered again, late or out of order, a successful row keeps its result and changes only by being withdrawn |
| ResultSafety.OutsideSettles | routers/generate.py:901-914 | charges, logins, grants, hosting and withdrawals by others never make an applied message effective again |
| ResultSafety.EffectivelyOnce | routers/generate.py:1042-1106 | every run, with crashes between pop, commit, acknowledgement and requeue and with other writers, has the database of a queue whose messages are applied at most once in order; a message is lost only by a crash inside the recovery move that finds it not applied |
| ResultSafety.LostIff | routers/generate.py:877-887 | in every reachable state, a step takes an unapplied message out of the lists if and only if it is a crash inside the recovery move with that message in hand and no other copy waiting |
| ResultSafety.DrainedIsInOrder | routers/generate.py:1042-1106 | without other writers and without a crash that loses the next unapplied message, the drained database equals applying each pushed message exactly once in queue order, refunds and balances included |
| ResultSafety.GapLosesMessage | routers/generate.py:880-884 | from any database, a message with an effect is lost by a run that crashes inside the recovery move |
| ResultLaws.ReportEffect | routers/generate.py:901-975 | a report changes its row if and only if current status, incoming status, stage and model allow it, and then field by field to what it says |
| ResultLaws.FailureRefunds | routers/generate.py:1069-1075 | an effective failure that cannot be recovered refunds the generation; no other report touches a balance |
| ResultLaws.DrainedSuccess | routers/generate.py:1042-1106 | once drained without a loss, a running generation for which a success was pushed has finished with the result of its first success |
| ResultLaws.TurnDelivers | routers/generate.py:1046-1096 | an undisturbed turn commits the oldest success and removes it from both lists |
| ResultStrays.StrayLostIff | routers/generate.py:1042-1106 | also when replies of the pop are lost and requeues fail, a step takes an unapplied message out of the lists if and only if it is a crash inside the recovery move with no other copy left |
| ResultStrays.InTurnIsHeard | routers/generate.py:1042-1106 | a run that takes a message only while none waits unacknowledged has the database and lists of a run without lost replies |
| ResultStrays.StrayDrainedIsInOrder | routers/generate.py:1042-1106 | taken in turn, the drained database equals applying each pushed message exactly once in order |
| ResultStrays.Overtaken | routers/generate.py:1042-1106 | out of turn, the next message is applied before the one left behind, which the restart delivers afterwards |
| ResultStrays.StrayUndoesFailure | routers/generate.py:901-932 | from any database with a pending generation, after one lost reply and a restart a failed generation is refunded and still running, while the reports in order fail it |
| ResultListener.LogRow.StoreEdited | routers/generate.py:954-964 | an internal artifact never overwrites the text or image edit |
| ResultListener.LogRow.ApplyResultUpdate | routers/generate.py:935-975 | when a message updates a row and every field it writes |
| ResultListener.Listener.Pop | routers/generate.py:1049-1056 | the oldest message moves to the processing list |
| ResultListener.Listener.CommitMessage | routers/generate.py:1069-1084 | one transaction: status and refund together, or nothing when the refund raises |
| ResultListener.Listener.Acknowledge | routers/generate.py:890-891 | the message's count in the processing list drops by one; every other message keeps its copies and order |
| ResultListener.Listener.RequeueMessage | routers/generate.py:894-898 | a message in hand changes lists without loss or copy, is the next one to be read, and no other message moves |
| ResultListener.Listener.RecoverInflight | routers/generate.py:877-887 | every unacknowledged message moves back; with at most one, delivery order is kept |
| ResultListener.Listener.Turn | routers/generate.py:1046-1096 | an undisturbed turn applies the next message and removes it, or puts it back when its refund raises |
| Queues.PromoteMoves | generation_priority.py:31-40 | promotion keeps every job's number of places exactly when the job was listed once, and never touches a job a worker popped |
| Queues.NoJobLostOrDoubled | generation_priority.py:28-40 | over every interleaving of enqueues, promotions, workers that pop before marking, retries and cancellations, each unfinished job is in exactly one place |
| Queues.FromEmpty | generation_priority.py:28-40 | the same from empty queues, job by job, with the queue of its origin or promotion |
| Queues.PromotionFair | routers/generate.py:405-416 | promoting a job never worsens its own position, delays by one exactly the normal jobs ahead of it and leaves the others alone |
| Queues.PositionIsWait | routers/generate.py:405-416 | the reported position is the number of pops before the job's own |
| Queues.SyncInCreationOrder | generation_priority.py:76-101 | a pass without other steps between its scripts is one append to the priority queue of exactly the promotable candidates, in their order, and removes exactly them from the normal one |
| QueueOrder.PromotedInOrder | generation_priority.py:76-101 | with workers, retries, enqueues and other passes between the scripts, of two promoted jobs the earlier one stays ahead and is popped first, unless it was popped and put back meanwhile |
| QueueLaws.PromotedIff | generation_priority.py:76-101 | a pass promotes a waiting job if and only if its generation is listed and not cancelled and it is one of its stages or queued polls; all others stay |
| QueueLaws.PromotedByGeneration | generation_priority.py:80-101 | promoted jobs stand in the priority queue by the place of their generations in the list, within one by stage and then as they were polled |
| QueueLaws.JobIsRun | routers/generate.py:405-416 | every new job is handed to a worker after exactly as many pops as its position says |
| QueueDesk.Desk.PromoteJob | generation_priority.py:31-40 | the script changes the job's record only after its removal from the normal queue succeeded |
| QueueDesk.Desk.SyncPriority | generation_priority.py:85-101 | the nested loops perform the pass of `QueueLaws.PromotedIff` and `QueueLaws.PromotedByGeneration` over the queue's snapshot of polls, here without other steps between the scripts |
| QueueDesk.Desk.QueuePosition | routers/generate.py:405-416 | the index in priority queue followed by normal queue, 0 when absent |
| Subscriptions.Find | subscription_lifecycle.py:80-80 | the live row of a contract id, or that there is none |
| SubscriptionSafety.LinkedInv | subscription_lifecycle.py:134-149 | naming or merging an attempt keeps ids unique and hands its cancel intent to the surviving row |
| SubscriptionSafety.CancelOneInv | subscription_lifecycle.py:155-182 | a reported success means the contract's end is recorded and true at the provider |
| SubscriptionSafety.RoundInv | subscription_lifecycle.py:193-202 | a successful round has ended every row that asked to be cancelled |
| SubscriptionSafety.PassIsRound | subscription_lifecycle.py:306-317 | a pass of the retry job, which leaves out ended rows, does what the second transaction of cancel_all does |
| SubscriptionRuns.StepInv | subscription_lifecycle.py:185-294 | every transaction, committed or rolled back, keeps the invariant |
| SubscriptionRuns.PointerNeverDropsLiveContract | subscription_lifecycle.py:205-235 | the selected contract is replaced only after its end was recorded, and that end is real at the provider |
| SubscriptionRuns.EndsAndIntentsAreKept | subscription_lifecycle.py:99-117 | after any stale reads and events a recorded end keeps its terminal status, and a cancel intent stays or lives on in the merged row |
| SubscriptionRuns.UnconfirmedEndIsOpen | subscription_lifecycle.py:98-109 | a terminal status without a recorded end carries no provider timestamp, so the next document is not dismissed as stale |
| SubscriptionRuns.CancelAllMeansEnded | subscription_lifecycle.py:185-202 | if cancel_all reports success, every contract known at its intent, or the row it was merged into, has ended at the provider, whatever ran in between and in whatever order the rows were visited |
| SubscriptionRetries.StepRetriedIff | subscription_lifecycle.py:138-147 | a transaction keeps every open cancellation scheduled for the retry job if and only if it does not move an intent into an open, unscheduled row that neither the reply nor the rest of the transaction ends or schedules |
| SubscriptionRetries.CancellationsStayScheduled | subscription_lifecycle.py:297-317 | every open cancellation is scheduled in every state of a run if and only if no step of it forgets one in that way |
| SubscriptionRetries.MergeForgetsRetry | subscription_lifecycle.py:138-147 | from any opening two runs, an overlapping checkout and a create reply with an unknown status, leave a contract that waits for its cancellation without a scheduled check |
| SubscriptionRuns.OneContractPerRequest | subscription_lifecycle.py:120-128 | create calls carry reserved ids less than 71 hours old, and one id never makes two contracts |
| SubscriptionLaws.ReservesIff | subscription_lifecycle.py:250-277 | an attempt and a request id are reserved if and only if nothing is open; one active or suspended contract is selected instead; with several nothing changes |
| SubscriptionLaws.CheckoutReservesIff | subscription_lifecycle.py:238-277 | over a checkout, attempts and request ids grow if and only if the refresh went through, left nothing open and the transaction commits |
| SubscriptionLaws.EndedMaySubscribeAgain | subscription_lifecycle.py:238-277 | once all contracts have ended, a checkout reserves exactly one new attempt |
| SubscriptionLaws.EndSeenAtCheckout | subscription_lifecycle.py:238-277 | an end that the checkout reads itself is recorded and the new attempt reserved behind it |
| SubscriptionLaws.ActiveIsKept | subscription_lifecycle.py:238-266 | a checkout of a user with one open contract, read without a surprise, adds no attempt and no request id |
| SubscriptionLaws.CheckoutSubscribes | subscription_lifecycle.py:238-294 | a user without contracts ends a checkout with one selected active contract, made by one request |
| SubscriptionLaws.EndedIsReplaced | subscription_lifecycle.py:216-235 | a selected contract that ended gives way to an open one that is asked for or newer |
| SubscriptionLaws.SecondIsStopped | subscription_lifecycle.py:216-235 | while the selected contract is open, another one is stopped and the selection stays |
| SubscriptionLaws.ConfirmedCancelEnds | subscription_lifecycle.py:155-182 | a confirmed cancel call ends the contract here and at the provider and is reported as success |
| SubscriptionLaws.SecondReadEnds | subscription_lifecycle.py:165-177 | a cancel call that was executed but raised is a success when the second read shows the end |
| SubscriptionLaws.FirstReadEnds | subscription_lifecycle.py:161-165 | a contract that the first read shows as ended is recorded as ended, without a call |
| SubscriptionLaws.StoppedIsCancelled | subscription_lifecycle.py:155-182 | a stopped contract is ended; a rollback forgets the row but not what the provider did |
| SubscriptionLaws.UnheardCancel | subscription_lifecycle.py:165-177 | a cancel call without a confirmation or a second answer is no success and is tried again in a minute |
| SubscriptionLaws.CooperativeCancelAll | subscription_lifecycle.py:185-202 | if every contract confirms, cancel_all reports success and has ended every contract, in any order |
| SubscriptionDesk.Desk.ApplyDocument | subscription_lifecycle.py:92-111 | which documents raise, which are stale, and every field the others write |
| SubscriptionDesk.Desk.Link | subscription_lifecycle.py:134-149 | the contract id is stored, or the attempt merged and deleted |
| SubscriptionDesk.Desk.Recover | subscription_lifecycle.py:120-152 | replay within 71 hours, checks of the reply, link and status |
| SubscriptionDesk.Desk.Fetch | subscription_lifecycle.py:161-164 | one read applied to a row |
| SubscriptionDesk.Desk.StopContract | subscription_lifecycle.py:165-177 | the cancel call, and a second read when it raised |
| SubscriptionDesk.Desk.CancelContract | subscription_lifecycle.py:155-182 | recover, read, cancel; success only when confirmed |
| SubscriptionDesk.Desk.RequestAll | subscription_lifecycle.py:185-192 | the first transaction marks every known contract |
| SubscriptionDesk.Desk.CancelAll | subscription_lifecycle.py:193-202 | the second transaction's loop and the success it reports |
| SubscriptionDesk.Desk.ApplyCutoff | subscription_lifecycle.py:207-210 | approvals older than the last cancellation are cancelled too |
| SubscriptionDesk.Desk.FinishSelection | subscription_lifecycle.py:216-235 | stop, keep or select |
| SubscriptionDesk.Desk.SelectContract | subscription_lifecycle.py:205-235 | the selection up to its first commit |
| SubscriptionDesk.Desk.ReserveCheckout | subscription_lifecycle.py:250-277 | the request id is stored before any call; an only open contract is selected |
| Withdrawal.DeletedMeansGone | skin_withdrawal.py:29-120 | after any failures, crashes, retries and repeated requests a finished withdrawal has no manifest key left in storage, its invalidation is complete unless an attempt allowed it to be pending, and recorded progress is true at all times |
| Withdrawal.CommittedProgress | skin_withdrawal.py:61-65 | a committed attempt whose first open key was deleted leaves strictly fewer keys |
| Withdrawal.WorkingAttemptsFinish | skin_withdrawal.py:51-120 | a run with one more working attempt than there are keys ends the withdrawal, whatever fails, crashes or is requested again in between |
| WithdrawalLaws.StorageSuffices | skin_withdrawal.py:51-105 | where no CDN copy can exist, one attempt whose deletions succeed ends the withdrawal |
| WithdrawalLaws.PublishedWaits | skin_withdrawal.py:67-89 | a published skin is withdrawn exactly when its invalidation is complete or may stay pending; otherwise its progress is kept |
| WithdrawalLaws.PublishedEndsGone | skin_withdrawal.py:29-120 | a published skin from the request to the end: files gone, invalidation complete, references cleared |
| Withdrawal.DeleteKeysHonest | skin_withdrawal.py:61-65 | the key loop records only what is gone, keeps what was recorded, and finishes only with every key recorded |
| Withdrawal.Desk.DeleteObjects | skin_withdrawal.py:61-65 | the key loop |
| Withdrawal.Desk.ResumeWithdrawal | skin_withdrawal.py:51-120 | one attempt, over only when the manifest is gone |
| Ledger.GroupRows | routers/ledger.py:265-279 | the groups are exactly those of the dated rows, each with the sums of its revenue and expense |
| Ledger.BuildSummary | routers/ledger.py:315-345 | per currency the sums of the chosen lines, nothing for other currencies |
| Ledger.Publish | routers/ledger.py:305-345 | end to end, the summary equals the straight sums over the stored rows for every currency and provider filter |
| Ledger.SummaryIsDirect | routers/ledger.py:265-345 | for any listing of the groups and any order of the rows, summing the published lines is summing the rows |
| Ledger.SyncTwice | routers/ledger.py:110-129 | synchronising a window again changes no row, even when the window repeats records |
| Ledger.SyncAt | routers/ledger.py:110-129 | a synchronisation leaves each row in place in its latest version |
| LedgerWindows.NothingNewIff | routers/ledger.py:110-129 | a synchronisation changes nothing if and only if the last version of each record it brings is stored already |
| LedgerWindows.OverlapsCountOnce | routers/ledger.py:110-129 | after any number of overlapping windows every external record counts once, in the version fetched last, in the revenue and expense of every currency and provider filter |
| LedgerWindows.PublishWindows | routers/ledger.py:305-345 | the summary published after those windows is that sum |
| LedgerLaws.LastVersionStored | routers/ledger.py:110-129 | after a synchronisation the last version of each record it brought is stored, in one row |
| LedgerLaws.OthersStay | routers/ledger.py:110-129 | rows that the window does not bring stay as they are |
| LedgerLaws.NetIsSum | routers/ledger.py:315-345 | the net of a currency is the sum of its counted amounts |
| Ledger.Store.UpsertEntry | routers/ledger.py:110-129 | one row per external record, overwritten in place or appended |
| Ledger.Store.SyncWindow | routers/ledger.py:110-129 | a window, record by record |
| Forum.BuildTimes | routers/forum.py:133-158 | the tree under a parent holds exactly what hangs below it, once |
| Forum.TreeIsPermutation | routers/forum.py:133-158 | the tree of a post is a permutation of its comments if and only if none has a blank parent id |
| Forum.FilledForum | routers/forum.py:627-660 | of a forum filled by requests, a post's tree is complete if and only if no request for it had a blank parent id |
| Forum.BuildByTime | routers/forum.py:139-156 | siblings are in order of creation at every depth |
| Forum.PagesAreTree | routers/forum.py:319-379 | with distinct times, all pages one after the other are the whole tree, whatever order the database returns in each query |
| Forum.Board.CreateComment | routers/forum.py:627-660 | a reply is accepted only under an existing comment of the post |
| ForumLaws.StoredIff | routers/forum.py:627-660 | a comment is stored, with its parent and time, if and only if it is first-level, has a blank parent or replies to a comment of the post |
| ForumLaws.BuildNested | routers/forum.py:133-158 | every node stands under its own parent, every child of a parent stands there once, siblings in order of creation |
| ForumLaws.PageHolds | routers/forum.py:319-379 | a page holds the next comments of its query, fewer than asked for only at the end, each with all its replies |

## Left out

- ResultSafety.EffectivelyOnce: the other writers are charges, logins, grants, purchases, hosting and withdrawals; handlers that set a generation's status themselves are not among them.
- CreditRuns.CreditedOnce: supposes that the log before the run has no duplicate.
- CreditRuns.RewardedOnceEach: supposes that the log before the run has no duplicate reward and that the time written to a line is the instant of its transaction; only the clock reading of a login may be earlier.
- Solvency.NeverOverdrawn: starts without payouts.
- SubscriptionRuns.OneContractPerRequest: a create call is executed at once or within an hour, never later.
- Binary floats: some amounts are stored as floats; they are modelled as exact cents.
- Paid orders that webhooks insert for subscription sales: only the sale id and its credit grant are modelled; plan level, expiry and other Pro benefits are not.
- Account deletion by administrators, which removes orders on purpose and breaks the accounting invariants.
- The row of a deleted order is a tombstone; deleting its pictures in storage is not modelled.
- Address snapshots, stickers and source snapshots of orders: only whether an address is available is a parameter of the reservation.
- ShopSession.Session.MergeIntoOrder: the candidate order is given; how the query picks it is left out, so the machine may merge into any open order with matching terms.
- QueueDesk.Desk.SyncPriority: a pass without other steps between its scripts; `QueueOrder.PromotedInOrder` covers the others.
- HTTP, schemas, rate limits, Redis, S3, CDN and PayPal transports: replaced by stores and by answers that are parameters.
- The background singleton lock and the scheduling of background jobs: their passes are steps that may happen at any time.
- The Redis lock of the login reward and its lock-free fallback: the row lock alone is modelled, and the clock may be read any time before it.
- Generation rows that another handler marks failed when enqueueing raises: that writer is not part of the delivery model; its refund is a step of the credit model.
- Result messages that decode to something other than an object.
- Queue jobs in RQ's scheduler and registries: a retry goes straight back to its queue; expiry of priority keys is not modelled.
- `display` status of the user row, error texts, approval links and return URLs of subscription contracts.
- Subscription contracts of one user are one machine; rows of other users appear only as ids that are taken.
- Creation-time order of the rows in cancel_all and in the retry job: any visiting order is allowed; the checkout's refresh loop goes in table order.
- Currency and category normalisation, line order, formatting and entry counts of the public ledger.
- Authors, texts and relative times of comments; a page number below 1 or an empty page size.
- License policy, sessions, agent pairing, discovery, metrics, migrations and configuration: small case analyses or I/O.
