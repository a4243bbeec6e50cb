# Bookfleet backend: dispatch, money and ledgers

Models of the stateful core of the Zipto/Bookfleet backend, with proofs about every run of it.
A component is a state, a set of events and a total step function (`Runs`); "over every run" means
after any finite sequence of events, repeated and in any order. Code that updates rows, Redis keys
or `Map` fields step by step is a class whose methods are proved to do what the step functions say.

- **Fares.** `Money` has the two roundings (halves upward) on exact reals. `FareQuote` is the quote, the
  discounted offer and the settlement of a completed trip; `TripSettlement` pays it through the wallet.
- **Wallets.** `DriverWallet` is the balance and its ledger (amounts in paise); `WalletRaces` splits its operations
  between guard and transaction; `Withdrawals` adds requests,
  automatic payouts, admin decisions and payout webhooks; `TopUps` is one top-up under concurrent verifications,
  webhooks and admin decisions; `CoinRewards` is the customer's coins; `BankAccounts` the primary account.
- **Dispatch.** `OfferDispatch` has the Redis keys of one offer, its queued jobs and every method that moves it
  from driver to driver. `OfferAccept` splits any number of accept calls at every Redis command and database
  write, and every dispatch method between reading the offer and writing, and interleaves them. `Handoff` does the same for handing a booking over, and `Fleet` for
  the "one active booking a driver" check.
- **Smaller cores.** `Referral`, `OtpService`, `TtlCache` with `Directions`, and `PairText` with `HdfcPayment`.

Where the code is weaker than its comments, the model follows the code: the exact condition under which the
promise holds is proved, and a concrete run shows the failure.

- The comment at src/modules/booking/booking.service.ts:2249-2252 says that a driver nets exactly the earnings in
  cash and online. The wallet debit is rounded to whole rupees, so that holds if and only if the earnings are whole
  rupees (`FareQuote.CashExactlyOnline`, `FareQuote.CashTripMissesTheQuote`). A trip closed as cash although a
  completed payment exists leaves the driver nothing (`TripSettlement.DriverNetSettled`), and overlapping completions
  under the booking's id and the offer's pay twice (`TripSettlement.SecondSettlementExactly`).
- "Refund coins if they were already deducted" (src/modules/booking/booking.service.ts:1926) also refunds coins that
  were not (`CoinRewards.FailedAcceptNeutral`).
- A payout reported successful after it was refunded completes the withdrawal again
  (`Withdrawals.PaidAndRefundedExactly`); a request that an admin rejects between its insert and its
  debit, or approves there and whose transfer fails, is refunded without a debit
  (`Withdrawals.RefundedForNothingExactly`); and a refund that fails after the row was saved as rejected is not
  tried again (`Withdrawals.UnpaidStays`).
- The accept lock does not cover a dispatch method that has already read the offer, nor an accept that fails after
  its insert; when a second booking can follow is exact (`OfferAccept.SecondBookingExactly`,
  `OfferAccept.AfterFailureExactly`).
- The lock is per offer, not per driver, and a save writes back the whole row it read: when a driver gets a second
  active booking is exact (`Fleet.SecondActiveExactly`), and so is when a save reopens a trip or undoes a handoff
  (`Handoff.ReopensExactly`, `Handoff.UndoneExactly`).
- "Idempotent: safe to call twice" (src/modules/driver/driver-wallet.service.ts:211) holds for calls that do not
  overlap (`WalletRaces.NoDoublesExactly`).
- An admin's approval of a top-up is not conditional on its status (`TopUps.AdminRaceCreditsTwice`).
- A failed second referral credit reverts the claim after the first was paid
  (`Referral.FailedSecondCreditPaysTwice`); the check that referrer and referee do not share a device can never
  fire (`Referral.BookAlwaysFair`), and two users applying at once share one (`Referral.DevicesApartExactly`).
- A wrong login code can write its record back after the right one deleted it (`OtpService.AnswerAgainExactly`), and two
  bank accounts added at once are both primary (`BankAccounts.SecondPrimaryExactly`).
- A sweep of the cache changes a later lookup exactly when, without it, a set on a full cache drops a live entry that
  the swept cache keeps, or the other way round (`TtlCache.SweepShowsExactly`).
- The payment request's `cancel_url` contains the separator (`HdfcPayment.RequestReadBack`).

## Model

| member | source | states |
|---|---|---|
| FareQuote.SurgeMultiplier | src/modules/booking/booking.service.ts:375-399 | surge is always one of the five documented levels, also when the demand count fails |
| FareQuote.SurgeLevels | src/modules/booking/booking.service.ts:375-399 | each surge level is reached exactly at its hours or from its number of open bookings on |
| FareQuote.BaseFareCoversBaseDistance | src/modules/booking/booking.service.ts:278-289 | without stops, every distance up to the base distance costs the base fare at the surge, to the rupee |
| FareQuote.EachKilometreAndStop | src/modules/booking/booking.service.ts:278-285 | at no surge and whole-rupee rates, each kilometre beyond the base adds the per-km rate and each stop the stop fee |
| FareQuote.DeliveryNearExact | src/modules/booking/booking.service.ts:278-289 | for all rates, the delivery charge is within the surge plus half a rupee of base, distance and stops at the surge |
| FareQuote.ChargeNearest | src/modules/booking/booking.service.ts:182-184 | every charge is the whole number of rupees nearest to quantity times rate |
| FareQuote.SharesNearExact | src/modules/booking/booking.service.ts:269-315 | commission is its percentage of the delivery charge to the paisa, the platform fee the configured one to the rupee |
| FareQuote.QuoteConserved | src/modules/booking/booking.service.ts:271-315 | every paisa of the fare before discounts is driver earnings, commission, shield, platform fee, CGST or SGST, for all rates, distances, stops and surges |
| FareQuote.QuoteParts | src/modules/booking/booking.service.ts:287-315 | no rounding after the delivery charge and the tax halves loses anything, and all amounts are whole paise |
| FareQuote.GstWithinAPaisa | src/modules/booking/booking.service.ts:290-303 | CGST equals SGST and their sum is within one paisa of the exact rate on the taxable value |
| FareQuote.FareMonotone | src/modules/booking/booking.service.ts:271-303 | a longer trip, more stops or a higher surge never lowers the fare |
| FareQuote.SettledAsQuoted | src/modules/booking/booking.service.ts:2181-2211 | under whatever rule it is settled, earnings are quoted earnings plus waiting plus toll, whatever the discounts, if and only if the commission is the quoted one and the toll is whole paise; an unchanged percent leaves the commission as quoted |
| FareQuote.SettledEarnings | src/modules/booking/booking.service.ts:2150-2211 | for every toll and every rule, settled earnings are quoted earnings, corrected by the change of commission, plus waiting plus the toll to the paisa |
| FareQuote.FreeWaiting | src/modules/booking/booking.service.ts:2179-2185 | waiting costs nothing without a rule and within the free minutes |
| FareQuote.EachMinute | src/modules/booking/booking.service.ts:2179-2211 | at a whole-rupee rate each minute past the free ones adds the rate to the waiting charge, the final fare and the earnings |
| FareQuote.WaitingNearExact | src/modules/booking/booking.service.ts:2179-2185 | at any rate the waiting charge is within half a rupee of the excess minutes times the rate |
| FareQuote.CommissionNearExact | src/modules/booking/booking.service.ts:2203-2208 | the settled commission is the rule's percentage, or 25 percent without a rule, of the quoted delivery charge, or of the fare where none is stored |
| FareQuote.CustomerPays | src/modules/booking/booking.service.ts:2188-2193 | the final fare is fare, waiting and toll to the paisa, and cash the next whole rupee |
| FareQuote.FinalFareConserved | src/modules/booking/booking.service.ts:493-498 | for every toll and whatever rule the trip is settled under, the final fare equals what everybody gets less the discounts, if and only if the discounts are whole paise and do not exceed the fare |
| FareQuote.RecoveryExact | src/modules/booking/booking.service.ts:2253 | the recovery before its rounding is exactly cash collected less earnings |
| FareQuote.CashNearOnline | src/modules/booking/booking.service.ts:2247-2260 | for every trip, cash kept is within half a rupee of the earnings, also when the recovery is negative |
| FareQuote.CashExactlyOnline | src/modules/driver/driver-wallet.service.ts:96-103 | cash kept equals the earnings if and only if the earnings are whole rupees |
| FareQuote.CashTripMissesTheQuote | src/modules/booking/booking.service.ts:2249-2260 | a concrete cash trip quoted at 36.50 leaves the driver 36 |
| TripSettlement.RecoveryInPaise | src/modules/booking/booking.service.ts:2193-2253 | in paise, recovery is cash collected minus earnings with nothing rounded away |
| TripSettlement.DebitAgrees | src/modules/driver/driver-wallet.service.ts:96 | the wallet debit in paise is the whole-rupee debit of the fare arithmetic |
| TripSettlement.DriverNetSettled | src/modules/booking/booking.service.ts:2239-2290 | first settlement through the ledger: online to the paisa, cash within 50 paise and exact if and only if earnings are whole rupees, nothing for cash on a paid trip |
| TripSettlement.SettlementIdempotent | src/modules/driver/driver-wallet.service.ts:45-113 | settling under the same id again in the same way changes nothing |
| TripSettlement.SecondSettlementExactly | src/modules/booking/booking.service.ts:2129-2290 | a second settlement after a first one changes nothing if and only if it is cash on a trip it finds paid, or repeats a first one that wrote, in its way and under its id |
| TripSettlement.TwoIdsPayTwice | src/modules/booking/booking.service.ts:2133-2146 | two online completions, under the booking's id and the offer's, credit the earnings twice |
| TripSettlement.Settle | src/modules/booking/booking.service.ts:2247-2290 | the settlement branches make exactly the wallet change the lemmas are about |
| CoinRewards.RewardMonotone | src/modules/coin/coin.service.ts:39-94 | reward coins never fall when distance or amount grows, across every threshold and the rounding |
| CoinRewards.RewardBounded | src/modules/coin/coin.service.ts:39-94 | rewards lie between 5 and the rounded base at the largest multipliers, or 5 |
| CoinRewards.RewardTable | src/modules/coin/coin.service.ts:39-94 | the reward of every class of distance, amount and category, written out |
| CoinRewards.EachKilometreEarnsTwo | src/modules/coin/coin.service.ts:44-48 | without bonuses and above the minimum a kilometre earns two coins and ten rupees one |
| CoinRewards.CoinsAccounted | src/modules/coin/coin.service.ts:152-332 | over every run the balance is opening plus ledger plus what failed accepts put back, and is never negative |
| CoinRewards.DeliveryPays | src/modules/coin/coin.service.ts:99-184 | a delivery pays its reward into balance and ledger, and nothing else |
| CoinRewards.FailedAcceptNeutral | src/modules/booking/booking.service.ts:1922-1937 | a failed accept leaves the coins alone if and only if the redemption went through; otherwise it gives coins away |
| CoinRewards.SpentThenReturned | src/modules/booking/booking.service.ts:1922-1937 | a concrete run: coins spent between the offer and the failing accept come back all the same |
| CoinRewards.TransferConserves | src/modules/coin/coin.service.ts:229-292 | coins and rupees trade at the fixed rate in whole hundreds; the refusals change nothing |
| CoinRewards.CustomerCoins.AwardCoins | src/modules/coin/coin.service.ts:99-150 | the balance and the ledger grow by the calculated reward |
| CoinRewards.CustomerCoins.RedeemCoins | src/modules/coin/coin.service.ts:297-333 | takes the coins and logs them, or refuses and changes nothing |
| CoinRewards.CustomerCoins.TransferToWallet | src/modules/coin/coin.service.ts:229-292 | makes the transfer TransferConserves is about |
| CoinRewards.CustomerCoins.FailAccept | src/modules/booking/booking.service.ts:1774-1937 | redemption followed by the handler's refund, whether or not the redemption worked |
| DriverWallet.LedgerAlwaysSound | src/modules/driver/driver-wallet.service.ts:45-355 | over every run of whole operations: balance equals the last balance_after, each amount is the distance of consecutive balances, no double credit, deduction, debit or refund, and no withdrawal debit leaves the balance below zero |
| DriverWallet.LedgerConserves | src/modules/driver/driver-wallet.service.ts:305-339 | the signed movements recovered from balance_after add up from the opening to the present balance |
| DriverWallet.StepSound | src/modules/driver/driver-wallet.service.ts:45-260 | every wallet operation keeps the ledger sound |
| DriverWallet.DriverWalletService.AdjustWallet | src/modules/driver/driver-wallet.service.ts:305-355 | moves the balance and appends one row with the absolute amount |
| DriverWallet.DriverWalletService.CreditTripEarnings | src/modules/driver/driver-wallet.service.ts:45-76 | credits a booking once, returns the balance |
| DriverWallet.DriverWalletService.DeductCashCommission | src/modules/driver/driver-wallet.service.ts:78-120 | debits a booking once, in whole rupees |
| DriverWallet.DriverWalletService.TopUp | src/modules/driver/driver-wallet.service.ts:122-148 | credits a positive amount, refuses any other |
| DriverWallet.DriverWalletService.WithdrawalDebit | src/modules/driver/driver-wallet.service.ts:155-207 | debits a withdrawal once, fails and changes nothing when the balance is short |
| DriverWallet.DriverWalletService.WithdrawalRefund | src/modules/driver/driver-wallet.service.ts:213-235 | refunds a withdrawal once |
| WalletRaces.GuardThenAppend | src/modules/driver/driver-wallet.service.ts:45-235 | an operation of the service is its guard followed by its transaction |
| WalletRaces.LedgerAgreesUnderOverlap | src/modules/driver/driver-wallet.service.ts:155-207 | however calls overlap between guard and transaction, the ledger agrees with the balance and no withdrawal debit leaves it below zero |
| WalletRaces.NoDoublesExactly | src/modules/driver/driver-wallet.service.ts:51-235 | over every interleaving, nothing is credited, deducted, debited or refunded twice if and only if no call appends a row that has appeared since its guard looked |
| WalletRaces.NextDoubleExactly | src/modules/driver/driver-wallet.service.ts:51-235 | after any run without doubles, the next event makes one if and only if it appends for a call whose guard would by now find the row |
| WalletRaces.OverlappingRefundsPayTwice | src/modules/driver/driver-wallet.service.ts:213-235 | a concrete run: two overlapping refunds of one withdrawal are both paid |
| Withdrawals.WithdrawalSettles | src/modules/admin/admin.service.ts:2295-2522 | over every run: at most one debit and one refund, both of the request's amount; the wallet effect is minus the amount if debited plus the amount if refunded; rejected after a debit implies refunded unless that refund failed; and without a decision on a request whose debit is due, a refund implies a debit |
| Withdrawals.AskedExactly | src/modules/driver/driver.service.ts:1103-1170 | a request is entered exactly when no guard fails: frozen wallet, minimum by vehicle, balance, open request |
| Withdrawals.RowChangesExactly | src/modules/admin/admin.service.ts:2295-2478 | for every event: completed exactly by a manual approval of an open row or a success webhook for its transfer; processing, and a stored transfer, exactly by an automated approval or an accepted payout |
| Withdrawals.RejectedExactly | src/modules/admin/admin.service.ts:2450-2522 | for every event: rejected exactly by a failing debit, a failed payout or transfer, or an admin's refund |
| Withdrawals.ManualApprovalFinal | src/modules/admin/admin.service.ts:2353-2366 | after every run, a withdrawal approved by hand, with no transfer and no answer outstanding, can be refunded later if and only if its debit was still due |
| Withdrawals.WalletEventsOnly | src/modules/driver/driver-wallet.service.ts:45-148 | trips, cash trips, top-ups and adjustments are the wallet's own and touch no request |
| Withdrawals.UnpaidStays | src/modules/admin/admin.service.ts:2457-2471 | after every run, a rejected, debited, unrefunded withdrawal is refunded by the next event if and only if that is the late answer of its automatic payout; repeats of the failure change nothing |
| Withdrawals.FailedRefundIsLost | src/modules/admin/admin.service.ts:2457-2471 | a concrete run: the refund fails, the webhook is repeated, and the driver stays 500 rupees short |
| Withdrawals.RefundedForNothingExactly | src/modules/admin/admin.service.ts:2450-2504 | after every run, the next event refunds what was not taken if and only if the withdrawal has not been debited and is rejected while its debit is due, or its transfer is reported failed; without earlier decisions before a debit, only by such a rejection |
| Withdrawals.EarlyRejectionPaysForNothing | src/modules/driver/driver.service.ts:1162-1185 | a concrete run: inserted, rejected, debit fails, and the driver is 500 rupees up |
| Withdrawals.EarlyApprovalPaysForNothing | src/modules/admin/admin.service.ts:2320-2471 | a concrete run: inserted, approved, transfer failed and refunded, debit fails, and the driver is 500 rupees up |
| Withdrawals.PaidAndRefundedExactly | src/modules/admin/admin.service.ts:2438-2446 | over every run, a refunded withdrawal becomes completed by a success webhook for its transfer and by nothing else |
| Withdrawals.LateSuccessPaysTwice | src/modules/admin/admin.service.ts:2434-2478 | a concrete run that ends completed at no cost to the driver |
| Withdrawals.WithdrawalDesk.RequestWithdrawal | src/modules/driver/driver.service.ts:1103-1181 | guards, then insert, then debit; a failed debit voids the row |
| Withdrawals.WithdrawalDesk.FinishAutoPayout | src/modules/driver/driver.service.ts:1184-1249 | a failed transfer rejects and refunds, an accepted one stores the transfer, no answer leaves it pending |
| Withdrawals.WithdrawalDesk.Fail | src/modules/driver/driver.service.ts:1262-1282 | saved as rejected, then refunded unless the refund fails |
| Withdrawals.WithdrawalDesk.ApproveWithdrawal | src/modules/admin/admin.service.ts:2295-2378 | which states are refused, which return unchanged, and what the others become |
| Withdrawals.WithdrawalDesk.RejectWithdrawal | src/modules/admin/admin.service.ts:2483-2522 | refund and then rejection, refused only when completed, nothing when already rejected or when the refund fails |
| Withdrawals.WithdrawalDesk.HandlePayoutWebhook | src/modules/admin/admin.service.ts:2384-2478 | success completes, failure rejects and refunds, repeats do nothing |
| TopUps.CreditsAccounted | src/modules/driver/driver.service.ts:1606-1643 | over every interleaving, credits made and owed are the approving writes, at most one of which found the row pending |
| TopUps.CreditedAtMostOnce | src/modules/admin/admin.service.ts:2538-2556 | over every interleaving, when nobody owes a credit: at most one credit if and only if at most one write approved the row, whatever it was by then; exactly one once approved if no admin wrote over a moved row |
| TopUps.StaleApprovalCreditsOnce | src/modules/admin/admin.service.ts:2538-2576 | a concrete run: an approval of a row rejected meanwhile is one credit |
| TopUps.GatewayCallsCreditOnce | src/modules/driver/driver.service.ts:1606-1643 | any number of app verifications and webhooks credit at most once, and exactly once when the winner finishes |
| TopUps.AdminRaceCreditsTwice | src/modules/admin/admin.service.ts:2538-2556 | a concrete run with two credits |
| TopUps.CallAlone | src/modules/driver/driver.service.ts:1606-1643 | the interleaved steps of an uninterrupted call do what the routine does |
| TopUps.AdminAlone | src/modules/admin/admin.service.ts:2538-2587 | an admin's uninterrupted decision approves and credits, or rejects, a pending row and leaves any other alone |
| TopUps.TopUpRequest.CreditTopUp | src/modules/driver/driver.service.ts:1606-1643 | credits exactly when the row is pending and the order is paid, and says which case it was |
| OfferDispatch.TimedOutOfferIsSafe | src/modules/booking/booking.service.ts:909-946 | over every run, retries included: a timed-out offer has no holder and no broadcast, and no accept can pass |
| OfferDispatch.SearchTimeoutCloses | src/modules/booking/booking.service.ts:909-948 | after any run, a search timeout that finds the offer keeps it, marked; and in every continuation without a retry nobody is offered the ride, holds it or can accept it |
| OfferDispatch.EndedForEver | src/modules/booking/booking.service.ts:687-722 | a cancelled, expired or accepted offer leaves no key, and in every continuation nobody is offered the ride and no accept passes |
| OfferDispatch.OfferRemembers | src/modules/booking/booking.service.ts:627-682 | over every run, an offer has the fare that was asked last and the number of retries made |
| OfferDispatch.EveryOfferWillEnd | src/modules/booking/booking.service.ts:538-903 | over every run, a live offer has a search timeout queued and a broadcast one its end |
| OfferDispatch.TimedOutQueuesNoSearch | src/modules/booking/booking.service.ts:805-835 | short of a retry or a rejection, no search is queued for a timed-out offer |
| OfferDispatch.RetryStartsAfresh | src/modules/booking/booking.service.ts:645-682 | a retry asks the nearest driver of all, or broadcasts, with nobody excluded |
| OfferDispatch.NothingRevives | src/modules/booking/booking.service.ts:727-971 | once the offer key is gone no dispatch method brings back any key |
| OfferDispatch.RoundIsBounded | src/modules/booking/booking.service.ts:727-835 | within a round nobody is offered the ride twice, at most max_search_attempts drivers are, and every queued job's attempt is its excluded count plus one |
| OfferDispatch.RoundReachesBroadcast | src/modules/booking/booking.service.ts:727-835 | after any run within a round, whoever is near later: a live offer is broadcast within two queued jobs for each remaining attempt and two more, if somebody is in reach, if and only if it is held, searched for or broadcast already; otherwise no number of jobs broadcasts it |
| OfferDispatch.SearchMakesProgress | src/modules/booking/booking.service.ts:755-835 | a search uses one of the remaining attempts on the nearest driver not asked before, or broadcasts to whoever is near, or changes nothing |
| OfferDispatch.OnlyHolderRejects | src/modules/booking/booking.service.ts:1944-1973 | in a round only the holder's rejection does anything, and queues the search that excludes everybody asked |
| OfferDispatch.StaleTimeoutDoesNothing | src/modules/booking/booking.service.ts:805-835 | an earlier holder's timeout job changes no key and queues nothing |
| OfferDispatch.Dispatcher.constructor | src/modules/booking/booking.service.ts:536-545 | an instant offer is stored, its search timeout queued and its first search made |
| OfferDispatch.Dispatcher.ProcessDriverSearch | src/modules/booking/booking.service.ts:727-800 | offers to the nearest driver not excluded, or broadcasts, or does nothing for a missing or timed-out offer |
| OfferDispatch.Dispatcher.HandleOfferTimeout | src/modules/booking/booking.service.ts:805-835 | withdraws the offer only from the driver who still holds it |
| OfferDispatch.Dispatcher.BroadcastBookingToNearby | src/modules/booking/booking.service.ts:841-903 | sets the broadcast keys and queues their timeout unless nobody is near |
| OfferDispatch.Dispatcher.HandleSearchTimeout | src/modules/booking/booking.service.ts:909-956 | deletes every key but the offer, which it marks timed out |
| OfferDispatch.Dispatcher.HandleBroadcastTimeout | src/modules/booking/booking.service.ts:961-971 | cleans up an offer that still exists |
| OfferDispatch.Dispatcher.RejectBooking | src/modules/booking/booking.service.ts:1944-1973 | only the holder's rejection moves the offer on, with the stored excluded list |
| OfferDispatch.Dispatcher.RetrySearch | src/modules/booking/booking.service.ts:645-682 | a new fare and a fresh round; the holder key stays until it is overwritten |
| OfferDispatch.Dispatcher.UpdateOfferFare | src/modules/booking/booking.service.ts:627-640 | raises the fare, refuses anything not higher |
| OfferDispatch.Dispatcher.CancelOffer | src/modules/booking/booking.service.ts:687-697 | deletes every key of an offer that exists |
| OfferDispatch.Dispatcher.CleanupOffer | src/modules/booking/booking.service.ts:699-722 | deletes every key |
| OfferAccept.AtMostOneBooking | src/modules/booking/booking.service.ts:1680-1921 | over every interleaving of any number of accept calls with dispatch methods, whole or split between read and write, and expiries: at most one booking, as long as no method writes for an offer that is gone and no accept fails after its insert |
| OfferAccept.AnotherBookingExactly | src/modules/booking/booking.service.ts:1680-1937 | after every run that leaves the lock free, whatever went wrong in it, another booking can follow if and only if the offer is there or about to be written back, or a waiting call passes or will pass the check |
| OfferAccept.SecondBookingExactly | src/modules/booking/booking.service.ts:727-903 | once booked with nothing gone wrong, a second booking can follow if and only if a method is about to write the offer, or any key while another call has read the offer |
| OfferAccept.AfterFailureExactly | src/modules/booking/booking.service.ts:1922-1924 | after an accept that fails past its insert, another booking can follow if and only if the offer is still open in that sense |
| OfferAccept.TimedOutDisturbedExactly | src/modules/booking/booking.service.ts:774-776 | with dispatch methods split, after any run, the next event gives a timed-out offer a holder or a broadcast if and only if it is a late write of a method that read the offer before |
| OfferAccept.AtomicDispatchBooksOnce | src/modules/booking/booking.service.ts:1716-1921 | with dispatch methods as single steps and no failure after an insert, at most one booking |
| OfferAccept.StaleSearchBooksTwice | src/modules/booking/booking.service.ts:774-776 | a concrete run in which a late write of the holder key makes two bookings |
| OfferAccept.StaleBroadcastBooksTwice | src/modules/booking/booking.service.ts:844-862 | a concrete run in which a late write of the broadcast flag makes two bookings |
| OfferAccept.FailureAfterInsertBooksTwice | src/modules/booking/booking.service.ts:1922-1924 | a concrete run in which the freed lock makes two bookings |
| OfferAccept.AcceptAlone | src/modules/booking/booking.service.ts:1680-1921 | the steps of an uninterrupted accept are the atomic accept of the dispatch model |
| OfferAccept.FailedAcceptAlone | src/modules/booking/booking.service.ts:1722-1924 | an uninterrupted accept that fails its checks or its insert books nothing, keeps the offer and frees the lock |
| OfferAccept.CleansUp | src/modules/booking/booking.service.ts:1913-1919 | the deletions leave no key of the offer and free the lock |
| OfferAccept.AcceptDesk.AcceptBooking | src/modules/booking/booking.service.ts:1680-1939 | the reply in every case, a booking exactly when inserted, and the lock always freed |
| Handoff.DriverChangesOnce | src/modules/booking/booking.service.ts:2664-2974 | over every interleaving of request, accept, cancel and expiry the driver changes at most once; handoff_count is 1 exactly when the original driver is set, and the two differ; as long as no start, completion or cancellation saves a row read before the transfer |
| Handoff.UndoneExactly | src/modules/booking/booking.service.ts:2026-2033 | after such a run, the next event takes the booking back, with every trace of the transfer, if and only if it saves a row read before it |
| Handoff.HandoffIsFinal | src/modules/booking/booking.service.ts:2811-2814 | after a handoff no later run changes the driver, under the same condition |
| Handoff.ReopensExactly | src/modules/booking/booking.service.ts:2797-2862 | after every run, the trip is under way after the next event exactly when a checked accept is saved, or another save or change says so, or neither happens and it was; the accept's save keeps the status if and only if it is still the one read |
| Handoff.StaleSaveReopensTrip | src/modules/booking/booking.service.ts:2797-2862 | a concrete run in which the save undoes a completion made since the read |
| Handoff.StaleStartUndoesHandoff | src/modules/booking/booking.service.ts:1980-2033 | a concrete run in which a start saved after a handoff gives the booking back |
| Handoff.AcceptAlone | src/modules/booking/booking.service.ts:2775-2894 | the steps of an uninterrupted accept do what the routine does, refusals included |
| Handoff.RequestAlone | src/modules/booking/booking.service.ts:2664-2723 | an uninterrupted request is stored exactly when the assigned driver may hand over and none is there |
| Handoff.CancelAlone | src/modules/booking/booking.service.ts:2899-2917 | an uninterrupted cancellation withdraws the assigned driver's request and nobody else's |
| Handoff.ExpiryAlone | src/modules/booking/booking.service.ts:2959-2974 | an uninterrupted expiry withdraws whatever request is there |
| Handoff.HandoffDesk.RequestHandoff | src/modules/booking/booking.service.ts:2664-2723 | stores the request exactly when the assigned driver may hand over and none is active |
| Handoff.HandoffDesk.AcceptHandoff | src/modules/booking/booking.service.ts:2775-2894 | the reply in every case, the transfer on success, nothing otherwise, and the lock always freed |
| Handoff.HandoffDesk.CancelHandoff | src/modules/booking/booking.service.ts:2899-2917 | only the assigned driver deletes an active request |
| Handoff.HandoffDesk.ExpireHandoff | src/modules/booking/booking.service.ts:2959-2974 | no request is left |
| Fleet.OneActiveBooking | src/modules/booking/booking.service.ts:1741-1755 | however accepts, handoffs, starts, completions and cancellations interleave, no driver has two active bookings as long as no two claims of one driver overlap and no save overwrites a changed row |
| Fleet.SecondActiveExactly | src/modules/booking/booking.service.ts:1741-1755 | after every run, the next event gives a driver a second active booking if and only if it writes a claim or saves a start while that driver is busy with another one |
| Fleet.WholeClaimsOneActive | src/modules/booking/booking.service.ts:2842-2862 | with every call in one step the bound holds unconditionally |
| Fleet.StatusMovesExactly | src/modules/booking/booking.service.ts:1184-2153 | for every uninterrupted call: under way only from accepted or assigned, completed only from under way, cancelled only before that, and no other move |
| Fleet.HandoverOnce | src/modules/booking/booking.service.ts:2802-2862 | for every uninterrupted call: a booking changes hands only by a handoff to a free driver while active, and once |
| Fleet.LegacyPathNeverTaken | src/modules/booking/booking.service.ts:1690-1713 | no stored booking is ever pending, so the fallback accept never does anything |
| Fleet.OverlappingClaimsBothWin | src/modules/booking/booking.service.ts:1741-1755 | a concrete run in which one driver gets two bookings |
| Fleet.StaleStartReactivates | src/modules/booking/booking.service.ts:1980-2033 | a concrete run in which a start saved after a cancellation gives the driver two bookings |
| Fleet.BookingTable.AcceptBooking | src/modules/booking/booking.service.ts:1741-1835 | a new accepted booking exactly when the driver has no active one |
| Fleet.BookingTable.AcceptHandoff | src/modules/booking/booking.service.ts:2797-2862 | the booking moves exactly when it is transferable and the driver is free |
| Fleet.BookingTable.StartTrip | src/modules/booking/booking.service.ts:1978-2050 | only an accepted or assigned booking gets under way |
| Fleet.BookingTable.CompleteTrip | src/modules/booking/booking.service.ts:2129-2233 | only a booking under way is completed |
| Fleet.BookingTable.CancelBooking | src/modules/booking/booking.service.ts:1173-1195 | neither a booking under way nor a completed one is cancelled |
| Referral.ReferralAccounted | src/modules/referral/referral.service.ts:198-269 | over every interleaving of ride completions at most one call holds the claim, and both balances are explained by the credits counted |
| Referral.PaidExactlyOnce | src/modules/referral/referral.service.ts:198-269 | once a completion has paid both: each got the apply-time coins exactly once if and only if no second credit ever failed |
| Referral.DisabledPaysNothing | src/modules/referral/referral.service.ts:204-205 | with the program off no ride pays anything, however completions overlap |
| Referral.RideAlone | src/modules/referral/referral.service.ts:198-269 | one ride on its own, for every outcome of the two credits: who is paid and whether the referral stays claimed |
| Referral.FailedSecondCreditPaysTwice | src/modules/referral/referral.service.ts:261-267 | a concrete run that pays the referee twice |
| Referral.BookAlwaysFair | src/modules/referral/referral.service.ts:106-166 | over every run of whole applications nobody is referred twice, refers themselves or shares a device with another referee; the shared-device guard never fires, whatever the rows |
| Referral.AppliedExactly | src/modules/referral/referral.service.ts:106-152 | a code is applied exactly when no guard fails; a refusal adds nothing |
| Referral.PromiseKept | src/modules/referral/referral.service.ts:154-249 | an applied code followed by one ride pays the referee and the referrer the settings' amounts at apply time |
| Referral.ApplicationAlone | src/modules/referral/referral.service.ts:106-166 | checks and insert with nothing in between do what the routine does, refusals included |
| Referral.DevicesApartExactly | src/modules/referral/referral.service.ts:115-166 | however applications overlap, nobody is referred twice or refers themselves, and no device is used twice if and only if no insert finds its device taken |
| Referral.OverlappingApplicationsShareDevice | src/modules/referral/referral.service.ts:142-166 | a concrete run in which two new users on one device are both referred |
| Referral.ReferralBook.ApplyCode | src/modules/referral/referral.service.ts:106-177 | the first guard that fails decides the reply; otherwise one row is added |
| Referral.ReferralRow.OnFirstCompletedRide | src/modules/referral/referral.service.ts:198-269 | who is paid and what status is left, for every outcome of the two credits |
| TtlCache.CacheRefinesLog | src/services/mapbox.service.ts:85-98 | over every run a lookup is nothing or the latest set, unexpired; never more than 500 entries; exactly the unbounded log as long as no set met a full cache |
| TtlCache.SetDropsOnlyWhenFull | src/services/mapbox.service.ts:92-98 | below 500 entries a set keeps every other key |
| TtlCache.PutKeepsPlaces | src/services/mapbox.service.ts:97 | a key that is set again keeps its place, a new one comes last |
| TtlCache.GetDropsExpired | src/services/mapbox.service.ts:85-90 | a lookup that finds an expired entry takes it out, and no other |
| TtlCache.SweepInvisible | src/services/mapbox.service.ts:100-111 | sweeping, or dropping an expired entry on a lookup, changes no lookup made before the next set |
| TtlCache.SweepChangesNoLookup | src/services/mapbox.service.ts:85-111 | a sweep anywhere in a run in which no set meets a full cache changes no later lookup, whatever is set in between |
| TtlCache.SweepShowsExactly | src/services/mapbox.service.ts:92-111 | for every run: while all lookups agree with and without the sweep, the next event makes some differ if and only if it is a set that drops a live key in one cache and not in the other |
| TtlCache.SweepSavesTheOldest | src/services/mapbox.service.ts:92-98 | a full cache with a live oldest and an expired entry: a new key drops the oldest without a sweep, and not with one |
| TtlCache.Cache.GetCached | src/services/mapbox.service.ts:85-90 | the lookup's answer and what it deletes |
| TtlCache.Cache.SetCache | src/services/mapbox.service.ts:92-98 | drops the oldest key of a full cache, then sets |
| TtlCache.Cache.EvictExpired | src/services/mapbox.service.ts:100-111 | deleting while walking leaves exactly the unexpired entries, in order |
| Directions.OneRequestPerKey | src/services/mapbox.service.ts:124-188 | over every run at most one request per key is in flight, and a call only waits for its own key |
| Directions.SharesTheLiveRequest | src/services/mapbox.service.ts:132-147 | after every run, a call that misses the cache awaits the live request of its key, whoever made it, and makes one of its own if and only if there is none and an API key is set |
| Directions.CachedAnswersAreRecent | src/services/mapbox.service.ts:129-188 | over every run, a call answered from the cache got what a request for its own key came back with less than five minutes before |
| Directions.AnswerServesNext | src/services/mapbox.service.ts:132-188 | an answer serves the calls of the next five minutes without a request |
| Directions.DistanceService.GetDistanceMatrix | src/services/mapbox.service.ts:124-147 | the call up to its first await |
| Directions.DistanceService.FetchDirections | src/services/mapbox.service.ts:155-188 | only a successful answer is cached |
| Directions.DistanceService.RemoveInflight | src/services/mapbox.service.ts:150-152 | the finally block removes the request's own key |
| OtpService.OneCodeIsBounded | src/services/sms.service.ts:94-213 | between two codes, however verifications overlap: none right after expiry and stored attempts within maxAttempts; and at most maxAttempts wrong answers and one right one, as long as no answer is given from a record changed since it was read |
| OtpService.WholeVerifiesBounded | src/services/sms.service.ts:162-213 | at most maxAttempts wrong answers and one right one when verifications do not overlap |
| OtpService.RightExactlyWhen | src/services/sms.service.ts:162-213 | after any run, the next answer is right exactly when record, clock, attempts and code all allow it; the attempts are the wrong answers if none was stale |
| OtpService.ResendRefusedExactly | src/services/sms.service.ts:97-105 | after every run since a code was sent, a new one is refused exactly when the cooldown has not lapsed and no right answer was given |
| OtpService.FreshCode | src/services/sms.service.ts:94-154 | a delivered code is right up to its expiry and expired after; one not delivered leaves no trace |
| OtpService.RecordEnds | src/services/sms.service.ts:162-213 | a right answer, or one that finds the code expired or used up, ends the record, and only that |
| OtpService.DevelopmentMode | src/services/sms.service.ts:120-169 | in development 1234 is right and changes nothing, everything else is as in production with delivery |
| OtpService.AnswerAgainExactly | src/services/sms.service.ts:162-213 | after every run, another right answer can follow, and another wrong one, if and only if the stored record, or one some verification has read, is neither expired nor used up |
| OtpService.WrittenBackAcceptsTwice | src/services/sms.service.ts:194-211 | a concrete run: a wrong verification writes the record back after a right one deleted it, and the code is accepted again |
| OtpService.OtpStore.SendOtp | src/services/sms.service.ts:94-154 | stores before delivery, refuses during the cooldown, rolls both keys back on a failed delivery |
| OtpService.OtpStore.VerifyOtp | src/services/sms.service.ts:162-213 | the answer and what is left stored in every case |
| BankAccounts.AlwaysOnePrimary | src/modules/driver/driver.service.ts:803-958 | over every run of whole calls a driver with any account has exactly one primary |
| BankAccounts.SetPrimaryFits | src/modules/driver/driver.service.ts:944-958 | the chosen account becomes the one primary |
| BankAccounts.OldestIsPromoted | src/modules/driver/driver.service.ts:922-942 | removal keeps the order and the flags, and promotes the oldest of the others if the primary went |
| BankAccounts.AddedLast | src/modules/driver/driver.service.ts:803-818 | a new account comes last and changes no other |
| BankAccounts.SecondPrimaryExactly | src/modules/driver/driver.service.ts:803-958 | however calls overlap, the next statement makes a second primary if and only if it sets a flag while another account has it |
| BankAccounts.NoPrimaryExactly | src/modules/driver/driver.service.ts:806-818 | however calls overlap, a driver with a primary account, or one to come, is left with neither if and only if an account counted as a later one is inserted as the first |
| BankAccounts.OverlappingAddsBothPrimary | src/modules/driver/driver.service.ts:806-818 | a concrete run of two adds that both count no accounts |
| BankAccounts.BankAccountTable.AddBankAccount | src/modules/driver/driver.service.ts:803-818 | only the first account is primary |
| BankAccounts.BankAccountTable.DeleteBankAccount | src/modules/driver/driver.service.ts:922-942 | removes the account and promotes the oldest one left if it was primary |
| BankAccounts.BankAccountTable.SetPrimaryBankAccount | src/modules/driver/driver.service.ts:944-958 | clears every flag and sets the chosen one |
| PairText.ReadUndoesWrite | src/services/hdfc-payment.service.ts:153-161 | every list of plain pairs is read back as the map in which the last duplicate wins, also when values hold equals signs |
| PairText.ReadUndoesEncode | src/services/hdfc-payment.service.ts:157-159 | every text, encoded as encodeURIComponent or as a form does, is read back as it was |
| PairText.ReadUndoesEncodedWrite | src/services/hdfc-payment.service.ts:153-161 | with encoded values every list of pairs is read back, whatever the values hold |
| PairText.OnlyShortestForm | src/services/hdfc-payment.service.ts:157 | what is read as one character is its shortest UTF-8 form and nothing else |
| PairText.HexExactly | src/services/hdfc-payment.service.ts:157 | hexadecimal digits of either case are read, and no other characters |
| PairText.PairIntact | src/services/hdfc-payment.service.ts:153-161 | one pair is read back as written if and only if its value has no ampersand, plus or percent sign |
| PairText.ValueIntact | src/services/hdfc-payment.service.ts:157-159 | a value survives decoding if and only if it has no plus and no percent sign |
| PairText.DecodeShortens | src/services/hdfc-payment.service.ts:157 | decoding never lengthens, strictly shortens a text with a percent sign and leaves any other alone |
| PairText.SplitJoin | src/services/hdfc-payment.service.ts:153 | splitting undoes joining of parts without the separator |
| HdfcPayment.SameText | src/services/hdfc-payment.service.ts:103-121 | the request is the same text as one with a cut cancel_url and an extra orderId pair |
| HdfcPayment.RequestReadBack | src/services/hdfc-payment.service.ts:103-121 | for all plain parameters, the request is read back with exactly those two differences |
| HdfcPayment.RequestCarries | src/services/hdfc-payment.service.ts:107-121 | for all plain parameters every field arrives under its own key, billing details only when given |
| HdfcPayment.ResponseReadBack | src/services/hdfc-payment.service.ts:152-174 | every response, its values encoded in either way, is read back field by field |
| HdfcPayment.EmptyResponse | src/services/hdfc-payment.service.ts:163-174 | a text that says nothing is an invalid response of empty fields |
| HdfcPayment.ParsePairs | src/services/hdfc-payment.service.ts:152-161 | the loop over the segments computes the map the lemmas are about, or fails on a malformed one |
| HdfcPayment.ParseResponse | src/services/hdfc-payment.service.ts:133-174 | the reply in every case, defaults included |

## Left out

- WithdrawalSettles: "a refund implies a debit" holds while no admin decides on a request whose debit is due; RefundedForNothingExactly says for every run when it fails. Each wallet operation is one step there: refunds whose guards overlap are the subject of NoDoublesExactly.
- AtMostOneBooking: counts late writes and failures; when a second booking can still follow is SecondBookingExactly and AnotherBookingExactly. A search writes its keys in one step, a broadcast its flag and list in one step.
- OneActiveBooking: counts overlaps and stale saves, which need not all lead to a second booking; SecondActiveExactly has the exact step.
- TimedOutOfferIsSafe: dispatch methods are single steps; TimedOutDisturbedExactly has them split, where a search or broadcast that read the offer before the timeout can still write for it. A fare update that straddles the timeout clears the mark.
- CacheRefinesLog: after a set met a full cache, a lookup may find nothing where the log has a value; which keys are dropped is not related to use.
- DriverChangesOnce: a save whose own comparison with the row falls before another write is not split from its update.
- RoundIsBounded: from the creation of the offer to the customer's first retry, as the excluded list starts anew on a retry; the number of attempts allowed is fixed within a run.
- AlwaysOnePrimary: the three account methods are single steps; SecondPrimaryExactly and NoPrimaryExactly have them split into two statements each, where a deletion reads the flag and removes the row in one.
- OneCodeIsBounded: development mode, which accepts a fixed code, is left out of the bound.
- Amounts are exact reals in the fare formulas and whole paise in the wallets, not binary floating point; ids are natural numbers, and reference strings with different prefixes are different constructors.
- Gateways, SMS, push, sockets, maps, clocks, settings, AES and HMAC: their answers are parameters or events. The lists of nearby drivers are arbitrary sequences.
- The 30-second accept locks are taken to outlive the call that holds them. The vehicle type key travels with the excluded list and is not shown; the per-driver broadcast lists and the `offer:accepted` mapping are not part of this model.
- Scheduled offers, coupons, the wallet-suspension guard and the OTP checks of starting and completing a trip.
- Withdrawals, approvals, rejections and webhooks each read and write their row in one step, apart from the request itself; a bank account without a beneficiary is a request without automatic payout.
- Top-ups through Razorpay links, and rejections of a top-up after it was credited, have no further bookkeeping here.
- The geocoding and place caches use the same helpers as the directions cache.
- The key `__proto__` of a JavaScript record, and text that is not well-formed Unicode.
- Admin reassignment of a booking, fraud confirmation, data resets, reports, invoices, heatmaps, socket disconnect grace and fraud scoring.
