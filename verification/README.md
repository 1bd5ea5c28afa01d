# Gather HQs: verified models of ticket commerce, campaign messaging and their neighbours

Gather HQs is a Django platform on which groups publish events, sell tickets, collect responses and
message their contacts. This project models its transactional cores in Dafny and proves what they keep
over whole runs: every sequence of requests, payments, webhooks, clock ticks, crashes and retries.
`dafny verify dfyconfig.toml` checks all of it.

Each database transaction is one atomic step on a state; where the source commits several writes in a
row, as a delivery worker does, each of them is a step, and anything may come between them. A table is
a sequence whose row ids are its indices, because rows are only ever added; time is a counter of seconds
that only grows. Where the source updates rows in place there is a class with those tables as fields (`CommerceDesk.Desk`,
`MessagingDesk.Desk`, `Registrations.Desk`, `Subscriptions.Account`, `CommerceDesk.Webhooks`), and each of
its methods is proved to take the state exactly where a step function says; the results over runs are
lemmas about those functions.

| files | what they hold |
|---|---|
| `Commerce`, `CommerceDesk` | orders, holds, tickets, refunds, disputes: the steps, and the operations in place |
| `CommerceTables`, `Inventory`, `OccurrenceLoads`, `LatePayment`, `OrderMachine`, `PaidPlaces`, `CommerceRuns`, `AuditTrail`, `RefundLedger`, `RefundLimits`, `TicketStatuses` | what every commerce run keeps |
| `Inbox`, `ConnectEvents` | the webhook inbox for any handler, and its use for Stripe Connect events |
| `Reporting`, `Fees` | grouped reports against plain sums; fee rounding |
| `Messages`, `Callbacks`, `SmsLedger`, `Messaging`, `MessagingDesk` | campaigns, delivery workers, callbacks, the SMS ledger |
| `Delivery`, `Resends`, `CallbackRuns`, `MessageCallbacks`, `RecipientRanks`, `MessagingOutcomes`, `Expansion`, `Owing` | what every messaging run keeps about sending, callbacks, consent and audiences |
| `Reservations`, `Backing`, `Settling`, `Holdings`, `Finished`, `ExactHoldings`, `LostSegments` | what every messaging run keeps about reserved SMS segments |
| `Segments`, `Text` | SMS segment counting |
| `Registrations`, `Recurrence`, `Subscriptions` | RSVPs and capacity, recurring events, subscription webhooks |
| `Sums`, `Wrappers` | sums over rows, optional values and results |

## Where the code does less than its documents say

The model follows the code. Each entry says exactly when the promise fails, naming the lemma with that
condition and the run or the input that shows the failure.

- Two buyers can oversell the last ticket (against `docs/Event_Management_Platform_V1_Specification.md:789`):
  an order can be paid after its hold was released or ran out. Condition: `Inventory.StepOversellsExactly`; run:
  `LatePayment.LatePaymentOversells`. `Inventory.OversellIsBounded` and `OccurrenceLoads.LoadIsBounded` bound the excess.
- A payment issues tickets to whoever is in the party then, not to the places paid for. Conditions:
  `PaidPlaces.PaymentIssuesItsQuantityExactly`, and over the time from hold to payment `PaidPlaces.HeldPlacesAreIssued`;
  run: `PaidPlaces.PaidWithoutTicket`.
- A dispute reported on an order that was never settled leaves its hold behind. Condition:
  `OrderMachine.HoldsFollowExactly`; run: `CommerceRuns.StrayDisputeKeepsItsHold`.
- An order can be refunded beyond its total (against `payments/models.py:188`), because a request is checked against
  what succeeded and not against what was asked for, and a success stays counted when it is taken back. Conditions:
  `RefundLimits.RefundsStayWithinTotal`, `RefundLimits.RefundsExceedTotalExactly`; runs:
  `RefundLimits.TwoRequestsRefundTwice`, `RefundLimits.OneRequestRefundsTwice`.
- The financial history can end in PENDING for an order that has expired, when opening its checkout session fails late.
  Condition: `AuditTrail.AuditBreaksExactly`; run: `AuditTrail.LateNoteMisleads`.
- A launch overwrites what test sends had reserved, and the allowance keeps counting it. Condition:
  `SmsLedger.LaunchStrands`, over runs `Backing.ReservedIsHeldOrOverwritten`; run: `LostSegments.LaunchStrandsTheTest`.
- A campaign whose messages are all final can hold segments, when the worker that was to settle a message was killed:
  the one that made the last attempt, or the one the provider accepted it from. Conditions:
  `Finished.FinishedCampaignHoldsNothing` over runs, `ExactHoldings.FinishedHoldsNothingExactly` both ways, and
  `Finished.KilledExactly` for the step; runs: `LostSegments.StaleFailureLeaks`, `LostSegments.AcceptedAndKilled`.
  Another worker that settles the message makes the loss good; once nobody works on the campaign's messages
  nothing but an operation on the campaign itself does (`Finished.HeldForGood`).
- A test sent in a later month moves a campaign's reservation to an allowance that does not count it. Conditions:
  `SmsLedger.TestKeepsBackingExactly`, `Backing.BackingMovesExactly`; run: `LostSegments.NextMonthTestStrands`.
- A message that the provider has accepted can be sent again: after a reclaim two workers call with it, and the one
  that fails writes FAILED over SENT. Conditions: `Resends.TakesOffAgainExactly`, at the moment of acceptance
  `Resends.AcceptanceIsLastExactly`; run: `Resends.AcceptedIsSentAgain`.
- A callback that comes before its message's acceptance is recorded is lost, and so are its redeliveries. Condition:
  `CallbackRuns.CallbackShowsExactly`, with `CallbackRuns.EarlyCallbackIsLost` for what comes after; run:
  `CallbackRuns.ReportOvertakesAcceptance`.
- A recipient can show SENT after its delivery was reported, because the worker tells it the outcome after saving the
  message. Condition: `RecipientRanks.SetsBackExactly`; run: `RecipientRanks.DeliveredShowsSent`.
- A host name outside the basic GSM alphabet makes the SMS estimate too low for some body. Condition:
  `Segments.EstimateNeedsBasicHost`; inputs: `Segments.ForeignHostUnderestimated`, `Segments.ExtendedHostUnderestimated`.
- A test SMS is charged for a shorter text than is sent. Condition: `Segments.TestUndercountedExactly`;
  input: `Segments.LongTestUndercounted`.
- A series of exactly 500 starts is refused although the message says it may not exceed 500. Condition:
  `Recurrence.TooManyExactly`; input: `Recurrence.FiveHundredIsRefused`.
- A paid registration that gives the same answer again awaits payment once more, although it may not change its answer.
  Condition: `OrderMachine.UnpaidExactly`, over runs `OrderMachine.StaysPaid`; run: `CommerceRuns.PaidAndAwaitingPayment`.
- A webhook without a status can make an older status event look stale. Condition:
  `Subscriptions.NewestStatusTakesEffectExactly`; input: `Subscriptions.StatuslessEventHidesStatus`.

## Model

| member | source | states |
|---|---|---|
| Inventory.OversellIsBounded | payments/services.py:250-560 | over every run, sold + live held is at most the quantity plus everything settled without a live hold |
| Inventory.NeverOversells | payments/services.py:250-560 | a run without late payments or stray disputes never oversells |
| Inventory.StepOversellsExactly | payments/services.py:447-560 | a step takes a type past its quantity if and only if it settles, without a live hold, more than remains |
| Inventory.ReservationFits | payments/services.py:341-376 | an accepted reservation leaves its type within its quantity and no other type worse off |
| Inventory.ReservationFitsOccurrence | payments/services.py:352-376 | an accepted reservation leaves the occurrence's confirmed people and live holds within its capacity |
| OccurrenceLoads.LoadIsBounded | payments/services.py:333-514 | over every run a ticketed occurrence's confirmed people and live holds are at most its capacity and the members that payments let in beyond the places still held for them |
| Inventory.NextClaims | payments/services.py:319-560 | no step but a payment or dispute adds to what is claimed beyond the quantity, and those add exactly their slip |
| LatePayment.LatePaymentOversells | payments/services.py:457-500 | a run of one ticket and two buyers ends with both orders settled, and its one late payment is the whole slip |
| CommerceTables.RunKeepsTables | payments/services.py:319-705 | on every run order, line and hold agree, amounts and fees follow from the line, refunds belong to settled orders, and the roster stays consistent through payments |
| CommerceTables.SettledForever | payments/services.py:447-705 | a settled order stays settled through any continuation |
| OrderMachine.HoldsFollowExactly | payments/services.py:447-560 | a step keeps every hold HELD, CONVERTED or RELEASED as its order's status demands if and only if it is no dispute on an unsettled order |
| OrderMachine.HoldsAlwaysFollow | payments/services.py:447-560 | the same over whole runs without such a dispute |
| CommerceRuns.StrayDisputeKeepsItsHold | payments/services.py:963-987 | a run with a dispute on a pending order ends with its hold HELD past its expiry, releases notwithstanding |
| OrderMachine.ReleaseClearsExpired | payments/services.py:551-560 | where holds follow their orders, releasing leaves none HELD past its expiry, expires exactly those orders, and touches nothing live |
| OrderMachine.OnePendingAndOneTicket | payments/services.py:329-335 | on every run a registration has at most one pending order and a participant at most one ticket |
| OrderMachine.PaidIffSomeSuccess | payments/services.py:447-548 | any order of payment successes and failures ends PAID if and only if there was a success, else in the first failure's status |
| OrderMachine.SettledExactly | payments/services.py:447-548 | through any run an order is settled at the end if and only if it was before, or a payment success or a dispute of it arrived, whatever else came between |
| OrderMachine.UnpaidExactly | events/registration.py:179-236 | a paid registration stops being paid if and only if its own answer is accepted again, which leaves the response as it is, or one of its orders is refunded in full |
| OrderMachine.StaysPaid | events/registration.py:179-236 | so it stays paid through every run without such a step |
| CommerceRuns.PaidAndAwaitingPayment | events/registration.py:179-236 | a run in which a buyer pays and gives the same answer again ends with a paid order and a registration awaiting payment |
| OrderMachine.PaidPartyIsTicketed | payments/services.py:495-514 | a first payment leaves the registration paid and every active member of its party with a ticket, nobody with two |
| OrderMachine.TicketsMatchParty | payments/services.py:505-514 | as many tickets are issued as the party has members, if none had one |
| OrderMachine.IssuedTickets | payments/services.py:505-514 | issuing keeps old tickets and adds valid ones of the order for active members only |
| PaidPlaces.PaymentIssuesItsQuantityExactly | payments/services.py:505-514 | on every run a first payment issues the quantity paid for if and only if that many active members of the party have no ticket at that moment |
| PaidPlaces.HeldPlacesAreIssued | payments/services.py:329-514 | from any accepted reservation, through every run in which the party does not answer again and no other order of it is paid, the payment issues exactly the places held, one for each member of the party |
| PaidPlaces.PaidWithoutTicket | payments/services.py:505-514 | a run in which the buyer declines between hold and payment ends with a paid order and no ticket |
| AuditTrail.AuditAlwaysReplays | payments/services.py:515-522 | replaying the financial history of a run gives back every order's and every refund's status, unless an uncertain session was noted on an order no longer pending |
| AuditTrail.AuditBreaksExactly | payments/services.py:425-440 | a step keeps that agreement if and only if it notes no uncertain session on an order that is not pending |
| AuditTrail.LateNoteMisleads | payments/services.py:425-440 | a run in which the order expires while its session is opened ends with an expired order whose history says PENDING |
| RefundLedger.RefundsMatchHistory | payments/services.py:656-704 | with a fee rate below 100%, on every run refunded_cents is the sum of the history's entries into SUCCEEDED and the returned fee is the proportional share of that, never above the fee, and up to the order's total never above the money returned nor leaving more fee than money |
| RefundLedger.CountersNeverFall | payments/services.py:663-669 | with a fee rate below 100%, neither refund counter ever decreases along a run |
| RefundLimits.RefundedIsAccountedFor | payments/services.py:656-680 | on every run an order's refunded money is what stands SUCCEEDED on it plus all that ever left SUCCEEDED, and what stands is at most what was requested |
| RefundLimits.RefundsStayWithinTotal | payments/services.py:564-680 | if every request is for at most the total less all earlier requests and no refund leaves SUCCEEDED, the order is never refunded beyond its total |
| RefundLimits.RefundsExceedTotalExactly | payments/services.py:564-680 | in every reachable state provider successes alone can take an order past its total if and only if requests and withdrawn successes together exceed it |
| RefundLimits.TwoRequestsRefundTwice | payments/services.py:564-592 | a run with two full requests on a paid order, none withdrawn, refunds it twice |
| RefundLimits.OneRequestRefundsTwice | payments/services.py:625-680 | a run with one full request that succeeds, fails and succeeds again refunds the order twice |
| TicketStatuses.TicketRefundedExactly | payments/services.py:671-677 | if every ticket has a price, on every run a ticket is refunded if and only if its order's whole total was |
| TicketStatuses.RefundStatusesAreExact | payments/services.py:670-679 | if every ticket has a price, on every run an unsettled order has nothing refunded, a REFUNDED one at least its total, a PARTIALLY_REFUNDED one something less |
| TicketStatuses.UndisputedStatusIsExact | payments/services.py:670-679 | if every ticket has a price, on a run without disputes on it a settled order is PAID, PARTIALLY_REFUNDED or REFUNDED exactly as its refunded amount says |
| CommerceDesk.Desk.ReserveTicketOrder | payments/services.py:319-421 | the in-place operation is the reservation step, and a refusal rolls the superseded order back |
| CommerceDesk.Desk.MarkOrderPaid | payments/services.py:447-526 | the loop over participants issues exactly the step's tickets |
| CommerceDesk.Desk.FailOrder | payments/services.py:529-548 | the in-place operation is the failure step |
| CommerceDesk.Desk.ReleaseExpiredHolds | payments/services.py:551-560 | collecting ids and failing each order is the release step, and the count is the number collected |
| CommerceDesk.Desk.PrepareRefund | payments/services.py:563-591 | the in-place operation is the request step with its two refusals |
| CommerceDesk.Desk.ApplyRefundObject | payments/services.py:625-705 | the in-place operation is the refund-update step |
| CommerceDesk.Desk.HandleEvent | payments/services.py:1033-1118 | an event is dispatched to its step, or raises and changes nothing on an account mismatch |
| CommerceDesk.Webhooks.ProcessConnectEvent | payments/services.py:991-1030 | one delivery, including the rollback and the FAILED row, is the inbox step |
| CommerceDesk.Webhooks.RetryFailed | payments/services.py:1232-1245 | a retry is a redelivery of the failed events it could fetch, oldest first, up to the limit; it counts those that ended PROCESSED, and all others as errors |
| Inbox.AppliedExactlyOnce | payments/services.py:991-1030 | after any deliveries, failures and retries the world is the fold of distinct events in order of first success; PROCESSED rows are exactly those; attempts counts the tries |
| Inbox.AppliedWasDelivered | payments/services.py:1007-1017 | nothing is applied that was not delivered without interruption |
| Inbox.UninterruptedDeliveryIsApplied | payments/services.py:1012-1017 | a delivery that is neither interrupted nor refused leaves its event applied |
| ConnectEvents.WebhooksActOnce | payments/services.py:991-1118 | from any inbox and with any other steps in between, deliveries amount to a commerce run of those steps and at most one step for each distinct event not processed before |
| ConnectEvents.DeliveriesActOnce | payments/services.py:991-1118 | deliveries alone, from an empty inbox, amount to a run of the distinct events in order of first success |
| ConnectEvents.FoldIsRun | payments/services.py:1033-1118 | applied events are a run of the commerce machine, so every result about runs holds behind the webhook |
| ConnectEvents.EventsRespectAccounts | payments/services.py:1046-1050 | an event from one connected account never changes an order of another |
| ConnectEvents.PaidIffSuccessGotThrough | payments/services.py:991-1094 | however the payment events of an unsettled order are ordered, repeated, interrupted and retried, it ends settled if and only if one delivery of a success got through |
| Fees.ApplicationFeeBounds | payments/fees.py:4-11 | for a rate below 100% the fee is 0 or below the amount, and within half a cent of exact unless capped at amount - 1 |
| Fees.ApplicationFeeMonotone | payments/fees.py:4-11 | the fee grows with the amount and with the rate, below 100% |
| Fees.FeeRefundBounds | payments/fees.py:14-22 | at every step fee returned is at most money returned, fee kept at most money left, and the rounding error at most half a cent |
| Fees.FeeRefundMonotone | payments/fees.py:14-22 | refunding more never returns less fee, and never more than the fee |
| Fees.FeeRefundsDoNotDrift | payments/fees.py:14-22 | however an order's total is split into refunds, the increments add up to exactly the fee |
| Reporting.TicketInventoryMap | payments/services.py:279-316 | the grouped inventory equals the one-type inventory for every requested type |
| Reporting.OccurrenceComparison | sites/reporting.py:186-267 | each row's money columns are the sums over that occurrence's settled orders |
| Reporting.EventComparison | sites/reporting.py:270-302 | one pass gives each event the totals of its rows, each event once |
| Reporting.OccurrenceRowsAddUp | sites/reporting.py:216-267 | gross, refund and net columns add up to the totals of the commerce summary |
| Reporting.EventRowsAddUp | sites/reporting.py:270-302 | regrouping by event loses and doubles nothing |
| Reporting.ReportsCoverEveryRun | payments/services.py:1121-1166 | on every run the net column over all occurrences is the summary's net |
| Delivery.ProviderCallsAreBounded | communications/services.py:168-291 | under any interleaving, crashes, redelivered tasks and reclaims included, provider calls <= attempts <= 5 |
| Delivery.RunKeepsSingleFlight | communications/services.py:168-271 | unless a reclaim takes the message back in mid-call, at most one worker at a time calls the provider with it, and an accepted message is terminal or failed at the limit |
| Delivery.AcceptedIsNeverSentAgain | communications/services.py:177-190 | where at most one worker calls with it, an accepted message is sent by nobody again, through any later reclaims, kills, callbacks, cancellation and unsubscribe |
| Resends.TakesOffAgainExactly | communications/services.py:168-223 | some continuation has a worker take off with a message, accepted or not, if and only if it has attempts left, its contact is not suppressed, and it is not terminal or some worker is still calling with it |
| Resends.AcceptanceIsLastExactly | communications/services.py:213-268 | at an acceptance that is so if and only if another worker is still calling with the message, with attempts left and the contact not suppressed |
| Resends.AcceptedIsSentAgain | communications/services.py:213-279 | a run in which a reclaimed worker fails after another's message was accepted ends with a third worker calling with the accepted message |
| Delivery.ReclaimBreaksExactly | communications/services.py:274-279 | a reclaim keeps at most one worker calling with a message if and only if it does not take it back from one that still is |
| Delivery.FailureWaits | communications/services.py:215-223 | a failed message cannot be claimed before its back-off of 2 to 60 minutes has passed |
| Reservations.LedgerAlwaysReconciles | communications/campaigns.py:198-219 | on every run each month's reserved and sent are what its usage events add up to, within what was included and purchased |
| SmsLedger.LaunchStrands | communications/campaigns.py:208-219 | a launch leaves exactly what the campaign held before to nobody, in the allowance it was held from, in any month |
| SmsLedger.ReleaseIsExact | communications/campaigns.py:447-469 | where every allowance counts what is held from it, a release takes exactly what is asked, up to what the campaign holds, and keeps that |
| SmsLedger.ConsumeIsExact | communications/campaigns.py:484-513 | the same for consumption from the allowance the campaign holds from |
| SmsLedger.TestKeepsBackingExactly | communications/campaigns.py:650-662 | a test leaves every holding as well backed as before if and only if the campaign holds nothing or holds it from the present month |
| Backing.BackingMovesExactly | communications/campaigns.py:198-662 | a step changes nothing between months, overwriting apart, if and only if it neither tests a campaign holding another month's segments nor books a message of another month |
| Backing.ReservedIsAccountedFor | communications/campaigns.py:198-662 | on every run and for every month, reserved segments are those held from the allowance, those launches overwrote, and those that crossed between months |
| Backing.ReservedIsHeldOrOverwritten | communications/campaigns.py:198-219 | if nothing crosses, each month's reserved segments are exactly what campaigns hold from it plus what launches overwrote |
| Backing.OneMonthNeverCrosses | communications/campaigns.py:198-662 | in a run that opens no further month nothing crosses |
| LostSegments.NextMonthTestStrands | communications/campaigns.py:650-662 | a run with a test in each of two months and a cancellation leaves a segment on the campaign that its month does not count, and one reserved in the first month that nobody holds |
| LostSegments.LaunchStrandsTheTest | communications/campaigns.py:198-219 | a run with a test, a launch and a cancellation leaves the test's segment reserved in the allowance and held by nobody |
| Holdings.ReservationsDoNotLeak | communications/campaigns.py:335-513 | on every run in which nothing crosses, a campaign past scheduling holds at most the segments of its messages of that month that nobody has consumed, released or taken out of the queue |
| Finished.FinishedCampaignHoldsNothing | communications/services.py:168-271 | on every run in which nothing crosses, once its messages are final and nobody works on them, a campaign holds at most the segments of those whose settling workers were all killed, so nothing if there are none |
| Finished.UnsettledExactly | communications/services.py:215-271 | a final message nobody works on is unsettled if and only if every worker that was to settle it was killed |
| Finished.KilledExactly | communications/services.py:213-271 | the one step that makes it so is that worker's death after the claim of the last attempt or the acceptance and before its ledger write |
| Finished.HeldForGood | communications/services.py:168-291 | what a campaign holds when none of its messages can be worked on any more it holds through every run without an operation on it or an unsubscribe link that reaches its messages |
| ExactHoldings.FinishedHoldsNothingExactly | communications/services.py:168-271 | from a reservation that matches the messages, through a run in which nothing crosses between months, no message is settled again or brought back, and the campaign is not launched, expanded, cancelled or first tested in a month, a finished campaign holds exactly its stuck messages' segments, hence nothing if and only if none is stuck |
| ExactHoldings.ExpansionIsExact | communications/campaigns.py:427-444 | an expansion that needs no more than was reserved leaves the reservation exactly what its messages need |
| ExactHoldings.FirstTestIsExact | communications/campaigns.py:650-662 | so does the first test of a campaign that holds nothing and whose earlier messages are settled |
| LostSegments.StaleFailureLeaks | communications/services.py:215-245 | a run in which the last attempt's worker is killed and a reclaimed one then gets an error ends with a final message whose segment stays reserved |
| LostSegments.AcceptedAndKilled | communications/services.py:247-271 | a run in which a worker is killed between saving the acceptance and consuming ends with a SENT message whose segment stays reserved |
| Expansion.PreviewMatchesExpansion | communications/campaigns.py:323-444 | for a host name in the basic alphabet, expanding a due campaign without recipients gives the preview's candidate, eligible and excluded counts and segments, for every draw of tokens |
| Expansion.ReservationMatchesMessages | communications/campaigns.py:180-230 | for a host name in the basic alphabet, if contacts, text and reservation are as the launch left them, expansion releases nothing and the reservation is what the new messages owe |
| Expansion.ExpandAllTally | communications/campaigns.py:360-425 | each contact is counted once, the eligible ones are queued, and exactly their segments become owed |
| Expansion.AudienceIsOrdered | communications/campaigns.py:68-85 | the audience is the unarchived contacts of the query, once each, in id order |
| Expansion.PreviewCampaign | communications/campaigns.py:137-165 | the loop's totals and per-reason counts are those of the audience |
| MessagingOutcomes.ClaimsRespectConsent | communications/services.py:128-144 | a worker takes off only with a message its contact may get at that moment |
| MessagingOutcomes.CancelledCampaignIsQuiet | communications/campaigns.py:247-288 | where every allowance counts what is held from it, right after cancelling the campaign holds nothing, none of its messages is waiting, and no other message changed |
| MessagingOutcomes.CancelledMessagesStayDown | communications/campaigns.py:247-288 | over every run after cancelling, only messages that were being processed or sent at that moment can take off again |
| MessagingOutcomes.UnsubscribedGetsNothing | communications/campaigns.py:525-583 | after the link is used no marketing message to the contact on that channel, old or new, takes off in any run that does not grant consent again |
| MessagingOutcomes.LinkWithdraws | communications/campaigns.py:525-583 | the link withdraws the consent, unless suppressed, and takes every waiting marketing message to the contact out of the queue |
| CallbackRuns.CallbackOrderDoesNotMatter | communications/callbacks.py:63-165 | two runs of callbacks on one message whose recipient mirrors it, with the same kinds of event, in any order and with any redelivery, end alike |
| MessageCallbacks.MessageOrderDoesNotMatter | communications/callbacks.py:63-165 | two runs in which the same kinds of event are delivered for an accepted message, with or without recipient and contact, and with any steps between that leave the message alone, leave it with the same status, attempts and filled timestamps |
| CallbackRuns.CallbackRun | communications/callbacks.py:63-165 | callbacks act on message, recipient and consent once for each id |
| CallbackRuns.CallbackShowsExactly | communications/callbacks.py:63-150 | a callback changes what anyone reads of message, recipient or consent if and only if its id is new, a message is recorded under its provider id by then, and its kind is known and news to those rows |
| CallbackRuns.HandledExactly | communications/callbacks.py:66-78 | on every run an id is handled from its first delivery on, whatever that came to |
| CallbackRuns.EarlyCallbackIsLost | communications/callbacks.py:63-92 | a callback that comes before its message's acceptance is recorded changes no row, and neither do its redeliveries, ever |
| CallbackRuns.ReportOvertakesAcceptance | communications/callbacks.py:79-92 | two runs from the same claim: reported before the acceptance is recorded the message stays SENT, after it the message is DELIVERED |
| RecipientRanks.SetsBackExactly | communications/services.py:107-125 | a step lowers what a recipient shows if and only if a worker tells it less than it shows, a message of an unsubscribed recipient is suppressed, or a callback advances a message that is behind its recipient |
| RecipientRanks.RanksRise | communications/callbacks.py:95-131 | over runs without such a step a recipient's rank never falls |
| RecipientRanks.DeliveredShowsSent | communications/services.py:247-269 | a run in which the delivery is reported before the worker tells the recipient ends with a DELIVERED message whose recipient shows SENT |
| Callbacks.CallbacksAreConfluent | communications/callbacks.py:95-150 | from a recipient that mirrors its message, statuses, attempts, filled timestamps and consent depend only on which kinds of event arrived |
| Callbacks.ReceivedStatus | communications/callbacks.py:15-46 | the status is the highest rank seen, and a recipient that mirrored it still does |
| Callbacks.ReceivedStamps | communications/callbacks.py:108-131 | the filled timestamps are the initial ones and those of the kinds that arrived |
| Callbacks.ReceivedConsent | contacts/services.py:7-28 | consent ends suppressed if anything suppressing arrived, else withdrawn if an unsubscribe did; attempts reach 5 on a failure |
| Callbacks.CallbacksOnlyAdvance | communications/callbacks.py:97-103 | a rank never goes down and suppressed consent is never lifted |
| Callbacks.ProviderFailureIsFinal | communications/callbacks.py:103-107 | from a terminal status callbacks end terminal or failed at the attempt limit |
| MessagingDesk.Desk.LaunchCampaign | communications/campaigns.py:180-230 | the in-place operation is the launch step with its refusals in order |
| MessagingDesk.Desk.ExpandCampaign | communications/campaigns.py:335-444 | the in-place operation is the expansion step |
| MessagingDesk.Desk.ExpandAudience | communications/campaigns.py:360-425 | the loop over the audience is the expansion fold |
| MessagingDesk.Desk.CancelCampaign | communications/campaigns.py:247-288 | the in-place operation is the cancel step |
| MessagingDesk.Desk.ReleaseSms | communications/campaigns.py:447-469 | the in-place operation is the ledger's release |
| MessagingDesk.Desk.ConsumeSmsForMessage | communications/campaigns.py:484-513 | the in-place operation is the ledger's consumption |
| MessagingDesk.Desk.UseUnsubscribeLink | communications/campaigns.py:525-583 | the two loops are the unsubscribe step |
| MessagingDesk.Desk.QueueCampaignTest | communications/campaigns.py:639-683 | the in-place operation is the test-send step |
| MessagingDesk.Desk.ClaimMessage | communications/services.py:168-211 | the locked half of delivery is the claim step, and says whether a worker took off |
| MessagingDesk.Desk.SaveSent | communications/services.py:247-268 | the first commit after an acceptance is the record step |
| MessagingDesk.Desk.SaveRecipient | communications/services.py:107-125 | the recipient commit is the worker's next step, with the status its answer and attempt count call for |
| MessagingDesk.Desk.SettleSms | communications/services.py:153-165 | the ledger commit is the worker's next step, a consumption after an acceptance and a release otherwise |
| MessagingDesk.Desk.AcceptMessage | communications/services.py:247-271 | the accepted half is its four commits in order, when nothing comes between them |
| MessagingDesk.Desk.FailMessage | communications/services.py:213-245 | the failed half is its two commits, or all five when the worker's own attempt count is at the limit, when nothing comes between them |
| MessagingDesk.Desk.ReclaimStaleMessages | communications/services.py:274-279 | the loop puts back exactly the stale messages |
| MessagingDesk.Desk.ProcessProviderCallback | communications/callbacks.py:63-165 | the in-place operation is the callback step |
| Segments.CountSegments | communications/campaigns.py:55-65 | the early-exit loop is the two-case count |
| Segments.PartsAreLeast | communications/campaigns.py:55-65 | the count is the least number of parts that fits |
| Segments.AppendingNeverLowers | communications/campaigns.py:55-65 | appending text never lowers the count, also when it switches the text to UCS2 |
| Segments.EstimateIsExact | communications/campaigns.py:124-134 | for a host name in the basic alphabet the estimate is the count of the text sent, for every 43-character token |
| Segments.EstimateNeedsBasicHost | communications/campaigns.py:124-134 | the estimate is what is billed, for every body and every token, if and only if the host name is in the basic alphabet |
| Segments.EstimateIsNeverTooHigh | communications/campaigns.py:124-134 | for any host name, body and token the estimate is at most what is billed |
| Segments.TestUndercountedExactly | communications/campaigns.py:647-680 | a test is charged at most what is sent, and less if and only if the eight characters between the two texts start a new part |
| Segments.LongTestUndercounted | communications/campaigns.py:647-680 | a body of 147 characters is charged as one segment and sent as two |
| Registrations.CapacityIsNeverExceeded | events/registration.py:187-210 | no sequence of responses fills a free occurrence beyond its capacity |
| Registrations.PartiesKeepTheirShape | events/registration.py:248-274 | a GOING registration has its primary and at most the allowed guests active, any other nobody |
| Registrations.HistoryMatchesRoster | events/registration.py:276-285 | the history chains and its last entry matches the registration and its head count |
| Registrations.PartiesAfterRecord | events/registration.py:248-274 | a response replaces exactly its registration's party by the requested one |
| Registrations.CapacityRefusalIsExact | events/registration.py:187-210 | a response is refused for capacity if and only if it would not fit beside everyone else |
| Registrations.Desk.Respond | events/registration.py:136-289 | the in-place operation is the response step with its refusals in order |
| Registrations.Desk.Reseat | events/registration.py:248-274 | the loop over guests seats the new party |
| Recurrence.OccurrenceStarts | events/services.py:44-63 | the generator yields the rule's starts up to the first past the end, or raises, for their number if and only if the 500th start exists and is not past the end |
| Recurrence.SeriesIsExact | events/services.py:44-63 | an accepted series is strictly increasing and holds exactly the starts not past the end date |
| Recurrence.TooManyExactly | events/services.py:52-55 | a rule is refused as too long if and only if its 500th start exists and is not past the end date |
| Recurrence.FiveHundredIsRefused | events/services.py:52-55 | a series of exactly 500 is refused |
| Recurrence.MonthlyDoesNotDrift | events/services.py:36-41 | the n-th monthly start is n intervals on, its day the first day clamped to that month alone |
| Recurrence.WeeklyKeepsStep | events/services.py:56-57 | weekly starts are exactly the interval's weeks apart |
| Recurrence.NthIncreases | events/services.py:44-63 | later starts of a rule with an interval are later days |
| Subscriptions.NewestEventWins | subscriptions/services.py:179-303 | after any deliveries of events that all carry a status, each time one event's, the status is the newest one's |
| Subscriptions.DeliveryOrderDoesNotMatter | subscriptions/services.py:179-303 | two deliveries of the same status-bearing events, each time one event's, in any order and with repetitions, agree |
| Subscriptions.NewestStatusTakesEffectExactly | subscriptions/services.py:179-303 | in any sequence of deliveries the newest status takes effect, and stands, if and only if one of its deliveries comes before every newer event that moves the time; otherwise none of its deliveries changes anything |
| Subscriptions.RemembersNewestTime | subscriptions/services.py:179-234 | in any order of delivery the remembered event time is the newest of all handled events |
| Subscriptions.StatuslessEventHidesStatus | subscriptions/services.py:188-218 | with a checkout event in between, whether a cancellation counts depends on the order |
| Subscriptions.SiteFollowsSubscription | subscriptions/services.py:60-75 | the site's status is the mapped subscription status after every step |
| Subscriptions.EventTimeNeverGoesBack | subscriptions/services.py:231-234 | the remembered event time never decreases |
| Subscriptions.Account.ApplyStripeEvent | subscriptions/services.py:187-303 | the in-place operation is the event step |
| Subscriptions.Account.ChangeStatus | subscriptions/services.py:60-75 | the in-place operation sets subscription, site and suspension time together |
| Subscriptions.Account.Synchronize | subscriptions/services.py:106-140 | the in-place operation is the access step |

## Left out

- Stripe, Resend, Celery, tokens, signatures and HTTP: provider answers and webhook objects are arbitrary inputs, and the order or refund an object leads to is given.
- Unlocked read-modify-write races: each atomic block is one step; only the commits of a delivery are interleaved.
- Changing quantity, capacity, price or a ticket type's activity while holds are live: these are fixed for a run.
- Stripe ids on orders and refunds, and currencies.
- Reconciliation against the provider: its two effects on orders are the payment and failure steps.
- Membership subscriptions and dues, connected-account status, attendance, reviews and all reporting columns but money.
- Message bodies after sending, subjects, error texts, names of actors, and unsubscribe tokens beyond their length and alphabet.
- The status and expiry of invitations, and the public form that creates a contact before responding.
- Messaging.Crash: a write that raises for its own reasons, such as a lost connection, is the death of its worker.
- ExactHoldings.FinishedHoldsNothingExactly: starts from a reservation that matches its messages, because an overwriting launch, a cancellation with messages in the air or a second release of one message sets the two apart for good.
- Messaging.ReclaimStale: does not model which due messages a batch picks, nor its order and limit, because any claim may happen at any time.
- Messaging.ReceiveCallback: does not model the FAILED row of a callback whose processing raised, because such a try is rolled back and changes nothing else.
- Recurrence.OccurrenceStarts: works on days of one wall clock; time zones and daylight saving are not modelled.
- Reporting.EventComparison: does not model the final sort by title, which moves no figure.
- Subscriptions.ApplyEvent: does not model the price and billing interval of a subscription, nor its inbox, which is the commerce inbox without attempts.
- The audience query of a campaign is a set of contacts given at launch and again at expansion.
