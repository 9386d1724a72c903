# Braids booking platform: verified model

This project models the booking, scheduling, payment and messaging logic of a platform on which hair stylists take
bookings, and proves what that logic keeps over every input and every run. It covers the parts where state, time and
money meet:

- the bookings table as a concurrent protocol: creating, confirming, cancelling, completing, expiring, with database
  reads and writes as separate steps of any number of actors;
- deposit and balance payments: what may be charged when, capture by webhook or client sync, full, partial and forfeit
  refunds, to the penny, and what the client really paid, online or in person;
- the availability engine: wall-clock time to instants, validated working hours, the slot-generating loops, and the
  gate that re-checks a requested start before a hold is created;
- session refresh-token families, the fixed-window rate limiter in both copies, the notification outbox, and the
  idempotent webhook handler;
- what the receptionist remembers of a conversation, and the price it quotes against the price later agreed.

Times are integers (milliseconds, or minutes for times of day). Payments and refunds are integer pence; price
arithmetic is exact with the source's rounding to the penny. Operations that change rows in place are methods of
classes with those rows as fields; each method's contract ties the new state to a function of the old one, and the
theorems are about those functions, over all runs. One `$transaction` is one step. Clocks, fresh identifiers and
tokens, query answers and what the payment provider replies are parameters.

Four services are modelled twice: once with a request as one call, and once with every database read, database write
and outside request as its own step, any number of them interleaving (`BookingProtocol`, `PaymentProtocol` with
`PaymentRaces`, `SessionRaces`, `OutboxRaces`; also `Webhooks`). `PaymentSolo`, `SessionRaces` and `OutboxRaces` prove
that an actor nobody interrupts does exactly what the one-call model does, and `PaymentSolo` that its confirmation is
the booking ledger's.

Assumptions: transactions that create bookings of one stylist are serialised; one clock serves application and
database; a booking has at most one deposit and one balance payment; the turns of one conversation with the receptionist
are stored one after another. `Outbox` and `OutboxProtocol` take each notification upsert and each delivery as one step.

Where the code does less than it seems to promise, a lemma gives the failing run or input, and another the exact
condition:

- two overlapping partial refunds both ask the provider and one is recorded
  (`PaymentRaces.OverlappingPartialsPayTwice`; exactly which steps keep the books: `PaymentProtocol.StepKeepsBooksIff`);
- a deposit paid as its hold runs out is paid back by the client's sync, captured again by the webhook for the same
  payment, and asked back again (`PaymentTheorems.SyncThenWebhookRefundsTwice`; `StepReconcilesIff`);
- a retry that finds the hold expired pays the deposit back while an earlier confirmation still lands, leaving a
  confirmed booking with its deposit refunded (`PaymentRaces.LateConfirmationTears`; `StepKeepsJointIff`);
- a late cancellation can forfeit the deposit while an expired capture is about to pay it back; the capture then returns
  normally with the booking refused and the deposit kept (`PaymentRaces.ForfeitedUnderACapture`; `StepKeepsJointIff`);
- a stylist's confirmation marks a deposit paid that nobody collected (`PaymentRaces.StylistMarksUnpaidPaid`;
  `StepKeepsPaidIff`);
- a balance taken in person while its online charge is pending can be paid online as well
  (`ClientMoney.CashThenCardPaysTwice`; `StepKeepsRestPaidOnceIff`);
- an uninterrupted capture of a booking that has ended keeps the deposit and reports a conflict
  (`PaymentTheorems.CaptureEndsInOneJointState`);
- two refreshes that read one token before either retires it leave two live sessions, and a refresh half done when the
  password is reset outlives the reset (`SessionRaces.InterleavedRefreshesLeaveTwo`, `PendingSuccessorOutlivesReset`;
  `StepKeepsOneClaimIff`, `EndIsForGoodIff`, `LockoutEndsIff`);
- a notification read by two deliveries before either marks it, or rescheduled by an upsert that read it before it was
  marked, is sent twice (`OutboxRaces.TwoDeliveriesSendTwice`, `RescheduledIsSentAgain`; `StepKeepsOnceIff`);
- a webhook event checked twice before it is recorded is handled twice (`Webhooks.TwoDeliveriesHandleTwice`;
  `StepKeepsOnceIff`);
- working hours with a boundary in the hour the clocks skip can offer the same start twice
  (`AvailabilityTheorems.SkippedHourRepeatsASlot`; `EveryQueryAscendsIff`);
- on a date whose clocks go back, a block longer than 24 hours can pass the availability gate over a stored conflict
  (`HoldGate.LongThursdayFoolsTheGate`; `PassIsSafeIff`; on all other dates the gate is safe, `GateIsSafeOnNarrowDays`);
- a turn of the receptionist is stored with the whole memory written back, so a price quoted for one style is remembered
  for the next (`SlotMemory.ChangedStyleKeepsTheOldPrice`; `OutlivesChangeIff`, `RememberedUntilForgotten`);
- a repeated add-on name is quoted twice and charged once (`Quotes.QuoteIsKeptIff`).

The two copies of the rate limiter agree for every limit the configuration admits, which is at least one
(`RateLimit.CopiesAgreeIff`).

## Model

| member | source | states |
|---|---|---|
| Bookings.BookingTable.TransitionBookingStatus | apps/api/src/modules/booking/state-machine.ts:40-72 | The status write succeeds only along the transition table and only from the status the caller expects; otherwise the table is unchanged and the error says which of the three checks failed. |
| Bookings.WriteLandsIff | apps/api/src/modules/booking/state-machine.ts:9-72 | The write lands exactly along the table from the status expected, and each refusal names its reason. |
| Bookings.BookingTable.ExpireStaleHolds | apps/api/src/modules/booking/conflict.ts:4-27 | Cancels exactly the lapsed holds in scope, leaves every other row as it was, and returns how many there were. |
| Bookings.SweepChangesIff | apps/api/src/modules/booking/conflict.ts:9-24 | For one stylist or for all, a sweep changes exactly the held rows in scope whose expiry has come, and only cancels them. |
| Bookings.BookingTable.CreateBooking | apps/api/src/modules/booking/service.ts:635-672 | The creating transaction sweeps, checks and inserts, or leaves the table as it was and reports the slot taken. |
| Bookings.CreateKeepsDisjoint | apps/api/src/modules/booking/service.ts:635-672 | A successful creation keeps all held-or-confirmed bookings of one stylist disjoint, lapsed or not. |
| Bookings.CreateAcceptedIff | apps/api/src/modules/booking/service.ts:638-652 | A booking is accepted exactly when no unlapsed active booking of the stylist overlaps it; the sweep hides no conflict and invents none. |
| Bookings.SecondHoldIsRefused | apps/api/src/modules/booking/service.ts:635-652 | Once a booking is committed, any clashing one is refused until that hold lapses. |
| BookingProtocol.NoDoubleBooking | apps/api/src/modules/booking/service.ts:635-672 | In every interleaving of creates, confirms, cancels, completions, no-shows, sweeps, expiry jobs and clock ticks, no two held-or-confirmed bookings of one stylist overlap, and a row has a hold expiry exactly while held. |
| BookingProtocol.StepKeepsInv | apps/api/src/modules/booking/state-machine.ts:49-65 | Every single step of any actor keeps the whole ledger invariant, and every row only moves along the transition table. |
| BookingProtocol.HistoriesArePaths | apps/api/src/modules/booking/state-machine.ts:9-15 | Every booking's status history is a path of the transition graph, at most three long, with no terminal status before its end. |
| BookingProtocol.TerminalIsForever | apps/api/src/modules/booking/state-machine.ts:32-34 | Over any run rows are kept, their slot never moves and a terminal status is never left. |
| BookingProtocol.ConfirmedEventFiresExactlyOnce | apps/api/src/modules/booking/service.ts:727-758 | Under any interleaving of retries and races the confirmed event fires at most once per booking, and exactly once for each that was ever confirmed when nobody still owes it. |
| BookingProtocol.RacingHoldsExactlyOneWins | apps/api/src/modules/booking/service.ts:635-672 | Of two requests that passed every earlier check for clashing time, the first to commit wins and the second is refused. |
| BookingProtocol.ConfirmMayLandAfterHoldLapsed | apps/api/src/modules/booking/service.ts:742-753 | A confirm that read a live hold can write after it has lapsed: there is a run in which it does. |
| BookingProtocol.SweepJobKeepsInv | apps/api/src/jobs/booking-expire-hold.job.ts:32-36 | The sweep job keeps the ledger invariant and moves rows only along the table. |
| HoldExpiry.HoldsLastTheirTime | apps/api/src/jobs/booking-expire-hold.job.ts:13-36 | Over every run without a request to cancel it, a hold turns cancelled only at or after its expiry, by whichever sweep or job. |
| HoldExpiry.TooLateToConfirm | apps/api/src/modules/booking/service.ts:742-749 | Once a hold's time is over and nobody who read it in time is still about to write, no run confirms it. |
| HoldExpiry.OnlyConfirmationMarksPaid | apps/api/src/modules/booking/service.ts:723-741 | Over every run the deposit status changes only to paid, only by the write that confirms the hold or a repair of a booking that is not held. |
| HoldExpiry.SoloRequestLands | apps/api/src/modules/booking/service.ts:826-905 | A cancellation, completion, no-show, confirmation or expiry job that nobody interrupts does what its kind and the hold's time say, and nothing else. |
| HoldExpiry.SoloCreationLands | apps/api/src/modules/booking/service.ts:635-672 | A creation that nobody interrupts puts in exactly the slot asked for, held for its time or confirmed, if that time is free, and nothing otherwise. |
| TimeZone.WallClockToUtc | apps/api/src/lib/scheduling/timezone.ts:67-101 | The correction loop computes the four-round solution. |
| TimeZone.SolverIsExact | apps/api/src/lib/scheduling/timezone.ts:67-101 | For any bounded offsets with at most one transition near any time, the result shows the requested wall time exactly when some instant does. |
| TimeZone.SolverIsIncreasing | apps/api/src/lib/scheduling/timezone.ts:67-101 | Over wall times that exist, the result is strictly increasing, across any number of transitions. |
| TimeZone.SkippedHourReverses | apps/api/src/lib/scheduling/timezone.ts:67-101 | Inside skipped time the order of two wall times can be reversed. |
| WorkingHours.ValidateWorkingHourRows | apps/api/src/modules/stylist-profile/availability.ts:163-185 | Accepts a row list exactly when every row runs forward and same-day rows are pairwise disjoint; an error names a day that offends in the way it says. |
| WorkingHours.DayOverlaps | apps/api/src/modules/stylist-profile/availability.ts:174-183 | Sorting and comparing neighbours reports an overlap exactly when some two ranges of the day overlap. |
| WorkingHours.AdjacentDecidesAllPairs | apps/api/src/modules/stylist-profile/availability.ts:174-183 | On forward ranges sorted by start, the neighbour check is the all-pairs check. |
| WorkingHours.AcceptedIsApartOnEveryDay | apps/api/src/modules/stylist-profile/availability.ts:163-185 | Pairwise disjointness of the row list is disjointness of each day's group. |
| WorkingHours.GetBaseAvailabilityRules | apps/api/src/modules/stylist-profile/availability.ts:38-94 | One rule per date of the range, in order: closed exception, else complete override, else the weekday's rows. |
| WorkingHours.ActiveRowsStayAccepted | apps/api/src/modules/stylist-profile/availability.ts:38-62 | Dropping inactive rows keeps an accepted list accepted. |
| WorkingHours.AcceptedRowsGiveOrderedRules | apps/api/src/modules/stylist-profile/availability.ts:63-90 | Rules built from accepted rows list ranges in the order of the day, none starting before an earlier one ends, whatever the exceptions. |
| Offers.RuleListsHoursWorked | apps/api/src/modules/stylist-profile/availability.ts:70-90 | A date's rule lists exactly the hours worked: none if closed, else the complete override, else the active rows of the weekday; and is closed exactly if there are none. |
| Offers.ClosedDateOffersNothing | apps/api/src/modules/stylist-profile/availability.ts:72-74 | A date with a closed exception offers nothing to any query. |
| Availability.PaddingKeepsTheBuffer | apps/api/src/modules/calendar/availability.ts:40-62 | No overlap with any padded booking is the same as keeping at least the buffer from every booking on both sides. |
| Availability.TryCandidate | apps/api/src/modules/calendar/availability.ts:84-106 | One candidate yields its slot exactly when it is in range, not past, and clear of all bookings. |
| Availability.ScanWindow | apps/api/src/modules/calendar/availability.ts:78-106 | One window's loop, with its early exit, appends the window's free slots up to the limit, and terminates for any positive interval. |
| Availability.ScanDay | apps/api/src/modules/calendar/availability.ts:72-120 | One day's loop over its ranges yields the day's free slots up to the limit. |
| Availability.GenerateFlat | apps/api/src/modules/calendar/availability.ts:64-137 | Flat mode returns exactly the first `limit` elements of the list of all free slots. |
| Availability.GenerateByDay | apps/api/src/modules/calendar/availability.ts:64-137 | Per-day mode returns each day that has a free slot with its first `limit` free slots, and a flat list that is their concatenation. |
| AvailabilityTheorems.SlotsAreExactlyTheBookableStarts | apps/api/src/modules/calendar/availability.ts:64-137 | The offered slots are exactly the grid starts of open ranges that fit, lie in range, are not past and keep the buffer: sound and complete. |
| Offers.OfferedIff | apps/api/src/modules/calendar/availability.ts:64-137 | From stored rows, exceptions and bookings alone: a slot is offered exactly if it spans service and buffer, starts in range and not in the past, keeps the buffer from every booking and lies on the grid of hours worked on one of the dates. |
| AvailabilityTheorems.SlotsAscend | apps/api/src/modules/calendar/availability.ts:72-130 | With ordered windows the offered starts strictly increase. |
| AvailabilityTheorems.OrderedRulesGiveOrderedWindows | apps/api/src/modules/calendar/availability.ts:72-83 | Ordered day rules give ordered windows of instants in any zone whose skipped times hold no boundary. |
| AvailabilityTheorems.EveryQueryAscendsIff | apps/api/src/modules/calendar/availability.ts:72-130 | With offsets of whole minutes, offered starts strictly increase for every query exactly when the open windows, as instants, follow one another. |
| AvailabilityTheorems.AcceptedHoursAscend | apps/api/src/modules/stylist-profile/availability.ts:63-90 | For rules from hours that passed validation, with any exceptions, over any dates, offered starts strictly increase for every query unless some range begins or ends in time the clocks skip. |
| AvailabilityTheorems.SkippedHourRepeatsASlot | apps/api/src/modules/calendar/availability.ts:72-83 | The rule built from accepted rows with a boundary in the skipped hour offers one start twice. |
| AvailabilityTheorems.OpenDaysAreExactlyTheDaysWithFreeSlots | apps/api/src/modules/calendar/availability.ts:108-134 | A day is listed exactly when it has a free slot, with exactly its first ones; no listed day is empty. |
| AvailabilityTheorems.OpenDaysKeepDateOrder | apps/api/src/modules/calendar/availability.ts:108-134 | Listed days stay in strictly increasing date order. |
| AvailabilityTheorems.ModesAgreeUnderLargeLimit | apps/api/src/modules/calendar/availability.ts:108-134 | With a limit at least the number of free slots, both modes return all of them. |
| HoldGate.CheckGate | apps/api/src/modules/booking/service.ts:580-591 | The gate's answer is whether the requested start is among the first hundred free slots of the next day. |
| HoldGate.GateIsExact | apps/api/src/modules/calendar/availability.ts:139-142 | With ordered windows the gate passes exactly for bookable starts: neither limit nor early exit hides the requested one. |
| Offers.GateLetsThroughIff | apps/api/src/modules/booking/service.ts:580-591 | The gate lets a start through exactly if it is not in the past, keeps the buffer from the bookings read and lies on the grid of hours worked, where the open windows follow one another. |
| HoldGate.GateIsSafe | apps/api/src/modules/calendar/service.ts:161-176 | If duration plus buffer is at most a day, passing the gate means no stored active booking overlaps the new block. |
| HoldGate.GatePassImpliesCreateAccepted | apps/api/src/modules/booking/service.ts:580-652 | A start that passed the gate is accepted by the creating transaction if nothing was written in between, and the block or else every open window is at most a day long. |
| HoldGate.GateIsSafeOnNarrowDays | apps/api/src/modules/calendar/service.ts:161-176 | Where no open window is longer than a day, a pass means no stored active booking overlaps, for any block. |
| HoldGate.ForwardDaysAreNarrow | apps/api/src/lib/scheduling/timezone.ts:67-101 | On dates whose clocks do not go back, no window within the day is longer than a day. |
| HoldGate.PassIsSafeIff | apps/api/src/modules/calendar/service.ts:161-176 | A passing start is safe for every table the gate may have read exactly when its block fits a day. |
| HoldGate.LongThursdayFoolsTheGate | apps/api/src/modules/booking/service.ts:580-591 | With accepted hours from 00:00 to 23:59 on a date whose clocks go back, a service of the longest duration allowed and a minute of buffer passes over a conflict. |
| HoldGate.BufferKeptIff | apps/api/src/modules/calendar/service.ts:161-176 | Among stored bookings that begin within the gate's day, a pass keeps the buffer from exactly those it reads and those that ended at least a buffer before. |
| Payments.PaymentService.ConfirmBooking | apps/api/src/modules/booking/service.ts:709-759 | New booking state and outcome: confirmed and paid, hold expired, or conflict. |
| Payments.PaymentService.CapturePaymentFromWebhook | apps/api/src/modules/payments/service.ts:722-803 | New account state and result of a capture of either kind, left uninterrupted. |
| Payments.PaymentService.ProcessRefund | apps/api/src/modules/payments/service.ts:809-925 | New account state of a full, forfeit or partial refund, left uninterrupted, and the payment it reports: nothing when there was nothing to refund, an error exactly for a partial amount outside the captured deposit. |
| Payments.PaymentService.RequestFullRefunds | apps/api/src/modules/payments/service.ts:894-898 | The refund loop asks once, in order, for each captured payment. |
| Payments.PaymentService.SyncAfterClientCheckout | apps/api/src/modules/payments/service.ts:518-547 | New account state and result of a client sync. |
| Payments.PaymentService.CreateCharge | apps/api/src/modules/payments/service.ts:370-675 | The amount charged or the first refusal, in the source's order: booking state and balance method, business and payment readiness, an earlier payment, the account, amount and client; a row is created only where none exists. |
| Charges.NewHoldChargesDepositIff | apps/api/src/modules/payments/service.ts:370-449 | A new hold's deposit can be charged exactly before its expiry, if there is one and business, account and client are ready. |
| Charges.ConfirmationOpensBalanceIff | apps/api/src/modules/booking/service.ts:715-741 | Whichever call confirms a booking, exactly the price less the deposit can be charged afterwards, if and only if that is something, the stylist takes it online and everyone is ready. |
| Charges.BalanceChargeEndsIff | apps/api/src/modules/payments/service.ts:549-601 | Exactly which calls end a chargeable balance: payment in person, cancellation or no-show of a confirmed booking, a refund, and a settled payment; completing the appointment is not one. |
| Charges.DepositChargeEndsIff | apps/api/src/modules/payments/service.ts:373-424 | Exactly which calls end a chargeable deposit: the hold's time, cancellation, confirmation, a refund, and a settled payment. |
| Charges.ChargingAgainIsTheSame | apps/api/src/modules/payments/service.ts:403-424 | Charging again returns the pending charge and changes nothing. |
| Charges.RefusalsSayWhy | apps/api/src/modules/payments/service.ts:370-675 | Each refused charge is refused for what is really amiss, a booking in the wrong state before anything else. |
| Charges.DepositAndBalanceMakeThePrice | apps/api/src/modules/payments/service.ts:370-801 | The run from a new hold that collects deposit and balance: together the agreed price, and nothing more can be charged. |
| Charges.ReportsWhatHappened | apps/api/src/modules/payments/service.ts:677-803 | A capture reports yes exactly if the booking is then confirmed, a balance sync exactly if the balance is then paid; a capture fails exactly for no payment or an ended booking. |
| Charges.RefundReports | apps/api/src/modules/payments/service.ts:814-925 | A refund acts exactly if it finds something to pay back or forfeit, reports the deposit as then written, and errs exactly for an impossible part. |
| Charges.RefundShowsInBooking | apps/api/src/modules/payments/service.ts:850-922 | What a refund that acts shows in the booking; and nothing can be charged after it. |
| ClientMoney.CapturedOnlyIfPaid | apps/api/src/modules/payments/service.ts:542-547 | Over every run, where webhooks come only for payments made and the provider tells the truth, a payment is recorded as captured, refunded or forfeited only if the client made it. |
| ClientMoney.SyncActsIff | apps/api/src/modules/payments/service.ts:535-547 | A sync of a pending payment changes the account exactly if the payment was made, and refuses otherwise. |
| ClientMoney.MarkedOnlyIfPaid | apps/api/src/modules/booking/service.ts:715-741 | Over every run without a stylist's confirmation, a booking is marked paid only if the client paid its deposit. |
| ClientMoney.CashIsMarkedIff | apps/api/src/modules/booking/service.ts:763-801 | The balance is marked as paid in person exactly if it is taken then or was so marked. |
| ClientMoney.StepKeepsRestPaidOnceIff | apps/api/src/modules/payments/service.ts:774-803 | Exactly which calls take the rest of the price twice: capturing the balance after it was paid in person, or taking it in person while it is held. |
| ClientMoney.NeverAboveThePrice | apps/api/src/modules/booking/service.ts:763-801 | So over every run without such a call, what is held online and what was paid in person never exceed the agreed price. |
| ClientMoney.CashThenCardPaysTwice | apps/api/src/modules/booking/service.ts:792-799 | The run in which the balance is taken in person while its online charge is pending, and is then paid online as well. |
| PaymentTheorems.StepReconcilesIff | apps/api/src/modules/payments/service.ts:754-760 | One call keeps the payment rows true to the provider exactly unless it is a webhook capture of a refunded payment. |
| PaymentTheorems.SyncThenWebhookRefundsTwice | apps/api/src/modules/payments/service.ts:518-547 | From a fresh hold: charge, hold runs out, the client's sync, then the webhook for the same payment: the provider is asked for twice the deposit. |
| PaymentTheorems.SettledRefundsAskNothingMore | apps/api/src/modules/payments/service.ts:814-820 | After a full or forfeit refund, no run of further refunds of any type, or of any calls but captures, asks the provider for more. |
| PaymentTheorems.ForfeitIsKeptIff | apps/api/src/modules/payments/service.ts:825-860 | A forfeited deposit stays forfeited and unrefunded through every call but a webhook capture of it. |
| PaymentTheorems.ForfeitedDepositIsNeverRefunded | apps/api/src/modules/payments/service.ts:825-860 | The same over any run. |
| PaymentTheorems.CaptureEndsInOneJointState | apps/api/src/modules/payments/service.ts:722-772 | An uninterrupted deposit capture ends confirmed, paid and unrefunded, or unconfirmed and refunded in full, never both, as it reports; or it fails, exactly when the booking has ended, and keeps the deposit. |
| PaymentTheorems.RepeatedCapturesChangeNothing | apps/api/src/modules/payments/service.ts:742-752 | While the booking is confirmed and paid, no run of repeated webhooks, syncs and stylist confirmations changes anything. |
| PaymentTheorems.CollectedNeverExceedsAgreedPrice | apps/api/src/modules/payments/service.ts:549-675 | Over any run, deposit and balance collected online never exceed the agreed price, and both together equal it. |
| PaymentProtocol.AskKeepsBooksIff | apps/api/src/modules/payments/service.ts:872-898 | With every call its own step, asking the provider for a refund keeps the books true exactly when the payment is still captured and no other actor holds an unwritten refund of it. |
| PaymentProtocol.RefundWriteKeepsBooksIff | apps/api/src/modules/payments/service.ts:833-922 | The unguarded row write that ends a refund keeps the books true exactly unless it forfeits a deposit that another actor has asked back or that is no longer captured. |
| PaymentProtocol.CaptureWriteKeepsBooksIff | apps/api/src/modules/payments/service.ts:754-760 | The unguarded write to captured keeps the books true exactly unless the payment was refunded. |
| PaymentProtocol.FailWriteKeepsBooksIff | apps/api/src/modules/payments/service.ts:945-952 | The unguarded write to failed keeps the books true exactly when the payment is still pending or already failed. |
| PaymentProtocol.StepKeepsBooksIff | apps/api/src/modules/payments/service.ts:722-953 | From true books, exactly which steps of any actor keep them true. |
| PaymentProtocol.MoneyIsConserved | apps/api/src/modules/payments/service.ts:809-925 | Over every interleaving in which no step breaks the books, pence taken equal pence paid back plus pence recorded as kept, nothing is paid back beyond its amount, and at most one refund of a charge is asked for but unwritten. |
| PaymentRaces.OverlappingPartialsPayTwice | apps/api/src/modules/booking/routes.ts:105-119 | From a fresh hold, two partial refunds that both read before either writes ask for twice what the row records. |
| PaymentRaces.StepKeepsJointIff | apps/api/src/modules/payments/service.ts:762-766 | Exactly which steps of any actor keep booking and deposit in agreement: not a confirmation landing on a deposit asked back, nor a refund of a confirmed booking, nor one that ends with part of the deposit or all of it kept. |
| PaymentRaces.CapturesReturnJointly | apps/api/src/modules/payments/service.ts:722-772 | Over every run without such a step each deposit capture that returns normally returns in exactly the joint state it reports, whatever webhooks, syncs, cancellations and their refunds, expiries and confirmations interleave. |
| PaymentRaces.ForfeitedUnderACapture | apps/api/src/modules/booking/service.ts:840-866 | From a fresh hold, a run in which the client cancels late while a capture is about to pay an expired hold's deposit back: the capture returns normally, the booking is cancelled and the deposit kept. |
| PaymentRaces.LateConfirmationTears | apps/api/src/modules/booking/service.ts:742-753 | From a fresh hold, a run of capture and retry that ends with a confirmed booking whose deposit was paid back in full. |
| PaymentRaces.StepKeepsPaidIff | apps/api/src/modules/booking/service.ts:715-759 | A step keeps "marked paid means collected" exactly unless it is a stylist's confirmation that confirms or repairs an uncollected booking. |
| PaymentRaces.StylistMarksUnpaidPaid | apps/api/src/modules/booking/service.ts:811-824 | From a fresh live hold, the stylist's confirmation leaves the booking confirmed and marked paid with nothing collected. |
| PaymentRaces.RunKeepsPaid | apps/api/src/modules/booking/service.ts:811-824 | So over any run without one, a booking marked paid has its deposit collected. |
| PaymentSolo.SoloRefundIsTheCall | apps/api/src/modules/payments/service.ts:809-925 | A refund whose steps nobody interrupts is the one-call refund. |
| PaymentSolo.SoloCaptureIsTheCall | apps/api/src/modules/payments/service.ts:722-772 | A capture whose steps nobody interrupts is the one-call capture. |
| PaymentSolo.SoloChargeIsTheCall | apps/api/src/modules/payments/service.ts:370-475 | A charge whose steps nobody interrupts is the one-call charge. |
| PaymentSolo.SoloSettleIsTheCall | apps/api/src/modules/booking/service.ts:763-801 | The same for marking a balance as paid in person. |
| Money.PercentDepositIsTheShare | apps/api/src/modules/booking/mappers.ts:175-186 | A percentage up to 100 gives a deposit of whole pence between zero and the price, within half a penny of the exact share. |
| Money.EveryPolicySplitsThePrice | apps/api/src/modules/payments/service.ts:643 | For every deposit policy the two charges in pence sum to the agreed price. |
| Money.DeriveMoneySummary | apps/api/src/modules/booking/mappers.ts:68-110 | Paid plus remaining is the agreed price in every deposit and balance state, unless a deposit above the price counts as paid; what the stylist expects, case by case. |
| RateLimit.RateLimiter.IncrementMemory | apps/api/src/lib/security/rate-limit.ts:43-53 | The key's window after the call, the others untouched, and the count and time left. |
| RateLimit.RateLimiter.CheckRateLimit | apps/api/src/lib/security/rate-limit.ts:55-82 | Allowed exactly while the window's count is within the limit; otherwise a retry time of at least a second. |
| RateLimit.MessagingLimiter.IncrementMemory | apps/api/src/lib/messaging-rate-limit.ts:25-35 | The same windows, with the opening call of a window always allowed. |
| RateLimit.WindowBound | apps/api/src/lib/security/rate-limit.ts:43-82 | Any interval of window length holds at most twice the limit less one allowed calls, for every call history. |
| RateLimit.WindowBoundIsTight | apps/api/src/lib/security/rate-limit.ts:43-82 | For every limit, and every window of at least two milliseconds, a history that reaches the bound. |
| RateLimit.WaitingIsRewarded | apps/api/src/lib/security/rate-limit.ts:70-82 | After a refusal, whatever impatient calls come before the reset, the next call at or after the advised time is allowed exactly when the limit allows anything. |
| RateLimit.AdviceIsTight | apps/api/src/lib/security/rate-limit.ts:70-82 | The advised wait is never short and less than a second too long. |
| RateLimit.CopiesAgreeIff | apps/api/src/lib/messaging-rate-limit.ts:25-35 | The two copies agree on every call exactly when the limit is at least one. |
| Sessions.IdentityService.RefreshSession | apps/api/src/modules/identity/service.ts:302-326 | Rotates a usable token and changes nothing otherwise. |
| Sessions.IdentityService.DetectRefreshTokenReuse | apps/api/src/modules/identity/service.ts:328-341 | A revoked token revokes its whole family; any other changes nothing. |
| Sessions.IdentityService.Refresh | apps/api/src/modules/identity/routes.ts:132-159 | The endpoint rotates a usable token, and ends the family of a revoked one. |
| Sessions.IdentityService.IssueSession | apps/api/src/modules/identity/service.ts:660-688 | A new session for an active user, refused for a deactivated one. |
| Sessions.IdentityService.Logout | apps/api/src/modules/identity/service.ts:343-349 | The presented token is dead afterwards, known or not, and every other session is as it was. |
| Sessions.IdentityService.ResetPassword | apps/api/src/modules/identity/service.ts:492-505 | The user is locked out afterwards, and every other user's session is as it was. |
| Sessions.OneLivePerFamily | apps/api/src/modules/identity/service.ts:302-326 | In every reachable state a family has at most one unrevoked session, and it is the newest. |
| Sessions.ReplayEndsTheFamily | apps/api/src/modules/identity/service.ts:328-341 | A rotated token presented again, by anyone, after anything, ends its family in every continuation (section 5.2.2.3 of RFC 6819). |
| Sessions.DeadFamilyStaysDead | apps/api/src/modules/identity/service.ts:677-688 | A family with no unrevoked session never gains one again. |
| Sessions.ExchangedAtMostOnce | apps/api/src/modules/identity/service.ts:306-325 | Over any run a refresh token is exchanged at most once. |
| Sessions.ResetRevokesEverySession | apps/api/src/modules/identity/service.ts:501-504 | After a password reset no session of the user is live until the user logs in again. |
| Sessions.TokenLivesItsLifetime | apps/api/src/modules/identity/service.ts:680-688 | A token issued at login is usable at once, and in no run once its lifetime is over. |
| Sessions.LiveSessionEndsIff | apps/api/src/modules/identity/service.ts:302-349 | A live session ends exactly by being exchanged, by a replay of a revoked token of its family, by logout of its token, or by a reset of its user. |
| Sessions.DeactivatedGetNoSession | apps/api/src/modules/identity/service.ts:672-674 | While a user is deactivated, no run gives the user a new session. |
| SessionRaces.RetireKeepsInvIff | apps/api/src/modules/identity/service.ts:320-323 | With reads and writes as separate steps, and claims of a family being its live sessions plus its successors about to be created: retiring a token keeps at most one claim exactly when the token is still unrevoked or the family has no claim. |
| SessionRaces.StepKeepsOneClaimIff | apps/api/src/modules/identity/service.ts:302-341 | That is the only step of any request that can give a family a second claim. |
| SessionRaces.AtMostOneLive | apps/api/src/modules/identity/service.ts:302-341 | Over every interleaving without such a step, a family has at most one live session. |
| SessionRaces.UnclaimedGainsIff | apps/api/src/modules/identity/service.ts:307-323 | A family without a claim gains one exactly by the retirement of a token revoked since it was read. |
| SessionRaces.EndedFamilyStaysEnded | apps/api/src/modules/identity/service.ts:328-341 | If every retirement finds its token unrevoked, a family with no claim never has a live session again. |
| SessionRaces.DeadForGoodIff | apps/api/src/modules/identity/service.ts:302-341 | Over every run of separate steps, a family stays dead exactly when it has no live session, no successor about to be created and no refresh that has read one of its tokens and is about to retire it. |
| SessionRaces.EndIsForGoodIff | apps/api/src/modules/identity/service.ts:328-341 | The write that answers a replay ends the family for good exactly when no refresh of it is half done; if every retirement found its token unrevoked, exactly when no successor is pending. |
| SessionRaces.ExchangedOnceWhileGuarded | apps/api/src/modules/identity/service.ts:320-323 | If every retirement finds its token unrevoked, no token is exchanged twice, however requests interleave. |
| SessionRaces.FamilyRevivesIff | apps/api/src/modules/identity/service.ts:325 | A family with no live session regains one exactly when a pending successor is created. |
| SessionRaces.LockoutEndsIff | apps/api/src/modules/identity/service.ts:501-504 | A locked-out user gets a live session exactly by a sign-in or a pending successor. |
| SessionRaces.InterleavedRefreshesLeaveTwo | apps/api/src/modules/identity/service.ts:307-325 | The run of two refreshes that both read the token first, and its two live sessions. |
| SessionRaces.PendingSuccessorOutlivesReset | apps/api/src/modules/identity/service.ts:492-505 | The run in which a refresh half done at a password reset leaves the user a live session. |
| SessionRaces.SoloRefreshIsTheRequest | apps/api/src/modules/identity/routes.ts:132-159 | A refresh whose steps nobody interrupts is the one-step request: rotation, or reuse detection. |
| Outbox.NotificationsService.UpsertScheduledNotification | apps/api/src/modules/notifications/repository.ts:113-177 | Whatever the row was, it is scheduled for that time afterwards unless it was sent, which stays sent; no other row changes. |
| Outbox.NotificationsService.CancelPendingForBooking | apps/api/src/modules/notifications/repository.ts:179-190 | No row of the booking is pending afterwards; settled rows and other bookings' rows are as they were. |
| Outbox.NotificationsService.ScheduleRemindersForBooking | apps/api/src/modules/notifications/service.ts:78-95 | The loop schedules each reminder whose time is ahead, for a confirmed booking only. |
| Outbox.NotificationsService.EnsureReminderSchedules | apps/api/src/modules/notifications/service.ts:97-112 | The sweep does that for every listed booking in turn. |
| Outbox.NotificationsService.DeliverNotification | apps/api/src/modules/notifications/service.ts:143-268 | The decision and new state of one delivery, for each of its eight outcomes. |
| Outbox.EnsureBooksEveryReminder | apps/api/src/modules/notifications/service.ts:97-112 | After the sweep each reminder of each listed confirmed booking whose time is ahead is scheduled for exactly start minus offset, or sent. |
| Reminders.SweepSetsTheHours | apps/api/src/modules/notifications/service.ts:97-112 | The same in hours: 48 and 2 before the appointment. |
| Reminders.SweepSetsNothingElse | apps/api/src/modules/notifications/service.ts:78-95 | The sweep sets a row only for a reminder still ahead, to the client of a listed confirmed booking. |
| Reminders.GoesOutIff | apps/api/src/modules/notifications/service.ts:143-268 | A delivery sends exactly if the row is pending, the booking known and fitting, the recipient one of its people, and a client to be reminded has reminders on and is not chatting. |
| Reminders.DeliverySettlesIff | apps/api/src/modules/notifications/service.ts:146-215 | Exactly when the row fails, is skipped, or stays pending until the deferral ends; no other row changes. |
| Reminders.RemindersReachTheWilling | apps/api/src/modules/notifications/service.ts:183-188 | Over every run a reminder reaches the client only by a delivery that found reminders wanted and no chat going on. |
| Reminders.DueReminderGoesOut | apps/api/src/modules/notifications/service.ts:270-276 | A due reminder that fits is listed by the sweep that asks for it and goes out if undisturbed. |
| Reminders.QueuedNewsGoesOut | apps/api/src/modules/notifications/service.ts:114-141 | News of a booking is queued when it is scheduled and goes out when the queue delivers it, if it fits. |
| Reminders.DeferredReminderWaits | apps/api/src/modules/notifications/service.ts:199-215 | Over every run a deferred reminder is not due again before the deferral ends, whatever else is scheduled, cancelled or delivered. |
| OutboxProtocol.AtMostOneMessage | apps/api/src/modules/notifications/repository.ts:139-141 | Over any run each booking, recipient and kind gets at most one message, and gets one exactly if its row is marked sent. |
| OutboxProtocol.MessagesFitTheBooking | apps/api/src/modules/notifications/service.ts:162-181 | Over any run reminders go out only while the booking is confirmed, cancellations only while cancelled, and only to people of the booking. |
| OutboxProtocol.RemindersAreNeverEarly | apps/api/src/modules/notifications/reminder-window.ts:6-19 | Over any run no reminder goes out before the booking's start minus its offset. |
| OutboxRaces.StepKeepsOnceIff | apps/api/src/modules/notifications/service.ts:143-268 | With every call its own step, a step keeps a message sent at most once exactly unless it reads the row while another delivery of it is under way, or marks it sent while an upsert or settling write of it is still to come. |
| OutboxRaces.SentAtMostOnce | apps/api/src/modules/notifications/service.ts:143-268 | So over any run without such a step each message goes out at most once, and has gone out if its row is marked sent. |
| OutboxRaces.TwoDeliveriesSendTwice | apps/api/src/modules/notifications/service.ts:270-276 | The run in which a sweep and a queue worker both read the row first, and the message goes out twice. |
| OutboxRaces.RescheduledIsSentAgain | apps/api/src/modules/notifications/repository.ts:121-164 | The run in which an upsert reads the row before it is marked sent and writes after, and the message goes out again. |
| OutboxRaces.SoloDeliveryIsTheCall | apps/api/src/modules/notifications/service.ts:143-268 | A delivery whose steps nobody interrupts leaves the row statuses and messages of the one-step delivery. |
| SlotMemory.MergeSlotsFromMessages | apps/api/src/modules/receptionist/context.ts:152-178 | The merge loop remembers exactly the closed form: price and hold fields are the last value at or after the latest change, all others the last value written. |
| SlotMemory.LatestChangeIsLatest | apps/api/src/modules/receptionist/context.ts:128-149 | The point used by the closed form is a change of style, size or length, and no later turn is one. |
| SlotMemory.RememberedStep | apps/api/src/modules/receptionist/context.ts:161-171 | How one more turn changes each remembered field. |
| SlotMemory.ForgottenIff | apps/api/src/modules/receptionist/context.ts:128-171 | A turn that does not speak of a price or hold field forgets it exactly if it renames the style, size or length known. |
| SlotMemory.OnlyOwnTurnsCount | apps/api/src/modules/receptionist/context.ts:157-159 | Exactly the receptionist's own messages whose output parses count. |
| SlotMemory.TurnKeepsTierIff | apps/api/src/modules/receptionist/context.ts:133-149 | With the size (or length) known, a turn that changes nothing keeps it exactly when it does not blank it. |
| SlotMemory.TierHeldIff | apps/api/src/modules/receptionist/context.ts:152-178 | Since the latest change, a known size or length holds after every later turn exactly when none of them blanked it. |
| SlotMemory.StoredStep | apps/api/src/modules/receptionist/dispatch.ts:195 | What a stored turn does to a remembered price or hold field: set it if the turn gives a value, forget it if a changing turn gives it as empty, and otherwise write the old value back. |
| SlotMemory.OutlivesChangeIff | apps/api/src/modules/receptionist/dispatch.ts:374-387 | A remembered price or hold outlives a change of style, size or length exactly when the changing turn gives no other value for it and does not give it as empty. |
| SlotMemory.RememberedUntilForgotten | apps/api/src/modules/receptionist/context.ts:152-178 | In any conversation of stored turns a price or hold field is remembered with a value exactly when some turn gave it that value and every later turn, changing or not, kept it. |
| SlotMemory.NothingChangedSince | apps/api/src/modules/receptionist/context.ts:128-149 | In any conversation of stored turns the style, size and length known at or after the latest change are those still known at the end. |
| SlotMemory.ChangedStyleKeepsTheOldPrice | apps/api/src/modules/receptionist/dispatch.ts:195 | The conversation of two stored turns in which a quoted price is remembered after the style has changed. |
| Quotes.ResolveAddonIds | apps/api/src/modules/receptionist/addons.ts:102-119 | The ids of the add-ons the names match, in order, repeats included. |
| Quotes.SumSelectedAddonPrices | apps/api/src/modules/receptionist/addons.ts:121-135 | The total of those add-ons, repeats included. |
| Quotes.FormatPriceQuote | apps/api/src/modules/receptionist/addons.ts:137-143 | The quoted total. |
| Quotes.FoundIff | apps/api/src/modules/receptionist/addons.ts:111-116 | A name finds the first add-on of its normal form, and finds one whenever there is one. |
| Quotes.AiHoldIsPricedIff | apps/api/src/modules/booking/service.ts:419-484 | With an unchanged catalogue the receptionist's hold passes the venue and add-on checks exactly when the stylist offers one mode and it is not the home visit, and then it carries no surcharge. |
| Quotes.QuoteExceedsHoldByRepeats | apps/api/src/modules/booking/service.ts:451-484 | The quote exceeds the agreed price by exactly the prices of repeated names, whatever order the query answers in. |
| Quotes.QuoteIsKeptIff | apps/api/src/modules/receptionist/dispatch.ts:245-253 | Quote and agreed price are equal exactly when no name repeats an add-on that costs something. |
| Quotes.HoldPriceIsTheExactSum | apps/api/src/modules/booking/service.ts:482-484 | For any request the agreed price is base, surcharge and add-ons exactly; the surcharge is the venue's for a home visit and nothing otherwise. |
| Quotes.HoldIsPricedIff | apps/api/src/modules/booking/service.ts:400-480 | A request is priced exactly if the service is offered, all is accepted, the place settled and every add-on available, though the code only compares counts. |
| Quotes.HoldRefusalsSayWhy | apps/api/src/modules/booking/service.ts:400-470 | Each refusal of a request names something that is really amiss. |
| Quotes.HoldChargesEachAddonOnce | apps/api/src/modules/booking/service.ts:451-484 | The agreed price charges each add-on asked for once. |
| Quotes.DistinctNamesDoNotRepeat | apps/api/src/modules/receptionist/addons.ts:111-117 | Names distinct after normalisation never repeat, so their quote is kept. |
| Quotes.OrderDoesNotMatter | apps/api/src/modules/booking/service.ts:461-479 | Two orders of the same rows have the same count and total. |
| Webhooks.ProcessedAtMostOnce | apps/api/src/lib/webhooks/idempotent-handler.ts:31-50 | In any interleaving an event is answered as processed at most once, and exactly when it is recorded. |
| Webhooks.AnsweredMeansHandled | apps/api/src/lib/webhooks/idempotent-handler.ts:34-41 | Whatever the answer, a handler call for the event has completed: no event is lost. |
| Webhooks.SettledIsNeverHandledAgain | apps/api/src/lib/webhooks/idempotent-handler.ts:34-36 | Once recorded with no earlier delivery still under way, an event is never handled again. |
| Webhooks.StepKeepsOnceIff | apps/api/src/lib/webhooks/idempotent-handler.ts:34-38 | A step keeps an event handled at most once exactly unless it is a check that finds the event unrecorded while a delivery has handled it or is on its way. |
| Webhooks.HandledAtMostOnce | apps/api/src/lib/webhooks/idempotent-handler.ts:31-50 | So over any run without such a check the event is handled at most once. |
| Webhooks.LettingThroughAgainHandlesTwice | apps/api/src/lib/webhooks/idempotent-handler.ts:34-38 | And such a check costs a second handler call as soon as the deliveries on their way arrive. |
| Webhooks.TwoDeliveriesHandleTwice | apps/api/src/lib/webhooks/idempotent-handler.ts:31-50 | From the start, two deliveries of one event that both check before either records it have it handled twice. |

## Left out

- HTTP routes, guards, request schemas, cryptography, storage and the web application; only the order of calls in the refresh endpoint is modelled.
- Stripe, Twilio, Google, the language model, Redis, the database engine and the Intl tables: kept as an abstract refund request, a message log, query answers and an offset function. The Redis branch of both limiters is not modelled.
- Parsing of dates, times and money strings, and the wording of messages, quotes and prompts.
- Floating-point error: prices are exact numbers, rounded where the source rounds.
- `generateAvailabilitySlots` is one function with a mode flag; here it is two methods over the same day loop.
- `parseDateRange` and the caller's range defaults: a query carries its range.
- Payments.PaymentService.ProcessRefund: one uninterrupted call; `PaymentProtocol` interleaves its steps and `PaymentSolo` ties the two.
- Payments.PaymentService.CapturePaymentFromWebhook: one uninterrupted call, likewise.
- Payments.PaymentService.CreateCharge: the replacement of stale development payments and accounts is not modelled; the same holds for captures and syncs.
- OutboxProtocol.AtMostOneMessage: each upsert and each delivery is one step; `OutboxRaces.StepKeepsOnceIff` and `SentAtMostOnce` are the same for separate calls.
- OutboxRaces.StepKeepsOnceIff: a delivery reads row, booking and preferences together, and any decision may come of it, so that when a message fits its booking is stated in `OutboxProtocol` only.
- Sessions.OneLivePerFamily: each refresh is one step; `SessionRaces.StepKeepsOneClaimIff` and `AtMostOneLive` are the same for separate steps.
- Sessions.ReplayEndsTheFamily: each request is one step; for separate steps it holds exactly as `SessionRaces.EndIsForGoodIff` says.
- Sessions.DeadFamilyStaysDead: each request is one step; for separate steps it holds exactly as `SessionRaces.DeadForGoodIff` says.
- Sessions.ExchangedAtMostOnce: each refresh is one step; `SessionRaces.ExchangedOnceWhileGuarded` is the same for separate steps.
- Sessions.ResetRevokesEverySession: each refresh is one step; `SessionRaces.LockoutEndsIff` says what ends a lockout when steps are separate.
- Quotes.AiHoldIsPricedIff: the availability gate, payment readiness and the creating transaction, which come after, are separate results of `HoldGate` and `Bookings`.
- A write of a booking's start: no code makes one, and nothing raises the time-changed event; `StartWriteKeepsTimelyIff` and `CallingOffMendsRowsOnly` in `OutboxProtocol` only say what such a write would have to respect.
- A notification row without a due time or without a booking: no caller writes one.
- The choice of refund type by cancellation and no-show policy, payout and income reports, disputes, and reconciliation jobs.
- Manual bookings beyond their creation step, approval by the stylist beyond confirmation, calendar pushes, and the created event and the no-show notice.
- What the receptionist's flow puts into a turn before it is stored: a turn's output is any update.
- The clarification streak, idle-gap note and prompt truncation of the receptionist; its intent detection; and the choice of an offering by style name (a quote and its hold are compared for one offering).
- Profile, portfolio and reordering endpoints.
