# Railway booking: seats, payments, messages

A model of the seat-booking protocol of a railway reservation backend, with proofs of what it keeps.

- **Inventory** (`Inventory*`, `SeatQuery`, `LegOwnership`, `RowLocking`, `RowCommits`, `CancelRollback`, `CounterDrift`,
  `CounterTallies`): a seat is held over the stations `[from, to)` by rows of the segment table. Lock, unlock, confirm and cancel change
  these rows and then rebuild the seat statuses and the schedule counters. The operations are functions on a database value;
  `InventoryService` performs them step by step and is tied to them. Their row-locking query passes over the seat rows that other open
  transactions hold, and then the request is refused; these rows are a parameter of lock, unlock and confirm. `LegOwnership` relates the
  interval table to one holder per leg, `RowLocking`, `RowCommits` and `CancelRollback` split the transactions into interleaved steps with
  row locks that other queries skip, `InventoryAnswers` says what is refused and which rows a request reaches, `CounterDrift` and
  `CounterTallies` follow the rebuild through such interleavings.
- **Booking saga** (`BookingSaga`, `Saga*`, `BookingService`): bookings move from PENDING over SEATS_HELD and PAYMENT_PENDING to
  CONFIRMED, FAILED or CANCELLED, over inventory, Redis seat locks (`RedisLocks`) and payments (`Payments`). No inventory request names
  the booking of a LOCKED row, so who owns what is recorded as history (`owner`, `holder`) and proved. The runs take the steps the code
  can take: a creation goes on without looking at its booking again, a handler reads before it claims, a handler that faults compensates
  after its claim is rolled back, a cancel of a held booking reads first and writes by id alone later, and at any time other inventory
  transactions hold seat rows or let them go. A step is *on time* (`OnTime`) when a write by id alone finds the booking where it was left,
  it is *uncontended* (`Uncontended`) when no other transaction holds a seat row of the booking at a confirmation or unlock whose reply is
  ignored, and *timely* (`Timely`) when it is both. `SagaTheorems` states what timely runs keep, `SagaContention` and `SagaLimits` the
  exact condition for each step, `SagaClaims` what runs on time keep, `SagaVersions`, `SagaEveryRun` and `SagaSales` what every run keeps
  and under which exact condition. `SagaRefusals`, `SagaRaces`, `SagaRevivals` and `SagaDoubleSale` give the runs that miss these
  conditions, `SagaProgress` and `SagaFailedPayment` the two regular ones, all from every state that keeps the invariant. `SagaRequests`
  speaks of repeated requests and stray messages, `SagaStatuses` of the statuses a booking goes through, `SagaPrices` of the amount,
  `PaymentRecords` of what a payment announces. `BookingService` performs the steps over the three service objects.
- **Outbox** (`Outbox`, `OutboxProtocol`, `OutboxOrder`): any number of workers claim, publish and mark events, with backoff; retries are
  sent after newer events.
- **Email change codes** (`OtpChallenge`, `OtpRuns`, `OtpRequests`), **rate limiter** (`RateLimit`, `RateAdmission`), **search index**
  (`ScheduleIndex`, `SearchFreshness`).

`dafny verify dfyconfig.toml` checks the project. `Options` and `IntSets` are small helpers.

Where the code does less than its comments suggest, the model follows the code and a lemma gives the exact condition:
`InventoryRoundTrips.CancelIsExactIff`, `InventoryInvariants.CreateKeepsInvariantIff`, `RowLocking.CancelRollbackIff`,
`CounterTallies.CommitAgreesIff`, `CounterTallies.RunAgreesIff`, `Payments.CallKeepsBalanceIff`, `SagaContention.StepKeepsSeatsIff`, the `Iff`
lemmas of `SagaLimits`, `SagaVersions.VersionFallsIff`, `SagaSales.ClaimBacksIff`, `SagaSales.RunBacksIff`, `SagaClaims.CancellationRefundsIff`,
`OtpRuns.StepKeepsInvIff`, `OtpRuns.ConfirmSucceedsIff`, `SearchFreshness.IndexShowsCurrentIff`.

Amounts are integers in the smallest currency unit. Gateways, clocks, random jitter, message deliveries and lost replies are parameters
of the steps, so every claim holds for all of them.

## Model

| member | source | states |
|---|---|---|
| SagaTheorems.NoSeatLeakedOrDoublyOwned | app/domains/booking/services/booking_services.py:317-422 | Over every interleaved run of timely steps, each segment row belongs to exactly one booking, LOCKED while its payment is open and BOOKED under its id once CONFIRMED; every held or confirmed booking has a row per seat; every Redis key belongs to a booking that still holds it. |
| SagaTheorems.RowCountIsSeatCount | app/domains/booking/services/booking_services.py:365-422 | In timely runs the segment table has exactly as many rows as the held and confirmed bookings have seats together. |
| SagaTheorems.EndingTakesOnlyOwnIff | app/domains/booking/services/booking_services.py:1537-1572 | Failure during creation, compensation, payment failure and all cancellations, coming on time, remove exactly the rows the ending booking inserted and the Redis keys it set if and only if the unlock is not refused because another transaction holds one of its seat rows; then the forced release takes no key of another booking. |
| SagaTheorems.FailedHoldTakesOnlyOwnIff | app/domains/booking/services/booking_services.py:441-498 | A refused lock, or a lock whose reply was lost, leaves no row and no key of the booking behind and touches no other, if and only if the unlock that follows a lost one is not refused. |
| SagaTheorems.FailedPaymentTakesOnlyOwnIff | app/domains/booking/services/booking_services.py:559-644 | A payment order that could not be created gives back exactly the seats and keys of its booking if and only if the unlock is not refused. |
| SagaSeats.LiveKeysDisjoint | app/domains/booking/services/booking_services.py:348-360 | Two live bookings never want the same seat key while one of them still holds its keys. |
| SagaSeats.UnlockNamesOwnRows | app/domains/booking/services/booking_services.py:147-158 | The rows an unlock selects by user, seats, segment and LOCKED are exactly the rows inserted for this booking. |
| SagaSeats.CancelNamesOwnRows | app/domains/booking/services/booking_services.py:1504-1514 | The rows a cancellation of a CONFIRMED booking deletes are exactly the rows inserted for this booking. |
| SagaSeats.CompensateAllUnlocksOnce | app/domains/booking/services/booking_services.py:97-106 | Running through the saga log unlocks the seats once and asks for at most one refund. |
| SagaSeats.UnlockRemovesOwnRowsIff | app/domains/booking/services/booking_services.py:147-160 | The compensating unlock, whose reply is ignored, is accepted if and only if no other transaction holds a seat row of the booking; it removes the rows of this booking and no other if and only if it is, or there is no row yet. |
| SagaSteps.ConfirmIsAcceptedIff | app/domains/booking/services/booking_services.py:903-917 | The seat confirmation of a booking that holds its seats, whose reply is ignored, is accepted if and only if no other transaction holds one of its seat rows; refused, it changes nothing. |
| SagaContention.StepKeepsSeatsIff | app/domains/booking/services/booking_services.py:147-160 | A step on time keeps the ownership invariant if and only if it is uncontended: no other transaction holds a seat row of the booking at the confirmation or unlock whose reply it ignores. |
| SagaRefusals.RefusedConfirmRun | app/domains/booking/services/booking_services.py:903-929 | From every state that keeps the invariant and every ready request, a run with no late write in which another transaction holds a seat row at the confirmation: CONFIRMED and paid, all rows still LOCKED without its id. |
| SagaRefusals.RefusedUnlockRun | app/domains/booking/services/booking_services.py:1540-1553 | Likewise for the unlock of a cancel: CANCELLED, all rows still LOCKED. |
| SagaEndings.CancelIsAccepted | app/domains/booking/services/booking_services.py:1504-1517 | The ignored reply of the seat cancellation is always a success for a CONFIRMED booking, whose rows it removes. |
| SagaSteps.FailedBeginChangesNothing | app/domains/booking/services/booking_services.py:348-385 | A request that fails before the PENDING row is stored, a repeated request key after the Redis locks included, leaves the whole system as it was. |
| SagaSteps.BookableIsNotConfirmed | app/domains/booking/services/booking_services.py:317-345 | A seat key that is reported available is not one of a CONFIRMED booking. |
| SagaSteps.BeginKeepsInv | app/domains/booking/services/booking_services.py:264-423 | Starting a booking keeps the ownership invariant. |
| SagaSteps.HoldKeepsInv | app/domains/booking/services/booking_services.py:425-525 | Holding seats keeps the ownership invariant, whether the lock succeeds, is refused, or its reply is lost; in the last case if the unlock is not refused. |
| SagaSteps.RequestPaymentKeepsInv | app/domains/booking/services/booking_services.py:527-689 | Creating the payment order keeps the ownership invariant; failing to keeps it if the unlock is not refused. |
| SagaSteps.ConfirmPromotes | app/domains/booking/services/booking_services.py:886-937 | An accepted confirmation turns exactly the rows of the booking into BOOKED rows under its id and frees exactly its keys. |
| SagaEndings.ConfirmFaultsVacates | app/domains/booking/services/booking_services.py:991-1022 | Compensation after a fault gives back exactly what the booking held, if it still awaits its payment and the unlock reaches its rows. |
| SagaEndings.PaymentFailsVacates | app/domains/booking/services/booking_services.py:1162-1194 | A failed payment gives back exactly what the booking held, if the unlock reaches its rows. |
| SagaEndings.CancelHeldVacates | app/domains/booking/services/booking_services.py:1537-1572 | Cancelling a booking that still holds its seats gives back exactly what it held, if the unlock reaches its rows. |
| SagaEndings.CancelPendingVacates | app/domains/booking/services/booking_services.py:1556-1572 | Cancelling a booking that is still PENDING frees exactly its keys; it has no rows to unlock. |
| SagaEndings.CancelConfirmedVacates | app/domains/booking/services/booking_services.py:1483-1572 | Cancelling a confirmed booking gives back exactly its rows, and the forced release removes nothing. |
| SagaEndings.AbandonKeepsInv | app/domains/booking/services/booking_services.py:470-492 | Abandoning a creation keeps the ownership invariant, if the unlock reaches its rows. |
| SagaRuns.StepKeepsInv | app/domains/booking/services/booking_services.py:797-1572 | Every timely step keeps seat ownership, the money invariant and what waiting handlers remember: for a handler with a stale read, rolled back or not, an unchanged version means an unchanged booking. |
| SagaRuns.StepGrows | app/domains/booking/repository/sqlalchemy_repo.py:423-444 | No step on time lowers a version, and a booking awaiting payment or confirmed changes only together with its version; no version is counted up while a booking holds its keys. |
| SagaStatuses.StatusesGoForward | app/domains/booking/services/booking_services.py:797-1572 | Over every run on time a booking goes forward only, PENDING, SEATS_HELD, PAYMENT_PENDING, CONFIRMED, and ends FAILED or CANCELLED, CONFIRMED by a cancellation only; once ended it is never written again. |
| SagaStatuses.StepMoves | app/domains/booking/services/booking_services.py:797-1572 | One step on time changes only the booking it is about and moves it to the status that may follow: the payment follows the seats, the confirmation the payment. |
| SagaStatuses.StepChanges | app/domains/booking/services/booking_services.py:425-1572 | Every step, late or not, changes one booking at most; status, reason, order and version are exactly those of the last write the step comes to, whatever compensation and calls came before it. |
| SagaStatuses.TermsNeverChange | app/domains/booking/repository/sqlalchemy_repo.py:423-444 | Over every run, late writes included, a booking keeps its user, schedule, seats, segment, lock token and amount. |
| SagaStatuses.StartAdds | app/domains/booking/services/booking_services.py:365-422 | A successful start adds one PENDING booking with the terms of its request, the price of its seats and no order, and uses up the idempotency key. |
| SagaStatuses.CreationWritesOnce | app/domains/booking/services/booking_services.py:425-689 | In every run a creation locks its seats once and asks for one payment order, and for none if the lock failed. |
| SagaVersions.AtMostOneClaimWins | app/domains/booking/repository/sqlalchemy_repo.py:423-444 | Of all success, failure and cancel handlers that read one version of a booking, duplicate deliveries included, at most one ever wins its claim, in every run in which no stale cancel writes an older version back, whatever else comes late; every losing claim leaves bookings, inventory, Redis and payments as they were. |
| SagaVersions.VersionFallsIff | app/domains/booking/services/booking_services.py:1537-1565 | Of all steps the version of a booking falls in exactly one kind: a cancel by id alone that counts up a version older than the one the booking has by now. |
| SagaVersions.VersionsNeverDecreaseIff | app/domains/booking/services/booking_services.py:1537-1565 | Over every run the version of a booking never decreases from one state to the next if and only if the run has no such cancel of it. |
| SagaRevivals.SecondWinRun | app/domains/booking/services/booking_services.py:1537-1565 | From every state that keeps the invariant and every ready request, a run after which two deliveries of the success message win with the same version (`WinsTwice`): the first confirms, a second stale cancel then writes that version back, and the second delivery turns the CANCELLED booking into a CONFIRMED one. |
| SagaClaims.AtMostOneTakesEffect | app/domains/booking/services/booking_services.py:886-1022 | In runs on time at most one handler of those that read one version takes effect, be it by its claim or by the compensation after a rollback, which carries no version. `SagaRaces.LostClaimRun` is a run with a late compensation in which two do. |
| SagaProgress.RequestCanBeConfirmed | app/domains/booking/services/booking_services.py:245-988 | From every state that keeps the invariant, whatever else is under way, a request whose seats are available, their rows not held and keys free has a timely run to CONFIRMED. |
| SagaFailedPayment.FailedPaymentRun | app/domains/booking/services/booking_services.py:1162-1194 | From every state that keeps the invariant and every such request, a timely run in which the signature of the payment is wrong: the order is FAILED, its message is read and claimed, and the booking ends FAILED with its rows and keys gone and nothing refunded. |
| SagaRequests.StartSucceedsIff | app/domains/booking/services/booking_services.py:245-385 | A start creates a booking if and only if the request is well formed and its key new, the schedule is active, and its distinct seats exist, are overlapped by no active row and have free Redis keys. |
| SagaRequests.RepeatedRequestCreatesNothing | app/domains/booking/services/booking_services.py:365-385 | A request that created a booking creates no second one: after any run a start under the same idempotency key leaves the whole system as it was, whatever else it asks for. |
| SagaRequests.MessageMattersIff | app/domains/booking/services/booking_services.py:810-846 | A payment message is acted upon if and only if it was published, names the booking and its present order, has both gateway ids and the outcome this handler is for, and the booking awaits its payment. |
| SagaRequests.LookRemembers | app/domains/booking/services/booking_services.py:810-846 | What a handler remembers of the booking it read is the version it will claim. |
| SagaRequests.StrangerCancelsNothing | app/domains/booking/services/booking_services.py:1426-1440 | A cancel by anyone but the user of the booking leaves everything as it was and is not remembered. |
| SagaClaims.ConfirmedIsPaid | app/domains/booking/services/booking_services.py:810-846 | In runs on time, whatever the inventory answers, a CONFIRMED booking has a captured order of its own, for its amount, without refund; the amount is the sum of the seat prices by `SagaPrices.TotalOfBoth` and `SagaPrices.TotalOfOne`. `SagaRaces.LostClaimRun` is a run with a late compensation in which it is refunded. |
| SagaPrices.TotalOfBoth | app/domains/booking/services/booking_services.py:321-345 | The amount of a booking is additive: two lists of seats cost together what they cost apart. |
| SagaPrices.TotalOfOne | app/domains/booking/services/booking_services.py:321-345 | A single seat costs its price. |
| SagaPrices.TotalIgnoresOrder | app/domains/booking/services/booking_services.py:321-345 | The order of the seats does not matter to the amount. |
| SagaPrices.RaisedPriceRaisesTotal | app/domains/booking/services/booking_services.py:321-345 | Raising the price of one requested seat by d raises the amount by d: each seat is charged once. |
| SagaClaims.CancelledAfterConfirmation | app/domains/booking/services/booking_services.py:1519-1534 | In runs on time, whatever the inventory answers, a booking cancelled after CONFIRMED has exactly one full refund, or none and its order is still captured. |
| SagaClaims.CancellationRefundsIff | app/domains/booking/services/booking_services.py:1519-1534 | The refund of a cancelled confirmed booking is made, in full, if and only if the gateway accepts it under a new refund id. |
| SagaEveryRun.MoneyIsConserved | app/domains/payments/services/payment_services.py:216-241 | In every run of these steps, late writes included, what was collected minus what was returned is what the captured orders hold, no order has two refunds although compensation and cancellation use different keys, and a booking points to no order but its own. |
| SagaEveryRun.RowsNeverOverlap | app/domains/booking/services/booking_services.py:245-1572 | In every run of these steps, late writes and refused calls included, no two rows of a seat share a leg, and statuses, counters and events agree with the rows. It speaks of rows: a CONFIRMED booking can be without them. |
| SagaSales.ClaimBacksIff | app/domains/booking/services/booking_services.py:886-937 | The winning claim of a success handler leaves its booking with a BOOKED row on every seat if and only if at that moment each of them has a LOCKED row of its user with exactly its segment, on an active schedule and with no seat row held by others, or is BOOKED for it already. The inventory answers success also when it finds none. |
| SagaSales.StepBacksIff | app/domains/booking/services/booking_services.py:245-1572 | While all CONFIRMED bookings have their BOOKED rows, a step leaves one without them if and only if it is a winning claim of a success handler that does not find its seats in this sense; late writes, refused unlocks and cancellations never do. |
| SagaSales.RunBacksIff | app/domains/booking/services/booking_services.py:245-1572 | In all states of a run every CONFIRMED booking has its BOOKED rows if and only if every winning success handler finds its seats. |
| SagaSales.ConfirmedShareNoLeg | app/domains/booking/services/booking_services.py:245-1572 | From every state that keeps the invariant, in every run whose winning success handlers find their seats, late writes otherwise included, no two CONFIRMED bookings share a leg of a seat. |
| SagaSales.TimelyClaimsFind | app/domains/booking/services/booking_services.py:886-937 | Timely runs are of this kind. |
| SagaDoubleSale.DoubleSaleRun | app/domains/booking/services/booking_services.py:662-683 | From every state that keeps the invariant and every ready request, a run that sells the seats twice: the booking is locked, cancelled while its payment order is created, its seats are bought by a second booking, and the late PAYMENT_PENDING write, the capture and one delivery confirm the first: both CONFIRMED for the same seats and segment, both paid. |
| SagaDoubleSale.SecondSale | app/domains/booking/services/booking_services.py:903-929 | The end of it, whatever led there: a booking whose payment order can still be created is confirmed beside a CONFIRMED booking of the same seats. |
| SagaEveryRun.SettledIsNeverRefunded | app/domains/booking/services/booking_services.py:1537-1565 | In every run, once a booking has ended and nothing is under way for it, an order of it that was not refunded never is, even if its payment is captured later. |
| SagaMoney.LocalMoney | app/domains/booking/services/booking_services.py:321-345 | A step of one booking cannot change the order, amount or refund of another. |
| SagaMoney.EndedKeepsMoney | app/domains/booking/services/booking_services.py:188-241 | Ending a booking refunds its own order, in full, or leaves it as it was. |
| SagaLimits.PaymentWriteIsSafeIff | app/domains/booking/services/booking_services.py:662-683 | The PAYMENT_PENDING write names only the booking id: it keeps seats consistent if and only if the booking is still where the creation left it. |
| SagaLimits.HoldWriteIsSafeIff | app/domains/booking/services/booking_services.py:513-525 | The SEATS_HELD write keeps seats consistent if and only if the booking is still PENDING. |
| SagaLimits.CancelHeldIsSafeIff | app/domains/booking/services/booking_services.py:1537-1572 | A cancel that read SEATS_HELD or PAYMENT_PENDING unlocks and writes by id alone: it keeps seats consistent if and only if the booking still holds its keys and the unlock reaches its rows, or it has ended and nobody has taken one of its keys since. |
| SagaLimits.CancelPendingIsSafeIff | app/domains/booking/services/booking_services.py:1556-1572 | A cancel that read PENDING is safe if and only if the booking is still PENDING, or has ended and nobody has taken one of its keys since. |
| SagaLimits.CompensationIsSafeIff | app/domains/booking/services/booking_services.py:991-1022 | The compensation of a success handler that rolled its claim back keeps seats consistent if and only if the booking still awaits its payment and the unlock is not refused, or nobody holds one of its keys. |
| SagaLimits.CompensationKeepsMoneyIff | app/domains/booking/services/booking_services.py:991-1013 | It keeps the money consistent if and only if no other handler has confirmed the booking meanwhile, or the gateway refuses the refund. |
| SagaLimits.AbandonIsSafeIff | app/domains/booking/services/booking_services.py:470-492 | Giving a creation up is safe if and only if the booking still holds its keys and the unlock reaches its rows, or it has ended and the unlock finds no row and the release no key that now belong to another booking. |
| SagaLimits.LateFaultLeaksSeats | app/domains/booking/services/booking_services.py:97-106 | If a fault follows the accepted confirmation of the seats, every seat of the now FAILED booking stays BOOKED. |
| SagaRaces.StaleCancelRun | app/domains/booking/services/booking_services.py:1416-1572 | From every state that keeps the invariant and every ready request there is a run in which a cancel reads PAYMENT_PENDING and writes after the confirmation: CANCELLED, all seats still BOOKED under its id, the payment captured, and never refunded whatever follows. |
| SagaRaces.LostClaimRun | app/domains/booking/services/booking_services.py:991-1013 | Likewise a run in which a success handler rolls back, a duplicate confirms, and the first then refunds the booking, which stays CONFIRMED. |
| SagaRevivals.RevivalRun | app/domains/booking/services/booking_services.py:662-683 | Likewise a run in which a booking is cancelled while its payment order is created and is PAYMENT_PENDING again, without seats or keys. |
| SagaRaces.LateLockRun | app/domains/booking/services/booking_services.py:425-525 | Likewise a run in which a PENDING booking is cancelled and its seats are locked afterwards: SEATS_HELD without keys. |
| SagaRaces.OvertakenCancelRun | app/domains/booking/services/booking_services.py:1538-1572 | Likewise a run in which a cancel that read PENDING writes after the lock: the seats of the CANCELLED booking stay LOCKED. |
| SagaEveryRun.NoRefundAfterTheEnd | app/domains/booking/services/booking_services.py:1537-1565 | In runs on time, whatever the inventory answers, the same holds while handlers that read the booking are still under way. |
| BookingOperations.BookingService.BeginBooking | app/domains/booking/services/booking_services.py:264-423 | Performs the begin step: availability, prices, all-or-nothing Redis locks, PENDING row with the amount of `SagaPrices`. |
| BookingOperations.BookingService.PriceSeats | app/domains/booking/services/booking_services.py:317-345 | The seat loop succeeds exactly when every requested seat is reported available, and then returns their total, which is additive and the price for a single seat (`SagaPrices`). |
| BookingOperations.BookingService.SeatLockKeys | app/domains/booking/services/booking_services.py:349-351 | The loop builds one key per seat, in order. |
| BookingOperations.BookingService.HoldBooking | app/domains/booking/services/booking_services.py:425-525 | Performs the hold step, with compensation on refusal or a lost reply. |
| BookingOperations.BookingService.RequestBookingPayment | app/domains/booking/services/booking_services.py:527-689 | Performs the payment step, with compensation when no order came back. |
| BookingOperations.BookingService.CompensateLog | app/domains/booking/services/booking_services.py:84-106 | The loop over the saga log computes the compensation of every logged step in order. |
| BookingOperations.BookingService.FailCreation | app/domains/booking/services/booking_services.py:470-492 | Compensates, marks FAILED and releases the keys that hold the token. |
| BookingOperations.BookingService.ProcessPaymentSuccess | app/domains/booking/services/booking_services.py:886-937 | Claims by version; the loser and a handler that faults and rolls back change nothing, the winner confirms seats and booking and frees the keys. |
| BookingOperations.BookingService.CompensateFault | app/domains/booking/services/booking_services.py:991-1022 | The compensation that follows a fault: the log is compensated whatever the booking has become, FAILED is written only where it still awaits its payment. |
| BookingOperations.BookingService.ProcessPaymentFailure | app/domains/booking/services/booking_services.py:1162-1194 | Claims by version; the loser changes nothing, the winner compensates. |
| BookingOperations.BookingService.CancelConfirmedBooking | app/domains/booking/services/booking_services.py:1483-1572 | Claims by version; the winner cancels the seats and refunds the booking total. |
| BookingOperations.BookingService.CancelHeldBooking | app/domains/booking/services/booking_services.py:1537-1572 | Unlocks and marks CANCELLED; status and version are those read before, not looked at again. |
| BookingOperations.BookingService.CancelAsRead | app/domains/booking/services/booking_services.py:1442-1572 | The branches of a cancel by the status it read: refused, claimed by version, unlocked and written, or only written. |
| InventoryInvariants.EveryRunKeepsInvariant | app/domains/inventory/services/inventory_services.py:293-420 | Every sequence of requests keeps no-overlap, statuses, counters and published events in agreement. |
| InventoryInvariants.ReachableStatesAreSafe | app/domains/inventory/services/inventory_services.py:293-420 | From an empty database no two active rows of a seat ever overlap, and available + locked + booked is the total of every schedule. |
| InventoryInvariants.LockKeepsInvariant | app/domains/inventory/services/inventory_services.py:326-420 | Locking keeps the invariant. |
| InventoryInvariants.UnlockKeepsInvariant | app/domains/inventory/services/inventory_services.py:490-551 | Unlocking keeps the invariant. |
| InventoryInvariants.ConfirmKeepsInvariant | app/domains/inventory/services/inventory_services.py:617-687 | Confirming keeps the invariant. |
| InventoryInvariants.CancelKeepsInvariant | app/domains/inventory/services/inventory_services.py:759-809 | Cancelling keeps the invariant, whatever rows its delete reaches. |
| InventoryInvariants.CreateKeepsInvariantIff | app/domains/inventory/services/inventory_services.py:93-128 | The counters of a new schedule are right if and only if every seat of the payload is available. |
| InventoryInvariants.LockedSeatInPayload | app/domains/inventory/services/inventory_services.py:93-128 | A payload with one locked seat whose schedule row then counts it as available. |
| InventoryInvariants.GateOpensIff | app/domains/inventory/services/inventory_services.py:326-345 | Comparing found rows with requested ids admits exactly distinct, existing seats of an active schedule. |
| InventoryAnswers.GateRefusesIff | app/domains/inventory/services/inventory_services.py:307-345 | Which refusal the shared checks give, each exactly in its case; missing seats are named. |
| InventoryAnswers.MissingAre | app/domains/inventory/services/inventory_services.py:333-345 | The missing seats of a refusal are the requested ones that were not found. |
| InventoryAnswers.MissingOne | app/domains/inventory/services/inventory_services.py:333-345 | A single requested seat is listed once if it was not found. |
| InventoryAnswers.MissingKeepOrder | app/domains/inventory/services/inventory_services.py:333-345 | In the order of the request, each as often as it was asked for. |
| InventoryAnswers.LockRefusesTaken | app/domains/inventory/services/inventory_services.py:347-364 | A lock names exactly the requested seats on which an active row overlaps, and past the checks is refused for nothing else. |
| InventoryAnswers.CancelRefusesIff | app/domains/inventory/services/inventory_services.py:726-772 | Which refusal a cancellation gets, each exactly in its case. |
| InventoryAnswers.LockAdds | app/domains/inventory/services/inventory_services.py:366-383 | A lock adds one LOCKED row without booking per seat, for its user and segment, under fresh ids, and changes no other row. |
| InventoryAnswers.UnlockReaches | app/domains/inventory/services/inventory_services.py:518-526 | An unlock deletes exactly the LOCKED rows of this user on these seats with exactly this segment. |
| InventoryAnswers.ConfirmReaches | app/domains/inventory/services/inventory_services.py:646-662 | A confirmation books exactly those rows under the booking id and changes no other. |
| InventoryAnswers.StatusMeans | app/domains/inventory/services/inventory_services.py:866-886 | A seat is LOCKED if and only if one of its rows is, AVAILABLE if and only if it has no active row. |
| InventoryAnswers.RebuildTouchesStatusOnly | app/domains/inventory/services/inventory_services.py:888-906 | A rebuild counts the version of a seat up exactly when its status changes, and leaves number, price and all unlisted seats alone. |
| InventoryAnswers.RebuildTouchesCountersOnly | app/domains/inventory/services/inventory_services.py:1001-1010 | A rebuild writes the three counters of its schedule and publishes one event; no segment row and no other schedule changes. |
| InventoryAnswers.RepliesTellCounters | app/domains/inventory/services/inventory_services.py:410-445 | Lock, unlock, confirm and cancel answer with the counts that they publish. |
| InventoryAnswers.CreatedIff | app/domains/inventory/services/inventory_services.py:50-128 | A schedule is created if and only if the ids are positive, the seats distinct and in known states, and it has none so far; a repetition changes nothing. |
| InventoryAnswers.CreatedSeatsAre | app/domains/inventory/services/inventory_services.py:110-115 | Its seats are those of the payload with number, price and state, and no other seat changes. |
| InventoryInvariants.RefreshRestores | app/domains/inventory/services/inventory_services.py:846-1012 | If only the listed seats can be stale, recompute and recount make every derived layer agree again. |
| InventoryInvariants.CountersPartition | app/domains/inventory/services/inventory_services.py:962-1012 | The counters add up to the seats that are not withdrawn. |
| CounterDrift.StatusesAgreeIff | app/domains/inventory/services/inventory_services.py:880-892 | After a rebuild that passes over seat rows locked by others, statuses agree with the segment rows if and only if no stale seat was unlisted or passed over. |
| CounterDrift.CountersAgreeIff | app/domains/inventory/services/inventory_services.py:965-1012 | After it the counters agree with the statuses if and only if the schedule row was free, or they were right already; its event always carries the counts it saw. |
| CounterDrift.NextRebuildRepairs | app/domains/inventory/services/inventory_services.py:846-1012 | One rebuild that lists every stale seat and finds nothing locked makes statuses, counters and last event agree again. |
| CounterDrift.CountersAlwaysAddUp | app/domains/inventory/services/inventory_services.py:965-1012 | With transactions interleaved and rows skipped, counters may be stale, yet in every run they add up to the seats of the schedule. |
| CounterTallies.CommitAgreesIff | app/domains/inventory/services/inventory_services.py:981-1004 | A transaction that found the schedule row free leaves counters that agree if and only if the tallies that others committed between its recount and its own commit sum to zero. |
| CounterTallies.PassedOverCommitAgreesIff | app/domains/inventory/services/inventory_services.py:981-1004 | One that had to pass over the row moves the error of the counters by its whole tally: they agree afterwards if and only if they were off by just that before. |
| CounterTallies.CountsFollowTallies | app/domains/inventory/services/inventory_services.py:846-959 | Over any run the numbers of seats per status move by the sum of the tallies that were committed. |
| CounterTallies.RunAgreesIff | app/domains/inventory/services/inventory_services.py:965-1012 | From a world whose counters agree and in which no open transaction has counted what is no longer there, a quiet one for instance, the counters agree in every state of a run if and only if each commit that changes the counts had found the schedule row free. |
| CounterDrift.UndisturbedCommitAgrees | app/domains/inventory/services/inventory_services.py:981-1004 | A transaction that finds the schedule row free and commits before any other repairs the counters, whatever drift there was. |
| CounterDrift.CountersCanDrift | app/domains/inventory/services/inventory_services.py:981-1004 | From every state with two available seats, two requests that recount side by side leave one occupied seat counted as available. |
| InventoryRoundTrips.LockThenUnlock | app/domains/inventory/services/inventory_services.py:467-551 | A successful lock and the same unlock restore rows, statuses and counters. |
| InventoryRoundTrips.LockConfirmCancel | app/domains/inventory/services/inventory_services.py:584-809 | Lock, confirm and cancel restore rows, statuses and counters. |
| InventoryRoundTrips.GateUnder | app/domains/inventory/repository/sqlalchemy_repo.py:104-121 | While other transactions hold seat rows the checks pass if and only if they would pass otherwise and none of the requested seats is among those rows. |
| InventoryRoundTrips.WithoutContention | app/domains/inventory/repository/sqlalchemy_repo.py:104-121 | With no seat row held, lock, unlock and confirm are the plain operations that the inventory lemmas speak of. |
| InventoryRoundTrips.CancelIsExactIff | app/domains/inventory/services/inventory_services.py:759-784 | The delete of a cancellation removes exactly the rows of its booking if and only if these have one segment. |
| InventoryRoundTrips.AnyFirstRowIsExactIff | app/domains/inventory/services/inventory_services.py:759-784 | The same condition decides whichever selected row the database returns first. |
| InventoryRoundTrips.CancelCanLeaveRowsBehind | app/domains/inventory/services/inventory_services.py:777-784 | A reachable booking over two segments whose cancellation succeeds and leaves a row booked. |
| InventoryRoundTrips.RowsDetermineView | app/domains/inventory/services/inventory_services.py:846-1012 | The segment rows determine every status and counter. |
| InventoryOperations.InventoryService.RecomputeSegmentSeatStatuses | app/domains/inventory/services/inventory_services.py:846-959 | The loop gives every listed seat the status of its rows and returns the tally of transitions. |
| InventoryOperations.InventoryService.RecomputeSeat | app/domains/inventory/services/inventory_services.py:880-943 | One pass of the loop: new status, version only on change, the right counter of the tally. |
| InventoryOperations.InventoryService.RecountScheduleAggregates | app/domains/inventory/services/inventory_services.py:962-1012 | The three counters become the numbers of seats in each status. |
| InventoryOperations.InventoryService.CheckSeats | app/domains/inventory/services/inventory_services.py:306-345 | The checks shared by lock, unlock and confirm, in order, with the missing seats; a seat row held by another transaction counts as missing. |
| InventoryOperations.InventoryService.AddSegmentLocks | app/domains/inventory/repository/sqlalchemy_repo.py:243-268 | One LOCKED row per requested seat, and no other change of the table. |
| InventoryOperations.InventoryService.LockSeats | app/domains/inventory/services/inventory_services.py:293-420 | The whole lock request, refusals included. |
| InventoryOperations.InventoryService.UnlockSeats | app/domains/inventory/services/inventory_services.py:467-551 | The whole unlock request, refusals included. |
| InventoryOperations.InventoryService.ConfirmSeats | app/domains/inventory/services/inventory_services.py:584-687 | The whole confirm request, refusals included. |
| InventoryOperations.InventoryService.CancelSeats | app/domains/inventory/services/inventory_services.py:721-809 | The whole cancel request, refusals included. |
| InventoryOperations.InventoryService.CreateSchedule | app/domains/inventory/services/inventory_services.py:46-135 | The creation of schedule and seats, repeats and constraint violations included. |
| InventoryOperations.TallyAccountsForAvailable | app/domains/inventory/services/inventory_services.py:864-943 | Now-available minus now-occupied is the change in the number of available seats. |
| InventoryOperations.CounterMovesByTally | app/domains/inventory/services/inventory_services.py:864-943 | The available counter of the schedule row moves by exactly the tally of the loop. |
| SeatQuery.LockSucceedsIffReported | app/domains/inventory/services/inventory_services.py:213-259 | On an active schedule a lock succeeds if and only if the query reports every requested seat available. |
| SeatQuery.ReportedAvailableIff | app/domains/inventory/services/inventory_services.py:232-259 | A seat is reported available for a segment exactly when no active row of it overlaps. |
| SeatQuery.OccupiedSeatsHaveRows | app/domains/inventory/services/inventory_services.py:246-257 | The branch for an occupied seat without segment rows is unreachable. |
| LegOwnership.LockRefinesClaim | app/domains/inventory/services/inventory_services.py:347-383 | Lock succeeds if and only if every requested leg is free, and then claims exactly those legs. |
| LegOwnership.UnlockRefinesRelease | app/domains/inventory/services/inventory_services.py:518-526 | Unlock frees exactly the legs the user had locked with this segment on the requested seats. |
| LegOwnership.ConfirmRefinesNothing | app/domains/inventory/services/inventory_services.py:646-662 | Confirm changes no leg. |
| LegOwnership.CancelRefinesRelease | app/domains/inventory/services/inventory_services.py:759-784 | Cancelling a booking of one segment frees exactly its legs. |
| LegOwnership.HoldingsAreFunctional | app/domains/inventory/repository/sqlalchemy_repo.py:124-146 | Without overlaps every leg of a seat has at most one holder. |
| LegOwnership.OverlapTestIsLegTest | app/domains/inventory/repository/sqlalchemy_repo.py:133-139 | The SQL overlap test is the test that every requested leg is free. |
| LegOwnership.CapacityPerLeg | app/domains/inventory/services/inventory_services.py:347-383 | On every leg the active holds never exceed the total number of seats. |
| RowLocking.InterleavingsNeverOverlap | app/domains/inventory/repository/sqlalchemy_repo.py:104-146 | With lock, unlock, confirm and cancel split into steps and any number of transactions interleaved, committed and in-flight rows of a seat never overlap in a run whose cancellations roll back, if they do, only while their rows still fit. What each commit does is stated in `RowCommits.CommitDoesTheRequest`. |
| RowLocking.QuietAgain | app/domains/inventory/repository/sqlalchemy_repo.py:104-146 | Once all transactions of such a run have ended the table has no overlap. |
| RowLocking.StepKeepsInvIff | app/domains/inventory/repository/sqlalchemy_repo.py:104-146 | A step keeps the table free of overlaps if and only if it is not a rollback that restores rows whose legs have been taken. |
| RowLocking.RunKeepsInvIff | app/domains/inventory/repository/sqlalchemy_repo.py:104-146 | A run visits only states without overlaps if and only if each cancellation that it rolls back still fits at that moment. |
| RowLocking.CancelRollbackIff | app/domains/inventory/services/inventory_services.py:759-784 | Rolling a cancellation back is safe if and only if nothing has meanwhile taken the legs of its rows. |
| CancelRollback.UndisturbedRollbackIsSafe | app/domains/inventory/services/inventory_services.py:759-784 | A cancellation may roll back as long as, since its delete, no lock request that overlaps a deleted row has passed its check and no other cancellation has rolled back. |
| RowLocking.SkippedRowsCanOverlap | app/domains/inventory/repository/sqlalchemy_repo.py:124-146 | A reachable run in which a lock skips rows that a cancellation has deleted but not committed, and the rollback makes two rows overlap. |
| RowLocking.CommitKeepsOthers | app/domains/inventory/services/inventory_services.py:383-420 | A commit leaves what every other transaction has read or written intact, because rows of a seat are written by its owner only. |
| RowCommits.CommitDoesTheRequest | app/domains/inventory/services/inventory_services.py:372-383 | However other transactions were interleaved, a commit does to the table committed at that moment what the sequential operation does to it: an unlock deletes the LOCKED rows of its user, seats and segment, a confirmation books them, a lock adds one row per seat. |
| RowCommits.QuietIsExact | app/domains/inventory/services/inventory_services.py:326-383 | Where no transaction is open, the writes of the open ones are those of their requests, the hypothesis of `CommitDoesTheRequest`. |
| RowCommits.RunKeepsExact | app/domains/inventory/services/inventory_services.py:326-662 | And every run whose cancellations roll back safely keeps it. |
| RowCommits.LockCommitsItsRows | app/domains/inventory/services/inventory_services.py:372-383 | From the write of a lock, through any steps of others, to its commit: exactly its rows appear, under the ids given out at the write. |
| RowCommits.StartHoldsIff | app/domains/inventory/services/inventory_services.py:326-345 | A transaction gets its seat rows if and only if they are distinct, exist, and no other transaction holds one of them. |
| RowCommits.CheckPassesIff | app/domains/inventory/services/inventory_services.py:347-364 | The overlap check of a lock passes if and only if no active row of its seats overlaps that no cancellation is deleting, although the query passes over rows that others hold. |
| RowCommits.CancelMarksItsRows | app/domains/inventory/services/inventory_services.py:759-785 | A cancellation marks exactly the rows that the sequential cancellation would delete from the table of that moment. |
| RowCommits.CancelCommitsItsRows | app/domains/inventory/services/inventory_services.py:759-785 | Through any steps of others, the rows that the commit of a cancellation removes are those it marked. |
| RedisLocks.SeatLockCache.Acquire | app/common/cache/redis_cache.py:115-157 | All or nothing for every key list, duplicates included: success exactly when all keys were free and distinct; a failure leaves the store as it was and names the first key in the way. |
| RedisLocks.SeatLockCache.Undo | app/common/cache/redis_cache.py:134-136 | The inner loop takes back exactly the keys set so far. |
| RedisLocks.SeatLockCache.Release | app/common/cache/redis_cache.py:160-187 | Deletes exactly the listed keys that hold the caller's value; success exactly when they are distinct and all held. |
| RedisLocks.SeatLockCache.ForceRelease | app/common/cache/redis_cache.py:190-191 | Deletes the listed keys whoever holds them and counts those that existed. |
| RedisLocks.AcquireThenRelease | app/common/cache/redis_cache.py:117-182 | Acquire then release restores the store. |
| RedisLocks.ReleaseReaches | app/common/cache/redis_cache.py:160-191 | A release removes exactly the keys that still hold the value, a forced one exactly the keys it names. |
| RedisLocks.SecondCallerFails | app/common/cache/redis_cache.py:122-143 | After one success every request that shares a key fails and changes nothing. |
| Payments.PaymentService.CreatePaymentOrderDetails | app/domains/payments/services/payment_services.py:36-145 | The whole order request: repeats, gateway failure and unique gateway id included. |
| Payments.PaymentService.VerifyPaymentDetails | app/domains/payments/services/payment_services.py:297-422 | The whole verification: only a CREATED order changes, to CAPTURED or FAILED, with one event. Both outcomes are announced (`PaymentRecords.OutcomeIsAnnouncedOnce`). |
| Payments.PaymentService.CreatePaymentRefundDetails | app/domains/payments/services/payment_services.py:149-294 | The whole refund request: repeats, gates and gateway failure included. |
| Payments.AtMostOneRefund | app/domains/payments/services/payment_services.py:183-241 | For any sequence of requests under any keys an order gets at most one refund, and gets it only once captured. |
| Payments.RepeatIsHarmless | app/domains/payments/services/payment_services.py:159-167 | Repeating an accepted request under its key changes nothing and names the same order. |
| Payments.CallKeepsBalanceIff | app/domains/payments/services/payment_services.py:154-241 | Collected minus returned equals what captured orders hold; a call breaks this if and only if it is a refund that meets the guards (key not used, order captured, gateway ids present) and that the gateway accepts, of another amount than the order's. |
| Payments.RunKeepsLedger | app/domains/payments/services/payment_services.py:183-241 | Every sequence of requests keeps one refund per refunded order and events that tell the truth. |
| PaymentRecords.OutcomeIsAnnouncedOnce | app/domains/payments/services/payment_services.py:368-405 | Over every run a CREATED order has announced nothing, and every other order has announced its outcome exactly once, CAPTURED or FAILED, with its own booking, amount and gateway ids. |
| PaymentRecords.GatewayIdsAreUnique | app/domains/payments/models/payment_orders_models.py:18-20 | Over every run the gateway ids of orders, of verified payments and of refunds are pairwise distinct. |
| PaymentRecords.VerificationGoesThroughIff | app/domains/payments/services/payment_services.py:305-383 | A verification is carried out if and only if the order is CREATED and no verified order has the payment id; it stores that id and the outcome. |
| PaymentRecords.OrderGoesThroughIff | app/domains/payments/services/payment_services.py:36-130 | An order is created if and only if amount and ids are positive, the key is unused and the gateway answers with a new id. |
| PaymentRecords.OrderAnswers | app/domains/payments/services/payment_services.py:36-147 | Which answer a request for an order gets, each exactly in its case, and that nothing changes unless it is a new order. |
| PaymentRecords.VerificationAnswers | app/domains/payments/services/payment_services.py:305-344 | The same for a verification. |
| PaymentRecords.RefundAnswers | app/domains/payments/services/payment_services.py:149-215 | The same for a refund: repeated key, missing order, wrong status, missing gateway ids, failed gateway. |
| OutboxProtocol.ClaimsAreExclusive | app/infrastructure/outbox/repository/sqlalchemy_repo.py:63-119 | With any number of workers an event is in at most one batch, in flight means PROCESSING, PUBLISHED means sent at least once, and attempts never exceed max_retries. |
| OutboxProtocol.RetriesWait | app/infrastructure/outbox/retry_handlers/booking_updated_status_outbox_retryhandler.py:29-35 | No retry is sent before its backoff has passed since the failure it follows, and it is planned for at most five seconds more. |
| OutboxProtocol.StepLowersRank | app/workers/outbox/booking_updated_status_outbox_worker.py:72-158 | Every worker step lowers (attempts left, stage) of one event and raises it for none. |
| OutboxProtocol.WorkIsBounded | app/workers/outbox/booking_updated_status_outbox_worker.py:68-158 | Without new events the worker steps of any run are bounded by the sum of these ranks. |
| OutboxProtocol.RunsAreShort | app/workers/outbox/booking_updated_status_outbox_worker.py:68-158 | At most four worker steps per permitted attempt and event, whatever fails. |
| OutboxProtocol.NeverStuck | app/workers/outbox/booking_updated_status_outbox_worker.py:68-158 | While an event is neither PUBLISHED nor FAILED some worker can go on, at once or after the retry delay. |
| OutboxProtocol.BatchExists | app/infrastructure/outbox/repository/sqlalchemy_repo.py:73-99 | A due row that no open transaction has locked makes the claim query return a nonempty batch. |
| OutboxProtocol.StepKeepsInv | app/workers/outbox/booking_updated_status_outbox_worker.py:72-158 | Every step of every worker keeps claims, statuses, attempt counts and waiting times consistent. |
| OutboxOrder.RetriesReorder | app/workers/outbox/schedule_inventory_seat_availability_outbox_worker.py:96-152 | A reachable run in which one send fails: everything is published, the newer event before the older one. |
| OutboxOrder.CalmRunsKeepOrder | app/workers/outbox/schedule_inventory_seat_availability_outbox_worker.py:72-152 | With one worker and no failed publication or marking, events are sent in the order of the table, each once. |
| Outbox.OutboxWorker.ProcessBatch | app/workers/outbox/booking_updated_status_outbox_worker.py:96-158 | The loop settles every claimed event by its own outcome, in order. |
| Outbox.SettledAllAt | app/workers/outbox/booking_updated_status_outbox_worker.py:96-158 | In a batch every event is settled exactly once and no other row is touched. |
| Outbox.OutboxWorker.BulkMarkProcessing | app/infrastructure/outbox/repository/sqlalchemy_repo.py:103-119 | The bulk update marks exactly the claimed rows. |
| Outbox.OutboxWorker.MarkPublished | app/infrastructure/outbox/repository/sqlalchemy_repo.py:134-144 | Marks one row PUBLISHED and keeps its retry data. |
| Outbox.OutboxWorker.Handle | app/infrastructure/outbox/retry_handlers/booking_updated_status_outbox_retryhandler.py:16-35 | The last permitted failure ends the event; otherwise retry_count stays below max_retries and the delay lies in [base, base + 5]. |
| Outbox.BackoffIsMonotone | app/infrastructure/outbox/retry_handlers/booking_updated_status_outbox_retryhandler.py:30-31 | The backoff never shrinks, reaches 256 from the eighth retry on, and its cap of 300 never binds. |
| Outbox.BackoffDoubles | app/infrastructure/outbox/retry_handlers/booking_updated_status_outbox_retryhandler.py:30-31 | The backoff doubles with every retry up to the eighth. |
| Outbox.SettledMeans | app/infrastructure/outbox/retry_handlers/booking_updated_status_outbox_retryhandler.py:16-35 | An event is PUBLISHED if and only if its marking was committed, FAILED if and only if this was the last permitted failure, and otherwise due again exactly from the backoff and jitter after the failure on. |
| Outbox.BatchTakesAllItCan | app/infrastructure/outbox/repository/sqlalchemy_repo.py:73-99 | A worker takes up to 100 rows and leaves one that it could have taken only when it has 100 lower ones. |
| OtpRuns.EveryRunIsSound | app/domains/security/services/emailchanged_services.py:97-165 | Over any run, request looks and writes interleaved, whose writes find what their looks saw: at most one open challenge per user, wrong comparisons plus one if VERIFIED equal attempts_used and stay within the limit, a challenge without attempts left is closed, SENT means that the provider took one email and DISPATCH_FAILED that it took none, and addresses stay unique. |
| OtpRequests.RequestAcceptedIff | app/domains/security/services/emailchanged_services.py:75-139 | A request is accepted if and only if the address is given and free, the user is active with another one, the id is new, and the open challenge that was found, if any, is at least 60 seconds old and for another address. |
| OtpRequests.AcceptedIffNoneRecent | app/domains/security/services/emailchanged_services.py:97-139 | Where at most one challenge is open, the same told over all challenges of the user. |
| OtpRequests.RequestRefusedIff | app/domains/security/services/emailchanged_services.py:105-133 | A request is told to wait n seconds if and only if it is admissible and the open challenge found falls short of a minute by n; it is given the running challenge if and only if that is older and for the same address. Whatever is not accepted changes nothing. |
| OtpRequests.RequestIsRefusedFor | app/domains/security/services/emailchanged_services.py:79-95 | Which of the earlier refusals a request gets, each exactly in its case. |
| OtpRequests.AcceptedStores | app/domains/security/services/emailchanged_services.py:135-165 | An accepted request stores one challenge that is open for 300 seconds and five attempts, closes the one it found, changes no other, and leaves one message. |
| OtpRequests.TimelyRunIsSpaced | app/domains/security/services/emailchanged_services.py:105-117 | In every run whose writes find what their looks saw, a challenge stored while an older one of its user is open was asked for at least a minute after it. |
| OtpRequests.ConfirmationRefusedIff | app/domains/security/services/emailchanged_services.py:263-323 | Which refusal a confirmation of an own challenge gets, each exactly in its case, and what it leaves behind: EXPIRED, BLOCKED, or one attempt less. |
| OtpRequests.RightCodeIsRefusedFor | app/domains/security/services/emailchanged_services.py:324-348 | What the right code in time is still refused for, each exactly in its case; such a refusal leaves everything as it was. |
| OtpRequests.ConfirmationChanges | app/domains/security/services/emailchanged_services.py:324-353 | A confirmation changes this challenge only and, when it succeeds, this user, whose new address is then a verified one. |
| OtpRequests.StatusTellsDispatch | app/domains/security/consumers/emailchanged_otp_dispatch_consumer.py:168-198 | In every run whose writes find what their looks saw, SENT means that exactly one email was accepted, REQUESTED and DISPATCH_FAILED that none was. |
| OtpRequests.DeliverySettles | app/domains/security/consumers/emailchanged_otp_dispatch_consumer.py:100-198 | One delivery settles a REQUESTED challenge: SENT if and only if it is in its time and an attempt was accepted, EXPIRED if and only if it is late, otherwise DISPATCH_FAILED. |
| OtpRequests.RedeliveryIsHarmless | app/domains/security/consumers/emailchanged_otp_dispatch_consumer.py:83-100 | A redelivery changes nothing and sends nothing. |
| OtpRuns.StepKeepsInvIff | app/domains/security/services/emailchanged_services.py:97-353 | A step keeps this if and only if it is not the write of a request whose look no longer holds. |
| OtpRuns.RunIsSoundIff | app/domains/security/services/emailchanged_services.py:97-353 | A run is sound in every state it visits if and only if all its writes find what their looks saw. |
| OtpRuns.StoreIsSafeIff | app/domains/security/services/emailchanged_services.py:97-165 | The write of a request keeps everything if and only if the challenge it supersedes was not verified meanwhile and the open challenge, if any, is the one it found. |
| OtpRuns.StoreKeepsOneOpenIff | app/domains/security/services/emailchanged_services.py:97-165 | It leaves at most one open challenge if and only if the challenge it found is the only one open when it writes, or its own has already expired. |
| OtpRuns.VerifiedIsFinalIff | app/domains/security/services/emailchanged_services.py:135-138 | A step leaves a VERIFIED challenge as it is if and only if it is not the superseding write of a request that had found it open. |
| OtpRuns.VerifiedStaysVerified | app/domains/security/services/emailchanged_services.py:263-264 | In runs whose writes find what their looks saw a VERIFIED challenge never changes again. |
| OtpRuns.VerifiedCanBeOverwritten | app/domains/security/services/emailchanged_services.py:135-138 | A request that found a challenge open and writes after it was verified turns it back to EXPIRED. |
| OtpRuns.ConfirmSucceedsIff | app/domains/security/services/emailchanged_services.py:263-353 | A confirmation succeeds if and only if the code is right, in time, under the limit, not used, the user is active with the old address, and nobody has the new one. |
| OtpRuns.SupersededCanBeVerified | app/domains/security/services/emailchanged_services.py:135-138 | A superseded challenge whose code is used in time is still verified: the status EXPIRED is not looked at. |
| OtpRuns.OnlyOneChallengeWins | app/domains/security/services/emailchanged_services.py:333-334 | Once a challenge has changed the address, none opened under the old address is used in any run in which the user does not return to it. |
| OtpRuns.RacingRequestsBothStay | app/domains/security/services/emailchanged_services.py:98-165 | Two requests that found the same before either wrote leave two open challenges. |
| OtpRuns.RequestsCanRace | app/domains/security/services/emailchanged_services.py:98-165 | Such a pair is a run away from every state in which both requests would be accepted. |
| OtpChallenge.SecurityDatabase.RequestEmailChangeOtp | app/domains/security/services/emailchanged_services.py:75-212 | The whole request: refusals, cooldown, reuse, superseding, new challenge with its outbox event. When it is accepted is stated in `OtpRequests.RequestAcceptedIff`. |
| OtpChallenge.SecurityDatabase.ConfirmEmailChangeOtp | app/domains/security/services/emailchanged_services.py:253-403 | The whole confirmation, refusals and the in-place changes of the challenge included. |
| OtpChallenge.SecurityDatabase.ProcessPayload | app/domains/security/consumers/emailchanged_otp_dispatch_consumer.py:35-216 | The whole dispatch: only a REQUESTED challenge in its time reaches the provider. Which outcome gives which status is stated in `OtpRequests.DeliverySettles`. |
| OtpChallenge.SecurityDatabase.SendWithRetry | app/domains/security/consumers/emailchanged_otp_dispatch_consumer.py:223-278 | One to three calls, none after an accepted one; accepted exactly when one of the attempts was. |
| OtpChallenge.QueryReturns | app/domains/security/repository/sqlalchemy_repo.py:81-103 | The query for the latest open challenge always has an answer. |
| RateLimit.IntervalAdmitsAtMost | app/common/utils/ratelimiter.py:11-28 | Any half-open interval of one window length contains at most 2 * limit - 1 admitted requests of a key. |
| RateLimit.WindowAdmitsAtMostLimit | app/common/utils/ratelimiter.py:20-28 | One counter window admits at most the limit. |
| RateAdmission.AdmittedIff | app/common/utils/ratelimiter.py:20-28 | A request is admitted if and only if fewer than `limit` requests of its key came before it in the window that is open when it arrives; the first after a closed window always is, for a positive limit. |
| RateAdmission.CounterIsPlace | app/common/utils/ratelimiter.py:20-28 | The counter a request reads is its place in its window, told from the request times alone. |
| RateLimit.BoundIsTight | app/common/utils/ratelimiter.py:20-28 | For every limit and window of at least two there is a run that reaches 2 * limit - 1. |
| RateLimit.RateLimiter.CheckWindowLimit | app/common/utils/ratelimiter.py:11-39 | Increment, expiry on the first increment, and the comparison, the fail-open branch included. |
| ScheduleIndex.RouteDocument.UpsertSchedule | app/infrastructure/elasticsearch/repositories/routes_repository.py:48-69 | The script's loops compute the upsert; a payload without id fails and leaves the document as it was. |
| ScheduleIndex.RouteDocument.Merge | app/infrastructure/elasticsearch/repositories/routes_repository.py:60-62 | The loop over the entry set overlays the fields of the payload. |
| ScheduleIndex.UpsertKeepsUniqueIds | app/infrastructure/elasticsearch/repositories/routes_repository.py:54-69 | Ids stay unique. |
| ScheduleIndex.UpsertRefinesMerge | app/infrastructure/elasticsearch/repositories/routes_repository.py:54-69 | The upsert is a map merge: it overlays the entry of its id and leaves every other. |
| ScheduleIndex.UpsertKeepsPlaces | app/infrastructure/elasticsearch/repositories/routes_repository.py:54-69 | Known ids keep their place, a new one is appended, unnamed entries are passed over. |
| ScheduleIndex.ProcessRefinesOverlay | app/infrastructure/elasticsearch/repositories/routes_repository.py:54-69 | After a stream each id shows its old fields overlaid with everything the stream wrote, the last write winning. |
| ScheduleIndex.ProcessAppendsNewIds | app/infrastructure/elasticsearch/repositories/routes_repository.py:54-69 | A stream appends the ids it introduces in the order of their first message. |
| ScheduleIndex.RedeliveryIsHarmless | app/infrastructure/elasticsearch/repositories/routes_repository.py:48-69 | Whatever restarts send the consumer back, a delivery that ends with the newest message gives the document of one in-order pass. |
| SearchFreshness.IndexShowsCurrentIff | app/infrastructure/outbox/dispatchers/schedule_inventory_seat_availability_updated_outbox_dispatcher.py:26-60 | Whatever messages of the train arrive, in any order, repeated or lost: the document shows the counters of the schedule row if and only if the last message of the schedule carries the counters of its newest event. |
| SearchFreshness.IndexShowsCurrentIfNewestLast | app/infrastructure/outbox/dispatchers/schedule_inventory_seat_availability_updated_outbox_dispatcher.py:26-60 | Enough for it: the newest event of the schedule arrives, and no older one of it after a newer one. |
| SearchFreshness.RetryLeavesIndexStale | app/workers/outbox/schedule_inventory_seat_availability_outbox_worker.py:96-152 | One failed publication is enough to leave the index stale although every event was published and consumed. |
| SearchFreshness.RewindsKeepIndexCurrent | app/infrastructure/outbox/dispatchers/schedule_inventory_seat_availability_updated_outbox_dispatcher.py:26-60 | Where events are sent in table order, consumer restarts and redeliveries do no harm. |
| SearchFreshness.ShownInjective | app/infrastructure/elasticsearch/repositories/routes_repository.py:54-59 | Two schedule ids never meet in one entry: their decimal texts differ. |
| SearchFreshness.OneMoreEvent | app/infrastructure/outbox/dispatchers/schedule_inventory_seat_availability_updated_outbox_dispatcher.py:26-60 | Each event of a train adds one message to its document, unless one of its ids is zero. |

## Left out

- HTTP, SQLAlchemy sessions, MySQL isolation beyond row locks, the Kafka client, Elasticsearch requests, email bodies, logging and JSON
  replies: tables are maps, calls between services are method calls, replies are datatypes.
- Search, pagination, booking queries and the auth flows: they would add only easy members.
- The earlier saga in app/services/saga_services.py, which is unfinished.
- Cryptography: comparing a code with its hash is comparing codes, decrypting is a field; addresses are the trimmed, lower-cased ones.
- Expiry of seat locks and Redis keys: no job reads `locked_expires_at`, and the saga assumes no key expires while its booking is open.
- Seat metadata (`locked_by_user_id`, `locked_at`) and the descriptive columns of schedules, bookings and passengers.
- InventoryInvariants.ReachableStatesAreSafe: speaks of whole transactions. With interleaved transactions the segment rows stay safe
  (`RowLocking`), while statuses and counters can be stale for a time, as `CounterDrift` and `CounterTallies` state. These follow the counters of
  one schedule and read what is committed when a transaction recounts, not an older snapshot.
- InventoryInvariants.CreateKeepsInvariantIff: the failing side needs a payload with a seat that is LOCKED, BOOKED or CANCELLED, as in
  `LockedSeatInPayload`. The producer in the repository sends "A", which is mapped to AVAILABLE, or "Z"
  (app/domains/master_data/models/seats_models.py:56-63), which is outside the column's enumeration and refuses the whole payload.
- RowLocking.InterleavingsNeverOverlap: a cancellation may roll back only while its rows still fit, because otherwise the claim is
  false; `CancelRollbackIff`, `CancelRollback.UndisturbedRollbackIsSafe` and `SkippedRowsCanOverlap` say when. A cancellation holds no
  seat rows here, although its rebuild takes those it can get (app/domains/inventory/services/inventory_services.py:880-892); that
  only makes other requests fail.
- RowLocking.QuietAgain: the same.
- InventoryOperations.InventoryService.CancelSeats: takes the first row in primary-key order, which the query leaves to the database;
  `InventoryRoundTrips.AnyFirstRowIsExactIff` shows that the result depends on it only where the delete is not exact anyway.
- SagaTheorems.NoSeatLeakedOrDoublyOwned: false of runs with late writes or refused confirmations and unlocks, see `SagaRaces`, `SagaRevivals`
  and `SagaRefusals`. Each step is one unit: availability, Redis locks and PENDING row together; the lock and the status write that
  follows; a claim with its effects; a compensation with its forced release; the unlock, the CANCELLED write and the forced release of
  a cancel, although in the code the unlock is a committed call of its own and a success handler can confirm between it and the write.
  The cancellation of CONFIRMED seats waits for its rows and is not refused.
- SagaSteps.FailedBeginChangesNothing: takes the release of the Redis keys for granted. On a repeated request key the flush fails and the
  handler issues an UPDATE without a rollback before it releases them; whether that UPDATE raises depends on the session, and if it
  does, the keys stay until they expire.
- SagaVersions.AtMostOneClaimWins: false of runs in which a stale cancel lowers the version, see `SagaRevivals.SecondWinRun`. The cancel of a
  held booking has no version check in the code and is not among the claims.
- SagaClaims.AtMostOneTakesEffect: false of runs with late compensations, see `SagaRaces.LostClaimRun`.
- SagaSales.ConfirmedShareNoLeg: false of runs in which a winning claim does not find its seats, see `SagaDoubleSale.DoubleSaleRun`.
- SagaLimits.LateFaultLeaksSeats: the fault is not a step of the runs, since no invariant survives it.
- The booking status notices that the handlers put into the outbox: `Outbox` and `OutboxProtocol` model what happens to any event there.
- The transient statuses CONFIRMING and CANCELLING, which never outlive the transaction that writes them, and the departure-date check.
- Whether the second status write of a handler sees the version before or after its claim depends on the ORM session; both are allowed.
- SagaEveryRun.MoneyIsConserved: covers captures and refunds of orders; the seat inventory and refund endpoints are called by the saga only.
- OutboxProtocol.RunsAreShort: assumes no shutdown or crash: rows claimed before one stay PROCESSING. The workers call the retry handler
  factory by a name the factory does not define; the intended call is modelled. One event type; the other workers are copies.
- OtpRuns.EveryRunIsSound: a request is two steps, its look and its write; confirmations and deliveries are one transaction each, provider
  answers and commits are reliable. Without the hypothesis on the writes it is false (`RequestsCanRace`, `VerifiedCanBeOverwritten`). The
  user-level rate limits in front of the service are left out. Password change and email verification are variants with less state.
- RateLimit.IntervalAdmitsAtMost: INCR and EXPIRE are one step and Redis answers; when it does not, requests are let through uncounted.
- ScheduleIndex.RedeliveryIsHarmless: a message counts as delivered when the script ran; one that fails and is passed over by a later commit
  is lost.
- SearchFreshness.IndexShowsCurrentIff: concerns the topic of counter events. The schedule-created topic writes zero counters to the same
  entry and is consumed independently. An event that ends FAILED is never delivered, which is one of the losses it allows.
