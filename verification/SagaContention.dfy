/**
 The inventory answers a confirmation or an unlock with a refusal while another transaction holds one of the seat rows, and
 the saga does not look at the answer. What that costs, step by step.
 */
module SagaContention {
  import opened Options
  import opened Inventory
  import opened InventoryInvariants
  import opened BookingSaga
  import opened SagaEndings
  import opened SagaMoney
  import opened SagaRuns
  import opened SagaSeats
  import opened SagaSteps
  import Pay = Payments
  import R = RedisLocks

  /** A row that the booking inserted and that is still there. */
  ghost predicate LeavesRow(s: System, id: int) {
    exists i :: i in s.inv.locks && i in s.owner && s.owner[i] == id
  }

  lemma LeftRowIsNotTaken(s: System, s': System, id: int)
    requires LeavesRow(s', id)
    ensures !RowsWithout(s, s', id)
  {
    var i :| i in s'.inv.locks && i in s'.owner && s'.owner[i] == id;
    if RowsWithout(s, s', id) {
      RowOfAnother(s, s', id, i);
    }
  }

  lemma RowOfAnother(s: System, s': System, id: int, i: nat)
    requires RowsWithout(s, s', id) && i in s'.inv.locks
    ensures i in s'.owner && s'.owner[i] != id
  {
  }

  lemma LeftRowBreaksInv(s: System, id: int)
    requires LeavesRow(s, id) && id in s.bookings && !s.bookings[id].Rowed()
    ensures !SeatInv(s)
  {
    hide SeatInv;
    var i :| i in s.inv.locks && i in s.owner && s.owner[i] == id;
    OrphanBreaksInv(s, id, i);
  }

  lemma RowedHasRow(s: System, id: int)
    requires SeatInv(s) && id in s.bookings && s.bookings[id].Rowed()
    ensures LeavesRow(s, id)
  {
    hide SeatInv;
    FirstRowOwned(s, id);
  }

  lemma SameRowsLeft(s: System, s': System, id: int)
    requires LeavesRow(s, id) && s'.inv.locks == s.inv.locks && s'.owner == s.owner
    ensures LeavesRow(s', id)
  {
  }

  /* ---- refused unlocks ---- */

  lemma RefusedCompensation(s: System, id: int, log: seq<SagaStep>, gateway: Option<string>)
    requires id in s.bookings && s.owner.Keys == s.inv.locks.Keys && KnownLog(log) && !UnlockClear(s, id)
    ensures var c := CompensateAll(s, id, log, gateway); c.inv == s.inv && c.owner == s.owner && c.bookings == s.bookings
  {
    hide CompensateAll, UnlockClear, KnownLog;
    CompensatedParts(s, id, log, gateway);
    RefusedUnlock(s, id);
  }

  /** An ending whose unlock is refused: the booking is over, its rows stay. */
  ghost predicate EndsWithRows(s: System, s': System, id: int) {
    && s'.inv == s.inv && s'.owner == s.owner && id in s'.bookings && !s'.bookings[id].Live()
  }

  lemma RefusedAbandon(s: System, id: int, gateway: Option<string>)
    requires id in s.bookings && s.owner.Keys == s.inv.locks.Keys && KnownLog(LogOf(s, id)) && !UnlockClear(s, id)
    ensures EndsWithRows(s, Abandon(s, id, gateway), id)
  {
    RefusedCompensation(s, id, LogOf(s, id), gateway);
    hide CompensateAll, UnlockClear, KnownLog, R.Released;
  }

  lemma RefusedConfirmFaults(s: System, id: int, gateway: Option<string>)
    requires id in s.bookings && s.bookings[id].status == PaymentPending
    requires s.owner.Keys == s.inv.locks.Keys && KnownLog(LogOf(s, id)) && !UnlockClear(s, id)
    ensures EndsWithRows(s, ConfirmFaults(s, id, gateway), id)
  {
    RefusedCompensation(s, id, LogOf(s, id), gateway);
    hide CompensateAll, UnlockClear, KnownLog, R.ForceReleased;
  }

  lemma RefusedPaymentFails(s: System, id: int, gateway: Option<string>)
    requires id in s.bookings && s.owner.Keys == s.inv.locks.Keys && KnownLog(LogOf(s, id)) && !UnlockClear(s, id)
    ensures EndsWithRows(s, PaymentFails(s, id, gateway), id)
  {
    var b := s.bookings[id];
    var claimed := WithBooking(s, id, b.(status := Failed, reason := OtherFailure, version := b.version + 1));
    RefusedCompensation(claimed, id, LogOf(s, id), gateway);
    hide CompensateAll, KnownLog, R.ForceReleased;
  }

  lemma RefusedCancelHeld(s: System, id: int, version: nat)
    requires id in s.bookings && s.owner.Keys == s.inv.locks.Keys && !UnlockClear(s, id)
    ensures EndsWithRows(s, CancelHeld(s, id, version), id)
  {
    RefusedUnlock(s, id);
    hide UnlockClear, Unlocked, R.ForceReleased;
  }

  lemma EndsWithRowsLeaves(s: System, s': System, id: int)
    requires SeatInv(s) && id in s.bookings && s.bookings[id].Rowed() && EndsWithRows(s, s', id)
    ensures LeavesRow(s', id) && !SeatInv(s')
  {
    hide SeatInv;
    RowedHasRow(s, id);
    SameRowsLeft(s, s', id);
    LeftRowBreaksInv(s', id);
  }

  lemma RefusedPayment(s: System, id: int, order: Option<string>, lost: bool, gateway: Option<string>)
    requires SeatInv(s) && MoneyInv(s) && id in s.bookings && s.bookings[id].status == SeatsHeld
    requires !OrderArrives(s, id, order, lost) && !UnlockClear(s, id)
    ensures EndsWithRows(s, RequestPayment(s, id, order, lost, gateway), id)
  {
    UnpaidSoFar(s, id);
    OwnersComplete(s);
    KnownLogs();
    hide SeatInv, MoneyInv, Abandon, Pay.CreateOrder, KnownLog;
    RefusedAbandon(WithPaymentLog(s, id, order), id, gateway);
  }

  lemma KnownLogs()
    ensures KnownLog(HELD_LOG) && KnownLog(HELD_LOG + [CreatePayment])
  {
  }

  /** The state when the payment service has answered. */
  function WithPaymentLog(s: System, id: int, order: Option<string>): System
    requires id in s.bookings
  {
    var b := s.bookings[id];
    s.(pay := Pay.CreateOrder(s.pay, Pay.PaymentKey(id), id, b.user, b.amount, order).0, logs := s.logs[id := LogOf(s, id) + [CreatePayment]])
  }

  /** A lock that took effect, a reply that was lost, and an unlock that is refused. */
  lemma RefusedLostHold(s: System, id: int, gateway: Option<string>)
    requires SeatInv(s) && MoneyInv(s) && id in s.bookings && s.bookings[id].status == Pending
    requires LockIsLost(s, id, true) && !UnlockClear(s, id)
    ensures var s' := Hold(s, id, true, gateway); LeavesRow(s', id) && id in s'.bookings && s'.bookings[id].status == Failed
  {
    UnpaidSoFar(s, id);
    KnownLogs();
    hide SeatInv, MoneyInv, Abandon, LockUnder, KnownLog, Occupied;
    var held := Hold(s, id, false, gateway);
    LostHoldIsAbandonedHold(s, id, gateway);
    HeldOccupies(s, id, gateway);
    OccupiedKeepsInv(s, held, id);
    OccupiedIsHeld(s, held, id);
    OwnersComplete(held);
    RefusedAbandon(held, id, gateway);
    EndsWithRowsLeaves(held, Hold(s, id, true, gateway), id);
    AbandonFails(held, id, gateway);
  }

  lemma OccupiedIsHeld(s: System, held: System, id: int)
    requires Occupied(s, held, id)
    ensures id in held.bookings && held.bookings[id].status == SeatsHeld
  {
  }

  lemma AbandonFails(s: System, id: int, gateway: Option<string>)
    requires id in s.bookings
    ensures id in Abandon(s, id, gateway).bookings && Abandon(s, id, gateway).bookings[id].status == Failed
  {
    hide CompensateAll, R.Released;
  }

  /* ---- refused confirmations ---- */

  lemma RefusedConfirmation(s: System, id: int, refreshed: bool)
    requires SeatInv(s) && id in s.bookings && s.bookings[id].status == PaymentPending && !CallClear(s, id)
    ensures var s' := ConfirmPaid(s, id, refreshed);
      && s'.inv == s.inv && s'.owner == s.owner && id in s'.bookings && s'.bookings[id].status == Confirmed
      && s'.bookings[id].base == s.bookings[id].base
  {
    ConfirmIsAcceptedIff(s, id);
    OwnersComplete(s);
    hide SeatInv, ConfirmUnder, R.ForceReleased;
    SameOwners(s, id);
  }

  lemma SameOwners(s: System, id: int)
    requires s.owner.Keys == s.inv.locks.Keys
    ensures WithInventory(s, id, s.inv) == s
  {
  }

  lemma LockedRowOf(s: System, id: int)
    requires SeatInv(s) && id in s.bookings && s.bookings[id].status in {SeatsHeld, PaymentPending}
    ensures var i := s.bookings[id].base; i in s.inv.locks && s.inv.locks[i].state == Locked && i in s.owner && s.owner[i] == id
  {
    hide Invariant, Gate;
    assert BookingSound(s, id);
    assert OwnsRow(s, id, s.bookings[id].base);
  }

  lemma ConfirmedRowIsBooked(s: System, id: int, i: nat)
    requires SeatInv(s) && i in s.owner && i in s.inv.locks && s.owner[i] == id && id in s.bookings && s.bookings[id].status == Confirmed
    ensures s.inv.locks[i].state == Booked
  {
    hide Invariant, Gate;
    RowOfOwner(s, i);
  }

  /** CONFIRMED over LOCKED rows. */
  lemma RefusedConfirmationBreaksInv(s: System, id: int, refreshed: bool)
    requires SeatInv(s) && id in s.bookings && s.bookings[id].status == PaymentPending && !CallClear(s, id)
    ensures !SeatInv(ConfirmPaid(s, id, refreshed))
  {
    RefusedConfirmation(s, id, refreshed);
    LockedRowOf(s, id);
    hide SeatInv, ConfirmPaid;
    if SeatInv(ConfirmPaid(s, id, refreshed)) {
      ConfirmedRowIsBooked(ConfirmPaid(s, id, refreshed), id, s.bookings[id].base);
    }
  }

  /* ---- every step ---- */

  lemma ContendedClaim(s: System, r: Read, refreshed: bool, gateway: Option<string>)
    requires SeatInv(s) && MoneyInv(s) && Interested(s, r.kind, r.booking) && !ClaimClear(s, r)
    ensures !SeatInv(Claimed(s, r, refreshed, gateway))
  {
    LogOfPaid(s, r.booking);
    OwnersComplete(s);
    hide SeatInv, MoneyInv, ConfirmPaid, PaymentFails, CancelConfirmed, CallClear, UnlockClear;
    match r.kind
    case PaidMessage(_) => RefusedConfirmationBreaksInv(s, r.booking, refreshed);
    case UnpaidMessage(_) =>
      RefusedPaymentFails(s, r.booking, gateway);
      EndsWithRowsLeaves(s, PaymentFails(s, r.booking, gateway), r.booking);
  }

  lemma ContendedHold(s: System, id: int, lost: bool, gateway: Option<string>)
    requires SeatInv(s) && MoneyInv(s) && id in s.bookings && s.bookings[id].status == Pending
    requires LockIsLost(s, id, lost) && !UnlockClear(s, id)
    ensures !SeatInv(Hold(s, id, lost, gateway))
  {
    hide SeatInv, MoneyInv, Hold, UnlockClear, LockUnder;
    RefusedLostHold(s, id, gateway);
    LeftRowBreaksInv(Hold(s, id, true, gateway), id);
  }

  lemma ContendedPayment(s: System, id: int, order: Option<string>, lost: bool, gateway: Option<string>)
    requires SeatInv(s) && MoneyInv(s) && id in s.bookings && s.bookings[id].status == SeatsHeld
    requires !OrderArrives(s, id, order, lost) && !UnlockClear(s, id)
    ensures !SeatInv(RequestPayment(s, id, order, lost, gateway))
  {
    hide SeatInv, MoneyInv, RequestPayment, UnlockClear, OrderArrives, EndsWithRows;
    RefusedPayment(s, id, order, lost, gateway);
    EndsWithRowsLeaves(s, RequestPayment(s, id, order, lost, gateway), id);
  }

  lemma ContendedCompensation(s: System, id: int, gateway: Option<string>)
    requires SeatInv(s) && MoneyInv(s) && id in s.bookings && s.bookings[id].status == PaymentPending && !UnlockClear(s, id)
    ensures !SeatInv(ConfirmFaults(s, id, gateway))
  {
    LogOfPaid(s, id);
    OwnersComplete(s);
    hide SeatInv, MoneyInv, ConfirmFaults, UnlockClear, EndsWithRows;
    RefusedConfirmFaults(s, id, gateway);
    EndsWithRowsLeaves(s, ConfirmFaults(s, id, gateway), id);
  }

  lemma ContendedDrop(s: System, d: Drop)
    requires SeatInv(s) && d.booking in s.bookings && d.held && s.bookings[d.booking].Rowed() && !UnlockClear(s, d.booking)
    ensures !SeatInv(Dropped(s, d))
  {
    OwnersComplete(s);
    hide SeatInv, CancelHeld, UnlockClear, EndsWithRows;
    RefusedCancelHeld(s, d.booking, d.version);
    EndsWithRowsLeaves(s, CancelHeld(s, d.booking, d.version), d.booking);
  }

  lemma ContendedStep(w: World, t: Step)
    requires Inv(w) && Enabled(w, t) && OnTime(w, t) && !Uncontended(w, t)
    ensures !SeatInv(Next(w, t).s)
  {
    hide SeatInv, MoneyInv, Untouched, Begin, Hold, RequestPayment, VerifyPayment, Claimed, ConfirmFaults, Dropped, HoldSucceeds, Interested,
      UnlockClear, ClaimClear, OrderArrives, LockIsLost;
    match t
    case HoldStep(id, lost, gateway) => ContendedHold(w.s, id, lost, gateway);
    case PaymentStep(id, order, lost, gateway) => ContendedPayment(w.s, id, order, lost, gateway);
    case Claim(h, refreshed, gateway) =>
      assert ReadSound(w.s, w.seen[h]);
      ContendedClaim(w.s, w.seen[h], refreshed, gateway);
    case CompensateStep(h, gateway) => ContendedCompensation(w.s, w.rolled[h].booking, gateway);
    case DropStep(h) => ContendedDrop(w.s, w.drops[h]);
  }

  /**
   A step that comes in time keeps the seats consistent if and only if no other transaction holds a seat row of its booking
   when it calls for the confirmation or the unlock.
   */
  lemma StepKeepsSeatsIff(w: World, t: Step)
    requires Inv(w) && Enabled(w, t) && OnTime(w, t)
    ensures SeatInv(Next(w, t).s) <==> Uncontended(w, t)
  {
    hide Inv, SeatInv, Next, Enabled, OnTime, Uncontended;
    if Uncontended(w, t) {
      StepKeepsSeats(w, t);
    } else {
      ContendedStep(w, t);
    }
  }
}
