/**
 Runs in which a write by id alone comes too late. Each starts in any state that keeps the invariant and in which a request
 is ready, and takes only steps that the code can take.
 */
module SagaRaces {
  import opened Options
  import opened Inventory
  import opened InventoryRoundTrips
  import opened BookingSaga
  import opened SagaEveryRun
  import opened SagaLimits
  import SagaEndings
  import opened SagaMoney
  import opened SagaProgress
  import opened SagaRuns
  import opened SagaRunTools
  import opened SagaSeats
  import opened SagaTheorems
  import Pay = Payments
  import R = RedisLocks

  /** Nothing but the steps of its own creation is under way for a booking that is new. */
  lemma NewIsSettled(w: World)
    requires Inv(w)
    ensures Settled(w, w.s.nextBooking)
  {
    hide SeatInv, MoneyInv;
    forall h | h in w.drops ensures w.drops[h].booking != w.s.nextBooking {
      assert DropSound(w.s, w.drops[h]);
    }
  }

  /* ---- a cancel that comes after the confirmation ---- */

  /** What a stale cancel leaves of a booking that was confirmed in the meantime. */
  ghost predicate Leaked(w: World, id: int) {
    && id in w.s.bookings && w.s.bookings[id].status == CancelledByUser && w.s.bookings[id].seats != []
    && (forall i: nat :: w.s.bookings[id].InRange(i) ==>
          i in w.s.inv.locks && w.s.inv.locks[i].state == Booked && w.s.inv.locks[i].booking == Some(id))
    && w.s.bookings[id].order in w.s.pay.orders && w.s.pay.orders[w.s.bookings[id].order].status == Pay.Captured
    && Pay.RefundsOf(w.s.pay.refunds, w.s.bookings[id].order) == []
  }

  lemma StaleCancelLeaks(w: World, d: int)
    requires Inv(w) && d in w.drops && w.drops[d].held && w.s.bookings[w.drops[d].booking].status == Confirmed
    ensures Enabled(w, DropStep(d))
    ensures var w' := Next(w, DropStep(d));
      !SeatInv(w'.s) && Leaked(w', w.drops[d].booking) && w.drops[d].booking in w'.s.bookings
      && EndedUnrefunded(w'.s, w.drops[d].booking, w'.s.bookings[w.drops[d].booking].order)
  {
    hide SeatInv, MoneyInv, Unlocked, Pay.RefundsOf, Keys, ForceReleased;
    var id := w.drops[d].booking;
    assert DropSound(w.s, w.drops[d]);
    CancelHeldIsSafeIff(w.s, id, w.drops[d].version);
    CancelHeldParts(w.s, id, w.drops[d].version);
    RequestHasSeats(w.s, id);
    ConfirmedUnrefunded(w.s, id);
    DropChanges(w.s, w.drops[d]);
    var w' := Next(w, DropStep(d));
    forall i: nat | w'.s.bookings[id].InRange(i)
      ensures i in w'.s.inv.locks && w'.s.inv.locks[i].state == Booked && w'.s.inv.locks[i].booking == Some(id)
    {
      BookedRowBelongs(w.s, id, i);
      BookedRowSurvives(w.s, id, i);
      UnlockedInventory(w.s, id, w.drops[d].version);
    }
  }

  lemma UnlockedInventory(s: System, id: int, version: nat)
    requires id in s.bookings
    ensures CancelHeld(s, id, version).inv == Unlocked(s, id).inv
  {
    hide UnlockUnder, R.ForceReleased;
  }

  lemma RequestHasSeats(s: System, id: int)
    requires SeatInv(s) && id in s.bookings
    ensures s.bookings[id].seats != []
  {
    assert BookingSound(s, id);
  }

  lemma ConfirmedUnrefunded(s: System, id: int)
    requires MoneyInv(s) && id in s.bookings && s.bookings[id].status == Confirmed
    ensures var o := s.bookings[id].order;
      o in s.pay.orders && s.pay.orders[o].booking == id && s.pay.orders[o].status == Pay.Captured && Pay.RefundsOf(s.pay.refunds, o) == []
  {
    hide Pay.RefundsOf, TotalPrice, Pay.Balanced;
    assert MoneySound(s, id);
    assert Pay.OrderSound(s.pay, s.bookings[id].order);
  }

  /** Cancel read, success message claimed, cancel written. */
  function StaleCancelSteps(id: int, user: int, e: Pay.Event, h: int, d: int): seq<Step> {
    [LookDrop(d, user, id), Look(h, PaidMessage(e), id), Claim(h, false, None), DropStep(d)]
  }

  lemma ConfirmUnderCancel(w: World, v: World, id: int, e: Pay.Event, h: int, d: int) returns (u: World)
    requires Awaiting(w, v, id, e) && h !in w.seen && d !in w.drops && Settled(w, id)
    ensures var steps := StaleCancelSteps(id, v.s.bookings[id].user, e, h, d);
      IsRun(v, steps[..3], u)
    ensures Inv(u) && id in u.s.bookings && u.s.bookings[id].status == Confirmed
    ensures u == v.(s := u.s, drops := v.drops[d := Drop(id, true, 0)])
  {
    var user := v.s.bookings[id].user;
    assert StaleCancelSteps(id, user, e, h, d)[..3] == [LookDrop(d, user, id), Look(h, PaidMessage(e), id), Claim(h, false, None)];
    AwaitingPays(w, v, id, e);
    hide *;
    var v1 := LookedForCancel(v, id, d);
    u := Confirming(v1, id, e, h);
    ThreeRun(v, LookDrop(d, user, id), Look(h, PaidMessage(e), id), Claim(h, false, None));
  }

  lemma SettledAgain(w: World, u: World, d: int)
    requires Settled(w, w.s.nextBooking) && Enabled(u, DropStep(d)) && u.drops - {d} == w.drops - {d}
    requires u.seen == w.seen && u.rolled == w.rolled && w.s.nextBooking !in u.creating
    ensures Settled(Next(u, DropStep(d)), w.s.nextBooking)
  {
    hide Dropped;
  }

  lemma NeverRefunded(end: World, id: int, o: int)
    requires LedgerSound(end.s) && EndedUnrefunded(end.s, id, o) && Settled(end, id)
    ensures forall steps, later :: IsRun(end, steps, later) ==> Pay.RefundsOf(later.s.pay.refunds, o) == []
  {
    forall steps, later | IsRun(end, steps, later) ensures Pay.RefundsOf(later.s.pay.refunds, o) == [] {
      SettledIsNeverRefunded(end, steps, later, id, o);
    }
  }

  /**
   A user's cancel that reads PAYMENT_PENDING and writes after the success handler has confirmed: the booking is CANCELLED,
   all its seats stay BOOKED, its captured payment is not returned, and nothing that happens later returns it.
   */
  lemma StaleCancelRun(w: World, r: Request, token: int, order: string, payment: string, h: int, d: int) returns (end: World)
    requires Inv(w) && Ready(w, r, token, order, payment, h) && d !in w.drops
    ensures var id := w.s.nextBooking;
      var steps := CapturePath(w, r, token, order, payment) + StaleCancelSteps(id, r.user, PaidEvent(w, r, order, payment), h, d);
      && IsRun(w, steps, end) && !SeatInv(end.s) && Leaked(end, id)
      && forall more, later :: IsRun(end, more, later) ==> Pay.RefundsOf(later.s.pay.refunds, end.s.bookings[id].order) == []
  {
    hide Inv, Ready, Next, Enabled, Interested, Leaked, SeatInv, EndedUnrefunded, LedgerSound, TotalPrice, Pay.RefundsOf, CapturePath;
    var (id, e) := (w.s.nextBooking, PaidEvent(w, r, order, payment));
    var steps := StaleCancelSteps(id, r.user, e, h, d);
    ReadyHandler(w, r, token, order, payment, h);
    NewIsSettled(w);
    var v := CapturedRun(w, r, token, order, payment, h);
    var u := ConfirmUnderCancel(w, v, id, e, h, d);
    StaleCancelLeaks(u, d);
    end := Next(u, steps[3]);
    RunThen(w, CapturePath(w, r, token, order, payment), v, steps[..3], u);
    OneMore(w, CapturePath(w, r, token, order, payment) + steps[..3], u, steps[3]);
    assert CapturePath(w, r, token, order, payment) + steps[..3] + [steps[3]] == CapturePath(w, r, token, order, payment) + steps;
    SoundOf(u);
    SoundLedger(u);
    StepKeepsLedger(u, steps[3]);
    SettledAgain(w, u, d);
    NeverRefunded(end, id, end.s.bookings[id].order);
  }

  lemma SoundOf(w: World)
    requires Inv(w)
    ensures Sound(w)
  {
  }

  /* ---- a compensation that comes after the confirmation ---- */

  /** Two deliveries of the success message: the first faults and rolls back, the second confirms, the first compensates. */
  function LostClaimSteps(id: int, e: Pay.Event, a: int, b: int, refund: string): seq<Step> {
    [Look(a, PaidMessage(e), id), Fault(a), Look(b, PaidMessage(e), id), Claim(b, false, None), CompensateStep(a, Some(refund))]
  }

  lemma ConfirmUnderFault(w: World, v: World, id: int, e: Pay.Event, a: int, b: int, refund: string) returns (u: World)
    requires Awaiting(w, v, id, e) && a !in w.seen && b !in w.seen && a !in w.rolled && a != b
    ensures IsRun(v, LostClaimSteps(id, e, a, b, refund)[..4], u)
    ensures Inv(u) && id in u.s.bookings && u.s.bookings[id].status == Confirmed && u.s.pay == v.s.pay
    ensures a in u.rolled && u.rolled[a].booking == id
  {
    assert LostClaimSteps(id, e, a, b, refund)[..4]
      == [Look(a, PaidMessage(e), id), Fault(a), Look(b, PaidMessage(e), id), Claim(b, false, None)];
    AwaitingPays(w, v, id, e);
    hide *;
    var v2 := Faulting(v, id, e, a);
    u := Confirming(v2, id, e, b);
    FourRun(v, Look(a, PaidMessage(e), id), Fault(a), Look(b, PaidMessage(e), id), Claim(b, false, None));
  }

  /** The booking stays CONFIRMED and keeps its seats, and its payment is given back. */
  lemma LostClaimRun(w: World, r: Request, token: int, order: string, payment: string, a: int, b: int, refund: string) returns (end: World)
    requires Inv(w) && Ready(w, r, token, order, payment, a) && b !in w.seen && a !in w.rolled && a != b
    requires !Pay.RefundIdTaken(w.s.pay, refund)
    ensures var id := w.s.nextBooking;
      var steps := CapturePath(w, r, token, order, payment) + LostClaimSteps(id, PaidEvent(w, r, order, payment), a, b, refund);
      && IsRun(w, steps, end) && SeatInv(end.s) && !MoneyInv(end.s)
      && id in end.s.bookings && end.s.bookings[id].status == Confirmed
      && end.s.bookings[id].order in end.s.pay.orders && end.s.pay.orders[end.s.bookings[id].order].status == Pay.RefundInitiated
  {
    hide Inv, Ready, Next, Enabled, Interested, SeatInv, MoneyInv, TotalPrice, CapturePath, Pay.RefundIdTaken;
    var (id, e) := (w.s.nextBooking, PaidEvent(w, r, order, payment));
    var steps := LostClaimSteps(id, e, a, b, refund);
    ReadyHandler(w, r, token, order, payment, a);
    var v := CapturedRun(w, r, token, order, payment, a);
    var u := ConfirmUnderFault(w, v, id, e, a, b, refund);
    SameRefundIds(w.s.pay, u.s.pay, refund);
    LateCompensation(u, a, refund);
    end := Next(u, steps[4]);
    RunThen(w, CapturePath(w, r, token, order, payment), v, steps[..4], u);
    OneMore(w, CapturePath(w, r, token, order, payment) + steps[..4], u, steps[4]);
    assert CapturePath(w, r, token, order, payment) + steps[..4] + [steps[4]] == CapturePath(w, r, token, order, payment) + steps;
  }

  lemma SameRefundIds(l: Pay.Ledger, l': Pay.Ledger, id: string)
    requires l'.refunds == l.refunds
    ensures Pay.RefundIdTaken(l', id) == Pay.RefundIdTaken(l, id)
  {
  }

  lemma LateCompensation(w: World, a: int, refund: string)
    requires Inv(w) && a in w.rolled && w.rolled[a].booking in w.s.bookings && w.s.bookings[w.rolled[a].booking].status == Confirmed
    requires !Pay.RefundIdTaken(w.s.pay, refund)
    ensures Enabled(w, CompensateStep(a, Some(refund)))
    ensures var (id, s') := (w.rolled[a].booking, Next(w, CompensateStep(a, Some(refund))).s);
      && SeatInv(s') && !MoneyInv(s') && id in s'.bookings && s'.bookings[id].status == Confirmed
      && s'.bookings[id].order in s'.pay.orders && s'.pay.orders[s'.bookings[id].order].status == Pay.RefundInitiated
  {
    var id := w.rolled[a].booking;
    hide *;
    FreshRefund(w.s.pay, refund);
    PaidAndFree(w, id);
    CompensatedConfirmed(w.s, id, Some(refund));
    CompensatedConfirmedSeats(w.s, id, Some(refund));
    CompensationIs(w, a, Some(refund));
  }

  lemma FreshRefund(l: Pay.Ledger, refund: string)
    requires !Pay.RefundIdTaken(l, refund)
    ensures Pay.GatewayRefunds(l, Some(refund))
  {
  }

  lemma CompensationIs(w: World, a: int, gateway: Option<string>)
    requires a in w.rolled && w.rolled[a].booking in w.s.bookings
    ensures Enabled(w, CompensateStep(a, gateway)) && Next(w, CompensateStep(a, gateway)).s == ConfirmFaults(w.s, w.rolled[a].booking, gateway)
  {
    hide ConfirmFaults;
  }

  lemma CompensatedConfirmedSeats(s: System, id: int, gateway: Option<string>)
    requires SeatInv(s) && MoneyInv(s) && id in s.bookings && s.bookings[id].status == Confirmed && LogOf(s, id) == PAID_LOG
    requires Pay.GatewayRefunds(s.pay, gateway) && Keys(s.bookings[id]) !! s.redis.Keys
    ensures SeatInv(ConfirmFaults(s, id, gateway)) && !MoneyInv(ConfirmFaults(s, id, gateway))
  {
    hide ConfirmFaults, SeatInv, MoneyInv, Keys, LogOf, Pay.GatewayRefunds;
    CompensationIsSafeIff(s, id, gateway);
    CompensationKeepsMoneyIff(s, id, gateway);
  }

  lemma PaidAndFree(w: World, id: int)
    requires Inv(w) && id in w.s.bookings && w.s.bookings[id].status == Confirmed
    ensures SeatInv(w.s) && MoneyInv(w.s) && LogOf(w.s, id) == PAID_LOG && Keys(w.s.bookings[id]) !! w.s.redis.Keys
  {
    LogOfPaid(w.s, id);
    hide MoneyInv;
    ConfirmedHoldsNoKey(w.s, id);
  }

  /** Compensating a CONFIRMED booking: nothing but the state of its order moves. */
  lemma CompensatedConfirmed(s: System, id: int, gateway: Option<string>)
    requires MoneyInv(s) && id in s.bookings && s.bookings[id].status == Confirmed && LogOf(s, id) == PAID_LOG
    requires Pay.GatewayRefunds(s.pay, gateway)
    ensures var s' := ConfirmFaults(s, id, gateway);
      && s'.bookings == s.bookings && s.bookings[id].order in s'.pay.orders
      && s'.pay.orders[s.bookings[id].order].status == Pay.RefundInitiated
  {
    hide MoneyInv, ConfirmFaults, Refunded, Pay.GatewayRefunds;
    RefundOfConfirmedGoesThrough(s, id, gateway);
    CompensatedMovedParts(s, id, gateway);
    RefundedStaysConfirmed(s, id, gateway);
  }

  lemma ConfirmedHoldsNoKey(s: System, id: int)
    requires SeatInv(s) && id in s.bookings && s.bookings[id].status == Confirmed
    ensures Keys(s.bookings[id]) !! s.redis.Keys
  {
    assert BookingSound(s, id);
  }

  /* ---- a creation that goes on after a cancel ---- */

  function LateLockPath(w: World, r: Request, token: int, d: int): seq<Step> {
    var id := w.s.nextBooking;
    [Start(r, token)] + CancelSteps(id, r.user, d) + [HoldStep(id, false, None)]
  }

  /** The seats of a booking that was cancelled while PENDING are locked all the same, and it is SEATS_HELD without keys. */
  lemma LateLockRun(w: World, r: Request, token: int, d: int) returns (end: World)
    requires Inv(w) && Bookable(w.s, r) && R.CanAcquire(w.s.redis, KeyList(NewBooking(w.s, r, token))) && r.key !in w.s.requests
    requires d !in w.drops && SeatsClear(w.s, r)
    ensures var id := w.s.nextBooking;
      && IsRun(w, LateLockPath(w, r, token, d), end) && !SeatInv(end.s)
      && id in end.s.bookings && end.s.bookings[id].status == SeatsHeld && Keyless(end.s, id)
  {
    var id := w.s.nextBooking;
    assert IsRun(w, [], w);
    assert [] + [Start(r, token)] == [Start(r, token)];
    ClearOf(w.s, r);
    hide *;
    var w1 := StartedPending(w, r, token);
    OneMore(w, [], w, Start(r, token));
    ForIsClear(w.s, w1.s, id, r);
    var u := CancelInTime(w1, id, d);
    RunThen(w, [Start(r, token)], w1, CancelSteps(id, r.user, d), u);
    CancelledPending(w1, u, id);
    HoldRevives(u, id);
    end := Next(u, HoldStep(id, false, None));
    OneMore(w, [Start(r, token)] + CancelSteps(id, r.user, d), u, HoldStep(id, false, None));
    LateLockSteps(w, r, token, d);
  }

  lemma LateLockSteps(w: World, r: Request, token: int, d: int)
    ensures LateLockPath(w, r, token, d) == [Start(r, token)] + CancelSteps(w.s.nextBooking, r.user, d) + [HoldStep(w.s.nextBooking, false, None)]
  {
  }

  lemma CancelledPending(w: World, u: World, id: int)
    requires Inv(u) && WasCancelled(w.s, u.s, id) && w.s.bookings[id].status == Pending && CallClear(w.s, id)
    ensures u.s.inv == w.s.inv && id in u.s.bookings && u.s.bookings[id].status == CancelledByUser
    ensures u.s.bookings[id].schedule == w.s.bookings[id].schedule && u.s.bookings[id].seats == w.s.bookings[id].seats
    ensures u.s.bookings[id].seg == w.s.bookings[id].seg && CallClear(u.s, id) && Keyless(u.s, id) && SeatInv(u.s)
  {
    CancelledIsBare(w.s, u.s, id);
    hide SeatInv, MoneyInv, Keys, TakesOnlyOwn;
  }

  lemma HoldRevives(u: World, id: int)
    requires SeatInv(u.s) && id in u.creating && u.creating[id] == ToHold && id in u.s.bookings && u.s.bookings[id].status == CancelledByUser
    requires var b := u.s.bookings[id];
      Gate(u.s.inv, b.schedule, b.seats).None? && Blocked(u.s.inv.locks, b.schedule, IdSet(b.seats), b.seg) == {}
    requires CallClear(u.s, id) && Keyless(u.s, id)
    ensures Enabled(u, HoldStep(id, false, None))
    ensures var s' := Next(u, HoldStep(id, false, None)).s;
      !SeatInv(s') && id in s'.bookings && s'.bookings[id].status == SeatsHeld && Keyless(s', id)
  {
    hide SeatInv, LockUnder, LockSeats, Abandon, Gate, Blocked, Keys;
    var b := u.s.bookings[id];
    LockUnderEffect(u.s.inv, u.s.busy.calls, b.user, b.schedule, b.seats, b.seg);
    LockEffect(u.s.inv, b.user, b.schedule, b.seats, b.seg);
    HoldWriteIsSafeIff(u.s, id, None);
    HoldCases(u.s, id, false, None);
    SagaEndings.SameKeys(b, b.(status := SeatsHeld, base := u.s.inv.nextId));
  }

  function OvertakenPath(w: World, r: Request, token: int, d: int): seq<Step> {
    var id := w.s.nextBooking;
    [Start(r, token), LookDrop(d, r.user, id), HoldStep(id, false, None), DropStep(d)]
  }

  /** A cancel that read PENDING and writes after the lock unlocks nothing: the rows of the CANCELLED booking stay LOCKED. */
  lemma OvertakenCancelRun(w: World, r: Request, token: int, d: int) returns (end: World)
    requires Inv(w) && Bookable(w.s, r) && R.CanAcquire(w.s.redis, KeyList(NewBooking(w.s, r, token))) && r.key !in w.s.requests
    requires d !in w.drops && SeatsClear(w.s, r)
    ensures var id := w.s.nextBooking;
      && IsRun(w, OvertakenPath(w, r, token, d), end) && !SeatInv(end.s)
      && id in end.s.bookings && end.s.bookings[id].status == CancelledByUser
      && forall i: nat :: end.s.bookings[id].InRange(i) ==> i in end.s.inv.locks && end.s.inv.locks[i].state == Locked
  {
    var id := w.s.nextBooking;
    assert OvertakenPath(w, r, token, d) == [Start(r, token), LookDrop(d, r.user, id), HoldStep(id, false, None), DropStep(d)];
    ClearOf(w.s, r);
    hide *;
    var w1 := StartedPending(w, r, token);
    ForIsClear(w.s, w1.s, id, r);
    var w2 := LookedForCancel(w1, id, d);
    ForIsClear(w.s, w2.s, id, r);
    var w3 := HeldInTime(w2, id);
    CancelOvertaken(w3, d);
    end := Next(w3, DropStep(d));
    FourRun(w, Start(r, token), LookDrop(d, r.user, id), HoldStep(id, false, None), DropStep(d));
  }

  lemma CancelOvertaken(w: World, d: int)
    requires Inv(w) && d in w.drops && !w.drops[d].held && w.s.bookings[w.drops[d].booking].status == SeatsHeld
    ensures Enabled(w, DropStep(d))
    ensures var (id, s') := (w.drops[d].booking, Next(w, DropStep(d)).s);
      && !SeatInv(s') && id in s'.bookings && s'.bookings[id].status == CancelledByUser
      && forall i: nat :: s'.bookings[id].InRange(i) ==> i in s'.inv.locks && s'.inv.locks[i].state == Locked
  {
    hide SeatInv, MoneyInv, Keys;
    var (id, v) := (w.drops[d].booking, w.drops[d].version);
    assert DropSound(w.s, w.drops[d]);
    CancelPendingIsSafeIff(w.s, id, v);
    PendingKeepsInventory(w.s, id, v);
    DropChanges(w.s, w.drops[d]);
    var s' := Next(w, DropStep(d)).s;
    forall i: nat | s'.bookings[id].InRange(i) ensures i in s'.inv.locks && s'.inv.locks[i].state == Locked {
      BookedRowBelongs(w.s, id, i);
    }
  }
}
