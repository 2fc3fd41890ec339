/**
 A seat sold twice: a booking that was cancelled in time while its payment order was being created is revived by the late
 PAYMENT_PENDING write, paid and confirmed after another booking has bought the same seats.
 */
module SagaDoubleSale {
  import opened IntSets
  import opened Options
  import opened Inventory
  import opened InventoryInvariants
  import opened InventoryRoundTrips
  import opened BookingSaga
  import SagaEndings
  import opened SagaMoney
  import opened SagaProgress
  import opened SagaRevivals
  import opened SagaRuns
  import opened SagaRunTools
  import opened SagaSales
  import opened SagaSeats
  import opened SagaTheorems
  import Pay = Payments
  import Query = SeatQuery
  import R = RedisLocks

  /** Two CONFIRMED bookings of the same seats and segment. */
  ghost predicate SoldTwice(s: System, a: int, b: int) {
    && a != b && a in s.bookings && b in s.bookings && s.bookings[a].status == Confirmed && s.bookings[b].status == Confirmed
    && s.bookings[a].schedule == s.bookings[b].schedule && s.bookings[a].seats == s.bookings[b].seats
    && s.bookings[a].seg == s.bookings[b].seg
  }

  ghost predicate IsCaptured(s: System, id: int) {
    id in s.bookings && s.bookings[id].order in s.pay.orders && s.pay.orders[s.bookings[id].order].status == Pay.Captured
  }

  function SecondSaleSteps(v: World, a: int, order: string, payment: string, h: int): seq<Step>
    requires a in v.s.bookings
  {
    [PaymentStep(a, Some(order), false, None), VerifyStep(v.s.pay.nextOrder, payment, true)]
    + [Look(h, PaidMessage(PaidFor(v, a, order, payment)), a), Claim(h, false, None)]
  }

  /** The paid booking has its claim: no other booking is looked at. */
  lemma ClaimAfterPayment(p: World, a: int, e: Pay.Event, h: int) returns (end: World)
    requires a in p.s.bookings && Interested(p.s, PaidMessage(e), a) && h !in p.seen
    ensures IsRun(p, [Look(h, PaidMessage(e), a), Claim(h, false, None)], end)
    ensures end.s.pay == p.s.pay && OthersKept(p.s, end.s, a)
    ensures a in end.s.bookings && end.s.bookings[a] == p.s.bookings[a].(status := Confirmed, version := p.s.bookings[a].version + 1)
  {
    hide *;
    LookIs(p, h, PaidMessage(e), a);
    var v := Next(p, Look(h, PaidMessage(e), a));
    FreshReadWins(p, v, h, PaidMessage(e), a);
    ClaimIs(v, h, false, None);
    ConfirmedByClaim(p.s, a, e);
    end := Next(v, Claim(h, false, None));
    TwoRun(p, Look(h, PaidMessage(e), a), Claim(h, false, None));
  }

  /** Whatever became of the booking: its payment order, the capture and one delivery confirm it beside the other one. */
  lemma SecondSale(v: World, a: int, b: int, order: string, payment: string, h: int) returns (end: World)
    requires Payable(v, a, order, payment) && h !in v.seen && a != b && b in v.s.bookings && v.s.bookings[b].status == Confirmed
    requires v.s.bookings[a].schedule == v.s.bookings[b].schedule && v.s.bookings[a].seats == v.s.bookings[b].seats
    requires v.s.bookings[a].seg == v.s.bookings[b].seg && IsCaptured(v.s, b)
    ensures IsRun(v, SecondSaleSteps(v, a, order, payment, h), end)
    ensures SoldTwice(end.s, a, b) && IsCaptured(end.s, a) && IsCaptured(end.s, b)
  {
    hide Pay.LedgerInv, Pay.UsesGatewayOrder, Interested, IsRun, PaidFor;
    var p := PaysUp(v, a, order, payment);
    end := ClaimAfterPayment(p, a, PaidFor(v, a, order, payment), h);
    RunThen(v, [PaymentStep(a, Some(order), false, None), VerifyStep(v.s.pay.nextOrder, payment, true)], p,
            [Look(h, PaidMessage(PaidFor(v, a, order, payment)), a), Claim(h, false, None)], end);
  }

  /* ---- the seats of a cancelled booking can be sold again ---- */

  /** A row of another owner does not overlap the booking's row on the same seat. */
  lemma OtherRowFits(locks: LockTable, seg: Segment, i: nat, j: nat)
    requires NoOverlap(locks) && i in locks && j in locks && i != j && locks[i].Active() && locks[j].Active() && locks[i].key == locks[j].key
    requires locks[j].seg == seg
    ensures !locks[i].seg.Overlaps(seg)
  {
  }

  /** With the rows of the booking gone, no active row is in the way of its seats. */
  lemma NothingBlocks(s: System, s': System, id: int)
    requires SeatInv(s) && id in s.bookings && s.bookings[id].status == SeatsHeld && RowsWithout(s, s', id)
    ensures var b := s.bookings[id]; Blocked(s'.inv.locks, b.schedule, IdSet(b.seats), b.seg) == {}
  {
    var b := s.bookings[id];
    assert NoOverlap(s.inv.locks);
    hide SeatInv, NoOverlap;
    forall i | i in s'.inv.locks && s'.inv.locks[i].key.schedule == b.schedule && s'.inv.locks[i].key.seat in b.seats
               && s'.inv.locks[i].Active()
      ensures !s'.inv.locks[i].seg.Overlaps(b.seg) {
      var j := OwnRowOn(s, id, s'.inv.locks[i].key.seat);
      OtherRowFits(s.inv.locks, b.seg, i, j);
    }
  }

  lemma FreedIsBookable(db: Db, user: int, schedule: int, seats: seq<int>, seg: Segment)
    requires Invariant(db) && SeatRequest(user, schedule, seats, seg) && Gate(db, schedule, seats).None?
    requires Blocked(db.locks, schedule, IdSet(seats), seg) == {}
    ensures ScheduleGate(db, schedule).None? && Query.AllReportedAvailable(db, schedule, seats, seg)
  {
    Query.LockSucceedsIffReported(db, user, schedule, seats, seg);
    LockEffect(db, user, schedule, seats, seg);
    hide LockSeats, Blocked, Query.AllReportedAvailable, SeatRequest;
  }

  lemma FreedIsAcquirable(redis: R.Store, b: Booking, n: Booking)
    requires Keys(b) !! redis.Keys && b.schedule == n.schedule && b.seats == n.seats && b.seg == n.seg && Distinct(n.seats)
    ensures R.CanAcquire(redis, KeyList(n))
  {
    SagaEndings.SameKeys(b, n);
    KeyListHasKeys(n);
    hide Keys;
  }

  lemma FreedPrice(s: System, id: int)
    requires MoneyInv(s) && id in s.bookings
    ensures TotalPrice(s.inv.seats, s.bookings[id].schedule, s.bookings[id].seats) == s.bookings[id].amount
  {
    assert MoneySound(s, id);
  }

  /** The request of a booking asked for again, by whomever. */
  predicate SameSeats(b: Booking, q: Request) {
    b.schedule == q.schedule && b.seats == q.seats && b.seg == q.seg
  }

  lemma FreedIsReady(s: System, s': System, id: int, q: Request, token: int)
    requires SeatInv(s) && id in s.bookings && s.bookings[id].status == SeatsHeld && WasCancelled(s, s', id)
    requires SeatInv(s') && MoneyInv(s') && q.Acceptable() && SameSeats(s.bookings[id], q)
    ensures Bookable(s', q) && R.CanAcquire(s'.redis, KeyList(NewBooking(s', q, token)))
    ensures TotalPrice(s'.inv.seats, q.schedule, q.seats) == s.bookings[id].amount
  {
    NothingBlocks(s, s', id);
    CancelledIsBare(s, s', id);
    FreedGate(s, s', id);
    FreedPrice(s', id);
    hide SeatInv, MoneyInv, Keys, Gate, Blocked, TakesOnlyOwn, ScheduleGate, Query.AllReportedAvailable, KeyList, R.CanAcquire, TotalPrice, Distinct;
    FreedIsBookable(s'.inv, q.user, q.schedule, q.seats, q.seg);
    FreedIsAcquirable(s'.redis, s'.bookings[id], NewBooking(s', q, token));
  }

  lemma FreedGate(s: System, s': System, id: int)
    requires SeatInv(s) && id in s.bookings && s.bookings[id].status == SeatsHeld && WasCancelled(s, s', id) && SeatInv(s')
    ensures Gate(s'.inv, s.bookings[id].schedule, s.bookings[id].seats).None? && Invariant(s'.inv)
  {
    assert BookingSound(s, id);
    GateDependsOnFrame(s.inv, s'.inv, s.bookings[id].schedule, s.bookings[id].seats);
    hide Gate, Invariant;
  }

  /* ---- the run ---- */

  function DoubleSalePath(w: World, r: Request, token: int, d: int): seq<Step> {
    [Start(r, token), HoldStep(w.s.nextBooking, false, None)] + CancelSteps(w.s.nextBooking, r.user, d)
  }

  /** What the second request needs: it is not the first one again, and the gateway gives its order and payment new ids. */
  ghost predicate Another(w: World, r: Request, q: Request, order: string, payment: string, order': string, payment': string) {
    && q.Acceptable() && q.schedule == r.schedule && q.seats == r.seats && q.seg == r.seg
    && q.key !in w.s.requests && q.key != r.key
    && order' != "" && order' != order && !Pay.UsesGatewayOrder(w.s.pay, order')
    && payment' != "" && payment' != payment && (forall o :: o in w.s.pay.orders ==> w.s.pay.orders[o].gatewayPayment != payment')
  }

  lemma AnotherIsReady(w: World, u: World, r: Request, q: Request, token: int, order: string, payment: string,
                       order': string, payment': string, h: int)
    requires Bookable(u.s, q) && R.CanAcquire(u.s.redis, KeyList(NewBooking(u.s, q, token)))
    requires TotalPrice(u.s.inv.seats, q.schedule, q.seats) > 0
    requires u.s.pay == w.s.pay && u.s.busy == w.s.busy && u.seen == w.seen && h !in w.seen && u.s.requests == w.s.requests + {r.key}
    requires SeatsClear(w.s, r) && Another(w, r, q, order, payment, order', payment')
    ensures Ready(u, q, token, order', payment', h)
  {
    hide Bookable, R.CanAcquire, KeyList, NewBooking, TotalPrice, Pay.UsesGatewayOrder, SeatRequest, Clear;
  }

  lemma AnotherMeans(w: World, r: Request, q: Request, order: string, payment: string, order': string, payment': string)
    requires Another(w, r, q, order, payment, order', payment')
    ensures q.Acceptable() && q.schedule == r.schedule && q.seats == r.seats && q.seg == r.seg
  {
    hide SeatRequest;
  }

  lemma CancelledKeeps(s: System, s': System, id: int)
    requires WasCancelled(s, s', id)
    ensures s'.pay == s.pay && s'.requests == s.requests && s'.busy == s.busy
  {
    hide TakesOnlyOwn, SameFrame;
  }

  lemma FreedForAnother(w: World, w2: World, u: World, r: Request, q: Request, token: int, order: string, payment: string,
                        order': string, payment': string, h: int)
    requires Inv(w2) && Inv(u) && u == w2.(s := u.s) && w2.s.pay == w.s.pay && w2.s.busy == w.s.busy && w2.seen == w.seen
    requires var id := w.s.nextBooking;
      && id in w2.s.bookings && w2.s.bookings[id].status == SeatsHeld && For(w2.s.bookings[id], r) && w2.s.bookings[id].amount > 0
      && WasCancelled(w2.s, u.s, id)
    requires w2.s.requests == w.s.requests + {r.key} && SeatsClear(w.s, r) && h !in w.seen
    requires Another(w, r, q, order, payment, order', payment')
    ensures Ready(u, q, token, order', payment', h)
  {
    var id := w.s.nextBooking;
    assert SameSeats(w2.s.bookings[id], q) by { AnotherMeans(w, r, q, order, payment, order', payment'); }
    hide *;
    PartsOfInv(w2);
    PartsOfInv(u);
    AnotherMeans(w, r, q, order, payment, order', payment');
    CancelledKeeps(w2.s, u.s, id);
    FreedIsReady(w2.s, u.s, id, q, token);
    AnotherIsReady(w, u, r, q, token, order, payment, order', payment', h);
  }

  lemma ServedMeans(u: World, v: World, b: int, q: Request, order: string, payment: string)
    requires Served(u, v, b, q, order, payment)
    ensures Inv(v) && v.seen == u.seen && b in v.s.bookings && v.s.bookings[b].status == Confirmed && IsCaptured(v.s, b)
    ensures v.s.bookings[b].schedule == q.schedule && v.s.bookings[b].seats == q.seats && v.s.bookings[b].seg == q.seg
  {
    hide Inv, OthersKept;
  }

  /** Another request that is served meanwhile takes nothing from what the payment needs. */
  lemma StillPayable(u: World, v: World, a: int, b: int, q: Request, order: string, payment: string, order': string, payment': string)
    requires Payable(u, a, order, payment) && Served(u, v, b, q, order', payment') && a != b && order' != order && payment' != payment
    ensures Payable(v, a, order, payment) && v.s.bookings[a] == u.s.bookings[a]
  {
    PartsOfInv(v);
    hide Inv, SeatInv, Sound, Pay.Balanced, MoneySound, KeysFree;
  }

  lemma CancelledTrip(s: System, s': System, id: int, r: Request)
    requires WasCancelled(s, s', id) && id in s.bookings && For(s.bookings[id], r)
    ensures id in s'.bookings && s'.bookings[id].schedule == r.schedule && s'.bookings[id].seats == r.seats && s'.bookings[id].seg == r.seg
  {
    hide TakesOnlyOwn, SameFrame;
  }

  /** The first booking is cancelled, the second is served with the same seats; the first can still be paid. */
  lemma SoldMeanwhile(w: World, r: Request, q: Request, token: int, token': int, order: string, payment: string,
                      order': string, payment': string, h: int, d: int) returns (u: World, v: World)
    requires Inv(w) && Ready(w, r, token, order, payment, h) && d !in w.drops && Another(w, r, q, order, payment, order', payment')
    ensures IsRun(w, DoubleSalePath(w, r, token, d), u) && IsRun(u, Path(u, q, token', order', payment', h), v)
    ensures var (a, b) := (w.s.nextBooking, u.s.nextBooking);
      && Payable(v, a, order, payment) && a != b && v.seen == w.seen && a in v.s.bookings && b in v.s.bookings
      && v.s.bookings[b].status == Confirmed && IsCaptured(v.s, b)
      && v.s.bookings[a].schedule == r.schedule && v.s.bookings[a].seats == r.seats && v.s.bookings[a].seg == r.seg
      && v.s.bookings[b].schedule == r.schedule && v.s.bookings[b].seats == r.seats && v.s.bookings[b].seg == r.seg
  {
    var a := w.s.nextBooking;
    assert DoubleSalePath(w, r, token, d) == [Start(r, token), HoldStep(a, false, None)] + CancelSteps(a, r.user, d);
    assert SeatsClear(w.s, r) && order' != order && payment' != payment;
    hide *;
    ReadyMeans(w, r, token, order, payment, h);
    AnotherMeans(w, r, q, order, payment, order', payment');
    var w2;
    w2, u := HeldThenCancelled(w, r, token, order, payment, h, d);
    FreedForAnother(w, w2, u, r, q, token', order, payment, order', payment', h);
    CancelledIsPayable(w2, u, a, order, payment);
    CancelledTrip(w2.s, u.s, a, r);
    NewBookingId(u);
    v := ConfirmedRun(u, q, token', order', payment', h);
    ServedMeans(u, v, u.s.nextBooking, q, order', payment');
    StillPayable(u, v, a, u.s.nextBooking, q, order, payment, order', payment');
  }

  /**
   From every state that keeps the invariant and in which a request is ready: the booking is locked, cancelled in time, its
   seats are sold to a second booking, and the late PAYMENT_PENDING write revives it. Both are CONFIRMED and paid for in the end.
   */
  lemma DoubleSaleRun(w: World, r: Request, q: Request, token: int, token': int, order: string, payment: string,
                      order': string, payment': string, h: int, d: int) returns (u: World, v: World, end: World)
    requires Inv(w) && Ready(w, r, token, order, payment, h) && d !in w.drops && Another(w, r, q, order, payment, order', payment')
    ensures w.s.nextBooking in v.s.bookings
    ensures IsRun(w, DoubleSalePath(w, r, token, d) + Path(u, q, token', order', payment', h)
                     + SecondSaleSteps(v, w.s.nextBooking, order, payment, h), end)
    ensures SoldTwice(end.s, w.s.nextBooking, u.s.nextBooking)
    ensures IsCaptured(end.s, w.s.nextBooking) && IsCaptured(end.s, u.s.nextBooking)
  {
    hide *;
    ReadyMeans(w, r, token, order, payment, h);
    u, v := SoldMeanwhile(w, r, q, token, token', order, payment, order', payment', h, d);
    end := SecondSale(v, w.s.nextBooking, u.s.nextBooking, order, payment, h);
    RunThen(w, DoubleSalePath(w, r, token, d), u, Path(u, q, token', order', payment', h), v);
    RunThen(w, DoubleSalePath(w, r, token, d) + Path(u, q, token', order', payment', h), v,
            SecondSaleSteps(v, w.s.nextBooking, order, payment, h), end);
  }
}
