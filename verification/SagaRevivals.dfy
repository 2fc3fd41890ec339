/**
 What can become of a booking that is cancelled in time while its payment order is being created, and whose creation then
 writes PAYMENT_PENDING. Each run starts in any state that keeps the invariant and in which a request is ready.
 */
module SagaRevivals {
  import opened Options
  import opened Inventory
  import opened BookingSaga
  import SagaEndings
  import opened SagaLimits
  import opened SagaProgress
  import opened SagaRuns
  import opened SagaRunTools
  import opened SagaSeats
  import opened SagaSteps
  import opened SagaTheorems
  import opened SagaVersions
  import Pay = Payments
  import R = RedisLocks

  function RevivalPath(w: World, r: Request, token: int, d: int, order: string): seq<Step> {
    var id := w.s.nextBooking;
    [Start(r, token), HoldStep(id, false, None)] + CancelSteps(id, r.user, d) + [PaymentStep(id, Some(order), false, None)]
  }

  /** Locked, then cancelled in time; the creation is about to ask for the payment order. */
  lemma HeldThenCancelled(w: World, r: Request, token: int, order: string, payment: string, h: int, d: int) returns (w2: World, u: World)
    requires Inv(w) && Ready(w, r, token, order, payment, h) && d !in w.drops
    ensures var id := w.s.nextBooking;
      && IsRun(w, [Start(r, token), HoldStep(id, false, None)] + CancelSteps(id, r.user, d), u)
      && Inv(w2) && Inv(u) && u == w2.(s := u.s) && WasCancelled(w2.s, u.s, id)
      && w2 == w.(s := w2.s, creating := w.creating[id := ToPay]) && w2.s.pay == w.s.pay && w2.s.busy == w.s.busy
      && id > 0 && id in w2.s.bookings && w2.s.bookings[id].status == SeatsHeld && For(w2.s.bookings[id], r) && r.user > 0
      && w2.s.bookings[id].amount == TotalPrice(w.s.inv.seats, r.schedule, r.seats) && w2.s.bookings[id].user == r.user
      && w2.s.requests == w.s.requests + {r.key}
  {
    var id := w.s.nextBooking;
    hide *;
    w2 := HeldRun(w, r, token, order, payment, h);
    u := CancelInTime(w2, id, d);
    RunThen(w, [Start(r, token), HoldStep(id, false, None)], w2, CancelSteps(id, r.user, d), u);
  }

  /** The payment order of a booking that was cancelled meanwhile: it is PAYMENT_PENDING again without a seat or key. */
  lemma RevivalRun(w: World, r: Request, token: int, order: string, payment: string, h: int, d: int) returns (end: World)
    requires Inv(w) && Ready(w, r, token, order, payment, h) && d !in w.drops
    ensures var id := w.s.nextBooking;
      && IsRun(w, RevivalPath(w, r, token, d, order), end) && !SeatInv(end.s)
      && id in end.s.bookings && end.s.bookings[id].status == PaymentPending && Rowless(end.s, id) && Keyless(end.s, id)
  {
    hide Inv, SeatInv, Bookable, R.CanAcquire, TotalPrice, Pay.UsesGatewayOrder, Next, CancelSteps, WasCancelled, Enabled, Rowless, Keyless;
    var id := w.s.nextBooking;
    var w2, u := HeldThenCancelled(w, r, token, order, payment, h, d);
    PaymentRevives(w2, u, id, order);
    end := Next(u, PaymentStep(id, Some(order), false, None));
    OneMore(w, [Start(r, token), HoldStep(id, false, None)] + CancelSteps(id, r.user, d), u, PaymentStep(id, Some(order), false, None));
  }

  /** A cancelled booking whose payment order is still to be asked for. */
  lemma PaymentRevives(w: World, u: World, id: int, order: string)
    requires Inv(w) && Inv(u) && id > 0 && id in w.s.bookings && w.s.bookings[id].status == SeatsHeld
    requires w.s.bookings[id].user > 0 && w.s.bookings[id].amount > 0 && !Pay.UsesGatewayOrder(w.s.pay, order)
    requires id in u.creating && u.creating[id] == ToPay && WasCancelled(w.s, u.s, id)
    ensures Enabled(u, PaymentStep(id, Some(order), false, None))
    ensures var s' := Next(u, PaymentStep(id, Some(order), false, None)).s;
      !SeatInv(s') && id in s'.bookings && s'.bookings[id].status == PaymentPending && Rowless(s', id) && Keyless(s', id)
  {
    hide *;
    PartsOfInv(w);
    PartsOfInv(u);
    CancelledIsBare(w.s, u.s, id);
    CancelledOnce(w.s, u.s, id);
    KeyUnused(w.s, id);
    PaymentStepIs(u, id, order);
    PaymentWorks(u, id, order, None);
    Arrived(u.s, id, order);
    PaymentWriteIsSafeIff(u.s, id, Some(order), None);
    RevivedIsBare(u.s, RequestPayment(u.s, id, Some(order), false, None), id, u.s.pay.nextOrder);
  }

  lemma PaymentStepIs(u: World, id: int, order: string)
    requires id in u.creating && u.creating[id] == ToPay && id in u.s.bookings
    ensures Enabled(u, PaymentStep(id, Some(order), false, None))
    ensures Next(u, PaymentStep(id, Some(order), false, None)).s == RequestPayment(u.s, id, Some(order), false, None)
  {
    hide RequestPayment;
  }

  lemma Arrived(s: System, id: int, order: string)
    requires id in s.bookings && OrderArrives(s, id, Some(order), false)
    ensures Pay.CreateOrder(s.pay, Pay.PaymentKey(id), id, s.bookings[id].user, s.bookings[id].amount, Some(order)).1.Ok?
  {
    hide Pay.CreateOrder;
  }

  lemma RevivedIsBare(s: System, s': System, id: int, o: int)
    requires id in s.bookings && Rowless(s, id) && Keyless(s, id) && s'.owner == s.owner && s'.redis == s.redis
    requires s'.bookings == s.bookings[id := s.bookings[id].(status := PaymentPending, order := o)]
    ensures id in s'.bookings && s'.bookings[id].status == PaymentPending && Rowless(s', id) && Keyless(s', id)
  {
    SagaEndings.SameKeys(s.bookings[id], s'.bookings[id]);
  }

  /* ---- the payment of a revived booking ---- */

  /** What the payment step asks of the state, whether or not the booking has moved. */
  ghost predicate Payable(u: World, id: int, order: string, payment: string) {
    && id > 0 && id in u.s.bookings && id in u.creating && u.creating[id] == ToPay
    && Pay.LedgerInv(u.s.pay) && Pay.PaymentKey(id) !in u.s.pay.done && u.s.bookings[id].user > 0 && u.s.bookings[id].amount > 0
    && order != "" && !Pay.UsesGatewayOrder(u.s.pay, order)
    && payment != "" && (forall o :: o in u.s.pay.orders ==> u.s.pay.orders[o].gatewayPayment != payment)
  }

  function PaidFor(u: World, id: int, order: string, payment: string): Pay.Event
    requires id in u.s.bookings
  {
    Pay.Event(id, u.s.pay.nextOrder, order, payment, u.s.bookings[id].amount, Pay.Captured)
  }

  /** PAYMENT_PENDING with a captured order; seats and keys are as before. */
  ghost predicate PaidUp(u: World, p: World, id: int, order: string, payment: string)
    requires id in u.s.bookings
  {
    var o := u.s.pay.nextOrder;
    && p == u.(s := p.s, creating := u.creating - {id}) && p.s == u.s.(bookings := p.s.bookings, logs := p.s.logs, pay := p.s.pay)
    && p.s.bookings == u.s.bookings[id := u.s.bookings[id].(status := PaymentPending, order := o)]
    && o !in u.s.pay.orders && o in p.s.pay.orders && p.s.pay.orders[o].status == Pay.Captured
    && (forall c :: c in u.s.pay.orders ==> c in p.s.pay.orders && p.s.pay.orders[c] == u.s.pay.orders[c])
    && Interested(p.s, PaidMessage(PaidFor(u, id, order, payment)), id)
  }

  lemma PaymentIs(u: World, id: int, order: string)
    requires Enabled(u, PaymentStep(id, Some(order), false, None))
    ensures var p := Next(u, PaymentStep(id, Some(order), false, None)); p == u.(s := p.s, creating := u.creating - {id})
  {
    hide RequestPayment;
  }

  lemma VerifyIs(u: World, o: int, payment: string)
    ensures var p := Next(u, VerifyStep(o, payment, true)); p == u.(s := p.s)
  {
    hide VerifyPayment;
  }

  lemma PaysUp(u: World, id: int, order: string, payment: string) returns (p: World)
    requires Payable(u, id, order, payment)
    ensures IsRun(u, [PaymentStep(id, Some(order), false, None), VerifyStep(u.s.pay.nextOrder, payment, true)], p)
    ensures PaidUp(u, p, id, order, payment)
  {
    hide Next, Pay.UsesGatewayOrder, Pay.LedgerInv, OrderArrives, Interested;
    var o := u.s.pay.nextOrder;
    PaymentWorks(u, id, order, None);
    PaymentIs(u, id, order);
    var u1 := Next(u, PaymentStep(id, Some(order), false, None));
    VerifyWorks(u1, o, payment);
    VerifyIs(u1, o, payment);
    p := Next(u1, VerifyStep(o, payment, true));
    TwoRun(u, PaymentStep(id, Some(order), false, None), VerifyStep(o, payment, true));
    PaidIsInteresting(u, p, id, order, payment);
  }

  lemma PaidIsInteresting(u: World, p: World, id: int, order: string, payment: string)
    requires id in u.s.bookings && order != "" && payment != "" && u.s.pay.nextOrder > 0
    requires p.s.bookings == u.s.bookings[id := u.s.bookings[id].(status := PaymentPending, order := u.s.pay.nextOrder)]
    requires PaidFor(u, id, order, payment) in p.s.pay.events
    ensures Interested(p.s, PaidMessage(PaidFor(u, id, order, payment)), id)
  {
  }

  lemma CancelledIsPayable(w: World, u: World, id: int, order: string, payment: string)
    requires Inv(w) && id > 0 && id in w.s.bookings && w.s.bookings[id].status == SeatsHeld && WasCancelled(w.s, u.s, id)
    requires id in u.creating && u.creating[id] == ToPay && w.s.bookings[id].user > 0 && w.s.bookings[id].amount > 0
    requires order != "" && !Pay.UsesGatewayOrder(w.s.pay, order)
    requires payment != "" && (forall o :: o in w.s.pay.orders ==> w.s.pay.orders[o].gatewayPayment != payment)
    ensures Payable(u, id, order, payment)
  {
    KeyUnused(w.s, id);
    hide Inv, TakesOnlyOwn, Pay.UsesGatewayOrder, Pay.LedgerInv;
  }

  /* ---- a version that is lowered ---- */

  /** The run up to the claims: two cancels read, one writes in time, the booking is revived and paid, two deliveries read it. */
  function TwiceReadPath(w: World, r: Request, token: int, order: string, payment: string, h: int, g: int, d: int, c: int): seq<Step> {
    var (id, e) := (w.s.nextBooking, PaidEvent(w, r, order, payment));
    [Start(r, token), HoldStep(id, false, None)] + [LookDrop(d, r.user, id), LookDrop(c, r.user, id), DropStep(d)]
    + [PaymentStep(id, Some(order), false, None), VerifyStep(w.s.pay.nextOrder, payment, true)]
    + [Look(h, PaidMessage(e), id), Look(g, PaidMessage(e), id)]
  }

  /** Both deliveries hold the version that the booking has, and the second cancel holds the version before it. */
  ghost predicate TwiceRead(v: World, id: int, e: Pay.Event, h: int, g: int, c: int) {
    && id in v.s.bookings && v.s.bookings[id].version == 1 && h in v.seen && g in v.seen && h != g
    && v.seen[h] == Read(PaidMessage(e), id, 1) && v.seen[g] == Read(PaidMessage(e), id, 1)
    && c in v.drops && v.drops[c] == Drop(id, true, 0)
  }

  /** Two cancels have read the booking, the first has written. */
  lemma TwoCancels(w: World, id: int, d: int, c: int) returns (x: World, u: World)
    requires Inv(w) && d != c && d !in w.drops && c !in w.drops && id in w.s.bookings && w.s.bookings[id].status == SeatsHeld
    requires UnlockReaches(w.s, id)
    ensures IsRun(w, [LookDrop(d, w.s.bookings[id].user, id), LookDrop(c, w.s.bookings[id].user, id), DropStep(d)], u)
    ensures Inv(x) && Inv(u) && x.s == w.s && WasCancelled(x.s, u.s, id) && u == w.(s := u.s, drops := u.drops)
    ensures c in u.drops && u.drops[c] == Drop(id, true, 0)
  {
    hide *;
    var v := LookedForCancel(w, id, d);
    x := LookedForCancel(v, id, c);
    u := CancelledInTime(x, id, d);
    ThreeRun(w, LookDrop(d, w.s.bookings[id].user, id), LookDrop(c, w.s.bookings[id].user, id), DropStep(d));
  }

  lemma TwoDeliveries(p: World, id: int, e: Pay.Event, h: int, g: int, c: int) returns (v: World)
    requires id in p.s.bookings && Interested(p.s, PaidMessage(e), id) && p.s.bookings[id].version == 1 && h != g && h !in p.seen && g !in p.seen
    requires c in p.drops && p.drops[c] == Drop(id, true, 0)
    ensures IsRun(p, [Look(h, PaidMessage(e), id), Look(g, PaidMessage(e), id)], v) && TwiceRead(v, id, e, h, g, c)
  {
    hide Next, Enabled, Interested;
    LookIs(p, h, PaidMessage(e), id);
    var v1 := Next(p, Look(h, PaidMessage(e), id));
    LookIs(v1, g, PaidMessage(e), id);
    v := Next(v1, Look(g, PaidMessage(e), id));
    TwoRun(p, Look(h, PaidMessage(e), id), Look(g, PaidMessage(e), id));
  }

  lemma PaidUpMeans(u: World, p: World, id: int, order: string, payment: string)
    requires id in u.s.bookings && PaidUp(u, p, id, order, payment)
    ensures p.seen == u.seen && p.drops == u.drops && Interested(p.s, PaidMessage(PaidFor(u, id, order, payment)), id)
    ensures id in p.s.bookings && p.s.bookings[id].version == u.s.bookings[id].version
  {
    hide Interested;
  }

  lemma CancelledOnce(s: System, s': System, id: int)
    requires WasCancelled(s, s', id)
    ensures id in s'.bookings && s'.bookings[id] == s.bookings[id].(status := CancelledByUser, version := 1) && s'.pay == s.pay
  {
    hide TakesOnlyOwn;
  }

  /** Everything up to the payment: what it needs is there, and the second cancel has yet to write. */
  lemma CancelledOfTwo(w: World, r: Request, token: int, order: string, payment: string, h: int, d: int, c: int) returns (u: World)
    requires Inv(w) && Ready(w, r, token, order, payment, h) && d != c && d !in w.drops && c !in w.drops
    ensures var id := w.s.nextBooking;
      && IsRun(w, [Start(r, token), HoldStep(id, false, None)] + [LookDrop(d, r.user, id), LookDrop(c, r.user, id), DropStep(d)], u)
      && Payable(u, id, order, payment) && u.s.bookings[id].version == 1 && PaidFor(u, id, order, payment) == PaidEvent(w, r, order, payment)
      && u.seen == w.seen && c in u.drops && u.drops[c] == Drop(id, true, 0)
  {
    var id := w.s.nextBooking;
    PathIs(w, r, token, order, payment, h);
    ReadyMeans(w, r, token, order, payment, h);
    hide *;
    var w2 := HeldRun(w, r, token, order, payment, h);
    var x;
    x, u := TwoCancels(w2, id, d, c);
    RunThen(w, [Start(r, token), HoldStep(id, false, None)], w2, [LookDrop(d, r.user, id), LookDrop(c, r.user, id), DropStep(d)], u);
    CancelledOnce(x.s, u.s, id);
    CancelledIsPayable(x, u, id, order, payment);
    PaidForIs(u, id, order, payment);
  }

  lemma PaidForIs(u: World, id: int, order: string, payment: string)
    requires id in u.s.bookings
    ensures PaidFor(u, id, order, payment) == Pay.Event(id, u.s.pay.nextOrder, order, payment, u.s.bookings[id].amount, Pay.Captured)
  {
  }

  lemma TwiceReadRun(w: World, r: Request, token: int, order: string, payment: string, h: int, g: int, d: int, c: int) returns (v: World)
    requires Inv(w) && Ready(w, r, token, order, payment, h) && h != g && g !in w.seen && d != c && d !in w.drops && c !in w.drops
    ensures IsRun(w, TwiceReadPath(w, r, token, order, payment, h, g, d, c), v)
    ensures TwiceRead(v, w.s.nextBooking, PaidEvent(w, r, order, payment), h, g, c)
  {
    var (id, e) := (w.s.nextBooking, PaidEvent(w, r, order, payment));
    var cancelled := [Start(r, token), HoldStep(id, false, None)] + [LookDrop(d, r.user, id), LookDrop(c, r.user, id), DropStep(d)];
    ReadyMeans(w, r, token, order, payment, h);
    TwiceReadSteps(w, r, token, order, payment, h, g, d, c);
    hide *;
    var u := CancelledOfTwo(w, r, token, order, payment, h, d, c);
    PayableMeans(u, id, order, payment);
    var p := PaysUp(u, id, order, payment);
    PaidUpMeans(u, p, id, order, payment);
    v := TwoDeliveries(p, id, e, h, g, c);
    RunThen(w, cancelled, u, [PaymentStep(id, Some(order), false, None), VerifyStep(u.s.pay.nextOrder, payment, true)], p);
    RunThen(w, cancelled + [PaymentStep(id, Some(order), false, None), VerifyStep(u.s.pay.nextOrder, payment, true)], p,
            [Look(h, PaidMessage(e), id), Look(g, PaidMessage(e), id)], v);
  }

  lemma TwiceReadSteps(w: World, r: Request, token: int, order: string, payment: string, h: int, g: int, d: int, c: int)
    ensures var (id, e) := (w.s.nextBooking, PaidEvent(w, r, order, payment));
      TwiceReadPath(w, r, token, order, payment, h, g, d, c)
      == [Start(r, token), HoldStep(id, false, None)] + [LookDrop(d, r.user, id), LookDrop(c, r.user, id), DropStep(d)]
         + [PaymentStep(id, Some(order), false, None), VerifyStep(w.s.pay.nextOrder, payment, true)]
         + [Look(h, PaidMessage(e), id), Look(g, PaidMessage(e), id)]
  {
  }

  lemma PayableMeans(u: World, id: int, order: string, payment: string)
    requires Payable(u, id, order, payment)
    ensures id in u.s.bookings
  {
  }

  /**
   Both deliveries read one version and both win with it: the first confirms, the second cancel writes the version back, and
   the second turns a CANCELLED booking into a CONFIRMED one.
   */
  ghost predicate WinsTwice(v: World, id: int, h: int, g: int, c: int) {
    && h in v.seen && g in v.seen && v.seen[h] == v.seen[g] && Enabled(v, Claim(h, false, None)) && Wins(v, h)
    && var one := Next(v, Claim(h, false, None));
    && id in one.s.bookings && one.s.bookings[id].status == Confirmed
    && Enabled(one, DropStep(c)) && Lowers(one, DropStep(c), id)
    && var two := Next(one, DropStep(c));
    && id in two.s.bookings && two.s.bookings[id].status == CancelledByUser
    && Enabled(two, Claim(g, false, None)) && Wins(two, g) && two.seen[g] == v.seen[h]
    && var end := Next(two, Claim(g, false, None));
    id in end.s.bookings && end.s.bookings[id].status == Confirmed
  }

  lemma SecondWin(v: World, id: int, e: Pay.Event, h: int, g: int, c: int)
    requires TwiceRead(v, id, e, h, g, c)
    ensures WinsTwice(v, id, h, g, c)
  {
    hide Next, Enabled, Claimed, Dropped;
    ClaimIs(v, h, false, None);
    ConfirmedByClaim(v.s, id, e);
    var one := Next(v, Claim(h, false, None));
    DropIs(one, c);
    DropChanges(one.s, Drop(id, true, 0));
    var two := Next(one, DropStep(c));
    ClaimIs(two, g, false, None);
    ConfirmedByClaim(two.s, id, e);
  }

  /**
   A cancel in time, a late payment write, and a second stale cancel that has read but not written; two deliveries of the
   success message have read the version that it will write back.
   */
  lemma SecondWinRun(w: World, r: Request, token: int, order: string, payment: string, h: int, g: int, d: int, c: int) returns (v: World)
    requires Inv(w) && Ready(w, r, token, order, payment, h) && h != g && g !in w.seen && d != c && d !in w.drops && c !in w.drops
    ensures IsRun(w, TwiceReadPath(w, r, token, order, payment, h, g, d, c), v) && WinsTwice(v, w.s.nextBooking, h, g, c)
  {
    hide Inv, Ready, Next, Enabled, TwiceReadPath, PaidEvent, WinsTwice;
    v := TwiceReadRun(w, r, token, order, payment, h, g, d, c);
    SecondWin(v, w.s.nextBooking, PaidEvent(w, r, order, payment), h, g, c);
  }
}
