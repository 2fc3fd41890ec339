/** The protocol does what it is for: undisturbed, an acceptable request ends in a confirmed booking. */
module SagaProgress {
  import opened Options
  import opened Inventory
  import opened InventoryInvariants
  import opened InventoryRoundTrips
  import opened BookingSaga
  import opened SagaMoney
  import opened SagaRuns
  import opened SagaSeats
  import opened SagaSteps
  import opened SagaTheorems
  import Pay = Payments
  import R = RedisLocks

  /** Seats available and their rows not held, keys free, request new, something to pay, and a gateway that assigns new ids. */
  ghost predicate Ready(w: World, r: Request, token: int, order: string, payment: string, h: int) {
    && Bookable(w.s, r) && R.CanAcquire(w.s.redis, KeyList(NewBooking(w.s, r, token))) && r.key !in w.s.requests
    && TotalPrice(w.s.inv.seats, r.schedule, r.seats) > 0
    && order != "" && !Pay.UsesGatewayOrder(w.s.pay, order)
    && payment != "" && (forall o :: o in w.s.pay.orders ==> w.s.pay.orders[o].gatewayPayment != payment)
    && h !in w.seen && SeatsClear(w.s, r)
  }

  /** No other transaction holds a row of the requested seats. */
  predicate SeatsClear(s: System, r: Request) {
    Clear(r.schedule, r.seats, s.busy.calls) && Clear(r.schedule, r.seats, s.busy.unlocks)
  }

  /** The booking of a request. */
  predicate For(b: Booking, r: Request) {
    b.user == r.user && b.schedule == r.schedule && b.seats == r.seats && b.seg == r.seg
  }

  lemma StartWorks(w: World, r: Request, token: int)
    requires SeatInv(w.s) && Bookable(w.s, r) && R.CanAcquire(w.s.redis, KeyList(NewBooking(w.s, r, token))) && r.key !in w.s.requests
    ensures Next(w, Start(r, token)).creating == w.creating[w.s.nextBooking := ToHold]
    ensures var s' := Next(w, Start(r, token)).s;
      && s'.nextBooking == w.s.nextBooking + 1 && s'.inv == w.s.inv && s'.pay == w.s.pay && s'.busy == w.s.busy
      && s'.logs == w.s.logs[w.s.nextBooking := HELD_LOG] && s'.requests == w.s.requests + {r.key}
      && s'.bookings == w.s.bookings[w.s.nextBooking := NewBooking(w.s, r, token)]
  {
    hide SeatInv, Bookable, R.CanAcquire, R.Acquired, KeyList, TotalPrice;
  }

  /** The seats that were available when the booking started are still there for the lock. */
  lemma HoldWorks(w: World, id: int, gateway: Option<string>)
    requires Enabled(w, HoldStep(id, false, gateway)) && SeatInv(w.s) && w.s.bookings[id].status == Pending && CallClear(w.s, id)
    requires var b := w.s.bookings[id];
      Gate(w.s.inv, b.schedule, b.seats).None? && Blocked(w.s.inv.locks, b.schedule, IdSet(b.seats), b.seg) == {}
    ensures Next(w, HoldStep(id, false, gateway)).creating == w.creating[id := ToPay]
    ensures var s' := Next(w, HoldStep(id, false, gateway)).s;
      && s'.pay == w.s.pay && s'.logs == w.s.logs && s'.busy == w.s.busy && s'.requests == w.s.requests
      && s'.bookings == w.s.bookings[id := w.s.bookings[id].(status := SeatsHeld, base := w.s.inv.nextId)]
  {
    var b := w.s.bookings[id];
    LockUnderEffect(w.s.inv, w.s.busy.calls, b.user, b.schedule, b.seats, b.seg);
    LockEffect(w.s.inv, b.user, b.schedule, b.seats, b.seg);
    hide SeatInv, LockUnder, LockSeats, Abandon, WithInventory, Gate, Blocked;
    HoldCases(w.s, id, false, gateway);
  }

  lemma PaymentWorks(w: World, id: int, order: string, gateway: Option<string>)
    requires Enabled(w, PaymentStep(id, Some(order), false, gateway)) && Pay.LedgerInv(w.s.pay) && id > 0
    requires Pay.PaymentKey(id) !in w.s.pay.done
    requires w.s.bookings[id].user > 0 && w.s.bookings[id].amount > 0 && !Pay.UsesGatewayOrder(w.s.pay, order)
    ensures OrderArrives(w.s, id, Some(order), false)
    ensures var (s', o) := (Next(w, PaymentStep(id, Some(order), false, gateway)).s, w.s.pay.nextOrder);
      && s' == w.s.(bookings := s'.bookings, logs := s'.logs, pay := s'.pay)
      && s'.bookings == w.s.bookings[id := w.s.bookings[id].(status := PaymentPending, order := o)]
      && s'.pay.orders == w.s.pay.orders[o := Pay.Order(id, w.s.bookings[id].user, w.s.bookings[id].amount, order, "", Pay.Created, 0)]
      && o > 0 && o !in w.s.pay.orders && s'.pay.events == w.s.pay.events && s'.pay.refunds == w.s.pay.refunds
      && s'.pay.done == w.s.pay.done[Pay.PaymentKey(id) := o]
  {
    Pay.OrdersNumbered(w.s.pay);
    hide Abandon, Pay.UsesGatewayOrder, Pay.LedgerInv;
  }

  lemma KeyUnused(s: System, id: int)
    requires MoneyInv(s) && id in s.bookings && s.bookings[id].status == SeatsHeld
    ensures Pay.LedgerInv(s.pay) && Pay.PaymentKey(id) !in s.pay.done
  {
    assert MoneySound(s, id);
  }

  lemma VerifyWorks(w: World, o: int, payment: string)
    requires o in w.s.pay.orders && w.s.pay.orders[o].status == Pay.Created
    requires forall p :: p in w.s.pay.orders && p != o ==> w.s.pay.orders[p].gatewayPayment != payment
    ensures var (s', row) := (Next(w, VerifyStep(o, payment, true)).s, w.s.pay.orders[o]);
      && s' == w.s.(pay := s'.pay) && s'.pay.refunds == w.s.pay.refunds && s'.pay.done == w.s.pay.done
      && s'.pay.orders == w.s.pay.orders[o := row.(gatewayPayment := payment, status := Pay.Captured, version := row.version + 1)]
      && Pay.Event(row.booking, o, row.gatewayOrder, payment, row.amount, Pay.Captured) in s'.pay.events
  {
  }

  lemma ClaimWorks(w: World, h: int, id: int, e: Pay.Event)
    requires h !in w.seen && Interested(w.s, PaidMessage(e), id)
    ensures var seen := Next(w, Look(h, PaidMessage(e), id));
      && seen.s == w.s && Enabled(seen, Claim(h, false, None))
      && var s' := Next(seen, Claim(h, false, None)).s;
      id in s'.bookings && s'.bookings[id] == w.s.bookings[id].(status := Confirmed, version := w.s.bookings[id].version + 1)
  {
    hide ConfirmUnder, WithInventory, R.ForceReleased;
  }

  function PaidEvent(w: World, r: Request, order: string, payment: string): Pay.Event {
    Pay.Event(w.s.nextBooking, w.s.pay.nextOrder, order, payment, TotalPrice(w.s.inv.seats, r.schedule, r.seats), Pay.Captured)
  }

  function Path(w: World, r: Request, token: int, order: string, payment: string, h: int): seq<Step> {
    var (id, o) := (w.s.nextBooking, w.s.pay.nextOrder);
    [Start(r, token), HoldStep(id, false, None), PaymentStep(id, Some(order), false, None), VerifyStep(o, payment, true),
     Look(h, PaidMessage(PaidEvent(w, r, order, payment)), id), Claim(h, false, None)]
  }

  /** A booking whose seats are free for it. */
  ghost predicate ReadyToHold(s: System, id: int, r: Request, amount: int) {
    && id > 0 && id in s.bookings && s.bookings[id].status == Pending && r.user > 0
    && For(s.bookings[id], r) && s.bookings[id].amount == amount && s.bookings[id].order == 0 && s.bookings[id].version == 0
    && Gate(s.inv, s.bookings[id].schedule, s.bookings[id].seats).None?
    && Blocked(s.inv.locks, s.bookings[id].schedule, IdSet(s.bookings[id].seats), s.bookings[id].seg) == {}
  }

  lemma NewBookingIsReady(s: System, s': System, r: Request, token: int)
    requires s.nextBooking > 0 && r.user > 0 && s'.inv == s.inv && s'.bookings == s.bookings[s.nextBooking := NewBooking(s, r, token)]
    requires Gate(s.inv, r.schedule, r.seats).None? && Blocked(s.inv.locks, r.schedule, IdSet(r.seats), r.seg) == {}
    ensures ReadyToHold(s', s.nextBooking, r, TotalPrice(s.inv.seats, r.schedule, r.seats))
  {
    hide Gate, Blocked, TotalPrice;
  }

  lemma InvariantOf(w: World)
    requires Inv(w)
    ensures SeatInv(w.s) && Invariant(w.s.inv) && w.s.nextBooking > 0
  {
  }

  lemma RequestUser(r: Request)
    requires SeatRequest(r.user, r.schedule, r.seats, r.seg)
    ensures r.user > 0
  {
  }

  /** No booking but this one has changed. */
  ghost predicate OthersKept(s: System, s': System, id: int) {
    forall c :: c in s.bookings && c != id ==> c in s'.bookings && s'.bookings[c] == s.bookings[c]
  }

  lemma OthersKeptBoth(a: System, b: System, c: System, id: int)
    requires OthersKept(a, b, id) && OthersKept(b, c, id)
    ensures OthersKept(a, c, id)
  {
  }

  lemma Started(w: World, r: Request, token: int)
    requires Inv(w) && Bookable(w.s, r) && R.CanAcquire(w.s.redis, KeyList(NewBooking(w.s, r, token))) && r.key !in w.s.requests
    ensures var w1 := Next(w, Start(r, token));
      && Inv(w1) && w1.s.pay == w.s.pay && w1.s.busy == w.s.busy && w1 == w.(s := w1.s, creating := w.creating[w.s.nextBooking := ToHold])
      && ReadyToHold(w1.s, w.s.nextBooking, r, TotalPrice(w.s.inv.seats, r.schedule, r.seats))
      && w1.s.requests == w.s.requests + {r.key} && w1.s.nextBooking == w.s.nextBooking + 1 && OthersKept(w.s, w1.s, w.s.nextBooking)
  {
    hide Inv, SeatInv, MoneyInv, Bookable, Begin, TotalPrice, R.CanAcquire, KeyList, NewBooking, ReadyToHold, Gate, Blocked;
    InvariantOf(w);
    AcceptableRequest(w.s, r);
    RequestUser(r);
    BookableMeans(w.s, r);
    StartWorks(w, r, token);
    NewBookingIsReady(w.s, Next(w, Start(r, token)).s, r, token);
    StepKeepsInv(w, Start(r, token));
  }

  /** Start and hold. */
  lemma Held(w: World, r: Request, token: int, order: string, payment: string, h: int) returns (w2: World)
    requires Inv(w) && Ready(w, r, token, order, payment, h)
    ensures var path := Path(w, r, token, order, payment, h);
      TwoTimely(w, path[0], path[1]) && w2 == Next(Next(w, path[0]), path[1])
    ensures Inv(w2) && w2.s.pay == w.s.pay && w2.s.busy == w.s.busy && w2 == w.(s := w2.s, creating := w.creating[w.s.nextBooking := ToPay])
    ensures var id := w.s.nextBooking;
      && id > 0 && id in w2.s.bookings && w2.s.bookings[id].status == SeatsHeld && For(w2.s.bookings[id], r) && r.user > 0
      && w2.s.bookings[id].amount == TotalPrice(w.s.inv.seats, r.schedule, r.seats)
      && w2.s.bookings[id].order == 0 && w2.s.bookings[id].version == 0
      && w2.s.requests == w.s.requests + {r.key} && OthersKept(w.s, w2.s, id)
  {
    hide SeatInv, MoneyInv, TasksSound, Numbered, Untouched, Bookable, Begin, Hold, TotalPrice, R.CanAcquire, Gate, Blocked, KeyList, NewBooking;
    var id := w.s.nextBooking;
    Started(w, r, token);
    var w1 := Next(w, Start(r, token));
    HoldWorks(w1, id, None);
    StepKeepsInv(w1, HoldStep(id, false, None));
    w2 := Next(w1, HoldStep(id, false, None));
    OthersKeptBoth(w.s, w1.s, w2.s, id);
  }

  /** Payment order and capture. */
  lemma Captured(w: World, w2: World, id: int, order: string, payment: string) returns (w4: World)
    requires Inv(w2) && id > 0 && id in w2.s.bookings && w2.s.bookings[id].status == SeatsHeld
    requires id in w2.creating && w2.creating[id] == ToPay
    requires w2.s.bookings[id].user > 0 && w2.s.bookings[id].amount > 0 && order != "" && payment != ""
    requires !Pay.UsesGatewayOrder(w2.s.pay, order)
    requires forall o :: o in w2.s.pay.orders ==> w2.s.pay.orders[o].gatewayPayment != payment
    ensures var (pay, verify) := (PaymentStep(id, Some(order), false, None), VerifyStep(w2.s.pay.nextOrder, payment, true));
      TwoTimely(w2, pay, verify) && w4 == Next(Next(w2, pay), verify)
    ensures w4 == w2.(s := w4.s, creating := w2.creating - {id}) && w4.s.pay.refunds == w2.s.pay.refunds
    ensures w4.s.busy == w2.s.busy && OthersKept(w2.s, w4.s, id) && w4.s.pay.done == w2.s.pay.done[Pay.PaymentKey(id) := w2.s.pay.nextOrder]
    ensures w4.s.pay.orders == w2.s.pay.orders[w2.s.pay.nextOrder :=
      Pay.Order(id, w2.s.bookings[id].user, w2.s.bookings[id].amount, order, payment, Pay.Captured, 1)]
    ensures var b := w2.s.bookings[id]; id in w4.s.bookings && w4.s.bookings[id] == b.(status := PaymentPending, order := w2.s.pay.nextOrder)
    ensures Interested(w4.s, PaidMessage(Pay.Event(id, w2.s.pay.nextOrder, order, payment, w2.s.bookings[id].amount, Pay.Captured)), id)
  {
    hide SeatInv, MoneyInv, TasksSound, Numbered, Untouched, RequestPayment, VerifyPayment, Pay.UsesGatewayOrder, Pay.LedgerInv, OrderArrives;
    var o := w2.s.pay.nextOrder;
    KeyUnused(w2.s, id);
    PaymentWorks(w2, id, order, None);
    var w3 := Next(w2, PaymentStep(id, Some(order), false, None));
    VerifyWorks(w3, o, payment);
    w4 := Next(w3, VerifyStep(o, payment, true));
  }

  ghost predicate TwoTimely(w: World, a: Step, b: Step) {
    Enabled(w, a) && Timely(w, a) && Enabled(Next(w, a), b) && Timely(Next(w, a), b)
  }

  lemma SixSteps(w: World, path: seq<Step>, w2: World, w4: World, end: World)
    requires |path| == 6 && TwoTimely(w, path[0], path[1]) && w2 == Next(Next(w, path[0]), path[1])
    requires TwoTimely(w2, path[2], path[3]) && w4 == Next(Next(w2, path[2]), path[3])
    requires TwoTimely(w4, path[4], path[5]) && end == Next(Next(w4, path[4]), path[5])
    ensures TimelyRun(w, path, end)
  {
    hide Next, Enabled, Timely;
    assert TimelyRun(end, path[6..], end);
    TwoSteps(w4, path[4..], end, end);
    assert path[2..][2..] == path[4..] && path[2..][0] == path[2] && path[2..][1] == path[3];
    TwoSteps(w2, path[2..], w4, end);
    TwoSteps(w, path, w2, end);
  }

  lemma TwoSteps(w: World, steps: seq<Step>, mid: World, end: World)
    requires |steps| >= 2 && TwoTimely(w, steps[0], steps[1]) && mid == Next(Next(w, steps[0]), steps[1])
    requires TimelyRun(mid, steps[2..], end)
    ensures TimelyRun(w, steps, end)
  {
    hide Next, Enabled, Timely;
    assert steps[1..][1..] == steps[2..] && steps[1..][0] == steps[1];
    assert TimelyRun(Next(w, steps[0]), steps[1..], end);
  }

  /** From every reachable state, whatever other bookings are under way, a ready request can be carried to CONFIRMED. */
  lemma RequestCanBeConfirmed(w: World, r: Request, token: int, order: string, payment: string, h: int) returns (end: World)
    requires Inv(w) && Ready(w, r, token, order, payment, h)
    ensures TimelyRun(w, Path(w, r, token, order, payment, h), end)
    ensures w.s.nextBooking in end.s.bookings && end.s.bookings[w.s.nextBooking].status == Confirmed
  {
    hide Inv, Next, Enabled, Interested, TotalPrice, Bookable, R.CanAcquire, Pay.UsesGatewayOrder;
    var path := Path(w, r, token, order, payment, h);
    var id := w.s.nextBooking;
    var w2 := Held(w, r, token, order, payment, h);
    var w4 := Captured(w, w2, id, order, payment);
    ClaimWorks(w4, h, id, PaidEvent(w, r, order, payment));
    LooksAreTimely(w4, id, PaidEvent(w, r, order, payment), h);
    end := Next(Next(w4, path[4]), path[5]);
    SixSteps(w, path, w2, w4, end);
  }

  lemma LooksAreTimely(w: World, id: int, e: Pay.Event, h: int)
    requires h !in w.seen && Interested(w.s, PaidMessage(e), id) && CallClear(w.s, id)
    ensures TwoTimely(w, Look(h, PaidMessage(e), id), Claim(h, false, None))
  {
    hide CallClear;
  }
}
