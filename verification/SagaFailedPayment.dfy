/** A payment whose verification fails: the message reaches the failure handler, and the booking ends with nothing. */
module SagaFailedPayment {
  import opened Options
  import opened Inventory
  import opened InventoryRoundTrips
  import opened BookingSaga
  import SagaEndings
  import opened SagaMoney
  import opened SagaProgress
  import opened SagaRuns
  import opened SagaRunTools
  import opened SagaSeats
  import opened SagaSteps
  import opened SagaTheorems
  import Pay = Payments
  import R = RedisLocks

  function FailedEvent(w: World, r: Request, order: string, payment: string): Pay.Event {
    Pay.Event(w.s.nextBooking, w.s.pay.nextOrder, order, payment, TotalPrice(w.s.inv.seats, r.schedule, r.seats), Pay.Failed)
  }

  function FailurePath(w: World, r: Request, token: int, order: string, payment: string, h: int): seq<Step> {
    var (id, o) := (w.s.nextBooking, w.s.pay.nextOrder);
    [Start(r, token), HoldStep(id, false, None)] + [PaymentStep(id, Some(order), false, None), VerifyStep(o, payment, false)]
    + [Look(h, UnpaidMessage(FailedEvent(w, r, order, payment)), id), Claim(h, false, None)]
  }

  lemma VerifyRefuses(w: World, o: int, payment: string)
    requires o in w.s.pay.orders && w.s.pay.orders[o].status == Pay.Created
    requires forall p :: p in w.s.pay.orders && p != o ==> w.s.pay.orders[p].gatewayPayment != payment
    ensures var (s', row) := (Next(w, VerifyStep(o, payment, false)).s, w.s.pay.orders[o]);
      && s' == w.s.(pay := s'.pay) && Next(w, VerifyStep(o, payment, false)) == w.(s := s')
      && Pay.Event(row.booking, o, row.gatewayOrder, payment, row.amount, Pay.Failed) in s'.pay.events
  {
  }

  /** Payment order and refused verification; the failure message is on its way. */
  lemma Unverified(w2: World, id: int, order: string, payment: string) returns (w4: World)
    requires Inv(w2) && id > 0 && id in w2.s.bookings && w2.s.bookings[id].status == SeatsHeld
    requires id in w2.creating && w2.creating[id] == ToPay
    requires w2.s.bookings[id].user > 0 && w2.s.bookings[id].amount > 0 && order != "" && payment != ""
    requires !Pay.UsesGatewayOrder(w2.s.pay, order)
    requires forall o :: o in w2.s.pay.orders ==> w2.s.pay.orders[o].gatewayPayment != payment
    ensures var (pay, verify) := (PaymentStep(id, Some(order), false, None), VerifyStep(w2.s.pay.nextOrder, payment, false));
      TwoTimely(w2, pay, verify) && w4 == Next(Next(w2, pay), verify)
    ensures w4.seen == w2.seen && w4.s.busy == w2.s.busy
    ensures var b := w2.s.bookings[id]; id in w4.s.bookings && w4.s.bookings[id] == b.(status := PaymentPending, order := w2.s.pay.nextOrder)
    ensures Interested(w4.s, UnpaidMessage(Pay.Event(id, w2.s.pay.nextOrder, order, payment, w2.s.bookings[id].amount, Pay.Failed)), id)
  {
    hide SeatInv, MoneyInv, TasksSound, Numbered, Untouched, RequestPayment, VerifyPayment, Pay.UsesGatewayOrder, Pay.LedgerInv, OrderArrives;
    var o := w2.s.pay.nextOrder;
    KeyUnused(w2.s, id);
    PaymentWorks(w2, id, order, None);
    var w3 := Next(w2, PaymentStep(id, Some(order), false, None));
    VerifyRefuses(w3, o, payment);
    w4 := Next(w3, VerifyStep(o, payment, false));
  }

  /** The handler of the failure message: claim, compensation, and no refund, as nothing was captured. */
  ghost predicate GivenUp(s: System, id: int) {
    && id in s.bookings && s.bookings[id].status == Failed && Rowless(s, id) && Keyless(s, id)
    && s.bookings[id].order in s.pay.orders && s.pay.orders[s.bookings[id].order].status == Pay.Failed
    && Pay.RefundsOf(s.pay.refunds, s.bookings[id].order) == []
  }

  lemma FailedOrder(s: System, id: int, e: Pay.Event)
    requires MoneyInv(s) && Interested(s, UnpaidMessage(e), id)
    ensures id in s.bookings && s.bookings[id].status == PaymentPending && LogOf(s, id) == PAID_LOG
    ensures s.bookings[id].order in s.pay.orders && s.pay.orders[s.bookings[id].order].status == Pay.Failed
    ensures Pay.RefundsOf(s.pay.refunds, s.bookings[id].order) == []
  {
    hide Pay.RefundsOf, TotalPrice, Pay.Balanced;
    LogOfPaid(s, id);
    assert Pay.EventSound(s.pay, e);
    assert Pay.OrderSound(s.pay, s.bookings[id].order);
  }

  lemma NoRefundOfFailed(l: Pay.Ledger, key: Pay.Key, o: int, amount: int, gateway: Option<string>)
    requires o in l.orders && l.orders[o].status == Pay.Failed
    ensures Pay.CreateRefund(l, key, o, amount, gateway).0 == l
  {
  }

  lemma FailureGivesUp(s: System, id: int, e: Pay.Event, gateway: Option<string>)
    requires SeatInv(s) && MoneyInv(s) && Interested(s, UnpaidMessage(e), id) && UnlockClear(s, id)
    ensures GivenUp(PaymentFails(s, id, gateway), id)
  {
    hide SeatInv, MoneyInv, Interested, PaymentFails, Pay.CreateRefund, Pay.RefundsOf, SagaEndings.KnownLog, Vacated, Rowless, Keyless, PricesKept;
    FailedOrder(s, id, e);
    PaymentFailsEnds(s, id, gateway);
    PaymentFailsIsFailed(s, id, gateway);
    NoRefundOfFailed(s.pay, Pay.CompensationKey(id), s.bookings[id].order, s.bookings[id].amount, gateway);
    PaidIsKnown();
    SagaEndings.PaymentFailsVacates(s, id, gateway);
    VacatedIsBare(s, PaymentFails(s, id, gateway), id);
  }

  lemma PaidIsKnown()
    ensures SagaEndings.KnownLog(PAID_LOG)
  {
  }

  lemma PaymentFailsIsFailed(s: System, id: int, gateway: Option<string>)
    requires id in s.bookings
    ensures id in PaymentFails(s, id, gateway).bookings && PaymentFails(s, id, gateway).bookings[id].status == Failed
  {
    var b := s.bookings[id];
    CompensationOnly(WithBooking(s, id, b.(status := Failed, reason := OtherFailure, version := b.version + 1)), id, LogOf(s, id), gateway);
    hide CompensateAll, R.ForceReleased;
  }

  lemma VacatedIsBare(s: System, s': System, id: int)
    requires SeatInv(s) && id in s.bookings && s.bookings[id].Live() && Vacated(s, s', id) && id in s'.bookings
    requires var (b, b') := (s.bookings[id], s'.bookings[id]); b'.schedule == b.schedule && b'.seats == b.seats && b'.seg == b.seg
    ensures Rowless(s', id) && Keyless(s', id)
  {
    hide SeatInv, RowsWithout, SameFrame;
    VacatedKeepsInv(s, s', id);
    SagaEndings.SameKeys(s.bookings[id], s'.bookings[id]);
    forall i | i in s'.owner ensures s'.owner[i] != id {
      OwnerIsRowed(s', i);
    }
  }

  /**
   From every state that keeps the invariant, a ready request whose payment does not verify: the failure message is read and
   claimed, and the booking ends FAILED without a row, a key or a refund. Every step of it is timely, so all else is kept.
   */
  lemma FailedPaymentRun(w: World, r: Request, token: int, order: string, payment: string, h: int) returns (end: World)
    requires Inv(w) && Ready(w, r, token, order, payment, h)
    ensures TimelyRun(w, FailurePath(w, r, token, order, payment, h), end) && Inv(end) && GivenUp(end.s, w.s.nextBooking)
  {
    var (id, e, path) := (w.s.nextBooking, FailedEvent(w, r, order, payment), FailurePath(w, r, token, order, payment, h));
    FailureSteps(w, r, token, order, payment, h);
    PathIs(w, r, token, order, payment, h);
    ReadyMeans(w, r, token, order, payment, h);
    hide *;
    var w2 := Held(w, r, token, order, payment, h);
    ForMeans(w2.s.bookings[id], r);
    var w4 := Unverified(w2, id, order, payment);
    TwoKeepInv(w2, path[2], path[3]);
    ForIsClear(w.s, w4.s, id, r);
    end := FailureClaimed(w4, id, e, h);
    SixSteps(w, path, w2, w4, end);
    RunKeepsInv(w, path, end);
  }

  lemma FailureSteps(w: World, r: Request, token: int, order: string, payment: string, h: int)
    ensures var (id, e, path) := (w.s.nextBooking, FailedEvent(w, r, order, payment), FailurePath(w, r, token, order, payment, h));
      && |path| == 6 && path[0] == Start(r, token) && path[1] == HoldStep(id, false, None)
      && path[2] == PaymentStep(id, Some(order), false, None) && path[3] == VerifyStep(w.s.pay.nextOrder, payment, false)
      && path[4] == Look(h, UnpaidMessage(e), id) && path[5] == Claim(h, false, None)
      && e == Pay.Event(id, w.s.pay.nextOrder, order, payment, TotalPrice(w.s.inv.seats, r.schedule, r.seats), Pay.Failed)
  {
  }

  lemma FailureClaimed(v: World, id: int, e: Pay.Event, h: int) returns (end: World)
    requires Inv(v) && h !in v.seen && id in v.s.bookings && Interested(v.s, UnpaidMessage(e), id) && UnlockClear(v.s, id)
    ensures TwoTimely(v, Look(h, UnpaidMessage(e), id), Claim(h, false, None))
    ensures end == Next(Next(v, Look(h, UnpaidMessage(e), id)), Claim(h, false, None)) && GivenUp(end.s, id)
  {
    hide *;
    var (look, claim) := (Look(h, UnpaidMessage(e), id), Claim(h, false, None));
    LookIs(v, h, UnpaidMessage(e), id);
    var v1 := Next(v, look);
    FreshReadWins(v, v1, h, UnpaidMessage(e), id);
    ClaimIs(v1, h, false, None);
    FailureInTime(v, v1, h, e, id);
    PartsOfInv(v);
    FailureGivesUp(v.s, id, e, None);
    end := Next(v1, claim);
  }

  lemma FailureInTime(v: World, v1: World, h: int, e: Pay.Event, id: int)
    requires h !in v.seen && id in v.s.bookings && Interested(v.s, UnpaidMessage(e), id) && UnlockClear(v.s, id)
    requires v1 == Next(v, Look(h, UnpaidMessage(e), id)) && Enabled(v1, Claim(h, false, None))
    ensures TwoTimely(v, Look(h, UnpaidMessage(e), id), Claim(h, false, None))
    ensures Claimed(v.s, Read(UnpaidMessage(e), id, v.s.bookings[id].version), false, None) == PaymentFails(v.s, id, None)
  {
    hide UnlockClear, PaymentFails;
  }
}
