/** What a booking costs, what was paid for it and what was given back, in every state of the saga. */
module SagaMoney {
  import opened Options
  import opened Inventory
  import opened BookingSaga
  import opened SagaEndings
  import opened SagaSeats
  import Pay = Payments
  import R = RedisLocks

  /* ---- prices ---- */

  ghost predicate PricesKept(a: SeatTable, b: SeatTable) {
    a.Keys == b.Keys && forall k :: k in a ==> b[k].price == a[k].price
  }

  lemma {:induction false} SameTotal(a: SeatTable, b: SeatTable, schedule: int, ids: seq<int>)
    requires PricesKept(a, b)
    ensures TotalPrice(a, schedule, ids) == TotalPrice(b, schedule, ids)
  {
    if ids != [] {
      SameTotal(a, b, schedule, ids[..|ids| - 1]);
    }
  }

  lemma AnswerKeepsPrices(db: Db, schedule: int, ids: set<int>)
    requires schedule in db.schedules
    ensures PricesKept(db.seats, Answer(db, schedule, ids).0.seats)
  {
  }

  lemma LockKeepsPrices(db: Db, user: int, schedule: int, ids: seq<int>, seg: Segment)
    ensures PricesKept(db.seats, LockSeats(db, user, schedule, ids, seg).0.seats)
  {
    hide Answer, PricesKept, Blocked, NewRows;
    if Gate(db, schedule, ids).None? {
      AnswerKeepsPrices(db.(locks := db.locks + NewRows(db.nextId, schedule, ids, seg, user), nextId := db.nextId + |ids|),
                        schedule, IdSet(ids));
    }
    SamePrices(db.seats);
  }

  lemma SamePrices(seats: SeatTable)
    ensures PricesKept(seats, seats)
  {
  }

  lemma UnlockKeepsPrices(db: Db, user: int, schedule: int, ids: seq<int>, seg: Segment)
    ensures PricesKept(db.seats, UnlockSeats(db, user, schedule, ids, seg).0.seats)
  {
    hide Answer, PricesKept, Deleted;
    if Gate(db, schedule, ids).None? {
      AnswerKeepsPrices(db.(locks := Deleted(db.locks, schedule, IdSet(ids), seg, user, Locked)), schedule, IdSet(ids));
    }
    SamePrices(db.seats);
  }

  lemma ConfirmKeepsPrices(db: Db, id: int, user: int, schedule: int, ids: seq<int>, seg: Segment)
    ensures PricesKept(db.seats, ConfirmSeats(db, id, user, schedule, ids, seg).0.seats)
  {
    hide Answer, PricesKept, Inventory.Confirmed;
    if Gate(db, schedule, ids).None? {
      AnswerKeepsPrices(db.(locks := Inventory.Confirmed(db.locks, schedule, IdSet(ids), seg, user, id)), schedule, IdSet(ids));
    }
    SamePrices(db.seats);
  }

  lemma LockUnderKeepsPrices(db: Db, busy: set<SeatKey>, user: int, schedule: int, ids: seq<int>, seg: Segment)
    ensures PricesKept(db.seats, LockUnder(db, busy, user, schedule, ids, seg).0.seats)
  {
    LockKeepsPrices(db, user, schedule, ids, seg);
    SamePrices(db.seats);
    hide LockSeats, PricesKept, Gate;
  }

  lemma UnlockUnderKeepsPrices(db: Db, busy: set<SeatKey>, user: int, schedule: int, ids: seq<int>, seg: Segment)
    ensures PricesKept(db.seats, UnlockUnder(db, busy, user, schedule, ids, seg).0.seats)
  {
    UnlockKeepsPrices(db, user, schedule, ids, seg);
    SamePrices(db.seats);
    hide UnlockSeats, PricesKept, Gate;
  }

  lemma ConfirmUnderKeepsPrices(db: Db, busy: set<SeatKey>, id: int, user: int, schedule: int, ids: seq<int>, seg: Segment)
    ensures PricesKept(db.seats, ConfirmUnder(db, busy, id, user, schedule, ids, seg).0.seats)
  {
    ConfirmKeepsPrices(db, id, user, schedule, ids, seg);
    SamePrices(db.seats);
    hide ConfirmSeats, PricesKept, Gate;
  }

  lemma CancelKeepsPrices(db: Db, schedule: int, id: int, user: int)
    ensures PricesKept(db.seats, CancelSeats(db, schedule, id, user).0.seats)
  {
    hide Answer, PricesKept, CancelDeleted;
    var rows := RowsOfBooking(db.locks, schedule, id, user);
    if ScheduleGate(db, schedule).None? && rows != {} {
      AnswerKeepsPrices(db.(locks := CancelDeleted(db.locks, schedule, rows, user)), schedule, SeatIdsOf(db.locks, rows));
    }
    SamePrices(db.seats);
  }

  /* ---- the invariant ---- */

  ghost predicate KeysFree(l: Pay.Ledger, id: int, paymentToo: bool) {
    && Pay.CompensationKey(id) !in l.done && Pay.CancelKey(id) !in l.done
    && (paymentToo ==> Pay.PaymentKey(id) !in l.done)
  }

  /** The order of a booking is its own and has its amount; a refund of it, if any, is a full one. */
  ghost predicate OrderOf(s: System, id: int)
    requires id in s.bookings
  {
    var b := s.bookings[id];
    b.order != 0 ==>
      && b.order in s.pay.orders
      && s.pay.orders[b.order].booking == id && s.pay.orders[b.order].amount == b.amount
      && forall r :: r in Pay.RefundsOf(s.pay.refunds, b.order) ==> r.amount == b.amount
  }

  ghost predicate PaymentOf(s: System, id: int)
    requires id in s.bookings && OrderOf(s, id)
  {
    var b := s.bookings[id];
    match b.status
    case Pending => b.order == 0 && KeysFree(s.pay, id, true)
    case SeatsHeld => b.order == 0 && KeysFree(s.pay, id, true)
    case PaymentPending =>
      b.order != 0 && KeysFree(s.pay, id, false) && s.pay.orders[b.order].status in {Pay.Created, Pay.Captured, Pay.Failed}
    case Confirmed =>
      && b.order != 0 && KeysFree(s.pay, id, false) && s.pay.orders[b.order].status == Pay.Captured
      && s.pay.orders[b.order].gatewayOrder != "" && s.pay.orders[b.order].gatewayPayment != ""
    case Failed => true
    case CancelledByUser =>
      b.reason == UserCancelled ==> b.order != 0 && s.pay.orders[b.order].status in {Pay.Captured, Pay.RefundInitiated}
  }

  ghost predicate LogSound(s: System, id: int)
    requires id in s.bookings
  {
    match s.bookings[id].status
    case Pending => LogOf(s, id) == HELD_LOG
    case SeatsHeld => LogOf(s, id) == HELD_LOG
    case PaymentPending => LogOf(s, id) == PAID_LOG
    case Confirmed => LogOf(s, id) == PAID_LOG
    case Failed => true
    case CancelledByUser => true
  }

  ghost predicate MoneySound(s: System, id: int) {
    && id in s.bookings
    && s.bookings[id].amount == TotalPrice(s.inv.seats, s.bookings[id].schedule, s.bookings[id].seats)
    && (s.bookings[id].reason == UserCancelled ==> s.bookings[id].status == CancelledByUser)
    && OrderOf(s, id) && PaymentOf(s, id) && LogSound(s, id)
  }

  ghost predicate MoneyInv(s: System) {
    && Pay.LedgerInv(s.pay) && Pay.Balanced(s.pay)
    && (forall id :: id in s.bookings ==> MoneySound(s, id))
    && (forall id :: id !in s.bookings ==> KeysFree(s.pay, id, true))
  }

  /* ---- one booking at a time ---- */

  function BookingOfKey(key: Pay.Key): Option<int> {
    match key
    case PaymentKey(b) => Some(b)
    case CompensationKey(b) => Some(b)
    case CancelKey(b) => Some(b)
    case Other(_) => None
  }

  /** A change of the ledger that concerns one booking and at most one order, which is its own or new. */
  ghost predicate PayLocal(l: Pay.Ledger, l': Pay.Ledger, id: int, o: int) {
    && Pay.LedgerInv(l') && Pay.Balanced(l')
    && (o in l.orders ==> l.orders[o].booking == id)
    && (forall p :: p in l.orders && p != o ==> p in l'.orders && l'.orders[p] == l.orders[p])
    && (o in l.orders ==> o in l'.orders)
    && (forall p :: p != o ==> Pay.RefundsOf(l'.refunds, p) == Pay.RefundsOf(l.refunds, p))
    && (forall key :: key in l'.done && key !in l.done ==> BookingOfKey(key) == Some(id))
  }

  lemma OthersKeepMoney(s: System, s': System, id: int, o: int, c: int)
    requires MoneyInv(s) && c in s.bookings && c != id && PayLocal(s.pay, s'.pay, id, o)
    requires PricesKept(s.inv.seats, s'.inv.seats)
    requires c in s'.bookings && s'.bookings[c] == s.bookings[c] && LogOf(s', c) == LogOf(s, c)
    ensures MoneySound(s', c)
  {
    hide Pay.LedgerInv, Pay.Balanced, Pay.RefundsOf, TotalPrice;
    assert MoneySound(s, c);
    SameTotal(s.inv.seats, s'.inv.seats, s.bookings[c].schedule, s.bookings[c].seats);
  }

  /** A step of one booking keeps the money invariant if it keeps it for that booking. */
  lemma LocalMoney(s: System, s': System, id: int, o: int)
    requires MoneyInv(s) && PayLocal(s.pay, s'.pay, id, o) && PricesKept(s.inv.seats, s'.inv.seats)
    requires s'.bookings.Keys == s.bookings.Keys + {id} && forall c :: c in s.bookings && c != id ==> s'.bookings[c] == s.bookings[c]
    requires forall c :: c != id ==> LogOf(s', c) == LogOf(s, c)
    requires MoneySound(s', id)
    ensures MoneyInv(s')
  {
    hide Pay.LedgerInv, Pay.Balanced, MoneySound, PricesKept;
    forall c | c in s'.bookings ensures MoneySound(s', c) {
      if c != id {
        OthersKeepMoney(s, s', id, o, c);
      }
    }
    forall c | c !in s'.bookings ensures KeysFree(s'.pay, c, true) {
      assert KeysFree(s.pay, c, true);
    }
  }

  /* ---- the ledger calls of the saga are local ---- */

  lemma SamePayLocal(l: Pay.Ledger, id: int)
    requires Pay.LedgerInv(l) && Pay.Balanced(l)
    ensures PayLocal(l, l, id, 0)
  {
    hide Pay.Balanced, Pay.RefundsOf;
    forall p | p in l.orders ensures p != 0 {
      assert Pay.OrderSound(l, p);
    }
  }

  lemma OrderIsLocal(l: Pay.Ledger, id: int, user: int, amount: int, gateway: Option<string>)
    requires Pay.LedgerInv(l) && Pay.Balanced(l)
    ensures PayLocal(l, Pay.CreateOrder(l, Pay.PaymentKey(id), id, user, amount, gateway).0, id, l.nextOrder)
  {
    var call := Pay.PlaceOrder(Pay.PaymentKey(id), id, user, amount, gateway);
    Pay.CallKeepsLedger(l, call);
    Pay.CallKeepsBalanceIff(l, call);
    Pay.OrderEffect(l, Pay.PaymentKey(id), id, user, amount, gateway);
    Pay.OrdersNumbered(l);
    hide Pay.Balanced, Pay.RefundsOf, Pay.LedgerInv, Pay.CreateOrder;
  }

  /** A refund of the order's own amount, as every request of the saga is. */
  lemma RefundKeepsBooks(l: Pay.Ledger, key: Pay.Key, o: int, amount: int, gateway: Option<string>)
    requires Pay.LedgerInv(l) && Pay.Balanced(l) && (o != 0 && o in l.orders ==> l.orders[o].amount == amount)
    ensures var l' := Pay.CreateRefund(l, key, o, amount, gateway).0; Pay.LedgerInv(l') && Pay.Balanced(l')
  {
    var call := Pay.IssueRefund(key, o, amount, gateway);
    Pay.CallKeepsLedger(l, call);
    Pay.CallKeepsBalanceIff(l, call);
    hide Pay.Balanced, Pay.LedgerInv, Pay.CreateRefund, Pay.GatewayRefunds;
  }

  lemma RefundIsLocal(l: Pay.Ledger, id: int, key: Pay.Key, o: int, amount: int, gateway: Option<string>)
    requires Pay.LedgerInv(l) && Pay.Balanced(l) && BookingOfKey(key) == Some(id)
    requires o in l.orders ==> l.orders[o].booking == id && l.orders[o].amount == amount
    ensures PayLocal(l, Pay.CreateRefund(l, key, o, amount, gateway).0, id, o)
  {
    RefundKeepsBooks(l, key, o, amount, gateway);
    Pay.RefundEffect(l, key, o, amount, gateway);
    hide Pay.Balanced, Pay.RefundsOf, Pay.LedgerInv, Pay.CreateRefund;
    OnlyKeyAdded(l, key, o, amount, gateway);
    var l' := Pay.CreateRefund(l, key, o, amount, gateway).0;
    if l' != l {
      forall p | p != o ensures Pay.RefundsOf(l'.refunds, p) == Pay.RefundsOf(l.refunds, p) {
        Pay.OneMoreRefund(l.refunds, Pay.Refund(o, amount, gateway.value), p);
      }
    }
  }

  lemma OnlyKeyAdded(l: Pay.Ledger, key: Pay.Key, o: int, amount: int, gateway: Option<string>)
    ensures forall k :: k in Pay.CreateRefund(l, key, o, amount, gateway).0.done ==> k in l.done || k == key
  {
    hide Pay.RefundIdTaken;
  }

  /** A refund request for the order's own amount leaves a sound order, refunded or as it was. */
  lemma RefundKeepsOrder(l: Pay.Ledger, key: Pay.Key, o: int, amount: int, gateway: Option<string>)
    requires o in l.orders && forall r :: r in Pay.RefundsOf(l.refunds, o) ==> r.amount == amount
    ensures var l' := Pay.CreateRefund(l, key, o, amount, gateway).0;
      && o in l'.orders && l'.orders[o].booking == l.orders[o].booking && l'.orders[o].amount == l.orders[o].amount
      && (forall r :: r in Pay.RefundsOf(l'.refunds, o) ==> r.amount == amount)
      && (l'.orders[o] == l.orders[o] || l'.orders[o].status == Pay.RefundInitiated)
  {
    Pay.RefundEffect(l, key, o, amount, gateway);
    hide Pay.RefundsOf, Pay.CreateRefund;
    var l' := Pay.CreateRefund(l, key, o, amount, gateway).0;
    if l' != l {
      Pay.OneMoreRefund(l.refunds, Pay.Refund(o, amount, gateway.value), o);
    }
  }

  /* ---- every step ---- */

  lemma BeginParts(s: System, r: Request, token: int)
    requires Begin(s, r, token).nextBooking != s.nextBooking
    ensures var (s', id) := (Begin(s, r, token), s.nextBooking);
      && s'.pay == s.pay && s'.inv == s.inv && s'.logs == s.logs[id := HELD_LOG]
      && s'.bookings == s.bookings[id := NewBooking(s, r, token)]
  {
    hide Bookable, R.CanAcquire, R.Acquired, R.Released, KeyList, TotalPrice;
  }

  lemma NewBookingMoney(s: System, r: Request, token: int)
    requires MoneyInv(s) && s.nextBooking !in s.bookings && Begin(s, r, token).nextBooking != s.nextBooking
    ensures MoneySound(Begin(s, r, token), s.nextBooking)
  {
    hide Pay.LedgerInv, Pay.Balanced, MoneySound, Begin, TotalPrice;
    BeginParts(s, r, token);
    assert KeysFree(s.pay, s.nextBooking, true);
    NewBookingSound(Begin(s, r, token), s.nextBooking);
  }

  lemma NewBookingSound(s: System, id: int)
    requires id in s.bookings && s.bookings[id].status == Pending && s.bookings[id].order == 0 && s.bookings[id].reason == NoFailure
    requires LogOf(s, id) == HELD_LOG && KeysFree(s.pay, id, true)
    requires s.bookings[id].amount == TotalPrice(s.inv.seats, s.bookings[id].schedule, s.bookings[id].seats)
    ensures MoneySound(s, id)
  {
  }

  lemma BegunKeepsMoney(s: System, r: Request, token: int)
    requires MoneyInv(s) && s.nextBooking !in s.bookings && Begin(s, r, token).nextBooking != s.nextBooking
    ensures MoneyInv(Begin(s, r, token))
  {
    hide Pay.LedgerInv, Pay.Balanced, PayLocal, PricesKept, Begin, MoneySound, KeysFree, NewBooking;
    BeginParts(s, r, token);
    NewBookingMoney(s, r, token);
    SamePayLocal(s.pay, s.nextBooking);
    SamePrices(s.inv.seats);
    LocalMoney(s, Begin(s, r, token), s.nextBooking, 0);
  }

  /** The money invariant speaks of the ledger, the bookings, the logs and the prices. */
  lemma SameMoney(s: System, s': System)
    requires MoneyInv(s) && s'.pay == s.pay && s'.bookings == s.bookings && s'.logs == s.logs && s'.inv.seats == s.inv.seats
    ensures MoneyInv(s')
  {
    hide Pay.LedgerInv, Pay.Balanced, TotalPrice, Pay.RefundsOf;
    forall c | c in s'.bookings ensures MoneySound(s', c) {
      assert MoneySound(s, c);
    }
  }

  lemma FailedBeginParts(s: System, r: Request, token: int)
    requires Begin(s, r, token).nextBooking == s.nextBooking
    ensures var s' := Begin(s, r, token);
      s'.pay == s.pay && s'.inv == s.inv && s'.logs == s.logs && s'.bookings == s.bookings && s'.requests == s.requests
  {
    hide Bookable, R.CanAcquire, R.Acquired, R.Released, KeyList, TotalPrice;
  }

  lemma BeginKeepsMoney(s: System, r: Request, token: int)
    requires MoneyInv(s) && s.nextBooking !in s.bookings
    ensures MoneyInv(Begin(s, r, token))
  {
    hide MoneyInv, Begin;
    if Begin(s, r, token).nextBooking != s.nextBooking {
      BegunKeepsMoney(s, r, token);
    } else {
      FailedBeginParts(s, r, token);
      SameMoney(s, Begin(s, r, token));
    }
  }

  /** The ledger and the record after a creation is given up: without an order there is nothing to refund. */
  lemma AbandonKeepsLedger(s: System, id: int, gateway: Option<string>)
    requires id in s.bookings && s.bookings[id].order == 0 && KnownLog(LogOf(s, id))
    ensures var s' := Abandon(s, id, gateway);
      && s'.pay == s.pay && s'.logs == s.logs && PricesKept(s.inv.seats, s'.inv.seats)
      && s'.bookings == s.bookings[id := s.bookings[id].(status := Failed, reason := OtherFailure)]
  {
    var b := s.bookings[id];
    CompensateAllUnlocksOnce(s, id, LogOf(s, id), gateway);
    UnlockUnderKeepsPrices(s.inv, s.busy.unlocks, b.user, b.schedule, b.seats, b.seg);
    hide CompensateAll, UnlockUnder, PricesKept, R.Released;
  }

  /** The two ways a hold can end, as changes of the booking alone. */
  ghost predicate HoldOutcome(s: System, s': System, id: int) {
    && id in s.bookings && id in s'.bookings
    && s'.pay == s.pay && s'.logs == s.logs && PricesKept(s.inv.seats, s'.inv.seats)
    && s'.bookings == s.bookings[id := s'.bookings[id]]
    && (s'.bookings[id] == s.bookings[id].(status := SeatsHeld, base := s.inv.nextId)
        || s'.bookings[id] == s.bookings[id].(status := Failed, reason := OtherFailure, base := s.inv.nextId))
  }

  lemma AbandonedHold(s: System, id: int, inv: Db, gateway: Option<string>)
    requires id in s.bookings && s.bookings[id].order == 0 && KnownLog(LogOf(s, id)) && PricesKept(s.inv.seats, inv.seats)
    ensures HoldOutcome(s, Abandon(WithBooking(WithInventory(s, id, inv), id, s.bookings[id].(base := s.inv.nextId)), id, gateway), id)
  {
    hide PricesKept, Abandon, WithInventory, KnownLog;
    var locked := WithBooking(WithInventory(s, id, inv), id, s.bookings[id].(base := s.inv.nextId));
    AbandonKeepsLedger(locked, id, gateway);
    PricesCompose(s.inv.seats, inv.seats, Abandon(locked, id, gateway).inv.seats);
  }

  lemma SuccessfulHold(s: System, id: int, inv: Db)
    requires id in s.bookings && PricesKept(s.inv.seats, inv.seats)
    ensures HoldOutcome(s, WithBooking(WithInventory(s, id, inv), id, s.bookings[id].(status := SeatsHeld, base := s.inv.nextId)), id)
  {
    hide PricesKept, WithInventory;
  }

  lemma HoldCases(s: System, id: int, lost: bool, gateway: Option<string>)
    requires id in s.bookings
    ensures var b := s.bookings[id];
      var (inv, reply) := LockUnder(s.inv, s.busy.calls, b.user, b.schedule, b.seats, b.seg);
      Hold(s, id, lost, gateway) ==
        if reply.Done? && !lost then WithBooking(WithInventory(s, id, inv), id, b.(status := SeatsHeld, base := s.inv.nextId))
        else Abandon(WithBooking(WithInventory(s, id, inv), id, b.(base := s.inv.nextId)), id, gateway)
  {
    hide LockUnder, Abandon, WithInventory;
    var b := s.bookings[id];
    var held := b.(status := SeatsHeld, base := s.inv.nextId);
    assert s.bookings[id := b.(base := s.inv.nextId)][id := held] == s.bookings[id := held];
  }

  lemma HoldParts(s: System, id: int, lost: bool, gateway: Option<string>)
    requires id in s.bookings && s.bookings[id].order == 0 && KnownLog(LogOf(s, id))
    ensures HoldOutcome(s, Hold(s, id, lost, gateway), id)
  {
    hide *;
    var b := s.bookings[id];
    LockUnderKeepsPrices(s.inv, s.busy.calls, b.user, b.schedule, b.seats, b.seg);
    HoldCases(s, id, lost, gateway);
    SuccessfulHold(s, id, LockUnder(s.inv, s.busy.calls, b.user, b.schedule, b.seats, b.seg).0);
    AbandonedHold(s, id, LockUnder(s.inv, s.busy.calls, b.user, b.schedule, b.seats, b.seg).0, gateway);
  }

  lemma PricesCompose(a: SeatTable, b: SeatTable, c: SeatTable)
    ensures PricesKept(a, b) && PricesKept(b, c) ==> PricesKept(a, c)
    ensures PricesKept(b, b)
  {
  }

  lemma HoldKeepsMoney(s: System, id: int, lost: bool, gateway: Option<string>)
    requires MoneyInv(s) && id in s.bookings && s.bookings[id].status == Pending
    ensures MoneyInv(Hold(s, id, lost, gateway))
  {
    hide Pay.LedgerInv, Pay.Balanced, PayLocal, PricesKept, Hold, TotalPrice;
    assert MoneySound(s, id);
    HoldParts(s, id, lost, gateway);
    SamePayLocal(s.pay, id);
    var s' := Hold(s, id, lost, gateway);
    SameTotal(s.inv.seats, s'.inv.seats, s.bookings[id].schedule, s.bookings[id].seats);
    LocalMoney(s, s', id, 0);
  }

  lemma RequestPaymentParts(s: System, id: int, order: Option<string>, lost: bool, gateway: Option<string>)
    requires id in s.bookings && s.bookings[id].order == 0 && LogOf(s, id) == HELD_LOG
    ensures var (pay, reply) := Pay.CreateOrder(s.pay, Pay.PaymentKey(id), id, s.bookings[id].user, s.bookings[id].amount, order);
      var s' := RequestPayment(s, id, order, lost, gateway);
      && s'.pay == pay && s'.logs == s.logs[id := PAID_LOG] && PricesKept(s.inv.seats, s'.inv.seats)
      && s'.bookings == s.bookings[id := s'.bookings[id]]
      && (s'.bookings[id] == s.bookings[id].(status := Failed, reason := OtherFailure)
          || (reply.Ok? && s'.bookings[id] == s.bookings[id].(status := PaymentPending, order := reply.order)))
  {
    hide Pay.CreateOrder, PricesKept, Abandon;
    var b := s.bookings[id];
    var (pay, reply) := Pay.CreateOrder(s.pay, Pay.PaymentKey(id), id, b.user, b.amount, order);
    var logged := s.(pay := pay, logs := s.logs[id := LogOf(s, id) + [CreatePayment]]);
    assert HELD_LOG + [CreatePayment] == PAID_LOG;
    AbandonKeepsLedger(logged, id, gateway);
    SamePrices(s.inv.seats);
  }

  ghost predicate NewOrder(l: Pay.Ledger, id: int, o: int, amount: int) {
    && o in l.orders && l.orders[o].booking == id && l.orders[o].amount == amount && l.orders[o].status == Pay.Created
    && Pay.RefundsOf(l.refunds, o) == []
  }

  lemma OrderMade(l: Pay.Ledger, id: int, user: int, amount: int, order: Option<string>)
    requires Pay.LedgerInv(l)
    ensures var (l', reply) := Pay.CreateOrder(l, Pay.PaymentKey(id), id, user, amount, order);
      && (forall key :: key in l'.done ==> key in l.done || key == Pay.PaymentKey(id))
      && (reply.Ok? ==> reply.order == l.nextOrder && reply.order > 0 && NewOrder(l', id, reply.order, amount))
  {
    hide Pay.RefundsOf, Pay.UsesGatewayOrder;
    forall r | r in l.refunds ensures r.order != l.nextOrder {
      assert Pay.OrderSound(l, r.order);
    }
    Pay.NoRefundYet(l.refunds, l.nextOrder);
  }

  lemma RequestPaymentKeepsMoney(s: System, id: int, order: Option<string>, lost: bool, gateway: Option<string>)
    requires MoneyInv(s) && id in s.bookings && s.bookings[id].status == SeatsHeld
    ensures MoneyInv(RequestPayment(s, id, order, lost, gateway))
  {
    hide Pay.LedgerInv, Pay.Balanced, PayLocal, PricesKept, RequestPayment, TotalPrice, Pay.CreateOrder, Pay.RefundsOf;
    assert MoneySound(s, id);
    var b := s.bookings[id];
    RequestPaymentParts(s, id, order, lost, gateway);
    OrderIsLocal(s.pay, id, b.user, b.amount, order);
    OrderMade(s.pay, id, b.user, b.amount, order);
    var s' := RequestPayment(s, id, order, lost, gateway);
    SameTotal(s.inv.seats, s'.inv.seats, b.schedule, b.seats);
    LocalMoney(s, s', id, s.pay.nextOrder);
  }

  /* ---- the handlers ---- */

  lemma ConfirmParts(s: System, id: int, refreshed: bool)
    requires id in s.bookings
    ensures var s' := ConfirmPaid(s, id, refreshed);
      && s'.pay == s.pay && s'.logs == s.logs && PricesKept(s.inv.seats, s'.inv.seats)
      && s'.bookings == s.bookings[id := s.bookings[id].(status := Confirmed, version := s.bookings[id].version + Bump(refreshed))]
  {
    var b := s.bookings[id];
    ConfirmUnderKeepsPrices(s.inv, s.busy.calls, id, b.user, b.schedule, b.seats, b.seg);
    hide ConfirmUnder, PricesKept, R.ForceReleased;
  }

  /** The condition under which the payment handler reaches its claim: the event it consumed is a capture of this order. */
  ghost predicate Paid(s: System, id: int) {
    && id in s.bookings && s.bookings[id].status == PaymentPending && s.bookings[id].order in s.pay.orders
    && var row := s.pay.orders[s.bookings[id].order];
    && row.status == Pay.Captured && row.gatewayOrder != "" && row.gatewayPayment != ""
  }

  lemma ConfirmKeepsMoney(s: System, id: int, refreshed: bool)
    requires MoneyInv(s) && Paid(s, id)
    ensures MoneyInv(ConfirmPaid(s, id, refreshed))
  {
    hide Pay.LedgerInv, Pay.Balanced, PayLocal, PricesKept, ConfirmPaid, TotalPrice, Pay.RefundsOf;
    assert MoneySound(s, id);
    ConfirmParts(s, id, refreshed);
    SamePayLocal(s.pay, id);
    var s' := ConfirmPaid(s, id, refreshed);
    SameTotal(s.inv.seats, s'.inv.seats, s.bookings[id].schedule, s.bookings[id].seats);
    LocalMoney(s, s', id, 0);
  }

  /** What the end of a booking with a payment order does to ledger and record. */
  ghost predicate EndedWithRefund(s: System, s': System, id: int, key: Pay.Key, gateway: Option<string>) {
    && id in s.bookings && id in s'.bookings && BookingOfKey(key) == Some(id)
    && s'.pay == Pay.CreateRefund(s.pay, key, s.bookings[id].order, s.bookings[id].amount, gateway).0
    && s'.logs == s.logs && PricesKept(s.inv.seats, s'.inv.seats)
    && s'.bookings == s.bookings[id := s'.bookings[id]]
    && var (b, b') := (s.bookings[id], s'.bookings[id]);
    && b' == b.(status := b'.status, reason := b'.reason, version := b'.version)
    && if b'.status == Failed then b'.reason == OtherFailure
       else b'.status == CancelledByUser && b.status == Confirmed && b'.reason == UserCancelled
  }

  lemma EndedKeepsMoney(s: System, s': System, id: int, key: Pay.Key, gateway: Option<string>)
    requires MoneyInv(s) && EndedWithRefund(s, s', id, key, gateway) && s.bookings[id].status in {PaymentPending, Confirmed}
    ensures MoneyInv(s')
  {
    hide Pay.LedgerInv, Pay.Balanced, PayLocal, PricesKept, TotalPrice, Pay.RefundsOf, Pay.CreateRefund, LogSound;
    var b := s.bookings[id];
    assert MoneySound(s, id);
    RefundIsLocal(s.pay, id, key, b.order, b.amount, gateway);
    RefundKeepsOrder(s.pay, key, b.order, b.amount, gateway);
    SameTotal(s.inv.seats, s'.inv.seats, b.schedule, b.seats);
    assert LogSound(s', id) by { EndedLog(s', id); }
    LocalMoney(s, s', id, b.order);
  }

  lemma EndedLog(s: System, id: int)
    requires id in s.bookings && s.bookings[id].status in {Failed, CancelledByUser}
    ensures LogSound(s, id)
  {
  }

  lemma ConfirmFaultsEnds(s: System, id: int, gateway: Option<string>)
    requires id in s.bookings && s.bookings[id].status == PaymentPending && LogOf(s, id) == PAID_LOG
    ensures EndedWithRefund(s, ConfirmFaults(s, id, gateway), id, Pay.CompensationKey(id), gateway)
  {
    var b := s.bookings[id];
    CompensateAllUnlocksOnce(s, id, PAID_LOG, gateway);
    UnlockUnderKeepsPrices(s.inv, s.busy.unlocks, b.user, b.schedule, b.seats, b.seg);
    hide CompensateAll, UnlockUnder, PricesKept, R.ForceReleased, Pay.CreateRefund;
    assert PAID_LOG != HELD_LOG;
  }

  lemma PaymentFailsEnds(s: System, id: int, gateway: Option<string>)
    requires id in s.bookings && LogOf(s, id) == PAID_LOG
    ensures EndedWithRefund(s, PaymentFails(s, id, gateway), id, Pay.CompensationKey(id), gateway)
  {
    var b := s.bookings[id];
    var claimed := WithBooking(s, id, b.(status := Failed, reason := OtherFailure, version := b.version + 1));
    CompensateAllUnlocksOnce(claimed, id, PAID_LOG, gateway);
    UnlockUnderKeepsPrices(s.inv, s.busy.unlocks, b.user, b.schedule, b.seats, b.seg);
    hide CompensateAll, UnlockUnder, PricesKept, R.ForceReleased, Pay.CreateRefund;
    assert PAID_LOG != HELD_LOG;
  }

  lemma CancelConfirmedEnds(s: System, id: int, gateway: Option<string>, refreshed: bool)
    requires id in s.bookings && s.bookings[id].order != 0 && s.bookings[id].status == Confirmed
    ensures EndedWithRefund(s, CancelConfirmed(s, id, gateway, refreshed), id, Pay.CancelKey(id), gateway)
  {
    var b := s.bookings[id];
    CancelKeepsPrices(s.inv, b.schedule, id, b.user);
    hide CancelSeats, PricesKept, R.ForceReleased, Pay.CreateRefund;
  }

  /** A cancellation without a refund request: consistent whatever the booking was. */
  lemma CancelledKeepsMoney(s: System, s': System, id: int, version: nat)
    requires MoneyInv(s) && id in s.bookings && s'.pay == s.pay && s'.logs == s.logs && PricesKept(s.inv.seats, s'.inv.seats)
    requires s'.bookings == s.bookings[id := s.bookings[id].(status := CancelledByUser, version := version)]
    ensures MoneyInv(s')
  {
    hide Pay.LedgerInv, Pay.Balanced, PayLocal, PricesKept, TotalPrice, Pay.RefundsOf;
    assert MoneySound(s, id);
    SamePayLocal(s.pay, id);
    SameTotal(s.inv.seats, s'.inv.seats, s.bookings[id].schedule, s.bookings[id].seats);
    LocalMoney(s, s', id, 0);
  }

  lemma CancelHeldKeepsMoney(s: System, id: int, version: nat)
    requires MoneyInv(s) && id in s.bookings
    ensures MoneyInv(CancelHeld(s, id, version))
  {
    var b := s.bookings[id];
    UnlockUnderKeepsPrices(s.inv, s.busy.unlocks, b.user, b.schedule, b.seats, b.seg);
    hide MoneyInv, PricesKept, UnlockUnder, R.ForceReleased;
    CancelledKeepsMoney(s, CancelHeld(s, id, version), id, version + 1);
  }

  lemma CancelPendingKeepsMoney(s: System, id: int, version: nat)
    requires MoneyInv(s) && id in s.bookings
    ensures MoneyInv(CancelPending(s, id, version))
  {
    SamePrices(s.inv.seats);
    hide MoneyInv, PricesKept, R.ForceReleased;
    CancelledKeepsMoney(s, CancelPending(s, id, version), id, version + 1);
  }

  lemma VerifyKeepsBooking(s: System, o: int, payment: string, signatureOk: bool, c: int)
    requires MoneyInv(s) && c in s.bookings
    ensures MoneySound(VerifyPayment(s, o, payment, signatureOk), c)
  {
    hide Pay.LedgerInv, Pay.Balanced, TotalPrice, Pay.RefundsOf, Pay.PaymentIdTaken;
    assert MoneySound(s, c);
  }

  lemma VerifyKeepsMoney(s: System, o: int, payment: string, signatureOk: bool)
    requires MoneyInv(s)
    ensures MoneyInv(VerifyPayment(s, o, payment, signatureOk))
  {
    var call := Pay.VerifyPayment(o, payment, signatureOk);
    Pay.CallKeepsLedger(s.pay, call);
    Pay.CallKeepsBalanceIff(s.pay, call);
    hide Pay.LedgerInv, Pay.Balanced, MoneySound, Pay.PaymentIdTaken;
    var s' := VerifyPayment(s, o, payment, signatureOk);
    forall c | c in s'.bookings ensures MoneySound(s', c) {
      VerifyKeepsBooking(s, o, payment, signatureOk, c);
    }
    forall c | c !in s'.bookings ensures KeysFree(s'.pay, c, true) {
      assert KeysFree(s.pay, c, true);
    }
  }
}
