/**
 What holds in every run, whether or not the writes by id alone come in time: no two segment rows of a seat overlap, the
 ledger balances, and an order that was left unrefunded when its booking was settled is never refunded.
 */
module SagaEveryRun {
  import opened Options
  import opened Inventory
  import opened InventoryInvariants
  import opened BookingSaga
  import opened SagaMoney
  import opened SagaRuns
  import opened SagaContention
  import opened SagaTheorems
  import Pay = Payments
  import R = RedisLocks

  /** The order a booking points to is its own and has its amount. */
  ghost predicate LinkSound(s: System, id: int)
    requires id in s.bookings
  {
    var b := s.bookings[id];
    b.order != 0 ==> b.order in s.pay.orders && s.pay.orders[b.order].booking == id && s.pay.orders[b.order].amount == b.amount
  }

  ghost predicate PaySound(l: Pay.Ledger) {
    Pay.LedgerInv(l) && Pay.Balanced(l)
  }

  ghost predicate LedgerSound(s: System) {
    PaySound(s.pay) && s.nextBooking > 0 && forall id :: id in s.bookings ==> 0 < id < s.nextBooking && LinkSound(s, id)
  }

  /** A change of the ledger on behalf of one booking: no order of another is refunded by it. */
  ghost predicate PaysFor(l: Pay.Ledger, l': Pay.Ledger, id: int) {
    && PaySound(l')
    && forall p :: p in l.orders ==>
      && p in l'.orders && l'.orders[p].booking == l.orders[p].booking && l'.orders[p].amount == l.orders[p].amount
      && (l.orders[p].booking != id && l.orders[p].status != Pay.RefundInitiated ==> l'.orders[p].status != Pay.RefundInitiated)
  }

  lemma PaysForNothing(l: Pay.Ledger, id: int)
    requires PaySound(l)
    ensures PaysFor(l, l, id)
  {
  }

  lemma PaysForBoth(a: Pay.Ledger, b: Pay.Ledger, c: Pay.Ledger, id: int)
    requires PaysFor(a, b, id) && PaysFor(b, c, id)
    ensures PaysFor(a, c, id)
  {
    hide PaySound;
  }

  lemma OrderPays(l: Pay.Ledger, key: Pay.Key, id: int, user: int, amount: int, gateway: Option<string>)
    requires PaySound(l)
    ensures var (l', reply) := Pay.CreateOrder(l, key, id, user, amount, gateway);
      && PaysFor(l, l', id)
      && (reply.Ok? ==> reply.order in l'.orders && l'.orders[reply.order].booking == id && l'.orders[reply.order].amount == amount)
  {
    var call := Pay.PlaceOrder(key, id, user, amount, gateway);
    Pay.CallKeepsLedger(l, call);
    Pay.CallKeepsBalanceIff(l, call);
    Pay.OrderEffect(l, key, id, user, amount, gateway);
    Pay.OrdersNumbered(l);
    hide Pay.Balanced, Pay.RefundsOf, Pay.LedgerInv, Pay.CreateOrder;
  }

  lemma VerifyKeepsPaySound(l: Pay.Ledger, o: int, payment: string, signatureOk: bool)
    requires PaySound(l)
    ensures PaySound(Pay.Verify(l, o, payment, signatureOk).0)
  {
    var call := Pay.VerifyPayment(o, payment, signatureOk);
    Pay.CallKeepsLedger(l, call);
    Pay.CallKeepsBalanceIff(l, call);
    hide Pay.Balanced, Pay.LedgerInv, Pay.Verify;
  }

  lemma VerifyPays(l: Pay.Ledger, o: int, payment: string, signatureOk: bool, id: int)
    requires PaySound(l)
    ensures PaysFor(l, Pay.Verify(l, o, payment, signatureOk).0, id)
  {
    VerifyKeepsPaySound(l, o, payment, signatureOk);
    Pay.VerifyEffect(l, o, payment, signatureOk);
    hide PaySound, Pay.Verify;
  }

  lemma RefundKeepsPaySound(l: Pay.Ledger, key: Pay.Key, o: int, amount: int, gateway: Option<string>)
    requires PaySound(l) && (o != 0 && o in l.orders ==> l.orders[o].amount == amount)
    ensures PaySound(Pay.CreateRefund(l, key, o, amount, gateway).0)
  {
    hide Pay.LedgerInv, Pay.Balanced, Pay.CreateRefund;
    RefundKeepsBooks(l, key, o, amount, gateway);
  }

  lemma OrderRefundPays(l: Pay.Ledger, key: Pay.Key, o: int, amount: int, gateway: Option<string>, id: int)
    requires PaySound(l) && (o != 0 && o in l.orders ==> l.orders[o].booking == id && l.orders[o].amount == amount)
    ensures PaysFor(l, Pay.CreateRefund(l, key, o, amount, gateway).0, id)
  {
    hide PaySound, Pay.CreateRefund;
    RefundKeepsPaySound(l, key, o, amount, gateway);
    Pay.RefundEffect(l, key, o, amount, gateway);
  }

  lemma RefundPays(s: System, id: int, key: Pay.Key, gateway: Option<string>)
    requires PaySound(s.pay) && id in s.bookings && LinkSound(s, id)
    ensures PaysFor(s.pay, Refunded(s, id, key, gateway).pay, id)
  {
    hide PaySound, PaysFor, Pay.CreateRefund;
    OrderRefundPays(s.pay, key, s.bookings[id].order, s.bookings[id].amount, gateway, id);
  }

  /** Compensation asks for refunds of its own booking's order, whatever was logged. */
  lemma {:induction false} CompensationPays(s: System, id: int, log: seq<SagaStep>, gateway: Option<string>)
    requires PaySound(s.pay) && id in s.bookings && LinkSound(s, id)
    ensures PaysFor(s.pay, CompensateAll(s, id, log, gateway).pay, id)
    decreases |log|
  {
    hide PaySound, UnlockUnder, Refunded;
    if log == [] {
      PaysForNothing(s.pay, id);
    } else {
      var c := CompensateAll(s, id, log[..|log| - 1], gateway);
      CompensationPays(s, id, log[..|log| - 1], gateway);
      if log[|log| - 1] == CreatePayment {
        RefundPays(c, id, Pay.CompensationKey(id), gateway);
        PaysForBoth(s.pay, c.pay, Refunded(c, id, Pay.CompensationKey(id), gateway).pay, id);
      }
    }
  }

  /** A step of one booking that keeps its amount and its order, or gives it a new order of its own. */
  ghost predicate Moves(s: System, s': System, id: int) {
    && PaysFor(s.pay, s'.pay, id) && s'.nextBooking == s.nextBooking && OnlyBooking(s, s', id)
    && s'.bookings[id].amount == s.bookings[id].amount && s'.bookings[id].seg == s.bookings[id].seg && LinkSound(s', id)
  }

  lemma MovesKeepLedger(s: System, s': System, id: int)
    requires LedgerSound(s) && Moves(s, s', id)
    ensures LedgerSound(s')
  {
    hide PaySound;
    forall c | c in s'.bookings ensures 0 < c < s'.nextBooking && LinkSound(s', c) {
      assert c in s.bookings && LinkSound(s, c);
    }
  }

  lemma PaidOnly(s: System, s': System, id: int)
    requires LedgerSound(s) && id in s.bookings && PaysFor(s.pay, s'.pay, id) && s'.nextBooking == s.nextBooking && OnlyBooking(s, s', id)
    requires s'.bookings[id].amount == s.bookings[id].amount && s'.bookings[id].order == s.bookings[id].order
    requires s'.bookings[id].seg == s.bookings[id].seg
    ensures Moves(s, s', id)
  {
    hide PaySound;
    assert LinkSound(s, id);
  }

  /** What abandoning a creation leaves. */
  lemma AbandonMoves(s: System, t: System, id: int, gateway: Option<string>)
    requires LedgerSound(s) && id in t.bookings && OnlyBooking(s, t, id) && t.nextBooking == s.nextBooking && PaysFor(s.pay, t.pay, id)
    requires t.bookings[id].amount == s.bookings[id].amount && t.bookings[id].order == s.bookings[id].order
    requires t.bookings[id].seg == s.bookings[id].seg
    ensures Moves(s, Abandon(t, id, gateway), id)
  {
    PaidOnly(s, t, id);
    CompensationPays(t, id, LogOf(t, id), gateway);
    CompensationOnly(t, id, LogOf(t, id), gateway);
    hide CompensateAll, R.Released, PaySound, LedgerSound, PaysFor;
    PaysForBoth(s.pay, t.pay, CompensateAll(t, id, LogOf(t, id), gateway).pay, id);
    PaidOnly(s, Abandon(t, id, gateway), id);
  }

  lemma HoldMoves(s: System, id: int, lost: bool, gateway: Option<string>)
    requires LedgerSound(s) && id in s.bookings
    ensures Moves(s, Hold(s, id, lost, gateway), id)
  {
    hide LockUnder, Abandon, WithInventory, LedgerSound, PaysFor, Moves;
    var b := s.bookings[id];
    var (inv, reply) := LockUnder(s.inv, s.busy.calls, b.user, b.schedule, b.seats, b.seg);
    HoldCases(s, id, lost, gateway);
    LedgerPays(s, id);
    if reply.Done? && !lost {
      PaidOnly(s, Hold(s, id, lost, gateway), id);
    } else {
      AbandonMoves(s, WithBooking(WithInventory(s, id, inv), id, b.(base := s.inv.nextId)), id, gateway);
    }
  }

  lemma LedgerPays(s: System, id: int)
    requires LedgerSound(s)
    ensures PaysFor(s.pay, s.pay, id)
  {
    PaysForNothing(s.pay, id);
  }

  lemma PaymentMoves(s: System, id: int, order: Option<string>, lost: bool, gateway: Option<string>)
    requires LedgerSound(s) && id in s.bookings
    ensures Moves(s, RequestPayment(s, id, order, lost, gateway), id)
  {
    var b := s.bookings[id];
    var (pay, reply) := Pay.CreateOrder(s.pay, Pay.PaymentKey(id), id, b.user, b.amount, order);
    OrderPaysLedger(s, id, order);
    hide LedgerSound, Abandon, PaysFor, Pay.CreateOrder, Moves, LogOf, PaySound;
    if reply.Ok? && !lost {
      PaidOrderMoves(s, RequestPayment(s, id, order, lost, gateway), id, reply.order);
    } else {
      AbandonMoves(s, WithPaymentLog(s, id, order), id, gateway);
    }
  }

  lemma OrderPaysLedger(s: System, id: int, order: Option<string>)
    requires LedgerSound(s) && id in s.bookings
    ensures var (l', reply) := Pay.CreateOrder(s.pay, Pay.PaymentKey(id), id, s.bookings[id].user, s.bookings[id].amount, order);
      && PaysFor(s.pay, l', id)
      && (reply.Ok? ==> reply.order in l'.orders && l'.orders[reply.order].booking == id && l'.orders[reply.order].amount == s.bookings[id].amount)
  {
    hide PaySound, Pay.CreateOrder;
    OrderPays(s.pay, Pay.PaymentKey(id), id, s.bookings[id].user, s.bookings[id].amount, order);
  }

  lemma PaidOrderMoves(s: System, s': System, id: int, o: int)
    requires PaysFor(s.pay, s'.pay, id) && s'.nextBooking == s.nextBooking && OnlyBooking(s, s', id)
    requires s'.bookings[id] == s.bookings[id].(status := PaymentPending, order := o)
    requires o in s'.pay.orders && s'.pay.orders[o].booking == id && s'.pay.orders[o].amount == s.bookings[id].amount
    ensures Moves(s, s', id)
  {
    hide PaysFor;
  }

  lemma ClaimMoves(s: System, r: Read, refreshed: bool, gateway: Option<string>)
    requires LedgerSound(s) && r.booking in s.bookings
    ensures Moves(s, Claimed(s, r, refreshed, gateway), r.booking)
  {
    hide ConfirmPaid, PaymentFails, CancelConfirmed, LedgerSound, Moves;
    match r.kind
    case PaidMessage(_) => ConfirmMoves(s, r.booking, refreshed);
    case UnpaidMessage(_) => PaymentFailsMoves(s, r.booking, gateway);
    case UserCancel(_) => CancelMoves(s, r.booking, gateway, refreshed);
  }

  lemma ConfirmMoves(s: System, id: int, refreshed: bool)
    requires LedgerSound(s) && id in s.bookings
    ensures Moves(s, ConfirmPaid(s, id, refreshed), id)
  {
    hide ConfirmUnder, R.ForceReleased, LedgerSound, Moves, PaysFor;
    LedgerPays(s, id);
    PaidOnly(s, ConfirmPaid(s, id, refreshed), id);
  }

  /** Compensation of a booking that was written first. */
  lemma CompensatedMoves(s: System, t: System, s': System, id: int, log: seq<SagaStep>, gateway: Option<string>)
    requires LedgerSound(s) && id in s.bookings && id in t.bookings && t.pay == s.pay && OnlyBooking(s, t, id)
    requires t.bookings[id].order == s.bookings[id].order && t.bookings[id].amount == s.bookings[id].amount
    requires t.bookings[id].seg == s.bookings[id].seg
    requires s'.pay == CompensateAll(t, id, log, gateway).pay && s'.bookings == t.bookings && s'.nextBooking == s.nextBooking
    ensures Moves(s, s', id)
  {
    LinkedStill(s, t, id);
    CompensationPays(t, id, log, gateway);
    hide CompensateAll, LedgerSound, PaysFor, LinkSound, PaySound, Moves;
    PaidOnly(s, s', id);
  }

  lemma PaymentFailsMoves(s: System, id: int, gateway: Option<string>)
    requires LedgerSound(s) && id in s.bookings
    ensures Moves(s, PaymentFails(s, id, gateway), id)
  {
    hide LedgerSound, Moves, PaymentFails, CompensateAll;
    var t := FailedFirst(s, id);
    PaymentFailsIs(s, id, gateway);
    CompensatedMoves(s, t, PaymentFails(s, id, gateway), id, LogOf(s, id), gateway);
  }

  /** The claim of a failure handler. */
  function FailedFirst(s: System, id: int): System
    requires id in s.bookings
  {
    var b := s.bookings[id];
    WithBooking(s, id, b.(status := Failed, reason := OtherFailure, version := b.version + 1))
  }

  lemma LinkedStill(s: System, t: System, id: int)
    requires LedgerSound(s) && id in s.bookings && id in t.bookings && t.pay == s.pay
    requires t.bookings[id].order == s.bookings[id].order && t.bookings[id].amount == s.bookings[id].amount
    ensures PaySound(t.pay) && LinkSound(t, id)
  {
    hide PaySound;
    assert LinkSound(s, id);
  }

  lemma PaymentFailsIs(s: System, id: int, gateway: Option<string>)
    requires id in s.bookings
    ensures var (s', t) := (PaymentFails(s, id, gateway), FailedFirst(s, id));
      && s'.pay == CompensateAll(t, id, LogOf(s, id), gateway).pay && s'.bookings == t.bookings
      && s'.nextBooking == s.nextBooking
  {
    CompensationOnly(FailedFirst(s, id), id, LogOf(s, id), gateway);
    hide CompensateAll, R.ForceReleased;
  }

  lemma CompensateMoves(s: System, id: int, gateway: Option<string>)
    requires LedgerSound(s) && id in s.bookings
    ensures Moves(s, ConfirmFaults(s, id, gateway), id)
  {
    CompensationPays(s, id, LogOf(s, id), gateway);
    CompensationOnly(s, id, LogOf(s, id), gateway);
    hide CompensateAll, R.ForceReleased, LedgerSound, Moves, PaysFor;
    PaidOnly(s, ConfirmFaults(s, id, gateway), id);
  }

  lemma CancelMoves(s: System, id: int, gateway: Option<string>, refreshed: bool)
    requires LedgerSound(s) && id in s.bookings
    ensures Moves(s, CancelConfirmed(s, id, gateway, refreshed), id)
  {
    RefundPays(s, id, Pay.CancelKey(id), gateway);
    LedgerPays(s, id);
    hide CancelSeats, R.ForceReleased, LedgerSound, Moves, PaysFor, Pay.CreateRefund;
    PaidOnly(s, CancelConfirmed(s, id, gateway, refreshed), id);
  }

  lemma DropMoves(s: System, d: Drop)
    requires LedgerSound(s) && d.booking in s.bookings
    ensures Moves(s, Dropped(s, d), d.booking)
  {
    DropChanges(s, d);
    hide Dropped, LedgerSound, Moves, PaysFor;
    LedgerPays(s, d.booking);
    PaidOnly(s, Dropped(s, d), d.booking);
  }

  /* ---- every step ---- */

  /** The booking a step moves. */
  function Subject(w: World, t: Step): Option<int>
    requires Enabled(w, t)
  {
    match t
    case HoldStep(id, _, _) => Some(id)
    case PaymentStep(id, _, _, _) => Some(id)
    case Claim(h, _, _) => if Wins(w, h) then Some(w.seen[h].booking) else None
    case CompensateStep(h, _) => Some(w.rolled[h].booking)
    case DropStep(h) => Some(w.drops[h].booking)
    case _ => None
  }

  lemma SubjectMoves(w: World, t: Step)
    requires LedgerSound(w.s) && Enabled(w, t) && Subject(w, t).Some?
    ensures Moves(w.s, Next(w, t).s, Subject(w, t).value)
  {
    hide LedgerSound, Moves, Hold, RequestPayment, Claimed, ConfirmFaults, Dropped, HoldSucceeds;
    match t
    case HoldStep(id, lost, gateway) => HoldMoves(w.s, id, lost, gateway);
    case PaymentStep(id, order, lost, gateway) => PaymentMoves(w.s, id, order, lost, gateway);
    case Claim(h, refreshed, gateway) => ClaimMoves(w.s, w.seen[h], refreshed, gateway);
    case CompensateStep(h, gateway) => CompensateMoves(w.s, w.rolled[h].booking, gateway);
    case DropStep(h) => DropMoves(w.s, w.drops[h]);
    case _ =>
  }

  lemma StartKeepsLedger(s: System, r: Request, token: int)
    requires LedgerSound(s)
    ensures LedgerSound(Begin(s, r, token))
    ensures forall id :: id in s.bookings ==> id in Begin(s, r, token).bookings && Begin(s, r, token).bookings[id] == s.bookings[id]
  {
    hide Begin, PaySound, TotalPrice;
    NextBookingCounts(s, r, token);
    if Begin(s, r, token).nextBooking != s.nextBooking {
      BeginParts(s, r, token);
    } else {
      FailedBeginParts(s, r, token);
    }
    var s' := Begin(s, r, token);
    forall c | c in s'.bookings ensures 0 < c < s'.nextBooking && LinkSound(s', c) {
      assert c in s.bookings ==> LinkSound(s, c);
    }
  }

  lemma VerifyKeepsSound(s: System, o: int, payment: string, signatureOk: bool)
    requires LedgerSound(s)
    ensures LedgerSound(VerifyPayment(s, o, payment, signatureOk))
  {
    var s' := VerifyPayment(s, o, payment, signatureOk);
    VerifyPays(s.pay, o, payment, signatureOk, 0);
    hide PaySound, Pay.Verify;
    forall c | c in s'.bookings ensures 0 < c < s'.nextBooking && LinkSound(s', c) {
      assert LinkSound(s, c);
    }
  }

  lemma StepKeepsLedger(w: World, t: Step)
    requires LedgerSound(w.s) && Enabled(w, t)
    ensures LedgerSound(Next(w, t).s)
  {
    if Subject(w, t).Some? {
      SubjectMoves(w, t);
      MovesKeepLedger(w.s, Next(w, t).s, Subject(w, t).value);
    }
    hide LedgerSound, Moves, Hold, RequestPayment, Claimed, ConfirmFaults, Dropped, HoldSucceeds, Begin, VerifyPayment;
    match t
    case Start(r, token) => StartKeepsLedger(w.s, r, token);
    case VerifyStep(o, payment, signatureOk) => VerifyKeepsSound(w.s, o, payment, signatureOk);
    case _ =>
  }

  lemma {:induction false} RunKeepsLedger(w: World, steps: seq<Step>, end: World)
    requires LedgerSound(w.s) && IsRun(w, steps, end)
    ensures LedgerSound(end.s)
    decreases |steps|
  {
    hide LedgerSound, Next;
    if steps != [] {
      StepKeepsLedger(w, steps[0]);
      RunKeepsLedger(Next(w, steps[0]), steps[1..], end);
    }
  }

  /**
   Everything collected is either held for captured orders or was returned, and no order is refunded twice, in every run:
   late writes and compensations without a claim included.
   */
  lemma MoneyIsConserved(w: World, steps: seq<Step>, end: World)
    requires Initial(w) && IsRun(w, steps, end)
    ensures Pay.Collected(end.s.pay.events) - Pay.Returned(end.s.pay.refunds) == Pay.Held(end.s.pay)
    ensures forall o :: o in end.s.pay.orders ==> |Pay.RefundsOf(end.s.pay.refunds, o)| <= 1
    ensures forall id :: id in end.s.bookings ==> LinkSound(end.s, id)
  {
    RunKeepsLedger(w, steps, end);
    forall o | o in end.s.pay.orders ensures |Pay.RefundsOf(end.s.pay.refunds, o)| <= 1 {
      assert Pay.OrderSound(end.s.pay, o);
    }
  }

  /* ---- seats ---- */

  /** The inventory's own invariant, and requests that were checked before they became bookings. */
  ghost predicate InventorySound(s: System) {
    Invariant(s.inv) && forall id :: id in s.bookings ==> s.bookings[id].seg.from < s.bookings[id].seg.to
  }

  lemma LockUnderKeepsRows(db: Db, busy: set<SeatKey>, user: int, schedule: int, ids: seq<int>, seg: Segment)
    requires Invariant(db) && seg.from < seg.to
    ensures Invariant(LockUnder(db, busy, user, schedule, ids, seg).0)
  {
    LockKeepsInvariant(db, user, schedule, ids, seg);
    hide Invariant, LockSeats, Gate;
  }

  lemma UnlockUnderKeepsRows(db: Db, busy: set<SeatKey>, user: int, schedule: int, ids: seq<int>, seg: Segment)
    requires Invariant(db)
    ensures Invariant(UnlockUnder(db, busy, user, schedule, ids, seg).0)
  {
    UnlockKeepsInvariant(db, user, schedule, ids, seg);
    hide Invariant, UnlockSeats, Gate;
  }

  lemma ConfirmUnderKeepsRows(db: Db, busy: set<SeatKey>, booking: int, user: int, schedule: int, ids: seq<int>, seg: Segment)
    requires Invariant(db)
    ensures Invariant(ConfirmUnder(db, busy, booking, user, schedule, ids, seg).0)
  {
    ConfirmKeepsInvariant(db, booking, user, schedule, ids, seg);
    hide Invariant, ConfirmSeats, Gate;
  }

  lemma {:induction false} CompensationKeepsRows(s: System, id: int, log: seq<SagaStep>, gateway: Option<string>)
    requires Invariant(s.inv) && id in s.bookings
    ensures Invariant(CompensateAll(s, id, log, gateway).inv)
    decreases |log|
  {
    hide Invariant, UnlockUnder, Pay.CreateRefund;
    if log != [] {
      CompensationKeepsRows(s, id, log[..|log| - 1], gateway);
      var (c, b) := (CompensateAll(s, id, log[..|log| - 1], gateway), s.bookings[id]);
      UnlockUnderKeepsRows(c.inv, c.busy.unlocks, b.user, b.schedule, b.seats, b.seg);
    }
  }

  lemma AbandonKeepsRows(s: System, id: int, gateway: Option<string>)
    requires Invariant(s.inv) && id in s.bookings
    ensures Invariant(Abandon(s, id, gateway).inv)
  {
    CompensationKeepsRows(s, id, LogOf(s, id), gateway);
    hide Invariant, CompensateAll, R.Released;
  }

  lemma HoldKeepsRows(s: System, id: int, lost: bool, gateway: Option<string>)
    requires Invariant(s.inv) && id in s.bookings && s.bookings[id].seg.from < s.bookings[id].seg.to
    ensures Invariant(Hold(s, id, lost, gateway).inv)
  {
    hide Invariant, LockUnder, Abandon;
    var b := s.bookings[id];
    var inv := LockUnder(s.inv, s.busy.calls, b.user, b.schedule, b.seats, b.seg).0;
    LockUnderKeepsRows(s.inv, s.busy.calls, b.user, b.schedule, b.seats, b.seg);
    AbandonKeepsRows(WithBooking(WithInventory(s, id, inv), id, b.(base := s.inv.nextId)), id, gateway);
  }

  lemma PaymentKeepsRows(s: System, id: int, order: Option<string>, lost: bool, gateway: Option<string>)
    requires Invariant(s.inv) && id in s.bookings
    ensures Invariant(RequestPayment(s, id, order, lost, gateway).inv)
  {
    hide Invariant, Abandon, Pay.CreateOrder;
    AbandonKeepsRows(WithPaymentLog(s, id, order), id, gateway);
  }

  lemma ConfirmPaidKeepsRows(s: System, id: int, refreshed: bool)
    requires Invariant(s.inv) && id in s.bookings
    ensures Invariant(ConfirmPaid(s, id, refreshed).inv)
  {
    var b := s.bookings[id];
    ConfirmUnderKeepsRows(s.inv, s.busy.calls, id, b.user, b.schedule, b.seats, b.seg);
    hide Invariant, ConfirmUnder, R.ForceReleased;
  }

  lemma PaymentFailsKeepsRows(s: System, id: int, gateway: Option<string>)
    requires Invariant(s.inv) && id in s.bookings
    ensures Invariant(PaymentFails(s, id, gateway).inv)
  {
    var b := s.bookings[id];
    CompensationKeepsRows(WithBooking(s, id, b.(status := Failed, reason := OtherFailure, version := b.version + 1)), id, LogOf(s, id), gateway);
    hide Invariant, CompensateAll, R.ForceReleased;
  }

  lemma CancelConfirmedKeepsRows(s: System, id: int, gateway: Option<string>, refreshed: bool)
    requires Invariant(s.inv) && id in s.bookings
    ensures Invariant(CancelConfirmed(s, id, gateway, refreshed).inv)
  {
    CancelKeepsInvariant(s.inv, s.bookings[id].schedule, id, s.bookings[id].user);
    hide Invariant, CancelSeats, R.ForceReleased, Pay.CreateRefund;
  }

  lemma ClaimKeepsRows(s: System, r: Read, refreshed: bool, gateway: Option<string>)
    requires Invariant(s.inv) && r.booking in s.bookings
    ensures Invariant(Claimed(s, r, refreshed, gateway).inv)
  {
    hide Invariant, ConfirmPaid, PaymentFails, CancelConfirmed;
    match r.kind
    case PaidMessage(_) => ConfirmPaidKeepsRows(s, r.booking, refreshed);
    case UnpaidMessage(_) => PaymentFailsKeepsRows(s, r.booking, gateway);
    case UserCancel(_) => CancelConfirmedKeepsRows(s, r.booking, gateway, refreshed);
  }

  lemma CompensateKeepsRows(s: System, id: int, gateway: Option<string>)
    requires Invariant(s.inv) && id in s.bookings
    ensures Invariant(ConfirmFaults(s, id, gateway).inv)
  {
    CompensationKeepsRows(s, id, LogOf(s, id), gateway);
    hide Invariant, CompensateAll, R.ForceReleased;
  }

  lemma DropKeepsRows(s: System, d: Drop)
    requires Invariant(s.inv) && d.booking in s.bookings
    ensures Invariant(Dropped(s, d).inv)
  {
    var b := s.bookings[d.booking];
    UnlockUnderKeepsRows(s.inv, s.busy.unlocks, b.user, b.schedule, b.seats, b.seg);
    hide Invariant, UnlockUnder, R.ForceReleased;
  }

  lemma StartKeepsInventory(s: System, r: Request, token: int)
    requires InventorySound(s)
    ensures InventorySound(Begin(s, r, token))
  {
    hide Invariant, Begin;
    if Begin(s, r, token).nextBooking != s.nextBooking {
      BeginParts(s, r, token);
      BegunIsAcceptable(s, r, token);
    } else {
      FailedBeginParts(s, r, token);
    }
  }

  lemma BegunIsAcceptable(s: System, r: Request, token: int)
    requires Begin(s, r, token).nextBooking != s.nextBooking
    ensures r.seg.from < r.seg.to
  {
    hide R.CanAcquire, R.Acquired, R.Released, KeyList, TotalPrice;
  }

  lemma StepKeepsRows(w: World, t: Step)
    requires InventorySound(w.s) && Enabled(w, t)
    ensures !t.Start? ==> Invariant(Next(w, t).s.inv)
  {
    hide Invariant, Begin, Hold, RequestPayment, Claimed, ConfirmFaults, Dropped, HoldSucceeds;
    match t
    case HoldStep(id, lost, gateway) => HoldKeepsRows(w.s, id, lost, gateway);
    case PaymentStep(id, order, lost, gateway) => PaymentKeepsRows(w.s, id, order, lost, gateway);
    case Claim(h, refreshed, gateway) => ClaimKeepsRows(w.s, w.seen[h], refreshed, gateway);
    case CompensateStep(h, gateway) => CompensateKeepsRows(w.s, w.rolled[h].booking, gateway);
    case DropStep(h) => DropKeepsRows(w.s, w.drops[h]);
    case _ =>
  }

  lemma StepKeepsInventory(w: World, t: Step)
    requires LedgerSound(w.s) && InventorySound(w.s) && Enabled(w, t)
    ensures InventorySound(Next(w, t).s)
  {
    StepKeepsRows(w, t);
    hide Invariant, LedgerSound, Moves, InventorySound, Begin, Hold, RequestPayment, Claimed, ConfirmFaults, Dropped, HoldSucceeds, VerifyPayment;
    if Subject(w, t).Some? {
      SubjectMoves(w, t);
      MovesKeepSegments(w.s, Next(w, t).s, Subject(w, t).value);
    }
    match t
    case Start(r, token) => StartKeepsInventory(w.s, r, token);
    case VerifyStep(o, payment, signatureOk) => SameInventory(w.s, VerifyPayment(w.s, o, payment, signatureOk));
    case _ =>
  }

  lemma MovesKeepSegments(s: System, s': System, id: int)
    requires InventorySound(s) && Moves(s, s', id) && Invariant(s'.inv)
    ensures InventorySound(s')
  {
    hide Invariant, PaysFor, LinkSound;
  }

  lemma SameInventory(s: System, s': System)
    requires InventorySound(s) && s'.inv == s.inv && s'.bookings == s.bookings
    ensures InventorySound(s')
  {
    hide Invariant;
  }

  lemma {:induction false} RunKeepsInventory(w: World, steps: seq<Step>, end: World)
    requires LedgerSound(w.s) && InventorySound(w.s) && IsRun(w, steps, end)
    ensures InventorySound(end.s)
    decreases |steps|
  {
    hide LedgerSound, InventorySound, Next;
    if steps != [] {
      StepKeepsLedger(w, steps[0]);
      StepKeepsInventory(w, steps[0]);
      RunKeepsInventory(Next(w, steps[0]), steps[1..], end);
    }
  }

  /**
   However late the writes by id alone come, no two rows of a seat ever share a leg, and statuses, counters and events follow
   the rows. Of bookings this says nothing: a CONFIRMED one may be without rows, and then its seats can be sold again.
   */
  lemma RowsNeverOverlap(w: World, steps: seq<Step>, end: World)
    requires Initial(w) && IsRun(w, steps, end)
    ensures NoOverlap(end.s.inv.locks) && StatusesAgree(end.s.inv) && CountersAgree(end.s.inv) && EventsAgree(end.s.inv)
  {
    RunKeepsInventory(w, steps, end);
  }

  /* ---- a capture after the end ---- */

  ghost predicate EndedUnrefunded(s: System, id: int, o: int) {
    && id in s.bookings && !s.bookings[id].Live() && o in s.pay.orders && s.pay.orders[o].booking == id
    && s.pay.orders[o].status != Pay.RefundInitiated
  }

  /** Nothing is under way for the booking. */
  ghost predicate Settled(w: World, id: int) {
    && id !in w.creating && (forall h :: h in w.seen ==> w.seen[h].booking != id)
    && (forall h :: h in w.rolled ==> w.rolled[h].booking != id) && (forall h :: h in w.drops ==> w.drops[h].booking != id)
  }

  lemma SettledStays(w: World, t: Step, id: int)
    requires LedgerSound(w.s) && Enabled(w, t) && id in w.s.bookings && !w.s.bookings[id].Live() && Settled(w, id)
    ensures Settled(Next(w, t), id) && (Subject(w, t).Some? ==> Subject(w, t).value != id)
  {
    hide PaySound, LinkSound, Hold, RequestPayment, Claimed, ConfirmFaults, Dropped, HoldSucceeds, Begin, VerifyPayment;
  }

  lemma UnrefundedMoves(s: System, s': System, c: int, id: int, o: int)
    requires Moves(s, s', c) && c != id && EndedUnrefunded(s, id, o)
    ensures EndedUnrefunded(s', id, o)
  {
    hide PaySound, LinkSound;
  }

  lemma UnrefundedByVerify(s: System, p: int, payment: string, signatureOk: bool, id: int, o: int)
    requires LedgerSound(s) && EndedUnrefunded(s, id, o)
    ensures EndedUnrefunded(VerifyPayment(s, p, payment, signatureOk), id, o)
  {
    VerifyPays(s.pay, p, payment, signatureOk, id + 1);
    hide LedgerSound, PaySound, Pay.Verify;
  }

  lemma UnrefundedByStart(s: System, r: Request, token: int, id: int, o: int)
    requires LedgerSound(s) && EndedUnrefunded(s, id, o)
    ensures EndedUnrefunded(Begin(s, r, token), id, o)
  {
    StartKeepsLedger(s, r, token);
    StartKeepsEvents(s, r, token);
    hide LedgerSound, Begin;
  }

  lemma UnrefundedAnyway(s: System, busy: Busy, id: int, o: int)
    requires EndedUnrefunded(s, id, o)
    ensures EndedUnrefunded(s.(busy := busy), id, o)
  {
  }

  lemma UnrefundedStays(w: World, t: Step, id: int, o: int)
    requires LedgerSound(w.s) && Enabled(w, t) && EndedUnrefunded(w.s, id, o) && (Subject(w, t).Some? ==> Subject(w, t).value != id)
    ensures EndedUnrefunded(Next(w, t).s, id, o)
  {
    hide LedgerSound, EndedUnrefunded, Moves, Hold, RequestPayment, Claimed, ConfirmFaults, Dropped, HoldSucceeds, Begin, VerifyPayment, Interested;
    if Subject(w, t).Some? {
      SubjectMoves(w, t);
      UnrefundedMoves(w.s, Next(w, t).s, Subject(w, t).value, id, o);
    }
    match t
    case Start(r, token) => UnrefundedByStart(w.s, r, token, id, o);
    case VerifyStep(p, payment, signatureOk) => UnrefundedByVerify(w.s, p, payment, signatureOk, id, o);
    case Contend(busy) => UnrefundedAnyway(w.s, busy, id, o);
    case _ =>
  }

  lemma UnrefundedHasNone(s: System, id: int, o: int)
    requires LedgerSound(s) && EndedUnrefunded(s, id, o)
    ensures Pay.RefundsOf(s.pay.refunds, o) == []
  {
    hide Pay.RefundsOf;
    assert Pay.OrderSound(s.pay, o);
  }

  /** Once a booking has ended and nothing is under way for it, an order of it that was not refunded never is, in any run. */
  lemma {:induction false} SettledIsNeverRefunded(w: World, steps: seq<Step>, end: World, id: int, o: int)
    requires LedgerSound(w.s) && IsRun(w, steps, end) && EndedUnrefunded(w.s, id, o) && Settled(w, id)
    ensures EndedUnrefunded(end.s, id, o) && Settled(end, id) && Pay.RefundsOf(end.s.pay.refunds, o) == []
    decreases |steps|
  {
    hide Next, EndedUnrefunded, LedgerSound, Pay.RefundsOf, Settled;
    if steps == [] {
      UnrefundedHasNone(w.s, id, o);
    } else {
      StepKeepsLedger(w, steps[0]);
      EndedBooking(w.s, id, o);
      SettledStays(w, steps[0], id);
      UnrefundedStays(w, steps[0], id, o);
      SettledIsNeverRefunded(Next(w, steps[0]), steps[1..], end, id, o);
    }
  }

  lemma EndedBooking(s: System, id: int, o: int)
    requires EndedUnrefunded(s, id, o)
    ensures id in s.bookings && !s.bookings[id].Live()
  {
  }

  /**
   In a run whose writes come in time the same holds although looks of the booking are still under way: none of them
   takes effect any more.
   */
  lemma {:induction false} NoRefundAfterTheEnd(w: World, steps: seq<Step>, end: World, id: int, o: int)
    requires Sound(w) && OnTimeRun(w, steps, end) && EndedUnrefunded(w.s, id, o)
    ensures EndedUnrefunded(end.s, id, o) && Pay.RefundsOf(end.s.pay.refunds, o) == []
    decreases |steps|
  {
    hide Next, EndedUnrefunded, LedgerSound, Pay.RefundsOf, Sound, OnTime;
    SoundLedger(w);
    if steps == [] {
      UnrefundedHasNone(w.s, id, o);
    } else {
      StepKeepsSound(w, steps[0]);
      EndedBooking(w.s, id, o);
      EndedIsNoSubject(w, steps[0], id);
      UnrefundedStays(w, steps[0], id, o);
      NoRefundAfterTheEnd(Next(w, steps[0]), steps[1..], end, id, o);
    }
  }

  lemma SoundLedger(w: World)
    requires Sound(w)
    ensures LedgerSound(w.s)
  {
    hide Pay.LedgerInv, Pay.Balanced, TotalPrice, Pay.RefundsOf;
    forall id | id in w.s.bookings ensures LinkSound(w.s, id) {
      assert MoneySound(w.s, id);
    }
  }

  /** A step in time moves only bookings that have not ended. */
  lemma EndedIsNoSubject(w: World, t: Step, id: int)
    requires Sound(w) && Enabled(w, t) && OnTime(w, t) && id in w.s.bookings && !w.s.bookings[id].Live()
    ensures Subject(w, t).Some? ==> Subject(w, t).value != id
  {
    hide MoneyInv;
    if t.Claim? && Wins(w, t.h) {
      assert ReadSound(w.s, w.seen[t.h]);
    }
  }
}
