/** The payment service: orders, their verification, refunds and the idempotency records that guard repeats. */
module Payments {
  import opened IntSets
  import opened Options

  datatype OrderStatus = Created | Captured | RefundInitiated | Refunded | PartiallyRefunded | Failed | Cancelled | Expired

  /** An empty gateway id stands for a missing one, as in the checks of the refund. */
  datatype Order = Order(booking: int, user: int, amount: int, gatewayOrder: string, gatewayPayment: string,
                         status: OrderStatus, version: nat)

  datatype Refund = Refund(order: int, amount: int, gatewayRefund: string)

  /** The idempotency keys that the booking service builds from a booking id, and all others. */
  datatype Key = PaymentKey(booking: int) | CompensationKey(booking: int) | CancelKey(booking: int) | Other(text: string)

  datatype Event = Event(booking: int, order: int, gatewayOrder: string, gatewayPayment: string, amount: int, status: OrderStatus)

  datatype Ledger = Ledger(orders: map<int, Order>, nextOrder: int, refunds: seq<Refund>, done: map<Key, int>, events: seq<Event>)

  datatype Reply = Ok(order: int) | Replayed(order: int) | AlreadyCaptured | NotFound | WrongStatus(status: OrderStatus)
                 | NoGatewayOrder | NoGatewayPayment | Invalid | GatewayFailed | DatabaseError

  /* ---- the operations ---- */

  predicate UsesGatewayOrder(l: Ledger, id: string) {
    exists o :: o in l.orders && l.orders[o].gatewayOrder == id
  }

  /** The column is unique; it is null until an order is verified. */
  predicate PaymentIdTaken(l: Ledger, o: int, id: string) {
    exists p :: p in l.orders && p != o && l.orders[p].status != Created && l.orders[p].gatewayPayment == id
  }

  predicate RefundIdTaken(l: Ledger, id: string) {
    exists r :: r in l.refunds && r.gatewayRefund == id
  }

  /** `gateway` is the order id the gateway assigned, or nothing when the call failed. */
  function CreateOrder(l: Ledger, key: Key, booking: int, user: int, amount: int, gateway: Option<string>): (Ledger, Reply) {
    if user <= 0 || booking <= 0 || amount <= 0 then (l, Invalid)
    else if key in l.done then (l, Replayed(l.done[key]))
    else if gateway.None? then (l, GatewayFailed)
    else if UsesGatewayOrder(l, gateway.value) then (l, DatabaseError)
    else
      (l.(orders := l.orders[l.nextOrder := Order(booking, user, amount, gateway.value, "", Created, 0)],
          nextOrder := l.nextOrder + 1, done := l.done[key := l.nextOrder]), Ok(l.nextOrder))
  }

  function Verify(l: Ledger, o: int, payment: string, signatureOk: bool): (Ledger, Reply) {
    if o !in l.orders then (l, NotFound)
    else if l.orders[o].status != Created && l.orders[o].status != Captured then (l, WrongStatus(l.orders[o].status))
    else if l.orders[o].status == Captured then (l, AlreadyCaptured)
    else if PaymentIdTaken(l, o, payment) then (l, DatabaseError)
    else
      var row := l.orders[o];
      var status := if signatureOk then Captured else Failed;
      (l.(orders := l.orders[o := row.(gatewayPayment := payment, status := status, version := row.version + 1)],
          events := l.events + [Event(row.booking, o, row.gatewayOrder, payment, row.amount, status)]), Ok(o))
  }

  /** `gateway` is the refund id the gateway assigned, or nothing when the call failed. */
  function CreateRefund(l: Ledger, key: Key, o: int, amount: int, gateway: Option<string>): (Ledger, Reply) {
    if o <= 0 || amount <= 0 then (l, Invalid)
    else if key in l.done then (l, Replayed(l.done[key]))
    else if o !in l.orders then (l, NotFound)
    else
      var row := l.orders[o];
      if row.status != Captured && row.status != PartiallyRefunded then (l, WrongStatus(row.status))
      else if row.gatewayOrder == "" then (l, NoGatewayOrder)
      else if row.gatewayPayment == "" then (l, NoGatewayPayment)
      else if gateway.None? then (l, GatewayFailed)
      else if RefundIdTaken(l, gateway.value) then (l, DatabaseError)
      else
        (l.(orders := l.orders[o := row.(status := RefundInitiated, version := row.version + 1)],
            refunds := l.refunds + [Refund(o, amount, gateway.value)], done := l.done[key := o]), Ok(o))
  }

  /* ---- the service object ---- */

  class PaymentService {
    var orders: map<int, Order>
    var nextOrder: int
    var refunds: seq<Refund>
    var done: map<Key, int>
    var events: seq<Event>

    function Contents(): Ledger
      reads this
    {
      Ledger(orders, nextOrder, refunds, done, events)
    }

    constructor ()
      ensures Contents() == EMPTY
    {
      orders, nextOrder, refunds, done, events := map[], 1, [], map[], [];
    }

    method CreatePaymentOrderDetails(key: Key, booking: int, user: int, amount: int, gateway: Option<string>) returns (reply: Reply)
      modifies this`orders, this`nextOrder, this`done
      ensures (Contents(), reply) == CreateOrder(old(Contents()), key, booking, user, amount, gateway)
    {
      if user <= 0 || booking <= 0 || amount <= 0 {
        return Invalid;
      }
      if key in done {
        return Replayed(done[key]);
      }
      if gateway.None? {
        return GatewayFailed;
      }
      if UsesGatewayOrder(Contents(), gateway.value) {
        return DatabaseError;
      }
      var id := nextOrder;
      orders := orders[id := Order(booking, user, amount, gateway.value, "", Created, 0)];
      nextOrder := nextOrder + 1;
      done := done[key := id];
      return Ok(id);
    }

    method VerifyPaymentDetails(o: int, payment: string, signatureOk: bool) returns (reply: Reply)
      modifies this`orders, this`events
      ensures (Contents(), reply) == Verify(old(Contents()), o, payment, signatureOk)
    {
      if o !in orders {
        return NotFound;
      }
      var row := orders[o];
      if row.status !in {Created, Captured} {
        return WrongStatus(row.status);
      }
      if row.status == Captured {
        return AlreadyCaptured;
      }
      if PaymentIdTaken(Contents(), o, payment) {
        return DatabaseError;
      }
      var status := if signatureOk then Captured else Failed;
      orders := orders[o := row.(gatewayPayment := payment, status := status, version := row.version + 1)];
      events := events + [Event(row.booking, o, row.gatewayOrder, payment, row.amount, status)];
      return Ok(o);
    }

    method CreatePaymentRefundDetails(key: Key, o: int, amount: int, gateway: Option<string>) returns (reply: Reply)
      modifies this`orders, this`refunds, this`done
      ensures (Contents(), reply) == CreateRefund(old(Contents()), key, o, amount, gateway)
    {
      if o <= 0 || amount <= 0 {
        return Invalid;
      }
      if key in done {
        return Replayed(done[key]);
      }
      if o !in orders {
        return NotFound;
      }
      var row := orders[o];
      if row.status !in {Captured, PartiallyRefunded} {
        return WrongStatus(row.status);
      }
      if row.gatewayOrder == "" {
        return NoGatewayOrder;
      }
      if row.gatewayPayment == "" {
        return NoGatewayPayment;
      }
      if gateway.None? {
        return GatewayFailed;
      }
      if RefundIdTaken(Contents(), gateway.value) {
        return DatabaseError;
      }
      refunds := refunds + [Refund(o, amount, gateway.value)];
      orders := orders[o := row.(status := RefundInitiated, version := row.version + 1)];
      done := done[key := o];
      return Ok(o);
    }
  }

  const EMPTY := Ledger(map[], 1, [], map[], [])

  /* ---- what every sequence of calls keeps ---- */

  function RefundsOf(refunds: seq<Refund>, o: int): seq<Refund> {
    if refunds == [] then []
    else RefundsOf(refunds[..|refunds| - 1], o) + (if refunds[|refunds| - 1].order == o then [refunds[|refunds| - 1]] else [])
  }

  /** One refund when it has been initiated, none otherwise. */
  ghost predicate OrderSound(l: Ledger, o: int)
    requires o in l.orders
  {
    var row := l.orders[o];
    && 0 < o < l.nextOrder && row.amount > 0
    && row.status in {Created, Captured, RefundInitiated, Failed}
    && |RefundsOf(l.refunds, o)| == (if row.status == RefundInitiated then 1 else 0)
  }

  /** An event announces a verification that took place and was not undone. */
  ghost predicate EventSound(l: Ledger, e: Event) {
    && e.order in l.orders
    && var row := l.orders[e.order];
    && row.booking == e.booking && row.gatewayOrder == e.gatewayOrder && row.gatewayPayment == e.gatewayPayment
    && row.amount == e.amount
    && (e.status == Captured ==> row.status == Captured || row.status == RefundInitiated)
    && (e.status != Captured ==> e.status == Failed && row.status == Failed)
  }

  ghost predicate LedgerInv(l: Ledger) {
    && l.nextOrder > 0
    && (forall o :: o in l.orders ==> OrderSound(l, o))
    && (forall e :: e in l.events ==> EventSound(l, e))
    && (forall r :: r in l.refunds ==> r.order in l.orders)
  }

  datatype Call =
    | PlaceOrder(key: Key, booking: int, user: int, amount: int, gateway: Option<string>)
    | VerifyPayment(order: int, payment: string, signatureOk: bool)
    | IssueRefund(key: Key, order: int, amount: int, gateway: Option<string>)

  function Apply(l: Ledger, c: Call): (Ledger, Reply) {
    match c
    case PlaceOrder(key, booking, user, amount, gateway) => CreateOrder(l, key, booking, user, amount, gateway)
    case VerifyPayment(o, payment, signatureOk) => Verify(l, o, payment, signatureOk)
    case IssueRefund(key, o, amount, gateway) => CreateRefund(l, key, o, amount, gateway)
  }

  lemma {:induction false} NoRefundYet(refunds: seq<Refund>, o: int)
    requires forall r :: r in refunds ==> r.order != o
    ensures RefundsOf(refunds, o) == []
  {
    if refunds != [] {
      NoRefundYet(refunds[..|refunds| - 1], o);
    }
  }

  lemma OneMoreRefund(refunds: seq<Refund>, r: Refund, o: int)
    ensures RefundsOf(refunds + [r], o) == RefundsOf(refunds, o) + (if r.order == o then [r] else [])
  {
    assert (refunds + [r])[..|refunds|] == refunds;
  }

  lemma CreateKeepsLedger(l: Ledger, c: Call)
    requires LedgerInv(l) && c.PlaceOrder?
    ensures LedgerInv(Apply(l, c).0)
  {
    var l' := Apply(l, c).0;
    NoRefundYet(l.refunds, l.nextOrder);
    forall o | o in l'.orders ensures OrderSound(l', o) {
      assert o in l.orders ==> OrderSound(l, o);
    }
    forall e | e in l'.events ensures EventSound(l', e) {
      assert EventSound(l, e);
      assert OrderSound(l, e.order);
    }
  }

  lemma VerifyKeepsLedger(l: Ledger, c: Call)
    requires LedgerInv(l) && c.VerifyPayment?
    ensures LedgerInv(Apply(l, c).0)
  {
    var l' := Apply(l, c).0;
    forall o | o in l'.orders ensures OrderSound(l', o) {
      assert OrderSound(l, o);
    }
    forall e | e in l'.events ensures EventSound(l', e) {
      assert e in l.events ==> EventSound(l, e);
    }
  }

  lemma RefundKeepsLedger(l: Ledger, c: Call)
    requires LedgerInv(l) && c.IssueRefund?
    ensures LedgerInv(Apply(l, c).0)
  {
    if Apply(l, c).1.Ok? {
      RefundEffect(l, c.key, c.order, c.amount, c.gateway);
      RefundedKeepsLedger(l, Apply(l, c).0, c.order, c.amount, c.gateway.value);
    }
  }

  lemma RefundEffect(l: Ledger, key: Key, o: int, amount: int, gateway: Option<string>)
    ensures var (l', reply) := CreateRefund(l, key, o, amount, gateway);
      if !reply.Ok? then l' == l
      else
        && o > 0 && amount > 0 && gateway.Some? && o in l.orders && l.orders[o].status in {Captured, PartiallyRefunded}
        && l'.nextOrder == l.nextOrder && l'.events == l.events && l'.refunds == l.refunds + [Refund(o, amount, gateway.value)]
        && l'.orders == l.orders[o := l.orders[o].(status := RefundInitiated, version := l.orders[o].version + 1)]
  {
  }

  lemma OrderEffect(l: Ledger, key: Key, booking: int, user: int, amount: int, gateway: Option<string>)
    ensures var (l', reply) := CreateOrder(l, key, booking, user, amount, gateway);
      if !reply.Ok? then l' == l
      else
        && reply.order == l.nextOrder && gateway.Some?
        && l' == l.(orders := l.orders[l.nextOrder := Order(booking, user, amount, gateway.value, "", Created, 0)],
                    nextOrder := l.nextOrder + 1, done := l.done[key := l.nextOrder])
  {
  }

  lemma VerifyEffect(l: Ledger, o: int, payment: string, signatureOk: bool)
    ensures var (l', reply) := Verify(l, o, payment, signatureOk);
      if !reply.Ok? then l' == l
      else
        var status := if signatureOk then Captured else Failed;
        && o in l.orders && l.orders[o].status == Created && l'.refunds == l.refunds && l'.nextOrder == l.nextOrder
        && l'.orders == l.orders[o := l.orders[o].(gatewayPayment := payment, status := status, version := l.orders[o].version + 1)]
  {
  }

  lemma OrdersNumbered(l: Ledger)
    requires LedgerInv(l)
    ensures forall o :: o in l.orders ==> 0 < o < l.nextOrder
  {
    forall o | o in l.orders ensures 0 < o < l.nextOrder {
      assert OrderSound(l, o);
    }
  }

  lemma RefundedKeepsLedger(l: Ledger, l': Ledger, o: int, amount: int, id: string)
    requires LedgerInv(l) && o in l.orders && l.orders[o].status in {Captured, PartiallyRefunded}
    requires l'.nextOrder == l.nextOrder && l'.events == l.events && l'.refunds == l.refunds + [Refund(o, amount, id)]
    requires l'.orders == l.orders[o := l.orders[o].(status := RefundInitiated, version := l.orders[o].version + 1)]
    ensures LedgerInv(l')
  {
    hide RefundsOf;
    forall p | p in l'.orders ensures OrderSound(l', p) {
      assert OrderSound(l, p) && OrderSound(l, o);
      OneMoreRefund(l.refunds, Refund(o, amount, id), p);
    }
    forall e | e in l'.events ensures EventSound(l', e) {
      assert EventSound(l, e);
    }
  }

  lemma CallKeepsLedger(l: Ledger, c: Call)
    requires LedgerInv(l)
    ensures LedgerInv(Apply(l, c).0)
  {
    match c
    case PlaceOrder(_, _, _, _, _) => CreateKeepsLedger(l, c);
    case VerifyPayment(_, _, _) => VerifyKeepsLedger(l, c);
    case IssueRefund(_, _, _, _) => RefundKeepsLedger(l, c);
  }

  function Run(l: Ledger, calls: seq<Call>): Ledger
    decreases |calls|
  {
    if calls == [] then l else Run(Apply(l, calls[0]).0, calls[1..])
  }

  lemma {:induction false} RunKeepsLedger(l: Ledger, calls: seq<Call>)
    requires LedgerInv(l)
    ensures LedgerInv(Run(l, calls))
    decreases |calls|
  {
    if calls != [] {
      CallKeepsLedger(l, calls[0]);
      RunKeepsLedger(Apply(l, calls[0]).0, calls[1..]);
    }
  }

  /** Whatever keys the refunds carry, an order gets at most one, and gets it only after its payment was captured. */
  lemma AtMostOneRefund(calls: seq<Call>, o: int)
    requires o in Run(EMPTY, calls).orders
    ensures var l := Run(EMPTY, calls);
      |RefundsOf(l.refunds, o)| <= 1 && (RefundsOf(l.refunds, o) != [] <==> l.orders[o].status == RefundInitiated)
  {
    RunKeepsLedger(EMPTY, calls);
    assert OrderSound(Run(EMPTY, calls), o);
  }

  /** Repeating an accepted request under its key changes nothing and names the same order. */
  lemma RepeatIsHarmless(l: Ledger, c: Call, again: Call)
    requires (c.PlaceOrder? && again.PlaceOrder?) || (c.IssueRefund? && again.IssueRefund?)
    requires Apply(l, c).1.Ok? && again.key == c.key
    requires again.PlaceOrder? ==> again.user > 0 && again.booking > 0 && again.amount > 0
    requires again.IssueRefund? ==> again.order > 0 && again.amount > 0
    ensures Apply(Apply(l, c).0, again) == (Apply(l, c).0, Replayed(Apply(l, c).1.order))
  {
  }

  /* ---- money ---- */

  function Sum(orders: map<int, Order>, ids: set<int>, st: OrderStatus): int
    requires ids <= orders.Keys
  {
    if ids == {} then 0
    else
      var o := Smallest(ids);
      (if orders[o].status == st then orders[o].amount else 0) + Sum(orders, ids - {o}, st)
  }

  function Returned(refunds: seq<Refund>): int {
    if refunds == [] then 0 else Returned(refunds[..|refunds| - 1]) + refunds[|refunds| - 1].amount
  }

  function Collected(events: seq<Event>): int {
    if events == [] then 0
    else Collected(events[..|events| - 1]) + (if events[|events| - 1].status == Captured then events[|events| - 1].amount else 0)
  }

  lemma {:induction false} SumChangesAt(a: map<int, Order>, b: map<int, Order>, ids: set<int>, o: int, st: OrderStatus)
    requires ids <= a.Keys && ids <= b.Keys && forall p :: p in ids && p != o ==> a[p] == b[p]
    ensures o !in ids ==> Sum(b, ids, st) == Sum(a, ids, st)
    ensures o in ids ==> Sum(b, ids, st) - Share(b, o, st) == Sum(a, ids, st) - Share(a, o, st)
    decreases ids
  {
    if ids != {} {
      SumChangesAt(a, b, ids - {Smallest(ids)}, o, st);
    }
  }

  function Share(orders: map<int, Order>, o: int, st: OrderStatus): int
    requires o in orders
  {
    if orders[o].status == st then orders[o].amount else 0
  }

  lemma {:induction false} SumAdds(orders: map<int, Order>, ids: set<int>, o: int, st: OrderStatus)
    requires ids <= orders.Keys && o in ids
    ensures Sum(orders, ids, st) == Share(orders, o, st) + Sum(orders, ids - {o}, st)
    decreases ids
  {
    var s := Smallest(ids);
    if s != o {
      SumAdds(orders, ids - {s}, o, st);
      assert ids - {s} - {o} == ids - {o} - {s};
      SmallestOfRest(ids, o);
    }
  }

  /** What the service holds: everything captured and not given back. */
  function Held(l: Ledger): int {
    Sum(l.orders, l.orders.Keys, Captured)
  }

  ghost predicate Balanced(l: Ledger) {
    Collected(l.events) - Returned(l.refunds) == Held(l)
  }

  lemma UpdateMovesHeld(l: Ledger, l': Ledger, o: int)
    requires o in l.orders && l'.orders.Keys == l.orders.Keys && forall p :: p in l.orders && p != o ==> l'.orders[p] == l.orders[p]
    ensures Held(l') - Share(l'.orders, o, Captured) == Held(l) - Share(l.orders, o, Captured)
  {
    SumChangesAt(l.orders, l'.orders, l.orders.Keys, o, Captured);
  }

  lemma CreationKeepsHeld(l: Ledger, l': Ledger, o: int, row: Order)
    requires o !in l.orders && l'.orders == l.orders[o := row] && row.status == Created
    ensures Held(l') == Held(l)
  {
    SumAdds(l'.orders, l'.orders.Keys, o, Captured);
    assert l'.orders.Keys - {o} == l.orders.Keys;
    SumChangesAt(l.orders, l'.orders, l.orders.Keys, o, Captured);
  }

  lemma PlaceKeepsBalance(l: Ledger, c: Call)
    requires LedgerInv(l) && Balanced(l) && c.PlaceOrder? && Apply(l, c).1.Ok?
    ensures Balanced(Apply(l, c).0)
  {
    hide UsesGatewayOrder, EventSound;
    var l' := Apply(l, c).0;
    forall o | o in l.orders ensures o < l.nextOrder {
      assert OrderSound(l, o);
    }
    CreationKeepsHeld(l, l', l.nextOrder, l'.orders[l.nextOrder]);
  }

  lemma VerifyKeepsBalance(l: Ledger, c: Call)
    requires Balanced(l) && c.VerifyPayment? && Apply(l, c).1.Ok?
    ensures Balanced(Apply(l, c).0)
  {
    hide PaymentIdTaken, Held;
    var l' := Apply(l, c).0;
    UpdateMovesHeld(l, l', c.order);
    assert l'.events[..|l.events|] == l.events;
  }

  lemma OnlyCapturedRefunded(l: Ledger, o: int)
    requires LedgerInv(l) && o in l.orders && l.orders[o].status in {Captured, PartiallyRefunded}
    ensures l.orders[o].status == Captured
  {
    assert OrderSound(l, o);
  }

  /** The books after one more refund of a captured order. */
  lemma RefundMovesBooks(l: Ledger, l': Ledger, o: int, amount: int, id: string)
    requires o in l.orders && l.orders[o].status == Captured
    requires l'.events == l.events && l'.refunds == l.refunds + [Refund(o, amount, id)]
    requires l'.orders == l.orders[o := l.orders[o].(status := RefundInitiated, version := l.orders[o].version + 1)]
    ensures Held(l') == Held(l) - l.orders[o].amount && Returned(l'.refunds) == Returned(l.refunds) + amount
  {
    hide Held;
    UpdateMovesHeld(l, l', o);
    assert l'.refunds[..|l.refunds|] == l.refunds;
  }

  lemma RefundKeepsBalanceIff(l: Ledger, c: Call)
    requires LedgerInv(l) && Balanced(l) && c.IssueRefund? && Apply(l, c).1.Ok?
    ensures Balanced(Apply(l, c).0) <==> c.amount == l.orders[c.order].amount
  {
    hide Held, LedgerInv, CreateRefund, Collected, Returned;
    RefundEffect(l, c.key, c.order, c.amount, c.gateway);
    OnlyCapturedRefunded(l, c.order);
    RefundMovesBooks(l, Apply(l, c).0, c.order, c.amount, c.gateway.value);
  }

  /** The guards of a refund that a caller can check: the gateway's answer is all that is left open. */
  predicate Refundable(l: Ledger, key: Key, o: int, amount: int) {
    && o > 0 && amount > 0 && key !in l.done && o in l.orders
    && (l.orders[o].status == Captured || l.orders[o].status == PartiallyRefunded)
    && l.orders[o].gatewayOrder != "" && l.orders[o].gatewayPayment != ""
  }

  /** The gateway took the refund and gave it an id that no other refund has. */
  predicate GatewayRefunds(l: Ledger, gateway: Option<string>) {
    gateway.Some? && !RefundIdTaken(l, gateway.value)
  }

  lemma RefundGoesThroughIff(l: Ledger, key: Key, o: int, amount: int, gateway: Option<string>)
    ensures CreateRefund(l, key, o, amount, gateway).1.Ok? <==> Refundable(l, key, o, amount) && GatewayRefunds(l, gateway)
  {
  }

  /**
   Collected minus returned equals what captured orders hold. A call breaks this exactly when it is a refund that passes
   the guards and the gateway, of another amount than the order's: the service does not compare the two amounts.
   */
  lemma CallKeepsBalanceIff(l: Ledger, c: Call)
    requires LedgerInv(l) && Balanced(l)
    ensures Balanced(Apply(l, c).0) <==>
      !(c.IssueRefund? && Refundable(l, c.key, c.order, c.amount) && GatewayRefunds(l, c.gateway)
        && c.amount != l.orders[c.order].amount)
  {
    if c.IssueRefund? {
      RefundGoesThroughIff(l, c.key, c.order, c.amount, c.gateway);
    }
    hide LedgerInv, Balanced, Refundable, GatewayRefunds;
    if Apply(l, c).1.Ok? {
      match c
      case PlaceOrder(_, _, _, _, _) => PlaceKeepsBalance(l, c);
      case VerifyPayment(_, _, _) => VerifyKeepsBalance(l, c);
      case IssueRefund(_, _, _, _) => RefundKeepsBalanceIff(l, c);
    }
  }
}
