/** What the tables of the payment service say over every run: each outcome is announced once, and no gateway id is used twice. */
module PaymentRecords {
  import opened Options
  import opened Payments

  /* ---- announcements ---- */

  function EventsOf(events: seq<Event>, o: int): seq<Event> {
    if events == [] then []
    else EventsOf(events[..|events| - 1], o) + (if events[|events| - 1].order == o then [events[|events| - 1]] else [])
  }

  lemma OneMoreEvent(events: seq<Event>, e: Event, o: int)
    ensures EventsOf(events + [e], o) == EventsOf(events, o) + (if e.order == o then [e] else [])
  {
    assert (events + [e])[..|events|] == events;
  }

  lemma {:induction false} NoEventYet(events: seq<Event>, o: int)
    requires forall e :: e in events ==> e.order != o
    ensures EventsOf(events, o) == []
  {
    if events != [] {
      NoEventYet(events[..|events| - 1], o);
    }
  }

  /** The message that a verified order has sent: its own data, FAILED or CAPTURED by the outcome. */
  function Announcement(l: Ledger, o: int): Event
    requires o in l.orders
  {
    var row := l.orders[o];
    Event(row.booking, o, row.gatewayOrder, row.gatewayPayment, row.amount, if row.status == Failed then Failed else Captured)
  }

  /** Nothing while the order is CREATED, and one message, this one, ever after. */
  ghost predicate AnnouncedOnce(l: Ledger, o: int)
    requires o in l.orders
  {
    EventsOf(l.events, o) == if l.orders[o].status == Created then [] else [Announcement(l, o)]
  }

  ghost predicate AllAnnounced(l: Ledger) {
    forall o :: o in l.orders ==> AnnouncedOnce(l, o)
  }

  lemma PlaceAnnounces(l: Ledger, c: Call)
    requires LedgerInv(l) && AllAnnounced(l) && c.PlaceOrder?
    ensures AllAnnounced(Apply(l, c).0)
  {
    OrderEffect(l, c.key, c.booking, c.user, c.amount, c.gateway);
    OrdersNumbered(l);
    hide CreateOrder, OrderSound;
    var l' := Apply(l, c).0;
    forall e | e in l.events ensures e.order != l.nextOrder {
      assert EventSound(l, e);
    }
    NoEventYet(l.events, l.nextOrder);
    forall o | o in l'.orders ensures AnnouncedOnce(l', o) {
      assert o in l.orders ==> AnnouncedOnce(l, o);
    }
  }

  lemma VerifyAnnounces(l: Ledger, c: Call)
    requires AllAnnounced(l) && c.VerifyPayment?
    ensures AllAnnounced(Apply(l, c).0)
  {
    var (l', reply) := Apply(l, c);
    hide PaymentIdTaken, EventsOf;
    if reply.Ok? {
      var e := l'.events[|l.events|];
      assert l'.events == l.events + [e];
      forall o | o in l'.orders ensures AnnouncedOnce(l', o) {
        OneMoreEvent(l.events, e, o);
        assert AnnouncedOnce(l, o);
      }
    }
  }

  lemma RefundAnnounces(l: Ledger, c: Call)
    requires AllAnnounced(l) && c.IssueRefund?
    ensures AllAnnounced(Apply(l, c).0)
  {
    RefundEffect(l, c.key, c.order, c.amount, c.gateway);
    hide CreateRefund, EventsOf;
    var l' := Apply(l, c).0;
    forall o | o in l'.orders ensures AnnouncedOnce(l', o) {
      assert AnnouncedOnce(l, o);
    }
  }

  lemma CallAnnounces(l: Ledger, c: Call)
    requires LedgerInv(l) && AllAnnounced(l)
    ensures AllAnnounced(Apply(l, c).0)
  {
    hide LedgerInv, AllAnnounced, Apply;
    match c
    case PlaceOrder(_, _, _, _, _) => PlaceAnnounces(l, c);
    case VerifyPayment(_, _, _) => VerifyAnnounces(l, c);
    case IssueRefund(_, _, _, _) => RefundAnnounces(l, c);
  }

  lemma {:induction false} RunAnnounces(l: Ledger, calls: seq<Call>)
    requires LedgerInv(l) && AllAnnounced(l)
    ensures AllAnnounced(Run(l, calls))
    decreases |calls|
  {
    hide LedgerInv, AllAnnounced, Apply;
    if calls != [] {
      CallAnnounces(l, calls[0]);
      CallKeepsLedger(l, calls[0]);
      RunAnnounces(Apply(l, calls[0]).0, calls[1..]);
    }
  }

  /**
   Over every run: an order that is CREATED has sent no message, and every other has sent exactly one, with its own booking,
   amount and gateway ids, FAILED if its verification failed and CAPTURED otherwise.
   */
  lemma OutcomeIsAnnouncedOnce(calls: seq<Call>, o: int)
    requires o in Run(EMPTY, calls).orders
    ensures var l := Run(EMPTY, calls);
      && (l.orders[o].status == Created ==> EventsOf(l.events, o) == [])
      && (l.orders[o].status != Created ==> EventsOf(l.events, o) == [Announcement(l, o)])
  {
    RunAnnounces(EMPTY, calls);
  }

  /** A verification is carried out exactly for a CREATED order and a payment id that no verified order has. */
  lemma VerificationGoesThroughIff(l: Ledger, o: int, payment: string, signatureOk: bool)
    ensures Verify(l, o, payment, signatureOk).1.Ok? <==> o in l.orders && l.orders[o].status == Created && !PaymentIdTaken(l, o, payment)
    ensures Verify(l, o, payment, signatureOk).1.Ok? ==>
      var row := Verify(l, o, payment, signatureOk).0.orders[o];
      row == l.orders[o].(gatewayPayment := payment, status := if signatureOk then Captured else Failed, version := row.version)
  {
  }

  /** An order is created exactly for positive amounts and ids, an unused key, and a gateway that answers with a new id. */
  lemma OrderGoesThroughIff(l: Ledger, key: Key, booking: int, user: int, amount: int, gateway: Option<string>)
    ensures CreateOrder(l, key, booking, user, amount, gateway).1.Ok? <==>
      user > 0 && booking > 0 && amount > 0 && key !in l.done && gateway.Some? && !UsesGatewayOrder(l, gateway.value)
  {
  }

  /** What a caller is told, each answer exactly in its case; whatever is not carried out changes nothing. */
  lemma OrderAnswers(l: Ledger, key: Key, booking: int, user: int, amount: int, gateway: Option<string>)
    ensures var (l', reply) := CreateOrder(l, key, booking, user, amount, gateway);
      var sane := user > 0 && booking > 0 && amount > 0;
      && (reply == Invalid <==> !sane)
      && (reply.Replayed? <==> sane && key in l.done) && (reply.Replayed? ==> reply.order == l.done[key])
      && (reply == GatewayFailed <==> sane && key !in l.done && gateway.None?)
      && (reply == DatabaseError <==> sane && key !in l.done && gateway.Some? && UsesGatewayOrder(l, gateway.value))
      && (!reply.Ok? ==> l' == l)
      && (reply.Ok? ==> reply.order == l.nextOrder && l'.orders[reply.order] == Order(booking, user, amount, gateway.value, "", Created, 0))
  {
  }

  lemma VerificationAnswers(l: Ledger, o: int, payment: string, signatureOk: bool)
    ensures var (l', reply) := Verify(l, o, payment, signatureOk);
      && (reply == NotFound <==> o !in l.orders)
      && (reply == AlreadyCaptured <==> o in l.orders && l.orders[o].status == Captured)
      && (reply.WrongStatus? <==> o in l.orders && l.orders[o].status !in {Created, Captured})
      && (reply.WrongStatus? ==> reply.status == l.orders[o].status)
      && (reply == DatabaseError <==> o in l.orders && l.orders[o].status == Created && PaymentIdTaken(l, o, payment))
      && (!reply.Ok? ==> l' == l) && (reply.Ok? ==> reply.order == o)
  {
  }

  /** The checks of a refund come in the order key, order, status, gateway ids, gateway. */
  lemma RefundAnswers(l: Ledger, key: Key, o: int, amount: int, gateway: Option<string>)
    ensures var (l', reply) := CreateRefund(l, key, o, amount, gateway);
      var open := o > 0 && amount > 0 && key !in l.done;
      && (reply == Invalid <==> o <= 0 || amount <= 0)
      && (reply.Replayed? <==> o > 0 && amount > 0 && key in l.done) && (reply.Replayed? ==> reply.order == l.done[key])
      && (reply == NotFound <==> open && o !in l.orders)
      && (reply.WrongStatus? <==> open && o in l.orders && l.orders[o].status !in {Captured, PartiallyRefunded})
      && (reply == NoGatewayOrder ==> l.orders[o].gatewayOrder == "")
      && (reply == NoGatewayPayment ==> l.orders[o].gatewayOrder != "" && l.orders[o].gatewayPayment == "")
      && (reply == GatewayFailed ==> gateway.None?) && (reply == DatabaseError ==> gateway.Some? && RefundIdTaken(l, gateway.value))
      && (!reply.Ok? ==> l' == l) && (reply.Ok? ==> reply.order == o)
  {
  }

  /* ---- gateway ids ---- */

  ghost predicate OrderIdsUnique(l: Ledger) {
    forall o, p :: o in l.orders && p in l.orders && o != p ==> l.orders[o].gatewayOrder != l.orders[p].gatewayOrder
  }

  ghost predicate PaymentIdsUnique(l: Ledger) {
    forall o, p :: o in l.orders && p in l.orders && o != p && l.orders[o].status != Created && l.orders[p].status != Created
      ==> l.orders[o].gatewayPayment != l.orders[p].gatewayPayment
  }

  ghost predicate RefundIdsUnique(l: Ledger) {
    forall i, j :: 0 <= i < j < |l.refunds| ==> l.refunds[i].gatewayRefund != l.refunds[j].gatewayRefund
  }

  ghost predicate IdsUnique(l: Ledger) {
    OrderIdsUnique(l) && PaymentIdsUnique(l) && RefundIdsUnique(l)
  }

  lemma CallKeepsIds(l: Ledger, c: Call)
    requires IdsUnique(l)
    ensures IdsUnique(Apply(l, c).0)
  {
    var l' := Apply(l, c).0;
    if c.IssueRefund? && l' != l {
      var r := l'.refunds[|l.refunds|];
      assert forall i :: 0 <= i < |l.refunds| ==> l.refunds[i] in l.refunds;
    }
  }

  /** Over every run the gateway ids of orders, of verified payments and of refunds are each given out once. */
  lemma {:induction false} GatewayIdsAreUnique(l: Ledger, calls: seq<Call>)
    requires IdsUnique(l)
    ensures IdsUnique(Run(l, calls))
    decreases |calls|
  {
    hide IdsUnique, Apply;
    if calls != [] {
      CallKeepsIds(l, calls[0]);
      GatewayIdsAreUnique(Apply(l, calls[0]).0, calls[1..]);
    }
  }
}
