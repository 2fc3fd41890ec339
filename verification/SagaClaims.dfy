/** Handlers that compensate without a claim, and the money behind every booking, over runs whose writes come in time. */
module SagaClaims {
  import opened Options
  import opened BookingSaga
  import opened SagaMoney
  import opened SagaRuns
  import opened SagaTheorems
  import opened SagaVersions
  import Pay = Payments

  /** The last step of a handler: its claim, or the compensation after it rolled back. */
  predicate Finishes(w: World, t: Step) {
    (t.Claim? || t.CompensateStep?) && Enabled(w, t)
  }

  function ReadBy(w: World, t: Step): Read
    requires Finishes(w, t)
  {
    if t.Claim? then w.seen[t.h] else w.rolled[t.h]
  }

  /** A claim that matches the version, or a compensation that comes in time. */
  predicate TakesEffect(w: World, t: Step)
    requires Finishes(w, t)
  {
    if t.Claim? then Wins(w, t.h) else OnTime(w, t)
  }

  lemma EffectBumps(w: World, t: Step)
    requires Sound(w) && Finishes(w, t) && TakesEffect(w, t)
    ensures var r := ReadBy(w, t);
      OnTime(w, t) && r.booking in w.s.bookings && r.booking in Next(w, t).s.bookings && Next(w, t).s.bookings[r.booking].version > r.version
  {
    hide MoneyInv, Claimed, ConfirmFaults, Interested;
    var r := ReadBy(w, t);
    assert ReadSound(w.s, r);
    match t
    case Claim(_, refreshed, gateway) => ClaimSettles(w.s, r, refreshed, gateway);
    case CompensateStep(_, gateway) => ConfirmFaultsSettles(w.s, r.booking, gateway);
  }

  lemma OldReadIsLate(w: World, t: Step)
    requires Sound(w) && Finishes(w, t) && w.s.bookings[ReadBy(w, t).booking].version > ReadBy(w, t).version
    ensures !TakesEffect(w, t) && (t.Claim? ==> Next(w, t).s == w.s)
  {
    hide MoneyInv;
  }

  /**
   Compensations after a rollback carry no version. Where writes by id alone come in time, at most one handler of those that
   read one version takes effect, be it by a claim or by a compensation.
   */
  lemma AtMostOneTakesEffect(w: World, t: Step, steps: seq<Step>, end: World, other: Step)
    requires Sound(w) && Finishes(w, t) && TakesEffect(w, t) && OnTimeRun(Next(w, t), steps, end)
    requires Finishes(end, other)
    requires ReadBy(end, other).booking == ReadBy(w, t).booking && ReadBy(end, other).version == ReadBy(w, t).version
    ensures !TakesEffect(end, other)
    ensures other.Claim? ==> Next(end, other).s == end.s
  {
    hide Sound, Next, OnTime, TakesEffect, NeverLowered, AlwaysUp;
    var id := ReadBy(w, t).booking;
    EffectBumps(w, t);
    StepKeepsSound(w, t);
    RunKeepsSound(Next(w, t), steps, end);
    OnTimeNeverLowers(Next(w, t), steps, end, id);
    OnTimeIsRun(Next(w, t), steps, end);
    SoundIsNumbered(Next(w, t));
    VersionsNeverDecreaseIff(Next(w, t), steps, end, id);
    OldReadIsLate(end, other);
  }

  lemma SoundIsNumbered(w: World)
    requires Sound(w)
    ensures Numbered(w.s)
  {
  }

  /* ---- money ---- */

  /** A confirmed booking has a captured order of its own, for the sum of its seat prices, with no refund. */
  lemma ConfirmedIsPaid(w: World, steps: seq<Step>, end: World, id: int)
    requires Initial(w) && OnTimeRun(w, steps, end) && id in end.s.bookings && end.s.bookings[id].status == Confirmed
    ensures var b := end.s.bookings[id];
      && b.order in end.s.pay.orders && end.s.pay.orders[b.order].booking == id
      && end.s.pay.orders[b.order].status == Pay.Captured
      && end.s.pay.orders[b.order].amount == b.amount == TotalPrice(end.s.inv.seats, b.schedule, b.seats)
      && Pay.RefundsOf(end.s.pay.refunds, b.order) == []
  {
    InitialInv(w);
    RunKeepsSound(w, steps, end);
    hide Pay.RefundsOf, TotalPrice, Pay.Balanced;
    assert MoneySound(end.s, id);
    assert Pay.OrderSound(end.s.pay, end.s.bookings[id].order);
  }

  /** A booking cancelled after its confirmation has one full refund, or none because the gateway refused it. */
  lemma CancelledAfterConfirmation(w: World, steps: seq<Step>, end: World, id: int)
    requires Initial(w) && OnTimeRun(w, steps, end) && id in end.s.bookings && end.s.bookings[id].reason == UserCancelled
    ensures var b := end.s.bookings[id];
      var refunds := Pay.RefundsOf(end.s.pay.refunds, b.order);
      && b.status == CancelledByUser && b.order in end.s.pay.orders && end.s.pay.orders[b.order].booking == id
      && end.s.pay.orders[b.order].status in {Pay.Captured, Pay.RefundInitiated}
      && (end.s.pay.orders[b.order].status == Pay.RefundInitiated <==> |refunds| == 1 && refunds[0].amount == b.amount)
      && (end.s.pay.orders[b.order].status == Pay.Captured <==> refunds == [])
  {
    InitialInv(w);
    RunKeepsSound(w, steps, end);
    hide Pay.RefundsOf, TotalPrice, Pay.Balanced;
    assert MoneySound(end.s, id);
    assert Pay.OrderSound(end.s.pay, end.s.bookings[id].order);
  }

  /** The refund of a cancelled confirmed booking is made exactly when the gateway accepts it under a new refund id. */
  lemma CancellationRefundsIff(w: World, t: Step)
    requires Sound(w) && t.Claim? && Enabled(w, t) && Wins(w, t.h) && w.seen[t.h].kind.UserCancel?
    ensures var (id, s') := (w.seen[t.h].booking, Next(w, t).s);
      var b := w.s.bookings[id];
      && b.order in s'.pay.orders
      && (s'.pay.orders[b.order].status == Pay.RefundInitiated <==> t.gateway.Some? && !Pay.RefundIdTaken(w.s.pay, t.gateway.value))
      && (t.gateway.Some? && !Pay.RefundIdTaken(w.s.pay, t.gateway.value) ==>
            Pay.RefundsOf(s'.pay.refunds, b.order) == [Pay.Refund(b.order, b.amount, t.gateway.value)])
  {
    var r := w.seen[t.h];
    assert ReadSound(w.s, r);
    RefundOfConfirmed(w.s, r.booking, t.gateway);
    LogOfPaid(w.s, r.booking);
    hide MoneyInv, CancelConfirmed, Pay.CreateRefund, Pay.RefundsOf;
    CancelConfirmedEnds(w.s, r.booking, t.gateway, t.refreshed);
  }

  lemma RefundOfConfirmed(s: System, id: int, gateway: Option<string>)
    requires MoneyInv(s) && id in s.bookings && s.bookings[id].status == Confirmed
    ensures var b := s.bookings[id];
      var l' := Pay.CreateRefund(s.pay, Pay.CancelKey(id), b.order, b.amount, gateway).0;
      && b.order in l'.orders
      && (l'.orders[b.order].status == Pay.RefundInitiated <==> gateway.Some? && !Pay.RefundIdTaken(s.pay, gateway.value))
      && (gateway.Some? && !Pay.RefundIdTaken(s.pay, gateway.value) ==>
            Pay.RefundsOf(l'.refunds, b.order) == [Pay.Refund(b.order, b.amount, gateway.value)])
  {
    hide Pay.RefundsOf, TotalPrice, Pay.Balanced, Pay.RefundIdTaken;
    var b := s.bookings[id];
    assert MoneySound(s, id);
    assert Pay.OrderSound(s.pay, b.order);
    if gateway.Some? {
      Pay.OneMoreRefund(s.pay.refunds, Pay.Refund(b.order, b.amount, gateway.value), b.order);
    }
  }
}
