/** Repeated requests, strangers and stray messages: over every run they change nothing. */
module SagaRequests {
  import opened Options
  import opened IntSets
  import opened Inventory
  import opened InventoryInvariants
  import opened BookingSaga
  import opened SagaMoney
  import opened SagaRuns
  import opened SagaSteps
  import opened SagaTheorems
  import Pay = Payments
  import R = RedisLocks
  import Query = SeatQuery

  /* ---- which requests create a booking ---- */

  /** No active row of the seat overlaps the segment. */
  predicate SeatFree(db: Db, schedule: int, seat: int, seg: Segment) {
    && SeatKey(schedule, seat) in db.seats
    && forall i :: i in db.locks && db.locks[i].key == SeatKey(schedule, seat) && db.locks[i].Active() ==> !db.locks[i].seg.Overlaps(seg)
  }

  lemma AvailableIff(db: Db, schedule: int, seats: seq<int>, seg: Segment)
    requires StatusesAgree(db)
    ensures Query.AllReportedAvailable(db, schedule, seats, seg) <==>
      schedule in db.schedules && forall x :: x in seats ==> SeatFree(db, schedule, x, seg)
  {
    hide Query.Report, StatusesAgree;
    if schedule in db.schedules {
      var shown := Query.Availability(db, schedule, seats, seg).value;
      forall x | x in seats
        ensures x in shown && shown[x].segment == Query.SegmentAvailable <==> SeatFree(db, schedule, x, seg)
      {
        if x in shown {
          Query.ReportedAvailableIff(db, schedule, seats, seg, x);
        }
      }
    }
  }

  lemma KeysFreeIff(s: System, b: Booking)
    requires Distinct(b.seats)
    ensures R.CanAcquire(s.redis, KeyList(b)) <==> forall x :: x in b.seats ==> Key(b, x) !in s.redis
  {
    forall x | x in b.seats ensures Key(b, x) in KeyList(b) {
      var k :| 0 <= k < |b.seats| && b.seats[k] == x;
      assert KeyList(b)[k] == Key(b, x);
    }
  }

  /**
   A start creates a booking exactly for a well-formed request under a new key, on an active schedule, for distinct seats that
   exist, that no active row overlaps, and whose Redis keys are free.
   */
  lemma StartSucceedsIff(s: System, r: Request, token: int)
    requires Invariant(s.inv)
    ensures Begin(s, r, token).nextBooking != s.nextBooking <==>
      && r.user > 0 && r.schedule > 0 && r.seats != [] && Distinct(r.seats) && (forall x :: x in r.seats ==> x > 0) && 0 < r.seg.from < r.seg.to
      && r.schedule in s.inv.schedules && s.inv.schedules[r.schedule].state == Active
      && (forall x :: x in r.seats ==>
            SeatFree(s.inv, r.schedule, x, r.seg) && R.LockKey(r.schedule, x, r.seg.from, r.seg.to) !in s.redis)
      && r.key !in s.requests
  {
    AvailableIff(s.inv, r.schedule, r.seats, r.seg);
    if Distinct(r.seats) {
      KeysFreeIff(s, NewBooking(s, r, token));
    }
    hide Query.AllReportedAvailable, R.CanAcquire, KeyList, SeatFree, TotalPrice, Invariant, Distinct, R.Acquired, R.Released;
  }

  /* ---- request keys ---- */

  /** No request key is forgotten, and the history names a booking for every Redis key. */
  predicate Remembers(s: System, s': System) {
    s.requests <= s'.requests && (s.holder.Keys == s.redis.Keys ==> s'.holder.Keys == s'.redis.Keys)
  }

  /** A key once used stays used, whatever the step. */
  lemma StepKeepsRequests(w: World, t: Step)
    requires Enabled(w, t)
    ensures Remembers(w.s, Next(w, t).s)
  {
    hide HoldSucceeds, Interested, LockUnder, R.Released, R.ForceReleased, R.Acquired, Bookable, CompensateAll, ConfirmUnder,
      UnlockUnder, CancelSeats, Pay.CreateRefund, Pay.CreateOrder, Pay.Verify;
    match t
    case HoldStep(id, lost, gateway) => HoldKeepsRequests(w.s, id, lost, gateway);
    case PaymentStep(id, order, lost, gateway) => PaymentKeepsRequests(w.s, id, order, lost, gateway);
    case Claim(h, refreshed, gateway) => ClaimKeepsRequests(w.s, w.seen[h], refreshed, gateway);
    case CompensateStep(h, gateway) => CompensationKeepsRequests(w.s, w.rolled[h].booking, LogOf(w.s, w.rolled[h].booking), gateway);
    case DropStep(h) => DropKeepsRequests(w.s, w.drops[h]);
    case _ =>
  }

  lemma {:induction false} CompensationKeepsRequests(s: System, id: int, log: seq<SagaStep>, gateway: Option<string>)
    requires id in s.bookings
    ensures var c := CompensateAll(s, id, log, gateway); c.requests == s.requests && c.redis == s.redis && c.holder == s.holder
    decreases |log|
  {
    hide UnlockUnder, Pay.CreateRefund;
    if log != [] {
      CompensationKeepsRequests(s, id, log[..|log| - 1], gateway);
    }
  }

  lemma DropKeepsRequests(s: System, d: Drop)
    requires d.booking in s.bookings
    ensures Remembers(s, Dropped(s, d))
  {
    hide UnlockUnder, R.ForceReleased;
  }

  lemma HoldKeepsRequests(s: System, id: int, lost: bool, gateway: Option<string>)
    requires id in s.bookings
    ensures Remembers(s, Hold(s, id, lost, gateway))
  {
    hide LockUnder, CompensateAll, R.Released;
    var b := s.bookings[id];
    var inv := LockUnder(s.inv, s.busy.calls, b.user, b.schedule, b.seats, b.seg).0;
    var t := WithBooking(WithInventory(s, id, inv), id, b.(base := s.inv.nextId));
    CompensationKeepsRequests(t, id, LogOf(t, id), gateway);
    HoldCases(s, id, lost, gateway);
  }

  lemma PaymentKeepsRequests(s: System, id: int, order: Option<string>, lost: bool, gateway: Option<string>)
    requires id in s.bookings
    ensures Remembers(s, RequestPayment(s, id, order, lost, gateway))
  {
    hide Pay.CreateOrder, CompensateAll, R.Released;
    var b := s.bookings[id];
    var pay := Pay.CreateOrder(s.pay, Pay.PaymentKey(id), id, b.user, b.amount, order).0;
    var t := s.(pay := pay, logs := s.logs[id := LogOf(s, id) + [CreatePayment]]);
    CompensationKeepsRequests(t, id, LogOf(t, id), gateway);
  }

  lemma FailureKeepsRequests(s: System, id: int, gateway: Option<string>)
    requires id in s.bookings
    ensures Remembers(s, PaymentFails(s, id, gateway))
  {
    hide CompensateAll, R.ForceReleased;
    var b := s.bookings[id];
    var claimed := WithBooking(s, id, b.(status := Failed, reason := OtherFailure, version := b.version + 1));
    CompensationKeepsRequests(claimed, id, LogOf(s, id), gateway);
  }

  lemma ClaimKeepsRequests(s: System, r: Read, refreshed: bool, gateway: Option<string>)
    requires r.booking in s.bookings
    ensures Remembers(s, Claimed(s, r, refreshed, gateway))
  {
    hide ConfirmUnder, CancelSeats, PaymentFails, R.ForceReleased, Pay.CreateRefund;
    FailureKeepsRequests(s, r.booking, gateway);
  }

  lemma {:induction false} RunKeepsRequests(w: World, steps: seq<Step>, end: World)
    requires IsRun(w, steps, end)
    ensures Remembers(w.s, end.s)
    decreases |steps|
  {
    hide Next, Enabled;
    if steps != [] {
      StepKeepsRequests(w, steps[0]);
      RunKeepsRequests(Next(w, steps[0]), steps[1..], end);
    }
  }

  /**
   A request that created a booking creates no second one: after any run, a start under the same key changes nothing, whatever
   else it asks for.
   */
  lemma RepeatedRequestCreatesNothing(w: World, r: Request, token: int, steps: seq<Step>, end: World, again: Request, token': int)
    requires Next(w, Start(r, token)).s.nextBooking != w.s.nextBooking && again.key == r.key
    requires IsRun(Next(w, Start(r, token)), steps, end) && w.s.holder.Keys == w.s.redis.Keys
    ensures Next(end, Start(again, token')) == end
  {
    hide IsRun, Bookable, R.Acquired, R.Released, R.CanAcquire, KeyList, NewBooking;
    StepKeepsRequests(w, Start(r, token));
    RunKeepsRequests(Next(w, Start(r, token)), steps, end);
    FailedBeginChangesNothing(end.s, again, token');
  }

  /* ---- strangers and stray messages ---- */

  /** A cancel of somebody else's booking, or of none, is not remembered, so it never takes effect. */
  lemma StrangerCancelsNothing(w: World, h: int, user: int, id: int)
    requires id !in w.s.bookings || w.s.bookings[id].user != user
    ensures Enabled(w, Look(h, UserCancel(user), id)) ==> Next(w, Look(h, UserCancel(user), id)) == w
    ensures Enabled(w, LookDrop(h, user, id)) ==> Next(w, LookDrop(h, user, id)) == w
  {
  }

  /**
   A payment message is acted upon exactly when it was published, names the booking and the order it has now, both gateway
   ids, and an outcome for this handler, and the booking awaits its payment.
   */
  lemma MessageMattersIff(w: World, h: int, e: Pay.Event, id: int, kind: Kind)
    requires h !in w.seen && kind in {PaidMessage(e), UnpaidMessage(e)}
    ensures Next(w, Look(h, kind, id)) != w <==>
      && e in w.s.pay.events && id in w.s.bookings && w.s.bookings[id].status == PaymentPending
      && e.booking == id && e.order == w.s.bookings[id].order && e.order > 0 && e.gatewayOrder != "" && e.gatewayPayment != ""
      && (kind.PaidMessage? <==> e.status == Pay.Captured)
  {
    assert kind == PaidMessage(e) || kind == UnpaidMessage(e);
    if Interested(w.s, kind, id) {
      assert h in Next(w, Look(h, kind, id)).seen;
    }
  }

  /** What a claim works on was read under these conditions by the same handler. */
  lemma LookRemembers(w: World, h: int, kind: Kind, id: int)
    requires h !in w.seen && Next(w, Look(h, kind, id)) != w
    ensures Next(w, Look(h, kind, id)) == w.(seen := w.seen[h := Read(kind, id, w.s.bookings[id].version)])
  {
    hide Interested;
  }
}
