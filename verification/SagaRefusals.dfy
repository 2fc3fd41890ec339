/**
 Runs in which the inventory refuses a confirmation or an unlock because another transaction holds a seat row. No write comes
 late in them. Each starts in any state that keeps the invariant and in which a request is ready.
 */
module SagaRefusals {
  import opened Options
  import opened Inventory
  import opened InventoryRoundTrips
  import opened BookingSaga
  import opened SagaContention
  import SagaEndings
  import opened SagaMoney
  import opened SagaProgress
  import opened SagaRuns
  import opened SagaRunTools
  import opened SagaSeats
  import opened SagaTheorems
  import Pay = Payments
  import R = RedisLocks

  /** Every row the booking inserted is there, LOCKED and without a booking id. */
  ghost predicate StillLocked(s: System, id: int) {
    && id in s.bookings && s.bookings[id].seats != []
    && forall i: nat :: s.bookings[id].InRange(i) ==> i in s.inv.locks && s.inv.locks[i].state == Locked && s.inv.locks[i].booking == None
  }

  lemma LockedSoFar(s: System, s': System, id: int)
    requires SeatInv(s) && id in s.bookings && s.bookings[id].status in {SeatsHeld, PaymentPending}
    requires s'.inv == s.inv && id in s'.bookings
    requires s'.bookings[id].base == s.bookings[id].base && s'.bookings[id].seats == s.bookings[id].seats
    ensures StillLocked(s', id)
  {
    hide SeatInv;
    SagaEndings.RequestOf(s, id);
    forall i: nat | s.bookings[id].InRange(i) ensures i in s.inv.locks && s.inv.locks[i].state == Locked && s.inv.locks[i].booking == None {
      BookedRowBelongs(s, id, i);
    }
  }

  lemma ContendIs(w: World, busy: Busy)
    requires Inv(w)
    ensures Enabled(w, Contend(busy)) && Next(w, Contend(busy)) == w.(s := w.s.(busy := busy)) && Inv(Next(w, Contend(busy)))
  {
    StepInTime(w, Contend(busy));
    hide Inv;
  }

  /* ---- a confirmation ---- */

  function RefusedConfirmSteps(id: int, e: Pay.Event, h: int, busy: Busy): seq<Step> {
    [Contend(busy), Look(h, PaidMessage(e), id), Claim(h, false, None)]
  }

  lemma PaidOrder(s: System, id: int, e: Pay.Event)
    requires MoneyInv(s) && Interested(s, PaidMessage(e), id)
    ensures id in s.bookings && s.bookings[id].order in s.pay.orders && s.pay.orders[s.bookings[id].order].status == Pay.Captured
    ensures s.bookings[id].status == PaymentPending
  {
    InterestMeansPaid(s, e, id);
    hide MoneyInv;
  }

  /** The claim of a success handler whose confirmation is refused. */
  lemma RefusedConfirmClaim(s: System, id: int, e: Pay.Event)
    requires SeatInv(s) && MoneyInv(s) && Interested(s, PaidMessage(e), id) && !CallClear(s, id)
    ensures var s' := Claimed(s, Read(PaidMessage(e), id, s.bookings[id].version), false, None);
      && !SeatInv(s') && StillLocked(s', id) && s'.bookings[id].status == Confirmed
      && s'.bookings[id].order in s'.pay.orders && s'.pay.orders[s'.bookings[id].order].status == Pay.Captured
  {
    PaidOrder(s, id, e);
    hide SeatInv, MoneyInv, ConfirmPaid, CallClear, StillLocked, Interested;
    RefusedConfirmation(s, id, false);
    RefusedConfirmationBreaksInv(s, id, false);
    ConfirmParts(s, id, false);
    LockedSoFar(s, ConfirmPaid(s, id, false), id);
  }

  lemma StillInterested(s: System, busy: Busy, kind: Kind, id: int)
    requires Interested(s, kind, id)
    ensures Interested(s.(busy := busy), kind, id)
  {
  }

  lemma NowHeld(s: System, busy: Busy, id: int, r: Request)
    requires id in s.bookings && For(s.bookings[id], r)
    ensures CallClear(s.(busy := busy), id) <==> Clear(r.schedule, r.seats, busy.calls)
    ensures UnlockClear(s.(busy := busy), id) <==> Clear(r.schedule, r.seats, busy.unlocks)
  {
  }

  /**
   Another transaction holds one of the seat rows while the success handler confirms them: the booking is CONFIRMED, its
   payment captured, and all its rows stay LOCKED without its id.
   */
  lemma RefusedConfirmRun(w: World, r: Request, token: int, order: string, payment: string, h: int, busy: Busy) returns (end: World)
    requires Inv(w) && Ready(w, r, token, order, payment, h) && !Clear(r.schedule, r.seats, busy.calls)
    ensures var id := w.s.nextBooking;
      && OnTimeRun(w, CapturePath(w, r, token, order, payment) + RefusedConfirmSteps(id, PaidEvent(w, r, order, payment), h, busy), end)
      && !SeatInv(end.s) && StillLocked(end.s, id) && end.s.bookings[id].status == Confirmed
      && end.s.bookings[id].order in end.s.pay.orders && end.s.pay.orders[end.s.bookings[id].order].status == Pay.Captured
  {
    var (id, e) := (w.s.nextBooking, PaidEvent(w, r, order, payment));
    ReadyHandler(w, r, token, order, payment, h);
    assert RefusedConfirmSteps(id, e, h, busy) == [Contend(busy), Look(h, PaidMessage(e), id), Claim(h, false, None)];
    hide *;
    var v := CapturedRun(w, r, token, order, payment, h);
    AwaitingPays(w, v, id, e);
    ContendIs(v, busy);
    var v1 := Next(v, Contend(busy));
    StillInterested(v.s, busy, PaidMessage(e), id);
    NowHeld(v.s, busy, id, r);
    LookIs(v1, h, PaidMessage(e), id);
    var v2 := Next(v1, Look(h, PaidMessage(e), id));
    FreshReadWins(v1, v2, h, PaidMessage(e), id);
    ClaimIs(v2, h, false, None);
    PartsOfInv(v1);
    RefusedConfirmClaim(v1.s, id, e);
    end := Next(v2, Claim(h, false, None));
    AlwaysOnTime(v, Contend(busy));
    AlwaysOnTime(v1, Look(h, PaidMessage(e), id));
    AlwaysOnTime(v2, Claim(h, false, None));
    ThreeOnTime(v, Contend(busy), Look(h, PaidMessage(e), id), Claim(h, false, None));
    OnTimeThen(w, CapturePath(w, r, token, order, payment), v, RefusedConfirmSteps(id, e, h, busy), end);
  }

  /* ---- an unlock ---- */

  function RefusedUnlockPath(w: World, r: Request, token: int, d: int, busy: Busy): seq<Step> {
    [Start(r, token), HoldStep(w.s.nextBooking, false, None), LookDrop(d, r.user, w.s.nextBooking)] + [Contend(busy), DropStep(d)]
  }

  lemma RefusedCancel(s: System, id: int)
    requires SeatInv(s) && id in s.bookings && s.bookings[id].status == SeatsHeld && !UnlockClear(s, id)
    ensures var s' := Dropped(s, Drop(id, true, 0)); !SeatInv(s') && StillLocked(s', id) && s'.bookings[id].status == CancelledByUser
  {
    SagaEndings.OwnersComplete(s);
    hide SeatInv, CancelHeld, UnlockClear, StillLocked;
    RefusedCancelHeld(s, id, 0);
    EndsWithRowsLeaves(s, CancelHeld(s, id, 0), id);
    DropChanges(s, Drop(id, true, 0));
    LockedSoFar(s, CancelHeld(s, id, 0), id);
  }

  /** The same for the unlock of a user's cancel: the booking is CANCELLED and all its rows stay LOCKED. */
  lemma RefusedUnlockRun(w: World, r: Request, token: int, d: int, busy: Busy) returns (end: World)
    requires Inv(w) && Bookable(w.s, r) && R.CanAcquire(w.s.redis, KeyList(NewBooking(w.s, r, token))) && r.key !in w.s.requests
    requires d !in w.drops && SeatsClear(w.s, r) && !Clear(r.schedule, r.seats, busy.unlocks)
    ensures var id := w.s.nextBooking;
      && OnTimeRun(w, RefusedUnlockPath(w, r, token, d, busy), end) && !SeatInv(end.s) && StillLocked(end.s, id)
      && end.s.bookings[id].status == CancelledByUser
  {
    var id := w.s.nextBooking;
    assert RefusedUnlockPath(w, r, token, d, busy)
      == [Start(r, token), HoldStep(id, false, None), LookDrop(d, r.user, id)] + [Contend(busy), DropStep(d)];
    ClearOf(w.s, r);
    hide *;
    var w1 := StartedPending(w, r, token);
    ForIsClear(w.s, w1.s, id, r);
    var w2 := HeldInTime(w1, id);
    HeldFor(w1, w2, id, r);
    var v := LookedForCancel(w2, id, d);
    ContendIs(v, busy);
    NowHeld(v.s, busy, id, r);
    var v1 := Next(v, Contend(busy));
    DropIs(v1, d);
    PartsOfInv(v1);
    RefusedCancel(v1.s, id);
    end := Next(v1, DropStep(d));
    AlwaysOnTime(w, Start(r, token));
    AlwaysOnTime(w2, LookDrop(d, r.user, id));
    AlwaysOnTime(v, Contend(busy));
    HeldDropOnTime(v1, d);
    ThreeOnTime(w, Start(r, token), HoldStep(id, false, None), LookDrop(d, r.user, id));
    TwoOnTime(v, Contend(busy), DropStep(d));
    OnTimeThen(w, [Start(r, token), HoldStep(id, false, None), LookDrop(d, r.user, id)], v, [Contend(busy), DropStep(d)], end);
  }

  lemma HeldDropOnTime(w: World, d: int)
    requires d in w.drops && w.drops[d].held && w.drops[d].booking in w.s.bookings && w.s.bookings[w.drops[d].booking].status == SeatsHeld
    ensures OnTimeStep(w, DropStep(d))
  {
  }

  lemma HeldFor(w: World, v: World, id: int, r: Request)
    requires id in w.s.bookings && For(w.s.bookings[id], r)
    requires id in v.s.bookings && v.s.bookings[id] == w.s.bookings[id].(status := SeatsHeld, base := v.s.bookings[id].base)
    ensures For(v.s.bookings[id], r) && v.s.bookings[id].user == r.user
  {
  }
}
