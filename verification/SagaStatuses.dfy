/** The statuses a booking goes through, what each step counts up, and what never changes about a booking. */
module SagaStatuses {
  import opened Options
  import opened Inventory
  import opened BookingSaga
  import opened SagaMoney
  import opened SagaRuns
  import opened SagaSeats
  import opened SagaSteps
  import opened SagaTheorems
  import opened SagaVersions
  import Pay = Payments
  import R = RedisLocks

  /* ---- what a step makes of the booking it is about ---- */

  /** A winning claim confirms, fails or cancels, and counts the version up once or, where the second write saw the first, twice. */
  function Settled(b: Booking, kind: Kind, refreshed: bool): Booking {
    match kind
    case PaidMessage(_) => b.(status := Confirmed, version := b.version + (if refreshed then 2 else 1))
    case UnpaidMessage(_) => b.(status := Failed, reason := OtherFailure, version := b.version + 1)
    case UserCancel(_) => b.(status := CancelledByUser, reason := UserCancelled, version := b.version + (if refreshed then 2 else 1))
  }

  lemma ConfirmMakes(s: System, r: Read, refreshed: bool, gateway: Option<string>)
    requires r.booking in s.bookings && r.kind.PaidMessage?
    ensures Claimed(s, r, refreshed, gateway).bookings == s.bookings[r.booking := Settled(s.bookings[r.booking], r.kind, refreshed)]
  {
    hide ConfirmUnder, R.ForceReleased;
  }

  lemma FailureMakes(s: System, r: Read, refreshed: bool, gateway: Option<string>)
    requires r.booking in s.bookings && r.kind.UnpaidMessage?
    ensures Claimed(s, r, refreshed, gateway).bookings == s.bookings[r.booking := Settled(s.bookings[r.booking], r.kind, refreshed)]
  {
    hide CompensateAll, R.ForceReleased;
  }

  lemma CancelMakes(s: System, r: Read, refreshed: bool, gateway: Option<string>)
    requires r.booking in s.bookings && r.kind.UserCancel?
    ensures Claimed(s, r, refreshed, gateway).bookings == s.bookings[r.booking := Settled(s.bookings[r.booking], r.kind, refreshed)]
  {
    hide CancelSeats, R.ForceReleased, Pay.CreateRefund;
  }

  lemma ClaimSettlesAs(s: System, r: Read, refreshed: bool, gateway: Option<string>)
    requires r.booking in s.bookings
    ensures Claimed(s, r, refreshed, gateway).bookings == s.bookings[r.booking := Settled(s.bookings[r.booking], r.kind, refreshed)]
  {
    hide Claimed, Settled;
    match r.kind
    case PaidMessage(_) => ConfirmMakes(s, r, refreshed, gateway);
    case UnpaidMessage(_) => FailureMakes(s, r, refreshed, gateway);
    case UserCancel(_) => CancelMakes(s, r, refreshed, gateway);
  }

  lemma FaultMakes(s: System, id: int, gateway: Option<string>)
    requires id in s.bookings
    ensures var b := s.bookings[id];
      ConfirmFaults(s, id, gateway).bookings ==
        if b.status == PaymentPending then s.bookings[id := b.(status := Failed, reason := OtherFailure, version := b.version + 1)] else s.bookings
  {
    hide CompensateAll, R.ForceReleased;
  }

  lemma HoldMakes(s: System, id: int, lost: bool, gateway: Option<string>)
    requires id in s.bookings
    ensures var b := s.bookings[id].(base := s.inv.nextId);
      Hold(s, id, lost, gateway).bookings ==
        s.bookings[id := if HoldSucceeds(s, id, lost) then b.(status := SeatsHeld) else b.(status := Failed, reason := OtherFailure)]
  {
    hide LockUnder, CompensateAll, R.Released;
    HoldCases(s, id, lost, gateway);
  }

  lemma PaymentMakes(s: System, id: int, order: Option<string>, lost: bool, gateway: Option<string>)
    requires id in s.bookings
    ensures var b := s.bookings[id];
      RequestPayment(s, id, order, lost, gateway).bookings ==
        s.bookings[id := if OrderArrives(s, id, order, lost) then b.(status := PaymentPending, order := s.pay.nextOrder)
                         else b.(status := Failed, reason := OtherFailure)]
  {
    hide CompensateAll, R.Released;
  }

  /** The booking that a step may change. */
  function Subject(w: World, t: Step): Option<int>
    requires Enabled(w, t)
  {
    match t
    case HoldStep(id, _, _) => Some(id)
    case PaymentStep(id, _, _, _) => Some(id)
    case Claim(h, _, _) => if Wins(w, h) then Some(w.seen[h].booking) else None
    case CompensateStep(h, _) => Some(w.rolled[h].booking)
    case DropStep(h) => Some(w.drops[h].booking)
    case _ => None
  }

  /** What it becomes: a write by id alone does not ask what the booking was. */
  function Becomes(w: World, t: Step, b: Booking): Booking
    requires Enabled(w, t)
  {
    match t
    case HoldStep(id, lost, _) =>
      b.(base := w.s.inv.nextId, status := if HoldSucceeds(w.s, id, lost) then SeatsHeld else Failed,
         reason := if HoldSucceeds(w.s, id, lost) then b.reason else OtherFailure)
    case PaymentStep(id, order, lost, _) =>
      if OrderArrives(w.s, id, order, lost) then b.(status := PaymentPending, order := w.s.pay.nextOrder)
      else b.(status := Failed, reason := OtherFailure)
    case Claim(h, refreshed, _) => Settled(b, w.seen[h].kind, refreshed)
    case CompensateStep(h, _) =>
      if b.status == PaymentPending then b.(status := Failed, reason := OtherFailure, version := b.version + 1) else b
    case DropStep(h) => b.(status := CancelledByUser, version := w.drops[h].version + 1)
    case _ => b
  }

  /** Every step changes one booking at most, and exactly so; a start adds a PENDING one with the terms of its request. */
  lemma StepChanges(w: World, t: Step, id: int)
    requires Enabled(w, t) && w.s.nextBooking !in w.s.bookings && id in w.s.bookings
    ensures var b := w.s.bookings[id];
      id in Next(w, t).s.bookings && Next(w, t).s.bookings[id] == if Subject(w, t) == Some(id) then Becomes(w, t, b) else b
  {
    hide Begin, Hold, RequestPayment, Claimed, ConfirmFaults, Dropped, HoldSucceeds, OrderArrives, VerifyPayment, Interested, Settled;
    match t
    case Start(r, token) => StartKeepsOthers(w.s, r, token);
    case HoldStep(c, lost, gateway) => HoldMakes(w.s, c, lost, gateway);
    case PaymentStep(c, order, lost, gateway) => PaymentMakes(w.s, c, order, lost, gateway);
    case VerifyStep(o, payment, signatureOk) => VerifyKeepsBookings(w.s, o, payment, signatureOk);
    case Claim(h, refreshed, gateway) => ClaimSettlesAs(w.s, w.seen[h], refreshed, gateway);
    case CompensateStep(h, gateway) => FaultMakes(w.s, w.rolled[h].booking, gateway);
    case DropStep(h) => DropChanges(w.s, w.drops[h]);
    case _ =>
  }

  lemma StartAdds(w: World, r: Request, token: int)
    requires Next(w, Start(r, token)).s.nextBooking != w.s.nextBooking
    ensures var (s, s') := (w.s, Next(w, Start(r, token)).s);
      && s'.nextBooking == s.nextBooking + 1 && s'.bookings.Keys == s.bookings.Keys + {s.nextBooking}
      && s'.bookings[s.nextBooking] == Booking(r.user, r.schedule, r.seats, r.seg, token, TotalPrice(s.inv.seats, r.schedule, r.seats), 0,
                                               Pending, 0, NoFailure, 0)
      && r.key in s'.requests && r.key !in s.requests
  {
    hide Bookable, R.CanAcquire, R.Acquired, R.Released, KeyList, TotalPrice;
  }

  /* ---- over runs ---- */

  /** What was booked, for whom, and for how much. */
  predicate SameTerms(a: Booking, b: Booking) {
    a.user == b.user && a.schedule == b.schedule && a.seats == b.seats && a.seg == b.seg && a.token == b.token && a.amount == b.amount
  }

  lemma TermsStay(w: World, t: Step, b: Booking)
    requires Enabled(w, t)
    ensures SameTerms(b, Becomes(w, t, b))
  {
    hide HoldSucceeds, OrderArrives;
  }

  /** Over every run, late writes included, a booking keeps its user, schedule, seats, segment, token and amount. */
  lemma {:induction false} TermsNeverChange(w: World, steps: seq<Step>, end: World, id: int)
    requires Numbered(w.s) && IsRun(w, steps, end) && id in w.s.bookings
    ensures id in end.s.bookings && SameTerms(w.s.bookings[id], end.s.bookings[id])
    decreases |steps|
  {
    hide Next, Enabled, Subject, Becomes;
    if steps != [] {
      StepChanges(w, steps[0], id);
      StepKeepsNumbers(w, steps[0]);
      TermsNeverChange(Next(w, steps[0]), steps[1..], end, id);
      TermsStay(w, steps[0], w.s.bookings[id]);
    }
  }

  /** The order of the statuses: a booking ends from any status but an end, CONFIRMED by a cancellation only. */
  predicate Precedes(a: Status, b: Status) {
    || (a == Pending && b != Pending)
    || (a == SeatsHeld && b in {PaymentPending, Confirmed, Failed, CancelledByUser})
    || (a == PaymentPending && b in {Confirmed, Failed, CancelledByUser})
    || (a == Confirmed && b == CancelledByUser)
  }

  /** One step on time moves one status on: the payment follows the seats and the confirmation the payment. */
  predicate Follows(a: Status, b: Status) {
    match b
    case SeatsHeld => a == Pending
    case PaymentPending => a == SeatsHeld
    case Confirmed => a == PaymentPending
    case Failed => a in {Pending, SeatsHeld, PaymentPending}
    case CancelledByUser => a in {Pending, SeatsHeld, PaymentPending, Confirmed}
    case Pending => false
  }

  lemma BecomesFollows(w: World, t: Step, id: int)
    requires TasksSound(w) && Untouched(w.s) && Enabled(w, t) && OnTime(w, t) && id in w.s.bookings && Subject(w, t) == Some(id)
    ensures Becomes(w, t, w.s.bookings[id]) == w.s.bookings[id] || Follows(w.s.bookings[id].status, Becomes(w, t, w.s.bookings[id]).status)
  {
    hide HoldSucceeds, OrderArrives;
    if t.Claim? {
      assert ReadSound(w.s, w.seen[t.h]);
    }
    if t.DropStep? {
      assert DropSound(w.s, w.drops[t.h]);
    }
  }

  /** A step on time changes only the booking it is about, and moves its status to one that may follow. */
  lemma StepMoves(w: World, t: Step, id: int)
    requires Sound(w) && Enabled(w, t) && OnTime(w, t) && id in w.s.bookings
    ensures id in Next(w, t).s.bookings
    ensures var (b, b') := (w.s.bookings[id], Next(w, t).s.bookings[id]);
      b' != b ==> Subject(w, t) == Some(id) && Follows(b.status, b'.status)
  {
    NewIsNew(w);
    StepChanges(w, t, id);
    if Subject(w, t) == Some(id) {
      assert TasksSound(w) && Untouched(w.s);
      hide *;
      BecomesFollows(w, t, id);
    }
  }

  /** Over every run on time the statuses go forward only, and a booking that has ended is never written again. */
  lemma {:induction false} StatusesGoForward(w: World, steps: seq<Step>, end: World, id: int)
    requires Sound(w) && OnTimeRun(w, steps, end) && id in w.s.bookings
    ensures id in end.s.bookings
    ensures var (b, b') := (w.s.bookings[id], end.s.bookings[id]); b' == b || Precedes(b.status, b'.status)
    decreases |steps|
  {
    hide Next, Enabled, OnTime, Sound, Subject;
    if steps != [] {
      StepMoves(w, steps[0], id);
      StepKeepsSound(w, steps[0]);
      StatusesGoForward(Next(w, steps[0]), steps[1..], end, id);
    }
  }

  /* ---- creations ---- */

  /** The creation of a known booking has passed this stage, or given up. */
  predicate Passed(w: World, id: int, stage: Stage) {
    id in w.s.bookings && (id !in w.creating || (stage == ToHold && w.creating[id] == ToPay))
  }

  lemma StepKeepsPassed(w: World, t: Step, id: int, stage: Stage)
    requires Numbered(w.s) && Enabled(w, t) && Passed(w, id, stage)
    ensures Passed(Next(w, t), id, stage)
  {
    StepChanges(w, t, id);
    hide Begin, Hold, RequestPayment, Claimed, ConfirmFaults, Dropped, HoldSucceeds, VerifyPayment, Interested, Becomes;
  }

  lemma {:induction false} RunKeepsPassed(w: World, steps: seq<Step>, end: World, id: int, stage: Stage)
    requires Numbered(w.s) && IsRun(w, steps, end) && Passed(w, id, stage)
    ensures Passed(end, id, stage)
    decreases |steps|
  {
    hide Next, Enabled, Passed;
    if steps != [] {
      StepKeepsPassed(w, steps[0], id, stage);
      StepKeepsNumbers(w, steps[0]);
      RunKeepsPassed(Next(w, steps[0]), steps[1..], end, id, stage);
    }
  }

  /** Whatever happens in between: a creation locks seats once and asks for one payment order, and for none if the lock failed. */
  lemma CreationWritesOnce(w: World, t: Step, steps: seq<Step>, end: World, id: int, lost: bool, order: Option<string>, gateway: Option<string>)
    requires Numbered(w.s) && Enabled(w, t) && IsRun(Next(w, t), steps, end)
    requires (t.HoldStep? || t.PaymentStep?) && t.id == id
    ensures !Enabled(end, HoldStep(id, lost, gateway))
    ensures t.PaymentStep? || !HoldSucceeds(w.s, id, t.lost) ==> !Enabled(end, PaymentStep(id, order, lost, gateway))
  {
    StepChanges(w, t, id);
    StepKeepsNumbers(w, t);
    var w' := Next(w, t);
    assert Passed(w', id, ToHold);
    RunKeepsPassed(w', steps, end, id, ToHold);
    if t.PaymentStep? || !HoldSucceeds(w.s, id, t.lost) {
      assert Passed(w', id, ToPay);
      RunKeepsPassed(w', steps, end, id, ToPay);
    }
    hide Next, Begin, HoldSucceeds, IsRun;
  }
}
