/**
 Every interleaving of the saga's steps as the code takes them: creations go on without looking at the booking again,
 handlers read a booking first and claim it later, a cancellation of a held booking writes by id alone, and at any time other
 inventory transactions hold seat rows or let them go.
 */
module SagaRuns {
  import opened Options
  import opened Inventory
  import opened BookingSaga
  import opened SagaEndings
  import opened SagaMoney
  import opened SagaSeats
  import opened SagaSteps
  import Pay = Payments
  import R = RedisLocks

  datatype Kind = PaidMessage(event: Pay.Event) | UnpaidMessage(event: Pay.Event) | UserCancel(user: int)

  /** What a handler remembers between reading a booking and claiming it. */
  datatype Read = Read(kind: Kind, booking: int, version: nat)

  /** What a cancel remembers of a booking it read as held, or as PENDING when `held` is false. */
  datatype Drop = Drop(booking: int, held: bool, version: nat)

  datatype Stage = ToHold | ToPay

  /** Creations under way, reads not yet claimed, claims rolled back after a fault, cancels that have read. */
  datatype World = World(s: System, creating: map<int, Stage>, seen: map<int, Read>, rolled: map<int, Read>, drops: map<int, Drop>)

  datatype Step =
    | Start(r: Request, token: int)
    | HoldStep(id: int, lost: bool, gateway: Option<string>)
    | PaymentStep(id: int, order: Option<string>, lost: bool, gateway: Option<string>)
    | VerifyStep(o: int, payment: string, signatureOk: bool)
    | Look(h: int, kind: Kind, id: int)
    | Claim(h: int, refreshed: bool, gateway: Option<string>)
    | Fault(h: int)
    | CompensateStep(h: int, gateway: Option<string>)
    | LookDrop(h: int, user: int, id: int)
    | DropStep(h: int)
    | Contend(busy: Busy)

  /** The checks of the three handlers before they claim. */
  predicate Interested(s: System, kind: Kind, id: int) {
    && id in s.bookings
    && var b := s.bookings[id];
    match kind
    case PaidMessage(e) =>
      && e in s.pay.events && e.booking == id && e.order == b.order && e.order > 0
      && e.gatewayOrder != "" && e.gatewayPayment != "" && e.status == Pay.Captured && b.status == PaymentPending
    case UnpaidMessage(e) =>
      && e in s.pay.events && e.booking == id && e.order == b.order && e.order > 0
      && e.gatewayOrder != "" && e.gatewayPayment != "" && e.status != Pay.Captured && b.status == PaymentPending
    case UserCancel(user) => b.user == user && b.status == Confirmed
  }

  /** The checks of a cancel that ends in a write without a claim. */
  predicate Droppable(s: System, user: int, id: int) {
    id in s.bookings && s.bookings[id].user == user && s.bookings[id].Holding()
  }

  /** A step can be taken whenever the code can reach it: no status is looked at again. */
  predicate Enabled(w: World, t: Step) {
    match t
    case HoldStep(id, _, _) => id in w.creating && w.creating[id] == ToHold && id in w.s.bookings
    case PaymentStep(id, _, _, _) => id in w.creating && w.creating[id] == ToPay && id in w.s.bookings
    case Look(h, _, _) => h !in w.seen
    case Claim(h, _, _) => h in w.seen && w.seen[h].booking in w.s.bookings
    case Fault(h) => h in w.seen && w.seen[h].kind.PaidMessage? && h !in w.rolled
    case CompensateStep(h, _) => h in w.rolled && w.rolled[h].booking in w.s.bookings
    case LookDrop(h, _, _) => h !in w.drops
    case DropStep(h) => h in w.drops && w.drops[h].booking in w.s.bookings
    case _ => true
  }

  /** The conditional update of the claim matches the row only if its version is still the one that was read. */
  predicate Wins(w: World, h: int) {
    && h in w.seen && w.seen[h].booking in w.s.bookings
    && w.s.bookings[w.seen[h].booking].version == w.seen[h].version
  }

  function Claimed(s: System, r: Read, refreshed: bool, gateway: Option<string>): System
    requires r.booking in s.bookings
  {
    match r.kind
    case PaidMessage(_) => ConfirmPaid(s, r.booking, refreshed)
    case UnpaidMessage(_) => PaymentFails(s, r.booking, gateway)
    case UserCancel(_) => CancelConfirmed(s, r.booking, gateway, refreshed)
  }

  function Dropped(s: System, d: Drop): System
    requires d.booking in s.bookings
  {
    if d.held then CancelHeld(s, d.booking, d.version) else CancelPending(s, d.booking, d.version)
  }

  /** Whether the creation goes on after the lock. */
  predicate HoldSucceeds(s: System, id: int, lost: bool)
    requires id in s.bookings
  {
    var b := s.bookings[id];
    LockUnder(s.inv, s.busy.calls, b.user, b.schedule, b.seats, b.seg).1.Done? && !lost
  }

  function Next(w: World, t: Step): World
    requires Enabled(w, t)
  {
    match t
    case Start(r, token) =>
      var s' := Begin(w.s, r, token);
      w.(s := s', creating := if s'.nextBooking != w.s.nextBooking then w.creating[w.s.nextBooking := ToHold] else w.creating)
    case HoldStep(id, lost, gateway) =>
      w.(s := Hold(w.s, id, lost, gateway),
         creating := if HoldSucceeds(w.s, id, lost) then w.creating[id := ToPay] else w.creating - {id})
    case PaymentStep(id, order, lost, gateway) => w.(s := RequestPayment(w.s, id, order, lost, gateway), creating := w.creating - {id})
    case VerifyStep(o, payment, signatureOk) => w.(s := VerifyPayment(w.s, o, payment, signatureOk))
    case Look(h, kind, id) =>
      if Interested(w.s, kind, id) then w.(seen := w.seen[h := Read(kind, id, w.s.bookings[id].version)]) else w
    case Claim(h, refreshed, gateway) =>
      w.(s := if Wins(w, h) then Claimed(w.s, w.seen[h], refreshed, gateway) else w.s, seen := w.seen - {h})
    case Fault(h) => w.(seen := w.seen - {h}, rolled := w.rolled[h := w.seen[h]])
    case CompensateStep(h, gateway) => w.(s := ConfirmFaults(w.s, w.rolled[h].booking, gateway), rolled := w.rolled - {h})
    case LookDrop(h, user, id) =>
      if Droppable(w.s, user, id)
      then w.(drops := w.drops[h := Drop(id, w.s.bookings[id].status != Pending, w.s.bookings[id].version)]) else w
    case DropStep(h) => w.(s := Dropped(w.s, w.drops[h]), drops := w.drops - {h})
    case Contend(busy) => w.(s := w.s.(busy := busy))
  }

  /**
   What the code relies on without checking it: where it writes by id alone, the booking has not moved on since it was
   looked at. Claims need nothing, they compare versions.
   */
  predicate OnTime(w: World, t: Step)
    requires Enabled(w, t)
  {
    match t
    case HoldStep(id, _, _) => w.s.bookings[id].status == Pending
    case PaymentStep(id, _, _, _) => w.s.bookings[id].status == SeatsHeld
    case CompensateStep(h, _) => w.s.bookings[w.rolled[h].booking].status == PaymentPending
    case DropStep(h) =>
      var d := w.drops[h];
      if d.held then w.s.bookings[d.booking].status in {SeatsHeld, PaymentPending} else w.s.bookings[d.booking].status == Pending
    case _ => true
  }

  predicate ClaimClear(s: System, r: Read)
    requires r.booking in s.bookings
  {
    match r.kind
    case PaidMessage(_) => CallClear(s, r.booking)
    case UnpaidMessage(_) => UnlockClear(s, r.booking)
    case UserCancel(_) => true
  }

  /** Where the reply of a confirmation or an unlock is ignored, no other transaction holds a seat row of the booking. */
  predicate Uncontended(w: World, t: Step)
    requires Enabled(w, t)
  {
    match t
    case HoldStep(id, lost, _) => LockIsLost(w.s, id, lost) ==> UnlockClear(w.s, id)
    case PaymentStep(id, order, lost, _) => OrderArrives(w.s, id, order, lost) || UnlockClear(w.s, id)
    case Claim(h, _, _) => Wins(w, h) ==> ClaimClear(w.s, w.seen[h])
    case CompensateStep(h, _) => UnlockClear(w.s, w.rolled[h].booking)
    case DropStep(h) => w.drops[h].held ==> UnlockClear(w.s, w.drops[h].booking)
    case _ => true
  }

  predicate Timely(w: World, t: Step)
    requires Enabled(w, t)
  {
    OnTime(w, t) && Uncontended(w, t)
  }

  /* ---- the invariant ---- */

  /** As long as the version is the one that was read, what the handler checked still holds. */
  ghost predicate ReadSound(s: System, r: Read) {
    && r.booking in s.bookings && r.version <= s.bookings[r.booking].version
    && (r.version == s.bookings[r.booking].version ==> Interested(s, r.kind, r.booking))
  }

  /** No version is counted up before the first claim. */
  ghost predicate Untouched(s: System) {
    forall id :: id in s.bookings && s.bookings[id].Holding() ==> s.bookings[id].version == 0
  }

  ghost predicate DropSound(s: System, d: Drop) {
    d.booking in s.bookings && d.version == 0
  }

  ghost predicate TasksSound(w: World) {
    && w.creating.Keys <= w.s.bookings.Keys
    && (forall h :: h in w.seen ==> ReadSound(w.s, w.seen[h]))
    && (forall h :: h in w.rolled ==> ReadSound(w.s, w.rolled[h]) && w.rolled[h].kind.PaidMessage?)
    && (forall h :: h in w.drops ==> DropSound(w.s, w.drops[h]))
  }

  ghost predicate Numbered(s: System) {
    s.nextBooking > 0 && forall id :: id in s.bookings ==> 0 < id < s.nextBooking
  }

  /** What does not depend on the answers of the inventory. */
  ghost predicate Sound(w: World) {
    MoneyInv(w.s) && Numbered(w.s) && Untouched(w.s) && TasksSound(w)
  }

  ghost predicate Inv(w: World) {
    SeatInv(w.s) && Sound(w)
  }

  lemma InterestMeansPaid(s: System, e: Pay.Event, id: int)
    requires MoneyInv(s) && Interested(s, PaidMessage(e), id)
    ensures Paid(s, id)
  {
    hide Pay.RefundsOf, TotalPrice, Pay.Balanced;
    assert Pay.EventSound(s.pay, e);
    assert MoneySound(s, id);
  }

  lemma LogOfPaid(s: System, id: int)
    requires MoneyInv(s) && id in s.bookings
    ensures s.bookings[id].status in {Pending, SeatsHeld} ==> LogOf(s, id) == HELD_LOG
    ensures s.bookings[id].status in {PaymentPending, Confirmed} ==> LogOf(s, id) == PAID_LOG && s.bookings[id].order != 0
  {
    assert MoneySound(s, id);
  }

  lemma UnpaidSoFar(s: System, id: int)
    requires MoneyInv(s) && id in s.bookings && s.bookings[id].status in {Pending, SeatsHeld}
    ensures s.bookings[id].order == 0 && LogOf(s, id) == HELD_LOG
  {
    assert MoneySound(s, id);
  }

  /* ---- what each step keeps ---- */

  lemma ClaimKeepsSeats(s: System, r: Read, refreshed: bool, gateway: Option<string>)
    requires SeatInv(s) && MoneyInv(s) && Interested(s, r.kind, r.booking) && ClaimClear(s, r)
    ensures SeatInv(Claimed(s, r, refreshed, gateway))
  {
    var id := r.booking;
    LogOfPaid(s, id);
    hide SeatInv, MoneyInv, ConfirmPaid, PaymentFails, CancelConfirmed, Vacated, Promoted;
    match r.kind
    case PaidMessage(_) =>
      ConfirmPromotes(s, id, refreshed);
      PromotedKeepsInv(s, ConfirmPaid(s, id, refreshed), id);
    case UnpaidMessage(_) =>
      PaymentFailsVacates(s, id, gateway);
      VacatedKeepsInv(s, PaymentFails(s, id, gateway), id);
    case UserCancel(_) =>
      CancelConfirmedVacates(s, id, gateway, refreshed);
      VacatedKeepsInv(s, CancelConfirmed(s, id, gateway, refreshed), id);
  }

  lemma CompensateKeepsSeats(s: System, id: int, gateway: Option<string>)
    requires SeatInv(s) && MoneyInv(s) && id in s.bookings && s.bookings[id].status == PaymentPending && UnlockClear(s, id)
    ensures SeatInv(ConfirmFaults(s, id, gateway))
  {
    LogOfPaid(s, id);
    hide SeatInv, MoneyInv, ConfirmFaults, Vacated;
    ConfirmFaultsVacates(s, id, gateway);
    VacatedKeepsInv(s, ConfirmFaults(s, id, gateway), id);
  }

  lemma DropKeepsSeats(s: System, d: Drop)
    requires SeatInv(s) && d.booking in s.bookings
    requires if d.held then s.bookings[d.booking].Holding() else s.bookings[d.booking].status == Pending
    requires d.held ==> UnlockReaches(s, d.booking)
    ensures SeatInv(Dropped(s, d))
  {
    hide SeatInv, CancelHeld, CancelPending, Vacated;
    if d.held {
      CancelHeldVacates(s, d.booking, d.version);
    } else {
      CancelPendingVacates(s, d.booking, d.version);
    }
    VacatedKeepsInv(s, Dropped(s, d), d.booking);
  }

  lemma ClaimKeepsMoney(s: System, r: Read, refreshed: bool, gateway: Option<string>)
    requires MoneyInv(s) && Interested(s, r.kind, r.booking)
    ensures MoneyInv(Claimed(s, r, refreshed, gateway))
  {
    var id := r.booking;
    LogOfPaid(s, id);
    hide MoneyInv, ConfirmPaid, PaymentFails, CancelConfirmed, EndedWithRefund, Paid;
    match r.kind
    case PaidMessage(e) =>
      InterestMeansPaid(s, e, id);
      ConfirmKeepsMoney(s, id, refreshed);
    case UnpaidMessage(_) =>
      PaymentFailsEnds(s, id, gateway);
      EndedKeepsMoney(s, PaymentFails(s, id, gateway), id, Pay.CompensationKey(id), gateway);
    case UserCancel(_) =>
      CancelConfirmedEnds(s, id, gateway, refreshed);
      EndedKeepsMoney(s, CancelConfirmed(s, id, gateway, refreshed), id, Pay.CancelKey(id), gateway);
  }

  lemma CompensateKeepsMoney(s: System, id: int, gateway: Option<string>)
    requires MoneyInv(s) && id in s.bookings && s.bookings[id].status == PaymentPending
    ensures MoneyInv(ConfirmFaults(s, id, gateway))
  {
    LogOfPaid(s, id);
    hide MoneyInv, ConfirmFaults, EndedWithRefund;
    ConfirmFaultsEnds(s, id, gateway);
    EndedKeepsMoney(s, ConfirmFaults(s, id, gateway), id, Pay.CompensationKey(id), gateway);
  }

  lemma DropKeepsMoney(s: System, d: Drop)
    requires MoneyInv(s) && d.booking in s.bookings
    ensures MoneyInv(Dropped(s, d))
  {
    hide MoneyInv, CancelHeld, CancelPending;
    if d.held {
      CancelHeldKeepsMoney(s, d.booking, d.version);
    } else {
      CancelPendingKeepsMoney(s, d.booking, d.version);
    }
  }

  lemma ContendKeeps(s: System, busy: Busy)
    ensures SeatInv(s) ==> SeatInv(s.(busy := busy))
    ensures MoneyInv(s) ==> MoneyInv(s.(busy := busy))
  {
    hide SeatInv, MoneyInv;
    if SeatInv(s) {
      SameSeatsKeepsInv(s, s.(busy := busy));
    }
    if MoneyInv(s) {
      SameMoney(s, s.(busy := busy));
    }
  }

  lemma StepKeepsSeats(w: World, t: Step)
    requires Inv(w) && Enabled(w, t) && Timely(w, t)
    ensures SeatInv(Next(w, t).s)
  {
    hide SeatInv, MoneyInv, Untouched, Begin, Hold, RequestPayment, Claimed, ConfirmFaults, Dropped, VerifyPayment, Interested, HoldSucceeds;
    match t
    case Start(r, token) => BeginKeepsInv(w.s, r, token);
    case HoldStep(id, lost, gateway) =>
      UnpaidSoFar(w.s, id);
      HoldKeepsInv(w.s, id, lost, gateway);
    case PaymentStep(id, order, lost, gateway) =>
      UnpaidSoFar(w.s, id);
      RequestPaymentKeepsInv(w.s, id, order, lost, gateway);
    case VerifyStep(o, payment, signatureOk) => VerifyKeepsInv(w.s, o, payment, signatureOk);
    case Look(_, _, _) =>
    case Claim(h, refreshed, gateway) =>
      if Wins(w, h) {
        assert ReadSound(w.s, w.seen[h]);
        ClaimKeepsSeats(w.s, w.seen[h], refreshed, gateway);
      }
    case Fault(_) =>
    case CompensateStep(h, gateway) => CompensateKeepsSeats(w.s, w.rolled[h].booking, gateway);
    case LookDrop(_, _, _) =>
    case DropStep(h) => DropKeepsSeats(w.s, w.drops[h]);
    case Contend(busy) => ContendKeeps(w.s, busy);
  }

  lemma StepKeepsMoney(w: World, t: Step)
    requires Sound(w) && Enabled(w, t) && OnTime(w, t)
    ensures MoneyInv(Next(w, t).s)
  {
    hide SeatInv, MoneyInv, Untouched, Begin, Hold, RequestPayment, Claimed, ConfirmFaults, Dropped, VerifyPayment, Interested, HoldSucceeds;
    match t
    case Start(r, token) => BeginKeepsMoney(w.s, r, token);
    case HoldStep(id, lost, gateway) => HoldKeepsMoney(w.s, id, lost, gateway);
    case PaymentStep(id, order, lost, gateway) => RequestPaymentKeepsMoney(w.s, id, order, lost, gateway);
    case VerifyStep(o, payment, signatureOk) => VerifyKeepsMoney(w.s, o, payment, signatureOk);
    case Look(_, _, _) =>
    case Claim(h, refreshed, gateway) =>
      if Wins(w, h) {
        assert ReadSound(w.s, w.seen[h]);
        ClaimKeepsMoney(w.s, w.seen[h], refreshed, gateway);
      }
    case Fault(_) =>
    case CompensateStep(h, gateway) => CompensateKeepsMoney(w.s, w.rolled[h].booking, gateway);
    case LookDrop(_, _, _) =>
    case DropStep(h) => DropKeepsMoney(w.s, w.drops[h]);
    case Contend(busy) => ContendKeeps(w.s, busy);
  }

  /* ---- versions ---- */

  /** Versions never decrease, and a booking awaiting payment or confirmed changes only together with its version. */
  ghost predicate VersionsGrow(s: System, s': System) {
    forall id :: id in s.bookings ==>
      && id in s'.bookings && s.bookings[id].version <= s'.bookings[id].version
      && (s.bookings[id].status in {PaymentPending, Confirmed} ==>
            s'.bookings[id] == s.bookings[id] || s.bookings[id].version < s'.bookings[id].version)
  }

  ghost predicate OnlyBooking(s: System, s': System, id: int) {
    id in s.bookings && id in s'.bookings && s'.bookings == s.bookings[id := s'.bookings[id]]
  }

  /** A step that moves one booking out of the holding statuses and counts its version up. */
  ghost predicate Settles(s: System, s': System, id: int) {
    && OnlyBooking(s, s', id) && s'.nextBooking == s.nextBooking
    && s'.bookings[id].version > s.bookings[id].version && !s'.bookings[id].Holding()
  }

  lemma ConfirmSettles(s: System, id: int, refreshed: bool)
    requires id in s.bookings
    ensures Settles(s, ConfirmPaid(s, id, refreshed), id)
  {
    hide ConfirmUnder, R.ForceReleased;
  }

  lemma PaymentFailsSettles(s: System, id: int, gateway: Option<string>)
    requires id in s.bookings
    ensures Settles(s, PaymentFails(s, id, gateway), id)
  {
    var b := s.bookings[id];
    CompensationOnly(WithBooking(s, id, b.(status := Failed, reason := OtherFailure, version := b.version + 1)), id, LogOf(s, id), gateway);
    hide CompensateAll, R.ForceReleased;
  }

  lemma CancelSettles(s: System, id: int, gateway: Option<string>, refreshed: bool)
    requires id in s.bookings
    ensures Settles(s, CancelConfirmed(s, id, gateway, refreshed), id)
  {
    hide CancelSeats, R.ForceReleased, Pay.CreateRefund;
  }

  lemma ConfirmFaultsSettles(s: System, id: int, gateway: Option<string>)
    requires id in s.bookings
    ensures OnlyBooking(s, ConfirmFaults(s, id, gateway), id)
    ensures s.bookings[id].status == PaymentPending ==> Settles(s, ConfirmFaults(s, id, gateway), id)
    ensures s.bookings[id].status != PaymentPending ==> ConfirmFaults(s, id, gateway).bookings == s.bookings
  {
    CompensationOnly(s, id, LogOf(s, id), gateway);
    hide CompensateAll, R.ForceReleased;
  }

  lemma ClaimSettles(s: System, r: Read, refreshed: bool, gateway: Option<string>)
    requires r.booking in s.bookings
    ensures Settles(s, Claimed(s, r, refreshed, gateway), r.booking)
  {
    hide ConfirmPaid, PaymentFails, CancelConfirmed, Settles;
    match r.kind
    case PaidMessage(_) => ConfirmSettles(s, r.booking, refreshed);
    case UnpaidMessage(_) => PaymentFailsSettles(s, r.booking, gateway);
    case UserCancel(_) => CancelSettles(s, r.booking, gateway, refreshed);
  }

  lemma DropChanges(s: System, d: Drop)
    requires d.booking in s.bookings
    ensures Dropped(s, d).bookings == s.bookings[d.booking := s.bookings[d.booking].(status := CancelledByUser, version := d.version + 1)]
    ensures Dropped(s, d).pay == s.pay && Dropped(s, d).nextBooking == s.nextBooking && Dropped(s, d).logs == s.logs
  {
    hide UnlockUnder, R.ForceReleased;
  }

  lemma HoldChanges(s: System, id: int, lost: bool, gateway: Option<string>)
    requires id in s.bookings
    ensures var s' := Hold(s, id, lost, gateway);
      OnlyBooking(s, s', id) && s'.bookings[id].version == s.bookings[id].version
  {
    hide CompensateAll, LockUnder, R.Released;
  }

  lemma PaymentChanges(s: System, id: int, order: Option<string>, lost: bool, gateway: Option<string>)
    requires id in s.bookings
    ensures var s' := RequestPayment(s, id, order, lost, gateway);
      OnlyBooking(s, s', id) && s'.bookings[id].version == s.bookings[id].version
  {
    hide CompensateAll, Pay.CreateOrder, R.Released;
  }

  lemma StartChanges(s: System, r: Request, token: int)
    requires s.nextBooking !in s.bookings
    ensures VersionsGrow(s, Begin(s, r, token)) && (Untouched(s) ==> Untouched(Begin(s, r, token)))
    ensures Begin(s, r, token).nextBooking != s.nextBooking ==> s.nextBooking in Begin(s, r, token).bookings
  {
    hide Begin;
    if Begin(s, r, token).nextBooking != s.nextBooking {
      BeginParts(s, r, token);
    } else {
      FailedBeginParts(s, r, token);
    }
  }

  ghost predicate Grows(s: System, s': System) {
    VersionsGrow(s, s') && Untouched(s')
  }

  lemma SettlingGrows(s: System, s': System, id: int)
    requires Untouched(s) && Settles(s, s', id)
    ensures Grows(s, s')
  {
  }

  lemma UnversionedGrows(s: System, s': System, id: int)
    requires Untouched(s) && OnlyBooking(s, s', id) && s'.bookings[id].version == s.bookings[id].version
    requires s.bookings[id].status in {Pending, SeatsHeld}
    ensures Grows(s, s')
  {
  }

  lemma SameBookingsGrow(s: System, s': System)
    requires Untouched(s) && s'.bookings == s.bookings
    ensures Grows(s, s')
  {
  }

  lemma DropSettles(s: System, d: Drop)
    requires Untouched(s) && DropSound(s, d) && s.bookings[d.booking].Holding()
    ensures Settles(s, Dropped(s, d), d.booking)
  {
    hide Dropped;
    DropChanges(s, d);
  }

  lemma StepGrows(w: World, t: Step)
    requires Sound(w) && Enabled(w, t) && OnTime(w, t)
    ensures VersionsGrow(w.s, Next(w, t).s) && Untouched(Next(w, t).s)
  {
    hide SeatInv, MoneyInv, Begin, Hold, RequestPayment, Claimed, ConfirmFaults, Dropped, HoldSucceeds, VersionsGrow, OnlyBooking, Settles,
      Untouched, Interested, ReadSound, VerifyPayment;
    SameBookingsGrow(w.s, w.s);
    match t
    case Start(r, token) => StartChanges(w.s, r, token);
    case HoldStep(id, lost, gateway) =>
      HoldChanges(w.s, id, lost, gateway);
      UnversionedGrows(w.s, Next(w, t).s, id);
    case PaymentStep(id, order, lost, gateway) =>
      PaymentChanges(w.s, id, order, lost, gateway);
      UnversionedGrows(w.s, Next(w, t).s, id);
    case VerifyStep(o, payment, signatureOk) => VerifyGrows(w.s, o, payment, signatureOk);
    case Look(_, _, _) =>
    case Claim(h, refreshed, gateway) =>
      ClaimSettles(w.s, w.seen[h], refreshed, gateway);
      if Wins(w, h) {
        SettlingGrows(w.s, Next(w, t).s, w.seen[h].booking);
      }
    case Fault(_) =>
    case CompensateStep(h, gateway) =>
      ConfirmFaultsSettles(w.s, w.rolled[h].booking, gateway);
      SettlingGrows(w.s, Next(w, t).s, w.rolled[h].booking);
    case LookDrop(_, _, _) =>
    case DropStep(h) =>
      DropSettles(w.s, w.drops[h]);
      SettlingGrows(w.s, Next(w, t).s, w.drops[h].booking);
    case Contend(busy) => SameBookingsGrow(w.s, w.s.(busy := busy));
  }

  lemma VerifyGrows(s: System, o: int, payment: string, signatureOk: bool)
    requires Untouched(s)
    ensures Grows(s, VerifyPayment(s, o, payment, signatureOk))
  {
  }

  /* ---- events ---- */

  ghost predicate EventsKept(l: Pay.Ledger, l': Pay.Ledger) {
    forall e :: e in l.events ==> e in l'.events
  }

  lemma CallKeepsEvents(l: Pay.Ledger, c: Pay.Call)
    ensures EventsKept(l, Pay.Apply(l, c).0)
  {
    if c.IssueRefund? {
      Pay.RefundEffect(l, c.key, c.order, c.amount, c.gateway);
    }
  }

  lemma ClaimKeepsEvents(s: System, r: Read, refreshed: bool, gateway: Option<string>)
    requires MoneyInv(s) && Interested(s, r.kind, r.booking)
    ensures EventsKept(s.pay, Claimed(s, r, refreshed, gateway).pay)
  {
    var id := r.booking;
    var b := s.bookings[id];
    LogOfPaid(s, id);
    hide MoneyInv, ConfirmPaid, PaymentFails, CancelConfirmed, EventsKept, Pay.CreateRefund;
    match r.kind
    case PaidMessage(_) =>
      ConfirmParts(s, id, refreshed);
      SameEvents(s.pay);
    case UnpaidMessage(_) =>
      PaymentFailsEnds(s, id, gateway);
      CallKeepsEvents(s.pay, Pay.IssueRefund(Pay.CompensationKey(id), b.order, b.amount, gateway));
    case UserCancel(_) =>
      CancelConfirmedEnds(s, id, gateway, refreshed);
      CallKeepsEvents(s.pay, Pay.IssueRefund(Pay.CancelKey(id), b.order, b.amount, gateway));
  }

  lemma CompensateKeepsEvents(s: System, id: int, gateway: Option<string>)
    requires MoneyInv(s) && id in s.bookings && s.bookings[id].status == PaymentPending
    ensures EventsKept(s.pay, ConfirmFaults(s, id, gateway).pay)
  {
    LogOfPaid(s, id);
    hide MoneyInv, ConfirmFaults, EventsKept, Pay.CreateRefund;
    ConfirmFaultsEnds(s, id, gateway);
    CallKeepsEvents(s.pay, Pay.IssueRefund(Pay.CompensationKey(id), s.bookings[id].order, s.bookings[id].amount, gateway));
  }

  lemma SameEvents(l: Pay.Ledger)
    ensures EventsKept(l, l)
  {
  }

  lemma StartKeepsEvents(s: System, r: Request, token: int)
    ensures Begin(s, r, token).pay == s.pay
  {
    hide Begin;
    if Begin(s, r, token).nextBooking != s.nextBooking {
      BeginParts(s, r, token);
    } else {
      FailedBeginParts(s, r, token);
    }
  }

  lemma StepKeepsEvents(w: World, t: Step)
    requires Sound(w) && Enabled(w, t) && OnTime(w, t)
    ensures EventsKept(w.s.pay, Next(w, t).s.pay)
  {
    hide SeatInv, MoneyInv, Untouched, Begin, Hold, RequestPayment, Claimed, ConfirmFaults, Dropped, EventsKept, Pay.CreateOrder, Pay.Verify,
      Interested, HoldSucceeds;
    SameEvents(w.s.pay);
    match t
    case Start(r, token) => StartKeepsEvents(w.s, r, token);
    case HoldStep(id, lost, gateway) =>
      UnpaidSoFar(w.s, id);
      HoldParts(w.s, id, lost, gateway);
    case PaymentStep(id, order, lost, gateway) =>
      UnpaidSoFar(w.s, id);
      RequestPaymentParts(w.s, id, order, lost, gateway);
      CallKeepsEvents(w.s.pay, Pay.PlaceOrder(Pay.PaymentKey(id), id, w.s.bookings[id].user, w.s.bookings[id].amount, order));
    case VerifyStep(o, payment, signatureOk) => CallKeepsEvents(w.s.pay, Pay.VerifyPayment(o, payment, signatureOk));
    case Look(_, _, _) =>
    case Claim(h, refreshed, gateway) =>
      if Wins(w, h) {
        assert ReadSound(w.s, w.seen[h]);
        ClaimKeepsEvents(w.s, w.seen[h], refreshed, gateway);
      }
    case Fault(_) =>
    case CompensateStep(h, gateway) => CompensateKeepsEvents(w.s, w.rolled[h].booking, gateway);
    case LookDrop(_, _, _) =>
    case DropStep(h) => DropChanges(w.s, w.drops[h]);
    case Contend(_) =>
  }

  /* ---- what waiting handlers remember ---- */

  lemma ReadSoundAfter(s: System, s': System, r: Read)
    requires ReadSound(s, r) && VersionsGrow(s, s') && EventsKept(s.pay, s'.pay)
    ensures ReadSound(s', r)
  {
    assert s.bookings[r.booking].version <= s'.bookings[r.booking].version;
  }

  lemma FreshRead(s: System, kind: Kind, id: int)
    requires Interested(s, kind, id)
    ensures ReadSound(s, Read(kind, id, s.bookings[id].version))
  {
  }

  /** The state moves on under the handlers that wait. */
  lemma TasksFollow(w: World, s': System)
    requires TasksSound(w) && VersionsGrow(w.s, s') && EventsKept(w.s.pay, s'.pay)
    ensures TasksSound(w.(s := s'))
  {
    hide ReadSound;
    forall h | h in w.seen ensures ReadSound(s', w.seen[h]) {
      ReadSoundAfter(w.s, s', w.seen[h]);
    }
    forall h | h in w.rolled ensures ReadSound(s', w.rolled[h]) {
      ReadSoundAfter(w.s, s', w.rolled[h]);
    }
    forall h | h in w.drops ensures DropSound(s', w.drops[h]) {
      assert DropSound(w.s, w.drops[h]);
    }
    forall id | id in w.creating ensures id in s'.bookings {
      assert id in w.s.bookings;
    }
  }

  /** What handlers remember after a step, over the state after it: one entry may be new, the others were there before. */
  lemma StepKeepsTasks(w: World, t: Step, s': System)
    requires Sound(w) && Enabled(w, t) && OnTime(w, t) && s' == Next(w, t).s && TasksSound(w.(s := s'))
    ensures TasksSound(Next(w, t))
  {
    hide SeatInv, MoneyInv, Begin, Hold, RequestPayment, Claimed, ConfirmFaults, Dropped, VerifyPayment, ReadSound, HoldSucceeds, Interested;
    var w' := Next(w, t);
    match t
    case Start(r, token) =>
      StartChanges(w.s, r, token);
    case Look(_, kind, id) =>
      if Interested(w.s, kind, id) {
        FreshRead(w.s, kind, id);
      }
    case HoldStep(id, _, _) =>
      assert id in w.s.bookings && id in w.creating;
    case _ =>
  }

  lemma {:induction false} CompensationOnly(s: System, id: int, log: seq<SagaStep>, gateway: Option<string>)
    requires id in s.bookings
    ensures CompensateAll(s, id, log, gateway).nextBooking == s.nextBooking
    decreases |log|
  {
    hide UnlockUnder, Pay.CreateRefund;
    if log != [] {
      CompensationOnly(s, id, log[..|log| - 1], gateway);
    }
  }

  lemma NextBookingCounts(s: System, r: Request, token: int)
    ensures s.nextBooking <= Begin(s, r, token).nextBooking <= s.nextBooking + 1
  {
    hide Bookable, R.CanAcquire, R.Acquired, R.Released, KeyList, TotalPrice;
  }

  lemma AbandonKeepsNumbers(s: System, id: int, gateway: Option<string>)
    requires id in s.bookings
    ensures Abandon(s, id, gateway).nextBooking == s.nextBooking && Abandon(s, id, gateway).bookings.Keys == s.bookings.Keys
  {
    CompensationOnly(s, id, LogOf(s, id), gateway);
    hide CompensateAll, R.Released;
  }

  lemma HoldKeepsNumbers(s: System, id: int, lost: bool, gateway: Option<string>)
    requires id in s.bookings
    ensures Hold(s, id, lost, gateway).nextBooking == s.nextBooking && Hold(s, id, lost, gateway).bookings.Keys == s.bookings.Keys
  {
    var b := s.bookings[id];
    var inv := LockUnder(s.inv, s.busy.calls, b.user, b.schedule, b.seats, b.seg).0;
    AbandonKeepsNumbers(WithBooking(WithInventory(s, id, inv), id, b.(base := s.inv.nextId)), id, gateway);
    hide Abandon, LockUnder;
  }

  lemma PaymentKeepsNumbers(s: System, id: int, order: Option<string>, lost: bool, gateway: Option<string>)
    requires id in s.bookings
    ensures var s' := RequestPayment(s, id, order, lost, gateway); s'.nextBooking == s.nextBooking && s'.bookings.Keys == s.bookings.Keys
  {
    var b := s.bookings[id];
    var pay := Pay.CreateOrder(s.pay, Pay.PaymentKey(id), id, b.user, b.amount, order).0;
    AbandonKeepsNumbers(s.(pay := pay, logs := s.logs[id := LogOf(s, id) + [CreatePayment]]), id, gateway);
    hide Abandon, Pay.CreateOrder;
  }

  lemma ClaimKeepsNumbers(s: System, r: Read, refreshed: bool, gateway: Option<string>)
    requires r.booking in s.bookings
    ensures var s' := Claimed(s, r, refreshed, gateway); s'.nextBooking == s.nextBooking && s'.bookings.Keys == s.bookings.Keys
  {
    hide Claimed;
    ClaimSettles(s, r, refreshed, gateway);
  }

  lemma CompensateKeepsNumbers(s: System, id: int, gateway: Option<string>)
    requires id in s.bookings
    ensures var s' := ConfirmFaults(s, id, gateway); s'.nextBooking == s.nextBooking && s'.bookings.Keys == s.bookings.Keys
  {
    CompensationOnly(s, id, LogOf(s, id), gateway);
    hide CompensateAll, R.ForceReleased;
  }

  lemma StartKeepsNumbers(s: System, r: Request, token: int)
    requires Numbered(s)
    ensures Numbered(Begin(s, r, token))
  {
    hide Begin;
    NextBookingCounts(s, r, token);
    if Begin(s, r, token).nextBooking != s.nextBooking {
      BeginParts(s, r, token);
    } else {
      FailedBeginParts(s, r, token);
    }
  }

  lemma StepKeepsNumbers(w: World, t: Step)
    requires Numbered(w.s) && Enabled(w, t)
    ensures Numbered(Next(w, t).s)
  {
    hide Begin, Hold, RequestPayment, Claimed, ConfirmFaults, Dropped, HoldSucceeds, VerifyPayment, Interested;
    match t
    case Start(r, token) => StartKeepsNumbers(w.s, r, token);
    case HoldStep(id, lost, gateway) => HoldKeepsNumbers(w.s, id, lost, gateway);
    case PaymentStep(id, order, lost, gateway) => PaymentKeepsNumbers(w.s, id, order, lost, gateway);
    case VerifyStep(o, payment, signatureOk) => VerifyKeepsNumbers(w.s, o, payment, signatureOk);
    case Claim(h, refreshed, gateway) => ClaimKeepsNumbers(w.s, w.seen[h], refreshed, gateway);
    case CompensateStep(h, gateway) => CompensateKeepsNumbers(w.s, w.rolled[h].booking, gateway);
    case DropStep(h) => DropChanges(w.s, w.drops[h]);
    case _ =>
  }

  lemma VerifyKeepsNumbers(s: System, o: int, payment: string, signatureOk: bool)
    ensures Numbered(s) ==> Numbered(VerifyPayment(s, o, payment, signatureOk))
  {
    hide Pay.Verify;
  }

  /** A step on time keeps all but the seats, whatever the inventory answers. */
  lemma StepKeepsSound(w: World, t: Step)
    requires Sound(w) && Enabled(w, t) && OnTime(w, t)
    ensures Sound(Next(w, t))
  {
    StepKeepsMoney(w, t);
    StepKeepsNumbers(w, t);
    StepGrows(w, t);
    StepKeepsEvents(w, t);
    hide MoneyInv, VersionsGrow, EventsKept, Untouched, Next, OnTime, Enabled, TasksSound, Numbered;
    TasksFollow(w, Next(w, t).s);
    StepKeepsTasks(w, t, Next(w, t).s);
  }

  lemma StepKeepsInv(w: World, t: Step)
    requires Inv(w) && Enabled(w, t) && Timely(w, t)
    ensures Inv(Next(w, t))
  {
    hide SeatInv, Sound, Next, OnTime, Uncontended, Enabled;
    StepKeepsSeats(w, t);
    StepKeepsSound(w, t);
  }
}
