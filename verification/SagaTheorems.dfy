/**
 What holds in every state that a run of the saga can reach in which the writes by id alone come in time and no confirmation
 or unlock is refused because another transaction holds a seat row.
 */
module SagaTheorems {
  import opened Options
  import opened IntSets
  import opened Inventory
  import opened InventoryInvariants
  import opened InventoryRoundTrips
  import opened BookingSaga
  import opened SagaContention
  import opened SagaEndings
  import opened SagaMoney
  import opened SagaRuns
  import opened SagaSeats
  import opened SagaSteps
  import Pay = Payments

  /** Schedules with all seats free, no booking, no payment, no Redis key. */
  ghost predicate Initial(w: World) {
    && Invariant(w.s.inv) && w.s.inv.locks == map[] && w.s.redis == map[] && w.s.holder == map[] && w.s.owner == map[]
    && w.s.bookings == map[] && w.s.nextBooking > 0 && w.s.pay == Pay.EMPTY
    && w.creating == map[] && w.seen == map[] && w.rolled == map[] && w.drops == map[]
  }

  /** Any run of the code. */
  ghost predicate IsRun(w: World, steps: seq<Step>, end: World)
    decreases |steps|
  {
    if steps == [] then end == w else Enabled(w, steps[0]) && IsRun(Next(w, steps[0]), steps[1..], end)
  }

  /** One in which every step is timely: no late write by id alone, no refused confirmation or unlock. */
  ghost predicate TimelyRun(w: World, steps: seq<Step>, end: World)
    decreases |steps|
  {
    if steps == [] then end == w
    else Enabled(w, steps[0]) && Timely(w, steps[0]) && TimelyRun(Next(w, steps[0]), steps[1..], end)
  }

  /** One in which every write by id alone comes in time, whatever the inventory answers. */
  ghost predicate OnTimeRun(w: World, steps: seq<Step>, end: World)
    decreases |steps|
  {
    if steps == [] then end == w
    else Enabled(w, steps[0]) && OnTime(w, steps[0]) && OnTimeRun(Next(w, steps[0]), steps[1..], end)
  }

  lemma InitialInv(w: World)
    requires Initial(w)
    ensures Inv(w)
  {
  }

  lemma {:induction false} RunKeepsInv(w: World, steps: seq<Step>, end: World)
    requires Inv(w) && TimelyRun(w, steps, end)
    ensures Inv(end)
    decreases |steps|
  {
    hide Inv, Next, Timely;
    if steps != [] {
      StepKeepsInv(w, steps[0]);
      RunKeepsInv(Next(w, steps[0]), steps[1..], end);
    }
  }

  lemma {:induction false} RunKeepsSound(w: World, steps: seq<Step>, end: World)
    requires Sound(w) && OnTimeRun(w, steps, end)
    ensures Sound(end)
    decreases |steps|
  {
    hide Sound, Next, OnTime;
    if steps != [] {
      StepKeepsSound(w, steps[0]);
      RunKeepsSound(Next(w, steps[0]), steps[1..], end);
    }
  }

  lemma {:induction false} TimelyIsOnTime(w: World, steps: seq<Step>, end: World)
    requires TimelyRun(w, steps, end)
    ensures OnTimeRun(w, steps, end) && IsRun(w, steps, end)
    decreases |steps|
  {
    hide Next, OnTime, Uncontended;
    if steps != [] {
      TimelyIsOnTime(Next(w, steps[0]), steps[1..], end);
    }
  }

  lemma {:induction false} OnTimeIsRun(w: World, steps: seq<Step>, end: World)
    requires OnTimeRun(w, steps, end)
    ensures IsRun(w, steps, end)
    decreases |steps|
  {
    hide Next, OnTime;
    if steps != [] {
      OnTimeIsRun(Next(w, steps[0]), steps[1..], end);
    }
  }

  /* ---- seats ---- */

  ghost predicate RowBelongs(s: System, i: nat, id: int) {
    && i in s.inv.locks && id in s.bookings && s.bookings[id].InRange(i)
    && Fits(s.bookings[id], id, i, s.inv.locks[i])
    && (if s.inv.locks[i].state == Locked then s.bookings[id].status in {SeatsHeld, PaymentPending}
        else s.bookings[id].status == Confirmed)
  }

  /**
   Every segment row belongs to exactly one live booking, which has it LOCKED while the payment is open and BOOKED under
   its id once confirmed; and every such booking has a row for each of its seats.
   */
  lemma NoSeatLeakedOrDoublyOwned(w: World, steps: seq<Step>, end: World)
    requires Initial(w) && TimelyRun(w, steps, end)
    ensures forall i :: i in end.s.inv.locks ==> i in end.s.owner && RowBelongs(end.s, i, end.s.owner[i])
    ensures forall i, id :: RowBelongs(end.s, i, id) ==> end.s.owner[i] == id
    ensures forall id, i: nat :: id in end.s.bookings && end.s.bookings[id].Rowed() && end.s.bookings[id].InRange(i) ==> RowBelongs(end.s, i, id)
    ensures forall k :: k in end.s.redis ==> k in end.s.holder && KeySound(end.s, k)
  {
    InitialInv(w);
    RunKeepsInv(w, steps, end);
    RowsBelong(end.s);
    hide Invariant, BookingSound, RowSound, RowBelongs;
  }

  lemma RowsBelong(s: System)
    requires SeatInv(s)
    ensures forall i :: i in s.inv.locks ==> i in s.owner && RowBelongs(s, i, s.owner[i])
    ensures forall i, id :: RowBelongs(s, i, id) ==> s.owner[i] == id
    ensures forall id, i: nat :: id in s.bookings && s.bookings[id].Rowed() && s.bookings[id].InRange(i) ==> RowBelongs(s, i, id)
  {
    hide SeatInv, BookingSound, RowSound;
    OwnersComplete(s);
    forall i | i in s.inv.locks ensures RowBelongs(s, i, s.owner[i]) {
      OwnedRowBelongs(s, i);
    }
    forall id, i: nat | id in s.bookings && s.bookings[id].Rowed() && s.bookings[id].InRange(i)
      ensures RowBelongs(s, i, id) && s.owner[i] == id
    {
      BookedRowBelongs(s, id, i);
    }
  }

  lemma OwnedRowBelongs(s: System, i: nat)
    requires SeatInv(s) && i in s.inv.locks
    ensures i in s.owner && RowBelongs(s, i, s.owner[i])
  {
    hide Invariant, Gate;
    RowOfOwner(s, i);
  }

  lemma BookedRowBelongs(s: System, id: int, i: nat)
    requires SeatInv(s) && id in s.bookings && s.bookings[id].Rowed() && s.bookings[id].InRange(i)
    ensures RowBelongs(s, i, id) && i in s.owner && s.owner[i] == id
  {
    hide Invariant, Gate;
    assert BookingSound(s, id);
    assert OwnsRow(s, id, i);
  }

  /* ---- counting rows ---- */

  function SeatCount(s: System, ids: set<int>): nat
    requires ids <= s.bookings.Keys
  {
    if ids == {} then 0
    else
      var id := Smallest(ids);
      (if s.bookings[id].Rowed() then |s.bookings[id].seats| else 0) + SeatCount(s, ids - {id})
  }

  function From(base: nat, n: nat): (r: set<nat>)
    ensures |r| == n && forall i: nat :: i in r <==> base <= i < base + n
  {
    if n == 0 then {} else From(base, n - 1) + {base + n - 1}
  }

  lemma OwnRowsAre(s: System, id: int)
    requires SeatInv(s) && id in s.bookings
    ensures |OwnRows(s, id)| == if s.bookings[id].Rowed() then |s.bookings[id].seats| else 0
  {
    hide Invariant, Gate;
    var b := s.bookings[id];
    assert BookingSound(s, id);
    forall i | i in s.owner && s.owner[i] == id ensures b.Rowed() && b.InRange(i) {
      assert RowSound(s, i);
    }
    if b.Rowed() {
      forall i: nat | b.InRange(i) ensures i in OwnRows(s, id) {
        assert OwnsRow(s, id, i);
      }
      assert OwnRows(s, id) == From(b.base, |b.seats|);
    } else {
      assert OwnRows(s, id) == {};
    }
  }

  function RowsOwnedBy(s: System, ids: set<int>): set<nat> {
    set i | i in s.owner && s.owner[i] in ids
  }

  lemma {:induction false} RowsCounted(s: System, ids: set<int>)
    requires SeatInv(s) && ids <= s.bookings.Keys
    ensures |RowsOwnedBy(s, ids)| == SeatCount(s, ids)
    decreases ids
  {
    hide SeatInv;
    if ids == {} {
      assert RowsOwnedBy(s, ids) == {};
    } else {
      var id := Smallest(ids);
      RowsCounted(s, ids - {id});
      OwnRowsAre(s, id);
      assert RowsOwnedBy(s, ids) == RowsOwnedBy(s, ids - {id}) + OwnRows(s, id);
    }
  }

  /** The segment table has exactly one row per seat of a held or confirmed booking. */
  lemma RowCountIsSeatCount(w: World, steps: seq<Step>, end: World)
    requires Initial(w) && TimelyRun(w, steps, end)
    ensures |end.s.inv.locks| == SeatCount(end.s, end.s.bookings.Keys)
  {
    InitialInv(w);
    RunKeepsInv(w, steps, end);
    hide SeatInv, MoneyInv, TasksSound, Untouched, Initial, TimelyRun, SeatCount, RowsOwnedBy;
    RowsCounted(end.s, end.s.bookings.Keys);
    AllRowsOwned(end.s);
    assert |end.s.inv.locks| == |end.s.inv.locks.Keys|;
  }

  lemma AllRowsOwned(s: System)
    requires SeatInv(s)
    ensures RowsOwnedBy(s, s.bookings.Keys) == s.inv.locks.Keys
  {
    hide Invariant, BookingSound;
    OwnersComplete(s);
    forall i | i in s.owner ensures s.owner[i] in s.bookings {
      assert RowSound(s, i);
    }
  }

  /* ---- compensation and cancellation ---- */

  predicate Ends(w: World, t: Step, id: int)
    requires Enabled(w, t)
  {
    id in w.s.bookings && w.s.bookings[id].Live() &&
    match t
    case Claim(h, _, _) => Wins(w, h) && w.seen[h].booking == id && !w.seen[h].kind.PaidMessage?
    case CompensateStep(h, _) => w.rolled[h].booking == id
    case DropStep(h) => w.drops[h].booking == id
    case PaymentStep(b, order, lost, _) => b == id && !OrderArrives(w.s, b, order, lost)
    case HoldStep(b, lost, _) => b == id && !HoldSucceeds(w.s, b, lost)
    case _ => false
  }

  /**
   Whatever ends a booking after its creation, the rows that go are exactly the ones this booking inserted, although no
   request names the booking of a LOCKED row, and the Redis keys that go are exactly its own; unless another transaction holds
   one of its seat rows when the unlock is called.
   */
  lemma EndingTakesOnlyOwnIff(w: World, t: Step, id: int)
    requires Inv(w) && Enabled(w, t) && OnTime(w, t) && Ends(w, t, id)
    ensures TakesOnlyOwn(w.s, Next(w, t).s, id) <==> Uncontended(w, t)
    ensures Uncontended(w, t) ==> forall k :: k in w.s.redis && k in w.s.holder && w.s.holder[k] != id ==> k in Next(w, t).s.redis
  {
    hide Next, RowsWithout, Invariant, SameFrame, Uncontended, OnTime, SeatInv, MoneyInv, KeysWithout;
    if Uncontended(w, t) {
      EndingVacates(w, t, id);
      OthersKeepKeys(w.s, Next(w, t).s, id);
    } else {
      RefusedEnding(w, t, id);
      LeftRowIsNotTaken(w.s, Next(w, t).s, id);
    }
  }

  lemma OthersKeepKeys(s: System, s': System, id: int)
    requires SeatInv(s) && id in s.bookings && s.bookings[id].Live() && TakesOnlyOwn(s, s', id)
    ensures forall k :: k in s.redis && k in s.holder && s.holder[k] != id ==> k in s'.redis
  {
    hide SeatInv, RowsWithout;
    forall k | k in s.redis && k in s.holder && s.holder[k] != id ensures k !in Keys(s.bookings[id]) {
      if k in Keys(s.bookings[id]) {
        KeyOfHolder(s, id, k);
      }
    }
  }

  lemma RefusedEnding(w: World, t: Step, id: int)
    requires Inv(w) && Enabled(w, t) && OnTime(w, t) && Ends(w, t, id) && !Uncontended(w, t)
    ensures LeavesRow(Next(w, t).s, id)
  {
    OwnersComplete(w.s);
    hide SeatInv, MoneyInv, Untouched, Begin, Hold, RequestPayment, VerifyPayment, CancelHeld, ConfirmFaults, PaymentFails, CancelConfirmed,
      ConfirmPaid, HoldSucceeds, Interested, CallClear, UnlockClear, OrderArrives, LockUnder, EndsWithRows;
    match t
    case HoldStep(_, _, gateway) => RefusedLostHold(w.s, id, gateway);
    case PaymentStep(_, order, lost, gateway) =>
      RefusedPayment(w.s, id, order, lost, gateway);
      EndsWithRowsLeaves(w.s, Next(w, t).s, id);
    case Claim(h, _, gateway) =>
      assert ReadSound(w.s, w.seen[h]);
      LogOfPaid(w.s, id);
      RefusedPaymentFails(w.s, id, gateway);
      UnpaidIsPending(w.s, w.seen[h]);
      EndsWithRowsLeaves(w.s, PaymentFails(w.s, id, gateway), id);
    case CompensateStep(_, gateway) =>
      LogOfPaid(w.s, id);
      RefusedConfirmFaults(w.s, id, gateway);
      EndsWithRowsLeaves(w.s, Next(w, t).s, id);
    case DropStep(h) =>
      RefusedCancelHeld(w.s, id, w.drops[h].version);
      EndsWithRowsLeaves(w.s, Next(w, t).s, id);
  }

  lemma UnpaidIsPending(s: System, r: Read)
    requires Interested(s, r.kind, r.booking) && r.kind.UnpaidMessage?
    ensures s.bookings[r.booking].Rowed()
  {
  }

  lemma EndingVacates(w: World, t: Step, id: int)
    requires Inv(w) && Enabled(w, t) && Timely(w, t) && Ends(w, t, id)
    ensures TakesOnlyOwn(w.s, Next(w, t).s, id)
  {
    hide SeatInv, MoneyInv, Untouched, ConfirmFaults, PaymentFails, CancelConfirmed, ConfirmPaid, RowsWithout, KeysWithout, Hold,
      RequestPayment, Invariant, SameFrame, Dropped, HoldSucceeds, LockIsLost, OrderArrives, UnlockClear, CallClear;
    match t
    case Claim(h, refreshed, gateway) =>
      assert ReadSound(w.s, w.seen[h]);
      LogOfPaid(w.s, id);
      match w.seen[h].kind {
        case UnpaidMessage(_) => PaymentFailsVacates(w.s, id, gateway);
        case UserCancel(_) => CancelConfirmedVacates(w.s, id, gateway, refreshed);
        case PaidMessage(_) =>
      }
    case CompensateStep(_, gateway) =>
      LogOfPaid(w.s, id);
      ConfirmFaultsVacates(w.s, id, gateway);
    case DropStep(h) => DropVacates(w.s, w.drops[h]);
    case PaymentStep(_, order, lost, gateway) => FailedPaymentTakesOnlyOwn(w.s, id, order, lost, gateway);
    case HoldStep(_, lost, gateway) => FailedHoldTakesOnlyOwn(w.s, id, lost, gateway);
  }

  lemma DropVacates(s: System, d: Drop)
    requires SeatInv(s) && d.booking in s.bookings
    requires if d.held then s.bookings[d.booking].Holding() && UnlockReaches(s, d.booking) else s.bookings[d.booking].status == Pending
    ensures TakesOnlyOwn(s, Dropped(s, d), d.booking)
  {
    hide SeatInv, CancelHeld, CancelPending, RowsWithout, KeysWithout, Invariant, SameFrame;
    if d.held {
      CancelHeldVacates(s, d.booking, d.version);
    } else {
      CancelPendingVacates(s, d.booking, d.version);
    }
  }

  ghost predicate TakesOnlyOwn(s: System, s': System, id: int)
    requires id in s.bookings
  {
    RowsWithout(s, s', id) && KeysWithout(s, s', Keys(s.bookings[id]))
  }

  lemma AbandonTakesOnlyOwn(s: System, t: System, id: int, gateway: Option<string>)
    requires SeatInv(t) && id in t.bookings && t.bookings[id].Holding() && UnlockReaches(t, id) && KnownLog(LogOf(t, id)) && id in s.bookings
    requires t.inv.locks == s.inv.locks && t.owner == s.owner && t.redis == s.redis && t.holder == s.holder
    requires Keys(t.bookings[id]) == Keys(s.bookings[id])
    ensures TakesOnlyOwn(s, Abandon(t, id, gateway), id)
  {
    hide *;
    AbandonVacates(t, id, gateway);
    VacatedTakesOnlyOwn(s, t, Abandon(t, id, gateway), id);
  }

  lemma VacatedTakesOnlyOwn(s: System, t: System, s': System, id: int)
    requires id in t.bookings && Vacated(t, s', id) && id in s.bookings
    requires t.inv.locks == s.inv.locks && t.owner == s.owner && t.redis == s.redis && t.holder == s.holder
    requires Keys(t.bookings[id]) == Keys(s.bookings[id])
    ensures TakesOnlyOwn(s, s', id)
  {
    hide Invariant, SameFrame, Keys, SeatRequest;
  }

  /** A payment order that could not be created gives back exactly what the booking held, if the unlock is not refused. */
  lemma FailedPaymentTakesOnlyOwnIff(s: System, id: int, order: Option<string>, lost: bool, gateway: Option<string>)
    requires SeatInv(s) && MoneyInv(s) && id in s.bookings && s.bookings[id].status == SeatsHeld && !OrderArrives(s, id, order, lost)
    ensures TakesOnlyOwn(s, RequestPayment(s, id, order, lost, gateway), id) <==> UnlockClear(s, id)
  {
    hide SeatInv, MoneyInv, RequestPayment, UnlockClear, OrderArrives, RowsWithout, KeysWithout, EndsWithRows;
    if UnlockClear(s, id) {
      FailedPaymentTakesOnlyOwn(s, id, order, lost, gateway);
    } else {
      RefusedPayment(s, id, order, lost, gateway);
      EndsWithRowsLeaves(s, RequestPayment(s, id, order, lost, gateway), id);
      LeftRowIsNotTaken(s, RequestPayment(s, id, order, lost, gateway), id);
    }
  }

  lemma FailedPaymentTakesOnlyOwn(s: System, id: int, order: Option<string>, lost: bool, gateway: Option<string>)
    requires SeatInv(s) && MoneyInv(s) && id in s.bookings && s.bookings[id].status == SeatsHeld
    requires !OrderArrives(s, id, order, lost) && UnlockClear(s, id)
    ensures TakesOnlyOwn(s, RequestPayment(s, id, order, lost, gateway), id)
  {
    UnpaidSoFar(s, id);
    FailedPaymentIsAbandoned(s, id, order, lost, gateway);
    LoggedLikeBefore(s, id, order);
    hide *;
    AbandonTakesOnlyOwn(s, WithPaymentLog(s, id, order), id, gateway);
  }

  lemma FailedPaymentIsAbandoned(s: System, id: int, order: Option<string>, lost: bool, gateway: Option<string>)
    requires id in s.bookings && !OrderArrives(s, id, order, lost)
    ensures RequestPayment(s, id, order, lost, gateway) == Abandon(WithPaymentLog(s, id, order), id, gateway)
  {
    hide Abandon, Pay.CreateOrder;
  }

  lemma LoggedLikeBefore(s: System, id: int, order: Option<string>)
    requires SeatInv(s) && id in s.bookings && s.bookings[id].status == SeatsHeld && LogOf(s, id) == HELD_LOG
    requires UnlockClear(s, id)
    ensures var t := WithPaymentLog(s, id, order);
      && SeatInv(t) && id in t.bookings && t.bookings[id] == s.bookings[id] && t.bookings[id].Holding() && UnlockReaches(t, id) && KnownLog(LogOf(t, id))
      && t.inv.locks == s.inv.locks && t.owner == s.owner && t.redis == s.redis && t.holder == s.holder
  {
    hide SeatInv, Pay.CreateOrder;
    KnownLogs();
    SameSeatsKeepsInv(s, WithPaymentLog(s, id, order));
  }

  /** A refused lock, or one whose reply was lost, leaves nothing behind, unless the unlock of a lost one is refused. */
  lemma FailedHoldTakesOnlyOwnIff(s: System, id: int, lost: bool, gateway: Option<string>)
    requires SeatInv(s) && MoneyInv(s) && id in s.bookings && s.bookings[id].status == Pending && !HoldSucceeds(s, id, lost)
    ensures TakesOnlyOwn(s, Hold(s, id, lost, gateway), id) <==> (LockIsLost(s, id, lost) ==> UnlockClear(s, id))
  {
    hide SeatInv, MoneyInv, Hold, UnlockClear, LockUnder, RowsWithout, KeysWithout;
    if LockIsLost(s, id, lost) && !UnlockClear(s, id) {
      RefusedLostHold(s, id, gateway);
      LeftRowIsNotTaken(s, Hold(s, id, lost, gateway), id);
    } else {
      FailedHoldTakesOnlyOwn(s, id, lost, gateway);
    }
  }

  lemma FailedHoldTakesOnlyOwn(s: System, id: int, lost: bool, gateway: Option<string>)
    requires SeatInv(s) && MoneyInv(s) && id in s.bookings && s.bookings[id].status == Pending && !HoldSucceeds(s, id, lost)
    requires LockIsLost(s, id, lost) ==> UnlockClear(s, id)
    ensures TakesOnlyOwn(s, Hold(s, id, lost, gateway), id)
  {
    UnpaidSoFar(s, id);
    hide SeatInv, MoneyInv, Abandon, LockUnder, Hold, TakesOnlyOwn, UnlockClear;
    var b := s.bookings[id];
    if LockUnder(s.inv, s.busy.calls, b.user, b.schedule, b.seats, b.seg).1.Done? {
      LostHoldVacates(s, id, lost, gateway);
    } else {
      RefusedHoldVacates(s, id, lost, gateway);
    }
  }

  lemma RefusedHoldVacates(s: System, id: int, lost: bool, gateway: Option<string>)
    requires SeatInv(s) && id in s.bookings && s.bookings[id].status == Pending && KnownLog(LogOf(s, id))
    requires var b := s.bookings[id]; !LockUnder(s.inv, s.busy.calls, b.user, b.schedule, b.seats, b.seg).1.Done?
    ensures TakesOnlyOwn(s, Hold(s, id, lost, gateway), id)
  {
    hide SeatInv, Abandon, LockUnder, KnownLog, TakesOnlyOwn, Keys;
    var b := s.bookings[id];
    LockUnderEffect(s.inv, s.busy.calls, b.user, b.schedule, b.seats, b.seg);
    var t := WithBooking(WithInventory(s, id, s.inv), id, b.(base := s.inv.nextId));
    PendingBaseIsFree(s, id, t);
    OwnersComplete(s);
    SameKeys(b, t.bookings[id]);
    assert t.owner == s.owner;
    AbandonTakesOnlyOwn(s, t, id, gateway);
  }

  lemma LostHoldVacates(s: System, id: int, lost: bool, gateway: Option<string>)
    requires SeatInv(s) && id in s.bookings && s.bookings[id].status == Pending && KnownLog(LogOf(s, id))
    requires var b := s.bookings[id]; LockUnder(s.inv, s.busy.calls, b.user, b.schedule, b.seats, b.seg).1.Done?
    requires lost && UnlockClear(s, id)
    ensures TakesOnlyOwn(s, Hold(s, id, lost, gateway), id)
  {
    hide SeatInv, Abandon, LockUnder, KnownLog, Occupied, Vacated, TakesOnlyOwn;
    var held := Hold(s, id, false, gateway);
    LostHoldIsAbandonedHold(s, id, gateway);
    HeldOccupies(s, id, gateway);
    OccupiedKeepsInv(s, held, id);
    AbandonVacates(held, id, gateway);
    OccupiedThenVacated(s, held, Hold(s, id, lost, gateway), id);
  }

  lemma OccupiedThenVacated(s: System, held: System, s': System, id: int)
    requires SeatInv(s) && id in s.bookings && s.bookings[id].status == Pending
    requires Occupied(s, held, id) && id in held.bookings && Vacated(held, s', id)
    ensures TakesOnlyOwn(s, s', id)
  {
    hide SeatInv, Invariant, SameFrame, Keys, SeatRequest;
    SameKeys(s.bookings[id], held.bookings[id]);
    PendingOwnsNothing(s, id);
    OwnersComplete(s);
  }
}
