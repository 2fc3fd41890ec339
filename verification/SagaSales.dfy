/**
 When a CONFIRMED booking really has its seats. The confirmation ignores the inventory's reply, and the inventory answers
 success although it finds no row: the claim of a success handler backs its booking exactly when the rows are there.
 */
module SagaSales {
  import opened Options
  import opened Inventory
  import opened InventoryInvariants
  import opened InventoryRoundTrips
  import opened BookingSaga
  import opened SagaContention
  import opened SagaEveryRun
  import opened SagaMoney
  import opened SagaRuns
  import opened SagaSeats
  import opened SagaTheorems
  import Pay = Payments

  /** A BOOKED row of the booking on seat `x`. */
  ghost predicate BookedOn(locks: LockTable, id: int, b: Booking, x: int) {
    exists i :: i in locks && locks[i].key == SeatKey(b.schedule, x) && locks[i].seg == b.seg && locks[i].state == Booked
                && locks[i].booking == Some(id)
  }

  /** A LOCKED row of its user on seat `x`, with exactly its segment. */
  ghost predicate LockedOn(locks: LockTable, b: Booking, x: int) {
    exists i :: i in locks && locks[i].key == SeatKey(b.schedule, x) && locks[i].seg == b.seg && locks[i].state == Locked
                && locks[i].user == b.user
  }

  /** Every seat of the booking is BOOKED for it. */
  ghost predicate Backed(s: System, id: int)
    requires id in s.bookings
  {
    forall x :: x in s.bookings[id].seats ==> BookedOn(s.inv.locks, id, s.bookings[id], x)
  }

  /** The schedule is active, and no other transaction holds one of the seat rows. */
  ghost predicate Open(s: System, id: int)
    requires id in s.bookings
  {
    ScheduleGate(s.inv, s.bookings[id].schedule).None? && CallClear(s, id)
  }

  /** What the confirmation needs to find: on each seat a LOCKED row of the user with the segment, unless it is BOOKED already. */
  ghost predicate FindsSeats(s: System, id: int)
    requires id in s.bookings
  {
    forall x :: x in s.bookings[id].seats ==>
      BookedOn(s.inv.locks, id, s.bookings[id], x) || (Open(s, id) && LockedOn(s.inv.locks, s.bookings[id], x))
  }

  /* ---- the invariant ---- */

  /** A BOOKED row names an existing booking, and is of its schedule, segment and user. */
  ghost predicate RowNamed(s: System, i: nat)
    requires i in s.inv.locks
  {
    var row := s.inv.locks[i];
    row.state == Booked ==>
      && row.booking.Some? && row.booking.value in s.bookings
      && var b := s.bookings[row.booking.value];
      row.key.schedule == b.schedule && row.seg == b.seg && row.user == b.user
  }

  ghost predicate RowsNamed(s: System) {
    forall i :: i in s.inv.locks ==> RowNamed(s, i)
  }

  ghost predicate Requested(s: System) {
    forall id :: id in s.bookings ==> var b := s.bookings[id]; SeatRequest(b.user, b.schedule, b.seats, b.seg)
  }

  ghost predicate SalesSound(s: System) {
    Invariant(s.inv) && Numbered(s) && Requested(s) && RowsNamed(s)
  }

  ghost predicate AllBacked(s: System) {
    forall id :: id in s.bookings && s.bookings[id].status == Confirmed ==> Backed(s, id)
  }

  lemma InvIsSales(w: World)
    requires Inv(w)
    ensures SalesSound(w.s) && AllBacked(w.s)
  {
    hide Invariant, MoneyInv, TasksSound, Untouched;
    forall id | id in w.s.bookings ensures var b := w.s.bookings[id]; SeatRequest(b.user, b.schedule, b.seats, b.seg) {
      assert BookingSound(w.s, id);
    }
    forall i | i in w.s.inv.locks ensures RowNamed(w.s, i) {
      OwnedIsNamed(w.s, i);
    }
    forall id | id in w.s.bookings && w.s.bookings[id].status == Confirmed ensures Backed(w.s, id) {
      ConfirmedIsBacked(w.s, id);
    }
  }

  lemma OwnedIsNamed(s: System, i: nat)
    requires SeatInv(s) && i in s.inv.locks
    ensures RowNamed(s, i)
  {
    RowOfOwner(s, i);
    hide SeatInv;
  }

  /** The row of a booking on one of its seats. */
  lemma OwnRowOn(s: System, id: int, x: int) returns (j: nat)
    requires SeatInv(s) && id in s.bookings && s.bookings[id].Rowed() && x in s.bookings[id].seats
    ensures var b := s.bookings[id];
      && b.InRange(j) && RowBelongs(s, j, id) && j in s.owner && s.owner[j] == id && s.inv.locks[j].key == SeatKey(b.schedule, x)
  {
    var b := s.bookings[id];
    var n :| 0 <= n < |b.seats| && b.seats[n] == x;
    j := b.base + n;
    hide SeatInv;
    BookedRowBelongs(s, id, j);
  }

  lemma ConfirmedIsBacked(s: System, id: int)
    requires SeatInv(s) && id in s.bookings && s.bookings[id].status == Confirmed
    ensures Backed(s, id)
  {
    hide SeatInv;
    forall x | x in s.bookings[id].seats ensures BookedOn(s.inv.locks, id, s.bookings[id], x) {
      var j := OwnRowOn(s, id, x);
    }
  }

  /* ---- steps that leave BOOKED rows alone ---- */

  /** The same BOOKED rows before and after. */
  ghost predicate KeepsBooked(a: LockTable, b: LockTable) {
    && (forall i :: i in a && a[i].state == Booked ==> i in b && b[i] == a[i])
    && (forall i :: i in b && b[i].state == Booked ==> i in a && a[i] == b[i])
  }

  lemma KeepsBookedBoth(a: LockTable, b: LockTable, c: LockTable)
    requires KeepsBooked(a, b) && KeepsBooked(b, c)
    ensures KeepsBooked(a, c)
  {
  }

  lemma LockKeepsBooked(db: Db, busy: set<SeatKey>, user: int, schedule: int, ids: seq<int>, seg: Segment)
    requires RowsInRange(db)
    ensures KeepsBooked(db.locks, LockUnder(db, busy, user, schedule, ids, seg).0.locks)
  {
    LockUnderEffect(db, busy, user, schedule, ids, seg);
    LockEffect(db, user, schedule, ids, seg);
    hide LockUnder, LockSeats, Gate, Blocked;
  }

  lemma UnlockKeepsBooked(db: Db, busy: set<SeatKey>, user: int, schedule: int, ids: seq<int>, seg: Segment)
    ensures KeepsBooked(db.locks, UnlockUnder(db, busy, user, schedule, ids, seg).0.locks)
  {
    UnlockUnderEffect(db, busy, user, schedule, ids, seg);
    UnlockEffect(db, user, schedule, ids, seg);
    hide UnlockUnder, UnlockSeats, Gate;
  }

  lemma {:induction false} CompensationKeepsBooked(s: System, id: int, log: seq<SagaStep>, gateway: Option<string>)
    requires id in s.bookings
    ensures KeepsBooked(s.inv.locks, CompensateAll(s, id, log, gateway).inv.locks)
    decreases |log|
  {
    hide UnlockUnder, Pay.CreateRefund, KeepsBooked;
    if log == [] {
      assert KeepsBooked(s.inv.locks, s.inv.locks) by { SameBooked(s.inv.locks); }
    } else {
      CompensationKeepsBooked(s, id, log[..|log| - 1], gateway);
      var (c, b) := (CompensateAll(s, id, log[..|log| - 1], gateway), s.bookings[id]);
      var u := UnlockUnder(c.inv, c.busy.unlocks, b.user, b.schedule, b.seats, b.seg).0;
      UnlockKeepsBooked(c.inv, c.busy.unlocks, b.user, b.schedule, b.seats, b.seg);
      KeepsBookedBoth(s.inv.locks, c.inv.locks, u.locks);
    }
  }

  lemma SameBooked(locks: LockTable)
    ensures KeepsBooked(locks, locks)
  {
  }

  predicate SameTrip(a: Booking, b: Booking) {
    a.user == b.user && a.schedule == b.schedule && a.seats == b.seats && a.seg == b.seg
  }

  /** A step of one booking that confirms nothing and cancels no seat. */
  ghost predicate Touches(s: System, s': System, id: int) {
    && OnlyBooking(s, s', id) && s'.nextBooking == s.nextBooking && SameTrip(s.bookings[id], s'.bookings[id])
    && (s'.bookings[id].status == Confirmed ==> s.bookings[id].status == Confirmed) && KeepsBooked(s.inv.locks, s'.inv.locks)
  }

  lemma AbandonTouches(s: System, t: System, id: int, gateway: Option<string>)
    requires id in t.bookings && OnlyBooking(s, t, id) && t.nextBooking == s.nextBooking && SameTrip(s.bookings[id], t.bookings[id])
    requires KeepsBooked(s.inv.locks, t.inv.locks)
    ensures Touches(s, Abandon(t, id, gateway), id)
  {
    CompensationKeepsBooked(t, id, LogOf(t, id), gateway);
    CompensationOnly(t, id, LogOf(t, id), gateway);
    KeepsBookedBoth(s.inv.locks, t.inv.locks, CompensateAll(t, id, LogOf(t, id), gateway).inv.locks);
    hide CompensateAll, R.Released, KeepsBooked;
  }

  lemma HoldTouches(s: System, id: int, lost: bool, gateway: Option<string>)
    requires RowsInRange(s.inv) && id in s.bookings
    ensures Touches(s, Hold(s, id, lost, gateway), id)
  {
    hide LockUnder, Abandon, RowsInRange, KeepsBooked;
    var b := s.bookings[id];
    var inv := LockUnder(s.inv, s.busy.calls, b.user, b.schedule, b.seats, b.seg).0;
    HoldCases(s, id, lost, gateway);
    LockKeepsBooked(s.inv, s.busy.calls, b.user, b.schedule, b.seats, b.seg);
    AbandonTouches(s, WithBooking(WithInventory(s, id, inv), id, b.(base := s.inv.nextId)), id, gateway);
  }

  lemma PaymentTouches(s: System, id: int, order: Option<string>, lost: bool, gateway: Option<string>)
    requires id in s.bookings
    ensures Touches(s, RequestPayment(s, id, order, lost, gateway), id)
  {
    hide Abandon, Pay.CreateOrder, KeepsBooked;
    SameBooked(s.inv.locks);
    AbandonTouches(s, WithPaymentLog(s, id, order), id, gateway);
  }

  lemma PaymentFailsTouches(s: System, id: int, gateway: Option<string>)
    requires id in s.bookings
    ensures Touches(s, PaymentFails(s, id, gateway), id)
  {
    var b := s.bookings[id];
    var t := WithBooking(s, id, b.(status := Failed, reason := OtherFailure, version := b.version + 1));
    CompensationKeepsBooked(t, id, LogOf(s, id), gateway);
    CompensationOnly(t, id, LogOf(s, id), gateway);
    hide CompensateAll, R.ForceReleased, KeepsBooked;
  }

  lemma FaultTouches(s: System, id: int, gateway: Option<string>)
    requires id in s.bookings
    ensures Touches(s, ConfirmFaults(s, id, gateway), id)
  {
    CompensationKeepsBooked(s, id, LogOf(s, id), gateway);
    CompensationOnly(s, id, LogOf(s, id), gateway);
    hide CompensateAll, R.ForceReleased, KeepsBooked;
  }

  lemma DropTouches(s: System, d: Drop)
    requires d.booking in s.bookings
    ensures Touches(s, Dropped(s, d), d.booking)
  {
    var b := s.bookings[d.booking];
    DropChanges(s, d);
    UnlockKeepsBooked(s.inv, s.busy.unlocks, b.user, b.schedule, b.seats, b.seg);
    SameBooked(s.inv.locks);
    hide UnlockUnder, R.ForceReleased, KeepsBooked;
  }

  lemma TouchedIsBacked(s: System, s': System, id: int, c: int)
    requires Touches(s, s', id) && c in s.bookings && Backed(s, c)
    ensures Backed(s', c)
  {
    forall x | x in s'.bookings[c].seats ensures BookedOn(s'.inv.locks, c, s'.bookings[c], x) {
      assert BookedOn(s.inv.locks, c, s.bookings[c], x);
    }
  }

  lemma TouchKeepsSales(s: System, s': System, id: int)
    requires SalesSound(s) && Touches(s, s', id) && Invariant(s'.inv)
    ensures SalesSound(s') && (AllBacked(s) ==> AllBacked(s'))
  {
    hide Invariant, SeatRequest, Backed;
    forall i | i in s'.inv.locks ensures RowNamed(s', i) {
      if s'.inv.locks[i].state == Booked {
        assert RowNamed(s, i);
      }
    }
    if AllBacked(s) {
      forall c | c in s'.bookings && s'.bookings[c].status == Confirmed ensures Backed(s', c) {
        TouchedIsBacked(s, s', id, c);
      }
    }
  }

  /* ---- the confirmation ---- */

  /** The rows after the confirmation of a booking, accepted or refused. */
  lemma ConfirmedRows(s: System, id: int, refreshed: bool)
    requires SalesSound(s) && id in s.bookings
    ensures var (b, s') := (s.bookings[id], ConfirmPaid(s, id, refreshed));
      s'.inv.locks == if Gate(s.inv, b.schedule, b.seats).None? && CallClear(s, id)
                      then Inventory.Confirmed(s.inv.locks, b.schedule, IdSet(b.seats), b.seg, b.user, id) else s.inv.locks
  {
    var b := s.bookings[id];
    ConfirmUnderEffect(s.inv, s.busy.calls, id, b.user, b.schedule, b.seats, b.seg);
    ConfirmEffect(s.inv, id, b.user, b.schedule, b.seats, b.seg);
    hide ConfirmUnder, ConfirmSeats, Gate, Invariant, R.ForceReleased, RowsNamed;
  }

  lemma GateOfOpen(s: System, id: int)
    requires SalesSound(s) && id in s.bookings && forall x :: x in s.bookings[id].seats ==> SeatKey(s.bookings[id].schedule, x) in s.inv.seats
    ensures Gate(s.inv, s.bookings[id].schedule, s.bookings[id].seats).None? <==> ScheduleGate(s.inv, s.bookings[id].schedule).None?
  {
    GateOpensIff(s.inv, s.bookings[id].schedule, s.bookings[id].seats);
    hide Invariant, RowsNamed;
  }

  lemma BookedKeyIsSeat(s: System, id: int, x: int)
    requires RowsInRange(s.inv) && id in s.bookings
    requires BookedOn(s.inv.locks, id, s.bookings[id], x) || LockedOn(s.inv.locks, s.bookings[id], x)
    ensures SeatKey(s.bookings[id].schedule, x) in s.inv.seats
  {
  }

  /** One seat of an accepted confirmation. */
  lemma BookedByConfirmIff(locks: LockTable, id: int, b: Booking, x: int)
    requires x in b.seats
    ensures var after := Inventory.Confirmed(locks, b.schedule, IdSet(b.seats), b.seg, b.user, id);
      BookedOn(after, id, b, x) <==> BookedOn(locks, id, b, x) || LockedOn(locks, b, x)
  {
    var after := Inventory.Confirmed(locks, b.schedule, IdSet(b.seats), b.seg, b.user, id);
    if BookedOn(locks, id, b, x) {
      var i :| i in locks && locks[i].key == SeatKey(b.schedule, x) && locks[i].seg == b.seg && locks[i].state == Booked
               && locks[i].booking == Some(id);
      assert after[i] == locks[i];
    }
    if LockedOn(locks, b, x) {
      var i :| i in locks && locks[i].key == SeatKey(b.schedule, x) && locks[i].seg == b.seg && locks[i].state == Locked
               && locks[i].user == b.user;
      assert after[i].state == Booked && after[i].booking == Some(id);
    }
    if BookedOn(after, id, b, x) {
      var i :| i in after && after[i].key == SeatKey(b.schedule, x) && after[i].seg == b.seg && after[i].state == Booked
               && after[i].booking == Some(id);
      assert after[i] == locks[i] || locks[i].Matches(b.schedule, IdSet(b.seats), b.seg, b.user, Locked);
    }
  }

  /**
   The claim of a success handler leaves its booking with a BOOKED row on every seat exactly when each of them had, at that
   moment, a LOCKED row of its user with its segment that the confirmation could take, or was BOOKED for it already.
   */
  lemma ClaimBacksIff(s: System, id: int, refreshed: bool)
    requires SalesSound(s) && id in s.bookings
    ensures id in ConfirmPaid(s, id, refreshed).bookings
    ensures Backed(ConfirmPaid(s, id, refreshed), id) <==> FindsSeats(s, id)
  {
    var b := s.bookings[id];
    var s' := ConfirmPaid(s, id, refreshed);
    ConfirmedRows(s, id, refreshed);
    ConfirmParts(s, id, refreshed);
    hide ConfirmPaid, Invariant, Gate, ScheduleGate, RowsNamed, BookedOn, LockedOn, Inventory.Confirmed;
    forall x | x in b.seats ensures var after := Inventory.Confirmed(s.inv.locks, b.schedule, IdSet(b.seats), b.seg, b.user, id);
      BookedOn(after, id, b, x) <==> BookedOn(s.inv.locks, id, b, x) || LockedOn(s.inv.locks, b, x) {
      BookedByConfirmIff(s.inv.locks, id, b, x);
    }
    forall x ensures BookedOn(s'.inv.locks, id, s'.bookings[id], x) <==> BookedOn(s'.inv.locks, id, b, x) {
      SameTripSameRows(s'.inv.locks, id, b, s'.bookings[id], x);
    }
    if forall x :: x in b.seats ==> BookedOn(s.inv.locks, id, b, x) || LockedOn(s.inv.locks, b, x) {
      forall x | x in b.seats ensures SeatKey(b.schedule, x) in s.inv.seats {
        BookedKeyIsSeat(s, id, x) by { RowsOfSound(s); }
      }
      GateOfOpen(s, id);
    }
  }

  lemma RowsOfSound(s: System)
    requires SalesSound(s)
    ensures RowsInRange(s.inv) && NoOverlap(s.inv.locks)
  {
  }

  lemma SameTripSameRows(locks: LockTable, id: int, a: Booking, b: Booking, x: int)
    requires SameTrip(a, b)
    ensures BookedOn(locks, id, a, x) <==> BookedOn(locks, id, b, x)
  {
  }

  /** What the claim of a success handler does to rows and bookings: BOOKED rows stay, new ones are of the confirmed booking. */
  ghost predicate Promotes(s: System, s': System, id: int) {
    && OnlyBooking(s, s', id) && s'.nextBooking == s.nextBooking && SameTrip(s.bookings[id], s'.bookings[id])
    && (forall i :: i in s.inv.locks && s.inv.locks[i].state == Booked ==> i in s'.inv.locks && s'.inv.locks[i] == s.inv.locks[i])
    && (forall i :: i in s'.inv.locks && s'.inv.locks[i].state == Booked ==>
          || (i in s.inv.locks && s'.inv.locks[i] == s.inv.locks[i])
          || (var (row, b) := (s'.inv.locks[i], s.bookings[id]);
              row.booking == Some(id) && row.key.schedule == b.schedule && row.seg == b.seg && row.user == b.user))
  }

  lemma PromotedRows(locks: LockTable, id: int, b: Booking)
    ensures var after := Inventory.Confirmed(locks, b.schedule, IdSet(b.seats), b.seg, b.user, id);
      && (forall i :: i in locks && locks[i].state == Booked ==> i in after && after[i] == locks[i])
      && (forall i :: i in after && after[i].state == Booked ==>
            || (i in locks && after[i] == locks[i])
            || (after[i].booking == Some(id) && after[i].key.schedule == b.schedule && after[i].seg == b.seg && after[i].user == b.user))
  {
  }

  lemma ConfirmPaidPromotes(s: System, id: int, refreshed: bool)
    requires SalesSound(s) && id in s.bookings
    ensures Promotes(s, ConfirmPaid(s, id, refreshed), id)
  {
    ConfirmedRows(s, id, refreshed);
    ConfirmParts(s, id, refreshed);
    ConfirmSettles(s, id, refreshed);
    PromotedRows(s.inv.locks, id, s.bookings[id]);
    hide ConfirmPaid, SalesSound, Gate, CallClear, Inventory.Confirmed;
  }

  lemma PromotedNamed(s: System, s': System, id: int)
    requires RowsNamed(s) && Promotes(s, s', id)
    ensures RowsNamed(s')
  {
    forall i | i in s'.inv.locks ensures RowNamed(s', i) {
      if s'.inv.locks[i].state == Booked && i in s.inv.locks {
        assert RowNamed(s, i);
      }
    }
  }

  lemma PromotedBacked(s: System, s': System, id: int, c: int)
    requires Promotes(s, s', id) && c in s.bookings && Backed(s, c)
    ensures c in s'.bookings && Backed(s', c)
  {
    forall x | x in s'.bookings[c].seats ensures BookedOn(s'.inv.locks, c, s'.bookings[c], x) {
      assert BookedOn(s.inv.locks, c, s.bookings[c], x);
    }
  }

  lemma SalesStay(s: System, s': System, id: int)
    requires SalesSound(s) && OnlyBooking(s, s', id) && s'.nextBooking == s.nextBooking && SameTrip(s.bookings[id], s'.bookings[id])
    requires Invariant(s'.inv) && RowsNamed(s')
    ensures SalesSound(s')
  {
    hide Invariant, SeatRequest, RowNamed;
  }

  lemma PromotedSales(s: System, s': System, id: int)
    requires SalesSound(s) && Promotes(s, s', id) && Invariant(s'.inv)
    ensures SalesSound(s') && (AllBacked(s) && Backed(s', id) ==> AllBacked(s'))
  {
    PromotedNamed(s, s', id);
    SalesStay(s, s', id) by { hide SalesSound, RowsNamed; }
    hide SalesSound, Backed;
    if AllBacked(s) && Backed(s', id) {
      forall c | c in s'.bookings && s'.bookings[c].status == BookingSaga.Confirmed ensures Backed(s', c) {
        if c != id {
          PromotedBacked(s, s', id, c);
        }
      }
    }
  }

  /** The claim takes nothing from the other bookings, so all CONFIRMED bookings stay backed exactly when it finds its seats. */
  lemma ClaimKeepsSales(s: System, id: int, refreshed: bool)
    requires SalesSound(s) && id in s.bookings
    ensures SalesSound(ConfirmPaid(s, id, refreshed))
    ensures AllBacked(s) ==> (AllBacked(ConfirmPaid(s, id, refreshed)) <==> FindsSeats(s, id))
  {
    ConfirmPaidPromotes(s, id, refreshed);
    ConfirmParts(s, id, refreshed);
    RowsOfSound(s);
    ConfirmPaidKeepsRows(s, id, refreshed) by { hide RowsNamed; }
    ClaimBacksIff(s, id, refreshed);
    hide ConfirmPaid, SalesSound, Promotes, Backed, FindsSeats;
    PromotedSales(s, ConfirmPaid(s, id, refreshed), id);
  }

  /* ---- the cancellation of seats ---- */

  /** A cancellation removes BOOKED rows of its booking only. */
  ghost predicate Removes(s: System, s': System, id: int) {
    && OnlyBooking(s, s', id) && s'.nextBooking == s.nextBooking && SameTrip(s.bookings[id], s'.bookings[id])
    && s'.bookings[id].status == CancelledByUser
    && (forall i :: i in s'.inv.locks ==> i in s.inv.locks && s'.inv.locks[i] == s.inv.locks[i])
    && (forall i :: i in s.inv.locks && i !in s'.inv.locks ==> s.inv.locks[i].booking == Some(id))
  }

  /** The delete names seats, segment and user of the first row; with truthful rows it reaches only rows of the booking. */
  lemma CancelledRows(s: System, id: int)
    requires SalesSound(s) && id in s.bookings
    ensures var (b, inv) := (s.bookings[id], CancelSeats(s.inv, s.bookings[id].schedule, id, s.bookings[id].user).0);
      inv.locks == s.inv.locks || inv.locks == s.inv.locks - RowsOfBooking(s.inv.locks, b.schedule, id, b.user)
  {
    var b := s.bookings[id];
    var rows := RowsOfBooking(s.inv.locks, b.schedule, id, b.user);
    CancelEffect(s.inv, b.schedule, id, b.user);
    hide CancelSeats, ScheduleGate, StatusesAgree, CountersAgree, EventsAgree, CancelDeleted;
    forall i | i in rows ensures s.inv.locks[i].seg == b.seg {
      assert RowNamed(s, i);
    }
    if rows != {} {
      CancelOfOneSegment(s.inv.locks, b.schedule, id, b.user, b.seg);
    }
  }

  lemma CancelRemoves(s: System, id: int, gateway: Option<string>, refreshed: bool)
    requires SalesSound(s) && id in s.bookings
    ensures Removes(s, CancelConfirmed(s, id, gateway, refreshed), id)
  {
    CancelledRows(s, id);
    hide SalesSound, CancelSeats, R.ForceReleased, Pay.CreateRefund;
  }

  lemma RemovedBacked(s: System, s': System, id: int, c: int)
    requires Removes(s, s', id) && c in s.bookings && c != id && Backed(s, c)
    ensures c in s'.bookings && Backed(s', c)
  {
    forall x | x in s'.bookings[c].seats ensures BookedOn(s'.inv.locks, c, s'.bookings[c], x) {
      assert BookedOn(s.inv.locks, c, s.bookings[c], x);
    }
  }

  lemma RemovedSales(s: System, s': System, id: int)
    requires SalesSound(s) && Removes(s, s', id) && Invariant(s'.inv)
    ensures SalesSound(s') && (AllBacked(s) ==> AllBacked(s'))
  {
    RemovedNamed(s, s', id);
    SalesStay(s, s', id) by { hide SalesSound, RowsNamed; }
    hide SalesSound, Backed;
    if AllBacked(s) {
      forall c | c in s'.bookings && s'.bookings[c].status == BookingSaga.Confirmed ensures Backed(s', c) {
        RemovedBacked(s, s', id, c);
      }
    }
  }

  lemma RemovedNamed(s: System, s': System, id: int)
    requires RowsNamed(s) && Removes(s, s', id)
    ensures RowsNamed(s')
  {
    forall i | i in s'.inv.locks ensures RowNamed(s', i) {
      assert RowNamed(s, i);
    }
  }

  lemma CancelKeepsSales(s: System, id: int, gateway: Option<string>, refreshed: bool)
    requires SalesSound(s) && id in s.bookings
    ensures SalesSound(CancelConfirmed(s, id, gateway, refreshed))
    ensures AllBacked(s) ==> AllBacked(CancelConfirmed(s, id, gateway, refreshed))
  {
    CancelRemoves(s, id, gateway, refreshed);
    CancelConfirmedKeepsRows(s, id, gateway, refreshed) by { hide Invariant, RowsNamed; }
    hide CancelConfirmed, SalesSound, Removes;
    RemovedSales(s, CancelConfirmed(s, id, gateway, refreshed), id);
  }

  /* ---- every step ---- */

  /** A claim of a success handler that wins. */
  predicate Confirms(w: World, t: Step) {
    t.Claim? && Wins(w, t.h) && w.seen[t.h].kind.PaidMessage?
  }

  lemma StartKeepsSales(s: System, r: Request, token: int)
    requires SalesSound(s)
    ensures SalesSound(Begin(s, r, token)) && (AllBacked(s) ==> AllBacked(Begin(s, r, token)))
  {
    hide Begin, Invariant, SeatRequest, Backed;
    var s' := Begin(s, r, token);
    StartKeepsNumbers(s, r, token);
    if s'.nextBooking != s.nextBooking {
      BeginParts(s, r, token);
      BegunIsRequested(s, r, token);
      NewKeepsSales(s, s', s'.bookings[s.nextBooking]);
    } else {
      FailedBeginParts(s, r, token);
      SameSales(s, s');
    }
  }

  lemma BegunIsRequested(s: System, r: Request, token: int)
    requires Begin(s, r, token).nextBooking != s.nextBooking
    ensures var b := NewBooking(s, r, token); SeatRequest(b.user, b.schedule, b.seats, b.seg) && b.status == Pending
  {
    hide R.CanAcquire, R.Acquired, R.Released, KeyList, TotalPrice;
  }

  lemma NewKeepsSales(s: System, s': System, b: Booking)
    requires SalesSound(s) && s'.inv == s.inv && s'.bookings == s.bookings[s.nextBooking := b] && Numbered(s')
    requires SeatRequest(b.user, b.schedule, b.seats, b.seg) && b.status == Pending
    ensures SalesSound(s') && (AllBacked(s) ==> AllBacked(s'))
  {
    hide Invariant, SeatRequest, BookedOn;
    forall i | i in s'.inv.locks ensures RowNamed(s', i) {
      assert RowNamed(s, i);
    }
  }

  lemma SameSales(s: System, s': System)
    requires SalesSound(s) && s'.inv == s.inv && s'.bookings == s.bookings && Numbered(s')
    ensures SalesSound(s') && (AllBacked(s) ==> AllBacked(s'))
  {
    hide Invariant, SeatRequest, BookedOn;
    forall i | i in s'.inv.locks ensures RowNamed(s', i) {
      assert RowNamed(s, i);
    }
  }

  lemma SalesAreRequests(s: System)
    requires SalesSound(s)
    ensures InventorySound(s)
  {
    hide Invariant, RowsNamed;
  }

  lemma TouchingStep(w: World, t: Step)
    requires SalesSound(w.s) && Enabled(w, t) && Subject(w, t).Some?
    requires t.Claim? ==> w.seen[t.h].kind.UnpaidMessage?
    ensures Touches(w.s, Next(w, t).s, Subject(w, t).value)
  {
    RowsOfSound(w.s);
    hide SalesSound, Touches, Hold, RequestPayment, PaymentFails, ConfirmFaults, Dropped, HoldSucceeds;
    match t
    case HoldStep(id, lost, gateway) => HoldTouches(w.s, id, lost, gateway);
    case PaymentStep(id, order, lost, gateway) => PaymentTouches(w.s, id, order, lost, gateway);
    case Claim(h, refreshed, gateway) => PaymentFailsTouches(w.s, w.seen[h].booking, gateway);
    case CompensateStep(h, gateway) => FaultTouches(w.s, w.rolled[h].booking, gateway);
    case DropStep(h) => DropTouches(w.s, w.drops[h]);
    case _ =>
  }

  /**
   Late writes, refused unlocks and lost replies included, exactly one step can leave a CONFIRMED booking without its seats:
   the winning claim of a success handler that does not find them.
   */
  lemma StepBacksIff(w: World, t: Step)
    requires SalesSound(w.s) && Enabled(w, t)
    ensures SalesSound(Next(w, t).s)
    ensures AllBacked(w.s) ==> (AllBacked(Next(w, t).s) <==> (Confirms(w, t) ==> FindsSeats(w.s, w.seen[t.h].booking)))
  {
    hide SalesSound, AllBacked, FindsSeats, Touches, Begin, Hold, RequestPayment, ConfirmPaid, PaymentFails, CancelConfirmed,
      ConfirmFaults, Dropped, HoldSucceeds, VerifyPayment, Interested;
    SalesAreRequests(w.s);
    if Subject(w, t).Some? && (t.Claim? ==> w.seen[t.h].kind.UnpaidMessage?) {
      TouchingStep(w, t);
      StepKeepsRows(w, t);
      TouchKeepsSales(w.s, Next(w, t).s, Subject(w, t).value);
    } else {
      match t
      case Start(r, token) => StartKeepsSales(w.s, r, token);
      case VerifyStep(o, payment, signatureOk) =>
        VerifyMoves(w.s, o, payment, signatureOk);
        SameSales(w.s, Next(w, t).s);
      case Claim(h, refreshed, gateway) =>
        if Wins(w, h) {
          ClaimKeepsSales(w.s, w.seen[h].booking, refreshed);
          CancelKeepsSales(w.s, w.seen[h].booking, gateway, refreshed);
        }
      case Contend(busy) =>
        SalesNumbers(w.s);
        SameSales(w.s, Next(w, t).s);
      case _ =>
    }
  }

  lemma SalesNumbers(s: System)
    requires SalesSound(s)
    ensures Numbered(s)
  {
  }

  lemma VerifyMoves(s: System, o: int, payment: string, signatureOk: bool)
    requires SalesSound(s)
    ensures var s' := VerifyPayment(s, o, payment, signatureOk); s'.inv == s.inv && s'.bookings == s.bookings && Numbered(s')
  {
    hide Pay.Verify;
  }

  /* ---- every run ---- */

  /** A run in which every success handler that wins its claim finds the seats of its booking. */
  ghost predicate ClaimsFind(w: World, steps: seq<Step>)
    decreases |steps|
  {
    steps != [] ==>
      && Enabled(w, steps[0]) && (Confirms(w, steps[0]) ==> FindsSeats(w.s, w.seen[steps[0].h].booking))
      && ClaimsFind(Next(w, steps[0]), steps[1..])
  }

  /** In every state of the run all CONFIRMED bookings have their seats. */
  ghost predicate AlwaysBacked(w: World, steps: seq<Step>)
    decreases |steps|
  {
    AllBacked(w.s) && (steps != [] ==> Enabled(w, steps[0]) && AlwaysBacked(Next(w, steps[0]), steps[1..]))
  }

  lemma {:induction false} RunBacksIff(w: World, steps: seq<Step>, end: World)
    requires SalesSound(w.s) && AllBacked(w.s) && IsRun(w, steps, end)
    ensures AlwaysBacked(w, steps) <==> ClaimsFind(w, steps)
    ensures ClaimsFind(w, steps) ==> SalesSound(end.s) && AllBacked(end.s)
    decreases |steps|
  {
    hide Next, Enabled, SalesSound, AllBacked, FindsSeats, Confirms;
    if steps != [] {
      StepBacksIff(w, steps[0]);
      if AllBacked(Next(w, steps[0]).s) {
        RunBacksIff(Next(w, steps[0]), steps[1..], end);
      }
    }
  }

  lemma BackedShareNoLeg(s: System, a: int, b: int, leg: int, x: int)
    requires NoOverlap(s.inv.locks) && a in s.bookings && b in s.bookings && a != b && Backed(s, a) && Backed(s, b)
    requires s.bookings[a].schedule == s.bookings[b].schedule && x in s.bookings[a].seats && x in s.bookings[b].seats
    ensures !(s.bookings[a].seg.Covers(leg) && s.bookings[b].seg.Covers(leg))
  {
    assert BookedOn(s.inv.locks, a, s.bookings[a], x) && BookedOn(s.inv.locks, b, s.bookings[b], x);
  }

  /**
   No seat is sold twice, whatever comes late, as long as the winning success handlers find their seats: from any state
   that keeps the invariant, no two CONFIRMED bookings ever share a leg of a seat.
   */
  lemma ConfirmedShareNoLeg(w: World, steps: seq<Step>, end: World, a: int, b: int, leg: int, x: int)
    requires Inv(w) && IsRun(w, steps, end) && ClaimsFind(w, steps)
    requires a in end.s.bookings && b in end.s.bookings && a != b
    requires end.s.bookings[a].status == BookingSaga.Confirmed && end.s.bookings[b].status == BookingSaga.Confirmed
    requires end.s.bookings[a].schedule == end.s.bookings[b].schedule && x in end.s.bookings[a].seats && x in end.s.bookings[b].seats
    ensures !(end.s.bookings[a].seg.Covers(leg) && end.s.bookings[b].seg.Covers(leg))
  {
    InvIsSales(w);
    RunBacksIff(w, steps, end);
    RowsOfSound(end.s);
    hide SalesSound, Backed, NoOverlap, Inv, IsRun, ClaimsFind;
    BackedShareNoLeg(end.s, a, b, leg, x);
  }

  /** A timely run is of this kind. */
  lemma {:induction false} TimelyClaimsFind(w: World, steps: seq<Step>, end: World)
    requires Inv(w) && TimelyRun(w, steps, end)
    ensures ClaimsFind(w, steps)
    decreases |steps|
  {
    hide Next, Enabled, Inv, FindsSeats, Timely;
    if steps != [] {
      if Confirms(w, steps[0]) {
        TimelyClaimFinds(w, steps[0]);
      }
      StepKeepsInv(w, steps[0]);
      TimelyClaimsFind(Next(w, steps[0]), steps[1..], end);
    }
  }

  lemma TimelyClaimFinds(w: World, t: Step)
    requires Inv(w) && Enabled(w, t) && Timely(w, t) && Confirms(w, t)
    ensures FindsSeats(w.s, w.seen[t.h].booking)
  {
    hide MoneyInv, Invariant, Untouched;
    var id := w.seen[t.h].booking;
    assert ReadSound(w.s, w.seen[t.h]);
    PendingIsLocked(w.s, id);
  }

  lemma PendingIsLocked(s: System, id: int)
    requires SeatInv(s) && id in s.bookings && s.bookings[id].status == PaymentPending
    ensures ScheduleGate(s.inv, s.bookings[id].schedule).None?
    ensures forall x :: x in s.bookings[id].seats ==> LockedOn(s.inv.locks, s.bookings[id], x)
  {
    assert BookingSound(s, id);
    hide SeatInv, BookingSound;
    forall x | x in s.bookings[id].seats ensures LockedOn(s.inv.locks, s.bookings[id], x) {
      var j := OwnRowOn(s, id, x);
    }
  }
}
