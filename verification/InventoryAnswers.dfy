/** What the inventory answers and what a rebuild may touch, told from the tables without the functions that compute it. */
module InventoryAnswers {
  import opened IntSets
  import opened Options
  import opened Inventory
  import opened InventoryInvariants
  import opened InventoryRoundTrips

  /* ---- refusals ---- */

  /** The missing seats of a refusal are the requested ones that were not found. */
  lemma {:induction false} MissingAre(ids: seq<int>, found: set<int>, x: int)
    ensures x in NotIn(ids, found) <==> x in ids && x !in found
  {
    if ids != [] {
      MissingAre(ids[1..], found, x);
    }
  }

  lemma MissingOne(x: int, found: set<int>)
    ensures NotIn([x], found) == if x in found then [] else [x]
  {
    assert [x][1..] == [];
  }

  /** In the order of the request, each as often as it was asked for. */
  lemma {:induction false} MissingKeepOrder(a: seq<int>, b: seq<int>, found: set<int>)
    ensures NotIn(a + b, found) == NotIn(a, found) + NotIn(b, found)
  {
    if a == [] {
      assert a + b == b;
    } else {
      var head := if a[0] in found then [] else [a[0]];
      assert NotIn(a, found) == head + NotIn(a[1..], found);
      assert NotIn(a + b, found) == head + NotIn(a[1..] + b, found) by {
        assert (a + b)[1..] == a[1..] + b;
      }
      hide NotIn;
      MissingKeepOrder(a[1..], b, found);
      assert head + (NotIn(a[1..], found) + NotIn(b, found)) == (head + NotIn(a[1..], found)) + NotIn(b, found);
    }
  }

  /**
   The refusals of the checks and the exact case of each: nothing requested, no such schedule, a schedule that is not active,
   and seats that are asked for twice or do not exist, of which those that do not exist are named.
   */
  lemma GateRefusesIff(db: Db, schedule: int, ids: seq<int>)
    ensures var gate := Gate(db, schedule, ids);
      && (gate == Some(SeatIdsRequired) <==> ids == [])
      && (gate == Some(ScheduleNotFound) <==> ids != [] && schedule !in db.schedules)
      && (gate == Some(ScheduleNotActive) <==> ids != [] && schedule in db.schedules && db.schedules[schedule].state != Active)
      && (gate.Some? && gate.value.SeatsMissing? <==>
            && ids != [] && schedule in db.schedules && db.schedules[schedule].state == Active
            && !(Distinct(ids) && forall x :: x in ids ==> SeatKey(schedule, x) in db.seats))
      && (gate.Some? && gate.value.SeatsMissing? ==>
            forall x :: x in gate.value.missing <==> x in ids && SeatKey(schedule, x) !in db.seats)
  {
    GateOpensIff(db, schedule, ids);
    var found := Found(db.seats, schedule, ids);
    forall x ensures x in NotIn(ids, found) <==> x in ids && SeatKey(schedule, x) !in db.seats {
      MissingAre(ids, found, x);
    }
  }

  /** A lock names the requested seats on which an active row overlaps, and is refused for them only. */
  lemma LockRefusesTaken(db: Db, user: int, schedule: int, ids: seq<int>, seg: Segment, x: int)
    requires Gate(db, schedule, ids).None?
    ensures var reply := LockSeats(db, user, schedule, ids, seg).1;
      var taken := x in ids && exists i ::
        i in db.locks && db.locks[i].key == SeatKey(schedule, x) && db.locks[i].Active() && db.locks[i].seg.Overlaps(seg);
      && (reply.Done? ==> !taken)
      && (!reply.Done? ==> reply.Refused? && reply.reason.SegmentTaken? && (x in reply.reason.blocked <==> taken))
  {
    var blocked := Blocked(db.locks, schedule, IdSet(ids), seg);
    forall i | i in db.locks && db.locks[i].key == SeatKey(schedule, x) && x in ids && db.locks[i].Active() && db.locks[i].seg.Overlaps(seg)
      ensures x in blocked {}
  }

  /** A cancellation is refused for a missing argument first, then for the schedule, then for want of rows. */
  lemma CancelRefusesIff(db: Db, schedule: int, booking: int, user: int)
    ensures var reply := CancelSeats(db, schedule, booking, user).1;
      var named := schedule != 0 && booking != 0 && user != 0;
      && (reply == Refused(LocksNotFound) <==>
            && named && schedule in db.schedules && db.schedules[schedule].state == Active
            && forall i :: i in db.locks ==>
                 !(db.locks[i].key.schedule == schedule && db.locks[i].booking == Some(booking) && db.locks[i].user == user
                   && db.locks[i].state == Booked))
      && (reply == Refused(ScheduleNotFound) <==> named && schedule !in db.schedules)
      && (reply == Refused(ScheduleNotActive) <==> named && schedule in db.schedules && db.schedules[schedule].state != Active)
      && (reply == Refused(ScheduleIdRequired) <==> schedule == 0)
      && (reply == Refused(BookingIdRequired) <==> schedule != 0 && booking == 0)
      && (reply == Refused(UserIdRequired) <==> schedule != 0 && booking != 0 && user == 0)
  {
    var rows := RowsOfBooking(db.locks, schedule, booking, user);
    assert rows == {} <==> forall i :: i in db.locks ==> i !in rows;
  }

  /* ---- which rows a request reaches ---- */

  /** LOCKED by this user on one of the seats, with exactly this segment. */
  predicate HeldFor(row: LockRow, user: int, schedule: int, ids: seq<int>, seg: Segment) {
    row.key.schedule == schedule && row.key.seat in ids && row.seg == seg && row.user == user && row.state == Locked
  }

  /** An unlock deletes these rows and changes no other. */
  lemma UnlockReaches(db: Db, user: int, schedule: int, ids: seq<int>, seg: Segment, i: nat)
    requires UnlockSeats(db, user, schedule, ids, seg).1.Done? && i in db.locks
    ensures var locks := UnlockSeats(db, user, schedule, ids, seg).0.locks;
      if HeldFor(db.locks[i], user, schedule, ids, seg) then i !in locks else i in locks && locks[i] == db.locks[i]
  {
    UnlockEffect(db, user, schedule, ids, seg);
    hide UnlockSeats;
  }

  /** A confirmation books these rows under the booking id and counts their version up; it changes no other and adds none. */
  lemma ConfirmReaches(db: Db, booking: int, user: int, schedule: int, ids: seq<int>, seg: Segment, i: nat)
    requires ConfirmSeats(db, booking, user, schedule, ids, seg).1.Done?
    ensures var locks := ConfirmSeats(db, booking, user, schedule, ids, seg).0.locks;
      && (i in locks <==> i in db.locks)
      && (i in locks && HeldFor(db.locks[i], user, schedule, ids, seg) ==>
            locks[i] == LockRow(db.locks[i].key, seg, user, Some(booking), Booked, db.locks[i].version + 1))
      && (i in locks && !HeldFor(db.locks[i], user, schedule, ids, seg) ==> locks[i] == db.locks[i])
  {
    ConfirmEffect(db, booking, user, schedule, ids, seg);
    hide ConfirmSeats;
  }

  /** A lock adds one LOCKED row without booking per seat, with the user and the segment, and changes no other. */
  lemma LockAdds(db: Db, user: int, schedule: int, ids: seq<int>, seg: Segment, n: nat)
    requires LockSeats(db, user, schedule, ids, seg).1.Done? && RowsInRange(db) && n < |ids|
    ensures var locks := LockSeats(db, user, schedule, ids, seg).0.locks;
      && (forall i :: i in locks <==> i in db.locks || db.nextId <= i < db.nextId + |ids|)
      && (forall i :: i in db.locks ==> locks[i] == db.locks[i])
      && locks[db.nextId + n] == LockRow(SeatKey(schedule, ids[n]), seg, user, None, Locked, 0)
  {
    LockEffect(db, user, schedule, ids, seg);
    hide LockSeats;
  }

  /** A schedule is created exactly once: for positive ids, distinct seats in known states, and a schedule without seats so far. */
  lemma CreatedIff(db: Db, schedule: int, train: int, details: seq<SeatDetail>)
    ensures var (db', reply) := CreateSchedule(db, schedule, train, details);
      && (reply.Done? <==>
            && schedule > 0 && train > 0 && schedule !in db.schedules && UniqueSeats(details) && KnownStates(details)
            && forall k :: k in db.seats ==> k.schedule != schedule)
      && (reply == AlreadyProcessed <==> schedule > 0 && train > 0 && schedule in db.schedules)
      && (reply.Done? ==> db'.schedules == db.schedules[schedule := ScheduleRow(train, |details|, |details|, 0, 0, Active, 0)])
      && (!reply.Done? ==> db' == db)
      && (reply.Done? ==> CreateSchedule(db', schedule, train, details) == (db', AlreadyProcessed))
  {
    assert SeatsOf(db.seats, schedule) == {} <==> forall k :: k in db.seats ==> k !in SeatsOf(db.seats, schedule);
  }

  /** The seats of a new schedule are those of the payload, number, price and state included, and no other seat changes. */
  lemma CreatedSeatsAre(db: Db, schedule: int, train: int, details: seq<SeatDetail>, m: nat, k: SeatKey)
    requires CreateSchedule(db, schedule, train, details).1.Done? && m < |details|
    ensures var seats := CreateSchedule(db, schedule, train, details).0.seats;
      && SeatKey(schedule, details[m].id) in seats
      && seats[SeatKey(schedule, details[m].id)] == SeatRow(details[m].number, details[m].price, details[m].state.value, 0)
      && (k.schedule != schedule && k in db.seats ==> k in seats && seats[k] == db.seats[k])
  {
    InsertedRows(schedule, details);
  }

  /* ---- statuses and rebuilds ---- */

  /** LOCKED while some row of the seat is, BOOKED while some row is and none is LOCKED, AVAILABLE without an active row. */
  lemma StatusMeans(locks: LockTable, k: SeatKey)
    ensures SeatStatus(locks, k) == Locked <==> exists i :: i in locks && locks[i].key == k && locks[i].state == Locked
    ensures SeatStatus(locks, k) == Available <==> forall i :: i in locks && locks[i].key == k ==> !locks[i].Active()
    ensures SeatStatus(locks, k) in {Available, Locked, Booked}
  {
    if i :| i in locks && locks[i].key == k && locks[i].Active() {
      assert HasRow(locks, k, locks[i].state);
    }
  }

  /** A rebuild counts the version of a seat up exactly when it changes its status, and leaves number and price alone. */
  lemma RebuildTouchesStatusOnly(db: Db, schedule: int, ids: set<int>, k: SeatKey)
    requires schedule in db.schedules && k in db.seats
    ensures var row := Refresh(db, schedule, ids).seats[k];
      && row.number == db.seats[k].number && row.price == db.seats[k].price
      && row.version == db.seats[k].version + (if row.state != db.seats[k].state then 1 else 0)
      && (!(k.schedule == schedule && k.seat in ids) ==> row == db.seats[k])
  {
    hide CountSeats, Recount, SeatStatus;
  }

  /** It writes the three counters of its schedule and its version, publishes one event, and touches no segment row. */
  lemma RebuildTouchesCountersOnly(db: Db, schedule: int, ids: set<int>, s: int)
    requires schedule in db.schedules && s in db.schedules
    ensures var db' := Refresh(db, schedule, ids);
      && db'.locks == db.locks && db'.nextId == db.nextId && |db'.events| == |db.events| + 1 && db'.events[..|db.events|] == db.events
      && db'.schedules.Keys == db.schedules.Keys
      && var (row, row') := (db.schedules[s], db'.schedules[s]);
      && (s != schedule ==> row' == row)
      && (SeatsOf(db.seats, schedule) != {} && s == schedule ==>
            && row' == row.(available := row'.available, locked := row'.locked, booked := row'.booked, version := row.version + 1)
            && Counts(row'.available, row'.locked, row'.booked) == CountSeats(db'.seats, s))
  {
    hide SeatStatus;
    assert SeatsOf(Refresh(db, schedule, ids).seats, schedule) == SeatsOf(db.seats, schedule);
  }

  /** The counts of a reply are those of the event that was published with it. */
  predicate Tells(db: Db, schedule: int, result: (Db, Reply)) {
    var (db', reply) := result;
    reply.Done? ==>
      && schedule in db.schedules
      && db'.events == db.events + [AvailabilityEvent(schedule, db.schedules[schedule].train,
                                                      reply.counts.available, reply.counts.locked, reply.counts.booked)]
  }

  /** Each of the four operations answers with the counts that it publishes. */
  lemma RepliesTellCounters(db: Db, user: int, schedule: int, ids: seq<int>, seg: Segment, booking: int)
    ensures Tells(db, schedule, LockSeats(db, user, schedule, ids, seg))
    ensures Tells(db, schedule, UnlockSeats(db, user, schedule, ids, seg))
    ensures Tells(db, schedule, ConfirmSeats(db, booking, user, schedule, ids, seg))
    ensures Tells(db, schedule, CancelSeats(db, schedule, booking, user))
  {
    hide Recompute, CountSeats, Recount, Gate, Blocked, Deleted, Confirmed, CancelDeleted, NewRows;
    GateOpensIff(db, schedule, ids);
  }
}
