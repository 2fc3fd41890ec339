/** The seat availability query, and its agreement with the lock operation. */
module SeatQuery {
  import opened Options
  import opened Inventory
  import opened InventoryInvariants

  datatype SegmentStatus = SegmentAvailable | SegmentUnavailable

  datatype SeatReport = SeatReport(number: int, price: int, segment: SegmentStatus, state: SeatState)

  /** Seats with any active row at all. */
  function WithLocks(locks: LockTable, schedule: int, ids: set<int>): set<int> {
    set i | i in locks && locks[i].key.schedule == schedule && locks[i].key.seat in ids && locks[i].Active() :: locks[i].key.seat
  }

  function Report(db: Db, schedule: int, ids: seq<int>, seg: Segment, id: int): SeatReport
    requires SeatKey(schedule, id) in db.seats
  {
    var row := db.seats[SeatKey(schedule, id)];
    var segment :=
      if id in Blocked(db.locks, schedule, IdSet(ids), seg) then SegmentUnavailable
      else if row.state in {Booked, Locked} && id !in WithLocks(db.locks, schedule, IdSet(ids)) then SegmentUnavailable
      else SegmentAvailable;
    SeatReport(row.number, row.price, segment, row.state)
  }

  /** `None` when the schedule has no inventory; otherwise the existing requested seats by id. */
  function Availability(db: Db, schedule: int, ids: seq<int>, seg: Segment): Option<map<int, SeatReport>> {
    if schedule !in db.schedules then None
    else Some(map id | id in IdSet(ids) && SeatKey(schedule, id) in db.seats :: Report(db, schedule, ids, seg, id))
  }

  /** The branch for an occupied seat without segment rows is never taken. */
  lemma OccupiedSeatsHaveRows(db: Db, schedule: int, ids: seq<int>, id: int)
    requires StatusesAgree(db) && id in ids && SeatKey(schedule, id) in db.seats
    ensures db.seats[SeatKey(schedule, id)].state in {Booked, Locked} ==> id in WithLocks(db.locks, schedule, IdSet(ids))
  {
    var key := SeatKey(schedule, id);
    if HasRow(db.locks, key, Locked) || HasRow(db.locks, key, Booked) {
      var i :| i in db.locks && db.locks[i].key == key && (db.locks[i].state == Locked || db.locks[i].state == Booked);
      assert db.locks[i].key.seat in WithLocks(db.locks, schedule, IdSet(ids));
    }
  }

  /** A seat is reported available for a segment exactly when no active row of that seat overlaps it. */
  lemma ReportedAvailableIff(db: Db, schedule: int, ids: seq<int>, seg: Segment, id: int)
    requires StatusesAgree(db) && id in ids && SeatKey(schedule, id) in db.seats
    ensures Report(db, schedule, ids, seg, id).segment == SegmentAvailable
      <==> forall i :: i in db.locks && db.locks[i].key == SeatKey(schedule, id) && db.locks[i].Active() ==> !db.locks[i].seg.Overlaps(seg)
  {
    OccupiedSeatsHaveRows(db, schedule, ids, id);
    var blocked := Blocked(db.locks, schedule, IdSet(ids), seg);
    if id in blocked {
      var i :| i in db.locks && db.locks[i].key == SeatKey(schedule, id) && db.locks[i].Active() && db.locks[i].seg.Overlaps(seg);
    } else {
      forall i | i in db.locks && db.locks[i].key == SeatKey(schedule, id) && db.locks[i].Active()
        ensures !db.locks[i].seg.Overlaps(seg)
      {
      }
    }
  }

  predicate AllReportedAvailable(db: Db, schedule: int, ids: seq<int>, seg: Segment) {
    && Availability(db, schedule, ids, seg).Some?
    && forall id :: id in ids ==>
         id in Availability(db, schedule, ids, seg).value
         && Availability(db, schedule, ids, seg).value[id].segment == SegmentAvailable
  }

  lemma BlockedIff(db: Db, schedule: int, ids: seq<int>, seg: Segment)
    requires StatusesAgree(db) && forall id :: id in ids ==> SeatKey(schedule, id) in db.seats
    ensures Blocked(db.locks, schedule, IdSet(ids), seg) == {}
      <==> forall id :: id in ids ==> Report(db, schedule, ids, seg, id).segment == SegmentAvailable
  {
    forall id | id in ids
      ensures id in Blocked(db.locks, schedule, IdSet(ids), seg) <==> Report(db, schedule, ids, seg, id).segment == SegmentUnavailable
    {
      OccupiedSeatsHaveRows(db, schedule, ids, id);
    }
    assert forall id :: id in Blocked(db.locks, schedule, IdSet(ids), seg) ==> id in ids;
  }

  /** On an active schedule the command succeeds exactly when the query reports every requested seat available. */
  lemma LockSucceedsIffReported(db: Db, user: int, schedule: int, ids: seq<int>, seg: Segment)
    requires StatusesAgree(db) && SeatRequest(user, schedule, ids, seg)
    requires schedule in db.schedules && db.schedules[schedule].state == Active
    ensures LockSeats(db, user, schedule, ids, seg).1.Done? <==> AllReportedAvailable(db, schedule, ids, seg)
  {
    GateOpensIff(db, schedule, ids);
    if forall id :: id in ids ==> SeatKey(schedule, id) in db.seats {
      BlockedIff(db, schedule, ids, seg);
    } else {
      var id :| id in ids && SeatKey(schedule, id) !in db.seats;
      assert id !in Availability(db, schedule, ids, seg).value;
    }
  }
}
