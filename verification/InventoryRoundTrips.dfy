/** What one operation undoes of another, and which rows a cancellation really removes. */
module InventoryRoundTrips {
  import opened IntSets
  import opened Options
  import opened Inventory
  import opened InventoryInvariants

  function Statuses(db: Db): map<SeatKey, SeatState> {
    map k | k in db.seats :: db.seats[k].state
  }

  /** Same rows, same seat statuses, same counters in the schedule rows. */
  ghost predicate SameView(a: Db, b: Db) {
    && a.locks == b.locks && Statuses(a) == Statuses(b) && a.schedules.Keys == b.schedules.Keys
    && forall s :: s in a.schedules ==>
         a.schedules[s].(version := 0) == b.schedules[s].(version := 0)
  }

  ghost predicate SameFrame(a: Db, b: Db) {
    && a.seats.Keys == b.seats.Keys && a.schedules.Keys == b.schedules.Keys
    && forall s :: s in a.schedules ==>
         a.schedules[s].train == b.schedules[s].train && a.schedules[s].state == b.schedules[s].state
  }

  /** The segment rows determine everything else. */
  lemma RowsDetermineView(a: Db, b: Db)
    requires Invariant(a) && Invariant(b) && a.locks == b.locks && SameFrame(a, b)
    ensures SameView(a, b)
  {
    assert Statuses(a) == Statuses(b);
    forall s | s in a.schedules ensures a.schedules[s].(version := 0) == b.schedules[s].(version := 0) {
      assert CountersAgreeFor(a, s) && CountersAgreeFor(b, s);
      assert SeatsOf(a.seats, s) == SeatsOf(b.seats, s);
      forall st ensures InState(a.seats, s, st) == InState(b.seats, s, st) {
        assert forall k :: k in a.seats ==> Statuses(a)[k] == a.seats[k].state;
        assert forall k :: k in b.seats ==> Statuses(b)[k] == b.seats[k].state;
      }
    }
  }

  lemma GateDependsOnFrame(a: Db, b: Db, schedule: int, ids: seq<int>)
    requires SameFrame(a, b)
    ensures Gate(a, schedule, ids) == Gate(b, schedule, ids)
  {
    assert Found(a.seats, schedule, ids) == Found(b.seats, schedule, ids);
  }

  lemma LockEffect(db: Db, user: int, schedule: int, ids: seq<int>, seg: Segment)
    ensures var (db', reply) := LockSeats(db, user, schedule, ids, seg);
      && (reply.Done? <==> Gate(db, schedule, ids).None? && Blocked(db.locks, schedule, IdSet(ids), seg) == {})
      && (reply.Done? ==> SameFrame(db, db') && db'.locks == db.locks + NewRows(db.nextId, schedule, ids, seg, user)
                          && db'.nextId == db.nextId + |ids|)
      && (!reply.Done? ==> db' == db)
  {
  }

  lemma UnlockEffect(db: Db, user: int, schedule: int, ids: seq<int>, seg: Segment)
    ensures var (db', reply) := UnlockSeats(db, user, schedule, ids, seg);
      && (reply.Done? <==> Gate(db, schedule, ids).None?)
      && (reply.Done? ==> SameFrame(db, db') && db'.nextId == db.nextId
                          && db'.locks == Deleted(db.locks, schedule, IdSet(ids), seg, user, Locked))
      && (!reply.Done? ==> db' == db)
  {
  }

  lemma ConfirmEffect(db: Db, booking: int, user: int, schedule: int, ids: seq<int>, seg: Segment)
    ensures var (db', reply) := ConfirmSeats(db, booking, user, schedule, ids, seg);
      && (reply.Done? <==> booking != 0 && user != 0 && Gate(db, schedule, ids).None?)
      && (reply.Done? ==> SameFrame(db, db') && db'.nextId == db.nextId
                          && db'.locks == Confirmed(db.locks, schedule, IdSet(ids), seg, user, booking))
      && (!reply.Done? ==> db' == db)
  {
  }

  /* ---- contention ---- */

  /** None of the seat rows is held. */
  predicate Clear(schedule: int, ids: seq<int>, busy: set<SeatKey>) {
    forall x :: x in ids ==> SeatKey(schedule, x) !in busy
  }

  /** The gate opens under contention exactly when it would open without and no requested seat row is held. */
  lemma GateUnder(db: Db, busy: set<SeatKey>, schedule: int, ids: seq<int>)
    ensures Gate(Unheld(db, busy), schedule, ids).None? <==> Gate(db, schedule, ids).None? && Clear(schedule, ids, busy)
  {
    GateOpensIff(db, schedule, ids);
    GateOpensIff(Unheld(db, busy), schedule, ids);
  }

  lemma LockUnderEffect(db: Db, busy: set<SeatKey>, user: int, schedule: int, ids: seq<int>, seg: Segment)
    ensures LockUnder(db, busy, user, schedule, ids, seg).1.Done? <==> LockSeats(db, user, schedule, ids, seg).1.Done? && Clear(schedule, ids, busy)
    ensures var (db', reply) := LockUnder(db, busy, user, schedule, ids, seg);
      if reply.Done? then (db', reply) == LockSeats(db, user, schedule, ids, seg) else db' == db
  {
    GateUnder(db, busy, schedule, ids);
    LockEffect(db, user, schedule, ids, seg);
    hide Gate, Unheld, LockSeats;
  }

  /** A refused unlock changes nothing, and one held seat row is enough for the refusal. */
  lemma UnlockUnderEffect(db: Db, busy: set<SeatKey>, user: int, schedule: int, ids: seq<int>, seg: Segment)
    ensures UnlockUnder(db, busy, user, schedule, ids, seg).1.Done? <==> Gate(db, schedule, ids).None? && Clear(schedule, ids, busy)
    ensures var (db', reply) := UnlockUnder(db, busy, user, schedule, ids, seg);
      if reply.Done? then (db', reply) == UnlockSeats(db, user, schedule, ids, seg) else db' == db
  {
    GateUnder(db, busy, schedule, ids);
    UnlockEffect(db, user, schedule, ids, seg);
    hide Gate, Unheld, UnlockSeats;
  }

  lemma ConfirmUnderEffect(db: Db, busy: set<SeatKey>, booking: int, user: int, schedule: int, ids: seq<int>, seg: Segment)
    ensures ConfirmUnder(db, busy, booking, user, schedule, ids, seg).1.Done?
      <==> booking != 0 && user != 0 && Gate(db, schedule, ids).None? && Clear(schedule, ids, busy)
    ensures var (db', reply) := ConfirmUnder(db, busy, booking, user, schedule, ids, seg);
      if reply.Done? then (db', reply) == ConfirmSeats(db, booking, user, schedule, ids, seg) else db' == db
  {
    GateUnder(db, busy, schedule, ids);
    ConfirmEffect(db, booking, user, schedule, ids, seg);
    hide Gate, Unheld, ConfirmSeats;
  }

  /** While nobody holds a row the operations are the plain ones. */
  lemma WithoutContention(db: Db, user: int, booking: int, schedule: int, ids: seq<int>, seg: Segment)
    ensures LockUnder(db, {}, user, schedule, ids, seg) == LockSeats(db, user, schedule, ids, seg)
    ensures UnlockUnder(db, {}, user, schedule, ids, seg) == UnlockSeats(db, user, schedule, ids, seg)
    ensures ConfirmUnder(db, {}, booking, user, schedule, ids, seg) == ConfirmSeats(db, booking, user, schedule, ids, seg)
  {
    assert db.seats - {} == db.seats;
    assert Unheld(db, {}) == db;
    hide Gate, Unheld, Blocked, Answer;
  }

  lemma CancelEffect(db: Db, schedule: int, booking: int, user: int)
    ensures var (db', reply) := CancelSeats(db, schedule, booking, user);
      var rows := RowsOfBooking(db.locks, schedule, booking, user);
      && (reply.Done? <==> schedule != 0 && booking != 0 && user != 0 && ScheduleGate(db, schedule).None? && rows != {})
      && (reply.Done? ==> SameFrame(db, db') && db'.nextId == db.nextId
                          && db'.locks == CancelDeleted(db.locks, schedule, rows, user))
      && (!reply.Done? ==> db' == db)
  {
  }

  /** With no active row in the way, the new rows are the only ones on those seats with that segment. */
  lemma OnlyNewRowsMatch(locks: LockTable, n: nat, schedule: int, ids: seq<int>, seg: Segment, user: int)
    requires forall i :: i in locks ==> i < n && locks[i].Active()
    requires seg.from < seg.to && Blocked(locks, schedule, IdSet(ids), seg) == {}
    ensures forall i :: i in locks ==> !(locks[i].key.schedule == schedule && locks[i].key.seat in ids && locks[i].seg == seg)
  {
    forall i | i in locks ensures !(locks[i].key.schedule == schedule && locks[i].key.seat in ids && locks[i].seg == seg) {
      assert locks[i].key.seat in Blocked(locks, schedule, IdSet(ids), seg)
        || !(locks[i].key.schedule == schedule && locks[i].key.seat in ids && locks[i].seg == seg);
    }
  }

  lemma NewRowsDeleted(locks: LockTable, n: nat, schedule: int, ids: seq<int>, seg: Segment, user: int)
    requires forall i :: i in locks ==> i < n && locks[i].Active()
    requires seg.from < seg.to && Blocked(locks, schedule, IdSet(ids), seg) == {}
    ensures Deleted(locks + NewRows(n, schedule, ids, seg, user), schedule, IdSet(ids), seg, user, Locked) == locks
  {
    OnlyNewRowsMatch(locks, n, schedule, ids, seg, user);
  }

  lemma NewRowsConfirmed(locks: LockTable, n: nat, schedule: int, ids: seq<int>, seg: Segment, user: int, booking: int)
    requires forall i :: i in locks ==> i < n && locks[i].Active()
    requires seg.from < seg.to && Blocked(locks, schedule, IdSet(ids), seg) == {} && ids != []
    requires RowsOfBooking(locks, schedule, booking, user) == {}
    ensures var confirmed := Confirmed(locks + NewRows(n, schedule, ids, seg, user), schedule, IdSet(ids), seg, user, booking);
      var rows := RowsOfBooking(confirmed, schedule, booking, user);
      && rows != {} && rows == confirmed.Keys - locks.Keys
      && (forall i :: i in rows ==> confirmed[i].seg == seg)
      && (forall i :: i in locks ==> i in confirmed && confirmed[i] == locks[i])
  {
    OnlyNewRowsMatch(locks, n, schedule, ids, seg, user);
    var all := locks + NewRows(n, schedule, ids, seg, user);
    var confirmed := Confirmed(all, schedule, IdSet(ids), seg, user, booking);
    forall i | i in locks ensures confirmed[i] == locks[i] && !locks[i].BookedFor(schedule, booking, user) {
      assert i !in RowsOfBooking(locks, schedule, booking, user);
    }
    forall i | i in all && i !in locks ensures confirmed[i].BookedFor(schedule, booking, user) && confirmed[i].seg == seg {
      assert all[i].Matches(schedule, IdSet(ids), seg, user, Locked);
    }
    assert n in all && n !in locks;
    assert n in RowsOfBooking(confirmed, schedule, booking, user);
    assert RowsOfBooking(confirmed, schedule, booking, user) == confirmed.Keys - locks.Keys;
  }

  /** Locking and then unlocking with the same request restores rows, statuses and counters. */
  lemma LockThenUnlock(db: Db, user: int, schedule: int, ids: seq<int>, seg: Segment)
    requires Invariant(db) && seg.from < seg.to && LockSeats(db, user, schedule, ids, seg).1.Done?
    ensures var (db1, _) := LockSeats(db, user, schedule, ids, seg);
      var (db2, reply) := UnlockSeats(db1, user, schedule, ids, seg);
      reply.Done? && SameView(db, db2)
  {
    var db1 := LockSeats(db, user, schedule, ids, seg).0;
    LockKeepsInvariant(db, user, schedule, ids, seg);
    LockEffect(db, user, schedule, ids, seg);
    UnlockAfterLock(db, db1, user, schedule, ids, seg);
  }

  lemma UnlockAfterLock(db: Db, db1: Db, user: int, schedule: int, ids: seq<int>, seg: Segment)
    requires Invariant(db) && Invariant(db1) && seg.from < seg.to && SameFrame(db, db1)
    requires Gate(db, schedule, ids).None? && Blocked(db.locks, schedule, IdSet(ids), seg) == {}
    requires db1.locks == db.locks + NewRows(db.nextId, schedule, ids, seg, user)
    ensures var (db2, reply) := UnlockSeats(db1, user, schedule, ids, seg); reply.Done? && SameView(db, db2)
  {
    var db2 := UnlockSeats(db1, user, schedule, ids, seg).0;
    GateDependsOnFrame(db, db1, schedule, ids);
    UnlockEffect(db1, user, schedule, ids, seg);
    NewRowsDeleted(db.locks, db.nextId, schedule, ids, seg, user);
    UnlockKeepsInvariant(db1, user, schedule, ids, seg);
    RowsDetermineView(db, db2);
  }

  /** Locking, confirming and cancelling restores everything when the booking had no rows before. */
  lemma LockConfirmCancel(db: Db, user: int, booking: int, schedule: int, ids: seq<int>, seg: Segment)
    requires Invariant(db) && seg.from < seg.to && LockSeats(db, user, schedule, ids, seg).1.Done?
    requires user != 0 && booking != 0 && schedule != 0 && RowsOfBooking(db.locks, schedule, booking, user) == {}
    ensures var (db1, _) := LockSeats(db, user, schedule, ids, seg);
      var (db2, reply2) := ConfirmSeats(db1, booking, user, schedule, ids, seg);
      var (db3, reply3) := CancelSeats(db2, schedule, booking, user);
      reply2.Done? && reply3.Done? && SameView(db, db3)
  {
    var db1 := LockSeats(db, user, schedule, ids, seg).0;
    LockKeepsInvariant(db, user, schedule, ids, seg);
    LockEffect(db, user, schedule, ids, seg);
    ConfirmAfterLock(db, db1, user, booking, schedule, ids, seg);
  }

  lemma ConfirmAfterLock(db: Db, db1: Db, user: int, booking: int, schedule: int, ids: seq<int>, seg: Segment)
    requires Invariant(db) && Invariant(db1) && seg.from < seg.to && SameFrame(db, db1)
    requires Gate(db, schedule, ids).None? && Blocked(db.locks, schedule, IdSet(ids), seg) == {}
    requires db1.locks == db.locks + NewRows(db.nextId, schedule, ids, seg, user)
    requires user != 0 && booking != 0 && schedule != 0 && RowsOfBooking(db.locks, schedule, booking, user) == {}
    ensures var (db2, reply2) := ConfirmSeats(db1, booking, user, schedule, ids, seg);
      var (db3, reply3) := CancelSeats(db2, schedule, booking, user);
      reply2.Done? && reply3.Done? && SameView(db, db3)
  {
    var db2 := ConfirmSeats(db1, booking, user, schedule, ids, seg).0;
    GateDependsOnFrame(db, db1, schedule, ids);
    ConfirmKeepsInvariant(db1, booking, user, schedule, ids, seg);
    ConfirmEffect(db1, booking, user, schedule, ids, seg);
    NewRowsConfirmed(db.locks, db.nextId, schedule, ids, seg, user, booking);
    CancelTakesBack(db.locks, db2.locks, schedule, booking, user, seg);
    CancelAfterConfirm(db, db2, schedule, booking, user);
  }

  lemma CancelTakesBack(before: LockTable, after: LockTable, schedule: int, booking: int, user: int, seg: Segment)
    requires NoOverlap(after) && forall i :: i in after ==> after[i].seg.from < after[i].seg.to
    requires var rows := RowsOfBooking(after, schedule, booking, user);
      && rows != {} && rows == after.Keys - before.Keys && (forall i :: i in rows ==> after[i].seg == seg)
    requires forall i :: i in before ==> i in after && after[i] == before[i]
    ensures CancelDeleted(after, schedule, RowsOfBooking(after, schedule, booking, user), user) == before
  {
    CancelOfOneSegment(after, schedule, booking, user, seg);
  }

  lemma CancelAfterConfirm(db: Db, db2: Db, schedule: int, booking: int, user: int)
    requires Invariant(db) && Invariant(db2) && SameFrame(db, db2) && ScheduleGate(db, schedule).None?
    requires user != 0 && booking != 0 && schedule != 0
    requires var rows := RowsOfBooking(db2.locks, schedule, booking, user);
      rows != {} && CancelDeleted(db2.locks, schedule, rows, user) == db.locks
    ensures var (db3, reply) := CancelSeats(db2, schedule, booking, user); reply.Done? && SameView(db, db3)
  {
    var db3 := CancelSeats(db2, schedule, booking, user).0;
    CancelEffect(db2, schedule, booking, user);
    CancelKeepsInvariant(db2, schedule, booking, user);
    RowsDetermineView(db, db3);
  }

  /* ---- what a cancellation removes ---- */

  lemma CancelOfOneSegment(locks: LockTable, schedule: int, booking: int, user: int, seg: Segment)
    requires NoOverlap(locks) && RowsOfBooking(locks, schedule, booking, user) != {}
    requires forall i :: i in locks ==> locks[i].seg.from < locks[i].seg.to
    requires forall i :: i in RowsOfBooking(locks, schedule, booking, user) ==> locks[i].seg == seg
    ensures var rows := RowsOfBooking(locks, schedule, booking, user);
      CancelDeleted(locks, schedule, rows, user) == locks - rows
  {
    var rows := RowsOfBooking(locks, schedule, booking, user);
    forall i | i in locks && locks[i].Matches(schedule, SeatIdsOf(locks, rows), seg, user, Booked) ensures i in rows {
      var j :| j in rows && locks[j].key.seat == locks[i].key.seat;
      assert locks[j].key == locks[i].key && locks[j].seg == locks[i].seg;
    }
    forall i | i in rows ensures locks[i].Matches(schedule, SeatIdsOf(locks, rows), seg, user, Booked) {}
  }

  lemma CancelOfTwoSegments(locks: LockTable, schedule: int, booking: int, user: int, i: nat, j: nat)
    requires var rows := RowsOfBooking(locks, schedule, booking, user);
      i in rows && j in rows && locks[i].seg != locks[j].seg
    ensures var rows := RowsOfBooking(locks, schedule, booking, user);
      CancelDeleted(locks, schedule, rows, user).Keys * rows != {}
  {
    var rows := RowsOfBooking(locks, schedule, booking, user);
    var k := if locks[i].seg != locks[Smallest(rows)].seg then i else j;
    assert k in CancelDeleted(locks, schedule, rows, user).Keys * rows;
  }

  /**
   The delete of a cancellation names user, seats, the first row's segment and BOOKED, never the booking.
   It removes exactly the rows of the booking if and only if these all have one segment.
   */
  lemma CancelIsExactIff(db: Db, schedule: int, booking: int, user: int)
    requires Invariant(db) && CancelSeats(db, schedule, booking, user).1.Done?
    ensures var rows := RowsOfBooking(db.locks, schedule, booking, user);
      CancelSeats(db, schedule, booking, user).0.locks == db.locks - rows
      <==> forall i, j :: i in rows && j in rows ==> db.locks[i].seg == db.locks[j].seg
  {
    var rows := RowsOfBooking(db.locks, schedule, booking, user);
    CancelEffect(db, schedule, booking, user);
    if i, j :| i in rows && j in rows && db.locks[i].seg != db.locks[j].seg {
      CancelOfTwoSegments(db.locks, schedule, booking, user, i, j);
    } else {
      CancelOfOneSegment(db.locks, schedule, booking, user, db.locks[Smallest(rows)].seg);
    }
  }

  /** The query leaves the order of the rows to the database: whichever comes first, the same condition decides. */
  lemma AnyFirstRowIsExactIff(db: Db, schedule: int, booking: int, user: int, first: nat)
    requires Invariant(db) && first in RowsOfBooking(db.locks, schedule, booking, user)
    ensures var rows := RowsOfBooking(db.locks, schedule, booking, user);
      Deleted(db.locks, schedule, SeatIdsOf(db.locks, rows), db.locks[first].seg, user, Booked) == db.locks - rows
      <==> forall i, j :: i in rows && j in rows ==> db.locks[i].seg == db.locks[j].seg
  {
    hide StatusesAgree, CountersAgree, EventsAgree;
    var rows := RowsOfBooking(db.locks, schedule, booking, user);
    if i :| i in rows && db.locks[i].seg != db.locks[first].seg {
      assert i in Deleted(db.locks, schedule, SeatIdsOf(db.locks, rows), db.locks[first].seg, user, Booked);
    } else {
      CancelOfOneSegment(db.locks, schedule, booking, user, db.locks[first].seg);
      assert db.locks[Smallest(rows)].seg == db.locks[first].seg;
    }
  }

  function BookOne(db: Db, seg: Segment): Db {
    Apply(Apply(db, Lock(5, 1, [1], seg)), Confirm(7, 5, 1, [1], seg))
  }

  lemma BookOneRows(locks: LockTable, n: nat, seg: Segment)
    requires seg.Valid() && forall i :: i in locks ==> i < n && locks[i].Active() && !locks[i].seg.Overlaps(seg)
    ensures Blocked(locks, 1, IdSet([1]), seg) == {}
    ensures Confirmed(locks + NewRows(n, 1, [1], seg, 5), 1, IdSet([1]), seg, 5, 7)
         == locks[n := LockRow(SeatKey(1, 1), seg, 5, Some(7), Booked, 1)]
  {
    OnlyNewRowsMatch(locks, n, 1, [1], seg, 5);
  }

  lemma LockOneEffect(db: Db, seg: Segment)
    requires Invariant(db) && SeatKey(1, 1) in db.seats && 1 in db.schedules && db.schedules[1].state == Active
    requires seg.Valid() && Blocked(db.locks, 1, IdSet([1]), seg) == {}
    ensures var locked := Apply(db, Lock(5, 1, [1], seg));
      && Invariant(locked) && SameFrame(db, locked) && locked.nextId == db.nextId + 1 && Gate(db, 1, [1]).None?
      && locked.locks == db.locks + NewRows(db.nextId, 1, [1], seg, 5)
  {
    hide Invariant, LockSeats, Gate;
    GateOpensIff(db, 1, [1]);
    LockEffect(db, 5, 1, [1], seg);
    ApplyKeepsInvariant(db, Lock(5, 1, [1], seg));
  }

  lemma BookOneEffect(db: Db, seg: Segment)
    requires Invariant(db) && SeatKey(1, 1) in db.seats && 1 in db.schedules && db.schedules[1].state == Active
    requires seg.Valid() && forall i :: i in db.locks ==> !db.locks[i].seg.Overlaps(seg)
    ensures var db' := BookOne(db, seg);
      && Invariant(db') && SameFrame(db, db') && db'.nextId == db.nextId + 1
      && db'.locks == db.locks[db.nextId := LockRow(SeatKey(1, 1), seg, 5, Some(7), Booked, 1)]
  {
    BookOneRows(db.locks, db.nextId, seg);
    LockOneEffect(db, seg);
    hide Invariant, LockSeats, ConfirmSeats, Gate, Blocked, NewRows;
    var locked := Apply(db, Lock(5, 1, [1], seg));
    GateDependsOnFrame(db, locked, 1, [1]);
    ConfirmEffect(locked, 7, 5, 1, [1], seg);
    ApplyKeepsInvariant(locked, Confirm(7, 5, 1, [1], seg));
  }

  function OneSeat(): Db {
    Apply(EMPTY, Create(1, 1, [SeatDetail(1, 1, 100, Some(Available))]))
  }

  lemma OneSeatCreated()
    ensures var db := OneSeat();
      && Invariant(db) && SeatKey(1, 1) in db.seats && 1 in db.schedules && db.schedules[1].state == Active
      && db.locks == map[] && db.nextId == 1
  {
    ApplyKeepsInvariant(EMPTY, Create(1, 1, [SeatDetail(1, 1, 100, Some(Available))]));
  }

  /** One seat, booked twice under booking 7 on adjacent segments. */
  function BookedOnTwoSegments(): Db {
    BookOne(BookOne(OneSeat(), Segment(1, 2)), Segment(2, 3))
  }

  /** Such a booking is reachable, its cancellation succeeds and leaves its second segment booked. */
  lemma CancelCanLeaveRowsBehind()
    ensures var db := BookedOnTwoSegments();
      Invariant(db) && CancelSeats(db, 1, 7, 5).1.Done? && RowsOfBooking(CancelSeats(db, 1, 7, 5).0.locks, 1, 7, 5) != {}
  {
    hide OneSeat, BookOne, Invariant, CancelSeats, CancelDeleted;
    OneSeatCreated();
    BookOneEffect(OneSeat(), Segment(1, 2));
    BookOneEffect(BookOne(OneSeat(), Segment(1, 2)), Segment(2, 3));
    var db := BookedOnTwoSegments();
    assert {1, 2} <= RowsOfBooking(db.locks, 1, 7, 5);
    CancelEffect(db, 1, 7, 5);
    CancelOfTwoSegments(db.locks, 1, 7, 5, 1, 2);
    LeftRowsStayBooked(db.locks, CancelSeats(db, 1, 7, 5).0.locks);
  }

  lemma LeftRowsStayBooked(before: LockTable, after: LockTable)
    requires after.Keys * RowsOfBooking(before, 1, 7, 5) != {} && after == CancelDeleted(before, 1, RowsOfBooking(before, 1, 7, 5), 5)
    ensures RowsOfBooking(after, 1, 7, 5) != {}
  {
    var i :| i in after.Keys * RowsOfBooking(before, 1, 7, 5);
    assert i in RowsOfBooking(after, 1, 7, 5);
  }
}
