/**
 The interval table as an implementation of a simpler one: who holds each single leg of each seat.
 The abstract operations know nothing of rows or intervals.
 */
module LegOwnership {
  import opened Inventory
  import opened InventoryInvariants
  import opened InventoryRoundTrips

  datatype Holding = Holding(key: SeatKey, leg: int, user: int)

  /* ---- the abstract machine ---- */

  predicate Free(h: set<Holding>, key: SeatKey, leg: int) {
    forall x :: x in h ==> x.key != key || x.leg != leg
  }

  /** The legs of a request, in the name of one user. */
  function Claims(schedule: int, ids: set<int>, seg: Segment, user: int): set<Holding> {
    set id, leg | id in ids && seg.from <= leg < seg.to :: Holding(SeatKey(schedule, id), leg, user)
  }

  predicate AllFree(h: set<Holding>, schedule: int, ids: set<int>, seg: Segment) {
    forall id, leg :: id in ids && seg.from <= leg < seg.to ==> Free(h, SeatKey(schedule, id), leg)
  }

  ghost predicate OneHolderPerLeg(h: set<Holding>) {
    forall x, y :: x in h && y in h && x.key == y.key && x.leg == y.leg ==> x == y
  }

  /* ---- the abstraction ---- */

  function Holdings(locks: LockTable): set<Holding> {
    set i, leg | i in locks && locks[i].Active() && locks[i].seg.from <= leg < locks[i].seg.to :: Holding(locks[i].key, leg, locks[i].user)
  }

  /** Without overlaps, a held leg identifies the row that holds it. */
  lemma LegIdentifiesRow(locks: LockTable, i: nat, j: nat, leg: int)
    requires NoOverlap(locks) && i in locks && j in locks && locks[i].Active() && locks[j].Active()
    requires locks[i].key == locks[j].key && locks[i].seg.Covers(leg) && locks[j].seg.Covers(leg)
    ensures i == j
  {
  }

  lemma HoldingsAreFunctional(locks: LockTable)
    requires NoOverlap(locks)
    ensures OneHolderPerLeg(Holdings(locks))
  {
    forall x, y | x in Holdings(locks) && y in Holdings(locks) && x.key == y.key && x.leg == y.leg ensures x == y {
      var i :| i in locks && locks[i].Active() && locks[i].seg.Covers(x.leg) && locks[i].key == x.key && locks[i].user == x.user;
      var j :| j in locks && locks[j].Active() && locks[j].seg.Covers(y.leg) && locks[j].key == y.key && locks[j].user == y.user;
      LegIdentifiesRow(locks, i, j, x.leg);
    }
  }

  /** The overlap test of a lock is the test that every requested leg is free. */
  lemma OverlapTestIsLegTest(locks: LockTable, schedule: int, ids: set<int>, seg: Segment)
    requires seg.from < seg.to && forall i :: i in locks ==> locks[i].seg.from < locks[i].seg.to
    ensures Blocked(locks, schedule, ids, seg) == {} <==> AllFree(Holdings(locks), schedule, ids, seg)
  {
    var h := Holdings(locks);
    if Blocked(locks, schedule, ids, seg) != {} {
      var id :| id in Blocked(locks, schedule, ids, seg);
      var i :| i in locks && locks[i].key == SeatKey(schedule, id) && locks[i].Active() && locks[i].seg.Overlaps(seg);
      var leg := if locks[i].seg.from < seg.from then seg.from else locks[i].seg.from;
      assert Holding(locks[i].key, leg, locks[i].user) in h;
      assert !Free(h, SeatKey(schedule, id), leg);
    } else {
      forall id, leg | id in ids && seg.from <= leg < seg.to ensures Free(h, SeatKey(schedule, id), leg) {
        if x :| x in h && x.key == SeatKey(schedule, id) && x.leg == leg {
          var i :| i in locks && locks[i].Active() && locks[i].seg.Covers(leg) && locks[i].key == x.key;
          assert locks[i].key.seat in Blocked(locks, schedule, ids, seg);
        }
      }
    }
  }

  lemma HoldingsOfNewRows(n: nat, schedule: int, ids: seq<int>, seg: Segment, user: int)
    ensures Holdings(NewRows(n, schedule, ids, seg, user)) == Claims(schedule, IdSet(ids), seg, user)
  {
    var rows := NewRows(n, schedule, ids, seg, user);
    forall x | x in Claims(schedule, IdSet(ids), seg, user) ensures x in Holdings(rows) {
      var k :| 0 <= k < |ids| && ids[k] == x.key.seat;
      assert n + k in rows && rows[n + k].seg == seg;
    }
  }

  lemma HeldBy(locks: LockTable, x: Holding) returns (i: nat)
    requires x in Holdings(locks)
    ensures i in locks && locks[i].Active() && locks[i].seg.Covers(x.leg) && locks[i].key == x.key && locks[i].user == x.user
  {
    i :| i in locks && locks[i].Active() && locks[i].seg.Covers(x.leg) && locks[i].key == x.key && locks[i].user == x.user;
  }

  lemma RowHolds(locks: LockTable, i: nat, leg: int)
    requires i in locks && locks[i].Active() && locks[i].seg.Covers(leg)
    ensures Holding(locks[i].key, leg, locks[i].user) in Holdings(locks)
  {
  }

  lemma HoldingsOfUnion(a: LockTable, b: LockTable)
    requires a.Keys !! b.Keys
    ensures Holdings(a + b) == Holdings(a) + Holdings(b)
  {
    forall x | x in Holdings(a) ensures x in Holdings(a + b) {
      var i := HeldBy(a, x);
      RowHolds(a + b, i, x.leg);
    }
    forall x | x in Holdings(b) ensures x in Holdings(a + b) {
      var i := HeldBy(b, x);
      RowHolds(a + b, i, x.leg);
    }
  }

  /** Lock succeeds iff the gate opens and every requested leg is free, and then takes exactly those legs. */
  lemma LockRefinesClaim(db: Db, user: int, schedule: int, ids: seq<int>, seg: Segment)
    requires Invariant(db) && seg.from < seg.to
    ensures var (db', reply) := LockSeats(db, user, schedule, ids, seg);
      var h := Holdings(db.locks);
      && (reply.Done? <==> Gate(db, schedule, ids).None? && AllFree(h, schedule, IdSet(ids), seg))
      && Holdings(db'.locks) == if reply.Done? then h + Claims(schedule, IdSet(ids), seg, user) else h
  {
    OverlapTestIsLegTest(db.locks, schedule, IdSet(ids), seg);
    LockEffect(db, user, schedule, ids, seg);
    var rows := NewRows(db.nextId, schedule, ids, seg, user);
    assert db.locks.Keys !! rows.Keys;
    HoldingsOfNewRows(db.nextId, schedule, ids, seg, user);
    HoldingsOfUnion(db.locks, rows);
  }

  /** Confirming changes no leg. */
  lemma ConfirmRefinesNothing(db: Db, booking: int, user: int, schedule: int, ids: seq<int>, seg: Segment)
    ensures Holdings(ConfirmSeats(db, booking, user, schedule, ids, seg).0.locks) == Holdings(db.locks)
  {
    ConfirmEffect(db, booking, user, schedule, ids, seg);
    var after := Confirmed(db.locks, schedule, IdSet(ids), seg, user, booking);
    SameHoldings(db.locks, after);
  }

  lemma SameHoldings(a: LockTable, b: LockTable)
    requires a.Keys == b.Keys
    requires forall i :: i in a ==> a[i].key == b[i].key && a[i].seg == b[i].seg && a[i].user == b[i].user && a[i].Active() == b[i].Active()
    ensures Holdings(a) == Holdings(b)
  {
    forall x | x in Holdings(a) ensures x in Holdings(b) {
      var i :| i in a && a[i].Active() && a[i].seg.Covers(x.leg) && a[i].key == x.key && a[i].user == x.user;
      assert b[i].seg.Covers(x.leg);
    }
    forall x | x in Holdings(b) ensures x in Holdings(a) {
      var i :| i in b && b[i].Active() && b[i].seg.Covers(x.leg) && b[i].key == x.key && b[i].user == x.user;
      assert a[i].seg.Covers(x.leg);
    }
  }

  /** Removing rows of a table without overlaps frees exactly their legs. */
  lemma RemovalFreesLegs(locks: LockTable, rows: set<nat>)
    requires NoOverlap(locks) && rows <= locks.Keys
    ensures Holdings(locks - rows) == Holdings(locks) - Holdings(map i | i in locks && i in rows :: locks[i])
  {
    var gone := map i | i in locks && i in rows :: locks[i];
    HoldingsOfUnion(locks - rows, gone);
    assert (locks - rows) + gone == locks;
    forall x | x in Holdings(locks - rows) ensures x !in Holdings(gone) {
      var i :| i in locks - rows && locks[i].Active() && locks[i].seg.Covers(x.leg) && locks[i].key == x.key;
      forall j | j in gone && locks[j].Active() && locks[j].key == x.key ensures !locks[j].seg.Covers(x.leg) {
        assert i != j;
      }
    }
  }

  function Selected(locks: LockTable, schedule: int, ids: set<int>, seg: Segment, user: int, st: SeatState): set<nat> {
    set i | i in locks && locks[i].Matches(schedule, ids, seg, user, st)
  }

  /** Unlock frees exactly the legs of the segment, on the requested seats that the user has locked with it. */
  lemma UnlockRefinesRelease(db: Db, user: int, schedule: int, ids: seq<int>, seg: Segment)
    requires Invariant(db) && UnlockSeats(db, user, schedule, ids, seg).1.Done?
    ensures var rows := Selected(db.locks, schedule, IdSet(ids), seg, user, Locked);
      Holdings(UnlockSeats(db, user, schedule, ids, seg).0.locks) == Holdings(db.locks) - Claims(schedule, SeatIdsOf(db.locks, rows), seg, user)
  {
    UnlockEffect(db, user, schedule, ids, seg);
    ReleaseRows(db.locks, schedule, IdSet(ids), seg, user, Locked);
  }

  lemma ReleaseRows(locks: LockTable, schedule: int, ids: set<int>, seg: Segment, user: int, st: SeatState)
    requires NoOverlap(locks) && (st == Locked || st == Booked)
    ensures var rows := Selected(locks, schedule, ids, seg, user, st);
      Holdings(Deleted(locks, schedule, ids, seg, user, st)) == Holdings(locks) - Claims(schedule, SeatIdsOf(locks, rows), seg, user)
  {
    var rows := Selected(locks, schedule, ids, seg, user, st);
    var gone := map i | i in locks && i in rows :: locks[i];
    assert Deleted(locks, schedule, ids, seg, user, st) == locks - rows;
    RemovalFreesLegs(locks, rows);
    forall x | x in Claims(schedule, SeatIdsOf(locks, rows), seg, user) ensures x in Holdings(gone) {
      var i :| i in rows && locks[i].key.seat == x.key.seat;
      assert gone[i].seg.Covers(x.leg);
    }
    assert Holdings(gone) == Claims(schedule, SeatIdsOf(locks, rows), seg, user);
  }

  /** Cancelling a booking of one segment frees exactly the legs of that booking. */
  lemma CancelRefinesRelease(db: Db, schedule: int, booking: int, user: int, seg: Segment)
    requires Invariant(db) && CancelSeats(db, schedule, booking, user).1.Done?
    requires forall i :: i in RowsOfBooking(db.locks, schedule, booking, user) ==> db.locks[i].seg == seg
    ensures var rows := RowsOfBooking(db.locks, schedule, booking, user);
      Holdings(CancelSeats(db, schedule, booking, user).0.locks) == Holdings(db.locks) - Claims(schedule, SeatIdsOf(db.locks, rows), seg, user)
  {
    var rows := RowsOfBooking(db.locks, schedule, booking, user);
    CancelEffect(db, schedule, booking, user);
    CancelOfOneSegment(db.locks, schedule, booking, user, seg);
    ReleaseRows(db.locks, schedule, SeatIdsOf(db.locks, rows), seg, user, Booked);
    SelectedSeats(db.locks, schedule, booking, user, seg);
  }

  lemma SelectedSeats(locks: LockTable, schedule: int, booking: int, user: int, seg: Segment)
    requires forall i :: i in RowsOfBooking(locks, schedule, booking, user) ==> locks[i].seg == seg
    ensures var rows := RowsOfBooking(locks, schedule, booking, user);
      SeatIdsOf(locks, Selected(locks, schedule, SeatIdsOf(locks, rows), seg, user, Booked)) == SeatIdsOf(locks, rows)
  {
    var rows := RowsOfBooking(locks, schedule, booking, user);
    forall i | i in rows ensures i in Selected(locks, schedule, SeatIdsOf(locks, rows), seg, user, Booked) {}
  }

  /* ---- capacity ---- */

  function RowsOnLeg(locks: LockTable, schedule: int, leg: int): set<nat> {
    set i | i in locks && locks[i].Active() && locks[i].key.schedule == schedule && locks[i].seg.Covers(leg)
  }

  lemma {:induction false} DistinctSeatsBound(locks: LockTable, rows: set<nat>, seats: set<SeatKey>)
    requires rows <= locks.Keys
    requires forall i :: i in rows ==> locks[i].key in seats
    requires forall i, j :: i in rows && j in rows && i != j ==> locks[i].key != locks[j].key
    ensures |rows| <= |seats|
  {
    if i :| i in rows {
      DistinctSeatsBound(locks, rows - {i}, seats - {locks[i].key});
    }
  }

  /** On every leg of a schedule the number of active holds never exceeds the number of seats. */
  lemma CapacityPerLeg(db: Db, schedule: int, leg: int)
    requires Invariant(db) && schedule in db.schedules
    ensures |RowsOnLeg(db.locks, schedule, leg)| <= db.schedules[schedule].total
  {
    var rows := RowsOnLeg(db.locks, schedule, leg);
    forall i, j | i in rows && j in rows && i != j ensures db.locks[i].key != db.locks[j].key {
      if db.locks[i].key == db.locks[j].key {
        LegIdentifiesRow(db.locks, i, j, leg);
      }
    }
    DistinctSeatsBound(db.locks, rows, SeatsOf(db.seats, schedule));
    assert CountersAgreeFor(db, schedule);
  }
}
