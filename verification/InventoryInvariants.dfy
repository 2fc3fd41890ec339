/**
 What every sequence of inventory operations keeps: active rows of a seat never overlap, and the seat
 statuses, the schedule counters and the last published event always agree with the segment rows.
 */
module InventoryInvariants {
  import opened IntSets
  import opened Options
  import opened Inventory

  ghost predicate NoOverlap(locks: LockTable) {
    forall i, j :: i in locks && j in locks && i != j && locks[i].Active() && locks[j].Active() && locks[i].key == locks[j].key
      ==> !locks[i].seg.Overlaps(locks[j].seg)
  }

  ghost predicate RowsInRange(db: Db) {
    forall i :: i in db.locks ==>
      i < db.nextId && db.locks[i].key in db.seats && db.locks[i].seg.from < db.locks[i].seg.to && db.locks[i].Active()
  }

  ghost predicate StatusesAgree(db: Db) {
    forall k :: k in db.seats ==> db.seats[k].state == SeatStatus(db.locks, k)
  }

  ghost predicate CountersAgreeFor(db: Db, s: int)
    requires s in db.schedules
  {
    var r := db.schedules[s];
    var c := CountSeats(db.seats, s);
    r.total == |SeatsOf(db.seats, s)| && r.available == c.available && r.locked == c.locked && r.booked == c.booked
  }

  ghost predicate CountersAgree(db: Db) {
    forall s :: s in db.schedules ==> CountersAgreeFor(db, s)
  }

  /** The most recent event published for a schedule. */
  function LastEvent(events: seq<AvailabilityEvent>, s: int): Option<AvailabilityEvent> {
    if events == [] then None
    else if events[|events| - 1].schedule == s then Some(events[|events| - 1])
    else LastEvent(events[..|events| - 1], s)
  }

  ghost predicate EventsAgree(db: Db) {
    forall s :: LastEvent(db.events, s).Some? ==>
      && s in db.schedules
      && var r := db.schedules[s];
         LastEvent(db.events, s).value == AvailabilityEvent(s, r.train, r.available, r.locked, r.booked)
  }

  ghost predicate Invariant(db: Db) {
    NoOverlap(db.locks) && RowsInRange(db) && StatusesAgree(db) && CountersAgree(db) && EventsAgree(db)
  }

  /* ---- the derived layers ---- */

  /** Rows of other seats do not influence the status of a seat. */
  lemma StatusDependsOnOwnRows(a: LockTable, b: LockTable, k: SeatKey)
    requires forall i :: i in a && a[i].key == k ==> i in b && b[i].key == k && b[i].state == a[i].state
    requires forall i :: i in b && b[i].key == k ==> i in a && a[i].key == k && b[i].state == a[i].state
    ensures SeatStatus(a, k) == SeatStatus(b, k)
  {
    forall st ensures HasRow(a, k, st) <==> HasRow(b, k, st) {
      if HasRow(a, k, st) {
        var i :| i in a && a[i].key == k && a[i].state == st;
        assert i in b && b[i].key == k;
      }
      if HasRow(b, k, st) {
        var i :| i in b && b[i].key == k && b[i].state == st;
        assert i in a && a[i].key == k;
      }
    }
  }

  /** The three counters add up to the number of seats exactly when no seat is withdrawn. */
  lemma CountersPartition(seats: SeatTable, s: int)
    ensures var c := CountSeats(seats, s);
      c.available + c.locked + c.booked + |InState(seats, s, Cancelled)| == |SeatsOf(seats, s)|
  {
    var a, l, b, c := InState(seats, s, Available), InState(seats, s, Locked), InState(seats, s, Booked), InState(seats, s, Cancelled);
    assert a + l + b + c == SeatsOf(seats, s);
    assert a !! l && (a + l) !! b && (a + l + b) !! c;
  }

  lemma AvailableLockedBookedSumToTotal(db: Db, s: int)
    requires StatusesAgree(db) && CountersAgree(db) && s in db.schedules
    ensures var r := db.schedules[s]; r.available + r.locked + r.booked == r.total
  {
    assert CountersAgreeFor(db, s);
    CountersPartition(db.seats, s);
    assert InState(db.seats, s, Cancelled) == {};
  }

  lemma RefreshCounts(db: Db, schedule: int, ids: set<int>, s: int)
    requires schedule in db.schedules && s in db.schedules && CountersAgreeFor(db, s)
    ensures CountersAgreeFor(Refresh(db, schedule, ids), s)
  {
    hide SeatStatus;
    var db' := Refresh(db, schedule, ids);
    assert SeatsOf(db'.seats, s) == SeatsOf(db.seats, s);
    if s != schedule {
      forall st ensures InState(db'.seats, s, st) == InState(db.seats, s, st) {}
    } else if SeatsOf(db.seats, s) == {} {
      forall st ensures InState(db'.seats, s, st) == InState(db.seats, s, st) {
        assert InState(db'.seats, s, st) <= SeatsOf(db'.seats, s);
        assert InState(db.seats, s, st) <= SeatsOf(db.seats, s);
      }
    }
  }

  lemma RefreshEvents(db: Db, schedule: int, ids: set<int>)
    requires schedule in db.schedules && EventsAgree(db) && CountersAgreeFor(Refresh(db, schedule, ids), schedule)
    ensures EventsAgree(Refresh(db, schedule, ids))
  {
    hide Recompute, CountSeats;
    var db' := Refresh(db, schedule, ids);
    assert db'.events[..|db'.events| - 1] == db.events;
  }

  /** If only the seats in `ids` can be stale, the rebuild makes every derived layer agree again. */
  lemma RefreshRestores(db: Db, schedule: int, ids: set<int>)
    requires schedule in db.schedules
    requires forall k :: k in db.seats && !(k.schedule == schedule && k.seat in ids) ==> db.seats[k].state == SeatStatus(db.locks, k)
    requires CountersAgree(db) && EventsAgree(db)
    ensures var db' := Refresh(db, schedule, ids); StatusesAgree(db') && CountersAgree(db') && EventsAgree(db')
  {
    hide CountersAgreeFor, CountSeats, EventsAgree, SeatStatus;
    forall s | s in db.schedules ensures CountersAgreeFor(Refresh(db, schedule, ids), s) {
      RefreshCounts(db, schedule, ids, s);
    }
    RefreshEvents(db, schedule, ids);
  }

  /* ---- the gate ---- */

  lemma DistinctPrefix(ids: seq<int>, k: nat)
    requires |ids| == k + 1
    ensures Distinct(ids) <==> Distinct(ids[..k]) && ids[k] !in ids[..k]
  {
    if Distinct(ids) {
      forall i | 0 <= i < k ensures ids[..k][i] != ids[k] {
        assert ids[..k][i] == ids[i];
      }
    }
    if Distinct(ids[..k]) && ids[k] !in ids[..k] {
      forall i, j | 0 <= i < j < |ids| ensures ids[i] != ids[j] {
        assert ids[..k][i] == ids[i];
        assert j < k ==> ids[..k][j] == ids[j];
      }
    }
  }

  lemma {:induction false} DistinctCardinality(ids: seq<int>)
    ensures Distinct(ids) <==> |IdSet(ids)| == |ids|
    ensures |IdSet(ids)| <= |ids|
  {
    hide Distinct;
    if ids == [] {
      assert Distinct(ids) by { NothingTwice(); }
    } else {
      var k := |ids| - 1;
      DistinctCardinality(ids[..k]);
      DistinctPrefix(ids, k);
      assert IdSet(ids) == IdSet(ids[..k]) + {ids[k]};
      assert ids[k] in IdSet(ids[..k]) <==> ids[k] in ids[..k];
    }
  }

  lemma NothingTwice()
    ensures Distinct([])
  {
  }

  /** Comparing the number of rows found with the number of ids asked for admits exactly distinct, existing seats. */
  lemma GateOpensIff(db: Db, schedule: int, ids: seq<int>)
    ensures Gate(db, schedule, ids).None? <==>
      && ids != [] && schedule in db.schedules && db.schedules[schedule].state == Active
      && Distinct(ids) && (forall x :: x in ids ==> SeatKey(schedule, x) in db.seats)
  {
    DistinctCardinality(ids);
    var found := Found(db.seats, schedule, ids);
    assert found <= IdSet(ids);
    SubsetCardinality(found, IdSet(ids));
    if x :| x in ids && SeatKey(schedule, x) !in db.seats {
      assert x in IdSet(ids) && x !in found;
    } else {
      assert found == IdSet(ids);
    }
  }

  lemma SubsetCardinality<T>(a: set<T>, b: set<T>)
    requires a <= b
    ensures |a| <= |b| && (|a| == |b| <==> a == b)
  {
    assert b == a + (b - a);
  }

  /* ---- each operation keeps the invariant ---- */

  /** Replacing the segment rows of the listed seats and rebuilding keeps the derived layers in agreement. */
  lemma ChangeThenRefresh(db: Db, locks: LockTable, next: nat, schedule: int, ids: set<int>)
    requires Invariant(db) && schedule in db.schedules && NoOverlap(locks) && RowsInRange(db.(locks := locks, nextId := next))
    requires forall i :: i in db.locks && !(db.locks[i].key.schedule == schedule && db.locks[i].key.seat in ids) ==>
      i in locks && locks[i] == db.locks[i]
    requires forall i :: i in locks && !(locks[i].key.schedule == schedule && locks[i].key.seat in ids) ==>
      i in db.locks && locks[i] == db.locks[i]
    ensures Invariant(Refresh(db.(locks := locks, nextId := next), schedule, ids))
  {
    var mid := db.(locks := locks, nextId := next);
    forall k | k in mid.seats && !(k.schedule == schedule && k.seat in ids)
      ensures mid.seats[k].state == SeatStatus(mid.locks, k)
    {
      StatusDependsOnOwnRows(db.locks, locks, k);
    }
    forall s | s in mid.schedules ensures CountersAgreeFor(mid, s) {
      assert CountersAgreeFor(db, s);
    }
    RefreshRestores(mid, schedule, ids);
    assert RowsInRange(Refresh(mid, schedule, ids));
  }

  lemma LockedRows(db: Db, user: int, schedule: int, ids: seq<int>, seg: Segment)
    requires NoOverlap(db.locks) && RowsInRange(db) && seg.from < seg.to
    requires Gate(db, schedule, ids).None? && Blocked(db.locks, schedule, IdSet(ids), seg) == {}
    ensures var locks := db.locks + NewRows(db.nextId, schedule, ids, seg, user);
      NoOverlap(locks) && RowsInRange(db.(locks := locks, nextId := db.nextId + |ids|))
  {
    GateOpensIff(db, schedule, ids);
    var locks := db.locks + NewRows(db.nextId, schedule, ids, seg, user);
    forall i, j | i in locks && j in locks && i != j && locks[i].Active() && locks[j].Active() && locks[i].key == locks[j].key
      ensures !locks[i].seg.Overlaps(locks[j].seg)
    {
      if i < db.nextId <= j {
        assert locks[i].key.seat in Blocked(db.locks, schedule, IdSet(ids), seg) || !locks[i].seg.Overlaps(seg);
      } else if j < db.nextId <= i {
        assert locks[j].key.seat in Blocked(db.locks, schedule, IdSet(ids), seg) || !locks[j].seg.Overlaps(seg);
      }
    }
  }

  lemma LockKeepsInvariant(db: Db, user: int, schedule: int, ids: seq<int>, seg: Segment)
    requires Invariant(db) && seg.from < seg.to
    ensures Invariant(LockSeats(db, user, schedule, ids, seg).0)
  {
    if Gate(db, schedule, ids).None? && Blocked(db.locks, schedule, IdSet(ids), seg) == {} {
      GateOpensIff(db, schedule, ids);
      LockedRows(db, user, schedule, ids, seg);
      ChangeThenRefresh(db, db.locks + NewRows(db.nextId, schedule, ids, seg, user), db.nextId + |ids|, schedule, IdSet(ids));
    }
  }

  lemma UnlockKeepsInvariant(db: Db, user: int, schedule: int, ids: seq<int>, seg: Segment)
    requires Invariant(db)
    ensures Invariant(UnlockSeats(db, user, schedule, ids, seg).0)
  {
    if Gate(db, schedule, ids).None? {
      ChangeThenRefresh(db, Deleted(db.locks, schedule, IdSet(ids), seg, user, Locked), db.nextId, schedule, IdSet(ids));
    }
  }

  lemma ConfirmKeepsInvariant(db: Db, booking: int, user: int, schedule: int, ids: seq<int>, seg: Segment)
    requires Invariant(db)
    ensures Invariant(ConfirmSeats(db, booking, user, schedule, ids, seg).0)
  {
    if booking != 0 && user != 0 && Gate(db, schedule, ids).None? {
      ChangeThenRefresh(db, Confirmed(db.locks, schedule, IdSet(ids), seg, user, booking), db.nextId, schedule, IdSet(ids));
    }
  }

  lemma CancelKeepsInvariant(db: Db, schedule: int, booking: int, user: int)
    requires Invariant(db)
    ensures Invariant(CancelSeats(db, schedule, booking, user).0)
  {
    var rows := RowsOfBooking(db.locks, schedule, booking, user);
    if schedule != 0 && booking != 0 && user != 0 && ScheduleGate(db, schedule).None? && rows != {} {
      ChangeThenRefresh(db, CancelDeleted(db.locks, schedule, rows, user), db.nextId, schedule, SeatIdsOf(db.locks, rows));
    }
  }

  /* ---- creation of a schedule ---- */

  lemma {:induction false} OtherSeatNotInserted(schedule: int, details: seq<SeatDetail>, x: int)
    requires KnownStates(details) && forall m :: 0 <= m < |details| ==> details[m].id != x
    ensures SeatKey(schedule, x) !in SeatRowsFor(schedule, details)
  {
    if details != [] {
      OtherSeatNotInserted(schedule, details[..|details| - 1], x);
    }
  }

  lemma {:induction false} InsertedRows(schedule: int, details: seq<SeatDetail>)
    requires KnownStates(details) && UniqueSeats(details)
    ensures var rows := SeatRowsFor(schedule, details);
      && |rows| == |details|
      && (forall m :: 0 <= m < |details| ==>
           rows[SeatKey(schedule, details[m].id)] == SeatRow(details[m].number, details[m].price, details[m].state.value, 0))
  {
    if details != [] {
      var n := |details| - 1;
      InsertedRows(schedule, details[..n]);
      OtherSeatNotInserted(schedule, details[..n], details[n].id);
    }
  }

  lemma CreatedSeats(db: Db, schedule: int, train: int, details: seq<SeatDetail>)
    requires Invariant(db) && CreateSchedule(db, schedule, train, details).1.Done?
    ensures var rows := SeatRowsFor(schedule, details);
      var db' := CreateSchedule(db, schedule, train, details).0;
      && db'.seats == db.seats + rows && rows.Keys == SeatsOf(db'.seats, schedule) && rows.Keys !! db.seats.Keys
      && forall k :: k in rows ==> SeatStatus(db.locks, k) == Available
  {
    var rows := SeatRowsFor(schedule, details);
    forall k | k in rows ensures k !in db.seats && SeatStatus(db.locks, k) == Available {
      assert k !in SeatsOf(db.seats, schedule);
    }
    forall k | k in SeatsOf(db.seats + rows, schedule) ensures k in rows {
      assert k !in SeatsOf(db.seats, schedule);
    }
    assert rows.Keys == SeatsOf(db.seats + rows, schedule);
  }

  lemma CreatedCounters(seats: SeatTable, rows: SeatTable, schedule: int, s: int)
    requires rows.Keys == SeatsOf(seats + rows, schedule) && rows.Keys !! seats.Keys
    requires forall k :: k in rows ==> rows[k].state == Available
    ensures s == schedule ==> CountSeats(seats + rows, s) == Counts(|rows|, 0, 0)
    ensures s != schedule ==> CountSeats(seats + rows, s) == CountSeats(seats, s) && SeatsOf(seats + rows, s) == SeatsOf(seats, s)
  {
    if s == schedule {
      assert InState(seats + rows, s, Available) == rows.Keys;
      assert InState(seats + rows, s, Locked) == {} && InState(seats + rows, s, Booked) == {};
    } else {
      forall k | k in rows ensures k.schedule == schedule {
        assert k in SeatsOf(seats + rows, schedule);
      }
      assert SeatsOf(seats + rows, s) == SeatsOf(seats, s);
      forall st ensures InState(seats + rows, s, st) == InState(seats, s, st) {}
    }
  }

  lemma CreateAllAvailable(db: Db, schedule: int, train: int, details: seq<SeatDetail>)
    requires Invariant(db) && CreateSchedule(db, schedule, train, details).1.Done? && AllAvailable(details)
    ensures Invariant(CreateSchedule(db, schedule, train, details).0)
  {
    var rows := SeatRowsFor(schedule, details);
    CreatedSeats(db, schedule, train, details);
    assert |rows| == |details| by { InsertedRows(schedule, details); }
    AddAvailableSeats(db, schedule, train, rows);
  }

  function WithSchedule(db: Db, schedule: int, train: int, rows: SeatTable): Db {
    db.(schedules := db.schedules[schedule := ScheduleRow(train, |rows|, |rows|, 0, 0, Active, 0)], seats := db.seats + rows)
  }

  lemma AddedCounters(db: Db, schedule: int, train: int, rows: SeatTable, s: int)
    requires CountersAgree(db) && schedule !in db.schedules && (s == schedule || s in db.schedules)
    requires rows.Keys == SeatsOf(db.seats + rows, schedule) && rows.Keys !! db.seats.Keys
    requires forall k :: k in rows ==> rows[k].state == Available
    ensures CountersAgreeFor(WithSchedule(db, schedule, train, rows), s)
  {
    CreatedCounters(db.seats, rows, schedule, s);
    hide CountSeats;
    assert s != schedule ==> CountersAgreeFor(db, s);
  }

  lemma AddAvailableSeats(db: Db, schedule: int, train: int, rows: SeatTable)
    requires Invariant(db) && schedule !in db.schedules
    requires rows.Keys == SeatsOf(db.seats + rows, schedule) && rows.Keys !! db.seats.Keys
    requires forall k :: k in rows ==> rows[k].state == Available && SeatStatus(db.locks, k) == Available
    ensures Invariant(WithSchedule(db, schedule, train, rows))
  {
    hide SeatStatus, CountSeats, LastEvent, CountersAgreeFor, NoOverlap, SeatsOf;
    var db' := WithSchedule(db, schedule, train, rows);
    forall s | s in db'.schedules ensures CountersAgreeFor(db', s) {
      AddedCounters(db, schedule, train, rows, s);
    }
  }

  /** The counters of a new schedule are right exactly when every seat of the payload is available. */
  lemma CreateKeepsInvariantIff(db: Db, schedule: int, train: int, details: seq<SeatDetail>)
    requires Invariant(db) && CreateSchedule(db, schedule, train, details).1.Done?
    ensures Invariant(CreateSchedule(db, schedule, train, details).0) <==> AllAvailable(details)
  {
    if AllAvailable(details) {
      CreateAllAvailable(db, schedule, train, details);
    } else {
      CreatedSeats(db, schedule, train, details);
      var m :| 0 <= m < |details| && details[m].state != Some(Available);
      var k := SeatKey(schedule, details[m].id);
      assert SeatRowsFor(schedule, details)[k].state != Available by { InsertedRows(schedule, details); }
      assert !StatusesAgree(CreateSchedule(db, schedule, train, details).0);
    }
  }

  /** A payload with one locked seat: the schedule row says one seat is available, the seats say none is. */
  lemma LockedSeatInPayload()
    ensures var details := [SeatDetail(1, 1, 100, Some(Locked))];
      var (db, reply) := CreateSchedule(EMPTY, 1, 1, details);
      reply.Done? && db.schedules[1].available == 1 && CountSeats(db.seats, 1).available == 0 && !Invariant(db)
  {
    var details := [SeatDetail(1, 1, 100, Some(Locked))];
    assert details[0].state != Some(Available);
    CreateKeepsInvariantIff(EMPTY, 1, 1, details);
    var rows := SeatRowsFor(1, details);
    InsertedRows(1, details);
    assert details[..0] == [] && SeatRowsFor(1, details[..0]) == map[];
    assert InState(EMPTY.seats + rows, 1, Available) == {};
  }

  /* ---- every run ---- */

  datatype Op =
    | Create(schedule: int, train: int, details: seq<SeatDetail>)
    | Lock(user: int, schedule: int, ids: seq<int>, seg: Segment)
    | Unlock(user: int, schedule: int, ids: seq<int>, seg: Segment)
    | Confirm(booking: int, user: int, schedule: int, ids: seq<int>, seg: Segment)
    | Cancel(schedule: int, booking: int, user: int)

  /** The request schemas of the HTTP layer; a request that fails one never reaches the service. */
  predicate Accepted(op: Op) {
    match op
    case Create(_, _, _) => true
    case Lock(user, schedule, ids, seg) => SeatRequest(user, schedule, ids, seg)
    case Unlock(user, schedule, ids, seg) => SeatRequest(user, schedule, ids, seg)
    case Confirm(booking, user, schedule, ids, seg) => booking > 0 && SeatRequest(user, schedule, ids, seg)
    case Cancel(schedule, booking, user) => schedule > 0 && booking > 0 && user > 0
  }

  predicate SeatRequest(user: int, schedule: int, ids: seq<int>, seg: Segment) {
    user > 0 && schedule > 0 && ids != [] && Distinct(ids) && (forall x :: x in ids ==> x > 0) && seg.Valid()
  }

  function Apply(db: Db, op: Op): Db {
    if !Accepted(op) then db else
    match op
    case Create(schedule, train, details) => CreateSchedule(db, schedule, train, details).0
    case Lock(user, schedule, ids, seg) => LockSeats(db, user, schedule, ids, seg).0
    case Unlock(user, schedule, ids, seg) => UnlockSeats(db, user, schedule, ids, seg).0
    case Confirm(booking, user, schedule, ids, seg) => ConfirmSeats(db, booking, user, schedule, ids, seg).0
    case Cancel(schedule, booking, user) => CancelSeats(db, schedule, booking, user).0
  }

  function Run(db: Db, ops: seq<Op>): Db
    decreases |ops|
  {
    if ops == [] then db else Run(Apply(db, ops[0]), ops[1..])
  }

  const EMPTY := Db(map[], map[], map[], 1, [])

  predicate OnlyAvailableSeats(op: Op) {
    op.Create? ==> AllAvailable(op.details)
  }

  lemma ApplyKeepsInvariant(db: Db, op: Op)
    requires Invariant(db) && OnlyAvailableSeats(op)
    ensures Invariant(Apply(db, op))
  {
    if Accepted(op) {
      match op
      case Create(schedule, train, details) =>
        if CreateSchedule(db, schedule, train, details).1.Done? {
          CreateKeepsInvariantIff(db, schedule, train, details);
        }
      case Lock(user, schedule, ids, seg) => LockKeepsInvariant(db, user, schedule, ids, seg);
      case Unlock(user, schedule, ids, seg) => UnlockKeepsInvariant(db, user, schedule, ids, seg);
      case Confirm(booking, user, schedule, ids, seg) => ConfirmKeepsInvariant(db, booking, user, schedule, ids, seg);
      case Cancel(schedule, booking, user) => CancelKeepsInvariant(db, schedule, booking, user);
    }
  }

  /** Every database reachable through the HTTP layer satisfies the invariant. */
  lemma {:induction false} EveryRunKeepsInvariant(db: Db, ops: seq<Op>)
    requires Invariant(db) && forall op :: op in ops ==> OnlyAvailableSeats(op)
    ensures Invariant(Run(db, ops))
    decreases |ops|
  {
    if ops != [] {
      ApplyKeepsInvariant(db, ops[0]);
      EveryRunKeepsInvariant(Apply(db, ops[0]), ops[1..]);
    }
  }

  /** No reachable state has two overlapping active rows on one seat, and the counters always add up. */
  lemma ReachableStatesAreSafe(ops: seq<Op>)
    requires forall op :: op in ops ==> OnlyAvailableSeats(op)
    ensures var db := Run(EMPTY, ops);
      && NoOverlap(db.locks) && StatusesAgree(db) && CountersAgree(db) && EventsAgree(db)
      && forall s :: s in db.schedules ==>
           db.schedules[s].available + db.schedules[s].locked + db.schedules[s].booked == db.schedules[s].total
  {
    EveryRunKeepsInvariant(EMPTY, ops);
    var db := Run(EMPTY, ops);
    forall s | s in db.schedules
      ensures db.schedules[s].available + db.schedules[s].locked + db.schedules[s].booked == db.schedules[s].total
    {
      AvailableLockedBookedSumToTotal(db, s);
    }
  }
}
