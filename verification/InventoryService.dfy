/**
 The inventory service as it runs: a transaction changes the tables step by step, and a refused request
 returns before the first change. Each method is tied to the function of `Inventory` it computes.
 */
module InventoryOperations {
  import opened Options
  import opened Inventory
  import opened InventoryInvariants
  import RoundTrips = InventoryRoundTrips

  /** The transitions counted by the loop that rebuilds the seat statuses. */
  datatype Tally = Tally(nowAvailable: nat, nowOccupied: nat, lockedToBooked: nat, bookedToLocked: nat)

  function Moved(before: SeatTable, after: SeatTable, source: set<SeatState>, target: set<SeatState>): set<SeatKey>
    requires before.Keys == after.Keys
  {
    set k | k in before && before[k].state in source && after[k].state in target
  }

  function TallyOf(before: SeatTable, after: SeatTable): Tally
    requires before.Keys == after.Keys
  {
    Tally(|Moved(before, after, {Locked, Booked, Cancelled}, {Available})|,
          |Moved(before, after, {Available}, {Locked, Booked, Cancelled})|,
          |Moved(before, after, {Locked}, {Booked})|,
          |Moved(before, after, {Booked}, {Locked})|)
  }

  /** What the tally is for: it accounts for the change in the number of available seats. */
  lemma TallyAccountsForAvailable(before: SeatTable, after: SeatTable, schedule: int)
    requires before.Keys == after.Keys
    requires forall k :: k in before && k.schedule != schedule ==> before[k].state == after[k].state
    ensures var t := TallyOf(before, after);
      |InState(after, schedule, Available)| + t.nowOccupied == |InState(before, schedule, Available)| + t.nowAvailable
  {
    var a, a' := InState(before, schedule, Available), InState(after, schedule, Available);
    var freed := Moved(before, after, {Locked, Booked, Cancelled}, {Available});
    var taken := Moved(before, after, {Available}, {Locked, Booked, Cancelled});
    assert a' + taken == a + freed;
    assert a' !! taken && a !! freed;
  }

  /** The published change of the available counter is the tally of the recompute loop. */
  lemma CounterMovesByTally(db: Db, schedule: int, ids: set<int>)
    requires schedule in db.schedules && CountersAgree(db) && SeatsOf(db.seats, schedule) != {}
    ensures var db' := Refresh(db, schedule, ids);
      var t := TallyOf(db.seats, db'.seats);
      db'.schedules[schedule].available == db.schedules[schedule].available + t.nowAvailable - t.nowOccupied
  {
    var db' := Refresh(db, schedule, ids);
    assert CountersAgreeFor(db, schedule);
    TallyAccountsForAvailable(db.seats, db'.seats, schedule);
    assert SeatsOf(db'.seats, schedule) == SeatsOf(db.seats, schedule);
  }

  lemma StepOfRecompute(before: SeatTable, locks: LockTable, schedule: int, ids: seq<int>, n: nat)
    requires n < |ids|
    ensures var mid := Recompute(before, locks, schedule, IdSet(ids[..n]));
      var k := SeatKey(schedule, ids[n]);
      && mid.Keys == before.Keys
      && (k in mid && mid[k].state != SeatStatus(locks, k) ==> mid[k] == before[k])
      && Recompute(before, locks, schedule, IdSet(ids[..n + 1]))
           == (if k in mid then mid[k := WithState(mid[k], SeatStatus(locks, k))] else mid)
  {
    assert IdSet(ids[..n + 1]) == IdSet(ids[..n]) + {ids[n]};
  }

  lemma MovedOne(before: SeatTable, mid: SeatTable, k: SeatKey, row: SeatRow, source: set<SeatState>, target: set<SeatState>)
    requires before.Keys == mid.Keys && k in mid && mid[k] == before[k] && source !! target
    ensures |Moved(before, mid[k := row], source, target)| ==
      |Moved(before, mid, source, target)| + (if before[k].state in source && row.state in target then 1 else 0)
  {
    var one := if before[k].state in source && row.state in target then {k} else {};
    assert Moved(before, mid[k := row], source, target) == Moved(before, mid, source, target) + one;
    assert k !in Moved(before, mid, source, target);
  }

  /** The counting of one status change. */
  function Counted(t: Tally, o: SeatState, n: SeatState): Tally {
    Tally(t.nowAvailable + (if o != Available && n == Available then 1 else 0),
          t.nowOccupied + (if o == Available && n != Available then 1 else 0),
          t.lockedToBooked + (if o == Locked && n == Booked then 1 else 0),
          t.bookedToLocked + (if o == Booked && n == Locked then 1 else 0))
  }

  lemma TallyOne(before: SeatTable, mid: SeatTable, k: SeatKey, row: SeatRow)
    requires before.Keys == mid.Keys && k in mid && mid[k] == before[k]
    ensures TallyOf(before, mid[k := row]) == Counted(TallyOf(before, mid), before[k].state, row.state)
  {
    MovedOne(before, mid, k, row, {Locked, Booked, Cancelled}, {Available});
    MovedOne(before, mid, k, row, {Available}, {Locked, Booked, Cancelled});
    MovedOne(before, mid, k, row, {Locked}, {Booked});
    MovedOne(before, mid, k, row, {Booked}, {Locked});
  }

  /** One iteration of the loop: the next seat is rebuilt, and counted if its status changed. */
  lemma RecomputeNext(before: SeatTable, locks: LockTable, schedule: int, ids: seq<int>, n: nat)
    requires n < |ids|
    ensures var mid := Recompute(before, locks, schedule, IdSet(ids[..n]));
      var next := Recompute(before, locks, schedule, IdSet(ids[..n + 1]));
      var k := SeatKey(schedule, ids[n]);
      && mid.Keys == before.Keys == next.Keys
      && next == (if k in mid then mid[k := WithState(mid[k], SeatStatus(locks, k))] else mid)
      && TallyOf(before, next) ==
           if k in mid then Counted(TallyOf(before, mid), mid[k].state, SeatStatus(locks, k)) else TallyOf(before, mid)
  {
    StepOfRecompute(before, locks, schedule, ids, n);
    var mid := Recompute(before, locks, schedule, IdSet(ids[..n]));
    var k := SeatKey(schedule, ids[n]);
    if k in mid {
      if mid[k].state == SeatStatus(locks, k) {
        assert mid[k := WithState(mid[k], SeatStatus(locks, k))] == mid;
      } else {
        TallyOne(before, mid, k, WithState(mid[k], SeatStatus(locks, k)));
      }
    }
  }

  lemma NoTally(seats: SeatTable)
    ensures TallyOf(seats, seats) == Tally(0, 0, 0, 0)
  {
    assert forall src, tgt | src !! tgt :: Moved(seats, seats, src, tgt) == {};
  }

  lemma SeatIdsOfOneMore(locks: LockTable, rows: set<nat>, i: nat, ids: seq<int>)
    requires rows + {i} <= locks.Keys && IdSet(ids) == SeatIdsOf(locks, rows)
    ensures IdSet(ids + [locks[i].key.seat]) == SeatIdsOf(locks, rows + {i})
  {
    assert IdSet(ids + [locks[i].key.seat]) == IdSet(ids) + {locks[i].key.seat};
    assert SeatIdsOf(locks, rows + {i}) == SeatIdsOf(locks, rows) + {locks[i].key.seat};
  }

  class InventoryService {
    var schedules: ScheduleTable
    var seats: SeatTable
    var locks: LockTable
    var nextId: nat
    var events: seq<AvailabilityEvent>

    function Contents(): Db
      reads this
    {
      Db(schedules, seats, locks, nextId, events)
    }

    constructor ()
      ensures Contents() == EMPTY
    {
      schedules, seats, locks, nextId, events := map[], map[], map[], 1, [];
    }

    method RecomputeSegmentSeatStatuses(schedule: int, ids: seq<int>) returns (t: Tally)
      modifies this`seats
      ensures seats == Recompute(old(seats), locks, schedule, IdSet(ids))
      ensures t == TallyOf(old(seats), seats)
    {
      ghost var before := seats;
      NoTally(before);
      assert seats == Recompute(before, locks, schedule, IdSet(ids[..0]));
      t := Tally(0, 0, 0, 0);
      var n := 0;
      while n < |ids|
        invariant n <= |ids| && seats.Keys == before.Keys
        invariant seats == Recompute(before, locks, schedule, IdSet(ids[..n])) && t == TallyOf(before, seats)
      {
        RecomputeNext(before, locks, schedule, ids, n);
        t := RecomputeSeat(SeatKey(schedule, ids[n]), t);
        n := n + 1;
      }
      assert ids[..n] == ids;
    }

    method RecomputeSeat(key: SeatKey, t: Tally) returns (t': Tally)
      modifies this`seats
      ensures seats == if key in old(seats) then old(seats)[key := WithState(old(seats)[key], SeatStatus(locks, key))] else old(seats)
      ensures t' == if key in old(seats) then Counted(t, old(seats)[key].state, SeatStatus(locks, key)) else t
    {
      t' := t;
      var newState := SeatStatus(locks, key);
      if key !in seats {
        return;
      }
      var row := seats[key];
      if row.state == newState {
        return;
      }
      if row.state == Available && newState != Available {
        t' := t'.(nowOccupied := t'.nowOccupied + 1);
      }
      if row.state != Available && newState == Available {
        t' := t'.(nowAvailable := t'.nowAvailable + 1);
      }
      if row.state == Locked && newState == Booked {
        t' := t'.(lockedToBooked := t'.lockedToBooked + 1);
      }
      if row.state == Booked && newState == Locked {
        t' := t'.(bookedToLocked := t'.bookedToLocked + 1);
      }
      seats := seats[key := row.(state := newState, version := row.version + 1)];
    }

    method RecountScheduleAggregates(schedule: int) returns (c: Counts)
      modifies this`schedules
      ensures schedules == Recount(old(schedules), seats, schedule) && c == CountSeats(seats, schedule)
    {
      c := CountSeats(seats, schedule);
      if SeatsOf(seats, schedule) != {} && schedule in schedules {
        var r := schedules[schedule];
        schedules := schedules[schedule :=
          r.(available := c.available, locked := c.locked, booked := c.booked, version := r.version + 1)];
      }
    }

    /** The common end of the four operations: rebuild, recount, publish, commit. */
    method Finish(schedule: int, ids: seq<int>) returns (reply: Reply)
      requires schedule in schedules
      modifies this
      ensures (Contents(), reply) == Answer(old(Contents()), schedule, IdSet(ids))
    {
      var train := schedules[schedule].train;
      var t := RecomputeSegmentSeatStatuses(schedule, ids);
      var c := RecountScheduleAggregates(schedule);
      events := events + [AvailabilityEvent(schedule, train, c.available, c.locked, c.booked)];
      reply := Done(c);
    }

    /** `busy` are the seat rows that other open transactions hold: the row-locking query passes over them. */
    method CheckSeats(busy: set<SeatKey>, schedule: int, ids: seq<int>) returns (refusal: Option<Refusal>)
      ensures refusal == Gate(Unheld(Contents(), busy), schedule, ids)
    {
      if ids == [] {
        return Some(SeatIdsRequired);
      }
      if schedule !in schedules {
        return Some(ScheduleNotFound);
      }
      if schedules[schedule].state != Active {
        return Some(ScheduleNotActive);
      }
      var found := Found(seats - busy, schedule, ids);
      if |found| != |ids| {
        return Some(SeatsMissing(NotIn(ids, found)));
      }
      return None;
    }

    method LockSeats(busy: set<SeatKey>, user: int, schedule: int, ids: seq<int>, seg: Segment) returns (reply: Reply)
      modifies this
      ensures (Contents(), reply) == LockUnder(old(Contents()), busy, user, schedule, ids, seg)
    {
      var refusal := CheckSeats(busy, schedule, ids);
      if refusal.Some? {
        return Refused(refusal.value);
      }
      RoundTrips.GateUnder(Contents(), busy, schedule, ids);
      assert ScheduleGate(Contents(), schedule).None?;
      hide Unheld, Gate, ScheduleGate, Blocked, NewRows, Answer;
      var blocked := Blocked(locks, schedule, IdSet(ids), seg);
      if blocked != {} {
        return Refused(SegmentTaken(blocked));
      }
      AddSegmentLocks(schedule, ids, seg, user);
      reply := Finish(schedule, ids);
    }

    /** The bulk insert of the new rows. */
    method AddSegmentLocks(schedule: int, ids: seq<int>, seg: Segment, user: int)
      modifies this`locks, this`nextId
      ensures nextId == old(nextId) + |ids| && locks == old(locks) + NewRows(old(nextId), schedule, ids, seg, user)
    {
      var n := 0;
      while n < |ids|
        invariant n <= |ids|
        invariant nextId == old(nextId) + n && locks == old(locks) + NewRows(old(nextId), schedule, ids[..n], seg, user)
      {
        locks := locks[nextId := LockRow(SeatKey(schedule, ids[n]), seg, user, None, Locked, 0)];
        nextId := nextId + 1;
        assert ids[..n + 1][..n] == ids[..n];
        n := n + 1;
      }
      assert ids[..n] == ids;
    }

    method UnlockSeats(busy: set<SeatKey>, user: int, schedule: int, ids: seq<int>, seg: Segment) returns (reply: Reply)
      modifies this
      ensures (Contents(), reply) == UnlockUnder(old(Contents()), busy, user, schedule, ids, seg)
    {
      var refusal := CheckSeats(busy, schedule, ids);
      if refusal.Some? {
        return Refused(refusal.value);
      }
      RoundTrips.GateUnder(Contents(), busy, schedule, ids);
      hide Unheld;
      locks := Deleted(locks, schedule, IdSet(ids), seg, user, Locked);
      reply := Finish(schedule, ids);
    }

    method ConfirmSeats(busy: set<SeatKey>, booking: int, user: int, schedule: int, ids: seq<int>, seg: Segment) returns (reply: Reply)
      modifies this
      ensures (Contents(), reply) == ConfirmUnder(old(Contents()), busy, booking, user, schedule, ids, seg)
    {
      if booking == 0 {
        return Refused(BookingIdRequired);
      }
      if user == 0 {
        return Refused(UserIdRequired);
      }
      var refusal := CheckSeats(busy, schedule, ids);
      if refusal.Some? {
        return Refused(refusal.value);
      }
      RoundTrips.GateUnder(Contents(), busy, schedule, ids);
      hide Unheld;
      locks := Confirmed(locks, schedule, IdSet(ids), seg, user, booking);
      reply := Finish(schedule, ids);
    }

    method CancelSeats(schedule: int, booking: int, user: int) returns (reply: Reply)
      modifies this
      ensures (Contents(), reply) == Inventory.CancelSeats(old(Contents()), schedule, booking, user)
    {
      if schedule == 0 {
        return Refused(ScheduleIdRequired);
      }
      if booking == 0 {
        return Refused(BookingIdRequired);
      }
      if user == 0 {
        return Refused(UserIdRequired);
      }
      if schedule !in schedules {
        return Refused(ScheduleNotFound);
      }
      if schedules[schedule].state != Active {
        return Refused(ScheduleNotActive);
      }
      var rows := RowsOfBooking(locks, schedule, booking, user);
      if rows == {} {
        return Refused(LocksNotFound);
      }
      var ids: seq<int> := [];
      var rest := rows;
      while rest != {}
        invariant Contents() == old(Contents()) && rest <= rows
        invariant IdSet(ids) == SeatIdsOf(locks, rows - rest)
      {
        var i :| i in rest;
        assert rows - (rest - {i}) == (rows - rest) + {i};
        SeatIdsOfOneMore(locks, rows - rest, i, ids);
        ids := ids + [locks[i].key.seat];
        rest := rest - {i};
      }
      assert rows - rest == rows;
      locks := CancelDeleted(locks, schedule, rows, user);
      reply := Finish(schedule, ids);
    }

    /** The loop that inserts one row per seat of the payload. */
    method AddSeats(schedule: int, details: seq<SeatDetail>)
      requires KnownStates(details)
      modifies this`seats
      ensures seats == old(seats) + SeatRowsFor(schedule, details)
    {
      var n := 0;
      while n < |details|
        invariant n <= |details| && KnownStates(details[..n]) && seats == old(seats) + SeatRowsFor(schedule, details[..n])
      {
        var d := details[n];
        seats := seats[SeatKey(schedule, d.id) := SeatRow(d.number, d.price, d.state.value, 0)];
        assert details[..n + 1][..n] == details[..n];
        n := n + 1;
      }
      assert details[..n] == details;
    }

    method CreateSchedule(schedule: int, train: int, details: seq<SeatDetail>) returns (reply: Reply)
      modifies this
      ensures (Contents(), reply) == Inventory.CreateSchedule(old(Contents()), schedule, train, details)
    {
      hide SeatRowsFor, UniqueSeats, KnownStates;
      if schedule <= 0 || train <= 0 {
        return Refused(InvalidPayload);
      }
      if schedule in schedules {
        return AlreadyProcessed;
      }
      if !UniqueSeats(details) || SeatsOf(seats, schedule) != {} {
        return Refused(DuplicateRow);
      }
      if !KnownStates(details) {
        return Refused(InvalidStatus);
      }
      var total := |details|;
      schedules := schedules[schedule := ScheduleRow(train, total, total, 0, 0, Active, 0)];
      AddSeats(schedule, details);
      reply := Done(Counts(total, 0, 0));
    }
  }
}
