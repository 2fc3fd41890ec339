/**
 The inventory tables and the four seat operations as functions from one database value to the next.

 `SEAT_SEGMENT_LOCK` is the source of truth: one row holds one seat over the stations `[from, to)`.
 `SEAT_INVENTORY.status` and the counters of `SCHEDULE_INVENTORY` are summaries rebuilt from it by
 `Refresh` at the end of every operation.
 */
module Inventory {
  import opened IntSets
  import opened Options

  datatype SeatState = Available | Locked | Booked | Cancelled

  datatype ScheduleState = Active | Inactive | Withdrawn

  /** The stations `[from, to)`; leg `l` runs from station `l` to station `l + 1`. */
  datatype Segment = Segment(from: int, to: int) {
    predicate Valid() {
      0 < from < to
    }

    predicate Overlaps(that: Segment) {
      from < that.to && to > that.from
    }

    predicate Covers(leg: int) {
      from <= leg < to
    }
  }

  datatype SeatKey = SeatKey(schedule: int, seat: int)

  datatype LockRow = LockRow(key: SeatKey, seg: Segment, user: int, booking: Option<int>, state: SeatState, version: nat) {
    predicate Active() {
      state == Locked || state == Booked
    }

    /** The WHERE clause shared by the hard delete and by the update of a confirmation. */
    predicate Matches(schedule: int, ids: set<int>, s: Segment, u: int, st: SeatState) {
      key.schedule == schedule && key.seat in ids && seg == s && user == u && state == st
    }

    /** The WHERE clause that selects the rows of one confirmed booking. */
    predicate BookedFor(schedule: int, b: int, u: int) {
      key.schedule == schedule && booking == Some(b) && user == u && state == Booked
    }
  }

  datatype SeatRow = SeatRow(number: int, price: int, state: SeatState, version: nat)

  datatype ScheduleRow = ScheduleRow(train: int, total: int, available: int, locked: int, booked: int,
                                     state: ScheduleState, version: nat)

  /** The outbox row that carries the counters to the search index. */
  datatype AvailabilityEvent = AvailabilityEvent(schedule: int, train: int, available: int, locked: int, booked: int)

  type LockTable = map<nat, LockRow>
  type SeatTable = map<SeatKey, SeatRow>
  type ScheduleTable = map<int, ScheduleRow>

  datatype Db = Db(schedules: ScheduleTable, seats: SeatTable, locks: LockTable, nextId: nat, events: seq<AvailabilityEvent>)

  datatype Refusal =
    | BookingIdRequired
    | UserIdRequired
    | ScheduleIdRequired
    | SeatIdsRequired
    | ScheduleNotFound
    | ScheduleNotActive
    | SeatsMissing(missing: seq<int>)
    | SegmentTaken(blocked: set<int>)
    | LocksNotFound
    | InvalidPayload
    | InvalidStatus
    | DuplicateRow

  datatype Counts = Counts(available: nat, locked: nat, booked: nat)

  datatype Reply = Done(counts: Counts) | AlreadyProcessed | Refused(reason: Refusal)

  /* ---- the derived layers ---- */

  predicate HasRow(locks: LockTable, key: SeatKey, st: SeatState) {
    exists i :: i in locks && locks[i].key == key && locks[i].state == st
  }

  /** The summary status of one seat: LOCKED wins over BOOKED, no active row means AVAILABLE. */
  function SeatStatus(locks: LockTable, key: SeatKey): SeatState {
    if HasRow(locks, key, Locked) then Locked
    else if HasRow(locks, key, Booked) then Booked
    else Available
  }

  function WithState(s: SeatRow, st: SeatState): SeatRow {
    if s.state == st then s else s.(state := st, version := s.version + 1)
  }

  function Recompute(seats: SeatTable, locks: LockTable, schedule: int, ids: set<int>): SeatTable {
    map k | k in seats ::
      if k.schedule == schedule && k.seat in ids then WithState(seats[k], SeatStatus(locks, k)) else seats[k]
  }

  function InState(seats: SeatTable, schedule: int, st: SeatState): set<SeatKey> {
    set k | k in seats && k.schedule == schedule && seats[k].state == st
  }

  function SeatsOf(seats: SeatTable, schedule: int): set<SeatKey> {
    set k | k in seats && k.schedule == schedule
  }

  function CountSeats(seats: SeatTable, schedule: int): Counts {
    Counts(|InState(seats, schedule, Available)|, |InState(seats, schedule, Locked)|, |InState(seats, schedule, Booked)|)
  }

  /** SQL `SUM` over no rows is NULL, and then the schedule row is left as it was. */
  function Recount(schedules: ScheduleTable, seats: SeatTable, schedule: int): ScheduleTable {
    if SeatsOf(seats, schedule) == {} || schedule !in schedules then schedules
    else
      var c := CountSeats(seats, schedule);
      var r := schedules[schedule];
      schedules[schedule := r.(available := c.available, locked := c.locked, booked := c.booked, version := r.version + 1)]
  }

  /** What every operation does after it has changed the segment rows. */
  function Refresh(db: Db, schedule: int, ids: set<int>): Db
    requires schedule in db.schedules
  {
    var seats := Recompute(db.seats, db.locks, schedule, ids);
    var c := CountSeats(seats, schedule);
    db.(seats := seats,
        schedules := Recount(db.schedules, seats, schedule),
        events := db.events + [AvailabilityEvent(schedule, db.schedules[schedule].train, c.available, c.locked, c.booked)])
  }

  /* ---- gates ---- */

  function IdSet(ids: seq<int>): set<int> {
    set x | x in ids
  }

  /** The seat rows that the row-locking query returns. */
  function Found(seats: SeatTable, schedule: int, ids: seq<int>): set<int> {
    set x | x in ids && SeatKey(schedule, x) in seats
  }

  function NotIn(ids: seq<int>, found: set<int>): seq<int> {
    if ids == [] then []
    else (if ids[0] in found then [] else [ids[0]]) + NotIn(ids[1..], found)
  }

  function ScheduleGate(db: Db, schedule: int): Option<Refusal> {
    if schedule !in db.schedules then Some(ScheduleNotFound)
    else if db.schedules[schedule].state != Active then Some(ScheduleNotActive)
    else None
  }

  /** The checks shared by lock, unlock and confirm, in the order of the code. */
  function Gate(db: Db, schedule: int, ids: seq<int>): Option<Refusal> {
    if ids == [] then Some(SeatIdsRequired)
    else if ScheduleGate(db, schedule).Some? then ScheduleGate(db, schedule)
    else
      var found := Found(db.seats, schedule, ids);
      if |found| != |ids| then Some(SeatsMissing(NotIn(ids, found))) else None
  }

  /* ---- the operations ---- */

  function Blocked(locks: LockTable, schedule: int, ids: set<int>, seg: Segment): set<int> {
    set i | i in locks && locks[i].key.schedule == schedule && locks[i].key.seat in ids && locks[i].Active()
            && locks[i].seg.Overlaps(seg) :: locks[i].key.seat
  }

  /** One LOCKED row per requested seat, under consecutive fresh primary keys. */
  function NewRows(n: nat, schedule: int, ids: seq<int>, seg: Segment, user: int): (rows: LockTable)
    ensures forall i {:trigger i in rows} :: i in rows <==> n <= i < n + |ids|
    ensures forall i {:trigger rows[i]} :: i in rows ==> rows[i] == LockRow(SeatKey(schedule, ids[i - n]), seg, user, None, Locked, 0)
  {
    if ids == [] then map[]
    else
      var k := |ids| - 1;
      NewRows(n, schedule, ids[..k], seg, user)[n + k := LockRow(SeatKey(schedule, ids[k]), seg, user, None, Locked, 0)]
  }

  function LockSeats(db: Db, user: int, schedule: int, ids: seq<int>, seg: Segment): (Db, Reply) {
    if Gate(db, schedule, ids).Some? then (db, Refused(Gate(db, schedule, ids).value))
    else
      var blocked := Blocked(db.locks, schedule, IdSet(ids), seg);
      if blocked != {} then (db, Refused(SegmentTaken(blocked)))
      else
        Answer(db.(locks := db.locks + NewRows(db.nextId, schedule, ids, seg, user), nextId := db.nextId + |ids|),
               schedule, IdSet(ids))
  }

  function Deleted(locks: LockTable, schedule: int, ids: set<int>, seg: Segment, user: int, st: SeatState): LockTable {
    map i | i in locks && !locks[i].Matches(schedule, ids, seg, user, st) :: locks[i]
  }

  function UnlockSeats(db: Db, user: int, schedule: int, ids: seq<int>, seg: Segment): (Db, Reply) {
    if Gate(db, schedule, ids).Some? then (db, Refused(Gate(db, schedule, ids).value))
    else Answer(db.(locks := Deleted(db.locks, schedule, IdSet(ids), seg, user, Locked)), schedule, IdSet(ids))
  }

  function Confirmed(locks: LockTable, schedule: int, ids: set<int>, seg: Segment, user: int, booking: int): LockTable {
    map i | i in locks ::
      if locks[i].Matches(schedule, ids, seg, user, Locked)
      then locks[i].(booking := Some(booking), state := Booked, version := locks[i].version + 1)
      else locks[i]
  }

  function ConfirmSeats(db: Db, booking: int, user: int, schedule: int, ids: seq<int>, seg: Segment): (Db, Reply) {
    if booking == 0 then (db, Refused(BookingIdRequired))
    else if user == 0 then (db, Refused(UserIdRequired))
    else if Gate(db, schedule, ids).Some? then (db, Refused(Gate(db, schedule, ids).value))
    else Answer(db.(locks := Confirmed(db.locks, schedule, IdSet(ids), seg, user, booking)), schedule, IdSet(ids))
  }

  /* ---- the operations while other transactions hold seat rows ---- */

  /** What a row-locking query sees: it passes over the seat rows that other open transactions hold. */
  function Unheld(db: Db, busy: set<SeatKey>): Db {
    db.(seats := db.seats - busy)
  }

  function LockUnder(db: Db, busy: set<SeatKey>, user: int, schedule: int, ids: seq<int>, seg: Segment): (Db, Reply) {
    var gate := Gate(Unheld(db, busy), schedule, ids);
    if gate.Some? then (db, Refused(gate.value)) else LockSeats(db, user, schedule, ids, seg)
  }

  function UnlockUnder(db: Db, busy: set<SeatKey>, user: int, schedule: int, ids: seq<int>, seg: Segment): (Db, Reply) {
    var gate := Gate(Unheld(db, busy), schedule, ids);
    if gate.Some? then (db, Refused(gate.value)) else UnlockSeats(db, user, schedule, ids, seg)
  }

  function ConfirmUnder(db: Db, busy: set<SeatKey>, booking: int, user: int, schedule: int, ids: seq<int>, seg: Segment): (Db, Reply) {
    var gate := Gate(Unheld(db, busy), schedule, ids);
    if booking != 0 && user != 0 && gate.Some? then (db, Refused(gate.value)) else ConfirmSeats(db, booking, user, schedule, ids, seg)
  }

  function RowsOfBooking(locks: LockTable, schedule: int, booking: int, user: int): set<nat> {
    set i | i in locks && locks[i].BookedFor(schedule, booking, user)
  }

  function SeatIdsOf(locks: LockTable, rows: set<nat>): set<int>
    requires rows <= locks.Keys
  {
    set i | i in rows :: locks[i].key.seat
  }

  /** The delete of a cancellation names the segment of the first selected row in key order, not the booking. */
  function CancelDeleted(locks: LockTable, schedule: int, rows: set<nat>, user: int): LockTable
    requires rows != {} && rows <= locks.Keys
  {
    Deleted(locks, schedule, SeatIdsOf(locks, rows), locks[Smallest(rows)].seg, user, Booked)
  }

  function CancelSeats(db: Db, schedule: int, booking: int, user: int): (Db, Reply) {
    if schedule == 0 then (db, Refused(ScheduleIdRequired))
    else if booking == 0 then (db, Refused(BookingIdRequired))
    else if user == 0 then (db, Refused(UserIdRequired))
    else if ScheduleGate(db, schedule).Some? then (db, Refused(ScheduleGate(db, schedule).value))
    else
      var rows := RowsOfBooking(db.locks, schedule, booking, user);
      if rows == {} then (db, Refused(LocksNotFound))
      else Answer(db.(locks := CancelDeleted(db.locks, schedule, rows, user)), schedule, SeatIdsOf(db.locks, rows))
  }

  function Answer(db: Db, schedule: int, ids: set<int>): (Db, Reply)
    requires schedule in db.schedules
  {
    var db' := Refresh(db, schedule, ids);
    (db', Done(CountSeats(db'.seats, schedule)))
  }

  /* ---- creation of a schedule ---- */

  /** One seat of the `SCHEDULE_CREATED` payload; `None` is a status outside the column's enumeration. */
  datatype SeatDetail = SeatDetail(id: int, number: int, price: int, state: Option<SeatState>)

  predicate UniqueSeats(details: seq<SeatDetail>) {
    forall i, j :: 0 <= i < j < |details| ==> details[i].id != details[j].id && details[i].number != details[j].number
  }

  predicate KnownStates(details: seq<SeatDetail>) {
    forall m :: 0 <= m < |details| ==> details[m].state.Some?
  }

  predicate AllAvailable(details: seq<SeatDetail>) {
    forall m :: 0 <= m < |details| ==> details[m].state == Some(Available)
  }

  /** The rows of the bulk insert. */
  function SeatRowsFor(schedule: int, details: seq<SeatDetail>): (rows: SeatTable)
    requires KnownStates(details)
    ensures forall k :: k in rows ==> k.schedule == schedule
    ensures forall m :: 0 <= m < |details| ==> SeatKey(schedule, details[m].id) in rows
    ensures AllAvailable(details) ==> forall k :: k in rows ==> rows[k].state == Available
  {
    if details == [] then map[]
    else
      var n := |details| - 1;
      var d := details[n];
      SeatRowsFor(schedule, details[..n])[SeatKey(schedule, d.id) := SeatRow(d.number, d.price, d.state.value, 0)]
  }

  /** The counters start at "all available" whatever the statuses of the seats are. */
  function CreateSchedule(db: Db, schedule: int, train: int, details: seq<SeatDetail>): (Db, Reply) {
    var n := |details|;
    if schedule <= 0 || train <= 0 then (db, Refused(InvalidPayload))
    else if schedule in db.schedules then (db, AlreadyProcessed)
    else if !UniqueSeats(details) || SeatsOf(db.seats, schedule) != {}
    then (db, Refused(DuplicateRow))
    else if !KnownStates(details) then (db, Refused(InvalidStatus))
    else
      (db.(schedules := db.schedules[schedule := ScheduleRow(train, n, n, 0, 0, Active, 0)],
           seats := db.seats + SeatRowsFor(schedule, details)),
       Done(Counts(n, 0, 0)))
  }
}
