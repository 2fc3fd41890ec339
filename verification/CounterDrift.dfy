/**
 The rebuild of statuses and counters when rows are locked by other transactions: the recompute passes over a locked seat
 row, the recount over a locked schedule row, and both read what was committed before. Which of them can be stale, and when
 they agree again.
 */
module CounterDrift {
  import opened Inventory
  import opened InventoryInvariants
  import opened Options

  /* ---- one rebuild ---- */

  /** `skipped` are the seats whose row is locked by another transaction; `free` tells whether the schedule row is not. */
  function RefreshSkipping(db: Db, schedule: int, ids: set<int>, skipped: set<int>, free: bool): Db
    requires schedule in db.schedules
  {
    var seats := Recompute(db.seats, db.locks, schedule, ids - skipped);
    var c := CountSeats(seats, schedule);
    db.(seats := seats,
        schedules := if free then Recount(db.schedules, seats, schedule) else db.schedules,
        events := db.events + [AvailabilityEvent(schedule, db.schedules[schedule].train, c.available, c.locked, c.booked)])
  }

  /** With nothing locked it is the rebuild of the sequential operations. */
  lemma SkippingNothing(db: Db, schedule: int, ids: set<int>)
    requires schedule in db.schedules
    ensures RefreshSkipping(db, schedule, ids, {}, true) == Refresh(db, schedule, ids)
  {
    assert ids - {} == ids;
  }

  ghost predicate Stale(db: Db, k: SeatKey)
    requires k in db.seats
  {
    db.seats[k].state != SeatStatus(db.locks, k)
  }

  /** Statuses agree after the rebuild exactly when no stale seat was unlisted or passed over. */
  lemma StatusesAgreeIff(db: Db, schedule: int, ids: set<int>, skipped: set<int>, free: bool)
    requires schedule in db.schedules
    ensures StatusesAgree(RefreshSkipping(db, schedule, ids, skipped, free)) <==>
      forall k :: k in db.seats && Stale(db, k) ==> k.schedule == schedule && k.seat in ids - skipped
  {
    hide SeatStatus, CountSeats, Recount;
    var db' := RefreshSkipping(db, schedule, ids, skipped, free);
    forall k | k in db.seats ensures k in db'.seats && (Stale(db', k) <==> Stale(db, k) && !(k.schedule == schedule && k.seat in ids - skipped)) {
      assert db'.locks == db.locks;
    }
    assert db'.seats.Keys == db.seats.Keys;
  }

  /**
   Counters agree with the statuses after the rebuild exactly when its recount wrote them, or they happened to be right
   already. The event it publishes always carries the counts it saw.
   */
  lemma CountersAgreeIff(db: Db, schedule: int, ids: set<int>, skipped: set<int>, free: bool)
    requires schedule in db.schedules && db.schedules[schedule].total == |SeatsOf(db.seats, schedule)|
    ensures var db' := RefreshSkipping(db, schedule, ids, skipped, free);
      var (c, r) := (CountSeats(db'.seats, schedule), db.schedules[schedule]);
      && (CountersAgreeFor(db', schedule) <==>
            (free && SeatsOf(db.seats, schedule) != {}) || (r.available == c.available && r.locked == c.locked && r.booked == c.booked))
      && LastEvent(db'.events, schedule) == Some(AvailabilityEvent(schedule, r.train, c.available, c.locked, c.booked))
  {
    hide SeatStatus;
    var db' := RefreshSkipping(db, schedule, ids, skipped, free);
    assert SeatsOf(db'.seats, schedule) == SeatsOf(db.seats, schedule);
  }

  /** One rebuild that lists every stale seat and finds nothing locked repairs whatever earlier ones left behind. */
  lemma NextRebuildRepairs(db: Db, schedule: int, ids: set<int>)
    requires schedule in db.schedules && db.schedules[schedule].total == |SeatsOf(db.seats, schedule)| && SeatsOf(db.seats, schedule) != {}
    requires forall k :: k in db.seats && Stale(db, k) ==> k.schedule == schedule && k.seat in ids
    ensures var db' := RefreshSkipping(db, schedule, ids, {}, true);
      && StatusesAgree(db') && CountersAgreeFor(db', schedule)
      && LastEvent(db'.events, schedule) == Some(AvailabilityEvent(schedule, db'.schedules[schedule].train,
           db'.schedules[schedule].available, db'.schedules[schedule].locked, db'.schedules[schedule].booked))
  {
    hide StatusesAgree, CountersAgreeFor, Stale, LastEvent;
    StatusesAgreeIff(db, schedule, ids, {}, true);
    CountersAgreeIff(db, schedule, ids, {}, true);
    AgreeingCounters(db, schedule, ids);
  }

  lemma AgreeingCounters(db: Db, schedule: int, ids: set<int>)
    requires schedule in db.schedules && CountersAgreeFor(RefreshSkipping(db, schedule, ids, {}, true), schedule)
    ensures var db' := RefreshSkipping(db, schedule, ids, {}, true);
      var c := CountSeats(db'.seats, schedule);
      && db'.schedules[schedule].train == db.schedules[schedule].train
      && db'.schedules[schedule].available == c.available && db'.schedules[schedule].locked == c.locked && db'.schedules[schedule].booked == c.booked
  {
    hide SeatStatus;
  }

  /* ---- transactions on one schedule ---- */

  /**
   What an open transaction has written to seats, whether it has recounted, and the counts it wrote to the schedule row if
   that was not locked. `base` is history: the committed seats when it recounted.
   */
  datatype Tx = Tx(writes: SeatTable, recounted: bool, counted: Option<Counts>, base: SeatTable)

  datatype World = World(schedule: int, seats: SeatTable, counters: Counts, open: map<int, Tx>)

  datatype Step = Open(t: int) | Write(t: int, k: SeatKey, row: SeatRow) | Recounted(t: int) | Commit(t: int) | Rollback(t: int)

  predicate RowFree(w: World) {
    forall t :: t in w.open ==> w.open[t].counted.None?
  }

  /** A seat row is written by one open transaction at a time; others pass over it. */
  predicate Enabled(w: World, s: Step) {
    match s
    case Open(t) => t !in w.open
    case Write(t, k, row) =>
      && t in w.open && !w.open[t].recounted && k in w.seats && k.schedule == w.schedule && row.state != Cancelled
      && forall u :: u in w.open && u != t ==> k !in w.open[u].writes
    case Recounted(t) => t in w.open && !w.open[t].recounted
    case Commit(t) => t in w.open && w.open[t].recounted
    case Rollback(t) => t in w.open
  }

  /** What a transaction sees: the committed seats and its own writes. */
  function Seen(w: World, t: int): SeatTable
    requires t in w.open
  {
    w.seats + w.open[t].writes
  }

  function Next(w: World, s: Step): World
    requires Enabled(w, s)
  {
    match s
    case Open(t) => w.(open := w.open[t := Tx(map[], false, None, map[])])
    case Write(t, k, row) => w.(open := w.open[t := w.open[t].(writes := w.open[t].writes[k := row])])
    case Recounted(t) =>
      var counted := if RowFree(w) then Some(CountSeats(Seen(w, t), w.schedule)) else None;
      w.(open := w.open[t := w.open[t].(recounted := true, counted := counted, base := w.seats)])
    case Commit(t) =>
      World(w.schedule, Seen(w, t), if w.open[t].counted.Some? then w.open[t].counted.value else w.counters, w.open - {t})
    case Rollback(t) => w.(open := w.open - {t})
  }

  ghost predicate IsRun(w: World, steps: seq<Step>, end: World)
    decreases |steps|
  {
    if steps == [] then end == w else Enabled(w, steps[0]) && IsRun(Next(w, steps[0]), steps[1..], end)
  }

  ghost predicate Agree(w: World) {
    w.counters == CountSeats(w.seats, w.schedule)
  }

  /* ---- what every interleaving keeps ---- */

  ghost predicate NoneWithdrawn(seats: SeatTable) {
    forall k :: k in seats ==> seats[k].state != Cancelled
  }

  function Total(c: Counts): nat {
    c.available + c.locked + c.booked
  }

  ghost predicate TxSound(w: World, t: int)
    requires t in w.open
  {
    var x := w.open[t];
    && x.writes.Keys <= w.seats.Keys && NoneWithdrawn(x.writes)
    && (x.recounted ==> x.base.Keys == w.seats.Keys && NoneWithdrawn(x.base))
    && (x.counted.Some? ==> x.recounted && x.counted.value == CountSeats(x.base + x.writes, w.schedule))
  }

  /** Locks exclude: no seat is written twice, no schedule row is held twice. */
  ghost predicate Exclusive(w: World) {
    && (forall t, u :: t in w.open && u in w.open && w.open[t].counted.Some? && w.open[u].counted.Some? ==> t == u)
    && forall t, u, k :: t in w.open && u in w.open && k in w.open[t].writes && k in w.open[u].writes ==> t == u
  }

  ghost predicate Inv(w: World) {
    && NoneWithdrawn(w.seats) && Total(w.counters) == |SeatsOf(w.seats, w.schedule)|
    && Exclusive(w) && forall t :: t in w.open ==> TxSound(w, t)
  }

  lemma CountsAddUp(seats: SeatTable, schedule: int)
    requires NoneWithdrawn(seats)
    ensures Total(CountSeats(seats, schedule)) == |SeatsOf(seats, schedule)|
  {
    CountersPartition(seats, schedule);
    assert InState(seats, schedule, Cancelled) == {};
  }

  lemma SameSeats(a: SeatTable, b: SeatTable, schedule: int)
    requires a.Keys == b.Keys
    ensures SeatsOf(a, schedule) == SeatsOf(b, schedule)
  {
  }

  lemma CommitKeepsTotal(w: World, t: int)
    requires Inv(w) && Enabled(w, Commit(t))
    ensures var w' := Next(w, Commit(t)); NoneWithdrawn(w'.seats) && w'.seats.Keys == w.seats.Keys && Total(w'.counters) == |SeatsOf(w'.seats, w.schedule)|
  {
    hide CountSeats, Total, SeatsOf;
    assert TxSound(w, t);
    var x := w.open[t];
    SameSeats(w.seats, Seen(w, t), w.schedule);
    if x.counted.Some? {
      CountsAddUp(x.base + x.writes, w.schedule);
      SameSeats(x.base + x.writes, w.seats, w.schedule);
    }
  }

  lemma OthersStaySound(w: World, w': World, u: int)
    requires u in w.open && TxSound(w, u) && u in w'.open && w'.open[u] == w.open[u]
    requires w'.seats.Keys == w.seats.Keys && w'.schedule == w.schedule
    ensures TxSound(w', u)
  {
  }

  lemma StepKeepsSound(w: World, s: Step, u: int)
    requires Inv(w) && Enabled(w, s) && u in Next(w, s).open && Next(w, s).seats.Keys == w.seats.Keys
    ensures TxSound(Next(w, s), u)
  {
    hide CountSeats, Total, SeatsOf, Exclusive;
    if u in w.open {
      assert TxSound(w, u);
      if Next(w, s).open[u] == w.open[u] {
        OthersStaySound(w, Next(w, s), u);
      }
    }
  }

  lemma StepKeepsExclusive(w: World, s: Step)
    requires Exclusive(w) && Enabled(w, s)
    ensures Exclusive(Next(w, s))
  {
    hide CountSeats;
  }

  lemma StepKeepsInv(w: World, s: Step)
    requires Inv(w) && Enabled(w, s)
    ensures Inv(Next(w, s))
  {
    StepKeepsExclusive(w, s);
    if s.Commit? {
      CommitKeepsTotal(w, s.t);
    }
    hide CountSeats, Total, SeatsOf, Exclusive, TxSound, NoneWithdrawn;
    forall u | u in Next(w, s).open ensures TxSound(Next(w, s), u) {
      StepKeepsSound(w, s, u);
    }
  }

  /** Stale or not, in every interleaving the counters of a schedule add up to its seats. */
  lemma {:induction false} CountersAlwaysAddUp(w: World, steps: seq<Step>, end: World)
    requires Inv(w) && IsRun(w, steps, end)
    ensures Inv(end) && Total(end.counters) == |SeatsOf(end.seats, end.schedule)|
    decreases |steps|
  {
    hide Total, SeatsOf, Exclusive, TxSound, NoneWithdrawn, Next;
    if steps != [] {
      StepKeepsInv(w, steps[0]);
      CountersAlwaysAddUp(Next(w, steps[0]), steps[1..], end);
    }
  }

  /* ---- when they agree again ---- */

  /** Other transactions are at work, but none commits. */
  predicate NoOtherCommit(steps: seq<Step>, t: int) {
    forall i :: 0 <= i < |steps| ==> !steps[i].Commit? && steps[i].t != t
  }

  lemma {:induction false} HolderKeepsView(w: World, steps: seq<Step>, end: World, t: int)
    requires IsRun(w, steps, end) && NoOtherCommit(steps, t) && t in w.open
    ensures t in end.open && end.open[t] == w.open[t] && end.seats == w.seats && end.schedule == w.schedule
    decreases |steps|
  {
    hide CountSeats;
    if steps != [] {
      assert !steps[0].Commit? && steps[0].t != t;
      assert forall i :: 0 <= i < |steps[1..]| ==> steps[1..][i] == steps[i + 1];
      HolderKeepsView(Next(w, steps[0]), steps[1..], end, t);
    }
  }

  /**
   A transaction that finds the schedule row free and commits before any other does leaves counters that agree, whatever
   drift earlier ones left behind and whatever else is under way.
   */
  lemma UndisturbedCommitAgrees(w: World, t: int, steps: seq<Step>, end: World)
    requires Inv(w) && Enabled(w, Recounted(t)) && RowFree(w) && IsRun(Next(w, Recounted(t)), steps, end) && NoOtherCommit(steps, t)
    ensures Enabled(end, Commit(t)) && Agree(Next(end, Commit(t)))
  {
    hide CountSeats;
    HolderKeepsView(Next(w, Recounted(t)), steps, end, t);
  }

  /* ---- how they drift ---- */

  /** Two requests for different seats of one schedule: the second recounts while the first holds the schedule row. */
  function DriftSteps(t: int, u: int, j: SeatKey, k: SeatKey, a: SeatRow, b: SeatRow): seq<Step> {
    [Open(t), Open(u), Write(t, j, a), Write(u, k, b), Recounted(t), Recounted(u), Commit(t), Commit(u)]
  }

  lemma InStateAfter(seats: SeatTable, schedule: int, k: SeatKey, row: SeatRow)
    requires k in seats && k.schedule == schedule && seats[k].state == Available && row.state != Available
    ensures CountSeats(seats[k := row], schedule).available == CountSeats(seats, schedule).available - 1
  {
    assert InState(seats[k := row], schedule, Available) == InState(seats, schedule, Available) - {k};
  }

  /** Whatever the seats: both commit, nothing is open any more, and one occupied seat is still counted as available. */
  lemma CountersCanDrift(w: World, t: int, u: int, j: SeatKey, k: SeatKey, a: SeatRow, b: SeatRow) returns (end: World)
    requires Agree(w) && w.open == map[] && t != u && j != k && j in w.seats && k in w.seats
    requires j.schedule == w.schedule && k.schedule == w.schedule && w.seats[j].state == Available && w.seats[k].state == Available
    requires a.state in {Locked, Booked} && b.state in {Locked, Booked}
    ensures IsRun(w, DriftSteps(t, u, j, k, a, b), end) && end.open == map[] && !Agree(end)
    ensures end.counters.available == CountSeats(end.seats, end.schedule).available + 1
  {
    DriftedCounts(w, j, k, a, b);
    assert Agree(w) ==> w.counters == CountSeats(w.seats, w.schedule);
    hide *;
    var w2 := w.(open := Both(t, Working(map[]), u, Working(map[])));
    var w4 := w2.(open := Both(t, Working(map[j := a]), u, Working(map[k := b])));
    var c := CountSeats(w.seats[j := a], w.schedule);
    var w6 := w2.(open := Both(t, Finished(map[j := a], Some(c), w.seats), u, Finished(map[k := b], None, w.seats)));
    end := World(w.schedule, w.seats[j := a][k := b], c, map[]);
    Opening(w, t, u, w2);
    Writing(w2, t, u, j, k, a, b, w4);
    Recounting(w4, t, u, j, k, a, b, w6);
    Committing(w6, t, u, j, k, a, b, end);
    EightSteps(w, DriftSteps(t, u, j, k, a, b), t, u, j, k, a, b, w2, w4, w6, end);
    Drifted(end);
  }

  function Both(t: int, x: Tx, u: int, y: Tx): map<int, Tx> {
    map[t := x, u := y]
  }

  function Working(writes: SeatTable): Tx {
    Tx(writes, false, None, map[])
  }

  function Finished(writes: SeatTable, counted: Option<Counts>, base: SeatTable): Tx {
    Tx(writes, true, counted, base)
  }

  lemma DriftedCounts(w: World, j: SeatKey, k: SeatKey, a: SeatRow, b: SeatRow)
    requires j != k && j in w.seats && k in w.seats && j.schedule == w.schedule && k.schedule == w.schedule
    requires w.seats[j].state == Available && w.seats[k].state == Available && a.state in {Locked, Booked} && b.state in {Locked, Booked}
    ensures CountSeats(w.seats[j := a], w.schedule).available == CountSeats(w.seats[j := a][k := b], w.schedule).available + 1
    ensures a.state != Cancelled && b.state != Cancelled
  {
    InStateAfter(w.seats[j := a], w.schedule, k, b);
    hide CountSeats;
  }

  lemma Drifted(w: World)
    ensures w.counters.available == CountSeats(w.seats, w.schedule).available + 1 ==> !Agree(w)
  {
    hide CountSeats;
  }

  lemma EightSteps(w: World, steps: seq<Step>, t: int, u: int, j: SeatKey, k: SeatKey, a: SeatRow, b: SeatRow, w2: World, w4: World, w6: World, end: World)
    requires steps == DriftSteps(t, u, j, k, a, b)
    requires TwoSteps(w, Open(t), Open(u), w2) && TwoSteps(w2, Write(t, j, a), Write(u, k, b), w4)
    requires TwoSteps(w4, Recounted(t), Recounted(u), w6) && TwoSteps(w6, Commit(t), Commit(u), end)
    ensures IsRun(w, steps, end)
  {
    assert IsRun(end, [], end);
    assert steps == [Open(t), Open(u)]
      + ([Write(t, j, a), Write(u, k, b)] + ([Recounted(t), Recounted(u)] + ([Commit(t), Commit(u)] + [])));
    hide *;
    Two(w6, Commit(t), Commit(u), [], end, end);
    Two(w4, Recounted(t), Recounted(u), [Commit(t), Commit(u)] + [], w6, end);
    Two(w2, Write(t, j, a), Write(u, k, b), [Recounted(t), Recounted(u)] + ([Commit(t), Commit(u)] + []), w4, end);
    Two(w, Open(t), Open(u),
        [Write(t, j, a), Write(u, k, b)] + ([Recounted(t), Recounted(u)] + ([Commit(t), Commit(u)] + [])), w2, end);
  }

  ghost predicate TwoSteps(w: World, a: Step, b: Step, end: World) {
    Enabled(w, a) && Enabled(Next(w, a), b) && end == Next(Next(w, a), b)
  }

  lemma Two(w: World, a: Step, b: Step, rest: seq<Step>, mid: World, end: World)
    requires TwoSteps(w, a, b, mid) && IsRun(mid, rest, end)
    ensures IsRun(w, [a, b] + rest, end)
  {
    hide Next, Enabled;
    assert ([a, b] + rest)[1..] == [b] + rest && ([b] + rest)[1..] == rest;
    assert IsRun(Next(w, a), [b] + rest, end);
  }

  lemma Opening(w: World, t: int, u: int, end: World)
    requires w.open == map[] && t != u
    requires end == w.(open := Both(t, Working(map[]), u, Working(map[])))
    ensures TwoSteps(w, Open(t), Open(u), end)
  {
  }

  lemma Writing(w: World, t: int, u: int, j: SeatKey, k: SeatKey, a: SeatRow, b: SeatRow, end: World)
    requires t != u && j != k && j in w.seats && k in w.seats && j.schedule == w.schedule && k.schedule == w.schedule
    requires a.state != Cancelled && b.state != Cancelled
    requires w.open == Both(t, Working(map[]), u, Working(map[]))
    requires end == w.(open := Both(t, Working(map[j := a]), u, Working(map[k := b])))
    ensures TwoSteps(w, Write(t, j, a), Write(u, k, b), end)
  {
    var w1 := Next(w, Write(t, j, a));
    assert w1.open[t].writes == map[j := a];
  }

  lemma Recounting(w: World, t: int, u: int, j: SeatKey, k: SeatKey, a: SeatRow, b: SeatRow, end: World)
    requires t != u && w.open == Both(t, Working(map[j := a]), u, Working(map[k := b]))
    requires end == w.(open := Both(t, Finished(map[j := a], Some(CountSeats(w.seats[j := a], w.schedule)), w.seats),
                                    u, Finished(map[k := b], None, w.seats)))
    ensures TwoSteps(w, Recounted(t), Recounted(u), end)
  {
    hide CountSeats;
    assert Seen(w, t) == w.seats[j := a];
    var w1 := Next(w, Recounted(t));
    assert w1.open[t].counted.Some?;
    assert !RowFree(w1);
  }

  lemma Committing(w: World, t: int, u: int, j: SeatKey, k: SeatKey, a: SeatRow, b: SeatRow, end: World)
    requires t != u
    requires w.open == Both(t, Finished(map[j := a], Some(end.counters), w.seats), u, Finished(map[k := b], None, w.seats))
    requires end == World(w.schedule, w.seats[j := a][k := b], end.counters, map[])
    ensures TwoSteps(w, Commit(t), Commit(u), end)
  {
    hide CountSeats;
    assert Seen(w, t) == w.seats[j := a];
    var w1 := Next(w, Commit(t));
    assert Seen(w1, u) == w.seats[j := a][k := b];
    assert w1.open - {u} == map[];
  }
}
