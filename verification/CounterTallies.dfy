/**
 How far the counters of a schedule are off, followed commit by commit: each transaction shifts the counts by its own tally,
 and what one commit writes misses exactly the tallies that were committed since its recount.
 */
module CounterTallies {
  import opened CounterDrift
  import opened Inventory
  import opened Options

  /** A change of the three counters. */
  datatype Shift = Shift(available: int, locked: int, booked: int)

  const NO_SHIFT := Shift(0, 0, 0)

  function Plus(a: Shift, b: Shift): Shift {
    Shift(a.available + b.available, a.locked + b.locked, a.booked + b.booked)
  }

  function Minus(a: Counts, b: Counts): Shift {
    Shift(a.available - b.available, a.locked - b.locked, a.booked - b.booked)
  }

  /* ---- the tally of a transaction ---- */

  function Entered(seats: SeatTable, writes: SeatTable, schedule: int, st: SeatState): set<SeatKey> {
    set k | k in writes && k in seats && k.schedule == schedule && writes[k].state == st && seats[k].state != st
  }

  function Left(seats: SeatTable, writes: SeatTable, schedule: int, st: SeatState): set<SeatKey> {
    set k | k in writes && k in seats && k.schedule == schedule && seats[k].state == st && writes[k].state != st
  }

  /** The written seats that enter a status less those that leave it. */
  function Tally(seats: SeatTable, writes: SeatTable, schedule: int): Shift {
    Shift(|Entered(seats, writes, schedule, Available)| - |Left(seats, writes, schedule, Available)|,
          |Entered(seats, writes, schedule, Locked)| - |Left(seats, writes, schedule, Locked)|,
          |Entered(seats, writes, schedule, Booked)| - |Left(seats, writes, schedule, Booked)|)
  }

  lemma Exchanged<T>(before: set<T>, entered: set<T>, left: set<T>)
    requires left <= before && entered !! before
    ensures |(before - left) + entered| == |before| + |entered| - |left|
  {
    assert before == (before - left) + left;
  }

  lemma TallyOfState(seats: SeatTable, writes: SeatTable, schedule: int, st: SeatState)
    requires writes.Keys <= seats.Keys
    ensures |InState(seats + writes, schedule, st)|
      == |InState(seats, schedule, st)| + |Entered(seats, writes, schedule, st)| - |Left(seats, writes, schedule, st)|
  {
    var (before, entered, left) := (InState(seats, schedule, st), Entered(seats, writes, schedule, st), Left(seats, writes, schedule, st));
    InStateExchanged(seats, writes, schedule, st);
    hide InState, Entered, Left;
    Exchanged(before, entered, left);
  }

  lemma InStateExchanged(seats: SeatTable, writes: SeatTable, schedule: int, st: SeatState)
    requires writes.Keys <= seats.Keys
    ensures var (before, entered, left) := (InState(seats, schedule, st), Entered(seats, writes, schedule, st), Left(seats, writes, schedule, st));
      left <= before && entered !! before && InState(seats + writes, schedule, st) == (before - left) + entered
  {
  }

  /** The tally of what a transaction wrote is what its commit shifts the counts by. */
  lemma TallyShifts(seats: SeatTable, writes: SeatTable, schedule: int)
    requires writes.Keys <= seats.Keys
    ensures Minus(CountSeats(seats + writes, schedule), CountSeats(seats, schedule)) == Tally(seats, writes, schedule)
  {
    TallyOfState(seats, writes, schedule, Available);
    TallyOfState(seats, writes, schedule, Locked);
    TallyOfState(seats, writes, schedule, Booked);
    hide InState, Entered, Left;
  }

  /** It depends only on the seats that were written. */
  lemma TallyOfWritten(a: SeatTable, b: SeatTable, writes: SeatTable, schedule: int)
    requires writes.Keys <= a.Keys && writes.Keys <= b.Keys && forall k :: k in writes ==> a[k] == b[k]
    ensures Tally(a, writes, schedule) == Tally(b, writes, schedule)
  {
    forall st: SeatState ensures Entered(a, writes, schedule, st) == Entered(b, writes, schedule, st)
                                 && Left(a, writes, schedule, st) == Left(b, writes, schedule, st) {
    }
  }

  /* ---- the tallies of a run ---- */

  function TallyAt(w: World, t: int): Shift
    requires t in w.open
  {
    Tally(w.seats, w.open[t].writes, w.schedule)
  }

  /** The sum of the tallies that are committed in a run. */
  function Committed(w: World, steps: seq<Step>): Shift
    decreases |steps|
  {
    if steps == [] || !Enabled(w, steps[0]) then NO_SHIFT
    else Plus(if steps[0].Commit? then TallyAt(w, steps[0].t) else NO_SHIFT, Committed(Next(w, steps[0]), steps[1..]))
  }

  lemma StepShifts(w: World, s: Step)
    requires Inv(w) && Enabled(w, s)
    ensures Minus(CountSeats(Next(w, s).seats, w.schedule), CountSeats(w.seats, w.schedule))
      == if s.Commit? then TallyAt(w, s.t) else NO_SHIFT
    ensures Next(w, s).schedule == w.schedule
  {
    if s.Commit? {
      assert TxSound(w, s.t);
      TallyShifts(w.seats, w.open[s.t].writes, w.schedule);
    }
    hide CountSeats, Tally;
  }

  lemma ShiftsAddUp(a: Counts, b: Counts, c: Counts)
    ensures Minus(c, a) == Plus(Minus(b, a), Minus(c, b))
    ensures Minus(a, a) == NO_SHIFT
  {
  }

  /** Counts move by the committed tallies and by nothing else. */
  lemma {:induction false} CountsFollowTallies(w: World, steps: seq<Step>, end: World)
    requires Inv(w) && IsRun(w, steps, end)
    ensures end.schedule == w.schedule
    ensures Minus(CountSeats(end.seats, w.schedule), CountSeats(w.seats, w.schedule)) == Committed(w, steps)
    decreases |steps|
  {
    hide Next, Enabled, CountSeats, Inv, TallyAt, Minus, Plus;
    if steps == [] {
      ShiftsAddUp(CountSeats(w.seats, w.schedule), CountSeats(w.seats, w.schedule), CountSeats(w.seats, w.schedule));
    } else {
      var w1 := Next(w, steps[0]);
      StepShifts(w, steps[0]);
      StepKeepsInv(w, steps[0]);
      CountsFollowTallies(w1, steps[1..], end);
      ShiftsAddUp(CountSeats(w.seats, w.schedule), CountSeats(w1.seats, w.schedule), CountSeats(end.seats, w.schedule));
    }
  }

  /* ---- a commit that held the schedule row ---- */

  /** A transaction that waits between its recount and its commit. */
  predicate Without(steps: seq<Step>, t: int) {
    forall i :: 0 <= i < |steps| ==> steps[i].t != t
  }

  /** What it wrote is as it was: seats that it holds are written by no one else. */
  ghost predicate Holds(w: World, t: int, x: Tx) {
    && t in w.open && w.open[t] == x && x.writes.Keys <= w.seats.Keys && x.writes.Keys <= x.base.Keys
    && forall k :: k in x.writes ==> w.seats[k] == x.base[k]
  }

  lemma StepKeepsHold(w: World, s: Step, t: int, x: Tx)
    requires Inv(w) && Enabled(w, s) && s.t != t && Holds(w, t, x)
    ensures Holds(Next(w, s), t, x)
  {
    hide CountSeats, Total, SeatsOf, TxSound, NoneWithdrawn;
  }

  lemma {:induction false} RunKeepsHold(w: World, steps: seq<Step>, end: World, t: int, x: Tx)
    requires Inv(w) && IsRun(w, steps, end) && Without(steps, t) && Holds(w, t, x)
    ensures Holds(end, t, x) && Inv(end)
    decreases |steps|
  {
    hide Next, Enabled, Inv, Holds;
    if steps != [] {
      assert steps[0].t != t;
      StepKeepsHold(w, steps[0], t, x);
      StepKeepsInv(w, steps[0]);
      assert forall i :: 0 <= i < |steps[1..]| ==> steps[1..][i] == steps[i + 1];
      RunKeepsHold(Next(w, steps[0]), steps[1..], end, t, x);
    }
  }

  lemma RecountedHolds(w: World, t: int)
    requires Inv(w) && Enabled(w, Recounted(t)) && RowFree(w)
    ensures var w1 := Next(w, Recounted(t));
      && t in w1.open && Holds(w1, t, w1.open[t]) && w1.seats == w.seats && w1.schedule == w.schedule
      && w1.open[t].recounted && w1.open[t].base == w.seats
      && w1.open[t].counted == Some(CountSeats(w.seats + w1.open[t].writes, w.schedule))
  {
    assert TxSound(w, t);
    hide CountSeats;
  }

  lemma SameByShift(seats: Counts, later: Counts, counted: Counts, now: Counts)
    requires Minus(counted, seats) == Minus(now, later)
    ensures counted == now <==> Minus(later, seats) == NO_SHIFT
  {
  }

  lemma HolderWrites(w: World, t: int, x: Tx)
    requires Holds(w, t, x) && x.recounted && x.counted.Some?
    ensures Enabled(w, Commit(t)) && (Agree(Next(w, Commit(t))) <==> x.counted.value == CountSeats(w.seats + x.writes, w.schedule))
  {
    hide CountSeats;
  }

  lemma SameTally(w: World, t: int, x: Tx)
    requires Holds(w, t, x)
    ensures Minus(CountSeats(x.base + x.writes, w.schedule), CountSeats(x.base, w.schedule))
      == Minus(CountSeats(w.seats + x.writes, w.schedule), CountSeats(w.seats, w.schedule))
  {
    TallyShifts(w.seats, x.writes, w.schedule);
    TallyShifts(x.base, x.writes, w.schedule);
    TallyOfWritten(w.seats, x.base, x.writes, w.schedule);
    hide CountSeats, Tally, Minus;
  }

  /**
   A transaction that found the schedule row free leaves counters that agree if and only if the tallies committed between
   its recount and its own commit sum to zero.
   */
  lemma CommitAgreesIff(w: World, t: int, steps: seq<Step>, end: World)
    requires Inv(w) && Enabled(w, Recounted(t)) && RowFree(w) && IsRun(Next(w, Recounted(t)), steps, end) && Without(steps, t)
    ensures Enabled(end, Commit(t))
    ensures Agree(Next(end, Commit(t))) <==> Committed(Next(w, Recounted(t)), steps) == NO_SHIFT
  {
    var w1 := Next(w, Recounted(t));
    var x := w1.open[t];
    RecountedHolds(w, t);
    hide *;
    StepKeepsInv(w, Recounted(t));
    RunKeepsHold(w1, steps, end, t, x);
    CountsFollowTallies(w1, steps, end);
    HolderWrites(end, t, x);
    SameTally(end, t, x);
    SameByShift(CountSeats(x.base, w.schedule), CountSeats(end.seats, w.schedule), x.counted.value, CountSeats(end.seats + x.writes, w.schedule));
  }

  /* ---- a commit that had to pass over the row ---- */

  /** How far the counters are off. */
  function Drift(w: World): Shift {
    Minus(w.counters, CountSeats(w.seats, w.schedule))
  }

  lemma AgreeIsNoDrift(w: World)
    ensures Agree(w) <==> Drift(w) == NO_SHIFT
  {
    hide CountSeats;
  }

  /** One that had to pass over the schedule row: its whole tally is missing, and counters agree only if they were off by it. */
  lemma PassedOverCommitAgreesIff(w: World, t: int)
    requires Inv(w) && Enabled(w, Commit(t)) && w.open[t].counted.None?
    ensures Plus(Drift(Next(w, Commit(t))), TallyAt(w, t)) == Drift(w)
    ensures Agree(Next(w, Commit(t))) <==> Drift(w) == TallyAt(w, t)
  {
    var w' := Next(w, Commit(t));
    StepShifts(w, Commit(t));
    AgreeIsNoDrift(w');
    assert w'.counters == w.counters && w'.schedule == w.schedule;
    hide *;
    DriftMoves(w.counters, CountSeats(w.seats, w.schedule), CountSeats(w'.seats, w.schedule), TallyAt(w, t));
    DriftIs(w);
    DriftIs(w');
  }

  lemma DriftMoves(counters: Counts, before: Counts, after: Counts, tally: Shift)
    requires Minus(after, before) == tally
    ensures Plus(Minus(counters, after), tally) == Minus(counters, before)
    ensures Minus(counters, after) == NO_SHIFT <==> Minus(counters, before) == tally
  {
  }

  lemma DriftIs(w: World)
    ensures Drift(w) == Minus(w.counters, CountSeats(w.seats, w.schedule))
  {
    hide CountSeats, Minus;
  }

  /* ---- runs whose counters are never off ---- */

  /** Every commit that changes the counts had found the schedule row free. */
  ghost predicate HoldersCount(w: World, steps: seq<Step>)
    decreases |steps|
  {
    steps != [] ==>
      && Enabled(w, steps[0]) && HoldersCount(Next(w, steps[0]), steps[1..])
      && (steps[0].Commit? && TallyAt(w, steps[0].t) != NO_SHIFT ==> w.open[steps[0].t].counted.Some?)
  }

  ghost predicate AlwaysAgree(w: World, steps: seq<Step>)
    decreases |steps|
  {
    Agree(w) && (steps != [] ==> Enabled(w, steps[0]) && AlwaysAgree(Next(w, steps[0]), steps[1..]))
  }

  /** The one transaction that holds the schedule row has counted what is still there. */
  ghost predicate Current(w: World, t: int)
    requires t in w.open
  {
    var x := w.open[t];
    x.counted.Some? ==> Holds(w, t, x) && CountSeats(x.base, w.schedule) == CountSeats(w.seats, w.schedule)
  }

  ghost predicate AllCurrent(w: World) {
    forall t :: t in w.open ==> Current(w, t)
  }

  lemma HolderCommits(w: World, t: int)
    requires Inv(w) && Enabled(w, Commit(t)) && w.open[t].counted.Some? && Current(w, t)
    ensures Agree(Next(w, Commit(t)))
  {
    var x := w.open[t];
    assert TxSound(w, t);
    HolderWrites(w, t, x);
    SameTally(w, t, x);
    hide CountSeats, Inv, Holds;
  }

  lemma OnlyOneHolds(w: World, t: int, u: int)
    requires Exclusive(w) && t in w.open && u in w.open && w.open[t].counted.Some? && w.open[u].counted.Some?
    ensures t == u
  {
  }

  /** A step of another transaction that leaves the counts alone, or has the row itself. */
  lemma StaysCurrent(w: World, s: Step, t: int)
    requires Inv(w) && Enabled(w, s) && t in w.open && Current(w, t) && s.t != t
    requires s.Commit? ==> w.open[s.t].counted.Some? || TallyAt(w, s.t) == NO_SHIFT
    ensures Current(Next(w, s), t)
  {
    if w.open[t].counted.Some? {
      StepKeepsHold(w, s, t, w.open[t]);
      StepShifts(w, s);
      if s.Commit? && w.open[s.t].counted.Some? {
        OnlyOneHolds(w, t, s.t);
      }
    }
    hide CountSeats, Tally, Holds, Inv;
  }

  lemma OwnStepIsCurrent(w: World, s: Step)
    requires Inv(w) && Enabled(w, s) && s.t in Next(w, s).open
    ensures Current(Next(w, s), s.t)
  {
    if s.Recounted? && RowFree(w) {
      RecountedHolds(w, s.t);
    }
    if s.Write? {
      assert TxSound(w, s.t);
    }
    hide CountSeats, Holds;
  }

  lemma StepKeepsCurrent(w: World, s: Step)
    requires Inv(w) && Enabled(w, s) && AllCurrent(w)
    requires s.Commit? ==> w.open[s.t].counted.Some? || TallyAt(w, s.t) == NO_SHIFT
    ensures AllCurrent(Next(w, s))
  {
    hide Inv, Current, TallyAt;
    forall t | t in Next(w, s).open ensures Current(Next(w, s), t) {
      if t == s.t {
        OwnStepIsCurrent(w, s);
      } else {
        StaysCurrent(w, s, t);
      }
    }
  }

  /** The step of a run: while counters agree, only a commit that changes the counts without the row puts them off. */
  lemma StepAgreesIff(w: World, s: Step)
    requires Inv(w) && Enabled(w, s) && AllCurrent(w) && Agree(w)
    ensures Agree(Next(w, s)) <==> (s.Commit? && TallyAt(w, s.t) != NO_SHIFT ==> w.open[s.t].counted.Some?)
    ensures Agree(Next(w, s)) ==> AllCurrent(Next(w, s))
  {
    AgreeIsNoDrift(w);
    if s.Commit? {
      if w.open[s.t].counted.Some? {
        assert Current(w, s.t);
        HolderCommits(w, s.t);
      } else {
        PassedOverCommitAgreesIff(w, s.t);
      }
    }
    hide CountSeats, Inv, AllCurrent, TallyAt;
    if Agree(Next(w, s)) {
      StepKeepsCurrent(w, s);
    }
  }

  /**
   From a world whose counters agree and in which nobody has counted yet, the counters agree in every state of a run if
   and only if each commit that changes the counts had found the schedule row free. Nothing more is needed: no other
   commit of that kind can then fall between a recount and its commit.
   */
  lemma {:induction false} RunAgreesIff(w: World, steps: seq<Step>, end: World)
    requires Inv(w) && AllCurrent(w) && Agree(w) && IsRun(w, steps, end)
    ensures AlwaysAgree(w, steps) <==> HoldersCount(w, steps)
    ensures HoldersCount(w, steps) ==> Agree(end)
    decreases |steps|
  {
    hide Next, Enabled, Inv, AllCurrent, Agree, TallyAt;
    if steps != [] {
      StepAgreesIff(w, steps[0]);
      StepKeepsInv(w, steps[0]);
      if Agree(Next(w, steps[0])) {
        RunAgreesIff(Next(w, steps[0]), steps[1..], end);
      }
    }
  }

  /** A quiet world is such a start. */
  lemma QuietIsCurrent(w: World)
    requires w.open == map[]
    ensures AllCurrent(w)
  {
  }
}
