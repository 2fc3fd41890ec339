/**
 From the inventory to the search index: when the train's document shows for a schedule the counters that the schedule
 row holds now. The outbox publishes retries after newer events, so it depends on which message of the schedule came last.
 */
module SearchFreshness {
  import opened Options
  import opened Inventory
  import opened InventoryInvariants
  import opened OutboxOrder
  import Outbox
  import opened OutboxProtocol
  import opened ScheduleIndex

  /** The dispatcher drops events whose train or schedule id is zero. */
  predicate Relevant(e: AvailabilityEvent, train: int) {
    e.train == train && train != 0 && e.schedule != 0
  }

  function Message(e: AvailabilityEvent): (m: Entry)
    ensures IdOf(m) == Some(Shown(Number(e.schedule)))
  {
    map[ID := Number(e.schedule), "available" := Number(e.available), "locked" := Number(e.locked), "booked" := Number(e.booked)]
  }

  /** The messages of one train's document for a sequence of events, in the order of that sequence. */
  function Messages(events: seq<AvailabilityEvent>, train: int): (ms: seq<Entry>)
    ensures Addressed(ms)
  {
    if events == [] then []
    else
      var k := |events| - 1;
      Messages(events[..k], train) + (if Relevant(events[k], train) then [Message(events[k])] else [])
  }

  /** An event of this train whose ids are not zero adds its message, any other adds nothing. */
  lemma OneMoreEvent(events: seq<AvailabilityEvent>, e: AvailabilityEvent, train: int)
    ensures Messages(events + [e], train) ==
      Messages(events, train) + (if e.train == train && train != 0 && e.schedule != 0 then [Message(e)] else [])
  {
    assert (events + [e])[..|events|] == events;
    hide Message, Addressed;
  }

  lemma DigitsSplit(n: nat)
    ensures |Digits(n)| > 0 && Digits(n)[|Digits(n)| - 1] == ("0123456789")[n % 10]
    ensures n < 10 <==> |Digits(n)| == 1
    ensures n >= 10 ==> Digits(n)[..|Digits(n)| - 1] == Digits(n / 10)
  {
  }

  lemma {:induction false} DigitsInjective(a: nat, b: nat)
    requires Digits(a) == Digits(b)
    ensures a == b
    decreases a + b
  {
    hide Digits;
    DigitsSplit(a);
    DigitsSplit(b);
    assert a % 10 == b % 10;
    if a >= 10 {
      DigitsInjective(a / 10, b / 10);
    }
  }

  lemma {:induction false} DigitsUnsigned(n: nat)
    ensures Digits(n) != [] && Digits(n)[0] != '-'
  {
    if n >= 10 {
      DigitsUnsigned(n / 10);
    }
  }

  /** Two schedules never share an entry: the decimal text of an id determines it. */
  lemma ShownInjective(a: int, b: int)
    requires Shown(Number(a)) == Shown(Number(b))
    ensures a == b
  {
    var (x, y) := (if a < 0 then -a else a, if b < 0 then -b else b);
    DigitsUnsigned(x);
    DigitsUnsigned(y);
    assert a < 0 ==> Shown(Number(a))[0] == '-' && Shown(Number(a))[1..] == Digits(x);
    assert b < 0 ==> Shown(Number(b))[0] == '-' && Shown(Number(b))[1..] == Digits(y);
    DigitsInjective(x, y);
  }

  ghost predicate Shows(e: Entry, available: int, locked: int, booked: int) {
    && "available" in e && e["available"] == Number(available)
    && "locked" in e && e["locked"] == Number(locked)
    && "booked" in e && e["booked"] == Number(booked)
  }

  lemma {:induction false} LastEventIsWritten(events: seq<AvailabilityEvent>, schedule: int, train: int)
    requires LastEvent(events, schedule).Some? && Relevant(LastEvent(events, schedule).value, train)
    ensures var e := LastEvent(events, schedule).value;
      Shows(Overlay(Messages(events, train), Shown(Number(schedule))), e.available, e.locked, e.booked)
  {
    hide Digits, Shown, Overlay;
    var k := |events| - 1;
    var (e, id, ms) := (events[k], Shown(Number(schedule)), Messages(events, train));
    if Relevant(e, train) {
      assert ms[..|ms| - 1] == Messages(events[..k], train);
      OverlayLast(ms, |ms| - 1, id);
      OverlayNothing(id);
    } else {
      assert ms == Messages(events[..k], train);
    }
    if e.schedule != schedule {
      LastEventIsWritten(events[..k], schedule, train);
      if Shown(Number(e.schedule)) == id {
        ShownInjective(e.schedule, schedule);
      }
    }
  }

  lemma {:induction false} UnmentionedIsUnwritten(events: seq<AvailabilityEvent>, schedule: int, train: int)
    requires LastEvent(events, schedule).None?
    ensures Overlay(Messages(events, train), Shown(Number(schedule))) == map[]
  {
    hide Digits, Shown, Overlay;
    var id := Shown(Number(schedule));
    OverlayNothing(id);
    if events == [] {
      assert Messages(events, train) == [];
    } else {
      var k := |events| - 1;
      var (e, ms) := (events[k], Messages(events, train));
      UnmentionedIsUnwritten(events[..k], schedule, train);
      if Relevant(e, train) {
        assert ms[..|ms| - 1] == Messages(events[..k], train);
        OverlayLast(ms, |ms| - 1, id);
        if Shown(Number(e.schedule)) == id {
          ShownInjective(e.schedule, schedule);
        }
      } else {
        assert ms == Messages(events[..k], train);
      }
    }
  }

  predicate SameCounters(a: AvailabilityEvent, b: AvailabilityEvent) {
    a.available == b.available && a.locked == b.locked && a.booked == b.booked
  }

  /** The entry of a schedule after any messages for the train were delivered to its document. */
  function ShownEntry(d: Document, delivered: seq<AvailabilityEvent>, schedule: int, train: int): Entry {
    Lookup(Process(d, Messages(delivered, train)), Shown(Number(schedule)))
  }

  /**
   Whatever messages of the train arrive, in whatever order, repeated or lost: the document shows the counters of the
   schedule row exactly when the last message of the schedule carries the counters of its newest event. Without any
   message of the schedule the entry stays as it was.
   */
  lemma IndexShowsCurrentIff(db: Db, schedule: int, d: Document, delivered: seq<AvailabilityEvent>)
    requires Invariant(db) && UniqueIds(d) && LastEvent(db.events, schedule).Some?
    requires schedule != 0 && db.schedules[schedule].train != 0
    requires forall e :: e in delivered ==> e.train == db.schedules[schedule].train
    ensures var r := db.schedules[schedule];
      var last := LastEvent(delivered, schedule);
      Shows(ShownEntry(d, delivered, schedule, r.train), r.available, r.locked, r.booked)
      <==> if last.Some? then SameCounters(last.value, LastEvent(db.events, schedule).value)
           else Shows(Lookup(d, Shown(Number(schedule))), r.available, r.locked, r.booked)
  {
    hide Digits, Shown, Overlay, Process, Lookup, UniqueIds, Messages;
    var r := db.schedules[schedule];
    var id := Shown(Number(schedule));
    ProcessRefinesOverlay(d, Messages(delivered, r.train), id);
    if LastEvent(delivered, schedule).Some? {
      LastEventOccurs(delivered, schedule);
      LastEventIsWritten(delivered, schedule, r.train);
    } else {
      UnmentionedIsUnwritten(delivered, schedule, r.train);
      OverlayNothing(id);
    }
  }

  lemma {:induction false} LastEventOccurs(events: seq<AvailabilityEvent>, schedule: int)
    requires LastEvent(events, schedule).Some?
    ensures LastEvent(events, schedule).value in events && LastEvent(events, schedule).value.schedule == schedule
  {
    if events[|events| - 1].schedule != schedule {
      LastEventOccurs(events[..|events| - 1], schedule);
    }
  }

  lemma {:induction false} LastEventAt(events: seq<AvailabilityEvent>, schedule: int, n: nat)
    requires n < |events| && events[n].schedule == schedule && forall m :: n < m < |events| ==> events[m].schedule != schedule
    ensures LastEvent(events, schedule) == Some(events[n])
  {
    if n < |events| - 1 {
      LastEventAt(events[..|events| - 1], schedule, n);
    }
  }

  predicate InTable(events: seq<AvailabilityEvent>, picks: seq<nat>) {
    forall k :: 0 <= k < |picks| ==> picks[k] < |events|
  }

  /** The events that were delivered, by their positions in the outbox table. */
  function Picked(events: seq<AvailabilityEvent>, picks: seq<nat>): (delivered: seq<AvailabilityEvent>)
    requires InTable(events, picks)
    ensures |delivered| == |picks| && forall k :: 0 <= k < |picks| ==> delivered[k] == events[picks[k]]
  {
    seq(|picks|, k requires 0 <= k < |picks| => events[picks[k]])
  }

  /** The newest event of the schedule was delivered, and after no event of the schedule an older one was. */
  ghost predicate NewestLast(events: seq<AvailabilityEvent>, picks: seq<nat>, schedule: int)
    requires InTable(events, picks)
  {
    && (exists k :: 0 <= k < |picks| && Newest(events, picks[k], schedule))
    && (forall j, k :: 0 <= j < k < |picks| && events[picks[j]].schedule == schedule && events[picks[k]].schedule == schedule
          ==> picks[j] <= picks[k])
  }

  ghost predicate Newest(events: seq<AvailabilityEvent>, n: nat, schedule: int) {
    n < |events| && events[n].schedule == schedule && forall m :: n < m < |events| ==> events[m].schedule != schedule
  }

  /** Then the last message of the schedule is the newest event. */
  lemma {:induction false} NewestIsLast(events: seq<AvailabilityEvent>, picks: seq<nat>, schedule: int)
    requires InTable(events, picks) && NewestLast(events, picks, schedule)
    ensures LastEvent(Picked(events, picks), schedule) == LastEvent(events, schedule) && LastEvent(events, schedule).Some?
    decreases |picks|
  {
    var k :| 0 <= k < |picks| && Newest(events, picks[k], schedule);
    LastEventAt(events, schedule, picks[k]);
    var m := |picks| - 1;
    var delivered := Picked(events, picks);
    if delivered[m].schedule == schedule {
      assert picks[k] <= picks[m];
      assert picks[k] == picks[m];
    } else {
      var fewer := picks[..m];
      assert fewer[k] == picks[k];
      assert delivered[..m] == Picked(events, fewer);
      NewestIsLast(events, fewer, schedule);
    }
  }

  /** Enough for a fresh index: the newest event of the schedule arrives, and no older one of it after a newer one. */
  lemma IndexShowsCurrentIfNewestLast(db: Db, schedule: int, d: Document, picks: seq<nat>)
    requires Invariant(db) && UniqueIds(d) && schedule in db.schedules && schedule != 0 && db.schedules[schedule].train != 0
    requires InTable(db.events, picks)
    requires forall k :: 0 <= k < |picks| ==> db.events[picks[k]].train == db.schedules[schedule].train
    requires NewestLast(db.events, picks, schedule)
    ensures var r := db.schedules[schedule];
      Shows(ShownEntry(d, Picked(db.events, picks), schedule, r.train), r.available, r.locked, r.booked)
  {
    hide Invariant, UniqueIds, NewestLast, ShownEntry, Shows;
    var delivered := Picked(db.events, picks);
    forall e | e in delivered ensures e.train == db.schedules[schedule].train {
      var k :| 0 <= k < |delivered| && delivered[k] == e;
    }
    NewestIsLast(db.events, picks, schedule);
    IndexShowsCurrentIff(db, schedule, d, delivered);
  }

  /**
   One failed publication is enough to leave the index stale although every event was published and consumed: rows 1 and 2
   of the outbox hold the events at positions 0 and 1.
   */
  lemma RetryLeavesIndexStale(db: Db, schedule: int, d: Document, maxRetries: int) returns (end: World)
    requires Invariant(db) && UniqueIds(d) && maxRetries >= 2 && schedule in db.schedules
    requires schedule != 0 && db.schedules[schedule].train != 0
    requires |db.events| == 2 && forall e :: e in db.events ==> e.schedule == schedule && e.train == db.schedules[schedule].train
    requires !SameCounters(db.events[0], db.events[1])
    ensures Initial(Start(maxRetries)) && Inv(Start(maxRetries)) && IsRun(Start(maxRetries), STEPS, end)
    ensures forall i :: i in end.events ==> end.events[i].status == Outbox.Published
    ensures end.events.Keys == {1, 2} && end.log == [2, 1]
    ensures var r := db.schedules[schedule];
      !Shows(ShownEntry(d, Picked(db.events, [1, 0]), schedule, r.train), r.available, r.locked, r.booked)
  {
    hide Invariant, UniqueIds, ShownEntry, Shows, Inv, IsRun, Initial;
    end := RetriesReorder(maxRetries);
    var delivered := Picked(db.events, [1, 0]);
    assert delivered == [db.events[1], db.events[0]];
    LastEventAt(delivered, schedule, 1);
    LastEventAt(db.events, schedule, 1);
    IndexShowsCurrentIff(db, schedule, d, delivered);
  }

  /** In table order, which `CalmRunsKeepOrder` gives, the consumer may go back as often as it likes. */
  lemma RewindsKeepIndexCurrent(db: Db, schedule: int, d: Document, offsets: seq<nat>)
    requires Invariant(db) && UniqueIds(d) && LastEvent(db.events, schedule).Some?
    requires schedule != 0 && db.schedules[schedule].train != 0
    requires var ms := Messages(db.events, db.schedules[schedule].train);
      Redelivery(offsets, |ms|) && offsets != [] && offsets[|offsets| - 1] == |ms| - 1
    ensures var r := db.schedules[schedule];
      var shown := Lookup(Process(d, Delivered(Messages(db.events, r.train), offsets)), Shown(Number(schedule)));
      Shows(shown, r.available, r.locked, r.booked)
  {
    hide Digits, Shown, Overlay, Process, Delivered, Lookup, UniqueIds, Messages;
    var r := db.schedules[schedule];
    var (ms, id) := (Messages(db.events, r.train), Shown(Number(schedule)));
    LastEventIsWritten(db.events, schedule, r.train);
    RedeliveryIsHarmless(d, ms, offsets);
    ProcessRefinesOverlay(d, ms, id);
  }
}
