/**
 The transactional outbox: several workers claim pending events with `FOR UPDATE SKIP LOCKED`, publish them to
 Kafka outside the transaction and then mark each one published, pending again with a later retry time, or failed.
 */
module Outbox {
  import opened IntSets
  import opened Options

  datatype Status = Pending | Processing | Published | Failed

  datatype Event = Event(status: Status, retryCount: nat, nextRetryAt: Option<int>) {
    predicate Due(now: int) {
      status == Pending && (nextRetryAt.None? || nextRetryAt.value <= now)
    }
  }

  const BATCH_SIZE := 100
  const MAX_JITTER := 5

  function Pow2(n: nat): nat {
    if n == 0 then 1 else 2 * Pow2(n - 1)
  }

  function Min(a: int, b: int): int {
    if a < b then a else b
  }

  /** Seconds before the retry that follows the `k`-th failure, without the jitter. */
  function BackoffBase(k: nat): nat {
    Min(300, Pow2(Min(k, 8)))
  }

  lemma {:induction false} Pow2Grows(m: nat, n: nat)
    requires m <= n
    ensures Pow2(m) <= Pow2(n)
    decreases n
  {
    if m < n {
      Pow2Grows(m, n - 1);
    }
  }

  /** The delays never shrink, and the cap of 300 seconds is never what limits them: the exponent is capped first. */
  lemma BackoffIsMonotone(j: nat, k: nat)
    requires j <= k
    ensures BackoffBase(j) <= BackoffBase(k) <= 256
    ensures BackoffBase(k) == Pow2(Min(k, 8))
    ensures BackoffBase(k) == 256 <==> k >= 8
  {
    Pow2Grows(Min(j, 8), Min(k, 8));
    Pow2Grows(Min(k, 8), 8);
    assert Pow2(8) == 256 && Pow2(7) == 128 by { assert Pow2(4) == 16; }
    if k < 8 {
      Pow2Grows(k, 7);
    }
  }

  /** One second before the first retry, twice as long before each further one up to the eighth. */
  lemma BackoffDoubles(k: nat)
    ensures BackoffBase(0) == 1
    ensures k < 8 ==> BackoffBase(k + 1) == 2 * BackoffBase(k)
    ensures k >= 8 ==> BackoffBase(k + 1) == BackoffBase(k)
  {
    BackoffIsMonotone(k, k + 1);
    BackoffIsMonotone(0, k);
  }

  /** What the retry handler makes of an event whose publication failed. */
  function AfterFailure(e: Event, now: int, jitter: nat, maxRetries: int): Event {
    if e.retryCount + 1 >= maxRetries then e.(status := Failed)
    else e.(status := Pending, retryCount := e.retryCount + 1,
            nextRetryAt := Some(now + BackoffBase(e.retryCount + 1) + jitter))
  }

  /** How the handling of one claimed event ended. */
  datatype Outcome =
    | Delivered
    | SendFailed(now: int, jitter: nat)
    | MarkFailed(now: int, jitter: nat) // sent, but the transaction that marks it published failed

  function Settled(e: Event, o: Outcome, maxRetries: int): Event {
    match o
    case Delivered => e.(status := Published)
    case SendFailed(now, jitter) => AfterFailure(e, now, jitter, maxRetries)
    case MarkFailed(now, jitter) => AfterFailure(e, now, jitter, maxRetries)
  }

  /**
   An event is PUBLISHED exactly when its marking was committed, so one that was sent but not marked goes back like one that
   was not sent. The last permitted failure makes it FAILED; every other puts it off by the backoff and the jitter.
   */
  lemma SettledMeans(e: Event, o: Outcome, maxRetries: int)
    ensures var (e', last) := (Settled(e, o, maxRetries), e.retryCount + 1 >= maxRetries);
      && (e'.status == Published <==> o == Delivered)
      && (e'.status == Failed <==> o != Delivered && last)
      && (e'.status == Pending <==> o != Delivered && !last)
      && (e'.status != Pending ==> e'.retryCount == e.retryCount && e'.nextRetryAt == e.nextRetryAt)
      && (e'.status == Pending ==>
            && e'.retryCount == e.retryCount + 1
            && (forall t :: e'.Due(t) <==> t >= o.now + BackoffBase(e.retryCount + 1) + o.jitter))
  {
    hide BackoffBase;
    if !o.Delivered? && e.retryCount + 1 < maxRetries {
      assert Settled(e, o, maxRetries).nextRetryAt == Some(o.now + BackoffBase(e.retryCount + 1) + o.jitter);
    }
  }

  type Table = map<int, Event>

  function MarkedProcessing(events: Table, ids: seq<int>): Table {
    map i | i in events :: if i in ids then events[i].(status := Processing) else events[i]
  }

  /** The rows that one worker takes: due, not locked by others, lowest ids first, at most a batch. */
  ghost predicate IsBatch(events: Table, locked: set<int>, now: int, ids: seq<int>) {
    && |ids| <= BATCH_SIZE
    && (forall i, j :: 0 <= i < j < |ids| ==> ids[i] < ids[j])
    && (forall i :: i in ids ==> i in events && events[i].Due(now) && i !in locked)
    && (forall i :: i in events && events[i].Due(now) && i !in locked && i !in ids
          ==> |ids| == BATCH_SIZE && ids[|ids| - 1] < i)
  }

  /** A worker takes up to 100 rows, and leaves a row that it could have taken only when it has 100 lower ones. */
  lemma BatchTakesAllItCan(events: Table, locked: set<int>, now: int, ids: seq<int>, i: int)
    requires IsBatch(events, locked, now, ids) && i in events && i !in locked && events[i].Due(now)
    ensures i in ids || (|ids| == 100 && forall j :: j in ids ==> j < i)
  {
    if i !in ids {
      forall j | j in ids ensures j < i {
        var k :| 0 <= k < |ids| && ids[k] == j;
        assert k < |ids| - 1 ==> ids[k] < ids[|ids| - 1];
      }
    }
  }

  function SettledAll(events: Table, ids: seq<int>, outcomes: seq<Outcome>, maxRetries: int): Table
    requires |ids| == |outcomes| && forall i :: i in ids ==> i in events
  {
    if ids == [] then events
    else
      var k := |ids| - 1;
      var prior := SettledAll(events, ids[..k], outcomes[..k], maxRetries);
      if ids[k] in prior then prior[ids[k] := Settled(prior[ids[k]], outcomes[k], maxRetries)] else prior
  }

  class OutboxWorker {
    var events: Table
    const maxRetries: int

    constructor (table: Table, maxRetries: int)
      ensures events == table && this.maxRetries == maxRetries
    {
      events := table;
      this.maxRetries := maxRetries;
    }

    /** The bulk update that ends the claiming transaction. */
    method BulkMarkProcessing(ids: seq<int>)
      modifies this
      ensures events == MarkedProcessing(old(events), ids)
    {
      events := map i | i in events :: if i in ids then events[i].(status := Processing) else events[i];
    }

    method MarkPublished(id: int)
      requires id in events
      modifies this
      ensures events == old(events)[id := old(events)[id].(status := Published)]
    {
      events := events[id := events[id].(status := Published)];
    }

    /** The delay after a failure lies in `[base, base + 5]`; the last permitted failure ends the event instead. */
    method Handle(id: int, now: int, jitter: nat)
      requires id in events && jitter <= MAX_JITTER
      modifies this
      ensures events == old(events)[id := AfterFailure(old(events)[id], now, jitter, maxRetries)]
      ensures events[id].status == Pending ==>
        && events[id].retryCount < maxRetries
        && events[id].nextRetryAt.Some?
        && BackoffBase(events[id].retryCount) <= events[id].nextRetryAt.value - now <= BackoffBase(events[id].retryCount) + MAX_JITTER
    {
      var e := events[id];
      var retryCountAfter := e.retryCount + 1;
      if retryCountAfter >= maxRetries {
        events := events[id := e.(status := Failed)];
      } else {
        var base := BackoffBase(retryCountAfter);
        events := events[id := e.(status := Pending, retryCount := retryCountAfter, nextRetryAt := Some(now + base + jitter))];
      }
    }

    /** The loop over one claimed batch; the outcomes are what Kafka and the marking transactions did. */
    method ProcessBatch(ids: seq<int>, outcomes: seq<Outcome>)
      requires |ids| == |outcomes| && forall i :: i in ids ==> i in events
      requires forall o :: o in outcomes && !o.Delivered? ==> o.jitter <= MAX_JITTER
      modifies this
      ensures events == SettledAll(old(events), ids, outcomes, maxRetries)
      ensures events.Keys == old(events).Keys
    {
      var i := 0;
      while i < |ids|
        invariant i <= |ids| && events == SettledAll(old(events), ids[..i], outcomes[..i], maxRetries)
        invariant events.Keys == old(events).Keys
      {
        var id := ids[i];
        assert ids[..i + 1][..i] == ids[..i] && outcomes[..i + 1][..i] == outcomes[..i];
        match outcomes[i] {
          case Delivered => MarkPublished(id);
          case SendFailed(now, jitter) => Handle(id, now, jitter);
          case MarkFailed(now, jitter) => Handle(id, now, jitter);
        }
        i := i + 1;
      }
      assert ids[..i] == ids && outcomes[..i] == outcomes;
    }
  }

  /** In a batch without repetitions every event is settled once, by its own outcome, and no other event is touched. */
  lemma {:induction false} SettledAllAt(events: Table, ids: seq<int>, outcomes: seq<Outcome>, maxRetries: int, id: int)
    requires |ids| == |outcomes| && Distinct(ids) && forall i :: i in ids ==> i in events
    requires id in events
    ensures var after := SettledAll(events, ids, outcomes, maxRetries);
      && after.Keys == events.Keys
      && (id !in ids ==> after[id] == events[id])
      && (forall k :: 0 <= k < |ids| && ids[k] == id ==> after[id] == Settled(events[id], outcomes[k], maxRetries))
  {
    if ids != [] {
      var k := |ids| - 1;
      SettledAllAt(events, ids[..k], outcomes[..k], maxRetries, id);
      if ids[k] == id {
        assert id !in ids[..k];
      }
    }
  }
}
