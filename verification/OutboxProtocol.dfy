/** Any number of outbox workers, interleaved step by step over one table and one clock. */
module OutboxProtocol {
  import opened IntSets
  import opened Options
  import opened Outbox

  /** Where a worker stands in its loop. The first event of a batch is the one being handled. */
  datatype Phase =
    | Idle
    | Selected(batch: seq<int>)   // the claiming transaction is open, its rows are locked
    | Working(batch: seq<int>)    // marked PROCESSING and committed
    | Sent(batch: seq<int>)       // Kafka has acknowledged the first event, it is not marked yet

  /**
   The program keeps only the table, the clock and what each worker holds. The other fields are history: who claimed
   an event, which events Kafka has acknowledged but the table does not show yet, how often each was tried and sent, and
   the order in which Kafka got them.
   */
  datatype World = World(
    events: Table, workers: map<int, Phase>, now: int, maxRetries: int,
    owner: map<int, int>, acked: set<int>, attempts: map<int, nat>, sends: map<int, nat>, failedAt: map<int, int>,
    log: seq<int>)

  datatype Step =
    | Add(id: int)
    | Tick(seconds: nat)
    | Select(w: int, ids: seq<int>)
    | Mark(w: int)
    | SendOk(w: int)
    | SendFails(w: int, jitter: nat)
    | MarkOk(w: int)
    | MarkFails(w: int, jitter: nat)

  function BatchOf(p: Phase): seq<int> {
    match p
    case Idle => []
    case Selected(batch) => batch
    case Working(batch) => batch
    case Sent(batch) => batch
  }

  /** The rows that `SKIP LOCKED` passes over. */
  ghost function LockedRows(s: World): set<int> {
    set w, i | w in s.workers && s.workers[w].Selected? && i in s.workers[w].batch :: i
  }

  function Rest(batch: seq<int>): Phase
    requires batch != []
  {
    if |batch| == 1 then Idle else Working(batch[1..])
  }

  ghost predicate Enabled(s: World, t: Step) {
    match t
    case Add(id) => id !in s.events
    case Tick(_) => true
    case Select(w, ids) => w in s.workers && s.workers[w].Idle? && ids != [] && IsBatch(s.events, LockedRows(s), s.now, ids)
    case Mark(w) => w in s.workers && s.workers[w].Selected?
    case SendOk(w) => w in s.workers && s.workers[w].Working?
    case SendFails(w, jitter) => w in s.workers && s.workers[w].Working? && jitter <= MAX_JITTER
    case MarkOk(w) => w in s.workers && s.workers[w].Sent?
    case MarkFails(w, jitter) => w in s.workers && s.workers[w].Sent? && jitter <= MAX_JITTER
  }

  function Bump(m: map<int, nat>, i: int): map<int, nat> {
    m[i := (if i in m then m[i] else 0) + 1]
  }

  /** The head of a worker's batch is settled by an outcome and the worker moves on. */
  ghost function SettleHead(s: World, w: int, o: Outcome): World
    requires w in s.workers && BatchOf(s.workers[w]) != [] && BatchOf(s.workers[w])[0] in s.events
  {
    var batch := BatchOf(s.workers[w]);
    s.(events := s.events[batch[0] := Settled(s.events[batch[0]], o, s.maxRetries)],
       workers := s.workers[w := Rest(batch)],
       owner := s.owner - {batch[0]}, acked := s.acked - {batch[0]},
       failedAt := if o.Delivered? then s.failedAt else s.failedAt[batch[0] := s.now])
  }

  ghost function Next(s: World, t: Step): World
    requires Placed(s) && Enabled(s, t)
  {
    match t
    case Add(id) =>
      s.(events := s.events[id := Event(Pending, 0, None)], attempts := s.attempts[id := 0], sends := s.sends[id := 0])
    case Tick(seconds) => s.(now := s.now + seconds)
    case Select(w, ids) => s.(workers := s.workers[w := Selected(ids)], owner := s.owner + (map i | i in ids :: w))
    case Mark(w) =>
      var ids := s.workers[w].batch;
      s.(events := MarkedProcessing(s.events, ids), workers := s.workers[w := Working(ids)])
    case SendOk(w) =>
      var batch := s.workers[w].batch;
      s.(attempts := Bump(s.attempts, batch[0]), sends := Bump(s.sends, batch[0]), acked := s.acked + {batch[0]},
         log := s.log + [batch[0]], workers := s.workers[w := Sent(batch)])
    case SendFails(w, jitter) =>
      SettleHead(s.(attempts := Bump(s.attempts, s.workers[w].batch[0])), w, SendFailed(s.now, jitter))
    case MarkOk(w) => SettleHead(s, w, Delivered)
    case MarkFails(w, jitter) => SettleHead(s, w, MarkFailed(s.now, jitter))
  }

  /* ---- the invariant ---- */

  ghost predicate Holds(s: World, w: int) {
    && w in s.workers
    && (!s.workers[w].Idle? ==> BatchOf(s.workers[w]) != [] && BatchOf(s.workers[w])[0] in s.events)
    && Distinct(BatchOf(s.workers[w]))
    && forall i :: i in BatchOf(s.workers[w]) ==> i in s.events && i in s.owner && s.owner[i] == w
  }

  ghost predicate Placed(s: World) {
    forall w :: w in s.workers ==> Holds(s, w)
  }

  /** The status of an event says where it is: unclaimed, claimed by an open transaction, or in flight. */
  ghost predicate StatusOf(s: World, i: int)
    requires i in s.events
  {
    if i !in s.owner then s.events[i].status != Processing && i !in s.acked
    else
      && s.owner[i] in s.workers
      && var p := s.workers[s.owner[i]];
      && i in BatchOf(p)
      && (if p.Selected? then s.events[i].Due(s.now) else s.events[i].status == Processing)
      && (i in s.acked <==> p.Sent? && p.batch[0] == i)
  }

  /** Attempts, completed sends and waiting times of one event. */
  ghost predicate HistoryOf(s: World, i: int)
    requires i in s.events
  {
    var e := s.events[i];
    && i in s.attempts && i in s.sends
    && (e.retryCount == 0 || e.retryCount < s.maxRetries)
    && (e.status == Published ==> s.sends[i] > 0 && s.attempts[i] == e.retryCount + 1)
    && (e.status == Failed ==> s.attempts[i] == e.retryCount + 1 >= s.maxRetries)
    && (e.status == Pending || e.status == Processing ==> s.attempts[i] == e.retryCount + (if i in s.acked then 1 else 0))
    && (i in s.acked ==> s.sends[i] > 0)
    && WaitOf(s, i)
  }

  /** A retry waits for the backoff of its number, and no event is in flight before its time. */
  ghost predicate WaitOf(s: World, i: int)
    requires i in s.events
  {
    var e := s.events[i];
    && (e.retryCount == 0 <==> e.nextRetryAt.None?)
    && (e.nextRetryAt.Some? && (e.status == Pending || e.status == Processing) ==>
          && i in s.failedAt
          && BackoffBase(e.retryCount) <= e.nextRetryAt.value - s.failedAt[i] <= BackoffBase(e.retryCount) + MAX_JITTER
          && (e.status == Processing ==> e.nextRetryAt.value <= s.now))
  }

  ghost predicate Sound(s: World, i: int) {
    i in s.events && StatusOf(s, i) && HistoryOf(s, i)
  }

  ghost predicate Inv(s: World) {
    Placed(s) && s.owner.Keys + s.acked <= s.events.Keys && forall i :: i in s.events ==> Sound(s, i)
  }

  /* ---- every step keeps it ---- */

  /** What each settling step needs to know about the head of the batch, before and after a send attempt. */
  ghost predicate Settling(s: World, w: int, o: Outcome, attempted: World) {
    && Inv(s) && w in s.workers && !s.workers[w].Idle?
    && (o.Delivered? || o.MarkFailed? ==> s.workers[w].Sent? && attempted == s)
    && (o.SendFailed? ==>
          s.workers[w].Working? && s.workers[w].batch != [] && attempted == s.(attempts := Bump(s.attempts, s.workers[w].batch[0])))
    && (!o.Delivered? ==> o.now == s.now && o.jitter <= MAX_JITTER)
  }

  lemma RestKeepsPlace(s: World, w: int, o: Outcome, attempted: World, v: int)
    requires Settling(s, w, o, attempted) && v in s.workers
    ensures Holds(s, w) && Holds(SettleHead(attempted, w, o), v)
  {
    assert Holds(s, w) && Holds(s, v);
  }

  lemma SettleKeepsStatus(s: World, w: int, o: Outcome, attempted: World, i: int)
    requires Settling(s, w, o, attempted) && i in s.events
    ensures Holds(s, w) && i in SettleHead(attempted, w, o).events && StatusOf(SettleHead(attempted, w, o), i)
  {
    hide HistoryOf, WaitOf, BackoffBase;
    assert Holds(s, w) && Sound(s, i);
  }

  lemma SettledHistory(s: World, w: int, o: Outcome, attempted: World)
    requires Settling(s, w, o, attempted)
    ensures Holds(s, w) && HistoryOf(SettleHead(attempted, w, o), BatchOf(s.workers[w])[0])
  {
    hide BackoffBase;
    assert Holds(s, w);
    assert Sound(s, BatchOf(s.workers[w])[0]);
  }

  lemma OtherHistory(s: World, w: int, o: Outcome, attempted: World, i: int)
    requires Settling(s, w, o, attempted) && i in s.events && i != BatchOf(s.workers[w])[0]
    ensures Holds(s, w) && i in SettleHead(attempted, w, o).events && HistoryOf(SettleHead(attempted, w, o), i)
  {
    hide BackoffBase, AfterFailure;
    assert Holds(s, w) && Sound(s, i);
  }

  lemma SettleKeepsInv(s: World, w: int, o: Outcome, attempted: World)
    requires Settling(s, w, o, attempted)
    ensures Holds(s, w) && Inv(SettleHead(attempted, w, o))
  {
    hide StatusOf, HistoryOf, BackoffBase, AfterFailure;
    assert Holds(s, w);
    var s' := SettleHead(attempted, w, o);
    forall v | v in s'.workers ensures Holds(s', v) {
      RestKeepsPlace(s, w, o, attempted, v);
    }
    forall i | i in s'.events ensures Sound(s', i) {
      SettleKeepsStatus(s, w, o, attempted, i);
      if i == BatchOf(s.workers[w])[0] {
        SettledHistory(s, w, o, attempted);
      } else {
        OtherHistory(s, w, o, attempted, i);
      }
    }
  }

  lemma AddKeepsInv(s: World, id: int)
    requires Inv(s) && Enabled(s, Add(id))
    ensures Inv(Next(s, Add(id)))
  {
    hide BackoffBase;
    var s' := Next(s, Add(id));
    forall w | w in s'.workers ensures Holds(s', w) {
      assert Holds(s, w);
    }
    forall i | i in s'.events ensures Sound(s', i) {
      assert i != id ==> Sound(s, i);
    }
  }

  lemma TickKeepsInv(s: World, seconds: nat)
    requires Inv(s)
    ensures Inv(Next(s, Tick(seconds)))
  {
    hide BackoffBase;
    var s' := Next(s, Tick(seconds));
    forall w | w in s'.workers ensures Holds(s', w) {
      assert Holds(s, w);
    }
    forall i | i in s'.events ensures Sound(s', i) {
      assert Sound(s, i);
    }
  }

  /** A claimed event that is still pending is locked by the open transaction that claimed it. */
  lemma ClaimedPendingIsLocked(s: World, i: int)
    requires Inv(s) && i in s.owner && s.events[i].status == Pending
    ensures i in LockedRows(s)
  {
    hide HistoryOf;
    assert Sound(s, i);
    var w := s.owner[i];
    assert w in s.workers && s.workers[w].Selected? && i in s.workers[w].batch;
  }

  lemma SelectKeepsInv(s: World, w: int, ids: seq<int>)
    requires Inv(s) && Enabled(s, Select(w, ids))
    ensures Inv(Next(s, Select(w, ids)))
  {
    hide HistoryOf, LockedRows;
    var s' := Next(s, Select(w, ids));
    forall i | i in ids ensures i !in s.owner {
      if i in s.owner {
        ClaimedPendingIsLocked(s, i);
      }
    }
    forall v | v in s'.workers ensures Holds(s', v) {
      assert Holds(s, v);
    }
    forall i | i in s'.events ensures Sound(s', i) {
      assert Sound(s, i);
      SameHistory(s, s', i);
    }
  }

  lemma SameHistory(s: World, s': World, i: int)
    requires Sound(s, i) && i in s'.events && (i in s'.acked <==> i in s.acked)
    requires s' == s.(events := s'.events, workers := s'.workers, owner := s'.owner, acked := s'.acked)
    requires s'.events[i] == s.events[i] || (s.events[i].Due(s.now) && s'.events[i] == s.events[i].(status := Processing))
    ensures HistoryOf(s', i)
  {
    hide BackoffBase;
  }

  lemma MarkKeepsInv(s: World, w: int)
    requires Inv(s) && Enabled(s, Mark(w))
    ensures Inv(Next(s, Mark(w)))
  {
    hide HistoryOf;
    var s' := Next(s, Mark(w));
    var ids := s.workers[w].batch;
    assert Holds(s, w);
    forall v | v in s'.workers ensures Holds(s', v) {
      assert Holds(s, v);
    }
    forall i | i in s'.events ensures Sound(s', i) {
      assert Sound(s, i);
      SameHistory(s, s', i);
    }
  }

  lemma SendKeepsInv(s: World, w: int)
    requires Inv(s) && Enabled(s, SendOk(w))
    ensures Inv(Next(s, SendOk(w)))
  {
    hide BackoffBase, WaitOf;
    var s' := Next(s, SendOk(w));
    var b := s.workers[w].batch[0];
    assert Holds(s, w);
    forall v | v in s'.workers ensures Holds(s', v) {
      assert Holds(s, v);
    }
    forall i | i in s'.events ensures Sound(s', i) {
      assert Sound(s, i);
      assert WaitOf(s', i) by { SameWait(s, s', i); }
    }
  }

  lemma SameWait(s: World, s': World, i: int)
    requires i in s.events && WaitOf(s, i) && s'.events == s.events && s'.failedAt == s.failedAt && s'.now == s.now
    ensures WaitOf(s', i)
  {
  }

  lemma StepKeepsInv(s: World, t: Step)
    requires Inv(s) && Enabled(s, t)
    ensures Inv(Next(s, t))
  {
    hide Holds, Sound;
    match t
    case Add(id) => AddKeepsInv(s, id);
    case Tick(seconds) => TickKeepsInv(s, seconds);
    case Select(w, ids) => SelectKeepsInv(s, w, ids);
    case Mark(w) => MarkKeepsInv(s, w);
    case SendOk(w) => SendKeepsInv(s, w);
    case SendFails(w, jitter) =>
      HeadKnown(s, w);
      SettleKeepsInv(s, w, SendFailed(s.now, jitter), s.(attempts := Bump(s.attempts, s.workers[w].batch[0])));
    case MarkOk(w) => SettleKeepsInv(s, w, Delivered, s);
    case MarkFails(w, jitter) => SettleKeepsInv(s, w, MarkFailed(s.now, jitter), s);
  }

  lemma HeadKnown(s: World, w: int)
    requires Inv(s) && w in s.workers && !s.workers[w].Idle?
    ensures BatchOf(s.workers[w]) != [] && BatchOf(s.workers[w])[0] in s.events
  {
    assert Holds(s, w);
  }

  /* ---- whole runs ---- */

  ghost predicate IsRun(s: World, steps: seq<Step>, end: World)
    requires Inv(s)
    decreases |steps|
  {
    if steps == [] then end == s
    else Enabled(s, steps[0]) && (StepKeepsInv(s, steps[0]); IsRun(Next(s, steps[0]), steps[1..], end))
  }

  ghost predicate Initial(s: World) {
    && s.events == map[] && s.owner == map[] && s.acked == {} && s.log == []
    && forall w :: w in s.workers ==> s.workers[w].Idle?
  }

  lemma {:induction false} RunKeepsInv(s: World, steps: seq<Step>, end: World)
    requires Inv(s) && IsRun(s, steps, end)
    ensures Inv(end)
    decreases |steps|
  {
    hide Holds, Sound;
    if steps != [] {
      StepKeepsInv(s, steps[0]);
      RunKeepsInv(Next(s, steps[0]), steps[1..], end);
    }
  }

  lemma InitialInv(s: World)
    requires Initial(s)
    ensures Inv(s)
  {
  }

  ghost predicate Exclusive(s: World) {
    forall w, v, i :: w in s.workers && v in s.workers && w != v && i in BatchOf(s.workers[w]) ==> i !in BatchOf(s.workers[v])
  }

  ghost predicate InFlightIsProcessing(s: World) {
    forall w, i :: w in s.workers && i in BatchOf(s.workers[w]) && !s.workers[w].Selected? ==>
      i in s.events && s.events[i].status == Processing
  }

  /**
   Over every interleaving: no event is in two batches, an event being published is PROCESSING, a PUBLISHED event was
   sent at least once, and no event is tried more than `maxRetries` times.
   */
  lemma ClaimsAreExclusive(s: World, steps: seq<Step>, end: World)
    requires Initial(s) && (InitialInv(s); IsRun(s, steps, end))
    ensures Exclusive(end) && InFlightIsProcessing(end)
    ensures forall i :: i in end.events && end.events[i].status == Published ==> i in end.sends && end.sends[i] > 0
    ensures forall i :: i in end.events ==> i in end.attempts && end.attempts[i] <= (if end.maxRetries < 1 then 1 else end.maxRetries)
  {
    hide BackoffBase, WaitOf;
    InitialInv(s);
    RunKeepsInv(s, steps, end);
    forall w | w in end.workers ensures Holds(end, w) {}
    forall i | i in end.events ensures Sound(end, i) {}
  }

  /** No retry is sent before its delay has passed since the failure it follows. */
  lemma RetriesWait(s: World, steps: seq<Step>, end: World, w: int)
    requires Initial(s) && (InitialInv(s); IsRun(s, steps, end))
    requires w in end.workers && end.workers[w].Working?
    ensures HeadOf(end, w) in end.events
    ensures var (e, i) := (end.events[HeadOf(end, w)], HeadOf(end, w));
      e.retryCount > 0 ==>
        && i in end.failedAt && end.now >= end.failedAt[i] + BackoffBase(e.retryCount)
        && e.nextRetryAt.Some? && BackoffBase(e.retryCount) <= e.nextRetryAt.value - end.failedAt[i] <= BackoffBase(e.retryCount) + 5
  {
    hide BackoffBase;
    InitialInv(s);
    RunKeepsInv(s, steps, end);
    assert Holds(end, w);
    assert Sound(end, end.workers[w].batch[0]);
  }

  ghost function HeadOf(s: World, w: int): int
    requires w in s.workers
  {
    if BatchOf(s.workers[w]) == [] then 0 else BatchOf(s.workers[w])[0]
  }

  /* ---- termination ---- */

  predicate Finished(e: Event) {
    e.status == Published || e.status == Failed
  }

  /** The steps in which a worker does something for some event. */
  predicate Productive(t: Step) {
    !t.Add? && !t.Tick?
  }

  function Stage(p: Phase, i: int): nat {
    match p
    case Idle => 3
    case Selected(_) => 2
    case Working(_) => 1
    case Sent(batch) => if batch != [] && batch[0] == i then 0 else 1
  }

  /** Attempts left, then the distance to the next one: (maxRetries - retryCount, stage) in one number. */
  ghost function Rank(s: World, i: int): nat
    requires i in s.events
  {
    var e := s.events[i];
    if Finished(e) then 0
    else
      var left := if e.retryCount + 1 >= s.maxRetries then 0 else s.maxRetries - e.retryCount - 1;
      4 * left + 1 + if i in s.owner && s.owner[i] in s.workers then Stage(s.workers[s.owner[i]], i) else 3
  }

  /** The event that a productive step certainly brings closer to its end. */
  function Touched(s: World, t: Step): int
    requires Productive(t)
  {
    var batch := if t.Select? then t.ids else if t.w in s.workers then BatchOf(s.workers[t.w]) else [];
    if batch == [] then 0 else batch[0]
  }

  lemma SettleLowersRank(s: World, w: int, o: Outcome, attempted: World, i: int)
    requires Settling(s, w, o, attempted) && i in s.events
    ensures Holds(s, w) && i in SettleHead(attempted, w, o).events
    ensures Rank(SettleHead(attempted, w, o), i) <= Rank(s, i)
    ensures i == BatchOf(s.workers[w])[0] ==> Rank(SettleHead(attempted, w, o), i) < Rank(s, i)
  {
    hide BackoffBase, WaitOf;
    assert Holds(s, w) && Sound(s, i);
  }

  lemma ClaimLowersRank(s: World, t: Step, i: int)
    requires Inv(s) && Enabled(s, t) && (t.Select? || t.Mark? || t.SendOk?) && i in s.events
    ensures i in Next(s, t).events && Rank(Next(s, t), i) <= Rank(s, i)
    ensures i == Touched(s, t) ==> Rank(Next(s, t), i) < Rank(s, i)
  {
    hide BackoffBase, WaitOf;
    assert Sound(s, i);
    assert Holds(s, t.w);
    if t.Select? && i in t.ids && i in s.owner {
      ClaimedPendingIsLocked(s, i);
    }
  }

  lemma StepLowersRank(s: World, t: Step, i: int)
    requires Inv(s) && Enabled(s, t) && Productive(t) && i in s.events
    ensures i in Next(s, t).events && Rank(Next(s, t), i) <= Rank(s, i)
    ensures i == Touched(s, t) ==> Rank(Next(s, t), i) < Rank(s, i)
  {
    hide Sound, Rank;
    match t
    case Select(_, _) => ClaimLowersRank(s, t, i);
    case Mark(_) => ClaimLowersRank(s, t, i);
    case SendOk(_) => ClaimLowersRank(s, t, i);
    case SendFails(w, jitter) =>
      HeadKnown(s, w);
      SettleLowersRank(s, w, SendFailed(s.now, jitter), s.(attempts := Bump(s.attempts, s.workers[w].batch[0])), i);
    case MarkOk(w) => SettleLowersRank(s, w, Delivered, s, i);
    case MarkFails(w, jitter) => SettleLowersRank(s, w, MarkFailed(s.now, jitter), s, i);
  }

  lemma TouchedExists(s: World, t: Step)
    requires Inv(s) && Enabled(s, t) && Productive(t)
    ensures Touched(s, t) in s.events && Next(s, t).events.Keys == s.events.Keys
  {
    hide Sound;
    assert Holds(s, t.w);
  }

  ghost function Total(s: World, ids: set<int>): nat
    requires ids <= s.events.Keys
  {
    if ids == {} then 0
    else
      var i := Smallest(ids);
      Rank(s, i) + Total(s, ids - {i})
  }

  lemma {:induction false} TotalFalls(s: World, s': World, ids: set<int>, j: int)
    requires ids <= s.events.Keys && ids <= s'.events.Keys
    requires forall i :: i in ids ==> Rank(s', i) <= Rank(s, i)
    requires j in ids ==> Rank(s', j) < Rank(s, j)
    ensures Total(s', ids) + (if j in ids then 1 else 0) <= Total(s, ids)
    decreases ids
  {
    hide Rank;
    if ids != {} {
      var i := Smallest(ids);
      TotalFalls(s, s', ids - {i}, j);
    }
  }

  function Work(steps: seq<Step>): nat {
    if steps == [] then 0 else (if Productive(steps[0]) then 1 else 0) + Work(steps[1..])
  }

  lemma TickKeepsTotal(s: World, seconds: nat)
    requires Inv(s)
    ensures Total(Next(s, Tick(seconds)), s.events.Keys) <= Total(s, s.events.Keys)
  {
    var s' := Next(s, Tick(seconds));
    TotalSame(s, s', s.events.Keys);
  }

  lemma {:induction false} TotalSame(s: World, s': World, ids: set<int>)
    requires ids <= s.events.Keys && ids <= s'.events.Keys && forall i :: i in ids ==> Rank(s', i) == Rank(s, i)
    ensures Total(s', ids) == Total(s, ids)
    decreases ids
  {
    hide Rank;
    if ids != {} {
      var i := Smallest(ids);
      TotalSame(s, s', ids - {i});
    }
  }

  /** Once no events are added, the work still to come is bounded whatever fails and however workers interleave. */
  lemma {:induction false} WorkIsBounded(s: World, steps: seq<Step>, end: World)
    requires Inv(s) && IsRun(s, steps, end) && forall t :: t in steps ==> !t.Add?
    ensures end.events.Keys == s.events.Keys && Work(steps) + Total(end, end.events.Keys) <= Total(s, s.events.Keys)
    decreases |steps|
  {
    hide Holds, Sound, Rank, Total;
    if steps != [] {
      var t := steps[0];
      var s' := Next(s, t);
      StepKeepsInv(s, t);
      WorkIsBounded(s', steps[1..], end);
      if Productive(t) {
        TouchedExists(s, t);
        forall i | i in s.events ensures i in s'.events && Rank(s', i) <= Rank(s, i) && (i == Touched(s, t) ==> Rank(s', i) < Rank(s, i)) {
          StepLowersRank(s, t, i);
        }
        TotalFalls(s, s', s.events.Keys, Touched(s, t));
      } else {
        TickKeepsTotal(s, t.seconds);
      }
    }
  }

  lemma OneMore(m: int, n: int)
    ensures m * n + m == m * (n + 1)
  {
  }

  lemma {:induction false} TotalBound(s: World, ids: set<int>)
    requires ids <= s.events.Keys
    ensures Total(s, ids) <= 4 * (if s.maxRetries < 1 then 1 else s.maxRetries) * |ids|
    decreases ids
  {
    var m := if s.maxRetries < 1 then 1 else s.maxRetries;
    if ids != {} {
      var i := Smallest(ids);
      TotalBound(s, ids - {i});
      assert Rank(s, i) <= 4 * m;
      OneMore(4 * m, |ids - {i}|);
      assert |ids| == |ids - {i}| + 1;
    }
  }

  /** At most four worker steps per permitted attempt and event. */
  lemma RunsAreShort(s: World, steps: seq<Step>, end: World)
    requires Inv(s) && IsRun(s, steps, end) && forall t :: t in steps ==> !t.Add?
    ensures Work(steps) <= 4 * (if s.maxRetries < 1 then 1 else s.maxRetries) * |s.events|
  {
    WorkIsBounded(s, steps, end);
    TotalBound(s, s.events.Keys);
    assert |s.events.Keys| == |s.events|;
  }

  /* ---- nothing gets stuck ---- */

  /** As long as some unlocked event is due there is a nonempty batch to claim. */
  lemma BatchExists(events: Table, locked: set<int>, now: int, i: int) returns (ids: seq<int>)
    requires i in events && events[i].Due(now) && i !in locked
    ensures ids != [] && IsBatch(events, locked, now, ids)
  {
    var due := set j | j in events && events[j].Due(now) && j !in locked;
    var sorted := Ascending(due);
    assert i in due;
    ids := if |sorted| <= BATCH_SIZE then sorted else sorted[..BATCH_SIZE];
    forall j | j in ids ensures j in due {
      assert j in sorted;
    }
    forall j | j in events && events[j].Due(now) && j !in locked && j !in ids
      ensures |ids| == BATCH_SIZE && ids[|ids| - 1] < j
    {
      assert j in due && j in sorted;
    }
  }

  ghost predicate CanProceed(s: World, t: Step, wait: nat) {
    Inv(s) && Productive(t) && (TickKeepsInv(s, wait); Enabled(Next(s, Tick(wait)), t))
  }

  lemma BusyWorkerProceeds(s: World, w: int) returns (t: Step)
    requires Inv(s) && w in s.workers && !s.workers[w].Idle?
    ensures CanProceed(s, t, 0)
  {
    hide Holds, Sound;
    t := match s.workers[w]
      case Selected(_) => Mark(w)
      case Working(_) => SendOk(w)
      case Sent(_) => MarkOk(w);
  }

  ghost predicate AllIdle(s: World) {
    forall w :: w in s.workers ==> s.workers[w].Idle?
  }

  lemma NobodyClaims(s: World, i: int)
    requires Inv(s) && AllIdle(s) && i in s.events
    ensures i !in s.owner && s.events[i].status != Processing
  {
    hide Holds, HistoryOf;
    assert StatusOf(s, i) by {
      assert Sound(s, i);
    }
    if i in s.owner {
      IdleHoldsNothing(s, s.owner[i], i);
    }
  }

  lemma IdleHoldsNothing(s: World, w: int, i: int)
    requires AllIdle(s) && w in s.workers
    ensures i !in BatchOf(s.workers[w])
  {
    assert s.workers[w].Idle?;
  }

  lemma IdleWorkersClaim(s: World, w: int, i: int) returns (t: Step, wait: nat)
    requires Inv(s) && w in s.workers && i in s.events && !Finished(s.events[i])
    requires AllIdle(s)
    ensures CanProceed(s, t, wait)
  {
    hide Holds, HistoryOf;
    assert Sound(s, i);
    var e := s.events[i];
    wait := if e.nextRetryAt.Some? && e.nextRetryAt.value > s.now then e.nextRetryAt.value - s.now else 0;
    var s' := Next(s, Tick(wait));
    assert LockedRows(s') == {};
    NobodyClaims(s, i);
    var ids := BatchExists(s'.events, {}, s'.now, i);
    t := Select(w, ids);
  }

  /** While an event is neither PUBLISHED nor FAILED some worker can go on, at once or after the retry delay. */
  lemma NeverStuck(s: World, w: int, i: int) returns (t: Step, wait: nat)
    requires Inv(s) && w in s.workers && i in s.events && !Finished(s.events[i])
    ensures CanProceed(s, t, wait)
  {
    hide Inv, CanProceed;
    if v :| v in s.workers && !s.workers[v].Idle? {
      t := BusyWorkerProceeds(s, v);
      wait := 0;
    } else {
      t, wait := IdleWorkersClaim(s, w, i);
    }
  }
}
