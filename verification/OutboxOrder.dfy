/** In which order Kafka gets the events: a retry comes after newer events, so the order of the table is not kept. */
module OutboxOrder {
  import opened Options
  import opened Outbox
  import opened OutboxProtocol

  function Start(maxRetries: int): World {
    World(map[], map[0 := Idle], 0, maxRetries, map[], {}, map[], map[], map[], [])
  }

  function Fresh(): Event {
    Event(Pending, 0, None)
  }

  /** The table and the worker at the four places where the run rests. */
  ghost predicate At(s: World, events: Table, phase: Phase, now: int, log: seq<int>) {
    Inv(s) && s.events == events && s.workers == map[0 := phase] && s.now == now && s.log == log
  }

  lemma InvPlaced(s: World)
    requires Inv(s)
    ensures Placed(s)
  {
  }

  lemma OneRun(s: World, t: Step)
    requires Inv(s) && Enabled(s, t)
    ensures Placed(s) && Inv(Next(s, t)) && IsRun(s, [t], Next(s, t))
  {
    InvPlaced(s);
    StepKeepsInv(s, t);
    hide Inv, Next, Enabled, Placed;
    assert [t][1..] == [] && IsRun(Next(s, t), [], Next(s, t));
  }

  lemma {:induction false} RunsCompose(s: World, xs: seq<Step>, mid: World, ys: seq<Step>, end: World)
    requires Inv(s) && IsRun(s, xs, mid) && Inv(mid) && IsRun(mid, ys, end)
    ensures IsRun(s, xs + ys, end)
    decreases |xs|
  {
    InvPlaced(s);
    if xs == [] {
      assert xs + ys == ys;
    } else {
      StepKeepsInv(s, xs[0]);
      hide Inv, Next, Enabled, Placed;
      RunsCompose(Next(s, xs[0]), xs[1..], mid, ys, end);
      assert (xs + ys)[1..] == xs[1..] + ys && (xs + ys)[0] == xs[0];
    }
  }

  lemma TwoRun(s: World, t: Step, u: Step)
    requires Inv(s) && Enabled(s, t) && Inv(Next(s, t)) && Enabled(Next(s, t), u)
    ensures Placed(Next(s, t)) && Inv(Next(Next(s, t), u)) && IsRun(s, [t, u], Next(Next(s, t), u))
  {
    InvPlaced(s);
    hide Inv, Next, Enabled, Placed;
    OneRun(s, t);
    OneRun(Next(s, t), u);
    RunsCompose(s, [t], Next(s, t), [u], Next(Next(s, t), u));
    assert [t] + [u] == [t, u];
  }

  lemma Adding(s: World) returns (end: World)
    requires At(s, map[], Idle, 0, [])
    ensures IsRun(s, [Add(1), Add(2)], end) && At(end, Both(), Idle, 0, []) && end.maxRetries == s.maxRetries
  {
    hide Inv, IsRun;
    OneRun(s, Add(1));
    TwoRun(s, Add(1), Add(2));
    end := Next(Next(s, Add(1)), Add(2));
  }

  lemma Claiming(s: World, ids: seq<int>, events: Table, now: int, log: seq<int>) returns (end: World)
    requires At(s, events, Idle, now, log) && ids != [] && IsBatch(events, {}, now, ids)
    ensures IsRun(s, [Select(0, ids), Mark(0)], end) && end.maxRetries == s.maxRetries
    ensures At(end, MarkedProcessing(events, ids), Working(ids), now, log)
  {
    hide Inv, IsBatch, IsRun, MarkedProcessing;
    assert LockedRows(s) == {};
    OneRun(s, Select(0, ids));
    TwoRun(s, Select(0, ids), Mark(0));
    end := Next(Next(s, Select(0, ids)), Mark(0));
  }

  lemma Sending(s: World, id: int, events: Table, now: int, log: seq<int>) returns (end: World)
    requires At(s, events, Working([id]), now, log) && id in events
    ensures IsRun(s, [SendOk(0), MarkOk(0)], end) && end.maxRetries == s.maxRetries
    ensures At(end, events[id := events[id].(status := Published)], Idle, now, log + [id])
  {
    hide Inv, IsRun;
    OneRun(s, SendOk(0));
    TwoRun(s, SendOk(0), MarkOk(0));
    end := Next(Next(s, SendOk(0)), MarkOk(0));
  }

  lemma Failing(s: World, events: Table, now: int, log: seq<int>) returns (end: World)
    requires At(s, events, Working([1, 2]), now, log) && 1 in events && events[1] == Event(Processing, 0, None) && s.maxRetries >= 2
    ensures IsRun(s, [SendFails(0, 0)], end) && end.maxRetries == s.maxRetries
    ensures At(end, events[1 := Event(Pending, 1, Some(now + 2))], Working([2]), now, log)
  {
    hide Inv, IsRun;
    assert BackoffBase(1) == 2;
    OneRun(s, SendFails(0, 0));
    end := Next(s, SendFails(0, 0));
  }

  lemma Ticking(s: World, events: Table, log: seq<int>) returns (end: World)
    requires At(s, events, Idle, 0, log)
    ensures IsRun(s, [Tick(2)], end) && At(end, events, Idle, 2, log)
  {
    hide Inv, IsRun;
    OneRun(s, Tick(2));
    end := Next(s, Tick(2));
  }

  function Both(): Table {
    map[1 := Fresh(), 2 := Fresh()]
  }

  /** After the first failure and the first publication. */
  function Waiting(): Table {
    map[1 := Event(Pending, 1, Some(2)), 2 := Event(Published, 0, None)]
  }

  lemma ThreeRuns(s: World, xs: seq<Step>, a: World, ys: seq<Step>, b: World, zs: seq<Step>, end: World)
    requires Inv(s) && IsRun(s, xs, a) && Inv(a) && IsRun(a, ys, b) && Inv(b) && IsRun(b, zs, end)
    ensures IsRun(s, xs + ys + zs, end)
  {
    hide Inv, IsRun;
    RunsCompose(s, xs, a, ys, b);
    RunsCompose(s, xs + ys, b, zs, end);
  }

  const CLAIM_BOTH := [Select(0, [1, 2]), Mark(0)]
  const FAIL := [SendFails(0, 0)]
  const SEND := [SendOk(0), MarkOk(0)]
  const CLAIM_FIRST := [Select(0, [1]), Mark(0)]

  lemma FirstBatch()
    ensures IsBatch(Both(), {}, 0, [1, 2]) && MarkedProcessing(Both(), [1, 2]) == map[1 := Taken(0, None), 2 := Taken(0, None)]
  {
  }

  lemma SecondBatch()
    ensures IsBatch(Waiting(), {}, 2, [1]) && MarkedProcessing(Waiting(), [1]) == map[1 := Taken(1, Some(2)), 2 := Event(Published, 0, None)]
  {
  }

  function Taken(retries: nat, next: Option<int>): Event {
    Event(Processing, retries, next)
  }

  lemma FirstRound(s: World) returns (end: World)
    requires At(s, Both(), Idle, 0, []) && s.maxRetries >= 2
    ensures IsRun(s, CLAIM_BOTH + FAIL + SEND, end) && At(end, Waiting(), Idle, 0, [2])
  {
    hide Inv, IsRun, MarkedProcessing, IsBatch;
    FirstBatch();
    var claimed := Claiming(s, [1, 2], Both(), 0, []);
    var failed := Failing(claimed, map[1 := Taken(0, None), 2 := Taken(0, None)], 0, []);
    var table := map[1 := Event(Pending, 1, Some(2)), 2 := Taken(0, None)];
    assert map[1 := Taken(0, None), 2 := Taken(0, None)][1 := Event(Pending, 1, Some(2))] == table;
    end := Sending(failed, 2, table, 0, []);
    assert table[2 := Event(Published, 0, None)] == Waiting();
    ThreeRuns(s, CLAIM_BOTH, claimed, FAIL, failed, SEND, end);
  }

  lemma SecondRound(s: World) returns (end: World)
    requires At(s, Waiting(), Idle, 0, [2])
    ensures IsRun(s, [Tick(2)] + CLAIM_FIRST + SEND, end)
    ensures At(end, map[1 := Event(Published, 1, Some(2)), 2 := Event(Published, 0, None)], Idle, 2, [2, 1])
  {
    hide Inv, IsRun, MarkedProcessing, IsBatch;
    SecondBatch();
    var later := Ticking(s, Waiting(), [2]);
    var claimed := Claiming(later, [1], Waiting(), 2, [2]);
    var table := map[1 := Taken(1, Some(2)), 2 := Event(Published, 0, None)];
    end := Sending(claimed, 1, table, 2, [2]);
    assert table[1 := Event(Published, 1, Some(2))] == map[1 := Event(Published, 1, Some(2)), 2 := Event(Published, 0, None)];
    ThreeRuns(s, [Tick(2)], later, CLAIM_FIRST, claimed, SEND, end);
  }

  /** The first send of event 1 fails, event 2 of the same batch goes out, and event 1 follows after its backoff. */
  const STEPS := [Add(1), Add(2)] + (CLAIM_BOTH + FAIL + SEND) + ([Tick(2)] + CLAIM_FIRST + SEND)

  /** A reachable run in which everything is published and Kafka has the newer event before the older one. */
  lemma RetriesReorder(maxRetries: int) returns (end: World)
    requires maxRetries >= 2
    ensures Initial(Start(maxRetries)) && Inv(Start(maxRetries)) && IsRun(Start(maxRetries), STEPS, end)
    ensures end.events.Keys == {1, 2} && end.log == [2, 1] && forall i :: i in end.events ==> end.events[i].status == Published
  {
    var s := Start(maxRetries);
    InitialInv(s);
    hide Inv, IsRun;
    var added := Adding(s);
    var rested := FirstRound(added);
    end := SecondRound(rested);
    ThreeRuns(s, [Add(1), Add(2)], added, CLAIM_BOTH + FAIL + SEND, rested, [Tick(2)] + CLAIM_FIRST + SEND, end);
  }

  /* ---- when the order is kept ---- */

  /** No publication fails and no marking fails; rows get growing ids, as from an auto-increment key. */
  ghost predicate Calm(s: World, t: Step) {
    && !t.SendFails? && !t.MarkFails?
    && (t.Add? ==> forall i :: i in s.events ==> i < t.id)
  }

  /** Not yet sent: unclaimed, or in the batch behind what was sent. */
  ghost predicate ToGo(s: World, i: int) {
    && i in s.events
    && (s.events[i].status == Pending || (0 in s.workers && InBatchToSend(s.workers[0], i)))
  }

  predicate InBatchToSend(p: Phase, i: int) {
    match p
    case Working(batch) => i in batch
    case Sent(batch) => batch != [] && i in batch[1..]
    case _ => false
  }

  ghost predicate AscendingSeq(ids: seq<int>) {
    forall j, k :: 0 <= j < k < |ids| ==> ids[j] < ids[k]
  }

  ghost predicate Orderly(s: World) {
    && s.workers.Keys == {0}
    && AscendingSeq(s.log) && AscendingSeq(BatchOf(s.workers[0]))
    && (forall a :: a in s.log ==> a in s.events && forall i :: ToGo(s, i) ==> a < i)
    && (forall i, j :: i in BatchOf(s.workers[0]) && j in s.events && s.events[j].status == Pending && j !in BatchOf(s.workers[0]) ==> i < j)
    && (forall i :: i in s.events && s.events[i].status == Pending ==> s.events[i].nextRetryAt == None)
  }

  lemma CalmSelect(s: World, ids: seq<int>)
    requires Inv(s) && Orderly(s) && Enabled(s, Select(0, ids))
    ensures Orderly(Next(s, Select(0, ids)))
  {
    hide Sound, Holds;
    assert LockedRows(s) == {};
    var s' := Next(s, Select(0, ids));
    forall i | ToGo(s', i) ensures ToGo(s, i) {}
  }

  lemma CalmMark(s: World)
    requires Inv(s) && Orderly(s) && Enabled(s, Mark(0))
    ensures Orderly(Next(s, Mark(0)))
  {
    HeldByWorker(s);
    hide Inv;
    var s' := Next(s, Mark(0));
    forall i | ToGo(s', i) ensures ToGo(s, i) {}
  }

  lemma HeldByWorker(s: World)
    requires Inv(s) && 0 in s.workers
    ensures Holds(s, 0) && Placed(s)
    ensures forall i :: i in BatchOf(s.workers[0]) ==> i in s.events
    ensures s.workers[0].Selected? ==> forall i :: i in s.workers[0].batch ==> s.events[i].status == Pending
    ensures s.workers[0].Working? || s.workers[0].Sent? ==> forall i :: i in s.workers[0].batch ==> s.events[i].status == Processing
  {
    assert Holds(s, 0);
    forall i | i in BatchOf(s.workers[0]) ensures Sound(s, i) {}
  }

  lemma CalmSend(s: World)
    requires Inv(s) && Orderly(s) && Enabled(s, SendOk(0))
    ensures Orderly(Next(s, SendOk(0)))
  {
    HeldByWorker(s);
    hide Inv;
    var (s', batch) := (Next(s, SendOk(0)), s.workers[0].batch);
    assert ToGo(s, batch[0]);
    forall k | 0 <= k < |s.log| ensures s.log[k] < batch[0] {
      assert s.log[k] in s.log;
    }
    forall i | ToGo(s', i) ensures ToGo(s, i) && batch[0] < i {
      assert i in batch[1..] ==> exists k :: 0 < k < |batch| && batch[k] == i;
    }
    assert AscendingSeq(s'.log);
  }

  lemma CalmPublish(s: World)
    requires Inv(s) && Orderly(s) && Enabled(s, MarkOk(0))
    ensures Orderly(Next(s, MarkOk(0)))
  {
    HeldByWorker(s);
    hide Inv;
    var (s', batch) := (Next(s, MarkOk(0)), s.workers[0].batch);
    assert BatchOf(s'.workers[0]) == batch[1..];
    assert AscendingSeq(batch[1..]) && forall i :: i in batch[1..] ==> i in batch;
    forall i | ToGo(s', i) ensures ToGo(s, i) {}
    forall i, j | i in batch[1..] && j in s'.events && s'.events[j].status == Pending && j !in batch[1..] ensures i < j {
      assert j != batch[0] && j !in batch;
    }
  }

  lemma CalmAdd(s: World, id: int)
    requires Inv(s) && Orderly(s) && Enabled(s, Add(id)) && Calm(s, Add(id))
    ensures Orderly(Next(s, Add(id)))
  {
    HeldByWorker(s);
    hide Inv;
    var s' := Next(s, Add(id));
    forall i | ToGo(s', i) ensures i == id || ToGo(s, i) {}
  }

  lemma CalmStep(s: World, t: Step)
    requires Inv(s) && Orderly(s) && Placed(s) && Enabled(s, t) && Calm(s, t)
    ensures Orderly(Next(s, t))
  {
    hide Inv, Orderly;
    match t
    case Add(id) => CalmAdd(s, id);
    case Tick(seconds) => CalmTick(s, seconds);
    case Select(w, ids) => OnlyWorker(s, w); CalmSelect(s, ids);
    case Mark(w) => OnlyWorker(s, w); CalmMark(s);
    case SendOk(w) => OnlyWorker(s, w); CalmSend(s);
    case MarkOk(w) => OnlyWorker(s, w); CalmPublish(s);
  }

  lemma CalmTick(s: World, seconds: nat)
    requires Inv(s) && Placed(s) && Orderly(s)
    ensures Orderly(Next(s, Tick(seconds)))
  {
    hide Inv;
    forall i | ToGo(Next(s, Tick(seconds)), i) ensures ToGo(s, i) {}
  }

  lemma OnlyWorker(s: World, w: int)
    requires Orderly(s) && w in s.workers
    ensures w == 0
  {
    assert w in s.workers.Keys;
  }

  ghost predicate CalmRun(s: World, steps: seq<Step>)
    requires Inv(s)
    decreases |steps|
  {
    steps != [] ==> Enabled(s, steps[0]) && Calm(s, steps[0]) && (StepKeepsInv(s, steps[0]); CalmRun(Next(s, steps[0]), steps[1..]))
  }

  lemma {:induction false} CalmRunStaysOrderly(s: World, steps: seq<Step>, end: World)
    requires Inv(s) && Orderly(s) && IsRun(s, steps, end) && CalmRun(s, steps)
    ensures Orderly(end)
    decreases |steps|
  {
    InvPlaced(s);
    if steps != [] {
      StepKeepsInv(s, steps[0]);
      hide Inv, Next, Enabled, Placed, Orderly, Calm;
      CalmStep(s, steps[0]);
      CalmRunStaysOrderly(Next(s, steps[0]), steps[1..], end);
    }
  }

  /** With one worker and no failure Kafka gets the events in the order of the table, each once. */
  lemma CalmRunsKeepOrder(s: World, steps: seq<Step>, end: World)
    requires Initial(s) && s.workers == map[0 := Idle] && (InitialInv(s); IsRun(s, steps, end) && CalmRun(s, steps))
    ensures AscendingSeq(end.log)
  {
    InitialInv(s);
    CalmRunStaysOrderly(s, steps, end);
  }
}
