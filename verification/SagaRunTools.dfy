/** How runs are put together: composition, single steps, and the stretches of a run that come in time. */
module SagaRunTools {
  import opened Options
  import opened Inventory
  import opened InventoryRoundTrips
  import opened BookingSaga
  import SagaEndings
  import opened SagaMoney
  import opened SagaProgress
  import opened SagaRuns
  import opened SagaSeats
  import opened SagaTheorems
  import Pay = Payments
  import R = RedisLocks

  /* ---- putting runs together ---- */

  lemma {:induction false} RunThen(w: World, steps: seq<Step>, mid: World, more: seq<Step>, end: World)
    requires IsRun(w, steps, mid) && IsRun(mid, more, end)
    ensures IsRun(w, steps + more, end)
    decreases |steps|
  {
    hide Next, Enabled;
    if steps == [] {
      assert steps + more == more;
    } else {
      RunThen(Next(w, steps[0]), steps[1..], mid, more, end);
      assert (steps + more)[0] == steps[0] && (steps + more)[1..] == steps[1..] + more;
    }
  }

  lemma {:induction false} OnTimeThen(w: World, steps: seq<Step>, mid: World, more: seq<Step>, end: World)
    requires OnTimeRun(w, steps, mid) && OnTimeRun(mid, more, end)
    ensures OnTimeRun(w, steps + more, end)
    decreases |steps|
  {
    hide Next, Enabled, OnTime;
    if steps == [] {
      assert steps + more == more;
    } else {
      OnTimeThen(Next(w, steps[0]), steps[1..], mid, more, end);
      assert (steps + more)[0] == steps[0] && (steps + more)[1..] == steps[1..] + more;
    }
  }

  lemma OneMore(w: World, steps: seq<Step>, mid: World, t: Step)
    requires IsRun(w, steps, mid) && Enabled(mid, t)
    ensures IsRun(w, steps + [t], Next(mid, t))
  {
    hide Next, Enabled;
    assert IsRun(Next(mid, t), [t][1..], Next(mid, t));
    RunThen(w, steps, mid, [t], Next(mid, t));
  }

  lemma TwoMore(w: World, steps: seq<Step>, mid: World, a: Step, b: Step)
    requires IsRun(w, steps, mid) && TwoTimely(mid, a, b)
    ensures IsRun(w, steps + [a, b], Next(Next(mid, a), b))
  {
    hide Next, Enabled, Timely;
    OneMore(w, steps, mid, a);
    OneMore(w, steps + [a], Next(mid, a), b);
    assert steps + [a] + [b] == steps + [a, b];
  }

  lemma TwoRun(w: World, a: Step, b: Step)
    requires Enabled(w, a) && Enabled(Next(w, a), b)
    ensures IsRun(w, [a, b], Next(Next(w, a), b))
  {
    hide Next, Enabled;
    assert IsRun(w, [], w);
    OneMore(w, [], w, a);
    OneMore(w, [] + [a], Next(w, a), b);
    assert [] + [a] + [b] == [a, b];
  }

  lemma ThreeRun(w: World, a: Step, b: Step, c: Step)
    requires Enabled(w, a) && Enabled(Next(w, a), b) && Enabled(Next(Next(w, a), b), c)
    ensures IsRun(w, [a, b, c], Next(Next(Next(w, a), b), c))
  {
    hide Next, Enabled;
    TwoRun(w, a, b);
    OneMore(w, [a, b], Next(Next(w, a), b), c);
    assert [a, b] + [c] == [a, b, c];
  }

  lemma FourRun(w: World, a: Step, b: Step, c: Step, d: Step)
    requires Enabled(w, a) && Enabled(Next(w, a), b) && Enabled(Next(Next(w, a), b), c) && Enabled(Next(Next(Next(w, a), b), c), d)
    ensures IsRun(w, [a, b, c, d], Next(Next(Next(Next(w, a), b), c), d))
  {
    hide Next, Enabled;
    ThreeRun(w, a, b, c);
    OneMore(w, [a, b, c], Next(Next(Next(w, a), b), c), d);
    assert [a, b, c] + [d] == [a, b, c, d];
  }

  ghost predicate OnTimeStep(w: World, t: Step) {
    Enabled(w, t) && OnTime(w, t)
  }

  lemma TwoOnTime(w: World, a: Step, b: Step)
    requires OnTimeStep(w, a) && OnTimeStep(Next(w, a), b)
    ensures OnTimeRun(w, [a, b], Next(Next(w, a), b))
  {
    hide Next, Enabled, OnTime;
    assert [a, b][1..] == [b] && [b][1..] == [];
    assert OnTimeRun(Next(w, a), [b], Next(Next(w, a), b));
  }

  lemma ThreeOnTime(w: World, a: Step, b: Step, c: Step)
    requires OnTimeStep(w, a) && OnTimeStep(Next(w, a), b) && OnTimeStep(Next(Next(w, a), b), c)
    ensures OnTimeRun(w, [a, b, c], Next(Next(Next(w, a), b), c))
  {
    TwoOnTime(Next(w, a), b, c);
    hide Next, Enabled, OnTime;
    assert [a, b, c][1..] == [b, c];
  }

  /** Most steps write by no id alone and are always on time. */
  lemma AlwaysOnTime(w: World, t: Step)
    requires Enabled(w, t) && (t.Start? || t.LookDrop? || t.Look? || t.Claim? || t.Contend?)
    ensures OnTimeStep(w, t)
  {
  }

  /* ---- steps one at a time ---- */

  lemma LookIs(v: World, h: int, kind: Kind, id: int)
    requires h !in v.seen && Interested(v.s, kind, id)
    ensures Enabled(v, Look(h, kind, id))
    ensures Next(v, Look(h, kind, id)) == v.(seen := v.seen[h := Read(kind, id, v.s.bookings[id].version)])
  {
    hide Interested;
  }

  lemma FaultIs(v: World, h: int)
    requires h in v.seen && v.seen[h].kind.PaidMessage? && h !in v.rolled
    ensures Enabled(v, Fault(h)) && Next(v, Fault(h)) == v.(seen := v.seen - {h}, rolled := v.rolled[h := v.seen[h]])
  {
  }

  lemma ClaimIs(v: World, h: int, refreshed: bool, gateway: Option<string>)
    requires Wins(v, h)
    ensures Enabled(v, Claim(h, refreshed, gateway))
    ensures Next(v, Claim(h, refreshed, gateway)) == v.(s := Claimed(v.s, v.seen[h], refreshed, gateway), seen := v.seen - {h})
  {
    hide Claimed;
  }

  lemma DropIs(v: World, d: int)
    requires d in v.drops && v.drops[d].booking in v.s.bookings
    ensures Enabled(v, DropStep(d)) && Next(v, DropStep(d)) == v.(s := Dropped(v.s, v.drops[d]), drops := v.drops - {d})
  {
    hide Dropped;
  }

  /* ---- handlers and cancels that come in time ---- */

  lemma StepInTime(w: World, t: Step)
    requires Inv(w) && Enabled(w, t) && (t.LookDrop? || t.Look? || t.Claim? || t.Fault? || t.Contend?) && (t.Claim? ==> Uncontended(w, t))
    ensures Inv(Next(w, t))
  {
    StepKeepsInv(w, t);
  }

  /** A success handler from its look to the confirmation. */
  lemma Confirming(v: World, id: int, e: Pay.Event, h: int) returns (u: World)
    requires Inv(v) && Interested(v.s, PaidMessage(e), id) && h !in v.seen && CallClear(v.s, id)
    ensures var look, claim := Look(h, PaidMessage(e), id), Claim(h, false, None);
      Enabled(v, look) && Enabled(Next(v, look), claim) && u == Next(Next(v, look), claim)
    ensures Inv(u) && u.s.pay == v.s.pay && u.s.busy == v.s.busy && OthersKept(v.s, u.s, id)
    ensures id in u.s.bookings && u.s.bookings[id] == v.s.bookings[id].(status := Confirmed, version := v.s.bookings[id].version + 1)
    ensures u == v.(s := u.s)
  {
    hide *;
    var look, claim := Look(h, PaidMessage(e), id), Claim(h, false, None);
    LookIs(v, h, PaidMessage(e), id);
    var v1 := Next(v, look);
    FreshReadWins(v, v1, h, PaidMessage(e), id);
    ClaimIs(v1, h, false, None);
    ClearClaim(v1, claim);
    StepInTime(v, look);
    StepInTime(v1, claim);
    u := Next(v1, claim);
    ConfirmedByClaim(v.s, id, e);
    assert (v.seen[h := v1.seen[h]]) - {h} == v.seen;
  }

  lemma ClearClaim(w: World, t: Step)
    requires t.Claim? && Enabled(w, t) && w.seen[t.h].kind.PaidMessage? && CallClear(w.s, w.seen[t.h].booking)
    ensures Uncontended(w, t)
  {
  }

  lemma FreshReadWins(v: World, v1: World, h: int, kind: Kind, id: int)
    requires Interested(v.s, kind, id) && v1 == v.(seen := v.seen[h := Read(kind, id, v.s.bookings[id].version)])
    ensures Wins(v1, h)
  {
  }

  lemma ConfirmedByClaim(s: System, id: int, e: Pay.Event)
    requires id in s.bookings
    ensures var s' := Claimed(s, Read(PaidMessage(e), id, s.bookings[id].version), false, None);
      && s'.pay == s.pay && s'.busy == s.busy && OthersKept(s, s', id)
      && id in s'.bookings && s'.bookings[id] == s.bookings[id].(status := Confirmed, version := s.bookings[id].version + 1)
  {
    ConfirmParts(s, id, false);
    hide ConfirmPaid;
  }

  /** A success handler from its look to the rollback of its claim. */
  lemma Faulting(v: World, id: int, e: Pay.Event, a: int) returns (u: World)
    requires Inv(v) && Interested(v.s, PaidMessage(e), id) && a !in v.seen && a !in v.rolled
    ensures var look := Look(a, PaidMessage(e), id);
      Enabled(v, look) && Enabled(Next(v, look), Fault(a)) && u == Next(Next(v, look), Fault(a))
    ensures Inv(u) && u.s == v.s && u.seen == v.seen && a in u.rolled && u.rolled[a].booking == id
  {
    hide *;
    var look := Look(a, PaidMessage(e), id);
    LookIs(v, a, PaidMessage(e), id);
    var v1 := Next(v, look);
    FaultIs(v1, a);
    StepInTime(v, look);
    StepInTime(v1, Fault(a));
    u := Next(v1, Fault(a));
    assert (v.seen[a := v1.seen[a]]) - {a} == v.seen;
  }

  lemma LookedForCancel(w: World, id: int, d: int) returns (v: World)
    requires Inv(w) && d !in w.drops && id in w.s.bookings && w.s.bookings[id].status in {Pending, SeatsHeld, PaymentPending}
    ensures Enabled(w, LookDrop(d, w.s.bookings[id].user, id)) && v == Next(w, LookDrop(d, w.s.bookings[id].user, id)) && Inv(v)
    ensures v == w.(drops := w.drops[d := Drop(id, w.s.bookings[id].status != Pending, 0)])
  {
    hide SeatInv, MoneyInv, TasksSound;
    v := Next(w, LookDrop(d, w.s.bookings[id].user, id));
    StepInTime(w, LookDrop(d, w.s.bookings[id].user, id));
  }

  lemma CancelledInTime(v: World, id: int, d: int) returns (u: World)
    requires Inv(v) && d in v.drops && id in v.s.bookings && v.s.bookings[id].status in {Pending, SeatsHeld, PaymentPending}
    requires v.drops[d] == Drop(id, v.s.bookings[id].status != Pending, 0) && UnlockReaches(v.s, id)
    ensures Enabled(v, DropStep(d)) && u == Next(v, DropStep(d)) && Inv(u)
    ensures u == v.(s := u.s, drops := v.drops - {d}) && WasCancelled(v.s, u.s, id)
  {
    hide *;
    InvariantOf(v);
    DropIs(v, d);
    DropIsTimely(v, d);
    DropCancels(v.s, v.drops[d]);
    u := Next(v, DropStep(d));
    StepKeepsInv(v, DropStep(d));
  }

  lemma DropIsTimely(v: World, d: int)
    requires d in v.drops && v.drops[d].booking in v.s.bookings
    requires var st := v.s.bookings[v.drops[d].booking].status; st in {Pending, SeatsHeld, PaymentPending} && v.drops[d].held == (st != Pending)
    requires UnlockReaches(v.s, v.drops[d].booking)
    ensures Enabled(v, DropStep(d)) && Timely(v, DropStep(d))
  {
    hide Dropped;
  }

  /** A booking cancelled in time: its rows and keys are gone, nothing else has changed. */
  ghost predicate WasCancelled(s: System, s': System, id: int) {
    && id in s.bookings && s'.bookings == s.bookings[id := s.bookings[id].(status := CancelledByUser, version := 1)]
    && s'.pay == s.pay && s'.logs == s.logs && s'.requests == s.requests && s'.busy == s.busy
    && TakesOnlyOwn(s, s', id) && SameFrame(s.inv, s'.inv) && (s.bookings[id].status == Pending ==> s'.inv == s.inv)
  }

  lemma DropCancels(s: System, d: Drop)
    requires SeatInv(s) && d.booking in s.bookings && s.bookings[d.booking].status in {Pending, SeatsHeld, PaymentPending}
    requires d == Drop(d.booking, s.bookings[d.booking].status != Pending, 0) && UnlockReaches(s, d.booking)
    ensures WasCancelled(s, Dropped(s, d), d.booking)
  {
    DropChanges(s, d);
    PendingDropKeepsInventory(s, d);
    DropVacates(s, d);
    if d.held {
      SagaEndings.CancelHeldVacates(s, d.booking, d.version);
    } else {
      SagaEndings.CancelPendingVacates(s, d.booking, d.version);
    }
    hide SeatInv, RowsWithout, KeysWithout, SameFrame, UnlockUnder, R.ForceReleased, Keys;
  }

  lemma PendingDropKeepsInventory(s: System, d: Drop)
    requires d.booking in s.bookings
    ensures !d.held ==> Dropped(s, d).inv == s.inv
  {
    hide CancelHeld, CancelPending;
    PendingKeepsInventory(s, d.booking, d.version);
  }

  lemma PendingKeepsInventory(s: System, id: int, version: nat)
    requires id in s.bookings
    ensures CancelPending(s, id, version).inv == s.inv
  {
    hide R.ForceReleased;
  }

  function CancelSteps(id: int, user: int, d: int): seq<Step> {
    [LookDrop(d, user, id), DropStep(d)]
  }

  /** A cancel that comes in time, while the creation is still under way. */
  lemma CancelInTime(w: World, id: int, d: int) returns (u: World)
    requires Inv(w) && d !in w.drops && id in w.s.bookings && w.s.bookings[id].status in {Pending, SeatsHeld, PaymentPending}
    requires UnlockReaches(w.s, id)
    ensures IsRun(w, CancelSteps(id, w.s.bookings[id].user, d), u)
    ensures Inv(u) && u == w.(s := u.s) && WasCancelled(w.s, u.s, id)
  {
    assert CancelSteps(id, w.s.bookings[id].user, d) == [LookDrop(d, w.s.bookings[id].user, id), DropStep(d)];
    hide *;
    var v := LookedForCancel(w, id, d);
    u := CancelledInTime(v, id, d);
    DropsRestored(w, v, u, d, v.drops[d]);
    TwoRun(w, LookDrop(d, w.s.bookings[id].user, id), DropStep(d));
  }

  lemma DropsRestored(w: World, v: World, u: World, d: int, drop: Drop)
    requires d !in w.drops && v == w.(drops := w.drops[d := drop]) && u == v.(s := u.s, drops := v.drops - {d})
    ensures u == w.(s := u.s)
  {
    assert (w.drops[d := drop]) - {d} == w.drops;
  }

  lemma StartedPending(w: World, r: Request, token: int) returns (w1: World)
    requires Inv(w) && Bookable(w.s, r) && R.CanAcquire(w.s.redis, KeyList(NewBooking(w.s, r, token))) && r.key !in w.s.requests
    ensures Enabled(w, Start(r, token)) && w1 == Next(w, Start(r, token)) && Inv(w1) && w1.drops == w.drops
    ensures var id := w.s.nextBooking;
      && id in w1.s.bookings && w1.s.bookings[id].status == Pending && For(w1.s.bookings[id], r) && w1.s.busy == w.s.busy
      && id in w1.creating && w1.creating[id] == ToHold
      && Gate(w1.s.inv, w1.s.bookings[id].schedule, w1.s.bookings[id].seats).None?
      && Blocked(w1.s.inv.locks, w1.s.bookings[id].schedule, IdSet(w1.s.bookings[id].seats), w1.s.bookings[id].seg) == {}
  {
    Started(w, r, token);
    hide Inv, Bookable, R.CanAcquire, KeyList, NewBooking, Gate, Blocked, Next, TotalPrice;
    w1 := Next(w, Start(r, token));
  }

  lemma HeldInTime(w: World, id: int) returns (v: World)
    requires Inv(w) && id in w.s.bookings && w.s.bookings[id].status == Pending && id in w.creating && w.creating[id] == ToHold
    requires CallClear(w.s, id)
    requires Gate(w.s.inv, w.s.bookings[id].schedule, w.s.bookings[id].seats).None?
    requires Blocked(w.s.inv.locks, w.s.bookings[id].schedule, IdSet(w.s.bookings[id].seats), w.s.bookings[id].seg) == {}
    ensures Enabled(w, HoldStep(id, false, None)) && OnTimeStep(w, HoldStep(id, false, None)) && v == Next(w, HoldStep(id, false, None)) && Inv(v)
    ensures v.drops == w.drops && id in v.s.bookings && v.s.busy == w.s.busy
    ensures v.s.bookings[id] == w.s.bookings[id].(status := SeatsHeld, base := v.s.bookings[id].base)
  {
    hide SeatInv, MoneyInv, TasksSound, Gate, Blocked, Hold, HoldSucceeds;
    HoldWorks(w, id, None);
    HoldInTime(w, id);
    v := Next(w, HoldStep(id, false, None));
  }

  lemma HoldInTime(w: World, id: int)
    requires Inv(w) && Enabled(w, HoldStep(id, false, None)) && w.s.bookings[id].status == Pending
    ensures Inv(Next(w, HoldStep(id, false, None)))
  {
    StepKeepsInv(w, HoldStep(id, false, None));
  }

  /* ---- from the request to the capture ---- */

  /** A paid booking whose success message is on its way. */
  ghost predicate Awaiting(w: World, v: World, id: int, e: Pay.Event) {
    && Inv(v) && v.seen == w.seen && v.rolled == w.rolled && v.drops == w.drops
    && v.creating == (w.creating[id := ToPay]) - {id} && Interested(v.s, PaidMessage(e), id)
    && CallClear(v.s, id) && UnlockClear(v.s, id)
  }

  function CapturePath(w: World, r: Request, token: int, order: string, payment: string): seq<Step> {
    Path(w, r, token, order, payment, 0)[..4]
  }

  lemma CapturedRun(w: World, r: Request, token: int, order: string, payment: string, h: int) returns (v: World)
    requires Inv(w) && Ready(w, r, token, order, payment, h)
    ensures OnTimeRun(w, CapturePath(w, r, token, order, payment), v) && IsRun(w, CapturePath(w, r, token, order, payment), v)
    ensures Awaiting(w, v, w.s.nextBooking, PaidEvent(w, r, order, payment))
    ensures w.s.nextBooking !in w.s.bookings && v.s.pay.refunds == w.s.pay.refunds
    ensures w.s.nextBooking in v.s.bookings && For(v.s.bookings[w.s.nextBooking], r) && v.s.busy == w.s.busy
  {
    hide SeatInv, MoneyInv, Bookable, R.CanAcquire, TotalPrice, Pay.UsesGatewayOrder, Next, Timely, Interested, TasksSound, Untouched,
      OnTimeStep, OnTimeRun, IsRun;
    var path := Path(w, r, token, order, payment, h);
    var id := w.s.nextBooking;
    NewBookingId(w);
    var w2 := Held(w, r, token, order, payment, h);
    TimelyPair(w, path[0], path[1]);
    TwoOnTime(w, path[0], path[1]);
    v := Captured(w, w2, id, order, payment);
    TimelyPair(w2, path[2], path[3]);
    TwoOnTime(w2, path[2], path[3]);
    OnTimeThen(w, [path[0], path[1]], w2, [path[2], path[3]], v);
    assert [path[0], path[1]] + [path[2], path[3]] == CapturePath(w, r, token, order, payment);
    OnTimeIsRun(w, CapturePath(w, r, token, order, payment), v);
    TwoKeepInv(w2, path[2], path[3]);
  }

  lemma NewBookingId(w: World)
    requires Inv(w)
    ensures w.s.nextBooking !in w.s.bookings
  {
  }

  lemma TwoKeepInv(w: World, a: Step, b: Step)
    requires Inv(w) && TwoTimely(w, a, b)
    ensures Inv(Next(Next(w, a), b))
  {
    hide Inv, Next, Timely, Enabled;
    StepKeepsInv(w, a);
    StepKeepsInv(Next(w, a), b);
  }

  lemma AwaitingPays(w: World, v: World, id: int, e: Pay.Event)
    requires Awaiting(w, v, id, e)
    ensures Inv(v) && id in v.s.bookings && v.s.bookings[id].status == PaymentPending && Interested(v.s, PaidMessage(e), id)
    ensures CallClear(v.s, id) && UnlockClear(v.s, id)
    ensures v.seen == w.seen && v.rolled == w.rolled && v.drops == w.drops && v.creating == (w.creating[id := ToPay]) - {id}
  {
    hide Inv;
  }

  lemma ReadyHandler(w: World, r: Request, token: int, order: string, payment: string, h: int)
    requires Ready(w, r, token, order, payment, h)
    ensures h !in w.seen
  {
  }

  lemma ClearOf(s: System, r: Request)
    requires SeatsClear(s, r)
    ensures Clear(r.schedule, r.seats, s.busy.calls) && Clear(r.schedule, r.seats, s.busy.unlocks)
  {
  }

  lemma ForIsClear(s: System, t: System, id: int, r: Request)
    requires id in t.bookings && For(t.bookings[id], r) && t.busy == s.busy
    requires Clear(r.schedule, r.seats, s.busy.calls) && Clear(r.schedule, r.seats, s.busy.unlocks)
    ensures CallClear(t, id) && UnlockClear(t, id) && UnlockReaches(t, id) && t.bookings[id].user == r.user
  {
  }

  /** No row of its own. */
  ghost predicate Rowless(s: System, id: int) {
    forall i :: i in s.owner ==> s.owner[i] != id
  }

  /** Its keys are not in Redis. */
  ghost predicate Keyless(s: System, id: int)
    requires id in s.bookings
  {
    Keys(s.bookings[id]) !! s.redis.Keys
  }

  lemma CancelledIsBare(s: System, s': System, id: int)
    requires SeatInv(s') && WasCancelled(s, s', id)
    ensures Rowless(s', id) && Keyless(s', id)
  {
    hide SeatInv, RowsWithout;
    SagaEndings.SameKeys(s.bookings[id], s'.bookings[id]);
    forall i | i in s'.owner ensures s'.owner[i] != id {
      OwnerIsRowed(s', i);
    }
  }

  lemma PartsOfInv(w: World)
    requires Inv(w)
    ensures SeatInv(w.s) && MoneyInv(w.s) && Sound(w)
  {
  }

  lemma PathIs(w: World, r: Request, token: int, order: string, payment: string, h: int)
    ensures var (path, id, e) := (Path(w, r, token, order, payment, h), w.s.nextBooking, PaidEvent(w, r, order, payment));
      && |path| == 6 && path[0] == Start(r, token) && path[1] == HoldStep(id, false, None)
      && path == [Start(r, token), HoldStep(id, false, None)]
                 + [PaymentStep(id, Some(order), false, None), VerifyStep(w.s.pay.nextOrder, payment, true)]
                 + [Look(h, PaidMessage(e), id), Claim(h, false, None)]
      && e == Pay.Event(id, w.s.pay.nextOrder, order, payment, TotalPrice(w.s.inv.seats, r.schedule, r.seats), Pay.Captured)
  {
  }

  lemma ReadyMeans(w: World, r: Request, token: int, order: string, payment: string, h: int)
    requires Ready(w, r, token, order, payment, h)
    ensures order != "" && !Pay.UsesGatewayOrder(w.s.pay, order) && payment != "" && h !in w.seen
    ensures forall o :: o in w.s.pay.orders ==> w.s.pay.orders[o].gatewayPayment != payment
    ensures TotalPrice(w.s.inv.seats, r.schedule, r.seats) > 0
    ensures Clear(r.schedule, r.seats, w.s.busy.calls) && Clear(r.schedule, r.seats, w.s.busy.unlocks)
  {
    hide Clear;
  }

  lemma ForMeans(b: Booking, r: Request)
    requires For(b, r)
    ensures b.user == r.user && b.schedule == r.schedule && b.seats == r.seats && b.seg == r.seg
  {
  }

  /** Locked, and the creation is about to ask for the payment order. */
  lemma HeldRun(w: World, r: Request, token: int, order: string, payment: string, h: int) returns (w2: World)
    requires Inv(w) && Ready(w, r, token, order, payment, h)
    ensures var id := w.s.nextBooking;
      && IsRun(w, [Start(r, token), HoldStep(id, false, None)], w2) && Inv(w2)
      && w2 == w.(s := w2.s, creating := w.creating[id := ToPay]) && w2.s.pay == w.s.pay && w2.s.busy == w.s.busy
      && id > 0 && id in w2.s.bookings && w2.s.bookings[id].status == SeatsHeld && For(w2.s.bookings[id], r) && r.user > 0
      && w2.s.bookings[id].amount == TotalPrice(w.s.inv.seats, r.schedule, r.seats) && UnlockReaches(w2.s, id)
      && w2.s.bookings[id].user == r.user && w2.s.requests == w.s.requests + {r.key} && OthersKept(w.s, w2.s, id)
  {
    var id := w.s.nextBooking;
    var path := Path(w, r, token, order, payment, h);
    PathIs(w, r, token, order, payment, h);
    ReadyMeans(w, r, token, order, payment, h);
    assert IsRun(w, [], w);
    assert [] + [path[0], path[1]] == [Start(r, token), HoldStep(id, false, None)];
    hide *;
    w2 := Held(w, r, token, order, payment, h);
    TwoMore(w, [], w, path[0], path[1]);
    ForIsClear(w.s, w2.s, id, r);
  }

  lemma TimelyRunOfTwo(w: World, a: Step, b: Step)
    requires Inv(w) && TwoTimely(w, a, b)
    ensures IsRun(w, [a, b], Next(Next(w, a), b)) && Inv(Next(Next(w, a), b))
  {
    hide *;
    TwoKeepInv(w, a, b);
    TimelyPair(w, a, b);
    TwoRun(w, a, b);
  }

  lemma TimelyPair(w: World, a: Step, b: Step)
    requires TwoTimely(w, a, b)
    ensures Enabled(w, a) && Enabled(Next(w, a), b) && OnTimeStep(w, a) && OnTimeStep(Next(w, a), b)
  {
    hide Enabled, Next, OnTime, Uncontended;
  }

  /** A whole request, and what it leaves of everything else. */
  ghost predicate Served(w: World, v: World, id: int, r: Request, order: string, payment: string) {
    && Inv(v) && id in v.s.bookings && v.s.bookings[id].status == Confirmed && For(v.s.bookings[id], r) && v.s.bookings[id].order == w.s.pay.nextOrder
    && OthersKept(w.s, v.s, id) && v.s.busy == w.s.busy
    && v == w.(s := v.s, creating := (w.creating[id := ToPay]) - {id})
    && v.s.pay.done == w.s.pay.done[Pay.PaymentKey(id) := w.s.pay.nextOrder]
    && v.s.pay.orders == w.s.pay.orders[w.s.pay.nextOrder := v.s.pay.orders[w.s.pay.nextOrder]]
    && var o := v.s.pay.orders[w.s.pay.nextOrder]; o.gatewayOrder == order && o.gatewayPayment == payment && o.status == Pay.Captured
  }

  lemma IsServed(w: World, w2: World, w4: World, v: World, id: int, r: Request, order: string, payment: string)
    requires w2 == w.(s := w2.s, creating := w.creating[id := ToPay]) && w2.s.pay == w.s.pay && w2.s.busy == w.s.busy
    requires id in w2.s.bookings && For(w2.s.bookings[id], r)
    requires w4 == w2.(s := w4.s, creating := w2.creating - {id}) && w4.s.busy == w2.s.busy
    requires w4.s.pay.done == w2.s.pay.done[Pay.PaymentKey(id) := w2.s.pay.nextOrder]
    requires w4.s.pay.orders == w2.s.pay.orders[w2.s.pay.nextOrder :=
      Pay.Order(id, w2.s.bookings[id].user, w2.s.bookings[id].amount, order, payment, Pay.Captured, 1)]
    requires id in w4.s.bookings && w4.s.bookings[id] == w2.s.bookings[id].(status := PaymentPending, order := w2.s.pay.nextOrder)
    requires Inv(v) && v.s.pay == w4.s.pay && v == w4.(s := v.s) && v.s.busy == w4.s.busy && OthersKept(w.s, v.s, id)
    requires id in v.s.bookings && v.s.bookings[id] == w4.s.bookings[id].(status := Confirmed, version := w4.s.bookings[id].version + 1)
    ensures Served(w, v, id, r, order, payment)
  {
    hide Inv, OthersKept;
  }

  lemma ConfirmedRun(w: World, r: Request, token: int, order: string, payment: string, h: int) returns (v: World)
    requires Inv(w) && Ready(w, r, token, order, payment, h)
    ensures IsRun(w, Path(w, r, token, order, payment, h), v) && Served(w, v, w.s.nextBooking, r, order, payment)
  {
    var (id, e) := (w.s.nextBooking, PaidEvent(w, r, order, payment));
    PathIs(w, r, token, order, payment, h);
    ReadyMeans(w, r, token, order, payment, h);
    hide *;
    var (first, second) := ([Start(r, token), HoldStep(id, false, None)],
                            [PaymentStep(id, Some(order), false, None), VerifyStep(w.s.pay.nextOrder, payment, true)]);
    var w2 := HeldRun(w, r, token, order, payment, h);
    ForMeans(w2.s.bookings[id], r);
    var w4 := Captured(w, w2, id, order, payment);
    TimelyRunOfTwo(w2, second[0], second[1]);
    ForIsClear(w.s, w4.s, id, r);
    v := Confirming(w4, id, e, h);
    TwoRun(w4, Look(h, PaidMessage(e), id), Claim(h, false, None));
    RunThen(w, first, w2, second, w4);
    RunThen(w, first + second, w4, [Look(h, PaidMessage(e), id), Claim(h, false, None)], v);
    OthersKeptBoth(w.s, w2.s, w4.s, id);
    OthersKeptBoth(w.s, w4.s, v.s, id);
    IsServed(w, w2, w4, v, id, r, order, payment);
  }
}
