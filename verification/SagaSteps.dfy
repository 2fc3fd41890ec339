/** The steps that take seats or move a booking forward. */
module SagaSteps {
  import opened Options
  import opened Inventory
  import opened InventoryInvariants
  import opened InventoryRoundTrips
  import opened BookingSaga
  import opened SagaEndings
  import opened SagaSeats
  import R = RedisLocks
  import Pay = Payments
  import Query = SeatQuery

  /* ---- begin ---- */

  lemma BookableMeans(s: System, r: Request)
    requires Invariant(s.inv) && Bookable(s, r)
    ensures Gate(s.inv, r.schedule, r.seats).None? && Blocked(s.inv.locks, r.schedule, IdSet(r.seats), r.seg) == {}
  {
    Query.LockSucceedsIffReported(s.inv, r.user, r.schedule, r.seats, r.seg);
    LockEffect(s.inv, r.user, r.schedule, r.seats, r.seg);
  }

  /** A key that is free in Redis and available in the inventory is not that of a confirmed booking. */
  lemma BookableIsNotConfirmed(s: System, r: Request, token: int, c: int)
    requires SeatInv(s) && Bookable(s, r) && c in s.bookings && s.bookings[c].status == Confirmed
    ensures Keys(s.bookings[c]) !! Keys(NewBooking(s, r, token))
  {
    hide Bookable, Invariant, Gate;
    BookableMeans(s, r);
    var b := s.bookings[c];
    assert BookingSound(s, c);
    forall k | k in Keys(b) ensures k !in Keys(NewBooking(s, r, token)) {
      var n :| 0 <= n < |b.seats| && b.seats[n] == k.seat;
      assert OwnsRow(s, c, b.base + n);
      var row := s.inv.locks[b.base + n];
      assert row.key == SeatKey(k.schedule, k.seat) && row.seg == Segment(k.from, k.to) && row.Active();
      assert row.key.schedule == r.schedule && row.key.seat in IdSet(r.seats) && row.seg.Overlaps(r.seg)
        ==> row.key.seat in Blocked(s.inv.locks, r.schedule, IdSet(r.seats), r.seg);
    }
  }

  lemma BeginOther(s: System, r: Request, token: int, c: int)
    requires SeatInv(s) && Begin(s, r, token).nextBooking != s.nextBooking && c in s.bookings
    ensures BookingSound(Begin(s, r, token), c)
  {
    hide Bookable, Invariant, Gate, KeySound, RowSound, Fits;
    var b := NewBooking(s, r, token);
    KeyListHasKeys(b);
    assert BookingSound(s, c);
    var s' := Begin(s, r, token);
    assert s'.redis == s.redis + R.Claim(Keys(b), token);
    if s.bookings[c].status == Confirmed {
      BookableIsNotConfirmed(s, r, token, c);
    }
    if s.bookings[c].Holding() {
      forall k | k in Keys(s.bookings[c]) ensures OwnsKey(s', c, k) {
        assert OwnsKey(s, c, k);
      }
    }
    if s.bookings[c].Rowed() {
      forall i: nat | s.bookings[c].InRange(i) ensures OwnsRow(s', c, i) {
        assert OwnsRow(s, c, i);
      }
    }
  }

  /** What a successful begin adds. */
  ghost predicate Begun(s: System, s': System, b: Booking) {
    && s'.inv == s.inv && s'.owner.Keys == s.inv.locks.Keys && (forall i :: i in s.owner ==> i in s'.owner && s'.owner[i] == s.owner[i])
    && Keys(b) !! s.redis.Keys && s'.holder.Keys == s'.redis.Keys == s.redis.Keys + Keys(b)
    && (forall k :: k in s.redis ==> s'.redis[k] == s.redis[k] && k in s.holder && s'.holder[k] == s.holder[k])
    && (forall k :: k in Keys(b) ==> s'.redis[k] == b.token && s'.holder[k] == s.nextBooking)
    && s'.bookings == s.bookings[s.nextBooking := b] && s'.nextBooking == s.nextBooking + 1
    && b.status == Pending
  }

  lemma BeginBegins(s: System, r: Request, token: int)
    requires s.owner.Keys == s.inv.locks.Keys && s.holder.Keys == s.redis.Keys && Begin(s, r, token).nextBooking != s.nextBooking
    ensures Begun(s, Begin(s, r, token), NewBooking(s, r, token)) && Bookable(s, r)
  {
    hide Bookable, TotalPrice, Keys, KeyList;
    KeyListHasKeys(NewBooking(s, r, token));
  }

  lemma NextIsNew(s: System)
    requires SeatInv(s)
    ensures s.nextBooking !in s.bookings
  {
    forall id | id in s.bookings ensures id < s.nextBooking {
      assert BookingSound(s, id);
    }
  }

  lemma BegunSelf(s: System, s': System, b: Booking)
    requires SeatInv(s) && Begun(s, s', b) && Gate(s.inv, b.schedule, b.seats).None? && SeatRequest(b.user, b.schedule, b.seats, b.seg)
    ensures BookingSound(s', s.nextBooking)
  {
    hide Invariant, Gate, KeySound, RowSound;
  }

  lemma BegunKey(s: System, s': System, b: Booking, k: R.LockKey)
    requires SeatInv(s) && Begun(s, s', b) && k in s'.holder && s.nextBooking !in s.bookings
    ensures KeySound(s', k)
  {
    hide Invariant, BookingSound;
    if k in s.holder {
      assert KeySound(s, k);
    }
  }

  lemma BegunRow(s: System, s': System, b: Booking, i: nat)
    requires SeatInv(s) && Begun(s, s', b) && i in s'.owner && s.nextBooking !in s.bookings
    ensures RowSound(s', i)
  {
    hide Invariant, BookingSound;
    assert RowSound(s, i);
  }

  /** A request that fails after its Redis locks, or before them, leaves the whole system as it was. */
  lemma FailedBeginChangesNothing(s: System, r: Request, token: int)
    requires s.holder.Keys == s.redis.Keys
    ensures Begin(s, r, token) == s <==> Begin(s, r, token).nextBooking == s.nextBooking
  {
    var b := NewBooking(s, r, token);
    if Bookable(s, r) && R.CanAcquire(s.redis, KeyList(b)) && r.key in s.requests {
      R.AcquireThenRelease(s.redis, KeyList(b), token);
      assert Begin(s, r, token).holder == s.holder;
    }
  }

  lemma AcceptableRequest(s: System, r: Request)
    requires Bookable(s, r)
    ensures SeatRequest(r.user, r.schedule, r.seats, r.seg)
  {
  }

  lemma BeginKeepsInv(s: System, r: Request, token: int)
    requires SeatInv(s)
    ensures SeatInv(Begin(s, r, token))
  {
    hide Bookable, Invariant, BookingSound, KeySound, RowSound;
    FailedBeginChangesNothing(s, r, token);
    var s' := Begin(s, r, token);
    if s'.nextBooking != s.nextBooking {
      var b := NewBooking(s, r, token);
      BeginBegins(s, r, token);
      BookableMeans(s, r);
      NextIsNew(s);
      AcceptableRequest(s, r);
      forall c | c in s'.bookings ensures BookingSound(s', c) {
        if c == s.nextBooking {
          BegunSelf(s, s', b);
        } else {
          BeginOther(s, r, token, c);
        }
      }
      forall k | k in s'.holder ensures KeySound(s', k) {
        BegunKey(s, s', b, k);
      }
      forall i | i in s'.owner ensures RowSound(s', i) {
        BegunRow(s, s', b, i);
      }
    }
  }

  /* ---- hold ---- */

  /** What a booking that just inserted its rows looks like. */
  ghost predicate Occupied(s: System, s': System, id: int) {
    && id in s.bookings
    && Invariant(s'.inv) && SameFrame(s.inv, s'.inv) && s'.nextBooking == s.nextBooking
    && s'.redis == s.redis && s'.holder == s.holder && s'.owner.Keys == s'.inv.locks.Keys
    && var b := s.bookings[id].(status := SeatsHeld, base := s.inv.nextId);
    && s'.bookings == s.bookings[id := b]
    && (forall i :: i in s.inv.locks ==> i < b.base && i in s'.inv.locks && s'.inv.locks[i] == s.inv.locks[i])
    && (forall i :: i in s.inv.locks ==> i in s'.owner && i in s.owner && s'.owner[i] == s.owner[i])
    && (forall i: nat :: b.InRange(i) ==> i in s'.inv.locks && i in s'.owner && s'.owner[i] == id && Fits(b, id, i, s'.inv.locks[i]))
    && (forall i :: i in s'.inv.locks && i !in s.inv.locks ==> b.InRange(i))
  }

  lemma OccupiedKeepsInv(s: System, s': System, id: int)
    requires SeatInv(s) && id in s.bookings && s.bookings[id].status == Pending && Occupied(s, s', id)
    ensures SeatInv(s')
  {
    hide Invariant, SameFrame, BookingSound, KeySound, RowSound;
    forall c | c in s'.bookings ensures BookingSound(s', c) {
      OccupiedBooking(s, s', id, c);
    }
    forall k | k in s'.holder ensures KeySound(s', k) {
      OccupiedKey(s, s', id, k);
    }
    forall i | i in s'.owner ensures RowSound(s', i) {
      OccupiedRow(s, s', id, i);
    }
  }

  lemma OccupiedBooking(s: System, s': System, id: int, c: int)
    requires SeatInv(s) && id in s.bookings && s.bookings[id].status == Pending && Occupied(s, s', id) && c in s.bookings
    ensures BookingSound(s', c)
  {
    hide Invariant, Gate, KeySound, RowSound;
    var b := s.bookings[c];
    assert BookingSound(s, c);
    GateDependsOnFrame(s.inv, s'.inv, b.schedule, b.seats);
    SameKeys(b, s'.bookings[c]);
    if b.Holding() {
      forall k | k in Keys(b) ensures OwnsKey(s', c, k) {
        assert OwnsKey(s, c, k);
      }
    }
    if c != id && b.Rowed() {
      forall i: nat | b.InRange(i) ensures OwnsRow(s', c, i) {
        assert OwnsRow(s, c, i);
      }
    }
  }

  lemma OccupiedKey(s: System, s': System, id: int, k: R.LockKey)
    requires SeatInv(s) && id in s.bookings && Occupied(s, s', id) && k in s'.holder
    ensures KeySound(s', k)
  {
    hide Invariant, SameFrame, BookingSound, Fits;
    assert KeySound(s, k);
  }

  lemma OccupiedRow(s: System, s': System, id: int, i: nat)
    requires SeatInv(s) && id in s.bookings && s.bookings[id].status == Pending && Occupied(s, s', id) && i in s'.owner
    ensures RowSound(s', i)
  {
    hide Invariant, SameFrame, BookingSound, Fits;
    if i in s.inv.locks {
      assert RowSound(s, i);
    }
  }

  lemma LockedTable(s: System, id: int)
    requires SeatInv(s) && id in s.bookings
    requires var b := s.bookings[id]; LockUnder(s.inv, s.busy.calls, b.user, b.schedule, b.seats, b.seg).1.Done?
    ensures var b := s.bookings[id];
      var inv := LockUnder(s.inv, s.busy.calls, b.user, b.schedule, b.seats, b.seg).0;
      && Invariant(inv) && SameFrame(s.inv, inv) && (forall i :: i in s.inv.locks ==> i < s.inv.nextId)
      && inv.locks == s.inv.locks + NewRows(s.inv.nextId, b.schedule, b.seats, b.seg, b.user)
  {
    hide LockUnder, LockSeats, Gate, KeySound, RowSound, SameFrame;
    var b := s.bookings[id];
    assert BookingSound(s, id);
    LockUnderEffect(s.inv, s.busy.calls, b.user, b.schedule, b.seats, b.seg);
    LockEffect(s.inv, b.user, b.schedule, b.seats, b.seg);
    LockKeepsInvariant(s.inv, b.user, b.schedule, b.seats, b.seg);
  }

  lemma InsertedRowsFit(b: Booking, id: int, locks: LockTable, n: nat)
    requires b.status == SeatsHeld && b.base == n && forall i :: i in locks ==> i < n
    ensures var after := locks + NewRows(n, b.schedule, b.seats, b.seg, b.user);
      && (forall i :: i in locks ==> i in after && after[i] == locks[i])
      && (forall i: nat :: b.InRange(i) ==> i in after && i !in locks && Fits(b, id, i, after[i]))
      && (forall i :: i in after && i !in locks ==> b.InRange(i))
  {
  }

  lemma InsertedOccupies(s: System, id: int, inv: Db, b: Booking)
    requires s.owner.Keys == s.inv.locks.Keys && id in s.bookings && b == s.bookings[id].(status := SeatsHeld, base := s.inv.nextId)
    requires Invariant(inv) && SameFrame(s.inv, inv) && forall i :: i in s.inv.locks ==> i < s.inv.nextId
    requires inv.locks == s.inv.locks + NewRows(s.inv.nextId, b.schedule, b.seats, b.seg, b.user)
    ensures Occupied(s, WithBooking(WithInventory(s, id, inv), id, b), id)
  {
    hide Invariant, SameFrame, NewRows, Fits;
    InsertedRowsFit(b, id, s.inv.locks, s.inv.nextId);
  }

  lemma HeldOccupies(s: System, id: int, gateway: Option<string>)
    requires SeatInv(s) && id in s.bookings && s.bookings[id].status == Pending
    requires var b := s.bookings[id]; LockUnder(s.inv, s.busy.calls, b.user, b.schedule, b.seats, b.seg).1.Done?
    ensures Occupied(s, Hold(s, id, false, gateway), id)
  {
    hide LockUnder, Invariant, BookingSound, KeySound, RowSound, SameFrame, Abandon, Occupied, NewRows;
    var b := s.bookings[id];
    LockedTable(s, id);
    var inv := LockUnder(s.inv, s.busy.calls, b.user, b.schedule, b.seats, b.seg).0;
    var b' := b.(status := SeatsHeld, base := s.inv.nextId);
    InsertedOccupies(s, id, inv, b');
    assert Hold(s, id, false, gateway) == WithBooking(WithInventory(s, id, inv), id, b');
  }

  /** A reply that never arrives: the seats were locked, and abandoning the booking unlocks them again. */
  lemma LostHoldKeepsInv(s: System, id: int, gateway: Option<string>)
    requires SeatInv(s) && id in s.bookings && s.bookings[id].status == Pending && UnlockClear(s, id) && KnownLog(LogOf(s, id))
    requires var b := s.bookings[id]; LockUnder(s.inv, s.busy.calls, b.user, b.schedule, b.seats, b.seg).1.Done?
    ensures SeatInv(Hold(s, id, true, gateway))
  {
    hide LockUnder, SeatInv, Abandon, KnownLog;
    var held := Hold(s, id, false, gateway);
    HeldOccupies(s, id, gateway);
    OccupiedKeepsInv(s, held, id);
    LostHoldIsAbandonedHold(s, id, gateway);
    AbandonKeepsInv(held, id, gateway);
  }

  lemma LostHoldIsAbandonedHold(s: System, id: int, gateway: Option<string>)
    requires id in s.bookings && s.bookings[id].status == Pending && KnownLog(LogOf(s, id))
    requires var b := s.bookings[id]; LockUnder(s.inv, s.busy.calls, b.user, b.schedule, b.seats, b.seg).1.Done?
    ensures Hold(s, id, true, gateway) == Abandon(Hold(s, id, false, gateway), id, gateway)
    ensures Hold(s, id, false, gateway).bookings[id].Holding() && LogOf(Hold(s, id, false, gateway), id) == LogOf(s, id)
  {
    hide LockUnder, Abandon, KnownLog;
    var b := s.bookings[id];
    var held := Hold(s, id, false, gateway);
    var locked := WithBooking(held, id, held.bookings[id].(status := Pending));
    assert locked.bookings == s.bookings[id := b.(base := s.inv.nextId)];
    assert Hold(s, id, true, gateway) == Abandon(locked, id, gateway);
    AbandonIgnoresStatus(held, id, Pending, gateway);
  }

  lemma CompensationIgnoresStatus(s: System, id: int, st: Status, log: seq<SagaStep>, gateway: Option<string>)
    requires id in s.bookings && KnownLog(log)
    ensures var b := s.bookings[id].(status := st);
      CompensateAll(WithBooking(s, id, b), id, log, gateway) == WithBooking(CompensateAll(s, id, log, gateway), id, b)
  {
    hide CompensateAll, UnlockUnder;
    CompensateAllUnlocksOnce(s, id, log, gateway);
    CompensateAllUnlocksOnce(WithBooking(s, id, s.bookings[id].(status := st)), id, log, gateway);
  }

  lemma AbandonIgnoresStatus(s: System, id: int, st: Status, gateway: Option<string>)
    requires id in s.bookings && KnownLog(LogOf(s, id))
    ensures Abandon(WithBooking(s, id, s.bookings[id].(status := st)), id, gateway) == Abandon(s, id, gateway)
  {
    hide CompensateAll, KnownLog;
    var b := s.bookings[id];
    var t := WithBooking(s, id, b.(status := st));
    CompensationIgnoresStatus(s, id, st, LogOf(s, id), gateway);
    SameKeys(b, t.bookings[id]);
    var final := b.(status := Failed, reason := OtherFailure);
    var c := CompensateAll(s, id, LogOf(s, id), gateway);
    assert c.bookings[id := t.bookings[id]][id := final] == c.bookings[id := final];
  }

  /** The seats were locked, but the creation does not learn of it. */
  predicate LockIsLost(s: System, id: int, lost: bool)
    requires id in s.bookings
  {
    var b := s.bookings[id];
    lost && LockUnder(s.inv, s.busy.calls, b.user, b.schedule, b.seats, b.seg).1.Done?
  }

  lemma HoldKeepsInv(s: System, id: int, lost: bool, gateway: Option<string>)
    requires SeatInv(s) && id in s.bookings && s.bookings[id].status == Pending && KnownLog(LogOf(s, id))
    requires LockIsLost(s, id, lost) ==> UnlockClear(s, id)
    ensures SeatInv(Hold(s, id, lost, gateway))
  {
    hide LockUnder, SeatInv, Abandon, KnownLog;
    var b := s.bookings[id];
    if LockUnder(s.inv, s.busy.calls, b.user, b.schedule, b.seats, b.seg).1.Done? {
      if lost {
        LostHoldKeepsInv(s, id, gateway);
      } else {
        HeldOccupies(s, id, gateway);
        OccupiedKeepsInv(s, Hold(s, id, lost, gateway), id);
      }
    } else {
      RefusedHoldKeepsInv(s, id, lost, gateway);
    }
  }

  /** A refused lock: compensation finds nothing of this booking to unlock. */
  lemma RefusedHoldKeepsInv(s: System, id: int, lost: bool, gateway: Option<string>)
    requires SeatInv(s) && id in s.bookings && s.bookings[id].status == Pending && KnownLog(LogOf(s, id))
    requires var b := s.bookings[id]; !LockUnder(s.inv, s.busy.calls, b.user, b.schedule, b.seats, b.seg).1.Done?
    ensures SeatInv(Hold(s, id, lost, gateway))
  {
    hide LockUnder, Abandon, KnownLog, BookingSound, KeySound, RowSound;
    var b := s.bookings[id];
    LockUnderEffect(s.inv, s.busy.calls, b.user, b.schedule, b.seats, b.seg);
    var t := WithBooking(WithInventory(s, id, s.inv), id, b.(base := s.inv.nextId));
    PendingBaseIsFree(s, id, t);
    assert LogOf(t, id) == LogOf(s, id);
    AbandonKeepsInv(t, id, gateway);
  }

  lemma PendingBaseIsFree(s: System, id: int, t: System)
    requires SeatInv(s) && id in s.bookings && s.bookings[id].status == Pending
    requires t == WithBooking(WithInventory(s, id, s.inv), id, s.bookings[id].(base := s.inv.nextId))
    ensures SeatInv(t)
  {
    hide SeatInv;
    assert t.owner == s.owner by { OwnersComplete(s); }
    SameSeatsKeepsInv(s, t);
  }

  /* ---- changes that move no seat ---- */

  ghost predicate SameHolding(a: Booking, b: Booking) {
    && a.user == b.user && a.schedule == b.schedule && a.seats == b.seats && a.seg == b.seg && a.token == b.token
    && a.Holding() == b.Holding() && a.Rowed() == b.Rowed() && (a.status == Confirmed <==> b.status == Confirmed)
    && (a.Rowed() ==> a.base == b.base)
  }

  ghost predicate SameSeats(s: System, t: System) {
    && t.inv == s.inv && t.redis == s.redis && t.holder == s.holder && t.owner == s.owner && t.nextBooking == s.nextBooking
    && t.bookings.Keys == s.bookings.Keys && forall c :: c in s.bookings ==> SameHolding(s.bookings[c], t.bookings[c])
  }

  lemma SameSeatsBooking(s: System, t: System, c: int)
    requires SeatInv(s) && SameSeats(s, t) && c in s.bookings
    ensures BookingSound(t, c)
  {
    hide Invariant, Gate, KeySound, RowSound;
    var b := s.bookings[c];
    assert BookingSound(s, c) && SameHolding(b, t.bookings[c]);
    SameKeys(b, t.bookings[c]);
    if b.Holding() {
      forall k | k in Keys(b) ensures OwnsKey(t, c, k) {
        assert OwnsKey(s, c, k);
      }
    }
    if b.Rowed() {
      forall i: nat | b.InRange(i) ensures OwnsRow(t, c, i) {
        assert OwnsRow(s, c, i);
      }
    }
  }

  lemma SameHoldingOf(s: System, t: System, c: int)
    requires SameSeats(s, t) && c in s.bookings
    ensures c in t.bookings && SameHolding(s.bookings[c], t.bookings[c])
  {
  }

  lemma SameSeatsHistory(s: System, t: System)
    requires SeatInv(s) && SameSeats(s, t)
    ensures (forall k :: k in t.holder ==> KeySound(t, k)) && (forall i :: i in t.owner ==> RowSound(t, i))
  {
    hide Invariant, BookingSound;
    forall k | k in t.holder ensures KeySound(t, k) {
      assert KeySound(s, k);
      SameHoldingOf(s, t, s.holder[k]);
      SameKeys(s.bookings[s.holder[k]], t.bookings[s.holder[k]]);
    }
    forall i | i in t.owner ensures RowSound(t, i) {
      assert RowSound(s, i);
      SameHoldingOf(s, t, s.owner[i]);
    }
  }

  lemma SameSeatsKeepsInv(s: System, t: System)
    requires SeatInv(s) && SameSeats(s, t)
    ensures SeatInv(t)
  {
    hide Invariant, BookingSound, KeySound, RowSound, SameHolding;
    SameSeatsHistory(s, t);
    forall c | c in t.bookings ensures BookingSound(t, c) {
      SameSeatsBooking(s, t, c);
    }
  }

  lemma VerifyKeepsInv(s: System, order: int, payment: string, signatureOk: bool)
    requires SeatInv(s)
    ensures SeatInv(VerifyPayment(s, order, payment, signatureOk))
  {
    hide SeatInv;
    SameSeatsKeepsInv(s, VerifyPayment(s, order, payment, signatureOk));
  }

  /** The creation goes on with a payment order. */
  predicate OrderArrives(s: System, id: int, order: Option<string>, lost: bool)
    requires id in s.bookings
  {
    var b := s.bookings[id];
    Pay.CreateOrder(s.pay, Pay.PaymentKey(id), id, b.user, b.amount, order).1.Ok? && !lost
  }

  lemma RequestPaymentKeepsInv(s: System, id: int, order: Option<string>, lost: bool, gateway: Option<string>)
    requires SeatInv(s) && id in s.bookings && s.bookings[id].status == SeatsHeld && LogOf(s, id) == HELD_LOG
    requires OrderArrives(s, id, order, lost) || UnlockClear(s, id)
    ensures SeatInv(RequestPayment(s, id, order, lost, gateway))
  {
    hide SeatInv, Abandon;
    var b := s.bookings[id];
    var (pay, reply) := Pay.CreateOrder(s.pay, Pay.PaymentKey(id), id, b.user, b.amount, order);
    var logged := s.(pay := pay, logs := s.logs[id := LogOf(s, id) + [CreatePayment]]);
    if reply.Ok? && !lost {
      SameSeatsKeepsInv(s, RequestPayment(s, id, order, lost, gateway));
    } else {
      SameSeatsKeepsInv(s, logged);
      AbandonKeepsInv(logged, id, gateway);
    }
  }

  /* ---- confirmation ---- */

  /** What a confirmed booking changed: its rows are BOOKED under its id, its keys are free. */
  ghost predicate Promoted(s: System, s': System, id: int) {
    && id in s.bookings && id in s'.bookings
    && Invariant(s'.inv) && SameFrame(s.inv, s'.inv) && s'.nextBooking == s.nextBooking
    && KeysWithout(s, s', Keys(s.bookings[id]))
    && s'.bookings == s.bookings[id := s.bookings[id].(status := Confirmed, version := s'.bookings[id].version)]
    && s'.owner == s.owner && s'.inv.locks.Keys == s.inv.locks.Keys
    && (forall i :: i in s.inv.locks && i in s.owner && s.owner[i] != id ==> s'.inv.locks[i] == s.inv.locks[i])
    && (forall i :: i in s.inv.locks && i in s.owner && s.owner[i] == id ==>
          s'.inv.locks[i] == s.inv.locks[i].(booking := Some(id), state := Booked, version := s.inv.locks[i].version + 1))
  }

  lemma PromotedOther(s: System, s': System, id: int, c: int)
    requires SeatInv(s) && Promoted(s, s', id) && s.bookings[id].status == PaymentPending && c in s.bookings && c != id
    ensures BookingSound(s', c)
  {
    hide Invariant, Gate, KeySound, RowSound, SameFrame, SeatRequest, Fits;
    var b := s.bookings[c];
    assert BookingSound(s, c);
    GateDependsOnFrame(s.inv, s'.inv, b.schedule, b.seats);
    if b.Holding() {
      forall k | k in Keys(b) ensures OwnsKey(s', c, k) {
        assert OwnsKey(s, c, k);
        if k in Keys(s.bookings[id]) {
          KeyOfHolder(s, id, k);
        }
      }
    }
    if b.Rowed() {
      forall i: nat | b.InRange(i) ensures OwnsRow(s', c, i) {
        assert OwnsRow(s, c, i);
      }
    }
  }

  lemma PromotedSelf(s: System, s': System, id: int)
    requires SeatInv(s) && Promoted(s, s', id) && s.bookings[id].status == PaymentPending
    ensures BookingSound(s', id)
  {
    hide Invariant, Gate, KeySound, RowSound, SameFrame, SeatRequest;
    var b := s.bookings[id];
    assert BookingSound(s, id);
    GateDependsOnFrame(s.inv, s'.inv, b.schedule, b.seats);
    SameKeys(b, s'.bookings[id]);
    forall i: nat | b.InRange(i) ensures OwnsRow(s', id, i) {
      assert OwnsRow(s, id, i);
      PromotedRow(s, s', id, i);
    }
    hide OwnsRow;
  }

  lemma PromotedRow(s: System, s': System, id: int, i: nat)
    requires id in s.bookings && Promoted(s, s', id) && s.bookings[id].status == PaymentPending
    requires s.bookings[id].InRange(i) && OwnsRow(s, id, i)
    ensures OwnsRow(s', id, i)
  {
    hide Invariant, SameFrame, KeysWithout;
  }

  lemma PromotedHistory(s: System, s': System, id: int)
    requires SeatInv(s) && Promoted(s, s', id) && s.bookings[id].status == PaymentPending
    ensures (forall k :: k in s'.holder ==> KeySound(s', k)) && (forall i :: i in s'.owner ==> RowSound(s', i))
  {
    hide Invariant, BookingSound, SameFrame;
    forall k | k in s'.holder ensures KeySound(s', k) {
      assert KeySound(s, k);
    }
    forall i | i in s'.owner ensures RowSound(s', i) {
      assert RowSound(s, i);
    }
  }

  lemma PromotedKeepsInv(s: System, s': System, id: int)
    requires SeatInv(s) && Promoted(s, s', id) && s.bookings[id].status == PaymentPending
    ensures SeatInv(s')
  {
    hide Invariant, BookingSound, KeySound, RowSound, SameFrame;
    PromotedHistory(s, s', id);
    forall c | c in s'.bookings ensures BookingSound(s', c) {
      if c == id {
        PromotedSelf(s, s', id);
      } else {
        PromotedOther(s, s', id, c);
      }
    }
  }

  /** The confirmation is accepted, and reaches exactly the rows of the booking, if and only if none of its seat rows is held. */
  lemma ConfirmIsAcceptedIff(s: System, id: int)
    requires SeatInv(s) && id in s.bookings && s.bookings[id].Holding()
    ensures var b := s.bookings[id];
      var (inv, reply) := ConfirmUnder(s.inv, s.busy.calls, id, b.user, b.schedule, b.seats, b.seg);
      && (reply.Done? <==> CallClear(s, id)) && (!reply.Done? ==> inv == s.inv)
      && (reply.Done? ==> Invariant(inv) && SameFrame(s.inv, inv)
                          && inv.locks == Inventory.Confirmed(s.inv.locks, b.schedule, IdSet(b.seats), b.seg, b.user, id))
  {
    hide ConfirmUnder, ConfirmSeats, Invariant, Gate, KeySound, RowSound;
    var b := s.bookings[id];
    assert BookingSound(s, id);
    ConfirmUnderEffect(s.inv, s.busy.calls, id, b.user, b.schedule, b.seats, b.seg);
    ConfirmEffect(s.inv, id, b.user, b.schedule, b.seats, b.seg);
    ConfirmKeepsInvariant(s.inv, id, b.user, b.schedule, b.seats, b.seg);
  }

  lemma ConfirmedRows(s: System, id: int, i: nat)
    requires SeatInv(s) && id in s.bookings && s.bookings[id].Holding() && i in s.inv.locks
    ensures var b := s.bookings[id];
      Inventory.Confirmed(s.inv.locks, b.schedule, IdSet(b.seats), b.seg, b.user, id)[i] ==
        if s.owner[i] == id then s.inv.locks[i].(booking := Some(id), state := Booked, version := s.inv.locks[i].version + 1)
        else s.inv.locks[i]
  {
    hide SeatInv;
    UnlockNamesOwnRows(s, id, i);
  }

  lemma ConfirmPromotes(s: System, id: int, refreshed: bool)
    requires SeatInv(s) && id in s.bookings && s.bookings[id].status == PaymentPending && CallClear(s, id)
    ensures Promoted(s, ConfirmPaid(s, id, refreshed), id)
  {
    hide ConfirmUnder, Invariant, SameFrame, BookingSound, KeySound, RowSound, Inventory.Confirmed, KeysWithout, R.ForceReleased;
    var b := s.bookings[id];
    var b' := b.(status := Confirmed, version := b.version + Bump(refreshed));
    ConfirmIsAcceptedIff(s, id);
    ReleaseRemovesOwnKeys(s, id);
    SameKeys(b, b');
    var inv := ConfirmUnder(s.inv, s.busy.calls, id, b.user, b.schedule, b.seats, b.seg).0;
    var c := WithBooking(WithInventory(s, id, inv), id, b');
    ConfirmedKeepsRowIds(s, id);
    assert c.owner == s.owner;
    ReleasedKeys(s, c, id, Keys(b));
    assert ConfirmPaid(s, id, refreshed) == WithRedis(c, id, s.redis - Keys(b));
    forall i | i in s.inv.locks && i in s.owner
      ensures inv.locks[i] == if s.owner[i] == id
        then s.inv.locks[i].(booking := Some(id), state := Booked, version := s.inv.locks[i].version + 1) else s.inv.locks[i]
    {
      ConfirmedRows(s, id, i);
    }
  }

  lemma ConfirmedKeepsRowIds(s: System, id: int)
    requires id in s.bookings
    ensures var b := s.bookings[id];
      Inventory.Confirmed(s.inv.locks, b.schedule, IdSet(b.seats), b.seg, b.user, id).Keys == s.inv.locks.Keys
  {
  }
}
