/** Every way a booking ends gives back exactly what that booking held. */
module SagaEndings {
  import opened Options
  import opened Inventory
  import opened InventoryInvariants
  import opened InventoryRoundTrips
  import opened BookingSaga
  import opened SagaSeats
  import R = RedisLocks
  import Pay = Payments

  lemma ReleasedKeys(s: System, d: System, id: int, keys: set<R.LockKey>)
    requires s.holder.Keys == s.redis.Keys && d.redis == s.redis && d.holder == s.holder
    ensures KeysWithout(s, WithRedis(d, id, s.redis - keys), keys)
  {
  }

  /** A booking with one unlock behind it, a final status and its keys released. */
  lemma EndedByUnlock(s: System, u: System, d: System, s': System, id: int, b: Booking)
    requires SeatInv(s) && id in s.bookings && s.bookings[id].Holding() && UnlockReaches(s, id) && u == Unlocked(s, id)
    requires d.inv == u.inv && d.owner == u.owner && d.redis == s.redis && d.holder == s.holder && d.nextBooking == s.nextBooking
    requires d.bookings == s.bookings[id := b] && !b.Live()
    requires SeatRequest(b.user, b.schedule, b.seats, b.seg)
    requires s' == WithRedis(d, id, s.redis - Keys(s.bookings[id]))
    ensures Vacated(s, s', id)
  {
    hide Unlocked, Invariant, SameFrame, BookingSound, KeySound, RowSound, KeysWithout;
    UnlockRemovesOwnRows(s, id);
    ReleasedKeys(s, d, id, Keys(s.bookings[id]));
  }

  lemma RequestOf(s: System, id: int)
    requires SeatInv(s) && id in s.bookings
    ensures var b := s.bookings[id]; SeatRequest(b.user, b.schedule, b.seats, b.seg)
  {
    assert BookingSound(s, id);
  }

  predicate KnownLog(log: seq<SagaStep>) {
    log == HELD_LOG || log == PAID_LOG
  }

  lemma CompensatedParts(s: System, id: int, log: seq<SagaStep>, gateway: Option<string>)
    requires id in s.bookings && KnownLog(log)
    ensures var c := CompensateAll(s, id, log, gateway);
      c.inv == Unlocked(s, id).inv && c.owner == Unlocked(s, id).owner && c == s.(inv := c.inv, owner := c.owner, pay := c.pay)
  {
    CompensateAllUnlocksOnce(s, id, log, gateway);
  }

  lemma AbandonVacates(s: System, id: int, gateway: Option<string>)
    requires SeatInv(s) && id in s.bookings && s.bookings[id].Holding() && UnlockReaches(s, id) && KnownLog(LogOf(s, id))
    ensures Vacated(s, Abandon(s, id, gateway), id)
  {
    hide CompensateAll, Unlocked, SeatInv, KnownLog, Vacated;
    var b := s.bookings[id];
    var c := CompensateAll(s, id, LogOf(s, id), gateway);
    CompensatedParts(s, id, LogOf(s, id), gateway);
    ReleaseRemovesOwnKeys(s, id);
    RequestOf(s, id);
    var b' := b.(status := Failed, reason := OtherFailure);
    EndedByUnlock(s, Unlocked(s, id), WithBooking(c, id, b'), Abandon(s, id, gateway), id, b');
  }

  lemma ConfirmFaultsVacates(s: System, id: int, gateway: Option<string>)
    requires SeatInv(s) && id in s.bookings && s.bookings[id].status == PaymentPending && UnlockReaches(s, id) && KnownLog(LogOf(s, id))
    ensures Vacated(s, ConfirmFaults(s, id, gateway), id)
  {
    hide CompensateAll, Unlocked, SeatInv, KnownLog, Vacated;
    var b := s.bookings[id];
    var c := CompensateAll(s, id, LogOf(s, id), gateway);
    CompensatedParts(s, id, LogOf(s, id), gateway);
    ReleaseRemovesOwnKeys(s, id);
    RequestOf(s, id);
    var b' := b.(status := Failed, reason := OtherFailure, version := b.version + 1);
    SameKeys(b, b');
    EndedByUnlock(s, Unlocked(s, id), WithBooking(c, id, b'), ConfirmFaults(s, id, gateway), id, b');
  }

  lemma SameKeys(a: Booking, b: Booking)
    requires a.schedule == b.schedule && a.seats == b.seats && a.seg == b.seg
    ensures KeyList(a) == KeyList(b) && Keys(a) == Keys(b)
  {
  }

  lemma PaymentFailsVacates(s: System, id: int, gateway: Option<string>)
    requires SeatInv(s) && id in s.bookings && s.bookings[id].Holding() && UnlockReaches(s, id) && KnownLog(LogOf(s, id))
    ensures Vacated(s, PaymentFails(s, id, gateway), id)
  {
    hide CompensateAll, SeatInv, KnownLog, Vacated;
    var b := s.bookings[id];
    var b' := b.(status := Failed, reason := OtherFailure, version := b.version + 1);
    var claimed := WithBooking(s, id, b');
    CompensatedParts(claimed, id, LogOf(s, id), gateway);
    ReleaseRemovesOwnKeys(s, id);
    RequestOf(s, id);
    SameKeys(b, b');
    EndedByUnlock(s, Unlocked(s, id), CompensateAll(claimed, id, LogOf(s, id), gateway), PaymentFails(s, id, gateway), id, b');
  }

  lemma CancelHeldVacates(s: System, id: int, version: nat)
    requires SeatInv(s) && id in s.bookings && s.bookings[id].Holding() && UnlockReaches(s, id)
    ensures Vacated(s, CancelHeld(s, id, version), id)
  {
    hide UnlockUnder, SeatInv, Vacated;
    var b := s.bookings[id];
    var b' := b.(status := CancelledByUser, version := version + 1);
    ReleaseRemovesOwnKeys(s, id);
    RequestOf(s, id);
    SameKeys(b, b');
    EndedByUnlock(s, Unlocked(s, id), WithBooking(Unlocked(s, id), id, b'), CancelHeld(s, id, version), id, b');
  }

  /** A PENDING booking has no rows to unlock. */
  lemma CancelPendingVacates(s: System, id: int, version: nat)
    requires SeatInv(s) && id in s.bookings && s.bookings[id].status == Pending
    ensures Vacated(s, CancelPending(s, id, version), id)
  {
    hide BookingSound, KeySound, Gate, SeatRequest, KeysWithout;
    var b := s.bookings[id];
    var b' := b.(status := CancelledByUser, version := version + 1);
    ReleaseRemovesOwnKeys(s, id);
    RequestOf(s, id);
    SameKeys(b, b');
    OwnersComplete(s);
    PendingOwnsNothing(s, id);
    ReleasedKeys(s, WithBooking(s, id, b'), id, Keys(b));
    SameFrameAsBefore(s.inv);
  }

  lemma SameFrameAsBefore(db: Db)
    ensures SameFrame(db, db)
  {
  }

  /* ---- cancellation of a confirmed booking ---- */

  lemma CancelIsAccepted(s: System, id: int)
    requires SeatInv(s) && id in s.bookings && s.bookings[id].status == Confirmed
    ensures var b := s.bookings[id];
      var (inv, reply) := CancelSeats(s.inv, b.schedule, id, b.user);
      && reply.Done? && Invariant(inv) && SameFrame(s.inv, inv) && inv.nextId == s.inv.nextId
      && inv.locks == s.inv.locks - OwnRows(s, id)
  {
    hide Invariant, CancelSeats, KeySound, RowSound;
    var b := s.bookings[id];
    assert BookingSound(s, id);
    CancelNamesOwnRows(s, id);
    assert RowsOfBooking(s.inv.locks, b.schedule, id, b.user) == OwnRows(s, id);
    CancelEffect(s.inv, b.schedule, id, b.user);
    CancelKeepsInvariant(s.inv, b.schedule, id, b.user);
  }

  lemma ConfirmedHoldsNoKeys(s: System, id: int)
    requires SeatInv(s) && id in s.bookings && s.bookings[id].status == Confirmed
    ensures Keys(s.bookings[id]) !! s.redis.Keys
    ensures R.ForceReleased(s.redis, KeyList(s.bookings[id])) == s.redis - Keys(s.bookings[id])
  {
    KeyListHasKeys(s.bookings[id]);
    assert BookingSound(s, id);
  }

  /** The state before the keys are released. */
  function CancelledState(s: System, id: int, gateway: Option<string>, refreshed: bool): System
    requires id in s.bookings
  {
    var b := s.bookings[id];
    var c := WithInventory(s, id, CancelSeats(s.inv, b.schedule, id, b.user).0);
    WithBooking(if b.order != 0 then Refunded(c, id, Pay.CancelKey(id), gateway) else c,
                id, b.(status := CancelledByUser, reason := UserCancelled, version := b.version + Bump(refreshed)))
  }

  lemma CancelConfirmedIs(s: System, id: int, gateway: Option<string>, refreshed: bool)
    requires SeatInv(s) && id in s.bookings && s.bookings[id].status == Confirmed
    ensures CancelConfirmed(s, id, gateway, refreshed)
      == WithRedis(CancelledState(s, id, gateway, refreshed), id, s.redis - Keys(s.bookings[id]))
  {
    ConfirmedHoldsNoKeys(s, id);
    hide CancelSeats, SeatInv, R.ForceReleased, Pay.CreateRefund, WithInventory, WithRedis;
    SameKeys(s.bookings[id], CancelledState(s, id, gateway, refreshed).bookings[id]);
  }

  lemma CancelledStateFrame(s: System, id: int, gateway: Option<string>, refreshed: bool)
    requires id in s.bookings
    ensures var d := CancelledState(s, id, gateway, refreshed);
      && d.redis == s.redis && d.holder == s.holder && d.nextBooking == s.nextBooking && d.bookings == s.bookings[id := d.bookings[id]]
      && d.bookings[id] == s.bookings[id].(status := CancelledByUser, reason := UserCancelled, version := d.bookings[id].version)
  {
    hide CancelSeats, Pay.CreateRefund, WithInventory;
  }

  lemma CancelledStateRows(s: System, id: int, gateway: Option<string>, refreshed: bool)
    requires SeatInv(s) && id in s.bookings && s.bookings[id].status == Confirmed
    ensures var d := CancelledState(s, id, gateway, refreshed);
      Invariant(d.inv) && SameFrame(s.inv, d.inv) && RowsWithout(s, d, id)
  {
    var b := s.bookings[id];
    var inv := CancelSeats(s.inv, b.schedule, id, b.user).0;
    OwnersComplete(s);
    CancelIsAccepted(s, id);
    hide CancelSeats, SeatInv, Invariant, SameFrame, RowsWithout, Pay.CreateRefund, WithInventory, OwnRows;
    assert WithInventory(s, id, inv).inv == inv;
    assert RowsWithout(s, WithInventory(s, id, inv), id) by {
      OwnRowsMembers(s, id);
      DeletedOwnRows(s, id, inv, OwnRows(s, id));
    }
    SameRows(s, WithInventory(s, id, inv), CancelledState(s, id, gateway, refreshed), id);
  }

  lemma OwnRowsMembers(s: System, id: int)
    ensures forall i :: i in OwnRows(s, id) <==> i in s.owner && s.owner[i] == id
  {
  }

  lemma OwnersComplete(s: System)
    requires SeatInv(s)
    ensures s.owner.Keys == s.inv.locks.Keys && s.holder.Keys == s.redis.Keys
  {
  }

  lemma CancelConfirmedVacates(s: System, id: int, gateway: Option<string>, refreshed: bool)
    requires SeatInv(s) && id in s.bookings && s.bookings[id].status == Confirmed
    ensures Vacated(s, CancelConfirmed(s, id, gateway, refreshed), id)
  {
    hide SeatInv, Invariant, SameFrame, RowsWithout, KeysWithout, SeatRequest, CancelConfirmed, CancelledState, Keys;
    CancelConfirmedIs(s, id, gateway, refreshed);
    CancelledStateRows(s, id, gateway, refreshed);
    CancelledStateFrame(s, id, gateway, refreshed);
    OwnersComplete(s);
    RequestOf(s, id);
    var d := CancelledState(s, id, gateway, refreshed);
    ReleasedKeys(s, d, id, Keys(s.bookings[id]));
    SameRows(s, d, CancelConfirmed(s, id, gateway, refreshed), id);
  }

  lemma SameRows(s: System, c: System, s': System, id: int)
    requires RowsWithout(s, c, id) && s'.inv == c.inv && s'.owner == c.owner
    ensures RowsWithout(s, s', id)
  {
  }

  lemma AbandonKeepsInv(s: System, id: int, gateway: Option<string>)
    requires SeatInv(s) && id in s.bookings && s.bookings[id].Holding() && UnlockReaches(s, id) && KnownLog(LogOf(s, id))
    ensures SeatInv(Abandon(s, id, gateway))
  {
    AbandonVacates(s, id, gateway);
    VacatedKeepsInv(s, Abandon(s, id, gateway), id);
  }
}
