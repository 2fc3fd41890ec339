/**
 Who owns which seat, in every state of the saga: segment rows and Redis keys are the disjoint union of what the
 live bookings hold, although no delete and no forced release names a booking.
 */
module SagaSeats {
  import opened IntSets
  import opened Options
  import opened Inventory
  import opened InventoryInvariants
  import opened InventoryRoundTrips
  import opened BookingSaga
  import R = RedisLocks

  function Keys(b: Booking): (keys: set<R.LockKey>)
    ensures forall k :: k in keys <==> k.seat in b.seats && k == Key(b, k.seat)
  {
    set x | x in b.seats :: Key(b, x)
  }

  lemma KeyListHasKeys(b: Booking)
    ensures R.KeySet(KeyList(b)) == Keys(b)
    ensures Distinct(b.seats) ==> R.DistinctKeys(KeyList(b))
  {
    forall k | k in Keys(b) ensures k in R.KeySet(KeyList(b)) {
      var n :| 0 <= n < |b.seats| && b.seats[n] == k.seat;
      assert KeyList(b)[n] == k;
    }
  }

  /** The segment row a booking should have at position `i`. */
  ghost predicate Fits(b: Booking, id: int, i: nat, row: LockRow)
    requires b.InRange(i)
  {
    && row.key == SeatKey(b.schedule, b.seats[i - b.base]) && row.seg == b.seg && row.user == b.user
    && (if b.status == Confirmed then row.state == Booked && row.booking == Some(id) else row.state == Locked && row.booking == None)
  }

  ghost predicate OwnsRow(s: System, id: int, i: nat)
    requires id in s.bookings && s.bookings[id].InRange(i)
  {
    i in s.inv.locks && i in s.owner && s.owner[i] == id && Fits(s.bookings[id], id, i, s.inv.locks[i])
  }

  ghost predicate OwnsKey(s: System, id: int, k: R.LockKey)
    requires id in s.bookings
  {
    k in s.redis && s.redis[k] == s.bookings[id].token && k in s.holder && s.holder[k] == id
  }

  ghost predicate BookingSound(s: System, id: int) {
    && id in s.bookings && 0 < id < s.nextBooking
    && var b := s.bookings[id];
    && SeatRequest(b.user, b.schedule, b.seats, b.seg)
    && (b.Live() ==> Gate(s.inv, b.schedule, b.seats).None?)
    && (b.Holding() ==> forall k :: k in Keys(b) ==> OwnsKey(s, id, k))
    && (b.status == Confirmed ==> Keys(b) !! s.redis.Keys)
    && (b.Rowed() ==> forall i: nat :: b.InRange(i) ==> OwnsRow(s, id, i))
  }

  ghost predicate KeySound(s: System, k: R.LockKey)
    requires k in s.holder
  {
    s.holder[k] in s.bookings && s.bookings[s.holder[k]].Holding() && k in Keys(s.bookings[s.holder[k]])
  }

  ghost predicate RowSound(s: System, i: nat)
    requires i in s.owner
  {
    s.owner[i] in s.bookings && s.bookings[s.owner[i]].Rowed() && s.bookings[s.owner[i]].InRange(i)
  }

  ghost predicate SeatInv(s: System) {
    && Invariant(s.inv) && s.nextBooking > 0
    && s.holder.Keys == s.redis.Keys && s.owner.Keys == s.inv.locks.Keys
    && (forall id :: id in s.bookings ==> BookingSound(s, id))
    && (forall k :: k in s.holder ==> KeySound(s, k))
    && (forall i :: i in s.owner ==> RowSound(s, i))
  }

  /* ---- who holds what ---- */

  lemma KeyOfHolder(s: System, id: int, k: R.LockKey)
    requires SeatInv(s) && id in s.bookings && k in Keys(s.bookings[id])
    ensures s.bookings[id].Holding() ==> k in s.redis && k in s.holder && s.holder[k] == id
    ensures s.bookings[id].status == Confirmed ==> k !in s.redis && k !in s.holder
  {
    assert BookingSound(s, id);
    if s.bookings[id].Holding() {
      assert OwnsKey(s, id, k);
    }
  }

  /** Two live bookings never want the same key while one of them holds it or has it booked. */
  lemma LiveKeysDisjoint(s: System, a: int, b: int)
    requires SeatInv(s) && a in s.bookings && b in s.bookings && a != b && s.bookings[a].Holding() && s.bookings[b].Live()
    ensures Keys(s.bookings[a]) !! Keys(s.bookings[b])
  {
    forall k | k in Keys(s.bookings[a]) ensures k !in Keys(s.bookings[b]) {
      KeyOfHolder(s, a, k);
      if k in Keys(s.bookings[b]) {
        KeyOfHolder(s, b, k);
      }
    }
  }

  /** A row is of its owner: what the owner is tells what the row says. */
  lemma RowOfOwner(s: System, i: nat)
    requires SeatInv(s) && i in s.inv.locks
    ensures RowSound(s, i) && OwnsRow(s, s.owner[i], i) && BookingSound(s, s.owner[i])
  {
    assert RowSound(s, i);
    assert BookingSound(s, s.owner[i]);
  }

  /** The rows that an unlock for a booking would delete are exactly the LOCKED rows that booking inserted. */
  lemma UnlockNamesOwnRows(s: System, id: int, i: nat)
    requires SeatInv(s) && id in s.bookings && s.bookings[id].Holding() && i in s.inv.locks
    ensures var b := s.bookings[id];
      s.inv.locks[i].Matches(b.schedule, IdSet(b.seats), b.seg, b.user, Locked) <==> s.owner[i] == id
  {
    hide Invariant, Gate, SeatRequest;
    var b := s.bookings[id];
    var row := s.inv.locks[i];
    RowOfOwner(s, i);
    assert BookingSound(s, id);
    var o := s.owner[i];
    if row.Matches(b.schedule, IdSet(b.seats), b.seg, b.user, Locked) && o != id {
      KeyOfHolder(s, id, Key(b, row.key.seat));
      KeyOfHolder(s, o, Key(b, row.key.seat));
    }
  }

  /** The rows that the cancellation of a confirmed booking selects are exactly the rows that booking inserted. */
  lemma CancelNamesOwnRows(s: System, id: int)
    requires SeatInv(s) && id in s.bookings && s.bookings[id].status == Confirmed
    ensures var b := s.bookings[id];
      && (forall i :: i in RowsOfBooking(s.inv.locks, b.schedule, id, b.user) <==> i in s.owner && s.owner[i] == id)
      && b.base in RowsOfBooking(s.inv.locks, b.schedule, id, b.user)
      && CancelDeleted(s.inv.locks, b.schedule, RowsOfBooking(s.inv.locks, b.schedule, id, b.user), b.user)
         == s.inv.locks - RowsOfBooking(s.inv.locks, b.schedule, id, b.user)
  {
    var b := s.bookings[id];
    var rows := RowsOfBooking(s.inv.locks, b.schedule, id, b.user);
    assert BookingSound(s, id);
    forall i | i in s.inv.locks ensures i in rows <==> s.owner[i] == id {
      RowOfOwner(s, i);
    }
    assert OwnsRow(s, id, b.base);
    forall i | i in rows ensures s.inv.locks[i].seg == b.seg {
      RowOfOwner(s, i);
    }
    CancelOfOneSegment(s.inv.locks, b.schedule, id, b.user, b.seg);
  }

  /* ---- compensation ---- */

  const HELD_LOG := [HoldSeats]
  const PAID_LOG := [HoldSeats, CreatePayment]

  /** Compensating a logged saga unlocks the seats once and, if a payment was logged, asks for its refund once. */
  lemma CompensateAllUnlocksOnce(s: System, id: int, log: seq<SagaStep>, gateway: Option<string>)
    requires id in s.bookings && (log == HELD_LOG || log == PAID_LOG)
    ensures CompensateAll(s, id, log, gateway) ==
      if log == HELD_LOG then Unlocked(s, id) else Refunded(Unlocked(s, id), id, Pay.CompensationKey(id), gateway)
  {
    assert HELD_LOG[..0] == [] && PAID_LOG[..1] == HELD_LOG;
    assert CompensateAll(s, id, HELD_LOG, gateway) == Unlocked(s, id) by {
      assert CompensateAll(s, id, HELD_LOG[..0], gateway) == s;
    }
  }

  /* ---- giving everything up ---- */

  /** What a booking that ends leaves behind: its own rows and keys are gone, everything else is as before. */
  ghost predicate Vacated(s: System, s': System, id: int)
    requires id in s.bookings
  {
    && Invariant(s'.inv) && SameFrame(s.inv, s'.inv) && s'.nextBooking == s.nextBooking
    && RowsWithout(s, s', id) && KeysWithout(s, s', Keys(s.bookings[id]))
    && id in s'.bookings && !s'.bookings[id].Live() && s'.bookings == s.bookings[id := s'.bookings[id]]
    && SeatRequest(s'.bookings[id].user, s'.bookings[id].schedule, s'.bookings[id].seats, s'.bookings[id].seg)
  }

  ghost predicate RowsWithout(s: System, s': System, id: int) {
    && s'.owner.Keys == s'.inv.locks.Keys
    && (forall i :: i in s'.inv.locks <==> i in s.inv.locks && i in s.owner && s.owner[i] != id)
    && (forall i :: i in s'.inv.locks ==> i in s.inv.locks && s'.inv.locks[i] == s.inv.locks[i])
    && (forall i :: i in s'.inv.locks ==> i in s.owner && s'.owner[i] == s.owner[i])
  }

  ghost predicate KeysWithout(s: System, s': System, keys: set<R.LockKey>) {
    && s'.holder.Keys == s'.redis.Keys
    && (forall k :: k in s'.redis <==> k in s.redis && k in s.holder && k !in keys)
    && (forall k :: k in s'.redis ==> k in s.redis && k in s.holder && s'.redis[k] == s.redis[k] && s'.holder[k] == s.holder[k])
  }

  lemma VacatedOther(s: System, s': System, id: int, c: int)
    requires SeatInv(s) && id in s.bookings && s.bookings[id].Live() && Vacated(s, s', id) && c in s.bookings && c != id
    ensures BookingSound(s', c)
  {
    hide Invariant, Gate, KeySound, RowSound, Fits;
    var b := s.bookings[c];
    assert BookingSound(s, c);
    if b.Live() {
      GateDependsOnFrame(s.inv, s'.inv, b.schedule, b.seats);
    }
    if b.Holding() {
      forall k | k in Keys(b) ensures OwnsKey(s', c, k) {
        assert OwnsKey(s, c, k);
        if k in Keys(s.bookings[id]) {
          KeyOfHolder(s, id, k);
        }
      }
    }
    if b.Rowed() {
      forall i: nat | b.InRange(i) ensures OwnsRow(s', c, i) {
        assert OwnsRow(s, c, i);
      }
    }
  }

  lemma VacatedKey(s: System, s': System, id: int, k: R.LockKey)
    requires SeatInv(s) && id in s.bookings && Vacated(s, s', id) && k in s'.holder
    ensures KeySound(s', k)
  {
    hide Invariant, SameFrame, BookingSound, SeatRequest, RowsWithout;
    assert KeySound(s, k);
  }

  lemma VacatedRow(s: System, s': System, id: int, i: nat)
    requires SeatInv(s) && id in s.bookings && Vacated(s, s', id) && i in s'.owner
    ensures RowSound(s', i)
  {
    hide Invariant, SameFrame, BookingSound, SeatRequest, KeysWithout;
    assert RowSound(s, i);
  }

  lemma VacatedSelf(s: System, s': System, id: int)
    requires SeatInv(s) && id in s.bookings && Vacated(s, s', id)
    ensures BookingSound(s', id)
  {
    assert BookingSound(s, id);
  }

  lemma VacatedKeepsInv(s: System, s': System, id: int)
    requires SeatInv(s) && id in s.bookings && s.bookings[id].Live() && Vacated(s, s', id)
    ensures SeatInv(s')
  {
    hide Invariant, SameFrame, BookingSound, KeySound, RowSound;
    forall c | c in s'.bookings ensures BookingSound(s', c) {
      if c == id {
        VacatedSelf(s, s', id);
      } else {
        VacatedOther(s, s', id, c);
      }
    }
    forall k | k in s'.holder ensures KeySound(s', k) {
      VacatedKey(s, s', id, k);
    }
    forall i | i in s'.owner ensures RowSound(s', i) {
      VacatedRow(s, s', id, i);
    }
  }

  lemma DeletedOwnRows(s: System, id: int, inv: Db, gone: set<nat>)
    requires s.owner.Keys == s.inv.locks.Keys && inv.locks == s.inv.locks - gone
    requires forall i :: i in s.inv.locks ==> (i in gone <==> s.owner[i] == id)
    ensures RowsWithout(s, WithInventory(s, id, inv), id)
  {
  }

  function OwnRows(s: System, id: int): set<nat> {
    set i | i in s.owner && s.owner[i] == id
  }

  lemma DeletedAreOwn(s: System, id: int)
    requires SeatInv(s) && id in s.bookings && s.bookings[id].Holding()
    ensures var b := s.bookings[id];
      Deleted(s.inv.locks, b.schedule, IdSet(b.seats), b.seg, b.user, Locked) == s.inv.locks - OwnRows(s, id)
  {
    hide Invariant, BookingSound, KeySound, RowSound;
    forall i | i in s.inv.locks
      ensures s.inv.locks[i].Matches(s.bookings[id].schedule, IdSet(s.bookings[id].seats), s.bookings[id].seg, s.bookings[id].user, Locked)
        <==> i in OwnRows(s, id)
    {
      UnlockNamesOwnRows(s, id, i);
    }
  }

  /** No other transaction holds a seat row of the booking when a lock or a confirmation is called for it. */
  predicate CallClear(s: System, id: int)
    requires id in s.bookings
  {
    Clear(s.bookings[id].schedule, s.bookings[id].seats, s.busy.calls)
  }

  /** The same when an unlock is called. */
  predicate UnlockClear(s: System, id: int)
    requires id in s.bookings
  {
    Clear(s.bookings[id].schedule, s.bookings[id].seats, s.busy.unlocks)
  }

  /** The unlock of a booking that holds its keys is accepted exactly when no other transaction holds one of its seat rows. */
  lemma UnlockIsAcceptedIff(s: System, id: int)
    requires SeatInv(s) && id in s.bookings && s.bookings[id].Live()
    ensures var b := s.bookings[id];
      var (inv, reply) := UnlockUnder(s.inv, s.busy.unlocks, b.user, b.schedule, b.seats, b.seg);
      && (reply.Done? <==> UnlockClear(s, id)) && (!reply.Done? ==> inv == s.inv)
      && (reply.Done? ==> Invariant(inv) && SameFrame(s.inv, inv) && inv.nextId == s.inv.nextId
                          && inv.locks == Deleted(s.inv.locks, b.schedule, IdSet(b.seats), b.seg, b.user, Locked))
  {
    hide Invariant, Gate, UnlockUnder, UnlockSeats, KeySound, RowSound;
    var b := s.bookings[id];
    assert BookingSound(s, id);
    UnlockUnderEffect(s.inv, s.busy.unlocks, b.user, b.schedule, b.seats, b.seg);
    UnlockEffect(s.inv, b.user, b.schedule, b.seats, b.seg);
    UnlockKeepsInvariant(s.inv, b.user, b.schedule, b.seats, b.seg);
  }

  lemma RefusedUnlock(s: System, id: int)
    requires id in s.bookings && s.owner.Keys == s.inv.locks.Keys && !UnlockClear(s, id)
    ensures Unlocked(s, id) == s
  {
    var b := s.bookings[id];
    UnlockUnderEffect(s.inv, s.busy.unlocks, b.user, b.schedule, b.seats, b.seg);
    hide UnlockUnder, UnlockSeats, Gate;
  }

  lemma PendingOwnsNothing(s: System, id: int)
    requires SeatInv(s) && id in s.bookings && s.bookings[id].status == Pending
    ensures forall i :: i in s.owner ==> s.owner[i] != id
  {
    hide Invariant, BookingSound;
    forall i | i in s.owner ensures s.owner[i] != id {
      assert RowSound(s, i);
    }
  }

  /** The unlock reaches whatever rows the booking has: it has none yet, or none of its seat rows is held. */
  predicate UnlockReaches(s: System, id: int)
    requires id in s.bookings
  {
    s.bookings[id].status == Pending || UnlockClear(s, id)
  }

  /** Then it removes exactly the rows the booking inserted. */
  lemma UnlockRemovesOwnRows(s: System, id: int)
    requires SeatInv(s) && id in s.bookings && s.bookings[id].Holding() && UnlockReaches(s, id)
    ensures var s' := Unlocked(s, id);
      RowsWithout(s, s', id) && Invariant(s'.inv) && SameFrame(s.inv, s'.inv) && s' == s.(inv := s'.inv, owner := s'.owner)
  {
    hide Invariant, UnlockUnder, Deleted, BookingSound, KeySound, RowSound, SameFrame, RowsWithout;
    if UnlockClear(s, id) {
      DeletedAreOwn(s, id);
      UnlockIsAcceptedIff(s, id);
      DeletedOwnRows(s, id, Unlocked(s, id).inv, OwnRows(s, id));
    } else {
      RefusedUnlock(s, id);
      PendingOwnsNothing(s, id);
      NothingToRemove(s, id);
    }
  }

  lemma NothingToRemove(s: System, id: int)
    requires s.owner.Keys == s.inv.locks.Keys && forall i :: i in s.owner ==> s.owner[i] != id
    ensures RowsWithout(s, s, id) && SameFrame(s.inv, s.inv)
  {
  }

  /** An unlock that is refused leaves the booking its rows, one per seat. */
  lemma UnlockRemovesOwnRowsIff(s: System, id: int)
    requires SeatInv(s) && id in s.bookings && s.bookings[id].Holding()
    ensures RowsWithout(s, Unlocked(s, id), id) <==> UnlockReaches(s, id)
    ensures UnlockClear(s, id) <==>
      UnlockUnder(s.inv, s.busy.unlocks, s.bookings[id].user, s.bookings[id].schedule, s.bookings[id].seats, s.bookings[id].seg).1.Done?
  {
    hide Invariant, UnlockUnder, BookingSound, KeySound, RowSound, SameFrame, Unlocked;
    UnlockIsAcceptedIff(s, id);
    if UnlockReaches(s, id) {
      UnlockRemovesOwnRows(s, id);
    } else {
      RefusedUnlock(s, id);
      FirstRowOwned(s, id);
    }
  }

  lemma FirstRowOwned(s: System, id: int)
    requires SeatInv(s) && id in s.bookings && s.bookings[id].Rowed()
    ensures var i := s.bookings[id].base; i in s.owner && s.owner[i] == id && i in s.inv.locks
  {
    hide Invariant, Gate;
    assert BookingSound(s, id);
    assert OwnsRow(s, id, s.bookings[id].base);
  }

  /** A row left to a booking that should have none. */
  lemma OrphanBreaksInv(s: System, id: int, i: nat)
    requires i in s.owner && s.owner[i] == id && id in s.bookings && !s.bookings[id].Rowed()
    ensures !SeatInv(s)
  {
    if SeatInv(s) {
      OwnerIsRowed(s, i);
    }
  }

  lemma OwnerIsRowed(s: System, i: nat)
    requires SeatInv(s) && i in s.owner
    ensures s.owner[i] in s.bookings && s.bookings[s.owner[i]].Rowed()
  {
    assert RowSound(s, i);
  }

  lemma ReleaseRemovesOwnKeys(s: System, id: int)
    requires SeatInv(s) && id in s.bookings && s.bookings[id].Holding()
    ensures R.Released(s.redis, KeyList(s.bookings[id]), s.bookings[id].token) == s.redis - Keys(s.bookings[id])
    ensures R.ForceReleased(s.redis, KeyList(s.bookings[id])) == s.redis - Keys(s.bookings[id])
  {
    var b := s.bookings[id];
    KeyListHasKeys(b);
    assert BookingSound(s, id);
    forall k | k in Keys(b) ensures k in R.HeldBy(s.redis, Keys(b), b.token) {
      assert OwnsKey(s, id, k);
    }
    assert R.HeldBy(s.redis, Keys(b), b.token) == Keys(b);
  }
}
