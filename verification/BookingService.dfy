/**
 The booking service as an object over the inventory, the Redis locks and the payment service. Each method is tied to the
 step of `BookingSaga` it performs; `holder` and `owner` record which booking set a key or inserted a row.
 */
module BookingOperations {
  import opened Options
  import opened Inventory
  import opened InventoryInvariants
  import opened InventoryOperations
  import opened BookingSaga
  import R = RedisLocks
  import Pay = Payments
  import Query = SeatQuery

  class BookingService {
    const inventory: InventoryService
    const cache: R.SeatLockCache
    const payments: Pay.PaymentService
    var bookings: map<int, Booking>
    var nextBooking: int
    var requests: set<string>
    var logs: map<int, seq<SagaStep>>
    /** Not the service's own: the seat rows that other inventory transactions hold when it makes its calls. */
    var busy: Busy
    ghost var holder: map<R.LockKey, int>
    ghost var owner: map<nat, int>

    ghost function State(): System
      reads this, inventory, cache, payments
    {
      System(inventory.Contents(), cache.store, bookings, nextBooking, requests, logs, payments.Contents(), holder, owner, busy)
    }

    constructor (inventory: InventoryService, cache: R.SeatLockCache, payments: Pay.PaymentService, busy: Busy)
      ensures this.inventory == inventory && this.cache == cache && this.payments == payments
      ensures State() == System(inventory.Contents(), cache.store, map[], 1, {}, map[], payments.Contents(), map[], map[], busy)
    {
      this.inventory, this.cache, this.payments := inventory, cache, payments;
      bookings, nextBooking, requests, logs := map[], 1, {}, map[];
      holder, owner, this.busy := map[], map[], busy;
    }

    /* ---- compensation ---- */

    method UnlockHeldSeats(id: int)
      requires id in bookings
      modifies this, inventory
      ensures State() == Unlocked(old(State()), id)
    {
      hide UnlockUnder;
      ghost var before := State();
      var b := bookings[id];
      var reply := inventory.UnlockSeats(busy.unlocks, b.user, b.schedule, b.seats, b.seg);
      owner := WithInventory(before, id, inventory.Contents()).owner;
    }

    method InitiateRefund(id: int, key: Pay.Key, gateway: Option<string>)
      requires id in bookings
      modifies payments
      ensures State() == Refunded(old(State()), id, key, gateway)
    {
      hide Pay.CreateRefund;
      var reply := payments.CreatePaymentRefundDetails(key, bookings[id].order, bookings[id].amount, gateway);
    }

    /** The loop over the saga log of a booking. */
    method CompensateLog(id: int, gateway: Option<string>)
      requires id in bookings
      modifies this, inventory, payments
      ensures State() == CompensateAll(old(State()), id, LogOf(old(State()), id), gateway)
    {
      hide Unlocked, Refunded;
      ghost var before := State();
      var log := if id in logs then logs[id] else [];
      var n := 0;
      while n < |log|
        invariant n <= |log| && id in bookings && State() == CompensateAll(before, id, log[..n], gateway)
      {
        assert log[..n + 1][..n] == log[..n];
        ghost var mid := State();
        if log[n] == HoldSeats {
          UnlockHeldSeats(id);
        } else {
          InitiateRefund(id, Pay.CompensationKey(id), gateway);
        }
        assert State() == Compensate(mid, id, log[n], gateway);
        n := n + 1;
      }
      assert log[..n] == log;
    }

    /** The loop that builds the Redis keys of a booking. */
    method SeatLockKeys(b: Booking) returns (keys: seq<R.LockKey>)
      ensures keys == KeyList(b)
    {
      keys := [];
      for i := 0 to |b.seats|
        invariant |keys| == i && forall k :: 0 <= k < i ==> keys[k] == Key(b, b.seats[k])
      {
        keys := keys + [R.LockKey(b.schedule, b.seats[i], b.seg.from, b.seg.to)];
      }
    }

    method ForceReleaseKeys(id: int)
      requires id in bookings
      modifies this, cache
      ensures State() == ForceReleased(old(State()), id)
    {
      ghost var before := State();
      var keys := SeatLockKeys(bookings[id]);
      var deleted := cache.ForceRelease(keys);
      holder := WithRedis(before, id, cache.store).holder;
    }

    method ReleaseKeys(id: int, keys: seq<R.LockKey>, token: int)
      modifies this, cache
      ensures State() == WithRedis(old(State()), id, R.Released(old(State()).redis, keys, token))
    {
      hide R.Released;
      ghost var before := State();
      var ok, released, failed := cache.Release(keys, token);
      holder := WithRedis(before, id, cache.store).holder;
    }

    method FailCreation(id: int, gateway: Option<string>)
      requires id in bookings
      modifies this, inventory, cache, payments
      ensures State() == Abandon(old(State()), id, gateway)
    {
      hide CompensateAll, R.Released;
      var b := bookings[id];
      CompensateLog(id, gateway);
      bookings := bookings[id := b.(status := Failed, reason := OtherFailure)];
      var keys := SeatLockKeys(b);
      ReleaseKeys(id, keys, b.token);
    }

    /* ---- creation ---- */

    /** The loop over the requested seats: all must be reported, all available; their prices add up. */
    method PriceSeats(r: Request) returns (total: Option<int>)
      ensures total.Some? <==> Query.AllReportedAvailable(inventory.Contents(), r.schedule, r.seats, r.seg)
      ensures total.Some? ==> total.value == TotalPrice(inventory.seats, r.schedule, r.seats)
    {
      hide Query.Report;
      var reports := Query.Availability(inventory.Contents(), r.schedule, r.seats, r.seg);
      if reports.None? {
        return None;
      }
      var sum, i := 0, 0;
      while i < |r.seats|
        invariant i <= |r.seats| && sum == TotalPrice(inventory.seats, r.schedule, r.seats[..i])
        invariant forall x :: x in r.seats[..i] ==> x in reports.value && reports.value[x].segment == Query.SegmentAvailable
      {
        var id := r.seats[i];
        if id !in reports.value || reports.value[id].segment != Query.SegmentAvailable {
          return None;
        }
        assert r.seats[..i + 1][..i] == r.seats[..i];
        ReportedPrice(inventory.Contents(), r.schedule, r.seats, r.seg, id);
        sum := sum + reports.value[id].price;
        i := i + 1;
      }
      assert r.seats[..i] == r.seats;
      return Some(sum);
    }

    /** All keys or none. */
    method AcquireKeys(id: int, keys: seq<R.LockKey>, token: int) returns (ok: bool)
      modifies this, cache
      ensures ok <==> R.CanAcquire(old(State()).redis, keys)
      ensures State() == if ok then WithRedis(old(State()), id, R.Acquired(old(State()).redis, keys, token)) else old(State())
    {
      ghost var before := State();
      var inserted, failed;
      ok, inserted, failed := cache.Acquire(keys, token);
      if ok {
        holder := WithRedis(before, id, cache.store).holder;
      }
    }

    /** The PENDING row; a request key used before frees the Redis keys again. */
    method InsertPending(id: int, key: string, b: Booking, keys: seq<R.LockKey>) returns (created: bool)
      modifies this, cache
      ensures created <==> key !in old(requests)
      ensures State() ==
        if created then WithBooking(old(State()), id, b).(nextBooking := id + 1, requests := old(requests) + {key}, logs := old(logs)[id := [HoldSeats]])
        else WithRedis(old(State()), id, R.Released(old(State()).redis, keys, b.token))
    {
      hide R.Released, WithRedis;
      if key in requests {
        ReleaseKeys(id, keys, b.token);
        return false;
      }
      bookings := bookings[id := b];
      logs := logs[id := [HoldSeats]];
      requests := requests + {key};
      nextBooking := id + 1;
      return true;
    }

    method BeginBooking(r: Request, token: int) returns (created: bool)
      modifies this, cache
      ensures State() == Begin(old(State()), r, token)
      ensures created <==> nextBooking != old(nextBooking)
    {
      hide TotalPrice, Query.AllReportedAvailable, R.CanAcquire, R.Acquired, R.Released, ScheduleGate, SeatRequest, WithRedis, KeyList;
      ghost var before := State();
      if !r.Acceptable() || ScheduleGate(inventory.Contents(), r.schedule).Some? {
        return false;
      }
      var total := PriceSeats(r);
      if total.None? {
        return false;
      }
      var id := nextBooking;
      var b := Booking(r.user, r.schedule, r.seats, r.seg, token, total.value, 0, Pending, 0, NoFailure, 0);
      var keys := SeatLockKeys(b);
      var ok := AcquireKeys(id, keys, token);
      if !ok {
        return false;
      }
      created := InsertPending(id, r.key, b, keys);
    }

    method HoldBooking(id: int, lost: bool, gateway: Option<string>)
      requires id in bookings
      modifies this, inventory, cache, payments
      ensures State() == Hold(old(State()), id, lost, gateway)
    {
      hide LockUnder, Abandon;
      ghost var before := State();
      var b := bookings[id];
      var base := inventory.nextId;
      var reply := inventory.LockSeats(busy.calls, b.user, b.schedule, b.seats, b.seg);
      owner := WithInventory(before, id, inventory.Contents()).owner;
      bookings := bookings[id := b.(base := base)];
      if reply.Done? && !lost {
        bookings := bookings[id := bookings[id].(status := SeatsHeld)];
      } else {
        FailCreation(id, gateway);
      }
    }

    method RequestBookingPayment(id: int, order: Option<string>, lost: bool, gateway: Option<string>)
      requires id in bookings
      modifies this, inventory, cache, payments
      ensures State() == RequestPayment(old(State()), id, order, lost, gateway)
    {
      hide Pay.CreateOrder, Abandon;
      var b := bookings[id];
      logs := logs[id := (if id in logs then logs[id] else []) + [CreatePayment]];
      var reply := payments.CreatePaymentOrderDetails(Pay.PaymentKey(id), id, b.user, b.amount, order);
      if reply.Ok? && !lost {
        bookings := bookings[id := b.(status := PaymentPending, order := reply.order)];
      } else {
        FailCreation(id, gateway);
      }
    }

    /* ---- handlers ---- */

    method ConfirmHeldSeats(id: int)
      requires id in bookings
      modifies this`owner, inventory
      ensures var b := bookings[id];
        State() == WithInventory(old(State()), id, ConfirmUnder(old(State()).inv, old(State()).busy.calls, id, b.user, b.schedule, b.seats, b.seg).0)
    {
      hide ConfirmUnder;
      ghost var before := State();
      var b := bookings[id];
      var reply := inventory.ConfirmSeats(busy.calls, id, b.user, b.schedule, b.seats, b.seg);
      owner := WithInventory(before, id, inventory.Contents()).owner;
    }

    /**
     Payment captured: claim the version that was read, confirm the seats, free the keys. A fault before the seats are
     confirmed rolls the claim back; `CompensateFault` follows without it.
     */
    method ProcessPaymentSuccess(id: int, version: nat, faults: bool, refreshed: bool) returns (won: bool)
      requires id in bookings
      modifies this, inventory, cache
      ensures won <==> old(bookings)[id].version == version && !faults
      ensures State() == if won then ConfirmPaid(old(State()), id, refreshed) else old(State())
    {
      hide ConfirmUnder, ForceReleased, WithInventory;
      var b := bookings[id];
      if b.version != version || faults {
        return false;
      }
      ConfirmHeldSeats(id);
      bookings := bookings[id := b.(status := Confirmed, version := b.version + Bump(refreshed))];
      ForceReleaseKeys(id);
      return true;
    }

    /** The end of a success handler that faulted: compensation whatever the booking has become, FAILED only if it still waits. */
    method CompensateFault(id: int, gateway: Option<string>)
      requires id in bookings
      modifies this, inventory, cache, payments
      ensures State() == ConfirmFaults(old(State()), id, gateway)
    {
      hide CompensateAll, R.ForceReleased;
      var b := bookings[id];
      CompensateLog(id, gateway);
      if b.status == PaymentPending {
        bookings := bookings[id := b.(status := Failed, reason := OtherFailure, version := b.version + 1)];
      } else {
        assert bookings[id := b] == bookings;
      }
      ForceReleaseKeys(id);
    }

    method ProcessPaymentFailure(id: int, version: nat, gateway: Option<string>) returns (won: bool)
      requires id in bookings
      modifies this, inventory, cache, payments
      ensures won <==> old(bookings)[id].version == version
      ensures State() == if won then PaymentFails(old(State()), id, gateway) else old(State())
    {
      hide CompensateAll, R.ForceReleased;
      var b := bookings[id];
      if b.version != version {
        return false;
      }
      bookings := bookings[id := b.(status := Failed, reason := OtherFailure, version := b.version + 1)];
      CompensateLog(id, gateway);
      ForceReleaseKeys(id);
      return true;
    }

    method CancelBookedSeats(id: int)
      requires id in bookings
      modifies this`owner, inventory
      ensures var b := bookings[id];
        State() == WithInventory(old(State()), id, Inventory.CancelSeats(old(State()).inv, b.schedule, id, b.user).0)
    {
      hide Inventory.CancelSeats;
      ghost var before := State();
      var reply := inventory.CancelSeats(bookings[id].schedule, id, bookings[id].user);
      owner := WithInventory(before, id, inventory.Contents()).owner;
    }

    method CancelConfirmedBooking(id: int, version: nat, gateway: Option<string>, refreshed: bool) returns (won: bool)
      requires id in bookings
      modifies this, inventory, cache, payments
      ensures won <==> old(bookings)[id].version == version
      ensures State() == if won then CancelConfirmed(old(State()), id, gateway, refreshed) else old(State())
    {
      hide Inventory.CancelSeats, ForceReleased, Refunded, WithInventory;
      var b := bookings[id];
      if b.version != version {
        return false;
      }
      CancelBookedSeats(id);
      if b.order != 0 {
        InitiateRefund(id, Pay.CancelKey(id), gateway);
      }
      bookings := bookings[id := b.(status := CancelledByUser, reason := UserCancelled, version := b.version + Bump(refreshed))];
      ForceReleaseKeys(id);
      return true;
    }

    /** What a user's cancel does with a booking that it read with this status and version. */
    method CancelAsRead(id: int, status: Status, version: nat, gateway: Option<string>, refreshed: bool) returns (done: bool)
      requires id in bookings
      modifies this, inventory, cache, payments
      ensures done <==> status !in {Failed, CancelledByUser} && (status == Confirmed ==> old(bookings)[id].version == version)
      ensures State() == if !done then old(State())
        else if status == Confirmed then CancelConfirmed(old(State()), id, gateway, refreshed)
        else if status == Pending then CancelPending(old(State()), id, version)
        else CancelHeld(old(State()), id, version)
    {
      hide CancelConfirmed, CancelPending, CancelHeld;
      if status == Failed || status == CancelledByUser {
        return false;
      }
      if status == Confirmed {
        done := CancelConfirmedBooking(id, version, gateway, refreshed);
        return;
      }
      if status == PaymentPending || status == SeatsHeld {
        CancelHeldBooking(id, version);
      } else {
        CancelPendingBooking(id, version);
      }
      return true;
    }

    /** Neither status nor version is looked at again: the version that was read is counted up and written. */
    method CancelHeldBooking(id: int, version: nat)
      requires id in bookings
      modifies this, inventory, cache
      ensures State() == CancelHeld(old(State()), id, version)
    {
      hide Unlocked, R.ForceReleased;
      var b := bookings[id];
      UnlockHeldSeats(id);
      bookings := bookings[id := b.(status := CancelledByUser, version := version + 1)];
      ForceReleaseKeys(id);
    }

    method CancelPendingBooking(id: int, version: nat)
      requires id in bookings
      modifies this, cache
      ensures State() == CancelPending(old(State()), id, version)
    {
      hide R.ForceReleased;
      bookings := bookings[id := bookings[id].(status := CancelledByUser, version := version + 1)];
      ForceReleaseKeys(id);
    }
  }

  lemma ReportedPrice(db: Db, schedule: int, ids: seq<int>, seg: Segment, id: int)
    requires Query.Availability(db, schedule, ids, seg).Some? && id in Query.Availability(db, schedule, ids, seg).value
    ensures SeatKey(schedule, id) in db.seats
    ensures Query.Availability(db, schedule, ids, seg).value[id].price == db.seats[SeatKey(schedule, id)].price
  {
  }
}
