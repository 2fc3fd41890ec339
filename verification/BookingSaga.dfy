/**
 The booking saga over the inventory, the Redis seat locks and the payment service: every step a booking can take, as a
 function from one state of the whole system to the next.
 */
module BookingSaga {
  import opened Options
  import opened Inventory
  import opened InventoryInvariants
  import R = RedisLocks
  import Pay = Payments
  import Query = SeatQuery

  datatype Status = Pending | SeatsHeld | PaymentPending | Confirmed | Failed | CancelledByUser

  datatype SagaStep = HoldSeats | CreatePayment

  datatype FailureReason = NoFailure | UserCancelled | OtherFailure

  /** An order id of zero is the NULL of a booking without payment order. `base` is history: the first row it inserted. */
  datatype Booking = Booking(user: int, schedule: int, seats: seq<int>, seg: Segment, token: int, amount: int, order: int,
                             status: Status, version: nat, reason: FailureReason, base: nat) {
    /** Holds its Redis keys. */
    predicate Holding() {
      status == Pending || status == SeatsHeld || status == PaymentPending
    }

    /** Has rows in the segment table. */
    predicate Rowed() {
      status == SeatsHeld || status == PaymentPending || status == Confirmed
    }

    predicate Live() {
      Holding() || Rowed()
    }

    predicate InRange(i: nat) {
      base <= i < base + |seats|
    }
  }

  function Key(b: Booking, seat: int): R.LockKey {
    R.LockKey(b.schedule, seat, b.seg.from, b.seg.to)
  }

  function KeyList(b: Booking): (keys: seq<R.LockKey>)
    ensures |keys| == |b.seats| && forall k :: 0 <= k < |keys| ==> keys[k] == Key(b, b.seats[k])
  {
    seq(|b.seats|, k requires 0 <= k < |b.seats| => Key(b, b.seats[k]))
  }

  /**
   The seat rows that other inventory transactions hold when a step calls for a lock or a confirmation, and when it calls for
   an unlock.
   */
  datatype Busy = Busy(calls: set<SeatKey>, unlocks: set<SeatKey>)

  /**
   `holder` and `owner` are history: which booking set a Redis key, and which inserted a segment row. The program
   records neither for LOCKED rows.
   */
  datatype System = System(inv: Db, redis: R.Store, bookings: map<int, Booking>, nextBooking: int, requests: set<string>,
                           logs: map<int, seq<SagaStep>>, pay: Pay.Ledger, holder: map<R.LockKey, int>, owner: map<nat, int>,
                           busy: Busy)

  /** The inventory after a call made for a booking; rows that appeared belong to it. */
  function WithInventory(s: System, id: int, inv: Db): (s': System)
    ensures s' == s.(inv := inv, owner := s'.owner)
  {
    s.(inv := inv, owner := map i | i in inv.locks :: if i in s.inv.locks && i in s.owner then s.owner[i] else id)
  }

  /** The Redis store after a script run for a booking; keys that appeared belong to it. */
  function WithRedis(s: System, id: int, redis: R.Store): (s': System)
    ensures s' == s.(redis := redis, holder := s'.holder)
  {
    s.(redis := redis, holder := map k | k in redis :: if k in s.redis && k in s.holder then s.holder[k] else id)
  }

  function WithBooking(s: System, id: int, b: Booking): System {
    s.(bookings := s.bookings[id := b])
  }

  /* ---- compensation ---- */

  /** The reply is ignored: an unlock that is refused because a seat row is held leaves the rows. */
  function Unlocked(s: System, id: int): System
    requires id in s.bookings
  {
    var b := s.bookings[id];
    WithInventory(s, id, UnlockUnder(s.inv, s.busy.unlocks, b.user, b.schedule, b.seats, b.seg).0)
  }

  function Refunded(s: System, id: int, key: Pay.Key, gateway: Option<string>): System
    requires id in s.bookings
  {
    s.(pay := Pay.CreateRefund(s.pay, key, s.bookings[id].order, s.bookings[id].amount, gateway).0)
  }

  function Compensate(s: System, id: int, step: SagaStep, gateway: Option<string>): (s': System)
    requires id in s.bookings
    ensures s'.bookings == s.bookings
  {
    match step
    case HoldSeats => Unlocked(s, id)
    case CreatePayment => Refunded(s, id, Pay.CompensationKey(id), gateway)
  }

  /** Every logged step of the booking is compensated, in the order of the log. */
  function CompensateAll(s: System, id: int, log: seq<SagaStep>, gateway: Option<string>): (s': System)
    requires id in s.bookings
    ensures s'.bookings == s.bookings
  {
    if log == [] then s
    else Compensate(CompensateAll(s, id, log[..|log| - 1], gateway), id, log[|log| - 1], gateway)
  }

  function LogOf(s: System, id: int): seq<SagaStep> {
    if id in s.logs then s.logs[id] else []
  }

  /** The end of every failed creation: compensate, mark FAILED, release the Redis keys that still hold the token. */
  function Abandon(s: System, id: int, gateway: Option<string>): System
    requires id in s.bookings
  {
    var b := s.bookings[id];
    var c := CompensateAll(s, id, LogOf(s, id), gateway);
    var d := WithBooking(c, id, b.(status := Failed, reason := OtherFailure));
    WithRedis(d, id, R.Released(d.redis, KeyList(b), b.token))
  }

  function ForceReleased(s: System, id: int): System
    requires id in s.bookings
  {
    WithRedis(s, id, R.ForceReleased(s.redis, KeyList(s.bookings[id])))
  }

  /* ---- creation ---- */

  function TotalPrice(seats: SeatTable, schedule: int, ids: seq<int>): int {
    if ids == [] then 0
    else
      var key := SeatKey(schedule, ids[|ids| - 1]);
      TotalPrice(seats, schedule, ids[..|ids| - 1]) + (if key in seats then seats[key].price else 0)
  }

  /** The validated request body, with its seats in the order in which they are sorted. */
  datatype Request = Request(key: string, user: int, schedule: int, seats: seq<int>, seg: Segment) {
    predicate Acceptable() {
      SeatRequest(user, schedule, seats, seg)
    }
  }

  function NewBooking(s: System, r: Request, token: int): Booking {
    Booking(r.user, r.schedule, r.seats, r.seg, token, TotalPrice(s.inv.seats, r.schedule, r.seats), 0, Pending, 0, NoFailure, 0)
  }

  predicate Bookable(s: System, r: Request) {
    && r.Acceptable() && ScheduleGate(s.inv, r.schedule).None?
    && Query.AllReportedAvailable(s.inv, r.schedule, r.seats, r.seg)
  }

  /** Availability, Redis locks and the PENDING row; a request key used before fails after the locks and frees them again. */
  function Begin(s: System, r: Request, token: int): System {
    var id := s.nextBooking;
    var b := NewBooking(s, r, token);
    if !Bookable(s, r) || !R.CanAcquire(s.redis, KeyList(b)) then s
    else
      var locked := WithRedis(s, id, R.Acquired(s.redis, KeyList(b), token));
      if r.key in s.requests then WithRedis(locked, id, R.Released(locked.redis, KeyList(b), token))
      else WithBooking(locked, id, b).(nextBooking := id + 1, requests := s.requests + {r.key}, logs := s.logs[id := [HoldSeats]])
  }

  /** The inventory call that locks the seats; `lost` is a reply that never arrives. */
  function Hold(s: System, id: int, lost: bool, gateway: Option<string>): System
    requires id in s.bookings
  {
    var b := s.bookings[id];
    var (inv, reply) := LockUnder(s.inv, s.busy.calls, b.user, b.schedule, b.seats, b.seg);
    var locked := WithBooking(WithInventory(s, id, inv), id, b.(base := s.inv.nextId));
    if reply.Done? && !lost then WithBooking(locked, id, locked.bookings[id].(status := SeatsHeld))
    else Abandon(locked, id, gateway)
  }

  /** The payment order; `lost` is an order that was created while its reply never arrived. */
  function RequestPayment(s: System, id: int, order: Option<string>, lost: bool, gateway: Option<string>): System
    requires id in s.bookings
  {
    var b := s.bookings[id];
    var (pay, reply) := Pay.CreateOrder(s.pay, Pay.PaymentKey(id), id, b.user, b.amount, order);
    var logged := s.(pay := pay, logs := s.logs[id := LogOf(s, id) + [CreatePayment]]);
    if reply.Ok? && !lost then WithBooking(logged, id, b.(status := PaymentPending, order := reply.order))
    else Abandon(logged, id, gateway)
  }

  function VerifyPayment(s: System, order: int, payment: string, signatureOk: bool): System {
    s.(pay := Pay.Verify(s.pay, order, payment, signatureOk).0)
  }

  /* ---- the handlers, once they have claimed the booking ---- */

  /** The second status write may see the row version before or after the claim. */
  function Bump(refreshed: bool): nat {
    if refreshed then 2 else 1
  }

  /** The reply of the confirmation is ignored as well. */
  function ConfirmPaid(s: System, id: int, refreshed: bool): System
    requires id in s.bookings
  {
    var b := s.bookings[id];
    var c := WithInventory(s, id, ConfirmUnder(s.inv, s.busy.calls, id, b.user, b.schedule, b.seats, b.seg).0);
    ForceReleased(WithBooking(c, id, b.(status := Confirmed, version := b.version + Bump(refreshed))), id)
  }

  /**
   A fault before the seats were confirmed. The claim is rolled back, then the log is compensated whatever the booking has
   become; only the last write looks at its status.
   */
  function ConfirmFaults(s: System, id: int, gateway: Option<string>): System
    requires id in s.bookings
  {
    var c := CompensateAll(s, id, LogOf(s, id), gateway);
    var b := s.bookings[id];
    var failed := if b.status == PaymentPending then b.(status := Failed, reason := OtherFailure, version := b.version + 1) else b;
    ForceReleased(WithBooking(c, id, failed), id)
  }

  function PaymentFails(s: System, id: int, gateway: Option<string>): System
    requires id in s.bookings
  {
    var b := s.bookings[id];
    var claimed := WithBooking(s, id, b.(status := Failed, reason := OtherFailure, version := b.version + 1));
    ForceReleased(CompensateAll(claimed, id, LogOf(s, id), gateway), id)
  }

  function CancelConfirmed(s: System, id: int, gateway: Option<string>, refreshed: bool): System
    requires id in s.bookings
  {
    var b := s.bookings[id];
    var c := WithInventory(s, id, CancelSeats(s.inv, b.schedule, id, b.user).0);
    var d := if b.order != 0 then Refunded(c, id, Pay.CancelKey(id), gateway) else c;
    ForceReleased(WithBooking(d, id, b.(status := CancelledByUser, reason := UserCancelled, version := b.version + Bump(refreshed))), id)
  }

  /** A booking that was read as held is unlocked and marked CANCELLED; neither status nor version is looked at again. */
  function CancelHeld(s: System, id: int, version: nat): System
    requires id in s.bookings
  {
    ForceReleased(WithBooking(Unlocked(s, id), id, s.bookings[id].(status := CancelledByUser, version := version + 1)), id)
  }

  /** One that was read as PENDING is marked CANCELLED without an unlock. */
  function CancelPending(s: System, id: int, version: nat): System
    requires id in s.bookings
  {
    ForceReleased(WithBooking(s, id, s.bookings[id].(status := CancelledByUser, version := version + 1)), id)
  }
}
