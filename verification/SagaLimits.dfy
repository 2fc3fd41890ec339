/**
 Where the code relies on something it does not check: writes by id alone, compensation without a claim, faults after an
 effect. Each is stated with the exact condition under which it is harmless.
 */
module SagaLimits {
  import opened Options
  import opened Inventory
  import opened InventoryInvariants
  import opened InventoryRoundTrips
  import opened BookingSaga
  import opened SagaContention
  import opened SagaEndings
  import opened SagaMoney
  import opened SagaRuns
  import opened SagaSeats
  import opened SagaSteps
  import opened SagaTheorems
  import Pay = Payments
  import R = RedisLocks

  /* ---- creation goes on although the booking moved ---- */

  /** A booking that holds no keys cannot be written back to a holding status. */
  lemma RevivedBreaksInv(s: System, s': System, id: int)
    requires SeatInv(s) && id in s.bookings && !s.bookings[id].Holding()
    requires id in s'.bookings && s'.bookings[id].Holding() && s'.holder == s.holder && Keys(s'.bookings[id]) == Keys(s.bookings[id])
    ensures !SeatInv(s')
  {
    assert BookingSound(s, id);
    var b := s.bookings[id];
    assert Key(b, b.seats[0]) in Keys(b);
    forall k | k in s.holder ensures s.holder[k] != id {
      assert KeySound(s, k);
    }
    if SeatInv(s') {
      KeyOfHolder(s', id, Key(b, b.seats[0]));
    }
  }

  /** Nor can a booking without rows be written to a status that has them. */
  lemma RowlessBreaksInv(s: System, s': System, id: int)
    requires SeatInv(s) && id in s.bookings && s.bookings[id].status == Pending
    requires id in s'.bookings && s'.bookings[id] == s.bookings[id].(status := PaymentPending, order := s'.bookings[id].order)
    requires s'.owner == s.owner
    ensures !SeatInv(s')
  {
    RequestOf(s, id);
    PendingOwnsNothing(s, id);
    if SeatInv(s') {
      BookedRowBelongs(s', id, s'.bookings[id].base);
    }
  }

  /**
   The status write after a payment order was created names only the booking id. It keeps the seats consistent exactly
   when the booking is still where the creation left it.
   */
  lemma PaymentWriteIsSafeIff(s: System, id: int, order: Option<string>, gateway: Option<string>)
    requires SeatInv(s) && id in s.bookings
    requires Pay.CreateOrder(s.pay, Pay.PaymentKey(id), id, s.bookings[id].user, s.bookings[id].amount, order).1.Ok?
    ensures SeatInv(RequestPayment(s, id, order, false, gateway)) <==> s.bookings[id].status in {SeatsHeld, PaymentPending}
  {
    hide SeatInv, Abandon, Pay.CreateOrder;
    var s' := RequestPayment(s, id, order, false, gateway);
    SameKeys(s.bookings[id], s'.bookings[id]);
    if s.bookings[id].status in {SeatsHeld, PaymentPending} {
      SameSeatsKeepsInv(s, s');
    } else if s.bookings[id].status == Pending {
      RowlessBreaksInv(s, s', id);
    } else {
      RevivedBreaksInv(s, s', id);
    }
  }

  /** The same for the status write after the seats were locked. */
  lemma HoldWriteIsSafeIff(s: System, id: int, gateway: Option<string>)
    requires SeatInv(s) && id in s.bookings
    requires LockUnder(s.inv, s.busy.calls, s.bookings[id].user, s.bookings[id].schedule, s.bookings[id].seats, s.bookings[id].seg).1.Done?
    ensures SeatInv(Hold(s, id, false, gateway)) <==> s.bookings[id].status == Pending
  {
    hide SeatInv, Abandon, LockUnder, Occupied;
    var s' := Hold(s, id, false, gateway);
    SameKeys(s.bookings[id], s'.bookings[id]);
    if s.bookings[id].status == Pending {
      HeldOccupies(s, id, gateway);
      OccupiedKeepsInv(s, s', id);
    } else {
      LockedTwiceIsRefused(s, id);
      RevivedBreaksInv(s, s', id);
    }
  }

  /** A booking that already has its rows cannot lock them again. */
  lemma LockedTwiceIsRefused(s: System, id: int)
    requires SeatInv(s) && id in s.bookings
    requires LockUnder(s.inv, s.busy.calls, s.bookings[id].user, s.bookings[id].schedule, s.bookings[id].seats, s.bookings[id].seg).1.Done?
    ensures !s.bookings[id].Rowed()
  {
    hide SeatInv, LockUnder, LockSeats, Blocked;
    var b := s.bookings[id];
    LockUnderEffect(s.inv, s.busy.calls, b.user, b.schedule, b.seats, b.seg);
    LockEffect(s.inv, b.user, b.schedule, b.seats, b.seg);
    if b.Rowed() {
      OwnRowsBlock(s, id);
    }
  }

  lemma OwnRowsBlock(s: System, id: int)
    requires SeatInv(s) && id in s.bookings && s.bookings[id].Rowed()
    ensures var b := s.bookings[id]; Blocked(s.inv.locks, b.schedule, IdSet(b.seats), b.seg) != {}
  {
    hide Invariant, Gate;
    var b := s.bookings[id];
    assert BookingSound(s, id);
    assert OwnsRow(s, id, b.base);
    assert s.inv.locks[b.base].key.seat in Blocked(s.inv.locks, b.schedule, IdSet(b.seats), b.seg);
  }

  /* ---- unlocks and forced releases for a booking that moved ---- */

  /** A key that somebody holds cannot be taken. */
  lemma TakenKeyBreaksInv(s: System, s': System, k: R.LockKey)
    requires SeatInv(s) && k in s.redis && k !in s'.redis
    requires k in s.holder && s.holder[k] in s.bookings && s.holder[k] in s'.bookings
    requires s'.bookings[s.holder[k]].Holding() && Keys(s'.bookings[s.holder[k]]) == Keys(s.bookings[s.holder[k]])
    ensures !SeatInv(s')
  {
    hide BookingSound, Invariant;
    assert KeySound(s, k);
    if SeatInv(s') {
      KeyOfHolder(s', s.holder[k], k);
    }
  }

  lemma HolderOf(s: System, k: R.LockKey)
    requires SeatInv(s) && k in s.redis
    ensures k in s.holder && s.holder[k] in s.bookings && s.bookings[s.holder[k]].Holding() && k in Keys(s.bookings[s.holder[k]])
  {
    assert KeySound(s, k);
  }

  /** The rows an unlock for this booking would delete. */
  ghost predicate UnlockFinds(s: System, id: int, i: nat)
    requires id in s.bookings
  {
    var b := s.bookings[id];
    i in s.inv.locks && s.inv.locks[i].Matches(b.schedule, IdSet(b.seats), b.seg, b.user, Locked)
  }

  /** The unlock is not refused. */
  predicate UnlockOpens(s: System, id: int)
    requires id in s.bookings
  {
    Gate(s.inv, s.bookings[id].schedule, s.bookings[id].seats).None? && UnlockClear(s, id)
  }

  /** A row found for a booking that holds nothing is another booking's, which holds the keys of both. */
  lemma FoundRowHasKey(s: System, id: int, i: nat)
    requires SeatInv(s) && id in s.bookings && UnlockFinds(s, id, i)
    ensures i in s.owner && s.owner[i] in s.bookings && s.bookings[s.owner[i]].Holding() && s.bookings[s.owner[i]].Rowed()
    ensures !(Keys(s.bookings[id]) !! s.redis.Keys)
  {
    hide Invariant, Gate;
    var b := s.bookings[id];
    var row := s.inv.locks[i];
    RowOfOwner(s, i);
    var o := s.owner[i];
    KeyOfHolder(s, o, Key(b, row.key.seat));
    assert Key(b, row.key.seat) in Keys(b) && Key(b, row.key.seat) in s.redis.Keys;
  }

  /** The unlock rebuilds statuses and counters of its seats; without matching rows it changes nothing else. */
  lemma UnlockOfNothing(s: System, id: int)
    requires SeatInv(s) && id in s.bookings && forall i :: !UnlockFinds(s, id, i)
    ensures var u := Unlocked(s, id);
      && u == s.(inv := u.inv) && u.inv.locks == s.inv.locks && Invariant(u.inv) && SameFrame(s.inv, u.inv)
  {
    hide Invariant, UnlockUnder, UnlockSeats, BookingSound, KeySound, RowSound;
    var b := s.bookings[id];
    UnlockUnderEffect(s.inv, s.busy.unlocks, b.user, b.schedule, b.seats, b.seg);
    UnlockEffect(s.inv, b.user, b.schedule, b.seats, b.seg);
    UnlockKeepsInvariant(s.inv, b.user, b.schedule, b.seats, b.seg);
    forall i | i in s.inv.locks ensures !s.inv.locks[i].Matches(b.schedule, IdSet(b.seats), b.seg, b.user, Locked) {
      assert !UnlockFinds(s, id, i);
    }
    assert Deleted(s.inv.locks, b.schedule, IdSet(b.seats), b.seg, b.user, Locked) == s.inv.locks;
    SameFrameAsBefore(s.inv);
  }

  lemma RebuiltKeepsInv(s: System, inv: Db)
    requires SeatInv(s) && Invariant(inv) && SameFrame(s.inv, inv) && inv.locks == s.inv.locks
    ensures SeatInv(s.(inv := inv))
  {
    hide Invariant, SameFrame, BookingSound, KeySound, RowSound, Gate;
    var t := s.(inv := inv);
    forall c | c in t.bookings ensures BookingSound(t, c) {
      RebuiltBooking(s, inv, c);
    }
    RebuiltHistory(s, t);
  }

  lemma RebuiltHistory(s: System, t: System)
    requires SeatInv(s) && t.owner == s.owner && t.holder == s.holder && t.bookings == s.bookings
    ensures (forall k :: k in t.holder ==> KeySound(t, k)) && (forall i :: i in t.owner ==> RowSound(t, i))
  {
    hide Invariant, BookingSound;
    forall k | k in t.holder ensures KeySound(t, k) {
      assert KeySound(s, k);
    }
    forall i | i in t.owner ensures RowSound(t, i) {
      assert RowSound(s, i);
    }
  }

  lemma RebuiltBooking(s: System, inv: Db, c: int)
    requires SeatInv(s) && SameFrame(s.inv, inv) && inv.locks == s.inv.locks && c in s.bookings
    ensures BookingSound(s.(inv := inv), c)
  {
    hide Invariant, KeySound, RowSound, Gate;
    var (t, b) := (s.(inv := inv), s.bookings[c]);
    assert BookingSound(s, c);
    GateDependsOnFrame(s.inv, inv, b.schedule, b.seats);
    if b.Holding() {
      forall k | k in Keys(b) ensures OwnsKey(t, c, k) {
        assert OwnsKey(s, c, k);
      }
    }
    if b.Rowed() {
      forall i: nat | b.InRange(i) ensures OwnsRow(t, c, i) {
        assert OwnsRow(s, c, i);
      }
    }
  }

  lemma ReleaseOfNothing(s: System, id: int)
    requires SeatInv(s) && id in s.bookings && Keys(s.bookings[id]) !! s.redis.Keys
    ensures ForceReleased(s, id) == s
  {
    hide BookingSound, Invariant;
    KeyListHasKeys(s.bookings[id]);
  }

  /** Written where nothing is held: an ended booking changes its final status. */
  lemma RewrittenEnd(s: System, s': System, id: int)
    requires SeatInv(s) && id in s.bookings && !s.bookings[id].Live() && s' == s.(bookings := s'.bookings, pay := s'.pay)
    requires id in s'.bookings && s'.bookings == s.bookings[id := s'.bookings[id]] && !s'.bookings[id].Live()
    requires var (b, c) := (s.bookings[id], s'.bookings[id]);
      b.user == c.user && b.schedule == c.schedule && b.seats == c.seats && b.seg == c.seg && b.token == c.token
    ensures SeatInv(s')
  {
    hide SeatInv;
    SameSeatsKeepsInv(s, s');
  }

  /* ---- the cancel of a held booking ---- */

  lemma CancelOfEnded(s: System, id: int, version: nat)
    requires SeatInv(s) && id in s.bookings && !s.bookings[id].Live() && Keys(s.bookings[id]) !! s.redis.Keys
    ensures SeatInv(CancelHeld(s, id, version)) && SeatInv(CancelPending(s, id, version))
  {
    NothingFound(s, id);
    hide SeatInv, UnlockUnder, ForceReleased, Unlocked, Keys;
    UnlockOfNothing(s, id);
    var u := Unlocked(s, id);
    RebuiltKeepsInv(s, u.inv);
    var b := s.bookings[id].(status := CancelledByUser, version := version + 1);
    SameKeys(s.bookings[id], b);
    RewrittenEnd(u, WithBooking(u, id, b), id);
    RewrittenEnd(s, WithBooking(s, id, b), id);
    ReleaseOfNothing(WithBooking(u, id, b), id);
    ReleaseOfNothing(WithBooking(s, id, b), id);
  }

  lemma NothingFound(s: System, id: int)
    requires SeatInv(s) && id in s.bookings && Keys(s.bookings[id]) !! s.redis.Keys
    ensures forall i :: !UnlockFinds(s, id, i)
  {
    hide SeatInv, UnlockFinds;
    forall i ensures !UnlockFinds(s, id, i) {
      if UnlockFinds(s, id, i) {
        FoundRowHasKey(s, id, i);
      }
    }
  }

  /** A forced release where somebody holds one of the keys and is still live afterwards. */
  lemma ForcedReleaseTakes(s: System, d: System, id: int)
    requires SeatInv(s) && id in s.bookings && !(Keys(s.bookings[id]) !! s.redis.Keys)
    requires d.redis == s.redis && id in d.bookings && KeyList(d.bookings[id]) == KeyList(s.bookings[id])
    requires d.bookings == s.bookings || (!s.bookings[id].Holding() && d.bookings == s.bookings[id := d.bookings[id]])
    ensures !SeatInv(ForceReleased(d, id))
  {
    hide SeatInv;
    KeyListHasKeys(s.bookings[id]);
    var k :| k in Keys(s.bookings[id]) && k in s.redis.Keys;
    HolderOf(s, k);
    TakenKeyBreaksInv(s, ForceReleased(d, id), k);
  }

  /** BOOKED rows survive every unlock. */
  lemma BookedRowSurvives(s: System, id: int, i: nat)
    requires SeatInv(s) && id in s.bookings && s.bookings[id].status == Confirmed && i in s.owner && s.owner[i] == id
    ensures var u := Unlocked(s, id);
      i in s.inv.locks && i in u.inv.locks && u.inv.locks[i] == s.inv.locks[i] && i in u.owner && u.owner[i] == id
  {
    hide SeatInv, UnlockUnder, UnlockSeats, Gate;
    var b := s.bookings[id];
    OwnersComplete(s);
    OwnedRowBelongs(s, i);
    UnlockUnderEffect(s.inv, s.busy.unlocks, b.user, b.schedule, b.seats, b.seg);
    UnlockEffect(s.inv, b.user, b.schedule, b.seats, b.seg);
  }

  /**
   A user's cancel of a held booking is safe if and only if the booking still holds its keys and its unlock is not refused,
   or it has ended and nobody has taken one of its keys since. If it was confirmed meanwhile, its rows stay BOOKED.
   */
  lemma CancelHeldIsSafeIff(s: System, id: int, version: nat)
    requires SeatInv(s) && id in s.bookings
    ensures var b := s.bookings[id];
      SeatInv(CancelHeld(s, id, version)) <==> (b.Holding() && UnlockReaches(s, id)) || (!b.Live() && Keys(b) !! s.redis.Keys)
  {
    hide SeatInv, Unlocked, ForceReleased, Keys, KeyList, Vacated;
    var b := s.bookings[id];
    var s' := CancelHeld(s, id, version);
    var b' := b.(status := CancelledByUser, version := version + 1);
    SameKeys(b, b');
    CancelHeldParts(s, id, version);
    if b.Holding() && UnlockReaches(s, id) {
      CancelHeldVacates(s, id, version);
      VacatedKeepsInv(s, s', id);
    } else if b.Holding() {
      OwnersComplete(s);
      RefusedCancelHeld(s, id, version);
      EndsWithRowsLeaves(s, s', id);
    } else if b.status == Confirmed {
      BaseIsOwn(s, id);
      BookedRowSurvives(s, id, b.base);
      OrphanBreaksInv(s', id, b.base);
    } else if Keys(b) !! s.redis.Keys {
      CancelOfEnded(s, id, version);
    } else {
      ForcedReleaseTakes(s, WithBooking(Unlocked(s, id), id, b'), id);
    }
  }

  lemma CancelHeldParts(s: System, id: int, version: nat)
    requires id in s.bookings
    ensures var (s', u) := (CancelHeld(s, id, version), Unlocked(s, id));
      && s'.owner == u.owner && u.redis == s.redis && u.bookings == s.bookings
      && s'.bookings == s.bookings[id := s.bookings[id].(status := CancelledByUser, version := version + 1)]
  {
    hide UnlockUnder, R.ForceReleased;
  }

  /** A cancel of a PENDING booking unlocks nothing, so it is safe only while there is nothing to unlock. */
  lemma CancelPendingIsSafeIff(s: System, id: int, version: nat)
    requires SeatInv(s) && id in s.bookings
    ensures var b := s.bookings[id];
      SeatInv(CancelPending(s, id, version)) <==> b.status == Pending || (!b.Live() && Keys(b) !! s.redis.Keys)
  {
    hide SeatInv, R.ForceReleased, Keys, KeyList, Vacated;
    var b := s.bookings[id];
    var s' := CancelPending(s, id, version);
    var b' := b.(status := CancelledByUser, version := version + 1);
    SameKeys(b, b');
    if b.status == Pending {
      CancelPendingVacates(s, id, version);
      VacatedKeepsInv(s, s', id);
    } else if b.Rowed() {
      BaseIsOwn(s, id);
      OrphanBreaksInv(s', id, b.base);
    } else if Keys(b) !! s.redis.Keys {
      CancelOfEnded(s, id, version);
    } else {
      ForcedReleaseTakes(s, WithBooking(s, id, b'), id);
    }
  }

  /* ---- compensation without a claim ---- */

  lemma CompensatedLikeUnlocked(s: System, id: int, gateway: Option<string>)
    requires id in s.bookings && KnownLog(LogOf(s, id))
    ensures var (c, u) := (CompensateAll(s, id, LogOf(s, id), gateway), Unlocked(s, id));
      c == u.(pay := c.pay) && c.redis == s.redis && c.bookings == s.bookings
  {
    CompensateAllUnlocksOnce(s, id, LogOf(s, id), gateway);
    hide UnlockUnder, Pay.CreateRefund;
  }

  lemma CompensationOfNothing(s: System, id: int, gateway: Option<string>)
    requires SeatInv(s) && id in s.bookings && KnownLog(LogOf(s, id)) && forall i :: !UnlockFinds(s, id, i)
    ensures var c := CompensateAll(s, id, LogOf(s, id), gateway);
      SeatInv(c) && c.redis == s.redis && c.bookings == s.bookings && c.holder == s.holder
  {
    hide SeatInv, CompensateAll, Unlocked, UnlockFinds, KnownLog;
    UnlockOfNothing(s, id);
    CompensatedLikeUnlocked(s, id, gateway);
    var u := Unlocked(s, id);
    RebuiltKeepsInv(s, u.inv);
    SameSeatsKeepsInv(u, CompensateAll(s, id, LogOf(s, id), gateway));
  }

  /**
   The compensation of a success handler that rolled back keeps the seats consistent if and only if the booking is still
   awaiting its payment and its unlock is not refused, or nobody holds one of its keys any more.
   */
  lemma CompensationIsSafeIff(s: System, id: int, gateway: Option<string>)
    requires SeatInv(s) && id in s.bookings && KnownLog(LogOf(s, id))
    ensures SeatInv(ConfirmFaults(s, id, gateway)) <==>
      (s.bookings[id].status == PaymentPending && UnlockClear(s, id)) || Keys(s.bookings[id]) !! s.redis.Keys
  {
    hide SeatInv, CompensateAll, Unlocked, ForceReleased, Keys, KnownLog, Vacated, UnlockFinds, KeyList;
    var b := s.bookings[id];
    var c := CompensateAll(s, id, LogOf(s, id), gateway);
    CompensatedLikeUnlocked(s, id, gateway);
    if b.status == PaymentPending {
      HoldsItsKeys(s, id);
      if UnlockClear(s, id) {
        ConfirmFaultsVacates(s, id, gateway);
        VacatedKeepsInv(s, ConfirmFaults(s, id, gateway), id);
      } else {
        OwnersComplete(s);
        RefusedConfirmFaults(s, id, gateway);
        EndsWithRowsLeaves(s, ConfirmFaults(s, id, gateway), id);
      }
    } else {
      assert WithBooking(c, id, b) == c;
      if Keys(b) !! s.redis.Keys {
        NothingFound(s, id);
        CompensationOfNothing(s, id, gateway);
        ReleaseOfNothing(c, id);
      } else {
        ForcedReleaseTakes(s, c, id);
      }
    }
  }

  lemma HoldsItsKeys(s: System, id: int)
    requires SeatInv(s) && id in s.bookings && s.bookings[id].Holding()
    ensures !(Keys(s.bookings[id]) !! s.redis.Keys)
  {
    hide Invariant, Gate;
    var b := s.bookings[id];
    assert BookingSound(s, id);
    assert Key(b, b.seats[0]) in Keys(b) && OwnsKey(s, id, Key(b, b.seats[0]));
    assert Key(b, b.seats[0]) in s.redis.Keys;
  }

  lemma RefundOfMovedKeepsMoney(s: System, id: int, gateway: Option<string>)
    requires MoneyInv(s) && id in s.bookings && s.bookings[id].status in {Failed, CancelledByUser}
    ensures MoneyInv(Refunded(s, id, Pay.CompensationKey(id), gateway))
  {
    hide Pay.LedgerInv, Pay.Balanced, PayLocal, PricesKept, TotalPrice, Pay.RefundsOf;
    assert MoneySound(s, id);
    var (b, s') := (s.bookings[id], Refunded(s, id, Pay.CompensationKey(id), gateway));
    if b.order != 0 {
      RefundIsLocal(s.pay, id, Pay.CompensationKey(id), b.order, b.amount, gateway);
      RefundKeepsOrder(s.pay, Pay.CompensationKey(id), b.order, b.amount, gateway);
      hide Pay.CreateRefund;
      SamePrices(s.inv.seats);
      LocalMoney(s, s', id, b.order);
    }
  }

  lemma SameMoneyParts(s: System, s': System)
    requires MoneyInv(s) && s'.pay == s.pay && s'.bookings == s.bookings && s'.logs == s.logs && PricesKept(s.inv.seats, s'.inv.seats)
    ensures MoneyInv(s')
  {
    hide Pay.LedgerInv, Pay.Balanced, TotalPrice, Pay.RefundsOf, PricesKept;
    forall c | c in s'.bookings ensures MoneySound(s', c) {
      assert MoneySound(s, c);
      SameTotal(s.inv.seats, s'.inv.seats, s.bookings[c].schedule, s.bookings[c].seats);
    }
  }

  lemma CompensatedMovedParts(s: System, id: int, gateway: Option<string>)
    requires id in s.bookings && s.bookings[id].status != PaymentPending && LogOf(s, id) == PAID_LOG
    ensures var (s', t) := (ConfirmFaults(s, id, gateway), Refunded(s, id, Pay.CompensationKey(id), gateway));
      s'.pay == t.pay && s'.bookings == t.bookings && s'.logs == t.logs && PricesKept(t.inv.seats, s'.inv.seats)
  {
    var b := s.bookings[id];
    CompensateAllUnlocksOnce(s, id, PAID_LOG, gateway);
    UnlockUnderKeepsPrices(s.inv, s.busy.unlocks, b.user, b.schedule, b.seats, b.seg);
    hide CompensateAll, UnlockUnder, PricesKept, R.ForceReleased, Pay.CreateRefund;
  }

  lemma RefundOfConfirmedGoesThrough(s: System, id: int, gateway: Option<string>)
    requires MoneyInv(s) && id in s.bookings && s.bookings[id].status == Confirmed
    ensures var (b, l) := (s.bookings[id], Refunded(s, id, Pay.CompensationKey(id), gateway).pay);
      && b.order in l.orders
      && (Pay.GatewayRefunds(s.pay, gateway) ==> l.orders[b.order].status == Pay.RefundInitiated)
      && (!Pay.GatewayRefunds(s.pay, gateway) ==> l == s.pay)
  {
    var b := s.bookings[id];
    assert MoneySound(s, id);
    assert Pay.OrderSound(s.pay, b.order);
    Pay.RefundGoesThroughIff(s.pay, Pay.CompensationKey(id), b.order, b.amount, gateway);
    Pay.RefundEffect(s.pay, Pay.CompensationKey(id), b.order, b.amount, gateway);
    hide Pay.GatewayRefunds, Pay.CreateRefund, Pay.LedgerInv, Pay.Balanced, TotalPrice, Pay.RefundsOf;
  }

  lemma ConfirmedIsCaptured(s: System, id: int)
    requires MoneyInv(s) && id in s.bookings && s.bookings[id].status == Confirmed
    ensures s.bookings[id].order in s.pay.orders && s.pay.orders[s.bookings[id].order].status == Pay.Captured
  {
    assert MoneySound(s, id);
  }

  lemma RefundedConfirmedBreaksMoney(s: System, id: int)
    requires id in s.bookings && s.bookings[id].status == Confirmed
    requires s.bookings[id].order in s.pay.orders && s.pay.orders[s.bookings[id].order].status == Pay.RefundInitiated
    ensures !MoneyInv(s)
  {
    hide Pay.LedgerInv, Pay.Balanced, TotalPrice, Pay.RefundsOf;
    if MoneyInv(s) {
      ConfirmedIsCaptured(s, id);
    }
  }

  /**
   It keeps the money consistent if and only if no other handler has confirmed the booking meanwhile, or the gateway
   refuses the refund: otherwise the booking stays CONFIRMED and its payment is given back.
   */
  lemma CompensationKeepsMoneyIff(s: System, id: int, gateway: Option<string>)
    requires MoneyInv(s) && id in s.bookings && LogOf(s, id) == PAID_LOG
    ensures MoneyInv(ConfirmFaults(s, id, gateway)) <==> s.bookings[id].status != Confirmed || !Pay.GatewayRefunds(s.pay, gateway)
  {
    var b := s.bookings[id];
    LogTellsStatus(s, id);
    hide MoneyInv, ConfirmFaults, Refunded, PricesKept, Pay.GatewayRefunds;
    var (s', t) := (ConfirmFaults(s, id, gateway), Refunded(s, id, Pay.CompensationKey(id), gateway));
    if b.status == PaymentPending {
      CompensateKeepsMoney(s, id, gateway);
    } else {
      CompensatedMovedParts(s, id, gateway);
      if b.status == Confirmed {
        RefundOfConfirmedGoesThrough(s, id, gateway);
        RefundedStaysConfirmed(s, id, gateway);
        if Pay.GatewayRefunds(s.pay, gateway) {
          RefundedConfirmedBreaksMoney(s', id);
        } else {
          SameMoneyParts(s, s');
        }
      } else {
        RefundOfMovedKeepsMoney(s, id, gateway);
        SameMoneyParts(t, s');
      }
    }
  }

  lemma RefundedStaysConfirmed(s: System, id: int, gateway: Option<string>)
    requires id in s.bookings
    ensures var t := Refunded(s, id, Pay.CompensationKey(id), gateway); t == s.(pay := t.pay)
  {
    hide Pay.CreateRefund;
  }

  lemma LogTellsStatus(s: System, id: int)
    requires MoneyInv(s) && id in s.bookings && LogOf(s, id) == PAID_LOG
    ensures s.bookings[id].status !in {Pending, SeatsHeld}
  {
    assert MoneySound(s, id);
    assert HELD_LOG != PAID_LOG;
  }

  /* ---- a creation given up although the booking moved ---- */

  lemma AbandonParts(s: System, id: int, gateway: Option<string>)
    requires id in s.bookings && KnownLog(LogOf(s, id))
    ensures var (s', u, b) := (Abandon(s, id, gateway), Unlocked(s, id), s.bookings[id]);
      && s'.inv == u.inv && s'.owner == u.owner && s'.redis == R.Released(s.redis, KeyList(b), b.token)
      && s'.bookings == s.bookings[id := b.(status := Failed, reason := OtherFailure)]
  {
    CompensatedParts(s, id, LogOf(s, id), gateway);
    hide CompensateAll, UnlockUnder, R.Released, KeyList;
  }

  /** An unlock that finds a row takes it from a booking that is still live. */
  lemma FoundRowIsTaken(s: System, s': System, id: int, i: nat)
    requires SeatInv(s) && id in s.bookings && !s.bookings[id].Live() && UnlockFinds(s, id, i)
    requires UnlockOpens(s, id)
    requires s'.inv == Unlocked(s, id).inv && id in s'.bookings && s'.bookings == s.bookings[id := s'.bookings[id]]
    ensures !SeatInv(s')
  {
    hide *;
    FoundRowIsDeleted(s, id, i);
    FoundRowOwner(s, id, i);
    if SeatInv(s') {
      RowIsThere(s', s.owner[i], i);
    }
  }

  lemma FoundRowOwner(s: System, id: int, i: nat)
    requires SeatInv(s) && id in s.bookings && !s.bookings[id].Live() && UnlockFinds(s, id, i)
    ensures i in s.owner && s.owner[i] != id && s.owner[i] in s.bookings
    ensures s.bookings[s.owner[i]].Rowed() && s.bookings[s.owner[i]].InRange(i)
  {
    hide SeatInv;
    FoundRowHasKey(s, id, i);
    OwnedRowBelongs(s, i);
  }

  lemma RowIsThere(s: System, id: int, i: nat)
    requires SeatInv(s) && id in s.bookings && s.bookings[id].Rowed() && s.bookings[id].InRange(i)
    ensures i in s.inv.locks
  {
    hide SeatInv;
    BookedRowBelongs(s, id, i);
  }

  lemma FoundRowIsDeleted(s: System, id: int, i: nat)
    requires id in s.bookings && UnlockFinds(s, id, i) && UnlockOpens(s, id)
    ensures i !in Unlocked(s, id).inv.locks
  {
    var b := s.bookings[id];
    UnlockUnderEffect(s.inv, s.busy.unlocks, b.user, b.schedule, b.seats, b.seg);
    UnlockEffect(s.inv, b.user, b.schedule, b.seats, b.seg);
    hide UnlockUnder, UnlockSeats, Gate;
  }

  lemma ReleaseTakes(s: System, s': System, id: int, k: R.LockKey)
    requires SeatInv(s) && id in s.bookings && !s.bookings[id].Live()
    requires id in s'.bookings && s'.bookings == s.bookings[id := s'.bookings[id]]
    requires k in Keys(s.bookings[id]) && k in s.redis && s.redis[k] == s.bookings[id].token
    requires s'.redis == R.Released(s.redis, KeyList(s.bookings[id]), s.bookings[id].token)
    ensures !SeatInv(s')
  {
    hide SeatInv;
    KeyListHasKeys(s.bookings[id]);
    HolderOf(s, k);
    TakenKeyBreaksInv(s, s', k);
  }

  lemma AbandonOfEnded(s: System, id: int, gateway: Option<string>)
    requires SeatInv(s) && id in s.bookings && !s.bookings[id].Live() && KnownLog(LogOf(s, id))
    requires UnlockOpens(s, id) ==> forall i :: !UnlockFinds(s, id, i)
    requires R.HeldBy(s.redis, Keys(s.bookings[id]), s.bookings[id].token) == {}
    ensures SeatInv(Abandon(s, id, gateway))
  {
    var b := s.bookings[id];
    UnlockLeavesRows(s, id);
    NothingToRelease(s.redis, b);
    OwnersComplete(s);
    hide SeatInv, CompensateAll, Unlocked, UnlockFinds, KnownLog, Keys, KeyList, R.Released, R.HeldBy, UnlockOpens;
    CompensatedLikeUnlocked(s, id, gateway);
    var (u, c) := (Unlocked(s, id), CompensateAll(s, id, LogOf(s, id), gateway));
    RebuiltKeepsInv(s, u.inv);
    RewrittenEnd(u, WithBooking(c, id, b.(status := Failed, reason := OtherFailure)), id);
    SameRelease(WithBooking(c, id, b.(status := Failed, reason := OtherFailure)), id);
  }

  lemma NothingToRelease(redis: R.Store, b: Booking)
    requires R.HeldBy(redis, Keys(b), b.token) == {}
    ensures R.Released(redis, KeyList(b), b.token) == redis
  {
    KeyListHasKeys(b);
  }

  lemma SameRelease(s: System, id: int)
    requires s.holder.Keys == s.redis.Keys
    ensures WithRedis(s, id, s.redis) == s
  {
  }

  lemma UnlockLeavesRows(s: System, id: int)
    requires SeatInv(s) && id in s.bookings
    requires UnlockOpens(s, id) ==> forall i :: !UnlockFinds(s, id, i)
    ensures var u := Unlocked(s, id);
      && u == s.(inv := u.inv) && u.inv.locks == s.inv.locks && Invariant(u.inv) && SameFrame(s.inv, u.inv)
  {
    hide *;
    if UnlockOpens(s, id) {
      UnlockOfNothing(s, id);
    } else {
      ClosedUnlock(s, id);
      SameFrameAsBefore(s.inv);
    }
  }

  lemma ClosedUnlock(s: System, id: int)
    requires SeatInv(s) && id in s.bookings && !UnlockOpens(s, id)
    ensures Unlocked(s, id) == s && Invariant(s.inv)
  {
    hide Invariant, BookingSound, KeySound, RowSound, UnlockUnder, UnlockSeats, Gate;
    var b := s.bookings[id];
    UnlockUnderEffect(s.inv, s.busy.unlocks, b.user, b.schedule, b.seats, b.seg);
    assert UnlockUnder(s.inv, s.busy.unlocks, b.user, b.schedule, b.seats, b.seg).0 == s.inv;
    SameOwners(s, id);
  }

  /**
   Giving a creation up writes FAILED by id alone. It is safe if and only if the booking still holds its keys and its unlock
   is not refused, or it has ended and the unlock finds no row and the release no key that now belong to another.
   */
  lemma AbandonIsSafeIff(s: System, id: int, gateway: Option<string>)
    requires SeatInv(s) && id in s.bookings && KnownLog(LogOf(s, id))
    ensures var b := s.bookings[id];
      SeatInv(Abandon(s, id, gateway)) <==>
        (b.Holding() && UnlockReaches(s, id))
        || (!b.Live() && R.HeldBy(s.redis, Keys(b), b.token) == {} && (UnlockOpens(s, id) ==> forall i :: !UnlockFinds(s, id, i)))
  {
    hide SeatInv, Abandon, Unlocked, Keys, KeyList, KnownLog, UnlockFinds, R.Released, UnlockOpens;
    var b := s.bookings[id];
    var s' := Abandon(s, id, gateway);
    AbandonParts(s, id, gateway);
    if b.Holding() && UnlockReaches(s, id) {
      AbandonKeepsInv(s, id, gateway);
    } else if b.Holding() {
      OwnersComplete(s);
      RefusedAbandon(s, id, gateway);
      EndsWithRowsLeaves(s, s', id);
    } else if b.status == Confirmed {
      BaseIsOwn(s, id);
      BookedRowSurvives(s, id, b.base);
      OrphanBreaksInv(s', id, b.base);
    } else if R.HeldBy(s.redis, Keys(b), b.token) != {} {
      var k :| k in R.HeldBy(s.redis, Keys(b), b.token);
      ReleaseTakes(s, s', id, k);
    } else if UnlockOpens(s, id) && exists i :: UnlockFinds(s, id, i) {
      var i :| UnlockFinds(s, id, i);
      FoundRowIsTaken(s, s', id, i);
    } else {
      AbandonOfEnded(s, id, gateway);
    }
  }

  /* ---- a fault after the seats were confirmed ---- */

  /** The confirmation took effect, then something failed: the log is compensated and the booking marked FAILED. */
  function LateFault(s: System, id: int, gateway: Option<string>): System
    requires id in s.bookings
  {
    var b := s.bookings[id];
    ConfirmFaults(WithInventory(s, id, ConfirmUnder(s.inv, s.busy.calls, id, b.user, b.schedule, b.seats, b.seg).0), id, gateway)
  }

  /** Compensation unlocks LOCKED rows only, so every seat of the failed booking stays BOOKED. */
  lemma LateFaultLeaksSeats(s: System, id: int, gateway: Option<string>)
    requires SeatInv(s) && id in s.bookings && s.bookings[id].status == PaymentPending && LogOf(s, id) == PAID_LOG && CallClear(s, id)
    ensures var s' := LateFault(s, id, gateway);
      && s'.bookings[id].status == Failed
      && (forall i :: i in OwnRows(s, id) ==> i in s'.inv.locks && s'.inv.locks[i].state == Booked && s'.inv.locks[i].booking == Some(id))
      && OwnRows(s, id) != {} && !SeatInv(s')
  {
    hide SeatInv, ConfirmUnder, UnlockUnder, UnlockSeats, Inventory.Confirmed, OwnRows, R.ForceReleased, Pay.CreateRefund, Gate;
    var b := s.bookings[id];
    var c := WithInventory(s, id, ConfirmUnder(s.inv, s.busy.calls, id, b.user, b.schedule, b.seats, b.seg).0);
    OwnersComplete(s);
    ConfirmIsAcceptedIff(s, id);
    ConfirmedKeepsRowIds(s, id);
    CompensateAllUnlocksOnce(c, id, PAID_LOG, gateway);
    UnlockUnderEffect(c.inv, s.busy.unlocks, b.user, b.schedule, b.seats, b.seg);
    UnlockEffect(c.inv, b.user, b.schedule, b.seats, b.seg);
    var s' := LateFault(s, id, gateway);
    assert s'.inv == UnlockUnder(c.inv, s.busy.unlocks, b.user, b.schedule, b.seats, b.seg).0;
    forall i | i in OwnRows(s, id) ensures i in s'.inv.locks && s'.inv.locks[i].state == Booked && s'.inv.locks[i].booking == Some(id) {
      OwnRowConfirmed(s, id, i);
    }
    BaseIsOwn(s, id);
    BookedRowOfFailed(s', id, b.base);
  }

  lemma OwnRowConfirmed(s: System, id: int, i: nat)
    requires SeatInv(s) && id in s.bookings && s.bookings[id].Holding() && i in OwnRows(s, id)
    ensures var b := s.bookings[id];
      var after := Inventory.Confirmed(s.inv.locks, b.schedule, IdSet(b.seats), b.seg, b.user, id);
      && i in after && after[i].state == Booked && after[i].booking == Some(id)
      && i in Deleted(after, b.schedule, IdSet(b.seats), b.seg, b.user, Locked)
  {
    hide SeatInv;
    OwnersComplete(s);
    ConfirmedRows(s, id, i);
  }

  lemma BaseIsOwn(s: System, id: int)
    requires SeatInv(s) && id in s.bookings && s.bookings[id].Rowed()
    ensures s.bookings[id].base in OwnRows(s, id)
  {
    RequestOf(s, id);
    BookedRowBelongs(s, id, s.bookings[id].base);
  }

  lemma BookedRowOfFailed(s: System, id: int, i: nat)
    requires id in s.bookings && s.bookings[id].status == Failed
    requires i in s.inv.locks && s.inv.locks[i].state == Booked && s.inv.locks[i].booking == Some(id)
    ensures !SeatInv(s)
  {
    if SeatInv(s) {
      OwnedRowBelongs(s, i);
    }
  }
}
