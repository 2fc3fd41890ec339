/**
 Lock, unlock and confirm as interleaved transactions. Each one first takes the seat rows with
 FOR UPDATE SKIP LOCKED, gives up if it did not get all of them, then checks, writes and commits.
 A cancellation takes no seat row: it deletes segment rows at once and commits later.
 */
module RowLocking {
  import opened IntSets
  import opened Options
  import opened Inventory
  import opened InventoryInvariants

  datatype Request = LockRequest | UnlockRequest | ConfirmRequest(booking: int)

  datatype Phase = Holding | Checked | Written | Aborting

  datatype Txn =
    | SeatTxn(req: Request, user: int, schedule: int, ids: seq<int>, seg: Segment, got: set<int>, phase: Phase,
              inserts: LockTable, updates: LockTable, removes: set<nat>)
    | CancelTxn(removes: set<nat>)
  {
    predicate Wants(k: SeatKey)
      requires SeatTxn?
    {
      k.schedule == schedule && k.seat in ids
    }

    predicate Owns(k: SeatKey) {
      SeatTxn? && k.schedule == schedule && k.seat in got
    }

    /** The segment rows on which this transaction holds a row lock. */
    predicate RowLocks(i: nat) {
      i in removes || (SeatTxn? && i in updates)
    }
  }

  /** `committed` is the segment table; what a transaction has written stays with it until it commits. */
  datatype State = State(seats: set<SeatKey>, committed: LockTable, txns: map<int, Txn>, nextId: nat)

  datatype Step =
    | Start(t: int, req: Request, user: int, schedule: int, ids: seq<int>, seg: Segment)
    | Check(t: int)
    | Write(t: int)
    | Commit(t: int)
    | Rollback(t: int)
    | CancelDelete(t: int, schedule: int, booking: int, user: int)
    | CancelCommit(t: int)
    | CancelRollback(t: int)

  predicate Busy(s: State, k: SeatKey) {
    exists t :: t in s.txns && s.txns[t].Owns(k)
  }

  predicate RowLockedByOther(s: State, t: int, i: nat) {
    exists u :: u in s.txns && u != t && s.txns[u].RowLocks(i)
  }

  /** Skip-locked reading: rows locked by another transaction are not seen. */
  function VisibleOverlaps(s: State, t: int, x: Txn): set<nat>
    requires x.SeatTxn?
  {
    set i | i in s.committed && x.Wants(s.committed[i].key) && s.committed[i].Active()
            && s.committed[i].seg.Overlaps(x.seg) && !RowLockedByOther(s, t, i)
  }

  function CancelTargets(s: State, schedule: int, booking: int, user: int): set<nat> {
    var rows := RowsOfBooking(s.committed, schedule, booking, user);
    if rows == {} then {}
    else set i | i in s.committed && s.committed[i].Matches(schedule, SeatIdsOf(s.committed, rows), s.committed[Smallest(rows)].seg, user, Booked)
  }

  ghost predicate Enabled(s: State, e: Step) {
    match e
    case Start(t, _, _, _, ids, seg) => t !in s.txns && ids != [] && seg.from < seg.to
    case Check(t) => t in s.txns && s.txns[t].SeatTxn? && s.txns[t].req == LockRequest && s.txns[t].phase == Holding
    case Write(t) => t in s.txns && s.txns[t].SeatTxn? &&
      s.txns[t].phase == (if s.txns[t].req == LockRequest then Checked else Holding)
    case Commit(t) => t in s.txns && s.txns[t].SeatTxn? && s.txns[t].phase == Written
    case Rollback(t) => t in s.txns && s.txns[t].SeatTxn?
    case CancelDelete(t, schedule, booking, user) => t !in s.txns
      && (forall i :: i in CancelTargets(s, schedule, booking, user) ==> !RowLockedByOther(s, t, i))
    case CancelCommit(t) => t in s.txns && s.txns[t].CancelTxn?
    case CancelRollback(t) => t in s.txns && s.txns[t].CancelTxn?
  }

  function Taken(s: State, schedule: int, ids: seq<int>): set<int> {
    set x | x in ids && SeatKey(schedule, x) in s.seats && !Busy(s, SeatKey(schedule, x))
  }

  function Effects(s: State, x: Txn): Txn
    requires x.SeatTxn?
  {
    match x.req
    case LockRequest => x.(phase := Written, inserts := NewRows(s.nextId, x.schedule, x.ids, x.seg, x.user))
    case UnlockRequest => x.(phase := Written,
      removes := set i | i in s.committed && s.committed[i].Matches(x.schedule, IdSet(x.ids), x.seg, x.user, Locked))
    case ConfirmRequest(b) => x.(phase := Written,
      updates := map i | i in s.committed && s.committed[i].Matches(x.schedule, IdSet(x.ids), x.seg, x.user, Locked)
                   :: s.committed[i].(booking := Some(b), state := Booked, version := s.committed[i].version + 1))
  }

  function AfterWrite(s: State, t: int): State
    requires t in s.txns && s.txns[t].SeatTxn?
  {
    var x := s.txns[t];
    s.(txns := s.txns[t := Effects(s, x)], nextId := s.nextId + (if x.req == LockRequest then |x.ids| else 0))
  }

  ghost function Next(s: State, e: Step): State
    requires Enabled(s, e)
  {
    match e
    case Start(t, req, user, schedule, ids, seg) =>
      var got := Taken(s, schedule, ids);
      var phase := if |got| == |ids| then Holding else Aborting;
      s.(txns := s.txns[t := SeatTxn(req, user, schedule, ids, seg, got, phase, map[], map[], {})])
    case Check(t) =>
      var x := s.txns[t];
      s.(txns := s.txns[t := x.(phase := if VisibleOverlaps(s, t, x) == {} then Checked else Aborting)])
    case Write(t) => AfterWrite(s, t)
    case Commit(t) =>
      var x := s.txns[t];
      s.(committed := (s.committed - x.removes) + x.updates + x.inserts, txns := s.txns - {t})
    case Rollback(t) => s.(txns := s.txns - {t})
    case CancelDelete(t, schedule, booking, user) =>
      s.(txns := s.txns[t := CancelTxn(CancelTargets(s, schedule, booking, user))])
    case CancelCommit(t) => s.(committed := s.committed - s.txns[t].removes, txns := s.txns - {t})
    case CancelRollback(t) => s.(txns := s.txns - {t})
  }

  /* ---- the invariant ---- */

  /** Row `i` is being deleted by a cancellation that has not committed yet. */
  ghost predicate Condemned(s: State, i: nat) {
    exists t :: t in s.txns && s.txns[t].CancelTxn? && i in s.txns[t].removes
  }

  ghost predicate Live(s: State, i: nat) {
    i in s.committed && s.committed[i].Active() && !Condemned(s, i)
  }

  /** Committed rows that are not condemned never overlap on one seat. */
  ghost predicate CommittedDisjoint(s: State) {
    forall i, j :: Live(s, i) && Live(s, j) && i != j && s.committed[i].key == s.committed[j].key
      ==> !s.committed[i].seg.Overlaps(s.committed[j].seg)
  }

  /** A transaction that has passed its check, or has inserted, meets no such row on its seats. */
  ghost predicate InFlightDisjoint(s: State) {
    forall t, i :: t in s.txns && Inserting(s.txns[t]) && Live(s, i) && s.txns[t].Wants(s.committed[i].key)
      ==> !s.committed[i].seg.Overlaps(s.txns[t].seg)
  }

  ghost predicate Inserting(x: Txn) {
    x.SeatTxn? && x.req == LockRequest && (x.phase == Checked || x.phase == Written)
  }

  ghost predicate ExclusiveOwners(s: State) {
    forall t, u, k :: t in s.txns && u in s.txns && s.txns[t].Owns(k) && s.txns[u].Owns(k) ==> t == u
  }

  ghost predicate TxnOk(s: State, x: Txn) {
    x.SeatTxn? ==>
      && x.seg.from < x.seg.to
      && (x.phase != Aborting ==> Distinct(x.ids) && forall id :: id in x.ids ==> id in x.got)
      && (x.phase != Written || x.req != LockRequest ==> x.inserts == map[])
      && (x.phase != Written ==> x.updates == map[] && x.removes == {})
      && (forall i :: i in x.inserts ==>
           i < s.nextId && i !in s.committed && x.Wants(x.inserts[i].key) && x.inserts[i].seg == x.seg && x.inserts[i].state == Locked)
      && (forall i, j :: i in x.inserts && j in x.inserts && i != j ==> x.inserts[i].key != x.inserts[j].key)
      && (forall i :: i in x.updates ==>
           i in s.committed && x.updates[i].key == s.committed[i].key && x.updates[i].seg == s.committed[i].seg
           && s.committed[i].state == Locked && x.updates[i].state == Booked && x.phase == Written && x.Wants(x.updates[i].key))
      && (forall i :: i in x.removes ==> i in s.committed && s.committed[i].state == Locked && x.phase == Written && x.Wants(s.committed[i].key))
  }

  ghost predicate CancelOk(s: State, x: Txn) {
    x.CancelTxn? ==>
      && (forall i :: i in x.removes ==> i in s.committed && s.committed[i].state == Booked)
      && (forall i, j :: i in x.removes && j in x.removes && i != j && s.committed[i].key == s.committed[j].key
            ==> !s.committed[i].seg.Overlaps(s.committed[j].seg))
  }

  ghost predicate FreshIds(s: State) {
    && (forall i :: i in s.committed ==> i < s.nextId)
    && (forall t, u :: t in s.txns && u in s.txns && t != u && s.txns[t].SeatTxn? && s.txns[u].SeatTxn?
          ==> s.txns[t].inserts.Keys !! s.txns[u].inserts.Keys)
  }

  ghost predicate Inv(s: State) {
    && CommittedDisjoint(s) && InFlightDisjoint(s) && ExclusiveOwners(s) && FreshIds(s)
    && CancelsDisjoint(s)
    && (forall t :: t in s.txns ==> TxnOk(s, s.txns[t]) && CancelOk(s, s.txns[t]))
  }

  ghost predicate CancelsDisjoint(s: State) {
    forall t, u :: t in s.txns && u in s.txns && t != u && s.txns[t].CancelTxn? && s.txns[u].CancelTxn?
      ==> s.txns[t].removes !! s.txns[u].removes
  }

  /* ---- every step but the rollback of a cancellation ---- */

  ghost predicate OnlyTxnChanges(s: State, s': State, t: int) {
    forall u :: u != t ==> (u in s.txns <==> u in s'.txns) && (u in s.txns ==> s'.txns[u] == s.txns[u])
  }

  lemma SameCondemned(s: State, s': State, t: int, i: nat)
    requires OnlyTxnChanges(s, s', t) && (t in s.txns ==> s.txns[t].SeatTxn?) && (t in s'.txns ==> s'.txns[t].SeatTxn?)
    ensures Condemned(s, i) <==> Condemned(s', i)
  {
    if Condemned(s, i) {
      var u :| u in s.txns && s.txns[u].CancelTxn? && i in s.txns[u].removes;
      assert u != t && s'.txns[u] == s.txns[u];
    }
    if Condemned(s', i) {
      var u :| u in s'.txns && s'.txns[u].CancelTxn? && i in s'.txns[u].removes;
      assert u != t && s'.txns[u] == s.txns[u];
    }
  }

  lemma SameLive(s: State, s': State, t: int)
    requires OnlyTxnChanges(s, s', t) && (t in s.txns ==> s.txns[t].SeatTxn?) && (t in s'.txns ==> s'.txns[t].SeatTxn?)
    requires s.committed == s'.committed
    ensures forall i :: Live(s', i) <==> Live(s, i)
  {
    forall i ensures Live(s', i) <==> Live(s, i) {
      SameCondemned(s, s', t, i);
    }
  }

  lemma StartKeepsInv(s: State, e: Step)
    requires Inv(s) && e.Start? && Enabled(s, e)
    ensures Inv(Next(s, e))
  {
    SameLive(s, Next(s, e), e.t);
    StartedOk(s, e);
    StartKeepsOwners(s, e);
    StartKeepsTxns(s, e);
    hide Live, TxnOk, CancelOk, ExclusiveOwners, Taken;
  }

  lemma StartKeepsOwners(s: State, e: Step)
    requires Inv(s) && e.Start? && Enabled(s, e)
    ensures ExclusiveOwners(Next(s, e)) && FreshIds(Next(s, e)) && CancelsDisjoint(Next(s, e))
  {
    StartedOk(s, e);
    hide Live, TxnOk, CancelOk, CommittedDisjoint, InFlightDisjoint, Taken;
  }

  lemma StartKeepsTxns(s: State, e: Step)
    requires Inv(s) && e.Start? && Enabled(s, e)
    ensures var s' := Next(s, e); forall u :: u in s'.txns ==> TxnOk(s', s'.txns[u]) && CancelOk(s', s'.txns[u])
  {
    StartedOk(s, e);
    hide CommittedDisjoint, InFlightDisjoint, ExclusiveOwners, FreshIds, Taken;
    var s' := Next(s, e);
    forall u | u in s'.txns ensures TxnOk(s', s'.txns[u]) && CancelOk(s', s'.txns[u]) {
      assert u != e.t ==> TxnOk(s, s.txns[u]) && CancelOk(s, s.txns[u]);
    }
  }

  /** A transaction that got as many rows as it has ids got all of them, and none is taken twice. */
  lemma StartedOk(s: State, e: Step)
    requires e.Start? && Enabled(s, e)
    ensures var x := Next(s, e).txns[e.t];
      && TxnOk(s, x) && CancelOk(s, x) && x.SeatTxn? && x.inserts == map[] && !Inserting(x)
      && forall u, k :: u in s.txns && s.txns[u].Owns(k) ==> !x.Owns(k)
  {
    DistinctCardinality(e.ids);
    SubsetCardinality(Taken(s, e.schedule, e.ids), IdSet(e.ids));
    forall u, k | u in s.txns && s.txns[u].Owns(k) ensures k.schedule == e.schedule ==> k.seat !in Taken(s, e.schedule, e.ids) {
      assert Busy(s, k);
    }
  }

  ghost predicate Advances(s: State, t: int, y: Txn, n: nat) {
    && t in s.txns && s.txns[t].SeatTxn? && y.SeatTxn? && s.nextId <= n
    && y.got == s.txns[t].got && y.schedule == s.txns[t].schedule && y.ids == s.txns[t].ids && y.seg == s.txns[t].seg
    && TxnOk(s.(nextId := n), y) && (forall i :: i in y.inserts ==> s.nextId <= i)
    && (Inserting(y) ==> forall i :: Live(s, i) && y.Wants(s.committed[i].key) ==> !s.committed[i].seg.Overlaps(y.seg))
  }

  lemma AdvanceKeepsTxns(s: State, t: int, y: Txn, n: nat)
    requires Inv(s) && Advances(s, t, y, n)
    ensures var s' := s.(txns := s.txns[t := y], nextId := n);
      FreshIds(s') && forall u :: u in s'.txns ==> TxnOk(s', s'.txns[u]) && CancelOk(s', s'.txns[u])
  {
    var s' := s.(txns := s.txns[t := y], nextId := n);
    forall u | u in s.txns
      ensures TxnOk(s', s'.txns[u]) && CancelOk(s', s'.txns[u]) && (u != t && s.txns[u].SeatTxn? ==> s.txns[u].inserts.Keys !! y.inserts.Keys)
    {
      assert TxnOk(s, s.txns[u]);
    }
  }

  /** Replacing a transaction by a later phase of itself. */
  lemma AdvanceKeepsInv(s: State, t: int, y: Txn, n: nat)
    requires Inv(s) && Advances(s, t, y, n)
    ensures Inv(s.(txns := s.txns[t := y], nextId := n))
  {
    var s' := s.(txns := s.txns[t := y], nextId := n);
    AdvanceKeepsTxns(s, t, y, n);
    hide TxnOk, CancelOk, FreshIds;
    SameLive(s, s', t);
    forall u, k | u in s.txns ensures s'.txns[u].Owns(k) <==> s.txns[u].Owns(k) {}
  }

  lemma CheckKeepsInv(s: State, e: Step)
    requires Inv(s) && e.Check? && Enabled(s, e)
    ensures Inv(Next(s, e))
  {
    var x := s.txns[e.t];
    var y := x.(phase := if VisibleOverlaps(s, e.t, x) == {} then Checked else Aborting);
    forall i | y.phase == Checked && Live(s, i) && x.Wants(s.committed[i].key)
      ensures !s.committed[i].seg.Overlaps(x.seg)
    {
      NoOtherRowLock(s, e.t, i);
      assert i !in VisibleOverlaps(s, e.t, x);
    }
    assert TxnOk(s, x);
    AdvanceKeepsInv(s, e.t, y, s.nextId);
  }

  /** A live row of a seat that the transaction owns is not locked by anyone else, so it is not skipped. */
  lemma NoOtherRowLock(s: State, t: int, i: nat)
    requires Inv(s) && t in s.txns && s.txns[t].SeatTxn? && s.txns[t].phase != Aborting
    requires Live(s, i) && s.txns[t].Wants(s.committed[i].key)
    ensures !RowLockedByOther(s, t, i)
  {
    forall u | u in s.txns && u != t ensures !s.txns[u].RowLocks(i) {
      if s.txns[u].SeatTxn? {
        assert s.txns[t].Owns(s.committed[i].key);
        assert !s.txns[u].Owns(s.committed[i].key);
        assert TxnOk(s, s.txns[u]);
      }
    }
  }

  lemma EffectsOk(s: State, x: Txn, n: nat)
    requires x.SeatTxn? && TxnOk(s, x) && x.phase == (if x.req == LockRequest then Checked else Holding)
    requires FreshIds(s) && n == s.nextId + (if x.req == LockRequest then |x.ids| else 0)
    ensures var y := Effects(s, x);
      && TxnOk(s.(nextId := n), y) && (forall i :: i in y.inserts ==> s.nextId <= i)
      && y.SeatTxn? && y.got == x.got && y.schedule == x.schedule && y.ids == x.ids && y.seg == x.seg
      && (Inserting(y) ==> Inserting(x))
  {
    var y := Effects(s, x);
    if x.req == LockRequest {
      forall i, j | i in y.inserts && j in y.inserts && i != j ensures y.inserts[i].key != y.inserts[j].key {
        assert x.ids[i - s.nextId] != x.ids[j - s.nextId];
      }
    }
  }

  lemma WriteAdvances(s: State, t: int, x: Txn, n: nat)
    requires t in s.txns && s.txns[t] == x && x.SeatTxn? && x.phase == (if x.req == LockRequest then Checked else Holding)
    requires TxnOk(s, x) && FreshIds(s) && InFlightDisjoint(s)
    requires n == s.nextId + (if x.req == LockRequest then |x.ids| else 0)
    ensures Advances(s, t, Effects(s, x), n)
  {
    EffectsOk(s, x, n);
    hide Effects, TxnOk, FreshIds;
  }

  lemma PartsOfInv(s: State, t: int)
    requires Inv(s) && t in s.txns
    ensures TxnOk(s, s.txns[t]) && FreshIds(s) && InFlightDisjoint(s)
  {
  }

  lemma WriteKeepsInv(s: State, t: int)
    requires Inv(s) && t in s.txns && s.txns[t].SeatTxn?
    requires s.txns[t].phase == (if s.txns[t].req == LockRequest then Checked else Holding)
    ensures Inv(AfterWrite(s, t))
  {
    hide Inv, TxnOk, FreshIds, InFlightDisjoint, Advances, Effects;
    var x := s.txns[t];
    var n := s.nextId + (if x.req == LockRequest then |x.ids| else 0);
    PartsOfInv(s, t);
    WriteAdvances(s, t, x, n);
    AdvanceKeepsInv(s, t, Effects(s, x), n);
  }

  lemma RollbackKeepsInv(s: State, e: Step)
    requires Inv(s) && e.Rollback? && Enabled(s, e)
    ensures Inv(Next(s, e))
  {
    SameLive(s, Next(s, e), e.t);
    FewerTxns(s, e.t);
    hide Live, TxnOk, CancelOk, ExclusiveOwners, FreshIds, CancelsDisjoint;
  }

  /** A transaction that only goes away leaves the others as they were. */
  lemma FewerTxns(s: State, t: int)
    requires Inv(s)
    ensures var s' := s.(txns := s.txns - {t});
      && ExclusiveOwners(s') && FreshIds(s') && CancelsDisjoint(s')
      && forall u :: u in s'.txns ==> TxnOk(s', s'.txns[u]) && CancelOk(s', s'.txns[u])
  {
    hide CommittedDisjoint, InFlightDisjoint;
    var s' := s.(txns := s.txns - {t});
    forall u | u in s'.txns ensures TxnOk(s', s'.txns[u]) && CancelOk(s', s'.txns[u]) {
      SameTables(s, s', s.txns[u]);
    }
  }

  lemma SameTables(s: State, s': State, x: Txn)
    requires s'.committed == s.committed && s'.nextId == s.nextId && TxnOk(s, x) && CancelOk(s, x)
    ensures TxnOk(s', x) && CancelOk(s', x)
  {
  }

  lemma CancelDeleteShrinks(s: State, e: Step)
    requires e.CancelDelete? && Enabled(s, e)
    ensures forall i :: Live(Next(s, e), i) ==> Live(s, i)
  {
    hide CancelTargets;
    var s' := Next(s, e);
    forall i | Live(s', i) ensures Live(s, i) {
      forall u | u in s.txns && s.txns[u].CancelTxn? ensures i !in s.txns[u].removes {
        assert s'.txns[u] == s.txns[u];
      }
    }
  }

  /** The rows a cancellation deletes are live, since it waits for every row lock. */
  lemma TargetsAreLive(s: State, e: Step, i: nat)
    requires e.CancelDelete? && Enabled(s, e) && i in CancelTargets(s, e.schedule, e.booking, e.user)
    ensures Live(s, i) && s.committed[i].state == Booked
    ensures forall u :: u in s.txns && s.txns[u].CancelTxn? ==> i !in s.txns[u].removes
  {
    assert !RowLockedByOther(s, e.t, i);
  }

  lemma TargetsOk(s: State, e: Step)
    requires CommittedDisjoint(s) && e.CancelDelete? && Enabled(s, e)
    ensures CancelOk(s, CancelTxn(CancelTargets(s, e.schedule, e.booking, e.user)))
    ensures forall u :: u in s.txns && s.txns[u].CancelTxn? ==> s.txns[u].removes !! CancelTargets(s, e.schedule, e.booking, e.user)
  {
    hide CancelTargets;
    forall i | i in CancelTargets(s, e.schedule, e.booking, e.user)
      ensures Live(s, i) && s.committed[i].state == Booked
        && forall u :: u in s.txns && s.txns[u].CancelTxn? ==> i !in s.txns[u].removes
    {
      TargetsAreLive(s, e, i);
    }
  }

  lemma CancelDeleteKeepsInv(s: State, e: Step)
    requires Inv(s) && e.CancelDelete? && Enabled(s, e)
    ensures Inv(Next(s, e))
  {
    CancelDeleteShrinks(s, e);
    TargetsOk(s, e);
    hide CancelTargets, Live, TxnOk, CancelOk;
    OthersOk(s, e);
  }

  lemma OthersOk(s: State, e: Step)
    requires Inv(s) && e.CancelDelete? && Enabled(s, e)
    requires CancelOk(s, CancelTxn(CancelTargets(s, e.schedule, e.booking, e.user)))
    ensures var s' := Next(s, e); forall u :: u in s'.txns ==> TxnOk(s', s'.txns[u]) && CancelOk(s', s'.txns[u])
  {
    hide CancelTargets, CommittedDisjoint, InFlightDisjoint;
    var s' := Next(s, e);
    forall u | u in s.txns ensures TxnOk(s', s.txns[u]) && CancelOk(s', s.txns[u]) {
      assert TxnOk(s, s.txns[u]);
    }
  }

  lemma CancelCommitShrinks(s: State, e: Step)
    requires e.CancelCommit? && Enabled(s, e)
    ensures forall i :: Live(Next(s, e), i) ==> Live(s, i) && Next(s, e).committed[i] == s.committed[i]
  {
    var s' := Next(s, e);
    forall i | Live(s', i) ensures Live(s, i) && s'.committed[i] == s.committed[i] {
      forall u | u in s.txns && s.txns[u].CancelTxn? && u != e.t ensures i !in s.txns[u].removes {
        assert s'.txns[u] == s.txns[u];
      }
    }
  }

  /** The deleted rows are BOOKED, and no other transaction works on them. */
  lemma CancelCommitKeepsTxn(s: State, e: Step, u: int)
    requires Inv(s) && e.CancelCommit? && Enabled(s, e) && u in s.txns && u != e.t
    ensures TxnOk(Next(s, e), s.txns[u]) && CancelOk(Next(s, e), s.txns[u])
  {
    assert CancelOk(s, s.txns[e.t]) && TxnOk(s, s.txns[u]) && CancelOk(s, s.txns[u]);
    assert s.txns[u].CancelTxn? ==> s.txns[u].removes !! s.txns[e.t].removes;
    hide CommittedDisjoint, InFlightDisjoint, ExclusiveOwners;
  }

  lemma CancelCommitKeepsInv(s: State, e: Step)
    requires Inv(s) && e.CancelCommit? && Enabled(s, e)
    ensures Inv(Next(s, e))
  {
    var s' := Next(s, e);
    CancelCommitShrinks(s, e);
    FewerTxns(s, e.t);
    hide Live, TxnOk, CancelOk;
    forall u | u in s'.txns ensures TxnOk(s', s'.txns[u]) && CancelOk(s', s'.txns[u]) {
      CancelCommitKeepsTxn(s, e, u);
    }
  }

  lemma CommittedRows(s: State, e: Step, i: nat)
    requires Inv(s) && e.Commit? && Enabled(s, e) && Live(Next(s, e), i)
    ensures var (s', x) := (Next(s, e), s.txns[e.t]);
      if i in x.inserts then s'.committed[i] == x.inserts[i] && x.Owns(s'.committed[i].key)
      else Live(s, i) && s'.committed[i].key == s.committed[i].key && s'.committed[i].seg == s.committed[i].seg
  {
    var x := s.txns[e.t];
    assert TxnOk(s, x);
    SameCondemned(s, Next(s, e), e.t, i);
  }

  lemma CommitKeepsDisjoint(s: State, e: Step)
    requires Inv(s) && e.Commit? && Enabled(s, e)
    ensures CommittedDisjoint(Next(s, e))
  {
    var s' := Next(s, e);
    assert TxnOk(s, s.txns[e.t]);
    hide Live, CancelOk, ExclusiveOwners, FreshIds;
    forall i, j | Live(s', i) && Live(s', j) && i != j && i in s'.committed && j in s'.committed && s'.committed[i].key == s'.committed[j].key
      ensures !s'.committed[i].seg.Overlaps(s'.committed[j].seg)
    {
      CommittedRows(s, e, i);
      CommittedRows(s, e, j);
    }
  }

  lemma CommitKeepsInFlight(s: State, e: Step)
    requires Inv(s) && e.Commit? && Enabled(s, e)
    ensures InFlightDisjoint(Next(s, e))
  {
    var s' := Next(s, e);
    forall u, i | u in s'.txns && Inserting(s'.txns[u]) && Live(s', i) && s'.txns[u].Wants(s'.committed[i].key)
      ensures !s'.committed[i].seg.Overlaps(s'.txns[u].seg)
    {
      CommittedRows(s, e, i);
      assert TxnOk(s, s.txns[u]) && s.txns[u].Owns(s'.committed[i].key);
    }
  }

  lemma CommitKeepsFrame(s: State, e: Step)
    requires Inv(s) && e.Commit? && Enabled(s, e)
    ensures ExclusiveOwners(Next(s, e)) && FreshIds(Next(s, e)) && CancelsDisjoint(Next(s, e))
  {
    assert TxnOk(s, s.txns[e.t]);
    hide CommittedDisjoint, InFlightDisjoint, CancelOk;
  }

  lemma CommitKeepsInv(s: State, e: Step)
    requires Inv(s) && e.Commit? && Enabled(s, e)
    ensures Inv(Next(s, e))
  {
    CommitKeepsDisjoint(s, e);
    CommitKeepsInFlight(s, e);
    CommitKeepsFrame(s, e);
    hide CommittedDisjoint, InFlightDisjoint, ExclusiveOwners, FreshIds, CancelsDisjoint, TxnOk, CancelOk;
    forall u | u in Next(s, e).txns ensures TxnOk(Next(s, e), Next(s, e).txns[u]) && CancelOk(Next(s, e), Next(s, e).txns[u]) {
      CommitKeepsOthers(s, e, u);
    }
  }

  /** Rows of a seat are written by its owner only, so a commit leaves every other transaction intact. */
  lemma CommitKeepsOthers(s: State, e: Step, u: int)
    requires Inv(s) && e.Commit? && Enabled(s, e) && u in s.txns && u != e.t
    ensures TxnOk(Next(s, e), s.txns[u]) && CancelOk(Next(s, e), s.txns[u])
  {
    var s' := Next(s, e);
    var x, y := s.txns[e.t], s.txns[u];
    assert TxnOk(s, x) && TxnOk(s, y) && CancelOk(s, y);
    if y.SeatTxn? {
      forall i | i in y.updates || i in y.removes ensures i !in x.removes && i !in x.updates && i !in x.inserts {
        assert y.Owns(s.committed[i].key);
        assert !x.Owns(s.committed[i].key);
      }
    }
  }

  /* ---- the rollback of a cancellation ---- */

  /** No live row and no inserting transaction has taken a leg of this row. */
  ghost predicate RowFits(s: State, i: nat)
    requires i in s.committed
  {
    && (forall j :: Live(s, j) && s.committed[j].key == s.committed[i].key ==> !s.committed[i].seg.Overlaps(s.committed[j].seg))
    && (forall u :: u in s.txns && Inserting(s.txns[u]) && s.txns[u].Wants(s.committed[i].key)
          ==> !s.committed[i].seg.Overlaps(s.txns[u].seg))
  }

  ghost predicate RestoredFits(s: State, t: int)
    requires t in s.txns
  {
    forall i :: i in s.txns[t].removes && i in s.committed ==> RowFits(s, i)
  }

  lemma LiveRows(s: State, t: int)
    requires Inv(s) && Enabled(s, CancelRollback(t))
    ensures forall i :: Live(Next(s, CancelRollback(t)), i) <==> Live(s, i) || i in s.txns[t].removes
  {
    hide Inv, Live;
    forall i ensures Live(Next(s, CancelRollback(t)), i) <==> Live(s, i) || i in s.txns[t].removes {
      LiveAfterRollback(s, t, i);
    }
  }

  lemma FittingRollback(s: State, t: int)
    requires Inv(s) && Enabled(s, CancelRollback(t)) && RestoredFits(s, t)
    ensures Inv(Next(s, CancelRollback(t)))
  {
    LiveRows(s, t);
    FewerTxns(s, t);
    FittingRows(s, t);
    hide Live, TxnOk, CancelOk, RowFits, ExclusiveOwners, FreshIds, CancelsDisjoint;
  }

  /** The restored rows overlap neither each other nor what came in their place. */
  lemma FittingRows(s: State, t: int)
    requires Inv(s) && Enabled(s, CancelRollback(t)) && RestoredFits(s, t)
    ensures CommittedDisjoint(Next(s, CancelRollback(t))) && InFlightDisjoint(Next(s, CancelRollback(t)))
  {
    LiveRows(s, t);
    assert CancelOk(s, s.txns[t]);
    hide Live, TxnOk, ExclusiveOwners, FreshIds, CancelsDisjoint;
  }

  lemma UnfittingRow(s: State, t: int, i: nat)
    requires Enabled(s, CancelRollback(t)) && i in s.committed && !RowFits(s, i)
    requires forall j :: Live(s, j) ==> Live(Next(s, CancelRollback(t)), j)
    requires Live(Next(s, CancelRollback(t)), i) && !Live(s, i)
    ensures !CommittedDisjoint(Next(s, CancelRollback(t))) || !InFlightDisjoint(Next(s, CancelRollback(t)))
  {
    var s' := Next(s, CancelRollback(t));
    if u :| u in s.txns && Inserting(s.txns[u]) && s.txns[u].Wants(s.committed[i].key) && s.committed[i].seg.Overlaps(s.txns[u].seg) {
      assert u in s'.txns && s'.txns[u] == s.txns[u];
      assert !InFlightDisjoint(s');
    } else {
      var j :| Live(s, j) && s.committed[j].key == s.committed[i].key && s.committed[i].seg.Overlaps(s.committed[j].seg);
      assert !CommittedDisjoint(s');
    }
  }

  lemma UnfittingRollback(s: State, t: int)
    requires Inv(s) && Enabled(s, CancelRollback(t)) && !RestoredFits(s, t)
    ensures !Inv(Next(s, CancelRollback(t)))
  {
    hide RowFits, TxnOk, CommittedDisjoint, InFlightDisjoint, FreshIds, ExclusiveOwners;
    LiveRows(s, t);
    var i :| i in s.txns[t].removes && i in s.committed && !RowFits(s, i);
    assert Condemned(s, i);
    UnfittingRow(s, t, i);
  }

  /** Rolling a cancellation back is safe exactly when nothing has meanwhile taken the legs of its rows. */
  lemma CancelRollbackIff(s: State, t: int)
    requires Inv(s) && Enabled(s, CancelRollback(t))
    ensures Inv(Next(s, CancelRollback(t))) <==> RestoredFits(s, t)
  {
    hide Inv, RestoredFits;
    if RestoredFits(s, t) {
      FittingRollback(s, t);
    } else {
      UnfittingRollback(s, t);
    }
  }

  lemma LiveAfterRollback(s: State, t: int, i: nat)
    requires Inv(s) && Enabled(s, CancelRollback(t))
    ensures Live(Next(s, CancelRollback(t)), i) <==> Live(s, i) || i in s.txns[t].removes
  {
    var s' := Next(s, CancelRollback(t));
    assert CancelOk(s, s.txns[t]);
    if Condemned(s', i) {
      var u :| u in s'.txns && s'.txns[u].CancelTxn? && i in s'.txns[u].removes;
      assert u in s.txns && s.txns[u] == s'.txns[u] && u != t;
    }
    if Condemned(s, i) && i !in s.txns[t].removes {
      var u :| u in s.txns && s.txns[u].CancelTxn? && i in s.txns[u].removes;
      assert u in s'.txns && s.txns[u] == s'.txns[u];
    }
  }

  /* ---- every step ---- */

  /** A cancellation rolls back only while its rows still fit. */
  ghost predicate Safe(s: State, e: Step) {
    e.CancelRollback? && e.t in s.txns ==> RestoredFits(s, e.t)
  }

  /** A step keeps the invariant exactly when it is not a rollback that restores rows whose legs have been taken. */
  lemma StepKeepsInvIff(s: State, e: Step)
    requires Inv(s) && Enabled(s, e)
    ensures Inv(Next(s, e)) <==> Safe(s, e)
  {
    hide Inv, RestoredFits;
    match e
    case Start(_, _, _, _, _, _) => StartKeepsInv(s, e);
    case Check(_) => CheckKeepsInv(s, e);
    case Write(t) => WriteKeepsInv(s, t);
    case Commit(_) => CommitKeepsInv(s, e);
    case Rollback(_) => RollbackKeepsInv(s, e);
    case CancelDelete(_, _, _, _) => CancelDeleteKeepsInv(s, e);
    case CancelCommit(_) => CancelCommitKeepsInv(s, e);
    case CancelRollback(t) => CancelRollbackIff(s, t);
  }

  /* ---- runs ---- */

  /** `steps` is a run of any interleaved transactions from `s` to `s'`. */
  ghost predicate Reaches(s: State, steps: seq<Step>, s': State)
    decreases |steps|
  {
    if steps == [] then s == s' else Enabled(s, steps[0]) && Reaches(Next(s, steps[0]), steps[1..], s')
  }

  /** Every cancellation that rolls back in the run does so while its rows still fit. */
  ghost predicate SafeRun(s: State, steps: seq<Step>)
    decreases |steps|
  {
    steps != [] ==> Enabled(s, steps[0]) && Safe(s, steps[0]) && SafeRun(Next(s, steps[0]), steps[1..])
  }

  ghost predicate AlwaysInv(s: State, steps: seq<Step>)
    decreases |steps|
  {
    Inv(s) && (steps != [] ==> Enabled(s, steps[0]) && AlwaysInv(Next(s, steps[0]), steps[1..]))
  }

  /** A run visits only states without overlaps exactly when each of its rolled-back cancellations still fits. */
  lemma {:induction false} RunKeepsInvIff(s: State, steps: seq<Step>, s': State)
    requires Inv(s) && Reaches(s, steps, s')
    ensures AlwaysInv(s, steps) <==> SafeRun(s, steps)
    ensures AlwaysInv(s, steps) ==> Inv(s')
    decreases |steps|
  {
    hide Inv, Next, Enabled, Safe;
    if steps != [] {
      StepKeepsInvIff(s, steps[0]);
      if Inv(Next(s, steps[0])) {
        RunKeepsInvIff(Next(s, steps[0]), steps[1..], s');
      }
    }
  }

  ghost predicate Quiet(s: State) {
    s.txns == map[] && NoOverlap(s.committed) && forall i :: i in s.committed ==> i < s.nextId
  }

  /** A row that is committed and not condemned, or written by a transaction that has not committed. */
  ghost predicate Standing(s: State, i: nat, row: LockRow) {
    (Live(s, i) && row == s.committed[i])
    || exists t :: t in s.txns && s.txns[t].SeatTxn? && i in s.txns[t].inserts && row == s.txns[t].inserts[i]
  }

  /**
   However lock, unlock, confirm and cancel transactions interleave, committed rows and rows in flight
   never overlap on one seat, as long as every cancellation that rolls back still finds the legs of its rows free.
   */
  lemma InterleavingsNeverOverlap(s: State, steps: seq<Step>, s': State, i: nat, a: LockRow, j: nat, b: LockRow)
    requires Quiet(s) && Reaches(s, steps, s') && SafeRun(s, steps)
    requires Standing(s', i, a) && Standing(s', j, b) && i != j && a.key == b.key
    ensures !a.seg.Overlaps(b.seg)
  {
    assert Inv(s);
    RunKeepsInvIff(s, steps, s');
    StandingDisjoint(s', i, a, j, b);
  }

  lemma InsertInFlight(s: State, t: int, i: nat, j: nat)
    requires Inv(s) && t in s.txns && s.txns[t].SeatTxn? && i in s.txns[t].inserts && Live(s, j)
    requires s.txns[t].inserts[i].key == s.committed[j].key
    ensures !s.txns[t].inserts[i].seg.Overlaps(s.committed[j].seg)
  {
    assert TxnOk(s, s.txns[t]);
  }

  /** Different rows in flight are on different seats: a seat has one owner, and a request lists a seat once. */
  lemma InsertsOnDifferentSeats(s: State, t: int, i: nat, u: int, j: nat)
    requires Inv(s) && t in s.txns && u in s.txns && s.txns[t].SeatTxn? && s.txns[u].SeatTxn?
    requires i in s.txns[t].inserts && j in s.txns[u].inserts && i != j
    ensures s.txns[t].inserts[i].key != s.txns[u].inserts[j].key
  {
    var x, y := s.txns[t], s.txns[u];
    assert TxnOk(s, x) && TxnOk(s, y);
    assert x.Owns(x.inserts[i].key) && y.Owns(y.inserts[j].key);
  }

  lemma LiveDisjoint(s: State, i: nat, j: nat)
    requires Inv(s) && Live(s, i) && Live(s, j) && i != j && s.committed[i].key == s.committed[j].key
    ensures !s.committed[i].seg.Overlaps(s.committed[j].seg)
  {
  }

  lemma StandingDisjoint(s: State, i: nat, a: LockRow, j: nat, b: LockRow)
    requires Inv(s) && Standing(s, i, a) && Standing(s, j, b) && i != j && a.key == b.key
    ensures !a.seg.Overlaps(b.seg)
  {
    hide Inv;
    if Live(s, i) && a == s.committed[i] {
      if Live(s, j) && b == s.committed[j] {
        LiveDisjoint(s, i, j);
      } else {
        var u :| u in s.txns && s.txns[u].SeatTxn? && j in s.txns[u].inserts && b == s.txns[u].inserts[j];
        InsertInFlight(s, u, j, i);
      }
    } else {
      var t :| t in s.txns && s.txns[t].SeatTxn? && i in s.txns[t].inserts && a == s.txns[t].inserts[i];
      if Live(s, j) && b == s.committed[j] {
        InsertInFlight(s, t, i, j);
      } else {
        var u :| u in s.txns && s.txns[u].SeatTxn? && j in s.txns[u].inserts && b == s.txns[u].inserts[j];
        InsertsOnDifferentSeats(s, t, i, u, j);
      }
    }
  }

  /** Once every transaction has ended, the segment table has no overlap. */
  lemma QuietAgain(s: State, steps: seq<Step>, s': State)
    requires Quiet(s) && Reaches(s, steps, s') && SafeRun(s, steps) && s'.txns == map[]
    ensures Quiet(s')
  {
    assert Inv(s);
    RunKeepsInvIff(s, steps, s');
    forall i, j | i in s'.committed && j in s'.committed && i != j && s'.committed[i].Active() && s'.committed[j].Active()
                  && s'.committed[i].key == s'.committed[j].key
      ensures !s'.committed[i].seg.Overlaps(s'.committed[j].seg)
    {
      assert Live(s', i) && Live(s', j);
    }
  }

  /* ---- a run that ends in an overlap ---- */

  function BookedRow(): LockRow {
    LockRow(SeatKey(1, 1), Segment(1, 3), 5, Some(7), Booked, 1)
  }

  /** Seat 1 of schedule 1 is booked over stations 1 to 3. */
  function OneBooking(): State {
    State({SeatKey(1, 1)}, map[1 := BookedRow()], map[], 2)
  }

  /** The lock skips the row that the cancellation has deleted but not committed; then the cancellation rolls back. */
  function Race(): seq<Step> {
    [CancelDelete(1, 1, 7, 5), Start(2, LockRequest, 6, 1, [1], Segment(2, 4)), Check(2), Write(2), Commit(2), CancelRollback(1)]
  }

  function TakenRow(): LockRow {
    LockRow(SeatKey(1, 1), Segment(2, 4), 6, None, Locked, 0)
  }

  function Taker(phase: Phase, inserts: LockTable): Txn {
    SeatTxn(LockRequest, 6, 1, [1], Segment(2, 4), {1}, phase, inserts, map[], {})
  }

  function RaceState(k: nat): State
    requires k <= 6
  {
    var s := OneBooking();
    if k == 0 then s
    else if k == 1 then s.(txns := map[1 := CancelTxn({1})])
    else if k == 2 then s.(txns := map[1 := CancelTxn({1}), 2 := Taker(Holding, map[])])
    else if k == 3 then s.(txns := map[1 := CancelTxn({1}), 2 := Taker(Checked, map[])])
    else if k == 4 then s.(txns := map[1 := CancelTxn({1}), 2 := Taker(Written, map[2 := TakenRow()])], nextId := 3)
    else if k == 5 then State(s.seats, map[1 := BookedRow(), 2 := TakenRow()], map[1 := CancelTxn({1})], 3)
    else State(s.seats, map[1 := BookedRow(), 2 := TakenRow()], map[], 3)
  }

  lemma RaceDelete()
    ensures Enabled(RaceState(0), Race()[0]) && Next(RaceState(0), Race()[0]) == RaceState(1)
  {
    var s := RaceState(0);
    assert RowsOfBooking(s.committed, 1, 7, 5) == {1};
    assert CancelTargets(s, 1, 7, 5) == {1};
  }

  lemma RaceStart()
    ensures Enabled(RaceState(1), Race()[1]) && Next(RaceState(1), Race()[1]) == RaceState(2)
  {
    assert Taken(RaceState(1), 1, [1]) == {1};
  }

  lemma RaceCheck()
    ensures Enabled(RaceState(2), Race()[2]) && Next(RaceState(2), Race()[2]) == RaceState(3)
  {
    var s := RaceState(2);
    assert s.txns[1].RowLocks(1);
    assert RowLockedByOther(s, 2, 1);
    assert VisibleOverlaps(s, 2, s.txns[2]) == {};
  }

  lemma RaceWriteAndCommit()
    ensures Enabled(RaceState(3), Race()[3]) && Next(RaceState(3), Race()[3]) == RaceState(4)
    ensures Enabled(RaceState(4), Race()[4]) && Next(RaceState(4), Race()[4]) == RaceState(5)
  {
    assert NewRows(2, 1, [1], Segment(2, 4), 6) == map[2 := TakenRow()];
  }

  lemma RaceSteps(k: nat)
    requires k < 6
    ensures Enabled(RaceState(k), Race()[k]) && Next(RaceState(k), Race()[k]) == RaceState(k + 1)
  {
    if k == 0 { RaceDelete(); }
    else if k == 1 { RaceStart(); }
    else if k == 2 { RaceCheck(); }
    else if k <= 4 { RaceWriteAndCommit(); }
  }

  lemma {:induction false} RaceFrom(k: nat)
    requires k <= 6
    ensures Reaches(RaceState(k), Race()[k..], RaceState(6))
    decreases 6 - k
  {
    if k < 6 {
      RaceSteps(k);
      RaceFrom(k + 1);
      assert Race()[k..][1..] == Race()[k + 1..];
    }
  }

  /** Without the restriction on cancellations a reachable quiet state can hold two overlapping rows. */
  lemma SkippedRowsCanOverlap()
    ensures Quiet(OneBooking()) && Reaches(OneBooking(), Race(), RaceState(6))
    ensures RaceState(6).txns == map[] && !NoOverlap(RaceState(6).committed)
  {
    RaceFrom(0);
    assert Race()[0..] == Race();
    RaceEnds();
    hide RaceState, NoOverlap, Reaches;
  }

  lemma RaceEnds()
    ensures RaceState(6).txns == map[] && !NoOverlap(RaceState(6).committed)
  {
    var rows := RaceState(6).committed;
    assert rows[1].seg.Overlaps(rows[2].seg);
  }
}
