/**
 What an interleaved transaction commits: whatever others did between its steps, it changes the segment table as the whole
 request would, carried out at the moment of its commit.
 */
module RowCommits {
  import opened IntSets
  import opened Options
  import opened Inventory
  import opened InventoryInvariants
  import opened RowLocking

  /* ---- what has been written is what the request asks for ---- */

  function Matching(locks: LockTable, x: Txn): set<nat>
    requires x.SeatTxn?
  {
    set i | i in locks && locks[i].Matches(x.schedule, IdSet(x.ids), x.seg, x.user, Locked)
  }

  function Booking(row: LockRow, b: int): LockRow {
    row.(booking := Some(b), state := Booked, version := row.version + 1)
  }

  ghost predicate Inserts(x: Txn, n: nat)
    requires x.SeatTxn?
  {
    x.inserts == NewRows(n, x.schedule, x.ids, x.seg, x.user)
  }

  ghost predicate Exact(s: State, x: Txn) {
    x.SeatTxn? && x.phase == Written ==>
      match x.req
      case LockRequest => x.removes == {} && x.updates == map[] && exists n: nat :: Inserts(x, n) && n + |x.ids| <= s.nextId
      case UnlockRequest => x.inserts == map[] && x.updates == map[] && x.removes == Matching(s.committed, x)
      case ConfirmRequest(b) =>
        && x.inserts == map[] && x.removes == {} && x.updates.Keys == Matching(s.committed, x)
        && forall i :: i in x.updates ==> i in s.committed && x.updates[i] == Booking(s.committed[i], b)
  }

  ghost predicate AllExact(s: State) {
    forall t :: t in s.txns ==> Exact(s, s.txns[t])
  }

  lemma QuietIsExact(s: State)
    requires Quiet(s)
    ensures AllExact(s)
  {
  }

  /* ---- and stays so ---- */

  /** LOCKED rows of the transaction's seats: the only rows its write depends on. */
  ghost predicate SameLocked(s: State, s': State, x: Txn)
    requires x.SeatTxn?
  {
    && (forall i :: i in s.committed && x.Wants(s.committed[i].key) && s.committed[i].state == Locked
          ==> i in s'.committed && s'.committed[i] == s.committed[i])
    && (forall i :: i in s'.committed && x.Wants(s'.committed[i].key) && s'.committed[i].state == Locked
          ==> i in s.committed && s.committed[i] == s'.committed[i])
  }

  lemma ExactStays(s: State, s': State, x: Txn)
    requires x.SeatTxn? && x.phase == Written && Exact(s, x) && SameLocked(s, s', x) && s.nextId <= s'.nextId
    ensures Exact(s', x)
  {
    hide Inserts;
    forall i ensures i in Matching(s.committed, x) <==> i in Matching(s'.committed, x) {}
    assert Matching(s.committed, x) == Matching(s'.committed, x);
  }

  /** Two transactions that have their seats want different ones. */
  lemma WantsApart(s: State, t: int, u: int, k: SeatKey)
    requires Inv(s) && t in s.txns && u in s.txns && t != u && s.txns[t].SeatTxn? && s.txns[u].SeatTxn?
    requires s.txns[t].phase != Aborting && s.txns[u].phase != Aborting && s.txns[t].Wants(k)
    ensures !s.txns[u].Wants(k)
  {
    var (x, y) := (s.txns[t], s.txns[u]);
    assert TxnOk(s, x) && TxnOk(s, y);
    hide CommittedDisjoint, InFlightDisjoint, CancelsDisjoint, CancelOk;
    assert x.Owns(k);
    assert y.Wants(k) ==> y.Owns(k);
  }

  lemma CommitLeavesLocked(s: State, e: Step, t: int)
    requires Inv(s) && Enabled(s, e) && t in s.txns && s.txns[t].SeatTxn? && s.txns[t].phase == Written
    requires e.Commit? && e.t != t
    ensures SameLocked(s, Next(s, e), s.txns[t])
  {
    var (x, y) := (s.txns[t], s.txns[e.t]);
    assert TxnOk(s, y);
    forall k: SeatKey | x.Wants(k) ensures !y.Wants(k) {
      WantsApart(s, t, e.t, k);
    }
    hide Inv;
  }

  /** Another seat transaction owns other seats, and a cancellation removes BOOKED rows only. */
  lemma OthersLeaveLocked(s: State, e: Step, t: int)
    requires Inv(s) && Enabled(s, e) && t in s.txns && s.txns[t].SeatTxn? && s.txns[t].phase == Written
    requires (e.Commit? || e.CancelCommit?) && e.t != t
    ensures SameLocked(s, Next(s, e), s.txns[t])
  {
    if e.Commit? {
      CommitLeavesLocked(s, e, t);
    } else {
      assert CancelOk(s, s.txns[e.t]);
      hide Inv;
    }
  }

  lemma WriteIsExact(s: State, s': State, x: Txn)
    requires x.SeatTxn? && x.inserts == map[] && x.updates == map[] && x.removes == {}
    requires s'.committed == s.committed && s'.nextId == s.nextId + (if x.req == LockRequest then |x.ids| else 0)
    ensures Exact(s', Effects(s, x))
  {
    var y := Effects(s, x);
    if x.req == LockRequest {
      assert Inserts(y, s.nextId);
    }
  }

  lemma HoldsNothingYet(s: State, t: int)
    requires Inv(s) && Enabled(s, Write(t))
    ensures var x := s.txns[t]; x.inserts == map[] && x.updates == map[] && x.removes == {}
  {
    assert TxnOk(s, s.txns[t]);
  }

  lemma StepKeepsExact(s: State, e: Step)
    requires Inv(s) && AllExact(s) && Enabled(s, e)
    ensures AllExact(Next(s, e))
  {
    if e.Write? {
      HoldsNothingYet(s, e.t);
      WriteIsExact(s, Next(s, e), s.txns[e.t]);
    }
    hide Inv, Taken, VisibleOverlaps, CancelTargets, Effects, NewRows;
    var s' := Next(s, e);
    forall t | t in s'.txns ensures Exact(s', s'.txns[t]) {
      if t in s.txns {
        assert Exact(s, s.txns[t]);
        if t != e.t && (e.Commit? || e.CancelCommit?) && s.txns[t].SeatTxn? && s.txns[t].phase == Written {
          OthersLeaveLocked(s, e, t);
          ExactStays(s, s', s.txns[t]);
        }
      }
    }
  }

  /** In runs whose cancellations roll back safely every write stays exact. */
  lemma {:induction false} RunKeepsExact(s: State, steps: seq<Step>, s': State)
    requires Inv(s) && AllExact(s) && Reaches(s, steps, s') && SafeRun(s, steps)
    ensures Inv(s') && AllExact(s')
    decreases |steps|
  {
    hide Inv, AllExact, Next, Enabled, Safe;
    if steps != [] {
      StepKeepsInvIff(s, steps[0]);
      StepKeepsExact(s, steps[0]);
      RunKeepsExact(Next(s, steps[0]), steps[1..], s');
    }
  }

  /* ---- the commit ---- */

  /**
   The commit of an unlock deletes what the whole unlock would delete from the table committed at that moment, that of a
   confirmation books what the whole confirmation would book, that of a lock adds the requested rows under fresh ids.
   */
  ghost predicate CommitsRequest(s: State, t: int)
    requires Enabled(s, Commit(t))
  {
    var (x, after) := (s.txns[t], Next(s, Commit(t)).committed);
    match x.req
    case LockRequest => exists n: nat ::
      Inserts(x, n) && after == s.committed + NewRows(n, x.schedule, x.ids, x.seg, x.user) && n + |x.ids| <= s.nextId
      && forall i :: n <= i < n + |x.ids| ==> i !in s.committed
    case UnlockRequest => after == Deleted(s.committed, x.schedule, IdSet(x.ids), x.seg, x.user, Locked)
    case ConfirmRequest(b) => after == Inventory.Confirmed(s.committed, x.schedule, IdSet(x.ids), x.seg, x.user, b)
  }

  lemma CommitDoesTheRequest(s: State, t: int)
    requires Inv(s) && AllExact(s) && Enabled(s, Commit(t))
    ensures CommitsRequest(s, t)
  {
    var x := s.txns[t];
    assert TxnOk(s, x) && Exact(s, x);
    hide Inv, TxnOk, AllExact, Exact, Matching, NewRows;
    match x.req
    case LockRequest => var n := LockCommits(s, x);
    case UnlockRequest => UnlockCommits(s, x);
    case ConfirmRequest(b) => ConfirmCommits(s, x, b);
  }

  lemma LockCommits(s: State, x: Txn) returns (n: nat)
    requires x.SeatTxn? && x.req == LockRequest && x.phase == Written && TxnOk(s, x) && Exact(s, x)
    ensures Inserts(x, n) && (s.committed - x.removes) + x.updates + x.inserts == s.committed + x.inserts
    ensures n + |x.ids| <= s.nextId && forall i :: n <= i < n + |x.ids| ==> i !in s.committed
  {
    hide TxnOk, NewRows;
    n :| Inserts(x, n) && n + |x.ids| <= s.nextId;
    LockedFresh(s, x, n);
    hide *;
    assert s.committed - {} == s.committed && s.committed + map[] == s.committed;
  }

  lemma UnlockCommits(s: State, x: Txn)
    requires x.SeatTxn? && x.req == UnlockRequest && x.phase == Written && Exact(s, x)
    ensures (s.committed - x.removes) + x.updates + x.inserts
      == Deleted(s.committed, x.schedule, IdSet(x.ids), x.seg, x.user, Locked)
  {
    assert (s.committed - x.removes) + x.updates + x.inserts == s.committed - x.removes;
  }

  lemma ConfirmCommits(s: State, x: Txn, b: int)
    requires x.SeatTxn? && x.req == ConfirmRequest(b) && x.phase == Written && Exact(s, x)
    ensures (s.committed - x.removes) + x.updates + x.inserts
      == Inventory.Confirmed(s.committed, x.schedule, IdSet(x.ids), x.seg, x.user, b)
  {
    assert (s.committed - x.removes) + x.updates + x.inserts == s.committed + x.updates;
  }

  lemma LockedFresh(s: State, x: Txn, n: nat)
    requires x.SeatTxn? && TxnOk(s, x) && Inserts(x, n)
    ensures forall i :: n <= i < n + |x.ids| ==> i !in s.committed
  {
    forall i | n <= i < n + |x.ids| ensures i !in s.committed {
      assert i in x.inserts;
    }
  }

  /* ---- the lock's ids are those of its write ---- */

  /** The steps of other transactions. */
  predicate Others(steps: seq<Step>, t: int) {
    forall i :: 0 <= i < |steps| ==> steps[i].t != t
  }

  lemma {:induction false} OthersLeaveTxn(s: State, steps: seq<Step>, s': State, t: int)
    requires Reaches(s, steps, s') && Others(steps, t) && t in s.txns
    ensures t in s'.txns && s'.txns[t] == s.txns[t]
    decreases |steps|
  {
    hide Taken, VisibleOverlaps, CancelTargets, Effects;
    if steps != [] {
      assert steps[0].t != t;
      assert forall i :: 0 <= i < |steps[1..]| ==> steps[1..][i] == steps[i + 1];
      OthersLeaveTxn(Next(s, steps[0]), steps[1..], s', t);
    }
  }

  /** From the write of a lock, through any steps of others, to its commit: the rows appear under the ids of the write. */
  lemma LockCommitsItsRows(s: State, t: int, steps: seq<Step>, s': State)
    requires Inv(s) && Enabled(s, Write(t)) && s.txns[t].req == LockRequest
    requires Reaches(Next(s, Write(t)), steps, s') && Others(steps, t)
    ensures var x := s.txns[t];
      Enabled(s', Commit(t)) && Next(s', Commit(t)).committed == s'.committed + NewRows(s.nextId, x.schedule, x.ids, x.seg, x.user)
  {
    HoldsNothingYet(s, t);
    OthersLeaveTxn(Next(s, Write(t)), steps, s', t);
    hide Inv, NewRows;
    assert (s'.committed - {}) + map[] == s'.committed;
  }

  /* ---- who gets that far ---- */

  /** A transaction gets its seat rows exactly when they are distinct, exist, and nobody holds one of them. */
  lemma StartHoldsIff(s: State, e: Step)
    requires e.Start? && Enabled(s, e)
    ensures Next(s, e).txns[e.t].phase == Holding <==>
      Distinct(e.ids) && forall x :: x in e.ids ==> SeatKey(e.schedule, x) in s.seats && !Busy(s, SeatKey(e.schedule, x))
    ensures Next(s, e).txns[e.t].phase in {Holding, Aborting}
  {
    hide Busy;
    var got := Taken(s, e.schedule, e.ids);
    DistinctCardinality(e.ids);
    assert got <= IdSet(e.ids);
    SubsetCardinality(got, IdSet(e.ids));
    if x :| x in e.ids && !(SeatKey(e.schedule, x) in s.seats && !Busy(s, SeatKey(e.schedule, x))) {
      assert x in IdSet(e.ids) && x !in got;
    } else {
      assert got == IdSet(e.ids);
    }
  }

  /** A lock passes its check exactly when no live row of its seats overlaps, although rows that others hold are not seen. */
  lemma CheckPassesIff(s: State, t: int)
    requires Inv(s) && Enabled(s, Check(t))
    ensures var x := s.txns[t];
      Next(s, Check(t)).txns[t].phase == Checked <==>
        forall i :: Live(s, i) && x.Wants(s.committed[i].key) ==> !s.committed[i].seg.Overlaps(x.seg)
  {
    var x := s.txns[t];
    forall i | Live(s, i) && x.Wants(s.committed[i].key) && s.committed[i].seg.Overlaps(x.seg) ensures i in VisibleOverlaps(s, t, x) {
      NoOtherRowLock(s, t, i);
    }
    hide Inv;
    forall i | i in VisibleOverlaps(s, t, x) ensures Live(s, i) {
      CondemnedIsLocked(s, t, i);
    }
  }

  lemma CondemnedIsLocked(s: State, t: int, i: nat)
    requires t in s.txns && s.txns[t].SeatTxn?
    ensures Condemned(s, i) ==> RowLockedByOther(s, t, i)
  {
    if Condemned(s, i) {
      var u :| u in s.txns && s.txns[u].CancelTxn? && i in s.txns[u].removes;
      assert u != t && s.txns[u].RowLocks(i);
    }
  }

  /* ---- a cancellation ---- */

  /** What a cancellation marks is what the whole cancellation would delete from the table at that moment. */
  lemma CancelMarksItsRows(s: State, schedule: int, booking: int, user: int)
    ensures var rows := RowsOfBooking(s.committed, schedule, booking, user);
      s.committed - CancelTargets(s, schedule, booking, user)
      == if rows == {} then s.committed else CancelDeleted(s.committed, schedule, rows, user)
  {
  }

  /** And through any steps of others these are the rows that its commit removes. */
  lemma CancelCommitsItsRows(s: State, t: int, schedule: int, booking: int, user: int, steps: seq<Step>, s': State)
    requires Enabled(s, CancelDelete(t, schedule, booking, user))
    requires Reaches(Next(s, CancelDelete(t, schedule, booking, user)), steps, s') && Others(steps, t)
    ensures Enabled(s', CancelCommit(t))
    ensures Next(s', CancelCommit(t)).committed == s'.committed - CancelTargets(s, schedule, booking, user)
  {
    OthersLeaveTxn(Next(s, CancelDelete(t, schedule, booking, user)), steps, s', t);
    hide CancelTargets;
  }
}
