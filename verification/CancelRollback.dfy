/** When a cancellation may still roll back: as long as no lock on its legs has passed its check since the delete. */
module CancelRollback {
  import opened RowLocking

  /** The step is no rollback of another cancellation, and no lock passes its check that overlaps a deleted row. */
  ghost predicate Undisturbing(s: State, e: Step, t: int) {
    && !e.CancelRollback? && e != CancelCommit(t)
    && (e.Check? && e.t in s.txns && s.txns[e.t].SeatTxn? && t in s.txns ==>
          forall i :: i in s.txns[t].removes && i in s.committed && s.txns[e.t].Wants(s.committed[i].key)
            ==> !s.committed[i].seg.Overlaps(s.txns[e.t].seg))
  }

  ghost predicate UndisturbedRun(s: State, steps: seq<Step>, t: int)
    decreases |steps|
  {
    steps != [] ==> Enabled(s, steps[0]) && Undisturbing(s, steps[0], t) && UndisturbedRun(Next(s, steps[0]), steps[1..], t)
  }

  ghost predicate Fitting(s: State, t: int) {
    t in s.txns && s.txns[t].CancelTxn? && RestoredFits(s, t)
  }

  /** Right after the delete the rows fit: they were live, and live rows overlap nothing. */
  lemma FitsAfterDelete(s: State, e: Step)
    requires Inv(s) && e.CancelDelete? && Enabled(s, e)
    ensures Fitting(Next(s, e), e.t)
  {
    CancelDeleteShrinks(s, e);
    var s' := Next(s, e);
    forall i | i in s'.txns[e.t].removes && i in s'.committed ensures RowFits(s', i) {
      TargetsAreLive(s, e, i);
      assert Condemned(s', i);
    }
  }

  /** What a step makes live was live before, or was inserted by a transaction that had passed its check. */
  ghost predicate NothingNew(s: State, s': State) {
    forall j :: Live(s', j) ==> FromBefore(s, s', j) || exists u :: Brought(s, s', u, j)
  }

  ghost predicate FromBefore(s: State, s': State, j: nat)
    requires j in s'.committed
  {
    Live(s, j) && s'.committed[j].key == s.committed[j].key && s'.committed[j].seg == s.committed[j].seg
  }

  ghost predicate Brought(s: State, s': State, u: int, j: nat)
    requires j in s'.committed
  {
    u in s.txns && Inserting(s.txns[u]) && s.txns[u].Wants(s'.committed[j].key) && s'.committed[j].seg == s.txns[u].seg
  }

  lemma CommitBrings(s: State, e: Step)
    requires Inv(s) && e.Commit? && Enabled(s, e)
    ensures NothingNew(s, Next(s, e))
  {
    var s' := Next(s, e);
    var x := s.txns[e.t];
    assert TxnOk(s, x);
    forall j | Live(s', j) ensures FromBefore(s, s', j) || Brought(s, s', e.t, j) {
      CommittedRows(s, e, j);
    }
  }

  lemma CancelCommitBrings(s: State, e: Step)
    requires e.CancelCommit? && Enabled(s, e)
    ensures NothingNew(s, Next(s, e))
  {
    var s' := Next(s, e);
    forall j | Live(s', j) ensures FromBefore(s, s', j) {
      forall u | u in s.txns && s.txns[u].CancelTxn? && u != e.t ensures j !in s.txns[u].removes {
        assert s'.txns[u] == s.txns[u];
      }
    }
  }

  lemma StepBringsNothingNew(s: State, e: Step)
    requires Inv(s) && Enabled(s, e) && !e.CancelRollback?
    ensures NothingNew(s, Next(s, e))
  {
    hide Inv, Live, CancelTargets, Effects, Taken, VisibleOverlaps;
    match e
    case Commit(_) => CommitBrings(s, e);
    case CancelCommit(_) => CancelCommitBrings(s, e);
    case CancelDelete(_, _, _, _) =>
      CancelDeleteShrinks(s, e);
      SameRowsNothingNew(s, Next(s, e));
    case Start(_, _, _, _, _, _) => SeatStepBrings(s, e);
    case Check(_) => SeatStepBrings(s, e);
    case Write(_) => SeatStepBrings(s, e);
    case Rollback(_) => SeatStepBrings(s, e);
  }

  lemma SeatStepBrings(s: State, e: Step)
    requires Enabled(s, e) && (e.Start? || e.Check? || e.Write? || e.Rollback?)
    ensures NothingNew(s, Next(s, e))
  {
    hide Live, Next, NothingNew;
    SeatStepsKeepTxn(s, e);
    SameLive(s, Next(s, e), e.t);
    SameRowsNothingNew(s, Next(s, e));
  }

  lemma SameRowsNothingNew(s: State, s': State)
    requires s'.committed == s.committed && forall j :: Live(s', j) ==> Live(s, j)
    ensures NothingNew(s, s')
  {
  }

  lemma SeatStepsKeepTxn(s: State, e: Step)
    requires Enabled(s, e) && (e.Start? || e.Check? || e.Write? || e.Rollback?)
    ensures var s' := Next(s, e);
      && OnlyTxnChanges(s, s', e.t) && s'.committed == s.committed
      && (e.t in s.txns ==> s.txns[e.t].SeatTxn?) && (e.t in s'.txns ==> s'.txns[e.t].SeatTxn?)
  {
  }

  /** The only way to become an inserting transaction is to pass the check. */
  lemma InsertersWereThere(s: State, e: Step, u: int)
    requires Enabled(s, e) && u in Next(s, e).txns && Inserting(Next(s, e).txns[u])
    ensures u in s.txns && s.txns[u].SeatTxn?
    ensures var (x, y) := (s.txns[u], Next(s, e).txns[u]);
      y.seg == x.seg && y.schedule == x.schedule && y.ids == x.ids && (Inserting(x) || e == Check(u))
  {
  }

  lemma RowsOfCancelStay(s: State, e: Step, t: int)
    requires Inv(s) && Enabled(s, e) && t in s.txns && s.txns[t].CancelTxn? && Undisturbing(s, e, t)
    ensures t in Next(s, e).txns && Next(s, e).txns[t] == s.txns[t]
    ensures forall i :: i in s.txns[t].removes && i in Next(s, e).committed ==> i in s.committed && Next(s, e).committed[i] == s.committed[i]
  {
    assert CancelOk(s, s.txns[t]);
    if e.Commit? {
      assert TxnOk(s, s.txns[e.t]);
    }
  }

  lemma RowStillFits(s: State, e: Step, t: int, i: nat)
    requires Inv(s) && Enabled(s, e) && Fitting(s, t) && Undisturbing(s, e, t)
    requires i in s.txns[t].removes && i in s.committed && i in Next(s, e).committed && Next(s, e).committed[i] == s.committed[i]
    ensures RowFits(Next(s, e), i)
  {
    var s' := Next(s, e);
    StepBringsNothingNew(s, e);
    assert RowFits(s, i);
    hide Inv, Live, Next, Enabled, RestoredFits;
    forall u | u in s'.txns && Inserting(s'.txns[u]) && s'.txns[u].Wants(s'.committed[i].key)
      ensures !s'.committed[i].seg.Overlaps(s'.txns[u].seg)
    {
      InsertersWereThere(s, e, u);
    }
  }

  lemma StillFits(s: State, e: Step, t: int)
    requires Inv(s) && Enabled(s, e) && Fitting(s, t) && Undisturbing(s, e, t)
    ensures Fitting(Next(s, e), t)
  {
    RowsOfCancelStay(s, e, t);
    hide Inv, Next, RowFits, Undisturbing;
    forall i | i in s.txns[t].removes && i in Next(s, e).committed ensures RowFits(Next(s, e), i) {
      RowStillFits(s, e, t, i);
    }
  }

  lemma {:induction false} UndisturbedStaysSafe(s: State, steps: seq<Step>, s': State, t: int)
    requires Inv(s) && Fitting(s, t) && Reaches(s, steps, s') && UndisturbedRun(s, steps, t)
    ensures Inv(s') && Fitting(s', t)
    decreases |steps|
  {
    hide Inv, Next, Fitting;
    if steps != [] {
      StepKeepsInvIff(s, steps[0]);
      StillFits(s, steps[0], t);
      UndisturbedStaysSafe(Next(s, steps[0]), steps[1..], s', t);
    }
  }

  /**
   A caller may roll a cancellation back if, since its delete, no lock request overlapping a deleted row on its seat has
   passed its check and no other cancellation has rolled back.
   */
  lemma UndisturbedRollbackIsSafe(s: State, e: Step, steps: seq<Step>, s': State)
    requires Inv(s) && e.CancelDelete? && Enabled(s, e) && Reaches(Next(s, e), steps, s') && UndisturbedRun(Next(s, e), steps, e.t)
    ensures Enabled(s', CancelRollback(e.t)) && Inv(Next(s', CancelRollback(e.t)))
  {
    StepKeepsInvIff(s, e);
    FitsAfterDelete(s, e);
    UndisturbedStaysSafe(Next(s, e), steps, s', e.t);
    CancelRollbackIff(s', e.t);
  }
}
