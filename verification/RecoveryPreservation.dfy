/** Every step keeps the invariant, one conjunct at a time. */
module RecoveryPreservation {
  import opened Options
  import opened Postgres
  import opened Journal
  import opened RecoveryProtocol
  import opened RecoveryInvariant

  /** What a transaction does to the world: at most one receipt is added, at a position no
      snapshot reaches, and the executor learns a position only of a receipt that exists. */
  ghost predicate TransactShape(w: World, w': World, x: ExecutorId, seqNo: nat)
    requires x in w.executors
  {
    var r := w.executors[x].request;
    && w'.db.generation == w.db.generation
    && (w'.db.log == w.db.log
        || w'.db.log == w.db.log + [Receipt(seqNo, w.db.generation, r, w.executors[x].payload)])
    && w'.executors.Keys == w.executors.Keys
    && (forall y :: y in w.executors && y != x ==> w'.executors[y] == w.executors[y])
    && w'.executors[x].request == r
    && (w'.committed == w.committed || (w'.committed == w.committed + {r} && HasReceipt(w'.db.log, r)))
    && (w'.db.log != w.db.log ==> r in w'.committed)
    && w' == w.(db := w'.db, executors := w'.executors, committed := w'.committed)
    && (w'.executors[x].phase.Done? ==>
          && Holds(w'.db, r) && r in w'.committed
          && exists i :: 0 <= i < |w'.db.log| && w'.db.log[i].request == r
                         && PositionOf(w'.db.log[i]) == w'.executors[x].phase.position)
  }

  lemma TransactHasShape(w: World, e: Event)
    requires Enabled(STRICT, w, e) && e.Transact?
    ensures TransactShape(w, Next(w, e), e.x, e.seqNo)
  {
    var ex := w.executors[e.x];
    var res := ApplyWithReceipt(w.db, ex.request, ex.payload, ex.forced, e.seqNo);
    if res.outcome.Receipted? {
      if HasReceipt(w.db.log, ex.request) {
        var i :| 0 <= i < |w.db.log| && w.db.log[i] == res.outcome.receipt;
      } else {
        HasReceiptAppend(w.db.log, res.outcome.receipt, ex.request);
        assert res.db.log[|w.db.log|] == res.outcome.receipt;
      }
    }
  }

  predicate Bookkeeping(e: Event) {
    e.Submit? || e.PickReplay? || e.PickRecovery? || e.FailBefore? || e.FinishUnmarked? || e.Crash?
  }

  predicate RowUpdate(e: Event) {
    e.Mark? || e.Requeue?
  }

  predicate SnapshotEvent(e: Event) {
    e.TakeSnapshot? || e.Prune? || e.CleanupSelect? || e.CleanupDelete?
  }

  predicate RuntimeEvent(e: Event) {
    e.Begin? || e.Restore? || e.Promote? || e.Complete?
  }

  // ---- Executors

  lemma ExecutorsBookkeeping(w: World, e: Event)
    requires ExecutorsOk(w) && w.journal.Keys <= w.issued && w.cleaned <= w.issued && CleanedOk(w)
    requires Enabled(STRICT, w, e) && Bookkeeping(e)
    ensures ExecutorsOk(Next(w, e))
  {
    hide ApplyWithReceipt, HasReceipt;
  }

  lemma ExecutorsOther(w: World, e: Event)
    requires ExecutorsOk(w)
    requires Enabled(STRICT, w, e) && !Bookkeeping(e)
    ensures ExecutorsOk(Next(w, e))
  {
    hide ApplyWithReceipt, HasReceipt;
  }

  // ---- Coverage

  lemma LogCoveredSame(w: World, w': World, log: seq<Receipt>)
    requires LogCovered(w, log) && w'.snapshots == w.snapshots
    requires forall i :: 0 <= i < |log| && OpenRow(w', log[i].request) ==> OpenRow(w, log[i].request)
    ensures LogCovered(w', log)
  {
    forall i | 0 <= i < |log| && OpenRow(w', log[i].request)
      ensures CoveredAbove(w', PositionOf(log[i]), log[i].request)
    {
      assert CoveredAbove(w, PositionOf(log[i]), log[i].request);
    }
  }

  lemma CoverageBookkeeping(w: World, e: Event)
    requires CoverageOk(w) && HistoryOk(w)
    requires Enabled(STRICT, w, e) && Bookkeeping(e)
    ensures CoverageOk(Next(w, e))
  {
    hide ApplyWithReceipt, HasReceipt;
  }

  lemma CoverageRows(w: World, e: Event)
    requires CoverageOk(w) && ExecutorsOk(w)
    requires Enabled(STRICT, w, e) && RowUpdate(e)
    ensures CoverageOk(Next(w, e))
  {
    hide ApplyWithReceipt, HasReceipt;
    var w' := Next(w, e);
    assert forall q :: OpenRow(w', q) ==> OpenRow(w, q);
    LogCoveredSame(w, w', w.db.log);
    forall b | b in w.snapshots ensures LogCovered(w', w.snapshots[b].log) {
      LogCoveredSame(w, w', w.snapshots[b].log);
    }
    RowsCoveredRows(w, e);
    DonesCoveredRows(w, e);
  }

  lemma RowsCoveredRows(w: World, e: Event)
    requires RowsCovered(w) && DonesCovered(w)
    requires Enabled(STRICT, w, e) && RowUpdate(e)
    ensures RowsCovered(Next(w, e))
  {
    hide ApplyWithReceipt, HasReceipt;
    var w' := Next(w, e);
    forall r | r in w'.journal && w'.journal[r].status == Status.Applied && w'.journal[r].position.Some?
      ensures CoveredAbove(w', w'.journal[r].position.value, r)
    {
      if w'.journal[r] == w.journal[r] {
        assert CoveredAbove(w, w.journal[r].position.value, r);
      } else {
        assert CoveredAbove(w, w.executors[e.x].phase.position, r);
      }
    }
  }

  lemma DonesCoveredRows(w: World, e: Event)
    requires DonesCovered(w)
    requires Enabled(STRICT, w, e) && RowUpdate(e)
    ensures DonesCovered(Next(w, e))
  {
    hide ApplyWithReceipt, HasReceipt;
    var w' := Next(w, e);
    forall x | x in w'.executors && w'.executors[x].phase.Done?
      ensures CoveredAbove(w', w'.executors[x].phase.position, w'.executors[x].request)
    {
      assert CoveredAbove(w, w.executors[x].phase.position, w.executors[x].request);
    }
  }

  lemma CoverageSame(w: World, w': World)
    requires CoverageOk(w) && LogCovered(w, w'.db.log)
    requires w'.journal == w.journal && w'.executors == w.executors && w'.snapshots == w.snapshots
    ensures CoverageOk(w')
  {
    LogCoveredSame(w, w', w'.db.log);
    forall b | b in w.snapshots ensures LogCovered(w', w.snapshots[b].log) {
      LogCoveredSame(w, w', w.snapshots[b].log);
    }
    assert forall p, r :: CoveredAbove(w, p, r) <==> CoveredAbove(w', p, r);
  }

  lemma CoverageRuntime(w: World, e: Event)
    requires CoverageOk(w) && TimelineOk(w)
    requires Enabled(STRICT, w, e) && RuntimeEvent(e)
    ensures CoverageOk(Next(w, e))
  {
    CoverageSame(w, Next(w, e));
  }

  /** A snapshot of a ready database holds every request that has an open row. */
  lemma CoverageTakeSnapshot(w: World, e: Event)
    requires CoverageOk(w) && NothingLost(w) && HistoryOk(w) && ExecutorsOk(w)
    requires Enabled(STRICT, w, e) && e.TakeSnapshot?
    ensures CoverageOk(Next(w, e))
  {
    hide ApplyWithReceipt, HasReceipt;
    var w' := Next(w, e);
    assert forall r :: r in w.committed && OpenRow(w, r) ==> Holds(w.db, r);
    forall p, r | CoveredAbove(w, p, r) && r in w.committed && OpenRow(w, r)
      ensures CoveredAbove(w', p, r)
    {
    }
  }

  lemma CoverageSnapshots(w: World, e: Event)
    requires CoverageOk(w)
    requires Enabled(STRICT, w, e) && SnapshotEvent(e) && !e.TakeSnapshot?
    ensures CoverageOk(Next(w, e))
  {
    hide ApplyWithReceipt, HasReceipt;
    var w' := Next(w, e);
    assert forall p, r :: CoveredAbove(w, p, r) ==> CoveredAbove(w', p, r);
  }

  /** A new receipt is above every snapshot. */
  lemma FreshPositionUncovered(w: World, seqNo: nat)
    requires TimelineOk(w) && LastSeq(w.db.log) < seqNo && !Unpromoted(w)
    requires forall b :: b in w.snapshots ==> w.snapshots[b].generation <= w.runtime.generation
    requires w.runtime.Recovering? ==> w.runtime.generation < w.runtime.target
    ensures forall r :: CoveredAbove(w, Coverage(w.db.generation, seqNo), r)
  {
  }

  lemma CoverageTransact(w: World, e: Event)
    requires CoverageOk(w) && TimelineOk(w) && ExecutorsOk(w)
    requires forall b :: b in w.snapshots ==> w.snapshots[b].generation <= w.runtime.generation
    requires w.runtime.Recovering? ==> w.runtime.generation < w.runtime.target
    requires Enabled(STRICT, w, e) && e.Transact?
    ensures CoverageOk(Next(w, e))
  {
    hide HasReceipt;
    var w' := Next(w, e);
    TransactHasShape(w, e);
    FreshPositionUncovered(w, e.seqNo);
    assert forall p, r :: CoveredAbove(w, p, r) <==> CoveredAbove(w', p, r);
    assert forall q :: OpenRow(w', q) <==> OpenRow(w, q);
    assert LogCovered(w', w'.db.log);
    forall b | b in w.snapshots ensures LogCovered(w', w.snapshots[b].log) {
      LogCoveredSame(w, w', w.snapshots[b].log);
    }
    assert OpenRow(w', w.executors[e.x].request);
    forall x | x in w'.executors && w'.executors[x].phase.Done?
      ensures CoveredAbove(w', w'.executors[x].phase.position, w'.executors[x].request)
    {
      if x != e.x {
        assert CoveredAbove(w, w.executors[x].phase.position, w.executors[x].request);
      }
    }
  }

  // ---- History

  lemma HistoryTransact(w: World, e: Event)
    requires HistoryOk(w) && ExecutorsOk(w)
    requires Enabled(STRICT, w, e) && e.Transact?
    ensures HistoryOk(Next(w, e))
  {
    TransactHasShape(w, e);
  }

  lemma HistoryBookkeeping(w: World, e: Event)
    requires HistoryOk(w) && ExecutorsOk(w)
    requires Enabled(STRICT, w, e) && Bookkeeping(e)
    ensures HistoryOk(Next(w, e))
  {
    hide ApplyWithReceipt, HasReceipt;
  }

  lemma HistoryRows(w: World, e: Event)
    requires HistoryOk(w) && ExecutorsOk(w)
    requires Enabled(STRICT, w, e) && RowUpdate(e)
    ensures HistoryOk(Next(w, e))
  {
    hide ApplyWithReceipt, HasReceipt;
  }

  lemma HistorySnapshots(w: World, e: Event)
    requires HistoryOk(w)
    requires Enabled(STRICT, w, e) && SnapshotEvent(e)
    ensures HistoryOk(Next(w, e))
  {
    hide ApplyWithReceipt, HasReceipt;
  }

  lemma HistoryRuntime(w: World, e: Event)
    requires HistoryOk(w) && TimelineOk(w)
    requires Enabled(STRICT, w, e) && RuntimeEvent(e)
    ensures HistoryOk(Next(w, e))
  {
    hide ApplyWithReceipt, HasReceipt;
  }

  // ---- Cleaned

  lemma CleanedTransact(w: World, e: Event)
    requires CleanedOk(w)
    requires Enabled(STRICT, w, e) && e.Transact?
    ensures CleanedOk(Next(w, e))
  {
    TransactHasShape(w, e);
  }

  lemma CleanedSnapshots(w: World, e: Event)
    requires CleanedOk(w) && CoverageOk(w) && HistoryOk(w) && NothingLost(w)
    requires Enabled(STRICT, w, e) && SnapshotEvent(e)
    ensures CleanedOk(Next(w, e))
  {
    hide ApplyWithReceipt, HasReceipt;
  }

  lemma CleanedOther(w: World, e: Event)
    requires CleanedOk(w) && ExecutorsOk(w) && TimelineOk(w) && w.journal.Keys <= w.issued && w.cleaned <= w.issued
    requires Enabled(STRICT, w, e) && !e.Transact? && !SnapshotEvent(e)
    ensures CleanedOk(Next(w, e))
  {
    hide ApplyWithReceipt, HasReceipt;
  }

  // ---- Nothing lost

  lemma NothingLostTransact(w: World, e: Event)
    requires NothingLost(w)
    requires Enabled(STRICT, w, e) && e.Transact?
    ensures NothingLost(Next(w, e))
  {
    TransactHasShape(w, e);
  }

  /** What the restored snapshot lacks is refused for good or taken up by the replay. */
  lemma NothingLostRestore(w: World, e: Event)
    requires NothingLost(w) && CleanedOk(w) && RowsCovered(w) && HistoryOk(w) && TimelineOk(w)
    requires w.runtime.Recovering? ==> w.runtime.generation < w.runtime.target
    requires Enabled(STRICT, w, e) && e.Restore?
    ensures NothingLost(Next(w, e))
  {
    var w' := Next(w, e);
    var b := w.runtime.backup;
    forall r | r in w'.committed && !Holds(w'.db, r)
      ensures r in w'.journal
      ensures Terminal(w'.journal[r]) || Outstanding(w'.journal[r], CoverageOf(w'.runtime.snapshot), w'.runtime.target)
    {
      assert r !in w.cleaned;
      var entry := w.journal[r];
      if entry.status == Status.Applied && entry.position.Some? {
        assert CoveredAbove(w, entry.position.value, r);
        assert !entry.position.value.Le(CoverageOf(w.snapshots[b]));
      }
    }
  }

  lemma NothingLostRuntime(w: World, e: Event)
    requires NothingLost(w)
    requires Enabled(STRICT, w, e) && RuntimeEvent(e) && !e.Restore?
    ensures NothingLost(Next(w, e))
  {
  }

  lemma NothingLostMark(w: World, e: Event)
    requires NothingLost(w) && CoverageOk(w) && ExecutorsOk(w) && TimelineOk(w)
    requires Enabled(STRICT, w, e) && e.Mark?
    ensures NothingLost(Next(w, e))
  {
    var w' := Next(w, e);
    var ex := w.executors[e.x];
    forall r | r in w'.committed
      ensures Holds(w'.db, r) || (r in w'.journal && Terminal(w'.journal[r]))
              || (r in w'.journal && Restored(w'.runtime)
                  && Outstanding(w'.journal[r], CoverageOf(w'.runtime.snapshot), w'.runtime.target))
    {
      if r == ex.request && ex.phase.Done? && !Holds(w.db, r) {
        assert Restored(w.runtime);
        assert CoveredAbove(w, ex.phase.position, r);
        if ex.phase.position.Le(CoverageOf(w.runtime.snapshot)) {
          HoldsOfPrefix(w.runtime.snapshot.log, w.db.log, r);
        }
      }
    }
  }

  lemma {:induction false} HoldsOfPrefix(a: seq<Receipt>, b: seq<Receipt>, r: RequestId)
    requires a <= b && HasReceipt(a, r)
    ensures HasReceipt(b, r)
  {
    HasReceiptMeansSome(a, r);
    HasReceiptMeansSome(b, r);
    var i :| 0 <= i < |a| && a[i].request == r;
    assert b[i].request == r;
  }

  lemma NothingLostOther(w: World, e: Event)
    requires NothingLost(w) && CleanedOk(w) && HistoryOk(w)
    requires Enabled(STRICT, w, e) && !e.Transact? && !e.Mark? && !RuntimeEvent(e)
    ensures NothingLost(Next(w, e))
  {
  }

  // ---- Timeline

  lemma TimelineTransact(w: World, e: Event)
    requires TimelineOk(w)
    requires w.runtime.Recovering? ==> w.runtime.generation < w.runtime.target
    requires forall i :: 0 <= i < |w.db.log| ==> w.db.log[i].generation <= w.db.generation
    requires Enabled(STRICT, w, e) && e.Transact?
    ensures TimelineOk(Next(w, e))
  {
    TransactHasShape(w, e);
  }

  lemma TimelineRuntime(w: World, e: Event)
    requires TimelineOk(w)
    requires forall b :: b in w.snapshots ==> w.snapshots[b].generation <= w.runtime.generation
    requires w.runtime.Recovering? ==> w.runtime.generation < w.runtime.target
    requires Enabled(STRICT, w, e) && RuntimeEvent(e)
    ensures TimelineOk(Next(w, e))
  {
  }

  lemma TimelineSnapshots(w: World, e: Event)
    requires TimelineOk(w)
    requires Enabled(STRICT, w, e) && SnapshotEvent(e)
    ensures TimelineOk(Next(w, e))
  {
  }

  lemma TimelineBookkeeping(w: World, e: Event)
    requires TimelineOk(w)
    requires Enabled(STRICT, w, e) && Bookkeeping(e)
    ensures TimelineOk(Next(w, e))
  {
    hide ApplyWithReceipt, HasReceipt, ReplayEligible, ReplayCandidate;
  }

  lemma TimelineRows(w: World, e: Event)
    requires TimelineOk(w)
    requires Enabled(STRICT, w, e) && RowUpdate(e)
    ensures TimelineOk(Next(w, e))
  {
    hide ApplyWithReceipt, HasReceipt;
  }

  // ---- All together

  lemma InvNext(base: Data, w: World, e: Event)
    requires Inv(base, w) && Enabled(STRICT, w, e)
    ensures Inv(base, Next(w, e))
  {
    SoundNext(STRICT, base, w, e);
    ExecutorsNext(w, e);
    CoverageNext(base, w, e);
    HistoryNext(w, e);
    CleanedNext(w, e);
    NothingLostNext(base, w, e);
    TimelineNext(base, w, e);
  }

  lemma ExecutorsNext(w: World, e: Event)
    requires ExecutorsOk(w) && HistoryOk(w) && CleanedOk(w) && Enabled(STRICT, w, e)
    ensures ExecutorsOk(Next(w, e))
  {
    CleanedIssued(w);
    if Bookkeeping(e) { ExecutorsBookkeeping(w, e); } else { ExecutorsOther(w, e); }
  }

  lemma CoverageNext(base: Data, w: World, e: Event)
    requires Inv(base, w) && Enabled(STRICT, w, e)
    ensures CoverageOk(Next(w, e))
  {
    if Bookkeeping(e) { CoverageBookkeeping(w, e); }
    else if RowUpdate(e) { CoverageRows(w, e); }
    else if e.TakeSnapshot? { CoverageTakeSnapshot(w, e); }
    else if SnapshotEvent(e) { CoverageSnapshots(w, e); }
    else if RuntimeEvent(e) { CoverageRuntime(w, e); }
    else { CoverageTransact(w, e); }
  }

  lemma HistoryNext(w: World, e: Event)
    requires HistoryOk(w) && ExecutorsOk(w) && TimelineOk(w) && Enabled(STRICT, w, e)
    ensures HistoryOk(Next(w, e))
  {
    if e.Transact? { HistoryTransact(w, e); }
    else if Bookkeeping(e) { HistoryBookkeeping(w, e); }
    else if RowUpdate(e) { HistoryRows(w, e); }
    else if SnapshotEvent(e) { HistorySnapshots(w, e); }
    else { HistoryRuntime(w, e); }
  }

  lemma CleanedIssued(w: World)
    requires CleanedOk(w) && HistoryOk(w)
    ensures w.cleaned <= w.issued
  {
    forall r | r in w.cleaned ensures r in w.issued {
      HasReceiptMeansSome(w.db.log, r);
    }
  }

  lemma CleanedNext(w: World, e: Event)
    requires CleanedOk(w) && CoverageOk(w) && ExecutorsOk(w) && HistoryOk(w) && NothingLost(w) && TimelineOk(w)
    requires Enabled(STRICT, w, e)
    ensures CleanedOk(Next(w, e))
  {
    CleanedIssued(w);
    if e.Transact? { CleanedTransact(w, e); }
    else if SnapshotEvent(e) { CleanedSnapshots(w, e); }
    else { CleanedOther(w, e); }
  }

  lemma NothingLostNext(base: Data, w: World, e: Event)
    requires Inv(base, w) && Enabled(STRICT, w, e)
    ensures NothingLost(Next(w, e))
  {
    if e.Transact? { NothingLostTransact(w, e); }
    else if e.Mark? { NothingLostMark(w, e); }
    else if e.Restore? { NothingLostRestore(w, e); }
    else if RuntimeEvent(e) { NothingLostRuntime(w, e); }
    else { NothingLostOther(w, e); }
  }

  lemma TimelineNext(base: Data, w: World, e: Event)
    requires Inv(base, w) && Enabled(STRICT, w, e)
    ensures TimelineOk(Next(w, e))
  {
    if e.Transact? { TimelineTransact(w, e); }
    else if RuntimeEvent(e) { TimelineRuntime(w, e); }
    else if SnapshotEvent(e) { TimelineSnapshots(w, e); }
    else if RowUpdate(e) { TimelineRows(w, e); }
    else { TimelineBookkeeping(w, e); }
  }

  lemma {:induction false} InvExecute(base: Data, w: World, events: seq<Event>, w': World)
    requires Inv(base, w) && Execute(STRICT, w, events) == Some(w')
    ensures Inv(base, w')
    decreases |events|
  {
    if |events| > 0 {
      InvNext(base, w, events[0]);
      InvExecute(base, Next(w, events[0]), events[1..], w');
    }
  }

  lemma InvReachable(base: Data, w: World)
    requires Reachable(STRICT, base, w)
    ensures Inv(base, w)
  {
    var events :| Execute(STRICT, Genesis(base), events) == Some(w);
    InvGenesis(base);
    InvExecute(base, Genesis(base), events, w);
  }

  lemma {:induction false} SoundExecute(rules: Rules, base: Data, w: World, events: seq<Event>, w': World)
    requires Sound(base, w) && Execute(rules, w, events) == Some(w')
    ensures Sound(base, w')
    decreases |events|
  {
    if |events| > 0 {
      SoundNext(rules, base, w, events[0]);
      SoundExecute(rules, base, Next(w, events[0]), events[1..], w');
    }
  }
}
