/** A recovery brings the lost database back: the snapshot and the replay together end in the
    rows that the restore took away, however often the replay fails, crashes and is resumed. */
module RecoveryRefinement {
  import opened Options
  import opened Postgres
  import opened Journal
  import opened RecoveryProtocol
  import opened RecoveryInvariant
  import opened RecoveryPreservation
  import opened RecoveryLineage
  import RecoveryTheorems
  import opened JournalReplay
  import opened ReplayRuns

  // ---- Before the restore

  /** No executor is at work, and every write is either applied or refused for good. */
  ghost predicate Quiet(w: World) {
    && w.executors == map[]
    && forall r :: r in w.journal ==> w.journal[r].status == Status.Applied || Terminal(w.journal[r])
  }

  /** The receipts that the live database has beyond the length of the snapshot are those of
      applied rows, and were given in the order in which the rows were created. */
  ghost predicate LaterInOrder(w: World)
    requires w.runtime.Recovering?
  {
    var n := |w.runtime.snapshot.log|;
    && (forall i :: n <= i < |w.db.log| && w.db.log[i].request in w.journal ==> !Terminal(w.journal[w.db.log[i].request]))
    && (forall i, k :: n <= i < k < |w.db.log| && w.db.log[i].request in w.journal && w.db.log[k].request in w.journal ==>
          w.journal[w.db.log[i].request].createdAt < w.journal[w.db.log[k].request].createdAt)
  }

  /** Request by request, the snapshot holds the first receipts of the live database. */
  ghost predicate SnapshotFirst(w: World)
    requires w.runtime.Recovering?
  {
    |w.runtime.snapshot.log| <= |w.db.log|
    && SameRequests(w.runtime.snapshot.log, w.db.log[..|w.runtime.snapshot.log|])
  }

  /** A restore is about to take the live database away. */
  ghost predicate AboutToRestore(base: Data, w: World) {
    Reachable(STRICT, base, w) && Enabled(STRICT, w, Restore) && Quiet(w) && LaterInOrder(w)
  }

  /** A snapshot of the live generation, which is the ready one, holds the first receipts,
      and no later one is of a row that was refused. Comparing the two generations before the
      recovery is begun is enough. */
  lemma SameGenerationComesFirst(base: Data, w: World)
    requires Reachable(STRICT, base, w) && Enabled(STRICT, w, Restore)
    requires w.runtime.snapshot.generation == w.runtime.generation
    ensures SnapshotFirst(w) && w.runtime.snapshot.log <= w.db.log
    ensures forall i :: |w.runtime.snapshot.log| <= i < |w.db.log| && w.db.log[i].request in w.journal ==>
              !Terminal(w.journal[w.db.log[i].request])
  {
    hide Inv, Lineage, Reachable, Terminal;
    LineageReachable(base, w);
    SameLine(base, w);
    forall i | |w.runtime.snapshot.log| <= i < |w.db.log| && w.db.log[i].request in w.journal
      ensures !Terminal(w.journal[w.db.log[i].request])
    {
      assert w.db.log[i].generation == Live(w);
    }
  }

  lemma SameLine(base: Data, w: World)
    requires Inv(base, w) && Lineage(w) && w.runtime.Recovering? && !w.runtime.restored
    requires w.runtime.snapshot.generation == w.runtime.generation
    ensures w.db.generation == w.runtime.generation && GoesOn(w.runtime.snapshot, w.db)
    ensures RefusedNotLive(w)
  {
    assert w.snapshots[w.runtime.backup] == w.runtime.snapshot;
  }

  /** A lost write that the snapshot does not hold is outstanding once the snapshot is
      restored: neither cleaned nor covered. */
  lemma LaterIsOutstanding(base: Data, w: World, r: RequestId)
    requires Inv(base, w) && RowsReal(w) && Enabled(STRICT, w, Restore) && Quiet(w)
    requires HasReceipt(w.db.log, r) && !HasReceipt(w.runtime.snapshot.log, r)
    requires r in w.journal ==> !Terminal(w.journal[r])
    ensures r in w.journal && Outstanding(w.journal[r], CoverageOf(w.runtime.snapshot), w.runtime.target)
  {
    HasReceiptMeansSome(w.db.log, r);
    assert r in w.committed;
    assert r !in w.cleaned;
    var position := w.journal[r].position.value;
    assert CoveredAbove(w, position, r);
    assert w.snapshots[w.runtime.backup] == w.runtime.snapshot;
    assert !position.Le(CoverageOf(w.runtime.snapshot));
  }

  /** What is outstanding once the snapshot is restored has a receipt in the live database. */
  lemma OutstandingIsLost(base: Data, w: World, r: RequestId)
    requires Inv(base, w) && w.runtime.Recovering? && !w.runtime.restored && Quiet(w)
    requires r in w.journal && Outstanding(w.journal[r], CoverageOf(w.runtime.snapshot), w.runtime.target)
    ensures r in Requests(w.db.log)
  {
    assert r in w.committed;
    assert Holds(w.db, r);
    HasReceiptMeansSome(w.db.log, r);
  }

  /** With the snapshot in its place, the replay is in line to repeat the lost database. */
  lemma RestoredInLine(base: Data, w: World)
    requires AboutToRestore(base, w) && SnapshotFirst(w)
    ensures InLine(base, Store(w.journal, w.runtime.snapshot), w.db, CoverageOf(w.runtime.snapshot), w.runtime.target)
  {
    hide Outstanding, Reachable;
    LineageReachable(base, w);
    var p := SaysReachable(STRICT, base, w);
    PayloadsFirst(base, w, p);
    RowsFirst(base, w, p);
  }

  lemma PayloadsFirst(base: Data, w: World, p: map<RequestId, Payload>)
    requires Says(w, p) && Inv(base, w) && w.runtime.Recovering? && SnapshotFirst(w)
    ensures SamePayloads(w.runtime.snapshot.log, w.db.log[..|w.runtime.snapshot.log|]) && WellFormed(base, w.db)
  {
    hide Fold;
    var kept := w.runtime.snapshot.log;
    forall i | 0 <= i < |kept| ensures kept[i].payload == w.db.log[..|kept|][i].payload {
      assert kept[i].request == w.db.log[..|kept|][i].request == w.db.log[i].request;
    }
  }

  lemma RowsFirst(base: Data, w: World, p: map<RequestId, Payload>)
    requires Says(w, p) && Inv(base, w) && RowsReal(w) && Enabled(STRICT, w, Restore) && Quiet(w) && LaterInOrder(w)
    requires SnapshotFirst(w)
    ensures RowsInLine(w.journal, w.db.log, |w.runtime.snapshot.log|, CoverageOf(w.runtime.snapshot), w.runtime.target)
  {
    hide Outstanding, Inv, RowsReal, Says;
    var n := |w.runtime.snapshot.log|;
    forall r | r in w.journal && Outstanding(w.journal[r], CoverageOf(w.runtime.snapshot), w.runtime.target)
      ensures r in Requests(w.db.log)
    {
      OutstandingIsLost(base, w, r);
    }
    forall i | n <= i < |w.db.log|
      ensures w.db.log[i].request in w.journal
      ensures Outstanding(w.journal[w.db.log[i].request], CoverageOf(w.runtime.snapshot), w.runtime.target)
    {
      LaterIsNotKept(base, w, i);
      LaterIsOutstanding(base, w, w.db.log[i].request);
    }
    forall i | 0 <= i < |w.db.log| && w.db.log[i].request in w.journal
      ensures w.journal[w.db.log[i].request].payload == w.db.log[i].payload
    {
      SaysOf(w, p, i);
    }
  }

  lemma SaysOf(w: World, p: map<RequestId, Payload>, i: nat)
    requires Says(w, p) && i < |w.db.log| && w.db.log[i].request in w.journal
    ensures w.journal[w.db.log[i].request].payload == w.db.log[i].payload
  {
  }

  lemma LaterIsNotKept(base: Data, w: World, i: nat)
    requires Inv(base, w) && w.runtime.Recovering? && SnapshotFirst(w) && |w.runtime.snapshot.log| <= i < |w.db.log|
    ensures HasReceipt(w.db.log, w.db.log[i].request) && !HasReceipt(w.runtime.snapshot.log, w.db.log[i].request)
  {
    var kept, r := w.runtime.snapshot.log, w.db.log[i].request;
    assert DistinctRequests(w.db.log);
    HasReceiptMeansSome(w.db.log, r);
    HasReceiptMeansSome(kept, r);
    forall k | 0 <= k < |kept| ensures kept[k].request != r {
      assert kept[k].request == w.db.log[..|kept|][k].request == w.db.log[k].request;
    }
  }

  // ---- On the way

  /** A row that is left for good, and that no executor is at work on. */
  ghost predicate Given(w: World, r: RequestId) {
    r in w.journal && LeftForGood(w.journal[r]) && forall x :: x in w.executors ==> w.executors[x].request != r
  }

  ghost predicate AtWork(w: World, lost: Database, x: ExecutorId)
    requires x in w.executors
  {
    var ex := w.executors[x];
    && ex.forced == Some(TopGeneration(w.runtime))
    && ex.request in w.journal && ex.payload == w.journal[ex.request].payload && ex.request in Requests(lost.log)
    && !ex.phase.Refused?
    && (ex.phase.Started? ==> DueNext(Store(w.journal, w.db), lost, ex.request))
    && (ex.phase.Done? ==> HasReceipt(w.db.log, ex.request))
  }

  /** In line, with at most one attempt under way, which is due. */
  ghost predicate UnderWay(base: Data, w: World, lost: Database)
    requires w.runtime.Recovering?
  {
    && InLine(base, Store(w.journal, w.db), lost, CoverageOf(w.runtime.snapshot), w.runtime.target)
    && (forall x, y :: x in w.executors && y in w.executors ==> x == y)
    && (forall x :: x in w.executors ==> AtWork(w, lost, x))
  }

  /** The recovery is held back for good, or it is repeating the lost database. */
  ghost predicate OnTheWay(base: Data, w: World, lost: Database) {
    && w.runtime.Recovering? && w.runtime.restored
    && ((exists r :: Given(w, r)) || UnderWay(base, w, lost))
  }

  lemma GivenStays(w: World, e: Event, r: RequestId)
    requires Given(w, r) && Enabled(ORDERLY, w, e) && CleanedOk(w)
    ensures Given(Next(w, e), r)
  {
    hide ApplyWithReceipt, InTurn;
  }

  lemma UnderWayPick(base: Data, w: World, e: Event, lost: Database)
    requires w.runtime.Recovering? && UnderWay(base, w, lost) && Enabled(ORDERLY, w, e) && e.PickRecovery?
    ensures OnTheWay(base, Next(w, e), lost)
  {
    hide InLine, CoverageOf;
    var w', r, s := Next(w, e), e.r, Store(w.journal, w.db);
    var snapshot, target := CoverageOf(w.runtime.snapshot), w.runtime.target;
    if Stuck(w.journal) {
      var q :| q in w.journal && LeftForGood(w.journal[q]);
      assert Given(w', q);
    } else {
      assert Unblocked(w.journal);
      EarliestIsNext(base, s, lost, snapshot, target, r);
      var k := PlaceOf(base, s, lost, snapshot, target, r);
      assert lost.log[k].request in Requests(lost.log);
      assert w'.executors == map[e.x := Executor(r, w.journal[r].payload, Some(target), false, Started)];
    }
  }

  lemma UnderWayTransact(base: Data, w: World, e: Event, lost: Database)
    requires w.runtime.Recovering? && w.runtime.restored && UnderWay(base, w, lost) && WellFormed(base, w.db)
    requires Enabled(ORDERLY, w, e) && e.Transact?
    ensures UnderWay(base, Next(w, e), lost)
  {
    hide InLine, WellFormed, CoverageOf, ApplyWithReceipt, HasReceipt, DueNext;
    var w', s, x := Next(w, e), Store(w.journal, w.db), e.x;
    var ex := w.executors[x];
    assert AtWork(w, lost, x);
    TransactInLine(base, s, lost, CoverageOf(w.runtime.snapshot), w.runtime.target, ex.request, e.seqNo);
    assert forall y :: y in w'.executors ==> y == x;
  }

  lemma UnderWayMark(base: Data, w: World, e: Event, lost: Database)
    requires w.runtime.Recovering? && UnderWay(base, w, lost) && Enabled(ORDERLY, w, e) && e.Mark?
    ensures UnderWay(base, Next(w, e), lost)
  {
    hide InLine, CoverageOf, MarkByPhase, HasReceipt, DueNext;
    var w', s, x := Next(w, e), Store(w.journal, w.db), e.x;
    assert AtWork(w, lost, x);
    MarkInLine(base, s, lost, CoverageOf(w.runtime.snapshot), w.runtime.target, w.executors[x], e.looksAmbiguous);
    assert w'.executors == map[];
  }

  lemma UnderWayRequeue(base: Data, w: World, lost: Database)
    requires w.runtime.Recovering? && UnderWay(base, w, lost)
    ensures UnderWay(base, Next(w, Requeue), lost)
  {
    hide InLine, CoverageOf, HasReceipt;
    RequeueStaysInLine(base, Store(w.journal, w.db), lost, CoverageOf(w.runtime.snapshot), w.runtime.target);
    forall x | x in w.executors ensures AtWork(Next(w, Requeue), lost, x) {
      assert AtWork(w, lost, x);
    }
  }

  /** Cleaned rows are not outstanding, and no executor is at work on them. */
  lemma UnderWayCleanup(base: Data, w: World, e: Event, lost: Database)
    requires w.runtime.Recovering? && UnderWay(base, w, lost) && CleanedOk(w) && ExecutorsOk(w)
    requires Enabled(ORDERLY, w, e) && e.CleanupDelete?
    ensures UnderWay(base, Next(w, e), lost)
  {
    hide HasReceipt, WellFormed, SameRequests, SamePayloads, CoverageOf;
    var w' := Next(w, e);
    forall r | r in e.rows && r in w.journal
      ensures !Outstanding(w.journal[r], CoverageOf(w.runtime.snapshot), w.runtime.target)
    {
      assert Cleanable(w.journal[r], w.floor);
    }
    forall x | x in w'.executors ensures AtWork(w', lost, x) {
      assert AtWork(w, lost, x);
    }
  }

  lemma UnderWayOther(base: Data, w: World, e: Event, lost: Database)
    requires w.runtime.Recovering? && w.runtime.restored && UnderWay(base, w, lost) && Enabled(ORDERLY, w, e)
    requires e.FailBefore? || e.FinishUnmarked? || e.Crash? || e.Prune? || e.Promote?
    ensures UnderWay(base, Next(w, e), lost)
  {
    hide HasReceipt, WellFormed, SameRequests, SamePayloads, CoverageOf, RowsInLine;
    var w' := Next(w, e);
    forall x | x in w'.executors ensures AtWork(w', lost, x) {
      assert AtWork(w, lost, x);
    }
  }

  lemma OnTheWayNext(base: Data, w: World, e: Event, lost: Database)
    requires Inv(base, w) && OnTheWay(base, w, lost) && Enabled(ORDERLY, w, e) && !e.Complete?
    ensures OnTheWay(base, Next(w, e), lost) && Next(w, e).runtime == w.runtime
  {
    hide Inv, UnderWay, Given, InTurn, CleanedOk, ExecutorsOk, WellFormed, CoverageOf, Unpromoted, Busy;
    OrderlyEvents(w, e);
    InvAlso(base, w);
    if r :| Given(w, r) {
      GivenStays(w, e, r);
    } else if e.PickRecovery? {
      UnderWayPick(base, w, e, lost);
    } else if e.Transact? {
      UnderWayTransact(base, w, e, lost);
    } else if e.Mark? {
      UnderWayMark(base, w, e, lost);
    } else if e.Requeue? {
      UnderWayRequeue(base, w, lost);
    } else if e.CleanupDelete? {
      UnderWayCleanup(base, w, e, lost);
    } else {
      UnderWayOther(base, w, e, lost);
    }
  }

  /** What can happen in an orderly recovery, and that the runtime record stays as it is. */
  lemma OrderlyEvents(w: World, e: Event)
    requires w.runtime.Recovering? && w.runtime.restored && Enabled(ORDERLY, w, e) && !e.Complete?
    ensures e.PickRecovery? || e.Transact? || e.Mark? || e.Requeue? || e.CleanupDelete?
            || e.FailBefore? || e.FinishUnmarked? || e.Crash? || e.Prune? || e.Promote?
    ensures Next(w, e).runtime == w.runtime
  {
    hide ApplyWithReceipt, InTurn;
  }

  lemma InvAlso(base: Data, w: World)
    requires Inv(base, w)
    ensures WellFormed(base, w.db) && CleanedOk(w) && ExecutorsOk(w)
  {
  }

  /** Under way as long as the recovery is in progress: once it is over, none is begun. */
  lemma {:induction false} OnTheWayExecute(base: Data, w: World, events: seq<Event>, w': World, lost: Database)
    requires Inv(base, w) && (w.runtime.Ready? || OnTheWay(base, w, lost))
    requires Execute(ORDERLY, w, events) == Some(w')
    ensures w'.runtime.Ready? || (OnTheWay(base, w', lost) && w'.runtime == w.runtime)
    decreases |events|
  {
    hide Inv, OnTheWay, InTurn, CanComplete, ApplyWithReceipt;
    if |events| > 0 {
      var e, next := events[0], Next(w, events[0]);
      OrderlyStep(w, e);
      InvNext(base, w, e);
      if w.runtime.Recovering? && !e.Complete? {
        OnTheWayNext(base, w, e, lost);
      }
      OnTheWayExecute(base, next, events[1..], w', lost);
    }
  }

  lemma OrderlyStep(w: World, e: Event)
    requires Enabled(ORDERLY, w, e)
    ensures Enabled(STRICT, w, e)
    ensures w.runtime.Ready? || e.Complete? ==> Next(w, e).runtime.Ready?
  {
    hide ApplyWithReceipt, InTurn;
  }

  // ---- The end

  /** In line with the database that the restore took away, or held back for good, from the
      restore on and after any attempts, failures and crashes of the recovery. */
  lemma OnTheWayReachable(base: Data, before: World, w: World)
    requires AboutToRestore(base, before) && SnapshotFirst(before)
    requires RunTo(ORDERLY, Next(before, Restore), w) && w.runtime.Recovering?
    ensures Inv(base, w) && OnTheWay(base, w, before.db) && w.runtime == Next(before, Restore).runtime
  {
    hide Reachable, InLine, LaterInOrder, SnapshotFirst, CoverageOf;
    RestoredInLine(base, before);
    var restored := Next(before, Restore);
    assert UnderWay(base, restored, before.db);
    RecoveryReachable(base, before, w);
    InvReachable(base, restored);
    var events :| Execute(ORDERLY, restored, events) == Some(w);
    OnTheWayExecute(base, restored, events, w, before.db);
  }

  lemma RecoveryReachable(base: Data, before: World, w: World)
    requires Reachable(STRICT, base, before) && Enabled(STRICT, before, Restore) && RunTo(ORDERLY, Next(before, Restore), w)
    ensures Reachable(STRICT, base, Next(before, Restore)) && Reachable(STRICT, base, w)
    ensures Inv(base, w)
  {
    hide Reachable, RunTo, Inv;
    RunStep(STRICT, before, Restore);
    RunReachable(STRICT, base, before, Next(before, Restore));
    OrderlyIsStrict(Next(before, Restore), w);
    RunReachable(STRICT, base, Next(before, Restore), w);
    InvReachable(base, w);
  }

  lemma CompleteMeans(base: Data, w: World, lost: Database)
    requires Inv(base, w) && OnTheWay(base, w, lost) && CanComplete(w)
    ensures w.db.data == lost.data && SameRequests(w.db.log, lost.log)
  {
    hide HasReceipt, CoverageOf;
    var snapshot, target := CoverageOf(w.runtime.snapshot), w.runtime.target;
    forall r ensures !Given(w, r) {
      if r in w.journal {
        assert !Outstanding(w.journal[r], snapshot, target);
      }
    }
    assert OutstandingSet(w.journal, snapshot, target) == {};
    AllRepeated(base, Store(w.journal, w.db), lost, snapshot, target);
  }

  /** The refinement. Let a recovery restore a snapshot when no executor is at work, no write
      is pending or blocked, and the later receipts were given in the order of creation. Let
      its attempts fail, lose their replies, crash and be resumed in any way. When it can
      switch to ready, the requests of the database are those of the database that the
      restore took away, in the same order, if and only if the snapshot holds the first of
      them; and then the rows are the same. */
  lemma RecoveryRestoresTheLostDatabase(base: Data, before: World, w: World)
    requires AboutToRestore(base, before) && RunTo(ORDERLY, Next(before, Restore), w) && CanComplete(w)
    ensures SameRequests(w.db.log, before.db.log) <==> SnapshotFirst(before)
    ensures SnapshotFirst(before) ==> w.db.data == before.db.data
  {
    hide RunTo, Quiet, LaterInOrder, OnTheWay, Inv, Reachable;
    SnapshotStaysFirst(base, before, w);
    FirstOfTheSame(before.runtime.snapshot.log, before.db.log, w.db.log);
    if SnapshotFirst(before) {
      OnTheWayReachable(base, before, w);
      CompleteMeans(base, w, before.db);
    }
  }

  lemma SnapshotStaysFirst(base: Data, before: World, w: World)
    requires AboutToRestore(base, before) && RunTo(ORDERLY, Next(before, Restore), w) && w.runtime.Recovering?
    ensures before.runtime.snapshot.log <= w.db.log
  {
    hide RunTo, Quiet, LaterInOrder, Reachable;
    RecoveryReachable(base, before, w);
    SameRecovery(base, before, w);
  }

  lemma SameRecovery(base: Data, before: World, w: World)
    requires Reachable(STRICT, base, before) && Enabled(STRICT, before, Restore)
    requires RunTo(ORDERLY, Next(before, Restore), w) && w.runtime.Recovering? && Inv(base, w)
    ensures w.runtime == Next(before, Restore).runtime && before.runtime.snapshot.log <= w.db.log
  {
    var events :| Execute(ORDERLY, Next(before, Restore), events) == Some(w);
    RuntimeStays(Next(before, Restore), events, w);
  }

  lemma {:induction false} RuntimeStays(w: World, events: seq<Event>, w': World)
    requires Execute(ORDERLY, w, events) == Some(w')
    requires w.runtime.Ready? || w.runtime.restored
    ensures w'.runtime.Ready? || w'.runtime == w.runtime
    decreases |events|
  {
    hide InTurn, CanComplete, ApplyWithReceipt;
    if |events| > 0 {
      OrderlyStep(w, events[0]);
      if w.runtime.Recovering? && !events[0].Complete? {
        OrderlyEvents(w, events[0]);
      }
      RuntimeStays(Next(w, events[0]), events[1..], w');
    }
  }

  lemma FirstOfTheSame(kept: seq<Receipt>, lost: seq<Receipt>, log: seq<Receipt>)
    requires kept <= log
    ensures SameRequests(log, lost) ==> |kept| <= |lost| && SameRequests(kept, lost[..|kept|])
  {
    if SameRequests(log, lost) {
      forall i | 0 <= i < |kept| ensures kept[i].request == lost[..|kept|][i].request {
        assert kept[i] == log[i] && log[i].request == lost[i].request;
      }
    }
  }

  /** So a snapshot of the ready generation brings the lost rows back. */
  lemma SameGenerationRestoresTheLostDatabase(base: Data, before: World, w: World)
    requires AboutToRestore(base, before) && RunTo(ORDERLY, Next(before, Restore), w) && CanComplete(w)
    requires before.runtime.snapshot.generation == before.runtime.generation
    ensures w.db.data == before.db.data && SameRequests(w.db.log, before.db.log)
  {
    hide RunTo, Quiet, LaterInOrder, Reachable, CanComplete;
    SameGenerationComesFirst(base, before);
    RecoveryRestoresTheLostDatabase(base, before, w);
  }
}
