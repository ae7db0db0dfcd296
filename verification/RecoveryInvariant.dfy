/** What every step of the recovery protocol keeps. */
module RecoveryInvariant {
  import opened Options
  import opened Postgres
  import opened Journal
  import opened RecoveryProtocol

  // ---- Kept under any rules: the receipts tables are sound.

  function TopGeneration(rt: Runtime): nat {
    if rt.Recovering? then rt.target else rt.generation
  }

  ghost predicate Sound(base: Data, w: World) {
    && WellFormed(base, w.db)
    && w.db.generation <= TopGeneration(w.runtime)
    && (forall b :: b in w.snapshots ==>
          WellFormed(base, w.snapshots[b]) && w.snapshots[b].generation <= w.runtime.generation)
    && (w.runtime.Recovering? ==>
          && w.runtime.target == w.runtime.generation + 1
          && w.runtime.snapshot.generation <= w.runtime.generation
          && WellFormed(base, w.runtime.snapshot))
  }

  lemma SoundNext(rules: Rules, base: Data, w: World, e: Event)
    requires Sound(base, w) && Enabled(rules, w, e)
    ensures Sound(base, Next(w, e))
  {
    if e.Transact? {
      var ex := w.executors[e.x];
      TransactionAtMostOnce(base, w.db, ex.request, ex.payload, ex.forced, e.seqNo);
    }
  }

  // ---- Kept under the strict rules.

  function PositionOf(receipt: Receipt): Coverage {
    Coverage(receipt.generation, receipt.seqNo)
  }

  ghost predicate Holds(db: Database, r: RequestId) {
    HasReceipt(db.log, r)
  }

  /** Every snapshot at or above the position holds the request. */
  ghost predicate CoveredAbove(w: World, position: Coverage, r: RequestId) {
    forall b :: b in w.snapshots && position.Le(CoverageOf(w.snapshots[b])) ==> Holds(w.snapshots[b], r)
  }

  ghost predicate OpenRow(w: World, r: RequestId) {
    r in w.journal && !Terminal(w.journal[r])
  }

  predicate Restored(rt: Runtime) {
    rt.Recovering? && rt.restored
  }

  /** Executors work on distinct requests whose rows are still to be replayed. */
  ghost predicate ExecutorsOk(w: World) {
    && (forall x, y :: x in w.executors && y in w.executors && x != y ==>
          w.executors[x].request != w.executors[y].request)
    && (forall x :: x in w.executors ==>
          var r := w.executors[x].request;
          && r in w.journal && r !in w.cleaned
          && (ReplayCandidate(w.journal[r])
              || (w.runtime.Recovering?
                  && ReplayEligible(w.journal[r], CoverageOf(w.runtime.snapshot), w.runtime.target))))
  }

  ghost predicate LogCovered(w: World, log: seq<Receipt>) {
    forall i :: 0 <= i < |log| && OpenRow(w, log[i].request) ==>
      CoveredAbove(w, PositionOf(log[i]), log[i].request)
  }

  ghost predicate RowsCovered(w: World) {
    forall r :: r in w.journal && w.journal[r].status == Status.Applied && w.journal[r].position.Some? ==>
      CoveredAbove(w, w.journal[r].position.value, r)
  }

  ghost predicate DonesCovered(w: World) {
    forall x :: x in w.executors && w.executors[x].phase.Done? ==>
      CoveredAbove(w, w.executors[x].phase.position, w.executors[x].request)
  }

  /** A recorded or known position at or below a snapshot means the snapshot holds the request. */
  ghost predicate CoverageOk(w: World) {
    && RowsCovered(w)
    && DonesCovered(w)
    && LogCovered(w, w.db.log)
    && (forall b :: b in w.snapshots ==> LogCovered(w, w.snapshots[b].log))
  }

  ghost predicate LogCommitted(w: World, log: seq<Receipt>) {
    forall i :: 0 <= i < |log| ==> log[i].request in w.committed
  }

  /** Everything that was ever committed is on record somewhere. */
  ghost predicate HistoryOk(w: World) {
    && w.acked <= w.committed <= w.issued
    && w.journal.Keys <= w.issued
    && w.committed <= w.journal.Keys + w.cleaned
    && LogCommitted(w, w.db.log)
    && (forall b :: b in w.snapshots ==> LogCommitted(w, w.snapshots[b].log))
    && (forall r :: r in w.journal && w.journal[r].status == Status.Applied ==> r in w.committed)
    && (forall x :: x in w.executors && w.executors[x].phase.Done? ==> w.executors[x].request in w.committed)
  }

  /** Rows given up by the cleanup are held by the live database and by every snapshot that
      a recovery may still start from. */
  ghost predicate CleanedOk(w: World) {
    && (forall r :: r in w.cleaned ==>
          && Holds(w.db, r)
          && (r in w.journal ==> Cleanable(w.journal[r], w.floor))
          && (forall b :: b in w.snapshots && w.floor.Le(CoverageOf(w.snapshots[b])) ==> Holds(w.snapshots[b], r)))
    && (w.runtime.Recovering? ==> w.floor.Le(CoverageOf(w.runtime.snapshot)))
  }

  /** No committed write is lost: it is in the live database, refused for good on record, or,
      while the restored database is being replayed, still outstanding. */
  ghost predicate NothingLost(w: World) {
    forall r :: r in w.committed ==>
      || Holds(w.db, r)
      || (r in w.journal && Terminal(w.journal[r]))
      || (r in w.journal && Restored(w.runtime)
          && Outstanding(w.journal[r], CoverageOf(w.runtime.snapshot), w.runtime.target))
  }

  ghost predicate PositionsBelow(w: World, top: nat) {
    && (forall r :: r in w.journal && w.journal[r].position.Some? ==> w.journal[r].position.value.generation <= top)
    && (forall x :: x in w.executors && w.executors[x].phase.Done? ==> w.executors[x].phase.position.generation <= top)
  }

  /** Each generation is one timeline: snapshots of the live generation are of its past. */
  ghost predicate TimelineOk(w: World) {
    && PositionsBelow(w, if Restored(w.runtime) then w.runtime.target else w.runtime.generation)
    && (!Restored(w.runtime) ==>
          && w.db.generation == w.runtime.generation
          && forall b :: b in w.snapshots ==> CoverageOf(w.snapshots[b]).Le(CoverageOf(w.db)))
    && (Restored(w.runtime) ==>
          && w.db.generation in {w.runtime.snapshot.generation, w.runtime.target}
          && w.runtime.snapshot.log <= w.db.log
          && (w.db.generation != w.runtime.target ==> w.db.log == w.runtime.snapshot.log)
          && (forall i :: |w.runtime.snapshot.log| <= i < |w.db.log| ==> w.db.log[i].generation == w.runtime.target)
          && forall x :: x in w.executors && w.executors[x].phase.Done?
                         && w.executors[x].phase.position.generation == w.runtime.target ==>
               Holds(w.db, w.executors[x].request))
    && (w.runtime.Recovering? ==>
          w.runtime.backup in w.snapshots && w.snapshots[w.runtime.backup] == w.runtime.snapshot)
  }

  ghost predicate Inv(base: Data, w: World) {
    && Sound(base, w)
    && ExecutorsOk(w)
    && CoverageOk(w)
    && HistoryOk(w)
    && CleanedOk(w)
    && NothingLost(w)
    && TimelineOk(w)
  }

  lemma InvGenesis(base: Data)
    ensures Inv(base, Genesis(base))
  {
  }
}
