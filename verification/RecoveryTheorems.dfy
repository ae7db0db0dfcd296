/** What holds over every run of the recovery protocol. */
module RecoveryTheorems {
  import opened Options
  import opened Postgres
  import opened Journal
  import opened RecoveryProtocol
  import opened RecoveryInvariant
  import opened RecoveryPreservation

  /** Under any interleaving of direct execution, concurrent replay, crashes, lost replies,
      requeues and recoveries, and whatever the operators do, the live database and every
      snapshot hold at most one receipt for a request, and their rows are what running the
      payloads once each in receipt order makes of the first rows. */
  lemma AtMostOnce(rules: Rules, base: Data, w: World)
    requires Reachable(rules, base, w)
    ensures DistinctRequests(w.db.log) && Fold(base, w.db.log) == Commit(w.db.data)
    ensures forall b :: b in w.snapshots ==>
              DistinctRequests(w.snapshots[b].log) && Fold(base, w.snapshots[b].log) == Commit(w.snapshots[b].data)
  {
    var events :| Execute(rules, Genesis(base), events) == Some(w);
    SoundExecute(rules, base, Genesis(base), events, w);
  }

  /** Between restores a receipt is never taken back, moved or renumbered, so a repeated
      request keeps getting the receipt it got first. */
  lemma {:induction false} ReceiptsPersist(rules: Rules, w: World, events: seq<Event>, w': World)
    requires Execute(rules, w, events) == Some(w')
    requires forall i :: 0 <= i < |events| ==> !events[i].Restore?
    ensures w.db.log <= w'.db.log
    decreases |events|
  {
    if |events| > 0 {
      var next := Next(w, events[0]);
      assert w.db.log <= next.db.log;
      ReceiptsPersist(rules, next, events[1..], w');
    }
  }

  /** The durability of the whole arrangement: in every ready state, every request of which
      a transaction ever committed, in whatever generation, and so every request that a
      client was told had been applied, has exactly one receipt in the live database,
      unless the journal says on record that it was refused for good. */
  lemma NoCommittedWriteIsLost(base: Data, w: World, r: RequestId)
    requires Reachable(STRICT, base, w) && w.runtime.Ready?
    requires r in w.committed || r in w.acked
    ensures ExactlyOnce(w.db.log, r) || (r in w.journal && Terminal(w.journal[r]))
  {
    InvReachable(base, w);
    if HasReceipt(w.db.log, r) {
      DistinctMeansOnce(w.db.log, r);
    }
  }

  /** In every reachable state an applied row with a position at or below a snapshot, in
      lexicographic order and across generations, is contained in that snapshot. */
  lemma SnapshotsContainWhatTheyCover(base: Data, w: World, b: BackupId, r: RequestId)
    requires Reachable(STRICT, base, w)
    requires b in w.snapshots && r in w.journal && Cleanable(w.journal[r], CoverageOf(w.snapshots[b]))
    ensures ExactlyOnce(w.snapshots[b].log, r)
  {
    InvReachable(base, w);
    assert CoveredAbove(w, w.journal[r].position.value, r);
    DistinctMeansOnce(w.snapshots[b].log, r);
  }

  /** The cleanup deletes no row that a recovery could still need: the live database and
      every snapshot at or above the one the cleanup used hold its request. */
  lemma CleanupIsSafe(base: Data, w: World, e: Event, b: BackupId, r: RequestId)
    requires Reachable(STRICT, base, w) && Enabled(STRICT, w, e) && e.CleanupDelete? && r in e.rows
    requires b in w.snapshots && w.floor.Le(CoverageOf(w.snapshots[b]))
    ensures ExactlyOnce(w.db.log, r) && ExactlyOnce(w.snapshots[b].log, r)
  {
    InvReachable(base, w);
    DistinctMeansOnce(w.db.log, r);
    DistinctMeansOnce(w.snapshots[b].log, r);
  }

  /** When recovery switches to ready, every journal row that is not refused for good has
      exactly one receipt in the live database, either one of the restored snapshot's or one
      of the target generation, and the snapshot's receipts are all still there. */
  lemma RecoveryIsComplete(base: Data, w: World, r: RequestId)
    requires Reachable(STRICT, base, w) && Enabled(STRICT, w, Complete)
    requires r in w.journal && !Terminal(w.journal[r])
    ensures ExactlyOnce(w.db.log, r)
    ensures w.runtime.snapshot.log <= w.db.log
    ensures forall i :: 0 <= i < |w.db.log| && w.db.log[i].request == r ==>
              w.db.log[i] in w.runtime.snapshot.log || w.db.log[i].generation == w.runtime.target
  {
    InvReachable(base, w);
    assert r in w.committed;
    DistinctMeansOnce(w.db.log, r);
    forall i | 0 <= i < |w.db.log| && i < |w.runtime.snapshot.log|
      ensures w.db.log[i] in w.runtime.snapshot.log
    {
      assert w.db.log[i] == w.runtime.snapshot.log[i];
    }
  }

  /** A row that is still there is refused for good or outstanding, if the snapshot lacks it. */
  lemma RowThereIsOutstanding(base: Data, w: World, b: BackupId, r: RequestId)
    requires Inv(base, w) && w.runtime.Ready? && b in w.snapshots && r in w.journal
    requires !HasReceipt(w.snapshots[b].log, r)
    ensures Terminal(w.journal[r]) || Outstanding(w.journal[r], CoverageOf(w.snapshots[b]), w.runtime.generation + 1)
  {
    var entry := w.journal[r];
    if entry.status == Status.Applied && entry.position.Some? {
      assert CoveredAbove(w, entry.position.value, r);
    }
  }

  lemma CleanedIsCommitted(base: Data, w: World, r: RequestId)
    requires Inv(base, w)
    ensures r in w.cleaned ==> r in w.committed
    ensures r in w.committed ==> r in w.journal || r in w.cleaned
  {
    HasReceiptMeansSome(w.db.log, r);
  }

  lemma BegunAndRestored(w: World, b: BackupId)
    requires w.runtime.Ready? && b in w.snapshots
    ensures var restored := Next(Next(w, Begin(b)), Restore);
            && restored.journal == w.journal && restored.db == w.snapshots[b] && restored.committed == w.committed
            && restored.runtime == Recovering(w.runtime.generation, w.runtime.generation + 1, b, w.snapshots[b], true)
  {
  }

  /** Exactly when a recovery may start from a snapshot, older than one the cleanup has used
      or not: what the restored database lacks is refused for good or outstanding, if and only
      if the snapshot holds every write whose row has been deleted. */
  lemma RestoreLosesOnlyDeletedRows(base: Data, w: World, b: BackupId)
    requires Reachable(STRICT, base, w) && w.runtime.Ready? && b in w.snapshots
    ensures NothingLost(Next(Next(w, Begin(b)), Restore))
            <==> forall r :: r in w.cleaned && r !in w.journal ==> HasReceipt(w.snapshots[b].log, r)
  {
    hide Inv, Reachable, Next, Outstanding, Terminal, HasReceipt, CoverageOf;
    InvReachable(base, w);
    BegunAndRestored(w, b);
    forall r ensures r in w.cleaned ==> r in w.committed ensures r in w.committed ==> r in w.journal || r in w.cleaned {
      CleanedIsCommitted(base, w, r);
    }
    forall r | r in w.journal && !HasReceipt(w.snapshots[b].log, r)
      ensures Terminal(w.journal[r]) || Outstanding(w.journal[r], CoverageOf(w.snapshots[b]), w.runtime.generation + 1)
    {
      RowThereIsOutstanding(base, w, b, r);
    }
  }
}
