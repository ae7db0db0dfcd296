/** Generation recovery and journal cleanup as the operations that update the runtime record
    and the journal. Each is a run of the protocol, so what is proved of all runs holds of
    the states these operations leave behind. */
module RecoveryControl {
  import opened Options
  import opened Postgres
  import opened Journal
  import opened RecoveryProtocol
  import opened RecoveryInvariant
  import opened RecoveryPreservation
  import RecoveryTheorems
  import opened JournalReplay
  import opened ReplayRuns
  import opened AttemptLaws
  import opened JournaledDatabase
  import opened RecoveryRefinement

  // ---- What the invariant says of a restored database

  lemma CoveredByItself(db: Database, i: nat)
    requires OrderedLog(db.log) && i < |db.log| && db.log[i].generation <= db.generation
    ensures PositionOf(db.log[i]).Le(CoverageOf(db))
  {
    assert db.log[i].seqNo <= LastSeq(db.log);
  }

  /** Receipts beyond those of the snapshot are of the target generation. */
  lemma RestoredLog(base: Data, w: World)
    requires Inv(base, w) && Restored(w.runtime)
    ensures w.runtime.snapshot.log <= w.db.log && WellFormed(base, w.runtime.snapshot)
    ensures forall i :: |w.runtime.snapshot.log| <= i < |w.db.log| ==> w.db.log[i].generation == w.runtime.target
    ensures WellFormed(base, w.db) && w.db.generation <= w.runtime.target
  {
  }

  /** Every receipt of a restored database is one the snapshot covers, or of the target
      generation: what the recovery replay needs in order to end. */
  lemma RestoredIsWithin(base: Data, w: World)
    requires Inv(base, w) && Restored(w.runtime)
    ensures LogWithin(w.db.log, CoverageOf(w.runtime.snapshot), w.runtime.target)
    ensures WellFormed(base, w.db) && w.db.generation <= w.runtime.target
  {
    hide Inv, CoverageOf;
    RestoredLog(base, w);
    var kept := w.runtime.snapshot;
    forall i | 0 <= i < |w.db.log|
      ensures w.db.log[i].generation >= w.runtime.target || PositionOf(w.db.log[i]).Le(CoverageOf(kept))
    {
      if i < |kept.log| {
        assert w.db.log[i] == kept.log[i];
        CoveredByItself(kept, i);
      }
    }
  }

  lemma NothingLeft(j: Journal, snapshot: Coverage, target: nat)
    requires OutstandingSet(j, snapshot, target) == {}
    ensures forall r :: r in j ==> !Outstanding(j[r], snapshot, target)
  {
    forall r | r in j ensures !Outstanding(j[r], snapshot, target) {
      assert r !in OutstandingSet(j, snapshot, target);
    }
  }

  lemma WatermarkKept(kept: seq<Receipt>, log: seq<Receipt>)
    requires OrderedLog(log) && kept <= log
    ensures LastSeq(kept) <= LastSeq(log)
  {
    if |kept| > 0 {
      assert kept[|kept| - 1] == log[|kept| - 1];
    }
  }

  /** With nothing outstanding, switching to ready is a step of the protocol. */
  lemma SwitchIsARun(base: Data, w: World, mid: World, s: Store) returns (w': World)
    requires Reachable(STRICT, base, w) && Restored(w.runtime) && RunsOn(ORDERLY, w, mid, s)
    requires s.db.generation == w.runtime.target
    requires OutstandingSet(s.journal, CoverageOf(w.runtime.snapshot), w.runtime.target) == {}
    ensures Reachable(STRICT, base, w') && w' == mid.(runtime := Ready(w.runtime.target))
    ensures w.runtime.snapshot.log <= s.db.log
    ensures forall r :: r in s.journal && !Terminal(s.journal[r]) ==> ExactlyOnce(s.db.log, r)
  {
    OrderlyIsStrict(w, mid);
    RunReachable(STRICT, base, w, mid);
    InvReachable(base, mid);
    NothingLeft(s.journal, CoverageOf(w.runtime.snapshot), w.runtime.target);
    CompletionEnabled(base, mid);
    RunStep(STRICT, mid, Complete);
    w' := Next(mid, Complete);
    RunReachable(STRICT, base, mid, w');
    forall r | r in s.journal && !Terminal(s.journal[r]) ensures ExactlyOnce(s.db.log, r) {
      RecoveryTheorems.RecoveryIsComplete(base, mid, r);
    }
  }

  lemma CompletionEnabled(base: Data, w: World)
    requires Inv(base, w) && Restored(w.runtime) && w.db.generation == w.runtime.target
    requires forall r :: r in w.journal ==> !Outstanding(w.journal[r], CoverageOf(w.runtime.snapshot), w.runtime.target)
    ensures Enabled(STRICT, w, Complete) && w.runtime.snapshot.log <= w.db.log
  {
    WatermarkKept(w.runtime.snapshot.log, w.db.log);
  }

  // ---- Cleanup

  ghost function CleanableSet(j: Journal, snapshot: Coverage): set<RequestId> {
    set r | r in j && Cleanable(j[r], snapshot)
  }

  /** Selecting rows that a verified snapshot covers, and deleting them, is a run; and the
      live database and every snapshot no older than that one hold their requests. */
  lemma CleanupIsARun(base: Data, w: World, b: BackupId, rows: set<RequestId>) returns (w': World)
    requires Reachable(STRICT, base, w) && w.runtime.Ready? && b in w.snapshots
    requires rows <= CleanableSet(w.journal, CoverageOf(w.snapshots[b]))
    ensures Reachable(STRICT, base, w')
    ensures w'.journal == w.journal - rows && w'.db == w.db && w'.snapshots == w.snapshots && w'.runtime == w.runtime
    ensures w'.executors == w.executors
    ensures forall r :: r in rows ==> ExactlyOnce(w.db.log, r)
    ensures forall r, c :: r in rows && c in w.snapshots && w'.floor.Le(CoverageOf(w.snapshots[c])) ==>
              ExactlyOnce(w.snapshots[c].log, r)
  {
    hide Reachable, Execute, Cleanable, ExactlyOnce;
    assert forall r :: r in rows ==> r in w.journal && Cleanable(w.journal[r], CoverageOf(w.snapshots[b]));
    var selected := Next(w, CleanupSelect(b, rows));
    RunStep(STRICT, w, CleanupSelect(b, rows));
    RunReachable(STRICT, base, w, selected);
    RunStep(STRICT, selected, CleanupDelete(rows));
    w' := Next(selected, CleanupDelete(rows));
    RunReachable(STRICT, base, selected, w');
    forall r | r in rows ensures ExactlyOnce(w.db.log, r) {
      SelectedIsHeld(base, selected, r);
    }
    forall r, c | r in rows && c in w.snapshots && w'.floor.Le(CoverageOf(w.snapshots[c]))
      ensures ExactlyOnce(w.snapshots[c].log, r)
    {
      RecoveryTheorems.CleanupIsSafe(base, selected, CleanupDelete(rows), c, r);
    }
  }

  lemma SelectedIsHeld(base: Data, w: World, r: RequestId)
    requires Reachable(STRICT, base, w) && r in w.cleaned
    ensures ExactlyOnce(w.db.log, r)
  {
    InvReachable(base, w);
    DistinctMeansOnce(w.db.log, r);
  }

  /** The order of the cleanup statement: by position, then by creation. */
  predicate AtOrBefore(a: Entry, b: Entry)
    requires a.position.Some? && b.position.Some?
  {
    a.position.value.Le(b.position.value)
    && (a.position == b.position ==> a.createdAt <= b.createdAt)
  }

  lemma {:induction false} LowestExists(j: Journal, pool: set<RequestId>)
    requires pool != {} && forall r :: r in pool ==> r in j && j[r].position.Some?
    ensures exists r :: r in pool && forall q :: q in pool ==> AtOrBefore(j[r], j[q])
    decreases |pool|
  {
    var r :| r in pool;
    var rest := pool - {r};
    if rest == {} {
      assert pool == {r};
    } else {
      LowestExists(j, rest);
      var e :| e in rest && forall q :: q in rest ==> AtOrBefore(j[e], j[q]);
      var first := if AtOrBefore(j[e], j[r]) then e else r;
      assert forall q :: q in pool ==> q == r || q in rest;
      assert forall q :: q in pool ==> AtOrBefore(j[first], j[q]);
    }
  }

  ghost predicate AllPositioned(j: Journal, pool: set<RequestId>) {
    forall r :: r in pool ==> r in j && j[r].position.Some?
  }

  /** No row that is left of the pool comes before one that was taken. */
  ghost predicate BelowRest(j: Journal, rows: set<RequestId>, pool: set<RequestId>)
    requires AllPositioned(j, pool) && rows <= pool
  {
    forall r, q :: r in rows && q in pool && q !in rows ==> AtOrBefore(j[r], j[q])
  }

  lemma NothingBelow(j: Journal, pool: set<RequestId>)
    requires AllPositioned(j, pool)
    ensures BelowRest(j, {}, pool)
  {
  }

  lemma BelowOneMore(j: Journal, rows: set<RequestId>, pool: set<RequestId>, next: RequestId)
    requires AllPositioned(j, pool) && rows <= pool && BelowRest(j, rows, pool) && next in pool - rows
    requires forall q :: q in pool - rows ==> AtOrBefore(j[next], j[q])
    ensures rows + {next} <= pool && |rows + {next}| == |rows| + 1 && pool - (rows + {next}) < pool - rows
    ensures BelowRest(j, rows + {next}, pool)
  {
    assert next in pool - rows && next !in pool - (rows + {next});
  }

  lemma LowestSelected(j: Journal, pool: set<RequestId>, limit: nat, rows: set<RequestId>)
    requires AllPositioned(j, pool) && rows <= pool && BelowRest(j, rows, pool)
    requires |rows| <= limit && (|rows| < limit ==> rows == pool)
    ensures LowestOf(j, pool, limit, rows)
  {
  }

  /** `rows` are the `limit` lowest rows of the pool, or all of them. */
  ghost predicate LowestOf(j: Journal, pool: set<RequestId>, limit: nat, rows: set<RequestId>) {
    && rows <= pool
    && AllPositioned(j, pool)
    && BelowRest(j, rows, pool)
    && |rows| <= limit && (|rows| < limit ==> rows == pool)
  }

  lemma LowestAreCovered(j: Journal, snapshot: Coverage, limit: nat, rows: set<RequestId>)
    requires LowestOf(j, CleanableSet(j, snapshot), limit, rows)
    ensures rows <= CleanableSet(j, snapshot)
  {
  }

  /** Applied at or below this position. */
  predicate CoveredRow(e: Entry, generation: nat, watermark: nat) {
    e.status == Status.Applied && e.position.Some?
    && (e.position.value.generation < generation
        || (e.position.value.generation == generation && e.position.value.watermark <= watermark))
  }

  /** Covered rows, at most `limit` of them, and none is left that comes before one of them by
      generation, receipt number and time of creation. */
  ghost predicate TakesLowest(j: Journal, generation: nat, watermark: nat, limit: nat, rows: set<RequestId>) {
    && (forall r :: r in rows ==> r in j && CoveredRow(j[r], generation, watermark))
    && |rows| <= limit
    && (|rows| < limit ==> forall q :: q in j && CoveredRow(j[q], generation, watermark) ==> q in rows)
    && forall r, q :: r in rows && q in j && CoveredRow(j[q], generation, watermark) && q !in rows ==>
         var a, b := j[r].position.value, j[q].position.value;
         || a.generation < b.generation
         || (a.generation == b.generation && a.watermark < b.watermark)
         || (a == b && j[r].createdAt <= j[q].createdAt)
  }

  lemma LowestAreTaken(j: Journal, snapshot: Coverage, limit: nat, rows: set<RequestId>)
    requires LowestOf(j, CleanableSet(j, snapshot), limit, rows)
    ensures TakesLowest(j, snapshot.generation, snapshot.watermark, limit, rows)
  {
    assert forall q :: q in j && CoveredRow(j[q], snapshot.generation, snapshot.watermark) <==> q in CleanableSet(j, snapshot);
  }

  /** The rows in ascending order of position, as far as the limit goes. */
  method LowestRows(j: Journal, pool: set<RequestId>, limit: nat) returns (rows: set<RequestId>)
    requires AllPositioned(j, pool)
    ensures LowestOf(j, pool, limit, rows)
  {
    hide BelowRest, LowestOf;
    rows := {};
    NothingBelow(j, pool);
    while |rows| < limit && rows != pool
      invariant rows <= pool && |rows| <= limit && BelowRest(j, rows, pool)
      decreases pool - rows
    {
      var rest := pool - rows;
      LowestExists(j, rest);
      var next :| next in rest && forall q :: q in rest ==> AtOrBefore(j[next], j[q]);
      BelowOneMore(j, rows, pool, next);
      rows := rows + {next};
    }
    LowestSelected(j, pool, limit, rows);
  }

  // ---- Beginning a recovery

  lemma SnapshotIsItsBackup(base: Data, w: World)
    requires Reachable(STRICT, base, w) && w.runtime.Recovering?
    ensures w.runtime.backup in w.snapshots && w.snapshots[w.runtime.backup] == w.runtime.snapshot
  {
    InvReachable(base, w);
  }

  lemma BeginReaches(base: Data, w: World, b: BackupId)
    requires Reachable(STRICT, base, w) && w.runtime.Ready? && b in w.snapshots
    ensures RunTo(STRICT.(floored := false), w, Next(w, Begin(b)))
    ensures w.floor.Le(CoverageOf(w.snapshots[b])) ==> Reachable(STRICT, base, Next(w, Begin(b)))
  {
    hide Reachable;
    RunStep(STRICT.(floored := false), w, Begin(b));
    if w.floor.Le(CoverageOf(w.snapshots[b])) {
      RunStep(STRICT, w, Begin(b));
      RunReachable(STRICT, base, w, Next(w, Begin(b)));
    }
  }

  // ---- Completing a recovery, again if need be

  /** `before` was about to be restored, and `w` is what attempts at the recovery made of it. */
  ghost predicate Retries(base: Data, before: World, w: World) {
    AboutToRestore(base, before) && RunTo(ORDERLY, Next(before, Restore), w)
  }

  lemma RestoredPromotes(base: Data, w: World)
    requires Inv(base, w) && Restored(w.runtime)
    ensures w.db.generation == w.runtime.target
            || (w.db.generation == w.runtime.snapshot.generation
                && CoverageOf(w.runtime.snapshot).watermark <= LastSeq(w.db.log))
  {
  }

  lemma RetriesInLine(base: Data, before: World, w: World)
    requires Restored(w.runtime) && w.executors == map[]
    ensures Retries(base, before, w) && SnapshotFirst(before) && !Stuck(w.journal) ==>
              InLine(base, Store(w.journal, w.db), before.db, CoverageOf(w.runtime.snapshot), w.runtime.target)
  {
    hide RunTo, InLine, CoverageOf, Inv, Quiet, LaterInOrder, Reachable;
    if Retries(base, before, w) && SnapshotFirst(before) && !Stuck(w.journal) {
      OnTheWayReachable(base, before, w);
    }
  }

  lemma RetriesOn(base: Data, before: World, w: World, w': World)
    requires RunTo(ORDERLY, w, w')
    ensures Retries(base, before, w) ==> Retries(base, before, w')
  {
    hide AboutToRestore, RunTo;
    if Retries(base, before, w) {
      RunThen(ORDERLY, Next(before, Restore), w, w');
    }
  }

  lemma RetriesEnd(base: Data, before: World, w: World)
    requires Reachable(STRICT, base, w) && Restored(w.runtime) && w.db.generation == w.runtime.target
    requires OutstandingSet(w.journal, CoverageOf(w.runtime.snapshot), w.runtime.target) == {}
    ensures Retries(base, before, w) ==>
              && (SameRequests(w.db.log, before.db.log) <==> SnapshotFirst(before))
              && (SnapshotFirst(before) ==> w.db.data == before.db.data)
  {
    hide AboutToRestore, RunTo, Reachable, SameRequests, SnapshotFirst, Inv;
    InvReachable(base, w);
    NothingLeft(w.journal, CoverageOf(w.runtime.snapshot), w.runtime.target);
    CompletionEnabled(base, w);
    if Retries(base, before, w) {
      RecoveryRestoresTheLostDatabase(base, before, w);
    }
  }

  lemma NothingAttempted(j: Journal, trace: seq<Store>, weather: Weather)
    ensures OnlyViolated(j, j, trace, [], weather) && ErrorsBlock(j, trace, [], weather, true)
  {
  }

  lemma NoErrorBlocks(j: Journal, trace: seq<Store>, rows: seq<RequestId>, weather: Weather)
    requires ErrorsBlock(j, trace, rows, weather, false)
    ensures ErrorsBlock(j, trace, rows, weather, true)
  {
  }

  // ---- The operations

  class RecoveryControl {
    const database: JournaledPostgres
    var runtime: Runtime
    var backups: map<BackupId, Database>

    constructor (d: JournaledPostgres, rt: Runtime, complete: map<BackupId, Database>)
      ensures database == d && runtime == rt && backups == complete
    {
      database, runtime, backups := d, rt, complete;
    }

    /** A world of the protocol with this journal, database, runtime record and snapshots. */
    ghost predicate Shows(w: World)
      reads this, database
    {
      w.journal == database.journal && w.db == database.db && w.runtime == runtime && w.snapshots == backups
    }

    method SelectLowest(snapshot: Coverage, limit: nat) returns (rows: set<RequestId>)
      ensures LowestOf(database.journal, CleanableSet(database.journal, snapshot), limit, rows)
    {
      var j := database.journal;
      var pool := set r | r in j && Cleanable(j[r], snapshot);
      assert pool == CleanableSet(j, snapshot) && AllPositioned(j, pool);
      rows := LowestRows(j, pool, limit);
    }

    /** Deletes the lowest rows that the verified snapshot covers. Nothing that is deleted is
        needed again: the live database holds it, and so does every backup no older than
        the newest snapshot a cleanup has used. */
    method CleanupAppliedRecoveryJournal(verified: Option<BackupId>, limit: nat, ghost base: Data, ghost w: World)
      returns (deleted: nat, ghost rows: set<RequestId>, ghost w': World)
      requires Reachable(STRICT, base, w) && Shows(w) && runtime.Ready?
      requires verified.Some? ==> verified.value in backups
      modifies database`journal
      ensures database.journal == old(database.journal) - rows && deleted == |rows|
      ensures verified.None? ==> rows == {}
      ensures verified.Some? ==>
                var covered := CoverageOf(backups[verified.value]);
                LowestOf(old(database.journal), CleanableSet(old(database.journal), covered), limit, rows)
      ensures verified.Some? ==>
                var covered := CoverageOf(backups[verified.value]);
                TakesLowest(old(database.journal), covered.generation, covered.watermark, limit, rows)
      ensures forall r :: r in rows ==> ExactlyOnce(database.db.log, r)
      ensures forall r, c :: r in rows && c in backups && w'.floor.Le(CoverageOf(backups[c])) ==>
                ExactlyOnce(backups[c].log, r)
      ensures Reachable(STRICT, base, w') && Shows(w')
    {
      hide Reachable, ExactlyOnce, LowestOf, TakesLowest;
      if verified.None? {
        rows, w' := {}, w;
        return 0, rows, w';
      }
      var selected := SelectLowest(CoverageOf(backups[verified.value]), limit);
      rows := selected;
      LowestAreCovered(database.journal, CoverageOf(backups[verified.value]), limit, rows);
      LowestAreTaken(database.journal, CoverageOf(backups[verified.value]), limit, rows);
      w' := CleanupIsARun(base, w, verified.value, rows);
      database.journal := database.journal - selected;
      deleted := |selected|;
    }

    /** A recovery is begun once: asking again for the same backup keeps its target, asking
        for another is refused. Any complete backup is accepted; that it is no older than one
        a cleanup has used is up to the caller. */
    method BeginRecovery(backup: BackupId, requested: Option<Coverage>, ghost base: Data, ghost w: World)
      returns (ok: bool, ghost w': World)
      requires Reachable(STRICT, base, w) && Shows(w)
      modifies this`runtime
      ensures ok <==>
              && backup in backups && (requested.None? || requested.value == CoverageOf(backups[backup]))
              && (old(runtime).Recovering? ==> backup == old(runtime).backup)
      ensures runtime == if ok && old(runtime).Ready?
                         then Recovering(old(runtime).generation, old(runtime).generation + 1, backup, backups[backup], false)
                         else old(runtime)
      ensures RunTo(STRICT.(floored := false), w, w') && Shows(w')
      ensures ok && old(runtime).Ready? ==> (w.floor.Le(CoverageOf(backups[backup])) ==> Reachable(STRICT, base, w'))
      ensures runtime == old(runtime) ==> w' == w
    {
      w' := w;
      RunNowhere(STRICT.(floored := false), w);
      if backup !in backups {
        return false, w';
      }
      var covered := CoverageOf(backups[backup]);
      if requested.Some? && requested.value != covered {
        return false, w';
      }
      if runtime.Recovering? {
        SnapshotIsItsBackup(base, w);
        hide Reachable;
        return runtime.backup == backup && CoverageOf(runtime.snapshot) == covered, w';
      }
      BeginReaches(base, w, backup);
      hide Reachable, RunTo;
      w' := Next(w, Begin(backup));
      runtime := Recovering(runtime.generation, runtime.generation + 1, backup, backups[backup], false);
      ok := true;
    }

    /** Replays what the restore lost and switches to ready. It switches exactly when the
        request is for the recovery in progress and the replay leaves the database promoted
        and no row outstanding; the watermark check never fails. Then every row that is not
        refused for good has exactly one receipt.
        `before` is the world that the restore took away, `w` what any attempts at the
        recovery, failures and crashes have made of it since. A call that fails can be made
        again; one that succeeds ends with the lost requests in their order, and then with
        the lost rows, if and only if the snapshot held the first of them. */
    method CompleteRecovery(asked: Option<BackupId>, requested: Option<Coverage>, limit: nat, weather: Weather,
                            ghost base: Data, ghost before: World, ghost w: World)
      returns (ok: bool, ghost rows: seq<RequestId>, ghost trace: seq<Store>, ghost w': World)
      requires limit >= 1
      requires Reachable(STRICT, base, w) && Shows(w) && w.executors == map[]
      requires runtime.Recovering? ==> runtime.restored
      modifies this`runtime, database
      ensures ok <==>
              && old(runtime).Recovering? && (asked.None? || asked.value == old(runtime).backup)
              && (requested.None? || requested.value == CoverageOf(old(runtime).snapshot))
              && database.db.generation == old(runtime).target
              && OutstandingSet(database.journal, CoverageOf(old(runtime).snapshot), old(runtime).target) == {}
      ensures runtime == if ok then Ready(old(runtime).target) else old(runtime)
      ensures ok ==>
                && (forall r :: r in database.journal && !Terminal(database.journal[r]) ==> ExactlyOnce(database.db.log, r))
                && old(runtime).snapshot.log <= database.db.log
      ensures ok ==> Leads(Store(RequeueAmbiguousFailed(old(database.journal)), old(database.db).(generation := old(runtime).target)),
                           trace, rows, weather, false, Store(database.journal, database.db))
      ensures OnlyViolated(old(database.journal), database.journal, trace, rows, weather)
      ensures ErrorsBlock(database.journal, trace, rows, weather, !ok)
      ensures Reachable(STRICT, base, w') && Shows(w')
      ensures !ok && Retries(base, before, w) ==> Retries(base, before, w') && w'.executors == map[]
      ensures ok && Retries(base, before, w) ==>
                && (SameRequests(database.db.log, before.db.log) <==> SnapshotFirst(before))
                && (SnapshotFirst(before) ==> database.db.data == before.db.data)
      ensures Retries(base, before, w) && SnapshotFirst(before) && !old(Stuck(database.journal))
              && old(runtime).Recovering? && (asked.None? || asked.value == old(runtime).backup)
              && (requested.None? || requested.value == CoverageOf(old(runtime).snapshot))
              && (forall n :: weather.fate(n).Delivered?)
              ==> ok
    {
      hide Reachable, ExactlyOnce, WellFormed, LogWithin, SameRequests, OutstandingSet, InLine, Stuck, AboutToRestore, RunTo;
      hide SnapshotFirst, Inv, Leads, OnlyViolated, ErrorsBlock, RequeueAmbiguousFailed;
      w' := w;
      rows, trace := [], [];
      NothingAttempted(database.journal, trace, weather);
      if !runtime.Recovering? {
        return false, rows, trace, w';
      }
      var snapshot := CoverageOf(runtime.snapshot);
      if (asked.Some? && asked.value != runtime.backup) || (requested.Some? && requested.value != snapshot) {
        return false, rows, trace, w';
      }
      InvReachable(base, w);
      RestoredIsWithin(base, w);
      RestoredPromotes(base, w);
      RetriesInLine(base, before, w);
      var target := runtime.target;
      var result;
      result, rows, trace, w' := database.CompleteRecoveryReplay(snapshot, target, limit, weather, base, before.db, ORDERLY, w);
      OrderlyIsStrict(w, w');
      RunReachable(STRICT, base, w, w');
      RetriesOn(base, before, w, w');
      if result.Threw? {
        return false, rows, trace, w';
      }
      var outstanding := database.CountRecoveryReplayPending(snapshot, target);
      if outstanding > 0 {
        NoErrorBlocks(database.journal, trace, rows, weather);
        return false, rows, trace, w';
      }
      RetriesEnd(base, before, w');
      w' := SwitchIsARun(base, w, w', Store(database.journal, database.db));
      runtime := Ready(target);
      ok := true;
    }
  }
}
