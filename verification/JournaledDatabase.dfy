/** The journaled database adapter: direct execution and recovery replay as the methods that
    update the journal and the database row by row. */
module JournaledDatabase {
  import opened Options
  import opened Postgres
  import opened Journal
  import opened RecoveryProtocol
  import opened JournalReplay
  import opened ReplayRuns
  import opened AttemptLaws

  datatype ReplayResult =
    | Completed(generation: nat, receiptSeq: nat, replayed: nat, pending: nat)
    | Threw

  /** The world that a method is called in: no executor at work, and this journal and database. */
  ghost predicate IdleWith(w: World, s: Store) {
    w.executors == map[] && Store(w.journal, w.db) == s
  }

  lemma RequeueStep(rules: Rules, w: World)
    ensures RunTo(rules, w, w.(journal := RequeueAmbiguousFailed(w.journal)))
  {
    hide RunTo;
    RunStep(rules, w, Requeue);
  }

  lemma PromoteStep(rules: Rules, w: World)
    requires w.runtime.Recovering? && w.runtime.restored
    requires w.db.generation == w.runtime.target
             || (w.db.generation == w.runtime.snapshot.generation
                 && LastSeq(w.runtime.snapshot.log) <= LastSeq(w.db.log))
    ensures RunTo(rules, w, w.(db := w.db.(generation := w.runtime.target)))
  {
    hide RunTo;
    RunStep(rules, w, Promote);
  }

  /** A run from one world leads to this one, with this journal and database. */
  ghost predicate RunsOn(rules: Rules, w: World, w': World, s: Store) {
    RunTo(rules, w, w') && StillIdle(w, w') && IdleWith(w', s)
  }

  lemma PromotedReplays(base: Data, j: Journal, db: Database, lost: Database, snapshot: Coverage, target: nat, agrees: bool)
    requires WellFormed(base, db) && db.generation <= target && LogWithin(db.log, snapshot, target)
    requires agrees ==> InLine(base, Store(j, db), lost, snapshot, target)
    ensures var s := Store(j, db.(generation := target));
            && Replaying(base, s, db.log, snapshot, target)
            && (agrees ==> InLine(base, s, lost, snapshot, target))
  {
    hide RowsInLine, SameRequests, SamePayloads;
    PromotionSound(base, db, target);
  }

  lemma ReplayingMeans(base: Data, s: Store, start: seq<Receipt>, snapshot: Coverage, target: nat)
    requires Replaying(base, s, start, snapshot, target)
    ensures WellFormed(base, s.db) && s.db.generation == target && start <= s.db.log
  {
  }

  /** The recovery that is replayed: this snapshot restored, this target. */
  ghost predicate RestoredFor(w: World, snapshot: Coverage, target: nat) {
    w.runtime.Recovering? && w.runtime.restored && w.runtime.target == target && CoverageOf(w.runtime.snapshot) == snapshot
  }

  /** Pending rows, and applied ones whose receipt is unknown, or of an older generation and
      above what the snapshot covers. */
  predicate ToBeReplayed(e: Entry, snapshot: Coverage, target: nat) {
    match e.status
    case Pending => true
    case Failed => false
    case Applied =>
      match e.position
      case None => true
      case Some(at) =>
        at.generation < target
        && (at.generation > snapshot.generation || (at.generation == snapshot.generation && at.watermark > snapshot.watermark))
  }

  lemma EligibleMeans(j: Journal, snapshot: Coverage, target: nat)
    ensures EligibleSet(j, snapshot, target) == set r | r in j && ToBeReplayed(j[r], snapshot, target)
  {
    assert forall e: Entry :: ReplayEligible(e, snapshot, target) <==> ToBeReplayed(e, snapshot, target);
  }

  lemma CandidatesMean(j: Journal)
    ensures CandidateSet(j) == set r | r in j && (j[r].status == Pending || (j[r].status == Status.Applied && j[r].position.None?))
  {
  }

  lemma RequeueMeans(j: Journal)
    ensures forall r :: r in j ==>
              r in RequeueAmbiguousFailed(j)
              && RequeueAmbiguousFailed(j)[r]
                 == if j[r].status == Failed && j[r].disposition == Blocking && j[r].looksAmbiguous then j[r].(status := Pending) else j[r]
  {
  }

  lemma NothingRequeueable(j: Journal)
    ensures NothingToRequeue(RequeueAmbiguousFailed(j))
  {
  }

  /** Requeueing is a run. */
  lemma RequeueIsARun(rules: Rules, w: World, j: Journal, db: Database) returns (w': World)
    requires IdleWith(w, Store(j, db))
    ensures w' == w.(journal := RequeueAmbiguousFailed(j)) && RunsOn(rules, w, w', Store(RequeueAmbiguousFailed(j), db))
  {
    hide RunTo;
    w' := w.(journal := RequeueAmbiguousFailed(j));
    RequeueStep(rules, w);
  }

  /** Requeueing and promoting is a run. */
  lemma StartIsARun(rules: Rules, w: World, mid: World, snapshot: Coverage, target: nat) returns (w': World)
    requires w.executors == map[] && RestoredFor(w, snapshot, target)
    requires RunsOn(rules, w, mid, Store(mid.journal, w.db)) && mid == w.(journal := mid.journal)
    requires Promotes(w.db, snapshot, target)
    ensures RunsOn(rules, w, w', Store(mid.journal, w.db.(generation := target)))
  {
    hide RunTo;
    PromoteStep(rules, mid);
    w' := mid.(db := mid.db.(generation := target));
    RunThen(rules, w, mid, w');
  }

  /** Replaying one more batch is a run. */
  lemma BatchIsARun(rules: Rules, base: Data, w: World, mid: World, s: Store, snapshot: Coverage, target: nat,
                    batch: seq<RequestId>, weather: Weather, n: nat)
    returns (w': World)
    requires RunsOn(rules, w, mid, s) && RestoredFor(w, snapshot, target) && Replaying(base, s, s.db.log, snapshot, target)
    requires Distinct(batch) && forall i :: 0 <= i < |batch| ==> batch[i] in EligibleSet(s.journal, snapshot, target)
    requires InOrder(s.journal, EligibleSet(s.journal, snapshot, target), batch) && NothingToRequeue(s.journal)
    ensures RunsOn(rules, w, w', Replayed(s, batch, target, weather, n).store)
  {
    hide RunTo, Replayed, InOrder, WellFormed, LogWithin;
    w' := ReplayedIsARun(rules, base, mid, batch, weather, n);
    RunThen(rules, w, mid, w');
  }

  ghost predicate NothingToRequeue(j: Journal) {
    forall q :: q in j ==> !Requeueable(j[q])
  }

  /** A batch without an error leaves nothing to requeue. */
  lemma {:induction false} BatchLeavesNothingToRequeue(s: Store, batch: seq<RequestId>, target: nat, weather: Weather, n: nat)
    requires NothingToRequeue(s.journal) && forall k :: 0 <= k < |batch| ==> batch[k] in s.journal
    ensures var res := Replayed(s, batch, target, weather, n); !res.threw ==> NothingToRequeue(res.store.journal)
    decreases |batch|
  {
    hide Settled;
    if |batch| > 0 {
      var r := batch[0];
      var (after, phase) := Settled(s, r, s.journal[r].payload, Some(target), weather, n);
      SettledOneRow(s, r, s.journal[r].payload, Some(target), weather, n);
      SettledForGood(s, r, target, weather, n);
      if phase.Done? || phase.Refused? {
        BatchLeavesNothingToRequeue(after, batch[1..], target, weather, n + 1);
      }
    }
  }

  /** A stuck row is not eligible: no batch touches it. */
  lemma BatchLeavesStuck(s: Store, after: Journal, batch: seq<RequestId>, snapshot: Coverage, target: nat)
    requires forall k :: 0 <= k < |batch| ==> batch[k] in EligibleSet(s.journal, snapshot, target)
    requires after.Keys == s.journal.Keys && forall q :: q in s.journal && q !in batch ==> after[q] == s.journal[q]
    ensures Stuck(s.journal) ==> Stuck(after)
  {
    if Stuck(s.journal) {
      var r :| r in s.journal && LeftForGood(s.journal[r]);
      assert LeftForGood(s.journal[r]);
      assert r !in EligibleSet(s.journal, snapshot, target);
      assert r !in batch;
      assert r in after && after[r] == s.journal[r];
    }
  }

  lemma BatchMembers(j: Journal, pool: set<RequestId>, limit: nat, batch: seq<RequestId>)
    requires IsBatch(j, pool, limit, batch) && limit >= 1
    ensures Distinct(batch) && forall i :: 0 <= i < |batch| ==> batch[i] in pool
    ensures |batch| == 0 ==> pool == {}
  {
  }

  lemma UnblockedIsNotStuck(j: Journal)
    ensures Unblocked(j) ==> !Stuck(j)
  {
  }

  lemma RequeueKeys(j: Journal)
    ensures RequeueAmbiguousFailed(j).Keys == j.Keys
  {
  }

  /** Requeueing and then sweeping a batch of candidates is a run. */
  lemma SweepIsARun(rules: Rules, w: World, requeued: Journal, batch: seq<RequestId>, weather: Weather) returns (w': World)
    requires w.executors == map[] && (rules.gated ==> !Unpromoted(w)) && !rules.ordered && requeued == RequeueAmbiguousFailed(w.journal)
    requires Distinct(batch) && forall i :: 0 <= i < |batch| ==> batch[i] in CandidateSet(requeued)
    ensures RunTo(rules, w, w') && StillIdle(w, w')
    ensures Store(w'.journal, w'.db) == Swept(Store(requeued, w.db), batch, weather, 0).store
  {
    hide RunTo, RequeueAmbiguousFailed, Swept;
    var mid := w.(journal := requeued);
    RequeueStep(rules, w);
    w' := SweptIsARun(rules, mid, batch, weather, 0);
    RunThen(rules, w, mid, w');
  }

  lemma RowOfNewWrite(db: Database, r: RequestId, p: Payload, fate: Fate, ambiguous: bool)
    requires !HasReceipt(db.log, r)
    ensures forall e: Entry :: RowFollows(db, r, p, fate, ambiguous, e) ==>
              && (Terminal(e) <==> fate.Delivered? && p.effect(db.data).Violation?)
              && (fate.Delivered? && p.effect(db.data).OtherError? ==> e.status == Failed && e.disposition == Blocking)
  {
    MeetsReceipt(db, r);
  }

  /** Between two batches: what has been replayed, and what still holds. */
  ghost predicate Midway(base: Data, start: Store, s: Store, snapshot: Coverage, target: nat, trace: seq<Store>,
                         rows: seq<RequestId>, weather: Weather, replayed: nat, lost: Database, agrees: bool) {
    && Replaying(base, s, start.db.log, snapshot, target) && NothingToRequeue(s.journal)
    && Leads(start, trace, rows, weather, false, s)
    && Counted(EligibleSet(start.journal, snapshot, target), s.journal, snapshot, target, replayed)
    && (Stuck(start.journal) ==> Stuck(s.journal))
    && (agrees ==> InLine(base, s, lost, snapshot, target) && Unblocked(s.journal))
  }

  lemma MidwayFirst(base: Data, start: Store, snapshot: Coverage, target: nat, weather: Weather, lost: Database, agrees: bool)
    requires Replaying(base, start, start.db.log, snapshot, target) && NothingToRequeue(start.journal)
    requires agrees ==> InLine(base, start, lost, snapshot, target) && Unblocked(start.journal)
    ensures Midway(base, start, start, snapshot, target, [start], [], weather, 0, lost, agrees)
  {
    hide Replaying, NothingToRequeue, Leads, Counted, Stuck, InLine, Unblocked;
    LeadsNowhere(start, weather);
    NothingCounted(start.journal, snapshot, target);
  }

  lemma NextBatchIsARun(rules: Rules, base: Data, start: Store, w: World, mid: World, s: Store, snapshot: Coverage, target: nat,
                        trace: seq<Store>, rows: seq<RequestId>, weather: Weather, replayed: nat, lost: Database, agrees: bool,
                        limit: nat, batch: seq<RequestId>)
    returns (w': World)
    requires Midway(base, start, s, snapshot, target, trace, rows, weather, replayed, lost, agrees)
    requires IsBatch(s.journal, EligibleSet(s.journal, snapshot, target), limit, batch) && limit >= 1
    requires RunsOn(rules, w, mid, s) && RestoredFor(w, snapshot, target)
    ensures RunsOn(rules, w, w', Replayed(s, batch, target, weather, |rows|).store)
  {
    hide RunsOn, RestoredFor, Replayed, Leads, Counted, InLine, IsBatch, WellFormed, LogWithin;
    BatchMembers(s.journal, EligibleSet(s.journal, snapshot, target), limit, batch);
    BatchIsInOrder(s.journal, EligibleSet(s.journal, snapshot, target), limit, batch);
    w' := BatchIsARun(rules, base, w, mid, s, snapshot, target, batch, weather, |rows|);
  }

  /** One more batch: the replay goes on, with fewer rows, or has ended with an error. */
  lemma BatchGoesOn(base: Data, start: Store, s: Store, snapshot: Coverage, target: nat, trace: seq<Store>, rows: seq<RequestId>,
                    weather: Weather, replayed: nat, lost: Database, agrees: bool, limit: nat, batch: seq<RequestId>)
    returns (trace': seq<Store>, rows': seq<RequestId>)
    requires Midway(base, start, s, snapshot, target, trace, rows, weather, replayed, lost, agrees)
    requires IsBatch(s.journal, EligibleSet(s.journal, snapshot, target), limit, batch) && limit >= 1 && |batch| > 0
    ensures var res := Replayed(s, batch, target, weather, |rows|);
            && (!res.threw ==>
                  && Midway(base, start, res.store, snapshot, target, trace', rows', weather, replayed + res.replayed, lost, agrees)
                  && |rows'| == |rows| + |batch|
                  && |EligibleSet(res.store.journal, snapshot, target)| < |EligibleSet(s.journal, snapshot, target)|)
            && Replaying(base, res.store, start.db.log, snapshot, target)
            && Leads(start, trace', rows', weather, res.threw, res.store)
            && (Stuck(start.journal) ==> Stuck(res.store.journal))
            && (res.threw ==> OutstandingSet(res.store.journal, snapshot, target) != {})
            && (agrees ==>
                  && InLine(base, res.store, lost, snapshot, target)
                  && ((forall n :: Recognised(weather.fate(n))) ==> Unblocked(res.store.journal))
                  && ((forall n :: weather.fate(n).Delivered?) ==> !res.threw))
  {
    hide Settled, Replayed, InLine, WellFormed, LogWithin, OutstandingSet, Stuck, Unblocked, NothingToRequeue, InOrder, IsBatch;
    hide Leads, Counted;
    var eligible, n := EligibleSet(s.journal, snapshot, target), |rows|;
    BatchMembers(s.journal, eligible, limit, batch);
    BatchIsInOrder(s.journal, eligible, limit, batch);
    BatchOutcome(base, s, batch, start.db.log, snapshot, target, weather, n, lost, agrees);
    BatchLeavesNothingToRequeue(s, batch, target, weather, n);
    var res := Replayed(s, batch, target, weather, n);
    BatchLeavesStuck(s, res.store.journal, batch, snapshot, target);
    CountedMore(base, EligibleSet(start.journal, snapshot, target), s, batch, start.db.log, snapshot, target, weather, n, replayed);
    trace', rows' := LeadsOn(start, trace, rows, weather, s, batch, target);
    if !res.threw {
      SmallerSet(EligibleSet(res.store.journal, snapshot, target), eligible, batch[0]);
    }
  }

  lemma MidwayEnds(base: Data, start: Store, s: Store, snapshot: Coverage, target: nat, trace: seq<Store>, rows: seq<RequestId>,
                   weather: Weather, replayed: nat, lost: Database, agrees: bool)
    requires Midway(base, start, s, snapshot, target, trace, rows, weather, replayed, lost, agrees)
    requires EligibleSet(s.journal, snapshot, target) == {}
    ensures Replaying(base, s, start.db.log, snapshot, target)
    ensures Leads(start, trace, rows, weather, false, s) && (Stuck(start.journal) ==> Stuck(s.journal))
    ensures replayed == |AppliedOf(s.journal, EligibleSet(start.journal, snapshot, target))|
    ensures agrees ==>
              && InLine(base, s, lost, snapshot, target) && Unblocked(s.journal)
              && s.db.data == lost.data && SameRequests(s.db.log, lost.log) && OutstandingSet(s.journal, snapshot, target) == {}
  {
    hide InLine, WellFormed, LogWithin, OutstandingSet, Stuck, Unblocked, NothingToRequeue, Leads, Counted, SameRequests, AppliedOf;
    AllCounted(EligibleSet(start.journal, snapshot, target), s.journal, snapshot, target, replayed);
    if agrees {
      EligibleIsOutstanding(s.journal, snapshot, target);
      AllRepeated(base, s, lost, snapshot, target);
    }
  }

  /** The promotion goes through: it has been made, or this is the snapshot's database. */
  predicate Promotes(db: Database, snapshot: Coverage, target: nat) {
    db.generation == target || (db.generation == snapshot.generation && snapshot.watermark <= LastSeq(db.log))
  }

  class JournaledPostgres {
    var journal: Journal
    var db: Database

    constructor (j: Journal, d: Database)
      ensures journal == j && db == d
    {
      journal, db := j, d;
    }

    /** One attempt: the transaction, or what went wrong on the way to it, and the update of
        the journal row by what the executor learned. */
    method Settle(r: RequestId, p: Payload, forced: Option<nat>, weather: Weather, n: nat) returns (phase: Phase)
      modifies this
      ensures (Store(journal, db), phase) == Settled(old(Store(journal, db)), r, p, forced, weather, n)
    {
      var seqNo := LastSeq(db.log) + 1 + weather.burnt(n);
      match weather.fate(n) {
        case Delivered =>
          var res := ApplyWithReceipt(db, r, p, forced, seqNo);
          db := res.db;
          phase := PhaseAfter(res.outcome, Heard);
        case ReplyLost =>
          db := ApplyWithReceipt(db, r, p, forced, seqNo).db;
          phase := Unknown;
        case ReplyMisread =>
          db := ApplyWithReceipt(db, r, p, forced, seqNo).db;
          phase := Broken;
        case NotReached =>
          phase := Unknown;
        case BadPayload =>
          phase := Broken;
      }
      journal := MarkByPhase(journal, Executor(r, p, forced, false, phase), weather.looksAmbiguous(n));
    }

    /** A new write: recorded first, then applied, then marked. The answer is success
        exactly when the receipt is in the table, even if the final mark is lost. */
    method ExecuteMutatingOperations(r: RequestId, p: Payload, now: nat, markLost: bool, weather: Weather,
                                     ghost base: Data, ghost rules: Rules, ghost w: World)
      returns (acknowledged: bool, ghost w': World)
      requires WellFormed(base, db) && r !in journal && !HasReceipt(db.log, r)
      modifies this
      ensures WellFormed(base, db)
      ensures r in journal && OneRowChanged(old(journal)[r := PendingEntry(p, now)], journal, r)
      ensures acknowledged ==> ExactlyOnce(db.log, r) && |db.log| > 0 && db.log[..|db.log| - 1] == old(db.log)
      ensures acknowledged && !markLost ==>
                journal[r] == Entry(p, now, Status.Applied, Blocking, false, Some(CoverageOf(db)))
      ensures !acknowledged && Terminal(journal[r]) ==> db == old(db)
      ensures DatabaseFollows(old(db), r, p, weather.fate(0), db)
      ensures if markLost then journal[r] == Entry(p, now, Status.Pending, Blocking, false, None)
              else RowFollows(old(db), r, p, weather.fate(0), weather.looksAmbiguous(0), journal[r])
      ensures journal[r].status == Failed && journal[r].disposition == TerminalRejected <==>
                !markLost && weather.fate(0).Delivered? && p.effect(old(db).data).Violation?
      ensures !markLost && weather.fate(0).Delivered? && p.effect(old(db).data).OtherError? ==>
                journal[r].status == Failed && journal[r].disposition == Blocking
      ensures weather.fate(0).Delivered? ==> (acknowledged <==> p.effect(old(db).data).Commit?)
      ensures IdleWith(w, old(Store(journal, db))) && r !in w.issued && (rules.gated ==> !Unpromoted(w)) && !rules.ordered ==>
                && RunsOn(rules, w, w', Store(journal, db))
                && w'.acked == if acknowledged then w.acked + {r} else w.acked
    {
      hide Unpromoted, RunTo, Settled, WellFormed, HasReceipt, ExactlyOnce, DatabaseFollows, RowFollows;
      w' := w;
      if IdleWith(w, Store(journal, db)) && r !in w.issued && (rules.gated ==> !Unpromoted(w)) && !rules.ordered {
        w' := SubmissionIsARun(rules, w, r, p, now, markLost, weather);
      }
      journal := journal[r := PendingEntry(p, now)];
      var recorded := journal;
      DirectExecution(base, Store(journal, db), r, p, now, weather);
      SettledFollows(Store(journal, db), r, None, weather, 0);
      RowOfNewWrite(db, r, p, weather.fate(0), weather.looksAmbiguous(0));
      var phase := Settle(r, p, None, weather, 0);
      acknowledged := phase.Done?;
      if markLost {
        journal := recorded;
      }
    }

    /** The rows of a pool in ascending order of creation, at most `limit` of them. */
    method SelectEarliest(pool: set<RequestId>, limit: nat) returns (batch: seq<RequestId>)
      requires pool <= journal.Keys
      ensures IsBatch(journal, pool, limit, batch)
    {
      batch := [];
      var rest := pool;
      while |batch| < limit && rest != {}
        invariant rest <= pool
        invariant forall r :: r in pool <==> r in rest || r in batch
        invariant forall i :: 0 <= i < |batch| ==> batch[i] in pool && batch[i] !in rest
        invariant forall i, k :: 0 <= i < k < |batch| ==>
                    batch[i] != batch[k] && journal[batch[i]].createdAt <= journal[batch[k]].createdAt
        invariant forall i, r :: 0 <= i < |batch| && r in rest ==> journal[batch[i]].createdAt <= journal[r].createdAt
        invariant |batch| <= limit
        decreases rest
      {
        EarliestExists(journal, rest);
        var next :| next in rest && forall q :: q in rest ==> journal[next].createdAt <= journal[q].createdAt;
        batch := batch + [next];
        rest := rest - {next};
      }
    }

    method LoadRecoveryReplayBatch(snapshot: Coverage, target: nat, limit: nat) returns (batch: seq<RequestId>)
      ensures IsBatch(journal, EligibleSet(journal, snapshot, target), limit, batch)
      ensures IsBatch(journal, (set r | r in journal && ToBeReplayed(journal[r], snapshot, target)), limit, batch)
    {
      EligibleMeans(journal, snapshot, target);
      var pool := set r | r in journal && ReplayEligible(journal[r], snapshot, target);
      batch := SelectEarliest(pool, limit);
    }

    method LoadRecoveryJournalCandidates(limit: nat) returns (batch: seq<RequestId>)
      ensures IsBatch(journal, CandidateSet(journal), limit, batch)
      ensures IsBatch(journal,
                      (set r | r in journal && (journal[r].status == Pending
                                                || (journal[r].status == Status.Applied && journal[r].position.None?))),
                      limit, batch)
    {
      CandidatesMean(journal);
      var pool := set r | r in journal && ReplayCandidate(journal[r]);
      batch := SelectEarliest(pool, limit);
    }

    /** One batch of the background replay: an error ends only its own attempt. */
    method SweepBatch(batch: seq<RequestId>, weather: Weather) returns (replayed: nat)
      requires forall k :: 0 <= k < |batch| ==> batch[k] in journal
      modifies this
      ensures BatchResult(Store(journal, db), false, replayed) == Swept(old(Store(journal, db)), batch, weather, 0)
    {
      hide Settled;
      replayed := 0;
      var i := 0;
      while i < |batch|
        invariant 0 <= i <= |batch|
        invariant forall k :: 0 <= k < |batch| ==> batch[k] in journal
        invariant old(Swept(Store(journal, db), batch, weather, 0))
                  == Swept(Store(journal, db), batch[i..], weather, i).More(replayed)
      {
        var r := batch[i];
        SweptStep(Store(journal, db), batch, i, weather, i);
        KeysStay(Store(journal, db), r, journal[r].payload, None, weather, i);
        var phase := Settle(r, journal[r].payload, None, weather, i);
        if phase.Done? {
          replayed := replayed + 1;
        }
        i := i + 1;
      }
    }

    /** One pass of the background replay: every row of the batch is attempted once, whatever
        becomes of the others. */
    method ReplayRecoveryJournal(limit: nat, weather: Weather, ghost base: Data, ghost rules: Rules, ghost w: World)
      returns (replayed: nat, ghost batch: seq<RequestId>, ghost trace: seq<Store>, ghost w': World)
      requires WellFormed(base, db)
      modifies this
      ensures WellFormed(base, db) && old(db.log) <= db.log
      ensures IsBatch(RequeueAmbiguousFailed(old(journal)), CandidateSet(RequeueAmbiguousFailed(old(journal))), limit, batch)
      ensures journal.Keys == old(journal).Keys
      ensures forall r :: r in journal && r !in batch ==>
                var e := old(journal)[r];
                journal[r] == if e.status == Failed && e.disposition == Blocking && e.looksAmbiguous then e.(status := Pending) else e
      ensures forall i :: 0 <= i < |batch| ==> RowSettled(Store(journal, db), batch[i], weather.fate(i))
      ensures replayed == AppliedCount(journal, batch)
      ensures Trace(trace, batch, weather, 0) && trace[|batch|] == Store(journal, db)
      ensures trace[0] == Store(RequeueAmbiguousFailed(old(journal)), old(db))
      ensures RowsFollow(old(journal), journal, trace, batch, weather)
      ensures OnlyViolated(old(journal), journal, trace, batch, weather)
      ensures IdleWith(w, old(Store(journal, db))) && (rules.gated ==> !Unpromoted(w)) && !rules.ordered ==>
                RunsOn(rules, w, w', Store(journal, db))
    {
      hide Settled, Swept, RunTo, RowSettled, WellFormed, Unpromoted, RequeueAmbiguousFailed, MayPick;
      hide Trace, RowsFollow, OnlyViolated;
      ghost var inStep := IdleWith(w, Store(journal, db)) && (rules.gated ==> !Unpromoted(w)) && !rules.ordered;
      journal := RequeueAmbiguousFailed(journal);
      RequeueKeys(old(journal));
      var candidates := LoadRecoveryJournalCandidates(limit);
      batch := candidates;
      ghost var start := Store(journal, db);
      SweptOutcome(base, start, batch, weather, 0);
      trace := SweptTrace(start, batch, weather, 0);
      RequeueMeans(old(journal));
      SweepMeans(old(journal), trace, batch, weather);
      w' := w;
      if inStep {
        w' := SweepIsARun(rules, w, journal, batch, weather);
      }
      replayed := SweepBatch(candidates, weather);
    }

    method PromoteRecoveryGeneration(snapshot: Coverage, target: nat) returns (ok: bool)
      modifies this`db
      ensures ok <==> (old(db).generation == target
                       || (old(db).generation == snapshot.generation && snapshot.watermark <= LastSeq(old(db).log)))
      ensures db == if ok then old(db).(generation := target) else old(db)
    {
      if db.generation == target {
        return true;
      }
      if db.generation != snapshot.generation || LastSeq(db.log) < snapshot.watermark {
        return false;
      }
      db := db.(generation := target);
      ok := true;
    }

    /** One batch of the recovery replay. A refused row is passed over, any other error ends
        the replay. */
    method ReplayBatch(batch: seq<RequestId>, target: nat, weather: Weather, attempts: nat)
      returns (threw: bool, replayed: nat)
      requires forall k :: 0 <= k < |batch| ==> batch[k] in journal
      modifies this
      ensures BatchResult(Store(journal, db), threw, replayed)
              == Replayed(old(Store(journal, db)), batch, target, weather, attempts)
    {
      hide Settled;
      replayed := 0;
      var i := 0;
      while i < |batch|
        invariant 0 <= i <= |batch|
        invariant forall k :: 0 <= k < |batch| ==> batch[k] in journal
        invariant old(Replayed(Store(journal, db), batch, target, weather, attempts))
                  == Replayed(Store(journal, db), batch[i..], target, weather, attempts + i).More(replayed)
      {
        var r := batch[i];
        ReplayedStep(Store(journal, db), batch, i, target, weather, attempts + i);
        KeysStay(Store(journal, db), r, journal[r].payload, Some(target), weather, attempts + i);
        var phase := Settle(r, journal[r].payload, Some(target), weather, attempts + i);
        if phase.Done? {
          replayed := replayed + 1;
        } else if !phase.Refused? {
          return true, replayed;
        }
        i := i + 1;
      }
      threw := false;
    }

    /** Batch after batch until the replay finds no row. It ends because every row handled
        leaves the replay. In line, it stays in line however it ends, and without an error it
        has repeated every lost write. */
    method ReplayToTheEnd(snapshot: Coverage, target: nat, limit: nat, weather: Weather,
                          ghost base: Data, ghost lost: Database, ghost agrees: bool, ghost rules: Rules, ghost w: World,
                          ghost mid: World)
      returns (threw: bool, replayed: nat, ghost rows: seq<RequestId>, ghost trace: seq<Store>, ghost w': World)
      requires limit >= 1
      requires Replaying(base, Store(journal, db), db.log, snapshot, target) && NothingToRequeue(journal)
      requires agrees ==> InLine(base, Store(journal, db), lost, snapshot, target) && Unblocked(journal)
      modifies this
      ensures Replaying(base, Store(journal, db), old(db.log), snapshot, target)
      ensures !threw ==> EligibleSet(journal, snapshot, target) == {}
      ensures threw ==> OutstandingSet(journal, snapshot, target) != {}
      ensures Leads(old(Store(journal, db)), trace, rows, weather, threw, Store(journal, db))
      ensures !threw ==> replayed == |AppliedOf(journal, EligibleSet(old(journal), snapshot, target))|
      ensures old(Stuck(journal)) ==> Stuck(journal)
      ensures agrees ==>
                && InLine(base, Store(journal, db), lost, snapshot, target)
                && (!threw ==>
                      db.data == lost.data && SameRequests(db.log, lost.log) && OutstandingSet(journal, snapshot, target) == {})
                && (!threw || (forall n :: Recognised(weather.fate(n))) ==> Unblocked(journal))
                && ((forall n :: weather.fate(n).Delivered?) ==> !threw)
      ensures RestoredFor(w, snapshot, target) && RunsOn(rules, w, mid, old(Store(journal, db))) ==>
                RunsOn(rules, w, w', Store(journal, db))
    {
      hide Settled, Replayed, InLine, WellFormed, LogWithin, RestoredFor, RunsOn, SameRequests, OutstandingSet, Stuck, Unblocked;
      hide NothingToRequeue, IsBatch, Leads, AppliedOf, Midway, Replaying;
      ghost var inStep := RestoredFor(w, snapshot, target) && RunsOn(rules, w, mid, Store(journal, db));
      ghost var start := Store(journal, db);
      var attempts: nat := 0;
      replayed, w' := 0, mid;
      rows, trace := [], [start];
      MidwayFirst(base, start, snapshot, target, weather, lost, agrees);
      while true
        invariant Midway(base, start, Store(journal, db), snapshot, target, trace, rows, weather, replayed, lost, agrees)
        invariant attempts == |rows|
        invariant !inStep || RunsOn(rules, w, w', Store(journal, db))
        decreases |EligibleSet(journal, snapshot, target)|
      {
        var batch := LoadRecoveryReplayBatch(snapshot, target, limit);
        ghost var s := Store(journal, db);
        BatchMembers(journal, EligibleSet(journal, snapshot, target), limit, batch);
        if |batch| == 0 {
          break;
        }
        if inStep {
          w' := NextBatchIsARun(rules, base, start, w, w', s, snapshot, target, trace, rows, weather, replayed, lost, agrees, limit, batch);
        }
        trace, rows := BatchGoesOn(base, start, s, snapshot, target, trace, rows, weather, replayed, lost, agrees, limit, batch);
        var count;
        threw, count := ReplayBatch(batch, target, weather, attempts);
        if threw {
          return;
        }
        replayed, attempts := replayed + count, attempts + |batch|;
      }
      threw := false;
      MidwayEnds(base, start, Store(journal, db), snapshot, target, trace, rows, weather, replayed, lost, agrees);
    }

    method CountRecoveryReplayPending(snapshot: Coverage, target: nat) returns (count: nat)
      ensures count == |OutstandingSet(journal, snapshot, target)|
    {
      var outstanding := set r | r in journal && Outstanding(journal[r], snapshot, target);
      assert outstanding == OutstandingSet(journal, snapshot, target);
      count := |outstanding|;
    }

    /** The recovery replay. It ends, provided every receipt of the restored database is one
        the snapshot's watermark covers. When it completes, nothing is left to replay. In
        line with the lost database and with no row stuck, it stays in line however it ends,
        so that it can be called again; when it completes, the rows are those of the lost
        database. A stuck row stays stuck, and holds the recovery back. */
    method CompleteRecoveryReplay(snapshot: Coverage, target: nat, limit: nat, weather: Weather,
                                  ghost base: Data, ghost lost: Database, ghost rules: Rules, ghost w: World)
      returns (result: ReplayResult, ghost rows: seq<RequestId>, ghost trace: seq<Store>, ghost w': World)
      requires limit >= 1
      requires WellFormed(base, db) && db.generation <= target
      requires LogWithin(db.log, snapshot, target)
      modifies this
      ensures WellFormed(base, db)
      ensures old(db.log) <= db.log
      ensures result.Completed? ==>
                && EligibleSet(journal, snapshot, target) == {}
                && result.generation == target == db.generation && result.receiptSeq == LastSeq(db.log)
                && result.pending == |OutstandingSet(journal, snapshot, target)|
      ensures result.Threw? ==> db.generation != target || OutstandingSet(journal, snapshot, target) != {}
      ensures !Promotes(old(db), snapshot, target) ==> result.Threw? && rows == [] && db == old(db)
      ensures Promotes(old(db), snapshot, target) ==>
                Leads(Store(RequeueAmbiguousFailed(old(journal)), old(db).(generation := target)), trace, rows, weather,
                      result.Threw?, Store(journal, db))
      ensures OnlyViolated(old(journal), journal, trace, rows, weather)
      ensures ErrorsBlock(journal, trace, rows, weather, result.Threw?)
      ensures result.Completed? ==>
                result.replayed == |AppliedOf(journal, EligibleSet(RequeueAmbiguousFailed(old(journal)), snapshot, target))|
      ensures old(Stuck(journal)) ==> Stuck(journal)
      ensures old(InLine(base, Store(journal, db), lost, snapshot, target) && !Stuck(journal)) ==>
                && InLine(base, Store(journal, db), lost, snapshot, target)
                && (result.Completed? ==>
                      db.data == lost.data && SameRequests(db.log, lost.log) && OutstandingSet(journal, snapshot, target) == {})
                && (result.Completed? || (forall n :: Recognised(weather.fate(n))) ==> !Stuck(journal))
                && ((forall n :: weather.fate(n).Delivered?)
                    && (old(db).generation == target
                        || (old(db).generation == snapshot.generation && snapshot.watermark <= LastSeq(old(db).log)))
                    ==> result.Completed?)
      ensures IdleWith(w, old(Store(journal, db))) && RestoredFor(w, snapshot, target) ==>
                RunsOn(rules, w, w', Store(journal, db))
    {
      hide InLine, WellFormed, LogWithin, RequeueAmbiguousFailed, SameRequests, Stuck, Unblocked;
      hide RunTo, RestoredFor, CoverageOf, Replaying, Requeueable, Leads, AppliedOf, OnlyViolated, ErrorsBlock;
      hide EligibleSet, OutstandingSet, LastSeq, NothingToRequeue, RunsOn;
      ghost var inStep := IdleWith(w, Store(journal, db)) && RestoredFor(w, snapshot, target);
      w' := w;
      rows, trace := [], [];
      ghost var agrees := InLine(base, Store(journal, db), lost, snapshot, target) && !Stuck(journal);
      RequeueUnblocks(journal);
      if agrees {
        RequeueStaysInLine(base, Store(journal, db), lost, snapshot, target);
      }
      journal := RequeueAmbiguousFailed(journal);
      NothingRequeueable(old(journal));
      if inStep {
        w' := RequeueIsARun(rules, w, old(journal), db);
      }
      var promoted := PromoteRecoveryGeneration(snapshot, target);
      if !promoted {
        NoAttempts(old(journal), trace, weather);
        return Threw, rows, trace, w';
      }
      if inStep {
        w' := StartIsARun(rules, w, w', snapshot, target);
      }
      ghost var start := Store(journal, db);
      PromotedReplays(base, journal, old(db), lost, snapshot, target, agrees);
      var threw, replayed;
      threw, replayed, rows, trace, w' := ReplayToTheEnd(snapshot, target, limit, weather, base, lost, agrees, rules, w, w');
      ReplayingMeans(base, Store(journal, db), old(db.log), snapshot, target);
      UnblockedIsNotStuck(journal);
      ReplayMeans(old(journal), start, trace, rows, weather, threw, Store(journal, db));
      if threw {
        return Threw, rows, trace, w';
      }
      var outstanding := CountRecoveryReplayPending(snapshot, target);
      result := Completed(db.generation, LastSeq(db.log), replayed, outstanding);
    }
  }
}
