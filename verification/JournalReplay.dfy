/** One attempt at a journaled write and batches of attempts as functions of the journal and
    the database, and how far they take the recovery replay. */
module JournalReplay {
  import opened Options
  import opened Postgres
  import opened Journal
  import opened RecoveryProtocol

  /** What the network and the stored payload do to one attempt. */
  datatype Fate = Delivered | ReplyLost | ReplyMisread | NotReached | BadPayload

  /** The environment of the n-th attempt: its fate, how many sequence values were burnt
      before it, and whether its error text looks ambiguous. */
  datatype Weather = Weather(fate: nat -> Fate, burnt: nat -> nat, looksAmbiguous: nat -> bool)

  datatype Store = Store(journal: Journal, db: Database)

  /** One attempt at a request up to and including its journal update. */
  function Settled(s: Store, r: RequestId, p: Payload, forced: Option<nat>, weather: Weather, n: nat): (Store, Phase) {
    var seqNo := LastSeq(s.db.log) + 1 + weather.burnt(n);
    var res := ApplyWithReceipt(s.db, r, p, forced, seqNo);
    var (db, phase) :=
      match weather.fate(n)
      case Delivered => (res.db, PhaseAfter(res.outcome, Heard))
      case ReplyLost => (res.db, Unknown)
      case ReplyMisread => (res.db, Broken)
      case NotReached => (s.db, Unknown)
      case BadPayload => (s.db, Broken);
    (Store(MarkByPhase(s.journal, Executor(r, p, forced, false, phase), weather.looksAmbiguous(n)), db), phase)
  }

  // ---- The recovery replay repeats the lost writes

  ghost function Requests(log: seq<Receipt>): set<RequestId> {
    set i | 0 <= i < |log| :: log[i].request
  }

  /** The journal rows in the order of the batch statement: ascending created_at, at most
      `limit` of them, ties in any order. */
  ghost predicate IsBatch(j: Journal, pool: set<RequestId>, limit: nat, batch: seq<RequestId>) {
    && (forall i :: 0 <= i < |batch| ==> batch[i] in pool)
    && (forall i, k :: 0 <= i < k < |batch| ==> batch[i] != batch[k])
    && (forall i, k :: 0 <= i < k < |batch| && batch[i] in j && batch[k] in j ==>
          j[batch[i]].createdAt <= j[batch[k]].createdAt)
    && (forall i, r :: 0 <= i < |batch| && batch[i] in j && r in pool && r !in batch && r in j ==>
          j[batch[i]].createdAt <= j[r].createdAt)
    && |batch| <= limit
    && (|batch| < limit ==> forall r :: r in pool ==> r in batch)
  }

  lemma {:induction false} EarliestExists(j: Journal, pool: set<RequestId>)
    requires pool != {} && forall r :: r in pool ==> r in j
    ensures exists r :: r in pool && forall q :: q in pool ==> j[r].createdAt <= j[q].createdAt
    decreases |pool|
  {
    var r :| r in pool;
    var rest := pool - {r};
    if rest == {} {
      assert pool == {r};
    } else {
      EarliestExists(j, rest);
      var e :| e in rest && forall q :: q in rest ==> j[e].createdAt <= j[q].createdAt;
      var first := if j[e].createdAt <= j[r].createdAt then e else r;
      assert forall q :: q in pool ==> q == r || q in rest;
      assert forall q :: q in pool ==> j[first].createdAt <= j[q].createdAt;
    }
  }

  /** Every receipt is one the snapshot's watermark covers, or of the target generation. */
  ghost predicate LogWithin(log: seq<Receipt>, snapshot: Coverage, target: nat) {
    forall i :: 0 <= i < |log| ==>
      log[i].generation >= target || Coverage(log[i].generation, log[i].seqNo).Le(snapshot)
  }

  /** What an attempt of the recovery replay does to the receipts, and that the receipt it
      learns of is one that takes its row out of the replay. */
  lemma SettledReceipts(s: Store, r: RequestId, p: Payload, snapshot: Coverage, target: nat, weather: Weather, n: nat)
    requires s.db.generation == target && LogWithin(s.db.log, snapshot, target)
    ensures var (after, phase) := Settled(s, r, p, Some(target), weather, n);
            && after.db.generation == target
            && LogWithin(after.db.log, snapshot, target)
            && s.db.log <= after.db.log
            && (phase.Done? ==> phase.position.generation >= target || phase.position.Le(snapshot))
  {
    TransactionShape(s.db, r, p, Some(target), LastSeq(s.db.log) + 1 + weather.burnt(n));
  }

  lemma SettledSound(base: Data, s: Store, r: RequestId, p: Payload, forced: Option<nat>, weather: Weather, n: nat)
    requires WellFormed(base, s.db)
    ensures WellFormed(base, Settled(s, r, p, forced, weather, n).0.db)
  {
    var seqNo := LastSeq(s.db.log) + 1 + weather.burnt(n);
    var res := ApplyWithReceipt(s.db, r, p, forced, seqNo);
    var (after, phase) := Settled(s, r, p, forced, weather, n);
    assert after.db == res.db || after.db == s.db;
    TransactionAtMostOnce(base, s.db, r, p, forced, seqNo);
  }

  /** Only the row's status changes, and nothing of the other rows. */
  ghost predicate OneRowChanged(before: Journal, after: Journal, r: RequestId) {
    && after.Keys == before.Keys
    && (forall q :: q in before ==> after[q].createdAt == before[q].createdAt && after[q].payload == before[q].payload)
    && (forall q :: q in before && q != r ==> after[q] == before[q])
  }

  /** A row that was applied at a covered position, or refused, leaves the replay batch, and
      nothing else does. */
  lemma MarkedRows(j: Journal, ex: Executor, looksAmbiguous: bool, snapshot: Coverage, target: nat)
    requires ex.request in j && !ex.phase.Started?
    requires ex.phase.Done? ==> ex.phase.position.generation >= target || ex.phase.position.Le(snapshot)
    ensures var after := MarkByPhase(j, ex, looksAmbiguous);
            && OneRowChanged(j, after, ex.request)
            && (ex.phase.Done? || ex.phase.Refused? ==>
                  EligibleSet(after, snapshot, target) == EligibleSet(j, snapshot, target) - {ex.request})
  {
  }

  /** A handled row leaves the replay batch, and nothing else does. */
  lemma SettledProgress(base: Data, s: Store, r: RequestId, snapshot: Coverage, target: nat, weather: Weather, n: nat)
    requires WellFormed(base, s.db) && s.db.generation == target && LogWithin(s.db.log, snapshot, target)
    requires r in s.journal
    ensures var (after, phase) := Settled(s, r, s.journal[r].payload, Some(target), weather, n);
            && WellFormed(base, after.db) && after.db.generation == target
            && LogWithin(after.db.log, snapshot, target)
            && s.db.log <= after.db.log
            && OneRowChanged(s.journal, after.journal, r)
            && (phase.Done? || phase.Refused? ==>
                  EligibleSet(after.journal, snapshot, target) == EligibleSet(s.journal, snapshot, target) - {r})
  {
    var p := s.journal[r].payload;
    var (after, phase) := Settled(s, r, p, Some(target), weather, n);
    SettledReceipts(s, r, p, snapshot, target, weather, n);
    SettledSound(base, s, r, p, Some(target), weather, n);
    MarkedRows(s.journal, Executor(r, p, Some(target), false, phase), weather.looksAmbiguous(n), snapshot, target);
  }

  ghost predicate SameRequests(a: seq<Receipt>, b: seq<Receipt>) {
    |a| == |b| && forall i :: 0 <= i < |a| ==> a[i].request == b[i].request
  }

  /** The rows of the journal, when the first m receipts of the lost database are there
      again: what holds recovery back is a lost write, every write still missing does, each
      row has the payload of its receipt, and the missing ones were created in their order. */
  ghost predicate RowsInLine(j: Journal, lost: seq<Receipt>, m: nat, snapshot: Coverage, target: nat) {
    && m <= |lost|
    && (forall r :: r in j && Outstanding(j[r], snapshot, target) ==> r in Requests(lost))
    && (forall i :: m <= i < |lost| ==> lost[i].request in j && Outstanding(j[lost[i].request], snapshot, target))
    && (forall i :: 0 <= i < |lost| && lost[i].request in j ==> j[lost[i].request].payload == lost[i].payload)
    && (forall i, k :: m <= i < k < |lost| ==> j[lost[i].request].createdAt < j[lost[k].request].createdAt)
  }

  /** The replay has repeated the first receipts of the lost database, and is in line to
      repeat the others. A write that is there again may still be due: its reply was lost. */
  ghost predicate InLine(base: Data, s: Store, lost: Database, snapshot: Coverage, target: nat) {
    && WellFormed(base, lost)
    && |s.db.log| <= |lost.log|
    && SameRequests(s.db.log, lost.log[..|s.db.log|])
    && SamePayloads(s.db.log, lost.log[..|s.db.log|])
    && RowsInLine(s.journal, lost.log, |s.db.log|, snapshot, target)
  }

  /** A failed row that no requeue will take up again. */
  predicate LeftForGood(e: Entry) {
    e.status == Failed && e.disposition == Blocking && !e.looksAmbiguous
  }

  ghost predicate Stuck(j: Journal) {
    exists r :: r in j && LeftForGood(j[r])
  }

  ghost predicate Unblocked(j: Journal) {
    forall r :: r in j ==> !(j[r].status == Failed && j[r].disposition == Blocking)
  }

  lemma RequeueUnblocks(j: Journal)
    ensures Unblocked(RequeueAmbiguousFailed(j)) <==> !Stuck(j)
    ensures Stuck(RequeueAmbiguousFailed(j)) <==> Stuck(j)
    ensures forall r :: r in RequeueAmbiguousFailed(j) ==> !Requeueable(RequeueAmbiguousFailed(j)[r])
  {
    var after := RequeueAmbiguousFailed(j);
    assert forall r :: r in j ==>
      (LeftForGood(after[r]) <==> LeftForGood(j[r])) && (LeftForGood(j[r]) <==> after[r].status == Failed && after[r].disposition == Blocking);
    if Stuck(j) {
      var r :| r in j && LeftForGood(j[r]);
      assert r in after && LeftForGood(after[r]);
    }
  }

  /** A requeue changes nothing of what holds recovery back. */
  lemma RequeueStaysInLine(base: Data, s: Store, lost: Database, snapshot: Coverage, target: nat)
    requires InLine(base, s, lost, snapshot, target)
    ensures InLine(base, s.(journal := RequeueAmbiguousFailed(s.journal)), lost, snapshot, target)
  {
    hide WellFormed, SameRequests, SamePayloads;
    var after := RequeueAmbiguousFailed(s.journal);
    assert forall r :: r in s.journal ==>
      (Outstanding(after[r], snapshot, target) <==> Outstanding(s.journal[r], snapshot, target));
  }

  /** The write is there already, or it is the first one missing. */
  ghost predicate DueNext(s: Store, lost: Database, r: RequestId) {
    || HasReceipt(s.db.log, r)
    || (|s.db.log| < |lost.log| && r == lost.log[|s.db.log|].request)
  }

  /** The place of a request in the lost database. */
  lemma PlaceOf(base: Data, s: Store, lost: Database, snapshot: Coverage, target: nat, r: RequestId) returns (k: nat)
    requires InLine(base, s, lost, snapshot, target) && r in s.journal && Outstanding(s.journal[r], snapshot, target)
    ensures k < |lost.log| && lost.log[k].request == r
    ensures k < |s.db.log| ==> HasReceipt(s.db.log, r)
  {
    k :| 0 <= k < |lost.log| && lost.log[k].request == r;
    HasReceiptMeansSome(s.db.log, r);
    if k < |s.db.log| {
      assert s.db.log[k].request == lost.log[..|s.db.log|][k].request;
    }
  }

  /** The earliest row to replay is due next: in the order of creation the replay meets the
      missing writes in the order in which they were lost. */
  lemma EarliestIsNext(base: Data, s: Store, lost: Database, snapshot: Coverage, target: nat, r: RequestId)
    requires InLine(base, s, lost, snapshot, target) && Unblocked(s.journal)
    requires r in EligibleSet(s.journal, snapshot, target)
    requires forall q :: q in EligibleSet(s.journal, snapshot, target) ==> s.journal[r].createdAt <= s.journal[q].createdAt
    ensures DueNext(s, lost, r)
  {
    hide WellFormed, SameRequests, SamePayloads;
    var m := |s.db.log|;
    var k := PlaceOf(base, s, lost, snapshot, target, r);
    assert m < |lost.log| ==>
      var first := lost.log[m].request;
      && first in s.journal && Outstanding(s.journal[first], snapshot, target)
      && first in EligibleSet(s.journal, snapshot, target);
  }

  /** Replaying the next lost receipt repeats it: the payload commits again, because it
      runs on the same rows as it did then. */
  lemma PayloadCommitsAgain(base: Data, db: Database, lost: Database, m: nat)
    requires WellFormed(base, db) && WellFormed(base, lost) && m < |lost.log|
    requires SamePayloads(db.log, lost.log[..m])
    ensures lost.log[m].payload.effect(db.data).Commit?
  {
    FoldByPayloads(base, db.log, lost.log[..m]);
    FoldPrefix(base, lost.log, m + 1);
    assert lost.log[..m + 1][..m] == lost.log[..m];
  }

  /** A receipt that is there again has the payload of its row. */
  lemma ReceiptHasRowsPayload(base: Data, s: Store, lost: Database, snapshot: Coverage, target: nat, r: RequestId)
    requires InLine(base, s, lost, snapshot, target) && r in s.journal && HasReceipt(s.db.log, r)
    ensures FindReceipt(s.db.log, r).Some? && FindReceipt(s.db.log, r).value.payload == s.journal[r].payload
    ensures r in Requests(lost.log)
  {
    var found := FindReceipt(s.db.log, r).value;
    var i :| 0 <= i < |s.db.log| && s.db.log[i] == found;
    var again := lost.log[..|s.db.log|];
    assert again[i] == lost.log[i] && again[i].request == r && again[i].payload == found.payload;
  }

  lemma OneMoreRepeated(base: Data, s: Store, lost: Database, snapshot: Coverage, target: nat, receipt: Receipt, db: Database)
    requires InLine(base, s, lost, snapshot, target) && |s.db.log| < |lost.log|
    requires receipt.request == lost.log[|s.db.log|].request && receipt.payload == lost.log[|s.db.log|].payload
    requires db.log == s.db.log + [receipt]
    ensures InLine(base, s.(db := db), lost, snapshot, target)
  {
    hide WellFormed, Outstanding;
    var m := |s.db.log|;
    assert lost.log[..m + 1] == lost.log[..m] + [lost.log[m]];
  }

  /** The transaction of an attempt that is due repeats the next lost receipt, or finds its
      own and changes nothing. Either way it gets a receipt. */
  lemma TransactInLine(base: Data, s: Store, lost: Database, snapshot: Coverage, target: nat, r: RequestId, seqNo: nat)
    requires WellFormed(base, s.db) && s.db.generation == target
    requires InLine(base, s, lost, snapshot, target) && r in s.journal && DueNext(s, lost, r)
    ensures var res := ApplyWithReceipt(s.db, r, s.journal[r].payload, Some(target), seqNo);
            && res.outcome.Receipted? && HasReceipt(res.db.log, r) && r in Requests(lost.log)
            && InLine(base, s.(db := res.db), lost, snapshot, target)
  {
    hide Fold, WellFormed, RowsInLine;
    var p := s.journal[r].payload;
    var res := ApplyWithReceipt(s.db, r, p, Some(target), seqNo);
    if HasReceipt(s.db.log, r) {
      ReceiptHasRowsPayload(base, s, lost, snapshot, target, r);
      assert s.(db := s.db) == s;
    } else {
      var m := |s.db.log|;
      PayloadIsTheRows(base, s, lost, snapshot, target);
      PayloadCommitsAgain(base, s.db, lost, m);
      var receipt := Receipt(seqNo, target, r, p);
      assert res.outcome == Receipted(receipt) && res.db.log == s.db.log + [receipt];
      HasReceiptAppend(s.db.log, receipt, r);
      OneMoreRepeated(base, s, lost, snapshot, target, receipt, res.db);
    }
  }

  lemma PayloadIsTheRows(base: Data, s: Store, lost: Database, snapshot: Coverage, target: nat)
    requires InLine(base, s, lost, snapshot, target) && |s.db.log| < |lost.log|
    ensures var next := lost.log[|s.db.log|];
            next.request in s.journal && s.journal[next.request].payload == next.payload
            && next.request in Requests(lost.log)
  {
    hide WellFormed;
  }

  lemma RowsAfterMark(j: Journal, after: Journal, lost: seq<Receipt>, m: nat, snapshot: Coverage, target: nat, r: RequestId)
    requires RowsInLine(j, lost, m, snapshot, target) && OneRowChanged(j, after, r)
    requires r in j && r in Requests(lost)
    requires Outstanding(after[r], snapshot, target) || forall i :: m <= i < |lost| ==> lost[i].request != r
    ensures RowsInLine(after, lost, m, snapshot, target)
  {
    hide Outstanding, Requests;
  }

  lemma MarkChangesOneRow(j: Journal, ex: Executor, looksAmbiguous: bool, snapshot: Coverage, target: nat)
    requires ex.request in j && !ex.phase.Refused? && !ex.phase.Started?
    ensures var after := MarkByPhase(j, ex, looksAmbiguous);
            && OneRowChanged(j, after, ex.request)
            && (!ex.phase.Done? ==> Outstanding(after[ex.request], snapshot, target))
            && (ex.phase.Done? || ex.phase.Unknown? ==> after[ex.request].status != Failed)
  {
  }

  /** Whatever the executor learned, its mark keeps the replay in line: the row is settled
      only when the write is there again. */
  lemma MarkInLine(base: Data, s: Store, lost: Database, snapshot: Coverage, target: nat, ex: Executor, looksAmbiguous: bool)
    requires InLine(base, s, lost, snapshot, target) && ex.request in s.journal && ex.request in Requests(lost.log)
    requires !ex.phase.Refused? && !ex.phase.Started? && (ex.phase.Done? ==> HasReceipt(s.db.log, ex.request))
    ensures var after := MarkByPhase(s.journal, ex, looksAmbiguous);
            && InLine(base, s.(journal := after), lost, snapshot, target)
            && OneRowChanged(s.journal, after, ex.request)
            && (ex.phase.Done? || ex.phase.Unknown? ==> (Unblocked(s.journal) ==> Unblocked(after)))
  {
    hide WellFormed, SameRequests, SamePayloads, RowsInLine, MarkByPhase, Outstanding, Requests, HasReceipt;
    var r, m := ex.request, |s.db.log|;
    MarkChangesOneRow(s.journal, ex, looksAmbiguous, snapshot, target);
    if ex.phase.Done? {
      forall i | m <= i < |lost.log| ensures lost.log[i].request != r {
        NotRepeatedYet(base, s, lost, snapshot, target, i);
      }
    }
    RowsAfterMark(s.journal, MarkByPhase(s.journal, ex, looksAmbiguous), lost.log, m, snapshot, target, r);
  }

  lemma NotRepeatedYet(base: Data, s: Store, lost: Database, snapshot: Coverage, target: nat, i: nat)
    requires InLine(base, s, lost, snapshot, target) && |s.db.log| <= i < |lost.log|
    ensures !HasReceipt(s.db.log, lost.log[i].request)
  {
    HasReceiptMeansSome(s.db.log, lost.log[i].request);
    assert forall k :: 0 <= k < |s.db.log| ==> lost.log[..|s.db.log|][k] == lost.log[k];
  }

  /** Fates whose outcome the executor can tell: it knows, or it knows that it does not. */
  predicate Recognised(fate: Fate) {
    fate.Delivered? || fate.ReplyLost? || fate.NotReached?
  }

  /** An attempt that is due keeps the replay in line, whatever becomes of it, and succeeds
      when it is delivered. */
  lemma SettledRepeats(base: Data, s: Store, lost: Database, snapshot: Coverage, target: nat, r: RequestId,
                       weather: Weather, n: nat)
    requires WellFormed(base, s.db) && s.db.generation == target
    requires InLine(base, s, lost, snapshot, target) && r in s.journal && DueNext(s, lost, r) && r in Requests(lost.log)
    ensures var (after, phase) := Settled(s, r, s.journal[r].payload, Some(target), weather, n);
            && !phase.Refused?
            && (weather.fate(n).Delivered? ==> phase.Done?)
            && InLine(base, after, lost, snapshot, target)
            && (Recognised(weather.fate(n)) || phase.Done? ==> (Unblocked(s.journal) ==> Unblocked(after.journal)))
  {
    hide InLine, WellFormed, DueNext, Unblocked, MarkByPhase;
    var p := s.journal[r].payload;
    var seqNo := LastSeq(s.db.log) + 1 + weather.burnt(n);
    var (after, phase) := Settled(s, r, p, Some(target), weather, n);
    TransactInLine(base, s, lost, snapshot, target, r, seqNo);
    assert s.(db := s.db) == s;
    MarkInLine(base, s.(db := after.db), lost, snapshot, target, Executor(r, p, Some(target), false, phase),
               weather.looksAmbiguous(n));
  }

  lemma Subset<T>(a: set<T>, b: set<T>)
    requires a <= b
    ensures |a| <= |b|
  {
    assert b == a + (b - a);
  }

  // ---- A batch of the recovery replay

  datatype BatchResult = BatchResult(store: Store, threw: bool, replayed: nat) {
    function More(n: nat): BatchResult {
      BatchResult(store, threw, n + replayed)
    }
  }

  function Replayed(s: Store, batch: seq<RequestId>, target: nat, weather: Weather, n: nat): BatchResult
    decreases |batch|
  {
    if |batch| == 0 || batch[0] !in s.journal then BatchResult(s, false, 0)
    else
      var (after, phase) := Settled(s, batch[0], s.journal[batch[0]].payload, Some(target), weather, n);
      if phase.Done? then Replayed(after, batch[1..], target, weather, n + 1).More(1)
      else if phase.Refused? then Replayed(after, batch[1..], target, weather, n + 1)
      else BatchResult(after, true, 0)
  }

  lemma ReplayedStep(s: Store, batch: seq<RequestId>, i: nat, target: nat, weather: Weather, n: nat)
    requires i < |batch| && batch[i] in s.journal
    ensures var (after, phase) := Settled(s, batch[i], s.journal[batch[i]].payload, Some(target), weather, n);
            var rest := Replayed(after, batch[i + 1..], target, weather, n + 1);
            Replayed(s, batch[i..], target, weather, n)
            == if phase.Done? then rest.More(1) else if phase.Refused? then rest else BatchResult(after, true, 0)
  {
    assert batch[i..][1..] == batch[i + 1..];
  }

  lemma KeysStay(s: Store, r: RequestId, p: Payload, forced: Option<nat>, weather: Weather, n: nat)
    ensures Settled(s, r, p, forced, weather, n).0.journal.Keys == s.journal.Keys
  {
  }

  lemma FailedStaysOutstanding(s: Store, r: RequestId, p: Payload, snapshot: Coverage, target: nat, weather: Weather, n: nat)
    requires r in s.journal
    ensures var (after, phase) := Settled(s, r, p, Some(target), weather, n);
            !phase.Done? && !phase.Refused? ==> OutstandingSet(after.journal, snapshot, target) != {}
  {
    var (after, phase) := Settled(s, r, p, Some(target), weather, n);
    if !phase.Done? && !phase.Refused? {
      assert Outstanding(after.journal[r], snapshot, target);
      assert r in OutstandingSet(after.journal, snapshot, target);
    }
  }

  /** The batch takes the rows of the pool in the order of creation. */
  ghost predicate InOrder(j: Journal, pool: set<RequestId>, batch: seq<RequestId>) {
    forall i, q :: 0 <= i < |batch| && q in pool && q !in batch[..i] && batch[i] in j && q in j ==>
      j[batch[i]].createdAt <= j[q].createdAt
  }

  lemma PrefixMember(batch: seq<RequestId>, i: nat, q: RequestId)
    requires i <= |batch|
    ensures q in batch[..i] <==> exists k :: 0 <= k < i && batch[k] == q
  {
  }

  lemma BatchIsInOrder(j: Journal, pool: set<RequestId>, limit: nat, batch: seq<RequestId>)
    requires IsBatch(j, pool, limit, batch)
    ensures InOrder(j, pool, batch)
  {
    forall i, q | 0 <= i < |batch| && q in pool && q !in batch[..i] && batch[i] in j && q in j
      ensures j[batch[i]].createdAt <= j[q].createdAt
    {
      PrefixMember(batch, i, q);
    }
  }

  lemma RestIsInOrder(j: Journal, after: Journal, pool: set<RequestId>, batch: seq<RequestId>)
    requires |batch| > 0 && InOrder(j, pool, batch) && OneRowChanged(j, after, batch[0])
    ensures InOrder(after, pool - {batch[0]}, batch[1..])
  {
    var rest := batch[1..];
    forall i, q | 0 <= i < |rest| && q in pool - {batch[0]} && q !in rest[..i] && rest[i] in after && q in after
      ensures after[rest[i]].createdAt <= after[q].createdAt
    {
      assert batch[..i + 1] == [batch[0]] + rest[..i];
      assert batch[i + 1] == rest[i];
    }
  }

  ghost predicate Distinct(batch: seq<RequestId>) {
    forall i, k :: 0 <= i < k < |batch| ==> batch[i] != batch[k]
  }

  /** A batch without an error has taken all its rows out of the replay; one with an error
      leaves a row outstanding. In line, with no row blocked, it stays in line however it
      ends. Rows that are not of the batch are not touched. */
  lemma {:induction false} BatchOutcome(base: Data, s: Store, batch: seq<RequestId>, start: seq<Receipt>,
                                        snapshot: Coverage, target: nat, weather: Weather, n: nat,
                                        lost: Database, agrees: bool)
    requires Replaying(base, s, start, snapshot, target)
    requires Distinct(batch) && forall k :: 0 <= k < |batch| ==> batch[k] in EligibleSet(s.journal, snapshot, target)
    requires InOrder(s.journal, EligibleSet(s.journal, snapshot, target), batch)
    requires agrees ==> InLine(base, s, lost, snapshot, target) && Unblocked(s.journal)
    ensures var res := Replayed(s, batch, target, weather, n);
            && Replaying(base, res.store, start, snapshot, target)
            && res.store.journal.Keys == s.journal.Keys
            && (forall q :: q in s.journal && q !in batch ==> res.store.journal[q] == s.journal[q])
            && (!res.threw ==>
                  && EligibleSet(res.store.journal, snapshot, target) <= EligibleSet(s.journal, snapshot, target)
                  && (|batch| > 0 ==> batch[0] !in EligibleSet(res.store.journal, snapshot, target)))
            && (res.threw ==> OutstandingSet(res.store.journal, snapshot, target) != {})
            && (agrees ==>
                  && InLine(base, res.store, lost, snapshot, target)
                  && (!res.threw || (forall i :: Recognised(weather.fate(i))) ==> Unblocked(res.store.journal))
                  && ((forall i :: weather.fate(i).Delivered?) ==> !res.threw))
    decreases |batch|
  {
    hide Settled, WellFormed, LogWithin, InLine, OutstandingSet, Unblocked, InOrder;
    if |batch| > 0 {
      var r, eligible := batch[0], EligibleSet(s.journal, snapshot, target);
      assert r in eligible;
      var (after, phase) := Settled(s, r, s.journal[r].payload, Some(target), weather, n);
      if agrees {
        FirstIsEarliest(s.journal, eligible, batch);
      }
      ReplayStep(base, s, r, start, snapshot, target, weather, n, lost, agrees);
      if phase.Done? || phase.Refused? {
        RestIsInOrder(s.journal, after.journal, eligible, batch);
        BatchOutcome(base, after, batch[1..], start, snapshot, target, weather, n + 1, lost, agrees);
      } else {
        FailedStaysOutstanding(s, r, s.journal[r].payload, snapshot, target, weather, n);
      }
    }
  }

  lemma FirstIsEarliest(j: Journal, pool: set<RequestId>, batch: seq<RequestId>)
    requires InOrder(j, pool, batch) && |batch| > 0 && batch[0] in j && forall q :: q in pool ==> q in j
    ensures forall q :: q in pool ==> j[batch[0]].createdAt <= j[q].createdAt
  {
    assert batch[..0] == [];
  }

  // ---- A batch of the background replay

  lemma SettledOneRow(s: Store, r: RequestId, p: Payload, forced: Option<nat>, weather: Weather, n: nat)
    requires r in s.journal
    ensures var (after, phase) := Settled(s, r, p, forced, weather, n);
            && OneRowChanged(s.journal, after.journal, r) && after.db.generation == s.db.generation
            && !phase.Started?
  {
  }

  ghost function CandidateSet(j: Journal): set<RequestId> {
    set r | r in j && ReplayCandidate(j[r])
  }

  /** Every row of the batch is attempted, whatever becomes of the others. */
  function Swept(s: Store, batch: seq<RequestId>, weather: Weather, n: nat): BatchResult
    decreases |batch|
  {
    if |batch| == 0 || batch[0] !in s.journal then BatchResult(s, false, 0)
    else
      var (after, phase) := Settled(s, batch[0], s.journal[batch[0]].payload, None, weather, n);
      Swept(after, batch[1..], weather, n + 1).More(if phase.Done? then 1 else 0)
  }

  lemma SweptStep(s: Store, batch: seq<RequestId>, i: nat, weather: Weather, n: nat)
    requires i < |batch| && batch[i] in s.journal
    ensures var (after, phase) := Settled(s, batch[i], s.journal[batch[i]].payload, None, weather, n);
            Swept(s, batch[i..], weather, n)
            == Swept(after, batch[i + 1..], weather, n + 1).More(if phase.Done? then 1 else 0)
  {
    assert batch[i..][1..] == batch[i + 1..];
  }

  /** Nobody knows whether the attempt was applied. */
  predicate Undecided(fate: Fate) {
    fate.ReplyLost? || fate.NotReached?
  }

  ghost predicate ReceiptAt(log: seq<Receipt>, r: RequestId, position: Coverage) {
    exists i :: 0 <= i < |log| && log[i].request == r && Coverage(log[i].generation, log[i].seqNo) == position
  }

  function AppliedCount(j: Journal, batch: seq<RequestId>): nat {
    if |batch| == 0 then 0
    else (if batch[0] in j && j[batch[0]].status == Status.Applied then 1 else 0) + AppliedCount(j, batch[1..])
  }

  /** A row that was attempted is open exactly when the attempt was left undecided, and
      applied exactly when its receipt is known, at the position of that receipt. */
  ghost predicate RowSettled(s: Store, r: RequestId, fate: Fate) {
    && r in s.journal
    && (ReplayCandidate(s.journal[r]) <==> Undecided(fate))
    && (s.journal[r].status == Status.Applied ==>
          s.journal[r].position.Some? && ReceiptAt(s.db.log, r, s.journal[r].position.value))
  }

  lemma SettledRow(s: Store, r: RequestId, weather: Weather, n: nat)
    requires r in s.journal
    ensures var (after, phase) := Settled(s, r, s.journal[r].payload, None, weather, n);
            && RowSettled(after, r, weather.fate(n))
            && (after.journal[r].status == Status.Applied <==> phase.Done?)
            && s.db.log <= after.db.log
  {
    var p := s.journal[r].payload;
    TransactionShape(s.db, r, p, None, LastSeq(s.db.log) + 1 + weather.burnt(n));
    assert s.db.log <= ApplyWithReceipt(s.db, r, p, None, LastSeq(s.db.log) + 1 + weather.burnt(n)).db.log;
  }

  lemma RowStaysSettled(s: Store, after: Store, r: RequestId, fate: Fate)
    requires RowSettled(s, r, fate) && s.db.log <= after.db.log
    requires r in after.journal && after.journal[r] == s.journal[r]
    ensures RowSettled(after, r, fate)
  {
    if s.journal[r].status == Status.Applied {
      var i :| 0 <= i < |s.db.log| && s.db.log[i].request == r
               && Coverage(s.db.log[i].generation, s.db.log[i].seqNo) == s.journal[r].position.value;
      assert after.db.log[i] == s.db.log[i];
    }
  }

  /** What a batch of the background replay leaves behind. */
  lemma {:induction false} SweptOutcome(base: Data, s: Store, batch: seq<RequestId>, weather: Weather, n: nat)
    requires WellFormed(base, s.db)
    requires forall i :: 0 <= i < |batch| ==> batch[i] in s.journal
    requires forall i, k :: 0 <= i < k < |batch| ==> batch[i] != batch[k]
    ensures var res := Swept(s, batch, weather, n);
            && WellFormed(base, res.store.db) && s.db.log <= res.store.db.log
            && res.store.journal.Keys == s.journal.Keys
            && (forall r :: r in s.journal && r !in batch ==> res.store.journal[r] == s.journal[r])
            && (forall i :: 0 <= i < |batch| ==> RowSettled(res.store, batch[i], weather.fate(n + i)))
            && res.replayed == AppliedCount(res.store.journal, batch)
    decreases |batch|
  {
    hide Settled, WellFormed, RowSettled;
    if |batch| > 0 {
      var r, rest := batch[0], batch[1..];
      var (after, phase) := Settled(s, r, s.journal[r].payload, None, weather, n);
      SettledOneRow(s, r, s.journal[r].payload, None, weather, n);
      SettledRow(s, r, weather, n);
      SettledSound(base, s, r, s.journal[r].payload, None, weather, n);
      SweptOutcome(base, after, rest, weather, n + 1);
      var res := Swept(after, rest, weather, n + 1);
      RowStaysSettled(after, res.store, r, weather.fate(n));
      forall i | 0 <= i < |batch| ensures RowSettled(res.store, batch[i], weather.fate(n + i)) {
        if i > 0 {
          assert batch[i] == rest[i - 1];
          assert n + i == n + 1 + (i - 1);
        }
      }
    }
  }

  // ---- The whole replay

  ghost function OutstandingSet(j: Journal, snapshot: Coverage, target: nat): set<RequestId> {
    set r | r in j && Outstanding(j[r], snapshot, target)
  }

  ghost predicate Replaying(base: Data, s: Store, start: seq<Receipt>, snapshot: Coverage, target: nat) {
    && WellFormed(base, s.db) && s.db.generation == target
    && LogWithin(s.db.log, snapshot, target)
    && start <= s.db.log
  }

  lemma PromotionSound(base: Data, db: Database, target: nat)
    requires WellFormed(base, db) && db.generation <= target
    ensures WellFormed(base, db.(generation := target))
  {
  }

  lemma ReplayStep(base: Data, s: Store, r: RequestId, start: seq<Receipt>, snapshot: Coverage, target: nat,
                   weather: Weather, n: nat, lost: Database, agrees: bool)
    requires Replaying(base, s, start, snapshot, target) && r in EligibleSet(s.journal, snapshot, target)
    requires agrees ==>
               && InLine(base, s, lost, snapshot, target) && Unblocked(s.journal)
               && forall q :: q in EligibleSet(s.journal, snapshot, target) ==> s.journal[r].createdAt <= s.journal[q].createdAt
    ensures var (after, phase) := Settled(s, r, s.journal[r].payload, Some(target), weather, n);
            && Replaying(base, after, start, snapshot, target)
            && OneRowChanged(s.journal, after.journal, r)
            && (phase.Done? || phase.Refused? ==>
                  EligibleSet(after.journal, snapshot, target) == EligibleSet(s.journal, snapshot, target) - {r})
            && (agrees ==>
                  && !phase.Refused?
                  && (weather.fate(n).Delivered? ==> phase.Done?)
                  && InLine(base, after, lost, snapshot, target)
                  && (Recognised(weather.fate(n)) || phase.Done? ==> Unblocked(after.journal)))
  {
    hide Settled, InLine, Unblocked, DueNext, WellFormed, LogWithin;
    SettledProgress(base, s, r, snapshot, target, weather, n);
    if agrees {
      EarliestIsNext(base, s, lost, snapshot, target, r);
      var k := PlaceOf(base, s, lost, snapshot, target, r);
      assert lost.log[k].request in Requests(lost.log);
      SettledRepeats(base, s, lost, snapshot, target, r, weather, n);
    }
  }

  lemma DirectReceipt(base: Data, s: Store, r: RequestId, p: Payload, weather: Weather)
    requires WellFormed(base, s.db) && !HasReceipt(s.db.log, r)
    ensures var (after, phase) := Settled(s, r, p, None, weather, 0);
            && (phase.Done? ==>
                  && HasReceipt(after.db.log, r)
                  && |after.db.log| > 0 && after.db.log[..|after.db.log| - 1] == s.db.log
                  && phase.position == CoverageOf(after.db))
            && (phase.Refused? ==> after.db == s.db)
            && !phase.Started?
            && (weather.fate(0).Delivered? ==> (phase.Done? <==> p.effect(s.db.data).Commit?))
  {
    var (after, phase) := Settled(s, r, p, None, weather, 0);
    if phase.Done? {
      HasReceiptAppend(s.db.log, after.db.log[|s.db.log|], r);
    }
  }

  lemma MarkedRow(j: Journal, ex: Executor, looksAmbiguous: bool, now: nat)
    requires ex.request in j && j[ex.request] == PendingEntry(ex.payload, now) && !ex.phase.Started?
    ensures var after := MarkByPhase(j, ex, looksAmbiguous);
            && OneRowChanged(j, after, ex.request)
            && (ex.phase.Done? ==>
                  after[ex.request] == Entry(ex.payload, now, Status.Applied, Blocking, false, Some(ex.phase.position)))
            && (Terminal(after[ex.request]) ==> ex.phase.Refused?)
  {
  }

  lemma DirectExecution(base: Data, s: Store, r: RequestId, p: Payload, now: nat, weather: Weather)
    requires WellFormed(base, s.db) && !HasReceipt(s.db.log, r)
    requires r in s.journal && s.journal[r] == PendingEntry(p, now)
    ensures var (after, phase) := Settled(s, r, p, None, weather, 0);
            && WellFormed(base, after.db)
            && OneRowChanged(s.journal, after.journal, r)
            && (phase.Done? ==>
                  && ExactlyOnce(after.db.log, r)
                  && |after.db.log| > 0 && after.db.log[..|after.db.log| - 1] == s.db.log
                  && after.journal[r] == Entry(p, now, Status.Applied, Blocking, false, Some(CoverageOf(after.db))))
            && (Terminal(after.journal[r]) ==> after.db == s.db)
            && (weather.fate(0).Delivered? ==> (phase.Done? <==> p.effect(s.db.data).Commit?))
  {
    var (after, phase) := Settled(s, r, p, None, weather, 0);
    SettledSound(base, s, r, p, None, weather, 0);
    DirectReceipt(base, s, r, p, weather);
    MarkedRow(s.journal, Executor(r, p, None, false, phase), weather.looksAmbiguous(0), now);
    if phase.Done? {
      DistinctMeansOnce(after.db.log, r);
    }
  }

  lemma SmallerSet(now: set<RequestId>, before: set<RequestId>, gone: RequestId)
    requires now <= before && gone in before && gone !in now
    ensures |now| < |before|
  {
    Subset(now, before - {gone});
  }

  lemma MissingIsOutstanding(base: Data, s: Store, lost: Database, snapshot: Coverage, target: nat)
    requires InLine(base, s, lost, snapshot, target)
    ensures |s.db.log| < |lost.log| ==> OutstandingSet(s.journal, snapshot, target) != {}
  {
    if |s.db.log| < |lost.log| {
      assert lost.log[|s.db.log|].request in OutstandingSet(s.journal, snapshot, target);
    }
  }

  /** In line with nothing outstanding, the rows of the database are those of the lost one. */
  lemma AllRepeated(base: Data, s: Store, lost: Database, snapshot: Coverage, target: nat)
    requires WellFormed(base, s.db) && InLine(base, s, lost, snapshot, target)
    requires OutstandingSet(s.journal, snapshot, target) == {}
    ensures s.db.data == lost.data && SameRequests(s.db.log, lost.log)
  {
    MissingIsOutstanding(base, s, lost, snapshot, target);
    assert lost.log[..|s.db.log|] == lost.log;
    FoldByPayloads(base, s.db.log, lost.log);
  }

  lemma EligibleIsOutstanding(j: Journal, snapshot: Coverage, target: nat)
    requires Unblocked(j) && EligibleSet(j, snapshot, target) == {}
    ensures OutstandingSet(j, snapshot, target) == {}
  {
    forall r | r in j ensures !Outstanding(j[r], snapshot, target) {
      assert r !in EligibleSet(j, snapshot, target);
    }
  }
}
