/** What an attempt at a journaled write leaves behind, as a table of what became of the call
    and what its operations answered; and what the table means for a whole replay. */
module AttemptLaws {
  import opened Options
  import opened Postgres
  import opened Journal
  import opened RecoveryProtocol
  import opened JournalReplay

  // ---- One attempt

  /** The transaction committed now, and not at an earlier attempt. */
  ghost predicate CommitsNow(db: Database, r: RequestId, p: Payload, fate: Fate) {
    && (fate.Delivered? || fate.ReplyLost? || fate.ReplyMisread?)
    && (forall i :: 0 <= i < |db.log| ==> db.log[i].request != r)
    && p.effect(db.data).Commit?
  }

  ghost predicate DatabaseFollows(before: Database, r: RequestId, p: Payload, fate: Fate, after: Database) {
    if CommitsNow(before, r, p, fate) then
      && after.generation == before.generation && after.data == p.effect(before.data).data
      && |after.log| == |before.log| + 1 && after.log[..|before.log|] == before.log
      && var added := after.log[|before.log|];
         added.request == r && added.payload == p && added.generation == before.generation && added.seqNo > LastSeq(before.log)
    else after == before
  }

  /** The receipt that an attempt at the request meets in the table. */
  ghost predicate Meets(db: Database, r: RequestId, receipt: Receipt) {
    receipt in db.log && receipt.request == r
  }

  /** The row after an attempt that was delivered: settled by what the operations answered on
      the rows they ran on, or by the receipt that was there already. */
  ghost predicate DeliveredRow(db: Database, r: RequestId, p: Payload, e: Entry) {
    if exists receipt :: Meets(db, r, receipt) then
      exists receipt :: Meets(db, r, receipt) &&
        if receipt.payload.hash == p.hash && receipt.payload.kind == p.kind && receipt.payload.statementCount == p.statementCount then
          e.status == Status.Applied && e.position == Some(Coverage(receipt.generation, receipt.seqNo))
        else e.status == Failed && e.disposition == Blocking
    else
      match p.effect(db.data)
      case Commit(_) => e.status == Status.Applied && e.position.Some? && e.position.value.generation == db.generation
      case Violation => e.status == Failed && e.disposition == TerminalRejected
      case OtherError => e.status == Failed && e.disposition == Blocking
  }

  /** A row that is not applied keeps whether its error looked ambiguous. */
  ghost predicate RowFollows(db: Database, r: RequestId, p: Payload, fate: Fate, ambiguous: bool, e: Entry) {
    && e.looksAmbiguous == (ambiguous && e.status != Status.Applied)
    && match fate
       case Delivered => DeliveredRow(db, r, p, e)
       case ReplyLost => e.status == Pending
       case NotReached => e.status == Pending
       case ReplyMisread => e.status == Failed && e.disposition == Blocking
       case BadPayload => e.status == Failed && e.disposition == Blocking
  }

  ghost predicate AttemptAt(before: Store, r: RequestId, fate: Fate, ambiguous: bool, after: Store) {
    && r in before.journal && OneRowChanged(before.journal, after.journal, r)
    && DatabaseFollows(before.db, r, before.journal[r].payload, fate, after.db)
    && RowFollows(before.db, r, before.journal[r].payload, fate, ambiguous, after.journal[r])
  }

  lemma TransactionFollows(db: Database, r: RequestId, p: Payload, forced: Option<nat>, seqNo: nat)
    requires LastSeq(db.log) < seqNo && (forced.Some? ==> forced.value == db.generation)
    ensures DatabaseFollows(db, r, p, Delivered, ApplyWithReceipt(db, r, p, forced, seqNo).db)
  {
    HasReceiptMeansSome(db.log, r);
  }

  lemma MeetsReceipt(db: Database, r: RequestId)
    ensures HasReceipt(db.log, r) <==> exists receipt :: Meets(db, r, receipt)
    ensures HasReceipt(db.log, r) ==> Meets(db, r, FindReceipt(db.log, r).value)
  {
    if HasReceipt(db.log, r) {
      assert Meets(db, r, FindReceipt(db.log, r).value);
    }
    HasReceiptMeansSome(db.log, r);
    if receipt :| Meets(db, r, receipt) {
      var i :| 0 <= i < |db.log| && db.log[i] == receipt;
      assert db.log[i].request == r;
    }
  }

  lemma OutcomeFollows(db: Database, j: Journal, r: RequestId, p: Payload, forced: Option<nat>, seqNo: nat, looksAmbiguous: bool)
    requires r in j && (forced.Some? ==> forced.value == db.generation)
    ensures var phase := PhaseAfter(ApplyWithReceipt(db, r, p, forced, seqNo).outcome, Heard);
            DeliveredRow(db, r, p, MarkByPhase(j, Executor(r, p, forced, false, phase), looksAmbiguous)[r])
  {
    MeetsReceipt(db, r);
  }

  /** The table holds of every attempt. */
  lemma SettledFollows(s: Store, r: RequestId, forced: Option<nat>, weather: Weather, n: nat)
    requires r in s.journal && (forced.Some? ==> forced.value == s.db.generation)
    ensures AttemptAt(s, r, weather.fate(n), weather.looksAmbiguous(n), Settled(s, r, s.journal[r].payload, forced, weather, n).0)
  {
    hide DatabaseFollows, DeliveredRow;
    var p, seqNo := s.journal[r].payload, LastSeq(s.db.log) + 1 + weather.burnt(n);
    SettledOneRow(s, r, p, forced, weather, n);
    TransactionFollows(s.db, r, p, forced, seqNo);
    SameDatabaseFollows(s.db, r, p, ApplyWithReceipt(s.db, r, p, forced, seqNo).db);
    OutcomeFollows(s.db, s.journal, r, p, forced, seqNo, weather.looksAmbiguous(n));
    hide ApplyWithReceipt;
  }

  lemma SameDatabaseFollows(db: Database, r: RequestId, p: Payload, after: Database)
    requires DatabaseFollows(db, r, p, Delivered, after)
    ensures DatabaseFollows(db, r, p, ReplyLost, after) && DatabaseFollows(db, r, p, ReplyMisread, after)
    ensures DatabaseFollows(db, r, p, NotReached, db) && DatabaseFollows(db, r, p, BadPayload, db)
  {
  }

  // ---- Attempt after attempt

  /** The stores between the attempts at these rows. */
  ghost predicate Trace(trace: seq<Store>, rows: seq<RequestId>, weather: Weather, n: nat) {
    |trace| == |rows| + 1 && forall i :: 0 <= i < |rows| ==>
      AttemptAt(trace[i], rows[i], weather.fate(n + i), weather.looksAmbiguous(n + i), trace[i + 1])
  }

  /** Refused for good because its operations answered with a violation. */
  ghost predicate Violated(trace: seq<Store>, rows: seq<RequestId>, weather: Weather, n: nat, r: RequestId) {
    exists i :: 0 <= i < |rows| && i < |trace| && rows[i] == r && r in trace[i].journal && weather.fate(n + i).Delivered?
                && trace[i].journal[r].payload.effect(trace[i].db.data).Violation?
  }

  lemma OneAttemptRefuses(before: Store, r: RequestId, fate: Fate, ambiguous: bool, after: Store, q: RequestId)
    requires AttemptAt(before, r, fate, ambiguous, after) && q in after.journal && Terminal(after.journal[q])
    ensures q in before.journal
    ensures Terminal(before.journal[q])
            || (q == r && fate.Delivered? && before.journal[q].payload.effect(before.db.data).Violation?)
  {
    hide DatabaseFollows;
  }

  lemma {:induction false} TraceKeys(trace: seq<Store>, rows: seq<RequestId>, weather: Weather, n: nat)
    requires Trace(trace, rows, weather, n)
    ensures forall i :: 0 <= i < |trace| ==> trace[i].journal.Keys == trace[0].journal.Keys
    decreases |rows|
  {
    hide AttemptAt;
    if |rows| > 0 {
      var k := |rows| - 1;
      TraceKeys(trace[..k + 1], rows[..k], weather, n);
      AttemptKeys(trace[k], rows[k], weather.fate(n + k), weather.looksAmbiguous(n + k), trace[k + 1]);
      assert forall i :: 0 <= i <= k ==> trace[..k + 1][i] == trace[i];
    }
  }

  lemma AttemptKeys(before: Store, r: RequestId, fate: Fate, ambiguous: bool, after: Store)
    requires AttemptAt(before, r, fate, ambiguous, after)
    ensures after.journal.Keys == before.journal.Keys
  {
    hide DatabaseFollows, RowFollows;
  }

  /** No row is refused for good but for a violation. */
  lemma {:induction false} OnlyViolationsRefuse(trace: seq<Store>, rows: seq<RequestId>, weather: Weather, n: nat, r: RequestId)
    requires Trace(trace, rows, weather, n)
    requires r in trace[|rows|].journal && Terminal(trace[|rows|].journal[r])
    ensures r in trace[0].journal && (Terminal(trace[0].journal[r]) || Violated(trace, rows, weather, n, r))
    decreases |rows|
  {
    hide AttemptAt;
    TraceKeys(trace, rows, weather, n);
    if |rows| > 0 {
      var k := |rows| - 1;
      OneAttemptRefuses(trace[k], rows[k], weather.fate(n + k), weather.looksAmbiguous(n + k), trace[k + 1], r);
      if Terminal(trace[k].journal[r]) {
        OnlyViolationsRefuse(trace[..k + 1], rows[..k], weather, n, r);
        if Violated(trace[..k + 1], rows[..k], weather, n, r) {
          var i :| 0 <= i < k && rows[..k][i] == r && r in trace[i].journal && weather.fate(n + i).Delivered?
                   && trace[i].journal[r].payload.effect(trace[i].db.data).Violation?;
          assert rows[i] == r;
        }
      } else {
        assert rows[k] == r;
      }
    }
  }

  // ---- The attempts of the recovery replay

  predicate SettledRow(e: Entry) {
    e.status == Status.Applied || Terminal(e)
  }

  ghost predicate Settles(trace: seq<Store>, rows: seq<RequestId>, i: nat) {
    i + 1 < |trace| && i < |rows| && rows[i] in trace[i + 1].journal && SettledRow(trace[i + 1].journal[rows[i]])
  }

  /** Attempt after attempt, each settling its row, up to one that does not and ends the replay. */
  ghost predicate Replays(trace: seq<Store>, rows: seq<RequestId>, weather: Weather, n: nat, threw: bool) {
    && Trace(trace, rows, weather, n)
    && (threw ==> |rows| > 0)
    && forall i :: 0 <= i < |rows| ==> (Settles(trace, rows, i) <==> !(threw && i == |rows| - 1))
  }

  lemma PhaseSettles(s: Store, r: RequestId, target: nat, weather: Weather, n: nat)
    requires r in s.journal
    ensures var (after, phase) := Settled(s, r, s.journal[r].payload, Some(target), weather, n);
            r in after.journal && (SettledRow(after.journal[r]) <==> phase.Done? || phase.Refused?)
  {
    hide ApplyWithReceipt;
  }

  lemma ReplaysNothing(s: Store, weather: Weather, n: nat)
    ensures Replays([s], [], weather, n, false)
  {
  }

  lemma ReplaysFirst(before: Store, r: RequestId, weather: Weather, n: nat, after: Store,
                     trace: seq<Store>, rows: seq<RequestId>, threw: bool)
    requires AttemptAt(before, r, weather.fate(n), weather.looksAmbiguous(n), after) && r in after.journal && SettledRow(after.journal[r])
    requires Replays(trace, rows, weather, n + 1, threw) && trace[0] == after
    ensures Replays([before] + trace, [r] + rows, weather, n, threw)
  {
    hide AttemptAt, SettledRow;
    var trace', rows' := [before] + trace, [r] + rows;
    forall i | 0 <= i < |rows'|
      ensures AttemptAt(trace'[i], rows'[i], weather.fate(n + i), weather.looksAmbiguous(n + i), trace'[i + 1])
      ensures Settles(trace', rows', i) <==> !(threw && i == |rows'| - 1)
    {
      if i > 0 {
        assert Settles(trace, rows, i - 1) <==> Settles(trace', rows', i);
        assert n + i == n + 1 + (i - 1);
      }
    }
  }

  lemma ReplaysFailing(before: Store, r: RequestId, weather: Weather, n: nat, after: Store)
    requires AttemptAt(before, r, weather.fate(n), weather.looksAmbiguous(n), after) && r in after.journal && !SettledRow(after.journal[r])
    ensures Replays([before, after], [r], weather, n, true)
  {
    hide AttemptAt, SettledRow;
  }

  /** A batch of the replay is such a run of attempts at its rows. */
  lemma {:induction false} ReplayedTrace(s: Store, batch: seq<RequestId>, target: nat, weather: Weather, n: nat)
    returns (trace: seq<Store>, rows: seq<RequestId>)
    requires s.db.generation == target && forall i :: 0 <= i < |batch| ==> batch[i] in s.journal
    ensures var res := Replayed(s, batch, target, weather, n);
            && Replays(trace, rows, weather, n, res.threw) && trace[0] == s && trace[|rows|] == res.store
            && rows <= batch && (!res.threw ==> rows == batch)
    decreases |batch|
  {
    hide Settled, AttemptAt, SettledRow, Replays;
    if |batch| == 0 {
      trace, rows := [s], [];
      ReplaysNothing(s, weather, n);
    } else {
      var r := batch[0];
      var (after, phase) := Settled(s, r, s.journal[r].payload, Some(target), weather, n);
      SettledFollows(s, r, Some(target), weather, n);
      SettledOneRow(s, r, s.journal[r].payload, Some(target), weather, n);
      PhaseSettles(s, r, target, weather, n);
      if phase.Done? || phase.Refused? {
        trace, rows := ReplayedTrace(after, batch[1..], target, weather, n + 1);
        ReplaysFirst(s, r, weather, n, after, trace, rows, Replayed(after, batch[1..], target, weather, n + 1).threw);
        trace, rows := [s] + trace, [r] + rows;
      } else {
        ReplaysFailing(s, r, weather, n, after);
        trace, rows := [s, after], [r];
      }
    }
  }

  /** One replay goes on where another has ended without an error. */
  lemma ReplaysThen(a: seq<Store>, rowsA: seq<RequestId>, b: seq<Store>, rowsB: seq<RequestId>, weather: Weather, n: nat, threw: bool)
    requires Replays(a, rowsA, weather, n, false) && Replays(b, rowsB, weather, n + |rowsA|, threw) && a[|rowsA|] == b[0]
    ensures Replays(a + b[1..], rowsA + rowsB, weather, n, threw)
    ensures (a + b[1..])[0] == a[0] && (a + b[1..])[|rowsA + rowsB|] == b[|rowsB|]
  {
    hide AttemptAt, SettledRow;
    var trace, rows, m := a + b[1..], rowsA + rowsB, |rowsA|;
    assert forall i :: 0 <= i <= |rowsB| ==> trace[m + i] == b[i];
    forall i | 0 <= i < |rows|
      ensures AttemptAt(trace[i], rows[i], weather.fate(n + i), weather.looksAmbiguous(n + i), trace[i + 1])
      ensures Settles(trace, rows, i) <==> !(threw && i == |rows| - 1)
    {
      if i < m {
        assert Settles(a, rowsA, i) <==> Settles(trace, rows, i);
      } else {
        assert trace[m + (i - m)] == b[i - m] && trace[m + (i - m + 1)] == b[i - m + 1];
        assert Settles(b, rowsB, i - m) <==> Settles(trace, rows, i);
        assert n + i == n + m + (i - m);
      }
    }
  }

  /** The attempt that this place of the replay was made with ran its operations for the first
      time, and they answered with an error that is no violation. */
  ghost predicate Errs(trace: seq<Store>, rows: seq<RequestId>, weather: Weather, n: nat, i: nat) {
    && i < |rows| && i < |trace| && rows[i] in trace[i].journal && weather.fate(n + i).Delivered?
    && (forall k :: 0 <= k < |trace[i].db.log| ==> trace[i].db.log[k].request != rows[i])
    && trace[i].journal[rows[i]].payload.effect(trace[i].db.data).OtherError?
  }

  /** Any other error ends the replay and leaves its row failed and blocking. */
  lemma ErrorsThrow(trace: seq<Store>, rows: seq<RequestId>, weather: Weather, n: nat, threw: bool, i: nat)
    requires Replays(trace, rows, weather, n, threw) && Errs(trace, rows, weather, n, i)
    ensures threw && i == |rows| - 1
    ensures var e := trace[|rows|].journal[rows[i]]; e.status == Failed && e.disposition == Blocking
  {
    assert AttemptAt(trace[i], rows[i], weather.fate(n + i), weather.looksAmbiguous(n + i), trace[i + 1]);
    assert !Settles(trace, rows, i);
  }

  // ---- How many were replayed

  ghost function AppliedOf(j: Journal, pool: set<RequestId>): set<RequestId> {
    set r | r in pool && r in j && j[r].status == Status.Applied
  }

  ghost function RowsOf(batch: seq<RequestId>): set<RequestId> {
    set i | 0 <= i < |batch| :: batch[i]
  }

  lemma RowsOfRest(batch: seq<RequestId>)
    requires |batch| > 0 && Distinct(batch)
    ensures RowsOf(batch) == RowsOf(batch[1..]) + {batch[0]} && batch[0] !in RowsOf(batch[1..]) && Distinct(batch[1..])
  {
    assert batch == [batch[0]] + batch[1..];
  }

  /** A batch without an error takes all its rows out of the replay, and counts those that
      end applied. */
  lemma {:induction false} BatchCounts(base: Data, s: Store, batch: seq<RequestId>, start: seq<Receipt>, snapshot: Coverage,
                                       target: nat, weather: Weather, n: nat)
    requires Replaying(base, s, start, snapshot, target)
    requires Distinct(batch) && forall k :: 0 <= k < |batch| ==> batch[k] in EligibleSet(s.journal, snapshot, target)
    ensures var res := Replayed(s, batch, target, weather, n);
            && (forall q :: q in s.journal && q !in RowsOf(batch) ==> q in res.store.journal && res.store.journal[q] == s.journal[q])
            && (!res.threw ==>
                  && EligibleSet(res.store.journal, snapshot, target) == EligibleSet(s.journal, snapshot, target) - RowsOf(batch)
                  && res.replayed == |AppliedOf(res.store.journal, RowsOf(batch))|)
    decreases |batch|
  {
    hide Settled, WellFormed, LogWithin, RowsOf;
    if |batch| == 0 {
      assert RowsOf([]) == {} by { NoRows(); }
      assert AppliedOf(s.journal, {}) == {};
    } else {
      var r := batch[0];
      assert r in EligibleSet(s.journal, snapshot, target);
      var (after, phase) := Settled(s, r, s.journal[r].payload, Some(target), weather, n);
      RowsOfRest(batch);
      SettledProgress(base, s, r, snapshot, target, weather, n);
      AppliedIsDone(s, r, target, weather, n);
      if phase.Done? || phase.Refused? {
        BatchCounts(base, after, batch[1..], start, snapshot, target, weather, n + 1);
        var res := Replayed(after, batch[1..], target, weather, n + 1);
        OneMoreApplied(res.store.journal, RowsOf(batch[1..]), r);
      }
    }
  }

  lemma NoRows()
    ensures RowsOf([]) == {}
  {
  }

  lemma AppliedIsDone(s: Store, r: RequestId, target: nat, weather: Weather, n: nat)
    requires r in s.journal
    ensures var (after, phase) := Settled(s, r, s.journal[r].payload, Some(target), weather, n);
            r in after.journal && (after.journal[r].status == Status.Applied <==> phase.Done?)
  {
    hide ApplyWithReceipt;
  }

  lemma OneMoreApplied(j: Journal, pool: set<RequestId>, r: RequestId)
    requires r in j && r !in pool
    ensures |AppliedOf(j, pool + {r})| == |AppliedOf(j, pool)| + (if j[r].status == Status.Applied then 1 else 0)
  {
    assert AppliedOf(j, pool + {r}) == AppliedOf(j, pool) + (if j[r].status == Status.Applied then {r} else {});
  }

  /** Rows that were settled before stay so while a batch of other rows is replayed. */
  lemma AppliedTogether(j: Journal, after: Journal, done: set<RequestId>, more: set<RequestId>)
    requires done !! more && forall q :: q in done ==> q in j && q in after && after[q] == j[q]
    ensures |AppliedOf(after, done + more)| == |AppliedOf(j, done)| + |AppliedOf(after, more)|
  {
    assert AppliedOf(after, done + more) == AppliedOf(j, done) + AppliedOf(after, more);
  }

  // ---- The attempts of the background replay

  /** The background replay attempts every row of its batch. */
  lemma {:induction false} SweptTrace(s: Store, batch: seq<RequestId>, weather: Weather, n: nat) returns (trace: seq<Store>)
    requires forall i :: 0 <= i < |batch| ==> batch[i] in s.journal
    ensures Trace(trace, batch, weather, n) && trace[0] == s && trace[|batch|] == Swept(s, batch, weather, n).store
    decreases |batch|
  {
    hide Settled, AttemptAt;
    if |batch| == 0 {
      trace := [s];
    } else {
      var r := batch[0];
      var after := Settled(s, r, s.journal[r].payload, None, weather, n).0;
      SettledFollows(s, r, None, weather, n);
      SettledOneRow(s, r, s.journal[r].payload, None, weather, n);
      var rest := SweptTrace(after, batch[1..], weather, n + 1);
      trace := [s] + rest;
      forall i | 0 <= i < |batch| ensures AttemptAt(trace[i], batch[i], weather.fate(n + i), weather.looksAmbiguous(n + i), trace[i + 1]) {
        if i > 0 {
          assert batch[i] == batch[1..][i - 1] && n + i == n + 1 + (i - 1);
        }
      }
    }
  }

  /** Payloads never change, and rows only when they are attempted. */
  lemma {:induction false} RowsStand(trace: seq<Store>, rows: seq<RequestId>, weather: Weather, n: nat, r: RequestId)
    requires Trace(trace, rows, weather, n) && r in trace[0].journal
    ensures r in trace[|rows|].journal && trace[|rows|].journal[r].payload == trace[0].journal[r].payload
    ensures r !in rows ==> trace[|rows|].journal[r] == trace[0].journal[r]
    decreases |rows|
  {
    hide RowFollows, DatabaseFollows;
    if |rows| > 0 {
      var k := |rows| - 1;
      RowsStand(trace[..k + 1], rows[..k], weather, n, r);
      assert AttemptAt(trace[k], rows[k], weather.fate(n + k), weather.looksAmbiguous(n + k), trace[k + 1]);
      assert r in rows[..k] ==> r in rows;
    }
  }

  lemma TraceParts(trace: seq<Store>, rows: seq<RequestId>, weather: Weather, n: nat, i: nat)
    requires Trace(trace, rows, weather, n) && i <= |rows|
    ensures Trace(trace[..i + 1], rows[..i], weather, n) && Trace(trace[i..], rows[i..], weather, n + i)
  {
    hide AttemptAt;
    forall k | 0 <= k < |rows[i..]|
      ensures AttemptAt(trace[i..][k], rows[i..][k], weather.fate(n + i + k), weather.looksAmbiguous(n + i + k), trace[i..][k + 1])
    {
      assert n + i + k == n + (i + k);
    }
  }

  /** A row that is attempted once keeps what its attempt made of it. */
  lemma AttemptStands(trace: seq<Store>, rows: seq<RequestId>, weather: Weather, n: nat, i: nat)
    requires Trace(trace, rows, weather, n) && Distinct(rows) && i < |rows| && rows[i] in trace[0].journal
    ensures rows[i] in trace[|rows|].journal
    ensures RowFollows(trace[i].db, rows[i], trace[0].journal[rows[i]].payload, weather.fate(n + i), weather.looksAmbiguous(n + i),
                       trace[|rows|].journal[rows[i]])
  {
    var r := rows[i];
    TraceParts(trace, rows, weather, n, i);
    TraceParts(trace, rows, weather, n, i + 1);
    RowsStand(trace[..i + 1], rows[..i], weather, n, r);
    hide RowFollows, DatabaseFollows;
    assert AttemptAt(trace[i], r, weather.fate(n + i), weather.looksAmbiguous(n + i), trace[i + 1]);
    assert r !in rows[i + 1..];
    RowsStand(trace[i + 1..], rows[i + 1..], weather, n + (i + 1), r);
  }

  // ---- From one store to another

  /** The replay leads from the first store to the last. */
  ghost predicate Leads(start: Store, trace: seq<Store>, rows: seq<RequestId>, weather: Weather, threw: bool, end: Store) {
    Replays(trace, rows, weather, 0, threw) && trace[0] == start && trace[|rows|] == end
  }

  lemma LeadsNowhere(start: Store, weather: Weather)
    ensures Leads(start, [start], [], weather, false, start)
  {
    ReplaysNothing(start, weather, 0);
  }

  /** One more batch of the replay. */
  lemma LeadsOn(start: Store, trace: seq<Store>, rows: seq<RequestId>, weather: Weather, s: Store, batch: seq<RequestId>, target: nat)
    returns (trace': seq<Store>, rows': seq<RequestId>)
    requires Leads(start, trace, rows, weather, false, s)
    requires s.db.generation == target && forall i :: 0 <= i < |batch| ==> batch[i] in s.journal
    ensures var res := Replayed(s, batch, target, weather, |rows|);
            && Leads(start, trace', rows', weather, res.threw, res.store)
            && (!res.threw ==> |rows'| == |rows| + |batch|)
  {
    hide Replayed, Replays;
    var piece, part := ReplayedTrace(s, batch, target, weather, |rows|);
    ReplaysShape(trace, rows, weather, 0, false);
    ReplaysShape(piece, part, weather, |rows|, Replayed(s, batch, target, weather, |rows|).threw);
    ReplaysThen(trace, rows, piece, part, weather, 0, Replayed(s, batch, target, weather, |rows|).threw);
    trace', rows' := trace + piece[1..], rows + part;
  }

  lemma ReplaysShape(trace: seq<Store>, rows: seq<RequestId>, weather: Weather, n: nat, threw: bool)
    requires Replays(trace, rows, weather, n, threw)
    ensures |trace| == |rows| + 1
  {
  }

  /** Of the rows that were to be replayed at first, those that are so no more are counted if
      they have been applied. */
  ghost predicate Counted(first: set<RequestId>, j: Journal, snapshot: Coverage, target: nat, replayed: nat) {
    && EligibleSet(j, snapshot, target) <= first <= j.Keys
    && replayed == |AppliedOf(j, first - EligibleSet(j, snapshot, target))|
  }

  lemma NothingCounted(j: Journal, snapshot: Coverage, target: nat)
    ensures Counted(EligibleSet(j, snapshot, target), j, snapshot, target, 0)
  {
    var first := EligibleSet(j, snapshot, target);
    assert AppliedOf(j, first - first) == {};
  }

  lemma CountedMore(base: Data, first: set<RequestId>, s: Store, batch: seq<RequestId>, start: seq<Receipt>, snapshot: Coverage,
                    target: nat, weather: Weather, n: nat, replayed: nat)
    requires Counted(first, s.journal, snapshot, target, replayed) && Replaying(base, s, start, snapshot, target)
    requires Distinct(batch) && forall k :: 0 <= k < |batch| ==> batch[k] in EligibleSet(s.journal, snapshot, target)
    requires Replayed(s, batch, target, weather, n).store.journal.Keys == s.journal.Keys
    ensures var res := Replayed(s, batch, target, weather, n);
            !res.threw ==> Counted(first, res.store.journal, snapshot, target, replayed + res.replayed)
  {
    hide Replaying, Replayed, AppliedOf, RowsOf;
    BatchCounts(base, s, batch, start, snapshot, target, weather, n);
    var res := Replayed(s, batch, target, weather, n);
    var eligible, rows := EligibleSet(s.journal, snapshot, target), RowsOf(batch);
    RowsAmong(batch, eligible);
    if !res.threw {
      AppliedTogether(s.journal, res.store.journal, first - eligible, rows);
      assert first - (eligible - rows) == (first - eligible) + rows;
    }
  }

  lemma RowsAmong(batch: seq<RequestId>, pool: set<RequestId>)
    requires forall k :: 0 <= k < |batch| ==> batch[k] in pool
    ensures RowsOf(batch) <= pool
  {
  }

  lemma AllCounted(first: set<RequestId>, j: Journal, snapshot: Coverage, target: nat, replayed: nat)
    requires Counted(first, j, snapshot, target, replayed) && EligibleSet(j, snapshot, target) == {}
    ensures replayed == |AppliedOf(j, first)|
  {
    assert first - {} == first;
  }

  // ---- What the attempts mean for the rows

  /** A row is newly refused for good only when its operations answered with a violation. */
  ghost predicate OnlyViolated(j: Journal, after: Journal, trace: seq<Store>, rows: seq<RequestId>, weather: Weather) {
    forall r :: r in after && after[r].status == Failed && after[r].disposition == TerminalRejected ==>
      && r in j
      && ((j[r].status == Failed && j[r].disposition == TerminalRejected) || Violated(trace, rows, weather, 0, r))
  }

  /** Any other error of the operations ended the replay and left its row failed and blocking. */
  ghost predicate ErrorsBlock(after: Journal, trace: seq<Store>, rows: seq<RequestId>, weather: Weather, threw: bool) {
    forall i: nat :: Errs(trace, rows, weather, 0, i) ==>
      threw && rows[i] in after && after[rows[i]].status == Failed && after[rows[i]].disposition == Blocking
  }

  /** Every row of the batch is what its own attempt made of it. */
  ghost predicate RowsFollow(j: Journal, after: Journal, trace: seq<Store>, rows: seq<RequestId>, weather: Weather) {
    |trace| == |rows| + 1 && forall i :: 0 <= i < |rows| ==>
      && rows[i] in j && rows[i] in after
      && RowFollows(trace[i].db, rows[i], j[rows[i]].payload, weather.fate(i), weather.looksAmbiguous(i), after[rows[i]])
  }

  lemma RequeueRefusesNothing(j: Journal)
    ensures forall r :: r in RequeueAmbiguousFailed(j) ==>
              r in j && RequeueAmbiguousFailed(j)[r].payload == j[r].payload
              && (Terminal(RequeueAmbiguousFailed(j)[r]) ==> Terminal(j[r]))
    ensures RequeueAmbiguousFailed(j).Keys == j.Keys
  {
  }

  lemma NoAttempts(j: Journal, trace: seq<Store>, weather: Weather)
    ensures OnlyViolated(j, RequeueAmbiguousFailed(j), trace, [], weather)
    ensures ErrorsBlock(RequeueAmbiguousFailed(j), trace, [], weather, true)
  {
    RequeueRefusesNothing(j);
    hide RequeueAmbiguousFailed;
  }

  lemma SweepMeans(j: Journal, trace: seq<Store>, batch: seq<RequestId>, weather: Weather)
    requires Trace(trace, batch, weather, 0) && Distinct(batch) && trace[0].journal == RequeueAmbiguousFailed(j)
    requires forall i :: 0 <= i < |batch| ==> batch[i] in j
    ensures RowsFollow(j, trace[|batch|].journal, trace, batch, weather)
    ensures OnlyViolated(j, trace[|batch|].journal, trace, batch, weather)
  {
    RequeueRefusesNothing(j);
    assert |trace| == |batch| + 1;
    hide RequeueAmbiguousFailed, Trace, RowFollows, Violated;
    var end := trace[|batch|].journal;
    forall i | 0 <= i < |batch|
      ensures batch[i] in end
      ensures RowFollows(trace[i].db, batch[i], j[batch[i]].payload, weather.fate(i), weather.looksAmbiguous(i), end[batch[i]])
    {
      AttemptStands(trace, batch, weather, 0, i);
    }
    forall r | r in end && Terminal(end[r]) ensures r in j && (Terminal(j[r]) || Violated(trace, batch, weather, 0, r)) {
      OnlyViolationsRefuse(trace, batch, weather, 0, r);
    }
  }

  lemma ReplayMeans(j: Journal, start: Store, trace: seq<Store>, rows: seq<RequestId>, weather: Weather, threw: bool, end: Store)
    requires Leads(start, trace, rows, weather, threw, end) && start.journal == RequeueAmbiguousFailed(j)
    ensures OnlyViolated(j, end.journal, trace, rows, weather) && ErrorsBlock(end.journal, trace, rows, weather, threw)
  {
    RequeueRefusesNothing(j);
    assert Trace(trace, rows, weather, 0);
    TraceKeys(trace, rows, weather, 0);
    hide RequeueAmbiguousFailed, Trace, Violated, Replays;
    var after := end.journal;
    forall r | r in after && Terminal(after[r]) ensures r in j && (Terminal(j[r]) || Violated(trace, rows, weather, 0, r)) {
      OnlyViolationsRefuse(trace, rows, weather, 0, r);
    }
    forall i: nat | Errs(trace, rows, weather, 0, i)
      ensures threw && rows[i] in after && after[rows[i]].status == Failed && after[rows[i]].disposition == Blocking
    {
      ErrorsThrow(trace, rows, weather, 0, threw, i);
    }
  }
}
