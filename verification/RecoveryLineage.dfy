/** More that every run keeps: a generation is one line of receipts. Snapshots of the live
    generation are its beginnings, positions of the live generation are those of receipts
    that are there, and a request has one payload wherever it is on record. */
module RecoveryLineage {
  import opened Options
  import opened Postgres
  import opened Journal
  import opened RecoveryProtocol
  import opened RecoveryInvariant
  import opened RecoveryPreservation
  import opened JournalReplay

  /** The generation that new receipts have. */
  function Live(w: World): nat {
    if Restored(w.runtime) then w.runtime.target else w.runtime.generation
  }

  /** The second database goes on from the first, in its own generation. */
  ghost predicate GoesOn(a: Database, b: Database) {
    a.log <= b.log && forall i :: |a.log| <= i < |b.log| ==> b.log[i].generation == b.generation
  }

  ghost predicate SnapshotsOnLine(w: World) {
    !Restored(w.runtime) ==>
      forall b :: b in w.snapshots && w.snapshots[b].generation == w.db.generation ==> GoesOn(w.snapshots[b], w.db)
  }

  /** An applied row has a position; one of the live generation is that of its receipt. */
  ghost predicate RowsReal(w: World) {
    forall r :: r in w.journal && w.journal[r].status == Status.Applied ==>
      && w.journal[r].position.Some?
      && (w.journal[r].position.value.generation == Live(w) ==> ReceiptAt(w.db.log, r, w.journal[r].position.value))
  }

  ghost predicate DonesReal(w: World) {
    forall x :: x in w.executors && w.executors[x].phase.Done? && w.executors[x].phase.position.generation == Live(w) ==>
      ReceiptAt(w.db.log, w.executors[x].request, w.executors[x].phase.position)
  }

  ghost predicate NotLive(w: World, r: RequestId) {
    forall i :: 0 <= i < |w.db.log| && w.db.log[i].generation == Live(w) ==> w.db.log[i].request != r
  }

  /** A request that was refused for good has no receipt of the live generation. */
  ghost predicate RefusedNotLive(w: World) {
    && (forall r :: r in w.journal && Terminal(w.journal[r]) ==> NotLive(w, r))
    && (forall x :: x in w.executors && w.executors[x].phase.Refused? ==> NotLive(w, w.executors[x].request))
  }

  ghost predicate Lineage(w: World) {
    SnapshotsOnLine(w) && RowsReal(w) && DonesReal(w) && RefusedNotLive(w)
  }

  // ---- Every step keeps it

  lemma ReceiptStays(log: seq<Receipt>, log': seq<Receipt>, r: RequestId, position: Coverage)
    requires ReceiptAt(log, r, position) && log <= log'
    ensures ReceiptAt(log', r, position)
  {
    var i :| 0 <= i < |log| && log[i].request == r && Coverage(log[i].generation, log[i].seqNo) == position;
    assert log'[i] == log[i];
  }

  lemma LineageSame(w: World, w': World)
    requires Lineage(w) && w'.db == w.db && Live(w') == Live(w)
    requires Restored(w'.runtime) == Restored(w.runtime) && w'.snapshots == w.snapshots
    requires forall r :: r in w'.journal ==> r in w.journal && w'.journal[r] == w.journal[r]
    requires forall x :: x in w'.executors ==>
               (x in w.executors && w'.executors[x] == w.executors[x])
               || !(w'.executors[x].phase.Done? || w'.executors[x].phase.Refused?)
    ensures Lineage(w')
  {
    hide ReceiptAt, GoesOn, Live;
    forall r | r in w'.journal && Terminal(w'.journal[r]) ensures NotLive(w', r) {
      assert NotLive(w, r);
    }
    forall x | x in w'.executors && w'.executors[x].phase.Refused? ensures NotLive(w', w'.executors[x].request) {
      assert NotLive(w, w.executors[x].request);
    }
  }

  lemma LineageSubmit(w: World, e: Event)
    requires Lineage(w) && Enabled(STRICT, w, e) && e.Submit?
    ensures Lineage(Next(w, e))
  {
    hide ReceiptAt, GoesOn;
    var w' := Next(w, e);
    LineageSame(w, w'.(journal := w.journal));
    forall r | r in w'.journal && Terminal(w'.journal[r]) ensures NotLive(w', r) {
      assert NotLive(w, r);
    }
  }

  lemma LineageBookkeeping(w: World, e: Event)
    requires Lineage(w) && Enabled(STRICT, w, e) && Bookkeeping(e) && !e.Submit?
    ensures Lineage(Next(w, e))
  {
    hide ReceiptAt, GoesOn, Lineage, ApplyWithReceipt;
    LineageSame(w, Next(w, e));
  }

  lemma LineageRequeue(w: World)
    requires Lineage(w)
    ensures Lineage(Next(w, Requeue))
  {
    hide ReceiptAt, GoesOn;
    var w' := Next(w, Requeue);
    forall r | r in w'.journal && Terminal(w'.journal[r]) ensures NotLive(w', r) {
      assert NotLive(w, r);
    }
    forall x | x in w'.executors && w'.executors[x].phase.Refused? ensures NotLive(w', w'.executors[x].request) {
      assert NotLive(w, w.executors[x].request);
    }
  }

  lemma LineageMark(w: World, e: Event)
    requires Lineage(w) && Enabled(STRICT, w, e) && e.Mark?
    ensures Lineage(Next(w, e))
  {
    hide ReceiptAt, GoesOn;
    var w' := Next(w, e);
    forall r | r in w'.journal && Terminal(w'.journal[r]) ensures NotLive(w', r) {
      if w'.journal[r] == w.journal[r] {
        assert NotLive(w, r);
      } else {
        assert NotLive(w, w.executors[e.x].request);
      }
    }
    forall x | x in w'.executors && w'.executors[x].phase.Refused? ensures NotLive(w', w'.executors[x].request) {
      assert NotLive(w, w.executors[x].request);
    }
  }

  /** What a transaction means for the line of receipts. */
  lemma TransactExtends(w: World, e: Event)
    requires TimelineOk(w) && Enabled(STRICT, w, e) && e.Transact?
    ensures e.x in w.executors && e.x in Next(w, e).executors
    ensures var w' := Next(w, e);
            var ex, ex' := w.executors[e.x], w'.executors[e.x];
            && TransactShape(w, w', e.x, e.seqNo) && w.db.log <= w'.db.log
            && w.db.generation == Live(w) == Live(w')
            && (ex'.phase.Refused? ==> w'.db == w.db && !HasReceipt(w.db.log, ex.request))
            && (ex'.phase.Done? ==> ReceiptAt(w'.db.log, ex.request, ex'.phase.position))
  {
    TransactHasShape(w, e);
    TransactionShape(w.db, w.executors[e.x].request, w.executors[e.x].payload, w.executors[e.x].forced, e.seqNo);
  }

  lemma LineageTransact(w: World, e: Event)
    requires Lineage(w) && TimelineOk(w) && ExecutorsOk(w) && Enabled(STRICT, w, e) && e.Transact?
    ensures Lineage(Next(w, e))
  {
    hide ReceiptAt, HasReceipt, Next, Enabled, Live, TimelineOk;
    var w' := Next(w, e);
    TransactExtends(w, e);
    LineageRowsTransact(w, w', e.x, e.seqNo);
    LineageRefusedTransact(w, w', e.x, e.seqNo);
    forall b | b in w'.snapshots && w'.snapshots[b].generation == w'.db.generation && !Restored(w'.runtime)
      ensures GoesOn(w'.snapshots[b], w'.db)
    {
      assert GoesOn(w.snapshots[b], w.db);
    }
    forall y | y in w'.executors && w'.executors[y].phase.Done? && w'.executors[y].phase.position.generation == Live(w')
      ensures ReceiptAt(w'.db.log, w'.executors[y].request, w'.executors[y].phase.position)
    {
      if y != e.x {
        ReceiptStays(w.db.log, w'.db.log, w.executors[y].request, w.executors[y].phase.position);
      }
    }
  }

  lemma LineageRowsTransact(w: World, w': World, x: ExecutorId, seqNo: nat)
    requires x in w.executors && TransactShape(w, w', x, seqNo) && w.db.log <= w'.db.log && Live(w') == Live(w)
    requires RowsReal(w)
    ensures RowsReal(w')
  {
    hide ReceiptAt, HasReceipt, Live;
    forall r | r in w'.journal && w'.journal[r].status == Status.Applied
      ensures w'.journal[r].position.Some?
      ensures w'.journal[r].position.value.generation == Live(w') ==> ReceiptAt(w'.db.log, r, w'.journal[r].position.value)
    {
      assert w.journal[r].position.Some?;
      if w.journal[r].position.value.generation == Live(w') {
        ReceiptStays(w.db.log, w'.db.log, r, w.journal[r].position.value);
      }
    }
  }

  lemma LineageRefusedTransact(w: World, w': World, x: ExecutorId, seqNo: nat)
    requires x in w.executors && TransactShape(w, w', x, seqNo) && Live(w') == Live(w) && ExecutorsOk(w)
    requires w'.executors[x].phase.Refused? ==> w'.db == w.db && !HasReceipt(w.db.log, w.executors[x].request)
    requires RefusedNotLive(w)
    ensures RefusedNotLive(w')
  {
    hide HasReceipt, Live;
    var r := w.executors[x].request;
    assert r in w.journal && !Terminal(w.journal[r]);
    forall q | q in w'.journal && Terminal(w'.journal[q]) ensures NotLive(w', q) {
      assert NotLive(w, q);
    }
    forall y | y in w'.executors && w'.executors[y].phase.Refused? ensures NotLive(w', w'.executors[y].request) {
      if y == x {
        HasReceiptMeansSome(w.db.log, r);
      } else {
        assert NotLive(w, w.executors[y].request);
      }
    }
  }

  lemma LineageSnapshots(w: World, e: Event)
    requires Lineage(w) && Enabled(STRICT, w, e) && SnapshotEvent(e)
    ensures Lineage(Next(w, e))
  {
    hide ReceiptAt;
    var w' := Next(w, e);
    forall r | r in w'.journal && Terminal(w'.journal[r]) ensures NotLive(w', r) {
      assert NotLive(w, r);
    }
    forall x | x in w'.executors && w'.executors[x].phase.Refused? ensures NotLive(w', w'.executors[x].request) {
      assert NotLive(w, w.executors[x].request);
    }
  }

  /** Nothing of the target generation is on record before the promotion. */
  lemma LineageRestore(base: Data, w: World)
    requires Lineage(w) && Sound(base, w) && TimelineOk(w) && Enabled(STRICT, w, Restore)
    ensures Lineage(Next(w, Restore))
  {
    hide ReceiptAt, GoesOn, Fold, DistinctRequests;
    var w' := Next(w, Restore);
    assert forall i :: 0 <= i < |w'.db.log| ==> w'.db.log[i].generation < Live(w');
  }

  lemma LineageBegin(w: World, e: Event)
    requires Lineage(w) && Enabled(STRICT, w, e) && e.Begin?
    ensures Lineage(Next(w, e))
  {
    hide ReceiptAt, GoesOn, Lineage;
    LineageSame(w, Next(w, e));
  }

  lemma LineageGeneration(base: Data, w: World, e: Event)
    requires Lineage(w) && Sound(base, w) && Enabled(STRICT, w, e) && (e.Promote? || e.Complete?)
    ensures Lineage(Next(w, e))
  {
    hide ReceiptAt, GoesOn;
    var w' := Next(w, e);
    assert Live(w') == Live(w) && w'.db.log == w.db.log;
    forall r | r in w'.journal && Terminal(w'.journal[r]) ensures NotLive(w', r) {
      assert NotLive(w, r);
    }
    forall x | x in w'.executors && w'.executors[x].phase.Refused? ensures NotLive(w', w'.executors[x].request) {
      assert NotLive(w, w.executors[x].request);
    }
  }

  lemma LineageNext(base: Data, w: World, e: Event)
    requires Inv(base, w) && Lineage(w) && Enabled(STRICT, w, e)
    ensures Lineage(Next(w, e))
  {
    hide Lineage, Enabled, Next;
    InvGives(base, w);
    if e.Submit? { LineageSubmit(w, e); }
    else if Bookkeeping(e) { LineageBookkeeping(w, e); }
    else if e.Requeue? { LineageRequeue(w); }
    else if e.Mark? { LineageMark(w, e); }
    else if e.Transact? { LineageTransact(w, e); }
    else if SnapshotEvent(e) { LineageSnapshots(w, e); }
    else if e.Restore? { LineageRestore(base, w); }
    else if e.Begin? { LineageBegin(w, e); }
    else { LineageGeneration(base, w, e); }
  }

  lemma InvGives(base: Data, w: World)
    requires Inv(base, w)
    ensures Sound(base, w) && TimelineOk(w) && ExecutorsOk(w)
  {
  }

  lemma {:induction false} LineageExecute(base: Data, w: World, events: seq<Event>, w': World)
    requires Inv(base, w) && Lineage(w) && Execute(STRICT, w, events) == Some(w')
    ensures Inv(base, w') && Lineage(w')
    decreases |events|
  {
    hide Inv, Lineage, Next, Enabled;
    if |events| > 0 {
      InvNext(base, w, events[0]);
      LineageNext(base, w, events[0]);
      LineageExecute(base, Next(w, events[0]), events[1..], w');
    }
  }

  /** What the runs keep, in every reachable state. */
  lemma LineageReachable(base: Data, w: World)
    requires Reachable(STRICT, base, w)
    ensures Inv(base, w) && Lineage(w)
  {
    var events :| Execute(STRICT, Genesis(base), events) == Some(w);
    InvGenesis(base);
    LineageExecute(base, Genesis(base), events, w);
  }

  // ---- Payloads

  ghost predicate LogSays(log: seq<Receipt>, p: map<RequestId, Payload>) {
    forall i :: 0 <= i < |log| ==> log[i].request in p && p[log[i].request] == log[i].payload
  }

  /** One payload for each request that was ever issued. */
  ghost predicate Says(w: World, p: map<RequestId, Payload>) {
    && p.Keys == w.issued
    && (forall r :: r in w.journal ==> r in p && p[r] == w.journal[r].payload)
    && (forall x :: x in w.executors ==> w.executors[x].request in p && p[w.executors[x].request] == w.executors[x].payload)
    && LogSays(w.db.log, p)
    && (forall b :: b in w.snapshots ==> LogSays(w.snapshots[b].log, p))
    && (w.runtime.Recovering? ==> LogSays(w.runtime.snapshot.log, p))
  }

  lemma LogSaysMore(log: seq<Receipt>, p: map<RequestId, Payload>, r: RequestId, payload: Payload)
    requires LogSays(log, p) && r !in p
    ensures LogSays(log, p[r := payload])
  {
  }

  lemma SaysSubmit(rules: Rules, w: World, e: Event, p: map<RequestId, Payload>)
    requires Says(w, p) && Enabled(rules, w, e) && e.Submit?
    ensures Says(Next(w, e), p[e.r := e.payload])
  {
    hide LogSays;
    LogSaysMore(w.db.log, p, e.r, e.payload);
    forall b | b in w.snapshots ensures LogSays(w.snapshots[b].log, p[e.r := e.payload]) {
      LogSaysMore(w.snapshots[b].log, p, e.r, e.payload);
    }
    if w.runtime.Recovering? {
      LogSaysMore(w.runtime.snapshot.log, p, e.r, e.payload);
    }
  }

  lemma SaysTransact(rules: Rules, w: World, e: Event, p: map<RequestId, Payload>)
    requires Says(w, p) && Enabled(rules, w, e) && e.Transact?
    ensures Says(Next(w, e), p)
  {
    hide ApplyWithReceipt, PhaseAfter;
    var ex := w.executors[e.x];
    TransactionShape(w.db, ex.request, ex.payload, ex.forced, e.seqNo);
  }

  lemma SaysBookkeeping(rules: Rules, w: World, e: Event, p: map<RequestId, Payload>)
    requires Says(w, p) && Enabled(rules, w, e) && Bookkeeping(e) && !e.Submit?
    ensures Says(Next(w, e), p)
  {
    hide LogSays, CoverageOf, InTurn, Busy;
  }

  lemma SaysRowUpdate(rules: Rules, w: World, e: Event, p: map<RequestId, Payload>)
    requires Says(w, p) && Enabled(rules, w, e) && RowUpdate(e)
    ensures Says(Next(w, e), p)
  {
    hide LogSays;
  }

  lemma SaysOther(rules: Rules, w: World, e: Event, p: map<RequestId, Payload>)
    requires Says(w, p) && Enabled(rules, w, e) && (SnapshotEvent(e) || RuntimeEvent(e))
    ensures Says(Next(w, e), p)
  {
    hide LogSays;
  }

  lemma SaysNext(rules: Rules, w: World, e: Event, p: map<RequestId, Payload>) returns (p': map<RequestId, Payload>)
    requires Says(w, p) && Enabled(rules, w, e)
    ensures Says(Next(w, e), p')
  {
    hide Says, Enabled, Next;
    p' := if e.Submit? then p[e.r := e.payload] else p;
    if e.Submit? { SaysSubmit(rules, w, e, p); }
    else if e.Transact? { SaysTransact(rules, w, e, p); }
    else if Bookkeeping(e) { SaysBookkeeping(rules, w, e, p); }
    else if RowUpdate(e) { SaysRowUpdate(rules, w, e, p); }
    else { SaysOther(rules, w, e, p); }
  }

  lemma {:induction false} SaysExecute(rules: Rules, w: World, events: seq<Event>, w': World, p: map<RequestId, Payload>)
    returns (p': map<RequestId, Payload>)
    requires Says(w, p) && Execute(rules, w, events) == Some(w')
    ensures Says(w', p')
    decreases |events|
  {
    hide Says, Next, Enabled;
    if |events| == 0 {
      p' := p;
    } else {
      var mid := SaysNext(rules, w, events[0], p);
      p' := SaysExecute(rules, Next(w, events[0]), events[1..], w', mid);
    }
  }

  /** Under any rules, rows, executors and receipts agree on the payload of a request. */
  lemma SaysReachable(rules: Rules, base: Data, w: World) returns (p: map<RequestId, Payload>)
    requires Reachable(rules, base, w)
    ensures Says(w, p)
  {
    var events :| Execute(rules, Genesis(base), events) == Some(w);
    p := SaysExecute(rules, Genesis(base), events, w, map[]);
  }
}
