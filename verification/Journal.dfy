/** The D1 write journal: one row per request, and the status updates the executors make. */
module Journal {
  import opened Options
  import opened Postgres

  datatype Status = Pending | Applied | Failed
  datatype Disposition = Blocking | TerminalRejected

  /** The (generation, receipt_seq) pair, compared lexicographically. */
  datatype Coverage = Coverage(generation: nat, watermark: nat) {
    predicate Le(other: Coverage) {
      generation < other.generation || (generation == other.generation && watermark <= other.watermark)
    }
  }

  function MaxCoverage(a: Coverage, b: Coverage): Coverage {
    if a.Le(b) then b else a
  }

  /** `looksAmbiguous` says whether last_error holds one of the ambiguity markers that the
      requeue statement searches for. `position` is postgres_generation and
      postgres_receipt_seq, which are only ever written together. */
  datatype Entry = Entry(
    payload: Payload,
    createdAt: nat,
    status: Status,
    disposition: Disposition,
    looksAmbiguous: bool,
    position: Option<Coverage>)

  type Journal = map<RequestId, Entry>

  function PendingEntry(p: Payload, createdAt: nat): Entry {
    Entry(p, createdAt, Pending, Blocking, false, None)
  }

  /** UPDATE ... WHERE request_id = ?: no row, no change. */
  function MarkApplied(j: Journal, r: RequestId, position: Coverage): Journal {
    if r !in j then j
    else j[r := j[r].(status := Applied, disposition := Blocking, looksAmbiguous := false, position := Some(position))]
  }

  function MarkPending(j: Journal, r: RequestId, looksAmbiguous: bool): Journal {
    if r !in j then j
    else j[r := j[r].(status := Pending, disposition := Blocking, looksAmbiguous := looksAmbiguous)]
  }

  function MarkFailed(j: Journal, r: RequestId, disposition: Disposition, looksAmbiguous: bool): Journal {
    if r !in j then j
    else j[r := j[r].(status := Failed, disposition := disposition, looksAmbiguous := looksAmbiguous)]
  }

  predicate Requeueable(e: Entry) {
    e.status == Failed && e.disposition == Blocking && e.looksAmbiguous
  }

  function RequeueAmbiguousFailed(j: Journal): Journal {
    map r | r in j :: if Requeueable(j[r]) then j[r].(status := Pending, disposition := Blocking) else j[r]
  }

  predicate Terminal(e: Entry) {
    e.status == Failed && e.disposition == TerminalRejected
  }

  /** The rows the background replay takes up. */
  predicate ReplayCandidate(e: Entry) {
    e.status == Pending || (e.status == Applied && e.position.None?)
  }

  /** An applied row whose receipt the restored snapshot does not hold. */
  predicate Uncovered(position: Coverage, snapshot: Coverage, target: nat) {
    position.generation < target && !position.Le(snapshot)
  }

  /** The rows the recovery replay takes up. */
  predicate ReplayEligible(e: Entry, snapshot: Coverage, target: nat) {
    || e.status == Pending
    || (e.status == Applied && (e.position.None? || Uncovered(e.position.value, snapshot, target)))
  }

  /** The rows that hold recovery back. */
  predicate Outstanding(e: Entry, snapshot: Coverage, target: nat) {
    ReplayEligible(e, snapshot, target) || (e.status == Failed && e.disposition == Blocking)
  }

  /** The rows a verified snapshot lets the cleanup delete. */
  predicate Cleanable(e: Entry, snapshot: Coverage) {
    e.status == Applied && e.position.Some? && e.position.value.Le(snapshot)
  }

  lemma CoverageIsTotalOrder(a: Coverage, b: Coverage, c: Coverage)
    ensures a.Le(b) || b.Le(a)
    ensures a.Le(b) && b.Le(a) ==> a == b
    ensures a.Le(b) && b.Le(c) ==> a.Le(c)
  {
  }

  /** After a replayed row is marked, it is out of the replay batch exactly when the
      receipt it got is one the snapshot covers or one of the target generation. A receipt
      above the recorded watermark in an older generation is taken up again for ever. */
  lemma MarkingShrinksReplayExactlyWhenCovered(j: Journal, r: RequestId, position: Coverage,
                                               snapshot: Coverage, target: nat)
    requires r in j && ReplayEligible(j[r], snapshot, target)
    ensures var after := MarkApplied(j, r, position);
            && (EligibleSet(after, snapshot, target) < EligibleSet(j, snapshot, target)
                <==> position.generation >= target || position.Le(snapshot))
            && (!(position.generation >= target || position.Le(snapshot)) ==>
                  EligibleSet(after, snapshot, target) == EligibleSet(j, snapshot, target))
  {
    var after := MarkApplied(j, r, position);
    var before := EligibleSet(j, snapshot, target);
    var now := EligibleSet(after, snapshot, target);
    assert forall q :: q in j && q != r ==> after[q] == j[q];
    if position.generation >= target || position.Le(snapshot) {
      assert now == before - {r};
    } else {
      assert now == before;
    }
  }

  ghost function EligibleSet(j: Journal, snapshot: Coverage, target: nat): set<RequestId> {
    set r | r in j && ReplayEligible(j[r], snapshot, target)
  }

  /** A row holds recovery back unless it is refused for good, or applied at the target
      generation or at a position that the snapshot covers; the replay takes up those of them
      that have not failed. */
  lemma HoldsRecoveryBack(e: Entry, snapshot: Coverage, target: nat)
    ensures Outstanding(e, snapshot, target) <==>
              && !(e.status == Failed && e.disposition == TerminalRejected)
              && !(e.status == Applied && e.position.Some? && e.position.value.generation >= target)
              && !(e.status == Applied && e.position.Some? && e.position.value.generation < snapshot.generation)
              && !(e.status == Applied && e.position.Some? && e.position.value.generation == snapshot.generation
                   && e.position.value.watermark <= snapshot.watermark)
    ensures ReplayEligible(e, snapshot, target) <==> Outstanding(e, snapshot, target) && e.status != Failed
  {
  }

  /** Nothing holds recovery back exactly when every row is refused for good or applied at a
      receipt that the snapshot covers or that is of the target generation. */
  lemma NothingOutstanding(j: Journal, snapshot: Coverage, target: nat)
    ensures (forall r :: r in j ==> !Outstanding(j[r], snapshot, target))
            <==> (forall r :: r in j ==>
                    || Terminal(j[r])
                    || (&& j[r].status == Applied && j[r].position.Some?
                        && (j[r].position.value.generation >= target || j[r].position.value.Le(snapshot))))
  {
    forall r | r in j
      ensures !Outstanding(j[r], snapshot, target) <==>
              || Terminal(j[r])
              || (&& j[r].status == Applied && j[r].position.Some?
                  && (j[r].position.value.generation >= target || j[r].position.value.Le(snapshot)))
    {
    }
  }
}
