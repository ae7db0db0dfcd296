/** The PostgreSQL side of a journaled write: the receipts table, the current generation,
    and the one transaction that claims a receipt and then runs the operations. */
module Postgres {
  import opened Options

  type RequestId = nat

  /** The application's rows. What a payload does to them is left arbitrary. */
  type Data = map<string, string>

  /** The result of running a payload's operations: new rows, an integrity violation
      (SQLSTATE class 23), or any other error. Both errors roll the transaction back. */
  datatype Effect = Commit(data: Data) | Violation | OtherError

  datatype Kind = Run | Batch

  /** A journaled payload. The hash stands for the SHA-256 of the payload text. */
  datatype Payload = Payload(hash: nat, kind: Kind, statementCount: nat, effect: Data -> Effect)

  /** A row of the receipts table. The payload is kept whole, so that the rows can be folded. */
  datatype Receipt = Receipt(seqNo: nat, generation: nat, request: RequestId, payload: Payload)

  /** `log` is the receipts table in receipt_seq order. */
  datatype Database = Database(generation: nat, log: seq<Receipt>, data: Data)

  /** COALESCE(MAX(receipt_seq), 0). */
  function LastSeq(log: seq<Receipt>): nat {
    if |log| == 0 then 0 else log[|log| - 1].seqNo
  }

  predicate HasReceipt(log: seq<Receipt>, r: RequestId) {
    |log| > 0 && (log[|log| - 1].request == r || HasReceipt(log[..|log| - 1], r))
  }

  lemma {:induction false} HasReceiptMeansSome(log: seq<Receipt>, r: RequestId)
    ensures HasReceipt(log, r) <==> exists i :: 0 <= i < |log| && log[i].request == r
  {
    if |log| > 0 {
      var rest := log[..|log| - 1];
      HasReceiptMeansSome(rest, r);
      if i :| 0 <= i < |log| && log[i].request == r {
        assert i < |rest| ==> rest[i].request == r;
      }
    }
  }

  lemma HasReceiptAppend(log: seq<Receipt>, receipt: Receipt, r: RequestId)
    ensures HasReceipt(log + [receipt], r) <==> HasReceipt(log, r) || receipt.request == r
  {
    assert (log + [receipt])[..|log|] == log;
  }

  function FindReceipt(log: seq<Receipt>, r: RequestId): (found: Option<Receipt>)
    ensures found.Some? <==> HasReceipt(log, r)
    ensures found.Some? ==> found.value in log && found.value.request == r
  {
    if |log| == 0 then None
    else if log[|log| - 1].request == r then Some(log[|log| - 1])
    else FindReceipt(log[..|log| - 1], r)
  }

  predicate SamePayload(p: Payload, q: Payload) {
    p.hash == q.hash && p.kind == q.kind && p.statementCount == q.statementCount
  }

  datatype TxOutcome =
    | Receipted(receipt: Receipt)
    | ReceiptConflict
    | GenerationMismatch
    | TerminalRejection
    | OtherFailure

  datatype TxResult = TxResult(db: Database, outcome: TxOutcome)

  /** The transaction. The row lock on the runtime state serialises all of them, so a
      transaction is one step. `seqNo` is the value the receipt sequence hands out; values
      burnt by conflicts and rollbacks make it any number above the last receipt. */
  function ApplyWithReceipt(db: Database, r: RequestId, p: Payload, forced: Option<nat>, seqNo: nat): TxResult {
    if forced.Some? && forced.value != db.generation then
      TxResult(db, GenerationMismatch)
    else
      match FindReceipt(db.log, r)
      case Some(existing) =>
        TxResult(db, if SamePayload(existing.payload, p) then Receipted(existing) else ReceiptConflict)
      case None =>
        match p.effect(db.data)
        case Commit(data) =>
          var receipt := Receipt(seqNo, db.generation, r, p);
          TxResult(Database(db.generation, db.log + [receipt], data), Receipted(receipt))
        case Violation => TxResult(db, TerminalRejection)
        case OtherError => TxResult(db, OtherFailure)
  }

  /** A transaction leaves the database alone or adds one receipt at the end, and answers
      only with a receipt that is in the table. */
  lemma TransactionShape(db: Database, r: RequestId, p: Payload, forced: Option<nat>, seqNo: nat)
    ensures var res := ApplyWithReceipt(db, r, p, forced, seqNo);
            && res.db.generation == db.generation
            && (res.outcome == GenerationMismatch <==> forced.Some? && forced.value != db.generation)
            && (res.db == db
                || (!HasReceipt(db.log, r) && res.db.log == db.log + [Receipt(seqNo, db.generation, r, p)]
                    && res.outcome == Receipted(Receipt(seqNo, db.generation, r, p))))
            && (res.outcome.Receipted? ==>
                  res.outcome.receipt.request == r
                  && exists i :: 0 <= i < |res.db.log| && res.db.log[i] == res.outcome.receipt)
  {
    var res := ApplyWithReceipt(db, r, p, forced, seqNo);
    if res.outcome.Receipted? && !HasReceipt(db.log, r) {
      assert res.db.log[|db.log|] == res.outcome.receipt;
    }
  }

  /** The reference meaning of a receipts table: run the payloads in receipt order. */
  function Fold(base: Data, log: seq<Receipt>): Effect {
    if |log| == 0 then Commit(base)
    else
      match Fold(base, log[..|log| - 1])
      case Commit(data) => log[|log| - 1].payload.effect(data)
      case failure => failure
  }

  ghost predicate DistinctRequests(log: seq<Receipt>) {
    forall i, j :: 0 <= i < j < |log| ==> log[i].request != log[j].request
  }

  /** Receipts are numbered upwards from 1 and generations never go down. */
  ghost predicate OrderedLog(log: seq<Receipt>) {
    && (forall i :: 0 <= i < |log| ==> log[i].seqNo > 0)
    && (forall i, j :: 0 <= i < j < |log| ==> log[i].seqNo < log[j].seqNo)
    && (forall i, j :: 0 <= i < j < |log| ==> log[i].generation <= log[j].generation)
  }

  ghost predicate WellFormed(base: Data, db: Database) {
    && OrderedLog(db.log)
    && (forall i :: 0 <= i < |db.log| ==> db.log[i].generation <= db.generation)
    && DistinctRequests(db.log)
    && Fold(base, db.log) == Commit(db.data)
  }

  /** A transaction keeps the database the fold of distinct receipts: a request with a
      receipt changes nothing and gets that receipt back, any other request adds exactly
      one receipt at the end or nothing. */
  lemma TransactionAtMostOnce(base: Data, db: Database, r: RequestId, p: Payload, forced: Option<nat>, seqNo: nat)
    requires WellFormed(base, db) && LastSeq(db.log) < seqNo
    ensures var res := ApplyWithReceipt(db, r, p, forced, seqNo);
            && WellFormed(base, res.db)
            && (HasReceipt(db.log, r) ==> res.db == db)
            && (res.outcome.Receipted? && HasReceipt(db.log, r) ==>
                  res.outcome.receipt in db.log && res.outcome.receipt.request == r)
            && (!res.outcome.Receipted? ==> res.db == db)
            && (res.outcome.Receipted? && !HasReceipt(db.log, r) ==>
                  res.outcome.receipt == Receipt(seqNo, db.generation, r, p)
                  && res.db.log == db.log + [res.outcome.receipt])
  {
    var res := ApplyWithReceipt(db, r, p, forced, seqNo);
    if res.outcome.Receipted? && !HasReceipt(db.log, r) {
      var log := res.db.log;
      assert log[..|log| - 1] == db.log;
      HasReceiptMeansSome(db.log, r);
      assert forall i :: 0 <= i < |db.log| ==> db.log[i].request != r && db.log[i].seqNo < seqNo;
    }
  }

  /** Exactly one row for a request. */
  ghost predicate ExactlyOnce(log: seq<Receipt>, r: RequestId) {
    && HasReceipt(log, r)
    && (forall i, j :: 0 <= i < |log| && 0 <= j < |log| && log[i].request == r && log[j].request == r ==> i == j)
  }

  lemma DistinctMeansOnce(log: seq<Receipt>, r: RequestId)
    requires DistinctRequests(log) && HasReceipt(log, r)
    ensures ExactlyOnce(log, r)
  {
    HasReceiptMeansSome(log, r);
  }

  ghost predicate SamePayloads(a: seq<Receipt>, b: seq<Receipt>) {
    |a| == |b| && forall i :: 0 <= i < |a| ==> a[i].payload == b[i].payload
  }

  /** The data depends on the payloads and their order, not on the numbers of the receipts. */
  lemma {:induction false} FoldByPayloads(base: Data, a: seq<Receipt>, b: seq<Receipt>)
    requires SamePayloads(a, b)
    ensures Fold(base, a) == Fold(base, b)
  {
    if |a| > 0 {
      FoldByPayloads(base, a[..|a| - 1], b[..|b| - 1]);
    }
  }

  /** A log that folds to a value does so from every prefix. */
  lemma {:induction false} FoldPrefix(base: Data, log: seq<Receipt>, n: nat)
    requires n <= |log| && Fold(base, log).Commit?
    ensures Fold(base, log[..n]).Commit?
  {
    if n < |log| {
      assert log[..|log| - 1][..n] == log[..n];
      FoldPrefix(base, log[..|log| - 1], n);
    } else {
      assert log[..n] == log;
    }
  }
}
