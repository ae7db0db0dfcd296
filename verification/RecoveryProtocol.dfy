/** Journaled writes, background replay, journal cleanup, backup, restore and recovery as one
    state machine: the journal, the live database, the executors in flight, the verified
    snapshots and the recovery runtime record, interleaved freely. */
module RecoveryProtocol {
  import opened Options
  import opened Postgres
  import opened Journal

  type ExecutorId = nat
  type BackupId = nat

  /** What an executor knows when it is about to update its journal row. */
  datatype Phase =
    | Started
    | Done(position: Coverage)
    | Refused
    | Broken
    | Unknown

  /** One attempt at one request. `direct` executors answer a client. `forced` is the target
      generation of a recovery replay. */
  datatype Executor = Executor(request: RequestId, payload: Payload, forced: Option<nat>, direct: bool, phase: Phase)

  /** The recovery runtime record. `restored` remembers whether the physical restore has
      been done for this recovery id. */
  datatype Runtime =
    | Ready(generation: nat)
    | Recovering(generation: nat, target: nat, backup: BackupId, snapshot: Database, restored: bool)

  /** A snapshot is the database it was taken from: dump, generation and watermark are read
      in one repeatable-read transaction. `floor` is the highest snapshot the cleanup has
      used; `cleaned` the rows it has selected. `issued`, `committed` and `acked` are
      history: requests submitted, requests of which some transaction committed, and
      requests whose client was told so. */
  datatype World = World(
    journal: Journal,
    db: Database,
    executors: map<ExecutorId, Executor>,
    snapshots: map<BackupId, Database>,
    runtime: Runtime,
    floor: Coverage,
    cleaned: set<RequestId>,
    issued: set<RequestId>,
    committed: set<RequestId>,
    acked: set<RequestId>)

  function CoverageOf(db: Database): Coverage {
    Coverage(db.generation, LastSeq(db.log))
  }

  function Genesis(base: Data): World {
    World(map[], Database(1, [], base), map[], map[], Ready(1), Coverage(0, 0), {}, {}, {}, {})
  }

  /** What the operators and the deployment promise and the code does not enforce.
      exclusive: a request is not picked up while an executor is still at work on it.
      floored: recovery starts from a snapshot no older than one the cleanup has used.
      gated: no transaction runs between the physical restore and the promotion.
      restoreOnce: the physical restore happens once in a recovery.
      ordered: nothing but the replay of the recovery is at work, one attempt after the other
      and in the order of creation, as its code goes about it. */
  datatype Rules = Rules(exclusive: bool, floored: bool, gated: bool, restoreOnce: bool, ordered: bool)

  const STRICT := Rules(true, true, true, true, false)

  /** Only the attempts of the recovery in progress. */
  const ORDERLY := STRICT.(ordered := true)

  /** What becomes of the reply to a transaction. A misread reply is an error after the
      commit that is not recognised as ambiguous. */
  datatype Reply = Heard | Lost | Misread

  datatype Event =
    | Submit(x: ExecutorId, r: RequestId, payload: Payload, createdAt: nat)
    | PickReplay(x: ExecutorId, r: RequestId)
    | PickRecovery(x: ExecutorId, r: RequestId)
    | Transact(x: ExecutorId, seqNo: nat, reply: Reply)
    | FailBefore(x: ExecutorId, ambiguous: bool)
    | Mark(x: ExecutorId, looksAmbiguous: bool)
    | FinishUnmarked(x: ExecutorId)
    | Crash(x: ExecutorId)
    | Requeue
    | TakeSnapshot(backup: BackupId)
    | Prune(backups: set<BackupId>)
    | CleanupSelect(backup: BackupId, rows: set<RequestId>)
    | CleanupDelete(rows: set<RequestId>)
    | Begin(backup: BackupId)
    | Restore
    | Promote
    | Complete

  predicate Unpromoted(w: World) {
    w.runtime.Recovering? && w.runtime.restored && w.db.generation != w.runtime.target
  }

  /** Nothing is left to requeue, and no row to replay was created before this one. */
  ghost predicate InTurn(j: Journal, snapshot: Coverage, target: nat, r: RequestId) {
    && r in j
    && (forall q :: q in j ==> !Requeueable(j[q]))
    && (forall q :: q in j && ReplayEligible(j[q], snapshot, target) ==> j[r].createdAt <= j[q].createdAt)
  }

  ghost predicate Busy(w: World, r: RequestId) {
    exists x :: x in w.executors && w.executors[x].request == r
  }

  /** completeRecovery switches to ready: the promotion has been made, nothing is
      outstanding and the receipts reach the snapshot's watermark. */
  ghost predicate CanComplete(w: World) {
    && w.runtime.Recovering? && w.runtime.restored
    && w.db.generation == w.runtime.target
    && (forall r :: r in w.journal ==> !Outstanding(w.journal[r], CoverageOf(w.runtime.snapshot), w.runtime.target))
    && LastSeq(w.runtime.snapshot.log) <= LastSeq(w.db.log)
  }

  ghost predicate Enabled(rules: Rules, w: World, e: Event) {
    match e
    case Submit(x, r, _, _) =>
      x !in w.executors && r !in w.issued && !rules.ordered
    case PickReplay(x, r) =>
      x !in w.executors && r in w.journal && ReplayCandidate(w.journal[r]) && !rules.ordered
      && (rules.exclusive ==> !Busy(w, r))
    case PickRecovery(x, r) =>
      x !in w.executors && r in w.journal && w.runtime.Recovering?
      && w.runtime.restored && w.db.generation == w.runtime.target
      && ReplayEligible(w.journal[r], CoverageOf(w.runtime.snapshot), w.runtime.target)
      && (rules.exclusive ==> !Busy(w, r))
      && (rules.ordered ==> w.executors == map[] && InTurn(w.journal, CoverageOf(w.runtime.snapshot), w.runtime.target, r))
    case Transact(x, seqNo, _) =>
      x in w.executors && w.executors[x].phase.Started? && LastSeq(w.db.log) < seqNo
      && (rules.gated ==> !Unpromoted(w))
    case FailBefore(x, _) =>
      x in w.executors && w.executors[x].phase.Started?
    case Mark(x, _) =>
      x in w.executors && !w.executors[x].phase.Started?
    case FinishUnmarked(x) =>
      x in w.executors && !w.executors[x].phase.Started?
    case Crash(x) =>
      x in w.executors
    case Requeue => true
    case TakeSnapshot(b) =>
      b !in w.snapshots && w.runtime.Ready?
    case Prune(bs) =>
      w.runtime.Recovering? ==> w.runtime.backup !in bs
    case CleanupSelect(b, rows) =>
      w.runtime.Ready? && b in w.snapshots
      && (forall r :: r in rows ==> r in w.journal && Cleanable(w.journal[r], CoverageOf(w.snapshots[b])))
    case CleanupDelete(rows) =>
      rows <= w.cleaned
    case Begin(b) =>
      w.runtime.Ready? && b in w.snapshots && !rules.ordered
      && (rules.floored ==> w.floor.Le(CoverageOf(w.snapshots[b])))
    case Restore =>
      w.runtime.Recovering? && (rules.restoreOnce ==> !w.runtime.restored)
    case Promote =>
      w.runtime.Recovering? && w.runtime.restored
      && (w.db.generation == w.runtime.target
          || (w.db.generation == w.runtime.snapshot.generation
              && LastSeq(w.runtime.snapshot.log) <= LastSeq(w.db.log)))
    case Complete => CanComplete(w)
  }

  function PhaseAfter(outcome: TxOutcome, reply: Reply): Phase {
    if reply.Lost? then Unknown
    else if reply.Misread? then Broken
    else
      match outcome
      case Receipted(receipt) => Done(Coverage(receipt.generation, receipt.seqNo))
      case TerminalRejection => Refused
      case ReceiptConflict => Broken
      case GenerationMismatch => Broken
      case OtherFailure => Broken
  }

  function MarkByPhase(j: Journal, ex: Executor, looksAmbiguous: bool): Journal {
    match ex.phase
    case Started => j
    case Done(position) => MarkApplied(j, ex.request, position)
    case Refused => MarkFailed(j, ex.request, TerminalRejected, looksAmbiguous)
    case Broken => MarkFailed(j, ex.request, Blocking, looksAmbiguous)
    case Unknown => MarkPending(j, ex.request, looksAmbiguous)
  }

  function Acknowledge(w: World, ex: Executor): set<RequestId> {
    if ex.direct && ex.phase.Done? then w.acked + {ex.request} else w.acked
  }

  function Next(w: World, e: Event): World {
    match e
    case Submit(x, r, p, createdAt) =>
      w.(journal := w.journal[r := PendingEntry(p, createdAt)],
         executors := w.executors[x := Executor(r, p, None, true, Started)],
         issued := w.issued + {r})
    case PickReplay(x, r) =>
      if r !in w.journal then w
      else w.(executors := w.executors[x := Executor(r, w.journal[r].payload, None, false, Started)])
    case PickRecovery(x, r) =>
      if r !in w.journal || !w.runtime.Recovering? then w
      else w.(executors := w.executors[x := Executor(r, w.journal[r].payload, Some(w.runtime.target), false, Started)])
    case Transact(x, seqNo, reply) =>
      if x !in w.executors then w
      else
        var ex := w.executors[x];
        var res := ApplyWithReceipt(w.db, ex.request, ex.payload, ex.forced, seqNo);
        w.(db := res.db,
           executors := w.executors[x := ex.(phase := PhaseAfter(res.outcome, reply))],
           committed := if res.outcome.Receipted? then w.committed + {ex.request} else w.committed)
    case FailBefore(x, ambiguous) =>
      if x !in w.executors then w
      else w.(executors := w.executors[x := w.executors[x].(phase := if ambiguous then Unknown else Broken)])
    case Mark(x, looksAmbiguous) =>
      if x !in w.executors then w
      else w.(journal := MarkByPhase(w.journal, w.executors[x], looksAmbiguous),
              executors := w.executors - {x},
              acked := Acknowledge(w, w.executors[x]))
    case FinishUnmarked(x) =>
      if x !in w.executors then w
      else w.(executors := w.executors - {x}, acked := Acknowledge(w, w.executors[x]))
    case Crash(x) => w.(executors := w.executors - {x})
    case Requeue => w.(journal := RequeueAmbiguousFailed(w.journal))
    case TakeSnapshot(b) => w.(snapshots := w.snapshots[b := w.db])
    case Prune(bs) => w.(snapshots := w.snapshots - bs)
    case CleanupSelect(b, rows) =>
      if b !in w.snapshots then w
      else w.(floor := MaxCoverage(w.floor, CoverageOf(w.snapshots[b])), cleaned := w.cleaned + rows)
    case CleanupDelete(rows) => w.(journal := w.journal - rows)
    case Begin(b) =>
      if b !in w.snapshots then w
      else w.(runtime := Recovering(w.runtime.generation, w.runtime.generation + 1, b, w.snapshots[b], false))
    case Restore =>
      if !w.runtime.Recovering? then w
      else w.(db := w.runtime.snapshot, runtime := w.runtime.(restored := true))
    case Promote =>
      if !w.runtime.Recovering? then w else w.(db := w.db.(generation := w.runtime.target))
    case Complete =>
      if !w.runtime.Recovering? then w else w.(runtime := Ready(w.runtime.target))
  }

  /** A run of the protocol, or None when some event was not possible. */
  ghost function Execute(rules: Rules, w: World, events: seq<Event>): Option<World>
    decreases |events|
  {
    if |events| == 0 then Some(w)
    else if Enabled(rules, w, events[0]) then Execute(rules, Next(w, events[0]), events[1..])
    else None
  }

  ghost predicate Reachable(rules: Rules, base: Data, w: World) {
    exists events :: Execute(rules, Genesis(base), events) == Some(w)
  }
}
