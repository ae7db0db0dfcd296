# Verified models of ADG-Lang and its adjudication workbench

This project models the parts of the ADG-Lang repository whose correctness is hardest to see from
the code, and proves what they promise. It is written in Dafny; verify it
with `dafny verify dfyconfig.toml`.

**Writes and recovery** (`Postgres`, `Journal`, `RecoveryProtocol`, `RecoveryInvariant`,
`RecoveryPreservation`, `RecoveryTheorems`, `RecoveryHypotheses`, `RecoveryLineage`,
`RecoveryRefinement`, `RecoveryReordering`, `RecoveryRefusals`, `JournalReplay`, `AttemptLaws`,
`ReplayRuns`, `JournaledDatabase`, `RecoveryControl`, `SqlPlaceholders`). Every write is journaled,
applied in one PostgreSQL transaction together with a receipt, and marked. `RecoveryProtocol` is a
state machine in which submissions, executors, lost replies, crashes, background replay, requeues,
snapshots, pruning, journal cleanup, restore, promotion, recovery replay and completion interleave
freely; `RecoveryTheorems` is about all its runs. `RecoveryRefinement` compares the recovered
database with the one that the restore took away, over every run of failures, lost replies, crashes
and repeated calls in between; `RecoveryReordering` is the run that shows why its condition is
needed. `AttemptLaws` says in a table what one attempt leaves behind, and when a row may be refused
for good; `RecoveryRefusals` says it of all runs. The classes `JournaledPostgres` and
`RecoveryControl` are the code's own operations on stored rows; their contracts say what they do,
and that each is a run of the state machine, so that the theorems hold of the states they leave.
`CompleteRecovery` joins the two: from any reachable state, and after any number of calls that
failed, it ends with every write accounted for exactly once, and with the lost requests in their
order, and so the lost data, exactly under that condition.

**Backup sets** (`BackupProtocol`, `BackupTheorems`, `BackupHypotheses`, `BackupSets`). Uploads,
repairs, completions and retention are single statements and object operations that act on rows and
counters read at any earlier time. The theorems are about all runs; the class `BackupSet` holds the
code's own operations, each of which is a run.

**Consensus on evidence** (`ConsensusStates`, `ConsensusStore`, `ConsensusProtocol`,
`ConsensusInvariant`, `ConsensusTheorems`, `ConsensusService`). A task moves through its states by
an optimistic compare-and-swap with an event log. Callers act on rows they read at any earlier time.
The theorems hold over every run of submissions, transitions, reissues, appeals, releases,
deliveries and publications; the class `ConsensusTask` holds the portal's functions.

**Canonical evidence and agreement** (`CanonicalEncoding`, `Evidence`, `EvidenceCoverage`,
`EvidenceParts`, `EvidenceRoots`, `DecisionKeys`, `NovelDecisions`, `CohenKappa`,
`IndependentAgreement`, `EvidenceFields`, `Sets`). The length-prefixed encoding is decoded, so roots
bind every field; annotations that pass the coverage checks can always be compared; Cohen's kappa as
the loops compute it has its bounds, its domain and its symmetries; `EvidenceFields` states
agreement and novelty on the fields of the records.

**The function compiler** (`FunctionModel`, `FunctionTemplate`, `FunctionTypeChecker`, `LlvmText`,
`LlvmModule`, `LlvmFunctionEmitter`, `FunctionMeaning`, `FunctionOutput`, `CompilerCorrectness`,
`Text`). The emitted module is a value with an interpreter: basic blocks, branches, calls and a
printf scanner over NUL-terminated constants. `FunctionMeaning` reads a program directly, and
`FunctionOutput` says which text that is. The two print the same.

## Hypotheses

What the code does not enforce, and the proofs therefore name:

- Recovery. `Rules` in `RecoveryProtocol` lists four promises of the operators, and
  `RecoveryHypotheses` has a run for each that breaks a theorem when only that promise is dropped:
  a request is not picked up while an executor is still at work on it; recovery starts from a
  snapshot no older than one the cleanup has used; no transaction runs between restore and promotion;
  the physical restore happens once in a recovery. `AtMostOnce`, `ReceiptsPersist` and
  `SaysReachable` need none of them; the other theorems over runs take all four, because they share
  one invariant. `RestoreLosesOnlyDeletedRows` says exactly what the second promise buys.
- Refinement. When the restore takes the database away, no executor is at work, every row is applied
  or refused for good, and the rows of the receipts that the snapshot is too short to hold were
  created, at different times, in the order of those receipts and are not refused. After it only the
  replay of this recovery is at work, one attempt after the other in the order of creation (the fifth
  flag of `Rules`, which is how the code goes about it); any attempt may fail, lose its reply or
  crash, and the call be made again. That the snapshot holds the first lost receipts is not assumed:
  it is the exact condition under which the lost requests come back in their order, and the data with
  them, and a snapshot of the ready generation meets it.
- Backups. Object keys are fresh. `Care` in `BackupProtocol` lists two promises: no caller is told
  that a statement failed which went through; objects are deleted only after a mark that changed the
  set. The code makes neither. Only `CompleteSetsReadBack` needs them, and `BackupHypotheses` has a
  run for each that breaks it.
- Request identifiers are fresh, and `request_id` is unique in the receipts table
  (`tools/msa-adjudication-workbench/postgres/0001_portal_v15.sql`). Transactions are serialised by
  the row lock on the runtime state, so receipt order is commit order.
- A snapshot's dump, generation and watermark are read in one repeatable-read transaction, so the
  watermark is exactly the highest receipt in the dump. Promotion itself only asks for "at least".
- Snapshots are taken, and rows are selected for cleanup, only in the ready state. The outstanding
  count and the switch to ready are one step.
- What a payload does to the rows is any function of the rows, so that replaying it on the same rows
  has the same result.
- Consensus. The checks and the batch of a submission are one step; a round has one submission for a
  role and a task one for a user; calls that reissue one task do not overlap
  (`OverlappingReissueBlocks` and `ReissueOvertakes` show what happens when they do); the repository
  takes over only items it has claimed.
- Evidence. SHA-256 is any injective function. Fields have fixed types; the metric policy is its
  canonical JSON text. Shares and kappas are exact rationals.
- Compiler. Numbers fit in 32 bits. Text is a sequence of Unicode scalar values. The absence of NUL
  is not assumed: the meaning is preserved exactly when there is none.

Where code and its descriptions differ, the code is followed: a completion that fails deletes the
objects of the set even when another has just made it complete
(`OverlappingCompletionDeletes`); beginning a recovery accepts a backup of an older generation, from
which the replay can end in other data (`OlderGenerationReordersWrites`); a ratification binds its rationale only
up to surrounding white space; a completed recovery's watermark check can never fail once promotion
has succeeded; and `createReissuedRound` commits its batch before it notices that the task has moved.

## Model

| member | source | states |
|---|---|---|
| `Postgres.FindReceipt` | tools/msa-adjudication-workbench/src/database.js:486-507 | a receipt is found exactly when the request has one, and it is one of that request |
| `Postgres.HasReceiptMeansSome` | tools/msa-adjudication-workbench/src/database.js:486-507 | the lookup by request id is about the receipts table as a whole, whatever its order |
| `Postgres.TransactionShape` | tools/msa-adjudication-workbench/src/database.js:451-531 | a write transaction leaves the database alone or adds one receipt at the end, and answers only with a receipt that is in the table |
| `Postgres.TransactionAtMostOnce` | tools/msa-adjudication-workbench/src/database.js:451-531 | one transaction keeps the rows equal to the fold of distinct receipts; a repeated request changes nothing and gets its first receipt back; every failure rolls back |
| `Postgres.FoldByPayloads` | tools/msa-adjudication-workbench/src/database.js:313-385 | the data depend on the payloads and their order only, not on receipt numbers or generations |
| `Journal.CoverageIsTotalOrder` | tools/msa-adjudication-workbench/src/cpoly-recovery.js:588-628 | the (generation, receipt_seq) comparison of the journal statements is a total order |
| `Journal.MarkingShrinksReplayExactlyWhenCovered` | tools/msa-adjudication-workbench/src/cpoly-recovery.js:641-658 | a replayed row leaves the replay batch if and only if its receipt is one the snapshot covers or one of the target generation; otherwise the batch stays exactly as it was, and the replay would take the row up for ever |
| `Journal.NothingOutstanding` | tools/msa-adjudication-workbench/src/cpoly-recovery.js:687-724 | the pending count is zero exactly when every row is refused for good or applied at a covered position or at the target generation |
| `Journal.HoldsRecoveryBack` | tools/msa-adjudication-workbench/src/cpoly-recovery.js:687-724 | on the columns of a row: it holds the recovery back exactly when it is pending, failed and blocking, or applied without a position or at one of an earlier generation than the target that lies beyond the snapshot |
| `RecoveryPreservation.InvNext` | tools/msa-adjudication-workbench/src/database.js:119-201 | every step of the protocol, under the four rules, keeps the whole invariant: sound receipts, covered positions, cleaned rows held, nothing committed lost, one timeline in each generation |
| `RecoveryTheorems.AtMostOnce` | tools/msa-adjudication-workbench/src/database.js:119-201 | in every reachable state, with no rule assumed, the live database and every snapshot hold at most one receipt for a request, and their rows are the fold of their receipts in order |
| `RecoveryTheorems.ReceiptsPersist` | tools/msa-adjudication-workbench/src/database.js:451-531 | over any run without a restore the receipts table only grows at its end: no receipt is taken back, moved or renumbered |
| `RecoveryTheorems.NoCommittedWriteIsLost` | tools/msa-adjudication-workbench/src/database.js:119-201 | in every reachable ready state, after any number of recoveries, each request that ever committed or was acknowledged has exactly one receipt, or the journal records that it was refused for good |
| `RecoveryTheorems.SnapshotsContainWhatTheyCover` | tools/msa-adjudication-workbench/src/cpoly-recovery.js:588-628 | in every reachable state an applied row at or below a snapshot, across generations, has exactly one receipt in that snapshot |
| `RecoveryTheorems.CleanupIsSafe` | tools/msa-adjudication-workbench/src/cpoly-recovery.js:588-628 | a row that the cleanup deletes has exactly one receipt in the live database and in every snapshot a recovery may still start from |
| `RecoveryTheorems.RecoveryIsComplete` | tools/msa-adjudication-workbench/src/cpoly-recovery.js:1713-1815 | when recovery switches to ready, every row not refused for good has exactly one receipt, in the restored snapshot or at the target generation, and the snapshot's receipts are all still there |
| `RecoveryTheorems.RestoreLosesOnlyDeletedRows` | tools/msa-adjudication-workbench/src/cpoly-recovery.js:1621-1711 | a recovery may start from any snapshot, older than one the cleanup has used or not, with everything it lacks outstanding or refused for good, if and only if it holds every write whose row has been deleted |
| `RecoveryRefusals.RefusalsAreJustified` | tools/msa-adjudication-workbench/src/database.js:1244-1254 | over all runs, with any rules: for every row refused for good, some step of the run was a transaction of its request, with its payload, on data for which the payload answers with a violation |
| `RecoveryLineage.LineageReachable` | tools/msa-adjudication-workbench/src/database.js:451-531 | over all runs: a snapshot of the live generation is a prefix of the live receipts, an applied position of the live generation is that of the request's receipt, and a request refused for good has no receipt of the live generation |
| `RecoveryLineage.SaysReachable` | tools/msa-adjudication-workbench/src/cpoly-recovery.js:428-446 | over all runs, with no rule assumed: rows, executors, receipts and snapshots that speak of one request carry one payload |
| `RecoveryRefinement.SameGenerationComesFirst` | tools/msa-adjudication-workbench/src/cpoly-recovery.js:1621-1711 | a snapshot of the ready generation holds the first receipts of the database that a restore is about to take away, and no later receipt has a row refused for good |
| `RecoveryRefinement.RestoredInLine` | tools/msa-adjudication-workbench/src/cpoly-recovery.js:1713-1815 | right after a restore in any run, with no executor at work, nothing pending or blocked and the later receipts created in order, the replay is in line with the database the restore took away |
| `RecoveryRefinement.OnTheWayReachable` | tools/msa-adjudication-workbench/src/database.js:300-398 | over every orderly run since the restore, with failures, lost replies, crashes, requeues and calls made again: the recovery is in line with the database the restore took away, or a row holds it back for good |
| `RecoveryRefinement.RecoveryRestoresTheLostDatabase` | tools/msa-adjudication-workbench/src/cpoly-recovery.js:1713-1815 | the state refinement: when such a run can switch to ready, the requests of the database that the restore took away are back in their order if and only if the snapshot held the first of them, and then the data are those of that database |
| `RecoveryRefinement.SameGenerationRestoresTheLostDatabase` | tools/msa-adjudication-workbench/src/cpoly-recovery.js:1713-1815 | so a recovery from a snapshot of the ready generation brings back requests and data, whatever fails and is retried on the way |
| `RecoveryReordering.OlderGenerationReordersWrites` | tools/msa-adjudication-workbench/src/cpoly-recovery.js:1621-1711 | a run in which a recovery from a snapshot of an older generation, which begin accepts, loses nothing and still ends with other data: the old receipts come back in their old order |
| `RecoveryHypotheses.OlderSnapshotLosesWrite` | tools/msa-adjudication-workbench/src/cpoly-recovery.js:1621-1711 | a run that recovers from a snapshot older than the one the cleanup used loses an acknowledged write: begin accepts any complete backup |
| `RecoveryHypotheses.SecondRestoreLosesWrite` | tools/msa-adjudication-workbench/src/cpoly-recovery.js:648-654 | a run that restores twice in one recovery loses an acknowledged write: entries marked with the target generation are skipped |
| `RecoveryHypotheses.WriteBeforePromotionBreaksCoverage` | tools/msa-adjudication-workbench/src/database.js:566-595 | a run with a write between restore and promotion reaches a state where a snapshot does not hold what it covers |
| `RecoveryHypotheses.TwoExecutorsLoseWrite` | tools/msa-adjudication-workbench/src/cpoly-recovery.js:498-525 | a run with two executors on one request loses an acknowledged write after a recovery: the status updates are not guarded |
| `JournalReplay.EarliestIsNext` | tools/msa-adjudication-workbench/src/cpoly-recovery.js:630-685 | in line with the lost database, the earliest row to replay is the one whose lost receipt comes next, or a row whose write is already there again after a lost reply |
| `JournalReplay.TransactInLine` | tools/msa-adjudication-workbench/src/database.js:323-385 | the transaction of an attempt that is due repeats the next lost receipt, on the rows it ran on before, or finds its own; either way it gets a receipt and stays in line |
| `JournalReplay.MarkInLine` | tools/msa-adjudication-workbench/src/cpoly-recovery.js:448-524 | whatever the executor learned, its mark keeps the replay in line: a row is settled only when its write is there again |
| `JournalReplay.SettledRepeats` | tools/msa-adjudication-workbench/src/database.js:323-385 | an attempt that is due keeps the replay in line, whatever becomes of it: failure, lost reply, crash or lost mark; delivered, it succeeds |
| `JournalReplay.SettledProgress` | tools/msa-adjudication-workbench/src/database.js:323-385 | an attempt that is applied or refused takes exactly its row out of the replay batch and touches no other row |
| `JournalReplay.BatchOutcome` | tools/msa-adjudication-workbench/src/database.js:323-385 | a batch without an error has taken all its rows out of the replay; one with an error leaves a row outstanding; in line with the lost database it stays so, however it ends |
| `JournalReplay.SweptOutcome` | tools/msa-adjudication-workbench/src/database.js:203-287 | a background pass leaves a row open exactly when its attempt was left undecided, and every applied row names a receipt that is in the table |
| `AttemptLaws.SettledFollows` | tools/msa-adjudication-workbench/src/database.js:119-201 | the table of one attempt, by what became of the call and what the operations answered: which receipt and data are added, and the row's status, position, disposition and whether its error looked ambiguous; only a delivered violation is refused for good, any other error leaves the row failed and blocking |
| `AttemptLaws.OnlyViolationsRefuse` | tools/msa-adjudication-workbench/src/database.js:1244-1254 | over any sequence of attempts, a row is newly refused for good only if one of them was delivered and its payload answered with a violation on the data it ran on |
| `AttemptLaws.ReplayedTrace` | tools/msa-adjudication-workbench/src/database.js:323-385 | a batch of the recovery replay is the sequence of its rows' attempts in order, up to and with the first one that is left unsettled, if any, on which the replay throws |
| `AttemptLaws.ErrorsThrow` | tools/msa-adjudication-workbench/src/database.js:353-382 | operations that answer with any other error end the replay there, and their row stays failed and blocking |
| `AttemptLaws.AttemptStands` | tools/msa-adjudication-workbench/src/database.js:203-287 | a row that is attempted once keeps what its own attempt made of it, whatever becomes of the other rows |
| `ReplayRuns.SubmissionIsARun` | tools/msa-adjudication-workbench/src/database.js:119-201 | a new write, with any fate of its transaction and its mark, is a run of the protocol, and the client is told of success exactly when a receipt is known |
| `ReplayRuns.ReplayedIsARun` | tools/msa-adjudication-workbench/src/database.js:323-385 | a batch of the recovery replay is a run of the protocol |
| `ReplayRuns.OrderlyIsStrict` | tools/msa-adjudication-workbench/src/database.js:300-398 | what the replay of one recovery can do, attempt by attempt in the order of creation, is among the runs that the theorems are about |
| `ReplayRuns.SweptIsARun` | tools/msa-adjudication-workbench/src/database.js:203-287 | a batch of the background replay is a run of the protocol |
| `JournaledDatabase.JournaledPostgres.ExecuteMutatingOperations` | tools/msa-adjudication-workbench/src/database.js:119-201 | an acknowledged write has exactly one receipt, the last one, and its row is applied at that position unless the mark was lost; the row is refused for good if and only if the mark was kept, the call was delivered and the operations answered with a violation; any other error leaves it failed and blocking; delivered, the write is acknowledged exactly when the operations commit; the call is a run |
| `JournaledDatabase.JournaledPostgres.ReplayRecoveryJournal` | tools/msa-adjudication-workbench/src/database.js:203-287 | one pass takes the earliest candidates, makes of each row what the table of one attempt says, whatever becomes of the others, leaves all other rows alone, refuses none but on a violation and counts the applied ones; the call is a run |
| `JournaledDatabase.JournaledPostgres.SelectEarliest` | tools/msa-adjudication-workbench/src/cpoly-recovery.js:549-586 | the batch is the rows of least creation time, in that order, as far as the limit goes, and all of them when the limit is not reached |
| `JournaledDatabase.JournaledPostgres.LoadRecoveryReplayBatch` | tools/msa-adjudication-workbench/src/cpoly-recovery.js:630-685 | the batch is the earliest rows among those still to be replayed, stated on their status, position, generation and watermark |
| `JournaledDatabase.JournaledPostgres.PromoteRecoveryGeneration` | tools/msa-adjudication-workbench/src/database.js:566-595 | the generation becomes the target exactly when it already is, or when the database is of the snapshot's generation and reaches its watermark |
| `JournaledDatabase.JournaledPostgres.ReplayToTheEnd` | tools/msa-adjudication-workbench/src/database.js:319-385 | the replay loop ends, as a sequence of attempts; without an error it leaves nothing to replay and counts exactly the rows eligible at its start that it applied; it refuses no row but on a violation, and an operation with any other error ends it; in line with the lost database it stays so when a batch throws, and ends with its requests and its data when none does |
| `JournaledDatabase.JournaledPostgres.CompleteRecoveryReplay` | tools/msa-adjudication-workbench/src/database.js:300-398 | the replay terminates; a row is newly refused for good only on a violation on the data its transaction ran on; an operation with any other error leaves its row blocking and makes the call throw; on completion the number replayed is that of the rows eligible after the requeue that ended applied. In line with the lost database it stays so on every outcome, so it can be called again; when it completes the requests and data of the lost database are back; it fails only unpromoted or with a row outstanding, and not at all when every attempt is delivered; a stuck row holds it back; the call is a run |
| `RecoveryControl.RestoredIsWithin` | tools/msa-adjudication-workbench/src/cpoly-recovery.js:1713-1815 | a restored database holds only receipts the snapshot covers or of the target generation: what termination needs holds in every reachable state |
| `RecoveryControl.CleanupIsARun` | tools/msa-adjudication-workbench/src/cpoly-recovery.js:588-628 | selecting and deleting covered rows is a run; the live database and every backup no older hold what was deleted |
| `RecoveryControl.RecoveryControl.CleanupAppliedRecoveryJournal` | tools/msa-adjudication-workbench/src/cpoly-recovery.js:588-628 | deletes the rows of least position, and of least creation time at one position, that the verified snapshot covers, up to the limit, and nothing that any later recovery needs |
| `RecoveryControl.RecoveryControl.BeginRecovery` | tools/msa-adjudication-workbench/src/cpoly-recovery.js:1621-1711 | begins exactly for a complete backup, old or new, with the recorded coverage; asked again it keeps the target generation; another backup is refused; the state stays one that the theorems are about if the backup is no older than one the cleanup has used |
| `RecoveryControl.RecoveryControl.CompleteRecovery` | tools/msa-adjudication-workbench/src/cpoly-recovery.js:1713-1815 | switches to ready exactly when asked for the recovery in progress and the replay leaves the database promoted and nothing outstanding; then every row not refused for good has exactly one receipt, and a row newly refused for good met a violation, while any other error keeps the recovery open with the row blocking. After any failed or crashed attempts since the restore, the requests of the database that the restore took away are back in their order if and only if the snapshot held the first of them, and then its data are back too; the watermark check never fails |
| `BackupSets.BackupSet.StoreChunk` | tools/msa-adjudication-workbench/src/cpoly-recovery.js:1333-1365 | row and counters move together, the counters not at all once the set has closed; a row that is there refuses the insert and the new object is deleted again |
| `BackupSets.BackupSet.RepairChunk` | tools/msa-adjudication-workbench/src/cpoly-recovery.js:1233-1283 | for a row read earlier: the chunk is stored anew under a new key exactly when the row still has the key that was read; otherwise the repair has lost its lease, and nothing has changed |
| `BackupSets.BackupSet.UploadBackupChunk` | tools/msa-adjudication-workbench/src/cpoly-recovery.js:1189-1374 | by a caller with counters, row and store answer each read at any earlier time: which of rejected, already stored, repaired, lost its lease, accepted and refused is the outcome, and exactly what it leaves on record; the call is a run |
| `BackupSets.BackupSet.VerifyBackupStoreContents` | tools/msa-adjudication-workbench/src/cpoly-recovery.js:2865-2935 | succeeds exactly when the reads verify, and then what was read is the archive |
| `BackupSets.VerifyMeans` | tools/msa-adjudication-workbench/src/cpoly-recovery.js:2865-2935 | the reads verify if and only if no chunk beyond the declared ones is listed, each declared one was listed, read again and fetched with the declared size and digest, and the concatenated bytes have the declared digest |
| `BackupSets.BackupSet.CompleteBackupSet` | tools/msa-adjudication-workbench/src/cpoly-recovery.js:1376-1466 | with reads made at earlier times: the set becomes complete exactly when it still takes uploads, all is counted, and the reads verify; reads that do not verify fail the set only if it still takes uploads, and delete its objects whatever it has become |
| `BackupTheorems.StepKeepsInv` | tools/msa-adjudication-workbench/src/cpoly-recovery.js:1189-1466 | every step of uploads, repairs, completions and retention, on rows and counters read at any earlier time, keeps the invariant of the set |
| `BackupTheorems.UploadInvariant` | tools/msa-adjudication-workbench/src/cpoly-recovery.js:1189-1374 | over all runs of concurrent and repeated uploads and repairs: while the set takes uploads its inventory is exactly chunks 0 to n-1 as declared, and the counters are their number and size |
| `BackupTheorems.CompleteMeansVerified` | tools/msa-adjudication-workbench/src/cpoly-recovery.js:1376-1466 | over all runs: a complete set has every declared chunk on record, and some completion has read the whole declared archive, though each chunk at another time |
| `BackupTheorems.ChangedMarkRetires` | tools/msa-adjudication-workbench/src/cpoly-recovery.js:2947-2957 | over all runs: a failed completion whose guarded mark changed the set deletes objects of a retired set only |
| `BackupTheorems.FailureSparesExactly` | tools/msa-adjudication-workbench/src/cpoly-recovery.js:1404-1410 | a failed completion deletes the objects of a complete set if and only if its guarded mark changed nothing |
| `BackupTheorems.CompleteSetsReadBack` | tools/msa-adjudication-workbench/src/cpoly-recovery.js:1404-1410 | over all runs in which objects are deleted only after a mark that changed the set, and no caller is told that a statement failed which went through: a complete set can be read back chunk by chunk |
| `BackupHypotheses.OverlappingCompletionDeletes` | tools/msa-adjudication-workbench/src/cpoly-recovery.js:1404-1410 | a run in which the second of two overlapping completions fails, marks nothing and deletes the objects of the set that the first has completed |
| `BackupHypotheses.LostReplyDeletes` | tools/msa-adjudication-workbench/src/cpoly-recovery.js:1333-1365 | a run in which an upload whose statement went through is told that it failed and deletes the chunk it has put on record, after another call has completed the set |
| `BackupSets.ReadsBackTheArchive` | tools/msa-adjudication-workbench/src/cpoly-recovery.js:1510-1587 | whatever happens to the objects later, chunks that pass their digests are those of the verified archive |
| `BackupSets.SelectRetained` | tools/msa-adjudication-workbench/src/cpoly-recovery.js:336-406 | every row with a lease that ends after now, and the row of the recovery in progress, is kept; any other row is kept exactly when it has not expired and fits, in number and bytes, with the newer rows that are kept; the last value is the newest kept snapshot |
| `SqlPlaceholders.ReplaceSqlitePlaceholders` | tools/msa-adjudication-workbench/src/database.js:1107-1205 | the text is a sequence of lexemes of SQL (quotations with doubled marks, comments to the end of the line or to the first closing mark, plain characters), and the result is the same sequence with its j-th question mark outside them replaced by CAST($j AS BIGINT) for a whole number or a big integer, CAST($j AS DOUBLE PRECISION) for a fractional number and $j for anything else or a missing parameter |
| `SqlPlaceholders.LexemesAreRendered` | tools/msa-adjudication-workbench/src/database.js:1107-1192 | that holds of every reading of a text as lexemes, with the numbers from any k on |
| `SqlPlaceholders.EveryTextIsWritten` | tools/msa-adjudication-workbench/src/database.js:1107-1192 | every text has such a reading, with a quotation or comment left open at its end if need be |
| `SqlPlaceholders.UnfilledIsTheText` | tools/msa-adjudication-workbench/src/database.js:1107-1193 | with question marks put back in the holes the text is the original |
| `SqlPlaceholders.TranslationKeepsPieces` | tools/msa-adjudication-workbench/src/database.js:1107-1205 | lexed again, the result has the pieces of the original in their regions, with each hole replaced by the characters of its placeholder, copied one by one |
| `SqlPlaceholders.TranslationIsStable` | tools/msa-adjudication-workbench/src/database.js:1107-1205 | translating the result again, with any parameters, changes nothing |
| `ConsensusStates.ApprovalIsFresh` | tools/msa-adjudication-workbench/src/consensus.js:18-42 | any path of allowed transitions to approved ends with independent review, discussion, final review, approved |
| `ConsensusStates.EnteredFrom` | tools/msa-adjudication-workbench/src/consensus.js:18-42 | the transition table read from its targets: for each state, exactly the states it may be entered from |
| `ConsensusStates.PublicationFollowsApproval` | tools/msa-adjudication-workbench/src/consensus.js:18-42 | any path to published passes through approved last |
| `ConsensusInvariant.StepKeepsInv` | tools/msa-adjudication-workbench/src/index.js:6236-6660 | every step by clients, scheduler, administrators and repository keeps the invariant, whatever it read before |
| `ConsensusInvariant.ReachableInv` | tools/msa-adjudication-workbench/src/index.js:7269-7500 | the invariant holds after any run from registration |
| `ConsensusTheorems.EventLogIsSound` | tools/msa-adjudication-workbench/src/consensus-store.js:57-124 | over all runs: the events are a path from draft to the state, one more than the version, the row names the last, no two share a key |
| `ConsensusTheorems.ApprovedMeansReviewed` | tools/msa-adjudication-workbench/src/index.js:7155-7454 | over all runs, in every approved or published store: the active result is of the current round, its proposal was made by J1 after both annotators in their own slots, the only J2 submission of the round is sound, names that proposal and says "agree", its author is none of the others, and every field of the decision is that field of one of the two annotations |
| `ConsensusTheorems.ApprovedIsFresh` | tools/msa-adjudication-workbench/src/consensus.js:18-42 | over all runs: the last four events of an approved task are independent review, discussion, final review, approved |
| `ConsensusTheorems.PublishedIsFinal` | tools/msa-adjudication-workbench/src/consensus-store.js:236-249 | over all runs, with appeals and publication interleaved at will: a published task is past its deadline with no appeal pending |
| `ConsensusTheorems.ReleaseIsBlind` | tools/msa-adjudication-workbench/src/index.js:7502-7546 | over all runs: evidence of an A or B is held or cancelled, or both A and B of its round are stored |
| `ConsensusTheorems.WithdrawnStaysWithdrawn` | tools/msa-adjudication-workbench/src/consensus-store.js:373-389 | evidence that a reissue has cancelled is never delivered |
| `ConsensusTheorems.OverlappingReissueBlocks` | tools/msa-adjudication-workbench/src/consensus-store.js:332-372 | after the batch of an overlapping reissue no run ever gives the task another round |
| `ConsensusService.ReissueOvertakes` | tools/msa-adjudication-workbench/src/consensus-store.js:187-187 | a completed reissue puts every caller with the same old read in the position to leave such a stray round |
| `ConsensusService.ReissueIsARun` | tools/msa-adjudication-workbench/src/consensus-store.js:319-409 | a reissue that nothing interrupts is a run of the protocol |
| `ConsensusService.ConsensusTask.constructor` | tools/msa-adjudication-workbench/src/consensus-store.js:28-125 | registration gives the open task with its first round and first event |
| `ConsensusService.ConsensusTask.TransitionConsensusTask` | tools/msa-adjudication-workbench/src/consensus-store.js:180-317 | the compare-and-swap: the whole new state, when a transition is not allowed, that success means the key is in the log, and that a conflict means the row had moved or publication was not ready |
| `ConsensusService.ConsensusTask.OpenNextRound` | tools/msa-adjudication-workbench/src/consensus-store.js:332-394 | the batch: the new round exactly when the task is still reissued at that round; otherwise exactly the stray round it leaves behind |
| `ConsensusService.ConsensusTask.CreateReissuedRound` | tools/msa-adjudication-workbench/src/consensus-store.js:319-409 | with a current read: reissued, superseded, withdrawn and reopened; overtaken by another call: a conflict, and the stray round |
| `ConsensusService.ConsensusTask.ReleaseIndependentEvidence` | tools/msa-adjudication-workbench/src/index.js:7502-7546 | both held items of a quorum become pending and nothing else; success exactly when both are out |
| `ConsensusService.ConsensusTask.ValidateArtifact` | tools/msa-adjudication-workbench/src/index.js:7085-7111 | accepts exactly the artifacts that are sound for the role against the packet of the task |
| `ConsensusService.ConsensusTask.ValidateConsensusEligibility` | tools/msa-adjudication-workbench/src/index.js:7155-7267 | accepts exactly the submissions that the protocol lets in |
| `ConsensusService.ConsensusTask.ReceiveSubmission` | tools/msa-adjudication-workbench/src/index.js:6236-6660 | accepted exactly when the protocol lets it in, and writes exactly the protocol's rows |
| `ConsensusService.ConsensusTask.ReconcileIndependentReview` | tools/msa-adjudication-workbench/src/index.js:7276-7354 | with a stored quorum the evidence is released and the task moves on, without one nothing changes; the agreement never throws; the call is a run |
| `ConsensusService.ConsensusTask.ReconcileDiscussion` | tools/msa-adjudication-workbench/src/index.js:7355-7411 | a stored proposal goes to final review or escalates; counting novel decisions never throws; the call is a run |
| `ConsensusService.ConsensusTask.ReconcileFinalReview` | tools/msa-adjudication-workbench/src/index.js:7412-7495 | a first pass over an answer "agree" approves, activates its result, opens the appeal window of 14 days and closes the round; over "disagree" and "recuse" it escalates, each with its own reason, and activates nothing; the call is a run |
| `ConsensusService.ConsensusTask.ReconcileConsensusTask` | tools/msa-adjudication-workbench/src/index.js:7269-7500 | a pass does what the state calls for, decides by the words of the answer, names the reason when it escalates, and then opens a fresh round |
| `ConsensusService.QuorumReachesDiscussion` | tools/msa-adjudication-workbench/src/index.js:7276-7338 | the first pass over a quorum opens the discussion exactly when both items may go out, and moves no other evidence |
| `ConsensusService.ProposalIsRouted` | tools/msa-adjudication-workbench/src/index.js:7355-7390 | the first pass over a proposal goes to final review exactly when every field of the decision is that field of one annotation, and escalates otherwise |
| `ConsensusService.AgreementApproves` | tools/msa-adjudication-workbench/src/index.js:7412-7462 | the first pass over an answer with the word "agree" approves with the result that was named active, the appeal deadline 1,209,600,000 ms later and only that round closed; over any other word it escalates and leaves result and rounds alone |
| `ConsensusService.AttemptSwapsExactly` | tools/msa-adjudication-workbench/src/consensus-store.js:180-317 | a transition goes through exactly when the table allows it, no event has its key, state and version are still those that were read, and a guarded publication is past its deadline with no appeal pending; then each column of the task and the one new event are as stated, and otherwise nothing changes |
| `ConsensusService.RoundIsFollowed` | tools/msa-adjudication-workbench/src/consensus-store.js:341-391 | what the reissue batch leaves: the prior round superseded if it was open, the next one open, the held evidence of the prior round cancelled, and nothing else changed |
| `ConsensusService.KeysTellApart` | tools/msa-adjudication-workbench/src/index.js:7334-7446 | two idempotency keys of one kind are the same only for the same round, reason or receipts |
| `ConsensusService.KindsOfKeysDiffer` | tools/msa-adjudication-workbench/src/consensus-store.js:337-407 | keys of different kinds are never the same, so that no transition is taken for the repetition of another |
| `ConsensusService.WhoMaySubmit` | tools/msa-adjudication-workbench/src/index.js:7155-7267 | a submission that is let in is by a role that the state asks for, in its own slot, of an open round, and by a user and in a role that the round does not have yet |
| `ConsensusService.AnnotatorsMaySubmit` | tools/msa-adjudication-workbench/src/index.js:7155-7267 | a first annotation bound to the packet is let in exactly for role A in slot A and role B in slot B |
| `ConsensusService.SubmissionWrites` | tools/msa-adjudication-workbench/src/index.js:6436-6576 | what a submission leaves: its row, its evidence held for an annotation and pending otherwise, a proposed result for a decision, the named result active for an answer "agree", and no result touched for "disagree" and "recuse" |
| `ConsensusService.ConsensusTask.CreateConsensusAppeal` | tools/msa-adjudication-workbench/src/index.js:3943-4004 | an appeal is taken exactly when the protocol lets it in |
| `ConsensusService.ConsensusTask.AttemptPublishTask` | tools/msa-adjudication-workbench/src/index.js:5304-5378 | by a caller with any earlier read: publication only of an approved task past its deadline with no appeal pending, and certainly with a current read of a ready one |
| `ConsensusService.ComparableAnnotations` | tools/msa-adjudication-workbench/src/index.js:7296-7301 | the annotations of a stored quorum are comparable |
| `ConsensusService.ComparableDecision` | tools/msa-adjudication-workbench/src/index.js:7363-7368 | a stored decision and its annotations have the same, distinct units |
| `CanonicalEncoding.CanonicalHashBuilder.Add` | tools/msa-adjudication-workbench/public/protocol.js:96-106 | one part is added at the end |
| `CanonicalEncoding.CanonicalHashBuilder.Bytes` | tools/msa-adjudication-workbench/public/protocol.js:108-114 | the hashed bytes are the preimage of the parts added |
| `CanonicalEncoding.JoinedIsPreimage` | tools/msa-adjudication-workbench/public/protocol.js:92-115 | the UTF-8 form of the joined text is the byte-wise preimage: lengths count bytes |
| `CanonicalEncoding.DecodePreimage` | tools/msa-adjudication-workbench/public/protocol.js:92-115 | a decoder inverts the encoding of every sequence of optional texts |
| `CanonicalEncoding.PreimageInjective` | tools/msa-adjudication-workbench/public/protocol.js:92-115 | equal preimages come from equal parts |
| `Evidence.ValidatePacket` | tools/msa-adjudication-workbench/public/protocol.js:117-172 | accepts exactly the well-formed packets |
| `Evidence.ValidateAnnotationCoverage` | tools/msa-adjudication-workbench/public/protocol.js:457-491 | accepts exactly the annotations that name every sentence once with its tokens numbered 1 to n |
| `EvidenceCoverage.EveryNumber` | tools/msa-adjudication-workbench/public/protocol.js:470-489 | n distinct ids between 1 and n leave none out, so the code's one-sided check is a bijection |
| `EvidenceCoverage.Counterpart` | tools/msa-adjudication-workbench/public/protocol.js:457-491 | two covering annotations have each other's sentences, with the same tokens |
| `EvidenceParts.SamePacket` | tools/msa-adjudication-workbench/public/protocol.js:240-274 | through the nested counted lists, equal part lists come from equal packets, except that missing and empty instructions are not told apart |
| `EvidenceParts.SameAnnotation` | tools/msa-adjudication-workbench/public/protocol.js:276-302 | equal part lists come from equal annotations |
| `EvidenceParts.SameDecision` | tools/msa-adjudication-workbench/public/protocol.js:304-341 | equal part lists come from equal decisions |
| `EvidenceParts.SameRatification` | tools/msa-adjudication-workbench/public/protocol.js:382-406 | equal part lists come from ratifications equal up to white space around the rationale |
| `EvidenceParts.PartsOfPacketHead` | tools/msa-adjudication-workbench/public/protocol.js:240-256 | the hashed parts before the sentences of a packet, one by one: tag, schema, identity, policy and origin fields, with booleans as the words true and false |
| `EvidenceParts.PartsOfAnnotationHead` | tools/msa-adjudication-workbench/public/protocol.js:276-302 | the parts before the sentences of an annotation, one by one |
| `EvidenceParts.PartsOfDecisionHead` | tools/msa-adjudication-workbench/public/protocol.js:304-341 | the parts before the sentences of a decision, one by one |
| `EvidenceParts.PartsOfRatification` | tools/msa-adjudication-workbench/public/protocol.js:382-406 | the parts of a ratification, one by one, with the rationale trimmed |
| `EvidenceParts.TrimmedSplits` | tools/msa-adjudication-workbench/public/protocol.js:403-405 | trimming takes white space off both ends, all of it and nothing else |
| `EvidenceRoots.AddAnnotations` | tools/msa-adjudication-workbench/public/protocol.js:436-455 | the loops over sentences and tokens add exactly the counted parts |
| `EvidenceRoots.ComputePacketMerkleRoot` | tools/msa-adjudication-workbench/public/protocol.js:240-274 | a root exactly for a valid packet, and it is the hash of its preimage |
| `EvidenceRoots.ComputeAnnotationMerkleRoot` | tools/msa-adjudication-workbench/public/protocol.js:276-302 | a root exactly for an annotation bound to its packet |
| `EvidenceRoots.ComputeAdjudicationMerkleRoot` | tools/msa-adjudication-workbench/public/protocol.js:304-341 | a root exactly for a decision bound to packet and both annotations |
| `EvidenceRoots.ComputeRatificationMerkleRoot` | tools/msa-adjudication-workbench/public/protocol.js:382-406 | a root exactly for a ratification bound to the decision |
| `EvidenceRoots.ValidateSubmissionBinding` | tools/msa-adjudication-workbench/public/protocol.js:174-194 | accepts exactly the annotations that carry the packet's root and cover it |
| `EvidenceRoots.ValidateAdjudicationBinding` | tools/msa-adjudication-workbench/public/protocol.js:196-228 | accepts exactly the decisions that carry all three roots and both slots, cover the packet, and give those reasons |
| `EvidenceRoots.ValidateAdjudicationResolutions` | tools/msa-adjudication-workbench/public/protocol.js:493-545 | accepts exactly when every token whose note is missing or blank has each of its six fields equal to both annotators', and every sentence without a reason has both its fields equal to both annotators'; no lookup fails |
| `EvidenceRoots.ResolvedOnFields` | tools/msa-adjudication-workbench/public/protocol.js:408-415 | the reasons that are due, decided unit by unit, are due exactly where a field differs from one of the annotators' |
| `EvidenceRoots.ValidateRatificationBinding` | tools/msa-adjudication-workbench/public/protocol.js:343-380 | accepts exactly the ratifications bound to the decision, the rationale's length counted in UTF-16 units |
| `EvidenceRoots.PacketRootFixes` | tools/msa-adjudication-workbench/public/protocol.js:240-274 | packet roots are equal if and only if all fields but the instructions are, and the instructions are too or are missing in one packet and empty in the other |
| `EvidenceRoots.AnnotationRootFixes` | tools/msa-adjudication-workbench/public/protocol.js:276-302 | equal annotation roots mean equal annotations |
| `EvidenceRoots.DecisionRootFixes` | tools/msa-adjudication-workbench/public/protocol.js:304-341 | equal decision roots mean equal decisions |
| `EvidenceRoots.RatificationRootFixesTheEvidence` | tools/msa-adjudication-workbench/public/protocol.js:382-406 | one ratification root fixes packet, both annotations, decision and ratification, up to white space around the rationale and missing or empty instructions |
| `EvidenceRoots.KindsNeverCoincide` | tools/msa-adjudication-workbench/public/protocol.js:240-406 | no packet, annotation, decision and ratification share a preimage |
| `CohenKappa.CountPairs` | tools/msa-adjudication-workbench/src/consensus.js:168-187 | the counting loop counts agreements and each rater's labels |
| `CohenKappa.ExpectedAgreement` | tools/msa-adjudication-workbench/src/consensus.js:178-184 | the sum over the labels, in any order, is the chance agreement |
| `CohenKappa.ComputeCohenKappa` | tools/msa-adjudication-workbench/src/consensus.js:168-187 | the loops compute kappa as defined by counts of labels |
| `CohenKappa.KappaUndefined` | tools/msa-adjudication-workbench/src/consensus.js:168-187 | undefined exactly without pairs or when both raters use one same label |
| `CohenKappa.KappaBounds` | tools/msa-adjudication-workbench/src/consensus.js:168-187 | in [-1, 1] where defined, and 1 exactly on full agreement |
| `CohenKappa.KappaPermuted` | tools/msa-adjudication-workbench/src/consensus.js:168-187 | unchanged by permuting the pairs |
| `CohenKappa.KappaSwapped` | tools/msa-adjudication-workbench/src/consensus.js:168-187 | unchanged by swapping the raters |
| `DecisionKeys.KeysNeverCollide` | tools/msa-adjudication-workbench/src/consensus.js:222-254 | different decision units have different string keys, whatever the sentence identifiers contain |
| `DecisionKeys.CoverageKeysNeverCollide` | tools/msa-adjudication-workbench/src/consensus.js:265-288 | sentence and token coverage keys never collide |
| `NovelDecisions.SetUniqueDecisionValue` | tools/msa-adjudication-workbench/src/consensus.js:290-295 | refuses exactly a unit that is already there |
| `NovelDecisions.DecisionMap` | tools/msa-adjudication-workbench/src/consensus.js:222-254 | a map of all units exactly when no unit comes twice |
| `NovelDecisions.CountNovelPrimaryDecisions` | tools/msa-adjudication-workbench/src/consensus.js:118-139 | counts the units whose value neither annotator gave; throws exactly on repeated or differing units |
| `NovelDecisions.CoveredIsComparable` | tools/msa-adjudication-workbench/src/consensus.js:118-139 | evidence that passes the coverage checks never makes the count throw |
| `NovelDecisions.NothingNovel` | tools/msa-adjudication-workbench/src/consensus.js:118-139 | the count is zero exactly when every value is one of the two annotators' |
| `EvidenceFields.NothingNovelOnFields` | tools/msa-adjudication-workbench/src/consensus.js:118-139 | the count of novel units is zero if and only if each of the two fields of every sentence and the six of every token of the decision equals that field in one of the annotations |
| `EvidenceFields.TokenValuesFix` | tools/msa-adjudication-workbench/src/consensus.js:237-248 | two tokens have the same six values exactly when they agree in all but number and note |
| `EvidenceFields.SentenceValuesFix` | tools/msa-adjudication-workbench/src/consensus.js:228-236 | two sentences have the same two values exactly when those two fields agree |
| `EvidenceFields.OneFieldChanges` | tools/msa-adjudication-workbench/src/consensus.js:237-248 | changing one of the six fields changes the value of that field and of no other; number and note change none |
| `EvidenceFields.OneSentenceFieldChanges` | tools/msa-adjudication-workbench/src/consensus.js:228-236 | changing one of the two fields changes the value of that field and of no other; note and tokens change none |
| `IndependentAgreement.AnnotationCoverage` | tools/msa-adjudication-workbench/src/consensus.js:265-288 | the key set of the sentences and tokens, and when it throws |
| `IndependentAgreement.AssertComparableCoverage` | tools/msa-adjudication-workbench/src/consensus.js:256-263 | accepts exactly annotations with the same places |
| `IndependentAgreement.SentencePairs` | tools/msa-adjudication-workbench/src/consensus.js:189-198 | pairs up every sentence of the first with its counterpart, and throws exactly when one is missing |
| `IndependentAgreement.TokenPairs` | tools/msa-adjudication-workbench/src/consensus.js:200-220 | pairs up every token of the first with its counterpart, and throws exactly when one is missing |
| `IndependentAgreement.MeasureDimension` | tools/msa-adjudication-workbench/src/consensus.js:152-166 | agreement share, kappa and exactness of one dimension |
| `IndependentAgreement.ComputeIndependentAgreement` | tools/msa-adjudication-workbench/src/consensus.js:70-105 | eight dimensions and their means; throws exactly on annotations that are not comparable |
| `IndependentAgreement.CoveredIsComparable` | tools/msa-adjudication-workbench/src/consensus.js:256-288 | annotations that pass the coverage checks are always comparable |
| `IndependentAgreement.MacroBounds` | tools/msa-adjudication-workbench/src/consensus.js:91-105 | the means are again an agreement in [0, 1] and a kappa in [-1, 1] |
| `IndependentAgreement.ExactAgreementPasses` | tools/msa-adjudication-workbench/src/consensus.js:107-116 | exact agreement passes every policy with the raw-agreement fallback |
| `IndependentAgreement.ExactAgreementMeansSame` | tools/msa-adjudication-workbench/src/consensus.js:70-105 | exact agreement holds exactly when the second says of every unit what the first says |
| `EvidenceFields.ExactAgreementOnFields` | tools/msa-adjudication-workbench/src/consensus.js:70-105 | exact agreement holds if and only if counterpart sentences have the same two fields and counterpart tokens the same six |
| `EvidenceFields.SentenceDimensions` | tools/msa-adjudication-workbench/src/consensus.js:189-198 | the first two dimensions pair up structural acceptability and completeness of counterpart sentences |
| `EvidenceFields.TokenDimensions` | tools/msa-adjudication-workbench/src/consensus.js:200-220 | the other six pair up, in order, the six fields of counterpart tokens |
| `FunctionModel.IndexOfParameter` | src/Adg.Compiler/Functions/FunctionModel.cs:33-44 | the first parameter of that name, or none when there is none |
| `FunctionModel.IndexOfFunction` | src/Adg.Compiler/Functions/FunctionModel.cs:55-66 | the first function of that name, or none when there is none |
| `FunctionTemplate.Parse` | src/Adg.Compiler/Functions/FunctionTemplate.cs:9-53 | the scanning loop computes the reading of the template or its error |
| `FunctionTemplate.ParseIsTheReading` | src/Adg.Compiler/Functions/FunctionTemplate.cs:9-53 | parsing succeeds exactly on templates with a regular reading and returns it; so there is at most one |
| `FunctionTemplate.TrimIsTrimmed` | src/Adg.Compiler/Functions/FunctionTemplate.cs:9-53 | a placeholder's name is what is left of the text between the braces without the white space at its two ends, and only that |
| `FunctionTypeChecker.CheckFunction` | src/Adg.Compiler/Functions/FunctionTypeChecker.cs:33-70 | no error exactly for well-typed functions, and every error is a defect that is there |
| `FunctionTypeChecker.CheckCall` | src/Adg.Compiler/Functions/FunctionTypeChecker.cs:72-99 | no error exactly for calls that match a function in number and kinds of arguments |
| `FunctionTypeChecker.Check` | src/Adg.Compiler/Functions/FunctionTypeChecker.cs:5-31 | no error exactly for the checked programs, and every error names a defect that is there |
| `FunctionTypeChecker.CheckedIsWellTyped` | src/Adg.Compiler/Functions/FunctionTypeChecker.cs:5-99 | the checked programs, spelled out on names, kinds and operators: distinct functions and parameters, readable templates over declared parameters, conditions on numbers, and calls that match in number and kind |
| `LlvmText.EscapeCString` | src/Adg.Compiler/LlvmEmitter/LlvmText.cs:12-29 | the literal reads back as the bytes and holds no quote |
| `LlvmText.UnescapeEscape` | src/Adg.Compiler/LlvmEmitter/LlvmText.cs:12-29 | unescaping inverts escaping for all bytes |
| `LlvmFunctionEmitter.Emitter.Intern` | src/Adg.Compiler/LlvmEmitter/LlvmFunctionEmitter.cs:164-177 | one symbol for each content, a new global exactly for a new content |
| `LlvmFunctionEmitter.Emitter.EmitPrintf` | src/Adg.Compiler/LlvmEmitter/LlvmFunctionEmitter.cs:127-162 | emits exactly when every placeholder names a parameter; format, arguments and their order are those of the template |
| `LlvmFunctionEmitter.Emitter.EmitFunction` | src/Adg.Compiler/LlvmEmitter/LlvmFunctionEmitter.cs:49-85 | the labelled lines: body, then compare, branch, then-block and join for each condition |
| `LlvmFunctionEmitter.Emitter.EmitMain` | src/Adg.Compiler/LlvmEmitter/LlvmFunctionEmitter.cs:87-125 | for each call its heading, the invocation with its arguments, and a line end, the headings numbered 1, 2, 3 and so on; throws exactly on an unknown function |
| `LlvmFunctionEmitter.Emitter.Build` | src/Adg.Compiler/LlvmEmitter/LlvmFunctionEmitter.cs:17-47 | emission throws exactly on programs with a bad template, parameter or call; otherwise the module is as described |
| `CompilerCorrectness.InternedIsBijection` | src/Adg.Compiler/LlvmEmitter/LlvmFunctionEmitter.cs:164-177 | contents and symbols are one to one, and the declared length is the bytes plus one |
| `CompilerCorrectness.FormatPrints` | src/Adg.Compiler/LlvmEmitter/LlvmFunctionEmitter.cs:127-162 | printf with the emitted format and arguments prints the template with its values |
| `CompilerCorrectness.ConditionsRun` | src/Adg.Compiler/LlvmEmitter/LlvmFunctionEmitter.cs:60-79 | running the compare, branch, then and join blocks prints exactly the consequences whose condition holds |
| `CompilerCorrectness.CompilationPreservesMeaning` | src/Adg.Compiler/LlvmEmitter/LlvmFunctionEmitter.cs:17-177 | running the module of a checked program with 32-bit numbers prints exactly what the program says, if and only if that contains no NUL |
| `CompilerCorrectness.OutputOfModule` | src/Adg.Compiler/LlvmEmitter/LlvmFunctionEmitter.cs:87-125 | running the module of a checked program whose output has no NUL prints, for k from 1 to the number of calls, the heading with the decimal digits of k, the text of the k-th call and a line end, and nothing else |
| `FunctionOutput.DirectIsWritten` | src/Adg.Compiler/LlvmEmitter/LlvmFunctionEmitter.cs:49-125 | the meaning of a program is those clauses, each with its heading, its template with the arguments in place of their names, and the consequences that hold |
| `FunctionOutput.BeginsWithClauseOne` | src/Adg.Compiler/LlvmEmitter/LlvmFunctionEmitter.cs:93-98 | the output of a program with a call begins with the heading of clause number 1 |
| `Text.DecimalIntIsNumeral` | src/Adg.Compiler/LlvmEmitter/LlvmFunctionEmitter.cs:93-98 | a number is written as the one numeral without leading zeros that has its value, with a minus sign if negative |
| `CompilerCorrectness.Compile` | src/Adg.Compiler/LlvmEmitter/LlvmFunctionEmitter.cs:8-47 | check, then emit: a module exactly without an error, and the module prints the numbered clauses of the program |
| `LlvmModule.RunHasNoNul` | src/Adg.Compiler/LlvmEmitter/LlvmFunctionEmitter.cs:164-177 | no emitted module can print a NUL, as printf reads C strings: why the condition above is exact |

## Left out

- RecoveryTheorems.NoCommittedWriteIsLost: assumes the four rules, because without each of them it is false (see the runs in `RecoveryHypotheses`).
- RecoveryRefinement.RecoveryRestoresTheLostDatabase: says nothing about the data when a write is pending or blocked at the restore, or when rows were created in another order than their receipts; then `RecoveryIsComplete` still accounts for every write.
- RecoveryControl.RecoveryControl.CompleteRecovery: speaks of a call during which no other executor is at work, made after the physical restore; the interleavings of other executors are in the state machine. The recovery id in the request, the lease and the recorded error text are not modelled.
- RecoveryControl.RecoveryControl.BeginRecovery: does not model the restore lease of the backup.
- JournaledDatabase.JournaledPostgres.ExecuteMutatingOperations: the encryption and the size cap of the journal payload, and results of reads, are not part of this model.
- JournaledDatabase.JournaledPostgres.CompleteRecoveryReplay: a failure to mark a row ends a replay in the code as an executor that crashes does in the state machine; the class does not have it.
- Postgres.TransactionAtMostOnce: a payload is one function of the rows, so the single statements of a batch and their row counts are not modelled.
- BackupSets.BackupSet.UploadBackupChunk: the configured caps on sizes and counts and the checks of the stored descriptor are not modelled; a statement whose reply is lost is an event of `BackupProtocol` and not an outcome of the class.
- BackupSets.BackupSet.CompleteBackupSet: its reads are events of `BackupProtocol` made before; the fields of the completion request are not modelled.
- BackupSets.SelectRetained: marking sets expired or failed and deleting their objects are events of `BackupProtocol`; deleting the rows of the sets at the end is not modelled.
- SqlPlaceholders.ReplaceSqlitePlaceholders: `INSERT OR IGNORE` is rewritten before; that rewriting, and the conversion of big-integer values, are not modelled.
- ConsensusService.ConsensusTask.TransitionConsensusTask: event hashes, prior-state hashes, actors and reason codes are not modelled; the key is looked up among this task's events.
- ConsensusService.ConsensusTask.ReceiveSubmission: sessions, packet registration, participations, reputation and stored receipts of earlier schemas are not modelled.
- ConsensusService.ConsensusTask.ReconcileIndependentReview: the stored metrics row and the notifications are not modelled; whether the policy passed changes only the event's type.
- ConsensusService.ConsensusTask.ReconcileConsensusTask: runs without interruption; the reissue that follows an escalation is specified for fresh keys.
- ConsensusService.ConsensusTask.CreateConsensusAppeal: one appeal for each person and result, which the schema enforces, is not modelled.
- ConsensusService.ConsensusTask.AttemptPublishTask: what the repository's receipt must contain, and the time of publication kept with the result, are not modelled.
- EvidenceRoots.RatificationRootFixesTheEvidence: assumes an injective hash, as do the other statements about roots.
- Evidence.ValidatePacket: the schema name, the bounds of the metric policy, which is kept as text, and the scan for forbidden keys are not modelled.
- CanonicalEncoding.PreimageInjective: lone surrogates, which UTF-8 encoders replace, cannot occur in a Dafny text.
- CohenKappa.ComputeCohenKappa: floating-point rounding is not modelled.
- IndependentAgreement.ComputeIndependentAgreement: the means are exact rationals; sorting the fields of the result is not modelled.
- CompilerCorrectness.CompilationPreservesMeaning: numbers outside 32 bits, which the source model's 64-bit type allows, are excluded.
- LlvmFunctionEmitter.Emitter.Build: the module is a value; the comment lines, `source_filename` and the layout of the text are not modelled.
- LlvmModule.RunHasNoNul: the interpreter knows the instructions that the emitter writes and no others.
- The container variant of the database adapter, which sends the same operations over HTTP.
- The revoked state's own transitions: the table allows them and the modelled functions never take them, except that a revoked task can be reissued.
- HTTP routes, sessions, sign-in, mail, file storage, encryption and the user interface.
- The grammatical front end of the compiler: readers, tokens, keyword tables, diagnostics and the call of the native toolchain.
- Drafts, discussion comments, issue reports, identity erasure and e-mail codes: shallow stores beside the main protocol.
