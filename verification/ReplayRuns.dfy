/** What the adapter's methods do to the journal and the database is a run of the recovery
    protocol. */
module ReplayRuns {
  import opened Options
  import opened Postgres
  import opened Journal
  import opened RecoveryProtocol
  import opened JournalReplay

  function SettleEvents(x: ExecutorId, s: Store, weather: Weather, n: nat): (events: seq<Event>)
    ensures |events| == 2 && events[1] == Mark(x, weather.looksAmbiguous(n))
  {
    var attempt :=
      match weather.fate(n)
      case Delivered => Transact(x, LastSeq(s.db.log) + 1 + weather.burnt(n), Heard)
      case ReplyLost => Transact(x, LastSeq(s.db.log) + 1 + weather.burnt(n), Lost)
      case ReplyMisread => Transact(x, LastSeq(s.db.log) + 1 + weather.burnt(n), Misread)
      case NotReached => FailBefore(x, true)
      case BadPayload => FailBefore(x, false);
    [attempt, Mark(x, weather.looksAmbiguous(n))]
  }

  lemma TwoEvents(rules: Rules, w: World, e: Event, f: Event)
    requires Enabled(rules, w, e) && Enabled(rules, Next(w, e), f)
    ensures Execute(rules, w, [e, f]) == Some(Next(Next(w, e), f))
  {
    hide Enabled, Next;
    var mid := Next(w, e);
    assert [e, f][1..] == [f] && [f][1..] == [];
    assert Execute(rules, mid, [f]) == Some(Next(mid, f));
  }

  lemma FirstStep(w: World, x: ExecutorId, weather: Weather, n: nat)
    requires x in w.executors
    ensures var ex := w.executors[x];
            var s := Store(w.journal, w.db);
            var mid := Next(w, SettleEvents(x, s, weather, n)[0]);
            var (after, phase) := Settled(s, ex.request, ex.payload, ex.forced, weather, n);
            && mid.journal == w.journal && mid.db == after.db
            && mid.executors == w.executors[x := ex.(phase := phase)]
            && mid.snapshots == w.snapshots && mid.runtime == w.runtime && mid.acked == w.acked
  {
    hide ApplyWithReceipt, MarkByPhase;
  }

  lemma SecondStep(w: World, x: ExecutorId, weather: Weather, n: nat, ex: Executor, phase: Phase)
    requires x in w.executors && w.executors[x] == ex.(phase := phase)
    ensures var end := Next(w, Mark(x, weather.looksAmbiguous(n)));
            && end.journal == MarkByPhase(w.journal, Executor(ex.request, ex.payload, ex.forced, false, phase),
                                          weather.looksAmbiguous(n))
            && end.db == w.db && end.executors == w.executors - {x}
            && end.snapshots == w.snapshots && end.runtime == w.runtime
  {
    hide MarkApplied, MarkFailed, MarkPending;
  }

  lemma MarkedAsLearned(s: Store, r: RequestId, p: Payload, forced: Option<nat>, weather: Weather, n: nat)
    ensures var (after, phase) := Settled(s, r, p, forced, weather, n);
            after.journal == MarkByPhase(s.journal, Executor(r, p, forced, false, phase), weather.looksAmbiguous(n))
  {
    hide ApplyWithReceipt, MarkByPhase, PhaseAfter;
  }

  lemma SettledInTwoSteps(w: World, x: ExecutorId, weather: Weather, n: nat)
    requires x in w.executors
    ensures var ex := w.executors[x];
            var es := SettleEvents(x, Store(w.journal, w.db), weather, n);
            var end := Next(Next(w, es[0]), es[1]);
            && Store(end.journal, end.db)
               == Settled(Store(w.journal, w.db), ex.request, ex.payload, ex.forced, weather, n).0
            && end.executors == w.executors - {x}
            && end.snapshots == w.snapshots && end.runtime == w.runtime
  {
    hide Settled, Next, MarkByPhase;
    var ex, s := w.executors[x], Store(w.journal, w.db);
    var mid := Next(w, SettleEvents(x, s, weather, n)[0]);
    var phase := Settled(s, ex.request, ex.payload, ex.forced, weather, n).1;
    FirstStep(w, x, weather, n);
    SecondStep(mid, x, weather, n, ex, phase);
    MarkedAsLearned(s, ex.request, ex.payload, ex.forced, weather, n);
    assert mid.executors - {x} == w.executors - {x};
  }

  /** An attempt is a run of the protocol: what the methods below do to the journal and the
      database are steps the protocol's theorems range over. */
  lemma SettledIsARun(rules: Rules, w: World, x: ExecutorId, weather: Weather, n: nat)
    requires x in w.executors && w.executors[x].phase.Started?
    requires rules.gated ==> !Unpromoted(w)
    ensures var ex := w.executors[x];
            var s := Store(w.journal, w.db);
            var after := Execute(rules, w, SettleEvents(x, s, weather, n));
            && after.Some?
            && Store(after.value.journal, after.value.db) == Settled(s, ex.request, ex.payload, ex.forced, weather, n).0
            && after.value.executors == w.executors - {x}
            && after.value.snapshots == w.snapshots && after.value.runtime == w.runtime
  {
    hide Settled, ApplyWithReceipt;
    var es := SettleEvents(x, Store(w.journal, w.db), weather, n);
    SettledInTwoSteps(w, x, weather, n);
    TwoEvents(rules, w, es[0], es[1]);
  }

  // ---- Longer runs

  ghost predicate RunTo(rules: Rules, w: World, w': World) {
    exists events :: Execute(rules, w, events) == Some(w')
  }

  lemma {:induction false} ExecuteThen(rules: Rules, w: World, a: seq<Event>, mid: World, b: seq<Event>, w': World)
    requires Execute(rules, w, a) == Some(mid) && Execute(rules, mid, b) == Some(w')
    ensures Execute(rules, w, a + b) == Some(w')
    decreases |a|
  {
    hide Enabled, Next;
    if |a| == 0 {
      assert a + b == b;
    } else {
      ExecuteThen(rules, Next(w, a[0]), a[1..], mid, b, w');
      assert (a + b)[1..] == a[1..] + b;
    }
  }

  lemma RunThen(rules: Rules, w: World, mid: World, w': World)
    requires RunTo(rules, w, mid) && RunTo(rules, mid, w')
    ensures RunTo(rules, w, w')
  {
    hide Execute;
    var a :| Execute(rules, w, a) == Some(mid);
    var b :| Execute(rules, mid, b) == Some(w');
    ExecuteThen(rules, w, a, mid, b, w');
  }

  lemma RunNowhere(rules: Rules, w: World)
    ensures RunTo(rules, w, w)
  {
    assert Execute(rules, w, []) == Some(w);
  }

  lemma RunStep(rules: Rules, w: World, e: Event)
    requires Enabled(rules, w, e)
    ensures RunTo(rules, w, Next(w, e))
  {
    hide Enabled, Next;
    assert [e][1..] == [];
    assert Execute(rules, Next(w, e), []) == Some(Next(w, e));
    assert Execute(rules, w, [e]) == Some(Next(w, e));
  }

  lemma RunReachable(rules: Rules, base: Data, w: World, w': World)
    requires Reachable(rules, base, w) && RunTo(rules, w, w')
    ensures Reachable(rules, base, w')
  {
    hide Execute;
    var a :| Execute(rules, Genesis(base), a) == Some(w);
    var b :| Execute(rules, w, b) == Some(w');
    ExecuteThen(rules, Genesis(base), a, w, b, w');
  }

  lemma {:induction false} OrderlyExecute(w: World, events: seq<Event>, w': World)
    requires Execute(ORDERLY, w, events) == Some(w')
    ensures Execute(STRICT, w, events) == Some(w')
    decreases |events|
  {
    hide Next, InTurn, CanComplete;
    if |events| > 0 {
      OrderlyExecute(Next(w, events[0]), events[1..], w');
    }
  }

  /** An orderly recovery is one of the runs that the theorems are about. */
  lemma OrderlyIsStrict(w: World, w': World)
    requires RunTo(ORDERLY, w, w')
    ensures RunTo(STRICT, w, w')
  {
    hide Execute;
    var events :| Execute(ORDERLY, w, events) == Some(w');
    OrderlyExecute(w, events, w');
  }

  /** No executor is at work, and nothing but the journal and the database differs. */
  ghost predicate StillIdle(w: World, w': World) {
    w'.executors == map[] && w'.snapshots == w.snapshots && w'.runtime == w.runtime
  }

  /** The row may be picked up, by the recovery replay or by the background one. */
  ghost predicate MayPick(w: World, r: RequestId, forced: Option<nat>) {
    && r in w.journal
    && (forced.None? ==> ReplayCandidate(w.journal[r]))
    && (forced.Some? ==>
          && w.runtime.Recovering? && w.runtime.restored && w.db.generation == w.runtime.target == forced.value
          && ReplayEligible(w.journal[r], CoverageOf(w.runtime.snapshot), w.runtime.target))
  }

  /** Picking up a row, attempting it and marking it is a run. */
  lemma AttemptIsARun(rules: Rules, w: World, r: RequestId, forced: Option<nat>, weather: Weather, n: nat)
    returns (w': World)
    requires w.executors == map[] && MayPick(w, r, forced)
    requires rules.gated ==> !Unpromoted(w)
    requires rules.ordered ==>
               forced.Some? && InTurn(w.journal, CoverageOf(w.runtime.snapshot), w.runtime.target, r)
    ensures RunTo(rules, w, w') && StillIdle(w, w')
    ensures Store(w'.journal, w'.db) == Settled(Store(w.journal, w.db), r, w.journal[r].payload, forced, weather, n).0
  {
    hide Settled, Execute, SettleEvents;
    var pick := if forced.Some? then PickRecovery(0, r) else PickReplay(0, r);
    var started := Next(w, pick);
    RunStep(rules, w, pick);
    SettledIsARun(rules, started, 0, weather, n);
    w' := Execute(rules, started, SettleEvents(0, Store(started.journal, started.db), weather, n)).value;
    assert started.executors == map[0 := Executor(r, w.journal[r].payload, forced, false, Started)];
    RunThen(rules, w, started, w');
  }

  /** A new write, recorded, attempted once and marked, or left unmarked, is a run, and the
      client is told of success exactly when its receipt is known. */
  lemma SubmissionIsARun(rules: Rules, w: World, r: RequestId, p: Payload, now: nat, markLost: bool, weather: Weather)
    returns (w': World)
    requires w.executors == map[] && r !in w.issued && (rules.gated ==> !Unpromoted(w)) && !rules.ordered
    ensures RunTo(rules, w, w') && StillIdle(w, w')
    ensures var recorded := w.journal[r := PendingEntry(p, now)];
            var (after, phase) := Settled(Store(recorded, w.db), r, p, None, weather, 0);
            && w'.db == after.db && w'.journal == (if markLost then recorded else after.journal)
            && w'.acked == (if phase.Done? then w.acked + {r} else w.acked)
  {
    hide Settled, SettleEvents, MarkByPhase, Unpromoted, RunTo;
    var submit := Submit(0, r, p, now);
    var started := Next(w, submit);
    SubmitKeepsGate(w, submit);
    RunStep(rules, w, submit);
    assert started.executors == map[0 := Executor(r, p, None, true, Started)];
    var attempted := AttemptGoes(rules, started, 0, weather, 0);
    RunThen(rules, w, started, attempted);
    w' := FinishGoes(rules, attempted, started, markLost, weather);
    RunThen(rules, w, attempted, w');
  }

  lemma AttemptGoes(rules: Rules, w: World, x: ExecutorId, weather: Weather, n: nat) returns (mid: World)
    requires x in w.executors && w.executors[x].phase.Started? && (rules.gated ==> !Unpromoted(w))
    ensures var ex := w.executors[x];
            var (after, phase) := Settled(Store(w.journal, w.db), ex.request, ex.payload, ex.forced, weather, n);
            && RunTo(rules, w, mid)
            && mid.journal == w.journal && mid.db == after.db
            && mid.executors == w.executors[x := ex.(phase := phase)]
            && mid.snapshots == w.snapshots && mid.runtime == w.runtime && mid.acked == w.acked
  {
    hide Settled, RunTo;
    var attempt := SettleEvents(x, Store(w.journal, w.db), weather, n)[0];
    FirstStep(w, x, weather, n);
    RunStep(rules, w, attempt);
    mid := Next(w, attempt);
  }

  /** The direct executor's last step: its row is marked, or the mark is lost. */
  lemma FinishGoes(rules: Rules, attempted: World, started: World, markLost: bool, weather: Weather) returns (w': World)
    requires 0 in started.executors && started.executors.Keys == {0} && attempted.journal == started.journal
    requires var ex := started.executors[0];
             var (after, phase) := Settled(Store(started.journal, started.db), ex.request, ex.payload, ex.forced, weather, 0);
             && ex.direct && ex.request in started.journal
             && attempted.db == after.db && attempted.executors == started.executors[0 := ex.(phase := phase)]
             && attempted.snapshots == started.snapshots && attempted.runtime == started.runtime
             && attempted.acked == started.acked
    ensures RunTo(rules, attempted, w') && StillIdle(started, w')
    ensures var ex := started.executors[0];
            var (after, phase) := Settled(Store(started.journal, started.db), ex.request, ex.payload, ex.forced, weather, 0);
            && w'.db == after.db && w'.journal == (if markLost then started.journal else after.journal)
            && w'.acked == (if phase.Done? then started.acked + {ex.request} else started.acked)
  {
    hide Settled, RunTo, MarkByPhase;
    var ex, s := started.executors[0], Store(started.journal, started.db);
    var phase := Settled(s, ex.request, ex.payload, ex.forced, weather, 0).1;
    SettledOneRow(s, ex.request, ex.payload, ex.forced, weather, 0);
    var finish := if markLost then FinishUnmarked(0) else Mark(0, weather.looksAmbiguous(0));
    RunStep(rules, attempted, finish);
    w' := Next(attempted, finish);
    MarkedAsLearned(s, ex.request, ex.payload, ex.forced, weather, 0);
    MarkIgnoresDirect(s.journal, attempted.executors[0], weather.looksAmbiguous(0));
  }

  lemma SubmitKeepsGate(w: World, submit: Event)
    requires submit.Submit?
    ensures Unpromoted(Next(w, submit)) == Unpromoted(w)
  {
  }

  lemma MarkIgnoresDirect(j: Journal, ex: Executor, looksAmbiguous: bool)
    ensures MarkByPhase(j, Executor(ex.request, ex.payload, ex.forced, false, ex.phase), looksAmbiguous)
            == MarkByPhase(j, ex, looksAmbiguous)
  {
    hide MarkApplied, MarkFailed, MarkPending;
  }

  lemma StillPickable(w: World, w': World, r: RequestId, q: RequestId, forced: Option<nat>)
    requires MayPick(w, q, forced) && q != r && StillIdle(w, w')
    requires OneRowChanged(w.journal, w'.journal, r) && w'.db.generation == w.db.generation
    ensures MayPick(w', q, forced)
  {
  }

  /** Nothing is left to requeue, and the batch takes the rows to replay in their order. */
  ghost predicate BatchInTurn(base: Data, w: World, batch: seq<RequestId>)
    requires w.runtime.Recovering?
  {
    var snapshot := CoverageOf(w.runtime.snapshot);
    && (forall q :: q in w.journal ==> !Requeueable(w.journal[q]))
    && InOrder(w.journal, EligibleSet(w.journal, snapshot, w.runtime.target), batch)
    && Replaying(base, Store(w.journal, w.db), w.db.log, snapshot, w.runtime.target)
  }

  lemma FirstInTurn(base: Data, w: World, batch: seq<RequestId>)
    requires w.runtime.Recovering? && |batch| > 0 && batch[0] in w.journal && BatchInTurn(base, w, batch)
    ensures InTurn(w.journal, CoverageOf(w.runtime.snapshot), w.runtime.target, batch[0])
  {
    hide Replaying, ReplayEligible, Requeueable;
    FirstIsEarliest(w.journal, EligibleSet(w.journal, CoverageOf(w.runtime.snapshot), w.runtime.target), batch);
    forall q | q in w.journal && ReplayEligible(w.journal[q], CoverageOf(w.runtime.snapshot), w.runtime.target)
      ensures w.journal[batch[0]].createdAt <= w.journal[q].createdAt
    {
      assert q in EligibleSet(w.journal, CoverageOf(w.runtime.snapshot), w.runtime.target);
    }
  }

  /** A settled row is out of the way of the next one. */
  lemma RestInTurn(base: Data, w: World, w': World, batch: seq<RequestId>, weather: Weather, n: nat)
    requires w.runtime.Recovering? && |batch| > 0 && batch[0] in w.journal && BatchInTurn(base, w, batch)
    requires StillIdle(w, w')
    requires var s := Store(w.journal, w.db);
             var (after, phase) := Settled(s, batch[0], s.journal[batch[0]].payload, Some(w.runtime.target), weather, n);
             Store(w'.journal, w'.db) == after && (phase.Done? || phase.Refused?)
    ensures BatchInTurn(base, w', batch[1..])
  {
    hide Settled, WellFormed, LogWithin, InOrder, EligibleSet;
    var s, r := Store(w.journal, w.db), batch[0];
    var snapshot, target := CoverageOf(w.runtime.snapshot), w.runtime.target;
    SettledProgress(base, s, r, snapshot, target, weather, n);
    SettledForGood(s, r, target, weather, n);
    RestIsInOrder(w.journal, w'.journal, EligibleSet(w.journal, snapshot, target), batch);
  }

  lemma SettledForGood(s: Store, r: RequestId, target: nat, weather: Weather, n: nat)
    requires r in s.journal
    ensures var (after, phase) := Settled(s, r, s.journal[r].payload, Some(target), weather, n);
            phase.Done? || phase.Refused? ==> r in after.journal && !Requeueable(after.journal[r])
  {
    hide ApplyWithReceipt;
  }

  /** A batch of the recovery replay is a run, an orderly one if the batch is in turn. */
  lemma {:induction false} ReplayedIsARun(rules: Rules, base: Data, w: World, batch: seq<RequestId>, weather: Weather, n: nat)
    returns (w': World)
    requires w.executors == map[] && w.runtime.Recovering? && w.runtime.restored && w.db.generation == w.runtime.target
    requires Distinct(batch) && forall i :: 0 <= i < |batch| ==> MayPick(w, batch[i], Some(w.runtime.target))
    requires rules.ordered ==> BatchInTurn(base, w, batch)
    ensures RunTo(rules, w, w') && StillIdle(w, w') && w'.db.generation == w.db.generation
    ensures Store(w'.journal, w'.db) == Replayed(Store(w.journal, w.db), batch, w.runtime.target, weather, n).store
    decreases |batch|
  {
    hide Settled, MayPick, RunTo, BatchInTurn, InTurn;
    if |batch| == 0 {
      w' := w;
      RunNowhere(rules, w);
    } else {
      var r, target := batch[0], w.runtime.target;
      assert MayPick(w, r, Some(target));
      PickedIsRow(w, r, Some(target));
      var s := Store(w.journal, w.db);
      if rules.ordered {
        FirstInTurn(base, w, batch);
      }
      var mid := AttemptIsARun(rules, w, r, Some(target), weather, n);
      SettledOneRow(s, r, s.journal[r].payload, Some(target), weather, n);
      var phase := Settled(s, r, s.journal[r].payload, Some(target), weather, n).1;
      if phase.Done? || phase.Refused? {
        forall i | 0 <= i < |batch[1..]| ensures MayPick(mid, batch[1..][i], Some(target)) {
          StillPickable(w, mid, r, batch[i + 1], Some(target));
        }
        if rules.ordered {
          RestInTurn(base, w, mid, batch, weather, n);
        }
        w' := ReplayedIsARun(rules, base, mid, batch[1..], weather, n + 1);
        RunThen(rules, w, mid, w');
      } else {
        w' := mid;
      }
    }
  }

  lemma PickedIsRow(w: World, r: RequestId, forced: Option<nat>)
    requires MayPick(w, r, forced)
    ensures r in w.journal
  {
  }

  /** A batch of the background replay is a run. */
  lemma {:induction false} SweptIsARun(rules: Rules, w: World, batch: seq<RequestId>, weather: Weather, n: nat)
    returns (w': World)
    requires w.executors == map[] && (rules.gated ==> !Unpromoted(w)) && !rules.ordered
    requires Distinct(batch) && forall i :: 0 <= i < |batch| ==> MayPick(w, batch[i], None)
    ensures RunTo(rules, w, w') && StillIdle(w, w')
    ensures Store(w'.journal, w'.db) == Swept(Store(w.journal, w.db), batch, weather, n).store
    decreases |batch|
  {
    hide Settled, MayPick, RunTo;
    if |batch| == 0 {
      w' := w;
      RunNowhere(rules, w);
    } else {
      var r := batch[0];
      assert MayPick(w, r, None);
      PickedIsRow(w, r, None);
      var s := Store(w.journal, w.db);
      var mid := AttemptIsARun(rules, w, r, None, weather, n);
      SettledOneRow(s, r, s.journal[r].payload, None, weather, n);
      forall i | 0 <= i < |batch[1..]| ensures MayPick(mid, batch[1..][i], None) {
        StillPickable(w, mid, r, batch[i + 1], None);
      }
      w' := SweptIsARun(rules, mid, batch[1..], weather, n + 1);
      RunThen(rules, w, mid, w');
    }
  }
}
