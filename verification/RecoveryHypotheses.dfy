/** Each operating rule is needed: without it, a short run breaks what the others keep. */
module RecoveryHypotheses {
  import opened Options
  import opened Postgres
  import opened Journal
  import opened RecoveryProtocol

  // ---- Runs written down world by world

  datatype Leg = Leg(events: seq<Event>, worlds: seq<World>)

  ghost predicate StepsTo(rules: Rules, w: World, e: Event, w': World) {
    Enabled(rules, w, e) && Next(w, e) == w'
  }

  ghost predicate Goes(rules: Rules, w: World, leg: Leg, w': World) {
    && |leg.worlds| == |leg.events| + 1 && leg.worlds[0] == w && leg.worlds[|leg.events|] == w'
    && forall i :: 0 <= i < |leg.events| ==> StepsTo(rules, leg.worlds[i], leg.events[i], leg.worlds[i + 1])
  }

  lemma Join(rules: Rules, w: World, a: Leg, mid: World, b: Leg, w': World) returns (leg: Leg)
    requires Goes(rules, w, a, mid) && Goes(rules, mid, b, w')
    ensures Goes(rules, w, leg, w')
  {
    leg := Leg(a.events + b.events, a.worlds + b.worlds[1..]);
    forall i | 0 <= i < |leg.events| ensures StepsTo(rules, leg.worlds[i], leg.events[i], leg.worlds[i + 1]) {
      var n := |a.events|;
      if i < n {
        assert StepsTo(rules, a.worlds[i], a.events[i], a.worlds[i + 1]);
      } else {
        assert StepsTo(rules, b.worlds[i - n], b.events[i - n], b.worlds[i - n + 1]);
      }
    }
  }

  lemma {:induction false} LegIsRun(rules: Rules, w: World, leg: Leg, w': World)
    requires Goes(rules, w, leg, w')
    ensures Execute(rules, w, leg.events) == Some(w')
    decreases |leg.events|
  {
    if |leg.events| > 0 {
      var rest := Leg(leg.events[1..], leg.worlds[1..]);
      assert StepsTo(rules, w, leg.events[0], rest.worlds[0]);
      forall i | 0 <= i < |rest.events| ensures StepsTo(rules, rest.worlds[i], rest.events[i], rest.worlds[i + 1]) {
        assert StepsTo(rules, leg.worlds[i + 1], leg.events[i + 1], leg.worlds[i + 2]);
      }
      LegIsRun(rules, rest.worlds[0], rest, w');
    }
  }

  lemma RunFromGenesis(rules: Rules, leg: Leg, w: World)
    requires Goes(rules, Genesis(map[]), leg, w)
    ensures Reachable(rules, map[], w)
  {
    LegIsRun(rules, Genesis(map[]), leg, w);
  }

  // ---- Pieces the runs share

  function Keep(d: Data): Effect {
    Commit(d["note" := "kept"])
  }

  function Note(n: nat): Payload {
    Payload(n, Run, 1, Keep)
  }

  const EMPTY := Database(1, [], map[])
  const FIRST := Receipt(1, 1, 1, Note(1))
  const WRITTEN := Database(1, [FIRST], map["note" := "kept"])

  function NoteRow(position: Coverage): Entry {
    Entry(Note(1), 0, Status.Applied, Blocking, false, Some(position))
  }

  ghost predicate AcknowledgedWriteLost(w: World, r: RequestId) {
    && w.runtime.Ready? && r in w.acked
    && !HasReceipt(w.db.log, r)
    && (r in w.journal ==> !Terminal(w.journal[r]))
  }

  /** An empty snapshot, then one acknowledged write. */
  function OneWrite(): World {
    World(map[1 := NoteRow(Coverage(1, 1))], WRITTEN, map[], map[0 := EMPTY], Ready(1), Coverage(0, 0), {}, {1}, {1}, {1})
  }

  lemma WriteOne(rules: Rules) returns (leg: Leg)
    requires !rules.ordered
    ensures Goes(rules, Genesis(map[]), leg, OneWrite())
  {
    var w0 := Genesis(map[]);
    var w1 := Next(w0, TakeSnapshot(0));
    var w2 := Next(w1, Submit(0, 1, Note(1), 0));
    var w3 := Next(w2, Transact(0, 1, Heard));
    assert w3.db == WRITTEN;
    assert w3.executors == map[0 := Executor(1, Note(1), None, true, Done(Coverage(1, 1)))];
    var w4 := Next(w3, Mark(0, false));
    assert w4.executors == map[];
    leg := Leg([TakeSnapshot(0), Submit(0, 1, Note(1), 0), Transact(0, 1, Heard), Mark(0, false)],
               [w0, w1, w2, w3, w4]);
  }

  function Promoted(w: World, b: BackupId): World
    requires b in w.snapshots
  {
    var target := w.runtime.generation + 1;
    w.(db := w.snapshots[b].(generation := target),
       runtime := Recovering(w.runtime.generation, target, b, w.snapshots[b], true))
  }

  lemma BeginToPromotion(rules: Rules, w: World, b: BackupId) returns (leg: Leg)
    requires w.runtime.Ready? && b in w.snapshots
    requires !rules.ordered && (rules.floored ==> w.floor.Le(CoverageOf(w.snapshots[b])))
    ensures Goes(rules, w, leg, Promoted(w, b))
  {
    var w1 := Next(w, Begin(b));
    var w2 := Next(w1, Restore);
    leg := Leg([Begin(b), Restore, Promote], [w, w1, w2, Next(w2, Promote)]);
  }

  lemma FinishRecovery(rules: Rules, w: World) returns (leg: Leg)
    requires CanComplete(w)
    ensures Goes(rules, w, leg, w.(runtime := Ready(w.runtime.target)))
  {
    leg := Leg([Complete], [w, Next(w, Complete)]);
  }

  // ---- Recovery from a snapshot older than one the cleanup used

  function CleanedUp(): World {
    World(map[], WRITTEN, map[], map[0 := EMPTY, 1 := WRITTEN], Ready(1), Coverage(1, 1), {1}, {1}, {1}, {1})
  }

  lemma CleanUp(rules: Rules) returns (leg: Leg)
    ensures Goes(rules, OneWrite(), leg, CleanedUp())
  {
    var w0 := OneWrite();
    var w1 := Next(w0, TakeSnapshot(1));
    var w2 := Next(w1, CleanupSelect(1, {1}));
    var w3 := Next(w2, CleanupDelete({1}));
    assert w3.journal == map[];
    leg := Leg([TakeSnapshot(1), CleanupSelect(1, {1}), CleanupDelete({1})], [w0, w1, w2, w3]);
  }

  lemma OlderSnapshotLosesWrite() returns (w: World)
    ensures Reachable(STRICT.(floored := false), map[], w) && AcknowledgedWriteLost(w, 1)
  {
    var rules := STRICT.(floored := false);
    var g, restored := Genesis(map[]), Promoted(CleanedUp(), 0);
    w := restored.(runtime := Ready(2));
    var leg := WriteOne(rules);
    var more := CleanUp(rules);
    leg := Join(rules, g, leg, OneWrite(), more, CleanedUp());
    more := BeginToPromotion(rules, CleanedUp(), 0);
    leg := Join(rules, g, leg, CleanedUp(), more, restored);
    more := FinishRecovery(rules, restored);
    leg := Join(rules, g, leg, restored, more, w);
    RunFromGenesis(rules, leg, w);
  }

  // ---- A second physical restore, which drops what was already replayed

  function Replayed(): World {
    Promoted(OneWrite(), 0).(
      journal := map[1 := NoteRow(Coverage(2, 1))],
      db := Database(2, [Receipt(1, 2, 1, Note(1))], map["note" := "kept"]))
  }

  lemma ReplayOne(rules: Rules) returns (leg: Leg)
    requires !rules.ordered
    ensures Goes(rules, Promoted(OneWrite(), 0), leg, Replayed())
  {
    var w0 := Promoted(OneWrite(), 0);
    var w1 := Next(w0, PickRecovery(1, 1));
    var w2 := Next(w1, Transact(1, 1, Heard));
    assert w2.db == Replayed().db;
    assert w2.executors == map[1 := Executor(1, Note(1), Some(2), false, Done(Coverage(2, 1)))];
    var w3 := Next(w2, Mark(1, false));
    assert w3.executors == map[];
    assert w3.journal == map[1 := NoteRow(Coverage(2, 1))];
    leg := Leg([PickRecovery(1, 1), Transact(1, 1, Heard), Mark(1, false)], [w0, w1, w2, w3]);
  }

  lemma RestoreAgain(rules: Rules) returns (leg: Leg, w: World)
    requires !rules.restoreOnce
    ensures Goes(rules, Replayed(), leg, w) && CanComplete(w)
    ensures w.journal == Replayed().journal && w.db.log == [] && w.acked == {1}
  {
    var w1 := Next(Replayed(), Restore);
    w := Next(w1, Promote);
    leg := Leg([Restore, Promote], [Replayed(), w1, w]);
  }

  lemma SecondRestoreLosesWrite() returns (w: World)
    ensures Reachable(STRICT.(restoreOnce := false), map[], w) && AcknowledgedWriteLost(w, 1)
  {
    var rules := STRICT.(restoreOnce := false);
    var g, restored := Genesis(map[]), Promoted(OneWrite(), 0);
    var leg := WriteOne(rules);
    var more := BeginToPromotion(rules, OneWrite(), 0);
    leg := Join(rules, g, leg, OneWrite(), more, restored);
    more := ReplayOne(rules);
    leg := Join(rules, g, leg, restored, more, Replayed());
    var again;
    more, again := RestoreAgain(rules);
    leg := Join(rules, g, leg, Replayed(), more, again);
    more := FinishRecovery(rules, again);
    w := again.(runtime := Ready(again.runtime.target));
    leg := Join(rules, g, leg, again, more, w);
    RunFromGenesis(rules, leg, w);
  }

  // ---- A transaction between the restore and the promotion

  function BackedUpAndSubmitted(): World {
    OneWrite().(
      journal := map[1 := NoteRow(Coverage(1, 1)), 2 := PendingEntry(Note(2), 1)],
      executors := map[2 := Executor(2, Note(2), None, true, Started)],
      snapshots := map[0 := EMPTY, 1 := WRITTEN],
      issued := {1, 2})
  }

  lemma BackUpAndSubmit(rules: Rules) returns (leg: Leg)
    requires !rules.ordered
    ensures Goes(rules, OneWrite(), leg, BackedUpAndSubmitted())
  {
    var w0 := OneWrite();
    var w1 := Next(w0, TakeSnapshot(1));
    var w2 := Next(w1, Submit(2, 2, Note(2), 1));
    leg := Leg([TakeSnapshot(1), Submit(2, 2, Note(2), 1)], [w0, w1, w2]);
  }

  lemma WriteTooEarly(rules: Rules) returns (leg: Leg, w: World)
    requires !rules.gated && !rules.ordered
    ensures Goes(rules, BackedUpAndSubmitted(), leg, w)
    ensures w.snapshots == map[0 := EMPTY, 1 := WRITTEN]
    ensures w.runtime == Recovering(1, 2, 0, EMPTY, true)
    ensures w.db.log == [Receipt(1, 1, 2, Note(2))]
    ensures 2 in w.journal && w.journal[2] == Entry(Note(2), 1, Status.Applied, Blocking, false, Some(Coverage(1, 1)))
  {
    var w0 := BackedUpAndSubmitted();
    var w1 := Next(w0, Begin(0));
    var w2 := Next(w1, Restore);
    var w3 := Next(w2, Transact(2, 1, Heard));
    assert w3.executors[2] == Executor(2, Note(2), None, true, Done(Coverage(1, 1)));
    w := Next(w3, Mark(2, false));
    leg := Leg([Begin(0), Restore, Transact(2, 1, Heard), Mark(2, false)], [w0, w1, w2, w3, w]);
  }

  /** The write takes a position that a snapshot of the lost timeline covers without holding
      the request, and its row stays eligible although its receipt is there. */
  lemma WriteBeforePromotionBreaksCoverage() returns (w: World)
    ensures Reachable(STRICT.(gated := false), map[], w)
    ensures 1 in w.snapshots && 2 in w.journal && Cleanable(w.journal[2], CoverageOf(w.snapshots[1]))
    ensures !HasReceipt(w.snapshots[1].log, 2)
    ensures w.runtime.Recovering? && HasReceipt(w.db.log, 2)
    ensures ReplayEligible(w.journal[2], CoverageOf(w.runtime.snapshot), w.runtime.target)
  {
    var rules := STRICT.(gated := false);
    var g := Genesis(map[]);
    var leg := WriteOne(rules);
    var more := BackUpAndSubmit(rules);
    leg := Join(rules, g, leg, OneWrite(), more, BackedUpAndSubmitted());
    more, w := WriteTooEarly(rules);
    leg := Join(rules, g, leg, BackedUpAndSubmitted(), more, w);
    RunFromGenesis(rules, leg, w);
  }

  // ---- Two executors at work on one request

  /** Refused until some other write has been made. */
  function Dependent(d: Data): Effect {
    if "note" in d then Commit(d) else Violation
  }

  const DEPENDENT := Payload(7, Run, 1, Dependent)

  /** Executor 0 is about to run request 7, which executor 1 has just seen refused. */
  function RefusedOnce(): World {
    World(map[7 := PendingEntry(DEPENDENT, 0)], EMPTY,
          map[0 := Executor(7, DEPENDENT, None, true, Started), 1 := Executor(7, DEPENDENT, None, false, Refused)],
          map[0 := EMPTY], Ready(1), Coverage(0, 0), {}, {7}, {}, {})
  }

  lemma RefuseOnce(rules: Rules) returns (leg: Leg)
    requires !rules.exclusive && !rules.ordered
    ensures Goes(rules, Genesis(map[]), leg, RefusedOnce())
  {
    var w0 := Genesis(map[]);
    var w1 := Next(w0, TakeSnapshot(0));
    var w2 := Next(w1, Submit(0, 7, DEPENDENT, 0));
    var w3 := Next(w2, PickReplay(1, 7));
    var w4 := Next(w3, Transact(1, 1, Heard));
    assert w4.executors == RefusedOnce().executors;
    leg := Leg([TakeSnapshot(0), Submit(0, 7, DEPENDENT, 0), PickReplay(1, 7), Transact(1, 1, Heard)],
               [w0, w1, w2, w3, w4]);
  }

  function RefusedThenWritten(): World {
    RefusedOnce().(
      journal := map[1 := NoteRow(Coverage(1, 1)), 7 := PendingEntry(DEPENDENT, 0)],
      db := WRITTEN, issued := {1, 7}, committed := {1}, acked := {1})
  }

  function AnotherDone(): World {
    RefusedOnce().(
      journal := map[1 := PendingEntry(Note(1), 0), 7 := PendingEntry(DEPENDENT, 0)],
      db := WRITTEN,
      executors := RefusedOnce().executors[2 := Executor(1, Note(1), None, true, Done(Coverage(1, 1)))],
      issued := {1, 7}, committed := {1})
  }

  lemma ApplyAnother(rules: Rules) returns (leg: Leg)
    requires !rules.ordered
    ensures Goes(rules, RefusedOnce(), leg, AnotherDone())
  {
    var w0 := RefusedOnce();
    var w1 := Next(w0, Submit(2, 1, Note(1), 0));
    var w2 := Next(w1, Transact(2, 1, Heard));
    assert w2.db == WRITTEN;
    leg := Leg([Submit(2, 1, Note(1), 0), Transact(2, 1, Heard)], [w0, w1, w2]);
  }

  lemma MarkAnother(rules: Rules) returns (leg: Leg)
    ensures Goes(rules, AnotherDone(), leg, RefusedThenWritten())
  {
    var w0 := AnotherDone();
    var w1 := Next(w0, Mark(2, false));
    assert w1.executors == RefusedOnce().executors;
    assert w1.journal == RefusedThenWritten().journal;
    leg := Leg([Mark(2, false)], [w0, w1]);
  }

  /** Executor 0 has applied request 7 after all, and executor 1 records the refusal. */
  function RefusedAndApplied(): World {
    RefusedThenWritten().(
      journal := map[1 := NoteRow(Coverage(1, 1)),
                     7 := PendingEntry(DEPENDENT, 0).(status := Failed, disposition := TerminalRejected)],
      db := Database(1, [FIRST, Receipt(2, 1, 7, DEPENDENT)], map["note" := "kept"]),
      executors := map[0 := Executor(7, DEPENDENT, None, true, Done(Coverage(1, 2)))],
      committed := {1, 7})
  }

  lemma ApplyAfterAll(rules: Rules) returns (leg: Leg)
    ensures Goes(rules, RefusedThenWritten(), leg, RefusedAndApplied())
  {
    var w0 := RefusedThenWritten();
    var w1 := Next(w0, Transact(0, 2, Heard));
    assert w1.db == RefusedAndApplied().db;
    var w2 := Next(w1, Mark(1, false));
    assert w2.journal == RefusedAndApplied().journal;
    assert w2.executors == RefusedAndApplied().executors;
    leg := Leg([Transact(0, 2, Heard), Mark(1, false)], [w0, w1, w2]);
  }

  function ReplayedWithoutIt(): World {
    Promoted(RefusedAndApplied(), 0).(
      journal := RefusedAndApplied().journal[1 := NoteRow(Coverage(2, 1))],
      db := Database(2, [Receipt(1, 2, 1, Note(1))], map["note" := "kept"]))
  }

  lemma ReplayTheOther(rules: Rules) returns (leg: Leg)
    requires !rules.ordered
    ensures Goes(rules, Promoted(RefusedAndApplied(), 0), leg, ReplayedWithoutIt())
  {
    var w0 := Promoted(RefusedAndApplied(), 0);
    var w1 := Next(w0, PickRecovery(3, 1));
    var w2 := Next(w1, Transact(3, 1, Heard));
    assert w2.db == ReplayedWithoutIt().db;
    assert w2.executors[3] == Executor(1, Note(1), Some(2), false, Done(Coverage(2, 1)));
    var w3 := Next(w2, Mark(3, false));
    assert w3.executors == RefusedAndApplied().executors;
    assert w3.journal == ReplayedWithoutIt().journal;
    leg := Leg([PickRecovery(3, 1), Transact(3, 1, Heard), Mark(3, false)], [w0, w1, w2, w3]);
  }

  lemma LateMark(rules: Rules) returns (leg: Leg, w: World)
    ensures Goes(rules, ReplayedWithoutIt().(runtime := Ready(2)), leg, w) && AcknowledgedWriteLost(w, 7)
  {
    var w0 := ReplayedWithoutIt().(runtime := Ready(2));
    w := Next(w0, Mark(0, false));
    leg := Leg([Mark(0, false)], [w0, w]);
  }

  /** A refusal recorded by one executor while another applies the write takes the row out
      of the recovery, and the late mark then hides the loss. */
  lemma TwoExecutorsLoseWrite() returns (w: World)
    ensures Reachable(STRICT.(exclusive := false), map[], w) && AcknowledgedWriteLost(w, 7)
  {
    var rules := STRICT.(exclusive := false);
    var g, restored := Genesis(map[]), Promoted(RefusedAndApplied(), 0);
    var leg := RefuseOnce(rules);
    var more := ApplyAnother(rules);
    leg := Join(rules, g, leg, RefusedOnce(), more, AnotherDone());
    more := MarkAnother(rules);
    leg := Join(rules, g, leg, AnotherDone(), more, RefusedThenWritten());
    more := ApplyAfterAll(rules);
    leg := Join(rules, g, leg, RefusedThenWritten(), more, RefusedAndApplied());
    more := BeginToPromotion(rules, RefusedAndApplied(), 0);
    leg := Join(rules, g, leg, RefusedAndApplied(), more, restored);
    more := ReplayTheOther(rules);
    leg := Join(rules, g, leg, restored, more, ReplayedWithoutIt());
    more := FinishRecovery(rules, ReplayedWithoutIt());
    var ready := ReplayedWithoutIt().(runtime := Ready(2));
    leg := Join(rules, g, leg, ReplayedWithoutIt(), more, ready);
    more, w := LateMark(rules);
    leg := Join(rules, g, leg, ready, more, w);
    RunFromGenesis(rules, leg, w);
  }
}
