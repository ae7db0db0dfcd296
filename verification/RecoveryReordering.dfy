/** Why the refinement asks what the snapshot holds first: a recovery from a snapshot of an
    older generation can leave the writes in another order than the lost database had. */
module RecoveryReordering {
  import opened Options
  import opened Postgres
  import opened Journal
  import opened RecoveryProtocol
  import opened JournalReplay
  import opened ReplayRuns
  import opened RecoveryHypotheses
  import opened RecoveryRefinement

  function SetB(d: Data): Effect {
    Commit(d["v" := "b"])
  }

  function SetC(d: Data): Effect {
    Commit(d["v" := "c"])
  }

  const PAYLOAD_B := Payload(1, Run, 1, SetB)
  const PAYLOAD_C := Payload(2, Run, 1, SetC)

  function RowB(position: Coverage): Entry {
    Entry(PAYLOAD_B, 10, Status.Applied, Blocking, false, Some(position))
  }

  function RowC(position: Coverage): Entry {
    Entry(PAYLOAD_C, 5, Status.Applied, Blocking, false, Some(position))
  }

  function Rows(b: Coverage, c: Coverage): Journal {
    map[1 := RowB(b), 2 := RowC(c)]
  }

  // The first generation commits request 1 before request 2, which was created earlier.
  const FIRST_LINE := Database(1, [Receipt(1, 1, 1, PAYLOAD_B), Receipt(2, 1, 2, PAYLOAD_C)], map["v" := "c"])
  // The replay commits them in the order of creation.
  const SECOND_LINE := Database(2, [Receipt(1, 2, 2, PAYLOAD_C), Receipt(2, 2, 1, PAYLOAD_B)], map["v" := "b"])

  function Submitted(): World {
    World(map[2 := PendingEntry(PAYLOAD_C, 5)], EMPTY, map[2 := Executor(2, PAYLOAD_C, None, true, Started)],
          map[0 := EMPTY], Ready(1), Coverage(0, 0), {}, {2}, {}, {})
  }

  lemma SubmitC(rules: Rules) returns (leg: Leg)
    requires !rules.ordered
    ensures Goes(rules, Genesis(map[]), leg, Submitted())
  {
    var w0 := Genesis(map[]);
    var w1 := Next(w0, TakeSnapshot(0));
    var w2 := Next(w1, Submit(2, 2, PAYLOAD_C, 5));
    leg := Leg([TakeSnapshot(0), Submit(2, 2, PAYLOAD_C, 5)], [w0, w1, w2]);
  }

  function WrittenB(): World {
    Submitted().(
      journal := map[1 := RowB(Coverage(1, 1)), 2 := PendingEntry(PAYLOAD_C, 5)],
      db := Database(1, [Receipt(1, 1, 1, PAYLOAD_B)], map["v" := "b"]),
      issued := {1, 2}, committed := {1}, acked := {1})
  }

  lemma WriteB(rules: Rules) returns (leg: Leg)
    requires !rules.ordered
    ensures Goes(rules, Submitted(), leg, WrittenB())
  {
    var w0 := Submitted();
    var w1 := Next(w0, Submit(1, 1, PAYLOAD_B, 10));
    var w2 := Next(w1, Transact(1, 1, Heard));
    assert w2.db == WrittenB().db;
    var w3 := Next(w2, Mark(1, false));
    assert w3.executors == Submitted().executors;
    assert w3.journal == WrittenB().journal;
    leg := Leg([Submit(1, 1, PAYLOAD_B, 10), Transact(1, 1, Heard), Mark(1, false)], [w0, w1, w2, w3]);
  }

  function WrittenBoth(): World {
    World(Rows(Coverage(1, 1), Coverage(1, 2)), FIRST_LINE, map[], map[0 := EMPTY, 1 := FIRST_LINE], Ready(1),
          Coverage(0, 0), {}, {1, 2}, {1, 2}, {1, 2})
  }

  lemma WriteC(rules: Rules) returns (leg: Leg)
    ensures Goes(rules, WrittenB(), leg, WrittenBoth())
  {
    var w0 := WrittenB();
    var w1 := Next(w0, Transact(2, 2, Heard));
    assert w1.db == FIRST_LINE;
    var w2 := Next(w1, Mark(2, false));
    assert w2.executors == map[];
    assert w2.journal == WrittenBoth().journal;
    var w3 := Next(w2, TakeSnapshot(1));
    leg := Leg([Transact(2, 2, Heard), Mark(2, false), TakeSnapshot(1)], [w0, w1, w2, w3]);
  }

  function ReplayedC(): World {
    Promoted(WrittenBoth(), 0).(
      journal := Rows(Coverage(1, 1), Coverage(2, 1)),
      db := Database(2, [Receipt(1, 2, 2, PAYLOAD_C)], map["v" := "c"]))
  }

  lemma ReplayC(rules: Rules) returns (leg: Leg)
    requires !rules.ordered
    ensures Goes(rules, Promoted(WrittenBoth(), 0), leg, ReplayedC())
  {
    var w0 := Promoted(WrittenBoth(), 0);
    var w1 := Next(w0, PickRecovery(3, 2));
    var w2 := Next(w1, Transact(3, 1, Heard));
    assert w2.db == ReplayedC().db;
    var w3 := Next(w2, Mark(3, false));
    assert w3.executors == map[];
    assert w3.journal == ReplayedC().journal;
    leg := Leg([PickRecovery(3, 2), Transact(3, 1, Heard), Mark(3, false)], [w0, w1, w2, w3]);
  }

  function ReplayedBoth(): World {
    Promoted(WrittenBoth(), 0).(journal := Rows(Coverage(2, 2), Coverage(2, 1)), db := SECOND_LINE)
  }

  function ReplayingB(): World {
    ReplayedBoth().(
      journal := Rows(Coverage(1, 1), Coverage(2, 1)),
      executors := map[3 := Executor(1, PAYLOAD_B, Some(2), false, Done(Coverage(2, 2)))])
  }

  function PickedB(): World {
    ReplayedC().(executors := map[3 := Executor(1, PAYLOAD_B, Some(2), false, Started)])
  }

  lemma PickB()
    ensures StepsTo(STRICT, ReplayedC(), PickRecovery(3, 1), PickedB())
  {
  }

  lemma RunsB()
    ensures StepsTo(STRICT, PickedB(), Transact(3, 2, Heard), ReplayingB())
  {
    var res := ApplyWithReceipt(PickedB().db, 1, PAYLOAD_B, Some(2), 2);
    assert !HasReceipt(PickedB().db.log, 1);
    assert res == TxResult(SECOND_LINE, Receipted(Receipt(2, 2, 1, PAYLOAD_B)));
    assert PickedB().committed + {1} == PickedB().committed;
  }

  lemma TransactB() returns (leg: Leg)
    ensures Goes(STRICT, ReplayedC(), leg, ReplayingB())
  {
    hide StepsTo;
    PickB();
    RunsB();
    leg := Leg([PickRecovery(3, 1), Transact(3, 2, Heard)], [ReplayedC(), PickedB(), ReplayingB()]);
  }

  lemma MarkB(rules: Rules) returns (leg: Leg)
    ensures Goes(rules, ReplayingB(), leg, ReplayedBoth())
  {
    var w0 := ReplayingB();
    var w1 := Next(w0, Mark(3, false));
    assert w1.executors == map[];
    assert w1.journal == ReplayedBoth().journal;
    leg := Leg([Mark(3, false)], [w0, w1]);
  }

  /** The second recovery has been begun, from the snapshot of the first generation. */
  function BegunAgain(): World {
    ReplayedBoth().(runtime := Recovering(2, 3, 1, FIRST_LINE, false))
  }

  lemma BeginAgain(rules: Rules) returns (leg: Leg)
    requires !rules.ordered
    ensures Goes(rules, ReplayedBoth(), leg, BegunAgain())
  {
    var w0 := ReplayedBoth();
    var w1 := Next(w0, Complete);
    var w2 := Next(w1, Begin(1));
    leg := Leg([Complete, Begin(1)], [w0, w1, w2]);
  }

  lemma BegunAgainIsReachable()
    ensures Reachable(STRICT, map[], BegunAgain())
  {
    var g, restored := Genesis(map[]), Promoted(WrittenBoth(), 0);
    var leg := SubmitC(STRICT);
    var more := WriteB(STRICT);
    leg := Join(STRICT, g, leg, Submitted(), more, WrittenB());
    more := WriteC(STRICT);
    leg := Join(STRICT, g, leg, WrittenB(), more, WrittenBoth());
    more := BeginToPromotion(STRICT, WrittenBoth(), 0);
    leg := Join(STRICT, g, leg, WrittenBoth(), more, restored);
    more := ReplayC(STRICT);
    leg := Join(STRICT, g, leg, restored, more, ReplayedC());
    more := TransactB();
    leg := Join(STRICT, g, leg, ReplayedC(), more, ReplayingB());
    more := MarkB(STRICT);
    leg := Join(STRICT, g, leg, ReplayingB(), more, ReplayedBoth());
    more := BeginAgain(STRICT);
    leg := Join(STRICT, g, leg, ReplayedBoth(), more, BegunAgain());
    RunFromGenesis(STRICT, leg, BegunAgain());
  }

  /** The replay of the second recovery only finds the old receipts. */
  function FoundAgain(): World {
    BegunAgain().(
      journal := Rows(Coverage(1, 1), Coverage(1, 2)),
      db := FIRST_LINE.(generation := 3),
      runtime := Recovering(2, 3, 1, FIRST_LINE, true))
  }

  function Restarted(): World {
    FoundAgain().(journal := Rows(Coverage(2, 2), Coverage(2, 1)))
  }

  function FoundC(): World {
    FoundAgain().(journal := Rows(Coverage(2, 2), Coverage(1, 2)))
  }

  function WithExecutor(w: World, r: RequestId, payload: Payload, phase: Phase): World {
    w.(executors := map[4 := Executor(r, payload, Some(3), false, phase)])
  }

  lemma PromotesAgain()
    ensures StepsTo(ORDERLY, Next(BegunAgain(), Restore), Promote, Restarted())
  {
  }

  lemma PicksC()
    ensures StepsTo(ORDERLY, Restarted(), PickRecovery(4, 2), WithExecutor(Restarted(), 2, PAYLOAD_C, Started))
  {
  }

  lemma PicksB()
    ensures StepsTo(ORDERLY, FoundC(), PickRecovery(4, 1), WithExecutor(FoundC(), 1, PAYLOAD_B, Started))
  {
  }

  lemma FindsReceipt(w: World, r: RequestId, payload: Payload, receipt: Receipt)
    requires w.runtime == FoundAgain().runtime && w.db == FoundAgain().db && r in w.committed
    requires FindReceipt(FIRST_LINE.log, r) == Some(receipt) && receipt.payload == payload
    ensures var position := Coverage(receipt.generation, receipt.seqNo);
            StepsTo(ORDERLY, WithExecutor(w, r, payload, Started), Transact(4, 3, Heard),
                    WithExecutor(w, r, payload, Done(position)))
  {
    hide FindReceipt, HasReceipt;
    var w0 := WithExecutor(w, r, payload, Started);
    var res := ApplyWithReceipt(w0.db, r, payload, Some(3), 3);
    assert res == TxResult(w0.db, Receipted(receipt));
    assert w0.committed + {r} == w0.committed;
  }

  lemma MarksIt(w: World, r: RequestId, payload: Payload, position: Coverage, w': World)
    requires w.executors == map[] && w' == w.(journal := MarkApplied(w.journal, r, position))
    ensures StepsTo(ORDERLY, WithExecutor(w, r, payload, Done(position)), Mark(4, false), w')
  {
    var w0 := WithExecutor(w, r, payload, Done(position));
    assert w0.executors - {4} == map[];
  }

  lemma ThreeSteps(rules: Rules, w0: World, e0: Event, w1: World, e1: Event, w2: World, e2: Event, w3: World)
    requires StepsTo(rules, w0, e0, w1) && StepsTo(rules, w1, e1, w2) && StepsTo(rules, w2, e2, w3)
    ensures Goes(rules, w0, Leg([e0, e1, e2], [w0, w1, w2, w3]), w3)
  {
    hide StepsTo;
  }

  lemma FirstLineHolds()
    ensures FindReceipt(FIRST_LINE.log, 1) == Some(Receipt(1, 1, 1, PAYLOAD_B))
    ensures FindReceipt(FIRST_LINE.log, 2) == Some(Receipt(2, 1, 2, PAYLOAD_C))
  {
    assert FIRST_LINE.log[..1] == [Receipt(1, 1, 1, PAYLOAD_B)];
  }

  lemma FindC() returns (leg: Leg)
    ensures Goes(ORDERLY, Restarted(), leg, FoundC())
  {
    hide StepsTo, Goes;
    var w, position := Restarted(), Coverage(1, 2);
    PicksC();
    FirstLineHolds();
    FindsReceipt(w, 2, PAYLOAD_C, Receipt(2, 1, 2, PAYLOAD_C));
    MarksIt(w, 2, PAYLOAD_C, position, FoundC());
    ThreeSteps(ORDERLY, w, PickRecovery(4, 2), WithExecutor(w, 2, PAYLOAD_C, Started), Transact(4, 3, Heard),
               WithExecutor(w, 2, PAYLOAD_C, Done(position)), Mark(4, false), FoundC());
    leg := Leg([PickRecovery(4, 2), Transact(4, 3, Heard), Mark(4, false)],
               [w, WithExecutor(w, 2, PAYLOAD_C, Started), WithExecutor(w, 2, PAYLOAD_C, Done(position)), FoundC()]);
  }

  lemma FindB() returns (leg: Leg)
    ensures Goes(ORDERLY, FoundC(), leg, FoundAgain())
  {
    hide StepsTo, Goes;
    var w, position := FoundC(), Coverage(1, 1);
    PicksB();
    FirstLineHolds();
    FindsReceipt(w, 1, PAYLOAD_B, Receipt(1, 1, 1, PAYLOAD_B));
    MarksIt(w, 1, PAYLOAD_B, position, FoundAgain());
    ThreeSteps(ORDERLY, w, PickRecovery(4, 1), WithExecutor(w, 1, PAYLOAD_B, Started), Transact(4, 3, Heard),
               WithExecutor(w, 1, PAYLOAD_B, Done(position)), Mark(4, false), FoundAgain());
    leg := Leg([PickRecovery(4, 1), Transact(4, 3, Heard), Mark(4, false)],
               [w, WithExecutor(w, 1, PAYLOAD_B, Started), WithExecutor(w, 1, PAYLOAD_B, Done(position)), FoundAgain()]);
  }

  lemma FoundAgainIsReached()
    ensures RunTo(ORDERLY, Next(BegunAgain(), Restore), FoundAgain()) && CanComplete(FoundAgain())
  {
    var restored := Next(BegunAgain(), Restore);
    PromotesAgain();
    var leg := Leg([Promote], [restored, Restarted()]);
    var more := FindC();
    leg := Join(ORDERLY, restored, leg, Restarted(), more, FoundC());
    more := FindB();
    leg := Join(ORDERLY, restored, leg, FoundC(), more, FoundAgain());
    LegIsRun(ORDERLY, restored, leg, FoundAgain());
  }

  /** All that the refinement asks is given but what the snapshot holds first: no executor is
      at work, nothing is pending or blocked, and the rows to replay were created in the order
      of their live receipts. Still the recovery ends in other rows. */
  lemma OlderGenerationReordersWrites() returns (before: World, w: World)
    ensures AboutToRestore(map[], before) && !SnapshotFirst(before)
    ensures before.runtime.snapshot.generation < before.runtime.generation
    ensures EligibleSet(before.journal, CoverageOf(before.runtime.snapshot), before.runtime.target) == {1, 2}
    ensures |before.db.log| == 2 && before.db.log[0].request == 2 && before.db.log[1].request == 1
            && before.journal[2].createdAt < before.journal[1].createdAt
    ensures RunTo(ORDERLY, Next(before, Restore), w) && CanComplete(w)
    ensures w.db.data != before.db.data && w.acked == {1, 2}
  {
    hide Execute, Reachable, RunTo, CanComplete;
    before, w := BegunAgain(), FoundAgain();
    BegunAgainIsReachable();
    FoundAgainIsReached();
    assert before.db.log[..2][0].request == 2 && before.runtime.snapshot.log[0].request == 1;
    assert before.db.data["v"] == "b" && w.db.data["v"] == "c";
  }
}
