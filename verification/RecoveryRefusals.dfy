/** Why a row is refused for good, over every run of the recovery protocol. */
module RecoveryRefusals {
  import opened Options
  import opened Postgres
  import opened Journal
  import opened RecoveryProtocol
  import opened RecoveryLineage

  /** At this place of the run a transaction of the request was attempted on rows on which its
      payload answers with an integrity violation. */
  ghost predicate RejectedAt(rules: Rules, base: Data, events: seq<Event>, k: nat, r: RequestId, p: Payload) {
    && k < |events| && events[k].Transact?
    && var before := Execute(rules, Genesis(base), events[..k]);
       && before.Some? && events[k].x in before.value.executors
       && before.value.executors[events[k].x].request == r && before.value.executors[events[k].x].payload == p
       && p.effect(before.value.db.data).Violation?
  }

  ghost predicate Rejected(rules: Rules, base: Data, events: seq<Event>, r: RequestId, p: Payload) {
    exists k: nat :: RejectedAt(rules, base, events, k, r, p)
  }

  ghost predicate RefusalsOk(rules: Rules, base: Data, events: seq<Event>, w: World) {
    && (forall r :: r in w.journal && Terminal(w.journal[r]) ==> Rejected(rules, base, events, r, w.journal[r].payload))
    && (forall x :: x in w.executors && w.executors[x].phase.Refused? ==>
          Rejected(rules, base, events, w.executors[x].request, w.executors[x].payload))
  }

  lemma {:induction false} LastStep(rules: Rules, w: World, events: seq<Event>, w': World) returns (mid: World)
    requires |events| > 0 && Execute(rules, w, events) == Some(w')
    ensures Execute(rules, w, events[..|events| - 1]) == Some(mid)
    ensures Enabled(rules, mid, events[|events| - 1]) && w' == Next(mid, events[|events| - 1])
    decreases |events|
  {
    hide Enabled, Next;
    if |events| == 1 {
      mid := w;
      assert events[1..] == [] && events[..0] == [];
    } else {
      var rest := events[1..];
      mid := LastStep(rules, Next(w, events[0]), rest, w');
      assert events[..|events| - 1][1..] == rest[..|rest| - 1];
    }
  }

  lemma StillRejected(rules: Rules, base: Data, events: seq<Event>, e: Event, r: RequestId, p: Payload)
    requires Rejected(rules, base, events, r, p)
    ensures Rejected(rules, base, events + [e], r, p)
  {
    hide Execute;
    var k: nat :| RejectedAt(rules, base, events, k, r, p);
    assert (events + [e])[..k] == events[..k];
    assert RejectedAt(rules, base, events + [e], k, r, p);
  }

  lemma AllStillRejected(rules: Rules, base: Data, events: seq<Event>, e: Event)
    ensures forall r, p :: Rejected(rules, base, events, r, p) ==> Rejected(rules, base, events + [e], r, p)
  {
    hide Rejected;
    forall r, p | Rejected(rules, base, events, r, p) ensures Rejected(rules, base, events + [e], r, p) {
      StillRejected(rules, base, events, e, r, p);
    }
  }

  lemma TransactRejects(rules: Rules, base: Data, events: seq<Event>, w: World, e: Event)
    requires Execute(rules, Genesis(base), events) == Some(w)
    requires e.Transact? && e.x in w.executors && w.executors[e.x].phase.Started?
    ensures var after := Next(w, e).executors;
            e.x in after && (after[e.x].phase.Refused? ==>
              Rejected(rules, base, events + [e], after[e.x].request, after[e.x].payload))
  {
    hide Execute;
    var ex, after := w.executors[e.x], Next(w, e).executors[e.x];
    if after.phase.Refused? {
      assert (events + [e])[..|events|] == events;
      assert RejectedAt(rules, base, events + [e], |events|, ex.request, ex.payload);
    }
  }

  lemma TransactOk(rules: Rules, base: Data, events: seq<Event>, w: World, e: Event)
    requires Execute(rules, Genesis(base), events) == Some(w) && RefusalsOk(rules, base, events, w)
    requires Enabled(rules, w, e) && e.Transact?
    ensures RefusalsOk(rules, base, events + [e], Next(w, e))
  {
    AllStillRejected(rules, base, events, e);
    TransactRejects(rules, base, events, w, e);
    hide Rejected, ApplyWithReceipt, PhaseAfter, Execute;
  }

  lemma MarkOk(rules: Rules, base: Data, events: seq<Event>, w: World, e: Event, p: map<RequestId, Payload>)
    requires RefusalsOk(rules, base, events, w) && Says(w, p) && Enabled(rules, w, e) && e.Mark?
    ensures RefusalsOk(rules, base, events + [e], Next(w, e))
  {
    AllStillRejected(rules, base, events, e);
    hide Rejected, LogSays;
    var ex := w.executors[e.x];
    assert ex.request in p && p[ex.request] == ex.payload;
    assert ex.request in w.journal ==> w.journal[ex.request].payload == ex.payload;
  }

  lemma OtherOk(rules: Rules, base: Data, events: seq<Event>, w: World, e: Event)
    requires RefusalsOk(rules, base, events, w) && Enabled(rules, w, e) && !e.Transact? && !e.Mark?
    ensures RefusalsOk(rules, base, events + [e], Next(w, e))
  {
    AllStillRejected(rules, base, events, e);
    hide Rejected, InTurn, CanComplete, CoverageOf, Busy;
  }

  lemma {:induction false} RefusalsExecute(rules: Rules, base: Data, events: seq<Event>, w: World)
    requires Execute(rules, Genesis(base), events) == Some(w)
    ensures RefusalsOk(rules, base, events, w)
    decreases |events|
  {
    if |events| > 0 {
      hide Execute, Enabled, Next, RefusalsOk, Says;
      var mid := LastStep(rules, Genesis(base), events, w);
      var before, e := events[..|events| - 1], events[|events| - 1];
      RefusalsExecute(rules, base, before, mid);
      assert before + [e] == events;
      if e.Transact? {
        TransactOk(rules, base, before, mid, e);
      } else if e.Mark? {
        var p := SaysReachable(rules, base, mid);
        MarkOk(rules, base, before, mid, e, p);
      } else {
        OtherOk(rules, base, before, mid, e);
      }
    }
  }

  /** Whatever the operators do and however the steps interleave: a row is refused for good
      only after a transaction of its request met rows on which its payload answers with an
      integrity violation. No other failure ever gives a write up. */
  lemma RefusalsAreJustified(rules: Rules, base: Data, events: seq<Event>, w: World, r: RequestId)
    requires Execute(rules, Genesis(base), events) == Some(w)
    requires r in w.journal && w.journal[r].status == Failed && w.journal[r].disposition == TerminalRejected
    ensures exists k: nat :: RejectedAt(rules, base, events, k, r, w.journal[r].payload)
  {
    hide Execute, RejectedAt;
    RefusalsExecute(rules, base, events, w);
    assert Rejected(rules, base, events, r, w.journal[r].payload);
  }
}
