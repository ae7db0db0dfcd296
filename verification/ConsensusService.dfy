/** The calls that change a task's rows. Each is a run of the protocol's steps; what other
    callers do in between is the protocol's business. */
module ConsensusService {
  import opened Options
  import opened Text
  import opened ConsensusStates
  import opened ConsensusStore
  import opened ConsensusProtocol
  import opened ConsensusInvariant
  import opened ConsensusTheorems
  import opened Evidence
  import opened EvidenceRoots
  import N = NovelDecisions
  import F = EvidenceFields
  import I = IndependentAgreement

  datatype Outcome = Done(row: TaskRow) | NotAllowed | Conflict

  /** The row is still in the state and version that were read, no event has the key, and a
      guarded publication is past the appeal deadline with no appeal pending. */
  ghost predicate GoesThrough(s: Store, seen: TaskRow, t: Transition) {
    && Allowed(seen.state, t.next)
    && (forall i :: 0 <= i < |s.events| ==> s.events[i].key != t.key)
    && s.task.state == seen.state && s.task.stateVersion == seen.stateVersion
    && (t.publicationGuardAt.Some? ==>
          && s.task.appealDeadline.Some? && s.task.appealDeadline.value <= t.publicationGuardAt.value
          && forall id :: id in s.appeals ==> s.appeals[id] != AppealPending)
  }

  /** What a transition writes when it goes through, and that it writes nothing when not. */
  ghost predicate SwapsExactly(s: Store, s': Store, seen: TaskRow, t: Transition) {
    if GoesThrough(s, seen, t) then
      && s'.task.state == t.next && s'.task.stateVersion == s.task.stateVersion + 1
      && s'.task.currentRound == s.task.currentRound && s'.task.lastEventId == t.eventId
      && (t.clearActiveFinal ==> s'.task.activeFinal == None)
      && (!t.clearActiveFinal && t.activeFinal.Some? ==> s'.task.activeFinal == t.activeFinal)
      && (!t.clearActiveFinal && t.activeFinal.None? ==> s'.task.activeFinal == s.task.activeFinal)
      && (t.appealDeadline.Some? ==> s'.task.appealDeadline == t.appealDeadline)
      && (t.appealDeadline.None? ==> s'.task.appealDeadline == s.task.appealDeadline)
      && s'.events == s.events + [Event(t.eventId, s.task.state, t.next, t.key)]
      && s' == s.(task := s'.task, past := s'.past, events := s'.events)
    else s' == s
  }

  lemma AttemptSwapsExactly(s: Store, seen: TaskRow, t: Transition)
    ensures SwapsExactly(s, Attempted(s, seen, |s.events|, t), seen, t)
  {
  }

  class ConsensusTask {
    var task: TaskRow
    var events: seq<Event>
    var rounds: map<nat, Round>
    var submissions: map<Receipt, Submission>
    var finals: map<Receipt, Final>
    var outbox: map<Receipt, Delivery>
    var appeals: map<string, AppealStatus>
    var now: int
    ghost var past: set<TaskRow>
    ghost var roundDue: bool

    ghost function State(): Store
      reads this
    {
      Store(task, past, events, rounds, submissions, finals, outbox, appeals, roundDue, now)
    }

    /** Registration opens the task with its first round and its first event. */
    constructor (taskVersionId: string, at: int)
      ensures State() == Registered("task-open:" + taskVersionId, at)
    {
      var eventId := "task-open:" + taskVersionId;
      task := TaskRow(Open, 0, 1, eventId, None, None);
      events := [Event(eventId, Draft, Open, eventId)];
      rounds := map[1 := Round(RoundOpen, at + ROUND_DEADLINE_MS)];
      submissions, finals, outbox, appeals := map[], map[], map[], map[];
      now := at;
      past := {TaskRow(Open, 0, 1, eventId, None, None)};
      roundDue := false;
    }

    /** The compare-and-swap. A conflict is reported exactly when nothing was written and the
        key is not in the log. */
    method TransitionConsensusTask(seen: TaskRow, t: Transition) returns (outcome: Outcome)
      modifies this
      ensures State() == Attempted(old(State()), seen, |old(events)|, t)
      ensures rounds == old(rounds) && submissions == old(submissions) && roundDue == old(roundDue)
      ensures outcome.NotAllowed? <==> !Allowed(seen.state, t.next)
      ensures outcome.Done? ==> outcome.row == task && KeyUsed(events, |events|, t.key)
      ensures outcome.Conflict? ==> !KeyUsed(events, |events|, t.key) && !Swaps(old(State()), seen, t)
    {
      if !Allowed(seen.state, t.next) {
        return NotAllowed;
      }
      if KeyUsed(events, |events|, t.key) {
        return Done(task);
      }
      var ready := NoAppealPending(appeals);
      if task.state == seen.state && task.stateVersion == seen.stateVersion
         && (t.publicationGuardAt.None?
             || (task.appealDeadline.Some? && task.appealDeadline.value <= t.publicationGuardAt.value && ready)) {
        task := TaskRow(t.next, task.stateVersion + 1, task.currentRound, t.eventId,
                        if t.clearActiveFinal then None else OrElse(t.activeFinal, task.activeFinal),
                        OrElse(t.appealDeadline, task.appealDeadline));
        past := past + {task};
        events := events + [Event(t.eventId, seen.state, t.next, t.key)];
        assert events[|events| - 1].key == t.key;
        return Done(task);
      }
      return Conflict;
    }

    /** Both held items of a quorum become pending together, or the call reports a conflict. */
    method ReleaseIndependentEvidence(round: nat, a: Receipt, b: Receipt) returns (released: bool)
      requires Filled(State(), a, A, round) && Filled(State(), b, B, round)
      modifies this`outbox
      ensures outbox == Released(old(outbox), {a, b})
      ensures released <==> a in outbox && b in outbox && a != b
                            && outbox[a] in {Pending, Sending, Sent} && outbox[b] in {Pending, Sending, Sent}
    {
      outbox := map r | r in outbox :: if (r == a || r == b) && outbox[r] == Held then Pending else outbox[r];
      released := a in outbox && b in outbox && a != b
                  && outbox[a] in {Pending, Sending, Sent} && outbox[b] in {Pending, Sending, Sent};
    }

    /** The batch that opens the next round. An insert that meets an existing round aborts it;
        an update that finds another row does not. */
    method OpenNextRound(prior: nat, reissued: TaskRow) returns (begun: bool)
      requires prior in rounds
      modifies this
      ensures begun <==> reissued.currentRound + 1 !in old(rounds)
                         && old(task).state == Reissued && old(task).currentRound == reissued.currentRound
      ensures begun && prior == reissued.currentRound ==> State() == NewRound(old(State()))
      ensures reissued.currentRound + 1 in old(rounds) ==> State() == old(State())
      ensures !begun && reissued.currentRound + 1 !in old(rounds) ==>
                State() == StrayRound(old(State()), prior, reissued.currentRound + 1)
      ensures events == old(events)
    {
      hide Superseded, Withdrawn, WithRound, NewRound;
      var next := reissued.currentRound + 1;
      if next in rounds {
        return false;
      }
      ghost var s0 := State();
      rounds := WithRound(rounds, prior, Superseded)[next := Round(RoundOpen, now + ROUND_DEADLINE_MS)];
      begun := task.state == Reissued && task.currentRound == reissued.currentRound;
      if begun {
        task := task.(currentRound := next);
        past := past + {task};
        roundDue := false;
      }
      outbox := Withdrawn(submissions, outbox, prior);
      NewRoundIs(s0);
    }

    /** A fresh round for an escalated or revoked task: the task is reissued, the old round is
        superseded and its held evidence withdrawn, and independent review opens again. */
    method CreateReissuedRound(seen: TaskRow, reason: string, id: string, reissueId: string, openId: string) returns (outcome: Outcome)
      modifies this
      ensures seen.state != Escalated && seen.state != Revoked ==> outcome == Conflict && State() == old(State())
      ensures (seen.state == Escalated || seen.state == Revoked) && seen == old(task) && RowsOk(old(State()))
              && FreshKeys(old(events), id, seen.currentRound, reason)
              ==> outcome.Done? && State() == AfterReissue(old(State()), id, reason, reissueId, openId)
      ensures (seen.state == Escalated || seen.state == Revoked) && Overtaken(old(State()), id, seen, reason)
              ==> outcome == Conflict && State() == OverlappingBatch(old(State()))
    {
      hide Superseded, Withdrawn, RowsOk, KeyUsed, NewRound, Swapped, SwappedRow, WithRound, LeftBehind;
      ghost var s0 := State();
      StrayIsOverlapping(s0, id, seen, reason);
      if seen.state != Escalated && seen.state != Revoked {
        return Conflict;
      }
      var k := seen.currentRound;
      if k !in rounds {
        ReissueGoes(s0, id, reason, reissueId, openId);
        return Conflict;
      }
      ReissueGoes(s0, id, reason, reissueId, openId);
      outcome := TransitionConsensusTask(seen, Plain(Reissued, ReissueKey(id, k, reason), reissueId));
      if !outcome.Done? {
        return;
      }
      roundDue := task.state == Reissued;
      var begun := OpenNextRound(k, outcome.row);
      if !begun {
        return Conflict;
      }
      outcome := TransitionConsensusTask(task, Plain(IndependentReview, RoundOpenKey(id, task.currentRound), openId));
    }

    // ---- Submissions

    /** Whether the artifact passes its validation for the role, against the task's packet. */
    method ValidateArtifact(hash: Hash, ghost packet: Packet, packetRoot: string, role: Role, artifact: Artifact) returns (ok: bool)
      requires packetRoot == PacketRoot(hash, packet)
      ensures ok <==> Shaped(role, artifact) && Sound(hash, packet, role, artifact)
    {
      hide BoundAnnotation, BoundDecision, BoundRatification, PacketRoot, PacketOk;
      var root: Option<string>;
      match artifact {
        case AnnotationArtifact(p, a) =>
          ok := ValidateSubmissionBinding(hash, p, a);
          if !ok || !SlotOf(role, a.annotatorSlot) {
            return false;
          }
          BoundPacket(hash, p, a);
          root := ComputePacketMerkleRoot(hash, p);
        case DecisionArtifact(x) =>
          ok := ValidateAdjudicationBinding(hash, x);
          if !ok || role != J1 {
            return false;
          }
          DecisionPacket(hash, x);
          root := ComputePacketMerkleRoot(hash, x.packet);
        case RatificationArtifact(x, r) =>
          ok := ValidateRatificationBinding(hash, x, r);
          if !ok || role != J2 {
            return false;
          }
          RatificationPacket(hash, x, r);
          root := ComputePacketMerkleRoot(hash, x.packet);
      }
      ok := root.value == packetRoot;
    }

    /** The decision names the roots of the A and B stored for the round. */
    method DecidesOnStored(hash: Hash, ghost packet: Packet, d: Decision) returns (ok: bool)
      requires ArtifactsOk(PortalChecks(hash, packet), State()) && OnceOk(State())
      ensures ok <==> Grounded(PortalChecks(hash, packet), State(), task.currentRound, d)
    {
      hide PortalChecks, Grounded, OnceOk, ArtifactsOk, PacketOk, PacketRoot, AnnotationRoot;
      ghost var c := PortalChecks(hash, packet);
      var round := task.currentRound;
      if (forall r :: r in submissions ==> !IsFilled(submissions, r, A, round))
         || (forall r :: r in submissions ==> !IsFilled(submissions, r, B, round)) {
        NotGrounded(c, State(), round, d);
        return false;
      }
      var a :| a in submissions && IsFilled(submissions, a, A, round);
      var b :| b in submissions && IsFilled(submissions, b, B, round);
      StoredAnnotation(hash, packet, State(), a);
      StoredAnnotation(hash, packet, State(), b);
      var artifactA, artifactB := submissions[a].artifact, submissions[b].artifact;
      var x := ComputeAnnotationMerkleRoot(hash, artifactA.packet, artifactA.annotation);
      var y := ComputeAnnotationMerkleRoot(hash, artifactB.packet, artifactB.annotation);
      ok := x.value != y.value && d.annotationAMerkleRoot in {x.value, y.value} && d.annotationBMerkleRoot in {x.value, y.value};
      GroundedBy(hash, packet, State(), round, d, a, b);
    }

    /** J2 answers the proposed result of the round, and may make it the active one. */
    method AnswersProposal(r: Ratification) returns (ok: bool)
      ensures ok <==> Answers(State(), r) && (Agrees(r) ==> NoActiveFinal(State()))
    {
      ok := r.primaryReceiptId.Some? && r.primaryReceiptId.value in finals
            && finals[r.primaryReceiptId.value].round == task.currentRound
            && finals[r.primaryReceiptId.value].status == FinalProposed
            && finals[r.primaryReceiptId.value].secondary.None?
            && finals[r.primaryReceiptId.value].root == r.primaryAdjudicationMerkleRoot
            && (Agrees(r) ==> forall q :: q in finals ==> finals[q].status != FinalActive);
    }

    method ValidateConsensusEligibility(hash: Hash, ghost packet: Packet, packetRoot: string, user: string, receipt: Receipt,
                                        role: Role, artifact: Artifact) returns (ok: bool)
      requires packetRoot == PacketRoot(hash, packet) && receipt !in submissions
      requires ArtifactsOk(PortalChecks(hash, packet), State()) && OnceOk(State())
      ensures ok <==> MaySubmit(PortalChecks(hash, packet), State(), user, receipt, role, artifact)
      ensures ok ==> Sound(hash, packet, role, artifact)
    {
      hide Sound, Grounded, PacketRoot, ArtifactsOk, OnceOk, PortalChecks, Answers, NoActiveFinal;
      SoundIs(hash, packet, role, artifact);
      ok := ValidateArtifact(hash, packet, packetRoot, role, artifact);
      if !ok {
        return;
      }
      var round := task.currentRound;
      ok := round in rounds && rounds[round].status == RoundOpen && RoleAllowed(role, task.state)
            && (forall r :: r in submissions ==> submissions[r].user != user)
            && (forall r :: r in submissions ==> !IsFilled(submissions, r, role, round));
      if !ok {
        return;
      }
      if role == J1 {
        ok := DecidesOnStored(hash, packet, artifact.decided.adjudication);
      } else if role == J2 {
        ok := AnswersProposal(artifact.ratification);
      }
    }

    /** The results after a submission: a decision proposes one, an agreement activates one. */
    method ResultsAfter(hash: Hash, ghost packet: Packet, receipt: Receipt, role: Role, artifact: Artifact)
      returns (after: map<Receipt, Final>)
      requires Sound(hash, packet, role, artifact)
      requires artifact.RatificationArtifact? ==> Answers(State(), artifact.ratification)
      ensures after == FinalsAfter(PortalChecks(hash, packet), State(), receipt, artifact)
    {
      hide Sound, PortalChecks, BoundDecision, DecisionRoot;
      match artifact {
        case AnnotationArtifact(_, _) =>
          after := finals;
        case DecisionArtifact(x) =>
          ghost var d := RootOfBound(hash, packet, role, artifact);
          var root := ComputeAdjudicationMerkleRoot(hash, x);
          after := finals[receipt := Final(task.currentRound, root.value, FinalProposed, None)];
        case RatificationArtifact(_, r) =>
          after := finals;
          if Agrees(r) {
            var q := r.primaryReceiptId.value;
            after := finals[q := finals[q].(status := FinalActive, secondary := Some(receipt))];
          }
      }
    }

    /** The checks and the writes of a submission. It is accepted exactly when the protocol
        lets it in, and writes exactly the protocol's rows. */
    method ReceiveSubmission(hash: Hash, ghost packet: Packet, packetRoot: string, user: string, receipt: Receipt,
                             role: Role, artifact: Artifact) returns (accepted: bool)
      requires packetRoot == PacketRoot(hash, packet) && receipt !in submissions
      requires ArtifactsOk(PortalChecks(hash, packet), State()) && OnceOk(State())
      modifies this
      ensures accepted <==> MaySubmit(PortalChecks(hash, packet), old(State()), user, receipt, role, artifact)
      ensures State() == if accepted then Submitted(PortalChecks(hash, packet), old(State()), user, receipt, role, artifact)
                         else old(State())
    {
      hide Sound, Grounded, PacketRoot, ArtifactsOk, OnceOk, PortalChecks, Answers, MaySubmit, FinalsAfter;
      accepted := ValidateConsensusEligibility(hash, packet, packetRoot, user, receipt, role, artifact);
      if !accepted {
        return;
      }
      SubmittedShape(PortalChecks(hash, packet), State(), user, receipt, role, artifact);
      var after := ResultsAfter(hash, packet, receipt, role, artifact);
      submissions := submissions[receipt := Submission(user, role, task.currentRound, artifact)];
      outbox := outbox[receipt := if role == A || role == B then Held else Pending];
      finals := after;
    }

    // ---- Reconciliation

    method FindSubmission(role: Role) returns (found: Option<Receipt>)
      ensures found.Some? ==> Filled(State(), found.value, role, task.currentRound)
      ensures found.None? ==> forall r :: !Filled(State(), r, role, task.currentRound)
      ensures found.Some? && OnceOk(State()) ==> forall r :: Filled(State(), r, role, task.currentRound) ==> r == found.value
    {
      var round := task.currentRound;
      if exists r :: r in submissions && IsFilled(submissions, r, role, round) {
        var r :| r in submissions && IsFilled(submissions, r, role, round);
        return Some(r);
      }
      return None;
    }

    /** Independent review is over once A and B are stored: their evidence is released, their
        agreement computed, and the task goes to discussion. The agreement never throws. */
    method ReconcileIndependentReview(ghost hash: Hash, ghost packet: Packet, id: string, eventId: string)
      returns (ghost steps: seq<Step>)
      requires Injective(hash) && Inv(PortalChecks(hash, packet), State()) && task.state == IndependentReview
      modifies this
      ensures State() == Run(PortalChecks(hash, packet), old(State()), steps)
      ensures Reviewed(old(State()), State(), id, eventId)
    {
      hide Inv, PortalChecks, Run, Next, RowsOk, ArtifactsOk, LogOk, OnceOk, FinalsOk, GroundedOk, SignedOk, StageOk, PublicationOk, BlindOk;
      hide RecordsOk, Attempted, Goes, TransitionFor, Justified, BoundDecision, N.NovelUnits, N.Entries, N.SameUnits, N.DistinctUnits;
      hide I.Comparable, I.EightPairs, I.MeasuresAll, I.Summarises, Released;
      ghost var c, s0 := PortalChecks(hash, packet), State();
      InvParts(c, s0);
      NoSteps(c, s0);
      var a := FindSubmission(A);
      var b := FindSubmission(B);
      if a.None? || b.None? {
        return [];
      }
      var released := ReleaseIndependentEvidence(task.currentRound, a.value, b.value);
      ghost var release := Release(a.value, b.value);
      ReleaseRuns(c, s0, a.value, b.value);
      if !released {
        return [release];
      }
      StoredAnnotations(hash, packet, s0, a.value, b.value);
      ComparableAnnotations(hash, packet, s0, a.value, b.value);
      var metrics;
      ghost var pairs;
      metrics, pairs := I.ComputeIndependentAgreement(submissions[a.value].artifact.annotation.sentences,
                                                      submissions[b.value].artifact.annotation.sentences);
      assert metrics.Some?;
      ghost var s1 := State();
      var key := QuorumKey(id, task.currentRound, a.value, b.value);
      ghost var attempt := Attempt(task, |events|, ReachQuorum(a.value, b.value), key, eventId);
      QuorumIsJustified(c, s0, s1, a.value, b.value, key, eventId);
      AttemptRuns(c, s0, [release], s1, ReachQuorum(a.value, b.value), key, eventId);
      var outcome := TransitionConsensusTask(task, Plain(Discussion, key, eventId));
      assert [release] + [attempt] == [release, attempt];
      return [release, attempt];
    }

    /** A proposal of J1 goes to final review, or escalates the task when it decides a unit as
        neither annotator did. Counting those units never throws. */
    method ReconcileDiscussion(ghost hash: Hash, ghost packet: Packet, eventId: string)
      returns (escalated: bool, ghost steps: seq<Step>)
      requires Inv(PortalChecks(hash, packet), State()) && task.state == Discussion
      modifies this
      ensures State() == Run(PortalChecks(hash, packet), old(State()), steps)
      ensures escalated <==> task.state == Escalated
      ensures Discussed(PortalChecks(hash, packet), old(State()), State(), eventId)
    {
      hide Inv, PortalChecks, Run, Next, RowsOk, ArtifactsOk, LogOk, OnceOk, FinalsOk, GroundedOk, SignedOk, StageOk, PublicationOk, BlindOk;
      hide RecordsOk, Attempted, Goes, TransitionFor, Justified, BoundDecision, N.NovelUnits, N.Entries, N.SameUnits, N.DistinctUnits;
      hide I.Comparable, I.EightPairs, I.MeasuresAll, I.Summarises;
      ghost var c, s0 := PortalChecks(hash, packet), State();
      InvParts(c, s0);
      NoSteps(c, s0);
      var primary := FindSubmission(J1);
      if primary.None? {
        return false, [];
      }
      var p := primary.value;
      StoredDecision(hash, packet, s0, p);
      var x := submissions[p].artifact.decided;
      ComparableDecision(hash, x);
      var novelCount := N.CountNovelPrimaryDecisions(x.annotationA.sentences, x.annotationB.sentences, x.adjudication.sentences);
      NovelIs(hash, packet, x);
      var next := if novelCount.value > 0 then Escalated else FinalReview;
      var key := ProposalKey(p);
      ghost var attempt := Attempt(task, |events|, Propose(p), key, eventId);
      ProposalIsJustified(c, s0, p, novelCount.value, key, eventId);
      AttemptRuns(c, s0, [], s0, Propose(p), key, eventId);
      assert [] + [attempt] == [attempt];
      var outcome := TransitionConsensusTask(task, Plain(next, key, eventId));
      return task.state == Escalated, [attempt];
    }

    /** J2's answer approves the task, with a fresh appeal window and a closed round, or
        escalates it. */
    method ReconcileFinalReview(ghost hash: Hash, ghost packet: Packet, eventId: string)
      returns (escalated: bool, ghost steps: seq<Step>)
      requires Inv(PortalChecks(hash, packet), State()) && task.state == FinalReview
      modifies this
      ensures State() == Run(PortalChecks(hash, packet), old(State()), steps)
      ensures escalated <==> task.state == Escalated
      ensures Ratified(old(State()), State(), eventId)
      ensures AnswerDecides(old(State()), State())
    {
      hide Inv, PortalChecks, Run, Next, RowsOk, ArtifactsOk, LogOk, OnceOk, FinalsOk, GroundedOk, SignedOk, StageOk, PublicationOk, BlindOk;
      hide RecordsOk, Attempted, Goes, TransitionFor, Justified, BoundDecision, N.NovelUnits, N.Entries, N.SameUnits, N.DistinctUnits;
      hide I.Comparable, I.EightPairs, I.MeasuresAll, I.Summarises, WithRound, Closed, AnswerDecides;
      ghost var c, s0 := PortalChecks(hash, packet), State();
      InvParts(c, s0);
      RatifiedDecides(hash, packet, s0, eventId);
      NoSteps(c, s0);
      var secondary := FindSubmission(J2);
      if secondary.None? {
        return false, [];
      }
      var q := secondary.value;
      StoredRatification(hash, packet, s0, q);
      var r := submissions[q].artifact.ratification;
      var key := RatificationKey(q);
      ghost var attempt := Attempt(task, |events|, Ratify(q, now), key, eventId);
      RatificationIsJustified(c, s0, q, key, eventId);
      AttemptRuns(c, s0, [], s0, Ratify(q, now), key, eventId);
      assert [] + [attempt] == [attempt];
      var round := task.currentRound;
      var t := Plain(Escalated, key, eventId);
      if Agrees(r) {
        t := Plain(Approved, key, eventId).(appealDeadline := Some(now + APPEAL_WINDOW_MS), activeFinal := r.primaryReceiptId);
      }
      var outcome := TransitionConsensusTask(task, t);
      ghost var s1 := State();
      AttemptedState(s0, s0.task, |s0.events|, t);
      if Agrees(r) && outcome.Done? {
        RoundStands(s0, s1, round, q);
        CloseRuns(c, s0, [attempt], s1, round, q);
        rounds := WithRound(rounds, round, Closed);
        assert [attempt] + [CloseRound(round)] == [attempt, CloseRound(round)];
        return false, [attempt, CloseRound(round)];
      }
      return task.state == Escalated, [attempt];
    }

    /** What the state of the task calls for, and why the task must be reissued if it must. */
    method ReconcileState(ghost hash: Hash, ghost packet: Packet, id: string, eventId: string)
      returns (reason: Option<string>, ghost steps: seq<Step>)
      requires Injective(hash) && Inv(PortalChecks(hash, packet), State())
      modifies this
      ensures State() == Run(PortalChecks(hash, packet), old(State()), steps)
      ensures Reconciled(PortalChecks(hash, packet), old(State()), State(), id, eventId)
      ensures reason == ReasonToReissue(old(State()), State())
      ensures old(task).state == FinalReview ==> AnswerDecides(old(State()), State())
      ensures ReasonGoesByAnswer(old(State()), reason)
    {
      hide Inv, PortalChecks, Run, Next, Reviewed, Discussed, Ratified, Recused, RowsOk, ArtifactsOk, LogOk, OnceOk, FinalsOk;
      hide GroundedOk, SignedOk, StageOk, PublicationOk, BlindOk, RecordsOk, AnswerDecides, ReasonGoesByAnswer;
      InvParts(PortalChecks(hash, packet), State());
      NoSteps(PortalChecks(hash, packet), State());
      AnyReason(State());
      match task.state {
        case IndependentReview =>
          steps := ReconcileIndependentReview(hash, packet, id, eventId);
          return None, steps;
        case Discussion =>
          var escalated;
          escalated, steps := ReconcileDiscussion(hash, packet, eventId);
          return if escalated then Some("novel-primary-decision") else None, steps;
        case FinalReview =>
          var refusal := ReasonOfRefusal();
          var escalated;
          escalated, steps := ReconcileFinalReview(hash, packet, eventId);
          return if escalated then Some(refusal) else None, steps;
        case _ =>
          return None, [];
      }
    }

    /** The scheduler's pass over one task. An escalation of it is followed by a fresh round. */
    method ReconcileConsensusTask(ghost hash: Hash, ghost packet: Packet, id: string, eventId: string, reissueId: string, openId: string)
      returns (reason: Option<string>, ghost middle: Store, ghost steps: seq<Step>)
      requires Injective(hash) && Inv(PortalChecks(hash, packet), State())
      modifies this
      ensures middle == Run(PortalChecks(hash, packet), old(State()), steps)
      ensures Reconciled(PortalChecks(hash, packet), old(State()), middle, id, eventId)
      ensures reason == ReasonToReissue(old(State()), middle)
      ensures old(task).state == FinalReview ==> AnswerDecides(old(State()), middle)
      ensures ReasonGoesByAnswer(old(State()), reason)
      ensures reason.None? ==> State() == middle
      ensures reason.Some? && FreshKeys(middle.events, id, middle.task.currentRound, reason.value)
              ==> State() == AfterReissue(middle, id, reason.value, reissueId, openId)
    {
      hide Inv, PortalChecks, Run, RowsOk, LogOk, ArtifactsOk, OnceOk, FinalsOk, GroundedOk, SignedOk, StageOk, PublicationOk, BlindOk;
      hide AfterReissue, FreshKeys, RecordsOk, Reconciled, Recused, AnswerDecides, ReasonGoesByAnswer;
      reason, steps := ReconcileState(hash, packet, id, eventId);
      middle := State();
      if reason.Some? {
        RunKeepsInv(PortalChecks(hash, packet), old(State()), steps);
        InvParts(PortalChecks(hash, packet), middle);
        var outcome := CreateReissuedRound(task, reason.value, id, reissueId, openId);
      }
    }

    /** A participant's appeal is taken exactly when the protocol lets it in: the result is
        active, the task approved, and the appeal window open at the time it names. */
    method CreateConsensusAppeal(user: string, final: Receipt, appealId: string, createdAt: int, ghost c: Checks)
      returns (accepted: bool)
      requires appealId !in appeals && createdAt <= now
      modifies this`appeals
      ensures accepted <==> Enabled(c, old(State()), InsertAppeal(appealId, user, final, createdAt))
      ensures State() == Next(c, old(State()), InsertAppeal(appealId, user, final, createdAt))
      ensures accepted ==> !NoAppealPending(appeals)
    {
      if final !in finals || finals[final].status != FinalActive || task.state != Approved {
        return false;
      }
      if task.appealDeadline.None? || task.appealDeadline.value < createdAt {
        return false;
      }
      if !exists r :: r in submissions && submissions[r].user == user {
        return false;
      }
      appeals := appeals[appealId := AppealPending];
      assert appeals[appealId] == AppealPending;
      accepted := true;
    }

    /** Publication, by a caller whose read of the task may be stale. The task is published
        only past its appeal deadline and with no appeal pending at that moment. */
    method AttemptPublishTask(seen: TaskRow, repositoryAccepted: bool, receipt: Option<string>, id: string, eventId: string,
                              ghost c: Checks)
      requires MayHaveRead(State(), seen, |events|)
      modifies this
      ensures State() == if ReadyToPublish(old(State()), seen, repositoryAccepted, receipt)
                         then Next(c, old(State()), Attempt(seen, |old(events)|, Publish(now), PublishKey(id, receipt.value), eventId))
                         else old(State())
      ensures task.state == Published && old(task).state != Published ==>
                && old(task).state == Approved && NoAppealPending(appeals)
                && task.appealDeadline.Some? && task.appealDeadline.value <= now
      ensures ReadyToPublish(old(State()), seen, repositoryAccepted, receipt) && seen == old(task)
              && !KeyUsed(old(events), |old(events)|, PublishKey(id, receipt.value))
              ==> task.state == Published && task.activeFinal == seen.activeFinal
    {
      if seen.state != Approved || !repositoryAccepted || seen.appealDeadline.None? || seen.appealDeadline.value > now {
        return;
      }
      if !NoAppealPending(appeals) || seen.activeFinal.None? || seen.activeFinal.value !in finals
         || finals[seen.activeFinal.value].status != FinalActive || receipt.None? {
        return;
      }
      ghost var s0 := State();
      var t := Plain(Published, PublishKey(id, receipt.value), eventId)
               .(activeFinal := seen.activeFinal, publicationGuardAt := Some(now));
      PublicationIsAStep(c, s0, seen, PublishKey(id, receipt.value), eventId, t);
      AttemptedState(s0, seen, |s0.events|, t);
      var outcome := TransitionConsensusTask(seen, t);
    }

    method ReasonOfRefusal() returns (reason: string)
      requires OnceOk(State())
      ensures reason == if Recused(State()) then "accepted-recusal" else "j2-disagreement"
    {
      var secondary := FindSubmission(J2);
      reason := "j2-disagreement";
      if secondary.Some? && submissions[secondary.value].artifact.RatificationArtifact?
         && submissions[secondary.value].artifact.ratification.decision == "recuse" {
        reason := "accepted-recusal";
      }
    }
  }

  /** The round before is superseded if it was open, its held evidence is withdrawn, and the
      next round is open for fourteen days; no other round and no other evidence changes. */
  ghost predicate RoundFollows(s: Store, s': Store, prior: nat, next: nat) {
    && s'.rounds.Keys == s.rounds.Keys + {next} && s'.rounds[next] == Round(RoundOpen, s.now + 1_209_600_000)
    && (forall k :: k in s.rounds && k != prior && k != next ==> s'.rounds[k] == s.rounds[k])
    && (prior in s.rounds && prior != next ==>
          s'.rounds[prior] == if s.rounds[prior].status == RoundOpen then Round(RoundSuperseded, s.rounds[prior].deadline)
                              else s.rounds[prior])
    && s'.outbox.Keys == s.outbox.Keys
    && (forall r :: r in s.outbox ==>
          s'.outbox[r] == if r in s.submissions && s.submissions[r].round == prior && s.outbox[r] == Held then Cancelled
                          else s.outbox[r])
    && s'.submissions == s.submissions && s'.finals == s.finals && s'.appeals == s.appeals
  }

  /** The batch does this, whether its update of the task finds the task or not. */
  lemma RoundIsFollowed(s: Store, prior: nat, next: nat)
    ensures RoundFollows(s, StrayRound(s, prior, next), prior, next)
    ensures RoundFollows(s, NewRound(s), s.task.currentRound, s.task.currentRound + 1)
  {
    assert ROUND_DEADLINE_MS == 1_209_600_000;
  }

  /** What the batch leaves behind when its update of the task finds another row. */
  function StrayRound(s: Store, prior: nat, next: nat): Store {
    s.(rounds := WithRound(s.rounds, prior, Superseded)[next := Round(RoundOpen, s.now + ROUND_DEADLINE_MS)],
       outbox := Withdrawn(s.submissions, s.outbox, prior))
  }

  /** The round is over, and none of its evidence is held. */
  ghost predicate LeftBehind(s: Store, k: nat) {
    && k in s.rounds && s.rounds[k].status != RoundOpen
    && forall r :: r in s.outbox && r in s.submissions && s.submissions[r].round == k ==> s.outbox[r] != Held
  }

  /** Another call has done the reissue that this caller, with its old read, sets out to do. */
  ghost predicate Overtaken(s: Store, id: string, seen: TaskRow, reason: string) {
    && RowsOk(s) && s.task.state != Reissued
    && KeyUsed(s.events, |s.events|, ReissueKey(id, seen.currentRound, reason))
    && LeftBehind(s, seen.currentRound)
  }

  /** A reissue that has run its course overtakes every caller with the same old read and the
      same reason: that caller leaves a stray round behind, and no round ever follows it. */
  lemma ReissueOvertakes(c: Checks, s: Store, id: string, reason: string, reissueId: string, openId: string)
    requires Inv(c, s) && (s.task.state == Escalated || s.task.state == Revoked)
    requires FreshKeys(s.events, id, s.task.currentRound, reason)
    ensures Overtaken(AfterReissue(s, id, reason, reissueId, openId), id, s.task, reason)
  {
    hide Inv, RowsOk, LeftBehind, KeyUsed, AfterReissue, ReissueKey, LogOk;
    InvParts(c, s);
    var after := AfterReissue(s, id, reason, reissueId, openId);
    var steps := ReissueIsARun(c, s, id, reason, reissueId, openId);
    RunKeepsInv(c, s, steps);
    InvParts(c, after);
    ReissueLeavesBehind(s, id, reason, reissueId, openId);
  }

  lemma ReissueLeavesBehind(s: Store, id: string, reason: string, reissueId: string, openId: string)
    requires RowsOk(s)
    ensures var s' := AfterReissue(s, id, reason, reissueId, openId);
            && s'.task.state == IndependentReview && LeftBehind(s', s.task.currentRound)
            && KeyUsed(s'.events, |s'.events|, ReissueKey(id, s.task.currentRound, reason))
  {
    hide ReissueKey, RoundOpenKey;
    var s' := AfterReissue(s, id, reason, reissueId, openId);
    assert s'.events[|s.events|].key == ReissueKey(id, s.task.currentRound, reason);
  }

  lemma StrayIsOverlapping(s: Store, id: string, seen: TaskRow, reason: string)
    ensures Overtaken(s, id, seen, reason) ==>
              && StrayRound(s, seen.currentRound, s.task.currentRound + 1) == OverlappingBatch(s)
              && s.task.currentRound + 1 !in s.rounds && !s.roundDue
              && s.task.state != Reissued && seen.currentRound in s.rounds
              && KeyUsed(s.events, |s.events|, ReissueKey(id, seen.currentRound, reason))
  {
    hide KeyUsed, ReissueKey;
    if Overtaken(s, id, seen, reason) {
      assert WithRound(s.rounds, seen.currentRound, Superseded) == s.rounds;
      assert Withdrawn(s.submissions, s.outbox, seen.currentRound) == s.outbox;
    }
  }

  lemma NewRoundIs(s: Store)
    ensures var k := s.task.currentRound;
            var row := s.task.(currentRound := k + 1);
            NewRound(s) == Store(row, s.past + {row}, s.events,
                                 WithRound(s.rounds, k, Superseded)[k + 1 := Round(RoundOpen, s.now + ROUND_DEADLINE_MS)],
                                 s.submissions, s.finals, Withdrawn(s.submissions, s.outbox, k), s.appeals, false, s.now)
  {
    hide Superseded, Withdrawn, WithRound;
  }

  /** With fresh keys and a fresh read, each of the three steps goes through. */
  lemma ReissueGoes(s: Store, id: string, reason: string, reissueId: string, openId: string)
    ensures RowsOk(s) && (s.task.state == Escalated || s.task.state == Revoked) && FreshKeys(s.events, id, s.task.currentRound, reason) ==>
              var k := s.task.currentRound;
              var t, u := Plain(Reissued, ReissueKey(id, k, reason), reissueId), Plain(IndependentReview, RoundOpenKey(id, k + 1), openId);
              var s1 := Swapped(s, s.task, t).(roundDue := true);
              var s2 := NewRound(s1);
              && k in s.rounds && Attempted(s, s.task, |s.events|, t) == Swapped(s, s.task, t)
              && s1.task.state == Reissued && s1.task.currentRound == k && k + 1 !in s1.rounds && k in s1.rounds
              && s2.task.currentRound == k + 1 && Allowed(s2.task.state, u.next) && !KeyUsed(s1.events, |s1.events|, u.key) && Swaps(s2, s2.task, u)
              && Attempted(s2, s2.task, |s2.events|, u) == Swapped(s2, s2.task, u)
              && !KeyUsed(s.events, |s.events|, t.key) && Swaps(s, s.task, t)
  {
    KeysDiffer(id, s.task.currentRound, reason);
    hide Withdrawn, WithRound, Superseded, ReissueKey, RoundOpenKey;
  }

  lemma KeysDiffer(id: string, round: nat, reason: string)
    ensures ReissueKey(id, round, reason) != RoundOpenKey(id, round + 1)
  {
    assert ReissueKey(id, round, reason)[1] == 'e' && RoundOpenKey(id, round + 1)[1] == 'o';
  }

  function RoundId(id: string, round: nat): string {
    id + ":r" + Decimal(round)
  }

  function QuorumKey(id: string, round: nat, a: Receipt, b: Receipt): string {
    "independent-quorum:" + RoundId(id, round) + ":" + a + ":" + b
  }

  function ProposalKey(p: Receipt): string {
    "j1-proposal:" + p
  }

  function RatificationKey(q: Receipt): string {
    "j2-ratification:" + q
  }

  function PublishKey(id: string, receipt: string): string {
    "publish:" + id + ":" + receipt
  }

  lemma FirstColon(a: string, b: string, a': string, b': string)
    requires ':' !in a && ':' !in a' && a + (":" + b) == a' + (":" + b')
    ensures a == a' && b == b'
  {
    var s := a + (":" + b);
    assert s[|a|] == ':' && s[|a'|] == ':';
    assert forall i :: 0 <= i < |a| ==> s[i] == a[i];
    assert forall i :: 0 <= i < |a'| ==> s[i] == a'[i];
    assert s[..|a|] == a && s[|a| + 1..] == b;
    assert s[..|a'|] == a' && s[|a'| + 1..] == b';
  }

  lemma SameStart(start: string, a: string, b: string)
    requires start + a == start + b
    ensures a == b
  {
    assert (start + a)[|start|..] == a && (start + b)[|start|..] == b;
  }

  /** Behind the identifier of a round, its number and all that follows it can be read off. */
  lemma RoundsTellApart(start: string, round: nat, rest: string, round': nat, rest': string)
    requires start + Decimal(round) + ":" + rest == start + Decimal(round') + ":" + rest'
    ensures round == round' && rest == rest'
  {
    hide Decimal;
    assert start + Decimal(round) + ":" + rest == start + (Decimal(round) + (":" + rest));
    assert start + Decimal(round') + ":" + rest' == start + (Decimal(round') + (":" + rest'));
    SameStart(start, Decimal(round) + (":" + rest), Decimal(round') + (":" + rest'));
    FirstColon(Decimal(round), rest, Decimal(round'), rest');
    DecimalInjective(round, round');
  }

  lemma ReissueKeyParts(id: string, k: nat, reason: string)
    ensures ReissueKey(id, k, reason) == ("reissue:" + id + ":" + id + ":r") + Decimal(k) + ":" + reason
  {
    hide Decimal;
    assert "reissue:" + id + ":" + (id + ":r" + Decimal(k)) == ("reissue:" + id + ":" + id + ":r") + Decimal(k);
  }

  lemma RoundOpenKeyParts(id: string, k: nat)
    ensures RoundOpenKey(id, k) == ("round-open:" + id + ":r") + Decimal(k)
  {
    hide Decimal;
  }

  lemma QuorumKeyParts(id: string, k: nat, a: Receipt, b: Receipt)
    ensures QuorumKey(id, k, a, b) == ("independent-quorum:" + id + ":r") + Decimal(k) + ":" + (a + ":" + b)
  {
    hide Decimal;
    var start := "independent-quorum:" + (id + ":r" + Decimal(k));
    assert start == ("independent-quorum:" + id + ":r") + Decimal(k);
    assert start + ":" + a + ":" + b == start + ":" + (a + ":" + b);
  }

  /** Keys of one kind tell apart rounds, reasons and receipts. */
  lemma KeysTellApart(id: string, k: nat, reason: string, a: Receipt, b: Receipt, k': nat, reason': string, a': Receipt, b': Receipt)
    ensures ReissueKey(id, k, reason) == ReissueKey(id, k', reason') ==> k == k' && reason == reason'
    ensures RoundOpenKey(id, k) == RoundOpenKey(id, k') ==> k == k'
    ensures QuorumKey(id, k, a, b) == QuorumKey(id, k', a', b') ==> k == k' && a + ":" + b == a' + ":" + b'
    ensures ProposalKey(a) == ProposalKey(a') || RatificationKey(a) == RatificationKey(a') || PublishKey(id, a) == PublishKey(id, a')
            ==> a == a'
  {
    hide Decimal;
    if ProposalKey(a) == ProposalKey(a') {
      SameStart("j1-proposal:", a, a');
    }
    if RatificationKey(a) == RatificationKey(a') {
      SameStart("j2-ratification:", a, a');
    }
    if PublishKey(id, a) == PublishKey(id, a') {
      SameStart("publish:" + id + ":", a, a');
    }
    hide ReissueKey, RoundOpenKey, QuorumKey;
    if ReissueKey(id, k, reason) == ReissueKey(id, k', reason') {
      ReissueKeyParts(id, k, reason);
      ReissueKeyParts(id, k', reason');
      RoundsTellApart("reissue:" + id + ":" + id + ":r", k, reason, k', reason');
    }
    if RoundOpenKey(id, k) == RoundOpenKey(id, k') {
      RoundOpenKeyParts(id, k);
      RoundOpenKeyParts(id, k');
      SameStart("round-open:" + id + ":r", Decimal(k), Decimal(k'));
      DecimalInjective(k, k');
    }
    if QuorumKey(id, k, a, b) == QuorumKey(id, k', a', b') {
      QuorumKeyParts(id, k, a, b);
      QuorumKeyParts(id, k', a', b');
      RoundsTellApart("independent-quorum:" + id + ":r", k, a + ":" + b, k', a' + ":" + b');
    }
  }

  /** Keys of different kinds are never the same, so no transition is taken for another. */
  lemma KindsOfKeysDiffer(id: string, k: nat, reason: string, j: nat, l: nat, a: Receipt, b: Receipt, p: Receipt, q: Receipt,
                          receipt: string)
    ensures var keys := [ReissueKey(id, k, reason), RoundOpenKey(id, j), QuorumKey(id, l, a, b), ProposalKey(p),
                         RatificationKey(q), PublishKey(id, receipt)];
            forall m, n :: 0 <= m < n < 6 ==> keys[m] != keys[n]
  {
    hide RoundId;
    assert ReissueKey(id, k, reason)[..2] == "re" && RoundOpenKey(id, j)[..2] == "ro" && QuorumKey(id, l, a, b)[..2] == "in";
    assert ProposalKey(p)[..2] == "j1" && RatificationKey(q)[..2] == "j2" && PublishKey(id, receipt)[..2] == "pu";
  }

  /** The repository has confirmed the task's active result, its appeal window is over by the
      caller's read, and no appeal is pending. */
  predicate ReadyToPublish(s: Store, seen: TaskRow, repositoryAccepted: bool, receipt: Option<string>) {
    && seen.state == Approved && repositoryAccepted && receipt.Some?
    && seen.appealDeadline.Some? && seen.appealDeadline.value <= s.now && NoAppealPending(s.appeals)
    && seen.activeFinal.Some? && seen.activeFinal.value in s.finals && s.finals[seen.activeFinal.value].status == FinalActive
  }

  lemma PublicationIsAStep(c: Checks, s: Store, seen: TaskRow, key: string, eventId: string, t: Transition)
    requires MayHaveRead(s, seen, |s.events|) && seen.state == Approved
    requires t == Plain(Published, key, eventId).(activeFinal := seen.activeFinal, publicationGuardAt := Some(s.now))
    ensures Next(c, s, Attempt(seen, |s.events|, Publish(s.now), key, eventId)) == Attempted(s, seen, |s.events|, t)
  {
    hide Attempted, Goes;
    assert Attempted(s, seen, |s.events|, t) == if Goes(s, seen, |s.events|, t) then Swapped(s, seen, t) else s by {
      AttemptedIs(s, seen, |s.events|, t);
    }
  }

  lemma AttemptedIs(s: Store, seen: TaskRow, checked: nat, t: Transition)
    ensures Attempted(s, seen, checked, t) == if Goes(s, seen, checked, t) then Swapped(s, seen, t) else s
  {
  }

  lemma AttemptedState(s: Store, seen: TaskRow, checked: nat, t: Transition)
    ensures var s' := Attempted(s, seen, checked, t);
            s'.task.state == (if Goes(s, seen, checked, t) then t.next else s.task.state)
  {
  }

  // ---- What a submission may be, and what it writes

  /** Each state takes submissions for its own roles, and each slot is for its own role. */
  lemma WhoMaySubmit(hash: Hash, packet: Packet, s: Store, user: string, receipt: Receipt, role: Role, artifact: Artifact)
    requires MaySubmit(PortalChecks(hash, packet), s, user, receipt, role, artifact)
    ensures match s.task.state
            case Open => role == A || role == B
            case IndependentReview => role == A || role == B
            case Discussion => role == J1
            case FinalReview => role == J2
            case _ => false
    ensures match artifact
            case AnnotationArtifact(_, a) => a.annotatorSlot == (if role == A then "A" else "B")
            case DecisionArtifact(x) => x.adjudication.adjudicatorSlot == "J1"
            case RatificationArtifact(_, r) => r.reviewerSlot == "J2"
    ensures forall r :: r in s.submissions ==>
              s.submissions[r].user != user && !(s.submissions[r].role == role && s.submissions[r].round == s.task.currentRound)
    ensures s.task.currentRound in s.rounds && s.rounds[s.task.currentRound].status == RoundOpen
  {
    SoundIs(hash, packet, role, artifact);
    hide PortalChecks, Grounded, PacketOk, PacketRoot, Covers, Resolved, AnnotationRoot, DecisionRoot, SamePacketRoot;
    forall r | r in s.submissions ensures !(s.submissions[r].role == role && s.submissions[r].round == s.task.currentRound) {
      assert !Filled(s, r, role, s.task.currentRound);
    }
  }

  /** Who is let in, when no one has taken part yet: the annotators while the task is open or
      in independent review. */
  lemma AnnotatorsMaySubmit(hash: Hash, packet: Packet, s: Store, user: string, receipt: Receipt, role: Role, p: Packet, a: Annotation)
    requires s.submissions == map[] && s.task.currentRound in s.rounds && s.rounds[s.task.currentRound].status == RoundOpen
    requires s.task.state == Open || s.task.state == IndependentReview
    requires BoundAnnotation(hash, p, a) && PacketRoot(hash, p) == PacketRoot(hash, packet)
    ensures MaySubmit(PortalChecks(hash, packet), s, user, receipt, role, AnnotationArtifact(p, a))
            <==> (role == A && a.annotatorSlot == "A") || (role == B && a.annotatorSlot == "B")
  {
    SoundIs(hash, packet, role, AnnotationArtifact(p, a));
    hide PortalChecks, BoundAnnotation, PacketRoot;
  }

  /** What an accepted submission writes: its own row, its evidence, held for an annotator, and
      the result that it proposes or activates. */
  lemma SubmissionWrites(hash: Hash, packet: Packet, s: Store, user: string, receipt: Receipt, role: Role, artifact: Artifact)
    requires MaySubmit(PortalChecks(hash, packet), s, user, receipt, role, artifact)
    ensures var s' := Submitted(PortalChecks(hash, packet), s, user, receipt, role, artifact);
            && s' == s.(submissions := s.submissions[receipt := Submission(user, role, s.task.currentRound, artifact)],
                        outbox := s.outbox[receipt := if artifact.AnnotationArtifact? then Held else Pending], finals := s'.finals)
            && match artifact
               case AnnotationArtifact(_, _) => s'.finals == s.finals
               case DecisionArtifact(x) =>
                 s'.finals == s.finals[receipt := Final(s.task.currentRound, DecisionRoot(hash, x.adjudication), FinalProposed, None)]
               case RatificationArtifact(_, r) =>
                 && r.primaryReceiptId.Some? && r.primaryReceiptId.value in s.finals
                 && (r.decision == "agree" ==>
                       var f := s.finals[r.primaryReceiptId.value];
                       s'.finals == s.finals[r.primaryReceiptId.value := Final(f.round, f.root, FinalActive, Some(receipt))])
                 && (r.decision == "disagree" || r.decision == "recuse" ==> s'.finals == s.finals)
  {
    if artifact.RatificationArtifact? {
      AgreesMeans(artifact.ratification);
    }
    hide BoundAnnotation, BoundDecision, BoundRatification, DecisionRoot, SamePacketRoot, DecidesBetween, NovelCount, Agrees;
  }

  // ---- What one pass of the scheduler is due to do

  predicate Out(d: Delivery) {
    d == Pending || d == Sending || d == Sent
  }

  /** The quorum's evidence is released, and the task goes to discussion unless that failed. */
  function AfterQuorum(s: Store, a: Receipt, b: Receipt, id: string, eventId: string): Store {
    var s1 := s.(outbox := Released(s.outbox, {a, b}));
    if a in s1.outbox && b in s1.outbox && a != b && Out(s1.outbox[a]) && Out(s1.outbox[b]) then
      Attempted(s1, s.task, |s.events|, Plain(Discussion, QuorumKey(id, s.task.currentRound, a, b), eventId))
    else s1
  }

  ghost function AfterProposal(c: Checks, s: Store, p: Receipt, eventId: string): Store {
    var next := if NovelProposal(c, s, p) then Escalated else FinalReview;
    Attempted(s, s.task, |s.events|, Plain(next, ProposalKey(p), eventId))
  }

  /** An agreement approves the task and closes its round; the key was used before exactly
        when the call had gone through before. */
  function AfterRatification(s: Store, q: Receipt, eventId: string): Store
    requires q in s.submissions && s.submissions[q].artifact.RatificationArtifact?
  {
    var r := s.submissions[q].artifact.ratification;
    var key := RatificationKey(q);
    if Agrees(r) then
      var s1 := Attempted(s, s.task, |s.events|,
                          Plain(Approved, key, eventId).(appealDeadline := Some(s.now + APPEAL_WINDOW_MS),
                                                         activeFinal := r.primaryReceiptId));
      if KeyUsed(s1.events, |s1.events|, key) then s1.(rounds := WithRound(s1.rounds, s.task.currentRound, Closed)) else s1
    else Attempted(s, s.task, |s.events|, Plain(Escalated, key, eventId))
  }

  ghost predicate Reviewed(s: Store, s': Store, id: string, eventId: string) {
    && (forall a, b :: Filled(s, a, A, s.task.currentRound) && Filled(s, b, B, s.task.currentRound) ==>
          s' == AfterQuorum(s, a, b, id, eventId))
    && ((forall a :: !Filled(s, a, A, s.task.currentRound)) || (forall b :: !Filled(s, b, B, s.task.currentRound)) ==> s' == s)
  }

  ghost predicate Discussed(c: Checks, s: Store, s': Store, eventId: string) {
    && (forall p :: Filled(s, p, J1, s.task.currentRound) ==> s' == AfterProposal(c, s, p, eventId))
    && ((forall p :: !Filled(s, p, J1, s.task.currentRound)) ==> s' == s)
  }

  ghost predicate Ratified(s: Store, s': Store, eventId: string) {
    && (forall q :: Filled(s, q, J2, s.task.currentRound) ==>
          s.submissions[q].artifact.RatificationArtifact? && s' == AfterRatification(s, q, eventId))
    && ((forall q :: !Filled(s, q, J2, s.task.currentRound)) ==> s' == s)
  }

  /** What the state of the task calls for. */
  ghost predicate Reconciled(c: Checks, s: Store, s': Store, id: string, eventId: string) {
    match s.task.state
    case IndependentReview => Reviewed(s, s', id, eventId)
    case Discussion => Discussed(c, s, s', eventId)
    case FinalReview => Ratified(s, s', eventId)
    case _ => s' == s
  }

  ghost predicate Recused(s: Store) {
    exists q :: Filled(s, q, J2, s.task.currentRound)
                && s.submissions[q].artifact.RatificationArtifact? && s.submissions[q].artifact.ratification.decision == "recuse"
  }

  /** A task that the pass has escalated needs a new round. */
  ghost function ReasonToReissue(s: Store, s': Store): Option<string> {
    if s'.task.state != Escalated then None
    else if s.task.state == Discussion then Some("novel-primary-decision")
    else if s.task.state == FinalReview then Some(if Recused(s) then "accepted-recusal" else "j2-disagreement")
    else None
  }

  /** The first pass over a stored quorum lets both pieces of evidence out and opens the
      discussion; no other evidence moves. */
  lemma QuorumReachesDiscussion(s: Store, a: Receipt, b: Receipt, id: string, eventId: string)
    requires s.task.state == IndependentReview && a != b && a in s.outbox && b in s.outbox
    requires !KeyUsed(s.events, |s.events|, QuorumKey(id, s.task.currentRound, a, b))
    ensures var s' := AfterQuorum(s, a, b, id, eventId);
            && s'.outbox.Keys == s.outbox.Keys
            && (forall r :: r in s.outbox && r != a && r != b ==> s'.outbox[r] == s.outbox[r])
            && (s'.task.state == Discussion <==> s.outbox[a] in {Held, Pending, Sending, Sent}
                                                 && s.outbox[b] in {Held, Pending, Sending, Sent})
            && (s'.task.state == Discussion ==> Out(s'.outbox[a]) && Out(s'.outbox[b]))
            && s'.task.state in {IndependentReview, Discussion}
  {
    var s1 := s.(outbox := Released(s.outbox, {a, b}));
    AttemptedState(s1, s.task, |s.events|, Plain(Discussion, QuorumKey(id, s.task.currentRound, a, b), eventId));
  }

  /** The first pass over a proposal goes on to final review exactly when every field that it
      decides is that field of A's annotation or of B's, and escalates the task otherwise. */
  lemma ProposalIsRouted(hash: Hash, packet: Packet, s: Store, p: Receipt, eventId: string)
    requires s.task.state == Discussion && forall i :: 0 <= i < |s.events| ==> s.events[i].key != ProposalKey(p)
    requires p in s.submissions && s.submissions[p].artifact.DecisionArtifact?
    ensures var x := s.submissions[p].artifact.decided;
            var s' := AfterProposal(PortalChecks(hash, packet), s, p, eventId);
            && s'.task.state == (if N.NovelUnits(x.annotationA.sentences, x.annotationB.sentences,
                                                 N.Entries(x.adjudication.sentences)) == {} then FinalReview else Escalated)
            && s'.task.stateVersion == s.task.stateVersion + 1
            && (BoundDecision(hash, x) ==>
                  (s'.task.state == FinalReview
                   <==> F.TakesFields(x.annotationA.sentences, x.annotationB.sentences, x.adjudication.sentences)))
  {
    hide N.NovelUnits, N.Entries, N.DistinctUnits, N.SameUnits, F.TakesFields, PacketOk, Covers, Resolved, PacketRoot, AnnotationRoot;
    var x := s.submissions[p].artifact.decided;
    NovelIs(hash, packet, x);
    var novel := N.NovelUnits(x.annotationA.sentences, x.annotationB.sentences, N.Entries(x.adjudication.sentences));
    assert |novel| > 0 <==> novel != {};
    if BoundDecision(hash, x) {
      N.CoveredIsComparable(x.packet, x.annotationA.sentences, x.annotationB.sentences, x.adjudication.sentences);
      F.NothingNovelOnFields(x.annotationA.sentences, x.annotationB.sentences, x.adjudication.sentences);
    }
  }

  lemma ClosedExactly(rounds: map<nat, Round>, k: nat)
    ensures var after := WithRound(rounds, k, Closed);
            && after.Keys == rounds.Keys
            && forall i :: i in rounds ==>
                 after[i] == if i == k && rounds[i].status == RoundOpen then Round(RoundClosed, rounds[i].deadline) else rounds[i]
  {
  }

  lemma SwapUsesKey(s: Store, t: Transition)
    requires Allowed(s.task.state, t.next) && !KeyUsed(s.events, |s.events|, t.key) && t.publicationGuardAt.None?
    ensures Attempted(s, s.task, |s.events|, t) == Swapped(s, s.task, t)
    ensures KeyUsed(Swapped(s, s.task, t).events, |s.events| + 1, t.key)
  {
    assert Swapped(s, s.task, t).events[|s.events|].key == t.key;
  }

  /** What the first pass over J2's answer makes of the task: on "agree" the result that J2
      named is active, the appeal window is fourteen days and the round is over; on "disagree",
      "recuse" or anything else the task is escalated and no result becomes active. */
  ghost predicate Answered(s: Store, s': Store, r: Ratification) {
    && (r.decision == "agree" ==>
          && s'.task.state == Approved && s'.task.appealDeadline == Some(s.now + 1_209_600_000)
          && (r.primaryReceiptId.Some? ==> s'.task.activeFinal == r.primaryReceiptId)
          && s'.rounds.Keys == s.rounds.Keys
          && forall k :: k in s.rounds ==>
               s'.rounds[k] == if k == s.task.currentRound && s.rounds[k].status == RoundOpen
                               then Round(RoundClosed, s.rounds[k].deadline) else s.rounds[k])
    && (r.decision != "agree" ==>
          && s'.task.state == Escalated && s'.task.activeFinal == s.task.activeFinal
          && s'.task.appealDeadline == s.task.appealDeadline && s'.rounds == s.rounds)
    && s'.finals == s.finals && s'.submissions == s.submissions && s'.outbox == s.outbox && s'.appeals == s.appeals
  }

  /** The first pass over the answer that J2 has submitted for the round does what it says. */
  ghost predicate AnswerDecides(s: Store, s': Store) {
    forall q :: Filled(s, q, J2, s.task.currentRound)
                && (forall i :: 0 <= i < |s.events| ==> s.events[i].key != RatificationKey(q)) ==>
      && s.submissions[q].artifact.RatificationArtifact?
      && s.submissions[q].artifact.ratification.decision in {"agree", "disagree", "recuse"}
      && Answered(s, s', s.submissions[q].artifact.ratification)
  }

  lemma RatifiedDecides(hash: Hash, packet: Packet, s: Store, eventId: string)
    requires ArtifactsOk(PortalChecks(hash, packet), s) && s.task.state == FinalReview
    ensures forall s': Store :: Ratified(s, s', eventId) ==> AnswerDecides(s, s')
  {
    hide PortalChecks, ArtifactsOk, Answered, AfterRatification, RatificationKey;
    forall s': Store | Ratified(s, s', eventId) ensures AnswerDecides(s, s') {
      forall q | Filled(s, q, J2, s.task.currentRound)
                 && (forall i :: 0 <= i < |s.events| ==> s.events[i].key != RatificationKey(q))
        ensures s.submissions[q].artifact.RatificationArtifact?
        ensures s.submissions[q].artifact.ratification.decision in {"agree", "disagree", "recuse"}
        ensures Answered(s, s', s.submissions[q].artifact.ratification)
      {
        StoredRatification(hash, packet, s, q);
        StoredAnswer(hash, packet, s, q);
        AgreementApproves(s, q, eventId);
      }
    }
  }

  /** The reason to reissue the task goes by the answer. */
  ghost predicate ReasonGoesByAnswer(s: Store, reason: Option<string>) {
    s.task.state == FinalReview ==>
      forall q :: Filled(s, q, J2, s.task.currentRound) && s.submissions[q].artifact.RatificationArtifact?
                  && (forall i :: 0 <= i < |s.events| ==> s.events[i].key != RatificationKey(q)) ==>
        var word := s.submissions[q].artifact.ratification.decision;
        && (word == "agree" ==> reason == None)
        && (word == "disagree" ==> reason == Some("j2-disagreement"))
        && (word == "recuse" ==> reason == Some("accepted-recusal"))
  }

  lemma ReasonIsGiven(s: Store, s': Store)
    requires OnceOk(s) && (s.task.state == FinalReview ==> AnswerDecides(s, s'))
    ensures ReasonGoesByAnswer(s, ReasonToReissue(s, s'))
  {
    hide RatificationKey;
    assert |"disagree"| != |"agree"| && |"recuse"| != |"agree"| && |"recuse"| != |"disagree"|;
  }

  lemma AnyReason(s: Store)
    requires OnceOk(s)
    ensures forall s': Store :: (s.task.state == FinalReview ==> AnswerDecides(s, s')) ==> ReasonGoesByAnswer(s, ReasonToReissue(s, s'))
  {
    hide OnceOk, AnswerDecides, ReasonGoesByAnswer, ReasonToReissue;
    forall s': Store | s.task.state == FinalReview ==> AnswerDecides(s, s')
      ensures ReasonGoesByAnswer(s, ReasonToReissue(s, s'))
    {
      ReasonIsGiven(s, s');
    }
  }

  lemma AgreesMeans(r: Ratification)
    ensures Agrees(r) <==> r.decision == "agree"
    ensures r.decision == "disagree" || r.decision == "recuse" ==> r.decision != "agree"
  {
    assert |"disagree"| == 8 && |"recuse"| == 6 && |"agree"| == 5;
  }

  lemma AgreementApproves(s: Store, q: Receipt, eventId: string)
    requires s.task.state == FinalReview && forall i :: 0 <= i < |s.events| ==> s.events[i].key != RatificationKey(q)
    requires q in s.submissions && s.submissions[q].artifact.RatificationArtifact?
    ensures Answered(s, AfterRatification(s, q, eventId), s.submissions[q].artifact.ratification)
  {
    hide RatificationKey, Answered, AfterRatification, Agrees;
    var r, key := s.submissions[q].artifact.ratification, RatificationKey(q);
    assert !KeyUsed(s.events, |s.events|, key);
    AgreesMeans(r);
    if Agrees(r) {
      AgreementGoes(s, q, eventId);
    } else {
      RefusalGoes(s, q, eventId);
    }
  }

  lemma AgreementGoes(s: Store, q: Receipt, eventId: string)
    requires s.task.state == FinalReview && !KeyUsed(s.events, |s.events|, RatificationKey(q))
    requires q in s.submissions && s.submissions[q].artifact.RatificationArtifact?
    requires Agrees(s.submissions[q].artifact.ratification)
    ensures Answered(s, AfterRatification(s, q, eventId), s.submissions[q].artifact.ratification)
  {
    var r, key := s.submissions[q].artifact.ratification, RatificationKey(q);
    AgreesMeans(r);
    ClosedExactly(s.rounds, s.task.currentRound);
    hide WithRound, Closed, KeyUsed, Attempted, RatificationKey, Agrees;
    SwapUsesKey(s, Plain(Approved, key, eventId).(appealDeadline := Some(s.now + APPEAL_WINDOW_MS),
                                                  activeFinal := r.primaryReceiptId));
    assert APPEAL_WINDOW_MS == 1_209_600_000;
  }

  lemma RefusalGoes(s: Store, q: Receipt, eventId: string)
    requires s.task.state == FinalReview && !KeyUsed(s.events, |s.events|, RatificationKey(q))
    requires q in s.submissions && s.submissions[q].artifact.RatificationArtifact?
    requires !Agrees(s.submissions[q].artifact.ratification)
    ensures Answered(s, AfterRatification(s, q, eventId), s.submissions[q].artifact.ratification)
  {
    var r, key := s.submissions[q].artifact.ratification, RatificationKey(q);
    AgreesMeans(r);
    hide KeyUsed, Attempted, RatificationKey, Agrees;
    SwapUsesKey(s, Plain(Escalated, key, eventId));
  }

  function ReissueKey(id: string, round: nat, reason: string): string {
    "reissue:" + id + ":" + RoundId(id, round) + ":" + reason
  }

  function RoundOpenKey(id: string, round: nat): string {
    "round-open:" + RoundId(id, round)
  }

  /** Neither key of the reissue has been used, as they name a round that is only now left. */
  predicate FreshKeys(events: seq<Event>, id: string, round: nat, reason: string) {
    && !KeyUsed(events, |events|, ReissueKey(id, round, reason))
    && !KeyUsed(events, |events|, RoundOpenKey(id, round + 1))
  }

  /** The three steps of a reissue that nothing interrupts. */
  ghost function AfterReissue(s: Store, id: string, reason: string, reissueId: string, openId: string): Store {
    var k := s.task.currentRound;
    var s1 := Swapped(s, s.task, Plain(Reissued, ReissueKey(id, k, reason), reissueId)).(roundDue := true);
    var s2 := NewRound(s1);
    Swapped(s2, s2.task, Plain(IndependentReview, RoundOpenKey(id, k + 1), openId))
  }

  // ---- What the checks of a submission establish

  predicate IsFilled(submissions: map<Receipt, Submission>, r: Receipt, role: Role, round: nat) {
    r in submissions && submissions[r].role == role && submissions[r].round == round
  }

  lemma BoundPacket(hash: Hash, p: Packet, a: Annotation)
    requires BoundAnnotation(hash, p, a)
    ensures PacketOk(p) && a.packetMerkleRoot == PacketRoot(hash, p)
  {
    hide PacketOk, PacketRoot, Covers;
  }

  lemma DecisionPacket(hash: Hash, x: Primary)
    requires BoundDecision(hash, x)
    ensures PacketOk(x.packet)
  {
    hide PacketOk, PacketRoot, Covers, Resolved, AnnotationRoot;
  }

  lemma RatificationPacket(hash: Hash, x: Primary, r: Ratification)
    requires BoundRatification(hash, x, r)
    ensures PacketOk(x.packet)
  {
    hide BoundDecision, PacketRoot, DecisionRoot, PacketOk;
    DecisionPacket(hash, x);
  }

  lemma SoundIs(hash: Hash, packet: Packet, role: Role, artifact: Artifact)
    ensures PortalChecks(hash, packet).sound(role, artifact) <==> Sound(hash, packet, role, artifact)
  {
    hide Sound;
  }

  lemma StoredAnnotation(hash: Hash, packet: Packet, s: Store, a: Receipt)
    requires ArtifactsOk(PortalChecks(hash, packet), s) && a in s.submissions
    requires s.submissions[a].role == A || s.submissions[a].role == B
    ensures s.submissions[a].artifact.AnnotationArtifact?
    ensures var x := s.submissions[a].artifact; PacketOk(x.packet) && x.annotation.packetMerkleRoot == PacketRoot(hash, x.packet)
  {
    hide BoundAnnotation, BoundDecision, BoundRatification, SamePacketRoot, PacketOk, PacketRoot;
    SoundIs(hash, packet, s.submissions[a].role, s.submissions[a].artifact);
    BoundPacket(hash, s.submissions[a].artifact.packet, s.submissions[a].artifact.annotation);
  }

  lemma NotGrounded(c: Checks, s: Store, round: nat, d: Decision)
    requires (forall r :: r in s.submissions ==> !IsFilled(s.submissions, r, A, round))
             || (forall r :: r in s.submissions ==> !IsFilled(s.submissions, r, B, round))
    ensures !Grounded(c, s, round, d)
  {
  }

  /** The A and B of a round are the only ones, so it is enough to look at them. */
  lemma GroundedBy(hash: Hash, packet: Packet, s: Store, round: nat, d: Decision, a: Receipt, b: Receipt)
    requires OnceOk(s) && Filled(s, a, A, round) && Filled(s, b, B, round)
    requires s.submissions[a].artifact.AnnotationArtifact? && s.submissions[b].artifact.AnnotationArtifact?
    ensures Grounded(PortalChecks(hash, packet), s, round, d) <==>
              DecidesBetween(hash, d, s.submissions[a].artifact.annotation, s.submissions[b].artifact.annotation)
  {
    var c := PortalChecks(hash, packet);
    DecidesIs(hash, packet, d, s.submissions[a].artifact.annotation, s.submissions[b].artifact.annotation);
    hide DecidesBetween, PortalChecks;
    if Grounded(c, s, round, d) {
      var x, y :| DecidesStored(c, s, round, d, x, y);
      assert x == a && y == b;
    } else {
      assert !DecidesStored(c, s, round, d, a, b);
    }
  }

  lemma RootOfBound(hash: Hash, packet: Packet, role: Role, artifact: Artifact) returns (d: Decision)
    requires Sound(hash, packet, role, artifact) && artifact.DecisionArtifact?
    ensures BoundDecision(hash, artifact.decided) && d == artifact.decided.adjudication
    ensures PortalChecks(hash, packet).root(d) == DecisionRoot(hash, d)
  {
    hide BoundDecision, SamePacketRoot, DecisionRoot;
    d := artifact.decided.adjudication;
  }

  // ---- Runs

  lemma NoSteps(c: Checks, s: Store)
    ensures Run(c, s, []) == s
  {
  }

  lemma RunOneMore(c: Checks, s: Store, steps: seq<Step>, e: Step)
    ensures Run(c, s, steps + [e]) == Next(c, Run(c, s, steps), e)
  {
    hide Next;
    assert (steps + [e])[..|steps|] == steps;
  }

  /** A release that the store allows is one step. */
  lemma ReleaseRuns(c: Checks, s: Store, a: Receipt, b: Receipt)
    requires Filled(s, a, A, s.task.currentRound) && Filled(s, b, B, s.task.currentRound)
    ensures Run(c, s, [Release(a, b)]) == s.(outbox := Released(s.outbox, {a, b}))
  {
    hide Released;
    NoSteps(c, s);
    RunOneMore(c, s, [], Release(a, b));
    assert [] + [Release(a, b)] == [Release(a, b)];
  }

  /** A call with a fresh read is one step. */
  lemma AttemptRuns(c: Checks, s0: Store, steps: seq<Step>, s: Store, request: Request, key: string, eventId: string)
    requires s == Run(c, s0, steps) && LogOk(s) && Justified(s, s.task, request) && !request.Reissue?
    ensures Run(c, s0, steps + [Attempt(s.task, |s.events|, request, key, eventId)])
            == Attempted(s, s.task, |s.events|, TransitionFor(c, s, s.task, request, key, eventId))
  {
    hide TransitionFor, Goes, Swapped, Justified, Path, DistinctKeys, Run;
    RunOneMore(c, s0, steps, Attempt(s.task, |s.events|, request, key, eventId));
    NotReissue(s, s.task, TransitionFor(c, s, s.task, request, key, eventId));
  }

  lemma NotReissue(s: Store, seen: TaskRow, t: Transition)
    ensures Swapped(s, seen, t).(roundDue := s.roundDue || false) == Swapped(s, seen, t)
  {
  }

  lemma CloseRuns(c: Checks, s0: Store, steps: seq<Step>, s: Store, round: nat, q: Receipt)
    requires s == Run(c, s0, steps) && round in s.rounds && Filled(s, q, J2, round)
    ensures Run(c, s0, steps + [CloseRound(round)]) == s.(rounds := WithRound(s.rounds, round, Closed))
  {
    hide WithRound, Closed, Run;
    RunOneMore(c, s0, steps, CloseRound(round));
  }

  lemma QuorumIsJustified(c: Checks, s0: Store, s: Store, a: Receipt, b: Receipt, key: string, eventId: string)
    requires LogOk(s0) && s == s0.(outbox := s.outbox) && s.task.state == IndependentReview
    requires Filled(s0, a, A, s.task.currentRound) && Filled(s0, b, B, s.task.currentRound)
    ensures LogOk(s) && Justified(s, s.task, ReachQuorum(a, b))
    ensures TransitionFor(c, s, s.task, ReachQuorum(a, b), key, eventId) == Plain(Discussion, key, eventId)
  {
    hide Path, DistinctKeys;
  }

  lemma ProposalIsJustified(c: Checks, s: Store, p: Receipt, novel: nat, key: string, eventId: string)
    requires s.task.state == Discussion && Filled(s, p, J1, s.task.currentRound) && s.submissions[p].artifact.DecisionArtifact?
    requires novel == c.novel(s.submissions[p].artifact.decided)
    ensures Justified(s, s.task, Propose(p))
    ensures TransitionFor(c, s, s.task, Propose(p), key, eventId) == Plain(if novel > 0 then Escalated else FinalReview, key, eventId)
  {
  }

  lemma RatificationIsJustified(c: Checks, s: Store, q: Receipt, key: string, eventId: string)
    requires s.task.state == FinalReview && Filled(s, q, J2, s.task.currentRound) && s.submissions[q].artifact.RatificationArtifact?
    ensures Justified(s, s.task, Ratify(q, s.now))
    ensures var r := s.submissions[q].artifact.ratification;
            TransitionFor(c, s, s.task, Ratify(q, s.now), key, eventId)
            == if Agrees(r) then
                 Plain(Approved, key, eventId).(appealDeadline := Some(s.now + APPEAL_WINDOW_MS), activeFinal := r.primaryReceiptId)
               else Plain(Escalated, key, eventId)
  {
  }

  lemma RoundStands(s0: Store, s1: Store, round: nat, q: Receipt)
    requires RowsOk(s0) && round == s0.task.currentRound && Filled(s0, q, J2, round)
    requires s1.rounds == s0.rounds && s1.submissions == s0.submissions
    ensures round in s1.rounds && Filled(s1, q, J2, round)
  {
  }

  // ---- Stored evidence can always be compared

  lemma ComparableAnnotations(hash: Hash, packet: Packet, s: Store, a: Receipt, b: Receipt)
    requires ArtifactsOk(PortalChecks(hash, packet), s) && Injective(hash)
    requires Filled(s, a, A, s.task.currentRound) && Filled(s, b, B, s.task.currentRound)
    requires s.submissions[a].artifact.AnnotationArtifact? && s.submissions[b].artifact.AnnotationArtifact?
    ensures I.Comparable(s.submissions[a].artifact.annotation.sentences, s.submissions[b].artifact.annotation.sentences)
  {
    SoundAnnotation(hash, packet, s, a);
    SoundAnnotation(hash, packet, s, b);
    hide *;
    var x, y := s.submissions[a].artifact, s.submissions[b].artifact;
    PacketRootFixes(hash, x.packet, y.packet);
    I.CoveredIsComparable(x.packet, x.annotation.sentences, y.annotation.sentences);
  }

  lemma SoundAnnotation(hash: Hash, packet: Packet, s: Store, a: Receipt)
    requires ArtifactsOk(PortalChecks(hash, packet), s) && a in s.submissions && s.submissions[a].artifact.AnnotationArtifact?
    ensures var x := s.submissions[a].artifact;
            PacketOk(x.packet) && Covers(x.packet, x.annotation.sentences) && PacketRoot(hash, x.packet) == PacketRoot(hash, packet)
  {
    SoundIs(hash, packet, s.submissions[a].role, s.submissions[a].artifact);
    hide PacketOk, Covers, PacketRoot, BoundDecision, BoundRatification;
  }

  lemma StoredAnnotations(hash: Hash, packet: Packet, s: Store, a: Receipt, b: Receipt)
    requires Inv(PortalChecks(hash, packet), s) && Filled(s, a, A, s.task.currentRound) && Filled(s, b, B, s.task.currentRound)
    ensures s.submissions[a].artifact.AnnotationArtifact? && s.submissions[b].artifact.AnnotationArtifact?
  {
    InvParts(PortalChecks(hash, packet), s);
    hide Inv;
    StoredAnnotation(hash, packet, s, a);
    StoredAnnotation(hash, packet, s, b);
  }

  lemma StoredDecision(hash: Hash, packet: Packet, s: Store, p: Receipt)
    requires ArtifactsOk(PortalChecks(hash, packet), s) && p in s.submissions && s.submissions[p].role == J1
    ensures s.submissions[p].artifact.DecisionArtifact? && BoundDecision(hash, s.submissions[p].artifact.decided)
  {
    hide BoundDecision, BoundAnnotation, BoundRatification, SamePacketRoot;
    SoundIs(hash, packet, J1, s.submissions[p].artifact);
  }

  lemma StoredRatification(hash: Hash, packet: Packet, s: Store, q: Receipt)
    requires ArtifactsOk(PortalChecks(hash, packet), s) && q in s.submissions && s.submissions[q].role == J2
    ensures s.submissions[q].artifact.RatificationArtifact?
  {
    hide BoundDecision, BoundAnnotation, BoundRatification, SamePacketRoot, PortalChecks;
  }

  lemma StoredAnswer(hash: Hash, packet: Packet, s: Store, q: Receipt)
    requires ArtifactsOk(PortalChecks(hash, packet), s) && q in s.submissions && s.submissions[q].artifact.RatificationArtifact?
    ensures s.submissions[q].artifact.ratification.decision in {"agree", "disagree", "recuse"}
  {
    SoundIs(hash, packet, s.submissions[q].role, s.submissions[q].artifact);
    hide BoundRatification, BoundDecision, BoundAnnotation, SamePacketRoot, PortalChecks;
    AnswerOfBound(hash, s.submissions[q].artifact.ratified, s.submissions[q].artifact.ratification);
  }

  lemma AnswerOfBound(hash: Hash, x: Primary, r: Ratification)
    requires BoundRatification(hash, x, r)
    ensures r.decision in {"agree", "disagree", "recuse"}
  {
    hide BoundDecision, PacketRoot, DecisionRoot, Utf16Length;
  }

  lemma ComparableDecision(hash: Hash, x: Primary)
    requires BoundDecision(hash, x)
    ensures N.DistinctUnits(N.Entries(x.annotationA.sentences)) && N.DistinctUnits(N.Entries(x.annotationB.sentences))
            && N.DistinctUnits(N.Entries(x.adjudication.sentences))
    ensures N.SameUnits(x.adjudication.sentences, x.annotationA.sentences)
            && N.SameUnits(x.adjudication.sentences, x.annotationB.sentences)
  {
    hide PacketOk, Covers, Resolved, PacketRoot, AnnotationRoot, N.DistinctUnits, N.SameUnits, N.Entries;
    N.CoveredIsComparable(x.packet, x.annotationA.sentences, x.annotationB.sentences, x.adjudication.sentences);
  }

  lemma NovelIs(hash: Hash, packet: Packet, x: Primary)
    ensures PortalChecks(hash, packet).novel(x)
            == |N.NovelUnits(x.annotationA.sentences, x.annotationB.sentences, N.Entries(x.adjudication.sentences))|
  {
    hide N.NovelUnits, N.Entries;
  }

  /** A reissue that nothing interrupts is three steps of the protocol. */
  lemma ReissueIsARun(c: Checks, s: Store, id: string, reason: string, reissueId: string, openId: string) returns (steps: seq<Step>)
    requires LogOk(s) && RowsOk(s) && (s.task.state == Escalated || s.task.state == Revoked)
    requires FreshKeys(s.events, id, s.task.currentRound, reason)
    ensures Run(c, s, steps) == AfterReissue(s, id, reason, reissueId, openId)
  {
    hide *;
    var k := s.task.currentRound;
    var t := Plain(Reissued, ReissueKey(id, k, reason), reissueId);
    var u := Plain(IndependentReview, RoundOpenKey(id, k + 1), openId);
    var s1 := Swapped(s, s.task, t).(roundDue := true);
    var s2 := NewRound(s1);
    PlainIs(Reissued, ReissueKey(id, k, reason), reissueId);
    PlainIs(IndependentReview, RoundOpenKey(id, k + 1), openId);
    ReissueGoes(s, id, reason, reissueId, openId);
    SwappedLength(s, t);
    NewRoundKeepsLength(s1);
    LengthOfLog(s);
    NoSteps(c, s);
    FirstOfReissue(c, s, t, reissueId);
    SecondOfReissue(c, s1);
    ThirdOfReissue(c, s2, u, openId);
    AfterReissueIs(s, id, reason, reissueId, openId);
    var e1 := Attempt(s.task, |s.events|, Reissue, t.key, reissueId);
    var e3 := Attempt(s2.task, |s2.events|, OpenReissued, u.key, openId);
    RunOneMore(c, s, [], e1);
    RunOneMore(c, s, [e1], OpenRound);
    RunOneMore(c, s, [e1, OpenRound], e3);
    assert [] + [e1] == [e1] && [e1] + [OpenRound] == [e1, OpenRound];
    steps := [e1, OpenRound] + [e3];
  }

  lemma PlainIs(next: State, key: string, eventId: string)
    ensures Plain(next, key, eventId).key == key && Plain(next, key, eventId).next == next
  {
  }

  lemma LengthOfLog(s: Store)
    requires LogOk(s)
    ensures |s.events| == s.task.stateVersion + 1
  {
    hide Path, DistinctKeys;
  }

  lemma SwappedLength(s: Store, t: Transition)
    ensures var s' := Swapped(s, s.task, t);
            |s'.events| == |s.events| + 1 && s'.task.stateVersion == s.task.stateVersion + 1 && s'.past == s.past + {s'.task}
  {
  }

  lemma NewRoundKeepsLength(s: Store)
    ensures NewRound(s).events == s.events && NewRound(s).task in NewRound(s).past && !NewRound(s).roundDue
    ensures NewRound(s).task == s.task.(currentRound := s.task.currentRound + 1)
  {
    hide WithRound, Superseded, Withdrawn;
  }

  lemma AfterReissueIs(s: Store, id: string, reason: string, reissueId: string, openId: string)
    ensures var k := s.task.currentRound;
            var s1 := Swapped(s, s.task, Plain(Reissued, ReissueKey(id, k, reason), reissueId)).(roundDue := true);
            AfterReissue(s, id, reason, reissueId, openId)
            == Swapped(NewRound(s1), NewRound(s1).task, Plain(IndependentReview, RoundOpenKey(id, k + 1), openId))
  {
  }

  lemma FirstOfReissue(c: Checks, s: Store, t: Transition, eventId: string)
    requires LogOk(s) && (s.task.state == Escalated || s.task.state == Revoked)
    requires t == Plain(Reissued, t.key, eventId) && Swaps(s, s.task, t) && !KeyUsed(s.events, |s.events|, t.key)
    ensures Next(c, s, Attempt(s.task, |s.events|, Reissue, t.key, eventId)) == Swapped(s, s.task, t).(roundDue := true)
  {
    hide Path, DistinctKeys, Swapped;
  }

  lemma SecondOfReissue(c: Checks, s: Store)
    requires s.roundDue && s.task.state == Reissued && s.task.currentRound + 1 !in s.rounds
    ensures Next(c, s, OpenRound) == NewRound(s)
  {
    hide NewRound;
  }

  lemma ThirdOfReissue(c: Checks, s: Store, u: Transition, eventId: string)
    requires s.task in s.past && s.task.state == Reissued && !s.roundDue && |s.events| == s.task.stateVersion + 1
    requires u == Plain(IndependentReview, u.key, eventId) && Swaps(s, s.task, u) && !KeyUsed(s.events, |s.events|, u.key)
    ensures Next(c, s, Attempt(s.task, |s.events|, OpenReissued, u.key, eventId)) == Swapped(s, s.task, u)
  {
    hide SwappedRow;
  }
}
