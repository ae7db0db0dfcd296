/** What every step of the protocol keeps. */
module ConsensusInvariant {
  import opened Options
  import opened ConsensusStates
  import opened ConsensusStore
  import opened ConsensusProtocol
  import opened Evidence
  import opened EvidenceRoots

  /** Every stored artifact passed its checks. */
  ghost predicate ArtifactsOk(c: Checks, s: Store) {
    forall r :: r in s.submissions ==>
      && Shaped(s.submissions[r].role, s.submissions[r].artifact)
      && c.sound(s.submissions[r].role, s.submissions[r].artifact)
      && 1 <= s.submissions[r].round <= s.task.currentRound
  }

  /** Nobody takes part twice, and no role of a round is filled twice. */
  ghost predicate OnceOk(s: Store) {
    forall q, r :: q in s.submissions && r in s.submissions && q != r ==>
      && s.submissions[q].user != s.submissions[r].user
      && (s.submissions[q].role != s.submissions[r].role || s.submissions[q].round != s.submissions[r].round)
  }

  /** A result is what a J1 of its round decided. */
  ghost predicate FinalOk(c: Checks, s: Store, q: Receipt)
    requires q in s.finals
  {
    && Filled(s, q, J1, s.finals[q].round) && s.submissions[q].artifact.DecisionArtifact?
    && s.finals[q].root == c.root(s.submissions[q].artifact.decided.adjudication)
  }

  ghost predicate FinalsOk(c: Checks, s: Store) {
    forall q :: q in s.finals ==> FinalOk(c, s, q)
  }

  /** Every J1 decided between the stored A and B of its round. */
  ghost predicate GroundedOk(c: Checks, s: Store) {
    forall r :: r in s.submissions && s.submissions[r].role == J1 ==>
      s.submissions[r].artifact.DecisionArtifact?
      && Grounded(c, s, s.submissions[r].round, s.submissions[r].artifact.decided.adjudication)
  }

  /** J2's signature names a result of its round and carries its root. */
  predicate Signs(s: Store, r: Receipt)
    requires r in s.submissions
  {
    && s.submissions[r].artifact.RatificationArtifact?
    && (var ratification := s.submissions[r].artifact.ratification;
        && ratification.primaryReceiptId.Some? && ratification.primaryReceiptId.value in s.finals
        && s.finals[ratification.primaryReceiptId.value].round == s.submissions[r].round
        && s.finals[ratification.primaryReceiptId.value].root == ratification.primaryAdjudicationMerkleRoot)
  }

  ghost predicate SignedOk(s: Store) {
    forall r :: r in s.submissions && s.submissions[r].role == J2 ==> Signs(s, r)
  }

  /** The rounds so far are 1 to the current one. A row that was read at this version is the
      row as it stands, but for the round number while a reissue is under way. */
  ghost predicate RowsOk(s: Store) {
    && s.task.currentRound >= 1
    && (forall k :: k in s.rounds <==> 1 <= k <= s.task.currentRound)
    && (s.roundDue ==> s.task.state == Reissued)
    && forall row :: row in s.past && row.stateVersion == s.task.stateVersion ==>
         && row == s.task.(currentRound := row.currentRound)
         && (row.state != Reissued ==> row.currentRound == s.task.currentRound)
  }

  ghost predicate Proposal(c: Checks, s: Store, p: Receipt) {
    && Filled(s, p, J1, s.task.currentRound) && s.submissions[p].artifact.DecisionArtifact?
    && c.novel(s.submissions[p].artifact.decided) == 0
  }

  ghost predicate Approval(c: Checks, s: Store, p: Receipt, q: Receipt) {
    && Proposal(c, s, p)
    && Filled(s, q, J2, s.task.currentRound) && s.submissions[q].artifact.RatificationArtifact?
    && Agrees(s.submissions[q].artifact.ratification)
    && s.submissions[q].artifact.ratification.primaryReceiptId == Some(p)
    && s.task.activeFinal == Some(p)
  }

  /** A task is in final review only on a proposal without novel decisions, and approved or
      published only on an agreement with such a proposal. */
  ghost predicate StageOk(c: Checks, s: Store) {
    && (s.task.state == FinalReview ==> exists p :: Proposal(c, s, p))
    && (s.task.state == Approved || s.task.state == Published ==> exists p, q :: Approval(c, s, p, q))
  }

  ghost predicate PublicationOk(s: Store) {
    && (s.task.state == Approved || s.task.state == Published ==> s.task.appealDeadline.Some?)
    && (s.task.state == Published ==> s.task.appealDeadline.value <= s.now && NoAppealPending(s.appeals))
  }

  ghost predicate QuorumStored(s: Store, round: nat) {
    exists a, b :: Filled(s, a, A, round) && Filled(s, b, B, round)
  }

  /** The evidence of an independent annotation that has left its hold to be delivered. */
  predicate LetOut(s: Store, r: Receipt)
    requires r in s.outbox && r in s.submissions
  {
    (s.submissions[r].role == A || s.submissions[r].role == B) && s.outbox[r] != Held && s.outbox[r] != Cancelled
  }

  /** Independent evidence is held, or withdrawn, until both annotations of its round exist. */
  ghost predicate BlindOk(s: Store) {
    && (forall r :: r in s.outbox ==> r in s.submissions)
    && forall r :: r in s.outbox && LetOut(s, r) ==> QuorumStored(s, s.submissions[r].round)
  }

  ghost predicate Inv(c: Checks, s: Store) {
    && LogOk(s) && RowsOk(s)
    && ArtifactsOk(c, s) && OnceOk(s)
    && FinalsOk(c, s) && GroundedOk(c, s) && SignedOk(s)
    && StageOk(c, s) && PublicationOk(s) && BlindOk(s)
  }

  lemma RegisteredInv(c: Checks, eventId: string, now: int)
    ensures Inv(c, Registered(eventId, now))
  {
    RegisteredLogOk(eventId, now);
  }

  // ---- The shape of a step

  ghost predicate Grows(s: Store, s': Store) {
    forall r :: r in s.submissions ==> r in s'.submissions && s'.submissions[r] == s.submissions[r]
  }

  /** Only the compare-and-swap and a new round touch the row, the log and the rounds owed. */
  ghost predicate SameRow(s: Store, s': Store) {
    && s'.task == s.task && s'.past == s.past && s'.events == s.events && s'.roundDue == s.roundDue
    && s'.rounds.Keys == s.rounds.Keys
  }

  lemma QuietStep(c: Checks, s: Store, e: Step)
    requires !e.Attempt? && !e.OpenRound? && Enabled(c, s, e)
    ensures SameRow(s, Effect(c, s, e)) && Grows(s, Effect(c, s, e))
  {
    hide Grounded, Answers;
  }

  /** Results keep their round and root. */
  ghost predicate FinalsGrow(s: Store, s': Store) {
    forall q :: q in s.finals ==>
      q in s'.finals && s'.finals[q].round == s.finals[q].round && s'.finals[q].root == s.finals[q].root
  }

  lemma SubmittedShape(c: Checks, s: Store, user: string, receipt: Receipt, role: Role, artifact: Artifact)
    requires MaySubmit(c, s, user, receipt, role, artifact)
    ensures role == J1 ==> artifact.DecisionArtifact?
    ensures role == J2 ==> artifact.RatificationArtifact? && Answers(s, artifact.ratification)
    ensures Shaped(role, artifact) && c.sound(role, artifact) && receipt !in s.submissions && s.task.currentRound in s.rounds
    ensures RoleAllowed(role, s.task.state)
    ensures forall r :: r in s.submissions ==> s.submissions[r].user != user && !Filled(s, r, role, s.task.currentRound)
    ensures role == J1 ==> Grounded(c, s, s.task.currentRound, artifact.decided.adjudication)
  {
    hide Grounded;
  }

  lemma {:induction false} GroundedGrows(c: Checks, s: Store, s': Store, round: nat, d: Decision)
    requires Grows(s, s') && Grounded(c, s, round, d)
    ensures Grounded(c, s', round, d)
  {
        var a, b :| DecidesStored(c, s, round, d, a, b);
    assert DecidesStored(c, s', round, d, a, b);
  }

  // ---- Submissions

  lemma SubmitKeepsArtifacts(c: Checks, s: Store, user: string, receipt: Receipt, role: Role, artifact: Artifact)
    requires MaySubmit(c, s, user, receipt, role, artifact) && ArtifactsOk(c, s) && RowsOk(s) && OnceOk(s)
    ensures var s' := Submitted(c, s, user, receipt, role, artifact); ArtifactsOk(c, s') && OnceOk(s')
  {
    SubmittedShape(c, s, user, receipt, role, artifact);
    hide MaySubmit, Grounded, Answers;
  }

  lemma FinalsCarry(c: Checks, s: Store, s': Store)
    requires FinalsOk(c, s) && Grows(s, s') && FinalsGrow(s, s')
    ensures forall q :: q in s.finals ==> q in s'.finals && FinalOk(c, s', q)
  {
  }

  lemma FinalsAfterGrow(c: Checks, s: Store, user: string, receipt: Receipt, role: Role, artifact: Artifact)
    requires receipt !in s.finals
    ensures FinalsGrow(s, Submitted(c, s, user, receipt, role, artifact))
    ensures forall q :: q in FinalsAfter(c, s, receipt, artifact) && q !in s.finals ==> q == receipt && artifact.DecisionArtifact?
  {
  }

  lemma SubmittedGrows(c: Checks, s: Store, user: string, receipt: Receipt, role: Role, artifact: Artifact)
    requires receipt !in s.submissions
    ensures Grows(s, Submitted(c, s, user, receipt, role, artifact))
  {
    hide FinalsAfter;
  }

  lemma NoFinalYet(c: Checks, s: Store, receipt: Receipt)
    requires FinalsOk(c, s) && receipt !in s.submissions
    ensures receipt !in s.finals
  {
  }

  lemma NewFinalOk(c: Checks, s: Store, user: string, receipt: Receipt, artifact: Artifact)
    requires artifact.DecisionArtifact?
    ensures var s' := Submitted(c, s, user, receipt, J1, artifact); receipt in s'.finals && FinalOk(c, s', receipt)
  {
  }

  lemma SubmitKeepsFinals(c: Checks, s: Store, user: string, receipt: Receipt, role: Role, artifact: Artifact)
    requires MaySubmit(c, s, user, receipt, role, artifact) && FinalsOk(c, s)
    ensures var s' := Submitted(c, s, user, receipt, role, artifact); FinalsOk(c, s') && FinalsGrow(s, s')
  {
    hide MaySubmit, Grounded, Answers, FinalOk, FinalsGrow, Grows, FinalsAfter;
    SubmittedShape(c, s, user, receipt, role, artifact);
    NoFinalYet(c, s, receipt);
    SubmittedGrows(c, s, user, receipt, role, artifact);
    FinalsAfterGrow(c, s, user, receipt, role, artifact);
    FinalsCarry(c, s, Submitted(c, s, user, receipt, role, artifact));
    if role == J1 {
      NewFinalOk(c, s, user, receipt, artifact);
    }
  }

  lemma GroundedAfter(c: Checks, s: Store, s': Store, receipt: Receipt)
    requires GroundedOk(c, s) && Grows(s, s') && s'.submissions.Keys == s.submissions.Keys + {receipt}
    requires receipt in s'.submissions && s'.submissions[receipt].role == J1 ==>
               s'.submissions[receipt].artifact.DecisionArtifact?
               && Grounded(c, s, s'.submissions[receipt].round, s'.submissions[receipt].artifact.decided.adjudication)
    ensures GroundedOk(c, s')
  {
    hide Grounded;
    forall r | r in s'.submissions && s'.submissions[r].role == J1
      ensures s'.submissions[r].artifact.DecisionArtifact?
              && Grounded(c, s', s'.submissions[r].round, s'.submissions[r].artifact.decided.adjudication)
    {
      assert r in s'.submissions.Keys;
      GroundedGrows(c, s, s', s'.submissions[r].round, s'.submissions[r].artifact.decided.adjudication);
    }
  }

  lemma SignedAfter(s: Store, s': Store, receipt: Receipt)
    requires SignedOk(s) && Grows(s, s') && FinalsGrow(s, s') && s'.submissions.Keys == s.submissions.Keys + {receipt}
    requires receipt in s'.submissions && s'.submissions[receipt].role == J2 ==> Signs(s', receipt)
    ensures SignedOk(s')
  {
    forall r | r in s'.submissions && s'.submissions[r].role == J2 ensures Signs(s', r) {
      assert r in s'.submissions.Keys;
      if r in s.submissions {
        assert Signs(s, r);
      }
    }
  }

  lemma AnswerSigns(c: Checks, s: Store, user: string, receipt: Receipt, artifact: Artifact)
    requires artifact.RatificationArtifact? && Answers(s, artifact.ratification)
    ensures var s' := Submitted(c, s, user, receipt, J2, artifact); receipt in s'.submissions && Signs(s', receipt)
  {
  }

  lemma SubmittedIs(c: Checks, s: Store, user: string, receipt: Receipt, role: Role, artifact: Artifact)
    ensures var s' := Submitted(c, s, user, receipt, role, artifact);
            && s'.submissions.Keys == s.submissions.Keys + {receipt}
            && receipt in s'.submissions && s'.submissions[receipt] == Submission(user, role, s.task.currentRound, artifact)
  {
    hide FinalsAfter;
  }

  lemma SubmitKeepsChains(c: Checks, s: Store, user: string, receipt: Receipt, role: Role, artifact: Artifact)
    requires MaySubmit(c, s, user, receipt, role, artifact) && FinalsOk(c, s) && GroundedOk(c, s) && SignedOk(s)
    ensures var s' := Submitted(c, s, user, receipt, role, artifact); GroundedOk(c, s') && SignedOk(s')
  {
    hide *;
    var s' := Submitted(c, s, user, receipt, role, artifact);
    SubmittedShape(c, s, user, receipt, role, artifact);
    SubmittedIs(c, s, user, receipt, role, artifact);
    SubmittedGrows(c, s, user, receipt, role, artifact);
    SubmitKeepsFinals(c, s, user, receipt, role, artifact);
    GroundedAfter(c, s, s', receipt);
    if role == J2 {
      AnswerSigns(c, s, user, receipt, artifact);
    }
    SignedAfter(s, s', receipt);
  }

  // ---- Records of steps that submit nothing

  ghost predicate RecordsOk(c: Checks, s: Store) {
    ArtifactsOk(c, s) && OnceOk(s) && FinalsOk(c, s) && GroundedOk(c, s) && SignedOk(s)
  }

  lemma GroundedCarries(c: Checks, s: Store, s': Store)
    requires GroundedOk(c, s) && s'.submissions == s.submissions
    ensures GroundedOk(c, s')
  {
    hide Grounded;
    forall r | r in s'.submissions && s'.submissions[r].role == J1
      ensures s'.submissions[r].artifact.DecisionArtifact?
              && Grounded(c, s', s'.submissions[r].round, s'.submissions[r].artifact.decided.adjudication)
    {
      GroundedGrows(c, s, s', s'.submissions[r].round, s'.submissions[r].artifact.decided.adjudication);
    }
  }

  lemma SignedCarries(s: Store, s': Store)
    requires SignedOk(s) && s'.submissions == s.submissions && FinalsGrow(s, s')
    ensures SignedOk(s')
  {
    forall r | r in s'.submissions && s'.submissions[r].role == J2 ensures Signs(s', r) {
      assert Signs(s, r);
    }
  }

  lemma ArtifactsCarry(c: Checks, s: Store, s': Store)
    requires ArtifactsOk(c, s) && OnceOk(s) && s'.submissions == s.submissions && s'.task.currentRound >= s.task.currentRound
    ensures ArtifactsOk(c, s') && OnceOk(s')
  {
  }

  lemma SameFinals(c: Checks, s: Store, s': Store)
    requires FinalsOk(c, s) && s'.submissions == s.submissions && FinalsGrow(s, s') && s'.finals.Keys == s.finals.Keys
    ensures FinalsOk(c, s')
  {
    FinalsCarry(c, s, s');
    hide FinalOk;
    assert forall q :: q in s'.finals <==> q in s'.finals.Keys;
  }

  lemma RecordsCarry(c: Checks, s: Store, s': Store)
    requires RecordsOk(c, s) && s'.submissions == s.submissions && FinalsGrow(s, s') && s'.finals.Keys == s.finals.Keys
    requires s'.task.currentRound >= s.task.currentRound
    ensures RecordsOk(c, s')
  {
    hide ArtifactsOk, OnceOk, FinalsOk, GroundedOk, SignedOk, FinalsGrow;
    ArtifactsCarry(c, s, s');
    GroundedCarries(c, s, s');
    SignedCarries(s, s');
    SameFinals(c, s, s');
  }

  lemma StageCarries(c: Checks, s: Store, s': Store)
    requires StageOk(c, s) && Grows(s, s') && s'.task == s.task
    ensures StageOk(c, s')
  {
    if s.task.state == FinalReview {
      var p :| Proposal(c, s, p);
      assert Proposal(c, s', p);
    }
    if s.task.state == Approved || s.task.state == Published {
      var p, q :| Approval(c, s, p, q);
      assert Approval(c, s', p, q);
    }
  }

  lemma QuorumCarries(s: Store, s': Store)
    requires Grows(s, s')
    ensures forall k :: QuorumStored(s, k) ==> QuorumStored(s', k)
  {
    forall k | QuorumStored(s, k) ensures QuorumStored(s', k) {
      var a, b :| Filled(s, a, A, k) && Filled(s, b, B, k);
      assert Filled(s', a, A, k) && Filled(s', b, B, k);
    }
  }

  // ---- Each kind of step

  lemma SubmitKeepsBlind(c: Checks, s: Store, user: string, receipt: Receipt, role: Role, artifact: Artifact)
    requires receipt !in s.submissions && BlindOk(s)
    ensures BlindOk(Submitted(c, s, user, receipt, role, artifact))
  {
    var s' := Submitted(c, s, user, receipt, role, artifact);
    SubmittedGrows(c, s, user, receipt, role, artifact);
    QuorumCarries(s, s');
    hide FinalsAfter, QuorumStored, Grows;
    forall r | r in s'.outbox && LetOut(s', r) ensures QuorumStored(s', s'.submissions[r].round) {
      if r != receipt {
        assert LetOut(s, r);
      }
    }
  }

  lemma SubmitKeepsRest(c: Checks, s: Store, user: string, receipt: Receipt, role: Role, artifact: Artifact)
    requires receipt !in s.submissions && StageOk(c, s) && PublicationOk(s) && BlindOk(s) && RowsOk(s)
    ensures var s' := Submitted(c, s, user, receipt, role, artifact);
            StageOk(c, s') && PublicationOk(s') && BlindOk(s') && RowsOk(s')
  {
    var s' := Submitted(c, s, user, receipt, role, artifact);
    SubmitKeepsBlind(c, s, user, receipt, role, artifact);
    SubmittedGrows(c, s, user, receipt, role, artifact);
    StageCarries(c, s, s');
    hide FinalsAfter, StageOk, QuorumStored, BlindOk, Grows;
  }

  lemma SubmitKeeps(c: Checks, s: Store, e: Step)
    requires e.Submit? && Inv(c, s) && Enabled(c, s, e)
    ensures Inv(c, Effect(c, s, e))
  {
    hide *;
    InvParts(c, s);
    SubmitEnabled(c, s, e);
    SubmittedShape(c, s, e.user, e.receipt, e.role, e.artifact);
    SubmitKeepsArtifacts(c, s, e.user, e.receipt, e.role, e.artifact);
    SubmitKeepsFinals(c, s, e.user, e.receipt, e.role, e.artifact);
    SubmitKeepsChains(c, s, e.user, e.receipt, e.role, e.artifact);
    SubmitKeepsRest(c, s, e.user, e.receipt, e.role, e.artifact);
    SubmitKeepsLog(c, s, e.user, e.receipt, e.role, e.artifact);
    InvFrom(c, Effect(c, s, e));
  }

  lemma SubmitEnabled(c: Checks, s: Store, e: Step)
    requires e.Submit? && Enabled(c, s, e)
    ensures MaySubmit(c, s, e.user, e.receipt, e.role, e.artifact)
    ensures Effect(c, s, e) == Submitted(c, s, e.user, e.receipt, e.role, e.artifact)
  {
    hide MaySubmit, Submitted;
  }

  lemma SubmitKeepsLog(c: Checks, s: Store, user: string, receipt: Receipt, role: Role, artifact: Artifact)
    requires LogOk(s)
    ensures LogOk(Submitted(c, s, user, receipt, role, artifact))
  {
    hide FinalsAfter, Path, DistinctKeys;
  }

  lemma InvParts(c: Checks, s: Store)
    requires Inv(c, s)
    ensures LogOk(s) && RowsOk(s) && ArtifactsOk(c, s) && OnceOk(s) && FinalsOk(c, s) && GroundedOk(c, s) && SignedOk(s)
    ensures RecordsOk(c, s) && StageOk(c, s) && PublicationOk(s) && BlindOk(s)
  {
    hide LogOk, RowsOk, ArtifactsOk, OnceOk, FinalsOk, GroundedOk, SignedOk, StageOk, PublicationOk, BlindOk;
  }

  lemma InvFrom(c: Checks, s: Store)
    requires LogOk(s) && RowsOk(s) && ArtifactsOk(c, s) && OnceOk(s) && FinalsOk(c, s) && GroundedOk(c, s) && SignedOk(s)
    requires StageOk(c, s) && PublicationOk(s) && BlindOk(s)
    ensures Inv(c, s)
  {
    hide LogOk, RowsOk, ArtifactsOk, OnceOk, FinalsOk, GroundedOk, SignedOk, StageOk, PublicationOk, BlindOk;
  }

  lemma RecordsParts(c: Checks, s: Store)
    requires RecordsOk(c, s)
    ensures ArtifactsOk(c, s) && OnceOk(s) && FinalsOk(c, s) && GroundedOk(c, s) && SignedOk(s)
  {
    hide ArtifactsOk, OnceOk, FinalsOk, GroundedOk, SignedOk;
  }

  /** The steps that are neither a submission nor a transition nor a new round. */
  lemma QuietKeeps(c: Checks, s: Store, e: Step)
    requires !e.Submit? && !e.Attempt? && !e.OpenRound? && Inv(c, s) && Enabled(c, s, e)
    ensures Inv(c, Effect(c, s, e))
  {
    var s' := Effect(c, s, e);
    hide *;
    InvParts(c, s);
    QuietStep(c, s, e);
    QuietRecords(c, s, e);
    RecordsCarry(c, s, s');
    RecordsParts(c, s');
    QuietRows(s, s');
    StageCarries(c, s, s');
    QuietPublication(c, s, e);
    QuietBlind(c, s, e);
    InvFrom(c, s');
  }

  lemma QuietRecords(c: Checks, s: Store, e: Step)
    requires !e.Submit? && !e.Attempt? && !e.OpenRound? && Enabled(c, s, e)
    ensures var s' := Effect(c, s, e);
            && s'.submissions == s.submissions && FinalsGrow(s, s') && s'.finals.Keys == s.finals.Keys
            && s'.task == s.task
  {
  }

  lemma QuietRows(s: Store, s': Store)
    requires LogOk(s) && RowsOk(s) && SameRow(s, s')
    ensures LogOk(s') && RowsOk(s')
  {
    hide Path, DistinctKeys;
    assert forall k :: k in s'.rounds <==> k in s'.rounds.Keys;
    assert forall k :: k in s.rounds <==> k in s.rounds.Keys;
  }

  lemma QuietPublication(c: Checks, s: Store, e: Step)
    requires !e.Submit? && !e.Attempt? && !e.OpenRound? && Enabled(c, s, e) && PublicationOk(s)
    ensures PublicationOk(Effect(c, s, e))
  {
  }

  /** Evidence may be let out only where it was out already, or where the quorum is stored. */
  lemma BlindFrom(s: Store, s': Store)
    requires BlindOk(s) && s'.submissions == s.submissions && s'.outbox.Keys == s.outbox.Keys
    requires forall r :: r in s.outbox && r in s.submissions && LetOut(s', r) ==>
               LetOut(s, r) || QuorumStored(s, s.submissions[r].round)
    ensures BlindOk(s')
  {
    assert Grows(s, s');
    QuorumCarries(s, s');
    hide QuorumStored, LetOut;
    assert forall r :: r in s'.outbox <==> r in s'.outbox.Keys;
  }

  lemma ReleaseKeepsBlind(s: Store, a: Receipt, b: Receipt)
    requires BlindOk(s) && exists round :: Filled(s, a, A, round) && Filled(s, b, B, round)
    ensures BlindOk(s.(outbox := Released(s.outbox, {a, b})))
  {
    ReleaseQuorum(s, a, b);
    hide QuorumStored;
    BlindFrom(s, s.(outbox := Released(s.outbox, {a, b})));
  }

  lemma DeliveryKeepsBlind(s: Store, receipt: Receipt, delivery: Delivery)
    requires BlindOk(s) && receipt in s.outbox && Deliverable(s.outbox[receipt])
    ensures BlindOk(s.(outbox := s.outbox[receipt := delivery]))
  {
    hide QuorumStored;
    BlindFrom(s, s.(outbox := s.outbox[receipt := delivery]));
  }

  lemma SameBlind(s: Store, s': Store)
    requires BlindOk(s) && s'.submissions == s.submissions && s'.outbox == s.outbox
    ensures BlindOk(s')
  {
    hide QuorumStored;
    BlindFrom(s, s');
  }

  lemma QuietBlind(c: Checks, s: Store, e: Step)
    requires !e.Submit? && !e.Attempt? && !e.OpenRound? && Enabled(c, s, e) && BlindOk(s)
    ensures BlindOk(Effect(c, s, e))
  {
    hide BlindOk;
    match e
    case Release(a, b) => ReleaseKeepsBlind(s, a, b);
    case Deliver(receipt, delivery) => DeliveryKeepsBlind(s, receipt, delivery);
    case _ => SameBlind(s, Effect(c, s, e));
  }

  lemma ReleaseQuorum(s: Store, a: Receipt, b: Receipt)
    requires exists round :: Filled(s, a, A, round) && Filled(s, b, B, round)
    ensures a in s.submissions && b in s.submissions
    ensures QuorumStored(s, s.submissions[a].round) && QuorumStored(s, s.submissions[b].round)
  {
  }

  lemma OpenRoundKeeps(c: Checks, s: Store)
    requires Inv(c, s) && Enabled(c, s, OpenRound)
    ensures Inv(c, NewRound(s))
  {
    hide *;
    InvParts(c, s);
    NewRoundRows(c, s);
    NewRoundRecords(s);
    RecordsCarry(c, s, NewRound(s));
    RecordsParts(c, NewRound(s));
    NewRoundRest(c, s);
    InvFrom(c, NewRound(s));
  }

  lemma NewRoundRecords(s: Store)
    ensures var s' := NewRound(s);
            && s'.submissions == s.submissions && FinalsGrow(s, s') && s'.finals.Keys == s.finals.Keys
            && s'.task.currentRound >= s.task.currentRound
  {
    hide WithRound, Withdrawn;
  }

  lemma NewRoundRows(c: Checks, s: Store)
    requires LogOk(s) && RowsOk(s) && Enabled(c, s, OpenRound)
    ensures LogOk(NewRound(s)) && RowsOk(NewRound(s))
  {
    hide Path, DistinctKeys, Withdrawn;
    OtherStepsKeepLog(s, NewRound(s));
  }

  lemma NewRoundRest(c: Checks, s: Store)
    requires Enabled(c, s, OpenRound) && PublicationOk(s) && BlindOk(s)
    ensures var s' := NewRound(s); StageOk(c, s') && PublicationOk(s') && BlindOk(s')
  {
    var s' := NewRound(s);
    assert Grows(s, s');
    QuorumCarries(s, s');
    hide QuorumStored, WithRound;
  }

  // ---- Transitions

  /** A swap that goes through starts from the row as it is. */
  lemma SeenIsCurrent(s: Store, seen: TaskRow, checked: nat, t: Transition)
    requires RowsOk(s) && MayHaveRead(s, seen, checked) && Goes(s, seen, checked, t) && s.task.state != Reissued
    ensures seen == s.task
  {
  }

  lemma SwapKeepsRows(s: Store, seen: TaskRow, checked: nat, t: Transition, due: bool)
    requires LogOk(s) && RowsOk(s) && Goes(s, seen, checked, t)
    requires due ==> t.next == Reissued
    ensures RowsOk(Swapped(s, seen, t).(roundDue := due))
  {
    hide Path, DistinctKeys, KeyUsed, NoAppealPending;
    assert forall row :: row in s.past ==> row.stateVersion <= s.task.stateVersion;
  }

  lemma AttemptKeepsRows(c: Checks, s: Store, seen: TaskRow, checked: nat, request: Request, key: string, eventId: string)
    requires LogOk(s) && RowsOk(s) && MayHaveRead(s, seen, checked) && Justified(s, seen, request)
    ensures var s' := AttemptedStep(c, s, seen, checked, request, key, eventId); LogOk(s') && RowsOk(s')
  {
    var t := TransitionFor(c, s, seen, request, key, eventId);
    AttemptKeepsLog(s, seen, checked, t);
    TransitionOf(c, s, seen, request, key, eventId);
    DueStaysRight(s, seen, checked, t);
    hide TransitionFor, Justified, MayHaveRead, RowsOk, Goes, SwappedRow;
    if Goes(s, seen, checked, t) {
      SwapKeepsRows(s, seen, checked, t, s.roundDue || request.Reissue?);
      LogOfDue(Swapped(s, seen, t), s.roundDue || request.Reissue?);
    }
  }

  lemma LogOfDue(s: Store, due: bool)
    requires LogOk(s)
    ensures LogOk(s.(roundDue := due))
  {
    hide Path, DistinctKeys;
  }

  /** While a round is due the task is reissued, and leaves that state only once it is open. */
  lemma DueStaysRight(s: Store, seen: TaskRow, checked: nat, t: Transition)
    requires RowsOk(s)
    ensures s.roundDue && Goes(s, seen, checked, t) ==> seen.state == Reissued
  {
    hide KeyUsed;
  }

  /** Which state each request asks for, and from which. */
  lemma TransitionOf(c: Checks, s: Store, seen: TaskRow, request: Request, key: string, eventId: string)
    requires Justified(s, seen, request)
    ensures var t := TransitionFor(c, s, seen, request, key, eventId);
            && (t.next == Reissued <==> request.Reissue?)
            && (seen.state == Reissued ==> request.OpenReissued? && !s.roundDue)
            && (t.next == FinalReview ==> request.Propose? && !NovelProposal(c, s, request.primary))
            && (t.next == Approved <==> request.Ratify? && SignsAgreement(s, request.secondary))
            && (t.next == Approved ==> t.appealDeadline.Some? && t.activeFinal == AgreedResult(s, request.secondary))
            && (t.next == Published <==> request.Publish?)
            && (t.next == Published ==> t.activeFinal == seen.activeFinal && t.publicationGuardAt == Some(request.guardAt))
            && (t.next != Approved ==> t.appealDeadline == None)
            && (t.next != Approved && t.next != Published ==> t.activeFinal == None)
            && (request.EscalateAppeal? <==> t.clearActiveFinal)
  {
    hide NovelProposal, SignsAgreement, AgreedResult;
  }

  lemma AttemptKeepsStage(c: Checks, s: Store, seen: TaskRow, checked: nat, request: Request, key: string, eventId: string)
    requires Inv(c, s) && MayHaveRead(s, seen, checked) && Justified(s, seen, request)
    ensures StageOk(c, AttemptedStep(c, s, seen, checked, request, key, eventId))
  {
    var t := TransitionFor(c, s, seen, request, key, eventId);
    if Goes(s, seen, checked, t) {
      var s' := AttemptedStep(c, s, seen, checked, request, key, eventId);
      TransitionOf(c, s, seen, request, key, eventId);
      GoesFrom(s, seen, checked, t);
      if t.next == FinalReview {
        SeenIsCurrent(s, seen, checked, t);
        ProposalStands(c, s, s', request);
      } else if t.next == Approved {
        SeenIsCurrent(s, seen, checked, t);
        ApprovalStands(c, s, s', request.secondary);
      } else if t.next == Published {
        SeenIsCurrent(s, seen, checked, t);
        PublicationStands(c, s, s');
      }
    }
  }

  lemma GoesFrom(s: Store, seen: TaskRow, checked: nat, t: Transition)
    requires Goes(s, seen, checked, t)
    ensures seen.state == s.task.state && Allowed(seen.state, t.next)
  {
  }

  lemma ProposalStands(c: Checks, s: Store, s': Store, request: Request)
    requires request.Propose? && Justified(s, s.task, request) && !NovelProposal(c, s, request.primary)
    requires s'.submissions == s.submissions && s'.task.currentRound == s.task.currentRound && s'.task.state == FinalReview
    ensures StageOk(c, s')
  {
    assert Proposal(c, s', request.primary);
  }

  /** The agreement is with the one proposal of the round. */
  lemma ApprovalStands(c: Checks, s: Store, s': Store, q: Receipt)
    requires Inv(c, s) && s.task.state == FinalReview && Filled(s, q, J2, s.task.currentRound) && SignsAgreement(s, q)
    requires s'.submissions == s.submissions && s'.task.currentRound == s.task.currentRound && s'.task.state == Approved
    requires s'.task.activeFinal == OrElse(AgreedResult(s, q), s.task.activeFinal)
    ensures StageOk(c, s')
  {
    var p :| Proposal(c, s, p);
    assert Signs(s, q);
    var x := AgreedResult(s, q).value;
    assert FinalOk(c, s, x);
    assert p == x;
    assert Approval(c, s', p, q);
  }

  lemma PublicationStands(c: Checks, s: Store, s': Store)
    requires StageOk(c, s) && s.task.state == Approved
    requires s'.submissions == s.submissions && s'.task.currentRound == s.task.currentRound && s'.task.state == Published
    requires s'.task.activeFinal == s.task.activeFinal
    ensures StageOk(c, s')
  {
    var p, q :| Approval(c, s, p, q);
    assert Approval(c, s', p, q);
  }

  lemma AttemptKeepsPublication(c: Checks, s: Store, seen: TaskRow, checked: nat, request: Request, key: string, eventId: string)
    requires PublicationOk(s) && MayHaveRead(s, seen, checked) && Justified(s, seen, request)
    ensures PublicationOk(AttemptedStep(c, s, seen, checked, request, key, eventId))
  {
    TransitionOf(c, s, seen, request, key, eventId);
    hide TransitionFor, KeyUsed, NoAppealPending;
  }

  lemma AttemptSame(c: Checks, s: Store, seen: TaskRow, checked: nat, request: Request, key: string, eventId: string)
    ensures var s' := AttemptedStep(c, s, seen, checked, request, key, eventId);
            && s'.submissions == s.submissions && s'.finals == s.finals && s'.outbox == s.outbox
            && s'.task.currentRound == s.task.currentRound
  {
    hide TransitionFor, Goes;
  }

  lemma AttemptKeeps(c: Checks, s: Store, e: Step)
    requires e.Attempt? && Inv(c, s) && Enabled(c, s, e)
    ensures Inv(c, Effect(c, s, e))
  {
    var s' := AttemptedStep(c, s, e.seen, e.checked, e.request, e.key, e.eventId);
    assert Effect(c, s, e) == s' && MayHaveRead(s, e.seen, e.checked) && Justified(s, e.seen, e.request);
    hide *;
    InvParts(c, s);
    AttemptKeepsRows(c, s, e.seen, e.checked, e.request, e.key, e.eventId);
    AttemptKeepsStage(c, s, e.seen, e.checked, e.request, e.key, e.eventId);
    AttemptKeepsPublication(c, s, e.seen, e.checked, e.request, e.key, e.eventId);
    AttemptSame(c, s, e.seen, e.checked, e.request, e.key, e.eventId);
    SameFinalsGrow(s, s');
    RecordsCarry(c, s, s');
    RecordsParts(c, s');
    SameBlind(s, s');
    InvFrom(c, s');
  }

  lemma SameFinalsGrow(s: Store, s': Store)
    requires s'.finals == s.finals
    ensures FinalsGrow(s, s')
  {
  }

  // ---- Every run

  lemma StepKeepsInv(c: Checks, s: Store, e: Step)
    requires Inv(c, s)
    ensures Inv(c, Next(c, s, e))
  {
    hide Inv, Enabled, Effect;
    if Enabled(c, s, e) {
      match e
      case Submit(_, _, _, _) => SubmitKeeps(c, s, e);
      case Attempt(_, _, _, _, _) => AttemptKeeps(c, s, e);
      case OpenRound => OpenRoundKeeps(c, s); EffectOfOpenRound(c, s);
      case _ => QuietKeeps(c, s, e);
    }
  }

  lemma EffectOfOpenRound(c: Checks, s: Store)
    ensures Effect(c, s, OpenRound) == NewRound(s)
  {
  }

  lemma {:induction false} RunKeepsInv(c: Checks, s: Store, steps: seq<Step>)
    requires Inv(c, s)
    ensures Inv(c, Run(c, s, steps))
    decreases |steps|
  {
    hide Inv, Next;
    if |steps| > 0 {
      RunKeepsInv(c, s, steps[..|steps| - 1]);
      StepKeepsInv(c, Run(c, s, steps[..|steps| - 1]), steps[|steps| - 1]);
    }
  }

  /** The stores a task can come to: any steps, in any order, from its registration. */
  ghost predicate Reachable(c: Checks, s: Store) {
    exists eventId, now, steps :: s == Run(c, Registered(eventId, now), steps)
  }

  lemma ReachableInv(c: Checks, s: Store)
    requires Reachable(c, s)
    ensures Inv(c, s)
  {
    var eventId, now, steps :| s == Run(c, Registered(eventId, now), steps);
    RegisteredInv(c, eventId, now);
    RunKeepsInv(c, Registered(eventId, now), steps);
  }
}
