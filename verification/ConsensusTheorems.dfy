/** What the review of a task guarantees, in every store that it can come to. */
module ConsensusTheorems {
  import opened Options
  import opened ConsensusStates
  import opened ConsensusStore
  import opened ConsensusProtocol
  import opened ConsensusInvariant
  import opened Evidence
  import opened EvidenceParts
  import opened EvidenceRoots
  import N = NovelDecisions
  import F = EvidenceFields

  // ---- The checks of evidence

  ghost predicate SamePacketRoot(hash: Hash, packet: Packet, other: Packet) {
    PacketRoot(hash, other) == PacketRoot(hash, packet)
  }

  predicate SlotOf(role: Role, slot: string) {
    (role == A && slot == "A") || (role == B && slot == "B")
  }

  /** The artifact passes its validation and is about the packet of the task. */
  ghost predicate Sound(hash: Hash, packet: Packet, role: Role, artifact: Artifact) {
    match artifact
    case AnnotationArtifact(p, a) =>
      BoundAnnotation(hash, p, a) && SamePacketRoot(hash, packet, p) && SlotOf(role, a.annotatorSlot)
    case DecisionArtifact(x) =>
      role == J1 && BoundDecision(hash, x) && SamePacketRoot(hash, packet, x.packet)
    case RatificationArtifact(x, r) =>
      role == J2 && BoundRatification(hash, x, r) && SamePacketRoot(hash, packet, x.packet)
  }

  /** The stored roots are two, and the decision names no other. */
  ghost predicate DecidesBetween(hash: Hash, d: Decision, a: Annotation, b: Annotation) {
    var x, y := AnnotationRoot(hash, a), AnnotationRoot(hash, b);
    x != y && d.annotationAMerkleRoot in {x, y} && d.annotationBMerkleRoot in {x, y}
  }

  ghost function NovelCount(x: Primary): nat {
    |N.NovelUnits(x.annotationA.sentences, x.annotationB.sentences, N.Entries(x.adjudication.sentences))|
  }

  ghost function PortalChecks(hash: Hash, packet: Packet): Checks {
    Checks((role, artifact) => Sound(hash, packet, role, artifact),
           (d, a, b) => DecidesBetween(hash, d, a, b),
           d => DecisionRoot(hash, d),
           x => NovelCount(x))
  }

  // ---- The log

  /** In every store: the events lead from draft to the state of the task, there is one more
      than the version, the row names the last one, and no two share a key. */
  lemma EventLogIsSound(c: Checks, s: Store)
    requires Reachable(c, s)
    ensures Path(s.events, s.task.state)
    ensures |s.events| == s.task.stateVersion + 1 && s.task.lastEventId == s.events[|s.events| - 1].id
    ensures forall i, k :: 0 <= i < k < |s.events| ==> s.events[i].key != s.events[k].key
  {
    ReachableInv(c, s);
    InvParts(c, s);
  }

  // ---- Approval

  /** Four different people filled the four roles of one round. */
  ghost predicate FourReviewers(s: Store, round: nat, a: Receipt, b: Receipt, p: Receipt, q: Receipt) {
    && Filled(s, a, A, round) && Filled(s, b, B, round) && Filled(s, p, J1, round) && Filled(s, q, J2, round)
    && s.submissions[a].artifact.AnnotationArtifact? && s.submissions[b].artifact.AnnotationArtifact?
    && s.submissions[p].artifact.DecisionArtifact? && s.submissions[q].artifact.RatificationArtifact?
    && s.submissions[a].user != s.submissions[b].user && s.submissions[a].user != s.submissions[p].user
    && s.submissions[a].user != s.submissions[q].user && s.submissions[b].user != s.submissions[p].user
    && s.submissions[b].user != s.submissions[q].user && s.submissions[p].user != s.submissions[q].user
  }

  /** The result: what the J1 submission decided. */
  function ResultOf(s: Store, p: Receipt): Primary
    requires p in s.submissions && s.submissions[p].artifact.DecisionArtifact?
  {
    s.submissions[p].artifact.decided
  }

  /** J2 agreed, and to exactly this result. */
  ghost predicate Cosigned(s: Store, p: Receipt, q: Receipt)
    requires p in s.submissions && s.submissions[p].artifact.DecisionArtifact?
    requires q in s.submissions && s.submissions[q].artifact.RatificationArtifact?
  {
    Agrees(s.submissions[q].artifact.ratification) && SameEvidence(ResultOf(s, p), s.submissions[q].artifact.ratified)
  }

  /** The result decides between the annotations that A and B submitted, these and no others. */
  ghost predicate DecidesSubmitted(s: Store, a: Receipt, b: Receipt, x: Primary)
    requires a in s.submissions && s.submissions[a].artifact.AnnotationArtifact?
    requires b in s.submissions && s.submissions[b].artifact.AnnotationArtifact?
  {
    {x.annotationA, x.annotationB} == {s.submissions[a].artifact.annotation, s.submissions[b].artifact.annotation}
  }

  ghost predicate TakenFromAnnotators(s: Store, a: Receipt, b: Receipt, x: Primary)
    requires a in s.submissions && s.submissions[a].artifact.AnnotationArtifact?
    requires b in s.submissions && s.submissions[b].artifact.AnnotationArtifact?
  {
    forall u, v :: N.Says(x.adjudication.sentences, u, v) ==>
      N.Says(s.submissions[a].artifact.annotation.sentences, u, v) || N.Says(s.submissions[b].artifact.annotation.sentences, u, v)
  }

  /** In every store where the task is approved or published, four different people filled A,
      B, J1 and J2 of its round; J2 signed exactly what J1 decided; J1 decided between what A
      and B submitted; and every unit of the result has the value that A or B gave it. */
  lemma ApprovedMeansReviewed(hash: Hash, packet: Packet, s: Store) returns (a: Receipt, b: Receipt, p: Receipt, q: Receipt)
    requires Injective(hash) && Reachable(PortalChecks(hash, packet), s)
    requires s.task.state == Approved || s.task.state == Published
    ensures FourReviewers(s, s.task.currentRound, a, b, p, q)
    ensures s.task.activeFinal == Some(p)
    ensures Cosigned(s, p, q)
    ensures s.submissions[q].artifact.ratification.decision == "agree"
    ensures s.submissions[q].artifact.ratification.primaryReceiptId == Some(p)
    ensures forall r :: r in s.submissions && s.submissions[r].role == J2 && s.submissions[r].round == s.task.currentRound ==> r == q
    ensures InTheirSlots(s, a, b, p, q)
    ensures DecidesSubmitted(s, a, b, ResultOf(s, p))
    ensures TakenFromAnnotators(s, a, b, ResultOf(s, p))
    ensures F.TakesFields(s.submissions[a].artifact.annotation.sentences, s.submissions[b].artifact.annotation.sentences,
                          ResultOf(s, p).adjudication.sentences)
  {
    hide *;
    var c := PortalChecks(hash, packet);
    ReachableInv(c, s);
    InvParts(c, s);
    p, q := ApprovalOf(c, s);
    AgreementIsWorded(c, s, p, q);
    a, b := GroundsOf(c, s, p);
    Reviewers(c, s, a, b, p, q);
    SlotsOf(hash, packet, s, a, b, p, q);
    SoundDecision(hash, packet, s, p);
    SoundRatification(hash, packet, s, q);
    SignedRoot(c, s, p, q);
    RootIs(hash, packet, ResultOf(s, p).adjudication);
    SamePrimary(hash, ResultOf(s, p), s.submissions[q].artifact.ratified, s.submissions[q].artifact.ratification);
    CosignedFrom(s, p, q);
    DecidesIs(hash, packet, ResultOf(s, p).adjudication, s.submissions[a].artifact.annotation, s.submissions[b].artifact.annotation);
    SameAnnotations(hash, ResultOf(s, p), s.submissions[a].artifact.annotation, s.submissions[b].artifact.annotation);
    DecidesSubmittedFrom(s, a, b, ResultOf(s, p));
    NothingOfItsOwn(hash, packet, s, p);
    TakenFrom(s, a, b, ResultOf(s, p));
    FieldsTaken(hash, packet, s, a, b, p);
  }

  lemma FieldsOfBound(hash: Hash, packet: Packet, x: Primary)
    requires BoundDecision(hash, x) && PortalChecks(hash, packet).novel(x) == 0
    ensures F.TakesFields(x.annotationA.sentences, x.annotationB.sentences, x.adjudication.sentences)
  {
    hide PacketOk, Covers, Resolved, PacketRoot, AnnotationRoot, N.DistinctUnits, N.SameUnits, N.Entries, N.NovelUnits, F.TakesFields;
    N.CoveredIsComparable(x.packet, x.annotationA.sentences, x.annotationB.sentences, x.adjudication.sentences);
    F.NothingNovelOnFields(x.annotationA.sentences, x.annotationB.sentences, x.adjudication.sentences);
  }

  lemma OfBothAnnotations(x: Primary, a: Annotation, b: Annotation)
    requires {x.annotationA, x.annotationB} == {a, b}
    requires F.TakesFields(x.annotationA.sentences, x.annotationB.sentences, x.adjudication.sentences)
    ensures F.TakesFields(a.sentences, b.sentences, x.adjudication.sentences)
  {
    hide F.TakesFields;
    PairsEqual(x.annotationA, x.annotationB, a, b);
    if x.annotationA != a {
      F.EitherOrder(x.annotationA.sentences, x.annotationB.sentences, x.adjudication.sentences);
    }
  }

  lemma PairsEqual<T>(x: T, y: T, a: T, b: T)
    requires {x, y} == {a, b}
    ensures (x == a && y == b) || (x == b && y == a)
  {
    assert x in {a, b} && y in {a, b} && a in {x, y} && b in {x, y};
  }

  lemma FieldsTaken(hash: Hash, packet: Packet, s: Store, a: Receipt, b: Receipt, p: Receipt)
    requires p in s.submissions && s.submissions[p].artifact.DecisionArtifact?
    requires a in s.submissions && s.submissions[a].artifact.AnnotationArtifact?
    requires b in s.submissions && s.submissions[b].artifact.AnnotationArtifact?
    requires BoundDecision(hash, ResultOf(s, p)) && PortalChecks(hash, packet).novel(ResultOf(s, p)) == 0
    requires DecidesSubmitted(s, a, b, ResultOf(s, p))
    ensures F.TakesFields(s.submissions[a].artifact.annotation.sentences, s.submissions[b].artifact.annotation.sentences,
                          ResultOf(s, p).adjudication.sentences)
  {
    hide PortalChecks, BoundDecision, F.TakesFields;
    FieldsOfBound(hash, packet, ResultOf(s, p));
    OfBothAnnotations(ResultOf(s, p), s.submissions[a].artifact.annotation, s.submissions[b].artifact.annotation);
  }

  /** Each artifact carries the slot of the role it was submitted for. */
  ghost predicate InTheirSlots(s: Store, a: Receipt, b: Receipt, p: Receipt, q: Receipt)
    requires a in s.submissions && s.submissions[a].artifact.AnnotationArtifact?
    requires b in s.submissions && s.submissions[b].artifact.AnnotationArtifact?
    requires p in s.submissions && s.submissions[p].artifact.DecisionArtifact?
    requires q in s.submissions && s.submissions[q].artifact.RatificationArtifact?
  {
    && s.submissions[a].artifact.annotation.annotatorSlot == "A" && s.submissions[b].artifact.annotation.annotatorSlot == "B"
    && s.submissions[p].artifact.decided.adjudication.adjudicatorSlot == "J1"
    && s.submissions[q].artifact.ratification.reviewerSlot == "J2"
  }

  lemma SlotsOf(hash: Hash, packet: Packet, s: Store, a: Receipt, b: Receipt, p: Receipt, q: Receipt)
    requires ArtifactsOk(PortalChecks(hash, packet), s) && FourReviewers(s, s.task.currentRound, a, b, p, q)
    ensures InTheirSlots(s, a, b, p, q)
  {
    hide SamePacketRoot, PacketOk, PacketRoot, Covers, Resolved, AnnotationRoot, DecisionRoot;
    var c := PortalChecks(hash, packet);
    assert c.sound(A, s.submissions[a].artifact) && c.sound(B, s.submissions[b].artifact);
    assert c.sound(J1, s.submissions[p].artifact) && c.sound(J2, s.submissions[q].artifact);
  }

  lemma AgreementIsWorded(c: Checks, s: Store, p: Receipt, q: Receipt)
    requires Approval(c, s, p, q) && OnceOk(s)
    ensures s.submissions[q].artifact.ratification.decision == "agree"
    ensures s.submissions[q].artifact.ratification.primaryReceiptId == Some(p)
    ensures forall r :: r in s.submissions && s.submissions[r].role == J2 && s.submissions[r].round == s.task.currentRound ==> r == q
  {
  }

  lemma ApprovalOf(c: Checks, s: Store) returns (p: Receipt, q: Receipt)
    requires StageOk(c, s) && (s.task.state == Approved || s.task.state == Published)
    ensures Approval(c, s, p, q)
    ensures p in s.submissions && s.submissions[p].artifact.DecisionArtifact? && c.novel(ResultOf(s, p)) == 0
    ensures q in s.submissions && s.submissions[q].artifact.RatificationArtifact?
    ensures s.task.activeFinal == Some(p) && Agrees(s.submissions[q].artifact.ratification)
    ensures Filled(s, p, J1, s.task.currentRound)
  {
    p, q :| Approval(c, s, p, q);
  }

  lemma GroundsOf(c: Checks, s: Store, p: Receipt) returns (a: Receipt, b: Receipt)
    requires GroundedOk(c, s) && Filled(s, p, J1, s.task.currentRound) && s.submissions[p].artifact.DecisionArtifact?
    ensures Filled(s, a, A, s.task.currentRound) && Filled(s, b, B, s.task.currentRound)
    ensures a in s.submissions && b in s.submissions
    ensures s.submissions[a].artifact.AnnotationArtifact? && s.submissions[b].artifact.AnnotationArtifact?
    ensures c.decides(ResultOf(s, p).adjudication, s.submissions[a].artifact.annotation, s.submissions[b].artifact.annotation)
  {
    var d, k := ResultOf(s, p).adjudication, s.task.currentRound;
    assert Grounded(c, s, k, d);
    a, b :| DecidesStored(c, s, k, d, a, b);
    assert DecidesStored(c, s, k, d, a, b);
  }

  lemma Reviewers(c: Checks, s: Store, a: Receipt, b: Receipt, p: Receipt, q: Receipt)
    requires OnceOk(s) && Approval(c, s, p, q)
    requires Filled(s, a, A, s.task.currentRound) && Filled(s, b, B, s.task.currentRound)
    requires s.submissions[a].artifact.AnnotationArtifact? && s.submissions[b].artifact.AnnotationArtifact?
    ensures FourReviewers(s, s.task.currentRound, a, b, p, q)
  {
    DifferentUsers(s, a, b);
    DifferentUsers(s, a, p);
    DifferentUsers(s, a, q);
    DifferentUsers(s, b, p);
    DifferentUsers(s, b, q);
    DifferentUsers(s, p, q);
    hide OnceOk;
  }

  lemma DifferentUsers(s: Store, x: Receipt, y: Receipt)
    requires OnceOk(s) && x in s.submissions && y in s.submissions && s.submissions[x].role != s.submissions[y].role
    ensures s.submissions[x].user != s.submissions[y].user
  {
    assert x != y;
  }

  /** The root that J2 signed is the root of J1's decision. */
  lemma SignedRoot(c: Checks, s: Store, p: Receipt, q: Receipt)
    requires SignedOk(s) && FinalsOk(c, s) && Approval(c, s, p, q)
    ensures s.submissions[q].artifact.ratification.primaryAdjudicationMerkleRoot == c.root(ResultOf(s, p).adjudication)
  {
    assert Signs(s, q);
    assert FinalOk(c, s, p);
  }

  lemma RootIs(hash: Hash, packet: Packet, d: Decision)
    ensures PortalChecks(hash, packet).root(d) == DecisionRoot(hash, d)
  {
  }

  lemma DecidesIs(hash: Hash, packet: Packet, d: Decision, a: Annotation, b: Annotation)
    ensures PortalChecks(hash, packet).decides(d, a, b) <==> DecidesBetween(hash, d, a, b)
  {
    hide DecidesBetween;
  }

  lemma SoundDecision(hash: Hash, packet: Packet, s: Store, p: Receipt)
    requires ArtifactsOk(PortalChecks(hash, packet), s) && p in s.submissions && s.submissions[p].artifact.DecisionArtifact?
    ensures BoundDecision(hash, ResultOf(s, p))
  {
    hide BoundDecision, BoundAnnotation, BoundRatification, SamePacketRoot;
    assert PortalChecks(hash, packet).sound(s.submissions[p].role, s.submissions[p].artifact);
  }

  lemma SoundRatification(hash: Hash, packet: Packet, s: Store, q: Receipt)
    requires ArtifactsOk(PortalChecks(hash, packet), s) && q in s.submissions && s.submissions[q].artifact.RatificationArtifact?
    ensures BoundRatification(hash, s.submissions[q].artifact.ratified, s.submissions[q].artifact.ratification)
  {
    hide BoundDecision, BoundAnnotation, BoundRatification, SamePacketRoot;
    assert PortalChecks(hash, packet).sound(s.submissions[q].role, s.submissions[q].artifact);
  }

  /** Two bound decisions with one root are the same decision about the same evidence. */
  lemma SamePrimary(hash: Hash, x: Primary, y: Primary, r: Ratification)
    requires Injective(hash) && BoundDecision(hash, x) && BoundRatification(hash, y, r)
    requires r.primaryAdjudicationMerkleRoot == DecisionRoot(hash, x.adjudication)
    ensures SameEvidence(x, y)
  {
    hide PacketOk, Covers, Resolved, Trimmed, PacketRoot, AnnotationRoot, DecisionRoot, Injective;
    DecisionRootFixes(hash, x.adjudication, y.adjudication);
    AnnotationRootFixes(hash, x.annotationA, y.annotationA);
    AnnotationRootFixes(hash, x.annotationB, y.annotationB);
    PacketRootFixes(hash, x.packet, y.packet);
  }

  /** A bound decision that names the roots of a and b is about a and b. */
  lemma SameAnnotations(hash: Hash, x: Primary, a: Annotation, b: Annotation)
    requires Injective(hash) && BoundDecision(hash, x) && DecidesBetween(hash, x.adjudication, a, b)
    ensures {x.annotationA, x.annotationB} == {a, b}
  {
    hide PacketOk, Covers, Resolved, PacketRoot, AnnotationRoot, Injective;
    OneOfTwo(hash, x.annotationA, a, b);
    OneOfTwo(hash, x.annotationB, a, b);
    assert x.annotationA.annotatorSlot != x.annotationB.annotatorSlot;
  }

  lemma OneOfTwo(hash: Hash, z: Annotation, a: Annotation, b: Annotation)
    requires Injective(hash) && AnnotationRoot(hash, z) in {AnnotationRoot(hash, a), AnnotationRoot(hash, b)}
    ensures z == a || z == b
  {
    hide AnnotationRoot, Injective;
    if AnnotationRoot(hash, z) == AnnotationRoot(hash, a) {
      AnnotationRootFixes(hash, z, a);
    } else {
      AnnotationRootFixes(hash, z, b);
    }
  }

  lemma NothingOfItsOwn(hash: Hash, packet: Packet, s: Store, p: Receipt)
    requires p in s.submissions && s.submissions[p].artifact.DecisionArtifact?
    requires PortalChecks(hash, packet).novel(ResultOf(s, p)) == 0
    ensures var x := ResultOf(s, p);
            forall u, v :: N.Says(x.adjudication.sentences, u, v) ==>
              N.Says(x.annotationA.sentences, u, v) || N.Says(x.annotationB.sentences, u, v)
  {
    var x := ResultOf(s, p);
    N.NothingNovel(x.annotationA.sentences, x.annotationB.sentences, x.adjudication.sentences);
    hide N.Says, N.NovelUnits, N.Entries;
  }

  lemma CosignedFrom(s: Store, p: Receipt, q: Receipt)
    requires p in s.submissions && s.submissions[p].artifact.DecisionArtifact?
    requires q in s.submissions && s.submissions[q].artifact.RatificationArtifact?
    requires Agrees(s.submissions[q].artifact.ratification) && SameEvidence(ResultOf(s, p), s.submissions[q].artifact.ratified)
    ensures Cosigned(s, p, q)
  {
  }

  lemma DecidesSubmittedFrom(s: Store, a: Receipt, b: Receipt, x: Primary)
    requires a in s.submissions && s.submissions[a].artifact.AnnotationArtifact?
    requires b in s.submissions && s.submissions[b].artifact.AnnotationArtifact?
    requires {x.annotationA, x.annotationB} == {s.submissions[a].artifact.annotation, s.submissions[b].artifact.annotation}
    ensures DecidesSubmitted(s, a, b, x)
  {
  }

  lemma TakenFrom(s: Store, a: Receipt, b: Receipt, x: Primary)
    requires a in s.submissions && s.submissions[a].artifact.AnnotationArtifact?
    requires b in s.submissions && s.submissions[b].artifact.AnnotationArtifact?
    requires {x.annotationA, x.annotationB} == {s.submissions[a].artifact.annotation, s.submissions[b].artifact.annotation}
    requires forall u, v :: N.Says(x.adjudication.sentences, u, v) ==>
               N.Says(x.annotationA.sentences, u, v) || N.Says(x.annotationB.sentences, u, v)
    ensures TakenFromAnnotators(s, a, b, x)
  {
    hide N.Says;
    assert x.annotationA in {x.annotationA, x.annotationB} && x.annotationB in {x.annotationA, x.annotationB};
  }

  /** Every approval is fresh: it closes independent review, discussion and final review, one
      after the other, whatever the task went through before. */
  lemma ApprovedIsFresh(c: Checks, s: Store)
    requires Reachable(c, s) && s.task.state == Approved
    ensures var n := |s.events|;
            && n >= 5 && s.events[n - 4].next == IndependentReview && s.events[n - 3].next == Discussion
            && s.events[n - 2].next == FinalReview && s.events[n - 1].next == Approved
  {
    EventLogIsSound(c, s);
    ApprovalIsFresh(s.events);
  }

  // ---- Publication

  /** A published task is past its appeal deadline and has no appeal pending, however appeals
      and publication were interleaved. */
  lemma PublishedIsFinal(c: Checks, s: Store)
    requires Reachable(c, s) && s.task.state == Published
    ensures s.task.appealDeadline.Some? && s.task.appealDeadline.value <= s.now
    ensures forall id :: id in s.appeals ==> s.appeals[id] != AppealPending
  {
    ReachableInv(c, s);
    InvParts(c, s);
  }

  // ---- Blind release

  /** Evidence of an independent annotation is out only when A and B of its round are stored. */
  lemma ReleaseIsBlind(c: Checks, s: Store, r: Receipt)
    requires Reachable(c, s) && r in s.outbox
    ensures r in s.submissions
    ensures s.submissions[r].role == A || s.submissions[r].role == B ==>
              || s.outbox[r] == Held || s.outbox[r] == Cancelled
              || exists a, b :: Filled(s, a, A, s.submissions[r].round) && Filled(s, b, B, s.submissions[r].round)
  {
    ReachableInv(c, s);
    InvParts(c, s);
    if (s.submissions[r].role == A || s.submissions[r].role == B) && s.outbox[r] != Held && s.outbox[r] != Cancelled {
      assert LetOut(s, r) && QuorumStored(s, s.submissions[r].round);
    }
  }

  /** Withdrawn evidence is never delivered after all. */
  lemma {:induction false} WithdrawnStaysWithdrawn(c: Checks, s: Store, r: Receipt, steps: seq<Step>)
    requires r in s.outbox && r in s.submissions && s.outbox[r] == Cancelled
    ensures r in Run(c, s, steps).outbox && r in Run(c, s, steps).submissions && Run(c, s, steps).outbox[r] == Cancelled
    decreases |steps|
  {
    hide Next;
    if |steps| > 0 {
      WithdrawnStaysWithdrawn(c, s, r, steps[..|steps| - 1]);
      OneStepWithdrawn(c, Run(c, s, steps[..|steps| - 1]), r, steps[|steps| - 1]);
    }
  }

  lemma OneStepWithdrawn(c: Checks, s: Store, r: Receipt, e: Step)
    requires r in s.outbox && r in s.submissions && s.outbox[r] == Cancelled
    ensures var s' := Next(c, s, e); r in s'.outbox && r in s'.submissions && s'.outbox[r] == Cancelled
  {
    hide FinalsAfter, Grounded, Justified, TransitionFor, MayHaveRead, Goes;
  }

  // ---- Overlapping reissues

  /** What the batch of a second, overlapping reissue leaves behind when the task has moved on
      from `reissued`: its round is inserted, its update of the task finds nothing. */
  function OverlappingBatch(s: Store): Store {
    s.(rounds := s.rounds[s.task.currentRound + 1 := Round(RoundOpen, s.now + ROUND_DEADLINE_MS)])
  }

  lemma OneStepBlocked(c: Checks, s: Store, e: Step)
    requires s.task.currentRound + 1 in s.rounds
    ensures var s' := Next(c, s, e); s'.task.currentRound == s.task.currentRound && s.task.currentRound + 1 in s'.rounds
  {
    hide FinalsAfter, Grounded, Justified, TransitionFor, MayHaveRead, Goes;
  }

  /** That round blocks the next one: the task never gets a new round again, whatever is done.
      This is why calls of a reissue for one task must not overlap. */
  lemma {:induction false} OverlappingReissueBlocks(c: Checks, s: Store, steps: seq<Step>)
    ensures var s' := Run(c, OverlappingBatch(s), steps);
            s'.task.currentRound == s.task.currentRound && s.task.currentRound + 1 in s'.rounds
    decreases |steps|
  {
    hide Next;
    if |steps| > 0 {
      OverlappingReissueBlocks(c, s, steps[..|steps| - 1]);
      OneStepBlocked(c, Run(c, OverlappingBatch(s), steps[..|steps| - 1]), steps[|steps| - 1]);
    }
  }
}
