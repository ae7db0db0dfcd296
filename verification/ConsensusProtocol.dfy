/** The steps that clients, the scheduler, administrators and the repository take on a task. */
module ConsensusProtocol {
  import opened Options
  import opened ConsensusStates
  import opened ConsensusStore
  import opened Evidence
  import opened EvidenceRoots

  // ---- What a submission must be

  /** The checks of evidence that the protocol relies on: whether an artifact is sound for a
      role, whether a decision carries the roots of two annotations and no other, the root of a
      decision, and how many of its units neither annotator chose. */
  datatype Checks = Checks(
    sound: (Role, Artifact) -> bool,
    decides: (Decision, Annotation, Annotation) -> bool,
    root: Decision -> string,
    novel: Primary -> nat)

  /** The kind of artifact that a role hands in. */
  predicate Shaped(role: Role, artifact: Artifact) {
    match role
    case J1 => artifact.DecisionArtifact?
    case J2 => artifact.RatificationArtifact?
    case _ => artifact.AnnotationArtifact?
  }

  predicate Filled(s: Store, r: Receipt, role: Role, round: nat) {
    r in s.submissions && s.submissions[r].role == role && s.submissions[r].round == round
  }

  predicate RoleAllowed(role: Role, state: State) {
    match role
    case A => state == Open || state == IndependentReview
    case B => state == Open || state == IndependentReview
    case J1 => state == Discussion
    case J2 => state == FinalReview
  }

  /** Decision d is about the two annotations stored under these receipts. */
  ghost predicate DecidesStored(c: Checks, s: Store, round: nat, d: Decision, a: Receipt, b: Receipt) {
    && Filled(s, a, A, round) && Filled(s, b, B, round)
    && s.submissions[a].artifact.AnnotationArtifact? && s.submissions[b].artifact.AnnotationArtifact?
    && c.decides(d, s.submissions[a].artifact.annotation, s.submissions[b].artifact.annotation)
  }

  ghost predicate Grounded(c: Checks, s: Store, round: nat, d: Decision) {
    exists a, b :: DecidesStored(c, s, round, d, a, b)
  }

  predicate Agrees(r: Ratification) {
    r.decision == "agree"
  }

  /** J2 answers the proposed result of the round, with exactly its root. */
  predicate Answers(s: Store, r: Ratification) {
    && r.primaryReceiptId.Some? && r.primaryReceiptId.value in s.finals
    && (var f := s.finals[r.primaryReceiptId.value];
        f.round == s.task.currentRound && f.status == FinalProposed && f.secondary.None?
        && f.root == r.primaryAdjudicationMerkleRoot)
  }

  predicate NoActiveFinal(s: Store) {
    forall q :: q in s.finals ==> s.finals[q].status != FinalActive
  }

  ghost predicate MaySubmit(c: Checks, s: Store, user: string, receipt: Receipt, role: Role, artifact: Artifact) {
    && receipt !in s.submissions
    && s.task.currentRound in s.rounds && s.rounds[s.task.currentRound].status == RoundOpen
    && RoleAllowed(role, s.task.state)
    && (forall r :: r in s.submissions ==> s.submissions[r].user != user)
    && (forall r :: r in s.submissions ==> !Filled(s, r, role, s.task.currentRound))
    && Shaped(role, artifact) && c.sound(role, artifact)
    && (role == J1 ==> Grounded(c, s, s.task.currentRound, artifact.decided.adjudication))
    && (role == J2 ==> Answers(s, artifact.ratification) && (Agrees(artifact.ratification) ==> NoActiveFinal(s)))
  }

  /** A decision proposes a result; an agreement makes the result it answers the active one. */
  ghost function FinalsAfter(c: Checks, s: Store, receipt: Receipt, artifact: Artifact): map<Receipt, Final> {
    match artifact
    case AnnotationArtifact(_, _) => s.finals
    case DecisionArtifact(x) => s.finals[receipt := Final(s.task.currentRound, c.root(x.adjudication), FinalProposed, None)]
    case RatificationArtifact(_, r) =>
      if Agrees(r) && r.primaryReceiptId.Some? && r.primaryReceiptId.value in s.finals then
        var q := r.primaryReceiptId.value;
        s.finals[q := s.finals[q].(status := FinalActive, secondary := Some(receipt))]
      else s.finals
  }

  ghost function Submitted(c: Checks, s: Store, user: string, receipt: Receipt, role: Role, artifact: Artifact): Store {
    s.(submissions := s.submissions[receipt := Submission(user, role, s.task.currentRound, artifact)],
       outbox := s.outbox[receipt := if role == A || role == B then Held else Pending],
       finals := FinalsAfter(c, s, receipt, artifact))
  }

  // ---- The transitions

  datatype Request =
    | OpenReview
    | ReachQuorum(a: Receipt, b: Receipt)
    | Propose(primary: Receipt)
    | Ratify(secondary: Receipt, at: int)
    | Expire
    | EscalateAppeal(appeal: string)
    | Publish(guardAt: int)
    | Reissue
    | OpenReissued

  /** What the caller has found beside the row it read; all of it stays true. */
  ghost predicate Justified(s: Store, seen: TaskRow, r: Request) {
    match r
    case OpenReview => seen.state == Open
    case ReachQuorum(a, b) =>
      seen.state == IndependentReview && Filled(s, a, A, seen.currentRound) && Filled(s, b, B, seen.currentRound)
    case Propose(p) =>
      seen.state == Discussion && Filled(s, p, J1, seen.currentRound) && s.submissions[p].artifact.DecisionArtifact?
    case Ratify(q, at) =>
      seen.state == FinalReview && Filled(s, q, J2, seen.currentRound)
      && s.submissions[q].artifact.RatificationArtifact? && at <= s.now
    case Expire =>
      seen.state == IndependentReview && seen.currentRound in s.rounds && s.rounds[seen.currentRound].deadline <= s.now
    case EscalateAppeal(id) => seen.state == Approved && id in s.appeals && s.appeals[id] == AppealAccepted
    case Publish(guardAt) => seen.state == Approved && guardAt <= s.now
    case Reissue => seen.state == Escalated || seen.state == Revoked
    case OpenReissued => seen.state == Reissued && !s.roundDue
  }

  ghost predicate NovelProposal(c: Checks, s: Store, p: Receipt) {
    p in s.submissions && s.submissions[p].artifact.DecisionArtifact? && c.novel(s.submissions[p].artifact.decided) > 0
  }

  /** The result that the J2 submission agrees with. */
  function AgreedResult(s: Store, q: Receipt): Option<Receipt> {
    if q in s.submissions && s.submissions[q].artifact.RatificationArtifact? && Agrees(s.submissions[q].artifact.ratification)
    then s.submissions[q].artifact.ratification.primaryReceiptId else None
  }

  predicate SignsAgreement(s: Store, q: Receipt) {
    q in s.submissions && s.submissions[q].artifact.RatificationArtifact? && Agrees(s.submissions[q].artifact.ratification)
  }

  ghost function TransitionFor(c: Checks, s: Store, seen: TaskRow, r: Request, key: string, eventId: string): Transition {
    match r
    case OpenReview => Plain(IndependentReview, key, eventId)
    case ReachQuorum(_, _) => Plain(Discussion, key, eventId)
    case Propose(p) => Plain(if NovelProposal(c, s, p) then Escalated else FinalReview, key, eventId)
    case Ratify(q, at) =>
      if SignsAgreement(s, q) then
        Plain(Approved, key, eventId).(appealDeadline := Some(at + APPEAL_WINDOW_MS), activeFinal := AgreedResult(s, q))
      else Plain(Escalated, key, eventId)
    case Expire => Plain(Escalated, key, eventId)
    case EscalateAppeal(_) => Plain(Escalated, key, eventId).(clearActiveFinal := true)
    case Publish(guardAt) =>
      Plain(Published, key, eventId).(activeFinal := seen.activeFinal, publicationGuardAt := Some(guardAt))
    case Reissue => Plain(Reissued, key, eventId)
    case OpenReissued => Plain(IndependentReview, key, eventId)
  }

  // ---- All steps

  datatype Step =
    | Submit(user: string, receipt: Receipt, role: Role, artifact: Artifact)
    | Attempt(seen: TaskRow, checked: nat, request: Request, key: string, eventId: string)
    | OpenRound
    | CloseRound(round: nat)
    | InsertAppeal(id: string, user: string, final: Receipt, createdAt: int)
    | ReviewAppeal(id: string, accepted: bool)
    | RevokeFinal(final: Receipt)
    | Release(a: Receipt, b: Receipt)
    | Deliver(receipt: Receipt, delivery: Delivery)
    | Tick(now: int)

  predicate Deliverable(d: Delivery) {
    d == Pending || d == Sending || d == Sent || d == Undelivered
  }

  ghost predicate Enabled(c: Checks, s: Store, e: Step) {
    match e
    case Submit(user, receipt, role, artifact) => MaySubmit(c, s, user, receipt, role, artifact)
    case Attempt(seen, checked, request, _, _) => MayHaveRead(s, seen, checked) && Justified(s, seen, request)
    case OpenRound => s.roundDue && s.task.state == Reissued && s.task.currentRound + 1 !in s.rounds
    case CloseRound(k) => k in s.rounds && exists q :: Filled(s, q, J2, k)
    case InsertAppeal(id, user, final, createdAt) =>
      && id !in s.appeals && createdAt <= s.now
      && final in s.finals && s.finals[final].status == FinalActive
      && s.task.state == Approved && s.task.appealDeadline.Some? && s.task.appealDeadline.value >= createdAt
      && exists r :: r in s.submissions && s.submissions[r].user == user
    case ReviewAppeal(id, _) => id in s.appeals && s.appeals[id] == AppealPending
    case RevokeFinal(final) =>
      final in s.finals && s.finals[final].status == FinalActive && exists id :: id in s.appeals && s.appeals[id] == AppealAccepted
    case Release(a, b) => exists round :: Filled(s, a, A, round) && Filled(s, b, B, round)
    case Deliver(receipt, delivery) => receipt in s.outbox && Deliverable(s.outbox[receipt]) && Deliverable(delivery)
    case Tick(now) => now >= s.now
  }

  /** Held evidence of the receipts becomes pending; nothing else does. */
  function Released(outbox: map<Receipt, Delivery>, receipts: set<Receipt>): map<Receipt, Delivery> {
    map r | r in outbox :: if r in receipts && outbox[r] == Held then Pending else outbox[r]
  }

  /** Held evidence of the round is withdrawn. */
  function Withdrawn(submissions: map<Receipt, Submission>, outbox: map<Receipt, Delivery>, round: nat): map<Receipt, Delivery> {
    map r | r in outbox ::
      if r in submissions && submissions[r].round == round && outbox[r] == Held then Cancelled else outbox[r]
  }

  function Superseded(r: Round): Round {
    if r.status == RoundOpen then r.(status := RoundSuperseded) else r
  }

  function Closed(r: Round): Round {
    if r.status == RoundOpen then r.(status := RoundClosed) else r
  }

  function WithRound(rounds: map<nat, Round>, k: nat, f: Round -> Round): map<nat, Round> {
    map i | i in rounds :: if i == k then f(rounds[i]) else rounds[i]
  }

  function RevokedFinals(finals: map<Receipt, Final>, q: Receipt): map<Receipt, Final> {
    map r | r in finals :: if r == q then finals[r].(status := FinalRevoked) else finals[r]
  }

  /** The batch that gives a reissued task its next round. */
  function NewRound(s: Store): Store {
    var k := s.task.currentRound;
    var row := s.task.(currentRound := k + 1);
    s.(task := row, past := s.past + {row}, roundDue := false,
       rounds := WithRound(s.rounds, k, Superseded)[k + 1 := Round(RoundOpen, s.now + ROUND_DEADLINE_MS)],
       outbox := Withdrawn(s.submissions, s.outbox, k))
  }

  /** A call of the compare-and-swap; a reissue that went through is owed a round. */
  ghost function AttemptedStep(c: Checks, s: Store, seen: TaskRow, checked: nat, request: Request, key: string, eventId: string): Store {
    var t := TransitionFor(c, s, seen, request, key, eventId);
    if Goes(s, seen, checked, t) then Swapped(s, seen, t).(roundDue := s.roundDue || request.Reissue?) else s
  }

  ghost function Effect(c: Checks, s: Store, e: Step): Store {
    match e
    case Submit(user, receipt, role, artifact) => Submitted(c, s, user, receipt, role, artifact)
    case Attempt(seen, checked, request, key, eventId) => AttemptedStep(c, s, seen, checked, request, key, eventId)
    case OpenRound => NewRound(s)
    case CloseRound(k) => s.(rounds := WithRound(s.rounds, k, Closed))
    case InsertAppeal(id, _, _, _) => s.(appeals := s.appeals[id := AppealPending])
    case ReviewAppeal(id, accepted) => s.(appeals := s.appeals[id := if accepted then AppealAccepted else AppealRejected])
    case RevokeFinal(final) => s.(finals := RevokedFinals(s.finals, final))
    case Release(a, b) => s.(outbox := Released(s.outbox, {a, b}))
    case Deliver(receipt, delivery) => s.(outbox := s.outbox[receipt := delivery])
    case Tick(now) => s.(now := now)
  }

  /** A step that is not enabled is refused and changes nothing. */
  ghost function Next(c: Checks, s: Store, e: Step): Store {
    if Enabled(c, s, e) then Effect(c, s, e) else s
  }

  ghost function Run(c: Checks, s: Store, steps: seq<Step>): Store
    decreases |steps|
  {
    if |steps| == 0 then s
    else Next(c, Run(c, s, steps[..|steps| - 1]), steps[|steps| - 1])
  }
}
