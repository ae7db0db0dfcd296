/** The rows of one task and the compare-and-swap that moves it from state to state. */
module ConsensusStore {
  import opened Options
  import opened ConsensusStates
  import opened Evidence
  import opened EvidenceRoots

  type Receipt = string

  datatype TaskRow = TaskRow(
    state: State,
    stateVersion: nat,
    currentRound: nat,
    lastEventId: string,
    activeFinal: Option<Receipt>,
    appealDeadline: Option<int>)

  datatype RoundStatus = RoundOpen | RoundClosed | RoundSuperseded
  datatype Round = Round(status: RoundStatus, deadline: int)

  datatype Role = A | B | J1 | J2

  datatype Artifact =
    | AnnotationArtifact(packet: Packet, annotation: Annotation)
    | DecisionArtifact(decided: Primary)
    | RatificationArtifact(ratified: Primary, ratification: Ratification)

  datatype Submission = Submission(user: string, role: Role, round: nat, artifact: Artifact)

  datatype FinalStatus = FinalProposed | FinalActive | FinalRevoked
  datatype Final = Final(round: nat, root: string, status: FinalStatus, secondary: Option<Receipt>)

  datatype Delivery = Held | Pending | Sending | Sent | Undelivered | Cancelled

  datatype AppealStatus = AppealPending | AppealAccepted | AppealRejected

  /** The rows of a task version. `past` is every value the task row has had: what a caller
      with a stale read may hold. `roundDue` says that a reissue has yet to open its round. */
  datatype Store = Store(
    task: TaskRow,
    past: set<TaskRow>,
    events: seq<Event>,
    rounds: map<nat, Round>,
    submissions: map<Receipt, Submission>,
    finals: map<Receipt, Final>,
    outbox: map<Receipt, Delivery>,
    appeals: map<string, AppealStatus>,
    roundDue: bool,
    now: int)

  const ROUND_DEADLINE_MS := 14 * 24 * 60 * 60 * 1000
  const APPEAL_WINDOW_MS := 14 * 24 * 60 * 60 * 1000

  /** A task as it is registered: open, with its first round and its first event. */
  function Registered(eventId: string, now: int): Store {
    var row := TaskRow(Open, 0, 1, eventId, None, None);
    Store(row, {row}, [Event(eventId, Draft, Open, eventId)], map[1 := Round(RoundOpen, now + ROUND_DEADLINE_MS)],
          map[], map[], map[], map[], false, now)
  }

  // ---- The compare-and-swap

  datatype Transition = Transition(
    next: State,
    key: string,
    eventId: string,
    appealDeadline: Option<int>,
    clearActiveFinal: bool,
    activeFinal: Option<Receipt>,
    publicationGuardAt: Option<int>)

  function Plain(next: State, key: string, eventId: string): Transition {
    Transition(next, key, eventId, None, false, None, None)
  }

  function OrElse<T>(a: Option<T>, b: Option<T>): Option<T> {
    if a.Some? then a else b
  }

  /** The key belongs to one of the first `checked` events. */
  predicate KeyUsed(events: seq<Event>, checked: nat, key: string) {
    exists i :: 0 <= i < checked && i < |events| && events[i].key == key
  }

  predicate NoAppealPending(appeals: map<string, AppealStatus>) {
    forall id :: id in appeals ==> appeals[id] != AppealPending
  }

  /** The condition of the update: the row is still the one that was read, and a guarded
      publication finds the appeal window over and no appeal open. */
  predicate Swaps(s: Store, seen: TaskRow, t: Transition) {
    && s.task.state == seen.state && s.task.stateVersion == seen.stateVersion
    && (t.publicationGuardAt.Some? ==>
          && s.task.appealDeadline.Some? && s.task.appealDeadline.value <= t.publicationGuardAt.value
          && NoAppealPending(s.appeals))
  }

  function SwappedRow(row: TaskRow, t: Transition): TaskRow {
    TaskRow(t.next, row.stateVersion + 1, row.currentRound, t.eventId,
            if t.clearActiveFinal then None else OrElse(t.activeFinal, row.activeFinal),
            OrElse(t.appealDeadline, row.appealDeadline))
  }

  /** The batch: the row and its event change together. */
  function Swapped(s: Store, seen: TaskRow, t: Transition): Store {
    var row := SwappedRow(s.task, t);
    s.(task := row, past := s.past + {row}, events := s.events + [Event(t.eventId, seen.state, t.next, t.key)])
  }

  /** The call goes through: `seen` was read before, `checked` events were there when the key
      was looked up. */
  predicate Goes(s: Store, seen: TaskRow, checked: nat, t: Transition) {
    Allowed(seen.state, t.next) && !KeyUsed(s.events, checked, t.key) && Swaps(s, seen, t)
  }

  function Attempted(s: Store, seen: TaskRow, checked: nat, t: Transition): Store {
    if Goes(s, seen, checked, t) then Swapped(s, seen, t) else s
  }

  /** A caller reads the row first, then looks up the key, then writes. */
  predicate MayHaveRead(s: Store, seen: TaskRow, checked: nat) {
    seen in s.past && seen.stateVersion + 1 <= checked <= |s.events|
  }

  // ---- The log

  ghost predicate DistinctKeys(events: seq<Event>) {
    forall i, k :: 0 <= i < k < |events| ==> events[i].key != events[k].key
  }

  /** The log and the row tell one story. */
  ghost predicate LogOk(s: Store) {
    && Path(s.events, s.task.state)
    && |s.events| == s.task.stateVersion + 1
    && s.task.lastEventId == s.events[|s.events| - 1].id
    && DistinctKeys(s.events)
    && s.task in s.past
    && forall row :: row in s.past ==>
         && row.stateVersion <= s.task.stateVersion
         && row.state == s.events[row.stateVersion].next
  }

  lemma RegisteredLogOk(eventId: string, now: int)
    ensures LogOk(Registered(eventId, now))
  {
  }

  /** No caller, however stale, breaks the log. That no key is used twice follows from the
      version check: a key used since the lookup has moved the version on. */
  lemma AttemptKeepsLog(s: Store, seen: TaskRow, checked: nat, t: Transition)
    requires LogOk(s) && MayHaveRead(s, seen, checked)
    ensures LogOk(Attempted(s, seen, checked, t))
  {
    var s' := Attempted(s, seen, checked, t);
    if Goes(s, seen, checked, t) {
      assert checked == |s.events|;
      PathExtends(s.events, s.task.state, Event(t.eventId, seen.state, t.next, t.key));
      hide Path;
      assert DistinctKeys(s'.events) by {
        forall i, k | 0 <= i < k < |s'.events| ensures s'.events[i].key != s'.events[k].key {
          if k == |s.events| {
            assert s'.events[i] == s.events[i];
          }
        }
      }
    }
  }

  /** Steps that leave the row, its history and the log alone keep the log; so does opening a
      round, which changes the round number only. */
  lemma OtherStepsKeepLog(s: Store, s': Store)
    requires LogOk(s) && s'.events == s.events && s'.past == s.past + {s'.task}
    requires s'.task == s.task.(currentRound := s'.task.currentRound)
    ensures LogOk(s')
  {
  }
}
