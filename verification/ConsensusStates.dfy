/** The states of a task, and the transitions between them that are allowed. */
module ConsensusStates {

  datatype State =
    | Draft | Open | IndependentReview | Discussion | FinalReview | Approved | Published
    | Escalated | Reissued | Revoked | Failed

  function AllowedFrom(s: State): set<State> {
    match s
    case Draft => {Open, Failed}
    case Open => {IndependentReview, Failed}
    case IndependentReview => {Discussion, Escalated, Failed}
    case Discussion => {FinalReview, Escalated, Failed}
    case FinalReview => {Approved, Escalated, Failed}
    case Approved => {Published, Revoked, Escalated}
    case Published => {Revoked}
    case Escalated => {Reissued, Failed}
    case Reissued => {IndependentReview, Failed}
    case Revoked => {Reissued, Failed}
    case Failed => {}
  }

  predicate Allowed(from: State, next: State) {
    next in AllowedFrom(from)
  }

  /** The same table read backwards: from where each state is entered, and from nowhere else. */
  lemma EnteredFrom(from: State, next: State)
    ensures Allowed(from, next) <==>
              match next
              case Draft => false
              case Open => from == Draft
              case IndependentReview => from == Open || from == Reissued
              case Discussion => from == IndependentReview
              case FinalReview => from == Discussion
              case Approved => from == FinalReview
              case Published => from == Approved
              case Escalated => from == IndependentReview || from == Discussion || from == FinalReview || from == Approved
              case Reissued => from == Escalated || from == Revoked
              case Revoked => from == Approved || from == Published
              case Failed => from != Approved && from != Published && from != Failed
  {
  }

  datatype Event = Event(id: string, from: State, next: State, key: string)

  /** The events lead from `draft` to a state, one allowed transition after the other. */
  ghost predicate Path(events: seq<Event>, end: State) {
    && |events| > 0 && events[0].from == Draft && events[|events| - 1].next == end
    && (forall i :: 0 <= i < |events| ==> Allowed(events[i].from, events[i].next))
    && (forall i :: 0 < i < |events| ==> events[i].from == events[i - 1].next)
  }

  lemma PathExtends(events: seq<Event>, end: State, e: Event)
    requires Path(events, end) && e.from == end && Allowed(e.from, e.next)
    ensures Path(events + [e], e.next)
  {
    var longer := events + [e];
    forall i | 0 < i < |longer| ensures longer[i].from == longer[i - 1].next {
      if i == |events| {
        assert longer[i - 1] == events[i - 1];
      }
    }
  }

  /** Whatever happened before, a task that is approved went through independent review,
      discussion and final review one after the other, with nothing in between. */
  lemma ApprovalIsFresh(events: seq<Event>)
    requires Path(events, Approved)
    ensures |events| >= 5
    ensures var n := |events|;
            && events[n - 4].next == IndependentReview && events[n - 3].next == Discussion
            && events[n - 2].next == FinalReview && events[n - 1].next == Approved
  {
    var n := |events|;
    assert Allowed(events[n - 1].from, Approved);
    Entered(events, n - 1, FinalReview);
    Entered(events, n - 2, Discussion);
    Entered(events, n - 3, IndependentReview);
    assert events[n - 4].from != Draft;
  }

  /** A transition that cannot start in `draft` has one before it. */
  lemma Entered(events: seq<Event>, i: nat, from: State)
    requires |events| > 0 && Path(events, events[|events| - 1].next) && i < |events|
    requires events[i].from == from && from != Draft
    ensures i > 0 && events[i - 1].next == from && Allowed(events[i - 1].from, from)
  {
  }

  /** Publication comes straight after an approval, which no reissue can have skipped. */
  lemma PublicationFollowsApproval(events: seq<Event>)
    requires Path(events, Published)
    ensures |events| >= 6 && Path(events[..|events| - 1], Approved)
  {
    var n := |events|;
    Entered(events, n - 1, Approved);
    var before := events[..n - 1];
    assert before[|before| - 1] == events[n - 2];
    ApprovalIsFresh(before);
  }
}
