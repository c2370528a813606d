/** The mission document and its transition table (pathfinder_core/state.py). */
module MissionState {
  import opened Wrappers

  datatype State =
    | Planned | Authorized | Prepared | Running | Verifying | Verified
    | Committed | Published | AwaitingReview | Merged | Blocked | Abandoned

  /** The JSON values a transition may write into a mission document. */
  datatype Json = Null | Str(s: string) | List(items: seq<string>)

  /** The document keys a transition may change; every other key is `Fixed`. */
  datatype Field =
    | AuthorizationId | AttemptId | WorktreeId | WorktreePath | BranchId | BranchName
    | NativeGoalId | CommitIds | PrId | PrUrl | TerminalReason
    | Fixed(name: string)

  type Changes = map<Field, Json>

  datatype Identity = Identity(missionId: string, goalId: string, bindingId: string,
                               baseCommit: string, dirtyPolicy: string)

  /** state.json: the immutable keys are typed, the changeable ones are a dictionary. */
  datatype Document = Document(identity: Identity, createdAt: int, updatedAt: int,
                               state: State, revision: nat, fields: Changes)

  /** `document.get(key)`: an absent key reads as null. */
  function Get(fields: Changes, f: Field): Json {
    if f in fields then fields[f] else Null
  }

  function AllowedTransitions(s: State): set<State> {
    match s
    case Planned => {Authorized, Blocked, Abandoned}
    case Authorized => {Prepared, Blocked, Abandoned}
    case Prepared => {Running, Blocked, Abandoned}
    case Running => {Verifying, Blocked, Abandoned}
    case Verifying => {Verified, Running, Blocked, Abandoned}
    case Verified => {Committed, Blocked, Abandoned}
    case Committed => {Published, AwaitingReview, Blocked, Abandoned}
    case Published => {AwaitingReview, Blocked, Abandoned}
    case AwaitingReview => {Merged}
    case Merged => {}
    case Blocked => {}
    case Abandoned => {}
  }

  /** A self-transition returns the document unchanged and does not count as a revision. */
  function Transition(d: Document, target: State, at: int): Option<Document> {
    if target == d.state then Some(d)
    else if target !in AllowedTransitions(d.state) then None
    else Some(d.(state := target, revision := d.revision + 1, updatedAt := at))
  }
}
