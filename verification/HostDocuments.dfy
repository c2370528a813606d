/**
  The contracts, requests, intents, receipts and results of a host mission
  (pathfinder_core/mission_host.py, host_protocol.py, operations.py).

  Document hashes are free constructors; JSON schemas and the protected-surface registry are
  arbitrary functions of the documents they look at.  Instants are microseconds.
*/
module HostDocuments {
  import opened Wrappers
  import opened MissionState
  import MissionHistory

  const SECOND := 1_000_000

  datatype Binding = Binding(identity: Identity, goals: int, attempts: int, wallSeconds: int,
                             surfaces: set<string>, rest: string)

  datatype Authorization = Authorization(authorizationId: string, missionId: string, bindingId: string, baseCommit: string,
                                         goals: int, attempts: int, wallSeconds: int, rest: string)

  /** What `start` persists under contracts/. */
  datatype Contracts = Contracts(binding: Binding, authorization: Authorization, boundary: string, protection: string)

  datatype DocumentHash =
    | OfBinding(binding: Binding) | OfAuthorization(authorization: Authorization)
    | OfBoundary(boundary: string) | OfProtection(protection: string)

  datatype Action = PrepareWorktree | ActivateGoal | Implement | Verify | Commit | CompleteGoal

  /** operation_id is a hash over exactly these values. */
  datatype OperationKey = OperationKey(missionId: string, attempt: Json, revision: nat, action: Action)

  datatype HostRequest = HostRequest(key: OperationKey, authorization: DocumentHash, boundary: DocumentHash,
                                     protection: DocumentHash, binding: DocumentHash, worktreeId: Json,
                                     nativeGoalId: Option<Json>, deadlineAt: int, requestedAt: int)

  datatype RequestHash = OfRequest(request: HostRequest)

  datatype Intent = Intent(key: OperationKey, action: Action, request: RequestHash, authorization: DocumentHash,
                           boundary: DocumentHash, protection: DocumentHash, startedAt: int)

  datatype Outcome = Succeeded | Failed | ManualHandoff | NotObserved | ReconcileRequired

  datatype EvidenceCode =
    | WorktreePrepared | GoalActive | ImplementationComplete | VerificationPassed | VerificationFailed
    | CommitCreated | GoalComplete | PublicationComplete | HandedOff | ActionFailed | NotFound | Ambiguous

  datatype Evidence = Evidence(code: EvidenceCode, stableId: Json, worktreePath: Json, branchId: Json,
                               branchName: Json, exitStatus: Option<int>, changedFiles: seq<string>)

  datatype Receipt = Receipt(key: OperationKey, action: Action, request: RequestHash, authorization: DocumentHash,
                             boundary: DocumentHash, outcome: Outcome, evidence: Evidence, completedAt: int)

  datatype ReceiptHash = OfReceipt(receipt: Receipt)

  /** `bound` stands for the ten fields a result repeats from its intent. */
  datatype OperationResult = OperationResult(bound: Intent, outcome: Outcome, summary: string, externalId: Json,
                                             exitStatus: Option<int>, output: ReceiptHash, completedAt: int)

  datatype Journal = Journal(intents: map<OperationKey, Intent>, receipts: map<OperationKey, Receipt>,
                             results: map<OperationKey, OperationResult>)

  /** One contract file. */
  datatype Paper = BindingPaper(binding: Binding) | AuthorizationPaper(authorization: Authorization) | TextPaper(text: string)

  /** The contract files in the order `start` writes them. */
  function Papers(c: Contracts): seq<Paper> {
    [BindingPaper(c.binding), AuthorizationPaper(c.authorization), TextPaper(c.boundary), TextPaper(c.protection)]
  }

  /** The contracts are what the four files say. */
  lemma PapersAre(b: Contracts, c: Contracts)
    requires Papers(b) <= Papers(c)
    ensures b == c
  {
    assert Papers(b)[0] == Papers(c)[0] && Papers(b)[1] == Papers(c)[1] && Papers(b)[2] == Papers(c)[2] && Papers(b)[3] == Papers(c)[3];
  }

  /** Everything durable under one mission directory; `draft` is the contract files while some are missing. */
  datatype Mission = Mission(draft: seq<Paper>, contracts: Option<Contracts>, store: MissionHistory.Disk, journal: Journal)

  const NoMission := Mission([], None, MissionHistory.Disk(None, map[]), Journal(map[], map[], map[]))

  function PapersOf(m: Mission): seq<Paper> { if m.contracts.Some? then Papers(m.contracts.value) else m.draft }

  datatype HostSchemas = HostSchemas(
    store: MissionHistory.Schemas, contracts: Contracts -> bool, request: HostRequest -> bool, intent: Intent -> bool,
    receipt: Receipt -> bool, result: OperationResult -> bool,
    attempt: (string, string) -> string, required: (string, seq<string>) -> set<string>)

  // ---------------------------------------------------------------- the action table

  function ActionOf(state: State): Option<Action> {
    match state
    case Authorized => Some(PrepareWorktree)
    case Prepared => Some(ActivateGoal)
    case Running => Some(Implement)
    case Verifying => Some(Verify)
    case Verified => Some(Commit)
    case Committed => Some(CompleteGoal)
    case _ => None
  }

  function Source(a: Action): State {
    match a
    case PrepareWorktree => Authorized
    case ActivateGoal => Prepared
    case Implement => Running
    case Verify => Verifying
    case Commit => Verified
    case CompleteGoal => Committed
  }

  function Target(a: Action): State {
    match a
    case PrepareWorktree => Prepared
    case ActivateGoal => Running
    case Implement => Verifying
    case Verify => Verified
    case Commit => Committed
    case CompleteGoal => AwaitingReview
  }

  function SuccessCode(a: Action): EvidenceCode {
    match a
    case PrepareWorktree => WorktreePrepared
    case ActivateGoal => GoalActive
    case Implement => ImplementationComplete
    case Verify => VerificationPassed
    case Commit => CommitCreated
    case CompleteGoal => GoalComplete
  }

  predicate Terminal(state: State) { state in {AwaitingReview, Merged, Blocked, Abandoned} }

  function SummaryCode(o: Outcome): string {
    match o
    case Succeeded => "completed"
    case Failed => "command-failed"
    case ManualHandoff => "backend-unavailable"
    case NotObserved => "not-found"
    case ReconcileRequired => "ambiguous"
  }

  // ---------------------------------------------------------------- what is derived from the contracts

  function Min(a: int, b: int): int { if a <= b then a else b }

  function AttemptOf(h: HostSchemas, c: Contracts): Json {
    Str(h.attempt(c.binding.identity.missionId, c.binding.identity.baseCommit))
  }

  function Deadline(c: Contracts, createdAt: int): int {
    createdAt + Min(c.binding.wallSeconds, c.authorization.wallSeconds) * SECOND
  }

  /** `_validate_contracts`; the schemas and the comparisons not spelled out are `h.contracts`. */
  predicate ContractsValid(h: HostSchemas, c: Contracts) {
    && h.contracts(c)
    && c.authorization.missionId == c.binding.identity.missionId
    && c.authorization.bindingId == c.binding.identity.bindingId
    && c.authorization.baseCommit == c.binding.identity.baseCommit
    && c.authorization.goals <= c.binding.goals && c.authorization.attempts <= c.binding.attempts
    && c.authorization.wallSeconds <= c.binding.wallSeconds
  }

  function InitialState(h: HostSchemas, c: Contracts, at: int): Document {
    Document(c.binding.identity, at, at, Planned, 0, MissionHistory.ResetFields[MissionState.AttemptId := AttemptOf(h, c)][NativeGoalId := Null])
  }

  /** `_validate_state_identity`; the dirty policy is not compared. */
  predicate IdentityHolds(h: HostSchemas, c: Contracts, d: Document) {
    && d.identity.missionId == c.binding.identity.missionId && d.identity.goalId == c.binding.identity.goalId
    && d.identity.bindingId == c.binding.identity.bindingId && d.identity.baseCommit == c.binding.identity.baseCommit
    && Get(d.fields, MissionState.AttemptId) == AttemptOf(h, c)
  }

  function KeyOf(d: Document, a: Action): OperationKey {
    OperationKey(d.identity.missionId, Get(d.fields, MissionState.AttemptId), d.revision, a)
  }

  function RequestFor(c: Contracts, d: Document, a: Action, now: int): HostRequest {
    HostRequest(KeyOf(d, a), OfAuthorization(c.authorization), OfBoundary(c.boundary), OfProtection(c.protection),
                OfBinding(c.binding), Get(d.fields, WorktreeId),
                if a == CompleteGoal then Some(Get(d.fields, NativeGoalId)) else None,
                Deadline(c, d.createdAt), now)
  }

  function IntentFor(c: Contracts, d: Document, a: Action, now: int): Intent {
    Intent(KeyOf(d, a), a, OfRequest(RequestFor(c, d, a, now)), OfAuthorization(c.authorization), OfBoundary(c.boundary),
           OfProtection(c.protection), now)
  }

  predicate Truthy(v: Json) { v.Str? && v.s != "" }

  /** `_operation_result`: a manual handoff is stored as a failure. */
  function ResultFor(intent: Intent, r: Receipt): OperationResult {
    OperationResult(intent, if r.outcome == ManualHandoff then Failed else r.outcome, SummaryCode(r.outcome),
                    r.evidence.stableId, r.evidence.exitStatus, OfReceipt(r), r.completedAt)
  }

  function SuccessChanges(a: Action, e: Evidence): Changes {
    match a
    case PrepareWorktree => map[WorktreeId := e.stableId, WorktreePath := e.worktreePath,
                                BranchId := e.branchId, BranchName := e.branchName]
    case Commit => map[CommitIds := List(if e.stableId.Str? then [e.stableId.s] else [])]
    case ActivateGoal => map[NativeGoalId := e.stableId]
    case _ => map[]
  }

  // ---------------------------------------------------------------- what a receipt may do

  datatype Advance = Keep | Apply(request: MissionHistory.Request) | Refuse

  /** `_advance`: a commit without a commit id cannot satisfy the state schema. */
  function PlanReceipt(d: Document, r: Receipt): Advance {
    var changes := SuccessChanges(r.action, r.evidence);
    var attempt := Some(Get(d.fields, MissionState.AttemptId));
    if d.state == Abandoned then Keep
    else if r.outcome != Succeeded then
      if d.state == Blocked then Keep
      else if d.state != Source(r.action) then Refuse
      else Apply(MissionHistory.Request(Blocked, attempt, map[]))
    else if r.evidence.code != SuccessCode(r.action) then Refuse
    else if d.state == Source(r.action) then
      if r.action == Commit && !r.evidence.stableId.Str? then Refuse
      else Apply(MissionHistory.Request(Target(r.action), attempt, changes))
    else if d.state == Target(r.action) || Terminal(d.state) || d.state in {Published, Committed} then
      if forall f :: f in changes ==> Get(d.fields, f) == changes[f] then Keep else Refuse
    else Refuse
  }

  /** The checks of `validate_receipt` and of the contracts, which do not depend on the state. */
  predicate ReceiptBound(h: HostSchemas, c: Contracts, intent: Intent, r: Receipt) {
    && ContractsValid(h, c)
    && intent.authorization == OfAuthorization(c.authorization) && intent.boundary == OfBoundary(c.boundary)
    && intent.protection == OfProtection(c.protection)
    && h.receipt(r)
    && r.key == intent.key && r.action == intent.action && r.request == intent.request
    && r.authorization == intent.authorization && r.boundary == intent.boundary
    && (r.outcome == ReconcileRequired ==> r.evidence.code == Ambiguous)
    && (r.outcome == ManualHandoff ==> r.evidence.code == HandedOff)
    && (r.outcome == Succeeded && r.action in {ActivateGoal, CompleteGoal} ==> Truthy(r.evidence.stableId))
    && (r.outcome == Succeeded ==> h.required(c.protection, r.evidence.changedFiles) <= c.binding.surfaces)
  }

  /** `_validate_receipt_for_state`, up to the trial run of `_advance`. */
  predicate ReceiptValid(h: HostSchemas, c: Contracts, d: Document, intent: Intent, r: Receipt) {
    && IdentityHolds(h, c, d)
    && ReceiptBound(h, c, intent, r)
    && (r.outcome == Succeeded && r.action == CompleteGoal ==> r.evidence.stableId == Get(d.fields, NativeGoalId))
    && (r.outcome == Succeeded ==> r.completedAt <= Deadline(c, d.createdAt))
  }

  /** The trial run: the move would be allowed and its document would fit the schema. */
  predicate PlanFits(h: HostSchemas, d: Document, r: Receipt, at: int) {
    match PlanReceipt(d, r)
    case Keep => true
    case Refuse => false
    case Apply(request) =>
      Transition(d, request.target, at).Some?
      && (r.outcome == Succeeded ==> h.store.state(Transition(d, request.target, at).value.(fields := d.fields + request.changes)))
  }
}
