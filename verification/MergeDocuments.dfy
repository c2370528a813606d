/**
  The documents of the merge journal and its directory (pathfinder_core/merge_journal.py).
  An input document stands for itself by its validated canonical hash, and the hash of an intent
  is a free constructor over it.
*/
module MergeDocuments {
  import opened Wrappers

  type OperationId = string

  datatype Repository = Repository(id: int, nodeId: string, baseBranch: string)

  datatype PullRequest = PullRequest(id: int, nodeId: string, number: int, headSha: string, baseSha: string)

  datatype Actor = Actor(appId: int, installationId: int, actorId: int, actorNodeId: string, login: string)

  /** The three keys an intent spends. */
  datatype Bindings = Bindings(authorizationId: string, authorizationSha: string, proofSha: string)

  datatype Intent = Intent(operationId: OperationId, bindings: Bindings, repository: Repository,
                           pullRequest: PullRequest, actor: Actor, mergeMethod: string, startedAt: int)

  datatype IntentHash = OfIntent(intent: Intent)

  datatype Label =
    | PolicyDoc | AuthorizationDoc | CredentialReceiptDoc | ProtectedPolicyDoc
    | InitialEvidenceDoc | RereadEvidenceDoc | ReadinessProofDoc

  const InputFiles: seq<Label> := [PolicyDoc, AuthorizationDoc, CredentialReceiptDoc, ProtectedPolicyDoc,
                                   InitialEvidenceDoc, RereadEvidenceDoc, ReadinessProofDoc]

  type Inputs = map<Label, string>

  datatype Dispatch = Dispatch(operationId: OperationId, intentSha: IntentHash, startedAt: int)

  datatype Outcome =
    | OutMerged | OutNotMerged | OutReconcileRequired | OutAuthError
    | OutRateLimited | OutPermissionMissing | OutApiUnavailable

  datatype Reason =
    | ConfirmedMerged | ConfirmedAfterResponseLoss | RemoteReportedNotMerged | HeadMismatch
    | Unmergeable | AlreadyMerged | ValidationFailed | DispatchNotStarted | TransportAmbiguous
    | MergeProofIncomplete | AuthenticationFailed | RateLimitExceeded | PermissionDenied
    | NotFound | MalformedResponse | ServerError

  datatype ProofSource = ResponseAndReread | ReconciliationReread

  datatype MergedBy = MergedBy(actorId: int, actorNodeId: string, login: string)

  datatype MergeProof = MergeProof(
    source: ProofSource, repositoryId: int, pullRequestId: int, pullRequestNodeId: string,
    pullRequestNumber: int, headSha: string, baseRef: string, baseShaBefore: string,
    baseShaAfter: string, mergeCommitSha: string, parentShas: seq<string>, mergedAt: int,
    mergedBy: MergedBy, endpointStatus: int, requestIds: seq<string>, observedAt: int)

  datatype ResultBinding = ResultBinding(proofSha: string, policySha: string, authorizationSha: string,
                                         repositoryId: int, repositoryNodeId: string,
                                         pullRequest: PullRequest, actor: Actor, mergeMethod: string)

  datatype MergeResult = MergeResult(operationId: OperationId, intentSha: IntentHash, outcome: Outcome,
                                     reason: Reason, binding: ResultBinding, proof: Option<MergeProof>,
                                     completedAt: int)

  /** merge-operations/, one map per kind of file. */
  datatype Directory = Directory(inputs: map<(OperationId, Label), string>, intents: map<OperationId, Intent>,
                                 dispatches: map<OperationId, Dispatch>, results: map<OperationId, MergeResult>)

  const EmptyDirectory := Directory(map[], map[], map[], map[])

  // ---------------------------------------------------------------- what the journal checks

  lemma EveryLabelListed(l: Label)
    ensures exists k :: 0 <= k < |InputFiles| && InputFiles[k] == l
  {
    var k := match l
      case PolicyDoc => 0
      case AuthorizationDoc => 1
      case CredentialReceiptDoc => 2
      case ProtectedPolicyDoc => 3
      case InitialEvidenceDoc => 4
      case RereadEvidenceDoc => 5
      case ReadinessProofDoc => 6;
    assert InputFiles[k] == l;
  }

  predicate HasEvery(inputs: Inputs) { forall l: Label :: l in inputs }

  /**
    `_validate_inputs`: the hash bindings and method are spelled out, the evaluator replay and the
    other identity comparisons are the given predicate.
  */
  predicate InputsValid(valid: (Inputs, Intent) -> bool, inputs: Inputs, intent: Intent) {
    && HasEvery(inputs)
    && intent.bindings.authorizationSha == inputs[AuthorizationDoc]
    && intent.bindings.proofSha == inputs[ReadinessProofDoc]
    && intent.mergeMethod == "squash"
    && valid(inputs, intent)
  }

  predicate SharesKey(a: Bindings, b: Bindings) {
    a.authorizationId == b.authorizationId || a.authorizationSha == b.authorizationSha || a.proofSha == b.proofSha
  }

  /** `_assert_authorization_unspent`. */
  predicate Unspent(d: Directory, intent: Intent) {
    forall op :: op in d.intents && op != intent.operationId ==> !SharesKey(d.intents[op].bindings, intent.bindings)
  }

  /** `_write_once`: an absent key is written, an equal document is left, a different one is refused. */
  predicate Writable<K, V(==)>(files: map<K, V>, key: K, document: V) {
    key !in files || files[key] == document
  }

  predicate InputsPresent(d: Directory, op: OperationId) {
    forall l: Label :: (op, l) in d.inputs
  }

  function InputsOf(d: Directory, op: OperationId): (inputs: Inputs)
    requires InputsPresent(d, op)
    ensures HasEvery(inputs) && forall l: Label :: inputs[l] == d.inputs[(op, l)]
  {
    map l: Label | true :: d.inputs[(op, l)]
  }

  /** `_load_inputs` succeeds. */
  predicate Loadable(valid: (Inputs, Intent) -> bool, d: Directory, op: OperationId) {
    op in d.intents && InputsPresent(d, op) && InputsValid(valid, InputsOf(d, op), d.intents[op])
  }

  /** The checks `dispatch_once` makes before it hands control to the backend. */
  predicate DispatchAllowed(valid: (Inputs, Intent) -> bool, d: Directory, op: OperationId, intentSha: IntentHash, startedAt: int) {
    && Loadable(valid, d, op) && intentSha == OfIntent(d.intents[op])
    && op !in d.results && op !in d.dispatches && d.intents[op].startedAt <= startedAt
  }
}
