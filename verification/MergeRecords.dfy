/** What the journal asks of a result before it records it (`_validate_result`, pathfinder_core/merge_journal.py). */
module MergeRecords {
  import opened Wrappers
  import opened MergeDocuments
  import opened MergeExecutor

  // ---------------------------------------------------------------- request ids

  /** An ASCII digit or letter, by its code. */
  ghost predicate DigitOrLetter(c: char) {
    var code := c as int;
    48 <= code < 58 || 65 <= code < 91 || 97 <= code < 123
  }

  /** A request id that the result schema admits. */
  ghost predicate ProperId(s: string) {
    && |s| >= 8 && |s| < 129 && DigitOrLetter(s[0])
    && forall c :: c in s ==> DigitOrLetter(c) || c == '.' || c == '_' || c == ':' || c == '-'
  }

  lemma AlphanumericExactly(c: char)
    ensures Alphanumeric(c) <==> DigitOrLetter(c)
  {}

  lemma ProperExactly(s: string)
    ensures RequestIdShape(s) <==> ProperId(s)
  {
    forall c ensures Alphanumeric(c) <==> DigitOrLetter(c) { AlphanumericExactly(c); }
    hide Alphanumeric, DigitOrLetter;
    if RequestIdShape(s) {
      forall c | c in s ensures DigitOrLetter(c) || c == '.' || c == '_' || c == ':' || c == '-' {
        var i :| 0 <= i < |s| && s[i] == c;
      }
    }
  }

  // ---------------------------------------------------------------- results

  /** Each reason belongs to one outcome, but for a malformed response, which may also leave the merge API unavailable. */
  ghost predicate Explains(reason: Reason, outcome: Outcome) {
    match reason
    case ConfirmedMerged => outcome == OutMerged
    case ConfirmedAfterResponseLoss => outcome == OutMerged
    case RemoteReportedNotMerged => outcome == OutNotMerged
    case HeadMismatch => outcome == OutNotMerged
    case Unmergeable => outcome == OutNotMerged
    case AlreadyMerged => outcome == OutNotMerged
    case ValidationFailed => outcome == OutNotMerged
    case DispatchNotStarted => outcome == OutReconcileRequired
    case TransportAmbiguous => outcome == OutReconcileRequired
    case MergeProofIncomplete => outcome == OutReconcileRequired
    case AuthenticationFailed => outcome == OutAuthError
    case RateLimitExceeded => outcome == OutRateLimited
    case PermissionDenied => outcome == OutPermissionMissing
    case NotFound => outcome == OutPermissionMissing
    case MalformedResponse => outcome == OutReconcileRequired || outcome == OutApiUnavailable
    case ServerError => outcome == OutApiUnavailable
  }

  lemma ExplainsExactly(outcome: Outcome, reason: Reason)
    ensures ReasonFits(outcome, reason) <==> Explains(reason, outcome)
  {}

  /** The proof is of the intended pull request, squashed on the intended base by the intended actor, and was read in time. */
  ghost predicate ProvesIntent(intent: Intent, p: MergeProof, completedAt: int) {
    && p.repositoryId == intent.repository.id && p.baseRef == intent.repository.baseBranch
    && p.pullRequestId == intent.pullRequest.id && p.pullRequestNodeId == intent.pullRequest.nodeId && p.pullRequestNumber == intent.pullRequest.number
    && p.headSha == intent.pullRequest.headSha && p.baseShaBefore == intent.pullRequest.baseSha
    && CommitId(p.mergeCommitSha) && p.baseShaAfter == p.mergeCommitSha && |p.parentShas| == 1 && p.parentShas[0] == intent.pullRequest.baseSha
    && p.mergedBy.actorId == intent.actor.actorId && p.mergedBy.actorNodeId == intent.actor.actorNodeId && p.mergedBy.login == intent.actor.login
    && p.endpointStatus == 204 && intent.startedAt <= p.mergedAt && p.mergedAt <= p.observedAt && p.observedAt <= completedAt
    && 3 < |p.requestIds| < 9 && (forall i :: 0 <= i < |p.requestIds| ==> ProperId(p.requestIds[i]))
    && forall i, j :: 0 <= i < j < |p.requestIds| ==> p.requestIds[i] != p.requestIds[j]
  }

  lemma ProvesIntentExactly(intent: Intent, p: MergeProof, completedAt: int)
    ensures ProofSchema(p) && ProofBinds(intent, p, completedAt) <==> ProvesIntent(intent, p, completedAt)
  {
    CommitIdExactly(p.mergeCommitSha);
    forall s ensures RequestIdShape(s) <==> ProperId(s) { ProperExactly(s); }
    hide CommitId, HexSha, RequestIdShape, ProperId;
    assert |p.parentShas| == 1 ==> p.parentShas == [p.parentShas[0]];
  }

  /** The result names its operation, the documents it was decided on, and a dispatch exactly if there is one. */
  ghost predicate BindsResult(inputs: Inputs, intent: Intent, dispatch: Option<Dispatch>, r: MergeResult) {
    && (forall l: Label :: l in inputs)
    && r.operationId == intent.operationId && r.intentSha == OfIntent(intent) && intent.startedAt <= r.completedAt
    && r.binding.proofSha == inputs[ReadinessProofDoc] && r.binding.policySha == inputs[PolicyDoc] && r.binding.authorizationSha == inputs[AuthorizationDoc]
    && r.binding.repositoryId == intent.repository.id && r.binding.repositoryNodeId == intent.repository.nodeId
    && r.binding.pullRequest == intent.pullRequest && r.binding.actor == intent.actor && r.binding.mergeMethod == intent.mergeMethod
    && (r.reason == DispatchNotStarted <==> dispatch == None)
    && (forall d :: dispatch == Some(d) ==>
          d.operationId == intent.operationId && d.intentSha == OfIntent(intent) && intent.startedAt <= d.startedAt && d.startedAt <= r.completedAt)
  }

  ghost predicate Recordable(inputs: Inputs, intent: Intent, dispatch: Option<Dispatch>, r: MergeResult) {
    && BindsResult(inputs, intent, dispatch, r) && Explains(r.reason, r.outcome)
    && (r.outcome == OutMerged ==> r.proof.Some? && ProvesIntent(intent, r.proof.value, r.completedAt))
    && (r.outcome != OutMerged ==> r.proof == None)
  }

  /** The journal accepts a result exactly when it is bound, its reason explains its outcome, and it is proven exactly if merged. */
  lemma ResultValidExactly(inputs: Inputs, intent: Intent, dispatch: Option<Dispatch>, r: MergeResult)
    ensures ResultValid(inputs, intent, dispatch, r) <==> Recordable(inputs, intent, dispatch, r)
  {
    ExplainsExactly(r.outcome, r.reason);
    if r.proof.Some? { ProvesIntentExactly(intent, r.proof.value, r.completedAt); }
    hide ReasonFits, Explains, ProvesIntent, ProofSchema, ProofBinds;
  }

  /** A reconciler reports only what it saw of the dispatch, and proves nothing. */
  lemma ReconcilerReports(inputs: Inputs, intent: Intent, dispatch: Option<Dispatch>, completedAt: int)
    requires HasEvery(inputs)
    ensures var r := ReconcileResult(inputs, intent, dispatch, completedAt);
            && r.outcome == OutReconcileRequired && r.proof == None && r.completedAt == completedAt
            && (dispatch.None? ==> r.reason == DispatchNotStarted) && (dispatch.Some? ==> r.reason == TransportAmbiguous)
  {}
}
