/**
  What the merge executor concludes from GitHub's answers, and what the journal independently
  demands of a result before recording it (pathfinder_core/merge_executor.py,
  pathfinder_core/merge_journal.py).
*/
module MergeExecutor {
  import opened Wrappers
  import opened MergeDocuments

  /** The fields of a complete four-request observation. */
  datatype Observed = Observed(
    repositoryId: int, repositoryNodeId: string, pullRequestId: int, pullRequestNodeId: string,
    pullRequestNumber: int, state: string, merged: bool, headSha: string, headRepositoryId: int,
    baseRef: string, baseRepositoryId: int, mergeCommitSha: string, mergedAt: int,
    mergedBy: MergedBy, endpointStatus: int, baseShaAfter: string, parentShas: seq<string>,
    requestIds: seq<string>, observedAt: int)

  datatype Observation = Incomplete | Complete(observed: Observed)

  /** The merge endpoint's answer; `limited` is the rate-limit header test made on a 403. */
  datatype Response = Response(status: int, requestId: Option<string>, merged: bool, sha: string,
                               malformed: bool, limited: bool)

  datatype Reply = Lost | Answer(response: Response)

  predicate HexSha(s: string) {
    |s| == 40 && forall i :: 0 <= i < |s| ==> ('0' <= s[i] <= '9') || ('a' <= s[i] <= 'f')
  }

  predicate Distinct<T(==)>(s: seq<T>) { forall i, j :: 0 <= i < j < |s| ==> s[i] != s[j] }

  /** The observation names exactly the intended pull request, squash-merged by the intended actor. */
  predicate NamesIntent(intent: Intent, o: Observed) {
    && o.repositoryId == intent.repository.id && o.repositoryNodeId == intent.repository.nodeId
    && o.pullRequestId == intent.pullRequest.id && o.pullRequestNodeId == intent.pullRequest.nodeId
    && o.pullRequestNumber == intent.pullRequest.number && o.state == "closed" && o.merged
    && o.headSha == intent.pullRequest.headSha && o.headRepositoryId == intent.repository.id
    && o.baseRef == intent.repository.baseBranch && o.baseRepositoryId == intent.repository.id
    && o.baseShaAfter == o.mergeCommitSha && o.parentShas == [intent.pullRequest.baseSha]
    && o.mergedBy == MergedBy(intent.actor.actorId, intent.actor.actorNodeId, intent.actor.login)
    && o.endpointStatus == 204
  }

  /** The request ids a proof carries: a trusted response contributes its own first. */
  function ProofRequestIds(source: ProofSource, response: Option<Response>, o: Observed): Option<seq<string>> {
    if source == ReconciliationReread then Some(o.requestIds)
    else if response.Some? && response.value.requestId.Some? && response.value.sha == o.mergeCommitSha
    then Some([response.value.requestId.value] + o.requestIds)
    else None
  }

  function Proof(intent: Intent, observation: Observation, source: ProofSource, response: Option<Response>,
                 completedAt: int, dispatchStartedAt: int): Option<MergeProof> {
    if observation.Incomplete? then None
    else
      var o := observation.observed;
      var ids := ProofRequestIds(source, response, o);
      if !NamesIntent(intent, o) || !HexSha(o.mergeCommitSha)
         || |o.requestIds| != 4 || !Distinct(o.requestIds) || "" in o.requestIds || ids.None?
         || !(intent.startedAt <= dispatchStartedAt <= o.mergedAt <= o.observedAt <= completedAt)
         || !Distinct(ids.value)
      then None
      else Some(MergeProof(source, intent.repository.id, intent.pullRequest.id, intent.pullRequest.nodeId,
                           intent.pullRequest.number, intent.pullRequest.headSha, intent.repository.baseBranch,
                           intent.pullRequest.baseSha, o.mergeCommitSha, o.mergeCommitSha,
                           [intent.pullRequest.baseSha], o.mergedAt, o.mergedBy, 204, ids.value, o.observedAt))
  }

  function MakeResult(inputs: Inputs, intent: Intent, outcome: Outcome, reason: Reason,
                      completedAt: int, proof: Option<MergeProof>): MergeResult
    requires HasEvery(inputs)
  {
    MergeResult(intent.operationId, OfIntent(intent), outcome, reason,
                ResultBinding(inputs[ReadinessProofDoc], inputs[PolicyDoc], inputs[AuthorizationDoc],
                              intent.repository.id, intent.repository.nodeId, intent.pullRequest, intent.actor, "squash"),
                proof, completedAt)
  }

  /** Statuses with a fixed meaning: (outcome, reason). */
  function StatusOutcome(r: Response): (Outcome, Reason) {
    if r.status == 401 then (OutAuthError, AuthenticationFailed)
    else if r.status == 403 && r.limited then (OutRateLimited, RateLimitExceeded)
    else if r.status == 403 then (OutPermissionMissing, PermissionDenied)
    else if r.status == 404 then (OutPermissionMissing, NotFound)
    else if r.status == 409 then (OutNotMerged, HeadMismatch)
    else if r.status == 422 then (OutNotMerged, ValidationFailed)
    else (OutRateLimited, RateLimitExceeded)
  }

  const KnownFailures: set<int> := {401, 403, 404, 405, 409, 422, 429}

  /** The result `execute` builds after its dispatch returned or was lost. */
  function ExecuteResult(inputs: Inputs, intent: Intent, dispatch: Dispatch, reply: Reply,
                         observation: Observation, completedAt: int): MergeResult
    requires HasEvery(inputs)
  {
    var reread := Proof(intent, observation, ReconciliationReread, None, completedAt, dispatch.startedAt);
    match reply
    case Lost =>
      if reread.Some? then MakeResult(inputs, intent, OutMerged, ConfirmedAfterResponseLoss, completedAt, reread)
      else MakeResult(inputs, intent, OutReconcileRequired,
                      if observation.Incomplete? then TransportAmbiguous else MergeProofIncomplete, completedAt, None)
    case Answer(r) =>
      if r.status == 200 && !r.malformed then
        if !r.merged then MakeResult(inputs, intent, OutNotMerged, RemoteReportedNotMerged, completedAt, None)
        else
          var confirmed := Proof(intent, observation, ResponseAndReread, Some(r), completedAt, dispatch.startedAt);
          if confirmed.None? then MakeResult(inputs, intent, OutReconcileRequired, MergeProofIncomplete, completedAt, None)
          else MakeResult(inputs, intent, OutMerged, ConfirmedMerged, completedAt, confirmed)
      else if r.malformed then MakeResult(inputs, intent, OutReconcileRequired, MalformedResponse, completedAt, None)
      else if r.status >= 500 || r.status !in KnownFailures then
        MakeResult(inputs, intent, OutApiUnavailable, ServerError, completedAt, None)
      else if r.status == 405 then
        MakeResult(inputs, intent, OutNotMerged, if reread.Some? then AlreadyMerged else Unmergeable, completedAt, None)
      else
        MakeResult(inputs, intent, StatusOutcome(r).0, StatusOutcome(r).1, completedAt, None)
  }

  /** The result `reconcile` builds: it observes, but credits nothing. */
  function ReconcileResult(inputs: Inputs, intent: Intent, dispatch: Option<Dispatch>, completedAt: int): MergeResult
    requires HasEvery(inputs)
  {
    MakeResult(inputs, intent, OutReconcileRequired,
               if dispatch.None? then DispatchNotStarted else TransportAmbiguous, completedAt, None)
  }

  // ---------------------------------------------------------------- the journal's own validation

  predicate Alphanumeric(c: char) { ('0' <= c <= '9') || ('a' <= c <= 'z') || ('A' <= c <= 'Z') }

  /** The request-id pattern of merge-result.schema.json: 8 to 128 characters. */
  predicate RequestIdShape(s: string) {
    && 8 <= |s| <= 128 && Alphanumeric(s[0])
    && forall i :: 1 <= i < |s| ==> Alphanumeric(s[i]) || s[i] in {'.', '_', ':', '-'}
  }

  predicate ReasonFits(outcome: Outcome, reason: Reason) {
    match outcome
    case OutMerged => reason in {ConfirmedMerged, ConfirmedAfterResponseLoss}
    case OutNotMerged => reason in {RemoteReportedNotMerged, HeadMismatch, Unmergeable, AlreadyMerged, ValidationFailed}
    case OutReconcileRequired => reason in {DispatchNotStarted, TransportAmbiguous, MergeProofIncomplete, MalformedResponse}
    case OutAuthError => reason == AuthenticationFailed
    case OutRateLimited => reason == RateLimitExceeded
    case OutPermissionMissing => reason in {PermissionDenied, NotFound}
    case OutApiUnavailable => reason in {MalformedResponse, ServerError}
  }

  predicate ProofSchema(p: MergeProof) {
    && |p.parentShas| == 1 && HexSha(p.mergeCommitSha) && p.endpointStatus == 204
    && 4 <= |p.requestIds| <= 8 && Distinct(p.requestIds)
    && forall i :: 0 <= i < |p.requestIds| ==> RequestIdShape(p.requestIds[i])
  }

  predicate ResultSchema(r: MergeResult) {
    && ReasonFits(r.outcome, r.reason)
    && (r.outcome == OutMerged <==> r.proof.Some?)
    && (r.proof.Some? ==> ProofSchema(r.proof.value))
  }

  predicate ProofBinds(intent: Intent, p: MergeProof, completedAt: int) {
    && p.repositoryId == intent.repository.id && p.pullRequestId == intent.pullRequest.id
    && p.pullRequestNodeId == intent.pullRequest.nodeId && p.pullRequestNumber == intent.pullRequest.number
    && p.headSha == intent.pullRequest.headSha && p.baseShaBefore == intent.pullRequest.baseSha
    && p.mergedBy == MergedBy(intent.actor.actorId, intent.actor.actorNodeId, intent.actor.login)
    && p.baseRef == intent.repository.baseBranch && p.baseShaAfter == p.mergeCommitSha
    && p.parentShas == [intent.pullRequest.baseSha] && p.endpointStatus == 204
    && intent.startedAt <= p.mergedAt <= p.observedAt <= completedAt
  }

  /** `_validate_result`. */
  predicate ResultValid(inputs: Inputs, intent: Intent, dispatch: Option<Dispatch>, r: MergeResult) {
    && HasEvery(inputs)
    && ResultSchema(r)
    && r.operationId == intent.operationId && r.intentSha == OfIntent(intent)
    && r.binding == ResultBinding(inputs[ReadinessProofDoc], inputs[PolicyDoc], inputs[AuthorizationDoc],
                                  intent.repository.id, intent.repository.nodeId, intent.pullRequest, intent.actor, intent.mergeMethod)
    && (r.reason == DispatchNotStarted <==> dispatch.None?)
    && intent.startedAt <= r.completedAt
    && (dispatch.Some? ==>
          && dispatch.value.operationId == intent.operationId && dispatch.value.intentSha == OfIntent(intent)
          && intent.startedAt <= dispatch.value.startedAt <= r.completedAt)
    && (r.outcome == OutMerged ==> r.proof.Some? && ProofBinds(intent, r.proof.value, r.completedAt))
  }

  // ---------------------------------------------------------------- what is credited, and what is accepted

  ghost predicate Shaped(ids: seq<string>) { forall i :: 0 <= i < |ids| ==> RequestIdShape(ids[i]) }

  /** An intent as the executor holds it: created at execution time, its dispatch naming it. */
  ghost predicate Dispatched(inputs: Inputs, intent: Intent, dispatch: Dispatch) {
    && HasEvery(inputs) && intent.mergeMethod == "squash"
    && dispatch.operationId == intent.operationId && dispatch.intentSha == OfIntent(intent)
    && intent.startedAt <= dispatch.startedAt
  }

  lemma ProofBindsIntent(intent: Intent, observation: Observation, source: ProofSource, response: Option<Response>,
                         completedAt: int, dispatchStartedAt: int)
    requires Proof(intent, observation, source, response, completedAt, dispatchStartedAt).Some?
    ensures var p := Proof(intent, observation, source, response, completedAt, dispatchStartedAt).value;
            ProofBinds(intent, p, completedAt) && (Shaped(p.requestIds) <==> ProofSchema(p))
  {}

  /** Every result `execute` builds passes the journal's validation but for the shape of the ids it would persist. */
  lemma ResultValidIfShaped(inputs: Inputs, intent: Intent, dispatch: Dispatch, reply: Reply,
                            observation: Observation, completedAt: int)
    requires Dispatched(inputs, intent, dispatch) && dispatch.startedAt <= completedAt
    ensures var r := ExecuteResult(inputs, intent, dispatch, reply, observation, completedAt);
            ResultValid(inputs, intent, Some(dispatch), r) <==> (r.proof.Some? ==> Shaped(r.proof.value.requestIds))
  {
    var reread := Proof(intent, observation, ReconciliationReread, None, completedAt, dispatch.startedAt);
    if reread.Some? { ProofBindsIntent(intent, observation, ReconciliationReread, None, completedAt, dispatch.startedAt); }
    if reply.Answer? {
      var r := reply.response;
      if Proof(intent, observation, ResponseAndReread, Some(r), completedAt, dispatch.startedAt).Some? {
        ProofBindsIntent(intent, observation, ResponseAndReread, Some(r), completedAt, dispatch.startedAt);
      }
    }
  }

  /** A reconciliation result is valid exactly when the dispatch it saw is the one on disk. */
  lemma ReconcileResultValidExactly(inputs: Inputs, intent: Intent, seen: Option<Dispatch>, current: Option<Dispatch>, completedAt: int)
    requires HasEvery(inputs) && intent.mergeMethod == "squash" && intent.startedAt <= completedAt
    requires current.Some? ==> Dispatched(inputs, intent, current.value) && current.value.startedAt <= completedAt
    ensures ResultValid(inputs, intent, current, ReconcileResult(inputs, intent, seen, completedAt)) <==> (seen.None? <==> current.None?)
  {}

  /** A lower-case hexadecimal commit id. */
  ghost predicate CommitId(s: string) { |s| == 40 && forall i :: 0 <= i < 40 ==> s[i] in "0123456789abcdef" }

  lemma CommitIdExactly(s: string)
    ensures CommitId(s) <==> HexSha(s)
  {
    forall c: char ensures c in "0123456789abcdef" <==> ('0' <= c <= '9') || ('a' <= c <= 'f') { HexDigit(c); }
  }

  lemma HexDigit(c: char)
    ensures c in "0123456789abcdef" <==> ('0' <= c <= '9') || ('a' <= c <= 'f')
  {
    var digits := "0123456789abcdef";
    assert digits[0] == '0' && digits[1] == '1' && digits[2] == '2' && digits[3] == '3' && digits[4] == '4' && digits[5] == '5' && digits[6] == '6' && digits[7] == '7';
    assert digits[8] == '8' && digits[9] == '9' && digits[10] == 'a' && digits[11] == 'b' && digits[12] == 'c' && digits[13] == 'd' && digits[14] == 'e' && digits[15] == 'f';
    assert '0' <= c <= '9' ==> digits[c as int - '0' as int] == c;
    assert 'a' <= c <= 'f' ==> digits[c as int - 'a' as int + 10] == c;
  }

  /**
    The intended pull request, closed as merged: its head, of the same repository, became one commit on top of the
    intended base, by the intended actor, and that commit is what the base branch points at.
  */
  ghost predicate ShowsSquash(intent: Intent, o: Observed) {
    && o.repositoryId == intent.repository.id && o.headRepositoryId == intent.repository.id && o.baseRepositoryId == intent.repository.id
    && o.repositoryNodeId == intent.repository.nodeId && o.baseRef == intent.repository.baseBranch
    && o.pullRequestId == intent.pullRequest.id && o.pullRequestNodeId == intent.pullRequest.nodeId && o.pullRequestNumber == intent.pullRequest.number
    && o.headSha == intent.pullRequest.headSha && o.state == "closed" && o.merged && o.endpointStatus == 204
    && |o.parentShas| == 1 && o.parentShas[0] == intent.pullRequest.baseSha
    && CommitId(o.mergeCommitSha) && o.baseShaAfter == o.mergeCommitSha
    && o.mergedBy.actorId == intent.actor.actorId && o.mergedBy.actorNodeId == intent.actor.actorNodeId && o.mergedBy.login == intent.actor.login
  }

  lemma ShowsSquashExactly(intent: Intent, o: Observed)
    ensures ShowsSquash(intent, o) <==> NamesIntent(intent, o) && HexSha(o.mergeCommitSha)
  {
    CommitIdExactly(o.mergeCommitSha);
    hide CommitId, HexSha;
    assert |o.parentShas| == 1 ==> o.parentShas == [o.parentShas[0]];
  }

  /** Four requests, each with an id of its own. */
  ghost predicate FourRequests(ids: seq<string>) {
    |ids| == 4 && (forall i :: 0 <= i < 4 ==> ids[i] != "") && forall i, j :: 0 <= i < j < 4 ==> ids[i] != ids[j]
  }

  /** A complete reread that by itself proves the squash of the intended pull request since the dispatch. */
  ghost predicate RereadProves(intent: Intent, dispatch: Dispatch, observation: Observation, completedAt: int) {
    && observation.Complete?
    && var o := observation.observed;
       && ShowsSquash(intent, o) && FourRequests(o.requestIds)
       && intent.startedAt <= dispatch.startedAt <= o.mergedAt <= o.observedAt <= completedAt
  }

  lemma RereadIsProof(intent: Intent, dispatch: Dispatch, observation: Observation, completedAt: int)
    ensures RereadProves(intent, dispatch, observation, completedAt)
            <==> Proof(intent, observation, ReconciliationReread, None, completedAt, dispatch.startedAt).Some?
  {
    if observation.Complete? {
      ShowsSquashExactly(intent, observation.observed);
      FourRequestsExactly(observation.observed.requestIds);
    }
    hide NamesIntent, ShowsSquash, FourRequests, HexSha;
  }

  lemma FourRequestsExactly(ids: seq<string>)
    ensures FourRequests(ids) <==> |ids| == 4 && Distinct(ids) && "" !in ids
  {}

  /**
    A trusted 200 that says so or a lost response, and a complete reread that proves the exact squash of
    the intended pull request by the intended actor between the dispatch and the reread.
  */
  ghost predicate Credits(intent: Intent, dispatch: Dispatch, reply: Reply, observation: Observation, completedAt: int) {
    && (reply.Lost? || (reply.response.status == 200 && !reply.response.malformed && reply.response.merged))
    && RereadProves(intent, dispatch, observation, completedAt)
    && (reply.Answer? ==>
          && reply.response.requestId.Some? && reply.response.requestId.value !in observation.observed.requestIds
          && reply.response.sha == observation.observed.mergeCommitSha)
  }

  /** The proof with a trusted answer: the reread proves it, and the answer names the same commit under an id of its own. */
  lemma ConfirmedIsProof(intent: Intent, dispatch: Dispatch, r: Response, observation: Observation, completedAt: int)
    ensures Proof(intent, observation, ResponseAndReread, Some(r), completedAt, dispatch.startedAt).Some? <==>
              && RereadProves(intent, dispatch, observation, completedAt)
              && r.requestId.Some? && r.requestId.value !in observation.observed.requestIds && r.sha == observation.observed.mergeCommitSha
  {
    RereadIsProof(intent, dispatch, observation, completedAt);
    hide RereadProves, NamesIntent, HexSha, Distinct;
    if observation.Complete? && r.requestId.Some? { DistinctWith(r.requestId.value, observation.observed.requestIds); }
  }

  lemma DistinctWith(id: string, ids: seq<string>)
    ensures Distinct([id] + ids) <==> Distinct(ids) && id !in ids
  {
    var all := [id] + ids;
    assert forall i :: 0 <= i < |ids| ==> all[i + 1] == ids[i];
    if Distinct(all) {
      forall i, j | 0 <= i < j < |ids| ensures ids[i] != ids[j] { assert all[i + 1] != all[j + 1]; }
      forall i | 0 <= i < |ids| ensures ids[i] != id { assert all[0] != all[i + 1]; }
    }
  }

  /** `execute` credits a merge on exactly this evidence. */
  lemma CreditsOnlyProvenMerges(inputs: Inputs, intent: Intent, dispatch: Dispatch, reply: Reply,
                                observation: Observation, completedAt: int)
    requires HasEvery(inputs)
    ensures var r := ExecuteResult(inputs, intent, dispatch, reply, observation, completedAt);
            r.outcome == OutMerged <==> Credits(intent, dispatch, reply, observation, completedAt)
  {
    RereadIsProof(intent, dispatch, observation, completedAt);
    if reply.Answer? { ConfirmedIsProof(intent, dispatch, reply.response, observation, completedAt); }
    hide RereadProves, Proof;
  }

  /**
    What an answer that is not malformed is reported as. Only a 200 that denies the merge, or a refusal
    of the request itself, says that nothing was merged; any other failure leaves that open.
  */
  predicate AnswerReported(r: Response, outcome: Outcome, reason: Reason, credited: bool, proven: bool) {
    && (outcome == OutNotMerged <==> (r.status == 200 && !r.merged) || r.status in {405, 409, 422})
    && (outcome == OutMerged <==> r.status == 200 && r.merged && credited)
    && (outcome == OutReconcileRequired <==> r.status == 200 && r.merged && !credited)
    && (outcome == OutAuthError <==> r.status == 401)
    && (outcome == OutRateLimited <==> (r.status == 403 && r.limited) || r.status == 429)
    && (outcome == OutPermissionMissing <==> (r.status == 403 && !r.limited) || r.status == 404)
    && (outcome == OutApiUnavailable <==> r.status !in {200, 401, 403, 404, 405, 409, 422, 429})
    && (reason == RemoteReportedNotMerged <==> r.status == 200 && !r.merged)
    && (reason == ConfirmedMerged <==> r.status == 200 && r.merged && credited)
    && (reason == MergeProofIncomplete <==> r.status == 200 && r.merged && !credited)
    && (reason == AuthenticationFailed <==> r.status == 401)
    && (reason == RateLimitExceeded <==> (r.status == 403 && r.limited) || r.status == 429)
    && (reason == PermissionDenied <==> r.status == 403 && !r.limited)
    && (reason == NotFound <==> r.status == 404)
    && (reason == AlreadyMerged <==> r.status == 405 && proven)
    && (reason == Unmergeable <==> r.status == 405 && !proven)
    && (reason == HeadMismatch <==> r.status == 409)
    && (reason == ValidationFailed <==> r.status == 422)
    && (reason == ServerError <==> r.status !in {200, 401, 403, 404, 405, 409, 422, 429})
  }

  /** Every reply of the merge endpoint has one outcome and one reason, and these are they. */
  lemma EveryReplyIsReported(inputs: Inputs, intent: Intent, dispatch: Dispatch, reply: Reply,
                             observation: Observation, completedAt: int)
    requires HasEvery(inputs)
    ensures var r := ExecuteResult(inputs, intent, dispatch, reply, observation, completedAt);
            var credited := Credits(intent, dispatch, reply, observation, completedAt);
            var proven := RereadProves(intent, dispatch, observation, completedAt);
            match reply
            case Lost =>
              && (proven ==> r.outcome == OutMerged && r.reason == ConfirmedAfterResponseLoss)
              && (!proven ==> r.outcome == OutReconcileRequired)
              && (!proven && observation.Incomplete? ==> r.reason == TransportAmbiguous)
              && (!proven && observation.Complete? ==> r.reason == MergeProofIncomplete)
            case Answer(a) =>
              if a.malformed then r.outcome == OutReconcileRequired && r.reason == MalformedResponse
              else AnswerReported(a, r.outcome, r.reason, credited, proven)
  {
    CreditsOnlyProvenMerges(inputs, intent, dispatch, reply, observation, completedAt);
    RereadIsProof(intent, dispatch, observation, completedAt);
    hide Proof, Credits, RereadProves, NamesIntent;
  }

  /** The proof recorded with a credited merge is the commit, the time and the observation that were read. */
  lemma CreditedProofIsObserved(inputs: Inputs, intent: Intent, dispatch: Dispatch, reply: Reply,
                                observation: Observation, completedAt: int)
    requires HasEvery(inputs) && Credits(intent, dispatch, reply, observation, completedAt)
    ensures var r := ExecuteResult(inputs, intent, dispatch, reply, observation, completedAt);
            && r.proof.Some? && r.completedAt == completedAt
            && var p, o := r.proof.value, observation.observed;
               && p.source == (if reply.Lost? then ReconciliationReread else ResponseAndReread)
               && p.mergeCommitSha == o.mergeCommitSha && p.mergedAt == o.mergedAt && p.observedAt == o.observedAt
               && p.mergedBy == o.mergedBy && p.parentShas == o.parentShas && p.baseShaAfter == o.baseShaAfter
               && p.headSha == o.headSha && p.pullRequestId == o.pullRequestId && p.repositoryId == o.repositoryId
               && p.requestIds == (if reply.Lost? then [] else [reply.response.requestId.value]) + o.requestIds
  {
    CreditsOnlyProvenMerges(inputs, intent, dispatch, reply, observation, completedAt);
    MergedCarriesIds(inputs, intent, dispatch, reply, observation, completedAt);
    hide Credits, HexSha, Distinct;
  }

  /** Some request id the executor received, from the reread or with the answer, is not one the result schema admits. */
  predicate ShapelessId(reply: Reply, observation: Observation) {
    || (observation.Complete? && exists i :: 0 <= i < |observation.observed.requestIds| && !RequestIdShape(observation.observed.requestIds[i]))
    || (reply.Answer? && reply.response.requestId.Some? && !RequestIdShape(reply.response.requestId.value))
  }

  lemma ShapedTogether(id: string, ids: seq<string>)
    ensures Shaped([id] + ids) <==> RequestIdShape(id) && Shaped(ids)
  {
    assert ([id] + ids)[0] == id && forall i :: 0 <= i < |ids| ==> ([id] + ids)[i + 1] == ids[i];
  }

  lemma MergedCarriesIds(inputs: Inputs, intent: Intent, dispatch: Dispatch, reply: Reply, observation: Observation, completedAt: int)
    requires HasEvery(inputs)
    ensures var r := ExecuteResult(inputs, intent, dispatch, reply, observation, completedAt);
            r.proof.Some? <==> r.outcome == OutMerged
    ensures var r := ExecuteResult(inputs, intent, dispatch, reply, observation, completedAt);
            r.proof.Some? ==> && observation.Complete? && (reply.Answer? ==> reply.response.requestId.Some?)
                              && r.proof.value.requestIds == (if reply.Lost? then [] else [reply.response.requestId.value]) + observation.observed.requestIds
  {
    if observation.Complete? { assert [] + observation.observed.requestIds == observation.observed.requestIds; }
  }

  /**
    With a clock that does not run backwards, the journal refuses a result `execute` builds if and only
    if the merge is credited and one of the request ids received is not one the result schema admits.
    The executor itself only checks that they are non-empty and distinct.
  */
  lemma ExecuteResultValidExactly(inputs: Inputs, intent: Intent, dispatch: Dispatch, reply: Reply,
                                  observation: Observation, completedAt: int)
    requires Dispatched(inputs, intent, dispatch) && dispatch.startedAt <= completedAt
    ensures !ResultValid(inputs, intent, Some(dispatch), ExecuteResult(inputs, intent, dispatch, reply, observation, completedAt))
            <==> Credits(intent, dispatch, reply, observation, completedAt) && ShapelessId(reply, observation)
  {
    hide ResultValid, ExecuteResult, Credits, RequestIdShape;
    ResultValidIfShaped(inputs, intent, dispatch, reply, observation, completedAt);
    CreditsOnlyProvenMerges(inputs, intent, dispatch, reply, observation, completedAt);
    MergedCarriesIds(inputs, intent, dispatch, reply, observation, completedAt);
    if observation.Complete? {
      var ids := observation.observed.requestIds;
      assert [] + ids == ids;
      if reply.Answer? && reply.response.requestId.Some? { ShapedTogether(reply.response.requestId.value, ids); }
    }
  }

  // ---------------------------------------------------------------- a merge that is credited and cannot be recorded

  function ManyAs(n: nat): (s: string)
    ensures |s| == n && forall i :: 0 <= i < n ==> s[i] == 'a'
  {
    seq(n, _ => 'a')
  }

  const ShortIntent := Intent("op", Bindings("a", "b", "c"), Repository(1, "R", "main"), PullRequest(2, "P", 3, ManyAs(40), ManyAs(40)),
                              Actor(4, 5, 6, "A", "bot"), "squash", 0)

  const ShortDispatch := Dispatch("op", OfIntent(ShortIntent), 0)

  const ShortIds := ["r1", "r2", "r3", "r4"]

  const ShortObserved := Observed(1, "R", 2, "P", 3, "closed", true, ManyAs(40), 1, "main", 1, ManyAs(40), 1, MergedBy(6, "A", "bot"), 204,
                                  ManyAs(40), [ManyAs(40)], ShortIds, 2)

  lemma ShortIsCredited()
    ensures Credits(ShortIntent, ShortDispatch, Lost, Complete(ShortObserved), 3)
  {
    var ids := ShortIds;
    assert ids[0][1] == '1' && ids[1][1] == '2' && ids[2][1] == '3' && ids[3][1] == '4';
    assert FourRequests(ids);
    ShowsSquashExactly(ShortIntent, ShortObserved);
    hide FourRequests, ShowsSquash;
  }

  lemma ShortIsShapeless()
    ensures ShapelessId(Lost, Complete(ShortObserved))
  {
    assert !RequestIdShape(ShortObserved.requestIds[0]);
  }

  /** The gap is real: a confirmed merge whose reread carries a short request id is refused. */
  lemma ShortRequestIdIsRefused(inputs: Inputs)
    requires HasEvery(inputs)
    ensures var r := ExecuteResult(inputs, ShortIntent, ShortDispatch, Lost, Complete(ShortObserved), 3);
            Dispatched(inputs, ShortIntent, ShortDispatch) && r.outcome == OutMerged && !ResultValid(inputs, ShortIntent, Some(ShortDispatch), r)
  {
    ShortIsCredited();
    ShortIsShapeless();
    hide ExecuteResult, ResultValid, ShapelessId, Credits;
    CreditsOnlyProvenMerges(inputs, ShortIntent, ShortDispatch, Lost, Complete(ShortObserved), 3);
    ExecuteResultValidExactly(inputs, ShortIntent, ShortDispatch, Lost, Complete(ShortObserved), 3);
  }
}
