/** What a receipt for the current operation does to a host mission, state by state and outcome by outcome. */
module HostMissionProgress {
  import opened Wrappers
  import opened MissionState
  import opened MissionHistory
  import MissionHistoryLaws
  import MissionMoves
  import opened HostDocuments
  import opened HostMission
  import opened HostMissionLaws
  import opened HostMissionRuns
  import opened HostMissionRecovery

  // ---------------------------------------------------------------- what has to be shown, and what is kept of it

  /** Where the path goes on from `from`, the evidence it takes, and what is written down. */
  ghost predicate Leads(from: State, to: State, code: EvidenceCode, e: Evidence, written: Changes) {
    || (from == Authorized && to == Prepared && code == WorktreePrepared
        && written == map[WorktreeId := e.stableId, WorktreePath := e.worktreePath, BranchId := e.branchId, BranchName := e.branchName])
    || (from == Prepared && to == Running && code == GoalActive && written == map[NativeGoalId := e.stableId])
    || (from == Running && to == Verifying && code == ImplementationComplete && written == map[])
    || (from == Verifying && to == Verified && code == VerificationPassed && written == map[])
    || (from == Verified && to == Committed && code == CommitCreated && e.stableId.Str? && written == map[CommitIds := List([e.stableId.s])])
    || (from == Committed && to == AwaitingReview && code == GoalComplete && written == map[])
  }

  /** What a success has to show: its evidence, in time, with no surface the binding does not grant. */
  ghost predicate Shows(h: HostSchemas, c: Contracts, d: Document, r: Receipt) {
    && (exists to, written :: Leads(d.state, to, r.evidence.code, r.evidence, written))
    && r.completedAt <= d.createdAt + c.authorization.wallSeconds * 1_000_000
    && (forall surface :: surface in h.required(c.protection, r.evidence.changedFiles) ==> surface in c.binding.surfaces)
    && (d.state in {Prepared, Committed} ==> r.evidence.stableId.Str? && r.evidence.stableId.s != "")
    && (d.state == Committed ==> r.evidence.stableId == Get(d.fields, NativeGoalId))
  }

  /** The receipt answers the request of `intent`, and its evidence is of the kind its outcome takes. */
  ghost predicate Fitting(h: HostSchemas, c: Contracts, d: Document, intent: Intent, r: Receipt) {
    && h.receipt(r) && r.action == intent.action && r.request == intent.request
    && r.authorization == OfAuthorization(c.authorization) && r.boundary == OfBoundary(c.boundary)
    && (r.outcome == Succeeded ==> Shows(h, c, d, r))
    && (r.outcome == ManualHandoff ==> r.evidence.code == HandedOff)
    && (r.outcome == ReconcileRequired ==> r.evidence.code == Ambiguous)
  }

  /** The state a fitting receipt leads to: on along the path, or blocked with everything else as it was. */
  ghost predicate Follows(d: Document, r: Receipt, at: int, d': Document) {
    && d'.identity == d.identity && d'.createdAt == d.createdAt && d'.updatedAt == at && d'.revision == d.revision + 1
    && (r.outcome == Succeeded ==> exists written :: Leads(d.state, d'.state, r.evidence.code, r.evidence, written) && d'.fields == d.fields + written)
    && (r.outcome != Succeeded ==> d'.state == Blocked && d'.fields == d.fields)
  }

  // ---------------------------------------------------------------- the plan

  /** The move a receipt of the current state's operation asks for. */
  function Asked(d: Document, r: Receipt): Request {
    Request(if r.outcome == Succeeded then Target(r.action) else Blocked, Some(Get(d.fields, MissionState.AttemptId)),
            if r.outcome == Succeeded then SuccessChanges(r.action, r.evidence) else map[])
  }

  function Settlement(d: Document, r: Receipt, at: int): Document { MissionMoves.NextDocument(d, Asked(d, r), at) }

  /** What has to be shown beyond a success code is a commit id. */
  lemma PlanOfCurrent(d: Document, r: Receipt)
    requires d.state == Source(r.action)
    ensures PlanReceipt(d, r) == (if r.outcome == Succeeded && (r.evidence.code != SuccessCode(r.action) || (r.action == Commit && !r.evidence.stableId.Str?))
                                  then Refuse else Apply(Asked(d, r)))
  {}

  lemma LeadsExactly(a: Action, to: State, e: Evidence, written: Changes)
    ensures Leads(Source(a), to, e.code, e, written) <==>
              && e.code == SuccessCode(a) && to == Target(a) && written == SuccessChanges(a, e)
              && (a == Commit ==> e.stableId.Str?)
  {}

  lemma OutcomeFollows(d: Document, r: Receipt, at: int)
    requires d.state == Source(r.action) && PlanReceipt(d, r).Apply?
    ensures Follows(d, r, at, Settlement(d, r, at)) && PlanReceipt(d, r) == Apply(Asked(d, r))
    ensures forall d' :: Follows(d, r, at, d') ==> d' == Settlement(d, r, at)
  {
    PlanOfCurrent(d, r);
    hide PlanReceipt, Leads, SuccessChanges, SuccessCode;
    if r.outcome == Succeeded { LeadsExactly(r.action, Target(r.action), r.evidence, SuccessChanges(r.action, r.evidence)); }
    forall d' | Follows(d, r, at, d')
      ensures d' == Settlement(d, r, at)
    {
      if r.outcome == Succeeded {
        var written :| Leads(d.state, d'.state, r.evidence.code, r.evidence, written) && d'.fields == d.fields + written;
        LeadsExactly(r.action, d'.state, r.evidence, written);
      } else {
        assert d.fields + map[] == d.fields;
      }
    }
  }

  lemma OutcomePermitted(d: Document, r: Receipt)
    requires d.state == Source(r.action)
    ensures MissionMoves.Permitted(d.state, Asked(d, r).target, Asked(d, r).changes.Keys) && Asked(d, r).target != d.state
    ensures Asked(d, r).attempt == Some(Get(d.fields + Asked(d, r).changes, MissionState.AttemptId))
  {}

  // ---------------------------------------------------------------- which receipts fit

  lemma SuccessCodesAre(h: HostSchemas, c: Contracts, d: Document, r: Receipt)
    requires d.state == Source(r.action) && c.authorization.wallSeconds <= c.binding.wallSeconds
    ensures Shows(h, c, d, r) <==>
              && r.evidence.code == SuccessCode(r.action) && (r.action == Commit ==> r.evidence.stableId.Str?)
              && r.completedAt <= Deadline(c, d.createdAt) && h.required(c.protection, r.evidence.changedFiles) <= c.binding.surfaces
              && (r.action in {ActivateGoal, CompleteGoal} ==> Truthy(r.evidence.stableId))
              && (r.action == CompleteGoal ==> r.evidence.stableId == Get(d.fields, NativeGoalId))
  {
    LeadsExactly(r.action, Target(r.action), r.evidence, SuccessChanges(r.action, r.evidence));
    assert d.state == Committed <==> r.action == CompleteGoal;
    assert d.state == Prepared <==> r.action == ActivateGoal;
    if r.evidence.code != SuccessCode(r.action) || (r.action == Commit && !r.evidence.stableId.Str?) {
      forall to, written ensures !Leads(d.state, to, r.evidence.code, r.evidence, written) { LeadsExactly(r.action, to, r.evidence, written); }
    }
    hide Leads, SuccessCode, Target, SuccessChanges;
  }

  lemma FittingExactly(h: HostSchemas, c: Contracts, d: Document, j: Journal, r: Receipt)
    requires Agree(h, c, d, j) && r.key in j.intents && r.key.revision == d.revision && !Terminal(d.state)
    ensures Fitting(h, c, d, j.intents[r.key], r) <==> ReceiptValid(h, c, d, j.intents[r.key], r) && PlanReceipt(d, r).Apply?
    ensures Fitting(h, c, d, j.intents[r.key], r) ==> d.state == Source(r.action)
  {
    var intent := j.intents[r.key];
    assert ContractsValid(h, c) && IdentityHolds(h, c, d) && IntentOk(h, c, d.createdAt, r.key, intent);
    if r.action == intent.action {
      ReceiptOfCurrentState(h, c, d, j, r);
      hide Agree, Shows, PlanReceipt, IdentityHolds;
      SuccessCodesAre(h, c, d, r);
      PlanOfCurrent(d, r);
    }
  }

  // ---------------------------------------------------------------- recording it

  /** The schemas accept what recording the receipt writes, and no other receipt is there. */
  ghost predicate Writes(h: HostSchemas, m: Mission, d: Document, intent: Intent, r: Receipt, at: int) {
    && (r.key in m.journal.receipts ==> m.journal.receipts[r.key] == r)
    && h.result(ResultFor(intent, r)) && MoveAccepted(h, m, d, r, at)
  }

  /** The stored result repeats the intent, points at the receipt, and counts a manual handoff as a failure. */
  ghost predicate Reports(result: OperationResult, intent: Intent, r: Receipt) {
    && result.bound == intent && result.output == OfReceipt(r) && result.completedAt == r.completedAt
    && result.externalId == r.evidence.stableId && result.exitStatus == r.evidence.exitStatus
    && (result.outcome == Succeeded <==> r.outcome == Succeeded) && (result.outcome == Failed <==> r.outcome in {Failed, ManualHandoff})
    && (result.outcome == NotObserved <==> r.outcome == NotObserved) && (result.outcome == ReconcileRequired <==> r.outcome == ReconcileRequired)
    && result.outcome != ManualHandoff
    && result.summary == (match r.outcome
                          case Succeeded => "completed" case Failed => "command-failed" case ManualHandoff => "backend-unavailable"
                          case NotObserved => "not-found" case ReconcileRequired => "ambiguous")
  }

  /** The mission with the receipt, its result and the document it leads to. */
  function Recorded(m: Mission, d: Document, intent: Intent, r: Receipt, at: int): Mission {
    m.(journal := m.journal.(receipts := m.journal.receipts[r.key := r], results := m.journal.results[r.key := ResultFor(intent, r)]),
       store := Disk(Some(Settlement(d, r, at)), m.store.events[d.revision + 1 := MissionMoves.NextEvent(d, m.store.events, Asked(d, r), at)]))
  }

  /** On a mission in agreement only the move itself can fail. */
  lemma AskedMove(h: HostSchemas, m: Mission, c: Contracts, d: Document, r: Receipt, at: int)
    requires Ready(h, m, c, d) && d.state == Source(r.action)
    ensures Moved(h.store, m.store, Asked(d, r), at).Ok? <==>
              && h.store.state(Settlement(d, r, at)) && h.store.event(MissionMoves.NextEvent(d, m.store.events, Asked(d, r), at))
    ensures Moved(h.store, m.store, Asked(d, r), at).Ok? ==>
              && Moved(h.store, m.store, Asked(d, r), at) == Ok(Settlement(d, r, at))
              && MissionHistoryLaws.Last(MoveTrace(h.store, m.store, Asked(d, r), at))
                 == Disk(Some(Settlement(d, r, at)), m.store.events[d.revision + 1 := MissionMoves.NextEvent(d, m.store.events, Asked(d, r), at)])
  {
    hide Moved, MoveTrace, SettledDisk, Agree, MissionHistoryLaws.Sound, MissionMoves.Permitted, MissionMoves.NextEvent, Source, Target, SuccessChanges, Invariant, InitialState, Asked;
    ReadyStore(h, m, c, d);
    OutcomePermitted(d, r);
    MissionMoves.MoveSucceedsExactly(h.store, InitialState(h, c, d.createdAt), m.store, Asked(d, r), at);
  }

  lemma AgreedJournalLoads(h: HostSchemas, c: Contracts, d: Document, j: Journal, k: OperationKey)
    requires Agree(h, c, d, j) && k in j.intents
    ensures JournalLoads(h, j, k) && j.intents[k].key == k
  {
    hide ReceiptsOk, PathRecorded, OnPath, NativeGoalsMatch;
  }

  /** A result on disk is that of the receipt on disk. */
  lemma ResultFits(h: HostSchemas, c: Contracts, d: Document, j: Journal, r: Receipt)
    requires Agree(h, c, d, j) && r.key in j.intents && r.key in j.receipts && j.receipts[r.key] == r
    ensures Writable(j.results, r.key, ResultFor(j.intents[r.key], r)) && j.intents[r.key].key == r.key
  {
    hide ReceiptsOk, PathRecorded, OnPath, NativeGoalsMatch, ResultFor;
  }

  lemma ReadyStore(h: HostSchemas, m: Mission, c: Contracts, d: Document)
    requires Ready(h, m, c, d)
    ensures MissionHistoryLaws.Sound(h.store, InitialState(h, c, d.createdAt), m.store) && SettledDisk(h.store, m.store) == m.store
  {
    hide Agree, MissionHistoryLaws.Sound, SettledDisk;
  }

  /** The rest of a finish, once the result is written. */
  lemma MoveOfFinish(h: HostSchemas, m: Mission, c: Contracts, d: Document, r: Receipt, at: int)
    requires Ready(h, m, c, d) && d.state == Source(r.action) && PlanReceipt(d, r) == Apply(Asked(d, r))
    ensures var e := ReceiptMove(h, m, d, r, at);
            && (e.reply.Ok? <==> h.store.state(Settlement(d, r, at)) && h.store.event(MissionMoves.NextEvent(d, m.store.events, Asked(d, r), at)))
            && (e.reply.Ok? ==> && e.reply == Ok(Finished(r.outcome, r.key, Settlement(d, r, at)))
                                && Final(e) == m.(store := Disk(Some(Settlement(d, r, at)), m.store.events[d.revision + 1 := MissionMoves.NextEvent(d, m.store.events, Asked(d, r), at)])))
  {
    hide Ready, PlanReceipt, Moved, MoveTrace, MissionMoves.NextEvent, Asked, Settlement, Source;
    AskedMove(h, m, c, d, r, at);
  }

  /** The call answers with the document the receipt leads to, and leaves everything on disk. */
  ghost predicate EndsRecorded(e: Effect, m: Mission, d: Document, intent: Intent, r: Receipt, at: int)
    requires |e.trace| > 0
  {
    e.reply == Ok(Finished(r.outcome, r.key, Settlement(d, r, at))) && Final(e) == Recorded(m, d, intent, r, at)
  }

  ghost predicate MoveAccepted(h: HostSchemas, m: Mission, d: Document, r: Receipt, at: int) {
    h.store.state(Settlement(d, r, at)) && h.store.event(MissionMoves.NextEvent(d, m.store.events, Asked(d, r), at))
  }

  lemma AcceptedFits(h: HostSchemas, m: Mission, d: Document, r: Receipt, at: int)
    ensures MoveAccepted(h, m, d, r, at) ==> h.store.state(Settlement(d, r, at))
  {}

  lemma FinishExactly(h: HostSchemas, m: Mission, c: Contracts, d: Document, r: Receipt, at: int)
    requires Ready(h, m, c, d) && r.key in m.journal.intents && r.key in m.journal.receipts && m.journal.receipts[r.key] == r
    requires r.key.revision == d.revision && !Terminal(d.state) && ReceiptValid(h, c, d, m.journal.intents[r.key], r)
    ensures var intent := m.journal.intents[r.key];
            var e := Finish(h, c, m, d, intent, r, at);
            && (e.reply.Ok? <==> PlanReceipt(d, r).Apply? && h.result(ResultFor(intent, r)) && MoveAccepted(h, m, d, r, at))
            && (e.reply.Ok? ==> EndsRecorded(e, m, d, intent, r, at))
  {
    hide Agree, Ready, PlanReceipt, ReceiptMove, ReceiptValid, ResultFor, Writable, Source, PlanFits, Finish, MoveAccepted, EndsRecorded;
    ReadyAgrees(h, m, c, d);
    ResultFits(h, c, d, m.journal, r);
    CurrentPlan(h, c, d, m.journal, r, at);
    FinishMoves(h, m, c, d, r, at);
    if PlanReceipt(d, r).Apply? && h.result(ResultFor(m.journal.intents[r.key], r)) { ReportedMove(h, m, c, d, r, at); }
    AcceptedFits(h, m, d, r, at);
  }

  lemma ReportedMove(h: HostSchemas, m: Mission, c: Contracts, d: Document, r: Receipt, at: int)
    requires Ready(h, m, c, d) && r.key in m.journal.intents && r.key in m.journal.receipts && m.journal.receipts[r.key] == r
    requires d.state == Source(r.action) && PlanReceipt(d, r) == Apply(Asked(d, r)) && h.result(ResultFor(m.journal.intents[r.key], r))
    ensures var intent := m.journal.intents[r.key];
            var e := Then(m, ReceiptMove(h, WithResult(m, ResultFor(intent, r)), d, r, at));
            && (e.reply.Ok? <==> MoveAccepted(h, m, d, r, at)) && (e.reply.Ok? ==> EndsRecorded(e, m, d, intent, r, at))
  {
    hide Agree, Ready, PlanReceipt, ReceiptMove, MissionMoves.NextEvent, Asked, Settlement, Source;
    ReportedIsReady(h, c, m, d, r);
    MoveOfFinish(h, WithResult(m, ResultFor(m.journal.intents[r.key], r)), c, d, r, at);
    assert m.journal.receipts[r.key := r] == m.journal.receipts;
  }

  lemma FinishMoves(h: HostSchemas, m: Mission, c: Contracts, d: Document, r: Receipt, at: int)
    requires r.key in m.journal.intents && ReceiptValid(h, c, d, m.journal.intents[r.key], r)
    requires Writable(m.journal.results, r.key, ResultFor(m.journal.intents[r.key], r))
    ensures var intent, e := m.journal.intents[r.key], Finish(h, c, m, d, m.journal.intents[r.key], r, at);
            && (PlanFits(h, d, r, at) && h.result(ResultFor(intent, r)) && PlanReceipt(d, r).Apply? ==>
                  e == Then(m, ReceiptMove(h, WithResult(m, ResultFor(intent, r)), d, r, at)))
            && (!PlanFits(h, d, r, at) || !h.result(ResultFor(intent, r)) ==> e.reply.Err?)
  {
    hide ReceiptValid, PlanReceipt, PlanFits, ApplyMove, WithResult, ResultFor, Writable;
  }

  /** The trial run and the plan of a valid receipt of the current operation. */
  lemma CurrentPlan(h: HostSchemas, c: Contracts, d: Document, j: Journal, r: Receipt, at: int)
    requires Agree(h, c, d, j) && r.key in j.intents && r.key.revision == d.revision && !Terminal(d.state)
    requires ReceiptValid(h, c, d, j.intents[r.key], r)
    ensures PlanReceipt(d, r) == Refuse || PlanReceipt(d, r) == Apply(Asked(d, r))
    ensures PlanFits(h, d, r, at) <==> PlanReceipt(d, r).Apply? && (r.outcome == Succeeded ==> h.store.state(Settlement(d, r, at)))
    ensures d.state == Source(r.action)
  {
    ReceiptOfCurrentState(h, c, d, j, r);
    hide Agree;
    PlanOfCurrent(d, r);
    OutcomePermitted(d, r);
    MissionMoves.PermittedExactly(d, Asked(d, r).target, at, Asked(d, r).changes);
    hide MissionMoves.Permitted, ChangesAllowed, AllowedTransitions, PlanReceipt, SuccessChanges, Source, Target;
  }

  lemma ReceiveExactly(h: HostSchemas, m: Mission, c: Contracts, d: Document, r: Receipt, at: int)
    requires Ready(h, m, c, d) && r.key in m.journal.intents && r.key.revision == d.revision && !Terminal(d.state)
    ensures var intent := m.journal.intents[r.key];
            var e := Receive(h, m, d, r, at);
            && (e.reply.Ok? <==> Fitting(h, c, d, intent, r) && Writes(h, m, d, intent, r, at))
            && (e.reply.Ok? ==> EndsRecorded(e, m, d, intent, r, at))
  {
    hide Agree, Ready, PlanReceipt, MoveAccepted, Fitting, ReceiptValid, ResultFor, Finish, EndsRecorded, Receive, WithReceipt, PlanFits;
    ReadyAgrees(h, m, c, d);
    FittingExactly(h, c, d, m.journal, r);
    var intent := m.journal.intents[r.key];
    ReceiveFinishes(h, m, c, d, r, at);
    if ReceiptValid(h, c, d, intent, r) {
      CurrentPlan(h, c, d, m.journal, r, at);
      AcceptedFits(h, m, d, r, at);
      if Writable(m.journal.receipts, r.key, r) { PersistedFinish(h, m, c, d, r, at); }
    }
  }

  lemma PersistedFinish(h: HostSchemas, m: Mission, c: Contracts, d: Document, r: Receipt, at: int)
    requires Ready(h, m, c, d) && r.key in m.journal.intents && r.key.revision == d.revision && !Terminal(d.state)
    requires ReceiptValid(h, c, d, m.journal.intents[r.key], r) && Writable(m.journal.receipts, r.key, r)
    ensures var intent := m.journal.intents[r.key];
            var e := Then(m, Finish(h, c, WithReceipt(m, r), d, intent, r, at));
            && (e.reply.Ok? <==> PlanReceipt(d, r).Apply? && h.result(ResultFor(intent, r)) && MoveAccepted(h, m, d, r, at))
            && (e.reply.Ok? ==> EndsRecorded(e, m, d, intent, r, at))
  {
    hide Agree, Ready, PlanReceipt, ReceiptValid, ResultFor, Finish, Settlement, MissionMoves.NextEvent, Asked;
    ReceiptedIsReady(h, c, m, d, r);
    FinishExactly(h, WithReceipt(m, r), c, d, r, at);
  }

  lemma ReceiveFinishes(h: HostSchemas, m: Mission, c: Contracts, d: Document, r: Receipt, at: int)
    requires Ready(h, m, c, d) && r.key in m.journal.intents
    ensures var intent, e := m.journal.intents[r.key], Receive(h, m, d, r, at);
            if ReceiptValid(h, c, d, intent, r) && PlanFits(h, d, r, at) && Writable(m.journal.receipts, r.key, r)
            then e == Then(m, Finish(h, c, WithReceipt(m, r), d, intent, r, at)) else e.reply.Err?
  {
    hide ReceiptValid, PlanFits, Finish, WithReceipt, Writable, Then, Invariant, Settled;
  }

  lemma RecordIsReceive(h: HostSchemas, m: Mission, r: Receipt, at: int)
    requires Invariant(h, m) && m.store.state.Some? && r.key in m.journal.intents
    ensures var settled, d := Settled(h, m), Current(h, m);
            && d.Some? && m.contracts.Some? && Ready(h, settled, m.contracts.value, d.value)
            && Record(h, m, r, at) == Then(m, Receive(h, settled, d.value, r, at)) && settled.store.events == m.store.events
  {
    hide Agree, Receive, JournalLoads, StoreSound;
    SettledIsReady(h, m);
    SettledFacts(h, m);
    var settled, d := Settled(h, m), Current(h, m).value;
    ReadyAgrees(h, settled, m.contracts.value, d);
    assert settled.journal == m.journal;
    AgreedJournalLoads(h, m.contracts.value, d, m.journal, r.key);
  }

  // ---------------------------------------------------------------- the theorems

  /** The operation the mission is waiting for: issued at the revision it is at. */
  ghost predicate Awaited(h: HostSchemas, m: Mission, k: OperationKey) {
    && m.store.state.Some? && m.contracts.Some? && k in m.journal.intents
    && Current(h, m).Some? && Current(h, m).value.revision == k.revision && !Terminal(Current(h, m).value.state)
  }

  /**
    Recording a receipt for the awaited operation succeeds exactly when the receipt fits the request
    and shows what its outcome takes, and what it writes is accepted.  The mission then settles one
    revision later: to the next state of the path if the outcome is a success, and to `Blocked`,
    with nothing else changed, if and only if it is not.
  */
  lemma ReceiptSettlesExactly(h: HostSchemas, m: Mission, r: Receipt, at: int)
    requires Invariant(h, m) && Awaited(h, m, r.key)
    ensures var e, d, intent := Record(h, m, r, at), Current(h, m).value, m.journal.intents[r.key];
            && (e.reply.Ok? <==> Fitting(h, m.contracts.value, d, intent, r) && Writes(h, Settled(h, m), d, intent, r, at))
            && (e.reply.Ok? ==>
                  && e.reply.value.Finished? && e.reply == Ok(Finished(r.outcome, r.key, e.reply.value.state))
                  && Current(h, Final(e)) == Some(e.reply.value.state) && Follows(d, r, at, e.reply.value.state)
                  && (e.reply.value.state.state == Blocked <==> r.outcome != Succeeded))
  {
    hide Invariant, Agree, Receive, Fitting, Writes, ReceiptValid, Follows, Ready, Settlement, Settled, Recorded, Record;
    RecordIsReceive(h, m, r, at);
    var d, c, settled := Current(h, m).value, m.contracts.value, Settled(h, m);
    SettledJournal(h, m);
    ReceiveExactly(h, settled, c, d, r, at);
    if Receive(h, settled, d, r, at).reply.Ok? { ReceiptFollows(h, settled, c, d, r, at); }
  }

  lemma SettledJournal(h: HostSchemas, m: Mission)
    ensures Settled(h, m).journal == m.journal && Settled(h, m).contracts == m.contracts
  {}

  lemma ReceiptFollows(h: HostSchemas, m: Mission, c: Contracts, d: Document, r: Receipt, at: int)
    requires Ready(h, m, c, d) && r.key in m.journal.intents && r.key.revision == d.revision && !Terminal(d.state)
    requires Receive(h, m, d, r, at).reply.Ok?
    ensures var e := Receive(h, m, d, r, at);
            && Follows(d, r, at, Settlement(d, r, at)) && (Settlement(d, r, at).state == Blocked <==> r.outcome != Succeeded)
            && Ready(h, Final(e), c, Settlement(d, r, at)) && Current(h, Final(e)) == Some(Settlement(d, r, at))
  {
    hide Agree, Ready, Fitting, Writes, ReceiptValid, Follows, PlanReceipt, Receive, Recorded, Settlement, Source, FinishedState;
    ReceiveExactly(h, m, c, d, r, at);
    ReadyAgrees(h, m, c, d);
    FittingExactly(h, c, d, m.journal, r);
    OutcomeFollows(d, r, at);
    OutcomeBlocked(d, r, at);
    ReceiveEnds(h, c, m, d, r, at);
    ReadyAgrees(h, Final(Receive(h, m, d, r, at)), c, Settlement(d, r, at));
  }

  lemma OutcomeBlocked(d: Document, r: Receipt, at: int)
    ensures Settlement(d, r, at).state == Blocked <==> r.outcome != Succeeded
  {}

  /** What is on disk afterwards: the receipt, a result that reports it, and nothing else that is new. */
  lemma RecordLeaves(h: HostSchemas, m: Mission, r: Receipt, at: int)
    requires Invariant(h, m) && Awaited(h, m, r.key) && Record(h, m, r, at).reply.Ok?
    ensures var j, j' := m.journal, Final(Record(h, m, r, at)).journal;
            && j'.intents == j.intents && j'.receipts == j.receipts[r.key := r]
            && r.key in j'.results && Reports(j'.results[r.key], j.intents[r.key], r)
            && j'.results == j.results[r.key := j'.results[r.key]]
  {
    hide Invariant, Agree, Receive, Fitting, Writes, ReceiptValid, Ready, Settlement, Settled, Record;
    RecordIsReceive(h, m, r, at);
    SettledJournal(h, m);
    ReceiveExactly(h, Settled(h, m), m.contracts.value, Current(h, m).value, r, at);
  }

  /** Cut off anywhere, the mission settles to where it was or to where the receipt leads. */
  lemma ReceiptTraceSettles(h: HostSchemas, m: Mission, r: Receipt, at: int, i: nat)
    requires Invariant(h, m) && Awaited(h, m, r.key) && Record(h, m, r, at).reply.Ok? && i < |Record(h, m, r, at).trace|
    ensures var e, now := Record(h, m, r, at), Current(h, Record(h, m, r, at).trace[i]);
            now == Current(h, m) || now == Current(h, Final(e))
  {
    RecordTraceSettles(h, m, r, at, i);
    ReceiptSettlesExactly(h, m, r, at);
    hide Invariant, Record, SettledDisk, Fitting, Writes, Follows, ResultFor;
    SettledAgain(h, m, r, at);
  }

  lemma SettledAgain(h: HostSchemas, m: Mission, r: Receipt, at: int)
    requires Invariant(h, m) && Awaited(h, m, r.key) && Record(h, m, r, at).reply.Ok?
    ensures Settled(h, Final(Record(h, m, r, at))) == Final(Record(h, m, r, at))
  {
    hide Invariant, Record, Agree;
    RecordKeeps(h, m, r, at);
    ReceiptSettlesExactly(h, m, r, at);
  }

  /** A mission that was blocked, or has come to review, answers every `next` with its final state. */
  lemma StoppedStaysStopped(h: HostSchemas, m: Mission, r: Receipt, at: int, now: int, later: int)
    requires Invariant(h, m) && Awaited(h, m, r.key) && Record(h, m, r, at).reply.Ok?
    requires r.outcome != Succeeded || Current(h, m).value.state == Committed
    ensures var e := Record(h, m, r, at);
            e.reply.value.Finished? && Next(h, Final(e), now, later).reply == Ok(TerminalReply(e.reply.value.state))
  {
    hide Invariant, Agree, Receive, Fitting, Writes, ReceiptValid, Ready, Settlement, Settled, Record, Next;
    RecordIsReceive(h, m, r, at);
    SettledJournal(h, m);
    var d, c, settled := Current(h, m).value, m.contracts.value, Settled(h, m);
    ReceiveExactly(h, settled, c, d, r, at);
    ReceiptFollows(h, settled, c, d, r, at);
    NextOnReady(h, c, Final(Record(h, m, r, at)), Settlement(d, r, at), now, later);
  }
}
