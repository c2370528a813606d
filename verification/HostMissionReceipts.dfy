/** Receipts that are not for the operation a host mission waits for, and receipts on any directory at all. */
module HostMissionReceipts {
  import opened Wrappers
  import opened MissionState
  import opened MissionHistory
  import opened HostDocuments
  import opened HostMission
  import opened HostMissionLaws
  import opened HostMissionRuns
  import opened HostMissionRecovery
  import opened HostMissionProgress
  import opened HostMissionJourney

  // ---------------------------------------------------------------- on any directory

  /** The intent was made under these contracts. */
  ghost predicate MadeUnder(c: Contracts, intent: Intent) {
    intent.authorization == OfAuthorization(c.authorization) && intent.boundary == OfBoundary(c.boundary) && intent.protection == OfProtection(c.protection)
  }

  /** The receipt is for the intent's own request. */
  ghost predicate AnswersIntent(h: HostSchemas, intent: Intent, r: Receipt) {
    && h.receipt(r) && r.key == intent.key && r.action == intent.action && r.request == intent.request
    && r.authorization == intent.authorization && r.boundary == intent.boundary
  }

  /**
    Whatever is on disk, reachable or not, `record` accepts a receipt only under contracts that agree and are
    the mission's, for an intent made under them, that it answers, and never over a different receipt.
  */
  lemma RecordAcceptsOnly(h: HostSchemas, m: Mission, r: Receipt, at: int)
    requires Record(h, m, r, at).reply.Ok?
    ensures r.key in m.journal.intents && m.contracts.Some? && Repaired(h.store, m.store).Ok?
    ensures var c, intent := m.contracts.value, m.journal.intents[r.key];
            && ContractsAgree(h, c) && SameMission(h, c, Repaired(h.store, m.store).value) && MadeUnder(c, intent) && AnswersIntent(h, intent, r)
            && (r.key in m.journal.receipts ==> m.journal.receipts[r.key] == r)
            && h.intent(intent) && (r.key in m.journal.results ==> h.result(m.journal.results[r.key]) && m.journal.results[r.key].bound == intent)
  {
    hide Repaired, SettledDisk, Finish, PlanFits, ResultFor;
  }

  /** The operation of the mission's state is on disk, and its intent or its result is not what it should be. */
  ghost predicate Corrupt(h: HostSchemas, j: Journal, d: Document) {
    exists a :: && TurnOf(d.state, a)
                && var k := OperationKey(d.identity.missionId, Get(d.fields, MissionState.AttemptId), d.revision, a);
                   && k in j.intents
                   && (!h.intent(j.intents[k]) || (k in j.results && (!h.result(j.results[k]) || j.results[k].bound != j.intents[k])))
  }

  /** The operation of the mission's state has a result, and no receipt it could come from. */
  ghost predicate Orphaned(j: Journal, d: Document) {
    exists a :: && TurnOf(d.state, a)
                && var k := OperationKey(d.identity.missionId, Get(d.fields, MissionState.AttemptId), d.revision, a);
                   k in j.intents && k in j.results && k !in j.receipts
  }

  /** On any directory `next` reports a journal that does not load exactly if it does not, once the contracts have passed. */
  lemma NextRefusesJournalExactly(h: HostSchemas, m: Mission, c: Contracts, d: Document, now: int, at: int)
    requires Repaired(h.store, m.store) == Ok(d) && m.contracts == Some(c)
    requires d.state in {Authorized, Prepared, Running, Verifying, Verified, Committed}
    ensures Next(h, m, now, at).reply == Err(JournalInvalid) <==> ContractsAgree(h, c) && SameMission(h, c, d) && Corrupt(h, m.journal, d)
    ensures Next(h, m, now, at).reply == Err(ResultWithoutReceipt) <==>
              ContractsAgree(h, c) && SameMission(h, c, d) && !Corrupt(h, m.journal, d) && Orphaned(m.journal, d)
  {
    hide Repaired, Resume, Issue, Settled, ContractsValid, IdentityHolds, ContractsAgree, SameMission, Corrupt, Orphaned, JournalLoads;
    NamesAgree(h, c, d);
    SettledJournal(h, m);
    CorruptExactly(h, m.journal, d);
    OnlyJournalFails(h, c, Settled(h, m), d, now, at);
  }

  lemma NamesAgree(h: HostSchemas, c: Contracts, d: Document)
    ensures ContractsAgree(h, c) <==> ContractsValid(h, c)
    ensures SameMission(h, c, d) <==> IdentityHolds(h, c, d)
  {}

  lemma CorruptExactly(h: HostSchemas, j: Journal, d: Document)
    requires d.state in {Authorized, Prepared, Running, Verifying, Verified, Committed}
    ensures ActionOf(d.state).Some?
    ensures Corrupt(h, j, d) <==> KeyOf(d, ActionOf(d.state).value) in j.intents && !JournalLoads(h, j, KeyOf(d, ActionOf(d.state).value))
    ensures var k := KeyOf(d, ActionOf(d.state).value); Orphaned(j, d) <==> k in j.intents && k in j.results && k !in j.receipts
  {
    var a := ActionOf(d.state).value;
    assert forall b :: TurnOf(d.state, b) <==> b == a;
  }

  lemma OnlyJournalFails(h: HostSchemas, c: Contracts, m: Mission, d: Document, now: int, at: int)
    ensures forall k :: k in m.journal.intents ==> 
              && (Resume(h, c, m, d, k, at).reply == Err(JournalInvalid) <==> !JournalLoads(h, m.journal, k))
              && (Resume(h, c, m, d, k, at).reply == Err(ResultWithoutReceipt) <==> JournalLoads(h, m.journal, k) && k !in m.journal.receipts && k in m.journal.results)
    ensures forall a: Action :: Issue(h, c, m, d, a, now, at).reply !in {Err(JournalInvalid), Err(ResultWithoutReceipt)}
  {
    hide Moved, MoveTrace, ReceiptValid, PlanReceipt, PlanFits, RequestFor, IntentFor, JournalLoads;
  }

  // ---------------------------------------------------------------- receipts that come late

  /** Whatever the success of an action wrote into the mission is still there. */
  ghost predicate StillThere(d: Document, a: Action, e: Evidence) {
    && (a == PrepareWorktree ==> Get(d.fields, WorktreeId) == e.stableId && Get(d.fields, WorktreePath) == e.worktreePath
                                 && Get(d.fields, BranchId) == e.branchId && Get(d.fields, BranchName) == e.branchName)
    && (a == ActivateGoal ==> Get(d.fields, NativeGoalId) == e.stableId)
    && (a == Commit ==> Get(d.fields, CommitIds) == List(if e.stableId.Str? then [e.stableId.s] else []))
  }

  /** The action's success code, and the state it leads to. */
  ghost predicate Comes(a: Action, code: EvidenceCode, to: State) {
    || (a == PrepareWorktree && code == WorktreePrepared && to == Prepared) || (a == ActivateGoal && code == GoalActive && to == Running)
    || (a == Implement && code == ImplementationComplete && to == Verifying) || (a == Verify && code == VerificationPassed && to == Verified)
    || (a == Commit && code == CommitCreated && to == Committed) || (a == CompleteGoal && code == GoalComplete && to == AwaitingReview)
  }

  /**
    A late receipt is let in without effect: any for an abandoned mission, an unsuccessful one for a blocked mission,
    and a success whose marks are still there, in the state it led to, once committed, or in a final state.
  */
  ghost predicate LetIn(d: Document, r: Receipt) {
    || d.state == Abandoned
    || (d.state == Blocked && r.outcome != Succeeded)
    || (&& r.outcome == Succeeded && StillThere(d, r.action, r.evidence)
        && exists to :: Comes(r.action, r.evidence.code, to) && d.state in {to, AwaitingReview, Merged, Blocked, Published, Committed})
  }

  /** What a late success still has to show. */
  ghost predicate LateShows(h: HostSchemas, c: Contracts, d: Document, r: Receipt) {
    r.outcome == Succeeded ==>
      && r.completedAt <= d.createdAt + c.authorization.wallSeconds * 1_000_000
      && (forall surface :: surface in h.required(c.protection, r.evidence.changedFiles) ==> surface in c.binding.surfaces)
      && (r.action in {ActivateGoal, CompleteGoal} ==> r.evidence.stableId.Str? && r.evidence.stableId.s != "")
      && (r.action == CompleteGoal ==> r.evidence.stableId == Get(d.fields, NativeGoalId))
  }

  ghost predicate LateFits(h: HostSchemas, c: Contracts, d: Document, intent: Intent, r: Receipt) {
    && AnswersIntent(h, intent, r) && LateShows(h, c, d, r) && LetIn(d, r)
    && (r.outcome == ManualHandoff ==> r.evidence.code == HandedOff)
    && (r.outcome == ReconcileRequired ==> r.evidence.code == Ambiguous)
  }

  lemma StillThereExactly(d: Document, a: Action, e: Evidence)
    ensures StillThere(d, a, e) <==> forall f :: f in SuccessChanges(a, e) ==> Get(d.fields, f) == SuccessChanges(a, e)[f]
  {}

  lemma ComesExactly(a: Action, code: EvidenceCode, to: State)
    ensures Comes(a, code, to) <==> code == SuccessCode(a) && to == Target(a)
  {}

  lemma LetInExactly(d: Document, r: Receipt)
    requires d.state != Source(r.action)
    ensures PlanReceipt(d, r) == if LetIn(d, r) then Keep else Refuse
  {
    StillThereExactly(d, r.action, r.evidence);
    forall to ensures Comes(r.action, r.evidence.code, to) <==> r.evidence.code == SuccessCode(r.action) && to == Target(r.action) {
      ComesExactly(r.action, r.evidence.code, to);
    }
    hide StillThere, Comes, SuccessChanges, SuccessCode, Target;
    assert r.evidence.code == SuccessCode(r.action) ==> Comes(r.action, r.evidence.code, Target(r.action));
  }

  lemma LateFitsExactly(h: HostSchemas, c: Contracts, d: Document, j: Journal, r: Receipt)
    requires Agree(h, c, d, j) && r.key in j.intents && d.state != Source(r.action)
    ensures LateFits(h, c, d, j.intents[r.key], r) <==> ReceiptValid(h, c, d, j.intents[r.key], r) && PlanReceipt(d, r) == Keep
  {
    hide Agree, LetIn, PlanReceipt, IdentityHolds;
    LetInExactly(d, r);
    AgreedIntent(h, c, d, j, r.key);
  }

  lemma AgreedIntent(h: HostSchemas, c: Contracts, d: Document, j: Journal, k: OperationKey)
    requires Agree(h, c, d, j) && k in j.intents
    ensures ContractsValid(h, c) && IdentityHolds(h, c, d) && MadeUnder(c, j.intents[k])
  {
    assert IntentOk(h, c, d.createdAt, k, j.intents[k]);
    hide ReceiptsOk, ResultsOk, PathRecorded, NativeGoalsMatch;
  }

  /**
    Recording a receipt when its operation is not the one the mission waits for: it is accepted exactly if it fits and
    is let in, no other receipt is there, and its result is accepted, and it never changes the mission.
  */
  lemma LateReceiptExactly(h: HostSchemas, m: Mission, c: Contracts, d: Document, r: Receipt, at: int)
    requires Ready(h, m, c, d) && r.key in m.journal.intents && d.state != Source(r.action)
    ensures var e, intent := Record(h, m, r, at), m.journal.intents[r.key];
            && (e.reply.Ok? <==> LateFits(h, c, d, intent, r) && (r.key in m.journal.receipts ==> m.journal.receipts[r.key] == r) && h.result(ResultFor(intent, r)))
            && (e.reply.Ok? ==> EndsKept(e, m, d, r))
  {
    hide Agree, Ready, PlanReceipt, LateFits, ReceiptValid, ResultFor, Record, Receive, Finish, JournalLoads, EndsKept, PlanFits, WithReceipt, Source, LetIn;
    ReadyAgrees(h, m, c, d);
    AgreedJournalLoads(h, c, d, m.journal, r.key);
    LateFitsExactly(h, c, d, m.journal, r);
    LetInExactly(d, r);
    RecordOnReady(h, c, m, d, r, at);
    ReceiveFinishes(h, m, c, d, r, at);
    PlanKept(h, d, r, at);
    if ReceiptValid(h, c, d, m.journal.intents[r.key], r) && Writable(m.journal.receipts, r.key, r) { LateFinish(h, m, c, d, r, at); }
  }

  /** The call answers with the mission as it was, and leaves the receipt and its result beside what was there. */
  ghost predicate EndsKept(e: Effect, m: Mission, d: Document, r: Receipt)
    requires |e.trace| > 0
  {
    && e.reply == Ok(Finished(r.outcome, r.key, d)) && Final(e).store == m.store && Final(e).contracts == m.contracts
    && Final(e).journal.intents == m.journal.intents && Final(e).journal.receipts == m.journal.receipts[r.key := r] && r.key in Final(e).journal.results
  }

  lemma PlanKept(h: HostSchemas, d: Document, r: Receipt, at: int)
    ensures PlanReceipt(d, r) == Keep ==> PlanFits(h, d, r, at)
    ensures PlanReceipt(d, r) == Refuse ==> !PlanFits(h, d, r, at)
  {
    hide PlanReceipt;
  }

  lemma LateFinish(h: HostSchemas, m: Mission, c: Contracts, d: Document, r: Receipt, at: int)
    requires Ready(h, m, c, d) && r.key in m.journal.intents && !PlanReceipt(d, r).Apply?
    requires ReceiptValid(h, c, d, m.journal.intents[r.key], r) && Writable(m.journal.receipts, r.key, r)
    ensures var intent := m.journal.intents[r.key];
            var e := Then(m, Then(m, Finish(h, c, WithReceipt(m, r), d, intent, r, at)));
            && (e.reply.Ok? <==> PlanReceipt(d, r) == Keep && h.result(ResultFor(intent, r))) && (e.reply.Ok? ==> EndsKept(e, m, d, r))
  {
    hide Agree, Ready, PlanReceipt, ReceiptValid, ResultFor, PlanFits, ApplyMove;
    ReceiptedIsReady(h, c, m, d, r);
    ReadyAgrees(h, WithReceipt(m, r), c, d);
    ResultFits(h, c, d, WithReceipt(m, r).journal, r);
    ResultIsBound(m.journal.intents[r.key], r);
    PlanKept(h, d, r, at);
  }

  lemma ResultIsBound(intent: Intent, r: Receipt)
    ensures ResultFor(intent, r).bound == intent
  {}
}
