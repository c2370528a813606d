# Pathfinder controller: verification

Pathfinder drives autonomous coding missions with a set of durable state machines over a small file
system: whole-file atomic replacement, write-once JSON records and an exclusive lock file. Around them
stand a fail-closed merge evaluator, a renderer of generated Markdown regions and a cursor-paginated
GitHub reader. This project models those parts in Dafny and proves what they promise: over every run, every
interleaving of processes and every crash point.

How the model is built:

- **Crashes.** A durable operation is the sequence of directories its writes pass through (`MoveTrace`, the
  `trace` of an `Effect`); a crash leaves any one of them behind. The merge and publication protocols are
  transition systems whose actions are single durable writes, lock operations, unlocked reads and network
  messages of any number of calls; any call may fail or be killed between any two of them.
- **Code that changes state** is a class or a method with the source's loops (`MissionStore`,
  `MergeOperationJournal`, `PublicationJournal`, `HostMissionController`, `GoalPackController`, `Blocks`, the
  evaluator's accumulating passes, the region scanner, the pagination loop). Its `ensures` equates the new state
  with a specification function or with a declarative condition; the lemmas are about those.
- **Documents** are datatypes; a document hash is a free constructor applied to the document, so equal hashes mean
  equal documents. JSON schemas and registries are arbitrary predicates passed in (`Schemas`, `HostSchemas`,
  `PackSchemas`, `Validity`), so every theorem holds for whatever they accept. Instants are integers
  (microseconds).

- **Exactly when.** A law about a call says when it succeeds, and with what, in terms of the documents it is given:
  tables, limits and fields are written out in the statement, not taken from the function it is about.

Files: `MissionState`, `MissionHistory*`, `MissionMoves`, `MissionReplayLaws`, `MissionStore` (event-sourced
store); `HostDocuments`, `HostMission*`, `HostController`, `Projections` (host mission); `GoalPack*` (queue of
missions); `Merge*` (merge journal and executor); `Publication*` (publication journal and controller); `Policy*`
(merge evaluator: `PolicyPassing`, `PolicyOpenings` and `PolicyEligibility` say exactly who passes, `PolicyAmbiguity` is on input order); `MarkdownBlocks`, `GeneratedRegions`, `RegionLaws`, `RegionRepairs` (rendering); `GraphQLPages`
(pagination).

## What the code does not promise

Five properties one could expect turned out false. Each has a concrete input or a lemma saying exactly when it holds:

- A mission initialised with a non-null `attempt_id` becomes unreadable once an event sets it again: the store is
  readable if and only if the attempt is set at most once (`ReadableExactly`, `MoveStaysReadableExactly`; a legal
  example in `AttemptResetIsUnreadable`). `start` does write a derived attempt id at revision zero; its missions stay
  readable because no host action and no authorization ever sets `attempt_id` (`EveryRunAgrees` keeps it so).
- Not every result the executor builds can be recorded: it accepts any non-empty distinct request ids, the result
  schema wants 8 to 128 characters. A result is refused exactly when the merge is credited and one of the ids received,
  from the reread or with the answer, lacks that shape (`ExecuteResultValidExactly`, `ExecutorRecordsExactly`;
  `ShortRequestIdIsRefused`).
- Not every result a reconciler builds is accepted: it is refused exactly when a dispatch record appeared after the
  reconciler looked (`ReconcilerRecordsExactly`). This is what makes a recorded `dispatch-not-started` final.
- Re-recording a receipt that has been applied never changes the mission, but it is refused, rather than
  answered, in the states between its target and the commit (`RerecordAnswersExactly`).
- Whether tied reviews of an actor are reported as ambiguous depends on the order of the input, unless no two of the
  actor's counting reviews share a time or two share its latest time (`ReportIgnoresOrderExactly`, `ReportOverOrders`;
  `AmbiguityDependsOnOrder`). Which review is chosen for an actor does not depend on it (`EffectiveIgnoresOrder`).

## Model

| member | source | states |
|---|---|---|
| MissionStore.MissionStore.Initialize | pathfinder_core/storage.py:243-247 | accepts any schema-valid document once, and changes nothing when it refuses |
| MissionStore.MissionStore.InitialHistoryCandidates | pathfinder_core/storage.py:277-319 | the loop over optional fields yields exactly the candidate list of the specification |
| MissionStore.MissionStore.ReplayHistory | pathfinder_core/storage.py:321-360 | the loop over events with `previous` and `saw_v2` computes the recursive replay |
| MissionStore.MissionStore.LoadHistory | pathfinder_core/storage.py:362-394 | succeeds if and only if every event up to the revision is present and well-formed, returning exactly those |
| MissionStore.MissionStore.AcceptHistory | pathfinder_core/storage.py:362-394 | accepts if and only if some candidate initial state replays to the document |
| MissionStore.MissionStore.ReadState | pathfinder_core/storage.py:432-436 | returns the stored document exactly when the store is readable, else the reason |
| MissionStore.MissionStore.Load | pathfinder_core/storage.py:448-474 | succeeds if and only if the store is repairable and nothing is pending; a pending event is reported, not hidden |
| MissionStore.MissionStore.RepairLocked | pathfinder_core/storage.py:476-483 | the directory is one of the repair's trace, and an uninterrupted repair returns the repaired document |
| MissionStore.MissionStore.Repair | pathfinder_core/storage.py:485-488 | as RepairLocked under the lock; a held lock changes nothing; only a killed call leaves the lock behind |
| MissionStore.MissionStore.Acquire | pathfinder_core/storage.py:164-185 | at most one owner: it succeeds exactly when the lease file was absent |
| MissionStore.MissionStore.AppendEvent | pathfinder_core/storage.py:490-498 | write-once: a different event at the sequence is refused, the same one is not written again |
| MissionStore.MissionStore.Apply | pathfinder_core/storage.py:500-546 | every branch of `move` after its repair: what is refused, what is a no-op, and which directories the two writes pass through; `MoveSucceedsExactly` says which moves go through |
| MissionStore.MissionStore.Move | pathfinder_core/storage.py:500-546 | wherever it is cut off, the directory is one of the move's trace; uninterrupted it returns what the plan says, which `MoveSucceedsExactly` spells out |
| MissionMoves.MoveSucceedsExactly | pathfinder_core/storage.py:34-55 | on a sound store a move to another state succeeds if and only if the transition and its changed keys are in the table written out in the statement, the schemas accept the next document and event, spelled out too, and the attempt agrees; it returns that document and leaves it and the event |
| MissionMoves.StaySucceedsExactly | pathfinder_core/storage.py:504-514 | a move to the state the mission is in succeeds if and only if it would change nothing, and changes nothing |
| MissionHistoryLaws.InitialIsCandidate | pathfinder_core/storage.py:277-319 | the true revision-zero state is among the guessed candidates, unless an event set an attempt over a given one |
| MissionHistoryLaws.ReadableExactly | pathfinder_core/storage.py:277-394 | a store holding a genuine history is readable if and only if its attempt identity was set at most once |
| MissionHistoryLaws.MoveStaysReadableExactly | pathfinder_core/storage.py:500-546 | a move keeps the store readable if and only if it does not set the attempt over an initial one |
| MissionHistoryLaws.AttemptResetIsUnreadable | pathfinder_core/storage.py:294-302 | a mission with well-formed ids that a legal move makes unreadable, under any schemas that accept its documents |
| MissionHistoryLaws.PendingExtendsReplay | pathfinder_core/storage.py:396-430 | recovering the pending event computes the same document as replaying one more event |
| MissionHistoryLaws.RepairIsIdempotent | pathfinder_core/storage.py:476-488 | after repair nothing is pending, and repairing again returns the same document and writes nothing |
| MissionHistoryLaws.MoveSurvivesCrash | pathfinder_core/storage.py:476-546 | from every crash point before the event is durable a retry, at any later time, answers and ends as an uninterrupted move at that time; from every later one repair alone, or a retry at any time, gives what the first attempt was about to give |
| MissionHistoryLaws.RetryStartsOver | pathfinder_core/storage.py:500-546 | before the event is durable nothing of the move has happened: asked again at any time, it succeeds or fails as on the store it was first asked of |
| MissionHistoryLaws.MoveIsAtomic | pathfinder_core/storage.py:476-546 | seen through repair a move is one step: every crash point settles to the start or to the end |
| MissionHistoryLaws.RunKeepsIntact | pathfinder_core/storage.py:476-546 | over any sequence of interrupted moves and repairs the store holds the history of its true initial state |
| MissionHistoryLaws.EveryRunRecovers | pathfinder_core/storage.py:277-546 | at every point of every run the store is readable and repairable, at most one event lies beyond the revision, and the true initial state is a candidate |
| MissionReplayLaws.AcceptedHistoryIsGenuine | pathfinder_core/storage.py:321-394 | an accepted history is a path of allowed, state-changing transitions from `planned`; a self-loop event is impossible |
| MissionReplayLaws.VerifiedWasEarned | pathfinder_core/state.py:20-34 | a genuine path into or beyond `verified` contains verifying to verified |
| MissionReplayLaws.ReviewImpliesVerifiedCommit | pathfinder_core/state.py:20-34 | a path ending in awaiting-review or merged passed verifying to verified and later verified to committed |
| MissionReplayLaws.SameLastEventSameHistory | pathfinder_core/storage.py:321-394 | two accepted version 2 histories with the same last event are the same events and documents at every revision |
| MissionReplayLaws.ReplayExactly | pathfinder_core/storage.py:321-360 | events replay to a document if and only if there are accepted documents in between such that each event is a permitted step from one to the next, carries only its keys, and is linked to both and to the event before |
| MissionReplayLaws.CandidatesExactly | pathfinder_core/storage.py:277-319 | the guessed initial states are exactly those that differ from the document, key by key, as an initial one may |
| MissionReplayLaws.ReadableMeansGrounded | pathfinder_core/storage.py:362-436 | a store is readable if and only if every revision has its properly filed event and a possible initial state leads through them to the document |
| MissionReplayLaws.RepairedExactly | pathfinder_core/storage.py:396-430 | repair answers with a document if and only if the store is readable and that is its document or the one its properly filed and linked pending event leads to |
| HostController.HostMissionController.Start | pathfinder_core/mission_host.py:179-211 | the controller reaches and answers exactly what the specification says, which writes the contract files one by one, then the state, then the authorization; `FirstStartExactly` and `SecondStartExactly` say when it succeeds and with what |
| HostController.HostMissionController.WriteContracts | pathfinder_core/mission_host.py:125-135 | succeeds if and only if the files already there are the first of these contracts, and then all four are there; otherwise nothing is written |
| HostController.HostMissionController.Next | pathfinder_core/mission_host.py:288-330 | the same for `next`; a held lock changes nothing |
| HostController.HostMissionController.Record | pathfinder_core/mission_host.py:469-477 | the same for `record`; a held lock changes nothing; `ReceiptSettlesExactly` and `LateReceiptExactly` say which receipts it accepts and what they do |
| HostController.HostMissionController.FinishReceipt | pathfinder_core/mission_host.py:462-467 | validation, operation result and state move happen in that order, with the specified reply; a failed outcome blocks the mission (`ReceiptSettlesExactly`) |
| HostController.HostMissionController.IssueOperation | pathfinder_core/mission_host.py:316-330 | blocks on the deadline, or records the intent before handing the action out |
| HostController.HostMissionController.ResumeOperation | pathfinder_core/mission_host.py:299-315 | finishes a receipt on disk, or asks for the missing one |
| HostMissionRuns.RecordKeeps | pathfinder_core/mission_host.py:347-477 | every directory `record` can leave behind agrees: journal, receipts and state |
| HostMissionRuns.NextKeeps | pathfinder_core/mission_host.py:288-330 | the same for `next`, deadline block included |
| HostMissionRuns.StartKeeps | pathfinder_core/mission_host.py:179-211 | the same for `start`, first or repeated, cut off between any two of its contract files |
| HostMissionRuns.EveryRunAgrees | pathfinder_core/mission_host.py:179-477 | whatever the calls and wherever each is cut off: intents, receipts, results and state agree, and each passed state has its one succeeded operation |
| HostMissionRecovery.RecordSurvivesCrash | pathfinder_core/mission_host.py:394-477 | re-recording at any later time: once the transition is durable it gives the first attempt's answer and mission; before that it ends exactly as an uninterrupted record at the later time |
| HostMissionRecovery.NextCompletesRecord | pathfinder_core/mission_host.py:288-314 | once the receipt is durable, either the transition is applied or `next`, at any time, ends as an uninterrupted `record` at that time |
| HostMissionSafety.PastReceiptsAreInert | pathfinder_core/mission_host.py:394-460 | recording any receipt for a state left behind never changes the mission, wherever it is cut off |
| HostMissionSafety.RerecordAnswersExactly | pathfinder_core/mission_host.py:394-425 | an applied receipt is answered again if and only if the state is its target, committed or terminal; it never changes anything |
| HostMissionSafety.HandedOutOnce | pathfinder_core/mission_host.py:316-330 | an action handed out is new, has its intent on disk, and was requested before the deadline |
| HostMissionSafety.AtMostSixActions | pathfinder_core/mission_host.py:18-34 | over any run of one driver no operation is handed out twice and there are at most six |
| HostMissionSafety.PendingIsNeverPreempted | pathfinder_core/mission_host.py:299-330 | an action without a receipt is awaited, however late, and the deadline block does not pre-empt it |
| HostMissionSafety.NextNeverDrifts | pathfinder_core/mission_host.py:165-177 | on a reachable mission `next` never reports drift; it has no action exactly in `planned` |
| HostMissionSafety.NextNeverDriftsUnsettled | pathfinder_core/mission_host.py:288-330 | the same for a mission that still has to be repaired |
| HostMissionSafety.DeadlinesHold | pathfinder_core/mission_host.py:118-123 | every intent starts before the deadline, every success and every passed state is completed by it |
| HostMissionBirth.RestartNeverDrifts | pathfinder_core/mission_host.py:125-135 | starting again under the same contracts, however many of their files were written, is never contract drift |
| HostMissionBirth.StartBornUnder | pathfinder_core/mission_host.py:141-163 | repeating `start` keeps the contracts and the creation time |
| HostMissionProgress.ReceiptSettlesExactly | pathfinder_core/mission_host.py:347-477 | a receipt for the operation a reachable mission waits for is accepted if and only if it answers the request and shows what its outcome takes (code, deadline, protected surfaces, native goal, spelled out) and what it writes is accepted; one revision later the mission is in the next state of the path if the outcome is a success, and blocked, otherwise unchanged, if and only if it is not |
| HostMissionProgress.RecordLeaves | pathfinder_core/mission_host.py:427-467 | afterwards the journal has the receipt and a result that reports it, a manual handoff as a failure, and nothing else new |
| HostMissionProgress.ReceiptTraceSettles | pathfinder_core/mission_host.py:462-477 | cut off anywhere, the mission settles to where it was or to where the receipt leads |
| HostMissionProgress.StoppedStaysStopped | pathfinder_core/mission_host.py:288-298 | after an unsuccessful receipt, or the one that completes the goal, `next` answers terminal with that state |
| HostMissionReceipts.LateReceiptExactly | pathfinder_core/mission_host.py:394-425 | a receipt whose operation is not the one waited for is accepted if and only if it fits and is let in, by a list of cases spelled out, and it never changes the mission |
| HostMissionReceipts.RecordAcceptsOnly | pathfinder_core/mission_host.py:347-392 | on any directory, reachable or not, a receipt is only accepted under contracts that agree and are the mission's, for an intent made under them that it answers |
| HostMissionJourney.FirstStartExactly | pathfinder_core/mission_host.py:179-211 | the first `start` succeeds if and only if the contracts agree, as spelled out, and the schemas accept the first two documents and their event; it answers with the authorized mission, key by key |
| HostMissionJourney.SecondStartExactly | pathfinder_core/mission_host.py:137-211 | `start` on an existing mission authorizes a planned one, and answers for any other, unchanged, if and only if it is authorized as the contracts say |
| HostMissionJourney.NextAsksExactly | pathfinder_core/mission_host.py:213-330 | before the deadline `next` hands out the state's action if and only if the schemas accept it and a goal to complete was activated; the request is spelled out and its intent written first |
| HostMissionJourney.NextGivesUpExactly | pathfinder_core/mission_host.py:316-323 | from the deadline on, with nothing handed out, it blocks the mission with the reason budget-limited, unless a schema refuses that |
| HostMissionJourney.NextRests | pathfinder_core/mission_host.py:288-298 | it answers for a final state as it is, and has no action for a planned one |
| HostMissionJourney.NextRefusesDriftExactly | pathfinder_core/mission_host.py:165-177 | on any directory it reports contracts that do not agree, or are not the mission's, if and only if they do not or are not |
| HostMissionReceipts.NextRefusesJournalExactly | pathfinder_core/operations.py:81-104 | once the contracts have passed it reports a journal that does not load if and only if the current operation's intent or result is not what it should be |
| HostMissionJourney.AbandonExactly | pathfinder_core/goal_pack.py:560-568 | abandoning moves a mission underway to abandoned, one revision later, and leaves one at rest alone |
| HostMissionJourney.SixTurnsReachReview | pathfinder_core/mission_host.py:179-477 | a whole run: under schemas that refuse nothing, `start` authorizes and six good receipts bring the mission to awaiting-review, where `next` is terminal |
| Projections.LoadOperations | pathfinder_core/projections.py:122-178 | accepts if and only if every operation's files fit; the views are ordered and are exactly the operations on disk |
| Projections.Insert | pathfinder_core/projections.py:174-178 | inserting keeps the order and adds exactly one view |
| Projections.Project | pathfinder_core/projections.py:239-312 | a projection is of the contracts' own mission, shows every operation and needs reconciliation exactly when an intent lacks a receipt or its recorded outcome is reconcile-required; a verified state is shown as verified; every reachable mission projects |
| Projections.EveryOperationFits | pathfinder_core/projections.py:84-178 | on every reachable mission every operation passes the projection's independent checks |
| Projections.VerifiedStateIsVerified | pathfinder_core/projections.py:180-189 | on every reachable mission a state at or past verification shows a successful verification, so the error for it never fires |
| Projections.ViewSays | pathfinder_core/projections.py:147-173 | the status shown is the receipt's outcome if its result is there too, recovery-pending if only the receipt is, and reconcile-required without one |
| Projections.FitExactly | pathfinder_core/projections.py:84-152 | what one operation's files are checked for, field by field |
| Projections.LastVerifyExactly | pathfinder_core/projections.py:180-189 | the verification looked at is the last verify operation shown |
| Projections.OrderedExactly | pathfinder_core/projections.py:174-178 | views are ordered by the place of the action and then by start time |
| Projections.VerificationExactly | pathfinder_core/projections.py:180-189 | on every reachable mission the verification shown is passed or failed exactly as recorded, else blocked exactly when something awaits reconciliation or the mission is blocked, else not-run |
| Projections.ViewsFollowThePath | pathfinder_core/projections.py:174-178 | on every reachable mission operations are listed in the order of their revisions |
| GoalPackController.GoalPackController.ActiveGoals | pathfinder_core/goal_pack.py:345-349 | the loop collects exactly the indices of the active goals, in order |
| GoalPackController.GoalPackController.IdentitiesUnique | pathfinder_core/goal_pack.py:76-135 | true if and only if no mission, binding or goal id is repeated |
| GoalPackController.GoalPackController.ValidateStateInvariants | pathfinder_core/goal_pack.py:187-232 | true if and only if the state fits its schema and the structural invariant |
| GoalPackController.GoalPackController.SaveState | pathfinder_core/goal_pack.py:269-279 | writes exactly the next revision, and only over the state the change was made from |
| GoalPackController.GoalPackController.FinishActive | pathfinder_core/goal_pack.py:457-495 | closes the active goal with its child's final state and activates the next only after awaiting-review |
| GoalPackController.GoalPackController.BlockForDeadline | pathfinder_core/goal_pack.py:443-455 | blocks the active goal and the pack, leaving the other goals alone |
| GoalPackController.SingleActive | pathfinder_core/goal_pack.py:345-349 | exactly one index is collected if and only if exactly that goal is active |
| GoalPackLaws.ShapeIsStructure | pathfinder_core/goal_pack.py:187-232 | the queue shape implies the controller's own structural check |
| GoalPackLaws.AgreedPackLoads | pathfinder_core/goal_pack.py:234-267 | a pack reached by any run always loads |
| GoalPackRuns.PackNextKeeps | pathfinder_core/goal_pack.py:508-536 | every directory `next` can leave behind, the child's writes included, keeps the pack's invariant; what it does is in the four turns below |
| GoalPackRuns.PackAbandonKeeps | pathfinder_core/goal_pack.py:553-577 | the same for `abandon` |
| GoalPackRuns.EveryPackRunAgrees | pathfinder_core/goal_pack.py:305-577 | the invariant holds after any calls, each cut off anywhere, between two contract files included |
| GoalPackTurns.StructureExactly | pathfinder_core/goal_pack.py:187-232 | the structural check accepts exactly numbered, different goals, each ended exactly if its status says so, and a pointer at the one active goal unless the pack has ended |
| GoalPackTurns.LoadsExactly | pathfinder_core/goal_pack.py:234-267 | a pack loads if and only if its state is accepted, structurally sound and the authorized one: ids, deadline and bindings in order |
| GoalPackTurns.RestingTurn | pathfinder_core/goal_pack.py:508-513 | a pack at rest is answered for as it is |
| GoalPackTurns.ClosingTurn | pathfinder_core/goal_pack.py:457-530 | on every reachable pack whose active mission has ended, `next` closes that goal with it and activates the next or ends the pack, in states spelled out, unless the schema refuses that state; the mission is only repaired |
| GoalPackTurns.TimedOutTurn | pathfinder_core/goal_pack.py:443-532 | on every reachable pack whose active mission, started or not, has not ended, at or after the deadline `next` blocks goal and pack with the reason budget-limited and answers terminal, unless the schema refuses that state; the mission is only repaired |
| GoalPackTurns.RunningTurn | pathfinder_core/goal_pack.py:533-536 | before the deadline it starts the mission under the contracts granted to the goal and answers what the mission does; no directory left behind has the pack stopped or its queue changed |
| GoalPackTurns.DerivedExactly | pathfinder_core/goal_pack.py:385-420 | a goal is granted contracts if and only if a second was left when it was activated, and exactly these: the smaller limits and the whole seconds left |
| GoalPackTurns.RecordTurn | pathfinder_core/goal_pack.py:538-551 | a receipt goes to the active goal's started mission, and is refused for a final pack, a foreign mission or one not started |
| GoalPackTurns.AbandonTurn | pathfinder_core/goal_pack.py:553-577 | abandoning ends mission, active goal and pack together, in a state spelled out |
| GoalPackTurns.FirstPackStartExactly | pathfinder_core/goal_pack.py:305-343 | the first `start` succeeds if and only if the contracts agree, as spelled out, and the schema accepts the queue with its first goal active; it starts no mission |
| GoalPackTurns.PackRestartStays | pathfinder_core/goal_pack.py:333-337 | starting again answers with the state and changes nothing |
| GoalPackTurns.PackRestartExactly | pathfinder_core/goal_pack.py:305-337 | on any directory with a state `start` is accepted if and only if the contracts agree, are those written so far, and the state loads under them |
| GoalPackSafety.QueueIsAlwaysShaped | pathfinder_core/goal_pack.py:187-232 | completed goals, at most one active, blocked or abandoned goal, then queued ones; completed children await review; no queued child was ever started |
| GoalPackSafety.DerivedLimits | pathfinder_core/goal_pack.py:385-420 | a derived authorization widens neither pack nor binding limits and ends by the pack deadline despite truncation |
| GoalPackSafety.ChildrenKeepWithinPack | pathfinder_core/goal_pack.py:385-441 | every started child runs, at every later point, under exactly the contracts derived for its goal and within the pack's deadline |
| GoalPackSafety.NextIsNeverRefusedWithoutCause | pathfinder_core/goal_pack.py:508-536 | if the state schema accepts the well-formed states of packs with accepted contracts, `next` passes its own checks and finds no drift; it fails only for time or a refused child document |
| MergeJournal.MergeOperationJournal.AuthorizationUnspent | pathfinder_core/merge_journal.py:108-134 | true if and only if no recorded intent spent the authorization id, its hash or the readiness proof |
| MergeJournal.MergeOperationJournal.WriteInputs | pathfinder_core/merge_journal.py:253-286 | writes all seven inputs, or stops midway having changed nothing else |
| MergeJournal.MergeOperationJournal.RecordIntent | pathfinder_core/merge_journal.py:253-286 | success exactly when inputs are valid, the lock is free and keys are unspent; says whether this call created the operation |
| MergeJournal.MergeOperationJournal.ClaimIntent | pathfinder_core/merge_journal.py:312-342 | a fresh claim only for the call that created the intent, on a loadable operation |
| MergeJournal.MergeOperationJournal.DispatchOnce | pathfinder_core/merge_journal.py:476-535 | the dispatch record is written only for the claim's owner, once however often the backend asks; once the backend was entered the claim is gone |
| MergeJournal.MergeOperationJournal.RecordResult | pathfinder_core/merge_journal.py:460-474 | records if and only if the result validates against the dispatch on disk and none other is there |
| MergeJournal.MergeOperationJournal.Load | pathfinder_core/merge_journal.py:540-572 | terminal exactly when a stored result validates again, pending when there is none |
| MergeExecutor.ProofBindsIntent | pathfinder_core/merge_executor.py:149-243 | a built proof passes the journal's proof binding, and its schema exactly when its request ids are well-shaped |
| MergeExecutor.ExecuteResultValidExactly | pathfinder_core/merge_executor.py:246-279 | with a nondecreasing clock the journal refuses a result of `execute` if and only if the merge is credited and a request id received, from the reread or the answer, is not one the schema admits |
| MergeExecutor.ReconcileResultValidExactly | pathfinder_core/merge_executor.py:501-572 | a reconciliation result is valid if and only if the dispatch it saw is the one on disk |
| MergeExecutor.CreditsOnlyProvenMerges | pathfinder_core/merge_executor.py:298-499 | merged is credited if and only if a trusted 200 or a lost reply is followed by a reread proving the exact squash, field by field, between dispatch and reread |
| MergeExecutor.EveryReplyIsReported | pathfinder_core/merge_executor.py:298-499 | every reply and observation has the one outcome and reason written out in the statement: not-merged only for a 200 that denies it or a 405, 409 or 422, api-unavailable for every unknown status, reconcile-required for every lost, malformed or unproven one |
| MergeExecutor.CreditedProofIsObserved | pathfinder_core/merge_executor.py:149-243 | the proof recorded with a credited merge is what was read, with the request ids received |
| MergeRecords.ResultValidExactly | pathfinder_core/merge_journal.py:364-458 | the journal accepts a result if and only if it is bound to its operation, inputs and dispatch, its reason explains its outcome, and it proves the exact merge if and only if it says merged; all spelled out |
| MergeRecords.ReconcilerReports | pathfinder_core/merge_executor.py:501-572 | a reconciler reports what it saw of the dispatch and proves nothing |
| MergeExecutor.ShortRequestIdIsRefused | pathfinder_core/merge_executor.py:197-203 | a confirmed merge whose result the journal refuses |
| MergeProtocolLaws.RunKeepsInvariant | pathfinder_core/merge_journal.py:253-535 | the journal invariant over every interleaving, failure and kill of any number of calls |
| MergeSafety.AtMostOnePut | pathfinder_core/adapters/github_merge_writer.py:180-188 | no two PUTs share an operation, authorization id, authorization hash or readiness proof; each was sent by the call that wrote the dispatch record |
| MergeSafety.PutFollowsItsRecord | pathfinder_core/merge_journal.py:509-532 | when a PUT goes out its dispatch record is durable and bound to the intent, and no result exists |
| MergeSafety.WriteOnceForever | pathfinder_core/merge_journal.py:99-106 | whatever a run leaves on disk every continuation still finds unchanged |
| MergeSafety.ResultsAgreeWithDispatches | pathfinder_core/merge_journal.py:392-398 | a result says dispatch-not-started if and only if there is no dispatch record; merged is recorded only by the dispatching call |
| MergeSafety.NotStartedMeansNever | pathfinder_core/merge_executor.py:529-532 | after dispatch-not-started no continuation dispatches or sends anything for the operation |
| MergeSafety.ExecutorRecordsExactly | pathfinder_core/merge_executor.py:281-296 | in any run, whatever others do in between, the result an executor builds from its reply and reread is accepted if and only if none other is there and it is not a credited merge with an ill-shaped id |
| MergeSafety.ReconcilerRecordsExactly | pathfinder_core/merge_journal.py:460-474 | in any run a reconciler's result is accepted if and only if it saw the dispatch exactly when there is one now |
| MergeSafety.EveryRecordIsProven | pathfinder_core/merge_journal.py:364-474 | every result recorded in any run is bound to what is on disk, and a recorded merge carries the proof of the intended squash |
| MergeProgress.EntersExactly | pathfinder_core/merge_executor.py:367-391 | a new `execute` goes on if and only if its operation is fresh, its intent made now and its inputs complete, named by their hashes and accepted |
| MergeProgress.ClaimsExactly | pathfinder_core/merge_journal.py:108-134 | it takes the lock if and only if that is free and nothing on disk has spent its authorization or proof, unless the operation is there already |
| MergeProgress.WritesExactly | pathfinder_core/merge_journal.py:99-106 | an input is written if and only if it is not there or is the same |
| MergeProgress.CreatesExactly | pathfinder_core/merge_journal.py:312-342 | with all inputs on disk exactly the call that found no intent writes it and may dispatch |
| MergeProgress.DispatchesExactly | pathfinder_core/merge_journal.py:487-508 | it dispatches if and only if the lock is free and no result was recorded in between |
| MergeProgress.MarksAlways | pathfinder_core/merge_journal.py:509-532 | under the lock the dispatch record is written |
| MergeProgress.LosesBeforeThePut | pathfinder_core/adapters/github_merge_writer.py:180-188 | an error between the dispatch record and the PUT is a lost reply with nothing sent |
| MergeProgress.ReconcilesExactly | pathfinder_core/merge_executor.py:501-520 | a new `reconcile` goes on if and only if the operation is there, with what it sees of the dispatch |
| MergeProgress.LooksExactly | pathfinder_core/merge_executor.py:508-520 | and builds a result if and only if none is there |
| MergeProgress.ConcludesAlways | pathfinder_core/merge_executor.py:521-572 | from what it saw, as of now |
| MergeProgress.ChecksExactly | pathfinder_core/merge_journal.py:487-508 | what a dispatch is checked for on any directory, field by field |
| MergeProgress.StopsAnywhere | pathfinder_core/storage.py:146-225 | a call can fail anywhere, which releases its lock, or be killed, which leaves it until it is removed |
| MergeProgress.EndedStaysEnded | pathfinder_core/storage.py:146-225 | a call that has ended does nothing more |
| MergeProgress.MergesFromAnywhere | pathfinder_core/merge_executor.py:298-499 | from any reachable state with a free lock, a fresh operation with sound inputs and unspent keys can go through: one PUT, and its result recorded, unless that would credit an ill-shaped id |
| PublicationJournal.PublicationJournal.AssertUnclaimed | pathfinder_core/publication_journal.py:77-98 | true if and only if every request on disk is valid and shares no authority or commit with this one |
| PublicationJournal.PublicationJournal.ClaimRequest | pathfinder_core/publication_journal.py:159-173 | persists a valid unclaimed request once and gives its claim to that call only |
| PublicationJournal.PublicationJournal.MarkDispatch | pathfinder_core/publication_journal.py:175-225 | one dispatch record, inside the request's window, for the claim's owner |
| PublicationJournal.PublicationJournal.RecordReceipt | pathfinder_core/publication_journal.py:227-245 | records if and only if request, dispatch and receipt bind and no other receipt exists |
| PublicationLaws.RunKeepsInvariant | pathfinder_core/publication_journal.py:159-245 | the journal invariant over every interleaving, failure and kill |
| PublicationLaws.AtMostOneSend | pathfinder_core/publication_controller.py:268-300 | each request is sent at most once, by the publish call that marked it, and never by a reconciliation |
| PublicationLaws.RequestsShareNothing | pathfinder_core/publication_journal.py:77-98 | no two persisted requests share a mission authorization, state hash or head commit |
| PublicationLaws.ReceiptsFollowDispatches | pathfinder_core/publication_journal.py:100-157 | dispatches lie in a window of at most fifteen minutes within the authorization, receipts come after their dispatch |
| PublicationLaws.EveryRecordLoads | pathfinder_core/publication_journal.py:338-386 | in every reachable state whatever is on disk is sound, field by field, and validates |
| PublicationLaws.LoadsExactly | pathfinder_core/publication_journal.py:338-386 | `load` succeeds if and only if the request is sound, its dispatch is bound and in its window, and a receipt answers both |
| PublicationLaws.ChecksExactly | pathfinder_core/publication_journal.py:100-157 | what a dispatch and a receipt are checked for on any directory, field by field |
| PublicationProgress.EntersExactly | pathfinder_core/publication_controller.py:268-300 | a new `publish` goes on if and only if its request is new, sound and current |
| PublicationProgress.ClaimsExactly | pathfinder_core/publication_journal.py:77-98 | it claims if and only if the lock is free and no request on disk is the same or shares its authorization, state or head |
| PublicationProgress.DispatchesExactly | pathfinder_core/publication_journal.py:175-225 | it dispatches if and only if the lock is free and the window has been kept |
| PublicationProgress.LooksExactly | pathfinder_core/publication_controller.py:302-321 | a new `reconcile` looks at the remote if and only if there is a dispatch and no receipt |
| PublicationProgress.ObservesAlways | pathfinder_core/publication_controller.py:302-321 | what it looked at becomes a receipt for the request |
| PublicationProgress.RecordsExactly | pathfinder_core/publication_journal.py:227-245 | a receipt is recorded if and only if the lock is free, it answers a dispatch on disk, later, and no other receipt does |
| PublicationProgress.StopsAnywhere | pathfinder_core/storage.py:146-225 | a call can fail anywhere, which releases its lock, or be killed, which leaves it until it is removed |
| PublicationProgress.EndedStaysEnded | pathfinder_core/storage.py:146-225 | a call that has ended does nothing more |
| PublicationProgress.PublishesFromAnywhere | pathfinder_core/publication_controller.py:268-300 | from any reachable state with a free lock a sound, current request that clashes with none can go through: one send, and its receipt recorded |
| PolicyTypes.Blocks.Add | pathfinder_core/merge_policy.py:58-75 | a block is kept once, in order of first occurrence |
| PolicyTypes.Blocks.Outcome | pathfinder_core/merge_policy.py:120-127 | unknown before unsupported before blocked, eligible only without blocks |
| PolicyTypes.OutcomeExactly | pathfinder_core/merge_policy.py:76-127 | blocked by policy means that every block is of a code listed as judged, unsupported that some are beyond judging and none unknown, unknown anything else |
| PolicyReviews.EvaluateReviews | pathfinder_core/merge_policy_proofs.py:19-90 | the loops add exactly the specified blocks and return the independent approvals, which `ApprovedExactly` spells out |
| PolicyReviews.EffectiveIsLatest | pathfinder_core/merge_policy_proofs.py:43-61 | the fold keeps, for exactly the actors with a decisive review, the latest one |
| PolicyReviews.EffectiveIgnoresOrder | pathfinder_core/merge_policy_proofs.py:43-61 | the review chosen per actor does not depend on input order |
| PolicyAmbiguity.AmbiguityDependsOnOrder | pathfinder_core/merge_policy_proofs.py:54-60 | two orders of the same reviews, one blocked as ambiguous and one not |
| PolicyAmbiguity.ReportedExactly | pathfinder_core/merge_policy_proofs.py:54-60 | in a given order an actor is reported if and only if some review is met with the very time of the latest met before it |
| PolicyAmbiguity.ReportOverOrders | pathfinder_core/merge_policy_proofs.py:54-60 | every order reports an actor whose latest time is shared, no order one whose times all differ, and for any other tie some order does and another does not |
| PolicyAmbiguity.ReportIgnoresOrderExactly | pathfinder_core/merge_policy_proofs.py:54-60 | all orders agree on an actor if and only if no two of its counting reviews share a time or two share its latest time |
| PolicyAmbiguity.ReportIsAdded | pathfinder_core/merge_policy_proofs.py:19-90 | the whole review evaluation adds an actor's ambiguity block exactly when its loop over reviews reports the actor |
| PolicyReviews.NoReviewBlockMeans | pathfinder_core/merge_policy_proofs.py:62-90 | no block implies enough distinct listed, unexcluded humans whose latest review is an undismissed approval of the required commit, with a permission and an association out of the lists in the statement, and no change request |
| PolicyReviews.ApprovedExactly | pathfinder_core/merge_policy_proofs.py:62-83 | an actor counts if and only if it is listed, not excluded, and its latest decisive review is an approval with those fields |
| PolicyPassing.ReviewsPassExactly | pathfinder_core/merge_policy_proofs.py:19-90 | the reviews add no block if and only if each is sound, no id repeats, no tie is met, nobody's latest asks for changes, the decision is settled, no code owner or thread is open, and enough approvals count |
| PolicyPassing.ChecksPassExactly | pathfinder_core/merge_policy_proofs.py:93-153 | the checks add no block if and only if ids and times are sound, whatever GitHub requires is enforced, and every required check is proven by its latest run, and by the latest commit status of its name if there is one |
| PolicyPassing.LatestBlocksSay | pathfinder_core/merge_policy_proofs.py:156-187 | a required check is pending if and only if some run is waiting and every completed one is timed; failed if and only if all are concluded and the latest, unambiguously, without success; anything else that blocks is incomplete evidence |
| PolicyPassing.RulesPassExactly | pathfinder_core/merge_policy.py:608-780 | the rules add no block if and only if classic protection and every rule can be judged, by their parameters spelled out, and GitHub itself enforces an approval and a check |
| PolicyPassing.UnsupportedExactly | pathfinder_core/merge_policy.py:618-632 | each unsupported rule type has its own code |
| PolicyPassing.RuleDriftExactly | pathfinder_core/merge_policy.py:690-780 | a rule is reported as drifted if and only if its source differs or its parameters are not those of its type |
| PolicyChecks.LatestCheck | pathfinder_core/merge_policy_proofs.py:156-187 | the checks in their order, then the comparison of the last two of the sort, add exactly the specified blocks |
| PolicyChecks.LatestIsMaximal | pathfinder_core/merge_policy_proofs.py:174-182 | nothing is later by completion time and id than the item chosen |
| PolicyChecks.LatestSucceedsExactly | pathfinder_core/merge_policy_proofs.py:156-187 | no block if and only if all items are concluded, the one sorted last succeeded, and the one before it does not have its id and its time in the same spelling |
| PolicyChecks.LatestOfDistinctSucceedsExactly | pathfinder_core/merge_policy_proofs.py:156-187 | among items with different ids, no block if and only if all are concluded and one, strictly later than all others, succeeded |
| PolicyChecks.EvaluateChecks | pathfinder_core/merge_policy_proofs.py:93-153 | the loops add exactly the specified blocks |
| PolicyChecks.NoCheckBlockMeans | pathfinder_core/merge_policy_proofs.py:93-153 | no block implies that every required context and app has its strictly latest run on the commit successful, whatever the spelling of times |
| PolicyRules.EvaluateRules | pathfinder_core/merge_policy.py:630-780 | the loop over rules gathers the specified approvals, checks and blocks |
| PolicyRules.GatheredIsDemanded | pathfinder_core/merge_policy.py:630-780 | without a block the approvals are the largest number anything demands and the checks exactly those demanded |
| PolicyBypass.GatherNames | pathfinder_core/merge_policy.py:831-844 | the loop over metadata maps each expected membership to its names, in order |
| PolicyBypass.ScanMemberships | pathfinder_core/merge_policy.py:845-901 | the loop over memberships with its sets of seen references and requests computes the specified scan |
| PolicyBypass.EvaluateBypass | pathfinder_core/merge_policy.py:781-946 | ruleset sources, bypass actors and memberships add exactly the specified blocks |
| PolicyBypass.NoBypassBlockMeans | pathfinder_core/merge_policy.py:781-946 | no block implies that the merge actor is none of the direct bypass actors, and authoritatively no member of any that depends on a membership, each resolved exactly once |
| PolicyOpenings.BypassPassesExactly | pathfinder_core/merge_policy.py:781-946 | the bypass evidence adds no block if and only if its sources are sound, every team, role or administration that may bypass is resolved once by an audited membership that says the merge actor does not belong, and it is none of the actors named directly; all spelled out |
| PolicyOpenings.BypassedExactly | pathfinder_core/merge_policy.py:846-946 | the merge actor is reported as able to bypass if and only if a membership says it belongs, by the states and roles written out, it is a direct bypass actor, or it administers, whatever else is in doubt |
| PolicyDiff.MatchesExactly | pathfinder_core/merge_policy.py:94-113 | the recursive matcher accepts a path if and only if it can be cut into one piece per component, any piece for `**` |
| PolicyDiff.EvaluateDiff | pathfinder_core/merge_policy.py:511-606 | hashes, totals, the two classification loops, paths and limits add exactly the specified blocks |
| PolicyDiff.DiffOkExactly | pathfinder_core/merge_policy.py:511-606 | no block if and only if hashes, totals and order agree, neither evidence nor registry classifies a file as protected or special, every path is allowed and not denied, and policy and shipped limits hold |
| PolicyDiff.AscendingMeans | pathfinder_core/merge_policy.py:527-535 | comparing neighbours finds exactly what the sort does: an accepted list of paths is sorted and repeats nothing |
| PolicyDiff.TextLessExactly | pathfinder_core/merge_policy.py:527-535 | the order of paths is that of Python: by the first character that differs, or by length |
| PolicyEvaluator.Evaluate | pathfinder_core/merge_policy.py:132-208 | the evaluation over one accumulator gives the specified verdict, missing inputs first; `EligibleExactly` says which candidates are eligible |
| PolicyEvaluator.EligibleMeans | pathfinder_core/merge_policy.py:608-947 | eligible implies fresh evidence on the head, at least every demanded number of listed, uninvolved humans with an approval of the head commit, its fields spelled out, as latest review, no change request, every demanded check proven, and a merge actor that cannot bypass the rules |
| PolicyEligibility.DiffPassesExactly | pathfinder_core/merge_policy.py:511-606 | the diff adds no block if and only if it is what its evidence says, touches nothing protected, every path is cut by an allowed pattern and by no denied one, and the shipped limits, written out, and the policy's hold |
| PolicyEligibility.EligibleExactly | pathfinder_core/merge_policy.py:132-208 | a candidate is eligible if and only if its inputs are complete and its evidence passes: window, head commit, diff, rules, bypass, reviews and checks, all said of the policy and the evidence; the verdict then names exactly the approvers, the largest number of approvals asked for and the checks asked for |
| PolicyEvaluator.StricterNeverHelps | pathfinder_core/merge_policy.py:510-632 | a stricter policy never turns an ineligible candidate eligible |
| PolicyEvaluator.ShippedCeilingsHold | pathfinder_core/merge_policy.py:43-48 | no policy makes a candidate above the shipped diff ceilings eligible |
| PolicyReread.CompareCompleteReread | pathfinder_core/merge_policy_freshness.py:39-140 | the loop over compared domains adds exactly the specified blocks |
| PolicyReread.UnchangedMeans | pathfinder_core/merge_policy_freshness.py:39-140 | the comparison adds no block if and only if the second snapshot was read later under fresh identities and agrees on authority, repository, actors, pull request, commits, diff, rules, bypass, reviews, checks and completeness |
| PolicyReread.ChangesAreNamed | pathfinder_core/merge_policy_freshness.py:39-140 | each difference is reported under its own code and surface |
| PolicyReread.ChangedIsUnknown | pathfinder_core/merge_policy_freshness.py:39-140 | whatever differs, the outcome is unknown, never a judgement |
| PolicyReread.EvaluateReread | pathfinder_core/merge_policy.py:210-274 | the outcome, blocks and readiness of the two-snapshot evaluation |
| PolicyReread.IntentReadyMeans | pathfinder_core/merge_policy.py:210-274 | ready implies both snapshots eligible by themselves, disjoint request ids, the same approvers and checks, all within 60 seconds |
| PolicyReread.IntentReadyExactly | pathfinder_core/merge_policy.py:210-274 | intent is ready if and only if both snapshots are complete and pass, nothing has changed between them, and the readiness proof fits its schema |
| MarkdownBlocks.MarkdownInline | pathfinder_core/rendering.py:33-37 | replacing one special character after the other escapes each character exactly once |
| MarkdownBlocks.RenderedValuesAreHarmless | pathfinder_core/rendering.py:21-37 | no rendered value contains `<`, a newline or a carriage return |
| MarkdownBlocks.EscapingIsReversible | pathfinder_core/rendering.py:33-37 | escaping can be undone: no two texts are shown alike |
| MarkdownTexts.InlineIs | pathfinder_core/rendering.py:21-32 | nothing and truth values have fixed texts; a text is shown character by character as it is, but every way to break a line as one space |
| MarkdownTexts.EscapesAre | pathfinder_core/rendering.py:33-37 | what each special character is shown as |
| MarkdownTexts.DecimalReads | pathfinder_core/rendering.py:86-114 | a number is shown in digits that read back as it |
| MarkdownTexts.MarkersAre | pathfinder_core/rendering.py:15-18 | the texts of the two markers of a region |
| MarkdownBlocks.RenderCandidatesBlock | pathfinder_core/rendering.py:86-114 | the lines appended in the loop, joined, are the specified block; other versions are refused |
| MarkdownBlocks.RenderVerificationBlock | pathfinder_core/rendering.py:117-140 | the same for the verification block |
| MarkdownBlocks.CandidatesBlockIsABlock | pathfinder_core/rendering.py:86-114 | whatever the document says, the block holds exactly its own two markers |
| MarkdownBlocks.VerificationBlockIsABlock | pathfinder_core/rendering.py:117-140 | the same for the verification block |
| GeneratedRegions.ParseTagExactly | pathfinder_core/rendering.py:15-18 | a tag is read off a text if and only if the text is that tag's marker with a valid name and version |
| GeneratedRegions.ValidExactly | pathfinder_core/rendering.py:15-18 | a name is of lower-case letters and hyphens, a version a `v` and a number without leading zero |
| GeneratedRegions.PrefixExactly | pathfinder_core/rendering.py:50-52 | an opening is counted exactly where the text of one stands |
| GeneratedRegions.MatchExactly | pathfinder_core/rendering.py:15-18 | a position matches if and only if the marker stands alone on its line there |
| GeneratedRegions.CountsAgreeExactly | pathfinder_core/rendering.py:50-52 | prefixes and markers are equally many if and only if every prefix opens a marker |
| GeneratedRegions.PairMarkers | pathfinder_core/rendering.py:54-68 | the loop with its one-place stack computes the recursive pairing |
| GeneratedRegions.PairsExactly | pathfinder_core/rendering.py:54-68 | pairing succeeds if and only if markers alternate begin and end of one identity, giving one region a pair |
| GeneratedRegions.LocateExactly | pathfinder_core/rendering.py:50-78 | a region is found if and only if the document is well marked and has exactly one of that name and version |
| GeneratedRegions.ReplacedExactly | pathfinder_core/rendering.py:44-83 | a replacement succeeds if and only if a region is located and the text begins and ends with its markers; only that region changes |
| GeneratedRegions.ReplaceGeneratedRegion | pathfinder_core/rendering.py:44-83 | gives the specified document or error; the malformed-begin branch is never taken |
| RegionLaws.RewrittenRegions | pathfinder_core/rendering.py:44-83 | after a replacement the document is well marked with the same regions, moved by the change in length |
| RegionRepairs.RepairsExactly | pathfinder_core/rendering.py:143-158 | a repair succeeds if and only if the document is well marked with one region of the name |
| RegionRepairs.OnlyTheRegionChanges | pathfinder_core/rendering.py:79-83 | the region holds the block, the text before and after it is unchanged |
| RegionRepairs.OtherRegionsKeep | pathfinder_core/rendering.py:79-83 | every other region keeps its identity and text |
| RegionRepairs.CandidatesRepairChangesOneRegion | pathfinder_core/rendering.py:143-149 | the result differs from the document in one stretch that began and ended with the candidates markers |
| RegionRepairs.CandidatesRepairedTwice | pathfinder_core/rendering.py:143-149 | repairing with one document and then another is repairing with the other |
| RegionRepairs.VerificationRepairedTwice | pathfinder_core/rendering.py:152-158 | the same for verification |
| RegionRepairs.RepairsCommute | pathfinder_core/rendering.py:143-158 | on every document the two repairs succeed together in either order, exactly when both regions are there once, with the same text |
| RegionRepairs.RepairCandidatesMarkdown | pathfinder_core/rendering.py:143-149 | renders and replaces as specified |
| RegionRepairs.RepairVerificationMarkdown | pathfinder_core/rendering.py:152-158 | renders and replaces as specified |
| GraphQLPages.ReadPullRequest | pathfinder_core/adapters/github_graphql.py:653-819 | at most `max_pages` requests with distinct ids; complete below the limit, and complete connections are whole; an error comes from the next request of a valid run; a consistent server with no more pages than the limit is read to the end, all its pages in order |
| GraphQLPages.ReadOnce | pathfinder_core/adapters/github_graphql.py:679-732 | one request extends the run, or fails with the error of the response or of one connection |
| GraphQLPages.TakeResponse | pathfinder_core/adapters/github_graphql.py:739-795 | all three connections take their part of a response, or the error of one that cannot |
| GraphQLPages.TakePage | pathfinder_core/adapters/github_graphql.py:739-795 | an excluded connection is refused, an active one grows by exactly its page |
| GraphQLPages.CompleteMeans | pathfinder_core/adapters/github_graphql.py:739-810 | a complete connection is the in-order concatenation of its pages, chained by cursors up to the last, distinct and as many as the total |
| GraphQLPages.AddPageExactly | pathfinder_core/adapters/github_graphql.py:739-795 | a page is taken if and only if it has a new cursor when it promises more, keeps the total, repeats no identity and completes the total when it is the last; the first fault is the one reported |
| GraphQLPages.IncompleteMeans | pathfinder_core/adapters/github_graphql.py:796-810 | an incomplete connection holds the items of all pages so far in order, each having promised more, with the last total and cursor |
| GraphQLPages.RequestIdsDistinct | pathfinder_core/adapters/github_graphql.py:691-698 | every request of a snapshot has its own id |
| GraphQLPages.HonestNeverStops | pathfinder_core/adapters/github_graphql.py:653-819 | a server that answers consistently is never refused |
| GraphQLPages.HonestSnapshot | pathfinder_core/adapters/github_graphql.py:739-810 | against such a server every connection holds its first pages, and is complete exactly when it holds all |

## Left out

Not modelled:

- File permissions, symlink and ownership checks, fsync and temporary files: a write is one atomic step.
- `MissionLock` with `break_stale=True`, and liveness after a kill that leaves a lease behind.
- SHA-256, truncated ids and canonical JSON: hashes are injective constructors, an operation id is the tuple it hashes.
- JSON schemas, the protected-surface registry, evaluator replay inside the merge journal and field-by-field identity comparisons: arbitrary predicates, except where a property needs a clause (the request-id shape, hash bindings, windows).
- HTTP transports, credentials, header allowlists, response normalisers and the retries inside the GraphQL client: the server is a function from request number and variables to a response or an error.
- `fnmatch` on one path component and splitting a path at `/`: components are given, and the component matcher is an arbitrary predicate.
- The order of the verdict's lists and of projection views with equal start times.
- Histories that begin with version 1 events are replayed by the model, the no-downgrade rule included, but the reachability theorems are about the version 2 events `move` writes.
- Recovery-only publication states, `merge_status.py`, `host_artifact_store.py`, the CLI, Git and worktree calls, migrations and the other renderers.
- Documents with missing keys: rendered documents and contracts have all their fields.

Stated on a coarser grain than the code:

- HostMissionSafety.AtMostSixActions: for a single driver, because `next` is not locked and `record_intent` accepts an identical document twice.
- HostMissionRecovery.RecordSurvivesCrash: for a `record` that would have succeeded at both times; the instant only enters a document the schema may refuse.
- MergeSafety.AtMostOnePut: `record_intent`, which creates an operation without a claim, is not an action of the transition system; such an operation is never dispatched.
- GoalPackRuns.PackNextKeeps: children are values inside the pack, and the pack's clock is read once per call.
- GoalPackController.GoalPackController.FinishActive: the pack's child stores are not objects of this class; the child's document is passed in.
- PolicyRules.EvaluateRules: whether a rule's ruleset is there, active and of the type and id the rule names is given.
- PolicyEvaluator.Evaluate: the blocks of the comparisons that are not modelled (authority, evidence integrity, candidate identity; conjunctions without a loop) are given as one set.
- PolicyEvaluator.StricterNeverHelps: the laxer policy must bring no block from the comparisons that are not modelled that the stricter one does not bring, that is, both are correctly bound.
- PolicyBypass.EvaluateBypass: the endpoint a membership must have been read from, and whether a recorded rule signature is that of the rules, are given.
- PolicyDiff.EvaluateDiff: what the registry and the Git evidence derive for a file, and whether a recorded hash is that of the evidence, are given.
- PublicationJournal.PublicationJournal.MarkDispatch: the send that follows, outside the lock, is a separate action of the transition system.
