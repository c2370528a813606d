/** Journal, receipts and state agree in every reachable host mission. */
module HostMissionLaws {
  import opened Wrappers
  import opened MissionState
  import opened MissionHistory
  import MissionHistoryLaws
  import opened HostDocuments
  import opened HostMission

  // ---------------------------------------------------------------- the path of a host mission

  /** How many transitions lead to a state of the host path. */
  function Rank(state: State): nat {
    match state
    case Authorized => 1
    case Prepared => 2
    case Running => 3
    case Verifying => 4
    case Verified => 5
    case Committed => 6
    case AwaitingReview => 7
    case _ => 0
  }

  function ActionAt(r: nat): Action {
    if r <= 1 then PrepareWorktree else if r == 2 then ActivateGoal else if r == 3 then Implement
    else if r == 4 then Verify else if r == 5 then Commit else CompleteGoal
  }

  predicate Stopped(state: State) { state in {Blocked, Abandoned} }

  /** The one operation that can exist for the state at revision `r`. */
  function KeyAt(h: HostSchemas, c: Contracts, r: nat): OperationKey {
    OperationKey(c.binding.identity.missionId, AttemptOf(h, c), r, ActionAt(r))
  }

  /** The document is on the path, or was stopped on it, and names its contracts. */
  ghost predicate OnPath(h: HostSchemas, c: Contracts, d: Document) {
    && d.identity == c.binding.identity && Get(d.fields, MissionState.AttemptId) == AttemptOf(h, c)
    && (if Stopped(d.state) then 1 <= d.revision <= 7 else d.state !in {Published, Merged} && d.revision == Rank(d.state))
    && Get(d.fields, AuthorizationId) ==
         (if d.state == Planned || (Stopped(d.state) && d.revision == 1) then Null else Str(c.authorization.authorizationId))
  }

  /** The last revision whose operation may be on disk. */
  function Reach(d: Document): nat {
    if Stopped(d.state) && d.revision > 0 then d.revision - 1 else if d.state == AwaitingReview then 6 else d.revision
  }

  /** The operations at revisions 1 to `Done(d)` are behind the mission. */
  function Done(d: Document): nat {
    if Stopped(d.state) then (if d.revision > 2 then d.revision - 2 else 0)
    else if d.state == AwaitingReview then 6 else if d.revision > 0 then d.revision - 1 else 0
  }

  ghost predicate Applied(d: Document, r: Receipt) {
    var changes := SuccessChanges(r.action, r.evidence);
    && r.evidence.code == SuccessCode(r.action)
    && forall f :: f in changes ==> Get(d.fields, f) == changes[f]
  }

  /** A state passed on the way: its operation succeeded, is fully recorded, and left its mark. */
  ghost predicate Passed(d: Document, j: Journal, k: OperationKey) {
    && k in j.intents && k in j.receipts && k in j.results
    && j.receipts[k].outcome == Succeeded && Applied(d, j.receipts[k])
  }

  ghost predicate IntentOk(h: HostSchemas, c: Contracts, createdAt: int, k: OperationKey, intent: Intent) {
    && intent.key == k && intent.action == k.action && h.intent(intent)
    && intent.authorization == OfAuthorization(c.authorization) && intent.boundary == OfBoundary(c.boundary)
    && intent.protection == OfProtection(c.protection)
    && intent.startedAt < Deadline(c, createdAt)
  }

  ghost predicate ReceiptOk(h: HostSchemas, c: Contracts, createdAt: int, intent: Intent, r: Receipt) {
    ReceiptBound(h, c, intent, r) && (r.outcome == Succeeded ==> r.completedAt <= Deadline(c, createdAt))
  }

  ghost predicate IntentsOk(h: HostSchemas, c: Contracts, d: Document, j: Journal) {
    forall k :: k in j.intents ==>
      && 1 <= k.revision <= Reach(d) && k.revision <= 6 && k == KeyAt(h, c, k.revision)
      && IntentOk(h, c, d.createdAt, k, j.intents[k])
  }

  ghost predicate ReceiptsOk(h: HostSchemas, c: Contracts, createdAt: int, j: Journal) {
    forall k :: k in j.receipts ==> k in j.intents && ReceiptOk(h, c, createdAt, j.intents[k], j.receipts[k])
  }

  ghost predicate ResultsOk(h: HostSchemas, j: Journal) {
    forall k :: k in j.results ==>
      && k in j.intents && k in j.receipts
      && j.results[k] == ResultFor(j.intents[k], j.receipts[k]) && h.result(j.results[k])
  }

  /** A goal can only be completed under the identity it was activated with. */
  ghost predicate NativeGoalsMatch(d: Document, j: Journal) {
    forall k :: k in j.receipts && j.receipts[k].action == CompleteGoal && j.receipts[k].outcome == Succeeded ==>
      j.receipts[k].evidence.stableId == Get(d.fields, NativeGoalId)
  }

  ghost predicate PathRecorded(h: HostSchemas, c: Contracts, d: Document, j: Journal) {
    forall r :: 1 <= r <= Done(d) ==> Passed(d, j, KeyAt(h, c, r))
  }

  ghost predicate Agree(h: HostSchemas, c: Contracts, d: Document, j: Journal) {
    && ContractsValid(h, c) && OnPath(h, c, d)
    && IntentsOk(h, c, d, j) && ReceiptsOk(h, c, d.createdAt, j) && ResultsOk(h, j) && PathRecorded(h, c, d, j)
    && NativeGoalsMatch(d, j)
  }

  ghost predicate StoreSound(h: HostSchemas, c: Contracts, disk: Disk) {
    disk.state.Some? && MissionHistoryLaws.Sound(h.store, InitialState(h, c, disk.state.value.createdAt), disk)
  }

  /** The state a reader of the mission would repair to. */
  ghost function Current(h: HostSchemas, m: Mission): Option<Document> { Settled(h, m).store.state }

  ghost predicate Invariant(h: HostSchemas, m: Mission) {
    if m.store.state.None? then m.store.events == map[] && m.journal == NoMission.journal
    else
      && m.contracts.Some? && StoreSound(h, m.contracts.value, m.store)
      && Current(h, m).Some? && Agree(h, m.contracts.value, Current(h, m).value, m.journal)
  }

  // ---------------------------------------------------------------- settling and moving

  lemma SettledFacts(h: HostSchemas, m: Mission)
    requires Invariant(h, m) && m.store.state.Some?
    ensures var t := Settled(h, m);
            && Repaired(h.store, m.store).Ok? && Current(h, m) == Some(Repaired(h.store, m.store).value)
            && Invariant(h, t) && Settled(h, t) == t && t.store.state == Current(h, m)
            && Repaired(h.store, t.store) == Repaired(h.store, m.store)
  {
    var initial := InitialState(h, m.contracts.value, m.store.state.value.createdAt);
    MissionHistoryLaws.SettledIsSound(h.store, initial, m.store);
    SettledCreation(h, initial, m.store);
    hide Agree, MissionHistoryLaws.Sound;
  }

  /** Repair does not touch the creation time. */
  lemma SettledCreation(h: HostSchemas, initial: Document, disk: Disk)
    requires MissionHistoryLaws.Sound(h.store, initial, disk)
    ensures disk.state.Some? && disk.state.value.createdAt == initial.createdAt
    ensures SettledDisk(h.store, disk).state.Some? && SettledDisk(h.store, disk).state.value.createdAt == initial.createdAt
  {
    MissionHistoryLaws.SettledIsSound(h.store, initial, disk);
    var fixed := SettledDisk(h.store, disk);
    MissionHistoryLaws.ReplayKeepsIdentity(h.store, initial, HistoryUpTo(disk.events, disk.state.value.revision));
    MissionHistoryLaws.ReplayKeepsIdentity(h.store, initial, HistoryUpTo(fixed.events, fixed.state.value.revision));
  }

  /** Every directory a controller's move can leave behind agrees, and settles to one of its two ends. */
  lemma ApplyMoveKeeps(h: HostSchemas, m: Mission, request: Request, at: int, reply: Document -> Reply, i: nat)
    requires Invariant(h, m) && m.store.state.Some? && Settled(h, m) == m
    requires MissionState.AttemptId !in request.changes
    requires var moved := Moved(h.store, m.store, request, at);
             moved.Ok? ==> Agree(h, m.contracts.value, moved.value, m.journal)
    requires i < |ApplyMove(h, m, request, at, reply).trace|
    ensures var e := ApplyMove(h, m, request, at, reply);
            && Invariant(h, e.trace[i]) && e.trace[i] == m.(store := e.trace[i].store) && e.trace[i].store.state.Some?
            && (e.reply.Ok? ==>
                  && Settled(h, e.trace[i]) in {m, Final(e)} && Settled(h, Final(e)) == Final(e)
                  && Final(e).store.state == Some(Moved(h.store, m.store, request, at).value))
            && (e.reply.Err? ==> Settled(h, e.trace[i]) == m)
  {
    hide Agree, MissionHistoryLaws.Sound, MoveTrace, Moved, SettledDisk, ContractsValid;
    var initial := InitialState(h, m.contracts.value, m.store.state.value.createdAt);
    var trace := MoveTrace(h.store, m.store, request, at);
    MissionHistoryLaws.MoveIsAtomic(h.store, initial, m.store, request, at, i);
    SettledCreation(h, initial, trace[i]);
  }

  // ---------------------------------------------------------------- what each durable write keeps

  lemma KeyOfIsKeyAt(h: HostSchemas, c: Contracts, d: Document, a: Action)
    requires OnPath(h, c, d) && d.state == Source(a)
    ensures 1 <= d.revision <= 6 && KeyOf(d, a) == KeyAt(h, c, d.revision) && Reach(d) == d.revision && Done(d) == d.revision - 1
  {}

  /** A fresh intent leaves everything recorded so far as it was. */
  lemma FreshIntentKeepsRecords(h: HostSchemas, c: Contracts, d: Document, j: Journal, k: OperationKey, intent: Intent)
    requires ReceiptsOk(h, c, d.createdAt, j) && ResultsOk(h, j) && PathRecorded(h, c, d, j) && k !in j.intents
    ensures var j' := j.(intents := j.intents[k := intent]);
            ReceiptsOk(h, c, d.createdAt, j') && ResultsOk(h, j') && PathRecorded(h, c, d, j')
  {
    hide ReceiptOk, Applied, KeyAt;
    var j' := j.(intents := j.intents[k := intent]);
    forall r | 1 <= r <= Done(d)
      ensures Passed(d, j', KeyAt(h, c, r))
    {
      assert Passed(d, j, KeyAt(h, c, r));
    }
  }

  lemma FreshIntentFits(h: HostSchemas, c: Contracts, d: Document, j: Journal, a: Action, now: int)
    requires IntentsOk(h, c, d, j) && OnPath(h, c, d) && d.state == Source(a)
    requires h.intent(IntentFor(c, d, a, now)) && now < Deadline(c, d.createdAt)
    ensures IntentsOk(h, c, d, j.(intents := j.intents[KeyOf(d, a) := IntentFor(c, d, a, now)]))
  {
    KeyOfIsKeyAt(h, c, d, a);
    hide OnPath;
  }

  lemma AddIntentAgrees(h: HostSchemas, c: Contracts, d: Document, j: Journal, a: Action, now: int)
    requires Agree(h, c, d, j) && d.state == Source(a) && KeyOf(d, a) !in j.intents
    requires h.intent(IntentFor(c, d, a, now)) && now < Deadline(c, d.createdAt)
    ensures Agree(h, c, d, j.(intents := j.intents[KeyOf(d, a) := IntentFor(c, d, a, now)]))
  {
    FreshIntentFits(h, c, d, j, a, now);
    FreshIntentKeepsRecords(h, c, d, j, KeyOf(d, a), IntentFor(c, d, a, now));
    hide OnPath, IntentsOk, ReceiptsOk, ResultsOk, PathRecorded, IntentFor;
  }

  lemma AddReceiptAgrees(h: HostSchemas, c: Contracts, d: Document, j: Journal, r: Receipt)
    requires Agree(h, c, d, j) && r.key in j.intents && r.key !in j.receipts
    requires ReceiptValid(h, c, d, j.intents[r.key], r)
    ensures Agree(h, c, d, j.(receipts := j.receipts[r.key := r]))
  {
    hide ReceiptBound, Applied, OnPath, IntentOk;
  }

  lemma AddResultAgrees(h: HostSchemas, c: Contracts, d: Document, j: Journal, k: OperationKey)
    requires Agree(h, c, d, j) && k in j.receipts && k in j.intents
    requires h.result(ResultFor(j.intents[k], j.receipts[k]))
    ensures Agree(h, c, d, j.(results := j.results[k := ResultFor(j.intents[k], j.receipts[k])]))
  {
    hide ReceiptOk, Applied, OnPath, IntentOk;
  }

  /** Operations of different actions write different fields. */
  lemma OtherChangesStay(d: Document, fields: Changes, earlier: Receipt, a: Action, e: Evidence)
    requires Applied(d, earlier) && earlier.action != a
    requires fields == d.fields + SuccessChanges(a, e)
    ensures forall d': Document | d'.fields == fields :: Applied(d', earlier)
  {}

  /** The current operation succeeded and is fully recorded. */
  ghost predicate Succeeding(j: Journal, k: OperationKey, a: Action) {
    && k in j.intents && k in j.receipts && k in j.results
    && j.receipts[k].outcome == Succeeded && j.receipts[k].evidence.code == SuccessCode(a)
  }

  ghost predicate Advanced(d: Document, a: Action, e: Evidence, d': Document) {
    && d.state == Source(a)
    && d' == d.(state := Target(a), revision := d.revision + 1, updatedAt := d'.updatedAt, fields := d.fields + SuccessChanges(a, e))
  }

  lemma AdvancedStaysOnPath(h: HostSchemas, c: Contracts, d: Document, a: Action, e: Evidence, d': Document)
    requires OnPath(h, c, d) && Advanced(d, a, e, d')
    ensures OnPath(h, c, d') && Reach(d) <= Reach(d') && Done(d') == d.revision && d'.createdAt == d.createdAt
  {}

  lemma ReceiptNamesAction(h: HostSchemas, c: Contracts, d: Document, j: Journal, k: OperationKey)
    requires IntentsOk(h, c, d, j) && ReceiptsOk(h, c, d.createdAt, j) && k in j.receipts
    ensures k in j.intents && j.receipts[k].key == k && j.receipts[k].action == k.action
  {}

  lemma PassedStays(d: Document, j: Journal, k: OperationKey, a: Action, e: Evidence, d': Document)
    requires Passed(d, j, k) && Advanced(d, a, e, d') && j.receipts[k].action != a
    ensures Passed(d', j, k)
  {
    OtherChangesStay(d, d'.fields, j.receipts[k], a, e);
    hide Applied;
  }

  lemma PassedNow(d: Document, j: Journal, k: OperationKey, a: Action, d': Document)
    requires Succeeding(j, k, a) && j.receipts[k].action == a && Advanced(d, a, j.receipts[k].evidence, d')
    ensures Passed(d', j, k)
  {}

  lemma AdvancedPassed(h: HostSchemas, c: Contracts, d: Document, j: Journal, a: Action, d': Document, r: nat)
    requires IntentsOk(h, c, d, j) && ReceiptsOk(h, c, d.createdAt, j) && PathRecorded(h, c, d, j)
    requires Succeeding(j, KeyAt(h, c, d.revision), a) && Advanced(d, a, j.receipts[KeyAt(h, c, d.revision)].evidence, d')
    requires ActionAt(d.revision) == a && Done(d) == d.revision - 1
    requires 1 <= r <= d.revision <= 6
    ensures Passed(d', j, KeyAt(h, c, r))
  {
    var now, k := KeyAt(h, c, d.revision), KeyAt(h, c, r);
    hide ReceiptsOk, IntentsOk, Applied, Advanced;
    ReceiptNamesAction(h, c, d, j, now);
    if r < d.revision {
      assert Passed(d, j, k);
      ReceiptNamesAction(h, c, d, j, k);
      PassedStays(d, j, k, a, j.receipts[now].evidence, d');
    } else {
      PassedNow(d, j, now, a, d');
    }
  }

  lemma CompletionIsLast(h: HostSchemas, c: Contracts, d: Document, j: Journal, k: OperationKey)
    requires IntentsOk(h, c, d, j) && k in j.intents && k.action == CompleteGoal
    ensures Reach(d) >= 6
  {}

  lemma OnlyActivationNamesGoal(h: HostSchemas, c: Contracts, d: Document, a: Action, e: Evidence, d': Document)
    requires OnPath(h, c, d) && Advanced(d, a, e, d') && Reach(d) >= 6
    ensures Get(d'.fields, NativeGoalId) == Get(d.fields, NativeGoalId)
  {}

  lemma AdvancedNativeGoals(h: HostSchemas, c: Contracts, d: Document, j: Journal, a: Action, e: Evidence, d': Document)
    requires IntentsOk(h, c, d, j) && ReceiptsOk(h, c, d.createdAt, j) && NativeGoalsMatch(d, j)
    requires OnPath(h, c, d) && Advanced(d, a, e, d')
    ensures NativeGoalsMatch(d', j)
  {
    hide IntentsOk, ReceiptsOk, Advanced, OnPath;
    forall k | k in j.receipts && j.receipts[k].action == CompleteGoal && j.receipts[k].outcome == Succeeded
      ensures j.receipts[k].evidence.stableId == Get(d'.fields, NativeGoalId)
    {
      ReceiptNamesAction(h, c, d, j, k);
      CompletionIsLast(h, c, d, j, k);
      OnlyActivationNamesGoal(h, c, d, a, e, d');
    }
  }

  lemma AdvanceAgrees(h: HostSchemas, c: Contracts, d: Document, j: Journal, a: Action, d': Document)
    requires Agree(h, c, d, j) && d.state == Source(a)
    requires Succeeding(j, KeyOf(d, a), a) && Advanced(d, a, j.receipts[KeyOf(d, a)].evidence, d')
    ensures Agree(h, c, d', j)
  {
    KeyOfIsKeyAt(h, c, d, a);
    AdvancedStaysOnPath(h, c, d, a, j.receipts[KeyOf(d, a)].evidence, d');
    AdvancedNativeGoals(h, c, d, j, a, j.receipts[KeyOf(d, a)].evidence, d');
    assert ActionAt(d.revision) == a;
    hide OnPath, ReceiptsOk, ResultsOk, Advanced, Succeeding, KeyAt, Passed, IntentOk, NativeGoalsMatch;
    forall r | 1 <= r <= Done(d')
      ensures Passed(d', j, KeyAt(h, c, r))
    {
      AdvancedPassed(h, c, d, j, a, d', r);
    }
  }

  lemma StopAgrees(h: HostSchemas, c: Contracts, d: Document, j: Journal, d': Document)
    requires Agree(h, c, d, j) && !Terminal(d.state) && Stopped(d'.state)
    requires d'.revision == d.revision + 1 && d'.identity == d.identity && d'.createdAt == d.createdAt
    requires forall f :: f != TerminalReason ==> Get(d'.fields, f) == Get(d.fields, f)
    ensures Agree(h, c, d', j)
  {
    hide ReceiptsOk, ResultsOk, IntentOk;
    forall r | 1 <= r <= Done(d')
      ensures Passed(d', j, KeyAt(h, c, r))
    {
      assert Passed(d, j, KeyAt(h, c, r));
    }
  }

  lemma AuthorizeAgrees(h: HostSchemas, c: Contracts, d: Document, j: Journal, at: int)
    requires Agree(h, c, d, j) && d.state == Planned
    ensures Agree(h, c, d.(state := Authorized, revision := 1, updatedAt := at,
                           fields := d.fields + map[AuthorizationId := Str(c.authorization.authorizationId)]), j)
  {
    hide ReceiptsOk, ResultsOk, IntentOk;
  }
}
