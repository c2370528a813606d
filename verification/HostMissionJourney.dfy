/** A host mission that goes on: what `start` and `next` answer, and a whole run from `start` to review. */
module HostMissionJourney {
  import opened Wrappers
  import opened MissionState
  import opened MissionHistory
  import MissionHistoryLaws
  import MissionMoves
  import opened HostDocuments
  import opened HostMission
  import opened HostMissionLaws
  import opened HostMissionRuns
  import opened HostMissionRecovery
  import opened HostMissionProgress

  /** A move that the mission's controller makes and the table permits fails only where a schema does. */
  lemma PermittedMove(h: HostSchemas, m: Mission, c: Contracts, d: Document, r: Request, at: int, reply: Document -> Reply)
    requires Ready(h, m, c, d) && MissionMoves.Permitted(d.state, r.target, r.changes.Keys) && r.target != d.state
    requires MissionState.AttemptId !in r.changes && r.attempt == Some(Get(d.fields, MissionState.AttemptId))
    ensures var e, next, event := ApplyMove(h, m, r, at, reply), MissionMoves.NextDocument(d, r, at), MissionMoves.NextEvent(d, m.store.events, r, at);
            && (e.reply.Ok? <==> h.store.state(next) && h.store.event(event))
            && (e.reply.Ok? ==> e.reply == Ok(reply(next)) && Final(e) == m.(store := Disk(Some(next), m.store.events[d.revision + 1 := event])))
  {
    hide Moved, MoveTrace, SettledDisk, Agree, MissionHistoryLaws.Sound, MissionMoves.Permitted, MissionMoves.NextEvent, Invariant, InitialState;
    ReadyStore(h, m, c, d);
    MissionMoves.MoveSucceedsExactly(h.store, InitialState(h, c, d.createdAt), m.store, r, at);
  }

  // ---------------------------------------------------------------- start

  /** What the contracts have to say of each other. */
  ghost predicate ContractsAgree(h: HostSchemas, c: Contracts) {
    && h.contracts(c)
    && c.authorization.missionId == c.binding.identity.missionId && c.authorization.bindingId == c.binding.identity.bindingId
    && c.authorization.baseCommit == c.binding.identity.baseCommit
    && c.authorization.goals <= c.binding.goals && c.authorization.attempts <= c.binding.attempts
    && c.authorization.wallSeconds <= c.binding.wallSeconds
  }

  function Granting(c: Contracts): Changes { map[AuthorizationId := Str(c.authorization.authorizationId)] }

  function Grant(h: HostSchemas, c: Contracts): Request { Request(Authorized, Some(AttemptOf(h, c)), Granting(c)) }

  /** The document of a mission that has just been authorized. */
  ghost predicate JustAuthorized(h: HostSchemas, c: Contracts, now: int, at: int, d: Document) {
    && d.identity == c.binding.identity && d.createdAt == now && d.updatedAt == at && d.state == Authorized && d.revision == 1
    && Get(d.fields, AuthorizationId) == Str(c.authorization.authorizationId)
    && Get(d.fields, MissionState.AttemptId) == Str(h.attempt(c.binding.identity.missionId, c.binding.identity.baseCommit))
    && Get(d.fields, CommitIds) == List([])
    && forall f :: f in {WorktreeId, WorktreePath, BranchId, BranchName, NativeGoalId, PrId, PrUrl, TerminalReason} ==> Get(d.fields, f) == Null
  }

  lemma GrantIsPermitted(h: HostSchemas, c: Contracts, d: Document)
    requires d.state == Planned && Get(d.fields, MissionState.AttemptId) == AttemptOf(h, c)
    ensures MissionMoves.Permitted(d.state, Grant(h, c).target, Grant(h, c).changes.Keys) && Grant(h, c).target != d.state
    ensures MissionState.AttemptId !in Grant(h, c).changes && Grant(h, c).attempt == Some(Get(d.fields, MissionState.AttemptId))
  {}

  lemma GrantedIs(h: HostSchemas, c: Contracts, now: int, at: int)
    ensures JustAuthorized(h, c, now, at, MissionMoves.NextDocument(InitialState(h, c, now), Grant(h, c), at))
  {}

  /**
    `start` where no mission is yet, some contract files perhaps already written: it succeeds exactly
    when the contracts agree and the schemas accept the first two documents and the event between
    them, and answers with the authorized mission.
  */
  lemma FirstStartExactly(h: HostSchemas, m: Mission, c: Contracts, now: int, at: int)
    requires Invariant(h, m) && m.store.state.None? && PapersOf(m) <= Papers(c)
    ensures var e, initial := Start(h, m, c, now, at), InitialState(h, c, now);
            var authorized := MissionMoves.NextDocument(initial, Grant(h, c), at);
            && (e.reply.Ok? <==> && ContractsAgree(h, c) && h.store.state(initial) && h.store.state(authorized)
                                 && h.store.event(MissionMoves.NextEvent(initial, map[], Grant(h, c), at)))
            && (e.reply.Ok? ==> && e.reply == Ok(Started(authorized)) && JustAuthorized(h, c, now, at, authorized)
                                && Final(e).store.state == Some(authorized) && Final(e).contracts == Some(c) && Final(e).journal == NoMission.journal)
  {
    hide Invariant, InitialState, StartBound, ContractTrace, Papers, MissionMoves.NextEvent, MissionMoves.NextDocument, Grant, JustAuthorized;
    GrantedIs(h, c, now, at);
    BoundKeeps(h, m, c);
    EmptyStore(h, m);
    if ContractsValid(h, c) { FirstStartBound(h, BoundTo(m, c), c, now, at); }
  }

  lemma EmptyStore(h: HostSchemas, m: Mission)
    requires Invariant(h, m) && m.store.state.None?
    ensures m.store.events == map[] && m.journal == NoMission.journal
  {}

  lemma FirstStartBound(h: HostSchemas, m: Mission, c: Contracts, now: int, at: int)
    requires Invariant(h, m) && m.store.state.None? && m.contracts == Some(c) && ContractsValid(h, c)
    ensures var e, initial := StartBound(h, m, c, now, at), InitialState(h, c, now);
            var authorized := MissionMoves.NextDocument(initial, Grant(h, c), at);
            && (e.reply.Ok? <==> h.store.state(initial) && h.store.state(authorized) && h.store.event(MissionMoves.NextEvent(initial, map[], Grant(h, c), at)))
            && (e.reply.Ok? ==> && e.reply == Ok(Started(authorized)) && Final(e).store.state == Some(authorized)
                                && Final(e).contracts == Some(c) && Final(e).journal == m.journal)
  {
    hide Invariant, Authorize, InitialState, ContractsValid, MissionMoves.NextEvent, MissionMoves.NextDocument, Agree;
    EmptyStore(h, m);
    var initial := InitialState(h, c, now);
    if h.store.state(initial) {
      CreatedIsReady(h, m, c, now);
      CreatedAgrees(h, c, now);
      InitialIsPlanned(h, c, now);
      AuthorizeExactly(h, c, m.(store := m.store.(state := Some(initial))), initial, at);
    }
  }

  lemma InitialIsPlanned(h: HostSchemas, c: Contracts, now: int)
    ensures InitialState(h, c, now).state == Planned && InitialState(h, c, now).revision == 0
  {}

  /** Authorizing a planned mission in agreement fails only where a schema does. */
  lemma AuthorizeExactly(h: HostSchemas, c: Contracts, m: Mission, d: Document, at: int)
    requires Ready(h, m, c, d) && d.state == Planned
    ensures var e, next, event := Authorize(h, c, m, d, at), MissionMoves.NextDocument(d, Grant(h, c), at), MissionMoves.NextEvent(d, m.store.events, Grant(h, c), at);
            && (e.reply.Ok? <==> h.store.state(next) && h.store.event(event))
            && (e.reply.Ok? ==> e.reply == Ok(Started(next)) && Final(e) == m.(store := Disk(Some(next), m.store.events[d.revision + 1 := event])))
  {
    ReadyAgrees(h, m, c, d);
    assert IdentityHolds(h, c, d);
    hide Ready, Agree, ApplyMove, IdentityHolds, MissionMoves.NextEvent, MissionMoves.NextDocument, MissionMoves.Permitted;
    GrantIsPermitted(h, c, d);
    PermittedMove(h, m, c, d, Grant(h, c), at, (state: Document) => Started(state));
  }

  /**
    `start` on a mission that exists, with its contracts: it authorizes a mission that is still
    planned, and answers for any other, unchanged, exactly when it is authorized as the contracts say.
  */
  lemma SecondStartExactly(h: HostSchemas, m: Mission, c: Contracts, now: int, at: int)
    requires Invariant(h, m) && m.store.state.Some? && m.contracts == Some(c)
    ensures var e, d := Start(h, m, c, now, at), Current(h, m).value;
            if d.state == Planned then
              var next := MissionMoves.NextDocument(d, Grant(h, c), at);
              && (e.reply.Ok? <==> h.store.state(next) && h.store.event(MissionMoves.NextEvent(d, m.store.events, Grant(h, c), at)))
              && (e.reply.Ok? ==> e.reply == Ok(Started(next)) && Final(e).store.state == Some(next))
            else
              && (e.reply.Ok? <==> Get(d.fields, AuthorizationId) == Str(c.authorization.authorizationId))
              && (e.reply.Ok? ==> e.reply == Ok(Started(d))) && Final(e) == Settled(h, m).(draft := [])
  {
    hide Invariant, Agree, ContractTrace, Papers, MissionMoves.NextEvent, MissionMoves.NextDocument, Repaired, Grant, Start, Settled, Ready, ContractsValid;
    StartAuthorizes(h, m, c, now, at);
    var t, d := Settled(h, m), Current(h, m).value;
    ReadyAgrees(h, t, c, d);
    if d.state == Planned { AuthorizeExactly(h, c, t, d, at); } else { hide ApplyMove, Granting; }
  }

  /** On an existing mission only the authorization is left to do. */
  lemma StartAuthorizes(h: HostSchemas, m: Mission, c: Contracts, now: int, at: int)
    requires Invariant(h, m) && m.store.state.Some? && m.contracts == Some(c)
    ensures Current(h, m).Some? && Ready(h, Settled(h, m), c, Current(h, m).value)
    ensures var e, t, rest := Start(h, m, c, now, at), Settled(h, m), Authorize(h, c, Settled(h, m), Current(h, m).value, at);
            && IdentityHolds(h, c, Current(h, m).value) && t.store.events == m.store.events
            && e.reply == rest.reply && Final(e) == Final(rest).(draft := [])
  {
    hide Invariant, Agree, ContractTrace, Papers, Repaired, StoreSound;
    SettledIsReady(h, m);
    SettledFacts(h, m);
    var d := Current(h, m).value;
    ReadyAgrees(h, Settled(h, m), c, d);
    AgreedIdentity(h, c, d, m.journal);
    AuthorizeKeepsDraft(h, c, Settled(h, m), BoundTo(Settled(h, m), c), d, at);
    assert Settled(h, BoundTo(m, c)) == BoundTo(Settled(h, m), c);
  }

  /** What an authorization does depends only on the store. */
  lemma AuthorizeKeepsDraft(h: HostSchemas, c: Contracts, m: Mission, n: Mission, d: Document, at: int)
    requires n == BoundTo(m, c) && m.contracts == Some(c)
    ensures Authorize(h, c, n, d, at).reply == Authorize(h, c, m, d, at).reply
    ensures Final(Authorize(h, c, n, d, at)) == Final(Authorize(h, c, m, d, at)).(draft := [])
  {
    hide IdentityHolds, Moved, MoveTrace;
  }

  lemma AgreedIdentity(h: HostSchemas, c: Contracts, d: Document, j: Journal)
    requires Agree(h, c, d, j)
    ensures IdentityHolds(h, c, d) && ContractsValid(h, c)
  {}

  // ---------------------------------------------------------------- next

  /** The action the host is asked for in each state. */
  ghost predicate TurnOf(state: State, a: Action) {
    || (state == Authorized && a == PrepareWorktree) || (state == Prepared && a == ActivateGoal)
    || (state == Running && a == Implement) || (state == Verifying && a == Verify)
    || (state == Verified && a == Commit) || (state == Committed && a == CompleteGoal)
  }

  function DeadlineOf(c: Contracts, d: Document): int { d.createdAt + c.authorization.wallSeconds * 1_000_000 }

  /** The request names the mission, its attempt, revision and contracts, and what the action needs to know. */
  ghost predicate Asks(h: HostSchemas, c: Contracts, d: Document, now: int, q: HostRequest) {
    && TurnOf(d.state, q.key.action)
    && q.key.missionId == c.binding.identity.missionId && q.key.revision == d.revision
    && q.key.attempt == Str(h.attempt(c.binding.identity.missionId, c.binding.identity.baseCommit))
    && q.authorization == OfAuthorization(c.authorization) && q.boundary == OfBoundary(c.boundary)
    && q.protection == OfProtection(c.protection) && q.binding == OfBinding(c.binding)
    && q.worktreeId == Get(d.fields, WorktreeId)
    && q.nativeGoalId == (if d.state == Committed then Some(Get(d.fields, NativeGoalId)) else None)
    && q.deadlineAt == DeadlineOf(c, d) && q.requestedAt == now
  }

  /** The durable intent of a request. */
  function IntentOf(q: HostRequest): Intent {
    Intent(q.key, q.key.action, OfRequest(q), q.authorization, q.boundary, q.protection, q.requestedAt)
  }

  lemma AskedFor(h: HostSchemas, c: Contracts, d: Document, a: Action, now: int)
    requires ContractsValid(h, c) && IdentityHolds(h, c, d) && d.state == Source(a)
    ensures Asks(h, c, d, now, RequestFor(c, d, a, now)) && IntentOf(RequestFor(c, d, a, now)) == IntentFor(c, d, a, now)
    ensures forall q :: Asks(h, c, d, now, q) ==> q == RequestFor(c, d, a, now)
    ensures Deadline(c, d.createdAt) == DeadlineOf(c, d)
  {}

  lemma OnTheWay(h: HostSchemas, c: Contracts, d: Document)
    requires OnPath(h, c, d) && !Terminal(d.state) && d.state != Planned
    ensures ActionOf(d.state).Some? && d.state == Source(ActionOf(d.state).value) && (d.state == Committed <==> ActionOf(d.state).value == CompleteGoal)
  {}

  /** No operation has been issued at the mission's revision. */
  ghost predicate NothingIssued(d: Document, j: Journal) { forall k :: k in j.intents ==> k.revision != d.revision }

  lemma NextIssues(h: HostSchemas, m: Mission, c: Contracts, d: Document, now: int, at: int)
    requires Ready(h, m, c, d) && NothingIssued(d, m.journal) && !Terminal(d.state) && d.state != Planned
    ensures ActionOf(d.state).Some? && ContractsValid(h, c) && IdentityHolds(h, c, d)
    ensures Next(h, m, now, at) == Then(m, Issue(h, c, m, d, ActionOf(d.state).value, now, at))
  {
    ReadyAgrees(h, m, c, d);
    AgreedIdentity(h, c, d, m.journal);
    OnTheWay(h, c, d);
    NextOnReady(h, c, m, d, now, at);
    assert KeyOf(d, ActionOf(d.state).value) !in m.journal.intents;
    hide Ready, Agree, Next, Issue, Resume, ActionOf, Then, ContractsValid, IdentityHolds;
  }

  /**
    Before the deadline `next` hands out the state's action, after writing down its intent, exactly
    when the schemas accept request and intent and, to complete the goal, a goal was activated.
  */
  lemma NextAsksExactly(h: HostSchemas, m: Mission, c: Contracts, d: Document, now: int, at: int)
    requires Ready(h, m, c, d) && NothingIssued(d, m.journal) && !Terminal(d.state) && d.state != Planned
    requires now < DeadlineOf(c, d)
    ensures var e := Next(h, m, now, at);
            && (e.reply.Ok? <==> && (d.state == Committed ==> Get(d.fields, NativeGoalId).Str? && Get(d.fields, NativeGoalId).s != "")
                                 && forall q :: Asks(h, c, d, now, q) ==> h.request(q) && h.intent(IntentOf(q)))
            && (e.reply.Ok? ==> && e.reply.value.ActionRequired? && Asks(h, c, d, now, e.reply.value.request)
                                && Final(e) == WithIntent(m, IntentOf(e.reply.value.request)))
  {
    NextIssues(h, m, c, d, now, at);
    ReadyAgrees(h, m, c, d);
    OnTheWay(h, c, d);
    AskedFor(h, c, d, ActionOf(d.state).value, now);
    hide Ready, Agree, Next, RequestFor, Asks, ActionOf, ContractsValid, IdentityHolds, IntentFor, OnPath, DeadlineOf, Deadline, Source, IntentOf;
  }

  function GivingUp(d: Document): Request {
    Request(Blocked, Some(Get(d.fields, MissionState.AttemptId)), map[TerminalReason := Str("budget-limited")])
  }

  lemma GivingUpIsPermitted(d: Document)
    requires MissionMoves.Underway(d.state)
    ensures MissionMoves.Permitted(d.state, GivingUp(d).target, GivingUp(d).changes.Keys) && GivingUp(d).target != d.state
    ensures MissionState.AttemptId !in GivingUp(d).changes && GivingUp(d).attempt == Some(Get(d.fields, MissionState.AttemptId))
  {}

  /**
    From the deadline on it hands out nothing: it blocks the mission for its budget, and answers
    with that, unless a schema refuses the blocked document or the event.
  */
  lemma NextGivesUpExactly(h: HostSchemas, m: Mission, c: Contracts, d: Document, now: int, at: int)
    requires Ready(h, m, c, d) && NothingIssued(d, m.journal) && !Terminal(d.state) && d.state != Planned
    requires now >= DeadlineOf(c, d)
    ensures var e := Next(h, m, now, at);
            var blocked := Document(d.identity, d.createdAt, at, Blocked, d.revision + 1, d.fields[TerminalReason := Str("budget-limited")]);
            && (e.reply.Ok? <==> h.store.state(blocked) && h.store.event(MissionMoves.NextEvent(d, m.store.events, GivingUp(d), at)))
            && (e.reply.Ok? ==> e.reply == Ok(TerminalReply(blocked)) && Final(e) == m.(store := Final(e).store) && Final(e).store.state == Some(blocked))
            && (e.reply.Err? ==> Settled(h, Final(e)) == m)
  {
    hide Ready, Agree, Next, ApplyMove, DeadlineOf, MissionMoves.Permitted, MissionMoves.NextEvent, MissionMoves.NextDocument, GivingUp, MissionMoves.Underway;
    OnTheWayIsUnderway(h, m, c, d);
    GivingUpIsPermitted(d);
    GivenUp(d, at);
    NextBlocks(h, m, c, d, now, at);
    PermittedMove(h, m, c, d, GivingUp(d), at, (state: Document) => TerminalReply(state));
    GivingUpKeeps(h, m, c, d, at);
  }

  lemma GivenUp(d: Document, at: int)
    ensures MissionMoves.NextDocument(d, GivingUp(d), at)
            == Document(d.identity, d.createdAt, at, Blocked, d.revision + 1, d.fields[TerminalReason := Str("budget-limited")])
  {
    assert d.fields + GivingUp(d).changes == d.fields[TerminalReason := Str("budget-limited")];
  }

  lemma OnTheWayIsUnderway(h: HostSchemas, m: Mission, c: Contracts, d: Document)
    requires Ready(h, m, c, d) && !Terminal(d.state)
    ensures MissionMoves.Underway(d.state)
  {}

  lemma NextBlocks(h: HostSchemas, m: Mission, c: Contracts, d: Document, now: int, at: int)
    requires Ready(h, m, c, d) && NothingIssued(d, m.journal) && !Terminal(d.state) && d.state != Planned
    requires now >= DeadlineOf(c, d)
    ensures Next(h, m, now, at) == Then(m, ApplyMove(h, m, GivingUp(d), at, (state: Document) => TerminalReply(state)))
  {
    hide Ready, Agree, Next, RequestFor, ApplyMove, ActionOf, ContractsValid, IdentityHolds, OnPath, DeadlineOf, Deadline, Then;
    NextIssues(h, m, c, d, now, at);
    ReadyAgrees(h, m, c, d);
    AgreedOnPath(h, c, d, m.journal);
    OnTheWay(h, c, d);
    AskedFor(h, c, d, ActionOf(d.state).value, now);
  }

  lemma AgreedOnPath(h: HostSchemas, c: Contracts, d: Document, j: Journal)
    requires Agree(h, c, d, j)
    ensures OnPath(h, c, d)
  {}

  lemma GivingUpKeeps(h: HostSchemas, m: Mission, c: Contracts, d: Document, at: int)
    requires Ready(h, m, c, d)
    ensures var e := ApplyMove(h, m, GivingUp(d), at, (state: Document) => TerminalReply(state));
            e.reply.Err? ==> Settled(h, Final(e)) == m
  {
    hide Ready, MoveTrace, Moved, MissionHistoryLaws.Sound, InitialState, SettledDisk;
    ReadyStore(h, m, c, d);
    var trace := MoveTrace(h.store, m.store, GivingUp(d), at);
    MissionHistoryLaws.MoveIsAtomic(h.store, InitialState(h, c, d.createdAt), m.store, GivingUp(d), at, |trace| - 1);
  }

  /** The mission is that of the contracts, under the attempt derived from them; the dirty policy is not compared. */
  ghost predicate SameMission(h: HostSchemas, c: Contracts, d: Document) {
    && d.identity.missionId == c.binding.identity.missionId && d.identity.goalId == c.binding.identity.goalId
    && d.identity.bindingId == c.binding.identity.bindingId && d.identity.baseCommit == c.binding.identity.baseCommit
    && Get(d.fields, MissionState.AttemptId) == Str(h.attempt(c.binding.identity.missionId, c.binding.identity.baseCommit))
  }

  /**
    On any directory, reachable or not, `next` refuses contracts that do not agree with each other, or are
    not those of the mission, exactly as such, and in that order.
  */
  lemma NextRefusesDriftExactly(h: HostSchemas, m: Mission, c: Contracts, d: Document, now: int, at: int)
    requires Repaired(h.store, m.store) == Ok(d) && m.contracts == Some(c)
    requires d.state in {Authorized, Prepared, Running, Verifying, Verified, Committed}
    ensures var e := Next(h, m, now, at);
            && (e.reply == Err(NoContracts) <==> !ContractsAgree(h, c))
            && (e.reply == Err(IdentityDrift) <==> ContractsAgree(h, c) && !SameMission(h, c, d))
  {
    hide Repaired, Finish, ApplyMove, RequestFor, IntentFor, JournalLoads, Settled, KeyOf;
    assert ContractsAgree(h, c) <==> ContractsValid(h, c);
    assert SameMission(h, c, d) <==> IdentityHolds(h, c, d);
    hide ContractsAgree, ContractsValid, SameMission, IdentityHolds;
    SettledJournal(h, m);
    DriftOnlyThere(h, c, Settled(h, m), d, now, at);
  }

  lemma DriftOnlyThere(h: HostSchemas, c: Contracts, m: Mission, d: Document, now: int, at: int)
    ensures forall k :: k in m.journal.intents ==> Resume(h, c, m, d, k, at).reply !in {Err(NoContracts), Err(IdentityDrift)}
    ensures forall a: Action :: Issue(h, c, m, d, a, now, at).reply !in {Err(NoContracts), Err(IdentityDrift)}
  {
    hide Moved, MoveTrace, ReceiptValid, PlanReceipt, PlanFits, RequestFor, IntentFor, JournalLoads;
  }

  /** A mission at rest is answered for as it is; a planned one has no action for the host. */
  lemma NextRests(h: HostSchemas, m: Mission, c: Contracts, d: Document, now: int, at: int)
    requires Ready(h, m, c, d)
    ensures d.state in {AwaitingReview, Merged, Blocked, Abandoned} ==> Next(h, m, now, at).reply == Ok(TerminalReply(d))
    ensures d.state == Planned ==> Next(h, m, now, at).reply == Err(NoHostAction)
    ensures d.state in {Planned, AwaitingReview, Merged, Blocked, Abandoned} ==> Final(Next(h, m, now, at)) == m
  {
    NextOnReady(h, c, m, d, now, at);
    hide Ready, Next;
  }

  // ---------------------------------------------------------------- abandoning

  function LettingGo(d: Document): Request { Request(Abandoned, Some(Get(d.fields, MissionState.AttemptId)), map[]) }

  lemma LettingGoIsPermitted(d: Document)
    requires MissionMoves.Underway(d.state)
    ensures MissionMoves.Permitted(d.state, LettingGo(d).target, LettingGo(d).changes.Keys) && LettingGo(d).target != d.state
  {}

  /** Abandoning stops a mission underway where it is, and answers for one at rest, unchanged. */
  lemma AbandonExactly(h: HostSchemas, m: Mission, c: Contracts, d: Document, at: int)
    requires Ready(h, m, c, d)
    ensures var e := Abandon(h, m, at);
            if d.state in {AwaitingReview, Merged, Blocked, Abandoned} then e.reply == Ok(TerminalReply(d)) && Final(e) == m
            else
              var stopped := Document(d.identity, d.createdAt, at, Abandoned, d.revision + 1, d.fields);
              && (e.reply.Ok? <==> h.store.state(stopped) && h.store.event(MissionMoves.NextEvent(d, m.store.events, LettingGo(d), at)))
              && (e.reply.Ok? ==> e.reply == Ok(TerminalReply(stopped)) && Final(e) == m.(store := Final(e).store) && Final(e).store.state == Some(stopped))
  {
    ReadyAgrees(h, m, c, d);
    hide Ready, Agree, ApplyMove, MissionMoves.Permitted, MissionMoves.NextEvent, LettingGo, Repaired;
    assert d.fields + map[] == d.fields;
    if !Terminal(d.state) {
      OnTheWayIsUnderway(h, m, c, d);
      LettingGoIsPermitted(d);
      LetGo(d, at);
      AbandonMoves(h, m, c, d, at);
      PermittedMove(h, m, c, d, LettingGo(d), at, (state: Document) => TerminalReply(state));
    } else {
      ReadySettled(h, m, c, d);
    }
  }

  lemma LetGo(d: Document, at: int)
    ensures MissionMoves.NextDocument(d, LettingGo(d), at) == Document(d.identity, d.createdAt, at, Abandoned, d.revision + 1, d.fields)
    ensures MissionState.AttemptId !in LettingGo(d).changes && LettingGo(d).attempt == Some(Get(d.fields, MissionState.AttemptId))
  {
    assert d.fields + map[] == d.fields;
  }

  lemma ReadySettled(h: HostSchemas, m: Mission, c: Contracts, d: Document)
    requires Ready(h, m, c, d)
    ensures Settled(h, m) == m
  {}

  lemma AbandonMoves(h: HostSchemas, m: Mission, c: Contracts, d: Document, at: int)
    requires Ready(h, m, c, d) && !Terminal(d.state)
    ensures Abandon(h, m, at) == Then(m, ApplyMove(h, m, LettingGo(d), at, (state: Document) => TerminalReply(state)))
  {
    ReadyAgrees(h, m, c, d);
    ReadySettled(h, m, c, d);
    hide Ready, Agree, ApplyMove, Repaired, Settled, Then;
  }

  // ---------------------------------------------------------------- from start to review

  /** What the host brings back for one action, and when. */
  datatype Turn = Turn(askedAt: int, evidence: Evidence, completedAt: int, recordedAt: int)

  function Answer(q: HostRequest, t: Turn): Receipt {
    Receipt(q.key, q.key.action, OfRequest(q), q.authorization, q.boundary, Succeeded, t.evidence, t.completedAt)
  }

  /** `next`, and then `record` with the receipt for what it handed out. */
  ghost function AfterTurn(h: HostSchemas, m: Mission, t: Turn): Mission {
    var e := Next(h, m, t.askedAt, t.askedAt);
    if e.reply.Ok? && e.reply.value.ActionRequired? then Final(Record(h, Final(e), Answer(e.reply.value.request, t), t.recordedAt)) else Final(e)
  }

  ghost function Journey(h: HostSchemas, c: Contracts, now: int, turns: seq<Turn>): Mission {
    if |turns| == 0 then Final(Start(h, NoMission, c, now, now))
    else AfterTurn(h, Journey(h, c, now, turns[..|turns| - 1]), turns[|turns| - 1])
  }

  /** Schemas that refuse none of the documents. */
  ghost predicate AcceptsAll(h: HostSchemas) {
    && (forall d :: h.store.state(d)) && (forall e :: h.store.event(e)) && (forall q :: h.request(q)) && (forall i :: h.intent(i))
    && (forall r :: h.receipt(r)) && (forall r :: h.result(r))
  }

  function StateAfter(n: nat): State {
    if n == 0 then Authorized else if n == 1 then Prepared else if n == 2 then Running else if n == 3 then Verifying
    else if n == 4 then Verified else if n == 5 then Committed else AwaitingReview
  }

  /** The n-th turn is asked and completed in time, touches granted surfaces only, and brings what its action takes. */
  ghost predicate GoodTurn(h: HostSchemas, c: Contracts, now: int, goal: string, n: nat, t: Turn) {
    && t.askedAt < now + c.authorization.wallSeconds * 1_000_000 && t.completedAt <= now + c.authorization.wallSeconds * 1_000_000
    && h.required(c.protection, t.evidence.changedFiles) <= c.binding.surfaces
    && (n == 0 ==> t.evidence.code == WorktreePrepared)
    && (n == 1 ==> t.evidence.code == GoalActive && t.evidence.stableId == Str(goal))
    && (n == 2 ==> t.evidence.code == ImplementationComplete)
    && (n == 3 ==> t.evidence.code == VerificationPassed)
    && (n == 4 ==> t.evidence.code == CommitCreated && t.evidence.stableId.Str?)
    && (n == 5 ==> t.evidence.code == GoalComplete && t.evidence.stableId == Str(goal))
  }

  /** The mission after `n` turns. */
  ghost predicate Arrived(h: HostSchemas, c: Contracts, now: int, goal: string, n: nat, m: Mission) {
    && m.store.state.Some? && Ready(h, m, c, m.store.state.value)
    && var d := m.store.state.value;
       && d.state == StateAfter(n) && d.revision == n + 1 && d.createdAt == now
       && (n >= 2 ==> Get(d.fields, NativeGoalId) == Str(goal))
       && forall k :: k in m.journal.intents ==> k.revision <= n
  }

  lemma Departs(h: HostSchemas, c: Contracts, now: int, goal: string)
    requires ContractsValid(h, c) && AcceptsAll(h)
    ensures Start(h, NoMission, c, now, now).reply.Ok? && Start(h, NoMission, c, now, now).reply.value.Started?
    ensures JustAuthorized(h, c, now, now, Start(h, NoMission, c, now, now).reply.value.state)
    ensures Arrived(h, c, now, goal, 0, Final(Start(h, NoMission, c, now, now)))
  {
    hide Start, Agree, JustAuthorized, MissionMoves.NextEvent, InitialState, MissionMoves.NextDocument;
    assert Invariant(h, NoMission) && PapersOf(NoMission) <= Papers(c);
    hide Invariant;
    FirstStartExactly(h, NoMission, c, now, now);
    StartKeeps(h, NoMission, c, now, now);
    var m := Final(Start(h, NoMission, c, now, now));
    LastIsInvariant(h, Start(h, NoMission, c, now, now));
    StartedIsSettled(h, c, now);
    AuthorizedMeans(h, c, now, now, m.store.state.value);
  }

  lemma AuthorizedMeans(h: HostSchemas, c: Contracts, now: int, at: int, d: Document)
    requires JustAuthorized(h, c, now, at, d)
    ensures d.state == Authorized && d.revision == 1 && d.createdAt == now
  {}

  lemma StartedIsSettled(h: HostSchemas, c: Contracts, now: int)
    requires Start(h, NoMission, c, now, now).reply.Ok?
    ensures var m := Final(Start(h, NoMission, c, now, now)); Settled(h, m) == m
  {
    var m := BoundTo(NoMission, c);
    var initial := InitialState(h, c, now);
    var created := m.(store := m.store.(state := Some(initial)));
    assert Invariant(h, NoMission) && PapersOf(NoMission) <= Papers(c);
    BoundKeeps(h, NoMission, c);
    CreatedIsReady(h, m, c, now);
    hide Invariant, Agree, InitialState, Authorize, ContractsValid, Papers, ContractTrace;
    InitialIsPlanned(h, c, now);
    AuthorizeSettles(h, c, created, initial, now);
  }

  lemma AuthorizeSettles(h: HostSchemas, c: Contracts, m: Mission, d: Document, at: int)
    requires Ready(h, m, c, d) && d.state == Planned && Authorize(h, c, m, d, at).reply.Ok?
    ensures Settled(h, Final(Authorize(h, c, m, d, at))) == Final(Authorize(h, c, m, d, at))
  {
    hide MissionHistoryLaws.Sound, MoveTrace, Moved, SettledDisk, Ready, InitialState, IdentityHolds;
    var request := Grant(h, c);
    ReadyStore(h, m, c, d);
    var trace := MoveTrace(h.store, m.store, request, at);
    MissionHistoryLaws.MoveIsAtomic(h.store, InitialState(h, c, d.createdAt), m.store, request, at, |trace| - 1);
  }

  lemma ArrivedIsOnTheWay(h: HostSchemas, c: Contracts, now: int, goal: string, n: nat, m: Mission)
    requires Arrived(h, c, now, goal, n, m) && n <= 5
    ensures var d := m.store.state.value; !Terminal(d.state) && d.state != Planned && NothingIssued(d, m.journal) && (d.state == Committed <==> n == 5)
  {
    hide Ready;
  }

  lemma TurnIsAsked(h: HostSchemas, c: Contracts, now: int, goal: string, n: nat, m: Mission, t: Turn)
    requires AcceptsAll(h) && goal != "" && n <= 5 && Arrived(h, c, now, goal, n, m) && GoodTurn(h, c, now, goal, n, t)
    ensures var e, d := Next(h, m, t.askedAt, t.askedAt), m.store.state.value;
            && e.reply.Ok? && e.reply.value.ActionRequired? && Asks(h, c, d, t.askedAt, e.reply.value.request)
            && Final(e) == WithIntent(m, IntentOf(e.reply.value.request)) && Ready(h, Final(e), c, d)
  {
    var e, d := Next(h, m, t.askedAt, t.askedAt), m.store.state.value;
    ArrivedIsOnTheWay(h, c, now, goal, n, m);
    assert n == 5 ==> Get(d.fields, NativeGoalId) == Str(goal);
    hide Next, Agree, Invariant, Asks, Terminal, NothingIssued, Settled;
    NextAsksExactly(h, m, c, d, t.askedAt, t.askedAt);
    NextKeeps(h, m, t.askedAt, t.askedAt);
    LastIsInvariant(h, e);
  }

  lemma AskedIsAwaited(h: HostSchemas, c: Contracts, m: Mission, d: Document, x: Mission, q: HostRequest, now: int)
    requires Asks(h, c, d, now, q) && x == WithIntent(m, IntentOf(q)) && Ready(h, x, c, d) && !Terminal(d.state)
    ensures Awaited(h, x, q.key) && x.journal.intents[q.key] == IntentOf(q) && Settled(h, x) == x && Current(h, x) == Some(d)
    ensures forall k :: k in x.journal.intents ==> k in m.journal.intents || (k == q.key && k.revision == d.revision)
  {
    ReadyAgrees(h, x, c, d);
    hide Ready, Agree;
    ReadySettledStore(h, x, c, d);
  }

  lemma ReadySettledStore(h: HostSchemas, m: Mission, c: Contracts, d: Document)
    requires Ready(h, m, c, d)
    ensures Settled(h, m) == m && m.store.state == Some(d) && m.contracts == Some(c)
  {}

  /** The receipt of a good turn fits its request. */
  lemma TurnFits(h: HostSchemas, c: Contracts, now: int, goal: string, n: nat, d: Document, q: HostRequest, t: Turn)
    requires AcceptsAll(h) && goal != "" && n <= 5 && GoodTurn(h, c, now, goal, n, t) && Asks(h, c, d, t.askedAt, q)
    requires d.state == StateAfter(n) && d.createdAt == now && (n >= 2 ==> Get(d.fields, NativeGoalId) == Str(goal))
    ensures Fitting(h, c, d, IntentOf(q), Answer(q, t))
  {
    var r := Answer(q, t);
    assert Leads(d.state, StateAfter(n + 1), r.evidence.code, r.evidence, SuccessChanges(q.key.action, r.evidence));
    hide Leads;
  }

  lemma TurnLeads(h: HostSchemas, c: Contracts, now: int, goal: string, n: nat, d: Document, r: Receipt, at: int, d': Document, t: Turn)
    requires n <= 5 && GoodTurn(h, c, now, goal, n, t) && r.evidence == t.evidence && r.outcome == Succeeded && Follows(d, r, at, d')
    requires d.state == StateAfter(n) && (n >= 2 ==> Get(d.fields, NativeGoalId) == Str(goal))
    ensures d'.state == StateAfter(n + 1) && (n + 1 >= 2 ==> Get(d'.fields, NativeGoalId) == Str(goal))
  {}

  lemma NoReceiptYet(h: HostSchemas, c: Contracts, m: Mission, d: Document, n: nat, k: OperationKey)
    requires Ready(h, m, c, d) && (forall i :: i in m.journal.intents ==> i.revision <= n) && k.revision > n
    ensures k !in m.journal.receipts
  {
    ReadyAgrees(h, m, c, d);
    hide Ready, IntentsOk, ResultsOk, PathRecorded, OnPath;
  }

  lemma TurnArrives(h: HostSchemas, c: Contracts, now: int, goal: string, n: nat, m: Mission, t: Turn)
    requires AcceptsAll(h) && goal != "" && n <= 5 && Arrived(h, c, now, goal, n, m) && GoodTurn(h, c, now, goal, n, t)
    ensures Arrived(h, c, now, goal, n + 1, AfterTurn(h, m, t))
  {
    var d := m.store.state.value;
    TurnIsAsked(h, c, now, goal, n, m, t);
    ArrivedIsOnTheWay(h, c, now, goal, n, m);
    var e := Next(h, m, t.askedAt, t.askedAt);
    var x, q := Final(e), e.reply.value.request;
    var r := Answer(q, t);
    hide Next, Record, Agree, Invariant, Fitting, Follows, Settled, StateAfter, GoodTurn, NothingIssued, Settlement, Terminal, Asked, MissionMoves.NextEvent;
    AskedIsAwaited(h, c, m, d, x, q, t.askedAt);
    TurnFits(h, c, now, goal, n, d, q, t);
    NoReceiptYet(h, c, m, d, n, q.key);
    hide Ready, WithIntent, Asks;
    RecordArrives(h, c, now, goal, n, x, d, r, t);
  }

  lemma RecordArrives(h: HostSchemas, c: Contracts, now: int, goal: string, n: nat, x: Mission, d: Document, r: Receipt, t: Turn)
    requires AcceptsAll(h) && n <= 5 && GoodTurn(h, c, now, goal, n, t) && r.evidence == t.evidence && r.outcome == Succeeded
    requires Ready(h, x, c, d) && Awaited(h, x, r.key) && Settled(h, x) == x && Current(h, x) == Some(d)
    requires r.key !in x.journal.receipts && Fitting(h, c, d, x.journal.intents[r.key], r)
    requires d.state == StateAfter(n) && d.revision == n + 1 && d.createdAt == now && (n >= 2 ==> Get(d.fields, NativeGoalId) == Str(goal))
    requires forall k :: k in x.journal.intents ==> k.revision <= n + 1
    ensures Arrived(h, c, now, goal, n + 1, Final(Record(h, x, r, t.recordedAt)))
  {
    hide Record, Agree, Fitting, StateAfter, GoodTurn, Settlement, Asked, MissionMoves.NextEvent, Settled, Invariant;
    var e := Record(h, x, r, t.recordedAt);
    assert Writes(h, x, d, x.journal.intents[r.key], r, t.recordedAt);
    ReceiptSettlesExactly(h, x, r, t.recordedAt);
    RecordLeaves(h, x, r, t.recordedAt);
    var d' := e.reply.value.state;
    TurnLeads(h, c, now, goal, n, d, r, t.recordedAt, d', t);
    FollowsKeeps(d, r, t.recordedAt, d');
    hide Follows, Writes;
    RecordIsReady(h, x, c, r, t.recordedAt);
  }

  lemma FollowsKeeps(d: Document, r: Receipt, at: int, d': Document)
    requires Follows(d, r, at, d')
    ensures d'.createdAt == d.createdAt && d'.revision == d.revision + 1
  {}

  lemma RecordIsReady(h: HostSchemas, m: Mission, c: Contracts, r: Receipt, at: int)
    requires Invariant(h, m) && Awaited(h, m, r.key) && m.contracts == Some(c) && Record(h, m, r, at).reply.Ok?
    ensures var e := Record(h, m, r, at); e.reply.value.Finished? && Ready(h, Final(e), c, e.reply.value.state)
  {
    hide Invariant, Agree, Receive, Fitting, Writes, ReceiptValid, Follows, Ready, Settlement, Settled, Recorded, Record;
    RecordIsReceive(h, m, r, at);
    SettledJournal(h, m);
    var d, settled := Current(h, m).value, Settled(h, m);
    ReceiveExactly(h, settled, c, d, r, at);
    ReceiptFollows(h, settled, c, d, r, at);
  }

  /** One good turn after the other takes the mission along its path. */
  lemma {:induction false} JourneyArrives(h: HostSchemas, c: Contracts, now: int, goal: string, turns: seq<Turn>)
    requires ContractsAgree(h, c) && AcceptsAll(h) && goal != "" && |turns| <= 6
    requires forall n :: 0 <= n < |turns| ==> GoodTurn(h, c, now, goal, n, turns[n])
    ensures Arrived(h, c, now, goal, |turns|, Journey(h, c, now, turns))
    decreases |turns|
  {
    if |turns| == 0 {
      Departs(h, c, now, goal);
    } else {
      var n := |turns| - 1;
      assert forall i :: 0 <= i < n ==> turns[..n][i] == turns[i];
      JourneyArrives(h, c, now, goal, turns[..n]);
      TurnArrives(h, c, now, goal, n, Journey(h, c, now, turns[..n]), turns[n]);
    }
    hide Arrived, GoodTurn, AfterTurn, AcceptsAll, ContractsAgree;
  }

  /**
    Under schemas that refuse nothing, `start` with valid contracts authorizes the mission, and six
    good turns bring it to review, where `next` answers with it.
  */
  lemma SixTurnsReachReview(h: HostSchemas, c: Contracts, now: int, goal: string, turns: seq<Turn>, later: int)
    requires ContractsAgree(h, c) && AcceptsAll(h) && goal != "" && |turns| == 6
    requires forall n :: 0 <= n < |turns| ==> GoodTurn(h, c, now, goal, n, turns[n])
    ensures var e := Start(h, NoMission, c, now, now);
            e.reply.Ok? && e.reply.value.Started? && JustAuthorized(h, c, now, now, e.reply.value.state)
    ensures var m := Journey(h, c, now, turns);
            && m.store.state.Some? && m.store.state.value.state == AwaitingReview && m.store.state.value.revision == 7
            && Next(h, m, later, later).reply == Ok(TerminalReply(m.store.state.value))
  {
    hide Ready, AcceptsAll, JustAuthorized, Start, Next, Journey, GoodTurn;
    Departs(h, c, now, goal);
    JourneyArrives(h, c, now, goal, turns);
    var m := Journey(h, c, now, turns);
    NextRests(h, m, c, m.store.state.value, later, later);
  }
}
