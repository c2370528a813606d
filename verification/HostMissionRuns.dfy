/** Every run of a host mission, interrupted anywhere, keeps journal, receipts and state in agreement. */
module HostMissionRuns {
  import opened Wrappers
  import opened MissionState
  import opened MissionHistory
  import MissionHistoryLaws
  import opened HostDocuments
  import opened HostMission
  import opened HostMissionLaws

  ghost predicate EveryInvariant(h: HostSchemas, trace: seq<Mission>) {
    forall i :: 0 <= i < |trace| ==> Invariant(h, trace[i])
  }

  /** A settled mission in agreement, its contracts and its document. */
  ghost predicate Ready(h: HostSchemas, m: Mission, c: Contracts, d: Document) {
    Invariant(h, m) && Settled(h, m) == m && m.contracts == Some(c) && m.store.state == Some(d)
  }

  lemma ReadyAgrees(h: HostSchemas, m: Mission, c: Contracts, d: Document)
    requires Ready(h, m, c, d)
    ensures Agree(h, c, d, m.journal) && Current(h, m) == Some(d) && Repaired(h.store, m.store) == Ok(d)
  {
    SettledFacts(h, m);
    hide Agree;
  }

  lemma SettledIsReady(h: HostSchemas, m: Mission)
    requires Invariant(h, m) && m.store.state.Some?
    ensures Repaired(h.store, m.store).Ok? && Ready(h, Settled(h, m), m.contracts.value, Repaired(h.store, m.store).value)
  {
    SettledFacts(h, m);
    hide Agree;
  }

  /** A write to the journal alone. */
  lemma JournalWriteKeeps(h: HostSchemas, m: Mission, c: Contracts, d: Document, m': Mission)
    requires Ready(h, m, c, d) && m' == m.(journal := m'.journal) && Agree(h, c, d, m'.journal)
    ensures Ready(h, m', c, d)
  {
    hide Agree, StoreSound;
  }

  // ---------------------------------------------------------------- finishing a receipt

  /** The receipt's operation is the current state's own exactly when the state is its source. */
  lemma ReceiptOfCurrentState(h: HostSchemas, c: Contracts, d: Document, j: Journal, r: Receipt)
    requires Agree(h, c, d, j) && r.key in j.intents && r.action == j.intents[r.key].action
    ensures d.state == Source(r.action) <==> !Terminal(d.state) && d.revision == r.key.revision
    ensures d.state == Source(r.action) ==> r.key == KeyOf(d, r.action)
    ensures d.state == Target(r.action) <==> !Stopped(d.state) && d.revision == r.key.revision + 1
  {
    hide ReceiptsOk, ResultsOk, PathRecorded;
    assert r.key == KeyAt(h, c, r.key.revision) && r.action == ActionAt(r.key.revision);
  }

  /** The document the receipt's move leads to. */
  ghost predicate MovedBy(d: Document, request: Request, d': Document) {
    && request.target in AllowedTransitions(d.state) && ChangesAllowed(d.state, request.target, request.changes)
    && d' == d.(state := request.target, revision := d.revision + 1, updatedAt := d'.updatedAt, fields := d.fields + request.changes)
  }

  lemma ReceiptMoveAgrees(h: HostSchemas, c: Contracts, d: Document, j: Journal, r: Receipt, d': Document)
    requires Agree(h, c, d, j) && r.key in j.intents && r.action == j.intents[r.key].action
    requires r.key in j.receipts && j.receipts[r.key] == r && r.key in j.results
    requires PlanReceipt(d, r).Apply? && MovedBy(d, PlanReceipt(d, r).request, d')
    ensures Agree(h, c, d', j) && PlanReceipt(d', r) == Keep
  {
    ReceiptOfCurrentState(h, c, d, j, r);
    hide Agree;
    if r.outcome == Succeeded {
      AdvanceAgrees(h, c, d, j, r.action, d');
    } else {
      StopAgrees(h, c, d, j, d');
    }
  }

  lemma MovedIsMovedBy(h: HostSchemas, c: Contracts, m: Mission, d: Document, request: Request, at: int)
    requires Ready(h, m, c, d) && request.target != d.state
    ensures var moved := Moved(h.store, m.store, request, at);
            moved.Ok? ==> MovedBy(d, request, moved.value)
  {
    if Moved(h.store, m.store, request, at).Ok? {
      MissionHistoryLaws.MovedDocument(h.store, InitialState(h, c, d.createdAt), m.store, request, at);
    }
    hide Moved, MissionHistoryLaws.Sound, Agree;
  }

  lemma ReportedIsReady(h: HostSchemas, c: Contracts, m: Mission, d: Document, r: Receipt)
    requires Ready(h, m, c, d) && r.key in m.journal.receipts && m.journal.receipts[r.key] == r
    requires r.key in m.journal.intents && h.result(ResultFor(m.journal.intents[r.key], r))
    ensures var result := ResultFor(m.journal.intents[r.key], r);
            && m.journal.intents[r.key].key == r.key && m.journal.intents[r.key].action == r.action
            && Ready(h, WithResult(m, result), c, d)
  {
    ReadyAgrees(h, m, c, d);
    AddResultAgrees(h, c, d, m.journal, r.key);
    ReceiptNamesAction(h, c, d, m.journal, r.key);
    hide IntentsOk, ReceiptsOk, ResultsOk, PathRecorded, OnPath;
    JournalWriteKeeps(h, m, c, d, WithResult(m, ResultFor(m.journal.intents[r.key], r)));
  }

  /** The last directory of a successful call is settled and its document is the one returned. */
  ghost predicate EndsSettled(h: HostSchemas, e: Effect, d: Document)
    requires |e.trace| > 0
  {
    Settled(h, Final(e)) == Final(e) && Final(e).store.state == Some(d)
  }

  /** A move whose document agrees leaves only directories that agree. */
  lemma MoveKeeps(h: HostSchemas, c: Contracts, m: Mission, d: Document, request: Request, at: int, reply: Document -> Reply)
    requires Ready(h, m, c, d) && MissionState.AttemptId !in request.changes
    requires var moved := Moved(h.store, m.store, request, at); moved.Ok? ==> Agree(h, c, moved.value, m.journal)
    ensures var e := ApplyMove(h, m, request, at, reply);
            && EveryInvariant(h, e.trace)
            && (e.reply.Ok? ==>
                  var moved := Moved(h.store, m.store, request, at);
                  moved.Ok? && e.reply.value == reply(moved.value) && EndsSettled(h, e, moved.value))
  {
    var e := ApplyMove(h, m, request, at, reply);
    forall i | 0 <= i < |e.trace|
      ensures Invariant(h, e.trace[i])
    {
      ApplyMoveKeeps(h, m, request, at, reply, i);
    }
    ApplyMoveKeeps(h, m, request, at, reply, |e.trace| - 1);
    hide Agree, Invariant, Moved, MoveTrace;
  }

  ghost function ReceiptMove(h: HostSchemas, m: Mission, d: Document, r: Receipt, at: int): (e: Effect)
    requires PlanReceipt(d, r).Apply?
    ensures |e.trace| > 0 && e.trace[0] == m
  {
    ApplyMove(h, m, PlanReceipt(d, r).request, at, (state: Document) => Finished(r.outcome, r.key, state))
  }

  lemma PlannedRequest(d: Document, r: Receipt)
    requires PlanReceipt(d, r).Apply?
    ensures MissionState.AttemptId !in PlanReceipt(d, r).request.changes && PlanReceipt(d, r).request.target != d.state
  {}

  lemma ReceiptMoveEndsAgreed(h: HostSchemas, c: Contracts, m: Mission, d: Document, r: Receipt, at: int)
    requires Ready(h, m, c, d) && r.key in m.journal.intents
    requires r.key in m.journal.receipts && m.journal.receipts[r.key] == r && r.key in m.journal.results
    requires r.action == m.journal.intents[r.key].action && PlanReceipt(d, r).Apply?
    ensures var moved := Moved(h.store, m.store, PlanReceipt(d, r).request, at);
            moved.Ok? ==> Agree(h, c, moved.value, m.journal) && PlanReceipt(moved.value, r) == Keep
  {
    PlannedRequest(d, r);
    ReadyAgrees(h, m, c, d);
    hide PlanReceipt, Agree, Moved, Ready, MovedBy;
    MovedIsMovedBy(h, c, m, d, PlanReceipt(d, r).request, at);
    var moved := Moved(h.store, m.store, PlanReceipt(d, r).request, at);
    if moved.Ok? { ReceiptMoveAgrees(h, c, d, m.journal, r, moved.value); }
  }

  lemma FinishMoveKeeps(h: HostSchemas, c: Contracts, m: Mission, d: Document, r: Receipt, at: int)
    requires Ready(h, m, c, d) && r.key in m.journal.intents
    requires r.key in m.journal.receipts && m.journal.receipts[r.key] == r && r.key in m.journal.results
    requires r.action == m.journal.intents[r.key].action && PlanReceipt(d, r).Apply?
    ensures EveryInvariant(h, ReceiptMove(h, m, d, r, at).trace) && GoodEnd(h, ReceiptMove(h, m, d, r, at))
  {
    hide PlanReceipt, Agree, Ready, Moved, ApplyMove, EveryInvariant;
    PlannedRequest(d, r);
    ReceiptMoveEndsAgreed(h, c, m, d, r, at);
    MoveKeeps(h, c, m, d, PlanReceipt(d, r).request, at, (state: Document) => Finished(r.outcome, r.key, state));
  }

  /** A call that answers leaves a settled mission; the state it answers with is the one on disk. */
  ghost predicate GoodEnd(h: HostSchemas, e: Effect)
    requires |e.trace| > 0
  {
    e.reply.Ok? ==>
      match e.reply.value
      case ActionRequired(_) => Settled(h, Final(e)) == Final(e)
      case AwaitReceipt(_) => Settled(h, Final(e)) == Final(e)
      case TerminalReply(d) => EndsSettled(h, e, d)
      case Finished(_, _, d) => EndsSettled(h, e, d)
      case Started(d) => EndsSettled(h, e, d)
  }

  lemma ThenKeeps(h: HostSchemas, m: Mission, e: Effect)
    requires |e.trace| > 0 && Invariant(h, m) && EveryInvariant(h, e.trace)
    ensures EveryInvariant(h, Then(m, e).trace) && (GoodEnd(h, e) ==> GoodEnd(h, Then(m, e)))
  {
    hide Invariant;
  }

  /** A receipt on disk is finished through states that agree, ending with its transition applied. */
  lemma FinishKeeps(h: HostSchemas, c: Contracts, m: Mission, d: Document, r: Receipt, at: int)
    requires Ready(h, m, c, d) && r.key in m.journal.intents
    requires r.key in m.journal.receipts && m.journal.receipts[r.key] == r
    ensures var e := Finish(h, c, m, d, m.journal.intents[r.key], r, at);
            EveryInvariant(h, e.trace) && GoodEnd(h, e)
  {
    hide Invariant, ReceiptValid, PlanFits, PlanReceipt, ApplyMove, Settled, Then;
    var intent := m.journal.intents[r.key];
    if h.result(ResultFor(intent, r)) {
      ReportedIsReady(h, c, m, d, r);
      var reported := WithResult(m, ResultFor(intent, r));
      hide WithResult, ResultFor;
      if PlanReceipt(d, r).Apply? {
        FinishMoveKeeps(h, c, reported, d, r, at);
        ThenKeeps(h, m, ReceiptMove(h, reported, d, r, at));
        hide EveryInvariant, GoodEnd;
      }
    }
  }

  // ---------------------------------------------------------------- the calls

  lemma ReceiptedIsReady(h: HostSchemas, c: Contracts, m: Mission, d: Document, r: Receipt)
    requires Ready(h, m, c, d) && r.key in m.journal.intents && ReceiptValid(h, c, d, m.journal.intents[r.key], r)
    requires Writable(m.journal.receipts, r.key, r)
    ensures Ready(h, WithReceipt(m, r), c, d)
  {
    hide ReceiptValid, Agree, Ready;
    ReadyAgrees(h, m, c, d);
    if r.key in m.journal.receipts {
      assert m.journal.receipts[r.key := r] == m.journal.receipts;
    } else {
      AddReceiptAgrees(h, c, d, m.journal, r);
      JournalWriteKeeps(h, m, c, d, WithReceipt(m, r));
    }
  }

  lemma ReceiveKeeps(h: HostSchemas, c: Contracts, m: Mission, d: Document, r: Receipt, at: int)
    requires Ready(h, m, c, d) && r.key in m.journal.intents
    ensures var e := Receive(h, m, d, r, at); EveryInvariant(h, e.trace) && GoodEnd(h, e)
  {
    hide Invariant, ReceiptValid, PlanFits, PlanReceipt, Finish, Then, Settled;
    if ReceiptValid(h, c, d, m.journal.intents[r.key], r) && Writable(m.journal.receipts, r.key, r) {
      ReceiptedIsReady(h, c, m, d, r);
      FinishKeeps(h, c, WithReceipt(m, r), d, r, at);
      ThenKeeps(h, m, Finish(h, c, WithReceipt(m, r), d, m.journal.intents[r.key], r, at));
      hide WithReceipt;
    }
  }

  /** Every directory `record` can leave behind agrees. */
  lemma RecordKeeps(h: HostSchemas, m: Mission, r: Receipt, at: int)
    requires Invariant(h, m)
    ensures var e := Record(h, m, r, at); EveryInvariant(h, e.trace) && GoodEnd(h, e)
  {
    if m.store.state.Some? && r.key in m.journal.intents {
      SettledIsReady(h, m);
      hide Invariant, JournalLoads, Receive, Then, Repaired;
      ReceiveKeeps(h, m.contracts.value, Settled(h, m), Repaired(h.store, m.store).value, r, at);
      ThenKeeps(h, m, Receive(h, Settled(h, m), Repaired(h.store, m.store).value, r, at));
    }
  }

  /** A call that stops where it is. */
  lemma StayKeeps(h: HostSchemas, m: Mission, c: Contracts, d: Document, reply: Result<Reply, HostError>)
    requires Ready(h, m, c, d)
    requires reply.Ok? ==> reply.value in {TerminalReply(d), Started(d)} || reply.value.AwaitReceipt?
    ensures EveryInvariant(h, [m]) && GoodEnd(h, Effect([m], reply))
  {
    hide Invariant;
  }

  lemma ResumeKeeps(h: HostSchemas, c: Contracts, m: Mission, d: Document, key: OperationKey, at: int)
    requires Ready(h, m, c, d) && key in m.journal.intents
    ensures var e := Resume(h, c, m, d, key, at); EveryInvariant(h, e.trace) && GoodEnd(h, e)
  {
    hide Finish, EveryInvariant, GoodEnd, Invariant, JournalLoads;
    if key in m.journal.receipts {
      ResumedReceipt(h, c, m, d, key);
      FinishKeeps(h, c, m, d, m.journal.receipts[key], at);
    }
    StayKeeps(h, m, c, d, Err(JournalInvalid));
    StayKeeps(h, m, c, d, Err(ResultWithoutReceipt));
    StayKeeps(h, m, c, d, Ok(AwaitReceipt(key)));
  }

  lemma ResumedReceipt(h: HostSchemas, c: Contracts, m: Mission, d: Document, key: OperationKey)
    requires Ready(h, m, c, d) && key in m.journal.receipts
    ensures m.journal.receipts[key].key == key
  {
    ReadyAgrees(h, m, c, d);
    ReceiptNamesAction(h, c, d, m.journal, key);
  }

  ghost function DeadlineBlock(h: HostSchemas, m: Mission, d: Document, at: int): (e: Effect)
    ensures |e.trace| > 0 && e.trace[0] == m
  {
    ApplyMove(h, m, Request(Blocked, Some(Get(d.fields, MissionState.AttemptId)), BudgetLimited), at, (state: Document) => TerminalReply(state))
  }

  lemma DeadlineBlockAgrees(h: HostSchemas, c: Contracts, d: Document, j: Journal, a: Action, d': Document)
    requires Agree(h, c, d, j) && d.state == Source(a)
    requires MovedBy(d, Request(Blocked, Some(Get(d.fields, MissionState.AttemptId)), BudgetLimited), d')
    ensures Agree(h, c, d', j)
  {
    hide Agree;
    StopAgrees(h, c, d, j, d');
  }

  lemma DeadlineBlockKeeps(h: HostSchemas, c: Contracts, m: Mission, d: Document, a: Action, at: int)
    requires Ready(h, m, c, d) && d.state == Source(a)
    ensures var e := DeadlineBlock(h, m, d, at); EveryInvariant(h, e.trace) && GoodEnd(h, e)
  {
    var request := Request(Blocked, Some(Get(d.fields, MissionState.AttemptId)), BudgetLimited);
    ReadyAgrees(h, m, c, d);
    MovedIsMovedBy(h, c, m, d, request, at);
    var moved := Moved(h.store, m.store, request, at);
    hide Agree, Moved, Ready, MovedBy, ApplyMove, EveryInvariant;
    if moved.Ok? { DeadlineBlockAgrees(h, c, d, m.journal, a, moved.value); }
    MoveKeeps(h, c, m, d, request, at, (state: Document) => TerminalReply(state));
  }

  lemma IntentKeeps(h: HostSchemas, c: Contracts, m: Mission, d: Document, a: Action, now: int)
    requires Ready(h, m, c, d) && d.state == Source(a) && KeyOf(d, a) !in m.journal.intents
    requires now < Deadline(c, d.createdAt) && h.intent(IntentFor(c, d, a, now))
    ensures Ready(h, WithIntent(m, IntentFor(c, d, a, now)), c, d)
  {
    ReadyAgrees(h, m, c, d);
    AddIntentAgrees(h, c, d, m.journal, a, now);
    hide Agree, RequestFor;
    JournalWriteKeeps(h, m, c, d, WithIntent(m, IntentFor(c, d, a, now)));
  }

  lemma IssueKeeps(h: HostSchemas, c: Contracts, m: Mission, d: Document, a: Action, now: int, at: int)
    requires Ready(h, m, c, d) && d.state == Source(a) && KeyOf(d, a) !in m.journal.intents
    ensures var e := Issue(h, c, m, d, a, now, at); EveryInvariant(h, e.trace) && GoodEnd(h, e)
  {
    hide Invariant, ApplyMove, WithIntent, IntentFor, RequestFor;
    if now >= Deadline(c, d.createdAt) {
      DeadlineBlockKeeps(h, c, m, d, a, at);
      assert Issue(h, c, m, d, a, now, at) == DeadlineBlock(h, m, d, at);
      hide EveryInvariant, GoodEnd;
    } else if h.intent(IntentFor(c, d, a, now)) {
      IntentKeeps(h, c, m, d, a, now);
    }
  }

  lemma DriveKeeps(h: HostSchemas, c: Contracts, m: Mission, d: Document, now: int, at: int)
    requires Ready(h, m, c, d)
    ensures var e := Drive(h, m, d, now, at); EveryInvariant(h, e.trace) && GoodEnd(h, e)
  {
    hide Resume, Issue, Invariant, IdentityHolds, ContractsValid;
    if ActionOf(d.state).Some? {
      var a := ActionOf(d.state).value;
      if KeyOf(d, a) in m.journal.intents { ResumeKeeps(h, c, m, d, KeyOf(d, a), at); } else { IssueKeeps(h, c, m, d, a, now, at); }
    }
  }

  /** Every directory `next` can leave behind agrees. */
  lemma NextKeeps(h: HostSchemas, m: Mission, now: int, at: int)
    requires Invariant(h, m)
    ensures var e := Next(h, m, now, at); EveryInvariant(h, e.trace) && GoodEnd(h, e)
  {
    if m.store.state.Some? {
      SettledIsReady(h, m);
      hide Invariant, Drive, Then, Repaired;
      DriveKeeps(h, m.contracts.value, Settled(h, m), Repaired(h.store, m.store).value, now, at);
      ThenKeeps(h, m, Drive(h, Settled(h, m), Repaired(h.store, m.store).value, now, at));
    }
  }

  lemma AbandonAgrees(h: HostSchemas, c: Contracts, m: Mission, d: Document, at: int)
    requires Ready(h, m, c, d) && !Terminal(d.state)
    ensures var moved := Moved(h.store, m.store, Request(Abandoned, Some(Get(d.fields, MissionState.AttemptId)), map[]), at);
            moved.Ok? ==> Agree(h, c, moved.value, m.journal)
  {
    var request := Request(Abandoned, Some(Get(d.fields, MissionState.AttemptId)), map[]);
    ReadyAgrees(h, m, c, d);
    MovedIsMovedBy(h, c, m, d, request, at);
    var moved := Moved(h.store, m.store, request, at);
    hide Agree, Moved;
    if moved.Ok? { StopAgrees(h, c, d, m.journal, moved.value); }
  }

  lemma AbandonKeeps(h: HostSchemas, m: Mission, at: int)
    requires Invariant(h, m)
    ensures EveryInvariant(h, Abandon(h, m, at).trace)
  {
    if m.store.state.Some? {
      SettledIsReady(h, m);
      var settled, d := Settled(h, m), Repaired(h.store, m.store).value;
      var request := Request(Abandoned, Some(Get(d.fields, MissionState.AttemptId)), map[]);
      hide Invariant, ApplyMove, Then, Repaired, Moved, Settled;
      if !Terminal(d.state) {
        AbandonAgrees(h, m.contracts.value, settled, d, at);
        MoveKeeps(h, m.contracts.value, settled, d, request, at, (state: Document) => TerminalReply(state));
      }
      hide Agree;
      ThenKeeps(h, m, if Terminal(d.state) then Effect([settled], Ok(TerminalReply(d)))
                      else ApplyMove(h, settled, request, at, (state: Document) => TerminalReply(state)));
    }
  }

  // ---------------------------------------------------------------- start

  lemma CreatedIsSound(h: HostSchemas, c: Contracts, now: int)
    requires h.store.state(InitialState(h, c, now))
    ensures MissionHistoryLaws.Sound(h.store, InitialState(h, c, now), Disk(Some(InitialState(h, c, now)), map[]))
    ensures InitialState(h, c, now).createdAt == now
  {
    var initial := InitialState(h, c, now);
    MissionHistoryLaws.RunKeepsIntact(h.store, initial, []);
    assert MissionHistoryLaws.Run(h.store, Disk(Some(initial), map[]), []) == Disk(Some(initial), map[]);
    hide MissionHistoryLaws.Intact;
  }

  lemma CreatedAgrees(h: HostSchemas, c: Contracts, now: int)
    requires ContractsValid(h, c)
    ensures Agree(h, c, InitialState(h, c, now), NoMission.journal)
  {}

  lemma CreatedIsReady(h: HostSchemas, m: Mission, c: Contracts, now: int)
    requires Invariant(h, m) && m.store.state.None? && ContractsValid(h, c) && h.store.state(InitialState(h, c, now))
    ensures Ready(h, m.(contracts := Some(c), store := m.store.(state := Some(InitialState(h, c, now)))), c, InitialState(h, c, now))
  {
    var initial := InitialState(h, c, now);
    var created := m.(contracts := Some(c), store := Disk(Some(initial), map[]));
    var start := Disk(Some(initial), map[]);
    CreatedIsSound(h, c, now);
    CreatedAgrees(h, c, now);
    hide MissionHistoryLaws.Sound, Agree, InitialState, SettledDisk;
    MissionHistoryLaws.SettledIsSound(h.store, initial, start);
  }

  lemma AuthorizeKeeps(h: HostSchemas, c: Contracts, m: Mission, d: Document, at: int)
    requires Ready(h, m, c, d)
    ensures EveryInvariant(h, Authorize(h, c, m, d, at).trace)
  {
    var request := Request(Authorized, Some(AttemptOf(h, c)), map[AuthorizationId := Str(c.authorization.authorizationId)]);
    hide IdentityHolds;
    if d.state == Planned {
      ReadyAgrees(h, m, c, d);
      MovedIsMovedBy(h, c, m, d, request, at);
      var moved := Moved(h.store, m.store, request, at);
      if moved.Ok? {
        AuthorizeAgrees(h, c, d, m.journal, at);
        AuthorizedDocument(h, c, d, moved.value, request);
        AuthorizeAgrees(h, c, d, m.journal, moved.value.updatedAt);
      }
      hide Agree, Moved, ApplyMove, Invariant;
      MoveKeeps(h, c, m, d, request, at, (state: Document) => Started(state));
    }
  }

  lemma AuthorizedDocument(h: HostSchemas, c: Contracts, d: Document, d': Document, request: Request)
    requires OnPath(h, c, d) && d.state == Planned && MovedBy(d, request, d') && request.target == Authorized
    ensures d' == d.(state := Authorized, revision := 1, updatedAt := d'.updatedAt, fields := d.fields + request.changes)
  {}

  lemma BoundKeeps(h: HostSchemas, m: Mission, c: Contracts)
    requires Invariant(h, m) && PapersOf(m) <= Papers(c)
    ensures Invariant(h, BoundTo(m, c)) && (m.contracts.Some? ==> m.contracts.value == c)
  {
    if m.contracts.Some? { PapersAre(m.contracts.value, c); }
    hide Agree, StoreSound;
  }

  /** Whatever contract files a start has written, nothing else has changed. */
  lemma ContractTraceIs(m: Mission, c: Contracts, i: nat)
    requires PapersOf(m) <= Papers(c) && i < |ContractTrace(m, c)|
    ensures var x := ContractTrace(m, c)[i];
            && x.store == m.store && x.journal == m.journal && PapersOf(x) <= Papers(c)
            && (x == m || x == BoundTo(m, c) || (m.contracts.None? && x.contracts.None?))
  {}

  lemma ContractTraceKeeps(h: HostSchemas, m: Mission, c: Contracts)
    requires Invariant(h, m) && PapersOf(m) <= Papers(c)
    ensures EveryInvariant(h, ContractTrace(m, c))
  {
    BoundKeeps(h, m, c);
    forall i | 0 <= i < |ContractTrace(m, c)| ensures Invariant(h, ContractTrace(m, c)[i]) {
      ContractTraceIs(m, c, i);
      hide ContractTrace, Papers, StoreSound, Agree;
    }
  }

  lemma AfterWritesKeeps(h: HostSchemas, writes: seq<Mission>, rest: Effect)
    requires EveryInvariant(h, writes) && EveryInvariant(h, rest.trace)
    ensures EveryInvariant(h, AfterWrites(writes, rest).trace)
  {
    hide Invariant;
  }

  /** Every directory `start` can leave behind agrees, on the first call and on every repetition. */
  lemma StartKeeps(h: HostSchemas, m: Mission, c: Contracts, now: int, at: int)
    requires Invariant(h, m)
    ensures EveryInvariant(h, Start(h, m, c, now, at).trace)
  {
    hide Invariant, StartBound, ContractsValid, ContractTrace, Papers;
    if ContractsValid(h, c) && PapersOf(m) <= Papers(c) {
      BoundKeeps(h, m, c);
      ContractTraceKeeps(h, m, c);
      StartBoundKeeps(h, BoundTo(m, c), c, now, at);
      AfterWritesKeeps(h, ContractTrace(m, c), StartBound(h, BoundTo(m, c), c, now, at));
    }
  }

  lemma StartBoundKeeps(h: HostSchemas, m: Mission, c: Contracts, now: int, at: int)
    requires Invariant(h, m) && ContractsValid(h, c) && m.contracts == Some(c)
    ensures EveryInvariant(h, StartBound(h, m, c, now, at).trace)
  {
    if m.store.state.None? {
      var initial := InitialState(h, c, now);
      if h.store.state(initial) {
        var created := m.(store := m.store.(state := Some(initial)));
        CreatedIsReady(h, m, c, now);
        hide Invariant, Authorize, Then, InitialState, ContractsValid;
        AuthorizeKeeps(h, c, created, initial, at);
        ThenKeeps(h, m, Authorize(h, c, created, initial, at));
      }
    } else {
      SettledIsReady(h, m);
      var settled, d := Settled(h, m), Repaired(h.store, m.store).value;
      hide Invariant, Authorize, Then, Repaired, InitialState, ContractsValid, Settled;
      AuthorizeKeeps(h, c, settled, d, at);
      ThenKeeps(h, m, Authorize(h, c, settled, d, at));
    }
  }

  // ---------------------------------------------------------------- whole runs

  /** One call, cut off after `crashAfter` durable writes (if it makes that many). */
  datatype Call =
    | CallStart(contracts: Contracts, now: int, at: int, crashAfter: nat)
    | CallNext(now: int, at: int, crashAfter: nat)
    | CallRecord(receipt: Receipt, at: int, crashAfter: nat)
    | CallAbandon(at: int, crashAfter: nat)

  ghost function EffectOf(h: HostSchemas, m: Mission, call: Call): (e: Effect)
    ensures |e.trace| > 0 && e.trace[0] == m
  {
    match call
    case CallStart(c, now, at, _) => Start(h, m, c, now, at)
    case CallNext(now, at, _) => Next(h, m, now, at)
    case CallRecord(r, at, _) => Record(h, m, r, at)
    case CallAbandon(at, _) => Abandon(h, m, at)
  }

  ghost function After(h: HostSchemas, m: Mission, call: Call): Mission {
    var trace := EffectOf(h, m, call).trace;
    if call.crashAfter < |trace| then trace[call.crashAfter] else trace[|trace| - 1]
  }

  ghost function Run(h: HostSchemas, calls: seq<Call>): Mission {
    if |calls| == 0 then NoMission else After(h, Run(h, calls[..|calls| - 1]), calls[|calls| - 1])
  }

  lemma CallKeeps(h: HostSchemas, m: Mission, call: Call)
    requires Invariant(h, m)
    ensures EveryInvariant(h, EffectOf(h, m, call).trace)
    ensures Invariant(h, After(h, m, call))
  {
    hide Invariant, Start, Next, Record, Abandon;
    match call
    case CallStart(c, now, at, _) => StartKeeps(h, m, c, now, at);
    case CallNext(now, at, _) => NextKeeps(h, m, now, at);
    case CallRecord(r, at, _) => RecordKeeps(h, m, r, at);
    case CallAbandon(at, _) => AbandonKeeps(h, m, at);
  }

  /** Whatever the calls, one at a time, and wherever each is cut off. */
  lemma {:induction false} EveryRunAgrees(h: HostSchemas, calls: seq<Call>)
    ensures Invariant(h, Run(h, calls))
  {
    if |calls| > 0 {
      EveryRunAgrees(h, calls[..|calls| - 1]);
      CallKeeps(h, Run(h, calls[..|calls| - 1]), calls[|calls| - 1]);
      hide Invariant;
    }
  }
}
