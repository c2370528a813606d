/**
  The host mission controller as a function of its directory (pathfinder_core/mission_host.py):
  each call is the sequence of directories its durable writes pass through, and its reply.  A
  crash leaves any directory of the sequence.
*/
module HostMission {
  import opened Wrappers
  import opened MissionState
  import opened MissionHistory
  import opened HostDocuments

  datatype HostError =
    | StoreFailed | IdentityDrift | NoHostAction | NoContracts | ContractDrift | AuthorizationDrift | OperationNotFound
    | JournalInvalid | ReceiptRejected | DifferentReceipt | ResultRejected | ResultWithoutReceipt | RequestRejected

  datatype Reply =
    | TerminalReply(state: Document)
    | ActionRequired(request: HostRequest)
    | AwaitReceipt(key: OperationKey)
    | Finished(outcome: Outcome, key: OperationKey, state: Document)
    | Started(state: Document)

  /** The directories a call passes through, the first one as found, and what it answers. */
  datatype Effect = Effect(trace: seq<Mission>, reply: Result<Reply, HostError>)

  function Final(e: Effect): Mission
    requires |e.trace| > 0
  {
    e.trace[|e.trace| - 1]
  }

  /** A call that had to repair, write or settle something first. */
  function Then(m: Mission, rest: Effect): (e: Effect)
    ensures |e.trace| > 0 && e.trace[0] == m
    ensures |rest.trace| > 0 ==> Final(e) == Final(rest)
  {
    Effect([m] + rest.trace, rest.reply)
  }

  function OnStore(m: Mission, disks: seq<Disk>): (trace: seq<Mission>)
    ensures |trace| == |disks|
  {
    seq(|disks|, i requires 0 <= i < |disks| => m.(store := disks[i]))
  }

  ghost function Settled(h: HostSchemas, m: Mission): Mission { m.(store := SettledDisk(h.store, m.store)) }

  function WithIntent(m: Mission, intent: Intent): Mission {
    m.(journal := m.journal.(intents := m.journal.intents[intent.key := intent]))
  }

  function WithReceipt(m: Mission, r: Receipt): Mission {
    m.(journal := m.journal.(receipts := m.journal.receipts[r.key := r]))
  }

  function WithResult(m: Mission, r: OperationResult): Mission {
    m.(journal := m.journal.(results := m.journal.results[r.bound.key := r]))
  }

  predicate Writable<K, V(==)>(files: map<K, V>, key: K, document: V) { key !in files || files[key] == document }

  /** `OperationJournal.load` succeeds. */
  predicate JournalLoads(h: HostSchemas, j: Journal, key: OperationKey) {
    && key in j.intents && h.intent(j.intents[key])
    && (key in j.results ==> h.result(j.results[key]) && j.results[key].bound == j.intents[key])
  }

  // ---------------------------------------------------------------- recording a receipt

  /** The move a receipt asks for, on a settled store. */
  ghost function ApplyMove(h: HostSchemas, m: Mission, request: Request, at: int, reply: Document -> Reply): (e: Effect)
    ensures |e.trace| > 0 && e.trace[0] == m
  {
    var moved := Moved(h.store, m.store, request, at);
    Effect(OnStore(m, MoveTrace(h.store, m.store, request, at)),
           if moved.Ok? then Ok(reply(moved.value)) else Err(StoreFailed))
  }

  /** `_finish_receipt`: validate, record the operation result, advance the state. */
  ghost function Finish(h: HostSchemas, c: Contracts, m: Mission, d: Document, intent: Intent, r: Receipt, at: int): (e: Effect)
    ensures |e.trace| > 0 && e.trace[0] == m
  {
    var result := ResultFor(intent, r);
    if !ReceiptValid(h, c, d, intent, r) || !PlanFits(h, d, r, at) then Effect([m], Err(ReceiptRejected))
    else if !h.result(result) || !Writable(m.journal.results, r.key, result) then Effect([m], Err(ResultRejected))
    else
      var reported := WithResult(m, result);
      match PlanReceipt(d, r)
      case Apply(request) =>
        Then(m, ApplyMove(h, reported, request, at, (state: Document) => Finished(r.outcome, r.key, state)))
      case _ => Effect([m, reported], Ok(Finished(r.outcome, r.key, d)))
  }

  /** The repaired part of `record`: a receipt is persisted only once it is known to fit the state. */
  ghost function Receive(h: HostSchemas, m: Mission, d: Document, r: Receipt, at: int): (e: Effect)
    requires r.key in m.journal.intents
    ensures |e.trace| > 0 && e.trace[0] == m
  {
    var intent := m.journal.intents[r.key];
    if m.contracts.None? then Effect([m], Err(NoContracts))
    else if !ReceiptValid(h, m.contracts.value, d, intent, r) || !PlanFits(h, d, r, at) then Effect([m], Err(ReceiptRejected))
    else if !Writable(m.journal.receipts, r.key, r) then Effect([m], Err(DifferentReceipt))
    else Then(m, Finish(h, m.contracts.value, WithReceipt(m, r), d, intent, r, at))
  }

  ghost function Record(h: HostSchemas, m: Mission, r: Receipt, at: int): (e: Effect)
    ensures |e.trace| > 0 && e.trace[0] == m
  {
    if r.key !in m.journal.intents then Effect([m], Err(OperationNotFound))
    else if !JournalLoads(h, m.journal, r.key) then Effect([m], Err(JournalInvalid))
    else match Repaired(h.store, m.store)
      case Err(_) => Effect([m], Err(StoreFailed))
      case Ok(d) => Then(m, Receive(h, Settled(h, m), d, r, at))
  }

  // ---------------------------------------------------------------- next

  const BudgetLimited: Changes := map[TerminalReason := Str("budget-limited")]

  /** The operation of the current state, once its intent is on disk. */
  ghost function Resume(h: HostSchemas, c: Contracts, m: Mission, d: Document, key: OperationKey, at: int): (e: Effect)
    requires key in m.journal.intents
    ensures |e.trace| > 0 && e.trace[0] == m
  {
    if !JournalLoads(h, m.journal, key) then Effect([m], Err(JournalInvalid))
    else if key in m.journal.receipts then Finish(h, c, m, d, m.journal.intents[key], m.journal.receipts[key], at)
    else if key !in m.journal.results then Effect([m], Ok(AwaitReceipt(key)))
    else Effect([m], Err(ResultWithoutReceipt))
  }

  /** The operation is not on disk yet: block on the deadline, or persist the intent and hand it out. */
  ghost function Issue(h: HostSchemas, c: Contracts, m: Mission, d: Document, a: Action, now: int, at: int): (e: Effect)
    ensures |e.trace| > 0 && e.trace[0] == m
  {
    if now >= Deadline(c, d.createdAt) then
      ApplyMove(h, m, Request(Blocked, Some(Get(d.fields, MissionState.AttemptId)), BudgetLimited), at, (state: Document) => TerminalReply(state))
    else
      var request, intent := RequestFor(c, d, a, now), IntentFor(c, d, a, now);
      if (a == CompleteGoal && !Truthy(Get(d.fields, NativeGoalId))) || !h.request(request) || !h.intent(intent)
      then Effect([m], Err(RequestRejected))
      else Effect([m, WithIntent(m, intent)], Ok(ActionRequired(request)))
  }

  /** The repaired part of `next`. */
  ghost function Drive(h: HostSchemas, m: Mission, d: Document, now: int, at: int): (e: Effect)
    ensures |e.trace| > 0 && e.trace[0] == m
  {
    if Terminal(d.state) then Effect([m], Ok(TerminalReply(d)))
    else match ActionOf(d.state)
      case None => Effect([m], Err(NoHostAction))
      case Some(a) =>
        if m.contracts.None? || !ContractsValid(h, m.contracts.value) then Effect([m], Err(NoContracts))
        else if !IdentityHolds(h, m.contracts.value, d) then Effect([m], Err(IdentityDrift))
        else if KeyOf(d, a) in m.journal.intents then Resume(h, m.contracts.value, m, d, KeyOf(d, a), at)
        else Issue(h, m.contracts.value, m, d, a, now, at)
  }

  ghost function Next(h: HostSchemas, m: Mission, now: int, at: int): (e: Effect)
    ensures |e.trace| > 0 && e.trace[0] == m
  {
    match Repaired(h.store, m.store)
    case Err(_) => Effect([m], Err(StoreFailed))
    case Ok(d) => Then(m, Drive(h, Settled(h, m), d, now, at))
  }

  // ---------------------------------------------------------------- start and abandon

  ghost function Authorize(h: HostSchemas, c: Contracts, m: Mission, d: Document, at: int): (e: Effect)
    ensures |e.trace| > 0 && e.trace[0] == m
  {
    if !IdentityHolds(h, c, d) then Effect([m], Err(IdentityDrift))
    else if d.state == Planned then
      ApplyMove(h, m, Request(Authorized, Some(AttemptOf(h, c)), map[AuthorizationId := Str(c.authorization.authorizationId)]), at,
                (state: Document) => Started(state))
    else if Get(d.fields, AuthorizationId) != Str(c.authorization.authorizationId) then Effect([m], Err(AuthorizationDrift))
    else Effect([m], Ok(Started(d)))
  }

  function BoundTo(m: Mission, c: Contracts): Mission { m.(draft := [], contracts := Some(c)) }

  /** `_write_contract`, file by file: those already there are left, the others are written in order. */
  function ContractTrace(m: Mission, c: Contracts): (trace: seq<Mission>)
    requires PapersOf(m) <= Papers(c)
    ensures |trace| > 0 && trace[0] == m && trace[|trace| - 1] == BoundTo(m, c)
  {
    var missing := if m.contracts.Some? || |m.draft| >= 3 then 0 else 3 - |m.draft|;
    [m] + seq(missing, i requires 0 <= i < missing => m.(draft := Papers(c)[..|m.draft| + 1 + i])) + [BoundTo(m, c)]
  }

  function AfterWrites(writes: seq<Mission>, rest: Effect): Effect { Effect(writes + rest.trace, rest.reply) }

  /** `start`: safe to repeat; every contract file is written once. */
  ghost function Start(h: HostSchemas, m: Mission, c: Contracts, now: int, at: int): (e: Effect)
    ensures |e.trace| > 0 && e.trace[0] == m
  {
    if !ContractsValid(h, c) then Effect([m], Err(NoContracts))
    else if !(PapersOf(m) <= Papers(c)) then Effect([m], Err(ContractDrift))
    else AfterWrites(ContractTrace(m, c), StartBound(h, BoundTo(m, c), c, now, at))
  }

  /** The part of `start` after the contracts are on disk. */
  ghost function StartBound(h: HostSchemas, m: Mission, c: Contracts, now: int, at: int): (e: Effect)
    ensures |e.trace| > 0 && e.trace[0] == m
  {
    if m.store.state.None? then
      var initial := InitialState(h, c, now);
      if !h.store.state(initial) then Effect([m], Err(StoreFailed))
      else Then(m, Authorize(h, c, m.(store := m.store.(state := Some(initial))), initial, at))
    else match Repaired(h.store, m.store)
      case Err(_) => Effect([m], Err(StoreFailed))
      case Ok(d) => Then(m, Authorize(h, c, Settled(h, m), d, at))
  }

  /** What `GoalPackController.abandon` does to its child. */
  ghost function Abandon(h: HostSchemas, m: Mission, at: int): (e: Effect)
    ensures |e.trace| > 0 && e.trace[0] == m
  {
    match Repaired(h.store, m.store)
    case Err(_) => Effect([m], Err(StoreFailed))
    case Ok(d) =>
      Then(m, if Terminal(d.state) then Effect([Settled(h, m)], Ok(TerminalReply(d)))
              else ApplyMove(h, Settled(h, m), Request(Abandoned, Some(Get(d.fields, MissionState.AttemptId)), map[]), at,
                             (state: Document) => TerminalReply(state)))
  }
}
