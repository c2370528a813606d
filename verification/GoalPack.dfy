/**
  The goal pack controller (pathfinder_core/goal_pack.py): an ordered queue of one-goal missions
  under one authorization and one deadline.  Each call is the sequence of directories its durable
  writes pass through, its children's writes included; a crash leaves any of them.
*/
module GoalPack {
  import opened Wrappers
  import opened MissionState
  import MissionHistory
  import opened HostDocuments
  import Host = HostMission

  datatype GoalStatus = Queued | Active | Completed | GoalBlocked | GoalAbandoned

  datatype Goal = Goal(position: nat, binding: Binding, status: GoalStatus, activatedAt: Option<int>,
                       completedAt: Option<int>, finalState: Option<State>)

  datatype Phase = PackAuthorized | PackRunning | PackAwaitingReview | PackBlocked | PackAbandoned

  datatype PackState = PackState(packId: string, authorizationId: string, phase: Phase, revision: nat, current: Option<nat>,
                                 goals: seq<Goal>, terminalReason: Option<string>, deadlineAt: int, createdAt: int, updatedAt: int)

  /** `bindings` lists the ordered Goal Bindings by hash, which stand for the bindings themselves. */
  datatype PackAuthorization = PackAuthorization(packId: string, authorizationId: string, baseCommit: string, goals: int,
                                                 attemptsPerGoal: int, wallSeconds: int, bindings: seq<Binding>, rest: string)

  datatype PackContracts = PackContracts(authorization: PackAuthorization, boundary: string, protection: string,
                                         bindings: seq<Binding>)

  /** One contract file of a pack. */
  datatype PackPaper = PackAuthorizationPaper(authorization: PackAuthorization) | PackTextPaper(text: string) | PackBindingPaper(binding: Binding)

  /** The contract files in the order `start` writes them. */
  function PackPapers(c: PackContracts): seq<PackPaper> {
    [PackAuthorizationPaper(c.authorization), PackTextPaper(c.boundary), PackTextPaper(c.protection)]
    + seq(|c.bindings|, i requires 0 <= i < |c.bindings| => PackBindingPaper(c.bindings[i]))
  }

  /**
    The pack directory: a child that was never started is `NoMission`, and `draft` is the contract files
    while some are missing.
  */
  datatype Pack = Pack(draft: seq<PackPaper>, contracts: Option<PackContracts>, state: Option<PackState>, children: seq<Mission>)

  const NoPack := Pack([], None, None, [])

  function PackPapersOf(p: Pack): seq<PackPaper> { if p.contracts.Some? then PackPapers(p.contracts.value) else p.draft }

  datatype PackSchemas = PackSchemas(host: HostSchemas, contracts: PackContracts -> bool, state: PackState -> bool,
                                     childId: (string, string) -> string, childRest: (PackAuthorization, Binding) -> string)

  datatype PackError =
    | ContractsRejected | ContractDrifted | StateMissing | StateRejected | IdentityDrifted | SaveRejected | BudgetExpired
    | ChildStoreFailed | ChildFailed(error: Host.HostError) | AlreadyTerminal | ForeignReceipt | NotStarted

  datatype PackReply =
    | PackStarted(state: PackState)
    | PackTerminal(state: PackState)
    | GoalAdvanced(state: PackState)
    | FromChild(reply: Host.Reply, state: PackState)

  datatype PackEffect = PackEffect(trace: seq<Pack>, reply: Result<PackReply, PackError>)

  // ---------------------------------------------------------------- contracts and limits

  predicate DistinctGoals(bindings: seq<Binding>) {
    forall i, j :: 0 <= i < j < |bindings| ==>
      && bindings[i].identity.missionId != bindings[j].identity.missionId
      && bindings[i].identity.bindingId != bindings[j].identity.bindingId
      && bindings[i].identity.goalId != bindings[j].identity.goalId
  }

  /** `_validate_start`; the schemas ask for 2 to 20 goals, what else they ask is `h.contracts`. */
  predicate PackContractsValid(h: PackSchemas, c: PackContracts) {
    && h.contracts(c) && 2 <= |c.bindings| <= 20
    && c.authorization.bindings == c.bindings && c.authorization.goals == |c.bindings|
    && DistinctGoals(c.bindings)
    && forall i :: 0 <= i < |c.bindings| ==>
         c.bindings[i].identity.baseCommit == c.authorization.baseCommit && c.authorization.attemptsPerGoal <= c.bindings[i].attempts
  }

  /** Python's `int` of a fractional number of seconds truncates toward zero. */
  function WholeSeconds(micros: int): int { if micros >= 0 then micros / SECOND else -((-micros) / SECOND) }

  /** `_derived_authorization`: the child gets what is left of the pack's time, in whole seconds. */
  function DerivedContracts(h: PackSchemas, c: PackContracts, st: PackState, g: Goal): Result<Contracts, PackError> {
    if g.activatedAt.None? then Err(StateRejected)
    else
      var remaining := WholeSeconds(st.deadlineAt - g.activatedAt.value);
      if remaining < 1 then Err(BudgetExpired)
      else Ok(Contracts(g.binding,
                        Authorization(h.childId(c.authorization.authorizationId, g.binding.identity.bindingId),
                                      g.binding.identity.missionId, g.binding.identity.bindingId, g.binding.identity.baseCommit,
                                      1, Min(c.authorization.attemptsPerGoal, g.binding.attempts),
                                      Min(remaining, g.binding.wallSeconds), h.childRest(c.authorization, g.binding)),
                        c.boundary, c.protection))
  }

  function PackDeadline(c: PackContracts, createdAt: int): int { createdAt + c.authorization.wallSeconds * SECOND }

  // ---------------------------------------------------------------- the state and its invariants

  predicate TerminalPhase(phase: Phase) { phase in {PackAwaitingReview, PackBlocked, PackAbandoned} }

  predicate ChildTerminal(state: State) { state in {AwaitingReview, Blocked, Abandoned} }

  predicate GoalConsistent(g: Goal) {
    match g.status
    case Queued => g.activatedAt.None? && g.completedAt.None? && g.finalState.None?
    case Active => g.activatedAt.Some? && g.completedAt.None? && g.finalState.None?
    case Completed => g.completedAt.Some? && g.finalState == Some(AwaitingReview)
    case GoalBlocked => g.completedAt.Some? && g.finalState == Some(Blocked)
    case GoalAbandoned => g.completedAt.Some? && g.finalState == Some(Abandoned)
  }

  predicate OnlyActive(goals: seq<Goal>, index: nat) {
    forall i :: 0 <= i < |goals| ==> (goals[i].status == Active <==> i == index)
  }

  /** The structural part of `_validate_state_invariants`. */
  predicate StructureOk(st: PackState) {
    && (forall i :: 0 <= i < |st.goals| ==> st.goals[i].position == i + 1)
    && (forall i :: 0 <= i < |st.goals| ==> GoalConsistent(st.goals[i]))
    && (if TerminalPhase(st.phase) then st.current.None? && forall i :: 0 <= i < |st.goals| ==> st.goals[i].status != Active
        else st.current.Some? && st.current.value < |st.goals| && OnlyActive(st.goals, st.current.value))
    && (st.phase == PackAwaitingReview ==> forall i :: 0 <= i < |st.goals| ==> st.goals[i].status == Completed)
    && DistinctGoals(seq(|st.goals|, i requires 0 <= i < |st.goals| => st.goals[i].binding))
  }

  predicate StateOk(h: PackSchemas, st: PackState) { h.state(st) && StructureOk(st) }

  /** `_load_state` succeeds: the invariants hold and the state is the authorized one. */
  predicate Loads(h: PackSchemas, p: Pack) {
    && p.contracts.Some? && p.state.Some?
    && var c, st := p.contracts.value, p.state.value;
       && StateOk(h, st)
       && st.packId == c.authorization.packId && st.authorizationId == c.authorization.authorizationId
       && st.deadlineAt == PackDeadline(c, st.createdAt)
       && |st.goals| == |c.authorization.bindings|
       && forall i :: 0 <= i < |st.goals| ==> st.goals[i].binding == c.authorization.bindings[i]
  }

  function InitialGoal(b: Binding, i: nat, at: int): Goal {
    Goal(i + 1, b, if i == 0 then Active else Queued, if i == 0 then Some(at) else None, None, None)
  }

  function InitialPackState(c: PackContracts, at: int): PackState {
    PackState(c.authorization.packId, c.authorization.authorizationId, PackAuthorized, 0, Some(0),
              seq(|c.bindings|, i requires 0 <= i < |c.bindings| => InitialGoal(c.bindings[i], i, at)),
              None, PackDeadline(c, at), at, at)
  }

  // ---------------------------------------------------------------- saving

  /** `_save_state`: one revision later, validated, then written. */
  function Save(h: PackSchemas, p: Pack, st: PackState, now: int, reply: PackState -> PackReply): (e: PackEffect)
    ensures |e.trace| > 0 && e.trace[0] == p
  {
    var updated := st.(revision := st.revision + 1, updatedAt := now);
    if !StateOk(h, updated) then PackEffect([p], Err(SaveRejected))
    else PackEffect([p, p.(state := Some(updated))], Ok(reply(updated)))
  }

  function CloseGoal(g: Goal, status: GoalStatus, at: int, final: State): Goal {
    g.(status := status, completedAt := Some(at), finalState := Some(final))
  }

  /** The queue after the active goal ended and, if it completed, the next one was activated. */
  function FinishedState(st: PackState, index: nat, child: Document, now: int): PackState
    requires index < |st.goals|
  {
    var close := (status: GoalStatus) => st.goals[index := CloseGoal(st.goals[index], status, child.updatedAt, child.state)];
    if child.state == AwaitingReview then
      var goals := close(Completed);
      if index + 1 == |goals| then st.(phase := PackAwaitingReview, current := None, goals := goals)
      else st.(phase := PackRunning, current := Some(index + 1),
               goals := goals[index + 1 := goals[index + 1].(status := Active, activatedAt := Some(now))])
    else if child.state == Blocked then
      st.(phase := PackBlocked, current := None, goals := close(GoalBlocked),
          terminalReason := Some(if Get(child.fields, TerminalReason) == Str("budget-limited") then "budget-limited" else "goal-blocked"))
    else
      st.(phase := PackAbandoned, current := None, goals := close(GoalAbandoned),
          terminalReason := Some(if Get(child.fields, TerminalReason) == Str("budget-limited") then "budget-limited" else "abandoned"))
  }

  function StoppedState(st: PackState, index: nat, now: int, abandoned: bool): PackState
    requires index < |st.goals|
  {
    if abandoned then
      st.(phase := PackAbandoned, current := None, terminalReason := Some("abandoned"),
          goals := st.goals[index := CloseGoal(st.goals[index], GoalAbandoned, now, Abandoned)])
    else
      st.(phase := PackBlocked, current := None, terminalReason := Some("budget-limited"),
          goals := st.goals[index := CloseGoal(st.goals[index], GoalBlocked, now, Blocked)])
  }

  // ---------------------------------------------------------------- calls

  function OnChild(p: Pack, i: nat, m: Mission): Pack
    requires i < |p.children|
  {
    p.(children := p.children[i := m])
  }

  function Lift(p: Pack, i: nat, trace: seq<Mission>): (packs: seq<Pack>)
    requires i < |p.children|
    ensures |packs| == |trace|
  {
    seq(|trace|, k requires 0 <= k < |trace| => OnChild(p, i, trace[k]))
  }

  function AfterTrace(trace: seq<Pack>, rest: PackEffect): PackEffect { PackEffect(trace + rest.trace, rest.reply) }

  /** A child's call, answered to the pack's caller. */
  ghost function ChildCall(p: Pack, i: nat, st: PackState, e: Host.Effect): PackEffect
    requires i < |p.children|
  {
    PackEffect(Lift(p, i, e.trace), if e.reply.Ok? then Ok(FromChild(e.reply.value, st)) else Err(ChildFailed(e.reply.error)))
  }

  /** The active goal's turn: leave the authorized phase, then ask the child for its next action. */
  ghost function DriveChild(h: PackSchemas, p: Pack, i: nat, st: PackState, now: int, at: int): PackEffect
    requires i < |p.children|
  {
    if st.phase != PackAuthorized then ChildCall(p, i, st, Host.Next(h.host, p.children[i], now, at))
    else
      var save := Save(h, p, st.(phase := PackRunning), now, (s: PackState) => PackTerminal(s));
      if save.reply.Err? then save
      else
        var saved := save.trace[|save.trace| - 1];
        AfterTrace(save.trace, ChildCall(saved, i, save.reply.value.state, Host.Next(h.host, p.children[i], now, at)))
  }

  /** Blocks on the deadline, or starts (again) the active child with its derived contracts and drives it. */
  ghost function DriveActive(h: PackSchemas, p: Pack, i: nat, st: PackState, now: int, at: int): PackEffect
    requires i < |p.children| && i < |st.goals| && p.contracts.Some?
  {
    var g := st.goals[i];
    if now >= st.deadlineAt then Save(h, p, StoppedState(st, i, now, false), now, (s: PackState) => PackTerminal(s))
    else match DerivedContracts(h, p.contracts.value, st, g)
      case Err(e) => PackEffect([p], Err(e))
      case Ok(c) =>
        var start := Host.Start(h.host, p.children[i], c, g.activatedAt.value, at);
        if start.reply.Err? then ChildCall(p, i, st, start)
        else AfterTrace(Lift(p, i, start.trace), DriveChild(h, OnChild(p, i, Host.Final(start)), i, st, now, at))
  }

  ghost function NextGoal(h: PackSchemas, p: Pack, i: nat, st: PackState, now: int, at: int): PackEffect
    requires i < |p.children| && i < |st.goals| && p.contracts.Some?
  {
    var child := p.children[i];
    if child.store.state.None? then DriveActive(h, p, i, st, now, at)
    else match MissionHistory.Repaired(h.host.store, child.store)
      case Err(_) => PackEffect([p], Err(ChildStoreFailed))
      case Ok(d) =>
        var repaired := OnChild(p, i, Host.Settled(h.host, child));
        AfterTrace([p], if ChildTerminal(d.state)
                        then Save(h, repaired, FinishedState(st, i, d, now), now,
                                  (s: PackState) => if TerminalPhase(s.phase) then PackTerminal(s) else GoalAdvanced(s))
                        else DriveActive(h, repaired, i, st, now, at))
  }

  ghost function PackNext(h: PackSchemas, p: Pack, now: int, at: int): PackEffect {
    if !Loads(h, p) || |p.children| != |p.state.value.goals| then PackEffect([p], Err(StateRejected))
    else
      var st := p.state.value;
      if TerminalPhase(st.phase) then PackEffect([p], Ok(PackTerminal(st)))
      else NextGoal(h, p, st.current.value, st, now, at)
  }

  ghost function PackRecord(h: PackSchemas, p: Pack, r: Receipt, at: int): PackEffect {
    if !Loads(h, p) || |p.children| != |p.state.value.goals| then PackEffect([p], Err(StateRejected))
    else
      var st := p.state.value;
      if TerminalPhase(st.phase) then PackEffect([p], Err(AlreadyTerminal))
      else if r.key.missionId != st.goals[st.current.value].binding.identity.missionId then PackEffect([p], Err(ForeignReceipt))
      else if p.children[st.current.value].store.state.None? then PackEffect([p], Err(NotStarted))
      else ChildCall(p, st.current.value, st, Host.Record(h.host, p.children[st.current.value], r, at))
  }

  ghost function PackAbandon(h: PackSchemas, p: Pack, now: int, at: int): PackEffect {
    if !Loads(h, p) || |p.children| != |p.state.value.goals| then PackEffect([p], Err(StateRejected))
    else
      var st := p.state.value;
      if TerminalPhase(st.phase) then PackEffect([p], Err(AlreadyTerminal))
      else
        var i := st.current.value;
        if p.children[i].store.state.None? then Save(h, p, StoppedState(st, i, now, true), now, (s: PackState) => PackTerminal(s))
        else
          var abandon := Host.Abandon(h.host, p.children[i], at);
          if abandon.reply.Err? then ChildCall(p, i, st, abandon)
          else AfterTrace(Lift(p, i, abandon.trace),
                          Save(h, OnChild(p, i, Host.Final(abandon)), StoppedState(st, i, now, true), now, (s: PackState) => PackTerminal(s)))
  }

  function PackBound(p: Pack, c: PackContracts): Pack { p.(draft := [], contracts := Some(c)) }

  /** `_write_contract`, file by file: those already there are left, the others are written in order. */
  function PackContractTrace(p: Pack, c: PackContracts): (trace: seq<Pack>)
    requires PackPapersOf(p) <= PackPapers(c)
    ensures |trace| > 0 && trace[0] == p && trace[|trace| - 1] == PackBound(p, c)
  {
    var last := |PackPapers(c)| - 1;
    var missing := if p.contracts.Some? || |p.draft| >= last then 0 else last - |p.draft|;
    [p] + seq(missing, i requires 0 <= i < missing => p.(draft := PackPapers(c)[..|p.draft| + 1 + i])) + [PackBound(p, c)]
  }

  /** `start`: every contract file is written once, an existing state is only checked. */
  function PackStart(h: PackSchemas, p: Pack, c: PackContracts, now: int): PackEffect {
    if !PackContractsValid(h, c) then PackEffect([p], Err(ContractsRejected))
    else if !(PackPapersOf(p) <= PackPapers(c)) then PackEffect([p], Err(ContractDrifted))
    else
      var bound := PackBound(p, c);
      AfterTrace(PackContractTrace(p, c),
        if p.state.Some? then PackEffect([bound], if Loads(h, bound) then Ok(PackStarted(p.state.value)) else Err(IdentityDrifted))
        else
          var initial := InitialPackState(c, now);
          if !StateOk(h, initial) then PackEffect([bound], Err(SaveRejected))
          else PackEffect([bound, bound.(state := Some(initial), children := seq(|c.bindings|, i => NoMission))], Ok(PackStarted(initial))))
  }
}
