/** What `next` does to a goal pack, case by case, on every pack that a run can reach. */
module GoalPackTurns {
  import opened Wrappers
  import opened MissionState
  import MissionHistory
  import opened HostDocuments
  import Host = HostMission
  import Laws = HostMissionLaws
  import Runs = HostMissionRuns
  import Birth = HostMissionBirth
  import opened GoalPack
  import opened GoalPackLaws
  import opened GoalPackRuns

  // ---------------------------------------------------------------- the states a pack goes to

  /** One revision later, with the same identity, deadline and number of goals; goals other than `k` and `next` as they were. */
  ghost predicate Later(st: PackState, st': PackState, now: int, k: nat, next: nat) {
    && st'.packId == st.packId && st'.authorizationId == st.authorizationId
    && st'.deadlineAt == st.deadlineAt && st'.createdAt == st.createdAt
    && st'.revision == st.revision + 1 && st'.updatedAt == now && |st'.goals| == |st.goals|
    && forall i :: 0 <= i < |st.goals| && i != k && i != next ==> st'.goals[i] == st.goals[i]
  }

  /** Goal `k` has ended, at a time and in a state of its mission; its binding and activation stay. */
  ghost predicate Ended(st: PackState, st': PackState, k: nat, status: GoalStatus, at: int, final: State) {
    && k < |st.goals| && k < |st'.goals|
    && st'.goals[k] == Goal(st.goals[k].position, st.goals[k].binding, status, st.goals[k].activatedAt, Some(at), Some(final))
  }

  function Reason(child: Document, otherwise: string): Option<string> {
    if Get(child.fields, TerminalReason) == Str("budget-limited") then Some("budget-limited") else Some(otherwise)
  }

  /** The mission of goal `k` has come to its end `d`. */
  ghost predicate Closes(st: PackState, k: nat, d: Document, now: int, st': PackState) {
    || (&& d.state == AwaitingReview && k + 1 == |st.goals| && Later(st, st', now, k, k)
        && Ended(st, st', k, Completed, d.updatedAt, AwaitingReview)
        && st'.phase == PackAwaitingReview && st'.current == None && st'.terminalReason == st.terminalReason)
    || (&& d.state == AwaitingReview && k + 1 < |st.goals| && Later(st, st', now, k, k + 1)
        && Ended(st, st', k, Completed, d.updatedAt, AwaitingReview)
        && st'.goals[k + 1] == st.goals[k + 1].(status := Active, activatedAt := Some(now))
        && st'.phase == PackRunning && st'.current == Some(k + 1) && st'.terminalReason == st.terminalReason)
    || (&& d.state == Blocked && Later(st, st', now, k, k) && Ended(st, st', k, GoalBlocked, d.updatedAt, Blocked)
        && st'.phase == PackBlocked && st'.current == None && st'.terminalReason == Reason(d, "goal-blocked"))
    || (&& d.state == Abandoned && Later(st, st', now, k, k) && Ended(st, st', k, GoalAbandoned, d.updatedAt, Abandoned)
        && st'.phase == PackAbandoned && st'.current == None && st'.terminalReason == Reason(d, "abandoned"))
  }

  /** The pack has run out of time with goal `k` active. */
  ghost predicate TimesOut(st: PackState, k: nat, now: int, st': PackState) {
    && Later(st, st', now, k, k) && Ended(st, st', k, GoalBlocked, now, Blocked)
    && st'.phase == PackBlocked && st'.current == None && st'.terminalReason == Some("budget-limited")
  }

  /** The pack was given up with goal `k` active. */
  ghost predicate GivesUp(st: PackState, k: nat, now: int, st': PackState) {
    && Later(st, st', now, k, k) && Ended(st, st', k, GoalAbandoned, now, Abandoned)
    && st'.phase == PackAbandoned && st'.current == None && st'.terminalReason == Some("abandoned")
  }

  function Stamped(st: PackState, now: int): PackState { st.(revision := st.revision + 1, updatedAt := now) }

  lemma ClosesExactly(st: PackState, k: nat, d: Document, now: int, st': PackState)
    requires k < |st.goals| && ChildTerminal(d.state)
    ensures Closes(st, k, d, now, st') <==> st' == Stamped(FinishedState(st, k, d, now), now)
  {
    var finished := Stamped(FinishedState(st, k, d, now), now);
    if Closes(st, k, d, now, st') {
      assert forall i :: 0 <= i < |st.goals| ==> st'.goals[i] == finished.goals[i];
      assert st'.goals == finished.goals;
    }
  }

  lemma TimesOutExactly(st: PackState, k: nat, now: int, st': PackState)
    requires k < |st.goals|
    ensures TimesOut(st, k, now, st') <==> st' == Stamped(StoppedState(st, k, now, false), now)
    ensures GivesUp(st, k, now, st') <==> st' == Stamped(StoppedState(st, k, now, true), now)
  {
    var blocked, abandoned := Stamped(StoppedState(st, k, now, false), now), Stamped(StoppedState(st, k, now, true), now);
    if TimesOut(st, k, now, st') { assert st'.goals == blocked.goals; }
    if GivesUp(st, k, now, st') { assert st'.goals == abandoned.goals; }
  }

  // ---------------------------------------------------------------- what a state is checked for

  /** A goal has ended exactly if it has an end, and in the final state of its status; it is active only with an activation. */
  ghost predicate SoundGoal(g: Goal, position: int) {
    && g.position == position && (g.completedAt.Some? <==> g.status != Queued && g.status != Active)
    && (g.status == Queued ==> g.activatedAt == None) && (g.status == Active ==> g.activatedAt != None)
    && g.finalState == (match g.status
                        case Queued => None case Active => None
                        case Completed => Some(AwaitingReview) case GoalBlocked => Some(Blocked) case GoalAbandoned => Some(Abandoned))
  }

  ghost predicate SoundGoals(goals: seq<Goal>) { forall i :: 0 <= i < |goals| ==> SoundGoal(goals[i], i + 1) }

  ghost predicate DifferentGoals(goals: seq<Goal>) {
    forall i, j :: 0 <= i < j < |goals| ==>
      var a, b := goals[i].binding.identity, goals[j].binding.identity;
      a.missionId != b.missionId && a.bindingId != b.bindingId && a.goalId != b.goalId
  }

  /** The state points at its one active goal, or has ended and has none. */
  ghost predicate SoundPointer(st: PackState) {
    && (st.phase in {PackAwaitingReview, PackBlocked, PackAbandoned} ==> st.current == None && forall i :: 0 <= i < |st.goals| ==> st.goals[i].status != Active)
    && (st.phase == PackAwaitingReview ==> forall i :: 0 <= i < |st.goals| ==> st.goals[i].status == Completed)
    && (st.phase in {PackAuthorized, PackRunning} ==>
          && st.current.Some? && st.current.value < |st.goals|
          && forall i :: 0 <= i < |st.goals| ==> (st.goals[i].status == Active <==> i == st.current.value))
  }

  /** A queue of numbered, different goals, and its pointer. */
  ghost predicate SoundQueue(st: PackState) { SoundGoals(st.goals) && DifferentGoals(st.goals) && SoundPointer(st) }

  lemma GoalExactly(g: Goal, position: int)
    ensures GoalConsistent(g) && g.position == position <==> SoundGoal(g, position)
  {}

  lemma GoalsExactly(goals: seq<Goal>)
    ensures (forall i :: 0 <= i < |goals| ==> goals[i].position == i + 1) && (forall i :: 0 <= i < |goals| ==> GoalConsistent(goals[i])) <==> SoundGoals(goals)
  {
    hide GoalConsistent, SoundGoal;
    if SoundGoals(goals) {
      forall i | 0 <= i < |goals| ensures goals[i].position == i + 1 && GoalConsistent(goals[i]) { GoalExactly(goals[i], i + 1); }
    } else {
      var i :| 0 <= i < |goals| && !SoundGoal(goals[i], i + 1);
      GoalExactly(goals[i], i + 1);
    }
  }

  lemma PointerExactly(st: PackState)
    ensures SoundPointer(st) <==>
              && (if TerminalPhase(st.phase) then st.current.None? && forall i :: 0 <= i < |st.goals| ==> st.goals[i].status != Active
                  else st.current.Some? && st.current.value < |st.goals| && OnlyActive(st.goals, st.current.value))
              && (st.phase == PackAwaitingReview ==> forall i :: 0 <= i < |st.goals| ==> st.goals[i].status == Completed)
  {}

  /** The structural check of a state passes exactly on a sound queue. */
  lemma StructureExactly(st: PackState)
    ensures StructureOk(st) <==> SoundQueue(st)
  {
    GoalsExactly(st.goals);
    forall bindings: seq<Binding> | |bindings| == |st.goals| && forall i :: 0 <= i < |bindings| ==> bindings[i] == st.goals[i].binding
      ensures DistinctGoals(bindings) <==> DifferentGoals(st.goals)
    {
      DistinctExactly(st.goals, bindings);
    }
    PointerExactly(st);
    hide GoalConsistent, SoundGoals, DifferentGoals, DistinctGoals, SoundPointer, OnlyActive, TerminalPhase;
  }

  lemma DistinctExactly(goals: seq<Goal>, bindings: seq<Binding>)
    requires |bindings| == |goals| && forall i :: 0 <= i < |bindings| ==> bindings[i] == goals[i].binding
    ensures DistinctGoals(bindings) <==> DifferentGoals(goals)
  {}

  /** A pack loads exactly if its state is accepted, sound, and the authorized one: same ids, deadline and bindings, in order. */
  lemma LoadsExactly(h: PackSchemas, p: Pack)
    ensures Loads(h, p) <==>
              && p.contracts.Some? && p.state.Some?
              && var a, st := p.contracts.value.authorization, p.state.value;
                 && h.state(st) && SoundQueue(st) && st.packId == a.packId && st.authorizationId == a.authorizationId
                 && st.deadlineAt == st.createdAt + a.wallSeconds * 1_000_000
                 && |a.bindings| == |st.goals| && forall i :: 0 <= i < |st.goals| ==> a.bindings[i] == st.goals[i].binding
  {
    if p.state.Some? { StructureExactly(p.state.value); }
    hide StructureOk, SoundQueue;
  }

  // ---------------------------------------------------------------- saving

  /** A save of a well-shaped state succeeds exactly when the schema accepts it. */
  lemma SaveExactly(h: PackSchemas, p: Pack, st: PackState, now: int, reply: PackState -> PackReply)
    requires PackInvariant(h, p) && p.contracts.Some? && Authentic(p.contracts.value, st) && Shaped(st)
    ensures Save(h, p, st, now, reply) == if h.state(Stamped(st, now)) then PackEffect([p, p.(state := Some(Stamped(st, now)))], Ok(reply(Stamped(st, now))))
                                          else PackEffect([p], Err(SaveRejected))
  {
    hide Authentic, Shaped, PackInvariant, StructureOk;
    PackIsBound(h, p);
    SavedStateFits(h, p.contracts.value, st, now);
  }

  function End(e: PackEffect): Pack
    requires |e.trace| > 0
  {
    e.trace[|e.trace| - 1]
  }

  /** The pack with its active child repaired. */
  ghost function Mended(h: PackSchemas, p: Pack, k: nat): Pack
    requires k < |p.children|
  {
    OnChild(p, k, Host.Settled(h.host, p.children[k]))
  }

  /** The active goal's mission has come to an end. */
  ghost predicate ChildEnded(h: PackSchemas, m: Mission) {
    && m.store.state.Some? && Laws.Current(h.host, m).Some?
    && Laws.Current(h.host, m).value.state in {AwaitingReview, Blocked, Abandoned}
  }

  lemma MendedChild(h: PackSchemas, p: Pack, k: nat)
    requires ActiveChild(h, p, k)
    ensures ActiveChild(h, Mended(h, p, k), k) && Mended(h, p, k).state == p.state && Mended(h, p, k).contracts == p.contracts
    ensures p.children[k].store.state.None? ==> Mended(h, p, k) == p
    ensures p.children[k].store.state.Some? ==>
              && MissionHistory.Repaired(h.host.store, p.children[k].store).Ok?
              && Laws.Current(h.host, p.children[k]) == Some(MissionHistory.Repaired(h.host.store, p.children[k].store).value)
  {
    if p.children[k].store.state.Some? {
      RepairedChild(h, p, k);
      Laws.SettledFacts(h.host, p.children[k]);
      hide ActiveChild, Laws.Invariant;
    } else {
      Unrepaired(h.host, p.children[k]);
      assert p.children[k := p.children[k]] == p.children;
      hide ActiveChild;
    }
  }

  lemma Unrepaired(h: HostSchemas, m: Mission)
    requires m.store.state.None?
    ensures Host.Settled(h, m) == m
  {}

  // ---------------------------------------------------------------- the four turns

  lemma TurnShape(h: PackSchemas, p: Pack, now: int, at: int)
    requires PackInvariant(h, p) && p.state.Some? && !TerminalPhase(p.state.value.phase)
    ensures p.state.value.current.Some? && ActiveChild(h, p, p.state.value.current.value)
    ensures PackNext(h, p, now, at) == NextGoal(h, p, p.state.value.current.value, p.state.value, now, at)
  {
    hide PackInvariant, ActiveChild, Loads, NextGoal;
    AgreedPackLoads(h, p);
    ActivePack(h, p);
  }

  /** A pack at rest is answered for as it is. */
  lemma RestingTurn(h: PackSchemas, p: Pack, now: int, at: int)
    requires PackInvariant(h, p) && p.state.Some? && p.state.value.phase in {PackAwaitingReview, PackBlocked, PackAbandoned}
    ensures PackNext(h, p, now, at) == PackEffect([p], Ok(PackTerminal(p.state.value)))
  {
    hide PackInvariant, Loads;
    AgreedPackLoads(h, p);
  }

  /** The active goal's mission has ended: the goal is closed with it, whatever the time. */
  lemma ClosingTurn(h: PackSchemas, p: Pack, now: int, at: int)
    requires PackInvariant(h, p) && p.state.Some? && !TerminalPhase(p.state.value.phase)
    requires p.state.value.current.Some? && p.state.value.current.value < |p.children| && ChildEnded(h, p.children[p.state.value.current.value])
    ensures var e, st, k := PackNext(h, p, now, at), p.state.value, p.state.value.current.value;
            var d := Laws.Current(h.host, p.children[k]).value;
            && |e.trace| > 0
            && (e.reply.Ok? <==> exists st' :: Closes(st, k, d, now, st') && h.state(st'))
            && (e.reply.Ok? ==>
                  && End(e).state.Some? && Closes(st, k, d, now, End(e).state.value) && End(e) == Mended(h, p, k).(state := End(e).state)
                  && e.reply == Ok(if End(e).state.value.phase == PackRunning then GoalAdvanced(End(e).state.value) else PackTerminal(End(e).state.value)))
            && (e.reply.Err? ==> End(e) == Mended(h, p, k))
  {
    hide PackNext, PackInvariant, ActiveChild, Closes, FinishedState, Laws.Current, Mended, TerminalPhase;
    ClosingSaves(h, p, now, at);
    var st, k := p.state.value, p.state.value.current.value;
    var d := Laws.Current(h.host, p.children[k]).value;
    forall st' ensures Closes(st, k, d, now, st') <==> st' == Stamped(FinishedState(st, k, d, now), now) { ClosesExactly(st, k, d, now, st'); }
  }

  /** The call ends by saving `saved` on `base`, if the schema accepts it. */
  ghost predicate EndsBySaving(h: PackSchemas, e: PackEffect, base: Pack, saved: PackState, reply: PackReply) {
    |e.trace| > 0 && if h.state(saved) then e.reply == Ok(reply) && End(e) == base.(state := Some(saved)) else e.reply.Err? && End(e) == base
  }

  lemma ClosingSaves(h: PackSchemas, p: Pack, now: int, at: int)
    requires PackInvariant(h, p) && p.state.Some? && !TerminalPhase(p.state.value.phase)
    requires p.state.value.current.Some? && p.state.value.current.value < |p.children| && ChildEnded(h, p.children[p.state.value.current.value])
    ensures var st, k := p.state.value, p.state.value.current.value;
            var d := Laws.Current(h.host, p.children[k]).value;
            && k < |st.goals| && ChildTerminal(d.state)
            && var closed := Stamped(FinishedState(st, k, d, now), now);
               EndsBySaving(h, PackNext(h, p, now, at), Mended(h, p, k), closed, if closed.phase == PackRunning then GoalAdvanced(closed) else PackTerminal(closed))
  {
    hide PackNext, PackInvariant, ActiveChild, FinishedState, Laws.Current, DriveActive, Save, MissionHistory.Repaired, TerminalPhase;
    TurnShape(h, p, now, at);
    var st, k := p.state.value, p.state.value.current.value;
    MendedChild(h, p, k);
    ActiveIndex(h, p, k);
    FinishingSave(h, Mended(h, p, k), k, Laws.Current(h.host, p.children[k]).value, now);
  }

  lemma ActiveIndex(h: PackSchemas, p: Pack, k: nat)
    requires ActiveChild(h, p, k)
    ensures p.state.Some? && k < |p.state.value.goals| && k < |p.children| && p.contracts.Some? && PackInvariant(h, p)
  {
    hide PackInvariant;
  }

  lemma FinishingSave(h: PackSchemas, p: Pack, k: nat, d: Document, now: int)
    requires ActiveChild(h, p, k) && ChildTerminal(d.state)
    ensures var closed := Stamped(FinishedState(p.state.value, k, d, now), now);
            Save(h, p, FinishedState(p.state.value, k, d, now), now, (s: PackState) => if TerminalPhase(s.phase) then PackTerminal(s) else GoalAdvanced(s))
            == if h.state(closed) then PackEffect([p, p.(state := Some(closed))],
                                                  Ok(if closed.phase == PackRunning then GoalAdvanced(closed) else PackTerminal(closed)))
               else PackEffect([p], Err(SaveRejected))
  {
    FinishedShape(p.contracts.value, p.state.value, k, d, now);
    hide PackInvariant, ChildOk, Authentic, Shaped, Save;
    SaveExactly(h, p, FinishedState(p.state.value, k, d, now), now, (s: PackState) => if TerminalPhase(s.phase) then PackTerminal(s) else GoalAdvanced(s));
  }

  /** The rest of a turn whose goal's mission has not ended. */
  lemma DrivingShape(h: PackSchemas, p: Pack, now: int, at: int)
    requires PackInvariant(h, p) && p.state.Some? && !TerminalPhase(p.state.value.phase)
    requires p.state.value.current.Some? && p.state.value.current.value < |p.children| && !ChildEnded(h, p.children[p.state.value.current.value])
    ensures var e, st, k := PackNext(h, p, now, at), p.state.value, p.state.value.current.value;
            && ActiveChild(h, Mended(h, p, k), k) && p.contracts.Some? && k < |st.goals| && Mended(h, p, k).contracts == p.contracts
            && Mended(h, p, k).state == p.state
            && var rest := DriveActive(h, Mended(h, p, k), k, st, now, at);
               e == (if p.children[k].store.state.None? then rest else AfterTrace([p], rest))
  {
    TurnShape(h, p, now, at);
    var k := p.state.value.current.value;
    MendedChild(h, p, k);
    ActiveIndex(h, p, k);
    hide PackNext, ActiveChild, Laws.Current, DriveActive, Save, MissionHistory.Repaired, PackInvariant, FinishedState;
    if p.children[k].store.state.Some? { assert !ChildTerminal(Laws.Current(h.host, p.children[k]).value.state); }
  }

  /**
    Time is up and the active goal's mission, if it was started at all, has not ended: goal and pack
    are blocked for the budget and the mission is only repaired, unless the schema refuses that state.
  */
  lemma TimedOutTurn(h: PackSchemas, p: Pack, now: int, at: int)
    requires PackInvariant(h, p) && p.state.Some? && !TerminalPhase(p.state.value.phase)
    requires p.state.value.current.Some? && p.state.value.current.value < |p.children| && !ChildEnded(h, p.children[p.state.value.current.value])
    requires now >= p.state.value.deadlineAt
    ensures var e, st, k := PackNext(h, p, now, at), p.state.value, p.state.value.current.value;
            && |e.trace| > 0
            && (e.reply.Ok? <==> exists st' :: TimesOut(st, k, now, st') && h.state(st'))
            && (e.reply.Ok? ==>
                  && End(e).state.Some? && TimesOut(st, k, now, End(e).state.value) && End(e) == Mended(h, p, k).(state := End(e).state)
                  && e.reply == Ok(PackTerminal(End(e).state.value)))
            && (e.reply.Err? ==> End(e) == Mended(h, p, k))
  {
    hide PackNext, PackInvariant, ActiveChild, TimesOut, StoppedState, Laws.Current, Save, ChildEnded, Mended, DerivedContracts, DriveChild, Host.Start, TerminalPhase;
    var st, k := p.state.value, p.state.value.current.value;
    DrivingShape(h, p, now, at);
    StoppingSave(h, Mended(h, p, k), k, now, false);
    forall st' ensures TimesOut(st, k, now, st') <==> st' == Stamped(StoppedState(st, k, now, false), now) { TimesOutExactly(st, k, now, st'); }
  }

  lemma StoppingSave(h: PackSchemas, p: Pack, k: nat, now: int, abandoned: bool)
    requires ActiveChild(h, p, k)
    ensures var stopped := Stamped(StoppedState(p.state.value, k, now, abandoned), now);
            Save(h, p, StoppedState(p.state.value, k, now, abandoned), now, (s: PackState) => PackTerminal(s))
            == if h.state(stopped) then PackEffect([p, p.(state := Some(stopped))], Ok(PackTerminal(stopped))) else PackEffect([p], Err(SaveRejected))
  {
    StoppedShape(p.contracts.value, p.state.value, k, now, abandoned);
    hide PackInvariant, ChildOk, Authentic, Shaped, Save;
    SaveExactly(h, p, StoppedState(p.state.value, k, now, abandoned), now, (s: PackState) => PackTerminal(s));
  }

  // ---------------------------------------------------------------- before the deadline

  /** The contracts of goal `g`: its own binding and limits, and the whole seconds that were left when it was activated. */
  ghost predicate Grants(h: PackSchemas, c: PackContracts, st: PackState, g: Goal, granted: Contracts) {
    && g.activatedAt.Some?
    && granted.binding == g.binding && granted.boundary == c.boundary && granted.protection == c.protection
    && var a, left := granted.authorization, st.deadlineAt - g.activatedAt.value;
       && a.authorizationId == h.childId(c.authorization.authorizationId, g.binding.identity.bindingId)
       && a.missionId == g.binding.identity.missionId && a.bindingId == g.binding.identity.bindingId
       && a.baseCommit == g.binding.identity.baseCommit && a.goals == 1 && a.rest == h.childRest(c.authorization, g.binding)
       && a.attempts == (if c.authorization.attemptsPerGoal < g.binding.attempts then c.authorization.attemptsPerGoal else g.binding.attempts)
       && left >= 1_000_000
       && ((a.wallSeconds == g.binding.wallSeconds && g.binding.wallSeconds * 1_000_000 <= left)
           || (a.wallSeconds < g.binding.wallSeconds && a.wallSeconds * 1_000_000 <= left < (a.wallSeconds + 1) * 1_000_000))
  }

  lemma WholeSecondsAre(micros: int, n: int)
    requires micros >= 0
    ensures n <= WholeSeconds(micros) <==> n * 1_000_000 <= micros
  {}

  /** A goal gets contracts exactly when it was activated with a second left, and exactly these. */
  lemma DerivedExactly(h: PackSchemas, c: PackContracts, st: PackState, g: Goal, granted: Contracts)
    ensures DerivedContracts(h, c, st, g) == Ok(granted) <==> Grants(h, c, st, g, granted)
    ensures DerivedContracts(h, c, st, g).Ok? <==> g.activatedAt.Some? && st.deadlineAt - g.activatedAt.value >= 1_000_000
  {
    if g.activatedAt.Some? && st.deadlineAt - g.activatedAt.value >= 0 {
      var left := st.deadlineAt - g.activatedAt.value;
      WholeSecondsAre(left, 1);
      WholeSecondsAre(left, g.binding.wallSeconds);
      WholeSecondsAre(left, granted.authorization.wallSeconds);
      WholeSecondsAre(left, granted.authorization.wallSeconds + 1);
    }
  }

  /** The pack goes on with the goal it was on; nothing of the queue has changed. */
  ghost predicate GoesOn(st: PackState, st': PackState) {
    && st'.goals == st.goals && st'.current == st.current && st'.terminalReason == st.terminalReason && st'.deadlineAt == st.deadlineAt
    && (st'.phase == st.phase || st'.phase == PackRunning) && st'.packId == st.packId && st'.authorizationId == st.authorizationId
  }

  ghost predicate EveryGoesOn(st: PackState, trace: seq<Pack>) {
    forall i :: 0 <= i < |trace| ==> trace[i].state.Some? && GoesOn(st, trace[i].state.value)
  }

  /** The start of the active goal's mission, or its repetition. */
  ghost function StartOf(h: PackSchemas, p: Pack, k: nat, granted: Contracts, at: int): (e: Host.Effect)
    requires p.state.Some? && k < |p.children| && k < |p.state.value.goals| && p.state.value.goals[k].activatedAt.Some?
    ensures |e.trace| > 0
  {
    Host.Start(h.host, p.children[k], granted, p.state.value.goals[k].activatedAt.value, at)
  }

  /** The state a pack answers with once its first goal is driven: running, one revision later only if it was not before. */
  function Running(st: PackState, now: int): PackState {
    if st.phase == PackAuthorized then Stamped(st.(phase := PackRunning), now) else st
  }

  /** Goal `k` was granted its contracts, its mission started under them and asked, and the pack's state was accepted. */
  ghost predicate Answers(h: PackSchemas, p: Pack, k: nat, granted: Contracts, now: int, at: int)
    requires p.state.Some? && p.contracts.Some? && k < |p.children| && k < |p.state.value.goals|
  {
    && Grants(h, p.contracts.value, p.state.value, p.state.value.goals[k], granted)
    && StartOf(h, p, k, granted, at).reply.Ok?
    && (p.state.value.phase == PackAuthorized ==> h.state(Running(p.state.value, now)))
    && Host.Next(h.host, Host.Final(StartOf(h, p, k, granted, at)), now, at).reply.Ok?
  }

  /** It answers what the mission does, and leaves what the mission leaves. */
  ghost predicate AnsweredBy(p: Pack, k: nat, asked: Host.Effect, now: int, e: PackEffect)
    requires p.state.Some? && k < |p.children| && |asked.trace| > 0
  {
    && asked.reply.Ok? && e.reply == Ok(FromChild(asked.reply.value, Running(p.state.value, now)))
    && |e.trace| > 0 && End(e) == p.(state := Some(Running(p.state.value, now)), children := p.children[k := Host.Final(asked)])
  }

  lemma LiftGoesOn(p: Pack, k: nat, st: PackState, trace: seq<Mission>)
    requires k < |p.children| && p.state.Some? && GoesOn(st, p.state.value)
    ensures EveryGoesOn(st, Lift(p, k, trace))
  {}

  lemma AfterGoesOn(st: PackState, trace: seq<Pack>, rest: PackEffect)
    requires EveryGoesOn(st, trace) && EveryGoesOn(st, rest.trace)
    ensures EveryGoesOn(st, AfterTrace(trace, rest).trace)
  {}

  /** Before the deadline nothing that `next` does or leaves blocks the pack, or touches its queue. */
  lemma DriveGoesOn(h: PackSchemas, p: Pack, k: nat, now: int, at: int)
    requires p.state.Some? && p.contracts.Some? && k < |p.children| && k < |p.state.value.goals| && now < p.state.value.deadlineAt
    ensures EveryGoesOn(p.state.value, DriveActive(h, p, k, p.state.value, now, at).trace)
  {
    var st := p.state.value;
    hide Host.Start, Host.Next, StateOk;
    var derived := DerivedContracts(h, p.contracts.value, st, st.goals[k]);
    if derived.Ok? {
      var start := Host.Start(h.host, p.children[k], derived.value, st.goals[k].activatedAt.value, at);
      LiftGoesOn(p, k, st, start.trace);
      if start.reply.Ok? {
        DriveChildGoesOn(h, OnChild(p, k, Host.Final(start)), k, now, at);
        AfterGoesOn(st, Lift(p, k, start.trace), DriveChild(h, OnChild(p, k, Host.Final(start)), k, st, now, at));
      }
    }
  }

  lemma DriveChildGoesOn(h: PackSchemas, p: Pack, k: nat, now: int, at: int)
    requires p.state.Some? && k < |p.children|
    ensures EveryGoesOn(p.state.value, DriveChild(h, p, k, p.state.value, now, at).trace)
  {
    hide Host.Next, StateOk;
    var asked, st := Host.Next(h.host, p.children[k], now, at), p.state.value;
    LiftGoesOn(p, k, st, asked.trace);
    var save := Save(h, p, st.(phase := PackRunning), now, (s: PackState) => PackTerminal(s));
    if st.phase == PackAuthorized && save.reply.Ok? {
      var saved := save.trace[|save.trace| - 1];
      LiftGoesOn(saved, k, st, asked.trace);
      AfterGoesOn(st, save.trace, ChildCall(saved, k, save.reply.value.state, asked));
    }
  }

  lemma RunningSave(h: PackSchemas, p: Pack, k: nat, now: int)
    requires ActiveChild(h, p, k)
    ensures var running := Stamped(p.state.value.(phase := PackRunning), now);
            Save(h, p, p.state.value.(phase := PackRunning), now, (s: PackState) => PackTerminal(s))
            == if h.state(running) then PackEffect([p, p.(state := Some(running))], Ok(PackTerminal(running))) else PackEffect([p], Err(SaveRejected))
  {
    RunningShape(p.contracts.value, p.state.value, k);
    hide PackInvariant, ChildOk, Authentic, Shaped, Save;
    SaveExactly(h, p, p.state.value.(phase := PackRunning), now, (s: PackState) => PackTerminal(s));
  }

  lemma DriveChildAnswers(h: PackSchemas, p: Pack, k: nat, now: int, at: int)
    requires ActiveChild(h, p, k)
    ensures p.state.Some? && k < |p.children|
    ensures var e, asked := DriveChild(h, p, k, p.state.value, now, at), Host.Next(h.host, p.children[k], now, at);
            && (e.reply.Ok? <==> asked.reply.Ok? && (p.state.value.phase == PackAuthorized ==> h.state(Running(p.state.value, now))))
            && (e.reply.Ok? ==> AnsweredBy(p, k, asked, now, e))
  {
    hide ActiveChild, Host.Next, Save;
    RunningSave(h, p, k, now);
    ActiveIndex(h, p, k);
  }

  lemma DriveAnswers(h: PackSchemas, p: Pack, k: nat, granted: Contracts, now: int, at: int)
    requires ActiveChild(h, p, k) && now < p.state.value.deadlineAt
    requires DerivedContracts(h, p.contracts.value, p.state.value, p.state.value.goals[k]) == Ok(granted)
    ensures Grants(h, p.contracts.value, p.state.value, p.state.value.goals[k], granted)
    ensures var e, start := DriveActive(h, p, k, p.state.value, now, at), StartOf(h, p, k, granted, at);
            && (e.reply.Ok? <==> Answers(h, p, k, granted, now, at))
            && (e.reply.Ok? ==> AnsweredBy(p, k, Host.Next(h.host, Host.Final(start), now, at), now, e))
  {
    hide ActiveChild, Host.Next, Host.Start, DriveChild, Grants, DerivedContracts, Running;
    ActiveIndex(h, p, k);
    var st := p.state.value;
    DerivedExactly(h, p.contracts.value, st, st.goals[k], granted);
    GrantedIsActivated(h, p.contracts.value, st, st.goals[k], granted);
    var start := StartOf(h, p, k, granted, at);
    if start.reply.Ok? {
      StartedChild(h, p, k, granted, at);
      hide Laws.Invariant, ChildBound;
      OnActiveChild(h, p, k, Host.Final(start));
      DriveChildAnswers(h, OnChild(p, k, Host.Final(start)), k, now, at);
    }
  }

  lemma GrantedIsActivated(h: PackSchemas, c: PackContracts, st: PackState, g: Goal, granted: Contracts)
    requires DerivedContracts(h, c, st, g) == Ok(granted)
    ensures g.activatedAt.Some?
  {}

  /**
    Before the deadline the active goal's mission, repaired and started under the contracts granted to
    its goal, is asked for its next action, and its answer is the pack's.  Whether or not that
    succeeds, no directory left behind has the pack stopped or its queue changed.
  */
  lemma RunningTurn(h: PackSchemas, p: Pack, now: int, at: int)
    requires PackInvariant(h, p) && p.state.Some? && !TerminalPhase(p.state.value.phase)
    requires p.state.value.current.Some? && p.state.value.current.value < |p.children| && !ChildEnded(h, p.children[p.state.value.current.value])
    requires now < p.state.value.deadlineAt
    ensures p.contracts.Some? && p.state.value.current.value < |p.state.value.goals|
    ensures var e, k := PackNext(h, p, now, at), p.state.value.current.value;
            var mended := Mended(h, p, k);
            && EveryGoesOn(p.state.value, e.trace)
            && (e.reply.Ok? <==> exists granted :: Answers(h, mended, k, granted, now, at))
            && (e.reply.Ok? ==> exists granted :: Answers(h, mended, k, granted, now, at)
                                                 && AnsweredBy(mended, k, Host.Next(h.host, Host.Final(StartOf(h, mended, k, granted, at)), now, at), now, e))
  {
    hide PackNext, PackInvariant, ActiveChild, Laws.Current, ChildEnded, Mended, DerivedContracts, DriveActive, Host.Start, Host.Next, TerminalPhase, Running, Grants, GoesOn;
    var st, k := p.state.value, p.state.value.current.value;
    DrivingShape(h, p, now, at);
    var mended, c := Mended(h, p, k), p.contracts.value;
    ActiveIndex(h, mended, k);
    DriveGoesOn(h, mended, k, now, at);
    StaysOn(st);
    var rest, e := DriveActive(h, mended, k, st, now, at), PackNext(h, p, now, at);
    if p.children[k].store.state.Some? { AfterGoesOn(st, [p], rest); }
    var derived := DerivedContracts(h, c, st, st.goals[k]);
    if derived.Ok? {
      DriveAnswers(h, mended, k, derived.value, now, at);
      assert rest.reply.Ok? ==> e.reply == rest.reply && |e.trace| > 0 && End(e) == End(rest);
    } else {
      NothingDerived(h, mended, k, now, at);
    }
    forall granted | Answers(h, mended, k, granted, now, at) ensures derived == Ok(granted) { DerivedExactly(h, c, st, st.goals[k], granted); }
  }

  lemma StaysOn(st: PackState)
    ensures GoesOn(st, st)
  {}

  lemma NothingDerived(h: PackSchemas, p: Pack, k: nat, now: int, at: int)
    requires p.state.Some? && p.contracts.Some? && k < |p.children| && k < |p.state.value.goals| && now < p.state.value.deadlineAt
    requires DerivedContracts(h, p.contracts.value, p.state.value, p.state.value.goals[k]).Err?
    ensures DriveActive(h, p, k, p.state.value, now, at).reply.Err?
  {
    hide DerivedContracts;
  }

  // ---------------------------------------------------------------- record, abandon and start

  /** A receipt goes to the active goal's mission, if it is for it and the mission was started, and nowhere else. */
  lemma RecordTurn(h: PackSchemas, p: Pack, r: Receipt, at: int)
    requires PackInvariant(h, p) && p.state.Some?
    ensures var e, st := PackRecord(h, p, r, at), p.state.value;
            if st.phase in {PackAwaitingReview, PackBlocked, PackAbandoned} then e == PackEffect([p], Err(AlreadyTerminal))
            else
              && st.current.Some? && st.current.value < |st.goals| && st.current.value < |p.children|
              && var k := st.current.value;
                 if r.key.missionId != st.goals[k].binding.identity.missionId then e == PackEffect([p], Err(ForeignReceipt))
                 else if p.children[k].store.state.None? then e == PackEffect([p], Err(NotStarted))
                 else
                   var record := Host.Record(h.host, p.children[k], r, at);
                   && |e.trace| == |record.trace| && (forall i :: 0 <= i < |e.trace| ==> e.trace[i] == p.(children := p.children[k := record.trace[i]]))
                   && e.reply == (if record.reply.Ok? then Ok(FromChild(record.reply.value, st)) else Err(ChildFailed(record.reply.error)))
  {
    hide PackInvariant, ActiveChild, Loads, Host.Record;
    AgreedPackLoads(h, p);
    if !TerminalPhase(p.state.value.phase) {
      ActivePack(h, p);
      ActiveIndex(h, p, p.state.value.current.value);
    }
  }

  /** The active goal's mission, if it was started, is abandoned before the pack is. */
  ghost function LetGo(h: PackSchemas, p: Pack, k: nat, at: int): Pack
    requires k < |p.children|
  {
    if p.children[k].store.state.None? then p else OnChild(p, k, Host.Final(Host.Abandon(h.host, p.children[k], at)))
  }

  /** Abandoning ends the active goal and the pack together, exactly when the mission can be abandoned and the schema accepts the state. */
  lemma AbandonTurn(h: PackSchemas, p: Pack, now: int, at: int)
    requires PackInvariant(h, p) && p.state.Some?
    ensures var e, st := PackAbandon(h, p, now, at), p.state.value;
            if st.phase in {PackAwaitingReview, PackBlocked, PackAbandoned} then e == PackEffect([p], Err(AlreadyTerminal))
            else
              && st.current.Some? && st.current.value < |st.goals| && st.current.value < |p.children|
              && var k := st.current.value;
                 && (e.reply.Ok? <==> && (p.children[k].store.state.Some? ==> Host.Abandon(h.host, p.children[k], at).reply.Ok?)
                                      && exists st' :: GivesUp(st, k, now, st') && h.state(st'))
                 && (e.reply.Ok? ==>
                       && |e.trace| > 0 && End(e).state.Some? && GivesUp(st, k, now, End(e).state.value)
                       && End(e) == LetGo(h, p, k, at).(state := End(e).state) && e.reply == Ok(PackTerminal(End(e).state.value)))
  {
    hide PackInvariant, ActiveChild, Loads, Host.Abandon, GivesUp, StoppedState, Save;
    AgreedPackLoads(h, p);
    if !TerminalPhase(p.state.value.phase) {
      ActivePack(h, p);
      var st, k := p.state.value, p.state.value.current.value;
      ActiveIndex(h, p, k);
      if p.children[k].store.state.Some? { AbandonedChild(h, p, k, at); }
      StoppingSave(h, LetGo(h, p, k, at), k, now, true);
      forall st' ensures GivesUp(st, k, now, st') <==> st' == Stamped(StoppedState(st, k, now, true), now) { TimesOutExactly(st, k, now, st'); }
    }
  }

  /** What the contracts of a pack have to say of each other. */
  ghost predicate PackContractsAgree(h: PackSchemas, c: PackContracts) {
    && h.contracts(c) && 2 <= |c.bindings| <= 20
    && c.authorization.bindings == c.bindings && c.authorization.goals == |c.bindings|
    && (forall i :: 0 <= i < |c.bindings| ==>
          c.bindings[i].identity.baseCommit == c.authorization.baseCommit && c.authorization.attemptsPerGoal <= c.bindings[i].attempts)
    && forall i, j :: 0 <= i < j < |c.bindings| ==>
         && c.bindings[i].identity.missionId != c.bindings[j].identity.missionId
         && c.bindings[i].identity.bindingId != c.bindings[j].identity.bindingId
         && c.bindings[i].identity.goalId != c.bindings[j].identity.goalId
  }

  /** A pack that has just been authorized: its first goal active, every other queued. */
  ghost predicate JustStarted(c: PackContracts, now: int, st: PackState) {
    && st.packId == c.authorization.packId && st.authorizationId == c.authorization.authorizationId
    && st.phase == PackAuthorized && st.revision == 0 && st.current == Some(0) && st.terminalReason == None
    && st.createdAt == now && st.updatedAt == now && st.deadlineAt == now + c.authorization.wallSeconds * 1_000_000
    && |st.goals| == |c.bindings| > 0 && st.goals[0] == Goal(1, c.bindings[0], Active, Some(now), None, None)
    && forall i :: 1 <= i < |st.goals| ==> st.goals[i] == Goal(i + 1, c.bindings[i], Queued, None, None, None)
  }

  lemma InitialExactly(c: PackContracts, now: int, st: PackState)
    requires |c.bindings| > 0
    ensures JustStarted(c, now, st) <==> st == InitialPackState(c, now)
  {
    if JustStarted(c, now, st) { assert st.goals == InitialPackState(c, now).goals; }
  }

  /** The first `start` of a pack: it succeeds exactly when the contracts agree and the schema accepts the queue, and starts no mission yet. */
  lemma FirstPackStartExactly(h: PackSchemas, p: Pack, c: PackContracts, now: int)
    requires PackInvariant(h, p) && p.state.None? && PackPapersOf(p) <= PackPapers(c)
    ensures var e := PackStart(h, p, c, now);
            && (e.reply.Ok? <==> PackContractsAgree(h, c) && exists st :: JustStarted(c, now, st) && h.state(st))
            && (e.reply.Ok? ==>
                  && |e.trace| > 0 && End(e).state.Some? && JustStarted(c, now, End(e).state.value) && e.reply == Ok(PackStarted(End(e).state.value))
                  && End(e).contracts == Some(c) && |End(e).children| == |c.bindings| && forall i :: 0 <= i < |c.bindings| ==> End(e).children[i] == NoMission)
  {
    hide PackPapers, PackContractTrace, StructureOk, JustStarted, InitialPackState;
    if PackContractsValid(h, c) {
      InitialIsShaped(h, c, now);
      forall st ensures JustStarted(c, now, st) <==> st == InitialPackState(c, now) { InitialExactly(c, now, st); }
    }
  }

  lemma InitialIsShaped(h: PackSchemas, c: PackContracts, now: int)
    requires PackContractsValid(h, c)
    ensures StructureOk(InitialPackState(c, now))
  {
    var initial := InitialPackState(c, now);
    assert ShapedAt(initial, 0);
    ShapeIsStructure(h, c, initial);
  }

  /** Starting a pack again under its contracts answers with the state it is in and changes nothing. */
  lemma PackRestartStays(h: PackSchemas, p: Pack, now: int)
    requires PackInvariant(h, p) && p.state.Some? && p.contracts.Some?
    ensures var e := PackStart(h, p, p.contracts.value, now);
            && e.reply == Ok(PackStarted(p.state.value))
            && |e.trace| > 0 && End(e) == p.(draft := [])
  {
    hide PackPapers, PackContractTrace, PackInvariant, PackContractsValid, Loads;
    PackIsBound(h, p);
    AgreedPackLoads(h, p);
    BoundLoads(h, p);
  }

  /**
    On any directory that holds a state, reachable or not, `start` is accepted exactly under contracts that agree
    and are those written so far, if the state loads under them; then it only answers.
  */
  lemma PackRestartExactly(h: PackSchemas, p: Pack, c: PackContracts, now: int)
    requires p.state.Some?
    ensures var e, bound := PackStart(h, p, c, now), p.(draft := [], contracts := Some(c));
            && (e.reply == Err(ContractsRejected) <==> !PackContractsAgree(h, c))
            && (e.reply == Err(ContractDrifted) <==> PackContractsAgree(h, c) && !(PackPapersOf(p) <= PackPapers(c)))
            && (e.reply.Ok? <==> PackContractsAgree(h, c) && PackPapersOf(p) <= PackPapers(c) && Loads(h, bound))
            && (e.reply.Ok? ==> e.reply == Ok(PackStarted(p.state.value)) && |e.trace| > 0 && End(e) == bound)
  {
    assert PackContractsAgree(h, c) <==> PackContractsValid(h, c);
    hide PackPapers, PackContractTrace, PackContractsValid, PackContractsAgree, Loads;
  }

  lemma BoundLoads(h: PackSchemas, p: Pack)
    requires Loads(h, p)
    ensures Loads(h, PackBound(p, p.contracts.value))
  {
    hide StateOk;
  }
}
