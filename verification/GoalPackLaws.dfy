/** The queue's shape, its agreement with its children, and the limits each child gets, over every run. */
module GoalPackLaws {
  import opened Wrappers
  import opened MissionState
  import MissionHistory
  import opened HostDocuments
  import Host = HostMission
  import Laws = HostMissionLaws
  import Runs = HostMissionRuns
  import Birth = HostMissionBirth
  import opened GoalPack

  // ---------------------------------------------------------------- the shape of a queue

  /** The first `k` goals are completed and, after the next one, every goal is queued. */
  ghost predicate Around(goals: seq<Goal>, k: nat) {
    && k <= |goals|
    && (forall i :: 0 <= i < k ==> goals[i].status == Completed)
    && (forall i :: k < i < |goals| ==> goals[i].status == Queued)
  }

  /** completed^k active queued*, completed^k (blocked or abandoned) queued*, or all completed. */
  ghost predicate ShapedAt(st: PackState, k: nat) {
    && Around(st.goals, k)
    && match st.phase
       case PackAwaitingReview => k == |st.goals| && st.current == None
       case PackBlocked => k < |st.goals| && st.goals[k].status == GoalBlocked && st.current == None
       case PackAbandoned => k < |st.goals| && st.goals[k].status == GoalAbandoned && st.current == None
       case _ => k < |st.goals| && st.goals[k].status == Active && st.current == Some(k) && (st.phase == PackAuthorized ==> k == 0)
  }

  ghost predicate Shaped(st: PackState) { exists k :: ShapedAt(st, k) }

  /** The reasons a pack gives for having stopped. */
  const StopReasons: set<Option<string>> := {None, Some("budget-limited"), Some("goal-blocked"), Some("abandoned")}

  /** The state belongs to the contracts, goal by goal. */
  ghost predicate Authentic(c: PackContracts, st: PackState) {
    && st.packId == c.authorization.packId && st.authorizationId == c.authorization.authorizationId
    && st.terminalReason in StopReasons
    && st.deadlineAt == PackDeadline(c, st.createdAt)
    && |st.goals| == |c.bindings|
    && forall i :: 0 <= i < |st.goals| ==>
         st.goals[i].binding == c.bindings[i] && st.goals[i].position == i + 1 && GoalConsistent(st.goals[i])
  }

  // ---------------------------------------------------------------- the children

  /** A started child runs under the contracts derived for its goal and was created when the goal was activated. */
  ghost predicate ChildBound(h: PackSchemas, c: PackContracts, st: PackState, i: nat, m: Mission)
    requires i < |st.goals|
  {
    m == NoMission
    || (&& DerivedContracts(h, c, st, st.goals[i]).Ok? && st.goals[i].activatedAt.Some?
        && Birth.BornUnder(m, DerivedContracts(h, c, st, st.goals[i]).value, st.goals[i].activatedAt.value))
  }

  ghost predicate ChildOk(h: PackSchemas, c: PackContracts, st: PackState, i: nat, m: Mission)
    requires i < |st.goals|
  {
    && Laws.Invariant(h.host, m)
    && ChildBound(h, c, st, i, m)
    && (st.goals[i].status == Queued ==> m == NoMission)
    && (st.goals[i].status == Completed ==> Laws.Current(h.host, m).Some? && Laws.Current(h.host, m).value.state == AwaitingReview)
  }

  ghost predicate ChildrenOk(h: PackSchemas, c: PackContracts, st: PackState, children: seq<Mission>) {
    |children| == |st.goals| && forall i :: 0 <= i < |st.goals| ==> ChildOk(h, c, st, i, children[i])
  }

  ghost predicate PackInvariant(h: PackSchemas, p: Pack) {
    && (p.contracts.Some? ==> PackContractsValid(h, p.contracts.value))
    && (if p.state.None? then p.children == []
        else
          && p.contracts.Some? && h.state(p.state.value)
          && Authentic(p.contracts.value, p.state.value) && Shaped(p.state.value)
          && ChildrenOk(h, p.contracts.value, p.state.value, p.children))
  }

  // ---------------------------------------------------------------- shape is what the save check asks

  lemma ShapeIsStructure(h: PackSchemas, c: PackContracts, st: PackState)
    requires PackContractsValid(h, c) && Authentic(c, st) && Shaped(st)
    ensures StructureOk(st)
  {
    var k :| ShapedAt(st, k);
    assert seq(|st.goals|, i requires 0 <= i < |st.goals| => st.goals[i].binding) == c.bindings;
  }

  /** Loading never fails on a pack that agrees. */
  lemma AgreedPackLoads(h: PackSchemas, p: Pack)
    requires PackInvariant(h, p) && p.state.Some?
    ensures Loads(h, p) && |p.children| == |p.state.value.goals|
  {
    ShapeIsStructure(h, p.contracts.value, p.state.value);
    hide ChildrenOk, Shaped, StructureOk;
  }

  lemma SavedStateFits(h: PackSchemas, c: PackContracts, st: PackState, now: int)
    requires PackContractsValid(h, c) && Authentic(c, st) && Shaped(st)
    ensures var saved := st.(revision := st.revision + 1, updatedAt := now);
            StructureOk(saved) && Shaped(saved) && Authentic(c, saved)
  {
    var saved := st.(revision := st.revision + 1, updatedAt := now);
    var k :| ShapedAt(st, k);
    assert ShapedAt(saved, k);
    ShapeIsStructure(h, c, saved);
  }

  ghost predicate EveryPackOk(h: PackSchemas, trace: seq<Pack>) {
    forall i :: 0 <= i < |trace| ==> PackInvariant(h, trace[i])
  }

  // ---------------------------------------------------------------- the queue moves

  ghost predicate ActiveAt(st: PackState, k: nat) { !TerminalPhase(st.phase) && ShapedAt(st, k) }

  lemma ActiveIsCurrent(st: PackState)
    requires Shaped(st) && !TerminalPhase(st.phase)
    ensures st.current.Some? && ActiveAt(st, st.current.value) && st.current.value < |st.goals|
  {}

  lemma FinishedShape(c: PackContracts, st: PackState, k: nat, child: Document, now: int)
    requires Authentic(c, st) && ActiveAt(st, k) && ChildTerminal(child.state)
    ensures Authentic(c, FinishedState(st, k, child, now)) && Shaped(FinishedState(st, k, child, now))
  {
    var finished := FinishedState(st, k, child, now);
    assert ShapedAt(finished, if child.state == AwaitingReview then k + 1 else k);
  }

  lemma StoppedShape(c: PackContracts, st: PackState, k: nat, now: int, abandoned: bool)
    requires Authentic(c, st) && ActiveAt(st, k)
    ensures Authentic(c, StoppedState(st, k, now, abandoned)) && Shaped(StoppedState(st, k, now, abandoned))
  {
    assert ShapedAt(StoppedState(st, k, now, abandoned), k);
  }

  lemma RunningShape(c: PackContracts, st: PackState, k: nat)
    requires Authentic(c, st) && ActiveAt(st, k)
    ensures Authentic(c, st.(phase := PackRunning)) && Shaped(st.(phase := PackRunning)) && ActiveAt(st.(phase := PackRunning), k)
  {
    assert ShapedAt(st.(phase := PackRunning), k);
  }

  /** The contracts derived for a goal depend only on the deadline, its binding and its activation. */
  ghost predicate SameTerms(st: PackState, st': PackState, i: nat)
    requires i < |st.goals| && |st'.goals| == |st.goals|
  {
    && st'.deadlineAt == st.deadlineAt && st'.goals[i].binding == st.goals[i].binding
    && st'.goals[i].activatedAt == st.goals[i].activatedAt
  }

  lemma ChildStaysOk(h: PackSchemas, c: PackContracts, st: PackState, st': PackState, i: nat, m: Mission)
    requires i < |st.goals| && |st'.goals| == |st.goals| && ChildOk(h, c, st, i, m)
    requires m == NoMission || SameTerms(st, st', i)
    requires st'.goals[i].status == Queued ==> st.goals[i].status == Queued
    requires st'.goals[i].status == Completed ==>
               st.goals[i].status == Completed || (Laws.Current(h.host, m).Some? && Laws.Current(h.host, m).value.state == AwaitingReview)
    ensures ChildOk(h, c, st', i, m)
  {
    hide Laws.Invariant, Laws.Current, Birth.BornUnder;
  }

  /** Closing one goal and activating the next leaves every other goal, and the closed one's terms, alone. */
  lemma FinishedTerms(st: PackState, k: nat, child: Document, now: int, i: nat)
    requires ActiveAt(st, k) && ChildTerminal(child.state) && i < |st.goals|
    ensures var st' := FinishedState(st, k, child, now);
            && |st'.goals| == |st.goals|
            && (st.goals[i].status == Queued || SameTerms(st, st', i))
            && (st'.goals[i].status == Queued ==> st.goals[i].status == Queued)
            && (st'.goals[i].status == Completed ==> st.goals[i].status == Completed || (i == k && child.state == AwaitingReview))
  {}

  lemma QueuedIsNoMission(h: PackSchemas, c: PackContracts, st: PackState, i: nat, m: Mission)
    requires i < |st.goals| && ChildOk(h, c, st, i, m)
    ensures st.goals[i].status == Queued ==> m == NoMission
  {
    hide Laws.Invariant, Laws.Current, ChildBound;
  }

  lemma FinishedChildren(h: PackSchemas, c: PackContracts, st: PackState, k: nat, child: Document, now: int, children: seq<Mission>)
    requires ActiveAt(st, k) && ChildrenOk(h, c, st, children) && ChildTerminal(child.state)
    requires Laws.Current(h.host, children[k]) == Some(child)
    ensures ChildrenOk(h, c, FinishedState(st, k, child, now), children)
  {
    var st' := FinishedState(st, k, child, now);
    hide ChildOk, Laws.Current;
    forall i | 0 <= i < |st.goals|
      ensures ChildOk(h, c, st', i, children[i])
    {
      FinishedTerms(st, k, child, now, i);
      QueuedIsNoMission(h, c, st, i, children[i]);
      hide FinishedState, ShapedAt;
      ChildStaysOk(h, c, st, st', i, children[i]);
    }
  }

  lemma StoppedChildren(h: PackSchemas, c: PackContracts, st: PackState, k: nat, now: int, abandoned: bool, children: seq<Mission>)
    requires ActiveAt(st, k) && ChildrenOk(h, c, st, children)
    ensures ChildrenOk(h, c, StoppedState(st, k, now, abandoned), children)
  {
    var st' := StoppedState(st, k, now, abandoned);
    hide Laws.Invariant, Laws.Current, Birth.BornUnder;
    forall i | 0 <= i < |st.goals|
      ensures ChildOk(h, c, st', i, children[i])
    {
      ChildStaysOk(h, c, st, st', i, children[i]);
    }
  }

  lemma SameGoalsChildren(h: PackSchemas, c: PackContracts, st: PackState, st': PackState, children: seq<Mission>)
    requires ChildrenOk(h, c, st, children) && st'.goals == st.goals && st'.deadlineAt == st.deadlineAt
    ensures ChildrenOk(h, c, st', children)
  {
    hide Laws.Invariant, Laws.Current, Birth.BornUnder;
    forall i | 0 <= i < |st.goals|
      ensures ChildOk(h, c, st', i, children[i])
    {
      ChildStaysOk(h, c, st, st', i, children[i]);
    }
  }

  // ---------------------------------------------------------------- saves and child calls

  lemma SavedPackKeeps(h: PackSchemas, p: Pack, saved: PackState)
    requires p.contracts.Some? && PackContractsValid(h, p.contracts.value) && h.state(saved)
    requires Authentic(p.contracts.value, saved) && Shaped(saved) && ChildrenOk(h, p.contracts.value, saved, p.children)
    ensures PackInvariant(h, p.(state := Some(saved)))
  {
    hide ChildrenOk, Shaped, Authentic, PackContractsValid;
  }

  /** A save of a well-shaped state keeps the pack, and can only be refused by the schema. */
  lemma SaveKeeps(h: PackSchemas, p: Pack, st: PackState, now: int, reply: PackState -> PackReply)
    requires PackInvariant(h, p) && p.contracts.Some? && p.state.Some?
    requires Authentic(p.contracts.value, st) && Shaped(st) && ChildrenOk(h, p.contracts.value, st, p.children)
    ensures EveryPackOk(h, Save(h, p, st, now, reply).trace)
    ensures Save(h, p, st, now, reply).reply.Err? ==> !h.state(st.(revision := st.revision + 1, updatedAt := now))
  {
    hide ChildrenOk, StructureOk, Shaped, Authentic, PackInvariant, PackContractsValid;
    PackIsBound(h, p);
    SavedStateFits(h, p.contracts.value, st, now);
    if h.state(st.(revision := st.revision + 1, updatedAt := now)) { SaveLands(h, p, st, now); }
  }

  lemma PackIsBound(h: PackSchemas, p: Pack)
    requires PackInvariant(h, p) && p.contracts.Some?
    ensures PackContractsValid(h, p.contracts.value)
  {
  }

  lemma SaveLands(h: PackSchemas, p: Pack, st: PackState, now: int)
    requires PackInvariant(h, p) && p.contracts.Some? && p.state.Some?
    requires Authentic(p.contracts.value, st) && Shaped(st) && ChildrenOk(h, p.contracts.value, st, p.children)
    requires h.state(st.(revision := st.revision + 1, updatedAt := now))
    ensures PackInvariant(h, p.(state := Some(st.(revision := st.revision + 1, updatedAt := now))))
  {
    hide ChildrenOk, StructureOk, Shaped, Authentic, PackInvariant, PackContractsValid;
    var saved := st.(revision := st.revision + 1, updatedAt := now);
    PackIsBound(h, p);
    SavedStateFits(h, p.contracts.value, st, now);
    SameGoalsChildren(h, p.contracts.value, st, saved, p.children);
    SavedPackKeeps(h, p, saved);
  }

  /** Replacing the active child by one that agrees. */
  lemma ChildWriteKeeps(h: PackSchemas, p: Pack, k: nat, m: Mission)
    requires PackInvariant(h, p) && p.state.Some? && ActiveAt(p.state.value, k) && k < |p.children|
    requires ChildOk(h, p.contracts.value, p.state.value, k, m)
    ensures PackInvariant(h, OnChild(p, k, m))
  {
    hide ChildOk, PackContractsValid;
  }

  ghost predicate ActiveChild(h: PackSchemas, p: Pack, k: nat) {
    && PackInvariant(h, p) && p.contracts.Some? && p.state.Some? && ActiveAt(p.state.value, k)
    && k < |p.children| && k < |p.state.value.goals|
    && ChildOk(h, p.contracts.value, p.state.value, k, p.children[k])
  }

  lemma ActivePack(h: PackSchemas, p: Pack)
    requires PackInvariant(h, p) && p.state.Some? && !TerminalPhase(p.state.value.phase)
    ensures p.state.value.current.Some? && ActiveChild(h, p, p.state.value.current.value)
  {
    ActiveIsCurrent(p.state.value);
    hide ChildOk, Shaped;
  }

  /** Every directory of a child's call keeps the pack, if each mission of the call is still the goal's own. */
  lemma LiftKeeps(h: PackSchemas, p: Pack, k: nat, trace: seq<Mission>)
    requires ActiveChild(h, p, k)
    requires forall i :: 0 <= i < |trace| ==> Laws.Invariant(h.host, trace[i])
    requires forall i :: 0 <= i < |trace| ==> ChildBound(h, p.contracts.value, p.state.value, k, trace[i])
    ensures EveryPackOk(h, Lift(p, k, trace))
  {
    hide PackInvariant, Laws.Invariant, ChildBound;
    forall i | 0 <= i < |trace|
      ensures PackInvariant(h, Lift(p, k, trace)[i])
    {
      ChildWriteKeeps(h, p, k, trace[i]);
    }
  }
}
