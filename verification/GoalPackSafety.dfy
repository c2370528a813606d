/** What a goal pack promises over every run. */
module GoalPackSafety {
  import opened Wrappers
  import opened MissionState
  import MissionHistory
  import opened HostDocuments
  import Host = HostMission
  import Laws = HostMissionLaws
  import Runs = HostMissionRuns
  import Recovery = HostMissionRecovery
  import Safety = HostMissionSafety
  import Birth = HostMissionBirth
  import opened GoalPack
  import opened GoalPackLaws
  import opened GoalPackRuns

  /**
    At every point of every run the queue is completed goals, then at most one active, blocked or
    abandoned goal, then queued goals; the state passes the controller's own structural check; the
    mission of every completed goal awaits review; and no queued goal's mission was ever started.
  */
  lemma QueueIsAlwaysShaped(h: PackSchemas, calls: seq<PackCall>)
    requires PackRun(h, calls).state.Some?
    ensures var p := PackRun(h, calls);
            var st := p.state.value;
            && Shaped(st) && StructureOk(st) && |p.children| == |st.goals|
            && (forall i :: 0 <= i < |st.goals| && st.goals[i].status == Completed ==>
                  Laws.Current(h.host, p.children[i]).Some? && Laws.Current(h.host, p.children[i]).value.state == AwaitingReview)
            && (forall i :: 0 <= i < |st.goals| && st.goals[i].status == Queued ==> p.children[i] == NoMission)
  {
    EveryPackRunAgrees(h, calls);
    var p := PackRun(h, calls);
    hide PackRun;
    ShapeIsStructure(h, p.contracts.value, p.state.value);
    hide Shaped, StructureOk, ChildBound, Laws.Invariant, Laws.Current;
    forall i | 0 <= i < |p.state.value.goals|
      ensures ChildOk(h, p.contracts.value, p.state.value, i, p.children[i])
    {}
  }

  lemma WholeSecondsFit(micros: int)
    ensures WholeSeconds(micros) >= 1 ==> 1 <= micros && WholeSeconds(micros) * SECOND <= micros
  {}

  /** What a derived contract grants: no limit of the pack or of the binding is widened. */
  lemma DerivedLimits(h: PackSchemas, c: PackContracts, st: PackState, g: Goal)
    requires DerivedContracts(h, c, st, g).Ok?
    ensures g.activatedAt.Some?
    ensures var a := DerivedContracts(h, c, st, g).value.authorization;
            && a.attempts <= c.authorization.attemptsPerGoal && a.attempts <= g.binding.attempts
            && a.wallSeconds <= g.binding.wallSeconds && a.goals == 1
            && Deadline(DerivedContracts(h, c, st, g).value, g.activatedAt.value) <= st.deadlineAt
  {
    WholeSecondsFit(st.deadlineAt - g.activatedAt.value);
  }

  /**
    Every mission a pack has started runs, at every later point, under exactly the contracts
    derived for its goal, widens no limit, and has its deadline at or before the pack's, although
    the seconds left were truncated.
  */
  lemma ChildrenKeepWithinPack(h: PackSchemas, calls: seq<PackCall>, i: nat)
    requires PackRun(h, calls).state.Some? && i < |PackRun(h, calls).children| && PackRun(h, calls).children[i].store.state.Some?
    ensures var p := PackRun(h, calls);
            && p.contracts.Some? && i < |p.state.value.goals|
            && var st, g, child := p.state.value, p.state.value.goals[i], p.children[i];
               && child.contracts.Some? && DerivedContracts(h, p.contracts.value, st, g) == Ok(child.contracts.value)
               && g.activatedAt == Some(child.store.state.value.createdAt)
               && Deadline(child.contracts.value, child.store.state.value.createdAt) <= st.deadlineAt
               && child.contracts.value.authorization.attempts <= p.contracts.value.authorization.attemptsPerGoal
               && child.contracts.value.authorization.wallSeconds <= g.binding.wallSeconds
  {
    EveryPackRunAgrees(h, calls);
    var p := PackRun(h, calls);
    hide PackRun, Deadline;
    assert ChildOk(h, p.contracts.value, p.state.value, i, p.children[i]);
    hide ChildrenOk, Shaped, Authentic;
    DerivedLimits(h, p.contracts.value, p.state.value, p.state.value.goals[i]);
    PapersAre(p.children[i].contracts.value, DerivedContracts(h, p.contracts.value, p.state.value, p.state.value.goals[i]).value);
    hide DerivedContracts;
  }

  // ---------------------------------------------------------------- nothing is refused without cause

  /**
    The state schema accepts the states of packs whose contracts passed their own schemas: as many goals
    as bindings, their identities, a position and a final state in place, and a known reason.
  */
  ghost predicate SchemaAcceptsPacks(h: PackSchemas) {
    forall c: PackContracts, st: PackState :: PackContractsValid(h, c) && Authentic(c, st) && Shaped(st) ==> h.state(st)
  }

  lemma SaveSucceeds(h: PackSchemas, p: Pack, st: PackState, now: int, reply: PackState -> PackReply)
    requires SchemaAcceptsPacks(h)
    requires PackInvariant(h, p) && p.contracts.Some? && p.state.Some?
    requires Authentic(p.contracts.value, st) && Shaped(st)
    ensures Save(h, p, st, now, reply).reply.Ok?
  {
    assert PackContractsValid(h, p.contracts.value);
    SavedStateFits(h, p.contracts.value, st, now);
    hide StructureOk, PackInvariant, Authentic, Shaped, PackContractsValid;
  }

  /** The only ways a call on a pack's active goal can fail: time is up, or the child refuses a document. */
  ghost predicate Excused(e: PackError) {
    e == BudgetExpired || (e.ChildFailed? && e.error !in {Host.ContractDrift, Host.IdentityDrift, Host.AuthorizationDrift,
                                                          Host.JournalInvalid, Host.ResultWithoutReceipt})
  }

  lemma RefusalsExcused(error: Host.HostError)
    requires error in Safety.Refusals + {Host.NoHostAction}
    ensures Excused(ChildFailed(error))
  {}

  lemma ChildNextExcused(h: PackSchemas, p: Pack, k: nat, st: PackState, now: int, at: int)
    requires ActiveChild(h, p, k) && p.children[k].store.state.Some?
    ensures var e := ChildCall(p, k, st, Host.Next(h.host, p.children[k], now, at)).reply; e.Err? ==> Excused(e.error)
  {
    var child := p.children[k];
    assert Laws.Invariant(h.host, child);
    hide Host.Next, ActiveChild, Laws.Invariant, Excused, Lift;
    Safety.NextNeverDriftsUnsettled(h.host, child, now, at);
    var e := Host.Next(h.host, child, now, at);
    if e.reply.Err? { RefusalsExcused(e.reply.error); }
  }

  lemma DriveChildExcused(h: PackSchemas, p: Pack, k: nat, now: int, at: int)
    requires SchemaAcceptsPacks(h) && ActiveChild(h, p, k) && p.children[k].store.state.Some?
    ensures var e := DriveChild(h, p, k, p.state.value, now, at).reply; e.Err? ==> Excused(e.error)
  {
    var st := p.state.value;
    RunningShape(p.contracts.value, st, k);
    SaveSucceeds(h, p, st.(phase := PackRunning), now, (s: PackState) => PackTerminal(s));
    ChildNextExcused(h, p, k, st, now, at);
    var save := Save(h, p, st.(phase := PackRunning), now, (s: PackState) => PackTerminal(s));
    hide Save, Host.Next, ActiveChild, ShapedAt;
    if st.phase == PackAuthorized {
      RunningKeeps(h, p, k, now);
      ChildNextExcused(h, save.trace[|save.trace| - 1], k, save.reply.value.state, now, at);
    }
  }

  /** The active child can still be started: it is not there yet, or is on its path. */
  ghost predicate Startable(h: PackSchemas, m: Mission) {
    Laws.Current(h.host, m).Some? ==> !Laws.Stopped(Laws.Current(h.host, m).value.state)
  }

  lemma StartExcused(h: PackSchemas, p: Pack, k: nat, c: Contracts, at: int)
    requires ActiveChild(h, p, k) && Startable(h, p.children[k])
    requires DerivedContracts(h, p.contracts.value, p.state.value, p.state.value.goals[k]) == Ok(c)
    ensures p.state.value.goals[k].activatedAt.Some?
    ensures var e := Host.Start(h.host, p.children[k], c, p.state.value.goals[k].activatedAt.value, at).reply;
            e.Err? ==> Excused(ChildFailed(e.error))
  {
    Birth.RestartNeverDrifts(h.host, p.children[k], c, p.state.value.goals[k].activatedAt.value, at);
    hide Host.Start, Laws.Invariant, PackInvariant, ShapedAt, Laws.Current, DerivedContracts;
  }

  lemma DriveActiveExcused(h: PackSchemas, p: Pack, k: nat, now: int, at: int)
    requires SchemaAcceptsPacks(h) && ActiveChild(h, p, k) && Startable(h, p.children[k])
    ensures var e := DriveActive(h, p, k, p.state.value, now, at).reply; e.Err? ==> Excused(e.error)
  {
    var st, c := p.state.value, p.contracts.value;
    StoppedShape(c, st, k, now, false);
    SaveSucceeds(h, p, StoppedState(st, k, now, false), now, (s: PackState) => PackTerminal(s));
    var derived := DerivedContracts(h, c, st, st.goals[k]);
    hide Host.Start, DriveChild, Save, StoppedState, PackInvariant, ChildBound, Laws.Invariant, ShapedAt, Startable;
    if derived.Ok? {
      var born := st.goals[k].activatedAt.value;
      StartExcused(h, p, k, derived.value, at);
      var start := Host.Start(h.host, p.children[k], derived.value, born, at);
      if start.reply.Ok? {
        StartedChild(h, p, k, derived.value, at);
        Birth.StartedExists(h.host, p.children[k], derived.value, born, at);
        OnActiveChild(h, p, k, Host.Final(start));
        DriveChildExcused(h, OnChild(p, k, Host.Final(start)), k, now, at);
      }
    }
  }

  lemma NextGoalExcused(h: PackSchemas, p: Pack, k: nat, now: int, at: int)
    requires SchemaAcceptsPacks(h) && ActiveChild(h, p, k)
    ensures var e := NextGoal(h, p, k, p.state.value, now, at).reply; e.Err? ==> Excused(e.error)
  {
    var child, st, c := p.children[k], p.state.value, p.contracts.value;
    if child.store.state.None? {
      assert Laws.Current(h.host, child) == None;
      DriveActiveExcused(h, p, k, now, at);
    } else {
      RepairedChild(h, p, k);
      hide DriveActive, Save, FinishedState, ActiveChild, MissionHistory.Repaired, Laws.Current;
      var repaired, d := OnChild(p, k, Host.Settled(h.host, child)), MissionHistory.Repaired(h.host.store, child.store).value;
      if ChildTerminal(d.state) {
        FinishSucceeds(h, repaired, k, d, now, (s: PackState) => if TerminalPhase(s.phase) then PackTerminal(s) else GoalAdvanced(s));
      } else {
        DriveActiveExcused(h, repaired, k, now, at);
      }
    }
  }

  lemma FinishSucceeds(h: PackSchemas, p: Pack, k: nat, d: Document, now: int, reply: PackState -> PackReply)
    requires SchemaAcceptsPacks(h) && ActiveChild(h, p, k) && ChildTerminal(d.state)
    ensures Save(h, p, FinishedState(p.state.value, k, d, now), now, reply).reply.Ok?
  {
    FinishedShape(p.contracts.value, p.state.value, k, d, now);
    hide FinishedState, ShapedAt, ChildOk, StructureOk, SchemaAcceptsPacks;
    SaveSucceeds(h, p, FinishedState(p.state.value, k, d, now), now, reply);
  }

  /**
    If the state schema accepts the well-formed states of accepted contracts, then at every point of
    every run `next` passes its own load and save checks and finds no drift in the child: it fails only when
    less than a second was left at activation, or when the child's own documents are refused.
  */
  lemma NextIsNeverRefusedWithoutCause(h: PackSchemas, calls: seq<PackCall>, now: int, at: int)
    requires SchemaAcceptsPacks(h) && PackRun(h, calls).state.Some?
    ensures var e := PackNext(h, PackRun(h, calls), now, at).reply; e.Err? ==> Excused(e.error)
  {
    EveryPackRunAgrees(h, calls);
    var p := PackRun(h, calls);
    AgreedPackLoads(h, p);
    hide PackRun, NextGoal, StateOk, Loads;
    if !TerminalPhase(p.state.value.phase) {
      ActivePack(h, p);
      hide PackInvariant;
      NextGoalExcused(h, p, p.state.value.current.value, now, at);
    }
  }
}
