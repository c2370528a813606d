/** Every run of a goal pack, interrupted anywhere, and what its queue and its children can rely on. */
module GoalPackRuns {
  import opened Wrappers
  import opened MissionState
  import MissionHistory
  import opened HostDocuments
  import Host = HostMission
  import Laws = HostMissionLaws
  import Runs = HostMissionRuns
  import Birth = HostMissionBirth
  import opened GoalPack
  import opened GoalPackLaws

  lemma AfterTraceKeeps(h: PackSchemas, trace: seq<Pack>, rest: PackEffect)
    requires EveryPackOk(h, trace) && EveryPackOk(h, rest.trace)
    ensures EveryPackOk(h, AfterTrace(trace, rest).trace)
  {
    hide PackInvariant;
  }

  /** A call on a started child stays with the child's own contracts and creation time. */
  lemma CallBound(h: PackSchemas, c: PackContracts, st: PackState, k: nat, m: Mission, trace: seq<Mission>)
    requires k < |st.goals| && m != NoMission && ChildBound(h, c, st, k, m) && Birth.EverySameBirth(m, trace)
    ensures forall i :: 0 <= i < |trace| ==> ChildBound(h, c, st, k, trace[i])
  {
    hide DerivedContracts;
    Birth.SameBirthBornUnder(m, trace, DerivedContracts(h, c, st, st.goals[k]).value, st.goals[k].activatedAt.value);
  }

  lemma ChildCallKeeps(h: PackSchemas, p: Pack, k: nat, st: PackState, e: Host.Effect)
    requires ActiveChild(h, p, k) && p.children[k] != NoMission
    requires Runs.EveryInvariant(h.host, e.trace) && Birth.EverySameBirth(p.children[k], e.trace)
    ensures EveryPackOk(h, ChildCall(p, k, st, e).trace)
  {
    CallBound(h, p.contracts.value, p.state.value, k, p.children[k], e.trace);
    hide PackInvariant, ChildBound, Laws.Invariant, Birth.SameBirth;
    LiftKeeps(h, p, k, e.trace);
  }

  lemma ChildNextKeeps(h: PackSchemas, p: Pack, k: nat, st: PackState, now: int, at: int)
    requires ActiveChild(h, p, k) && p.children[k] != NoMission
    ensures EveryPackOk(h, ChildCall(p, k, st, Host.Next(h.host, p.children[k], now, at)).trace)
  {
    Runs.NextKeeps(h.host, p.children[k], now, at);
    Birth.NextBirth(h.host, p.children[k], now, at);
    hide Host.Next, Laws.Invariant, PackInvariant, ChildBound, ShapedAt;
    ChildCallKeeps(h, p, k, st, Host.Next(h.host, p.children[k], now, at));
  }

  /** Leaving the authorized phase does not touch the children. */
  lemma RunningKeeps(h: PackSchemas, p: Pack, k: nat, now: int)
    requires ActiveChild(h, p, k)
    ensures var save := Save(h, p, p.state.value.(phase := PackRunning), now, (s: PackState) => PackTerminal(s));
            && EveryPackOk(h, save.trace)
            && (save.reply.Ok? ==>
                  var saved := save.trace[|save.trace| - 1];
                  ActiveChild(h, saved, k) && saved.children == p.children && saved.state == Some(save.reply.value.state))
  {
    var c, st, running := p.contracts.value, p.state.value, p.state.value.(phase := PackRunning);
    RunningShape(c, st, k);
    SameGoalsChildren(h, c, st, running, p.children);
    SaveKeeps(h, p, running, now, (s: PackState) => PackTerminal(s));
    var save := Save(h, p, running, now, (s: PackState) => PackTerminal(s));
    if save.reply.Ok? {
      var saved := running.(revision := st.revision + 1, updatedAt := now);
      assert ActiveAt(saved, k);
      ChildStaysOk(h, c, st, saved, k, p.children[k]);
      hide ChildOk, Authentic, Shaped, ChildrenOk, StructureOk, PackContractsValid;
      assert PackInvariant(h, save.trace[1]);
    }
  }

  lemma DriveChildKeeps(h: PackSchemas, p: Pack, k: nat, now: int, at: int)
    requires ActiveChild(h, p, k) && p.children[k] != NoMission
    ensures EveryPackOk(h, DriveChild(h, p, k, p.state.value, now, at).trace)
  {
    var st := p.state.value;
    hide Host.Next, Save, ChildCall, ActiveChild, EveryPackOk;
    if st.phase != PackAuthorized {
      ChildNextKeeps(h, p, k, st, now, at);
    } else {
      RunningKeeps(h, p, k, now);
      var save := Save(h, p, st.(phase := PackRunning), now, (s: PackState) => PackTerminal(s));
      if save.reply.Ok? {
        var saved := save.trace[|save.trace| - 1];
        ChildNextKeeps(h, saved, k, save.reply.value.state, now, at);
        AfterTraceKeeps(h, save.trace, ChildCall(saved, k, save.reply.value.state, Host.Next(h.host, p.children[k], now, at)));
      }
    }
  }

  // ---------------------------------------------------------------- starting the active child

  lemma StartedChild(h: PackSchemas, p: Pack, k: nat, c: Contracts, at: int)
    requires ActiveChild(h, p, k) && DerivedContracts(h, p.contracts.value, p.state.value, p.state.value.goals[k]) == Ok(c)
    ensures p.state.value.goals[k].activatedAt.Some?
    ensures var trace := Host.Start(h.host, p.children[k], c, p.state.value.goals[k].activatedAt.value, at).trace;
            && Runs.EveryInvariant(h.host, trace)
            && forall i :: 0 <= i < |trace| ==> ChildBound(h, p.contracts.value, p.state.value, k, trace[i])
  {
    var born := p.state.value.goals[k].activatedAt.value;
    Runs.StartKeeps(h.host, p.children[k], c, born, at);
    Birth.StartBornUnder(h.host, p.children[k], c, born, at);
    hide Host.Start, Laws.Invariant, PackInvariant, ShapedAt;
  }

  lemma StartIsBound(h: HostSchemas, m: Mission, c: Contracts, now: int, at: int)
    requires Host.Start(h, m, c, now, at).reply.Ok?
    ensures Host.Final(Host.Start(h, m, c, now, at)) != NoMission
  {
    hide MissionHistory.Repaired, MissionHistory.RepairTrace, MissionHistory.Moved, MissionHistory.MoveTrace, IdentityHolds, ContractsValid;
  }

  lemma OnActiveChild(h: PackSchemas, p: Pack, k: nat, m: Mission)
    requires ActiveChild(h, p, k) && Laws.Invariant(h.host, m) && ChildBound(h, p.contracts.value, p.state.value, k, m)
    ensures ActiveChild(h, OnChild(p, k, m), k) && OnChild(p, k, m).state == p.state && OnChild(p, k, m).children[k] == m
  {
    hide PackInvariant, Laws.Invariant, ChildBound;
    ChildWriteKeeps(h, p, k, m);
  }

  lemma DriveActiveKeeps(h: PackSchemas, p: Pack, k: nat, now: int, at: int)
    requires ActiveChild(h, p, k)
    ensures EveryPackOk(h, DriveActive(h, p, k, p.state.value, now, at).trace)
  {
    var st, c := p.state.value, p.contracts.value;
    StoppedShape(c, st, k, now, false);
    StoppedChildren(h, c, st, k, now, false, p.children);
    SaveKeeps(h, p, StoppedState(st, k, now, false), now, (s: PackState) => PackTerminal(s));
    hide Host.Start, DriveChild, Save, StoppedState, PackInvariant, ChildBound, Laws.Invariant, ShapedAt;
    var derived := DerivedContracts(h, c, st, st.goals[k]);
    if derived.Ok? {
      StartedChild(h, p, k, derived.value, at);
      var start := Host.Start(h.host, p.children[k], derived.value, st.goals[k].activatedAt.value, at);
      LiftKeeps(h, p, k, start.trace);
      if start.reply.Ok? {
        StartIsBound(h.host, p.children[k], derived.value, st.goals[k].activatedAt.value, at);
        OnActiveChild(h, p, k, Host.Final(start));
        DriveChildKeeps(h, OnChild(p, k, Host.Final(start)), k, now, at);
        AfterTraceKeeps(h, Lift(p, k, start.trace), DriveChild(h, OnChild(p, k, Host.Final(start)), k, st, now, at));
      }
    }
  }

  // ---------------------------------------------------------------- the calls

  lemma RepairedChild(h: PackSchemas, p: Pack, k: nat)
    requires ActiveChild(h, p, k) && p.children[k].store.state.Some?
    ensures var child := p.children[k];
            && MissionHistory.Repaired(h.host.store, child.store).Ok?
            && ActiveChild(h, OnChild(p, k, Host.Settled(h.host, child)), k)
            && Laws.Current(h.host, Host.Settled(h.host, child)) == Some(MissionHistory.Repaired(h.host.store, child.store).value)
  {
    var child := p.children[k];
    Laws.SettledFacts(h.host, child);
    Birth.SettledBirth(h.host, child);
    hide Laws.Invariant, PackInvariant, MissionHistory.SettledDisk, MissionHistory.Repaired;
    CallBound(h, p.contracts.value, p.state.value, k, child, [Host.Settled(h.host, child)]);
    assert ChildBound(h, p.contracts.value, p.state.value, k, [Host.Settled(h.host, child)][0]);
    hide ChildBound;
    OnActiveChild(h, p, k, Host.Settled(h.host, child));
  }

  lemma FinishActiveKeeps(h: PackSchemas, p: Pack, k: nat, d: Document, now: int, reply: PackState -> PackReply)
    requires ActiveChild(h, p, k) && ChildTerminal(d.state) && Laws.Current(h.host, p.children[k]) == Some(d)
    ensures EveryPackOk(h, Save(h, p, FinishedState(p.state.value, k, d, now), now, reply).trace)
  {
    FinishedShape(p.contracts.value, p.state.value, k, d, now);
    FinishedChildren(h, p.contracts.value, p.state.value, k, d, now, p.children);
    hide FinishedState, ShapedAt, Laws.Current, ChildOk, EveryPackOk;
    SaveKeeps(h, p, FinishedState(p.state.value, k, d, now), now, reply);
  }

  lemma NextGoalKeeps(h: PackSchemas, p: Pack, k: nat, now: int, at: int)
    requires ActiveChild(h, p, k)
    ensures EveryPackOk(h, NextGoal(h, p, k, p.state.value, now, at).trace)
  {
    var child, st := p.children[k], p.state.value;
    hide DriveActive, Save, FinishedState, ActiveChild, MissionHistory.Repaired;
    if child.store.state.None? {
      DriveActiveKeeps(h, p, k, now, at);
    } else {
      RepairedChild(h, p, k);
      var repaired, d := OnChild(p, k, Host.Settled(h.host, child)), MissionHistory.Repaired(h.host.store, child.store).value;
      var reply := (s: PackState) => if TerminalPhase(s.phase) then PackTerminal(s) else GoalAdvanced(s);
      if ChildTerminal(d.state) {
        FinishActiveKeeps(h, repaired, k, d, now, reply);
        AfterTraceKeeps(h, [p], Save(h, repaired, FinishedState(st, k, d, now), now, reply));
      } else {
        DriveActiveKeeps(h, repaired, k, now, at);
        AfterTraceKeeps(h, [p], DriveActive(h, repaired, k, st, now, at));
      }
    }
  }

  /** Every directory `next` can leave behind agrees. */
  lemma PackNextKeeps(h: PackSchemas, p: Pack, now: int, at: int)
    requires PackInvariant(h, p)
    ensures EveryPackOk(h, PackNext(h, p, now, at).trace)
  {
    hide NextGoal, StateOk;
    if p.state.Some? && !TerminalPhase(p.state.value.phase) {
      ActivePack(h, p);
      hide PackInvariant;
      NextGoalKeeps(h, p, p.state.value.current.value, now, at);
    }
  }

  lemma PackRecordKeeps(h: PackSchemas, p: Pack, r: Receipt, at: int)
    requires PackInvariant(h, p)
    ensures EveryPackOk(h, PackRecord(h, p, r, at).trace)
  {
    hide ChildCall, Loads, Host.Record;
    if p.state.Some? && !TerminalPhase(p.state.value.phase) {
      ActivePack(h, p);
      var k := p.state.value.current.value;
      var child := p.children[k];
      if child.store.state.Some? {
        Runs.RecordKeeps(h.host, child, r, at);
        Birth.RecordBirth(h.host, child, r, at);
        ChildCallKeeps(h, p, k, p.state.value, Host.Record(h.host, child, r, at));
      }
    }
  }

  lemma StopKeeps(h: PackSchemas, p: Pack, k: nat, now: int)
    requires ActiveChild(h, p, k)
    ensures EveryPackOk(h, Save(h, p, StoppedState(p.state.value, k, now, true), now, (s: PackState) => PackTerminal(s)).trace)
  {
    var st, c := p.state.value, p.contracts.value;
    StoppedShape(c, st, k, now, true);
    StoppedChildren(h, c, st, k, now, true, p.children);
    hide StoppedState, ShapedAt, ChildOk, EveryPackOk;
    SaveKeeps(h, p, StoppedState(st, k, now, true), now, (s: PackState) => PackTerminal(s));
  }

  lemma AbandonedChild(h: PackSchemas, p: Pack, k: nat, at: int)
    requires ActiveChild(h, p, k) && p.children[k].store.state.Some?
    ensures var e := Host.Abandon(h.host, p.children[k], at);
            && EveryPackOk(h, Lift(p, k, e.trace))
            && ActiveChild(h, OnChild(p, k, Host.Final(e)), k)
  {
    var child, e := p.children[k], Host.Abandon(h.host, p.children[k], at);
    Runs.AbandonKeeps(h.host, child, at);
    Birth.AbandonBirth(h.host, child, at);
    CallBound(h, p.contracts.value, p.state.value, k, child, e.trace);
    hide Host.Abandon, PackInvariant, ChildBound, Laws.Invariant;
    LiftKeeps(h, p, k, e.trace);
    OnActiveChild(h, p, k, Host.Final(e));
  }

  lemma PackAbandonKeeps(h: PackSchemas, p: Pack, now: int, at: int)
    requires PackInvariant(h, p)
    ensures EveryPackOk(h, PackAbandon(h, p, now, at).trace)
  {
    hide StateOk, Host.Abandon, StoppedState, Save;
    if p.state.Some? && !TerminalPhase(p.state.value.phase) {
      ActivePack(h, p);
      hide PackInvariant;
      var st, k := p.state.value, p.state.value.current.value;
      if p.children[k].store.state.None? {
        StopKeeps(h, p, k, now);
      } else {
        AbandonedChild(h, p, k, at);
        var abandoned := OnChild(p, k, Host.Final(Host.Abandon(h.host, p.children[k], at)));
        StopKeeps(h, abandoned, k, now);
        AfterTraceKeeps(h, Lift(p, k, Host.Abandon(h.host, p.children[k], at).trace),
                        Save(h, abandoned, StoppedState(st, k, now, true), now, (s: PackState) => PackTerminal(s)));
      }
    }
  }

  /** The contracts are what the files say. */
  lemma PackPapersAre(b: PackContracts, c: PackContracts)
    requires PackPapers(b) <= PackPapers(c) && b.authorization.bindings == b.bindings && c.authorization.bindings == c.bindings
    ensures b == c
  {
    assert PackPapers(b)[0] == PackPapers(c)[0] && PackPapers(b)[1] == PackPapers(c)[1] && PackPapers(b)[2] == PackPapers(c)[2];
  }

  lemma PackBoundKeeps(h: PackSchemas, p: Pack, c: PackContracts)
    requires PackInvariant(h, p) && PackContractsValid(h, c) && PackPapersOf(p) <= PackPapers(c)
    ensures PackInvariant(h, PackBound(p, c)) && (p.contracts.Some? ==> p.contracts.value == c)
  {
    if p.contracts.Some? { PackPapersAre(p.contracts.value, c); }
    hide ChildrenOk, Shaped, Authentic;
  }

  /** Whatever contract files a start has written, nothing else has changed. */
  lemma PackContractTraceIs(p: Pack, c: PackContracts, i: nat)
    requires PackPapersOf(p) <= PackPapers(c) && i < |PackContractTrace(p, c)|
    ensures var x := PackContractTrace(p, c)[i];
            x == p || x == PackBound(p, c) || (p.contracts.None? && x == p.(draft := x.draft))
  {
    hide PackPapers;
  }

  lemma PackContractTraceKeeps(h: PackSchemas, p: Pack, c: PackContracts)
    requires PackInvariant(h, p) && PackContractsValid(h, c) && PackPapersOf(p) <= PackPapers(c)
    ensures EveryPackOk(h, PackContractTrace(p, c))
  {
    PackBoundKeeps(h, p, c);
    forall i | 0 <= i < |PackContractTrace(p, c)| ensures PackInvariant(h, PackContractTrace(p, c)[i]) {
      PackContractTraceIs(p, c, i);
      hide PackContractTrace, PackPapers, ChildrenOk, Authentic, Shaped, PackContractsValid;
    }
  }

  lemma InitialPackKeeps(h: PackSchemas, p: Pack, c: PackContracts, now: int)
    requires PackInvariant(h, p) && PackContractsValid(h, c) && p.state.None? && p.contracts == Some(c) && StateOk(h, InitialPackState(c, now))
    ensures PackInvariant(h, p.(state := Some(InitialPackState(c, now)), children := seq(|c.bindings|, i => NoMission)))
  {
    var initial := InitialPackState(c, now);
    assert ShapedAt(initial, 0);
    assert Authentic(c, initial);
    var children := seq(|c.bindings|, i => NoMission);
    assert Laws.Invariant(h.host, NoMission);
    assert ChildrenOk(h, c, initial, children);
    hide ChildrenOk, StateOk;
  }

  lemma PackStartKeeps(h: PackSchemas, p: Pack, c: PackContracts, now: int)
    requires PackInvariant(h, p)
    ensures EveryPackOk(h, PackStart(h, p, c, now).trace)
  {
    hide PackInvariant, PackContractsValid, PackContractTrace, PackPapers, StateOk, Loads;
    if PackContractsValid(h, c) && PackPapersOf(p) <= PackPapers(c) {
      var bound := PackBound(p, c);
      PackBoundKeeps(h, p, c);
      PackContractTraceKeeps(h, p, c);
      if p.state.None? && StateOk(h, InitialPackState(c, now)) { InitialPackKeeps(h, bound, c, now); }
    }
  }

  // ---------------------------------------------------------------- whole runs

  datatype PackCall =
    | CallPackStart(contracts: PackContracts, now: int, crashAfter: nat)
    | CallPackNext(now: int, at: int, crashAfter: nat)
    | CallPackRecord(receipt: Receipt, at: int, crashAfter: nat)
    | CallPackAbandon(now: int, at: int, crashAfter: nat)

  ghost function PackEffectOf(h: PackSchemas, p: Pack, call: PackCall): PackEffect {
    match call
    case CallPackStart(c, now, _) => PackStart(h, p, c, now)
    case CallPackNext(now, at, _) => PackNext(h, p, now, at)
    case CallPackRecord(r, at, _) => PackRecord(h, p, r, at)
    case CallPackAbandon(now, at, _) => PackAbandon(h, p, now, at)
  }

  ghost function PackAfter(h: PackSchemas, p: Pack, call: PackCall): Pack {
    var trace := PackEffectOf(h, p, call).trace;
    if |trace| == 0 then p else if call.crashAfter < |trace| then trace[call.crashAfter] else trace[|trace| - 1]
  }

  ghost function PackRun(h: PackSchemas, calls: seq<PackCall>): Pack {
    if |calls| == 0 then NoPack else PackAfter(h, PackRun(h, calls[..|calls| - 1]), calls[|calls| - 1])
  }

  lemma PackCallKeeps(h: PackSchemas, p: Pack, call: PackCall)
    requires PackInvariant(h, p)
    ensures EveryPackOk(h, PackEffectOf(h, p, call).trace) && PackInvariant(h, PackAfter(h, p, call))
  {
    hide PackInvariant, PackStart, PackNext, PackRecord, PackAbandon;
    match call
    case CallPackStart(c, now, _) => PackStartKeeps(h, p, c, now);
    case CallPackNext(now, at, _) => PackNextKeeps(h, p, now, at);
    case CallPackRecord(r, at, _) => PackRecordKeeps(h, p, r, at);
    case CallPackAbandon(now, at, _) => PackAbandonKeeps(h, p, now, at);
  }

  lemma {:induction false} EveryPackRunAgrees(h: PackSchemas, calls: seq<PackCall>)
    ensures PackInvariant(h, PackRun(h, calls))
  {
    if |calls| > 0 {
      EveryPackRunAgrees(h, calls[..|calls| - 1]);
      PackCallKeeps(h, PackRun(h, calls[..|calls| - 1]), calls[|calls| - 1]);
      hide PackInvariant;
    }
  }
}
