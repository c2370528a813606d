/** What no call on a host mission ever changes: its contracts and the time it was created. */
module HostMissionBirth {
  import opened Wrappers
  import opened MissionState
  import opened MissionHistory
  import opened HostDocuments
  import opened HostMission
  import opened HostMissionLaws
  import opened HostMissionRuns
  import opened HostMissionRecovery

  ghost predicate SameDiskBirth(disk: Disk, x: Disk) {
    x.state.Some? == disk.state.Some? && (disk.state.Some? ==> x.state.value.createdAt == disk.state.value.createdAt)
  }

  ghost predicate SameBirth(m: Mission, x: Mission) { x.contracts == m.contracts && x.draft == m.draft && SameDiskBirth(m.store, x.store) }

  ghost predicate EverySameBirth(m: Mission, trace: seq<Mission>) {
    forall i :: 0 <= i < |trace| ==> SameBirth(m, trace[i])
  }

  lemma RepairKeepsBirth(s: Schemas, disk: Disk)
    ensures forall i :: 0 <= i < |RepairTrace(s, disk)| ==> SameDiskBirth(disk, RepairTrace(s, disk)[i])
    ensures Repaired(s, disk).Ok? ==> disk.state.Some? && Repaired(s, disk).value.createdAt == disk.state.value.createdAt
    ensures SameDiskBirth(disk, SettledDisk(s, disk))
  {
    hide Readable;
  }

  lemma PlanKeepsBirth(s: Schemas, d: Document, events: map<nat, Event>, r: Request, at: int)
    ensures var plan := PlanMove(s, d, events, r, at);
            plan.Ok? && plan.value.Append? ==> plan.value.updated.createdAt == d.createdAt
  {}

  lemma MoveKeepsBirth(s: Schemas, disk: Disk, r: Request, at: int)
    ensures forall i :: 0 <= i < |MoveTrace(s, disk, r, at)| ==> SameDiskBirth(disk, MoveTrace(s, disk, r, at)[i])
  {
    RepairKeepsBirth(s, disk);
    if Repaired(s, disk).Ok? { PlanKeepsBirth(s, Repaired(s, disk).value, disk.events, r, at); }
    hide Repaired, RepairTrace, PlanMove, SettledDisk;
  }

  lemma ApplyMoveBirth(h: HostSchemas, m: Mission, request: Request, at: int, reply: Document -> Reply)
    ensures EverySameBirth(m, ApplyMove(h, m, request, at, reply).trace)
  {
    MoveKeepsBirth(h.store, m.store, request, at);
    hide MoveTrace, Moved;
  }

  lemma ThenBirth(m: Mission, next: Mission, e: Effect)
    requires EverySameBirth(next, e.trace) && SameBirth(m, next)
    ensures EverySameBirth(m, Then(m, e).trace)
  {}

  lemma FinishBirth(h: HostSchemas, c: Contracts, m: Mission, d: Document, intent: Intent, r: Receipt, at: int)
    ensures EverySameBirth(m, Finish(h, c, m, d, intent, r, at).trace)
  {
    hide ReceiptValid, PlanReceipt, PlanFits, ApplyMove, Then, Writable;
    var reported := WithResult(m, ResultFor(intent, r));
    if PlanReceipt(d, r).Apply? {
      var reply := (state: Document) => Finished(r.outcome, r.key, state);
      ApplyMoveBirth(h, reported, PlanReceipt(d, r).request, at, reply);
      ThenBirth(m, reported, ApplyMove(h, reported, PlanReceipt(d, r).request, at, reply));
    }
  }

  lemma ReceiveBirth(h: HostSchemas, m: Mission, d: Document, r: Receipt, at: int)
    requires r.key in m.journal.intents
    ensures EverySameBirth(m, Receive(h, m, d, r, at).trace)
  {
    hide ReceiptValid, PlanFits, Finish, Then, Writable;
    if m.contracts.Some? {
      var persisted, intent := WithReceipt(m, r), m.journal.intents[r.key];
      FinishBirth(h, m.contracts.value, persisted, d, intent, r, at);
      ThenBirth(m, persisted, Finish(h, m.contracts.value, persisted, d, intent, r, at));
    }
  }

  lemma SettledBirth(h: HostSchemas, m: Mission)
    ensures SameBirth(m, Settled(h, m))
  {
    RepairKeepsBirth(h.store, m.store);
  }

  lemma RecordBirth(h: HostSchemas, m: Mission, r: Receipt, at: int)
    ensures EverySameBirth(m, Record(h, m, r, at).trace)
  {
    SettledBirth(h, m);
    hide Receive, Then, JournalLoads, Repaired, SettledDisk;
    if r.key in m.journal.intents && Repaired(h.store, m.store).Ok? {
      ReceiveBirth(h, Settled(h, m), Repaired(h.store, m.store).value, r, at);
      ThenBirth(m, Settled(h, m), Receive(h, Settled(h, m), Repaired(h.store, m.store).value, r, at));
    }
  }

  lemma DriveBirth(h: HostSchemas, m: Mission, d: Document, now: int, at: int)
    ensures EverySameBirth(m, Drive(h, m, d, now, at).trace)
  {
    hide Finish, ApplyMove, JournalLoads, IdentityHolds, ContractsValid, RequestFor, KeyOf;
    ApplyMoveBirth(h, m, Request(Blocked, Some(Get(d.fields, MissionState.AttemptId)), BudgetLimited), at, (state: Document) => TerminalReply(state));
    if m.contracts.Some? && ActionOf(d.state).Some? {
      var k := KeyOf(d, ActionOf(d.state).value);
      if k in m.journal.intents && k in m.journal.receipts {
        FinishBirth(h, m.contracts.value, m, d, m.journal.intents[k], m.journal.receipts[k], at);
      }
    }
  }

  lemma NextBirth(h: HostSchemas, m: Mission, now: int, at: int)
    ensures EverySameBirth(m, Next(h, m, now, at).trace)
  {
    SettledBirth(h, m);
    hide Drive, Then, Repaired, SettledDisk;
    if Repaired(h.store, m.store).Ok? {
      DriveBirth(h, Settled(h, m), Repaired(h.store, m.store).value, now, at);
      ThenBirth(m, Settled(h, m), Drive(h, Settled(h, m), Repaired(h.store, m.store).value, now, at));
    }
  }

  lemma AbandonBirth(h: HostSchemas, m: Mission, at: int)
    ensures EverySameBirth(m, Abandon(h, m, at).trace)
  {
    SettledBirth(h, m);
    hide ApplyMove, Then, Repaired, SettledDisk;
    if Repaired(h.store, m.store).Ok? {
      var d := Repaired(h.store, m.store).value;
      var rest := if Terminal(d.state) then Effect([Settled(h, m)], Ok(TerminalReply(d)))
                  else ApplyMove(h, Settled(h, m), Request(Abandoned, Some(Get(d.fields, MissionState.AttemptId)), map[]), at,
                                 (state: Document) => TerminalReply(state));
      ApplyMoveBirth(h, Settled(h, m), Request(Abandoned, Some(Get(d.fields, MissionState.AttemptId)), map[]), at, (state: Document) => TerminalReply(state));
      ThenBirth(m, Settled(h, m), rest);
    }
  }

  // ---------------------------------------------------------------- start

  /** A mission under contracts `c`, as far as they are written, created at `born` if it exists. */
  ghost predicate BornUnder(m: Mission, c: Contracts, born: int) {
    PapersOf(m) <= Papers(c) && (m.store.state.Some? ==> m.store.state.value.createdAt == born)
  }

  ghost predicate EveryBornUnder(trace: seq<Mission>, c: Contracts, born: int) {
    forall i :: 0 <= i < |trace| ==> BornUnder(trace[i], c, born)
  }

  lemma SameBirthBornUnder(m: Mission, trace: seq<Mission>, c: Contracts, born: int)
    requires EverySameBirth(m, trace) && BornUnder(m, c, born)
    ensures EveryBornUnder(trace, c, born)
  {}

  lemma ThenBornUnder(m: Mission, e: Effect, c: Contracts, born: int)
    requires BornUnder(m, c, born) && EveryBornUnder(e.trace, c, born)
    ensures EveryBornUnder(Then(m, e).trace, c, born)
  {}

  lemma AuthorizeBirth(h: HostSchemas, c: Contracts, m: Mission, d: Document, at: int)
    ensures EverySameBirth(m, Authorize(h, c, m, d, at).trace)
  {
    hide IdentityHolds, AttemptOf, ApplyMove;
    ApplyMoveBirth(h, m, Request(Authorized, Some(AttemptOf(h, c)), map[AuthorizationId := Str(c.authorization.authorizationId)]), at,
                   (state: Document) => Started(state));
  }

  /** Starting again with the same contracts and clock keeps the mission born under them. */
  lemma StartBornUnder(h: HostSchemas, m: Mission, c: Contracts, now: int, at: int)
    requires BornUnder(m, c, now)
    ensures EveryBornUnder(Start(h, m, c, now, at).trace, c, now)
  {
    hide StartBound, ContractsValid, ContractTrace, Papers;
    forall i | 0 <= i < |ContractTrace(m, c)| ensures BornUnder(ContractTrace(m, c)[i], c, now) { ContractTraceIs(m, c, i); }
    BoundIsBornUnder(m, c, now);
    StartBoundBornUnder(h, BoundTo(m, c), c, now, at);
    hide BornUnder, PapersOf;
  }

  lemma BoundIsBornUnder(m: Mission, c: Contracts, now: int)
    requires BornUnder(m, c, now)
    ensures BornUnder(BoundTo(m, c), c, now)
  {}

  lemma StartBoundBornUnder(h: HostSchemas, m: Mission, c: Contracts, now: int, at: int)
    requires BornUnder(m, c, now)
    ensures EveryBornUnder(StartBound(h, m, c, now, at).trace, c, now)
  {
    var initial := InitialState(h, c, now);
    var created := m.(store := m.store.(state := Some(initial)));
    hide Authorize, Then, Repaired, IdentityHolds, ContractsValid, SettledDisk, Papers;
    if m.store.state.None? {
      AuthorizeBirth(h, c, created, initial, at);
      SameBirthBornUnder(created, Authorize(h, c, created, initial, at).trace, c, now);
      ThenBornUnder(m, Authorize(h, c, created, initial, at), c, now);
    } else if Repaired(h.store, m.store).Ok? {
      var settled, d := Settled(h, m), Repaired(h.store, m.store).value;
      SettledBirth(h, m);
      AuthorizeBirth(h, c, settled, d, at);
      SameBirthBornUnder(settled, Authorize(h, c, settled, d, at).trace, c, now);
      ThenBornUnder(m, Authorize(h, c, settled, d, at), c, now);
    }
  }

  /** A mission that was started exists. */
  lemma StartedExists(h: HostSchemas, m: Mission, c: Contracts, now: int, at: int)
    requires Start(h, m, c, now, at).reply.Ok?
    ensures Final(Start(h, m, c, now, at)).store.state.Some?
  {
    var bound := BoundTo(m, c);
    var created := bound.(store := bound.store.(state := Some(InitialState(h, c, now))));
    hide Authorize, Repaired, ContractsValid, SettledDisk, InitialState, ContractTrace, Papers;
    if m.store.state.None? {
      AuthorizeBirth(h, c, created, InitialState(h, c, now), at);
    } else if Repaired(h.store, m.store).Ok? {
      SettledBirth(h, bound);
      AuthorizeBirth(h, c, Settled(h, bound), Repaired(h.store, m.store).value, at);
    }
  }

  /**
    Starting a mission whose contracts, as far as they were written, are the same is accepted: nothing drifts, and
    it fails only if the contracts or a document are refused by a schema.
  */
  lemma RestartNeverDrifts(h: HostSchemas, m: Mission, c: Contracts, now: int, at: int)
    requires Invariant(h, m) && PapersOf(m) <= Papers(c)
    ensures Start(h, m, c, now, at).reply.Err? ==> Start(h, m, c, now, at).reply.error in {NoContracts, StoreFailed, AuthorizationDrift}
    ensures Start(h, m, c, now, at).reply == Err(AuthorizationDrift) ==>
              Current(h, m).Some? && Stopped(Current(h, m).value.state) && Current(h, m).value.revision == 1
  {
    hide Repaired, RepairTrace, Moved, MoveTrace, ContractsValid, ContractTrace, Papers;
    if m.store.state.Some? {
      BoundKeeps(h, m, c);
      SettledIsReady(h, m);
      var d := Repaired(h.store, m.store).value;
      ReadyAgrees(h, Settled(h, m), m.contracts.value, d);
      assert IdentityHolds(h, c, d) && OnPath(h, c, d);
    }
    hide Invariant, Agree;
  }
}
